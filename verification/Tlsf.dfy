/**
 The two-level segregated-fit allocator over a word memory: block headers,
 boundary tags and free-list links all live in `mem`, indexed by word address.
 Pointers are relative to the start of the pool, so 0 is the null pointer.
 */
module Tlsf {
  import opened Words
  import opened SizeClasses
  import opened Tiling
  import opened FreeLists

  /** The first block follows the rounded-up control structure of 3180 bytes. */
  const CONTROL_BYTES := 3180
  const BASE := 796

  // ----- header words: a size in bytes whose low two bits are flags

  function SizeOf(w: int): int { w - w % 4 }

  predicate IsFree(w: int) { w % 2 == 1 }

  function SetFree(w: int): int { if w % 2 == 1 then w else w + 1 }

  function ClearFree(w: int): int { if w % 2 == 1 then w - 1 else w }

  predicate PrevIsFree(w: int) { w % 4 >= 2 }

  function PrevState(w: int): int { if w % 4 >= 2 then 2 else 0 }

  function SetPrevFree(w: int): int { if w % 4 >= 2 then w else w + 2 }

  function ClearPrevFree(w: int): int { if w % 4 >= 2 then w - 2 else w }

  /** A size word for a block of the given state. */
  function Tag(size: int, free: bool, prevFree: bool): int {
    size + (if free then 1 else 0) + (if prevFree then 2 else 0)
  }

  lemma TagParts(size: int, free: bool, prevFree: bool)
    requires size % 8 == 0
    ensures var w := Tag(size, free, prevFree);
            SizeOf(w) == size && IsFree(w) == free && PrevIsFree(w) == prevFree &&
            PrevState(w) == (if prevFree then 2 else 0) &&
            SetFree(w) == Tag(size, true, prevFree) && ClearFree(w) == Tag(size, false, prevFree) &&
            SetPrevFree(w) == Tag(size, free, true) && ClearPrevFree(w) == Tag(size, free, false)
  {
    var flags := Tag(0, free, prevFree);
    QuotientUnique(size + flags, 4, size / 4, flags);
    QuotientUnique(size + flags, 2, size / 2 + (if prevFree then 1 else 0), if free then 1 else 0);
  }

  predicate PrevFree(bs: seq<Block>, k: nat)
    requires k < |bs|
  {
    k > 0 && bs[k - 1].free
  }

  /** Block k's header holds its size and flags, and its left neighbour's address when that is free. */
  ghost predicate HeaderAt(mem: seq<int>, bs: seq<Block>, k: nat)
    requires k < |bs|
  {
    && 0 <= bs[k].addr && bs[k].addr + 2 <= |mem|
    && mem[bs[k].addr + 1] == Tag(bs[k].size, bs[k].free, PrevFree(bs, k))
    && (PrevFree(bs, k) ==> mem[bs[k].addr] == bs[k - 1].addr)
  }

  ghost predicate Headers(mem: seq<int>, bs: seq<Block>) {
    forall k {:trigger HeaderAt(mem, bs, k)} :: 0 <= k < |bs| ==> HeaderAt(mem, bs, k)
  }

  /** A word the free lists own: the links of some free block. */
  predicate LinkWord(fm: map<int, int>, w: int) {
    w - 2 in fm || w - 3 in fm
  }

  lemma HeaderNotLink(bs: seq<Block>, lo: int, k: nat, w: int)
    requires Tiled(bs, lo) && k < |bs| && (w == bs[k].addr || w == bs[k].addr + 1)
    ensures !LinkWord(FreeMap(bs), w)
  {
    if LinkWord(FreeMap(bs), w) {
      var i := FreeMapBlock(bs, if w - 2 in FreeMap(bs) then w - 2 else w - 3);
      if i < k { Ordered(bs, lo, i, k); } else if k < i { Ordered(bs, lo, k, i); }
    }
  }

  lemma UsedNotLink(bs: seq<Block>, lo: int, k: nat, w: int)
    requires Tiled(bs, lo) && k < |bs| && !bs[k].free && bs[k].addr <= w < End(bs[k])
    ensures !LinkWord(FreeMap(bs), w)
  {
    if LinkWord(FreeMap(bs), w) {
      var i := FreeMapBlock(bs, if w - 2 in FreeMap(bs) then w - 2 else w - 3);
      if i < k { Ordered(bs, lo, i, k); } else if k < i { Ordered(bs, lo, k, i); }
    }
  }

  /** A word an operation on blocks i .. j may write: theirs, the next header's, or a list link. */
  predicate Touchable(bs: seq<Block>, bs': seq<Block>, i: nat, j: nat, w: int)
    requires i < j < |bs|
  {
    bs[i].addr <= w < bs[j].addr + 2 || LinkWord(FreeMap(bs), w) || LinkWord(FreeMap(bs'), w)
  }

  ghost predicate Frame(mem: seq<int>, mem': seq<int>, bs: seq<Block>, bs': seq<Block>, i: nat, j: nat)
    requires i < j < |bs|
  {
    |mem'| == |mem| && forall w :: 0 <= w < |mem| && !Touchable(bs, bs', i, j, w) ==> mem'[w] == mem[w]
  }

  lemma HeadersSplice(mem: seq<int>, mem': seq<int>, bs: seq<Block>, lo: int, i: nat, j: nat, mid: seq<Block>)
    requires Tiled(bs, lo) && i < j < |bs| && Fills(bs, i, j, mid) && Headers(mem, bs)
    requires var bs' := Splice(bs, i, j, mid);
             Frame(mem, mem', bs, bs', i, j) && (forall k :: i <= k <= i + |mid| ==> HeaderAt(mem', bs', k))
    ensures Headers(mem', Splice(bs, i, j, mid))
  {
    var bs' := Splice(bs, i, j, mid);
    SpliceTiled(bs, lo, i, j, mid);
    forall k | 0 <= k < |bs'| ensures HeaderAt(mem', bs', k) {
      if k < i || k > i + |mid| {
        var k' := if k < i then k else k - i - |mid| + j;
        assert bs'[k] == bs[k'];
        assert k > 0 ==> bs'[k - 1] == if k <= i then bs[k - 1] else bs[k' - 1];
        assert HeaderAt(mem, bs, k');
        if k < i { Ordered(bs, lo, k, i); } else { Ordered(bs, lo, j, k'); }
        HeaderNotLink(bs, lo, k', bs[k'].addr);
        HeaderNotLink(bs, lo, k', bs[k'].addr + 1);
        HeaderNotLink(bs', lo, k, bs[k'].addr);
        HeaderNotLink(bs', lo, k, bs[k'].addr + 1);
      }
    }
  }

  // ----- live payloads

  /** A block's payload words. */
  function Payload(mem: seq<int>, b: Block): seq<int> {
    if 0 <= b.addr && b.addr + 2 <= End(b) <= |mem| then mem[b.addr + 2..End(b)] else []
  }

  /** The payloads in use, by pointer. */
  function LiveMap(bs: seq<Block>, mem: seq<int>): map<int, seq<int>> {
    if bs == [] then map[]
    else
      var b, rest := bs[|bs| - 1], LiveMap(bs[..|bs| - 1], mem);
      if !b.free && b.size >= 8 && 0 <= b.addr && End(b) <= |mem| then rest[b.addr + 2 := mem[b.addr + 2..End(b)]]
      else rest
  }

  lemma {:induction false} LiveConcat(a: seq<Block>, b: seq<Block>, mem: seq<int>)
    ensures LiveMap(a + b, mem) == LiveMap(a, mem) + LiveMap(b, mem)
    decreases |b|
  {
    if b == [] {
      assert a + b == a;
    } else {
      var n := |b| - 1;
      assert (a + b)[..|a + b| - 1] == a + b[..n];
      LiveConcat(a, b[..n], mem);
    }
  }

  lemma {:induction false} LiveBlock(bs: seq<Block>, mem: seq<int>, p: int) returns (i: nat)
    requires p in LiveMap(bs, mem)
    ensures i < |bs| && bs[i].addr + 2 == p && !bs[i].free && bs[i].size >= 8 && 0 <= bs[i].addr && End(bs[i]) <= |mem|
    ensures LiveMap(bs, mem)[p] == mem[p..End(bs[i])]
  {
    var n := |bs| - 1;
    var b := bs[n];
    if !b.free && b.size >= 8 && 0 <= b.addr && End(b) <= |mem| && b.addr + 2 == p {
      i := n;
    } else {
      i := LiveBlock(bs[..n], mem, p);
    }
  }

  lemma {:induction false} LiveSame(bs: seq<Block>, mem: seq<int>, mem': seq<int>)
    requires |mem| == |mem'|
    requires forall k, w :: 0 <= k < |bs| && !bs[k].free && bs[k].addr + 2 <= w < End(bs[k]) && 0 <= w < |mem| ==>
             mem'[w] == mem[w]
    ensures LiveMap(bs, mem) == LiveMap(bs, mem')
    decreases |bs|
  {
    if bs != [] {
      var n := |bs| - 1;
      LiveSame(bs[..n], mem, mem');
      var b := bs[n];
      if !b.free && b.size >= 8 && 0 <= b.addr && End(b) <= |mem| {
        assert mem[b.addr + 2..End(b)] == mem'[b.addr + 2..End(b)];
      }
    }
  }

  lemma LiveKeysApart(bs: seq<Block>, lo: int, i: nat, j: nat, k: nat, l: nat, mem: seq<int>, mem': seq<int>)
    requires Tiled(bs, lo) && i <= j <= k <= l <= |bs|
    ensures LiveMap(bs[i..j], mem).Keys !! LiveMap(bs[k..l], mem').Keys
  {
    forall p | p in LiveMap(bs[i..j], mem) ensures p !in LiveMap(bs[k..l], mem') {
      var x := LiveBlock(bs[i..j], mem, p);
      if p in LiveMap(bs[k..l], mem') {
        var y := LiveBlock(bs[k..l], mem', p);
        Ordered(bs, lo, i + x, k + y);
      }
    }
  }

  /** Payloads outside the spliced blocks keep their pointers and contents. */
  lemma LiveSplice(mem: seq<int>, mem': seq<int>, bs: seq<Block>, lo: int, i: nat, j: nat, mid: seq<Block>)
    requires Tiled(bs, lo) && i < j < |bs| && Fills(bs, i, j, mid)
    requires Frame(mem, mem', bs, Splice(bs, i, j, mid), i, j)
    ensures LiveMap(Splice(bs, i, j, mid), mem') ==
            (LiveMap(bs, mem) - LiveMap(bs[i..j], mem).Keys) + LiveMap(mid, mem')
  {
    var bs' := Splice(bs, i, j, mid);
    var m := i + |mid|;
    var pre, post := bs[..i], bs[j..];
    SpliceTiled(bs, lo, i, j, mid);
    assert bs == pre + bs[i..j] + post;
    LiveConcat(pre + bs[i..j], post, mem);
    LiveConcat(pre, bs[i..j], mem);
    LiveConcat(pre + mid, post, mem');
    LiveConcat(pre, mid, mem');
    assert bs'[i..m] == mid && bs'[m..|bs'|] == post && bs[j..|bs|] == post && bs[0..i] == pre && bs'[0..i] == pre;
    LiveKeysApart(bs, lo, 0, i, i, j, mem, mem);
    LiveKeysApart(bs, lo, i, j, j, |bs|, mem, mem);
    LiveKeysApart(bs', lo, i, m, m, |bs'|, mem', mem);
    SpliceKeeps(mem, mem', bs, lo, i, j, mid);
    LiveSame(pre, mem, mem');
    LiveSame(post, mem, mem');
    LiveMapSplice(LiveMap(pre, mem), LiveMap(bs[i..j], mem), LiveMap(post, mem), LiveMap(mid, mem'));
  }

  lemma SpliceKeeps(mem: seq<int>, mem': seq<int>, bs: seq<Block>, lo: int, i: nat, j: nat, mid: seq<Block>)
    requires Tiled(bs, lo) && i < j < |bs| && Fills(bs, i, j, mid)
    requires Frame(mem, mem', bs, Splice(bs, i, j, mid), i, j)
    ensures forall k, w ::
            0 <= k < i && !bs[..i][k].free && bs[..i][k].addr + 2 <= w < End(bs[..i][k]) && 0 <= w < |mem| ==>
            mem'[w] == mem[w]
    ensures forall k, w ::
              (0 <= k < |bs[j..]| && !bs[j..][k].free && bs[j..][k].addr + 2 <= w < End(bs[j..][k]) &&
               0 <= w < |mem|) ==> mem'[w] == mem[w]
  {
    var bs' := Splice(bs, i, j, mid);
    SpliceTiled(bs, lo, i, j, mid);
    forall k, w | 0 <= k < i && !bs[..i][k].free && bs[..i][k].addr + 2 <= w < End(bs[..i][k]) && 0 <= w < |mem|
      ensures mem'[w] == mem[w]
    {
      assert bs'[k] == bs[k];
      Ordered(bs, lo, k, i);
      UsedNotLink(bs, lo, k, w);
      UsedNotLink(bs', lo, k, w);
    }
    forall k, w | 0 <= k < |bs[j..]| && !bs[j..][k].free && bs[j..][k].addr + 2 <= w < End(bs[j..][k]) && 0 <= w < |mem|
      ensures mem'[w] == mem[w]
    {
      assert bs'[i + |mid| + k] == bs[j + k];
      if k > 0 { Ordered(bs, lo, j, j + k); }
      UsedNotLink(bs, lo, j + k, w);
      UsedNotLink(bs', lo, i + |mid| + k, w);
    }
  }

  lemma LiveMapSplice(a: map<int, seq<int>>, o: map<int, seq<int>>, p: map<int, seq<int>>, m: map<int, seq<int>>)
    requires a.Keys !! o.Keys && o.Keys !! p.Keys && m.Keys !! p.Keys
    ensures a + m + p == ((a + o + p) - o.Keys) + m
  {
  }

  /** Free blocks of a row are fit for the lists. */
  lemma TiledSeparate(bs: seq<Block>, lo: int, n: int)
    requires Tiled(bs, lo) && 0 < lo && bs[|bs| - 1].addr + 2 <= n && (bs[|bs| - 1].addr - lo - 2) * 4 < MAX_BLOCK
    ensures Separate(FreeMap(bs), n)
  {
    var fm := FreeMap(bs);
    forall a | a in fm ensures Inside(a, n) && 8 <= fm[a] < MAX_BLOCK {
      var i := FreeMapBlock(bs, a);
      FromLow(bs, lo, i);
      Ordered(bs, lo, i, |bs| - 1);
    }
    forall a, b | a in fm && b in fm && a != b ensures Clear(a, b) {
      var i := FreeMapBlock(bs, a);
      var j := FreeMapBlock(bs, b);
      if i < j { Ordered(bs, lo, i, j); } else if j < i { Ordered(bs, lo, j, i); }
    }
  }

  /** What the lists own: their links, membership and bitmaps for the free blocks fm. */
  ghost predicate ListState(mem: seq<int>, matrix: seq<int>, fl: Word, sl: seq<Word>, lists: seq<seq<int>>,
                            fm: map<int, int>) {
    && Separate(fm, |mem|)
    && Members(lists, fm)
    && AllLinked(mem, matrix, lists)
    && Indexed(fl, sl, lists)
  }

  /** Only link words of fm differ. */
  ghost predicate LinksOnly(mem: seq<int>, mem': seq<int>, fm: map<int, int>) {
    |mem'| == |mem| && forall w :: 0 <= w < |mem| && !LinkWord(fm, w) ==> mem'[w] == mem[w]
  }

  predicate ClassPair(fl: int, sl: int) {
    0 <= fl < REAL_FLI && 0 <= sl < MAX_SLI
  }

  /** The words of a pool, and the one word past it where a sentinel that does not fit ends. */
  function PoolWords(bytes: Word): nat {
    if SentinelEnd(bytes) <= bytes then bytes / 4 else bytes / 4 + 1
  }

  /** The first block and the sentinel lie in those words. */
  lemma FirstFits(bytes: Word)
    requires CONTROL_BYTES + 128 <= bytes
    ensures var r := FirstBlock(bytes); 8 <= r && r % 8 == 0 && BASE + 4 + r / 4 <= PoolWords(bytes)
  {
    var q, m := bytes / 8, bytes % 8;
    QuotientUnique(bytes - CONTROL_BYTES - 16, 8, if m < 4 then q - 400 else q - 399, if m < 4 then m + 4 else m - 4);
  }

  class Pool {
    var mem: seq<int>
    var matrix: seq<int>
    var slBitmap: seq<Word>
    var flBitmap: Word
    var usedSize: int

    ghost var poolSize: int
    ghost var bs: seq<Block>
    ghost var lists: seq<seq<int>>

    ghost predicate Lists(fm: map<int, int>)
      reads this
    {
      ListState(mem, matrix, flBitmap, slBitmap, lists, fm)
    }

    /** Make `next` the head of a list, clearing the bitmap bits of a list or row left empty. */
    method SetHead(fl: int, sl: int, next: int, ghost l': seq<int>)
      requires Indexed(flBitmap, slBitmap, lists) && |matrix| == CLASSES && ClassPair(fl, sl)
      requires lists[ClassIndex(fl, sl)] != [] && next == First(l') && (l' != [] ==> l'[0] != 0)
      modifies this`matrix, this`slBitmap, this`flBitmap
      ensures matrix == old(matrix)[ClassIndex(fl, sl) := next]
      ensures Indexed(flBitmap, slBitmap, lists[ClassIndex(fl, sl) := l'])
    {
      var c := ClassIndex(fl, sl);
      matrix := matrix[c := next];
      if matrix[c] != 0 {
        KeepIndexed(flBitmap, slBitmap, lists, fl, sl, l');
      } else {
        EmptyIndexed(flBitmap, slBitmap, lists, fl, sl);
        slBitmap := slBitmap[fl := ClearBit(sl, slBitmap[fl])];
        if slBitmap[fl] == 0 {
          flBitmap := ClearBit(fl, flBitmap);
        }
      }
    }

    /** EXTRACT_BLOCK_HDR: unlink the first block of a list. */
    method ExtractBlockHdr(b: int, fl: int, sl: int, ghost fm: map<int, int>)
      requires Lists(fm) && b in fm && ClassPair(fl, sl) && ClassOfSize(fm[b]) == ClassIndex(fl, sl)
      requires matrix[ClassIndex(fl, sl)] == b
      modifies this`mem, this`matrix, this`slBitmap, this`flBitmap, this`lists
      ensures Lists(fm - {b}) && LinksOnly(old(mem), mem, fm)
    {
      var c := ClassIndex(fl, sl);
      ListedFirst(lists, fm, b, c, matrix[c]);
      Extracted(mem, matrix, lists, fm, c, 0);

      var next := mem[b + 3];
      SetHead(fl, sl, next, Without(lists[c], 0));
      if matrix[c] != 0 {
        mem := mem[matrix[c] + 2 := 0];
      }
      mem := mem[b + 2 := 0][b + 3 := 0];

      lists := lists[c := Without(lists[c], 0)];
    }

    /** Replace the head of a list if it is b. */
    method RemoveHead(b: int, fl: int, sl: int, next: int, ghost l': seq<int>)
      requires Indexed(flBitmap, slBitmap, lists) && |matrix| == CLASSES && ClassPair(fl, sl)
      requires lists[ClassIndex(fl, sl)] != []
      requires if matrix[ClassIndex(fl, sl)] == b then next == First(l') && (l' != [] ==> l'[0] != 0) else l' != []
      modifies this`matrix, this`slBitmap, this`flBitmap
      ensures matrix == old(matrix)[ClassIndex(fl, sl) := if old(matrix)[ClassIndex(fl, sl)] == b then next
                                                          else old(matrix)[ClassIndex(fl, sl)]]
      ensures Indexed(flBitmap, slBitmap, lists[ClassIndex(fl, sl) := l'])
    {
      if matrix[ClassIndex(fl, sl)] == b {
        SetHead(fl, sl, next, l');
      } else {
        KeepIndexed(flBitmap, slBitmap, lists, fl, sl, l');
      }
    }

    method JoinNeighbours(prev: int, next: int)
      requires Pointer(prev, |mem|) && Pointer(next, |mem|)
      modifies this`mem
      ensures mem == JoinWrites(old(mem), prev, next)
    {
      if next != 0 {
        mem := mem[next + 2 := prev];
      }
      if prev != 0 {
        mem := mem[prev + 3 := next];
      }
    }

    /** EXTRACT_BLOCK: unlink a block from anywhere in its list. */
    method ExtractBlock(b: int, fl: int, sl: int, ghost fm: map<int, int>)
      requires Lists(fm) && b in fm && ClassPair(fl, sl) && ClassOfSize(fm[b]) == ClassIndex(fl, sl)
      modifies this`mem, this`matrix, this`slBitmap, this`flBitmap, this`lists
      ensures Lists(fm - {b}) && LinksOnly(old(mem), mem, fm)
    {
      var c := ClassIndex(fl, sl);
      ghost var k :| 0 <= k < |lists[c]| && lists[c][k] == b;
      Extracted(mem, matrix, lists, fm, c, k);

      var prev, next := mem[b + 2], mem[b + 3];
      JoinNeighbours(prev, next);
      RemoveHead(b, fl, sl, next, Without(lists[c], k));
      mem := mem[b + 2 := 0][b + 3 := 0];
      lists := lists[c := Without(lists[c], k)];
    }

    /** INSERT_BLOCK: put a free block at the front of its list. */
    method InsertBlock(b: int, fl: int, sl: int, ghost size: int, ghost fm: map<int, int>)
      requires Lists(fm) && b !in fm && Separate(fm[b := size], |mem|)
      requires ClassPair(fl, sl) && ClassOfSize(size) == ClassIndex(fl, sl)
      modifies this`mem, this`matrix, this`slBitmap, this`flBitmap, this`lists
      ensures Lists(fm[b := size]) && LinksOnly(old(mem), mem, fm[b := size])
    {
      var c := ClassIndex(fl, sl);
      Inserted(mem, matrix, lists, fm, c, b, size);
      InsertIndexed(flBitmap, slBitmap, lists, fl, sl, [b] + lists[c]);

      mem := mem[b + 2 := 0][b + 3 := matrix[c]];
      if matrix[c] != 0 {
        mem := mem[matrix[c] + 2 := b];
      }
      matrix := matrix[c := b];
      slBitmap := slBitmap[fl := SetBit(sl, slBitmap[fl])];
      flBitmap := SetBit(fl, flBitmap);

      lists := lists[c := [b] + lists[c]];
    }

    /**
     FIND_SUITABLE_BLOCK: the first block of the lowest non-empty list from class
     (fl, sl) up, found through the bitmaps; the null pointer if there is none.
     */
    method FindSuitableBlock(fl: int, sl: int, ghost fm: map<int, int>) returns (b: int, fl': int, sl': int)
      requires Lists(fm) && ClassPair(fl, sl)
      ensures b == 0 ==> forall a :: a in fm ==> ClassOfSize(fm[a]) < ClassIndex(fl, sl)
      ensures b != 0 ==> ClassPair(fl', sl') && b in fm && matrix[ClassIndex(fl', sl')] == b
      ensures b != 0 ==> ClassOfSize(fm[b]) == ClassIndex(fl', sl') >= ClassIndex(fl, sl)
      ensures b != 0 ==> forall a :: a in fm && ClassOfSize(fm[a]) >= ClassIndex(fl, sl) ==>
                           ClassOfSize(fm[a]) >= ClassIndex(fl', sl')
    {
      b, fl', sl' := 0, fl, sl;
      var tmp := BitsFrom(slBitmap[fl], sl);
      if tmp != 0 {
        sl' := LsBit(tmp);
        RowSearch(flBitmap, slBitmap, lists, fm, fl, sl);
        FirstOfList(mem, matrix, lists, fm, ClassIndex(fl, sl'));
        b := matrix[ClassIndex(fl, sl')];
      } else {
        fl' := LsBit(BitsFrom(flBitmap, fl + 1));
        RowEmpty(flBitmap, slBitmap, lists, fm, fl, sl);
        HigherRows(flBitmap, slBitmap, lists, fm, fl);
        if fl' > 0 {
          sl' := LsBit(slBitmap[fl']);
          FirstOfList(mem, matrix, lists, fm, ClassIndex(fl', sl'));
          b := matrix[ClassIndex(fl', sl')];
        }
      }
    }

    // ----- the allocator

    /**
     tlsf_init_memory_pool: one free block and the sentinel, or -1 for a pool that is
     null, misaligned, too small, or too large for one block.
     */
    method Init(base: Word, bytes: Word) returns (r: int)
      modifies this
      ensures r == -1 <==> base == 0 || base % 4 != 0 || bytes < CONTROL_BYTES + 128 || FirstBlock(bytes) >= MAX_BLOCK
      ensures r != -1 ==> r == FirstBlock(bytes) && Valid() && poolSize == bytes && |mem| == PoolWords(bytes)
      ensures r != -1 ==> bs == [Block(BASE, r, true), Block(NextBlock(BASE, r), 0, false)] && Live() == map[]
    {
      hide ListState, FreeMap, FreeTotal, LiveMap, Headers, Tiled, NoFreeNeighbours, SizeOf, FirstBlock, PoolWords;
      if base == 0 || bytes < CONTROL_BYTES + 128 {
        return -1;
      }
      if base % 4 != 0 {
        return -1;
      }
      FirstFits(bytes);
      mem, matrix := seq(PoolWords(bytes), _ => 0), seq(CLASSES, _ => 0);
      slBitmap, flBitmap, usedSize := seq(REAL_FLI, _ => 0), 0, 0;
      var b := BASE;
      var word := Tag(FirstBlock(bytes), true, false);
      mem := mem[b + 1 := word][b + 2 := 0][b + 3 := 0];
      if word > MAX_BLOCK {
        return -1;
      }
      r := SizeOf(word);
      TagParts(FirstBlock(bytes), true, false);
      lists, poolSize := seq(CLASSES, _ => []), bytes;
      NoLists(mem);
      FileFirst(b, r);

      var lb := NextBlock(b, r);
      ghost var fm := map[b := r];
      SetWord(mem, matrix, flBitmap, slBitmap, lists, fm, lb, b);
      mem := mem[lb := b];
      SetWord(mem, matrix, flBitmap, slBitmap, lists, fm, lb + 1, 2);
      mem := mem[lb + 1 := 2];
      usedSize := bytes - r;
      bs := [Block(b, r, true), Block(lb, 0, false)];
      FirstRow(mem, bs, r);
    }

    /** The first insertion, into empty lists. */
    method FileFirst(b: int, size: int)
      requires Lists(map[]) && b == BASE && 8 <= size < MAX_BLOCK && b + 4 <= |mem|
      modifies this`mem, this`matrix, this`slBitmap, this`flBitmap, this`lists
      ensures Lists(map[b := size]) && LinksOnly(old(mem), mem, map[b := size])
    {
      hide ListState, MappingInsert;
      MappingInsertIsClass(size);
      var (fl, sl) := MappingInsert(size);
      ClassOfPair(size);
      assert map[][b := size] == map[b := size];
      InsertBlock(b, fl, sl, size, map[]);
    }

    /** The heap invariant. */
    ghost predicate Valid()
      reads this
    {
      && Tiled(bs, BASE) && NoFreeNeighbours(bs) && Fits(bs, |mem|)
      && Headers(mem, bs)
      && Lists(FreeMap(bs))
      && usedSize + FreeTotal(bs) == poolSize + 8
    }

    /** The payloads in use, by pointer. */
    ghost function Live(): map<int, seq<int>>
      reads this
    {
      LiveMap(bs, mem)
    }

    /**
     Cut the block at b down to n bytes and make a free block b2 of the `spare`
     bytes after it: write its header, point the right neighbour `next` back at
     it, and list it. `markNext` is set where the source also flags the neighbour.
     */
    method Cut(b: int, n: int, spare: int, next: int, markNext: bool, ghost b2: int, ghost fm: map<int, int>)
      requires Lists(fm) && 0 < b && 8 <= n && n % 8 == 0 && spare % 8 == 0 && 16 <= spare < MAX_BLOCK
      requires b2 == NextBlock(b, n) && next == NextBlock(b2, spare - 8) && next + 2 <= |mem|
      requires NoLinks(fm, b, next + 2) && Separate(fm[b2 := spare - 8], |mem|)
      modifies this`mem, this`matrix, this`slBitmap, this`flBitmap, this`lists
      ensures Lists(fm[b2 := spare - 8]) && |mem| == |old(mem)|
      ensures mem[b + 1] == n + PrevState(old(mem[b + 1])) && mem[b] == old(mem[b])
      ensures mem[b2 + 1] == spare - 8 + 1 && mem[next] == b2
      ensures mem[next + 1] == (if markNext then SetPrevFree(old(mem[next + 1])) else old(mem[next + 1]))
      ensures forall w :: 0 <= w < |mem| && w != b + 1 && !(b2 <= w < next + 2) && !LinkWord(fm, w) ==>
              mem[w] == old(mem[w])
    {
      hide ListState, Separate, MappingInsert, ClassOf, NoLinks, LinkWord, PrevState, NextBlock;
      NextBlockPast(b, n);
      NextBlockPast(b2, spare - 8);
      var tmp := spare - 8;
      var b2' := NextBlock(b, n);
      NoLinksAt(fm, b, next + 2, b2 + 1);
      NoLinksAt(fm, b, next + 2, next);
      NoLinksAt(fm, b, next + 2, next + 1);
      WriteHeaders(b2', tmp + 1, next, markNext, fm);
      MappingInsertIsClass(tmp);
      var (fl, sl) := MappingInsert(tmp);
      ClassOfPair(tmp);
      ghost var fm' := fm[b2 := tmp];
      CutFrame(fm, fm', b, b2, next);
      InsertBlock(b2', fl, sl, tmp, fm);
      NoLinksAt(fm', b, b2 + 2, b + 1);
      NoLinksAt(fm', b, b2 + 2, b);
      NoLinksAt(fm', b, b2 + 2, b2 + 1);
      NoLinksAt(fm', next, next + 2, next);
      NoLinksAt(fm', next, next + 2, next + 1);
      SetWord(mem, matrix, flBitmap, slBitmap, lists, fm', b + 1, n + PrevState(mem[b + 1]));
      mem := mem[b + 1 := n + PrevState(mem[b + 1])];
    }

    /** The header of a new free block and the boundary tag of its right neighbour. */
    method WriteHeaders(b2: int, tag: int, next: int, markNext: bool, ghost fm: map<int, int>)
      requires Lists(fm) && 0 <= b2 && b2 + 4 <= next && next + 2 <= |mem|
      requires !LinkWord(fm, b2 + 1) && !LinkWord(fm, next) && !LinkWord(fm, next + 1)
      modifies this`mem
      ensures Lists(fm)
      ensures mem == old(mem)[b2 + 1 := tag][next := b2]
                       [next + 1 := if markNext then SetPrevFree(old(mem)[next + 1]) else old(mem)[next + 1]]
    {
      SetWord(mem, matrix, flBitmap, slBitmap, lists, fm, b2 + 1, tag);
      mem := mem[b2 + 1 := tag];
      SetWord(mem, matrix, flBitmap, slBitmap, lists, fm, next, b2);
      mem := mem[next := b2];
      if markNext {
        SetWord(mem, matrix, flBitmap, slBitmap, lists, fm, next + 1, SetPrevFree(mem[next + 1]));
        mem := mem[next + 1 := SetPrevFree(mem[next + 1])];
      }
    }

    /** Put an unlinked free block to use, cutting off a rest large enough to stand alone. */
    method UseBlock(b: int, size: int, ghost total: int, ghost next: int, ghost nextSize: int, ghost prevFree: bool,
                    ghost fm: map<int, int>)
      requires Lists(fm) && 0 < b && 8 <= size <= total < MAX_BLOCK && size % 8 == 0 && total % 8 == 0 &&
               nextSize % 8 == 0
      requires next == NextBlock(b, total) && next + 2 <= |mem| && NoLinks(fm, b, next + 2)
      requires mem[b + 1] == Tag(total, true, prevFree) && mem[next + 1] == Tag(nextSize, false, true)
      requires total - size >= 16 ==> Separate(fm[NextBlock(b, size) := total - size - 8], |mem|)
      modifies this`mem, this`matrix, this`slBitmap, this`flBitmap, this`lists, this`usedSize
      ensures Lists(if total - size >= 16 then fm[NextBlock(b, size) := total - size - 8] else fm)
      ensures |mem| == |old(mem)| && CarvedWords(mem, b, total, size, next, nextSize, prevFree) && mem[b] == old(mem[b])
      ensures usedSize == old(usedSize) + CarvedSize(total, size) + 8
      ensures forall w :: 0 <= w < |mem| && !(b <= w < next + 2) && !LinkWord(fm, w) ==> mem[w] == old(mem[w])
    {
      hide ListState, Separate, NoLinks, LinkWord, SizeOf, PrevState, NextBlock;
      NextBlockPast(b, total);
      if total - size >= 16 {
        NextBlockPast(b, size);
        NextBlockSplit(b, size, total - size - 8);
        NextBlockPast(NextBlock(b, size), total - size - 8);
      }
      TagParts(total, true, prevFree);
      TagParts(nextSize, false, true);
      TagParts(CarvedSize(total, size), false, prevFree);
      var next_b := NextBlock(b, SizeOf(mem[b + 1]));
      var tmp := SizeOf(mem[b + 1]) - size;
      if tmp >= 16 {
        Cut(b, size, tmp, next_b, false, NextBlock(b, size), fm);
      } else {
        UseWhole(b, total, next_b, nextSize, prevFree, fm);
      }
      usedSize := usedSize + SizeOf(mem[b + 1]) + 8;
    }

    /** Put an unlinked free block to use as it is. */
    method UseWhole(b: int, ghost total: int, next: int, ghost nextSize: int, ghost prevFree: bool,
                    ghost fm: map<int, int>)
      requires Lists(fm) && 0 < b && b + 2 <= next && next + 2 <= |mem| && NoLinks(fm, b, next + 2) &&
               total % 8 == 0 && nextSize % 8 == 0
      requires mem[b + 1] == Tag(total, true, prevFree) && mem[next + 1] == Tag(nextSize, false, true)
      modifies this`mem
      ensures Lists(fm)
      ensures mem == old(mem)[b + 1 := Tag(total, false, prevFree)][next + 1 := Tag(nextSize, false, false)]
    {
      hide ListState, LinkWord, NoLinks, ClearFree, ClearPrevFree, Tag;
      TagParts(total, true, prevFree);
      TagParts(nextSize, false, true);
      NoLinksAt(fm, b, next + 2, next + 1);
      NoLinksAt(fm, b, next + 2, b + 1);
      SetWord(mem, matrix, flBitmap, slBitmap, lists, fm, next + 1, ClearPrevFree(mem[next + 1]));
      mem := mem[next + 1 := ClearPrevFree(mem[next + 1])];
      SetWord(mem, matrix, flBitmap, slBitmap, lists, fm, b + 1, ClearFree(mem[b + 1]));
      mem := mem[b + 1 := ClearFree(mem[b + 1])];
    }

    /** The part of tlsf_malloc after a block is found: unlink it and put it to use. */
    method TakeBlock(b: int, fl: int, sl: int, size: int, ghost i: nat)
      requires Valid() && i < |bs| && bs[i].free && bs[i].addr == b && 8 <= size <= bs[i].size && size % 8 == 0
      requires ClassPair(fl, sl) && ClassOfSize(bs[i].size) == ClassIndex(fl, sl) && matrix[ClassIndex(fl, sl)] == b
      modifies this
      ensures Valid() && bs == Take(old(bs), i, size) && |mem| == |old(mem)| && poolSize == old(poolSize)
      ensures Frame(old(mem), mem, old(bs), bs, i, i + 1)
    {
      hide FreeMap, ListState, Separate, Headers, FreeTotal, NoFreeNeighbours, NoLinks, Take, CarvedWords,
           MappingInsert;
      ghost var bs0, fm0, m0 := bs, FreeMap(bs), mem;
      ghost var total, next := bs[i].size, bs[i + 1].addr;
      TakeReady(mem, bs, i, size);
      TakeRow(bs, i, size, |mem|);
      ghost var bs' := Take(bs, i, size);

      ExtractBlockHdr(b, fl, sl, fm0);
      UseBlock(b, size, total, next, bs0[i + 1].size, PrevFree(bs0, i), fm0 - {b});

      TakeDone(m0, mem, bs0, i, size);
      bs := bs';
    }

    /**
     tlsf_malloc. It fails exactly when no free block has the class-rounded size;
     otherwise the block comes from the lowest class that can hold one.
     */
    method Malloc(size: Word) returns (p: int, ghost i: nat)
      requires Valid() && Storable(size)
      modifies this
      ensures Valid() && |mem| == |old(mem)| && poolSize == old(poolSize)
      ensures p == 0 <==> NoneReaches(old(bs), RoundUp(size))
      ensures p == 0 <==> NoneFree(old(bs), Need(size))
      ensures p == 0 ==> bs == old(bs) && mem == old(mem) && usedSize == old(usedSize)
      ensures p != 0 ==>
              TakenFrom(old(bs), i, Need(size)) && p == old(bs)[i].addr + 2 && bs == Take(old(bs), i, Need(size))
      ensures p != 0 ==>
              i < |bs| && p == bs[i].addr + 2 && RoundUp(size) <= bs[i].size < RoundUp(size) + RoundUp(size) / 32 + 16
      ensures p != 0 ==> p !in old(Live()) && Live() == old(Live())[p := Payload(mem, bs[i])]
    {
      hide MappingSearch, RoundUp, ClassOf, FreeMap, LiveMap, Take, NoneReaches;
      hide Members, AllLinked, Indexed, Headers, NoFreeNeighbours;
      NoneLargeEnough(bs, size);
      var r := RoundUp(size);
      SearchRoundsToClass(r);
      var (need, fl0, sl0) := MappingSearch(r);
      var b, fl, sl := FindSuitableBlock(fl0, sl0, FreeMap(bs));
      if b == 0 {
        NoneSuits(bs, need, fl0, sl0, |mem|);
        return 0, 0;
      }
      i := SuitableBlock(bs, need, fl0, sl0, b, |mem|);
      TakeBlock(b, fl, sl, need, i);
      LiveTaken(old(bs), i, need, old(mem), mem);
      p := b + 2;
    }

    /** Unlink a free block, finding its list from its header. */
    method Unlink(b: int, ghost fm: map<int, int>)
      requires Lists(fm) && b in fm && 0 <= b && b + 1 < |mem| && SizeOf(mem[b + 1]) == fm[b]
      modifies this`mem, this`matrix, this`slBitmap, this`flBitmap, this`lists
      ensures Lists(fm - {b}) && LinksOnly(old(mem), mem, fm)
    {
      hide MappingInsert, Members, AllLinked, Indexed;
      MappingInsertIsClass(SizeOf(mem[b + 1]));
      var (fl, sl) := MappingInsert(SizeOf(mem[b + 1]));
      ClassOfPair(fm[b]);
      ExtractBlock(b, fl, sl, fm);
    }

    /** Flag a block free, account for it, and clear its link words. */
    method MarkFree(b: int, ghost size: int, ghost prevFree: bool, ghost fm: map<int, int>)
      requires Lists(fm) && 0 <= b && b + 4 <= |mem| && NoLinks(fm, b, b + 4)
      requires size % 8 == 0 && mem[b + 1] == Tag(size, false, prevFree)
      modifies this`mem, this`usedSize
      ensures Lists(fm) && mem == old(mem)[b + 1 := Tag(size, true, prevFree)][b + 2 := 0][b + 3 := 0]
      ensures usedSize == old(usedSize) - (size + 8)
    {
      hide Members, AllLinked, Indexed, Separate, LinkWord, ListState;
      TagParts(size, false, prevFree);
      TagParts(size, true, prevFree);
      NoLinksAt(fm, b, b + 4, b + 1);
      NoLinksAt(fm, b, b + 4, b + 2);
      NoLinksAt(fm, b, b + 4, b + 3);
      SetWord(mem, matrix, flBitmap, slBitmap, lists, fm, b + 1, SetFree(mem[b + 1]));
      mem := mem[b + 1 := SetFree(mem[b + 1])];
      usedSize := usedSize - (SizeOf(mem[b + 1]) + 8);
      SetWord(mem, matrix, flBitmap, slBitmap, lists, fm, b + 2, 0);
      SetWord(mem[b + 2 := 0], matrix, flBitmap, slBitmap, lists, fm, b + 3, 0);
      mem := mem[b + 2 := 0][b + 3 := 0];
    }

    /** Grow the block at b over a free right neighbour. */
    method MergeNext(b: int, ghost size: int, ghost isFree: bool, ghost prevFree: bool, ghost next: int,
                     ghost nextSize: int, ghost nextFree: bool, ghost fm: map<int, int>)
      requires Lists(fm) && 0 <= b && size % 8 == 0 && nextSize % 8 == 0 && 0 <= size
      requires next == NextBlock(b, size) && next + 2 <= |mem|
      requires mem[b + 1] == Tag(size, isFree, prevFree) && mem[next + 1] == Tag(nextSize, nextFree, false)
      requires nextFree ==> next in fm && fm[next] == nextSize
      requires !LinkWord(fm, b) && !LinkWord(fm, b + 1) && !LinkWord(fm, next + 1)
      modifies this`mem, this`matrix, this`slBitmap, this`flBitmap, this`lists
      ensures Lists(if nextFree then fm - {next} else fm) && |mem| == |old(mem)|
      ensures mem[b + 1] == Tag(size + (if nextFree then nextSize + 8 else 0), isFree, prevFree)
      ensures forall w :: 0 <= w < |mem| && w != b + 1 && !LinkWord(fm, w) ==> mem[w] == old(mem[w])
    {
      hide Members, AllLinked, Indexed, Separate, ListState;
      TagParts(size, isFree, prevFree);
      TagParts(nextSize, nextFree, false);
      var next_b := NextBlock(b, SizeOf(mem[b + 1]));
      if IsFree(mem[next_b + 1]) {
        Unlink(next_b, fm);
        SetWord(mem, matrix, flBitmap, slBitmap, lists, fm - {next}, b + 1, mem[b + 1] + SizeOf(mem[next_b + 1]) + 8);
        mem := mem[b + 1 := mem[b + 1] + SizeOf(mem[next_b + 1]) + 8];
      }
    }

    /** Merge the free block at b into a free left neighbour. */
    method MergePrev(b: int, ghost size: int, ghost prev: int, ghost prevSize: int, ghost prevFree: bool,
                     ghost fm: map<int, int>) returns (b': int)
      requires Lists(fm) && 0 <= b && size % 8 == 0 && prevSize % 8 == 0 && 0 <= size && b + 2 <= |mem|
      requires mem[b + 1] == Tag(size, true, prevFree)
      requires prevFree ==> prev in fm && fm[prev] == prevSize && mem[b] == prev && 0 <= prev && prev + 2 <= |mem|
      requires prevFree ==> prev != b && mem[prev + 1] == Tag(prevSize, true, false) && !LinkWord(fm, prev + 1)
      requires !LinkWord(fm, b + 1)
      modifies this`mem, this`matrix, this`slBitmap, this`flBitmap, this`lists
      ensures Lists(if prevFree then fm - {prev} else fm) && |mem| == |old(mem)|
      ensures b' == (if prevFree then prev else b)
      ensures mem[b' + 1] == Tag(size + (if prevFree then prevSize + 8 else 0), true, false)
      ensures forall w :: 0 <= w < |mem| && w != b' + 1 && !LinkWord(fm, w) ==> mem[w] == old(mem[w])
    {
      hide Members, AllLinked, Indexed, Separate, ListState;
      TagParts(size, true, prevFree);
      b' := b;
      if PrevIsFree(mem[b + 1]) {
        b' := mem[b];
        TagParts(prevSize, true, false);
        Unlink(b', fm);
        SetWord(mem, matrix, flBitmap, slBitmap, lists, fm - {prev}, b' + 1, mem[b' + 1] + SizeOf(mem[b + 1]) + 8);
        mem := mem[b' + 1 := mem[b' + 1] + SizeOf(mem[b + 1]) + 8];
      }
    }

    /** List a free block and tell its right neighbour. */
    method FileFree(b: int, ghost size: int, ghost next: int, ghost nextSize: int, ghost nextPrevFree: bool,
                    ghost fm: map<int, int>)
      requires Lists(fm) && 0 < b && 8 <= size < MAX_BLOCK && size % 8 == 0 && nextSize % 8 == 0
      requires next == NextBlock(b, size) && next + 2 <= |mem| && NoLinks(fm, b, next + 2) &&
               Separate(fm[b := size], |mem|)
      requires mem[b + 1] == Tag(size, true, false) && mem[next + 1] == Tag(nextSize, false, nextPrevFree)
      modifies this`mem, this`matrix, this`slBitmap, this`flBitmap, this`lists
      ensures Lists(fm[b := size]) && |mem| == |old(mem)|
      ensures mem[b + 1] == Tag(size, true, false) && mem[next + 1] == Tag(nextSize, false, true) && mem[next] == b
      ensures forall w :: 0 <= w < |mem| && !(b <= w < next + 2) && !LinkWord(fm, w) ==> mem[w] == old(mem[w])
    {
      hide Members, AllLinked, Indexed, Separate, ListState, MappingInsert;
      TagParts(size, true, false);
      TagParts(nextSize, false, nextPrevFree);
      MappingInsertIsClass(SizeOf(mem[b + 1]));
      var (fl, sl) := MappingInsert(SizeOf(mem[b + 1]));
      ClassOfPair(size);
      FileFrame(fm, b, size, next);
      InsertBlock(b, fl, sl, size, fm);

      var next_b := NextBlock(b, SizeOf(mem[b + 1]));
      SetWord(mem, matrix, flBitmap, slBitmap, lists, fm[b := size], next + 1, SetPrevFree(mem[next + 1]));
      mem := mem[next_b + 1 := SetPrevFree(mem[next_b + 1])];
      SetWord(mem, matrix, flBitmap, slBitmap, lists, fm[b := size], next, b);
      mem := mem[next_b := b];
    }

    /** tlsf_free: the block becomes free and merges with free neighbours; its payload alone leaves the live ones. */
    method Free(p: int) returns (ghost i: nat)
      requires Valid() && (p == 0 || p in Live())
      modifies this
      ensures Valid() && |mem| == |old(mem)| && poolSize == old(poolSize)
      ensures p == 0 ==> bs == old(bs) && mem == old(mem) && usedSize == old(usedSize)
      ensures p != 0 ==> i + 1 < |old(bs)| && old(bs)[i].addr + 2 == p && !old(bs)[i].free && bs == Release(old(bs), i)
      ensures Live() == old(Live()) - {p}
    {
      hide FreeMap, LiveMap, ListState, Separate, Release, Headers, Joined, FreeTotal, NoFreeNeighbours;
      i := 0;
      if p == 0 {
        NullNotLive(bs, mem);
        return;
      }
      i := LiveBlock(bs, mem, p);
      ReleaseFills(bs, i, |mem|);
      ReleaseRow(bs, i, |mem|);
      ReleaseBlock(p - 2, i);
      ReleaseHeaders(old(mem), mem, bs, i);
      ReleasePayloads(old(mem), mem, bs, i);
      bs := Release(bs, i);
    }

    /** The part of tlsf_free after the null test. */
    method ReleaseBlock(b: int, ghost i: nat)
      requires Valid() && i + 1 < |bs| && !bs[i].free && bs[i].addr == b
      modifies this`mem, this`matrix, this`slBitmap, this`flBitmap, this`lists, this`usedSize
      ensures var p, q := MergeFrom(bs, i), MergeTo(bs, i);
              Lists((FreeMap(bs) - FreeMap(bs[p..q]).Keys)[bs[p].addr := Joined(bs, p, q)]) && |mem| == |old(mem)|
      ensures ReleasedWords(old(mem), mem, bs, i)
      ensures usedSize == old(usedSize) - (bs[i].size + 8)
    {
      hide FreeMap, ListState, Separate, Headers, Joined, FreeTotal, NoFreeNeighbours, NoLinks, Tiled, LinkWord, Tag,
           NextBlock, Fits;
      ghost var fm0 := FreeMap(bs);
      ghost var lo, hi := MergeFrom(bs, i), MergeTo(bs, i);
      ghost var prevFree, nextFree := PrevFree(bs, i), bs[i + 1].free;
      ReleaseReady(mem, bs, i);
      ReleaseFills(bs, i, |mem|);
      ReleaseRow(bs, i, |mem|);
      ghost var size1, size2 := Joined(bs, i, hi), Joined(bs, lo, hi);

      MarkFree(b, bs[i].size, prevFree, fm0);
      MergeNext(b, bs[i].size, true, prevFree, bs[i + 1].addr, bs[i + 1].size, nextFree, fm0);
      ghost var fm1 := if nextFree then fm0 - {bs[i + 1].addr} else fm0;
      LinkSubset(fm0, fm1);
      var b' := MergePrev(b, size1, bs[lo].addr, bs[lo].size, prevFree, fm1);
      ghost var fm2 := fm0 - FreeMap(bs[lo..hi]).Keys;
      LinkSubset(fm0, fm2);
      FileFree(b', size2, bs[hi].addr, bs[hi].size, PrevFree(bs, hi), fm2);
    }

    /** The end of an in-place resize: cut off the spare bytes if they can stand alone. */
    method CutSpare(b: int, n: int, spare: int, next: int, ghost size: int, ghost nextSize: int, ghost tagged: bool,
                    ghost prevFree: bool, ghost fm: map<int, int>)
      requires Lists(fm) && 0 < b && 8 <= n && n % 8 == 0 && 0 <= spare < MAX_BLOCK && spare % 8 == 0 &&
               nextSize % 8 == 0
      requires next == NextBlock(b, n + spare) && next + 2 <= |mem| && NoLinks(fm, b, next + 2)
      requires size % 8 == 0 && mem[b + 1] == Tag(size, false, prevFree) &&
               mem[next + 1] == Tag(nextSize, false, tagged)
      requires if spare >= 16 then Separate(fm[NextBlock(b, n) := spare - 8], |mem|)
               else size == n + spare && !tagged
      modifies this`mem, this`matrix, this`slBitmap, this`flBitmap, this`lists, this`usedSize
      ensures Lists(if spare >= 16 then fm[NextBlock(b, n) := spare - 8] else fm) && |mem| == |old(mem)|
      ensures CarvedWords(mem, b, n + spare, n, next, nextSize, prevFree) && mem[b] == old(mem[b])
      ensures usedSize == old(usedSize) + CarvedSize(n + spare, n) + 8
      ensures forall w ::
                (0 <= w < |mem| && w != b + 1 && !(NextBlock(b, n) <= w < next + 2 && spare >= 16) &&
                 !LinkWord(fm, w)) ==> mem[w] == old(mem[w])
    {
      hide ListState, Separate, NoLinks, SizeOf, NextBlock;
      NextBlockPast(b, n + spare);
      if spare >= 16 {
        NextBlockPast(b, n);
        NextBlockSplit(b, n, spare - 8);
        NextBlockPast(NextBlock(b, n), spare - 8);
      }
      TagParts(size, false, prevFree);
      TagParts(nextSize, false, tagged);
      TagParts(CarvedSize(n + spare, n), false, prevFree);
      if spare >= 16 {
        Cut(b, n, spare, next, true, NextBlock(b, n), fm);
      }
      usedSize := usedSize + SizeOf(mem[b + 1]) + 8;
    }

    /** tlsf_realloc, new size at most the old: a free right neighbour joins the part cut off. */
    method ShrinkBlock(b: int, n: int, ghost size: int, ghost next: int, ghost nextSize: int, ghost nextFree: bool,
                       ghost hi: int, ghost hiSize: int, ghost prevFree: bool, ghost keep: int,
                       ghost fm: map<int, int>)
      requires Lists(fm) && 0 < b && 8 <= n && n % 8 == 0 && 8 <= size && size % 8 == 0 && nextSize % 8 == 0 &&
               hiSize % 8 == 0
      requires next == NextBlock(b, size) &&
               (if nextFree then 8 <= nextSize && hi == NextBlock(next, nextSize)
                else hi == next && hiSize == nextSize)
      requires hi + 2 <= |mem| && SpanTotal(size, nextFree, nextSize) < MAX_BLOCK && KeepsTags(fm, b, next, hi)
      requires mem[b + 1] == Tag(size, false, prevFree) && mem[next + 1] == Tag(nextSize, nextFree, false)
      requires mem[hi + 1] == Tag(hiSize, false, nextFree) && (nextFree ==> next in fm && fm[next] == nextSize)
      requires var fm1 := if nextFree then fm - {next} else fm; var total := SpanTotal(size, nextFree, nextSize);
               NoLinks(fm1, b, hi + 2) && (total - n >= 16 ==> Separate(fm1[NextBlock(b, n) := total - n - 8], |mem|))
      requires n <= size && (SpanTotal(size, nextFree, nextSize) - n >= 16 ==> keep <= NextBlock(b, n))
      modifies this`mem, this`matrix, this`slBitmap, this`flBitmap, this`lists, this`usedSize
      ensures var fm1 := if nextFree then fm - {next} else fm; var total := SpanTotal(size, nextFree, nextSize);
              Lists(if total - n >= 16 then fm1[NextBlock(b, n) := total - n - 8] else fm1) && |mem| == |old(mem)| &&
              CarvedWords(mem, b, total, n, hi, hiSize, prevFree) &&
              usedSize == old(usedSize) - size + CarvedSize(total, n)
      ensures mem[b] == old(mem[b])
      ensures forall w :: 0 <= w < |mem| && w != b + 1 && !(keep <= w < hi + 2) && !LinkWord(fm, w) ==>
              mem[w] == old(mem[w])
    {
      hide ListState, Separate, NoLinks, LinkWord, Tag, SizeOf, IsFree, NextBlock;
      NextBlockPast(b, size);
      if nextFree {
        NextBlockPast(next, nextSize);
        NextBlockSplit(b, size, nextSize);
      }
      TagParts(size, false, prevFree);
      var tmp := SizeOf(mem[b + 1]);
      var next_b := NextBlock(b, tmp);
      usedSize := usedSize - (tmp + 8);
      ghost var fm1 := if nextFree then fm - {next} else fm;
      LinkSubset(fm, fm1);
      tmp, next_b := DropNext(tmp, next_b, nextSize, nextFree, fm);
      CutSpare(b, n, tmp - n, next_b, size, hiSize, nextFree, prevFree, fm1);
    }

    /** Unlink a right neighbour that is free, counting its bytes and stepping past it. */
    method DropNext(tmp: int, next: int, ghost nextSize: int, ghost nextFree: bool, ghost fm: map<int, int>)
      returns (tmp': int, next': int)
      requires Lists(fm) && 0 <= next && next + 2 <= |mem| && nextSize % 8 == 0 && !LinkWord(fm, next + 1)
      requires mem[next + 1] == Tag(nextSize, nextFree, false) && (nextFree ==> next in fm && fm[next] == nextSize)
      modifies this`mem, this`matrix, this`slBitmap, this`flBitmap, this`lists
      ensures Lists(if nextFree then fm - {next} else fm) && LinksOnly(old(mem), mem, fm)
      ensures tmp' == SpanTotal(tmp, nextFree, nextSize) &&
              next' == (if nextFree then NextBlock(next, nextSize) else next)
    {
      hide ListState, Separate, LinkWord, Tag, SizeOf, IsFree, NextBlock;
      TagParts(nextSize, nextFree, false);
      tmp', next' := tmp, next;
      if IsFree(mem[next + 1]) {
        Unlink(next, fm);
        tmp' := tmp + SizeOf(mem[next + 1]) + 8;
        next' := NextBlock(next, SizeOf(mem[next + 1]));
      }
    }

    /** tlsf_realloc, new size within the block and its free right neighbour: take that in, then cut off the rest. */
    method GrowBlock(b: int, n: int, ghost size: int, ghost next: int, ghost nextSize: int, ghost hi: int,
                     ghost hiSize: int, ghost total: int, ghost prevFree: bool, ghost keep: int,
                     ghost fm: map<int, int>)
      requires Lists(fm) && 0 < b && 8 <= n && n % 8 == 0 && 8 <= size && size % 8 == 0 && nextSize % 8 == 0 &&
               hiSize % 8 == 0
      requires next == NextBlock(b, size) && hi == NextBlock(next, nextSize) && hi + 2 <= |mem| &&
               KeepsTags(fm, b, next, hi)
      requires total == size + nextSize + 8 < MAX_BLOCK && hi == NextBlock(b, total) && size < n <= size + nextSize
      requires mem[b + 1] == Tag(size, false, prevFree) && mem[next + 1] == Tag(nextSize, true, false) &&
               mem[hi + 1] == Tag(hiSize, false, true)
      requires next in fm && fm[next] == nextSize && NoLinks(fm - {next}, b, hi + 2)
      requires total - n >= 16 ==> Separate((fm - {next})[NextBlock(b, n) := total - n - 8], |mem|)
      requires keep <= hi && keep <= NextBlock(b, n)
      modifies this`mem, this`matrix, this`slBitmap, this`flBitmap, this`lists, this`usedSize
      ensures Lists(if total - n >= 16 then (fm - {next})[NextBlock(b, n) := total - n - 8] else fm - {next}) &&
              |mem| == |old(mem)|
      ensures CarvedWords(mem, b, total, n, hi, hiSize, prevFree) &&
              usedSize == old(usedSize) - size + CarvedSize(total, n)
      ensures mem[b] == old(mem[b])
      ensures forall w :: 0 <= w < |mem| && w != b + 1 && !(keep <= w < hi + 2) && !LinkWord(fm, w) ==>
              mem[w] == old(mem[w])
    {
      hide ListState, Separate, LinkWord, NoLinks, Tag, SizeOf, CarvedWords, NextBlock;
      NextBlockPast(b, size);
      NextBlockPast(b, total);
      TagParts(size, false, prevFree);
      usedSize := usedSize - (SizeOf(mem[b + 1]) + 8);
      LinkSubset(fm, fm - {next});
      var next_b := TakeNext(b, size, prevFree, next, nextSize, hi, hiSize, fm);
      TagParts(total, false, prevFree);
      CutSpare(b, n, SizeOf(mem[b + 1]) - n, next_b, total, hiSize, false, prevFree, fm - {next});
    }

    /** Take a free right neighbour into a used block, and return the block after it. */
    method TakeNext(b: int, ghost size: int, ghost prevFree: bool, ghost next: int, ghost nextSize: int,
                    ghost hi: int, ghost hiSize: int, ghost fm: map<int, int>) returns (next_b: int)
      requires Lists(fm) && 0 <= b && size % 8 == 0 && nextSize % 8 == 0 && hiSize % 8 == 0 && 8 <= size &&
               8 <= nextSize
      requires next == NextBlock(b, size) && hi == NextBlock(next, nextSize) && hi + 2 <= |mem|
      requires mem[b + 1] == Tag(size, false, prevFree) && mem[next + 1] == Tag(nextSize, true, false) &&
               mem[hi + 1] == Tag(hiSize, false, true)
      requires next in fm && fm[next] == nextSize && KeepsTags(fm, b, next, hi)
      modifies this`mem, this`matrix, this`slBitmap, this`flBitmap, this`lists
      ensures Lists(fm - {next}) && |mem| == |old(mem)| && next_b == hi
      ensures mem[b + 1] == Tag(size + nextSize + 8, false, prevFree) && mem[hi + 1] == Tag(hiSize, false, false)
      ensures forall w :: 0 <= w < |mem| && w != b + 1 && !(hi <= w < hi + 2) && !LinkWord(fm, w) ==>
              mem[w] == old(mem[w])
    {
      hide ListState, Separate, LinkWord, Tag, SizeOf, IsFree, ClearPrevFree, NextBlock;
      NextBlockPast(b, size);
      NextBlockPast(next, nextSize);
      NextBlockSplit(b, size, nextSize);
      TagParts(size + nextSize + 8, false, prevFree);
      TagParts(hiSize, false, true);
      ghost var fm1 := fm - {next};
      LinkSubset(fm, fm1);
      MergeNext(b, size, false, prevFree, next, nextSize, true, fm);
      next_b := NextBlock(b, SizeOf(mem[b + 1]));
      SetWord(mem, matrix, flBitmap, slBitmap, lists, fm1, hi, b);
      mem := mem[next_b := b];
      SetWord(mem, matrix, flBitmap, slBitmap, lists, fm1, hi + 1, ClearPrevFree(mem[hi + 1]));
      mem := mem[next_b + 1 := ClearPrevFree(mem[next_b + 1])];
    }

    /** The in-place attempts of tlsf_realloc, on the words. */
    method TryInPlace(b: int, n: int, ghost i: nat) returns (done: bool)
      requires Valid() && i + 1 < |bs| && !bs[i].free && bs[i].addr == b && 8 <= n && n % 8 == 0
      modifies this`mem, this`matrix, this`slBitmap, this`flBitmap, this`lists, this`usedSize
      ensures done == InPlace(bs, i, n) && |mem| == |old(mem)|
      ensures !done ==> mem == old(mem) && usedSize == old(usedSize) && Lists(FreeMap(bs))
      ensures done ==> Lists(ResizedFree(bs, i, n)) && ResizedWords(old(mem), mem, bs, i, n)
      ensures done ==> usedSize == old(usedSize) - bs[i].size + CarvedSize(Joined(bs, i, MergeTo(bs, i)), n)
    {
      hide FreeMap, LiveMap, ListState, Separate, Headers, Joined, FreeTotal, NoFreeNeighbours, NoLinks, Tiled,
           LinkWord, CarvedWords, Tag, SizeOf, IsFree, PrevFree, NextBlock;
      ResizeWords(mem, bs, i);
      TagParts(bs[i].size, false, PrevFree(bs, i));
      TagParts(bs[i + 1].size, bs[i + 1].free, false);
      var tmp := SizeOf(mem[b + 1]);
      var next := NextBlock(b, tmp);
      done := true;
      ghost var hi := bs[MergeTo(bs, i)];
      if InPlace(bs, i, n) {
        ResizeReady(mem, bs, i, n);
      }
      ghost var kept := Kept(bs[i].size, SpanTotal(bs[i].size, bs[i + 1].free, bs[i + 1].size), n);
      ghost var keep := NextBlock(b, kept);
      NextBlockMonotone(b, kept, bs[i].size);
      if kept <= n { NextBlockMonotone(b, kept, n); }
      if n <= tmp {
        ShrinkBlock(b, n, tmp, next, bs[i + 1].size, bs[i + 1].free, hi.addr, hi.size, PrevFree(bs, i), keep,
                    FreeMap(bs));
      } else if IsFree(mem[next + 1]) && n <= tmp + SizeOf(mem[next + 1]) {
        GrowBlock(b, n, tmp, next, bs[i + 1].size, hi.addr, hi.size, Joined(bs, i, MergeTo(bs, i)), PrevFree(bs, i),
                  keep, FreeMap(bs));
      } else {
        done := false;
      }
    }

    /** Resizing in place: the row, every header and list stay right, and the payload keeps its first bytes. */
    method ResizeInPlace(b: int, n: int, ghost i: nat) returns (done: bool)
      requires Valid() && i + 1 < |bs| && !bs[i].free && bs[i].addr == b && 8 <= n && n % 8 == 0
      modifies this
      ensures Valid() && |mem| == |old(mem)| && poolSize == old(poolSize) && done == InPlace(old(bs), i, n)
      ensures !done ==> bs == old(bs) && mem == old(mem) && usedSize == old(usedSize)
      ensures done ==> bs == Resize(old(bs), i, n) && i < |bs| && bs[i].addr == b && n <= bs[i].size < n + 16
      ensures done ==>
              Live() == old(Live())[b + 2 := Payload(mem, bs[i])] &&
              SamePrefix(Payload(old(mem), old(bs)[i]), Payload(mem, bs[i]))
    {
      hide FreeMap, LiveMap, ListState, Separate, Headers, Joined, FreeTotal, NoFreeNeighbours, ResizedWords, Resize;
      done := TryInPlace(b, n, i);
      if done {
        ResizeRow(bs, i, n, |mem|);
        ResizeHeaders(old(mem), mem, bs, i, n);
        ResizePayloads(old(mem), mem, bs, i, n);
        bs := Resize(bs, i, n);
      }
    }

    /** A program's write to a word of a payload it holds. */
    method Store(p: int, k: int, v: int)
      requires Valid() && p in Live() && 0 <= k < |Live()[p]|
      modifies this`mem
      ensures Valid() && |mem| == |old(mem)| && Live() == old(Live())[p := old(Live())[p][k := v]]
    {
      hide FreeMap, LiveMap, ListState, Separate, Headers, FreeTotal, LinkWord;
      ghost var i := LiveBlock(bs, mem, p);
      StoreDone(mem, bs, i, p + k, v);
      SetWord(mem, matrix, flBitmap, slBitmap, lists, FreeMap(bs), p + k, v);
      mem := mem[p + k := v];
    }

    /** The copy of the first n words of one payload to another. */
    method CopyPayload(dst: int, src: int, n: int)
      requires Valid() && dst in Live() && src in Live() && dst != src && 0 <= n <= |Live()[dst]| && n <= |Live()[src]|
      modifies this`mem
      ensures Valid() && |mem| == |old(mem)|
      ensures Live() == old(Live())[dst := old(Live())[src][..n] + old(Live())[dst][n..]]
    {
      hide LiveMap, Valid;
      ghost var live := Live();
      var k := 0;
      assert live[src][..0] + live[dst][0..] == live[dst];
      while k < n
        invariant 0 <= k <= n && Valid() && |mem| == |old(mem)|
        invariant Live() == live[dst := live[src][..k] + live[dst][k..]]
      {
        ghost var i := LiveBlock(bs, mem, src);
        Store(dst, k, mem[src + k]);
        assert (live[src][..k] + live[dst][k..])[k := live[src][k]] == live[src][..k + 1] + live[dst][k + 1..];
        k := k + 1;
      }
    }

    /** The last resort of tlsf_realloc: allocate, copy the payload over, free the old block. */
    method Move(p: int, n: int) returns (out: Reallocated)
      requires Valid() && p in Live() && 0 <= n < MAX_BLOCK && n % 8 == 0 && Storable(n) && |Live()[p]| * 4 < n
      modifies this
      ensures Valid() && |mem| == |old(mem)| && poolSize == old(poolSize)
      ensures out.CopyToNull? <==> NoneFree(old(bs), Need(n))
      ensures out.CopyToNull? ==> bs == old(bs) && mem == old(mem) && usedSize == old(usedSize)
      ensures out.At? ==>
              out.p !in old(Live()) && out.p in Live() && Live() == (old(Live()) - {p})[out.p := Live()[out.p]]
      ensures out.At? ==> old(Live())[p] <= Live()[out.p] && n <= |Live()[out.p]| * 4
      ensures out.At? ==> MovedBlock(old(bs), bs, p, out.p, n)
    {
      hide LiveMap, MappingSearch, RoundUp, NoneFree, TakenFrom, Take, FreeMap, ListState, FreeTotal,
           NoFreeNeighbours, Storable, Need, Fits, ReleasedBlock;
      var q, i := Malloc(n);
      if q == 0 {
        return CopyToNull;
      }
      ghost var taken := bs;
      assert TookBlock(old(bs), taken, q, n);
      PayloadLength(bs, mem, q, i);
      RoundUpWhole(n);
      MoveTo(p, q, n);
      assert ReleasedBlock(taken, bs, p);
      out := At(q);
    }

    /** Copy a payload over to a larger block, and free the old one. */
    method MoveTo(p: int, q: int, n: int)
      requires Valid() && p in Live() && q in Live() && p != q && |Live()[p]| * 4 < n <= |Live()[q]| * 4
      modifies this
      ensures Valid() && |mem| == |old(mem)| && poolSize == old(poolSize)
      ensures q in Live() && old(Live())[p] <= Live()[q] && |Live()[q]| == |old(Live())[q]|
      ensures Live() == (old(Live()) - {p})[q := Live()[q]]
      ensures ReleasedBlock(old(bs), bs, p)
    {
      hide Valid, LiveMap, Release;
      var words := PayloadWords(p);
      var cpsize := if words * 4 > n then n else words * 4;
      CopyPayload(q, p, cpsize / 4);
      ghost var i := Free(p);
    }

    /** tlsf_realloc of a live block to a positive size: in place when possible, else moved. */
    method ReallocLive(p: int, newSize: Word) returns (out: Reallocated, ghost i: nat)
      requires Valid() && p in Live() && Storable(newSize)
      modifies this
      ensures Valid() && |mem| == |old(mem)| && poolSize == old(poolSize)
      ensures i + 1 < |old(bs)| && old(bs)[i].addr + 2 == p && !old(bs)[i].free
      ensures out.CopyToNull? <==> !InPlace(old(bs), i, RoundUp(newSize)) && NoneFree(old(bs), Need(newSize))
      ensures out.CopyToNull? ==> bs == old(bs) && mem == old(mem) && usedSize == old(usedSize)
      ensures InPlace(old(bs), i, RoundUp(newSize)) ==> out == At(p) && bs == Resize(old(bs), i, RoundUp(newSize))
      ensures out.At? ==> out.p in Live() && Live() == (old(Live()) - {p})[out.p := Live()[out.p]]
      ensures out.At? ==> SamePrefix(old(Live())[p], Live()[out.p]) && newSize <= |Live()[out.p]| * 4
      ensures InPlace(old(bs), i, RoundUp(newSize)) ==> |Live()[p]| * 4 < RoundUp(newSize) + 16
      ensures out.At? && out != At(p) ==> out.p !in old(Live())
      ensures out.At? && !InPlace(old(bs), i, RoundUp(newSize)) ==> MovedBlock(old(bs), bs, p, out.p, newSize)
    {
      hide LiveMap, MappingSearch, RoundUp, NoneFree, TakenFrom, Take, Release, Resize, FreeMap, ListState,
           FreeTotal, Headers, NoFreeNeighbours, MovedBlock;
      var n := RoundUp(newSize);
      i := LiveBlock(bs, mem, p);
      PayloadLength(bs, mem, p, i);
      var done := ResizeInPlace(p - 2, n, i);
      if done {
        PayloadLength(bs, mem, p, i);
        return At(p), i;
      }
      RoundUpWhole(n);
      RoundUpAgain(newSize);
      out := Move(p, n);
      if out.At? { MovedAgain(old(bs), bs, p, out.p, newSize); }
    }

    /**
     tlsf_realloc with its null-pointer and zero-size conventions. The payload keeps
     its first min(old, new) bytes and no other payload changes. When the block must
     move and nothing large enough is free, the original goes on to copy to the null
     pointer: that outcome is CopyToNull.
     */
    method Realloc(p: int, newSize: Word) returns (out: Reallocated, ghost i: nat)
      requires Valid() && (p == 0 || p in Live()) && Storable(newSize)
      modifies this
      ensures Valid() && |mem| == |old(mem)| && poolSize == old(poolSize)
      ensures p == 0 && newSize == 0 ==> out == At(0) && Live() == old(Live()) && bs == old(bs)
      ensures p == 0 && newSize > 0 ==> out.At? && (out.p == 0 <==> NoneFree(old(bs), Need(newSize)))
      ensures p == 0 && newSize > 0 && out == At(0) ==> Live() == old(Live()) && bs == old(bs)
      ensures p == 0 && newSize > 0 && out != At(0) ==>
                TookBlock(old(bs), bs, out.p, newSize) && out.p !in old(Live()) && out.p in Live() &&
                Live() == old(Live())[out.p := Live()[out.p]] && newSize <= |Live()[out.p]| * 4
      ensures p != 0 && newSize == 0 ==> out == At(0) && Live() == old(Live()) - {p} && ReleasedBlock(old(bs), bs, p)
      ensures p != 0 && newSize > 0 ==>
                i + 1 < |old(bs)| && old(bs)[i].addr + 2 == p && !old(bs)[i].free &&
                (out.CopyToNull? <==> !InPlace(old(bs), i, RoundUp(newSize)) && NoneFree(old(bs), Need(newSize))) &&
                (InPlace(old(bs), i, RoundUp(newSize)) ==>
                 out == At(p) && bs == Resize(old(bs), i, RoundUp(newSize)) && p in Live() &&
                 |Live()[p]| * 4 < RoundUp(newSize) + 16) &&
                (out.At? && !InPlace(old(bs), i, RoundUp(newSize)) ==> MovedBlock(old(bs), bs, p, out.p, newSize))
      ensures out.CopyToNull? ==> p != 0 && newSize > 0 && bs == old(bs) && mem == old(mem) && usedSize == old(usedSize)
      ensures p != 0 && newSize > 0 && out.At? ==>
                out.p in Live() && Live() == (old(Live()) - {p})[out.p := Live()[out.p]] &&
                (out.p == p || out.p !in old(Live())) &&
                SamePrefix(old(Live())[p], Live()[out.p]) && newSize <= |Live()[out.p]| * 4
    {
      hide LiveMap, MappingSearch, RoundUp, NoneFree, TakenFrom, Take, Release, Resize, FreeMap, ListState,
           FreeTotal, Headers, NoFreeNeighbours;
      i := 0;
      if p == 0 {
        if newSize == 0 {
          return At(0), 0;
        }
        var q, k := Malloc(newSize);
        if q != 0 { PayloadLength(bs, mem, q, k); }
        return At(q), 0;
      }
      if newSize == 0 {
        i := Free(p);
        return At(0), i;
      }
      out, i := ReallocLive(p, newSize);
    }

    /**
     Any run of requests on a valid pool keeps it valid. Every step changes the live
     payloads and the row of blocks just as its request asks, and every view is a heap:
     its row tiles the pool up to the one sentinel, and the live payloads are those of
     its used blocks. The requests name slots of the table of pointers handed out so
     far. The run ends early exactly at a reallocation that can neither grow in place
     nor find a free block, which would copy to the null pointer.
     */
    method Run(requests: seq<Request>) returns (done: nat, ghost trace: seq<View>)
      requires Valid() && forall k :: 0 <= k < |requests| ==> Askable(requests[k])
      modifies this
      ensures Valid() && poolSize == old(poolSize) && done <= |requests|
      ensures |trace| == done + 1 && trace[0] == View(old(Live()), [], old(bs)) && trace[done].live == Live() &&
              trace[done].bs == bs
      ensures forall k :: 0 <= k < done ==> Served(trace[k], requests[k], trace[k + 1])
      ensures forall k :: 0 <= k <= done ==> Sound(trace[k], old(bs)[|old(bs)| - 1].addr)
      ensures forall k :: 0 <= k < done ==> !Stuck(trace[k], requests[k])
      ensures done < |requests| ==> Stuck(trace[done], requests[done])
    {
      hide LiveMap, Served, Askable, Stuck, Sound, NoFreeNeighbours, Fits, Headers, ListState, FreeTotal, FreeMap;
      FirstSound(bs, mem);
      ghost var end := bs[|bs| - 1].addr;
      hide Valid, Tiled;
      var held: seq<int> := [];
      done, trace := 0, [View(Live(), [], bs)];
      while done < |requests|
        invariant Valid() && poolSize == old(poolSize) && done <= |requests|
        invariant |trace| == done + 1 && trace[0] == View(old(Live()), [], old(bs)) &&
                  trace[done] == View(Live(), held, bs)
        invariant forall k :: 0 <= k < done ==> Served(trace[k], requests[k], trace[k + 1])
        invariant forall k :: 0 <= k <= done ==> Sound(trace[k], end)
        invariant forall k :: 0 <= k < done ==> !Stuck(trace[k], requests[k])
      {
        assert Askable(requests[done]) && Sound(trace[done], end);
        SoundIs(trace[done], end);
        var ok;
        ok, held := Serve(requests[done], held, end);
        if !ok {
          return;
        }
        SoundIs(View(Live(), held, bs), end);
        trace := trace + [View(Live(), held, bs)];
        done := done + 1;
      }
    }

    /** One request: served just as asked, or refused because it is stuck, with nothing changed. */
    method Serve(r: Request, held: seq<int>, ghost end: int) returns (ok: bool, held': seq<int>)
      requires Valid() && HeldLive(View(Live(), held, bs)) && Heaped(View(Live(), held, bs), end) && Askable(r)
      modifies this
      ensures Valid() && poolSize == old(poolSize)
      ensures ok <==> !Stuck(View(old(Live()), held, old(bs)), r)
      ensures if ok
              then Served(View(old(Live()), held, old(bs)), r, View(Live(), held', bs)) &&
              HeldLive(View(Live(), held', bs))
              else held' == held && Live() == old(Live()) && bs == old(bs)
      ensures Heaped(View(Live(), held', bs), end)
    {
      hide LiveMap, FreeMap, ListState, FreeTotal, Headers, MappingSearch, RoundUp, NoFreeNeighbours, Take, Release,
           NoneFree, TakenFrom, Need, InPlace, HeldLive, Fits, NextBlock, Payload, Cornered, Resize, ReleasedBlock,
           MovedBlock, Heaped;
      ok, held' := true, held;
      ghost var before := View(Live(), held, bs);
      match r {
        case Get(size) =>
          var p, i := Malloc(size);
          if p != 0 {
            PayloadLength(bs, mem, p, i);
            assert TookBlock(before.bs, bs, p, size);
          }
          held' := held + [p];
        case Put(slot) =>
          if slot < |held| {
            HeldSlot(before, slot);
            var i := Free(held[slot]);
            if held[slot] != 0 { ReleasedAt(before.bs, bs, held[slot], i); }
            held' := held[slot := 0];
          }
        case Regrow(slot, size) =>
          if slot < |held| {
            HeldSlot(before, slot);
            var out, i := Realloc(held[slot], size);
            if held[slot] != 0 && size > 0 {
              CorneredAt(before.bs, held[slot], size, i);
              if out.At? { ResizedBlockAt(before.bs, bs, held[slot], out.p, size, i); }
            }
            if out.CopyToNull? {
              return false, held;
            }
            held' := held[slot := out.p];
          }
        case Write(slot, k, v) =>
          if slot < |held| {
            HeldSlot(before, slot);
          }
          if slot < |held| && held[slot] != 0 {
            var words := PayloadWords(held[slot]);
            if k < words {
              Store(held[slot], k, v);
            }
          }
      }
      NullNotLive(bs, mem);
      StillHeld(before, r, View(Live(), held', bs));
      StillHeaped(before, r, View(Live(), held', bs), mem, end);
    }

    /** The length of a live payload, from its header. */
    method PayloadWords(p: int) returns (words: nat)
      requires Valid() && p in Live()
      ensures words == |Live()[p]|
    {
      ghost var i := LiveBlock(bs, mem, p);
      assert HeaderAt(mem, bs, i);
      TagParts(bs[i].size, bs[i].free, PrevFree(bs, i));
      words := SizeOf(mem[p - 1]) / 4;
    }
  }

  /** What holds of a free block, its header and its neighbours before it is taken. */
  lemma TakeReady(mem: seq<int>, bs: seq<Block>, i: nat, n: int)
    requires Tiled(bs, BASE) && NoFreeNeighbours(bs) && Fits(bs, |mem|) && Headers(mem, bs)
    requires i < |bs| && bs[i].free && 8 <= n <= bs[i].size && n % 8 == 0
    ensures i + 1 < |bs| && bs[i].addr in FreeMap(bs) && FreeMap(bs)[bs[i].addr] == bs[i].size
    ensures var b, next, total, fm := bs[i].addr, bs[i + 1].addr, bs[i].size, FreeMap(bs) - {bs[i].addr};
            0 < b && total < MAX_BLOCK && total % 8 == 0 && bs[i + 1].size % 8 == 0 &&
            next == NextBlock(b, total) && next + 2 <= |mem| && NoLinks(fm, b, next + 2) &&
            mem[b + 1] == Tag(total, true, PrevFree(bs, i)) && mem[next + 1] == Tag(bs[i + 1].size, false, true) &&
            !LinkWord(FreeMap(bs), b + 1) && !LinkWord(FreeMap(bs), next + 1) && !LinkWord(FreeMap(bs), b)
  {
    FreeBlockInMap(bs, BASE, i);
    FromLow(bs, BASE, i);
    FromLow(bs, BASE, i + 1);
    SingleBlock(bs, i);
    assert HeaderAt(mem, bs, i) && HeaderAt(mem, bs, i + 1);
    SpanNotLinked(bs, BASE, i, i + 1);
    KeepsHeader(bs, BASE, i);
    KeepsHeader(bs, BASE, i + 1);
    assert map[bs[i].addr := bs[i].size].Keys == {bs[i].addr};
    Ordered(bs, BASE, i, |bs| - 1);
  }

  /** The row, free map and accounting after a block is taken. */
  lemma TakeRow(bs: seq<Block>, i: nat, n: int, words: int)
    requires Tiled(bs, BASE) && NoFreeNeighbours(bs) && Fits(bs, words)
    requires i < |bs| && bs[i].free && 8 <= n <= bs[i].size && n % 8 == 0
    ensures var bs', total, fm := Take(bs, i, n), bs[i].size, FreeMap(bs) - {bs[i].addr};
            FreeMap(bs') == (if total - n >= 16 then fm[NextBlock(bs[i].addr, n) := total - n - 8] else fm) &&
            Separate(FreeMap(bs'), words) && FreeTotal(bs') == FreeTotal(bs) - 8 - CarvedSize(total, n) &&
            Fits(bs', words) && Tiled(bs', BASE) && NoFreeNeighbours(bs')
  {
    SingleBlock(bs, i);
    CarveSplice(bs, BASE, i, i + 1, n);
    TiledSeparate(Take(bs, i, n), BASE, words);
    assert map[bs[i].addr := bs[i].size].Keys == {bs[i].addr};
  }

  /** The words written leave every header right and touch nothing else. */
  lemma TakeDone(mem: seq<int>, mem': seq<int>, bs: seq<Block>, i: nat, n: int)
    requires Tiled(bs, BASE) && NoFreeNeighbours(bs) && Headers(mem, bs) && |mem'| == |mem|
    requires i < |bs| - 1 && bs[i].free && 8 <= n <= bs[i].size && n % 8 == 0
    requires CarvedWords(mem', bs[i].addr, bs[i].size, n, bs[i + 1].addr, bs[i + 1].size, PrevFree(bs, i))
    requires mem'[bs[i].addr] == mem[bs[i].addr]
    requires forall w :: 0 <= w < |mem| && !(bs[i].addr <= w < bs[i + 1].addr + 2) && !LinkWord(FreeMap(bs), w) ==>
             mem'[w] == mem[w]
    ensures Headers(mem', Take(bs, i, n)) && Frame(mem, mem', bs, Take(bs, i, n), i, i + 1)
  {
    SingleBlock(bs, i);
    assert HeaderAt(mem, bs, i);
    CarveSplice(bs, BASE, i, i + 1, n);
    CarveHeaders(mem', bs, BASE, i, i + 1, n);
    HeadersSplice(mem, mem', bs, BASE, i, i + 1, Carve(bs[i].addr, bs[i].size, n));
  }

  lemma SingleBlock(bs: seq<Block>, i: nat)
    requires i < |bs|
    ensures bs[i..i + 1] == [bs[i]] && Joined(bs, i, i + 1) == bs[i].size
    ensures FreeMap(bs[i..i + 1]) == (if bs[i].free then map[bs[i].addr := bs[i].size] else map[])
    ensures FreeTotal(bs[i..i + 1]) == (if bs[i].free then bs[i].size + 8 else 0)
  {
    assert [bs[i]][..0] == [];
  }

  /** Extraction from the lists leaves a block's header words. */
  lemma KeepsHeader(bs: seq<Block>, lo: int, k: nat)
    requires Tiled(bs, lo) && k < |bs|
    ensures !LinkWord(FreeMap(bs), bs[k].addr) && !LinkWord(FreeMap(bs), bs[k].addr + 1)
  {
    HeaderNotLink(bs, lo, k, bs[k].addr);
    HeaderNotLink(bs, lo, k, bs[k].addr + 1);
  }

  /** The lists own no word in a range. */
  ghost predicate NoLinks(fm: map<int, int>, lo: int, hi: int) {
    forall w :: lo <= w < hi ==> !LinkWord(fm, w)
  }

  lemma NoLinksAt(fm: map<int, int>, lo: int, hi: int, w: int)
    requires NoLinks(fm, lo, hi) && lo <= w < hi
    ensures !LinkWord(fm, w)
  {
  }

  lemma CutFrame(fm: map<int, int>, fm': map<int, int>, b: int, b2: int, next: int)
    requires NoLinks(fm, b, next + 2) && b + 4 <= b2 && b2 + 4 <= next
    requires b2 in fm' && fm'.Keys == fm.Keys + {b2}
    ensures b2 !in fm
    ensures NoLinks(fm', b, b2 + 2) && NoLinks(fm', next, next + 2)
    ensures forall w :: !LinkWord(fm, w) && !(b2 <= w < next + 2) ==> !LinkWord(fm', w)
  {
    assert !LinkWord(fm, b2 + 2);
    forall w | b <= w < b2 + 2 || next <= w < next + 2 ensures !LinkWord(fm', w) {
      assert !LinkWord(fm, w);
    }
  }

  // ----- carving a span of the row

  /** Everything about the row after blocks i .. j become a block of n bytes and a free rest. */
  lemma CarveSplice(bs: seq<Block>, lo: int, i: nat, j: nat, n: int)
    requires Tiled(bs, lo) && NoFreeNeighbours(bs) && i < j < |bs| && !bs[j].free
    requires 8 <= n <= Joined(bs, i, j) && n % 8 == 0
    ensures var total := Joined(bs, i, j); var mid := Carve(bs[i].addr, total, n); var bs' := Splice(bs, i, j, mid);
            Fills(bs, i, j, mid) && Tiled(bs', lo) && NoFreeNeighbours(bs') && bs'[|bs'| - 1] == bs[|bs| - 1] &&
            bs[j].addr == NextBlock(bs[i].addr, total) && total % 8 == 0 && n <= bs'[i].size < n + 16 &&
            FreeMap(bs') == (FreeMap(bs) - FreeMap(bs[i..j]).Keys) + FreeMap(mid) &&
            FreeMap(mid) == (if total - n >= 16 then map[NextBlock(bs[i].addr, n) := total - n - 8] else map[]) &&
            FreeTotal(bs') == FreeTotal(bs) - FreeTotal(bs[i..j]) + total - bs'[i].size
  {
    var total := Joined(bs, i, j);
    var mid := Carve(bs[i].addr, total, n);
    JoinedEnds(bs, lo, i, j);
    CarveFills(bs[i].addr, total, n);
    SpliceTiled(bs, lo, i, j, mid);
    SpliceNoFreeNeighbours(bs, i, j, mid);
    FreeMapSplice(bs, lo, i, j, mid);
    FreeTotalSplice(bs, i, j, mid);
    assert FreeMap([mid[0]]) == map[] by { assert [mid[0]][..0] == []; }
    if |mid| == 2 {
      assert mid[..1] == [mid[0]];
    }
    assert Splice(bs, i, j, mid)[i] == mid[0];
  }

  /** The size left for the first block when a span is carved. */
  function CarvedSize(total: int, n: int): int {
    if total - n >= 16 then n else total
  }

  /** The header words of a carved span: its first block in use, a free rest if there is one, and the next header. */
  ghost predicate CarvedWords(mem: seq<int>, b: int, total: int, n: int, next: int, nextSize: int, prevFree: bool) {
    && 0 <= b && b + 2 <= next && next + 2 <= |mem| && 0 <= n
    && mem[b + 1] == Tag(CarvedSize(total, n), false, prevFree)
    && (total - n >= 16 ==> NextBlock(b, n) + 4 <= next && mem[NextBlock(b, n) + 1] == Tag(total - n - 8, true, false)
                            && mem[next] == NextBlock(b, n))
    && mem[next + 1] == Tag(nextSize, false, total - n >= 16)
  }

  /** Headers of the carved blocks and their right neighbour, from the words written. */
  lemma CarveHeaders(mem: seq<int>, bs: seq<Block>, lo: int, i: nat, j: nat, n: int)
    requires Tiled(bs, lo) && 0 < lo && NoFreeNeighbours(bs) && i < j < |bs| && !bs[j].free
    requires 8 <= n <= Joined(bs, i, j) && n % 8 == 0
    requires CarvedWords(mem, bs[i].addr, Joined(bs, i, j), n, bs[j].addr, bs[j].size, PrevFree(bs, i))
    requires PrevFree(bs, i) ==> mem[bs[i].addr] == bs[i - 1].addr
    ensures var mid := Carve(bs[i].addr, Joined(bs, i, j), n); var bs' := Splice(bs, i, j, mid);
            forall k :: i <= k <= i + |mid| ==> HeaderAt(mem, bs', k)
  {
    var total := Joined(bs, i, j);
    var mid := Carve(bs[i].addr, total, n);
    var bs' := Splice(bs, i, j, mid);
    assert bs'[i] == mid[0] && bs'[i + |mid|] == bs[j];
    assert i > 0 ==> bs'[i - 1] == bs[i - 1];
    if |mid| == 2 {
      assert bs'[i + 1] == mid[1];
      assert HeaderAt(mem, bs', i + 1);
    }
    assert HeaderAt(mem, bs', i) && HeaderAt(mem, bs', i + |mid|);
  }

  /** With every free block out of blocks i .. j, the lists own no word from block i through the next header. */
  lemma SpanNotLinked(bs: seq<Block>, lo: int, i: nat, j: nat)
    requires Tiled(bs, lo) && i < j < |bs| && !bs[j].free
    ensures NoLinks(FreeMap(bs) - FreeMap(bs[i..j]).Keys, bs[i].addr, bs[j].addr + 2)
  {
    var fm := FreeMap(bs) - FreeMap(bs[i..j]).Keys;
    forall w | bs[i].addr <= w < bs[j].addr + 2 ensures !LinkWord(fm, w) {
      if LinkWord(fm, w) {
        var a := if w - 2 in fm then w - 2 else w - 3;
        var k := FreeMapBlock(bs, a);
        if k < i {
          Ordered(bs, lo, k, i);
        } else if k > j {
          Ordered(bs, lo, j, k);
        } else if k < j {
          SliceKey(bs, lo, i, j, k);
        }
      }
    }
  }

  lemma SliceKey(bs: seq<Block>, lo: int, i: nat, j: nat, k: nat)
    requires Tiled(bs, lo) && i <= k < j <= |bs| && bs[k].free
    ensures bs[k].addr in FreeMap(bs[i..j])
  {
    var s := bs[i..j];
    assert s[k - i] == bs[k];
    assert s == s[..k - i + 1] + s[k - i + 1..];
    FreeMapConcat(s[..k - i + 1], s[k - i + 1..]);
    assert s[..k - i + 1][..k - i] == s[..k - i];
  }

  ghost predicate Fits(bs: seq<Block>, n: int)
    requires |bs| > 0
  {
    bs[|bs| - 1].addr + 2 <= n && (bs[|bs| - 1].addr - BASE - 2) * 4 < MAX_BLOCK
  }

  /** Writing a word the lists do not own keeps them. */
  lemma SetWord(mem: seq<int>, matrix: seq<int>, fl: Word, sl: seq<Word>, lists: seq<seq<int>>, fm: map<int, int>,
                w: int, v: int)
    requires ListState(mem, matrix, fl, sl, lists, fm) && 0 <= w < |mem| && !LinkWord(fm, w)
    ensures ListState(mem[w := v], matrix, fl, sl, lists, fm)
  {
    var mem' := mem[w := v];
    forall c | 0 <= c < CLASSES ensures Linked(mem', matrix[c], lists[c]) {
      var l := lists[c];
      assert Linked(mem, matrix[c], l);
      forall k | 0 <= k < |l| && LinkedAt(mem, l, k)
        ensures mem'[l[k] + 2] == mem[l[k] + 2] && mem'[l[k] + 3] == mem[l[k] + 3]
      {
        assert lists[c][k] in fm;
      }
      LinkedFrame(mem, mem', matrix[c], l);
    }
  }

  /** A free block's list is non-empty, so its second-level bit is set. */
  lemma BitOfFree(fl: Word, sl: seq<Word>, lists: seq<seq<int>>, fm: map<int, int>, a: int) returns (f: nat, s: nat)
    requires Indexed(fl, sl, lists) && Members(lists, fm) && a in fm
    ensures f < REAL_FLI && s < MAX_SLI && ClassOfSize(fm[a]) == ClassIndex(f, s) && Bit(sl[f], s)
  {
    var c := ClassOfSize(fm[a]);
    f, s := c / MAX_SLI, c % MAX_SLI;
    assert a in lists[c];
  }

  lemma FirstOfList(mem: seq<int>, matrix: seq<int>, lists: seq<seq<int>>, fm: map<int, int>, c: int)
    requires AllLinked(mem, matrix, lists) && Members(lists, fm) && Separate(fm, |mem|)
    requires 0 <= c < CLASSES && lists[c] != []
    ensures matrix[c] in fm && ClassOfSize(fm[matrix[c]]) == c && matrix[c] != 0
  {
    assert Linked(mem, matrix[c], lists[c]);
    assert lists[c][0] in fm && Inside(lists[c][0], |mem|);
  }

  /** The lowest bit from sl up in a row names the lowest usable list of that row. */
  lemma RowSearch(fl: Word, sl: seq<Word>, lists: seq<seq<int>>, fm: map<int, int>, f: int, s: int)
    requires Indexed(fl, sl, lists) && Members(lists, fm) && ClassPair(f, s) && BitsFrom(sl[f], s) != 0
    ensures var s' := LsBit(BitsFrom(sl[f], s));
            s <= s' < MAX_SLI && lists[ClassIndex(f, s')] != [] &&
            forall a :: a in fm && ClassOfSize(fm[a]) >= ClassIndex(f, s) ==> ClassOfSize(fm[a]) >= ClassIndex(f, s')
  {
    var x := BitsFrom(sl[f], s);
    LsBitIsLowest(x);
    var s' := LsBit(x);
    BitsFromBits(sl[f], s, s');
    forall a | a in fm && ClassOfSize(fm[a]) >= ClassIndex(f, s)
      ensures ClassOfSize(fm[a]) >= ClassIndex(f, s')
    {
      var f1, s1 := BitOfFree(fl, sl, lists, fm, a);
      if f1 == f {
        BitsFromBits(sl[f], s, s1);
      }
    }
  }

  lemma RowEmpty(fl: Word, sl: seq<Word>, lists: seq<seq<int>>, fm: map<int, int>, f: int, s: int)
    requires Indexed(fl, sl, lists) && Members(lists, fm) && ClassPair(f, s) && BitsFrom(sl[f], s) == 0
    ensures forall a :: a in fm && ClassOfSize(fm[a]) >= ClassIndex(f, s) ==> ClassOfSize(fm[a]) >= ClassIndex(f + 1, 0)
  {
    forall a | a in fm && ClassOfSize(fm[a]) >= ClassIndex(f, s)
      ensures ClassOfSize(fm[a]) >= ClassIndex(f + 1, 0)
    {
      var f1, s1 := BitOfFree(fl, sl, lists, fm, a);
      if f1 == f {
        BitsFromBits(sl[f], s, s1);
        ZeroIffNoBits(BitsFrom(sl[f], s));
      }
    }
  }

  /** The lowest first-level bit above a row, and the lowest bit of that row, name the lowest list above the row. */
  lemma HigherRows(fl: Word, sl: seq<Word>, lists: seq<seq<int>>, fm: map<int, int>, f: int)
    requires Indexed(fl, sl, lists) && Members(lists, fm) && 0 <= f < REAL_FLI
    ensures var f' := LsBit(BitsFrom(fl, f + 1));
            (f' <= 0 ==> forall a :: a in fm ==> ClassOfSize(fm[a]) < ClassIndex(f + 1, 0)) &&
            (f' > 0 ==> f < f' < REAL_FLI && NonEmptyRow(sl, lists, f') && NoneBelow(sl, fm, f, f'))
  {
    var x := BitsFrom(fl, f + 1);
    if x == 0 {
      LsBitZero();
      forall a | a in fm ensures ClassOfSize(fm[a]) < ClassIndex(f + 1, 0) {
        var f1, s1 := BitOfFree(fl, sl, lists, fm, a);
        ZeroIffNoBits(sl[f1]);
        BitsFromBits(fl, f + 1, f1);
        ZeroIffNoBits(x);
      }
    } else {
      LsBitIsLowest(x);
      BitsFromBits(fl, f + 1, LsBit(x));
      LsBitIsLowest(sl[LsBit(x)]);
      LowestAbove(fl, sl, lists, fm, f, LsBit(x), x);
    }
  }

  ghost predicate NonEmptyRow(sl: seq<Word>, lists: seq<seq<int>>, f: int)
    requires |sl| == REAL_FLI && |lists| == CLASSES
  {
    0 <= f < REAL_FLI && sl[f] != 0 && ClassPair(f, LsBit(sl[f])) && lists[ClassIndex(f, LsBit(sl[f]))] != []
  }

  /** No free block's class lies above row f and below the first list of row f'. */
  ghost predicate NoneBelow(sl: seq<Word>, fm: map<int, int>, f: int, f': int)
    requires |sl| == REAL_FLI && 0 <= f' < REAL_FLI
  {
    forall a :: a in fm && ClassOfSize(fm[a]) >= ClassIndex(f + 1, 0) ==>
      ClassOfSize(fm[a]) >= ClassIndex(f', LsBit(sl[f']))
  }

  lemma LowestAbove(fl: Word, sl: seq<Word>, lists: seq<seq<int>>, fm: map<int, int>, f: int, f': int, x: Word)
    requires Indexed(fl, sl, lists) && Members(lists, fm) && 0 <= f < f' < REAL_FLI && sl[f'] != 0
    requires x == BitsFrom(fl, f + 1) && forall i: nat | i < f' :: !Bit(x, i)
    ensures NoneBelow(sl, fm, f, f')
  {
    hide LsBit, BitsFrom, ClassOf, Bit, Members;
    LsBitIsLowest(sl[f']);
    forall a | a in fm && ClassOfSize(fm[a]) >= ClassIndex(f + 1, 0)
      ensures ClassOfSize(fm[a]) >= ClassIndex(f', LsBit(sl[f']))
    {
      var f1, s1 := BitOfFree(fl, sl, lists, fm, a);
      ZeroIffNoBits(sl[f1]);
      BitsFromBits(fl, f + 1, f1);
    }
  }

  lemma ListedFirst(lists: seq<seq<int>>, fm: map<int, int>, b: int, c: int, head: int)
    requires Members(lists, fm) && 0 <= c < CLASSES && head == First(lists[c]) && head == b && b in fm &&
             ClassOfSize(fm[b]) == c
    ensures lists[c] != [] && lists[c][0] == b
  {
    assert b in lists[c];
  }

  lemma HeadListed(lists: seq<seq<int>>, fm: map<int, int>, mem: seq<int>, c: int, head: int)
    requires Members(lists, fm) && 0 <= c < CLASSES && head == First(lists[c])
    ensures head != 0 ==> head in fm && ClassOfSize(fm[head]) == c
  {
    if lists[c] != [] {
      assert lists[c][0] in fm;
    }
  }

  /** The neighbours of a listed block are free blocks of the same class. */
  lemma NeighboursListed(lists: seq<seq<int>>, fm: map<int, int>, mem: seq<int>, c: int, k: nat)
    requires Members(lists, fm) && Separate(fm, |mem|) && 0 <= c < CLASSES && k < |lists[c]|
    ensures var l := lists[c];
            (Before(l, k) != 0 ==> Before(l, k) in fm && ClassOfSize(fm[Before(l, k)]) == c) &&
            (After(l, k) != 0 ==> After(l, k) in fm && ClassOfSize(fm[After(l, k)]) == c) &&
            (Without(l, k) != [] ==> Without(l, k)[0] != 0)
  {
    var l := lists[c];
    if k > 0 {
      assert lists[c][k - 1] in fm;
      assert lists[c][0] in fm && Inside(l[0], |mem|);
    }
    if k + 1 < |l| {
      assert lists[c][k + 1] in fm && Inside(l[k + 1], |mem|);
    }
  }

  /** Relinking one list leaves every other list linked. */
  lemma RelinkOthers(mem: seq<int>, mem': seq<int>, matrix: seq<int>, lists: seq<seq<int>>, fm: map<int, int>,
                     c: int, l': seq<int>, head: int, fm': map<int, int>, touched: set<int>)
    requires AllLinked(mem, matrix, lists) && Members(lists, fm) && 0 <= c < CLASSES && |mem'| == |mem|
    requires Separate(fm', |mem|) && fm.Keys <= fm'.Keys
    requires Linked(mem', head, l')
    requires forall a :: a in touched ==> a in fm' && (a in fm ==> ClassOfSize(fm[a]) == c)
    requires forall w :: 0 <= w < |mem| && mem'[w] != mem[w] ==> w - 2 in touched || w - 3 in touched
    ensures AllLinked(mem', matrix[c := head], lists[c := l'])
    ensures LinksOnly(mem, mem', fm')
  {
    forall d | 0 <= d < CLASSES && d != c ensures Linked(mem', matrix[d], lists[d]) {
      var l := lists[d];
      assert Linked(mem, matrix[d], l);
      forall k | 0 <= k < |l| && LinkedAt(mem, l, k)
        ensures mem'[l[k] + 2] == mem[l[k] + 2] && mem'[l[k] + 3] == mem[l[k] + 3]
      {
        assert lists[d][k] in fm && ClassOfSize(fm[l[k]]) == d;
        forall a | a in touched ensures Clear(a, l[k]) {
          assert a != l[k];
        }
        TouchedClear(touched, l[k]);
      }
      LinkedFrame(mem, mem', matrix[d], l);
    }
  }

  /** Everything extraction needs of the lists before, and leaves of them after. */
  lemma Extracted(mem: seq<int>, matrix: seq<int>, lists: seq<seq<int>>, fm: map<int, int>, c: int, k: nat)
    requires Separate(fm, |mem|) && Members(lists, fm) && AllLinked(mem, matrix, lists)
    requires 0 <= c < CLASSES && k < |lists[c]|
    ensures var l := lists[c]; var l' := Without(l, k);
            LinkedAt(mem, l, k) && Pointer(Before(l, k), |mem|) && Pointer(After(l, k), |mem|) &&
            (k == 0 <==> matrix[c] == l[k]) && (Before(l, k) == 0 <==> k == 0) &&
            (l' != [] ==> l'[0] != 0) && (k == 0 ==> First(l') == After(l, k)) && (k > 0 ==> l' != []) &&
            var mem' := ExtractWrites(mem, l[k], Before(l, k), After(l, k));
            AllLinked(mem', matrix[c := if k == 0 then After(l, k) else matrix[c]], lists[c := l']) &&
            LinksOnly(mem, mem', fm)
    ensures Members(lists[c := Without(lists[c], k)], fm - {lists[c][k]})
    ensures Separate(fm - {lists[c][k]}, |mem|)
  {
    var l := lists[c];
    assert Linked(mem, matrix[c], l);
    LinksRead(mem, matrix[c], l, k);
    ExtractLinks(mem, matrix[c], l, k);
    RemoveMembers(lists, fm, c, k);
    NeighboursListed(lists, fm, mem, c, k);
    assert lists[c][k] in fm;
    RelinkOthers(mem, ExtractWrites(mem, l[k], Before(l, k), After(l, k)), matrix, lists, fm, c, Without(l, k),
                 if k == 0 then After(l, k) else matrix[c], fm, {l[k], Before(l, k), After(l, k)} - {0});
  }

  lemma TouchedClear(touched: set<int>, x: int)
    requires forall a :: a in touched ==> Clear(a, x)
    ensures x !in touched && x - 1 !in touched && x + 1 !in touched
  {
    forall a | a in touched ensures a != x && a != x - 1 && a != x + 1 {
      assert Clear(a, x);
    }
  }

  /** Likewise for insertion at the front of a list. */
  lemma Inserted(mem: seq<int>, matrix: seq<int>, lists: seq<seq<int>>, fm: map<int, int>, c: int, b: int, size: int)
    requires Separate(fm, |mem|) && Members(lists, fm) && AllLinked(mem, matrix, lists)
    requires b !in fm && Separate(fm[b := size], |mem|) && ClassOfSize(size) == c && 0 <= c < CLASSES
    ensures Inside(b, |mem|) && Pointer(matrix[c], |mem|)
    ensures var mem' := InsertWrites(mem, matrix[c], b);
            AllLinked(mem', matrix[c := b], lists[c := [b] + lists[c]]) && LinksOnly(mem, mem', fm[b := size])
    ensures Members(lists[c := [b] + lists[c]], fm[b := size])
  {
    var l, fm' := lists[c], fm[b := size];
    assert Linked(mem, matrix[c], l);
    assert b in fm';
    InsertMembers(lists, fm, b, size);
    MembersApart(lists[c := [b] + l], fm', |mem|, c);
    InsertLinks(mem, matrix[c], l, b);
    HeadListed(lists, fm, mem, c, matrix[c]);
    RelinkOthers(mem, InsertWrites(mem, matrix[c], b), matrix, lists, fm, c, [b] + l, b, fm', {b, matrix[c]} - {0});
  }

  // ----- requests

  /** A request rounded up to whole double words, at least one of them. */
  function RoundUp(size: Word): (r: Word)
    ensures size + 8 <= MAX_BLOCK ==> size <= r < size + 16 && 8 <= r < MAX_BLOCK && r % 8 == 0
    ensures 8 <= size && size + 8 <= MAX_BLOCK ==> r < size + 8
    ensures size < 8 ==> r == 8
  {
    if size < 8 then 8
    else
      WrapWitness(size + 7, (size + 7) / WORD_MOD, (size + 7) % WORD_MOD);
      Wrap(size + 7) - Wrap(size + 7) % 8
  }

  /** Requests whose class lies inside the matrix. */
  predicate Storable(size: Word) {
    hide MappingSearch, Wrap;
    size + 8 <= MAX_BLOCK && MappingSearch(RoundUp(size)).0 < MAX_BLOCK
  }

  /** The class-rounded size a request needs. */
  function Need(size: Word): int
    requires Storable(size)
  {
    hide MappingSearch, Wrap;
    MappingSearch(RoundUp(size)).0
  }

  ghost predicate NoneFree(bs: seq<Block>, need: int) {
    forall k :: 0 <= k < |bs| && bs[k].free ==> bs[k].size < need
  }

  /** A block of that size reaches a class all of whose sizes suit a request for r bytes. */
  ghost predicate Reaches(size: int, r: int) {
    exists fl: nat, sl: nat :: sl < MAX_SLI && r <= ClassLow(fl, sl) <= size
  }

  ghost predicate NoneReaches(bs: seq<Block>, r: int) {
    forall k :: 0 <= k < |bs| && bs[k].free ==> !Reaches(bs[k].size, r)
  }

  /** A block is large enough for a request exactly if it reaches a class that is sure to do. */
  lemma NeedReached(size: Word, x: int)
    requires Storable(size)
    ensures Need(size) <= x <==> Reaches(x, RoundUp(size))
  {
    hide MappingSearch, RoundUp, ClassLow;
    var r := RoundUp(size);
    SearchRoundsToClass(r);
    if Reaches(x, r) {
      var fl: nat, sl: nat :| sl < MAX_SLI && r <= ClassLow(fl, sl) <= x;
      SearchIsLeast(r, fl, sl);
    }
    var (need, fl0, sl0) := MappingSearch(r);
    if need <= x {
      assert r <= ClassLow(fl0, sl0) <= x;
    }
  }

  lemma NoneLargeEnough(bs: seq<Block>, size: Word)
    requires Storable(size)
    ensures NoneFree(bs, Need(size)) <==> NoneReaches(bs, RoundUp(size))
  {
    hide Reaches, Need, RoundUp, Storable;
    forall k | 0 <= k < |bs| ensures Need(size) <= bs[k].size <==> Reaches(bs[k].size, RoundUp(size)) {
      NeedReached(size, bs[k].size);
    }
  }

  /** Block i is free, large enough, and no large enough free block lies in a lower class. */
  ghost predicate TakenFrom(bs: seq<Block>, i: nat, need: int) {
    && i < |bs| && bs[i].free && need <= bs[i].size
    && forall k :: 0 <= k < |bs| && bs[k].free && need <= bs[k].size ==>
       ClassOfSize(bs[i].size) <= ClassOfSize(bs[k].size)
  }

  /** When every free block's class is below the one searched from, none is large enough. */
  lemma NoneSuits(bs: seq<Block>, need: int, fl: nat, sl: nat, words: int)
    requires Tiled(bs, BASE) && Separate(FreeMap(bs), words) && need == ClassLow(fl, sl) && sl < MAX_SLI
    requires forall a :: a in FreeMap(bs) ==> ClassOfSize(FreeMap(bs)[a]) < ClassIndex(fl, sl)
    ensures NoneFree(bs, need)
  {
    hide ClassOf, ClassLow, ClassIndex, FreeMap;
    forall k | 0 <= k < |bs| && bs[k].free ensures bs[k].size < need {
      FreeBlockInMap(bs, BASE, k);
      ClassReached(bs[k].size, fl, sl);
    }
  }

  /** A block of the lowest class at or above the one searched from is large enough. */
  lemma SuitableBlock(bs: seq<Block>, need: int, fl: nat, sl: nat, b: int, words: int) returns (i: nat)
    requires Tiled(bs, BASE) && Separate(FreeMap(bs), words) && need == ClassLow(fl, sl) && sl < MAX_SLI &&
             b in FreeMap(bs)
    requires ClassOfSize(FreeMap(bs)[b]) >= ClassIndex(fl, sl)
    requires forall a :: a in FreeMap(bs) && ClassOfSize(FreeMap(bs)[a]) >= ClassIndex(fl, sl) ==>
               ClassOfSize(FreeMap(bs)[a]) >= ClassOfSize(FreeMap(bs)[b])
    ensures TakenFrom(bs, i, need) && bs[i].addr == b && bs[i].size == FreeMap(bs)[b]
    ensures !NoneFree(bs, need)
  {
    hide ClassOf, ClassLow, ClassIndex, FreeMap;
    i := FreeMapBlock(bs, b);
    ClassReached(bs[i].size, fl, sl);
    forall k | 0 <= k < |bs| && bs[k].free && need <= bs[k].size
      ensures ClassOfSize(bs[i].size) <= ClassOfSize(bs[k].size)
    {
      FreeBlockInMap(bs, BASE, k);
      ClassReached(bs[k].size, fl, sl);
    }
  }

  /** Taking a block adds its payload to the live ones and changes no other. */
  lemma LiveTaken(bs: seq<Block>, i: nat, n: int, mem: seq<int>, mem': seq<int>)
    requires Tiled(bs, BASE) && NoFreeNeighbours(bs) && Fits(bs, |mem|)
    requires i < |bs| && bs[i].free && 8 <= n <= bs[i].size && n % 8 == 0
    requires i + 1 < |bs| && Frame(mem, mem', bs, Take(bs, i, n), i, i + 1)
    ensures var bs', p := Take(bs, i, n), bs[i].addr + 2;
            i < |bs'| && bs'[i].addr + 2 == p && n <= bs'[i].size < n + 16 && p !in LiveMap(bs, mem) &&
            LiveMap(bs', mem') == LiveMap(bs, mem)[p := Payload(mem', bs'[i])]
  {
    hide FreeMap, FreeTotal;
    var mid := Carve(bs[i].addr, bs[i].size, n);
    SingleBlock(bs, i);
    CarveSplice(bs, BASE, i, i + 1, n);
    LiveSplice(mem, mem', bs, BASE, i, i + 1, mid);
    FromLow(bs, BASE, i);
    FromLow(bs, BASE, i + 1);
    assert Take(bs, i, n)[i] == mid[0];
    CarvedLive(bs[i].addr, bs[i].size, n, mem');
    assert LiveMap(bs[i..i + 1], mem) == map[] by { assert [bs[i]][..0] == []; }
    NotLiveTwice(bs, i, mem);
  }

  /** The first block of a carved span is the only live one. */
  lemma CarvedLive(a: int, total: int, n: int, mem: seq<int>)
    requires 8 <= n <= total && n % 8 == 0 && total % 8 == 0 && 0 <= a && NextBlock(a, total) <= |mem|
    ensures var mid := Carve(a, total, n); LiveMap(mid, mem) == map[a + 2 := Payload(mem, mid[0])]
  {
    var mid := Carve(a, total, n);
    assert LiveMap([mid[0]], mem) == map[a + 2 := Payload(mem, mid[0])] by { assert [mid[0]][..0] == []; }
    if |mid| == 2 { assert mid[..1] == [mid[0]]; }
  }

  lemma NotLiveTwice(bs: seq<Block>, i: nat, mem: seq<int>)
    requires Tiled(bs, BASE) && i < |bs| && bs[i].free
    ensures bs[i].addr + 2 !in LiveMap(bs, mem)
  {
    var p := bs[i].addr + 2;
    if p in LiveMap(bs, mem) {
      var k := LiveBlock(bs, mem, p);
      if k < i { Ordered(bs, BASE, k, i); } else if i < k { Ordered(bs, BASE, i, k); }
    }
  }

  lemma ClassOfPair(size: int)
    requires 0 <= size < MAX_BLOCK
    ensures ClassPair(MappingInsert(size).0, MappingInsert(size).1)
    ensures ClassOfSize(size) == ClassIndex(MappingInsert(size).0, MappingInsert(size).1)
  {
    hide MappingInsert, ClassLow, ClassWidth;
    MappingInsertIsClass(size);
  }

  lemma FileFrame(fm: map<int, int>, b: int, size: int, next: int)
    requires NoLinks(fm, b, next + 2) && b + 4 <= next
    ensures b !in fm && !LinkWord(fm[b := size], next) && !LinkWord(fm[b := size], next + 1) &&
            !LinkWord(fm[b := size], b + 1)
    ensures forall w :: !LinkWord(fm, w) && !(b <= w < next + 2) ==> !LinkWord(fm[b := size], w)
  {
    assert !LinkWord(fm, b + 2) && !LinkWord(fm, next) && !LinkWord(fm, next + 1) && !LinkWord(fm, b + 1);
  }

  // ----- releasing a block

  lemma NullNotLive(bs: seq<Block>, mem: seq<int>)
    requires Tiled(bs, BASE)
    ensures 0 !in LiveMap(bs, mem)
  {
    if 0 in LiveMap(bs, mem) {
      var i := LiveBlock(bs, mem, 0);
    }
  }

  lemma NoBlocks()
    ensures FreeMap([]) == map[] && FreeTotal([]) == 0
  {
  }

  /** The span a released block joins: its size and the free blocks in it. */
  lemma ReleaseSpan(bs: seq<Block>, i: nat)
    requires Tiled(bs, BASE) && NoFreeNeighbours(bs) && i + 1 < |bs| && !bs[i].free
    ensures var p, q := MergeFrom(bs, i), MergeTo(bs, i); var next := bs[i + 1];
            p <= i < q < |bs| && !bs[q].free && (p > 0 ==> !bs[p - 1].free) &&
            Joined(bs, i, q) == bs[i].size + (if next.free then next.size + 8 else 0) &&
            Joined(bs, p, q) == Joined(bs, i, q) + (if PrevFree(bs, i) then bs[i - 1].size + 8 else 0) &&
            FreeMap(bs[p..q]).Keys ==
            (if PrevFree(bs, i) then {bs[i - 1].addr} else {}) + (if next.free then {next.addr} else {}) &&
            FreeTotal(bs[p..q]) == Joined(bs, p, q) - bs[i].size
  {
    hide FreeMap, FreeTotal;
    NoBlocks();
    var p, q := MergeFrom(bs, i), MergeTo(bs, i);
    assert bs[p..q] == bs[p..i] + bs[i..i + 1] + bs[i + 1..q];
    FreeMapConcat(bs[p..i] + bs[i..i + 1], bs[i + 1..q]);
    FreeMapConcat(bs[p..i], bs[i..i + 1]);
    FreeTotalConcat(bs[p..i] + bs[i..i + 1], bs[i + 1..q]);
    FreeTotalConcat(bs[p..i], bs[i..i + 1]);
    SingleBlock(bs, i);
    if p < i { SingleBlock(bs, p); }
    if q > i + 1 { SingleBlock(bs, i + 1); }
  }

  /** The merged block fills the span. */
  lemma ReleaseFills(bs: seq<Block>, i: nat, words: int)
    requires Tiled(bs, BASE) && NoFreeNeighbours(bs) && Fits(bs, words) && i + 1 < |bs| && !bs[i].free
    ensures var p, q := MergeFrom(bs, i), MergeTo(bs, i); var b, size := bs[p].addr, Joined(bs, p, q);
            p < q < |bs| && !bs[q].free && (p > 0 ==> !bs[p - 1].free) && Fills(bs, p, q, [Block(b, size, true)]) &&
            8 <= size < MAX_BLOCK && size % 8 == 0 && bs[q].addr == NextBlock(b, size)
  {
    hide FreeMap, FreeTotal, Joined;
    var p, q := MergeFrom(bs, i), MergeTo(bs, i);
    ReleaseSpan(bs, i);
    JoinedEnds(bs, BASE, p, q);
    FromLow(bs, BASE, p);
    FromLow(bs, BASE, q);
  }

  /** Everything about the row after block i is released. */
  lemma ReleaseRow(bs: seq<Block>, i: nat, words: int)
    requires Tiled(bs, BASE) && NoFreeNeighbours(bs) && Fits(bs, words) && i + 1 < |bs| && !bs[i].free
    ensures var p, q, bs' := MergeFrom(bs, i), MergeTo(bs, i), Release(bs, i);
            var b, size := bs[p].addr, Joined(bs, p, q);
            Tiled(bs', BASE) && NoFreeNeighbours(bs') && Fits(bs', words) &&
            FreeMap(bs') == (FreeMap(bs) - FreeMap(bs[p..q]).Keys)[b := size] &&
            FreeTotal(bs') == FreeTotal(bs) + bs[i].size + 8 && Separate(FreeMap(bs'), words)
  {
    hide Separate, FreeMap, FreeTotal, Joined, Fills, Tiled, NoFreeNeighbours, MergeFrom, MergeTo;
    ReleaseFills(bs, i, words);
    var p, q, bs' := MergeFrom(bs, i), MergeTo(bs, i), Release(bs, i);
    var mid := [Block(bs[p].addr, Joined(bs, p, q), true)];
    SingleIsQuiet(mid[0]);
    SpliceTiled(bs, BASE, p, q, mid);
    SpliceNoFreeNeighbours(bs, p, q, mid);
    FreeMapSplice(bs, BASE, p, q, mid);
    FreeTotalSplice(bs, p, q, mid);
    ReleaseSpan(bs, i);
    assert mid[0..1] == mid;
    SingleBlock(mid, 0);
    assert bs'[|bs'| - 1] == bs[|bs| - 1];
    TiledSeparate(bs', BASE, words);
  }

  lemma SingleIsQuiet(b: Block)
    ensures NoFreeNeighbours([b])
  {
  }

  /** What holds of a used block, its headers and its neighbours before it is released. */
  lemma ReleaseReady(mem: seq<int>, bs: seq<Block>, i: nat)
    requires Tiled(bs, BASE) && NoFreeNeighbours(bs) && Fits(bs, |mem|) && Headers(mem, bs)
    requires i + 1 < |bs| && !bs[i].free
    ensures var fm, b, next := FreeMap(bs), bs[i], bs[i + 1]; var p, q := MergeFrom(bs, i), MergeTo(bs, i);
            0 < b.addr && NoLinks(fm, b.addr, b.addr + 4) && End(b) == next.addr && next.addr + 2 <= |mem| &&
            b.addr + 4 <= next.addr &&
            mem[b.addr + 1] == Tag(b.size, false, PrevFree(bs, i)) &&
            mem[next.addr + 1] == Tag(next.size, next.free, false) &&
            !LinkWord(fm, next.addr + 1) && !LinkWord(fm, next.addr) &&
            (next.free ==> next.addr in fm && fm[next.addr] == next.size) &&
            0 < bs[p].addr <= b.addr && bs[q].addr + 2 <= |mem| && next.addr <= bs[q].addr &&
            next.size % 8 == 0 && b.size % 8 == 0 &&
            mem[bs[q].addr + 1] == Tag(bs[q].size, false, PrevFree(bs, q)) && bs[q].size % 8 == 0 &&
            !LinkWord(fm, bs[q].addr + 1) &&
            bs[q].addr > b.addr + 1 && !LinkWord(fm, b.addr) && !LinkWord(fm, b.addr + 1) &&
            Joined(bs, i, q) % 8 == 0 && Joined(bs, i, q) == b.size + (if next.free then next.size + 8 else 0) &&
            Joined(bs, p, q) == Joined(bs, i, q) + (if PrevFree(bs, i) then bs[p].size + 8 else 0) &&
            Joined(bs, i, q) >= b.size >= 8
    ensures var fm, b, next := FreeMap(bs), bs[i], bs[i + 1]; var p, q := MergeFrom(bs, i), MergeTo(bs, i);
            (PrevFree(bs, i) ==>
             bs[p].addr in fm && fm[bs[p].addr] == bs[p].size && mem[b.addr] == bs[p].addr &&
             bs[p].addr != next.addr &&
                                 bs[p].addr + 4 <= b.addr && mem[bs[p].addr + 1] == Tag(bs[p].size, true, false) &&
                                 !LinkWord(fm, bs[p].addr + 1))
    ensures var p, q := MergeFrom(bs, i), MergeTo(bs, i);
            bs[p].size % 8 == 0 && NoLinks(FreeMap(bs) - FreeMap(bs[p..q]).Keys, bs[p].addr, bs[q].addr + 2)
    ensures var fm1 := if bs[i + 1].free then FreeMap(bs) - {bs[i + 1].addr} else FreeMap(bs);
            FreeMap(bs) - FreeMap(bs[MergeFrom(bs, i)..MergeTo(bs, i)]).Keys == if PrevFree(bs, i)
            then fm1 - {bs[MergeFrom(bs, i)].addr} else fm1
  {
    hide FreeMap, Joined, FreeTotal, Tag, LinkWord, NoFreeNeighbours;
    var p, q := MergeFrom(bs, i), MergeTo(bs, i);
    ReleaseSpan(bs, i);
    SpanNotLinked(bs, BASE, p, q);
    FromLow(bs, BASE, p);
    FromLow(bs, BASE, q);
    Ordered(bs, BASE, i, q);
    JoinedEnds(bs, BASE, i, q);
    KeepsHeader(bs, BASE, i);
    assert HeaderAt(mem, bs, i) && HeaderAt(mem, bs, i + 1) && HeaderAt(mem, bs, p) && HeaderAt(mem, bs, q);
    KeepsHeader(bs, BASE, i + 1);
    KeepsHeader(bs, BASE, q);
    KeepsHeader(bs, BASE, p);
    forall w | bs[i].addr <= w < End(bs[i]) ensures !LinkWord(FreeMap(bs), w) {
      UsedNotLink(bs, BASE, i, w);
    }
    if bs[i + 1].free { FreeBlockInMap(bs, BASE, i + 1); Ordered(bs, BASE, i + 1, q); }
    if PrevFree(bs, i) {
      FreeBlockInMap(bs, BASE, i - 1);
      Ordered(bs, BASE, i - 1, i);
      Ordered(bs, BASE, i - 1, i + 1);
    }
  }

  /** The words a release writes: the merged block's header, the tag of the block after it, and list links. */
  ghost predicate ReleasedWords(mem: seq<int>, mem': seq<int>, bs: seq<Block>, i: nat)
    requires i + 1 < |bs|
  {
    var p, q := MergeFrom(bs, i), MergeTo(bs, i);
    && |mem'| == |mem| && 0 <= bs[p].addr && q < |bs| && 0 <= bs[q].addr && bs[q].addr + 2 <= |mem| &&
       bs[p].addr + 2 <= |mem|
    && mem'[bs[p].addr + 1] == Tag(Joined(bs, p, q), true, false)
    && mem'[bs[q].addr] == bs[p].addr && mem'[bs[q].addr + 1] == Tag(bs[q].size, false, true)
    && forall w :: 0 <= w < |mem| && !(bs[p].addr <= w < bs[q].addr + 2) && !LinkWord(FreeMap(bs), w) ==>
       mem'[w] == mem[w]
  }

  /** They leave every header right and stay inside the span. */
  lemma ReleaseHeaders(mem: seq<int>, mem': seq<int>, bs: seq<Block>, i: nat)
    requires Tiled(bs, BASE) && NoFreeNeighbours(bs) && Fits(bs, |mem|) && Headers(mem, bs)
    requires i + 1 < |bs| && !bs[i].free && ReleasedWords(mem, mem', bs, i)
    ensures var p, q := MergeFrom(bs, i), MergeTo(bs, i);
            p < q < |bs| && Headers(mem', Release(bs, i)) && Frame(mem, mem', bs, Release(bs, i), p, q)
  {
    hide FreeMap, Joined, FreeTotal, Separate, NoFreeNeighbours, LinkWord, Tag;
    var p, q, bs' := MergeFrom(bs, i), MergeTo(bs, i), Release(bs, i);
    var mid := [Block(bs[p].addr, Joined(bs, p, q), true)];
    ReleaseFills(bs, i, |mem|);
    assert bs'[p] == mid[0] && bs'[p + 1] == bs[q];
    assert p > 0 ==> bs'[p - 1] == bs[p - 1];
    assert HeaderAt(mem', bs', p) && HeaderAt(mem', bs', p + 1);
    HeadersSplice(mem, mem', bs, BASE, p, q, mid);
  }

  /** They leave every payload but the released one alone. */
  lemma ReleasePayloads(mem: seq<int>, mem': seq<int>, bs: seq<Block>, i: nat)
    requires Tiled(bs, BASE) && NoFreeNeighbours(bs) && Fits(bs, |mem|) && Headers(mem, bs)
    requires i + 1 < |bs| && !bs[i].free && ReleasedWords(mem, mem', bs, i)
    ensures LiveMap(Release(bs, i), mem') == LiveMap(bs, mem) - {bs[i].addr + 2}
  {
    hide FreeMap, Joined, FreeTotal, LiveMap, Separate, NoFreeNeighbours, LinkWord, Headers, Tag, Frame, ReleasedWords;
    var p, q := MergeFrom(bs, i), MergeTo(bs, i);
    ReleaseFills(bs, i, |mem|);
    ReleaseHeaders(mem, mem', bs, i);
    var mid := [Block(bs[p].addr, Joined(bs, p, q), true)];
    LiveSplice(mem, mem', bs, BASE, p, q, mid);
    SpanLive(bs, i, mem);
    LiveOne(mid[0], mem');
  }

  lemma LiveOne(b: Block, mem: seq<int>)
    ensures LiveMap([b], mem) == if !b.free && b.size >= 8 && 0 <= b.addr && End(b) <= |mem|
            then map[b.addr + 2 := Payload(mem, b)] else map[]
  {
    assert [b][..0] == [];
  }

  /** The only live payload in the span a released block joins is its own. */
  lemma SpanLive(bs: seq<Block>, i: nat, mem: seq<int>)
    requires Tiled(bs, BASE) && NoFreeNeighbours(bs) && Fits(bs, |mem|) && i + 1 < |bs| && !bs[i].free
    ensures LiveMap(bs[MergeFrom(bs, i)..MergeTo(bs, i)], mem).Keys == {bs[i].addr + 2}
  {
    hide LiveMap, FreeMap;
    var p, q := MergeFrom(bs, i), MergeTo(bs, i);
    assert bs[p..q] == bs[p..i] + [bs[i]] + bs[i + 1..q];
    LiveConcat(bs[p..i] + [bs[i]], bs[i + 1..q], mem);
    LiveConcat(bs[p..i], [bs[i]], mem);
    LiveNone(mem);
    LiveOne(bs[i], mem);
    FromLow(bs, BASE, i);
    FromLow(bs, BASE, i + 1);
    if p < i { assert bs[p..i] == [bs[p]]; LiveOne(bs[p], mem); }
    if q > i + 1 { assert bs[i + 1..q] == [bs[i + 1]]; LiveOne(bs[i + 1], mem); }
  }

  lemma LiveNone(mem: seq<int>)
    ensures LiveMap([], mem) == map[]
  {
  }

  // ----- resizing a block in place

  /** A used block can become n bytes where it is: by shrinking, or by growing into a free right neighbour. */
  predicate InPlace(bs: seq<Block>, i: nat, n: int)
    requires i + 1 < |bs|
  {
    n <= bs[i].size || (bs[i + 1].free && n <= bs[i].size + bs[i + 1].size)
  }

  /** The free blocks after a resize. */
  ghost function ResizedFree(bs: seq<Block>, i: nat, n: int): map<int, int>
    requires i + 1 < |bs|
  {
    var q := MergeTo(bs, i);
    var total := Joined(bs, i, q);
    var fm := if bs[i + 1].free then FreeMap(bs) - {bs[i + 1].addr} else FreeMap(bs);
    if total - n >= 16 then fm[NextBlock(bs[i].addr, n) := total - n - 8] else fm
  }

  /** The span a resized block may use. */
  lemma ResizeSpan(bs: seq<Block>, i: nat)
    requires Tiled(bs, BASE) && NoFreeNeighbours(bs) && i + 1 < |bs| && !bs[i].free
    ensures var q, next := MergeTo(bs, i), bs[i + 1];
            i < q < |bs| && !bs[q].free && (next.free ==> next.size >= 8) &&
            Joined(bs, i, q) == bs[i].size + (if next.free then next.size + 8 else 0) &&
            FreeMap(bs[i..q]).Keys == (if next.free then {next.addr} else {}) &&
            FreeTotal(bs[i..q]) == Joined(bs, i, q) - bs[i].size &&
            bs[q].addr == NextBlock(bs[i].addr, Joined(bs, i, q))
  {
    hide FreeMap, FreeTotal;
    NoBlocks();
    var q := MergeTo(bs, i);
    assert bs[i..q] == bs[i..i + 1] + bs[i + 1..q];
    FreeMapConcat(bs[i..i + 1], bs[i + 1..q]);
    FreeTotalConcat(bs[i..i + 1], bs[i + 1..q]);
    SingleBlock(bs, i);
    if q > i + 1 { SingleBlock(bs, i + 1); }
    JoinedEnds(bs, BASE, i, q);
  }

  /** What holds of a used block, its headers and its right neighbours before it is resized. */
  lemma ResizeReady(mem: seq<int>, bs: seq<Block>, i: nat, n: int)
    requires Tiled(bs, BASE) && NoFreeNeighbours(bs) && Fits(bs, |mem|) && Headers(mem, bs)
    requires i + 1 < |bs| && !bs[i].free && InPlace(bs, i, n) && 8 <= n && n % 8 == 0
    ensures var fm, b, next, q := FreeMap(bs), bs[i], bs[i + 1], MergeTo(bs, i);
            0 < b.addr && End(b) == next.addr && next.addr + 2 <= |mem| && b.addr + 4 <= next.addr &&
            next.size % 8 == 0 && b.size % 8 == 0 && 8 <= b.size && next.size >= 0 &&
            mem[b.addr + 1] == Tag(b.size, false, PrevFree(bs, i)) &&
            mem[next.addr + 1] == Tag(next.size, next.free, false) &&
            !LinkWord(fm, b.addr) && !LinkWord(fm, b.addr + 1) && !LinkWord(fm, next.addr) &&
            !LinkWord(fm, next.addr + 1) &&
            q < |bs| && (next.free ==>
                         next.addr in fm && fm[next.addr] == next.size && next.size >= 8 &&
                         bs[q].addr == End(next)) &&
            bs[q].size % 8 == 0 && bs[q].addr + 2 <= |mem| && next.addr <= bs[q].addr &&
            (!next.free ==> bs[q] == next) &&
            mem[bs[q].addr + 1] == Tag(bs[q].size, false, next.free) && !LinkWord(fm, bs[q].addr) &&
            !LinkWord(fm, bs[q].addr + 1)
    ensures var q, total := MergeTo(bs, i), Joined(bs, i, MergeTo(bs, i));
            bs[q].addr == NextBlock(bs[i].addr, total) &&
            total == bs[i].size + (if bs[i + 1].free then bs[i + 1].size + 8 else 0) &&
            n <= total < MAX_BLOCK
    ensures var fm1 := if bs[i + 1].free then FreeMap(bs) - {bs[i + 1].addr} else FreeMap(bs);
            NoLinks(fm1, bs[i].addr, bs[MergeTo(bs, i)].addr + 2) &&
            (forall w :: LinkWord(fm1, w) ==> LinkWord(FreeMap(bs), w)) && Separate(ResizedFree(bs, i, n), |mem|)
  {
    hide FreeMap, Joined, FreeTotal, Separate;
    var q := MergeTo(bs, i);
    ResizeSpan(bs, i);
    SpanNotLinked(bs, BASE, i, q);
    FromLow(bs, BASE, i);
    FromLow(bs, BASE, q);
    Ordered(bs, BASE, i, q);
    assert HeaderAt(mem, bs, i) && HeaderAt(mem, bs, i + 1) && HeaderAt(mem, bs, q);
    KeepsHeader(bs, BASE, i);
    KeepsHeader(bs, BASE, i + 1);
    KeepsHeader(bs, BASE, q);
    if bs[i + 1].free { FreeBlockInMap(bs, BASE, i + 1); }
    ResizeRow(bs, i, n, |mem|);
    assert !bs[i + 1].free ==> FreeMap(bs) - FreeMap(bs[i..q]).Keys == FreeMap(bs);
  }

  /** Everything about the row after block i is resized. */
  lemma ResizeRow(bs: seq<Block>, i: nat, n: int, words: int)
    requires Tiled(bs, BASE) && NoFreeNeighbours(bs) && Fits(bs, words)
    requires i + 1 < |bs| && !bs[i].free && InPlace(bs, i, n) && 8 <= n && n % 8 == 0
    ensures var bs', q := Resize(bs, i, n), MergeTo(bs, i);
            Tiled(bs', BASE) && NoFreeNeighbours(bs') && Fits(bs', words) && FreeMap(bs') == ResizedFree(bs, i, n) &&
            Separate(FreeMap(bs'), words) && i < |bs'| &&
            bs'[i] == Block(bs[i].addr, CarvedSize(Joined(bs, i, q), n), false) &&
            FreeTotal(bs') == FreeTotal(bs) + bs[i].size - bs'[i].size
  {
    hide FreeMap, Joined, FreeTotal, Separate, Fills, NoFreeNeighbours, Tiled, NextBlock;
    var q := MergeTo(bs, i);
    ResizeSpan(bs, i);
    CarveSplice(bs, BASE, i, q, n);
    TiledSeparate(Resize(bs, i, n), BASE, words);
  }

  /** Bytes of a payload that outlive its resize. */
  function Kept(size: int, total: int, n: int): int {
    if CarvedSize(total, n) < size then CarvedSize(total, n) else size
  }

  /** Payload bytes of a block and the free block after it, run together. */
  function SpanTotal(size: int, nextFree: bool, nextSize: int): int {
    size + if nextFree then nextSize + 8 else 0
  }

  /** The lists own none of the header words of a block and its right neighbours. */
  ghost predicate KeepsTags(fm: map<int, int>, b: int, next: int, hi: int) {
    && !LinkWord(fm, b) && !LinkWord(fm, b + 1) && !LinkWord(fm, next) && !LinkWord(fm, next + 1)
    && !LinkWord(fm, hi) && !LinkWord(fm, hi + 1)
  }

  lemma LinkSubset(fm: map<int, int>, fm': map<int, int>)
    requires fm'.Keys <= fm.Keys
    ensures forall w :: LinkWord(fm', w) ==> LinkWord(fm, w)
  {
  }

  ghost predicate SamePrefix(a: seq<int>, b: seq<int>) {
    forall k :: 0 <= k < |a| && k < |b| ==> a[k] == b[k]
  }

  /** The size words of a used block and its right neighbour. */
  lemma ResizeWords(mem: seq<int>, bs: seq<Block>, i: nat)
    requires Tiled(bs, BASE) && NoFreeNeighbours(bs) && Fits(bs, |mem|) && Headers(mem, bs)
    requires i + 1 < |bs| && !bs[i].free
    ensures var b, next := bs[i], bs[i + 1];
            0 < b.addr && End(b) == next.addr && b.addr + 2 <= next.addr && next.addr + 2 <= |mem| &&
            b.size % 8 == 0 && 8 <= b.size && next.size % 8 == 0 &&
            mem[b.addr + 1] == Tag(b.size, false, PrevFree(bs, i)) &&
            mem[next.addr + 1] == Tag(next.size, next.free, false) &&
            MergeTo(bs, i) < |bs|
  {
    FromLow(bs, BASE, i);
    FromLow(bs, BASE, i + 1);
    assert HeaderAt(mem, bs, i) && HeaderAt(mem, bs, i + 1);
  }

  /** What a resize leaves of memory: the words of the carved span, and all it may not touch. */
  ghost predicate ResizedWords(mem: seq<int>, mem': seq<int>, bs: seq<Block>, i: nat, n: int)
    requires i + 1 < |bs|
  {
    var b, size, q := bs[i].addr, bs[i].size, MergeTo(bs, i);
    && |mem'| == |mem| && q < |bs| && 0 <= b && b + 2 <= |mem|
    && CarvedWords(mem', b, Joined(bs, i, q), n, bs[q].addr, bs[q].size, PrevFree(bs, i)) && mem'[b] == mem[b]
    && forall w ::
       0 <= w < |mem| && w != b + 1 && !(NextBlock(b, Kept(size, Joined(bs, i, q), n)) <= w < bs[q].addr + 2) &&
       !LinkWord(FreeMap(bs), w) ==>
         mem'[w] == mem[w]
  }

  /** The words written leave every header right and stay inside the span. */
  lemma ResizeHeaders(mem: seq<int>, mem': seq<int>, bs: seq<Block>, i: nat, n: int)
    requires Tiled(bs, BASE) && NoFreeNeighbours(bs) && Headers(mem, bs)
    requires i + 1 < |bs| && !bs[i].free && InPlace(bs, i, n) && 8 <= n && n % 8 == 0 &&
             ResizedWords(mem, mem', bs, i, n)
    ensures Headers(mem', Resize(bs, i, n)) && MergeTo(bs, i) < |bs| &&
            Frame(mem, mem', bs, Resize(bs, i, n), i, MergeTo(bs, i))
  {
    hide FreeMap, Joined, FreeTotal, LinkWord, CarvedWords;
    var q := MergeTo(bs, i);
    var mid := Carve(bs[i].addr, Joined(bs, i, q), n);
    ResizeSpan(bs, i);
    CarveSplice(bs, BASE, i, q, n);
    assert HeaderAt(mem, bs, i);
    CarveHeaders(mem', bs, BASE, i, q, n);
    HeadersSplice(mem, mem', bs, BASE, i, q, mid);
  }

  /** The payload survives as far as it goes, and every other payload does whole. */
  lemma ResizePayloads(mem: seq<int>, mem': seq<int>, bs: seq<Block>, i: nat, n: int)
    requires Tiled(bs, BASE) && NoFreeNeighbours(bs) && Fits(bs, |mem|) && Headers(mem, bs)
    requires i + 1 < |bs| && !bs[i].free && InPlace(bs, i, n) && 8 <= n && n % 8 == 0 &&
             ResizedWords(mem, mem', bs, i, n)
    ensures var bs' := Resize(bs, i, n);
            i < |bs'| && n <= bs'[i].size && SamePrefix(Payload(mem, bs[i]), Payload(mem', bs'[i])) &&
            LiveMap(bs', mem') == LiveMap(bs, mem)[bs[i].addr + 2 := Payload(mem', bs'[i])]
  {
    hide FreeMap, Joined, FreeTotal, LiveMap, NoFreeNeighbours, LinkWord, CarvedWords, Headers, Frame;
    var q := MergeTo(bs, i);
    var mid := Carve(bs[i].addr, Joined(bs, i, q), n);
    ResizeSpan(bs, i);
    ResizeHeaders(mem, mem', bs, i, n);
    CarveSplice(bs, BASE, i, q, n);
    LiveSplice(mem, mem', bs, BASE, i, q, mid);
    FromLow(bs, BASE, i);
    FromLow(bs, BASE, q);
    CarvedLive(bs[i].addr, Joined(bs, i, q), n, mem');
    ResizeLive(bs, i, mem);
    assert Resize(bs, i, n)[i] == mid[0];
    PayloadKept(mem, mem', bs, i, n);
  }

  lemma PayloadKept(mem: seq<int>, mem': seq<int>, bs: seq<Block>, i: nat, n: int)
    requires Tiled(bs, BASE) && i + 1 < |bs| && !bs[i].free && 8 <= n && n % 8 == 0 && ResizedWords(mem, mem', bs, i, n)
    requires Joined(bs, i, MergeTo(bs, i)) == bs[i].size + (if bs[i + 1].free then bs[i + 1].size + 8 else 0)
    ensures SamePrefix(Payload(mem, bs[i]), Payload(mem', Carve(bs[i].addr, Joined(bs, i, MergeTo(bs, i)), n)[0]))
  {
    hide FreeMap, Joined, CarvedWords, LinkWord, Tiled;
    var b, c := bs[i], Carve(bs[i].addr, Joined(bs, i, MergeTo(bs, i)), n)[0];
    forall k | 0 <= k < |Payload(mem, b)| && k < |Payload(mem', c)| ensures Payload(mem, b)[k] == Payload(mem', c)[k] {
      UsedNotLink(bs, BASE, i, b.addr + 2 + k);
    }
  }

  /** The only live payload in the span a resize may use is the block's own. */
  lemma ResizeLive(bs: seq<Block>, i: nat, mem: seq<int>)
    requires Tiled(bs, BASE) && NoFreeNeighbours(bs) && Fits(bs, |mem|) && i + 1 < |bs| && !bs[i].free
    ensures LiveMap(bs[i..MergeTo(bs, i)], mem).Keys == {bs[i].addr + 2}
  {
    hide LiveMap, FreeMap;
    var q := MergeTo(bs, i);
    assert bs[i..q] == [bs[i]] + bs[i + 1..q];
    LiveConcat([bs[i]], bs[i + 1..q], mem);
    LiveNone(mem);
    LiveOne(bs[i], mem);
    FromLow(bs, BASE, i);
    FromLow(bs, BASE, i + 1);
    if q > i + 1 { assert bs[i + 1..q] == [bs[i + 1]]; LiveOne(bs[i + 1], mem); }
  }

  /** What tlsf_realloc comes to: a pointer, or a copy to address 0 after its inner allocation failed. */
  datatype Reallocated = At(p: int) | CopyToNull

  /** Writing inside a payload in use changes that payload and nothing else. */
  lemma StoreDone(mem: seq<int>, bs: seq<Block>, i: nat, w: int, v: int)
    requires Tiled(bs, BASE) && Headers(mem, bs) && i < |bs| && !bs[i].free && bs[i].size >= 8
    requires 0 <= bs[i].addr && End(bs[i]) <= |mem| && bs[i].addr + 2 <= w < End(bs[i])
    ensures Headers(mem[w := v], bs) && !LinkWord(FreeMap(bs), w)
    ensures var p := bs[i].addr + 2;
            p in LiveMap(bs, mem) && LiveMap(bs, mem)[p] == mem[p..End(bs[i])] &&
            LiveMap(bs, mem[w := v]) == LiveMap(bs, mem)[p := mem[p..End(bs[i])][w - p := v]]
  {
    hide FreeMap, LiveMap, LinkWord;
    var mem' := mem[w := v];
    UsedNotLink(bs, BASE, i, w);
    forall k | 0 <= k < |bs| ensures HeaderAt(mem', bs, k) {
      assert HeaderAt(mem, bs, k);
      if k < i { Ordered(bs, BASE, k, i); } else if i < k { Ordered(bs, BASE, i, k); }
    }
    var pre, post := bs[..i], bs[i + 1..];
    forall k, x | 0 <= k < |pre| && pre[k].addr + 2 <= x < End(pre[k]) && 0 <= x < |mem| ensures mem'[x] == mem[x] {
      Ordered(bs, BASE, k, i);
    }
    forall k, x | 0 <= k < |post| && post[k].addr + 2 <= x < End(post[k]) && 0 <= x < |mem| ensures mem'[x] == mem[x] {
      Ordered(bs, BASE, i, i + 1 + k);
    }
    LiveSame(pre, mem, mem');
    LiveSame(post, mem, mem');
    LiveParts(bs, i, mem);
    LiveParts(bs, i, mem');
  }

  /** The live payloads of a row with used block i: those before, its own, those after. */
  lemma LiveParts(bs: seq<Block>, i: nat, mem: seq<int>)
    requires Tiled(bs, BASE) && i < |bs| && !bs[i].free && bs[i].size >= 8 && 0 <= bs[i].addr && End(bs[i]) <= |mem|
    ensures LiveMap(bs, mem) ==
            (LiveMap(bs[..i], mem) + LiveMap(bs[i + 1..], mem))[bs[i].addr + 2 := Payload(mem, bs[i])]
  {
    hide LiveMap, Payload, End;
    assert bs == bs[..i] + [bs[i]] + bs[i + 1..];
    LiveConcat(bs[..i] + [bs[i]], bs[i + 1..], mem);
    LiveConcat(bs[..i], [bs[i]], mem);
    LiveOne(bs[i], mem);
    LiveKeysApart(bs, BASE, i, i + 1, i + 1, |bs|, mem, mem);
    assert bs[i..i + 1] == [bs[i]] && bs[i + 1..|bs|] == bs[i + 1..];
    MapInsert(LiveMap(bs[..i], mem), bs[i].addr + 2, Payload(mem, bs[i]), LiveMap(bs[i + 1..], mem));
  }

  lemma MapInsert(a: map<int, seq<int>>, k: int, v: seq<int>, c: map<int, seq<int>>)
    requires k !in c
    ensures a + map[k := v] + c == (a + c)[k := v]
  {
  }

  lemma PayloadLength(bs: seq<Block>, mem: seq<int>, p: int, i: nat)
    requires Tiled(bs, BASE) && i < |bs| && bs[i].addr + 2 == p && p in LiveMap(bs, mem)
    ensures LiveMap(bs, mem)[p] == Payload(mem, bs[i]) && |LiveMap(bs, mem)[p]| * 4 == bs[i].size
  {
    var k := LiveBlock(bs, mem, p);
    SoleAddress(bs, i, k);
    assert Proper(bs[i]);
    hide Payload, LiveMap, Tiled;
    WholePayload(bs[i], mem);
  }

  lemma WholePayload(b: Block, mem: seq<int>)
    requires Proper(b) && 0 <= b.addr && End(b) <= |mem|
    ensures Payload(mem, b) == mem[b.addr + 2..End(b)] && |Payload(mem, b)| * 4 == b.size
  {
  }

  lemma SoleAddress(bs: seq<Block>, i: nat, k: nat)
    requires Tiled(bs, BASE) && i < |bs| && k < |bs| && bs[i].addr == bs[k].addr
    ensures i == k
  {
    hide Tiled;
    if k < i { Ordered(bs, BASE, k, i); } else if i < k { Ordered(bs, BASE, i, k); }
  }

  lemma RoundUpWhole(n: Word)
    requires n % 8 == 0 && 8 <= n && n + 8 <= MAX_BLOCK
    ensures RoundUp(n) == n
  {
    WrapWitness(n + 7, 0, n + 7);
    QuotientUnique(n + 7, 8, n / 8, 7);
  }

  lemma RoundUpAgain(size: Word)
    requires Storable(size)
    ensures Storable(RoundUp(size)) && Need(RoundUp(size)) == Need(size)
  {
    hide MappingSearch, RoundUp;
    RoundUpWhole(RoundUp(size));
  }

  // ----- a fresh pool

  /** The payload of a fresh pool's only block. */
  function FirstBlock(bytes: Word): int
    requires bytes >= CONTROL_BYTES + 128
  {
    (bytes - CONTROL_BYTES - 16) - (bytes - CONTROL_BYTES - 16) % 8
  }

  /** Where the sentinel's header ends, in bytes. */
  function SentinelEnd(bytes: Word): int {
    if bytes < CONTROL_BYTES + 128 then 0 else BASE * 4 + 8 + FirstBlock(bytes) + 8
  }

  /** The sentinel stays inside the pool exactly for these pool sizes; otherwise it ends up to four bytes past it. */
  lemma SentinelFits(bytes: Word)
    requires bytes >= CONTROL_BYTES + 128
    ensures SentinelEnd(bytes) <= bytes <==> bytes % 8 < 4
  {
    var q, m := bytes / 8, bytes % 8;
    QuotientUnique(bytes - CONTROL_BYTES - 16, 8, if m < 4 then q - 400 else q - 399, if m < 4 then m + 4 else m - 4);
  }

  /** Empty lists under a zeroed index. */
  lemma NoLists(mem: seq<int>)
    ensures ListState(mem, seq(CLASSES, _ => 0), 0, seq(REAL_FLI, _ => 0), seq(CLASSES, _ => []), map[])
  {
    forall i: nat ensures !Bit(0, i) {
      HighOfZero(i);
    }
  }

  /** The first row is well formed, with right headers and accounting. */
  lemma FirstRow(mem: seq<int>, bs: seq<Block>, size: int)
    requires 8 <= size < MAX_BLOCK && size % 8 == 0 && BASE + 4 + size / 4 <= |mem|
    requires bs == [Block(BASE, size, true), Block(NextBlock(BASE, size), 0, false)]
    requires mem[BASE + 1] == size + 1 && mem[NextBlock(BASE, size)] == BASE && mem[BASE + 3 + size / 4] == 2
    ensures Tiled(bs, BASE) && NoFreeNeighbours(bs) && Fits(bs, |mem|) && Headers(mem, bs)
    ensures FreeMap(bs) == map[BASE := size] && FreeTotal(bs) == size + 8 && LiveMap(bs, mem) == map[]
  {
    hide FreeMap, FreeTotal, LiveMap;
    assert HeaderAt(mem, bs, 0) && HeaderAt(mem, bs, 1);
    assert bs == bs[0..1] + bs[1..2] && bs[0..1] == [bs[0]] && bs[1..2] == [bs[1]];
    SingleBlock(bs, 0);
    SingleBlock(bs, 1);
    FreeMapConcat(bs[0..1], bs[1..2]);
    FreeTotalConcat(bs[0..1], bs[1..2]);
    LiveOne(bs[0], mem);
    LiveOne(bs[1], mem);
    LiveConcat(bs[0..1], bs[1..2], mem);
  }

  // ----- runs

  /** What a program may ask for; slots index the table of pointers it was handed. */
  datatype Request =
    | Get(size: Word)
    | Put(slot: nat)
    | Regrow(slot: nat, size: Word)
    | Write(slot: nat, k: nat, v: int)

  /** The live payloads, the table of pointers and the blocks of the pool. */
  datatype View = View(live: map<int, seq<int>>, held: seq<int>, bs: seq<Block>)

  predicate Askable(r: Request) {
    match r
    case Get(size) => Storable(size)
    case Regrow(_, size) => Storable(size)
    case _ => true
  }

  /** Pointers held are null or live, and no two slots hold the same block. */
  ghost predicate HeldLive(v: View) {
    && 0 !in v.live
    && (forall i :: 0 <= i < |v.held| && v.held[i] != 0 ==> v.held[i] in v.live)
    && (forall i, j :: 0 <= i < j < |v.held| && v.held[i] != 0 ==> v.held[i] != v.held[j])
  }

  /** A new payload of at least n bytes appeared at p, and nothing else changed. */
  ghost predicate Granted(live: map<int, seq<int>>, live': map<int, seq<int>>, p: int, n: int) {
    p !in live && p in live' && live' == live[p := live'[p]] && n <= |live'[p]| * 4
  }

  /** The block of p cannot grow in place and no free block is large enough. */
  ghost predicate Cornered(bs: seq<Block>, p: int, size: Word)
    requires Storable(size)
  {
    exists i :: 0 <= i < |bs| - 1 && bs[i].addr + 2 == p && !InPlace(bs, i, RoundUp(size)) && NoneFree(bs, Need(size))
  }

  lemma CorneredAt(bs: seq<Block>, p: int, size: Word, i: nat)
    requires Storable(size) && Tiled(bs, BASE) && i + 1 < |bs| && bs[i].addr + 2 == p
    ensures Cornered(bs, p, size) <==> !InPlace(bs, i, RoundUp(size)) && NoneFree(bs, Need(size))
  {
    hide InPlace, NoneFree, RoundUp, Need;
    if Cornered(bs, p, size) {
      var j :| 0 <= j < |bs| - 1 && bs[j].addr + 2 == p && !InPlace(bs, j, RoundUp(size)) && NoneFree(bs, Need(size));
      if i < j { Ordered(bs, BASE, i, j); } else if j < i { Ordered(bs, BASE, j, i); }
    }
  }

  /** The request would make the original copy to the null pointer. */
  ghost predicate Stuck(v: View, r: Request)
    requires Askable(r)
  {
    r.Regrow? && r.slot < |v.held| && v.held[r.slot] != 0 && r.size > 0 && Cornered(v.bs, v.held[r.slot], r.size)
  }

  /** The row after n bytes were allocated at p, from the lowest adequate class. */
  ghost predicate TookBlock(bs: seq<Block>, bs': seq<Block>, p: int, n: Word)
    requires Storable(n)
  {
    exists i: nat :: TakenFrom(bs, i, Need(n)) && bs[i].addr + 2 == p && bs' == Take(bs, i, Need(n))
  }

  /** The row after the block of p was freed. */
  ghost predicate ReleasedBlock(bs: seq<Block>, bs': seq<Block>, p: int) {
    exists i :: 0 <= i < |bs| - 1 && bs[i].addr + 2 == p && !bs[i].free && bs' == Release(bs, i)
  }

  lemma ReleasedAt(bs: seq<Block>, bs': seq<Block>, p: int, i: nat)
    requires i + 1 < |bs| && bs[i].addr + 2 == p && !bs[i].free && bs' == Release(bs, i)
    ensures ReleasedBlock(bs, bs', p)
  {
    hide Release;
  }

  /** The row after p was reallocated elsewhere: n bytes taken at q, then the old block freed. */
  ghost predicate MovedBlock(bs: seq<Block>, bs': seq<Block>, p: int, q: int, n: Word)
    requires Storable(n)
  {
    exists taken :: TookBlock(bs, taken, q, n) && ReleasedBlock(taken, bs', p)
  }

  lemma MovedAgain(bs: seq<Block>, bs': seq<Block>, p: int, q: int, n: Word)
    requires Storable(n) && Storable(RoundUp(n)) && Need(RoundUp(n)) == Need(n) && MovedBlock(bs, bs', p, q, RoundUp(n))
    ensures MovedBlock(bs, bs', p, q, n)
  {
    hide Need, Storable, RoundUp, Take, TakenFrom, ReleasedBlock;
    var taken :| TookBlock(bs, taken, q, RoundUp(n)) && ReleasedBlock(taken, bs', p);
    assert TookBlock(bs, taken, q, n);
  }

  /** The row after a reallocation in place. */
  ghost predicate ResizedBlock(bs: seq<Block>, bs': seq<Block>, p: int, n: int) {
    exists i :: 0 <= i < |bs| - 1 && bs[i].addr + 2 == p && !bs[i].free && InPlace(bs, i, n) && bs' == Resize(bs, i, n)
  }

  /** The row after a reallocation of p to n bytes gave q. */
  ghost predicate RowResized(bs: seq<Block>, bs': seq<Block>, p: int, q: int, n: Word)
    requires Storable(n)
  {
    if p == 0 then (if q == 0 then bs' == bs else TookBlock(bs, bs', q, n))
    else if n == 0 then ReleasedBlock(bs, bs', p)
    else (q == p && ResizedBlock(bs, bs', p, RoundUp(n))) ||
         (NotInPlace(bs, p, RoundUp(n)) && MovedBlock(bs, bs', p, q, n))
  }

  ghost predicate NotInPlace(bs: seq<Block>, p: int, n: int) {
    exists i :: 0 <= i < |bs| - 1 && bs[i].addr + 2 == p && !bs[i].free && !InPlace(bs, i, n)
  }

  lemma ResizedBlockAt(bs: seq<Block>, bs': seq<Block>, p: int, q: int, n: Word, i: nat)
    requires Storable(n) && p != 0 && n > 0 && i + 1 < |bs| && bs[i].addr + 2 == p && !bs[i].free
    requires if InPlace(bs, i, RoundUp(n)) then q == p && bs' == Resize(bs, i, RoundUp(n))
             else MovedBlock(bs, bs', p, q, n)
    ensures RowResized(bs, bs', p, q, n)
  {
    hide InPlace, Resize, RoundUp, MovedBlock;
  }

  /**
   The row of a view tiles the pool up to the sentinel at `end` with no two free
   neighbours, and its used blocks are exactly the live payloads.
   */
  ghost predicate Heaped(v: View, end: int) {
    && Tiled(v.bs, BASE) && NoFreeNeighbours(v.bs) && v.bs[|v.bs| - 1].addr == end
    && (forall i :: 0 <= i < |v.bs| - 1 && !v.bs[i].free ==> ShowsAt(v, i))
    && (forall p :: p in v.live ==> exists i :: 0 <= i < |v.bs| - 1 && !v.bs[i].free && v.bs[i].addr + 2 == p)
  }

  ghost predicate ShowsAt(v: View, i: nat)
    requires i < |v.bs|
  {
    v.bs[i].addr + 2 in v.live && |v.live[v.bs[i].addr + 2]| * 4 == v.bs[i].size
  }

  /** A view is a heap, and the pointers held are null or live and distinct. */
  ghost predicate Sound(v: View, end: int) {
    HeldLive(v) && Heaped(v, end)
  }

  lemma SoundIs(v: View, end: int)
    ensures Sound(v, end) <==> HeldLive(v) && Heaped(v, end)
  {
  }

  lemma FirstSound(bs: seq<Block>, mem: seq<int>)
    requires Tiled(bs, BASE) && NoFreeNeighbours(bs) && Fits(bs, |mem|)
    ensures Sound(View(LiveMap(bs, mem), [], bs), bs[|bs| - 1].addr)
  {
    hide LiveMap, Heaped;
    NullNotLive(bs, mem);
    RowShows(bs, mem, []);
  }

  /** The live payloads of a row are those of its used blocks. */
  lemma RowShows(bs: seq<Block>, mem: seq<int>, held: seq<int>)
    requires Tiled(bs, BASE) && NoFreeNeighbours(bs) && Fits(bs, |mem|)
    ensures Heaped(View(LiveMap(bs, mem), held, bs), bs[|bs| - 1].addr)
  {
    var v := View(LiveMap(bs, mem), held, bs);
    hide LiveMap, NoFreeNeighbours, ShowsAt, Tiled, Fits, NextBlock;
    forall i | 0 <= i < |bs| - 1 && !bs[i].free ensures ShowsAt(v, i) {
      UsedShows(bs, mem, held, i);
    }
    forall p | p in v.live ensures exists i :: 0 <= i < |bs| - 1 && !bs[i].free && bs[i].addr + 2 == p {
      var i := LiveBlock(bs, mem, p);
      LastEmpty(bs);
    }
  }

  lemma LastEmpty(bs: seq<Block>)
    requires Tiled(bs, BASE)
    ensures bs[|bs| - 1].size == 0
  {
  }

  lemma UsedShows(bs: seq<Block>, mem: seq<int>, held: seq<int>, i: nat)
    requires Tiled(bs, BASE) && Fits(bs, |mem|) && i < |bs| - 1 && !bs[i].free
    ensures ShowsAt(View(LiveMap(bs, mem), held, bs), i)
  {
    hide LiveMap;
    FromLow(bs, BASE, i);
    Ordered(bs, BASE, i, |bs| - 1);
    UsedIsLive(bs, mem, i);
    PayloadLength(bs, mem, bs[i].addr + 2, i);
  }

  lemma {:induction false} UsedIsLive(bs: seq<Block>, mem: seq<int>, i: nat)
    requires i < |bs| && !bs[i].free && bs[i].size >= 8 && 0 <= bs[i].addr && End(bs[i]) <= |mem|
    ensures bs[i].addr + 2 in LiveMap(bs, mem)
    decreases |bs|
  {
    if i < |bs| - 1 {
      UsedIsLive(bs[..|bs| - 1], mem, i);
    }
  }

  /** Taking, releasing and resizing leave the sentinel where it is. */
  lemma SentinelStays(bs: seq<Block>, i: nat, n: int)
    requires i + 1 < |bs| && !bs[|bs| - 1].free
    ensures var t, r, z := Take(bs, i, n), Release(bs, i), Resize(bs, i, n); var s := bs[|bs| - 1];
            |t| > 0 && t[|t| - 1] == s && |r| > 0 && r[|r| - 1] == s && |z| > 0 && z[|z| - 1] == s
  {
    hide Joined, NextBlock;
  }

  lemma TookEnd(bs: seq<Block>, bs': seq<Block>, p: int, n: Word)
    requires Storable(n) && |bs| > 0 && !bs[|bs| - 1].free && TookBlock(bs, bs', p, n)
    ensures |bs'| > 0 && bs'[|bs'| - 1] == bs[|bs| - 1]
  {
    hide Need, Storable, Take;
    var i: nat :| TakenFrom(bs, i, Need(n)) && bs[i].addr + 2 == p && bs' == Take(bs, i, Need(n));
    SentinelStays(bs, i, Need(n));
  }

  lemma ReleasedEnd(bs: seq<Block>, bs': seq<Block>, p: int)
    requires |bs| > 0 && !bs[|bs| - 1].free && ReleasedBlock(bs, bs', p)
    ensures |bs'| > 0 && bs'[|bs'| - 1] == bs[|bs| - 1]
  {
    hide Release;
    var i :| 0 <= i < |bs| - 1 && bs[i].addr + 2 == p && !bs[i].free && bs' == Release(bs, i);
    SentinelStays(bs, i, 8);
  }

  lemma RowResizedEnd(bs: seq<Block>, bs': seq<Block>, p: int, q: int, n: Word)
    requires Storable(n) && |bs| > 0 && !bs[|bs| - 1].free && RowResized(bs, bs', p, q, n)
    ensures |bs'| > 0 && bs'[|bs'| - 1] == bs[|bs| - 1]
  {
    hide Storable, Need, RoundUp, TookBlock, ReleasedBlock, InPlace, Resize;
    if p == 0 {
      if q != 0 { TookEnd(bs, bs', q, n); }
    } else if n == 0 {
      ReleasedEnd(bs, bs', p);
    } else if q == p && ResizedBlock(bs, bs', p, RoundUp(n)) {
      var i :| 0 <= i < |bs| - 1 && bs[i].addr + 2 == p && !bs[i].free && InPlace(bs, i, RoundUp(n)) &&
        bs' == Resize(bs, i, RoundUp(n));
      SentinelStays(bs, i, RoundUp(n));
    } else {
      var taken :| TookBlock(bs, taken, q, n) && ReleasedBlock(taken, bs', p);
      TookEnd(bs, taken, q, n);
      ReleasedEnd(taken, bs', p);
    }
  }

  /** What serving a request does to the live payloads, the table and the row. */
  ghost predicate Served(v: View, r: Request, v': View)
    requires Askable(r)
  {
    match r
    case Get(n) =>
      && |v'.held| == |v.held| + 1
      && var p := v'.held[|v.held|];
         v'.held == v.held + [p] && (p == 0 <==> NoneFree(v.bs, Need(n))) &&
         if p == 0 then v'.live == v.live && v'.bs == v.bs
           else Granted(v.live, v'.live, p, n) && TookBlock(v.bs, v'.bs, p, n)
    case Put(slot) =>
      if slot < |v.held| then
        && v'.held == v.held[slot := 0] && v'.live == v.live - {v.held[slot]}
        && if v.held[slot] == 0 then v'.bs == v.bs else ReleasedBlock(v.bs, v'.bs, v.held[slot])
      else v' == v
    case Regrow(slot, n) =>
      if slot < |v.held| then
        && |v'.held| == |v.held| && v'.held == v.held[slot := v'.held[slot]]
        && ResizedTo(v.bs, v.live, v'.live, v.held[slot], v'.held[slot], n)
        && RowResized(v.bs, v'.bs, v.held[slot], v'.held[slot], n)
      else v' == v
    case Write(slot, k, x) =>
      && v'.held == v.held && v'.bs == v.bs
      && v'.live == if slot < |v.held| && v.held[slot] in v.live && k < |v.live[v.held[slot]]| then
           var p := v.held[slot]; v.live[p := v.live[p][k := x]] else v.live
  }

  /** Reallocation of p to n bytes, giving q: only p's payload may move, and it keeps its first bytes. */
  ghost predicate ResizedTo(bs: seq<Block>, live: map<int, seq<int>>, live': map<int, seq<int>>, p: int, q: int,
                            n: Word)
    requires Storable(n)
  {
    if p == 0 then
      (q == 0 <==> n == 0 || NoneFree(bs, Need(n))) && if q == 0 then live' == live
      else n > 0 && Granted(live, live', q, n)
    else if n == 0 then q == 0 && live' == live - {p}
    else
      && p in live && q in live' && live' == (live - {p})[q := live'[q]] && (q == p || q !in live)
      && SamePrefix(live[p], live'[q]) && n <= |live'[q]| * 4
  }

  /** Every request served leaves a heap, with the sentinel where it was. */
  lemma StillHeaped(v: View, r: Request, v': View, mem: seq<int>, end: int)
    requires Heaped(v, end) && Askable(r) && Served(v, r, v') && Tiled(v'.bs, BASE) && NoFreeNeighbours(v'.bs) &&
             Fits(v'.bs, |mem|)
    requires v'.live == LiveMap(v'.bs, mem)
    ensures Heaped(v', end)
  {
    hide LiveMap, Storable, Need, RoundUp, TookBlock, ReleasedBlock, RowResized, ResizedTo, Granted,
         NoFreeNeighbours, NoneFree;
    RowShows(v'.bs, mem, v'.held);
    match r
    case Get(n) => if v'.held[|v.held|] != 0 { TookEnd(v.bs, v'.bs, v'.held[|v.held|], n); }
    case Put(slot) => if slot < |v.held| && v.held[slot] != 0 { ReleasedEnd(v.bs, v'.bs, v.held[slot]); }
    case Regrow(slot, n) => if slot < |v.held| { RowResizedEnd(v.bs, v'.bs, v.held[slot], v'.held[slot], n); }
    case Write(_, _, _) =>
  }

  lemma HeldSlot(v: View, slot: nat)
    requires HeldLive(v) && slot < |v.held|
    ensures 0 !in v.live && (v.held[slot] == 0 || v.held[slot] in v.live)
  {
  }

  /** Serving a request leaves the pointers held live and distinct. */
  lemma StillHeld(v: View, r: Request, v': View)
    requires HeldLive(v) && Askable(r) && Served(v, r, v') && 0 !in v'.live
    ensures HeldLive(v')
  {
  }

  /** Live payloads are disjoint, with room for a header before each. */
  lemma LiveDisjoint(bs: seq<Block>, mem: seq<int>, p: int, q: int)
    requires Tiled(bs, BASE) && p in LiveMap(bs, mem) && q in LiveMap(bs, mem) && p < q
    ensures p + |LiveMap(bs, mem)[p]| + 2 <= q
  {
    var i := LiveBlock(bs, mem, p);
    var j := LiveBlock(bs, mem, q);
    if i < j { Ordered(bs, BASE, i, j); } else if j < i { Ordered(bs, BASE, j, i); }
  }

  // ----- cases that show what the original does not meet

  /** A pool of 4100 bytes: the sentinel ends four bytes past it. */
  lemma SentinelOverrun()
    ensures SentinelEnd(4100) > 4100
  {
    SentinelFits(4100);
  }

  /** One held block of 64 bytes and nothing free: growing it to 120 bytes copies to the null pointer. */
  /**
   The smallest pool accepted holds 112 bytes. A program that takes them all and asks
   for 120 makes the original copy to the null pointer: of the two requests only the
   first is served.
   */
  method CopyToNullHappens(base: Word) returns (done: nat)
    requires base != 0 && base % 4 == 0
    ensures done == 1
  {
    hide Storable, Served, Stuck, Heaped, HeldLive;
    var pool := new Pool;
    SmallestPool();
    var r := pool.Init(base, CONTROL_BYTES + 128);
    var requests := [Get(112), Regrow(0, 120)];
    assert Askable(requests[0]) && Askable(requests[1]);
    ghost var bs := pool.bs;
    ghost var trace;
    done, trace := pool.Run(requests);
    assert done >= 1 by { NeverStuck(trace[0], 112); }
    if done == 2 { FullPool(trace[0], trace[1], bs); assert false; }
  }

  lemma NeverStuck(v: View, size: Word)
    requires Storable(size)
    ensures !Stuck(v, Get(size))
  {
  }

  /** The smallest pool has one block of 112 bytes, and both requests have class-rounded sizes in range. */
  lemma SmallestPool()
    ensures FirstBlock(CONTROL_BYTES + 128) == 112 && RoundUp(112) == 112 && RoundUp(120) == 120
    ensures Storable(112) && Storable(120) && Need(112) == 112 && Need(120) == 120
  {
  }

  /** Once its 112 bytes are taken, the block there can neither grow to 120 bytes nor move. */
  lemma FullPool(v: View, v': View, bs: seq<Block>)
    requires v == View(map[], [], bs) && bs == [Block(BASE, 112, true), Block(NextBlock(BASE, 112), 0, false)]
    requires Storable(112) && Storable(120) && Served(v, Get(112), v')
    ensures Stuck(v', Regrow(0, 120))
  {
    SmallestPool();
    hide Storable, Need, RoundUp;
    var p := v'.held[0];
    assert bs[0].free && !NoneFree(bs, 112);
    var i: nat :| TakenFrom(bs, i, 112) && bs[i].addr + 2 == p && v'.bs == Take(bs, i, 112);
    assert i == 0 && v'.bs == [Block(BASE, 112, false), Block(NextBlock(BASE, 112), 0, false)];
    CorneredAt(v'.bs, p, 120, 0);
  }
}
