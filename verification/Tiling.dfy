/**
 The pool as a row of blocks. Addresses count 32-bit words from the start of the
 pool; sizes stay in bytes, as the block headers hold them. A header takes two
 words, so a block's payload starts at addr + 2. The last block of a row is the
 sentinel: no payload and always in use.
 */
module Tiling {

  datatype Block = Block(addr: int, size: int, free: bool)

  /** The address after a block at a with n payload bytes. */
  function NextBlock(a: int, n: int): int {
    a + 2 + n / 4
  }

  lemma NextBlockPast(a: int, n: int)
    requires n >= 8
    ensures NextBlock(a, n) >= a + 4
  {
  }

  lemma NextBlockMonotone(a: int, m: int, n: int)
    requires m <= n
    ensures NextBlock(a, m) <= NextBlock(a, n)
  {
  }

  lemma NextBlockSplit(a: int, n: int, m: int)
    requires n % 8 == 0 && m % 8 == 0
    ensures NextBlock(NextBlock(a, n), m) == NextBlock(a, n + 8 + m)
  {
    Quarter(n, n / 8);
    Quarter(m, m / 8);
    Quarter(n + 8 + m, n / 8 + 1 + m / 8);
  }

  lemma Quarter(n: int, k: int)
    requires n == 8 * k
    ensures n / 4 == 2 * k
  {
  }

  function End(b: Block): int {
    NextBlock(b.addr, b.size)
  }

  predicate Proper(b: Block) {
    b.size >= 8 && b.size % 8 == 0
  }

  /** The blocks follow one another without gaps from lo up to the sentinel. */
  ghost predicate Tiled(bs: seq<Block>, lo: int) {
    && |bs| > 0 && bs[0].addr == lo
    && (forall i :: 0 <= i < |bs| - 1 ==> Proper(bs[i]) && bs[i + 1].addr == End(bs[i]))
    && bs[|bs| - 1].size == 0 && !bs[|bs| - 1].free
  }

  ghost predicate NoFreeNeighbours(bs: seq<Block>) {
    forall i :: 0 <= i < |bs| - 1 ==> !bs[i].free || !bs[i + 1].free
  }

  lemma {:induction false} Ordered(bs: seq<Block>, lo: int, i: nat, j: nat)
    requires Tiled(bs, lo) && i < j < |bs|
    ensures End(bs[i]) <= bs[j].addr && bs[i].addr + 4 <= bs[j].addr
    decreases j
  {
    if i < j - 1 {
      Ordered(bs, lo, i, j - 1);
    }
  }

  lemma FromLow(bs: seq<Block>, lo: int, i: nat)
    requires Tiled(bs, lo) && i < |bs|
    ensures lo <= bs[i].addr <= bs[|bs| - 1].addr
  {
    if i > 0 { Ordered(bs, lo, 0, i); }
    if i < |bs| - 1 { Ordered(bs, lo, i, |bs| - 1); }
  }

  // ----- replacing part of a row

  /** The row with blocks i .. j replaced. */
  function Splice(bs: seq<Block>, i: nat, j: nat, mid: seq<Block>): seq<Block>
    requires i <= j <= |bs|
  {
    bs[..i] + mid + bs[j..]
  }

  /** Blocks that fill exactly the space of blocks i .. j. */
  ghost predicate Fills(bs: seq<Block>, i: nat, j: nat, mid: seq<Block>)
    requires i < j < |bs|
  {
    && |mid| > 0 && mid[0].addr == bs[i].addr
    && (forall k :: 0 <= k < |mid| ==> Proper(mid[k]))
    && (forall k :: 0 <= k < |mid| - 1 ==> mid[k + 1].addr == End(mid[k]))
    && End(mid[|mid| - 1]) == bs[j].addr
  }

  lemma SpliceTiled(bs: seq<Block>, lo: int, i: nat, j: nat, mid: seq<Block>)
    requires Tiled(bs, lo) && i < j < |bs| && Fills(bs, i, j, mid)
    ensures Tiled(Splice(bs, i, j, mid), lo)
  {
    var bs' := Splice(bs, i, j, mid);
    forall k | 0 <= k < |bs'| - 1
      ensures Proper(bs'[k]) && bs'[k + 1].addr == End(bs'[k])
    {
      if k < i {
        assert bs'[k] == bs[k];
        assert bs'[k + 1].addr == bs[k + 1].addr;
      } else if k < i + |mid| {
        assert bs'[k] == mid[k - i];
      } else {
        assert bs'[k] == bs[k - |mid| - i + j];
        assert bs'[k + 1] == bs[k + 1 - |mid| - i + j];
      }
    }
    assert bs'[|bs'| - 1] == bs[|bs| - 1];
  }

  lemma SpliceNoFreeNeighbours(bs: seq<Block>, i: nat, j: nat, mid: seq<Block>)
    requires NoFreeNeighbours(bs) && i < j < |bs| && |mid| > 0 && NoFreeNeighbours(mid)
    requires i > 0 ==> !bs[i - 1].free || !mid[0].free
    requires !mid[|mid| - 1].free || !bs[j].free
    ensures NoFreeNeighbours(Splice(bs, i, j, mid))
  {
    var bs' := Splice(bs, i, j, mid);
    forall k | 0 <= k < |bs'| - 1
      ensures !bs'[k].free || !bs'[k + 1].free
    {
      if k < i - 1 {
        assert bs'[k] == bs[k] && bs'[k + 1] == bs[k + 1];
      } else if k < i + |mid| - 1 && k >= i {
        assert bs'[k] == mid[k - i] && bs'[k + 1] == mid[k - i + 1];
      } else if k >= i + |mid| {
        assert bs'[k] == bs[k - |mid| - i + j] && bs'[k + 1] == bs[k + 1 - |mid| - i + j];
      }
    }
  }

  // ----- the free blocks

  /** The free blocks, by address, with their sizes. */
  function FreeMap(bs: seq<Block>): map<int, int> {
    if bs == [] then map[]
    else
      var b, rest := bs[|bs| - 1], FreeMap(bs[..|bs| - 1]);
      if b.free then rest[b.addr := b.size] else rest
  }

  lemma {:induction false} FreeMapConcat(a: seq<Block>, b: seq<Block>)
    ensures FreeMap(a + b) == FreeMap(a) + FreeMap(b)
    decreases |b|
  {
    if b == [] {
      assert a + b == a;
    } else {
      var n := |b| - 1;
      assert (a + b)[..|a + b| - 1] == a + b[..n];
      FreeMapConcat(a, b[..n]);
    }
  }

  /** Every key of the map is the address of a free block. */
  lemma {:induction false} FreeMapBlock(bs: seq<Block>, a: int) returns (i: nat)
    requires a in FreeMap(bs)
    ensures i < |bs| && bs[i] == Block(a, FreeMap(bs)[a], true)
  {
    var n := |bs| - 1;
    if bs[n].free && bs[n].addr == a {
      i := n;
    } else {
      i := FreeMapBlock(bs[..n], a);
    }
  }

  /** Every free block of a row is in the map. */
  lemma {:induction false} FreeBlockInMap(bs: seq<Block>, lo: int, i: nat)
    requires Tiled(bs, lo) && i < |bs| && bs[i].free
    ensures bs[i].addr in FreeMap(bs) && FreeMap(bs)[bs[i].addr] == bs[i].size
  {
    assert bs == bs[..i + 1] + bs[i + 1..];
    FreeMapConcat(bs[..i + 1], bs[i + 1..]);
    assert bs[..i + 1][..i] == bs[..i];
    if bs[i].addr in FreeMap(bs[i + 1..]) {
      var k := FreeMapBlock(bs[i + 1..], bs[i].addr);
      Ordered(bs, lo, i, i + 1 + k);
    }
  }

  /** Replacing blocks i .. j changes the map only there. */
  lemma FreeMapSplice(bs: seq<Block>, lo: int, i: nat, j: nat, mid: seq<Block>)
    requires Tiled(bs, lo) && i < j < |bs| && Fills(bs, i, j, mid)
    ensures FreeMap(Splice(bs, i, j, mid)) == (FreeMap(bs) - FreeMap(bs[i..j]).Keys) + FreeMap(mid)
  {
    var pre, post := bs[..i], bs[j..];
    assert bs == pre + bs[i..j] + post;
    FreeMapConcat(pre + bs[i..j], post);
    FreeMapConcat(pre, bs[i..j]);
    FreeMapConcat(pre + mid, post);
    FreeMapConcat(pre, mid);
    KeysApart(bs, lo, 0, i, i, j);
    KeysApart(bs, lo, i, j, j, |bs|);
    var bs' := Splice(bs, i, j, mid);
    var m := i + |mid|;
    SpliceTiled(bs, lo, i, j, mid);
    KeysApart(bs', lo, i, m, m, |bs'|);
    assert bs'[i..m] == mid && bs'[m..|bs'|] == post && bs[j..|bs|] == post && bs[0..i] == pre;
    MapSplice(FreeMap(pre), FreeMap(bs[i..j]), FreeMap(post), FreeMap(mid));
  }

  /** Stretches of a row that do not overlap share no addresses. */
  lemma KeysApart(bs: seq<Block>, lo: int, i: nat, j: nat, k: nat, l: nat)
    requires Tiled(bs, lo) && i <= j <= k <= l <= |bs|
    ensures FreeMap(bs[i..j]).Keys !! FreeMap(bs[k..l]).Keys
  {
    forall a | a in FreeMap(bs[i..j]) ensures a !in FreeMap(bs[k..l]) {
      var x := FreeMapBlock(bs[i..j], a);
      if a in FreeMap(bs[k..l]) {
        var y := FreeMapBlock(bs[k..l], a);
        Ordered(bs, lo, i + x, k + y);
      }
    }
  }

  lemma MapSplice(a: map<int, int>, o: map<int, int>, p: map<int, int>, m: map<int, int>)
    requires a.Keys !! o.Keys && o.Keys !! p.Keys && m.Keys !! p.Keys
    ensures a + m + p == ((a + o + p) - o.Keys) + m
  {
  }

  /** The bytes free blocks take, headers included. */
  function FreeTotal(bs: seq<Block>): int {
    if bs == [] then 0
    else FreeTotal(bs[..|bs| - 1]) + (if bs[|bs| - 1].free then bs[|bs| - 1].size + 8 else 0)
  }

  lemma {:induction false} FreeTotalConcat(a: seq<Block>, b: seq<Block>)
    ensures FreeTotal(a + b) == FreeTotal(a) + FreeTotal(b)
    decreases |b|
  {
    if b == [] {
      assert a + b == a;
    } else {
      var n := |b| - 1;
      assert (a + b)[..|a + b| - 1] == a + b[..n];
      FreeTotalConcat(a, b[..n]);
    }
  }

  lemma FreeTotalSplice(bs: seq<Block>, i: nat, j: nat, mid: seq<Block>)
    requires i <= j <= |bs|
    ensures FreeTotal(Splice(bs, i, j, mid)) == FreeTotal(bs) - FreeTotal(bs[i..j]) + FreeTotal(mid)
  {
    var pre, post := bs[..i], bs[j..];
    assert bs == pre + bs[i..j] + post;
    FreeTotalConcat(pre + bs[i..j], post);
    FreeTotalConcat(pre, bs[i..j]);
    FreeTotalConcat(pre + mid, post);
    FreeTotalConcat(pre, mid);
  }

  // ----- what the allocator does to the row

  /**
   A span of `total` payload bytes from address a, cut to n bytes in use and the
   rest free; a rest too small for a header and a minimum payload stays attached.
   */
  function Carve(a: int, total: int, n: int): seq<Block> {
    if total - n >= 16 then [Block(a, n, false), Block(NextBlock(a, n), total - n - 8, true)]
    else [Block(a, total, false)]
  }

  /** Allocate n bytes from free block i. */
  function Take(bs: seq<Block>, i: nat, n: int): seq<Block>
    requires i < |bs|
  {
    Splice(bs, i, i + 1, Carve(bs[i].addr, bs[i].size, n))
  }

  /** Where the block freed at i starts and stops once merged with free neighbours. */
  function MergeFrom(bs: seq<Block>, i: nat): nat {
    if 0 < i <= |bs| && bs[i - 1].free then i - 1 else i
  }

  function MergeTo(bs: seq<Block>, i: nat): nat {
    if i + 1 < |bs| && bs[i + 1].free then i + 2 else i + 1
  }

  /** Payload bytes of blocks i .. j run together, the inner headers included. */
  function Joined(bs: seq<Block>, i: nat, j: nat): int
    requires i < j <= |bs|
    decreases j
  {
    if j == i + 1 then bs[i].size else Joined(bs, i, j - 1) + 8 + bs[j - 1].size
  }

  /** Free block i, merging it with free neighbours. */
  function Release(bs: seq<Block>, i: nat): seq<Block>
    requires i + 1 < |bs|
  {
    var p, q := MergeFrom(bs, i), MergeTo(bs, i);
    Splice(bs, p, q, [Block(bs[p].addr, Joined(bs, p, q), true)])
  }

  /** Resize block i in place to n bytes, taking in a free right neighbour. */
  function Resize(bs: seq<Block>, i: nat, n: int): seq<Block>
    requires i + 1 < |bs|
  {
    var q := MergeTo(bs, i);
    Splice(bs, i, q, Carve(bs[i].addr, Joined(bs, i, q), n))
  }

  /** Freeing what was just taken gives back the row it was taken from. */
  lemma ReleaseUndoesTake(bs: seq<Block>, lo: int, i: nat, n: int)
    requires Tiled(bs, lo) && NoFreeNeighbours(bs) && i < |bs| && bs[i].free
    requires 8 <= n <= bs[i].size && n % 8 == 0
    ensures Release(Take(bs, i, n), i) == bs
  {
    var bs' := Take(bs, i, n);
    var mid := Carve(bs[i].addr, bs[i].size, n);
    assert bs'[i] == mid[0];
    assert i > 0 ==> bs'[i - 1] == bs[i - 1];
    assert !bs[i + 1].free && (i > 0 ==> !bs[i - 1].free);
    assert bs'[i + |mid|] == bs[i + 1];
    if |mid| == 2 {
      assert bs'[i + 1] == mid[1];
      assert Joined(bs', i, i + 2) == Joined(bs', i, i + 1) + 8 + bs'[i + 1].size;
    }
    var q := i + |mid|;
    assert MergeFrom(bs', i) == i && MergeTo(bs', i) == q;
    assert bs'[q..] == bs[i + 1..] && bs'[..i] == bs[..i];
    assert [Block(bs'[i].addr, Joined(bs', i, q), true)] == [bs[i]];
    assert bs == bs[..i] + [bs[i]] + bs[i + 1..];
  }

  lemma CarveFills(a: int, total: int, n: int)
    requires 8 <= n <= total && n % 8 == 0 && total % 8 == 0
    ensures var mid := Carve(a, total, n);
            mid[0].addr == a && !mid[0].free && n <= mid[0].size < n + 16 && NoFreeNeighbours(mid) &&
            (forall k :: 0 <= k < |mid| ==> Proper(mid[k])) &&
            (forall k :: 0 <= k < |mid| - 1 ==> mid[k + 1].addr == End(mid[k])) &&
            End(mid[|mid| - 1]) == NextBlock(a, total)
    ensures FreeTotal(Carve(a, total, n)) == total - Carve(a, total, n)[0].size
  {
    hide NextBlock;
    var mid := Carve(a, total, n);
    if |mid| == 2 {
      NextBlockSplit(a, n, total - n - 8);
      assert mid[..1] == [mid[0]];
      assert FreeTotal(mid) == FreeTotal(mid[..1]) + mid[1].size + 8;
    }
    assert FreeTotal([mid[0]]) == 0 by { assert [mid[0]][..0] == []; }
  }

  /** Joined payloads end where the last block does. */
  lemma {:induction false} JoinedEnds(bs: seq<Block>, lo: int, i: nat, j: nat)
    requires Tiled(bs, lo) && i < j < |bs|
    ensures NextBlock(bs[i].addr, Joined(bs, i, j)) == bs[j].addr
    ensures Joined(bs, i, j) % 8 == 0 && Joined(bs, i, j) >= bs[i].size
    decreases j
  {
    hide NextBlock;
    if j > i + 1 {
      JoinedEnds(bs, lo, i, j - 1);
      NextBlockSplit(bs[i].addr, Joined(bs, i, j - 1), bs[j - 1].size);
    }
  }
}
