/**
 The segregated free lists: doubly linked through the payloads of free blocks,
 one list per size class, indexed by two levels of bitmap. The predicates say
 what memory, list heads and bitmaps hold for a given map of free blocks.
 */
module FreeLists {
  import opened Words
  import opened SizeClasses

  // ----- one linked list

  function First(l: seq<int>): int {
    if l == [] then 0 else l[0]
  }

  function Before(l: seq<int>, k: nat): int
    requires k < |l|
  {
    if k == 0 then 0 else l[k - 1]
  }

  function After(l: seq<int>, k: nat): int
    requires k < |l|
  {
    if k + 1 < |l| then l[k + 1] else 0
  }

  /** The first four words of two blocks do not overlap. */
  predicate Clear(a: int, b: int) {
    a + 4 <= b || b + 4 <= a
  }

  predicate Inside(a: int, n: int) {
    0 < a && a + 4 <= n
  }

  /** Blocks of a list lie inside memory and do not touch one another's link words. */
  ghost predicate Spaced(l: seq<int>, n: int) {
    && (forall k {:trigger Inside(l[k], n)} :: 0 <= k < |l| ==> Inside(l[k], n))
    && (forall k, m {:trigger Clear(l[k], l[m])} :: 0 <= k < |l| && 0 <= m < |l| && k != m ==> Clear(l[k], l[m]))
  }

  /** Words addr + 2 and addr + 3 of block k hold its predecessor and successor. */
  ghost predicate LinkedAt(mem: seq<int>, l: seq<int>, k: nat)
    requires k < |l|
  {
    Inside(l[k], |mem|) && mem[l[k] + 2] == Before(l, k) && mem[l[k] + 3] == After(l, k)
  }

  ghost predicate Linked(mem: seq<int>, head: int, l: seq<int>) {
    && head == First(l)
    && Spaced(l, |mem|)
    && (forall k {:trigger LinkedAt(mem, l, k)} :: 0 <= k < |l| ==> LinkedAt(mem, l, k))
  }

  lemma LinkedFrame(mem: seq<int>, mem': seq<int>, head: int, l: seq<int>)
    requires Linked(mem, head, l) && |mem'| == |mem|
    requires forall k {:trigger LinkedAt(mem, l, k)} :: 0 <= k < |l| && LinkedAt(mem, l, k) ==>
               mem'[l[k] + 2] == mem[l[k] + 2] && mem'[l[k] + 3] == mem[l[k] + 3]
    ensures Linked(mem', head, l)
  {
    forall k | 0 <= k < |l| ensures LinkedAt(mem', l, k) {
      assert LinkedAt(mem, l, k);
    }
    forall k | 0 <= k < |l| ensures Inside(l[k], |mem'|) {
      assert Inside(l[k], |mem|);
    }
  }

  /** A block address or the null pointer. */
  predicate Pointer(p: int, n: int) {
    p == 0 || Inside(p, n)
  }

  /** The writes of INSERT_BLOCK on a list. */
  function InsertWrites(mem: seq<int>, head: int, b: int): seq<int>
    requires Inside(b, |mem|) && Pointer(head, |mem|)
  {
    var m := mem[b + 2 := 0][b + 3 := head];
    if head != 0 then m[head + 2 := b] else m
  }

  lemma InsertLinks(mem: seq<int>, head: int, l: seq<int>, b: int)
    requires Linked(mem, head, l) && Spaced([b] + l, |mem|)
    ensures Inside(b, |mem|) && Pointer(head, |mem|)
    ensures Linked(InsertWrites(mem, head, b), b, [b] + l)
  {
    var l' := [b] + l;
    assert l'[0] == b && Inside(l'[0], |mem|);
    if l != [] {
      assert l'[1] == head && Inside(l[0], |mem|) && Clear(l'[0], l'[1]);
    }
    var mem' := InsertWrites(mem, head, b);
    forall k | 0 <= k < |l'|
      ensures LinkedAt(mem', l', k)
    {
      assert Inside(l'[k], |mem|);
      if k >= 1 {
        assert l'[k] == l[k - 1] && LinkedAt(mem, l, k - 1);
        assert Clear(l'[k], l'[0]);
        if k >= 2 {
          assert Clear(l'[k], l'[1]);
        }
        assert k + 1 < |l'| ==> l'[k + 1] == l[k];
        assert k >= 2 ==> l'[k - 1] == l[k - 2];
      }
    }
    forall k | 0 <= k < |l'| ensures Inside(l'[k], |mem'|) {
      assert Inside(l'[k], |mem|);
    }
  }

  /** The writes that join a block's list neighbours to each other. */
  function JoinWrites(mem: seq<int>, prev: int, next: int): seq<int>
    requires Pointer(prev, |mem|) && Pointer(next, |mem|)
  {
    var m1 := if next != 0 then mem[next + 2 := prev] else mem;
    if prev != 0 then m1[prev + 3 := next] else m1
  }

  /** The writes of EXTRACT_BLOCK around a block whose neighbours in its list are prev and next. */
  function ExtractWrites(mem: seq<int>, b: int, prev: int, next: int): seq<int>
    requires Inside(b, |mem|) && Pointer(prev, |mem|) && Pointer(next, |mem|)
  {
    JoinWrites(mem, prev, next)[b + 2 := 0][b + 3 := 0]
  }

  function Without(l: seq<int>, k: nat): seq<int>
    requires k < |l|
  {
    l[..k] + l[k + 1..]
  }

  /** What a listed block's link words hold. */
  lemma LinksRead(mem: seq<int>, head: int, l: seq<int>, k: nat)
    requires Linked(mem, head, l) && k < |l|
    ensures LinkedAt(mem, l, k) && Pointer(Before(l, k), |mem|) && Pointer(After(l, k), |mem|)
    ensures Before(l, k) == 0 <==> k == 0
    ensures k == 0 <==> head == l[k]
  {
    assert LinkedAt(mem, l, k) && Inside(l[0], |mem|);
    if k > 0 {
      assert Clear(l[0], l[k]) && Inside(l[k - 1], |mem|);
    }
    if k + 1 < |l| {
      assert Inside(l[k + 1], |mem|);
    }
  }

  lemma ExtractLinks(mem: seq<int>, head: int, l: seq<int>, k: nat)
    requires Linked(mem, head, l) && k < |l|
    requires Inside(l[k], |mem|) && Pointer(Before(l, k), |mem|) && Pointer(After(l, k), |mem|)
    ensures Linked(ExtractWrites(mem, l[k], Before(l, k), After(l, k)), if k == 0 then After(l, 0)
                   else head, Without(l, k))
  {
    var l' := Without(l, k);
    var mem' := ExtractWrites(mem, l[k], Before(l, k), After(l, k));
    WithoutApart(l, k, |mem|);
    forall m | 0 <= m < |l'|
      ensures LinkedAt(mem', l', m)
    {
      var j := if m < k then m else m + 1;
      assert l'[m] == l[j];
      ExtractEffect(mem, head, l, k, j);
      WithoutNeighbours(l, k, m);
    }
    assert First(l') == if k == 0 then After(l, 0) else head;
  }

  lemma WithoutNeighbours(l: seq<int>, k: nat, m: nat)
    requires k < |l| && m < |l| - 1
    ensures var j := if m < k then m else m + 1; var l' := Without(l, k);
            Before(l', m) == (if j == k + 1 then Before(l, k) else Before(l, j)) &&
            After(l', m) == (if j + 1 == k then After(l, k) else After(l, j))
  {
  }

  lemma WithoutApart(l: seq<int>, k: nat, n: int)
    requires Spaced(l, n) && k < |l|
    ensures Spaced(Without(l, k), n)
  {
    var l' := Without(l, k);
    forall i, j | 0 <= i < |l'| && 0 <= j < |l'| && i != j
      ensures Clear(l'[i], l'[j])
    {
      var i', j' := if i < k then i else i + 1, if j < k then j else j + 1;
      assert l'[i] == l[i'] && l'[j] == l[j'];
      assert Clear(l[i'], l[j']);
    }
    forall i | 0 <= i < |l'| ensures Inside(l'[i], n) {
      assert l'[i] == l[if i < k then i else i + 1];
      assert Inside(l[if i < k then i else i + 1], n);
    }
  }

  /** Extraction relinks the neighbours and leaves every other link alone. */
  lemma ExtractEffect(mem: seq<int>, head: int, l: seq<int>, k: nat, j: nat)
    requires Linked(mem, head, l) && k < |l| && j < |l| && j != k
    requires Inside(l[k], |mem|) && Pointer(Before(l, k), |mem|) && Pointer(After(l, k), |mem|)
    ensures var mem' := ExtractWrites(mem, l[k], Before(l, k), After(l, k));
            Inside(l[j], |mem|) &&
            mem'[l[j] + 2] == (if j == k + 1 then Before(l, k) else Before(l, j)) &&
            mem'[l[j] + 3] == (if j + 1 == k then After(l, k) else After(l, j))
  {
    assert Clear(l[j], l[k]) && LinkedAt(mem, l, j);
    if k + 1 < |l| && j != k + 1 {
      assert Clear(l[j], l[k + 1]);
    }
    if k > 0 && j + 1 != k {
      assert Clear(l[j], l[k - 1]);
    }
  }

  // ----- all lists against the free blocks

  /** Free blocks with storable sizes, clear of one another, inside memory. */
  ghost predicate Separate(fm: map<int, int>, n: int) {
    && (forall a :: a in fm ==> Inside(a, n) && 8 <= fm[a] < MAX_BLOCK)
    && (forall a, b {:trigger Clear(a, b)} :: a in fm && b in fm && a != b ==> Clear(a, b))
  }

  function ClassOfSize(size: int): int {
    if 0 <= size < MAX_BLOCK then ClassOf(size) else -1
  }

  /** Each list holds exactly the free blocks of its class, once each. */
  ghost predicate Members(lists: seq<seq<int>>, fm: map<int, int>) {
    && |lists| == CLASSES
    && (forall c, k :: 0 <= c < CLASSES && 0 <= k < |lists[c]| ==>
          lists[c][k] in fm && ClassOfSize(fm[lists[c][k]]) == c)
    && (forall a :: a in fm ==> 0 <= ClassOfSize(fm[a]) < CLASSES && a in lists[ClassOfSize(fm[a])])
    && (forall c, k, m :: 0 <= c < CLASSES && 0 <= k < m < |lists[c]| ==> lists[c][k] != lists[c][m])
  }

  ghost predicate AllLinked(mem: seq<int>, matrix: seq<int>, lists: seq<seq<int>>) {
    && |matrix| == CLASSES && |lists| == CLASSES
    && (forall c :: 0 <= c < CLASSES ==> Linked(mem, matrix[c], lists[c]))
  }

  lemma MembersApart(lists: seq<seq<int>>, fm: map<int, int>, n: int, c: int)
    requires Members(lists, fm) && Separate(fm, n) && 0 <= c < CLASSES
    ensures Spaced(lists[c], n)
  {
    var l := lists[c];
    forall k, m | 0 <= k < |l| && 0 <= m < |l| && k != m
      ensures Clear(l[k], l[m])
    {
      assert lists[c][k] in fm && lists[c][m] in fm;
      if k < m {
        assert lists[c][k] != lists[c][m];
      } else {
        assert lists[c][m] != lists[c][k];
      }
    }
    forall k | 0 <= k < |l| ensures Inside(l[k], n) {
      assert lists[c][k] in fm;
    }
  }

  // ----- bitmaps

  /** Second-level bits mark non-empty lists; first-level bits mark rows with any bit set. */
  ghost predicate Indexed(fl: Word, sl: seq<Word>, lists: seq<seq<int>>) {
    && |sl| == REAL_FLI && |lists| == CLASSES
    && (forall f: nat, s: nat :: f < REAL_FLI && s < MAX_SLI ==> (Bit(sl[f], s) <==> lists[ClassIndex(f, s)] != []))
    && (forall f: nat :: f < 32 ==> (Bit(fl, f) <==> f < REAL_FLI && sl[f] != 0))
  }

  lemma InsertIndexed(fl: Word, sl: seq<Word>, lists: seq<seq<int>>, f: nat, s: nat, l: seq<int>)
    requires Indexed(fl, sl, lists) && f < REAL_FLI && s < MAX_SLI && l != []
    ensures Indexed(SetBit(f, fl), sl[f := SetBit(s, sl[f])], lists[ClassIndex(f, s) := l])
  {
    var sl', fl' := sl[f := SetBit(s, sl[f])], SetBit(f, fl);
    forall f1: nat, s1: nat | f1 < REAL_FLI && s1 < MAX_SLI
      ensures Bit(sl'[f1], s1) <==> lists[ClassIndex(f, s) := l][ClassIndex(f1, s1)] != []
    {
      SetBitBits(s, sl[f], s1);
    }
    forall f1: nat | f1 < 32
      ensures Bit(fl', f1) <==> f1 < REAL_FLI && sl'[f1] != 0
    {
      SetBitBits(f, fl, f1);
      if f1 == f {
        SetBitBits(s, sl[f], s);
        ZeroIffNoBits(sl'[f]);
      }
    }
  }

  lemma EmptyIndexed(fl: Word, sl: seq<Word>, lists: seq<seq<int>>, f: nat, s: nat)
    requires Indexed(fl, sl, lists) && f < REAL_FLI && s < MAX_SLI
    ensures var row := ClearBit(s, sl[f]);
            Indexed(if row == 0 then ClearBit(f, fl) else fl, sl[f := row], lists[ClassIndex(f, s) := []])
  {
    var row := ClearBit(s, sl[f]);
    var sl', fl' := sl[f := row], if row == 0 then ClearBit(f, fl) else fl;
    forall f1: nat, s1: nat | f1 < REAL_FLI && s1 < MAX_SLI
      ensures Bit(sl'[f1], s1) <==> lists[ClassIndex(f, s) := []][ClassIndex(f1, s1)] != []
    {
      ClearBitBits(s, sl[f], s1);
    }
    forall f1: nat | f1 < 32
      ensures Bit(fl', f1) <==> f1 < REAL_FLI && sl'[f1] != 0
    {
      ClearBitBits(f, fl, f1);
      if f1 == f && sl[f] == 0 {
        ZeroIffNoBits(sl[f]);
        ZeroIffNoBits(row);
        forall i: nat | i < 32 ensures !Bit(row, i) { ClearBitBits(s, sl[f], i); }
      }
    }
  }

  lemma KeepIndexed(fl: Word, sl: seq<Word>, lists: seq<seq<int>>, f: nat, s: nat, l: seq<int>)
    requires Indexed(fl, sl, lists) && f < REAL_FLI && s < MAX_SLI
    requires l != [] && lists[ClassIndex(f, s)] != []
    ensures Indexed(fl, sl, lists[ClassIndex(f, s) := l])
  {
    forall f1: nat, s1: nat | f1 < REAL_FLI && s1 < MAX_SLI
      ensures Bit(sl[f1], s1) <==> lists[ClassIndex(f, s) := l][ClassIndex(f1, s1)] != []
    {
    }
  }

  // ----- membership after an insertion or removal

  lemma InsertMembers(lists: seq<seq<int>>, fm: map<int, int>, b: int, size: int)
    requires Members(lists, fm) && b !in fm && 0 <= size < MAX_BLOCK
    ensures 0 <= ClassOfSize(size) < CLASSES
    ensures Members(lists[ClassOfSize(size) := [b] + lists[ClassOfSize(size)]], fm[b := size])
  {
    ClassOfRange(size);
    var c := ClassOfSize(size);
    var lists', fm' := lists[c := [b] + lists[c]], fm[b := size];
    forall a | a in fm'
      ensures 0 <= ClassOfSize(fm'[a]) < CLASSES && a in lists'[ClassOfSize(fm'[a])]
    {
      if a == b {
        assert lists'[c][0] == b;
      } else {
        var l := lists[ClassOfSize(fm[a])];
        var k :| 0 <= k < |l| && l[k] == a;
        assert lists'[c][0] == b;
        if ClassOfSize(fm[a]) == c { assert lists'[c][k + 1] == a; }
      }
    }
    forall d, k | 0 <= d < CLASSES && 0 <= k < |lists'[d]|
      ensures lists'[d][k] in fm' && ClassOfSize(fm'[lists'[d][k]]) == d
    {
      if d == c && k > 0 {
        assert lists'[c][k] == lists[c][k - 1];
      } else if d != c {
        assert lists'[d][k] == lists[d][k];
      }
    }
    forall d, k, m | 0 <= d < CLASSES && 0 <= k < m < |lists'[d]|
      ensures lists'[d][k] != lists'[d][m]
    {
      if d == c {
        assert lists'[c][m] == lists[c][m - 1];
        if k > 0 { assert lists'[c][k] == lists[c][k - 1]; }
      }
    }
  }

  lemma RemoveMembers(lists: seq<seq<int>>, fm: map<int, int>, c: int, k: nat)
    requires Members(lists, fm) && 0 <= c < CLASSES && k < |lists[c]|
    ensures Members(lists[c := Without(lists[c], k)], fm - {lists[c][k]})
  {
    var b := lists[c][k];
    var l' := Without(lists[c], k);
    var lists', fm' := lists[c := l'], fm - {b};
    forall a | a in fm'
      ensures 0 <= ClassOfSize(fm'[a]) < CLASSES && a in lists'[ClassOfSize(fm'[a])]
    {
      var d := ClassOfSize(fm[a]);
      if d == c {
        var j :| 0 <= j < |lists[c]| && lists[c][j] == a;
        assert l'[if j < k then j else j - 1] == a;
      }
    }
    forall d, j | 0 <= d < CLASSES && 0 <= j < |lists'[d]|
      ensures lists'[d][j] in fm' && ClassOfSize(fm'[lists'[d][j]]) == d
    {
      if d == c {
        var i := if j < k then j else j + 1;
        assert l'[j] == lists[c][i];
        assert lists[c][i] != b;
      } else {
        assert lists[d][j] in fm && ClassOfSize(fm[lists[d][j]]) == d;
        assert b in fm && ClassOfSize(fm[b]) == c;
      }
    }
    forall d, i, j | 0 <= d < CLASSES && 0 <= i < j < |lists'[d]|
      ensures lists'[d][i] != lists'[d][j]
    {
      if d == c {
        assert l'[i] == lists[c][if i < k then i else i + 1];
        assert l'[j] == lists[c][if j < k then j else j + 1];
      }
    }
  }
}
