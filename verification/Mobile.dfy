/**
 Mobile data: trees of mobile arrays, number arrays and data records that share
 reference-counted channel bundles, with their recursive clone and release.
 */
module Mobile {
  import opened Words

  /** An allocation, named by the pointer programs hold. Null is 0. */
  datatype Cell =
    | Numbers(dims: seq<int>, bytes: seq<int>)
    | Pointers(dims: seq<int>, items: seq<int>)
    | Data(bytes: seq<int>)
    | Bundle(refs: Word, channels: seq<int>)

  type Cells = map<int, Cell>

  /** The shape and contents reached from a pointer. Bundles are named: they are shared, not copied. */
  datatype Tree =
    | Null
    | NumberTree(dims: seq<int>, bytes: seq<int>)
    | ArrayTree(dims: seq<int>, kids: seq<Tree>)
    | DataTree(bytes: seq<int>)
    | BundleTree(b: int)

  /** From p the cells hold t. */
  ghost predicate Holds(cells: Cells, p: int, t: Tree)
    decreases t
  {
    match t
    case Null => p == 0
    case NumberTree(dims, bytes) => p != 0 && p in cells && cells[p] == Numbers(dims, bytes)
    case ArrayTree(dims, kids) =>
      && p != 0 && p in cells && cells[p].Pointers? && cells[p].dims == dims && |cells[p].items| == |kids|
      && forall i :: 0 <= i < |kids| ==> Holds(cells, cells[p].items[i], kids[i])
    case DataTree(bytes) => p != 0 && p in cells && cells[p] == Data(bytes)
    case BundleTree(b) => p != 0 && p == b && p in cells && cells[p].Bundle?
  }

  /** x is a cell of the tree at p that the tree owns. */
  ghost predicate Owns(cells: Cells, p: int, t: Tree, x: int)
    decreases t
  {
    match t
    case Null => false
    case NumberTree(_, _) => x == p
    case ArrayTree(_, kids) =>
      x == p || (p in cells && cells[p].Pointers? && |cells[p].items| == |kids| &&
                 exists i :: 0 <= i < |kids| && Owns(cells, cells[p].items[i], kids[i], x))
    case DataTree(_) => x == p
    case BundleTree(_) => false
  }

  /** No owned cell is reached twice. */
  ghost predicate IsTree(cells: Cells, p: int, t: Tree)
    requires Holds(cells, p, t)
    decreases t
  {
    t.ArrayTree? ==>
      var items := cells[p].items;
      && (forall i :: 0 <= i < |t.kids| ==> IsTree(cells, items[i], t.kids[i]) && !Owns(cells, items[i], t.kids[i], p))
      && (forall i, j, x {:trigger Owns(cells, items[i], t.kids[i], x), Owns(cells, items[j], t.kids[j], x)} ::
            0 <= i < j < |t.kids| && Owns(cells, items[i], t.kids[i], x) ==> !Owns(cells, items[j], t.kids[j], x))
  }

  /** How often the tree refers to bundle b. */
  function Refs(t: Tree, b: int): nat
    decreases t
  {
    match t
    case ArrayTree(_, kids) => RefsAll(kids, b)
    case BundleTree(c) => if c == b then 1 else 0
    case _ => 0
  }

  function RefsAll(kids: seq<Tree>, b: int): nat
    decreases kids
  {
    if kids == [] then 0 else RefsAll(kids[..|kids| - 1], b) + Refs(kids[|kids| - 1], b)
  }

  // ----- trees in a changing heap

  /** The cell is the same but for a reference count. */
  predicate Like(c: Cell, d: Cell) {
    if c.Bundle? then d.Bundle? && d.channels == c.channels else d == c
  }

  /** The cells of the tree at p are alike in both heaps. */
  ghost predicate AlikeAt(cells: Cells, cells': Cells, p: int, t: Tree) {
    && (forall x :: Owns(cells, p, t, x) && x in cells ==> x in cells' && cells'[x] == cells[x])
    && (forall x :: Refs(t, x) > 0 && x in cells ==> x in cells' && Like(cells[x], cells'[x]))
  }

  lemma {:induction false} RefsKid(kids: seq<Tree>, i: nat, b: int)
    requires i < |kids|
    ensures Refs(kids[i], b) <= RefsAll(kids, b)
    decreases |kids|
  {
    if i < |kids| - 1 { RefsKid(kids[..|kids| - 1], i, b); }
  }

  /** What a tree is depends only on its own cells and on its bundles being there. */
  lemma {:induction false} HoldsKept(cells: Cells, cells': Cells, p: int, t: Tree)
    requires Holds(cells, p, t) && AlikeAt(cells, cells', p, t)
    ensures Holds(cells', p, t) && (forall x :: Owns(cells', p, t, x) <==> Owns(cells, p, t, x))
    ensures IsTree(cells, p, t) ==> IsTree(cells', p, t)
    decreases t
  {
    match t
    case ArrayTree(dims, kids) =>
      var items := cells[p].items;
      assert Owns(cells, p, t, p);
      forall i | 0 <= i < |kids|
        ensures Holds(cells', items[i], kids[i]) &&
                (forall x :: Owns(cells', items[i], kids[i], x) <==> Owns(cells, items[i], kids[i], x))
        ensures IsTree(cells, items[i], kids[i]) ==> IsTree(cells', items[i], kids[i])
      {
        forall x { RefsKid(kids, i, x); }
        forall x | Owns(cells, items[i], kids[i], x) ensures Owns(cells, p, t, x) { }
        HoldsKept(cells, cells', items[i], kids[i]);
      }
    case BundleTree(b) => assert Refs(t, b) > 0;
    case NumberTree(_, _) => assert Owns(cells, p, t, p);
    case DataTree(_) => assert Owns(cells, p, t, p);
    case Null =>
  }

  /** Everything a tree owns is allocated. */
  lemma {:induction false} OwnedCells(cells: Cells, p: int, t: Tree, x: int)
    requires Holds(cells, p, t) && Owns(cells, p, t, x)
    ensures x in cells && x != 0 && !cells[x].Bundle?
    decreases t
  {
    if t.ArrayTree? && x != p {
      var i :| 0 <= i < |t.kids| && Owns(cells, cells[p].items[i], t.kids[i], x);
      OwnedCells(cells, cells[p].items[i], t.kids[i], x);
    }
  }

  /** Every bundle a tree refers to is there. */
  lemma {:induction false} BundlesThere(cells: Cells, p: int, t: Tree, b: int)
    requires Holds(cells, p, t) && Refs(t, b) > 0
    ensures b in cells && b != 0 && cells[b].Bundle?
    decreases t
  {
    if t.ArrayTree? {
      var i := KidWith(t.kids, b);
      BundlesThere(cells, cells[p].items[i], t.kids[i], b);
    }
  }

  lemma {:induction false} KidWith(kids: seq<Tree>, b: int) returns (i: nat)
    requires RefsAll(kids, b) > 0
    ensures i < |kids| && Refs(kids[i], b) > 0
    decreases |kids|
  {
    if Refs(kids[|kids| - 1], b) > 0 { i := |kids| - 1; } else { i := KidWith(kids[..|kids| - 1], b); }
  }

  // ----- cloning

  function Bumped(c: Cell, n: nat): Cell {
    if c.Bundle? then c.(refs := Wrap(c.refs + n)) else c
  }

  lemma BumpedTwice(c: Cell, m: nat, n: nat)
    ensures Bumped(Bumped(c, m), n) == Bumped(c, m + n) && Bumped(c, 0) == c
  {
    if c.Bundle? {
      var a, q := c.refs + m, (c.refs + m) / WORD_MOD;
      var r := (Wrap(a) + n) / WORD_MOD;
      WrapWitness(a + n, q + r, Wrap(Wrap(a) + n));
      WrapWitness(c.refs, 0, c.refs);
    }
  }

  /** q is a new copy of t: everything it owns is new, and each bundle counts its references. */
  ghost predicate Cloned(cells: Cells, cells': Cells, q: int, t: Tree) {
    && Holds(cells', q, t) && IsTree(cells', q, t)
    && (forall x :: x in cells' <==> x in cells || Owns(cells', q, t, x))
    && (forall x :: Owns(cells', q, t, x) ==> x !in cells)
    && (forall x :: x in cells ==> cells'[x] == Bumped(cells[x], Refs(t, x)))
  }

  // ----- an array cloned kid by kid

  /** The first n kids hang from the first n items. */
  ghost predicate KidsHeld(cells: Cells, items: seq<int>, kids: seq<Tree>, n: nat)
    requires n <= |kids| == |items|
  {
    forall i :: 0 <= i < n ==> Holds(cells, items[i], kids[i]) && IsTree(cells, items[i], kids[i])
  }

  ghost predicate KidsApart(cells: Cells, items: seq<int>, kids: seq<Tree>, n: nat)
    requires n <= |kids| == |items|
  {
    forall i, j, x {:trigger Owns(cells, items[i], kids[i], x), Owns(cells, items[j], kids[j], x)} ::
      0 <= i < j < n && Owns(cells, items[i], kids[i], x) ==> !Owns(cells, items[j], kids[j], x)
  }

  /** x is owned by one of the first n kids. */
  ghost predicate KidOwns(cells: Cells, items: seq<int>, kids: seq<Tree>, n: nat, x: int)
    requires n <= |kids| == |items|
  {
    exists i :: 0 <= i < n && Owns(cells, items[i], kids[i], x)
  }

  /** dst holds clones of the first n kids, and nothing else is new. */
  ghost predicate Partial(cells: Cells, cells': Cells, dst: int, items: seq<int>, kids: seq<Tree>, n: nat)
    requires n <= |kids| == |items|
  {
    && dst !in cells && dst in cells' && cells'[dst].Pointers?
    && KidsHeld(cells', items, kids, n) && KidsApart(cells', items, kids, n)
    && (forall x :: KidOwns(cells', items, kids, n, x) ==> x !in cells && x != dst)
    && (forall x :: x in cells' <==> x in cells || x == dst || KidOwns(cells', items, kids, n, x))
    && (forall x :: x in cells ==> cells'[x] == Bumped(cells[x], RefsAll(kids[..n], x)))
  }

  /** A null kid clones to null, changing nothing. */
  lemma CloneNull(cells: Cells)
    ensures Cloned(cells, cells, 0, Null)
  {
    forall x | x in cells ensures cells[x] == Bumped(cells[x], Refs(Null, x)) { BumpedTwice(cells[x], 0, 0); }
  }

  /** From c1 to c3 the allocations of c1 stay, alike, except what dst holds. */
  ghost predicate Grew(c1: Cells, c3: Cells, dst: int) {
    && dst in c1 && c1[dst].Pointers?
    && forall x :: x in c1 && x != dst ==> x in c3 && Like(c1[x], c3[x])
  }

  lemma KidKept(c1: Cells, c3: Cells, dst: int, p: int, t: Tree)
    requires Grew(c1, c3, dst) && Holds(c1, p, t) && IsTree(c1, p, t) && !Owns(c1, p, t, dst)
    ensures Holds(c3, p, t) && IsTree(c3, p, t) && forall x :: Owns(c3, p, t, x) <==> Owns(c1, p, t, x)
  {
    forall x | Owns(c1, p, t, x) && x in c1 ensures x in c3 && c3[x] == c1[x] { OwnedCells(c1, p, t, x); }
    forall x | Refs(t, x) > 0 && x in c1 ensures x in c3 && Like(c1[x], c3[x]) { BundlesThere(c1, p, t, x); }
    HoldsKept(c1, c3, p, t);
  }

  /** The earlier kids are where they were. */
  lemma EarlierKids(c1: Cells, c3: Cells, dst: int, items: seq<int>, items': seq<int>, kids: seq<Tree>, n: nat)
    requires n <= |kids| == |items| == |items'| && items'[..n] == items[..n] && Grew(c1, c3, dst)
    requires KidsHeld(c1, items, kids, n) && KidsApart(c1, items, kids, n) && !KidOwns(c1, items, kids, n, dst)
    ensures KidsHeld(c3, items', kids, n) && KidsApart(c3, items', kids, n)
    ensures forall x :: KidOwns(c3, items', kids, n, x) <==> KidOwns(c1, items, kids, n, x)
  {
    hide Holds, IsTree, Owns, Grew;
    forall i | 0 <= i < n
      ensures items'[i] == items[i] && Holds(c3, items[i], kids[i]) && IsTree(c3, items[i], kids[i])
      ensures forall x :: Owns(c3, items[i], kids[i], x) <==> Owns(c1, items[i], kids[i], x)
    {
      assert items'[i] == items'[..n][i] == items[..n][i];
      assert !Owns(c1, items[i], kids[i], dst);
      KidKept(c1, c3, dst, items[i], kids[i]);
    }
    forall x ensures KidOwns(c3, items', kids, n, x) <==> KidOwns(c1, items, kids, n, x) {
      if KidOwns(c3, items', kids, n, x) {
        var i :| 0 <= i < n && Owns(c3, items'[i], kids[i], x);
        assert Owns(c1, items[i], kids[i], x);
      }
      if KidOwns(c1, items, kids, n, x) {
        var i :| 0 <= i < n && Owns(c1, items[i], kids[i], x);
        assert Owns(c3, items'[i], kids[i], x);
      }
    }
  }

  /** The kids owned by n + 1 kids are those of n and those of the last. */
  lemma OneMoreKid(cells: Cells, items: seq<int>, kids: seq<Tree>, n: nat)
    requires n < |kids| == |items|
    ensures forall x :: KidOwns(cells, items, kids, n + 1, x) <==>
            KidOwns(cells, items, kids, n, x) || Owns(cells, items[n], kids[n], x)
    ensures KidsHeld(cells, items, kids, n) && Holds(cells, items[n], kids[n]) && IsTree(cells, items[n], kids[n]) ==>
            KidsHeld(cells, items, kids, n + 1)
    ensures KidsApart(cells, items, kids, n) &&
            (forall x :: Owns(cells, items[n], kids[n], x) ==> !KidOwns(cells, items, kids, n, x)) ==>
              KidsApart(cells, items, kids, n + 1)
  {
    hide Holds, IsTree, Owns;
  }

  /** What an array clone has so far, when one more kid is cloned and stored. */
  lemma CloneStep(cells: Cells, c1: Cells, c2: Cells, dst: int, items: seq<int>, kids: seq<Tree>, n: nat, q: int)
    requires n < |kids| == |items| && Partial(cells, c1, dst, items, kids, n) && c1[dst].items == items &&
             Cloned(c1, c2, q, kids[n])
    ensures dst in c2 && c2[dst] == c1[dst]
    ensures Partial(cells, c2[dst := c2[dst].(items := items[n := q])], dst, items[n := q], kids, n + 1)
  {
    hide Holds, IsTree, Owns, Refs, KidOwns, KidsHeld, KidsApart;
    var t, items' := kids[n], items[n := q];
    BumpedTwice(c1[dst], 0, 0);
    assert c2[dst] == Bumped(c1[dst], Refs(t, dst));
    var c3 := c2[dst := c2[dst].(items := items')];
    assert Grew(c1, c3, dst);
    assert items'[..n] == items[..n];
    EarlierKids(c1, c3, dst, items, items', kids, n);
    NewDst(c1, c2, q, t, dst);
    assert Grew(c2, c3, dst);
    KidKept(c2, c3, dst, q, t);
    OwnedBefore(c1, items, kids, n);
    OneMoreKid(c3, items', kids, n);
    StepCounts(cells, c1, c2, kids, n);
  }

  lemma NewDst(c1: Cells, c2: Cells, q: int, t: Tree, dst: int)
    requires Cloned(c1, c2, q, t) && dst in c1
    ensures !Owns(c2, q, t, dst)
  {
  }

  lemma OwnedBefore(cells: Cells, items: seq<int>, kids: seq<Tree>, n: nat)
    requires n <= |kids| == |items| && KidsHeld(cells, items, kids, n)
    ensures forall x :: KidOwns(cells, items, kids, n, x) ==> x in cells
  {
    hide Holds, IsTree, Owns;
    forall x | KidOwns(cells, items, kids, n, x) ensures x in cells {
      var i :| 0 <= i < n && Owns(cells, items[i], kids[i], x);
      OwnedCells(cells, items[i], kids[i], x);
    }
  }

  lemma StepCounts(cells: Cells, c1: Cells, c2: Cells, kids: seq<Tree>, n: nat)
    requires n < |kids| && (forall x :: x in cells ==> x in c1 && c1[x] == Bumped(cells[x], RefsAll(kids[..n], x)))
    requires forall x :: x in c1 ==> x in c2 && c2[x] == Bumped(c1[x], Refs(kids[n], x))
    ensures forall x :: x in cells ==> c2[x] == Bumped(cells[x], RefsAll(kids[..n + 1], x))
  {
    assert kids[..n + 1][..n] == kids[..n];
    hide Bumped, Refs;
    forall x | x in cells ensures c2[x] == Bumped(cells[x], RefsAll(kids[..n + 1], x)) {
      BumpedTwice(cells[x], RefsAll(kids[..n], x), Refs(kids[n], x));
    }
  }

  /** All kids done: the whole array is cloned. */
  lemma CloneWhole(cells: Cells, cells': Cells, dst: int, dims: seq<int>, kids: seq<Tree>)
    requires dst in cells' && cells'[dst].Pointers? && cells'[dst].dims == dims && |cells'[dst].items| == |kids| &&
             dst != 0
    requires Partial(cells, cells', dst, cells'[dst].items, kids, |kids|)
    ensures Cloned(cells, cells', dst, ArrayTree(dims, kids))
  {
    var t, items := ArrayTree(dims, kids), cells'[dst].items;
    assert kids[..|kids|] == kids;
    assert !KidOwns(cells', items, kids, |kids|, dst);
    forall x ensures Owns(cells', dst, t, x) <==> x == dst || KidOwns(cells', items, kids, |kids|, x) { }
  }

  // ----- releasing

  /** The bundle's last references went. */
  predicate Freed(c: Cell, n: nat) {
    c.Bundle? && n > 0 && c.refs <= n
  }

  function Dropped(c: Cell, n: nat): Cell {
    if c.Bundle? then c.(refs := Wrap(c.refs - n)) else c
  }

  /** Every bundle has at least the references the tree holds. */
  ghost predicate Counted(cells: Cells, t: Tree) {
    forall x :: Refs(t, x) > 0 && x in cells && cells[x].Bundle? ==> Refs(t, x) <= cells[x].refs
  }

  /** What t owned is gone, and so are bundles nobody else refers to; other bundles lost its references. */
  ghost predicate Released(cells: Cells, cells': Cells, p: int, t: Tree) {
    && (forall x :: x in cells' <==> x in cells && !Owns(cells, p, t, x) && !Freed(cells[x], Refs(t, x)))
    && (forall x :: x in cells' ==> cells'[x] == Dropped(cells[x], Refs(t, x)))
  }

  /** The first n kids are released; the array itself is not yet. */
  ghost predicate Emptied(cells: Cells, cells': Cells, items: seq<int>, kids: seq<Tree>, n: nat)
    requires n <= |kids| == |items|
  {
    && (forall x :: x in cells' <==>
        x in cells && !KidOwns(cells, items, kids, n, x) && !Freed(cells[x], RefsAll(kids[..n], x)))
    && (forall x :: x in cells' ==> cells'[x] == Dropped(cells[x], RefsAll(kids[..n], x)))
  }

  lemma {:induction false} RefsPrefix(kids: seq<Tree>, n: nat, b: int)
    requires n < |kids|
    ensures RefsAll(kids[..n + 1], b) == RefsAll(kids[..n], b) + Refs(kids[n], b) <= RefsAll(kids, b)
    decreases |kids|
  {
    assert kids[..n + 1][..n] == kids[..n];
    if n + 1 == |kids| {
      assert kids[..n + 1] == kids;
    } else {
      var r := kids[..|kids| - 1];
      RefsPrefix(r, n, b);
      assert r[..n + 1] == kids[..n + 1];
    }
  }

  lemma DroppedTwice(c: Cell, m: nat, n: nat)
    requires c.Bundle? ==> m + n <= c.refs
    ensures Dropped(Dropped(c, m), n) == Dropped(c, m + n) && Dropped(c, 0) == c
    ensures c.Bundle? ==> Dropped(c, m).Bundle? && Dropped(c, m).refs == c.refs - m
    ensures !Freed(c, m) ==> (Freed(Dropped(c, m), n) <==> Freed(c, m + n))
  {
    if c.Bundle? {
      WrapWitness(c.refs - m, 0, c.refs - m);
      WrapWitness(c.refs - m - n, 0, c.refs - m - n);
      WrapWitness(c.refs, 0, c.refs);
    }
  }

  /** Releasing null does nothing. */
  lemma ReleaseNull(cells: Cells)
    ensures Released(cells, cells, 0, Null)
  {
    forall x | x in cells ensures cells[x] == Dropped(cells[x], 0) {
      if cells[x].Bundle? { WrapWitness(cells[x].refs, 0, cells[x].refs); }
    }
  }

  /** The next kid is still whole when its turn comes, and its bundles still counted. */
  lemma NextKid(cells: Cells, c1: Cells, items: seq<int>, kids: seq<Tree>, n: nat)
    requires n < |kids| == |items| && KidsHeld(cells, items, kids, |kids|) && KidsApart(cells, items, kids, |kids|)
    requires Emptied(cells, c1, items, kids, n)
    requires forall x :: RefsAll(kids, x) > 0 && x in cells && cells[x].Bundle? ==> RefsAll(kids, x) <= cells[x].refs
    ensures Holds(c1, items[n], kids[n]) && IsTree(c1, items[n], kids[n]) && Counted(c1, kids[n])
    ensures forall x :: Owns(c1, items[n], kids[n], x) <==> Owns(cells, items[n], kids[n], x)
  {
    var p, t := items[n], kids[n];
    forall x | Refs(t, x) > 0 && x in cells
      ensures x in c1 && cells[x].Bundle? && Like(cells[x], c1[x]) && Refs(t, x) <= c1[x].refs {
      BundleKept(cells, c1, items, kids, n, x);
    }
    forall x | Owns(cells, p, t, x) && x in cells ensures x in c1 && c1[x] == cells[x] {
      OwnedCells(cells, p, t, x);
    }
    HoldsKept(cells, c1, p, t);
    forall x | Refs(t, x) > 0 && x in c1 ensures Refs(t, x) <= c1[x].refs {
    }
  }

  lemma BundleKept(cells: Cells, c1: Cells, items: seq<int>, kids: seq<Tree>, n: nat, x: int)
    requires n < |kids| == |items| && KidsHeld(cells, items, kids, |kids|) && Emptied(cells, c1, items, kids, n)
    requires forall x :: RefsAll(kids, x) > 0 && x in cells && cells[x].Bundle? ==> RefsAll(kids, x) <= cells[x].refs
    requires Refs(kids[n], x) > 0
    ensures x in cells && x in c1 && cells[x].Bundle? && Like(cells[x], c1[x]) && Refs(kids[n], x) <= c1[x].refs
  {
    hide Owns, IsTree;
    BundlesThere(cells, items[n], kids[n], x);
    RefsPrefix(kids, n, x);
    DroppedTwice(cells[x], RefsAll(kids[..n], x), Refs(kids[n], x));
    forall i | 0 <= i < n ensures !Owns(cells, items[i], kids[i], x) {
      NotOwned(cells, items[i], kids[i], x);
    }
  }

  lemma NotOwned(cells: Cells, p: int, t: Tree, x: int)
    requires Holds(cells, p, t) && x in cells && cells[x].Bundle?
    ensures !Owns(cells, p, t, x)
  {
    forall y | Owns(cells, p, t, y) ensures y != x { OwnedCells(cells, p, t, y); }
  }

  /** One more kid released. */
  lemma ReleaseStep(cells: Cells, c1: Cells, c2: Cells, items: seq<int>, kids: seq<Tree>, n: nat)
    requires n < |kids| == |items| && KidsHeld(cells, items, kids, |kids|) && KidsApart(cells, items, kids, |kids|)
    requires Emptied(cells, c1, items, kids, n) && Released(c1, c2, items[n], kids[n])
    requires forall x :: RefsAll(kids, x) > 0 && x in cells && cells[x].Bundle? ==> RefsAll(kids, x) <= cells[x].refs
    ensures Emptied(cells, c2, items, kids, n + 1)
  {
    hide Owns, IsTree, Holds, Refs, RefsAll, KidOwns, Freed, Dropped, KidsHeld, KidsApart, Counted;
    NextKid(cells, c1, items, kids, n);
    OneMoreKid(cells, items, kids, n);
    forall x | x in cells
      ensures RefsAll(kids[..n + 1], x) == RefsAll(kids[..n], x) + Refs(kids[n], x)
      ensures Freed(cells[x], RefsAll(kids[..n + 1], x)) <==>
                Freed(cells[x], RefsAll(kids[..n], x)) ||
                Freed(Dropped(cells[x], RefsAll(kids[..n], x)), Refs(kids[n], x))
      ensures Dropped(Dropped(cells[x], RefsAll(kids[..n], x)), Refs(kids[n], x)) ==
              Dropped(cells[x], RefsAll(kids[..n + 1], x))
    {
      CountKid(cells, kids, n, x);
    }
  }

  /** Dropping the references of the first kids and then of the next is dropping those of one kid more. */
  lemma CountKid(cells: Cells, kids: seq<Tree>, n: nat, x: int)
    requires n < |kids| && x in cells &&
             (RefsAll(kids, x) > 0 && cells[x].Bundle? ==> RefsAll(kids, x) <= cells[x].refs)
    ensures var m, r, all := RefsAll(kids[..n], x), Refs(kids[n], x), RefsAll(kids[..n + 1], x);
            all == m + r &&
            (Freed(cells[x], all) <==> Freed(cells[x], m) || Freed(Dropped(cells[x], m), r)) &&
            Dropped(Dropped(cells[x], m), r) == Dropped(cells[x], all)
  {
    hide RefsAll, Refs, Freed, Dropped;
    RefsPrefix(kids, n, x);
    StepDrop(cells[x], RefsAll(kids[..n], x), Refs(kids[n], x), RefsAll(kids, x));
  }

  lemma StepDrop(c: Cell, m: nat, n: nat, all: nat)
    requires m + n <= all && (c.Bundle? && all > 0 ==> all <= c.refs)
    ensures Freed(c, m + n) <==> Freed(c, m) || Freed(Dropped(c, m), n)
    ensures Dropped(Dropped(c, m), n) == Dropped(c, m + n)
  {
    DroppedTwice(c, m, n);
  }

  /** The array freed after its kids. */
  lemma ReleaseWhole(cells: Cells, c1: Cells, p: int, t: Tree)
    requires t.ArrayTree? && Holds(cells, p, t) && IsTree(cells, p, t)
    requires Emptied(cells, c1, cells[p].items, t.kids, |t.kids|)
    ensures p in c1 && Released(cells, c1 - {p}, p, t)
  {
    var items, kids := cells[p].items, t.kids;
    assert kids[..|kids|] == kids;
    forall i | 0 <= i < |kids| ensures !Owns(cells, items[i], kids[i], p) { }
    assert !KidOwns(cells, items, kids, |kids|, p);
    forall x ensures Owns(cells, p, t, x) <==> x == p || KidOwns(cells, items, kids, |kids|, x) { }
  }

  /** A new copy released leaves every allocation and every count as they were. */
  lemma CloneUndone(cells: Cells, c1: Cells, c2: Cells, q: int, t: Tree)
    requires Cloned(cells, c1, q, t) && Released(c1, c2, q, t)
    requires forall x :: x in cells && cells[x].Bundle? ==> 1 <= cells[x].refs && cells[x].refs + Refs(t, x) < WORD_MOD
    ensures c2 == cells
  {
    hide Owns, IsTree, Holds, Refs;
    forall x | x in cells ensures !Freed(c1[x], Refs(t, x)) && Dropped(c1[x], Refs(t, x)) == cells[x] {
      var n := Refs(t, x);
      assert c1[x] == Bumped(cells[x], n);
      if cells[x].Bundle? {
        WrapWitness(cells[x].refs + n, 0, cells[x].refs + n);
        WrapWitness(cells[x].refs, 0, cells[x].refs);
      }
    }
    assert forall x :: x in c2 <==> x in cells;
    forall x | x in cells ensures c2[x] == cells[x] { assert x in c2; }
  }

  /** The counts of a new copy suffice for its release. */
  lemma CloneCounted(cells: Cells, c1: Cells, q: int, t: Tree)
    requires Cloned(cells, c1, q, t)
    requires forall x :: x in cells && cells[x].Bundle? ==> 1 <= cells[x].refs && cells[x].refs + Refs(t, x) < WORD_MOD
    ensures Counted(c1, t)
  {
    forall x | Refs(t, x) > 0 && x in c1 && c1[x].Bundle? ensures Refs(t, x) <= c1[x].refs {
      hide Refs, IsTree;
      if x in cells {
        WrapWitness(cells[x].refs + Refs(t, x), 0, cells[x].refs + Refs(t, x));
      } else {
        OwnedCells(c1, q, t, x);
        assert false;
      }
    }
  }

  // ----- the heap

  /** A fresh pointer always exists. */
  lemma FreshExists(cells: Cells)
    ensures exists p :: p > 0 && p !in cells
  {
    var bound := Bound(cells.Keys);
    assert (if bound < 0 then 1 else bound + 1) !in cells;
  }

  lemma {:induction false} Bound(s: set<int>) returns (b: int)
    ensures forall x :: x in s ==> x <= b
    decreases |s|
  {
    if y :| y in s {
      var c := Bound(s - {y});
      b := if c < y then y else c;
      assert forall x :: x in s ==> x == y || x in s - {y};
    } else {
      b := 0;
    }
  }

  class Heap {
    var cells: Cells

    /** tvm_malloc: any pointer not in use. */
    method New(c: Cell) returns (p: int)
      modifies this
      ensures p > 0 && p !in old(cells) && cells == old(cells)[p := c]
    {
      FreshExists(cells);
      p :| p > 0 && p !in cells;
      cells := cells[p := c];
    }

    /** mt_clone. */
    method Clone(p: int, ghost t: Tree) returns (q: int)
      requires t != Null && Holds(cells, p, t)
      modifies this
      ensures q != 0 && Cloned(old(cells), cells, q, t)
      decreases t
    {
      ghost var old0 := cells;
      match cells[p] {
        case Numbers(dims, bytes) =>
          q := New(Numbers(dims, seq(|bytes|, i => 0)));
          cells := cells[q := Numbers(dims, bytes)];
          FlatCloned(old0, cells, q, t);
        case Pointers(dims, items) =>
          q := CloneArray(p, t);
        case Data(bytes) =>
          q := New(Data(seq(|bytes|, i => 0)));
          cells := cells[q := Data(bytes)];
          FlatCloned(old0, cells, q, t);
        case Bundle(refs, channels) =>
          cells := cells[p := Bundle(Wrap(refs + 1), channels)];
          q := p;
          BundleCloned(old0, cells, p, t);
      }
    }

    /** mt_clone_array, for an array of pointers. */
    method CloneArray(p: int, ghost t: Tree) returns (dst: int)
      requires t.ArrayTree? && Holds(cells, p, t)
      modifies this
      ensures dst != 0 && Cloned(old(cells), cells, dst, t)
      decreases t, 0
    {
      hide Cloned, Partial, IsTree, Owns;
      ghost var old0 := cells;
      var src := cells[p];
      var size := |src.items|;
      dst := New(Pointers(src.dims, seq(size, i => 0)));
      PartialStart(old0, cells, dst, t.kids);
      var n := 0;
      while n < size
        invariant n <= size == |t.kids| && dst != 0 && dst in cells && cells[dst].Pointers? &&
                  cells[dst].dims == src.dims && |cells[dst].items| == size
        invariant Partial(old0, cells, dst, cells[dst].items, t.kids, n)
      {
        var inner := src.items[n];
        ghost var c1, items := cells, cells[dst].items;
        SourceKept(old0, cells, dst, items, t.kids, n, inner);
        if inner != 0 {
          NotNull(old0, inner, t.kids[n]);
          inner := Clone(inner, t.kids[n]);
        } else {
          NullKid(old0, t.kids[n]);
          CloneNull(cells);
        }
        CloneStep(old0, c1, cells, dst, items, t.kids, n, inner);
        cells := cells[dst := cells[dst].(items := cells[dst].items[n := inner])];
        n := n + 1;
      }
      CloneWhole(old0, cells, dst, src.dims, t.kids);
    }

    /** mt_release. */
    method Release(p: int, ghost t: Tree)
      requires t != Null && Holds(cells, p, t) && IsTree(cells, p, t) && Counted(cells, t)
      modifies this
      ensures Released(old(cells), cells, p, t)
      decreases t
    {
      ghost var old0 := cells;
      match cells[p] {
        case Numbers(_, _) =>
          cells := cells - {p};
          FlatReleased(old0, cells, p, t);
        case Pointers(_, _) =>
          ReleaseKids(p, t);
          cells := cells - {p};
        case Data(_) =>
          cells := cells - {p};
          FlatReleased(old0, cells, p, t);
        case Bundle(refs, channels) =>
          if refs <= 1 {
            cells := cells - {p};
          } else {
            cells := cells[p := Bundle(refs - 1, channels)];
          }
          BundleReleased(old0, cells, p, t);
      }
    }

    /** The loop of mt_release_simple over an array of pointers. */
    method ReleaseKids(p: int, ghost t: Tree)
      requires t.ArrayTree? && Holds(cells, p, t) && IsTree(cells, p, t) && Counted(cells, t)
      modifies this
      ensures p in cells && Released(old(cells), cells - {p}, p, t)
      decreases t, 0
    {
      hide Released, Emptied, IsTree, Owns, Counted, Freed, Dropped;
      ghost var old0 := cells;
      var items := cells[p].items;
      KidsOf(cells, p, t);
      EmptiedStart(cells, items, t.kids);
      var n := 0;
      while n < |items|
        invariant n <= |items| == |t.kids| && Emptied(old0, cells, items, t.kids, n)
      {
        ghost var c1 := cells;
        NextKid(old0, c1, items, t.kids, n);
        if items[n] != 0 {
          NotNull(c1, items[n], t.kids[n]);
          Release(items[n], t.kids[n]);
        } else {
          NullKid(c1, t.kids[n]);
          ReleaseNull(c1);
        }
        ReleaseStep(old0, c1, cells, items, t.kids, n);
        n := n + 1;
      }
      ReleaseWhole(old0, cells, p, t);
    }

    /** A clone released at once leaves every allocation and every reference count as they were. */
    method CloneAndRelease(p: int, ghost t: Tree)
      requires t != Null && Holds(cells, p, t)
      requires forall x :: x in cells && cells[x].Bundle? ==>
               1 <= cells[x].refs && cells[x].refs + Refs(t, x) < WORD_MOD
      modifies this
      ensures cells == old(cells)
    {
      var q := Clone(p, t);
      CloneCounted(old(cells), cells, q, t);
      ghost var c1 := cells;
      Release(q, t);
      CloneUndone(old(cells), c1, cells, q, t);
    }
  }

  lemma FlatCloned(cells: Cells, cells': Cells, q: int, t: Tree)
    requires (t.NumberTree? || t.DataTree?) && q > 0 && q !in cells
    requires cells' == cells[q := if t.NumberTree? then Numbers(t.dims, t.bytes) else Data(t.bytes)]
    ensures Cloned(cells, cells', q, t)
  {
    forall x | x in cells ensures cells'[x] == Bumped(cells[x], Refs(t, x)) { BumpedTwice(cells[x], 0, 0); }
  }

  lemma BundleCloned(cells: Cells, cells': Cells, p: int, t: Tree)
    requires Holds(cells, p, t) && t.BundleTree? && cells' == cells[p := cells[p].(refs := Wrap(cells[p].refs + 1))]
    ensures Cloned(cells, cells', p, t)
  {
    forall x | x in cells ensures cells'[x] == Bumped(cells[x], Refs(t, x)) { BumpedTwice(cells[x], 0, 0); }
  }

  lemma PartialStart(cells: Cells, cells': Cells, dst: int, kids: seq<Tree>)
    requires dst !in cells && dst in cells' && cells'[dst].Pointers? && |cells'[dst].items| == |kids| &&
             cells' == cells[dst := cells'[dst]]
    ensures Partial(cells, cells', dst, cells'[dst].items, kids, 0)
  {
    forall x | x in cells ensures cells'[x] == Bumped(cells[x], RefsAll(kids[..0], x)) { BumpedTwice(cells[x], 0, 0); }
  }

  /** The source of a clone is still there, alike, while its kids are being cloned. */
  lemma SourceKept(cells: Cells, cells': Cells, dst: int, items: seq<int>, kids: seq<Tree>, n: nat, p: int)
    requires n < |kids| == |items| && Partial(cells, cells', dst, items, kids, n) && Holds(cells, p, kids[n])
    ensures Holds(cells', p, kids[n])
  {
    forall x | Owns(cells, p, kids[n], x) && x in cells ensures x in cells' && cells'[x] == cells[x] {
      OwnedCells(cells, p, kids[n], x);
    }
    HoldsKept(cells, cells', p, kids[n]);
  }

  lemma NotNull(cells: Cells, p: int, t: Tree)
    requires Holds(cells, p, t) && p != 0
    ensures t != Null
  {
  }

  lemma NullKid(cells: Cells, t: Tree)
    requires Holds(cells, 0, t)
    ensures t == Null
  {
  }

  lemma FlatReleased(cells: Cells, cells': Cells, p: int, t: Tree)
    requires (t.NumberTree? || t.DataTree?) && cells' == cells - {p}
    ensures Released(cells, cells', p, t)
  {
    forall x | x in cells ensures cells[x] == Dropped(cells[x], Refs(t, x)) {
      if cells[x].Bundle? { WrapWitness(cells[x].refs, 0, cells[x].refs); }
    }
  }

  lemma BundleReleased(cells: Cells, cells': Cells, p: int, t: Tree)
    requires Holds(cells, p, t) && t.BundleTree? && Counted(cells, t)
    requires cells' == if cells[p].refs <= 1 then cells - {p} else cells[p := cells[p].(refs := cells[p].refs - 1)]
    ensures Released(cells, cells', p, t)
  {
    assert Refs(t, p) == 1;
    forall x | x in cells && x != p ensures cells[x] == Dropped(cells[x], Refs(t, x)) {
      if cells[x].Bundle? { WrapWitness(cells[x].refs, 0, cells[x].refs); }
    }
    WrapWitness(cells[p].refs - 1, 0, cells[p].refs - 1);
  }

  lemma KidsOf(cells: Cells, p: int, t: Tree)
    requires t.ArrayTree? && Holds(cells, p, t) && IsTree(cells, p, t) && Counted(cells, t)
    ensures var items := cells[p].items;
            KidsHeld(cells, items, t.kids, |t.kids|) && KidsApart(cells, items, t.kids, |t.kids|)
    ensures forall x :: RefsAll(t.kids, x) > 0 && x in cells && cells[x].Bundle? ==> RefsAll(t.kids, x) <= cells[x].refs
  {
    forall x | RefsAll(t.kids, x) > 0 && x in cells && cells[x].Bundle? ensures RefsAll(t.kids, x) <= cells[x].refs {
      assert Refs(t, x) == RefsAll(t.kids, x);
    }
  }

  lemma EmptiedStart(cells: Cells, items: seq<int>, kids: seq<Tree>)
    requires |items| == |kids|
    ensures Emptied(cells, cells, items, kids, 0)
  {
    forall x | x in cells ensures cells[x] == Dropped(cells[x], RefsAll(kids[..0], x)) {
      if cells[x].Bundle? { WrapWitness(cells[x].refs, 0, cells[x].refs); }
    }
  }
}
