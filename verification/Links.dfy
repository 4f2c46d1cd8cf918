/**
 The queues as the original threads them: through the link slots of workspaces.
 A queue of processes is represented by a front and a back word and the links between.
 */
module Links {
  import opened Words

  /** A workspace in memory. link is WS_LINK and WS_PENDING, state is WS_STATE and WS_POINTER. */
  datatype Frame = Frame(temp: int, iptr: int, link: int, state: int, tlink: int, time: Word)

  function F(ws: map<int, Frame>, p: int): Frame {
    if p in ws then ws[p] else Frame(0, 0, 0, 0, 0, 0)
  }

  /** Write p's frame. */
  function Put(ws: map<int, Frame>, p: int, f: Frame): (ws': map<int, Frame>)
    ensures forall x {:trigger F(ws', x)} :: F(ws', x) == if x == p then f else F(ws, x)
  {
    ws[p := f]
  }

  function SetLink(ws: map<int, Frame>, p: int, v: int): (ws': map<int, Frame>)
    ensures forall x {:trigger F(ws', x)} :: F(ws', x) == if x == p then F(ws, x).(link := v) else F(ws, x)
  {
    ws[p := F(ws, p).(link := v)]
  }

  function SetTlink(ws: map<int, Frame>, p: int, v: int): (ws': map<int, Frame>)
    ensures forall x {:trigger F(ws', x)} :: F(ws', x) == if x == p then F(ws, x).(tlink := v) else F(ws, x)
  {
    ws[p := F(ws, p).(tlink := v)]
  }

  ghost predicate Distinct(q: seq<int>) {
    && (forall i, j :: 0 <= i < j < |q| ==> q[i] != q[j])
    && (forall i :: 0 <= i < |q| ==> q[i] != 0)
  }

  // ----- queues with a front and a back

  ghost predicate Linked(ws: map<int, Frame>, q: seq<int>) {
    forall i :: 0 <= i < |q| - 1 ==> F(ws, q[i]).link == q[i + 1]
  }

  /** q hangs together from front to back; the last link is not looked at. */
  ghost predicate Chain(ws: map<int, Frame>, front: int, back: int, q: seq<int>) {
    q != [] && front == q[0] && back == q[|q| - 1] && Linked(ws, q)
  }

  /** q is the queue from front to back, ended by a null link. */
  ghost predicate Queue(ws: map<int, Frame>, front: int, back: int, q: seq<int>) {
    if q == [] then front == 0 else Chain(ws, front, back, q) && F(ws, back).link == 0
  }

  lemma ChainFrame(ws: map<int, Frame>, ws': map<int, Frame>, front: int, back: int, q: seq<int>)
    requires Chain(ws, front, back, q) && forall x :: x in q ==> F(ws', x).link == F(ws, x).link
    ensures Chain(ws', front, back, q)
  {
  }

  lemma QueueFrame(ws: map<int, Frame>, ws': map<int, Frame>, front: int, back: int, q: seq<int>)
    requires Queue(ws, front, back, q) && forall x :: x in q ==> F(ws', x).link == F(ws, x).link
    ensures Queue(ws', front, back, q)
  {
  }

  /** Linking a chain after a queue, with its end made null, queues all of it. */
  lemma QueueJoin(ws: map<int, Frame>, front: int, back: int, q: seq<int>, f: int, b: int, r: seq<int>)
    requires Queue(ws, front, back, q) && Chain(ws, f, b, r) && Distinct(q + r)
    ensures var ws1 := SetLink(ws, b, 0);
            Queue(if q == [] then ws1 else SetLink(ws1, back, f), if q == [] then f else front, b, q + r)
  {
    var ws1 := SetLink(ws, b, 0);
    var ws2 := if q == [] then ws1 else SetLink(ws1, back, f);
    var s := q + r;
    assert b == s[|s| - 1];
    assert q != [] ==> back == s[|q| - 1];
    forall i | 0 <= i < |s| - 1 ensures F(ws2, s[i]).link == s[i + 1] {
      if i < |q| - 1 {
        assert s[i] == q[i] && s[i + 1] == q[i + 1];
      } else if i >= |q| {
        assert s[i] == r[i - |q|] && s[i + 1] == r[i + 1 - |q|];
      }
    }
  }

  lemma QueueAppend(ws: map<int, Frame>, front: int, back: int, q: seq<int>, p: int)
    requires Queue(ws, front, back, q) && Distinct(q + [p])
    ensures var ws1 := SetLink(ws, p, 0);
            Queue(if q == [] then ws1 else SetLink(ws1, back, p), if q == [] then p else front, p, q + [p])
  {
    assert Linked(ws, [p]);
    QueueJoin(ws, front, back, q, p, p, [p]);
  }

  lemma QueuePop(ws: map<int, Frame>, front: int, back: int, q: seq<int>)
    requires Queue(ws, front, back, q) && Distinct(q) && q != []
    ensures front == back <==> |q| == 1
    ensures Queue(ws, if front == back then 0 else F(ws, front).link, back, q[1..]) &&
            F(ws, front).link == if |q| == 1 then 0 else q[1]
  {
    var r := q[1..];
    if |q| > 1 {
      assert q[0] != q[|q| - 1];
      forall i | 0 <= i < |r| - 1 ensures F(ws, r[i]).link == r[i + 1] {
        assert r[i] == q[i + 1] && r[i + 1] == q[i + 2];
      }
    }
  }

  // ----- the timer queue

  function After(q: seq<int>, i: int): int
    requires 0 <= i < |q|
  {
    if i + 1 < |q| then q[i + 1] else 0
  }

  /** q is the list from t along the timer links. */
  ghost predicate Timed(ws: map<int, Frame>, t: int, q: seq<int>) {
    && t == (if q == [] then 0 else q[0])
    && forall i :: 0 <= i < |q| ==> F(ws, q[i]).tlink == After(q, i)
  }

  lemma TimedFrame(ws: map<int, Frame>, ws': map<int, Frame>, t: int, q: seq<int>)
    requires Timed(ws, t, q) && forall x :: x in q ==> F(ws', x).tlink == F(ws, x).tlink
    ensures Timed(ws', t, q)
  {
  }

  /** p linked in after the first n members. */
  lemma TimedInsert(ws: map<int, Frame>, t: int, q: seq<int>, p: int, n: nat)
    requires Timed(ws, t, q) && n <= |q| && Distinct(q) && p !in q && p != 0
    ensures var ws1 := SetTlink(ws, p, if n < |q| then q[n] else 0); var q' := q[..n] + [p] + q[n..];
            if n == 0 then Timed(ws1, p, q') else Timed(SetTlink(ws1, q[n - 1], p), t, q')
  {
    var ws1 := SetTlink(ws, p, if n < |q| then q[n] else 0);
    var q' := q[..n] + [p] + q[n..];
    var ws2 := if n == 0 then ws1 else SetTlink(ws1, q[n - 1], p);
    forall i | 0 <= i < |q'| ensures F(ws2, q'[i]).tlink == After(q', i) {
      if i < n {
        assert q'[i] == q[i] && q'[i] in q;
        assert i == n - 1 || q[i] != q[n - 1];
      } else if i > n {
        assert q'[i] == q[i - 1] && q'[i] in q;
        assert n > 0 ==> q[n - 1] != q[i - 1];
      }
    }
  }

  /** The member at n unlinked. */
  lemma TimedRemove(ws: map<int, Frame>, t: int, q: seq<int>, n: nat)
    requires Timed(ws, t, q) && n < |q| && Distinct(q)
    ensures F(ws, q[n]).tlink == After(q, n)
    ensures var q' := q[..n] + q[n + 1..];
            if n == 0 then Timed(ws, After(q, 0), q') else Timed(SetTlink(ws, q[n - 1], After(q, n)), t, q')
  {
    var q' := q[..n] + q[n + 1..];
    var ws1 := if n == 0 then ws else SetTlink(ws, q[n - 1], After(q, n));
    forall i | 0 <= i < |q'| ensures F(ws1, q'[i]).tlink == After(q', i) {
      if i < n {
        assert q'[i] == q[i];
        assert i == n - 1 || q[i] != q[n - 1];
      } else {
        assert q'[i] == q[i + 1];
        assert n > 0 ==> q[n - 1] != q[i + 1];
      }
    }
  }
}
