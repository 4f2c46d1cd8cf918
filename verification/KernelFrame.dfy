/** Which processes an instruction can touch. */
module KernelFrame {
  import opened Words
  import opened Kernel
  import opened KernelInv
  import opened KernelRuns

  /** All but the processes of s are where they were, with the slots they had. */
  ghost predicate Frame(k: K, k': K, s: set<int>) {
    forall x {:trigger Slots(k', x)} {:trigger At(k', x)} :: x !in s ==>
      Slots(k', x) == Slots(k, x) && At(k', x) == At(k, x)
  }

  lemma FrameChain(k: K, k1: K, k2: K, s: set<int>)
    requires Frame(k, k1, s) && Frame(k1, k2, s)
    ensures Frame(k, k2, s)
  {
    forall x | x !in s ensures Slots(k2, x) == Slots(k, x) && At(k2, x) == At(k, x) {
      assert Slots(k1, x) == Slots(k, x) && At(k1, x) == At(k, x);
    }
  }

  lemma OnlyFrame(k: K, k': K, p: int, s: set<int>)
    requires OnlyAt(k, k', p) && p in s
    ensures Frame(k, k', s)
  {
  }

  /** Workspaces and places are the same. */
  lemma SameFrame(k: K, k': K, s: set<int>)
    requires k'.ws == k.ws && k'.place == k.place
    ensures Frame(k, k', s)
  {
    forall x ensures Slots(k', x) == Slots(k, x) && At(k', x) == At(k, x) { }
  }

  // ----- who is due, and who is next

  /** Those on the timer queue whose time has come. */
  function DueSet(k: K, now: Word): set<int> {
    set x | x in k.timq && !TimeAfter(Slots(k, x).time, now)
  }

  function Front(k: K): set<int> {
    if k.runq == [] then {} else {k.runq[0]}
  }

  lemma ExpireFrame(k: K, now: Word, s: set<int>)
    requires k.timq != [] && k.timq[0] in s
    ensures var k' := Expire(k, now);
            Frame(k, k', s) && k'.timq == k.timq[1..] && k.runq <= k'.runq &&
            (k.runq == [] && k'.runq != [] ==> k'.runq[0] in s)
  {
    hide Expire, Frame, OnlyAt;
    ExpireEffect(k, now);
    OnlyFrame(k, Expire(k, now), k.timq[0], s);
  }

  /** The walk touches only those due. */
  lemma {:induction false} WalkFrame(k: K, now: Word, s: set<int>)
    requires DueSet(k, now) <= s
    ensures Frame(k, Walk(k, now), s) && (Front(k) <= s ==> Front(Walk(k, now)) <= s)
    decreases |k.timq|
  {
    hide Expire, Slots, TimeAfter;
    if k.timq != [] && !TimeAfter(Slots(k, k.timq[0]).time, now) {
      var k1 := Expire(k, now);
      assert k.timq[0] in DueSet(k, now);
      ExpireFrame(k, now, s);
      forall x | x in DueSet(k1, now) ensures x in s {
        assert x in s || (Slots(k1, x) == Slots(k, x) && x in k.timq);
        assert x in s || x in DueSet(k, now);
      }
      hide Frame, DueSet;
      WalkFrame(k1, now, s);
      FrameChain(k, k1, Walk(k, now), s);
    } else {
      SameFrame(k, k, s);
    }
  }

  lemma LoadFrame(k: K, q: int, s: set<int>)
    requires q in s
    ensures Frame(k, Load(k, q), s)
  {
    var k' := Load(k, q);
    forall x ensures Slots(k', x) == Slots(k, x) { }
  }

  lemma NextFrame(k: K, now: Word, s: set<int>)
    requires DueSet(k, now) <= s && Front(k) <= s
    ensures Frame(k, RunNext(k, now), s)
  {
    hide Frame, Load, Walk, DueSet;
    WalkFrame(k, now, s);
    SameFrame(k, k, s);
    var k1 := if k.tq then Sync(k, now) else k;
    assert Frame(k, k1, s) && Front(k1) <= s by {
      SameFrame(Walk(k, now), Walk(k, now).(tq := false), s);
      FrameChain(k, Walk(k, now), Walk(k, now).(tq := false), s);
    }
    hide Sync;
    if k1.runq != [] {
      var k2 := k1.(runq := k1.runq[1..]);
      SameFrame(k1, k2, s);
      FrameChain(k, k1, k2, s);
      LoadFrame(k2, k1.runq[0], s);
      FrameChain(k, k2, Load(k2, k1.runq[0]), s);
    }
  }

  /** The set holds the current process, those due and the next on the run queue. */
  ghost predicate Covers(k: K, now: Word, s: set<int>) {
    {k.cur} + DueSet(k, now) + Front(k) <= s
  }

  /** Only the current process may have joined the queues. */
  ghost predicate Joined(k: K, k2: K) {
    && (k2.runq == k.runq || k2.runq == k.runq + [k.cur])
    && forall x :: x in k2.timq ==> x in k.timq || x == k.cur
  }

  /** The current process is at rest, and the next one runs. */
  lemma ThenFrame(k: K, k2: K, now: Word, s: set<int>)
    requires Frame(k, k2, s) && Joined(k, k2) && Covers(k, now, s)
    ensures Frame(k, RunNext(k2, now), s)
  {
    hide TimeAfter, Slots, At;
    forall x | x in DueSet(k2, now) ensures x in s {
      assert x in s || Slots(k2, x) == Slots(k, x);
      assert x in s || x in DueSet(k, now);
    }
    assert Front(k2) <= s;
    hide Frame, RunNext, DueSet, Front;
    NextFrame(k2, now, s);
    FrameChain(k, k2, RunNext(k2, now), s);
  }

  // ----- the parts of instructions

  lemma ParkFrame(k: K, iptr: int, s: set<int>)
    requires k.cur in s
    ensures Frame(k, Park(k, iptr), s)
  {
    hide Frame, Park, OnlyAt;
    ParkEffect(k, iptr);
    OnlyFrame(k, Park(k, iptr), k.cur, s);
  }

  lemma EnqueueFrame(k: K, p: int, s: set<int>)
    requires p in s
    ensures Frame(k, Enqueue(k, p), s)
  {
    hide Frame, Enqueue, OnlyAt;
    EnqueueEffect(k, p);
    OnlyFrame(k, Enqueue(k, p), p, s);
  }

  lemma WakeFrame(k: K, q: int, s: set<int>)
    requires q in s
    ensures Frame(k, Wake(k, q), s) && Wake(k, q).runq == k.runq && Wake(k, q).timq == k.timq
  {
    var w := Slots(k, q).(state := READY);
    assert Frame(k, SetWs(k, q, w), s) && Frame(k, SetAt(SetWs(k, q, w), q, Halted), s);
    SameFrame(k, k, s);
    hide Frame, Slots;
  }

  lemma SettleFrame(k: K, p: int, c: int, sending: bool, ptr: int, len: int, s: set<int>)
    requires p in s
    ensures var k' := Settle(k, p, c, sending, ptr, len); Frame(k, k', s) && k'.runq == k.runq && k'.timq == k.timq
  {
    var k1 := SetChan(k, c, p);
    SameFrame(k, k1, s);
    assert Frame(k1, Settle(k, p, c, sending, ptr, len), s);
    hide Frame, Slots;
    FrameChain(k, k1, Settle(k, p, c, sending, ptr, len), s);
  }

  lemma ArriveFrame(k: K, p: int, c: int, sending: bool, ptr: int, len: int, s: set<int>)
    requires p in s && Untag(ChanWord(k, c)) in s
    ensures var k' := Arrive(k, p, c, sending, ptr, len); Frame(k, k', s) && k'.runq == k.runq && k'.timq == k.timq
  {
    hide Frame, Wake, Settle, Slots;
    var v := ChanWord(k, c);
    if v % 2 == 1 && v != 1 {
      WakeFrame(k, v - 1, s);
      SettleFrame(Wake(k, v - 1), p, c, sending, ptr, len, s);
      FrameChain(k, Wake(k, v - 1), Arrive(k, p, c, sending, ptr, len), s);
    } else {
      SettleFrame(k, p, c, sending, ptr, len, s);
    }
  }

  lemma LeaveFrame(k: K, c: int, s: set<int>)
    requires ChanWord(k, c) in s
    ensures var k' := Leave(k, c); Frame(k, k', s) && k'.runq == k.runq && k'.timq == k.timq && k'.cur == k.cur
  {
    var k1 := SetChan(k, c, 0);
    SameFrame(k, k1, s);
    assert Frame(k1, Leave(k, c), s);
    hide Frame;
    FrameChain(k, k1, Leave(k, c), s);
  }

  lemma EnvFrame(k: K, c: int, ptr: int, src: int, len: int, s: set<int>)
    ensures Frame(k, Say(k, c, ptr, len), s) && Frame(k, Deliver(k, c, ptr, src, len), s) && Frame(k, k, s)
    ensures Frame(k, SetMem(k, Zero(k.env.mem, ptr, len)), s) && Frame(k, SetError(k, EFLAG_CHAN), s)
    ensures Frame(k, EndAlt(k, k.cur), s)
  {
    hide Frame, Bytes, Copy, Zero, Or, Said, Heard;
    SameFrame(k, Say(k, c, ptr, len), s);
    SameFrame(k, Deliver(k, c, ptr, src, len), s);
    SameFrame(k, SetMem(k, Zero(k.env.mem, ptr, len)), s);
    SameFrame(k, SetError(k, EFLAG_CHAN), s);
    SameFrame(k, EndAlt(k, k.cur), s);
    SameFrame(k, k, s);
  }

  /** Queues and current process are the same. */
  ghost predicate SameQueued(k: K, k1: K) {
    k1.runq == k.runq && k1.timq == k.timq && k1.cur == k.cur
  }

  /** From a state k1 that differs in what scheduling does not touch, the current process blocks. */
  lemma BlockFrame(k: K, k1: K, c: int, sending: bool, ptr: int, len: int, iptr: int, now: Word, s: set<int>)
    requires Frame(k, k1, s) && SameQueued(k, k1) && k1.chan == k.chan && Covers(k, now, s) &&
             Untag(ChanWord(k, c)) in s
    ensures var k2 := Arrive(Park(k1, iptr), k.cur, c, sending, ptr, len);
            Frame(k, RunNext(k2, now), s) && Frame(k, Load(k2, Untag(ChanWord(k, c))), s)
  {
    var p, k2 := k.cur, Park(k1, iptr);
    var k3, q := Arrive(k2, p, c, sending, ptr, len), Untag(ChanWord(k, c));
    assert k2.runq == k.runq && k2.timq == k.timq && ChanWord(k2, c) == ChanWord(k, c) by { hide Slots; }
    hide Frame, Arrive, Park, RunNext, Load, DueSet, Front;
    ParkFrame(k1, iptr, s);
    FrameChain(k, k1, k2, s);
    ArriveFrame(k2, p, c, sending, ptr, len, s);
    FrameChain(k, k2, k3, s);
    ThenFrame(k, k3, now, s);
    LoadFrame(k3, q, s);
    FrameChain(k, k3, Load(k3, q), s);
  }

  /** The current process is queued, and the next one or q runs. */
  lemma QueueFrame(k: K, k1: K, iptr: int, q: int, now: Word, s: set<int>)
    requires Frame(k, k1, s) && SameQueued(k, k1) && Covers(k, now, s) && q in s
    ensures var k2 := Enqueue(Park(k1, iptr), k.cur); Frame(k, RunNext(k2, now), s) && Frame(k, Load(k2, q), s)
  {
    var p, k2 := k.cur, Park(k1, iptr);
    var k3 := Enqueue(k2, p);
    assert k2.runq == k.runq && k2.timq == k.timq && k3.timq == k.timq && k3.runq == k.runq + [p] by { hide Slots; }
    hide Frame, Enqueue, Park, RunNext, Load, DueSet, Front;
    ParkFrame(k1, iptr, s);
    FrameChain(k, k1, k2, s);
    EnqueueFrame(k2, p, s);
    FrameChain(k, k2, k3, s);
    ThenFrame(k, k3, now, s);
    LoadFrame(k3, q, s);
    FrameChain(k, k3, Load(k3, q), s);
  }

  lemma EnvSame(k: K, c: int, ptr: int, src: int, len: int)
    ensures var k1 := Say(k, c, ptr, len); SameQueued(k, k1) && k1.chan == k.chan
    ensures var k1 := Deliver(k, c, ptr, src, len); SameQueued(k, k1) && k1.chan == k.chan
    ensures SameQueued(k, SetMem(k, Zero(k.env.mem, ptr, len))) && SameQueued(k, EndAlt(k, k.cur)) && SameQueued(k, k)
  {
    hide Bytes, Copy, Zero, Said, Heard;
  }

  /** A sender or receiver leaves a channel, after the message moved. */
  lemma LeftFrame(k: K, k2: K, c: int, s: set<int>)
    requires Frame(k, k2, s) && SameQueued(k, k2) && k2.chan == k.chan && ChanWord(k, c) in s
    ensures Frame(k, Leave(k2, c), s) && SameQueued(k, Leave(k2, c))
  {
    assert ChanWord(k2, c) == ChanWord(k, c);
    hide Frame, Leave, ChanWord;
    LeaveFrame(k2, c, s);
    FrameChain(k, k2, Leave(k2, c), s);
  }

  lemma OutFrame(k: K, c: int, ptr: int, len: int, iptr: int, now: Word, s: set<int>)
    requires Covers(k, now, s) && Untag(ChanWord(k, c)) in s
    ensures Frame(k, Out(k, c, ptr, len, iptr, now), s)
  {
    hide Frame, Covers, Arrive, RunNext, Load, Enqueue, Park, Leave, Say, Deliver, SetError, Slots, ChanWord;
    var q, k1 := Untag(ChanWord(k, c)), Say(k, c, ptr, len);
    var k2 := Deliver(k1, c, Slots(k, q).state, ptr, len);
    EnvSame(k, c, ptr, 0, len);
    EnvSame(k1, c, Slots(k, q).state, ptr, len);
    EnvFrame(k, c, ptr, 0, len, s);
    EnvFrame(k1, c, Slots(k, q).state, ptr, len, s);
    FrameChain(k, k1, k2, s);
    BlockFrame(k, k1, c, true, ptr, len, iptr, now, s);
    QueueFrame(k, k, iptr, q, now, s);
    if ChanWord(k, c) % 2 == 0 {
      LeftFrame(k, k2, c, s);
      QueueFrame(k, Leave(k2, c), iptr, q, now, s);
    }
  }

  lemma InFrame(k: K, c: int, ptr: int, len: int, iptr: int, now: Word, s: set<int>)
    requires Covers(k, now, s) && Untag(ChanWord(k, c)) in s
    ensures Frame(k, In(k, c, ptr, len, iptr, now), s)
  {
    hide Frame, Covers, Arrive, RunNext, Load, Enqueue, Park, Leave, Deliver, SetError, SetMem, Slots, ChanWord;
    var q, k1 := Untag(ChanWord(k, c)), SetMem(k, Zero(k.env.mem, ptr, len));
    var k2 := Deliver(k, c, ptr, Slots(k, q).state, len);
    EnvSame(k, c, ptr, Slots(k, q).state, len);
    EnvFrame(k, c, ptr, Slots(k, q).state, len, s);
    BlockFrame(k, k, c, false, ptr, len, iptr, now, s);
    QueueFrame(k, k1, iptr, q, now, s);
    if ChanWord(k, c) % 2 == 0 {
      LeftFrame(k, k2, c, s);
      QueueFrame(k, Leave(k2, c), iptr, q, now, s);
    }
  }

  lemma XAbleFrame(k: K, c: int, iptr: int, now: Word, s: set<int>)
    requires Covers(k, now, s)
    ensures Frame(k, XAble(k, c, iptr, now), s)
  {
    var p, k1 := k.cur, Park(k, iptr);
    var k2 := AwaitChannel(k1, p, c);
    SameFrame(k, k, s);
    assert Joined(k, k2) by { hide Slots; }
    assert OnlyAt(k1, k2, p) by { hide Park; }
    hide Frame, AwaitChannel, Park, RunNext, OnlyAt, Joined;
    ParkFrame(k, iptr, s);
    OnlyFrame(k1, k2, p, s);
    FrameChain(k, k1, k2, s);
    ThenFrame(k, k2, now, s);
  }

  lemma XInFrame(k: K, c: int, ptr: int, len: int, iptr: int, now: Word, s: set<int>)
    requires Covers(k, now, s)
    ensures Frame(k, XIn(k, c, ptr, len, iptr, now), s)
  {
    var k1, v := EndAlt(k, k.cur), ChanWord(k, c);
    var k2, k3 := SetMem(k1, Zero(k.env.mem, ptr, len)), Deliver(k1, c, ptr, Slots(k, v).state, len);
    var k4 := SetTaken(k3, k.env.ext + {c});
    assert SameQueued(k, k2) && k1.env == k.env by { hide Zero, Slots, ChanWord, Deliver; }
    TakenFrame(k3, k.env.ext + {c}, s);
    hide Frame, Covers, EndAlt, RunNext, Enqueue, Park, Deliver, SetMem, SetError, SetTaken, Slots, ChanWord;
    EnvFrame(k, c, ptr, 0, len, s);
    EnvFrame(k1, c, ptr, Slots(k, v).state, len, s);
    FrameChain(k, k1, k2, s);
    FrameChain(k, k1, k3, s);
    FrameChain(k, k3, k4, s);
    QueueFrame(k, k2, iptr, k.cur, now, s) by { CurrentIn(k, now, s); }
  }

  lemma TakenFrame(k: K, ext: set<int>, s: set<int>)
    ensures Frame(k, SetTaken(k, ext), s)
  {
    hide Frame;
    SameFrame(k, SetTaken(k, ext), s);
  }

  lemma CurrentIn(k: K, now: Word, s: set<int>)
    requires Covers(k, now, s)
    ensures k.cur in s
  {
  }

  lemma XEndFrame(k: K, c: int, s: set<int>)
    requires ChanWord(k, c) in s
    ensures Frame(k, XEnd(k, c), s)
  {
    hide Frame, Leave, Enqueue;
    var v := ChanWord(k, c);
    var k1, k2 := Leave(k, c), Enqueue(Leave(k, c), v);
    SameFrame(k, k, s);
    SameFrame(k2, SetTaken(k2, k.env.ext - {c}), s);
    LeaveFrame(k, c, s);
    EnqueueFrame(k1, v, s);
    FrameChain(k, k1, k2, s);
    FrameChain(k, k2, SetTaken(k2, k.env.ext - {c}), s);
  }

  // ----- waits

  lemma InsertFrame(k: K, p: int, t: Word, iptr: int)
    ensures var k1 := TimerInsert(k, p, t, iptr);
            OnlyAt(k, k1, p) && k1.runq == k.runq && k1.cur == k.cur &&
            forall x :: x in k1.timq ==> x in k.timq || x == p
  {
    InsertMembers(k.timq, k, p, t);
    hide InsertTime;
  }

  lemma TinFrame(k: K, t: Word, iptr: int, now: Word, s: set<int>)
    requires Covers(k, now, s)
    ensures Frame(k, Tin(k, t, iptr, now), s)
  {
    var p, k1 := k.cur, Park(k, iptr);
    var k2, k3 := TimerInsert(k1, p, t, iptr), AwaitTime(k1, p, t, iptr);
    SameFrame(k, k, s);
    InsertFrame(k1, p, t, iptr);
    assert OnlyAt(k1, k3, p) && Joined(k, k3) by { hide TimerInsert; }
    hide Frame, AwaitTime, Park, RunNext, OnlyAt, Joined, TimeAfter;
    ParkFrame(k, iptr, s);
    OnlyFrame(k1, k3, p, s);
    FrameChain(k, k1, k3, s);
    ThenFrame(k, k3, now, s);
  }

  /** The current process stops, or waits in the queue of a semaphore or barrier. */
  lemma JoinFrame(k: K, x: int, iptr: int, now: Word, s: set<int>)
    requires Covers(k, now, s)
    ensures Frame(k, RunNext(JoinSem(Park(k, iptr), k.cur, x), now), s)
    ensures Frame(k, RunNext(JoinBar(Park(k, iptr), k.cur, x), now), s)
    ensures Frame(k, RunNext(Park(k, iptr), now), s)
  {
    var p, k1 := k.cur, Park(k, iptr);
    var k2, k3 := JoinSem(k1, p, x), JoinBar(k1, p, x);
    assert OnlyAt(k1, k2, p) && OnlyAt(k1, k3, p);
    assert Joined(k, k1) && Joined(k, k2) && Joined(k, k3) by { hide Slots; }
    hide Frame, JoinSem, JoinBar, Park, RunNext, OnlyAt, Joined;
    ParkFrame(k, iptr, s);
    OnlyFrame(k1, k2, p, s);
    OnlyFrame(k1, k3, p, s);
    FrameChain(k, k1, k2, s);
    FrameChain(k, k1, k3, s);
    ThenFrame(k, k1, now, s);
    ThenFrame(k, k2, now, s);
    ThenFrame(k, k3, now, s);
  }

  lemma ClaimFrame(k: K, x: int, iptr: int, now: Word, s: set<int>)
    requires Covers(k, now, s)
    ensures Frame(k, SemClaim(k, x, iptr, now), s)
  {
    SameFrame(k, SetSem(k, x, Claimed([])), s);
    hide Frame, SetSem, JoinSem, Park, RunNext;
    JoinFrame(k, x, iptr, now, s);
  }

  lemma SyncFrame(k: K, b: int, iptr: int, now: Word, s: set<int>)
    requires Covers(k, now, s) && (BarOf(k, b).count <= 1 ==> forall x :: x in BarOf(k, b).queue ==> x in s)
    ensures Frame(k, BarSync(k, b, iptr, now), s)
  {
    hide Frame, BarComplete, JoinBar, Park, RunNext;
    JoinFrame(k, b, iptr, now, s);
    if BarOf(k, b).count <= 1 { CompleteFrame(k, b, BarOf(k, b).enrolled, s); }
  }

  // ----- semaphores and barriers that let processes go

  lemma ReleaseFrame(k: K, x: int, s: set<int>)
    requires SemQueue(k, x) != [] ==> SemQueue(k, x)[0] in s
    ensures Frame(k, SemRelease(k, x), s)
  {
    SameFrame(k, SetSem(k, x, Free), s);
    if SemQueue(k, x) != [] {
      var p, k1 := SemQueue(k, x)[0], LeaveSem(k, x);
      assert OnlyAt(k, k1, p);
      hide Frame, LeaveSem, Enqueue, OnlyAt;
      OnlyFrame(k, k1, p, s);
      EnqueueFrame(k1, p, s);
      FrameChain(k, k1, Enqueue(k1, p), s);
    }
  }

  lemma {:induction false} DrainFrame(k: K, b: int, s: set<int>)
    requires forall x :: x in BarOf(k, b).queue ==> x in s
    ensures Frame(k, DrainBar(k, b), s)
    decreases |BarOf(k, b).queue|
  {
    if BarOf(k, b).queue != [] {
      var q, p, k1 := BarOf(k, b).queue, BarOf(k, b).queue[0], OffBar(k, b);
      var k2 := Enqueue(k1, p);
      assert OnlyAt(k, k1, p) && BarOf(k2, b).queue == q[1..];
      hide Frame, OffBar, Enqueue, OnlyAt, BarOf;
      OnlyFrame(k, k1, p, s);
      EnqueueFrame(k1, p, s);
      FrameChain(k, k1, k2, s);
      DrainFrame(k2, b, s);
      FrameChain(k, k2, DrainBar(k2, b), s);
    } else {
      SameFrame(k, k, s);
    }
  }

  lemma CompleteFrame(k: K, b: int, e: Word, s: set<int>)
    requires forall x :: x in BarOf(k, b).queue ==> x in s
    ensures Frame(k, BarComplete(k, b, e), s)
  {
    hide Frame, DrainBar;
    DrainFrame(k, b, s);
    SameFrame(DrainBar(k, b), BarComplete(k, b, e), s);
    FrameChain(k, DrainBar(k, b), BarComplete(k, b, e), s);
  }

  lemma CountFrame(k: K, b: int, n: Word, s: set<int>)
    ensures Frame(k, BarEnroll(k, b, n), s)
    ensures (BarOf(k, b).count <= n ==> forall x :: x in BarOf(k, b).queue ==> x in s) ==>
            Frame(k, BarResign(k, b, n), s)
  {
    hide Frame, BarComplete, Or, Wrap;
    var bar := BarOf(k, b);
    SameFrame(k, BarEnroll(k, b, n), s);
    if bar.count <= n && (forall x :: x in bar.queue ==> x in s) && n <= bar.enrolled {
      CompleteFrame(k, b, bar.enrolled - n, s);
    }
    if n > bar.enrolled || n > bar.count || bar.count - n >= 1 { SameFrame(k, BarResign(k, b, n), s); }
  }

  // ----- ALTs, and processes that come and go

  lemma OwnFrame(k: K, k': K, s: set<int>)
    requires OwnSlots(k, k', k.cur) && k.cur in s
    ensures Frame(k, k', s)
  {
  }

  lemma AltFrame(k: K, op: Op, iptr: int, now: Word, s: set<int>)
    requires k.cur in s && (op.AltOp? || op.Enb? || op.Dis? || op.AltEndOp?)
    ensures Frame(k, Step(k, op, iptr, now), s)
  {
    hide AltStart, Enable, Disable, AltEnd, Slots, OwnSlots, Frame;
    var k' := Step(k, op, iptr, now);
    match op
    case AltOp(timed) => AltStartEffect(k, timed); OwnFrame(k, k', s);
    case Enb(g, on) => if on { EnableEffect(k, g); OwnFrame(k, k', s); } else { SameFrame(k, k, s); }
    case Dis(g, on, target) => if on { DisableEffect(k, g, target); OwnFrame(k, k', s); } else { SameFrame(k, k', s); }
    case AltEndOp =>
      if Slots(k, k.cur).temp != NONE_SELECTED { AltEndEffect(k, iptr); OwnFrame(k, k', s); }
      else { ErrorFrame(k, iptr, s); }
  }

  lemma ErrorFrame(k: K, iptr: int, s: set<int>)
    requires Slots(k, k.cur).temp == NONE_SELECTED
    ensures Frame(k, AltEnd(k, iptr), s)
  {
    hide Or;
    SameFrame(k, AltEnd(k, iptr), s);
  }

  lemma SleepFrame(k: K, k1: K, iptr: int, now: Word, s: set<int>)
    requires Frame(k, k1, s) && Covers(k, now, s) && k1.cur == k.cur && k1.runq == k.runq
    requires forall x :: x in k1.timq ==> x in k.timq || x == k.cur
    ensures Frame(k, RunNext(Sleep(k1, iptr), now), s)
  {
    hide Frame, Sleep, RunNext, OnlyAt;
    var k2 := Sleep(k1, iptr);
    SleepEffect(k1, iptr);
    OnlyFrame(k1, k2, k.cur, s);
    FrameChain(k, k1, k2, s);
    ThenFrame(k, k2, now, s);
  }

  lemma AltWtFrame(k: K, iptr: int, now: Word, s: set<int>)
    requires Covers(k, now, s)
    ensures Frame(k, AltWt(k, iptr, now), s) && Frame(k, TaltWt(k, iptr, now), s)
  {
    hide Frame, Proceed, Sleep, RunNext, Slots, TimerInsert, TimeAfter, OwnSlots, Covers;
    var p, t := k.cur, Wrap(Slots(k, k.cur).time + 1);
    var k1 := TimerInsert(k, p, t, iptr);
    CurrentIn(k, now, s);
    ProceedEffect(k, false, now);
    ProceedEffect(k, true, now);
    OwnFrame(k, Proceed(k, false, now), s);
    OwnFrame(k, Proceed(k, true, now), s);
    SameFrame(k, k, s);
    SleepFrame(k, k, iptr, now, s);
    InsertFrame(k, p, t, iptr);
    OnlyFrame(k, k1, p, s);
    SleepFrame(k, k1, iptr, now, s);
  }

  lemma StartFrame(k: K, p: int, at: int, s: set<int>)
    requires p in s
    ensures Frame(k, StartP(k, p, at), s)
  {
    var k1 := SetWs(k, p, Slots(k, p).(iptr := at));
    assert Frame(k, k1, s);
    hide Frame, Enqueue, SetWs;
    EnqueueFrame(k1, p, s);
    FrameChain(k, k1, Enqueue(k1, p), s);
  }

  lemma AdjustFrame(k: K, p: int, s: set<int>)
    requires p in s && k.cur in s
    ensures Frame(k, Adjust(k, p), s)
  {
    var k' := Adjust(k, p);
    forall x ensures Slots(k', x) == Slots(k, x) { }
  }

  lemma EndFrame(k: K, par: int, resume: int, now: Word, s: set<int>)
    requires Covers(k, now, s) && (JoinCount(k, par) == 1 ==> par in s)
    ensures Frame(k, EndP(k, par, resume, now), s)
  {
    hide Frame, RunNext, Slots, At, JoinCount, Covers, SetAt;
    var n, k1 := JoinCount(k, par), SetAt(k, k.cur, Halted).(cur := 0);
    CurrentIn(k, now, s);
    EndedFrame(k, par, n - 1, s);
    if n == 1 {
      EndedFrame(k, par, 0, s);
      ResumeFrame(SetJoin(k1, par, 0), par, resume, s);
      FrameChain(k, SetJoin(k1, par, 0), EndP(k, par, resume, now), s);
    } else {
      ThenFrame(k, SetJoin(k1, par, n - 1), now, s);
    }
  }

  lemma EndedFrame(k: K, par: int, n: int, s: set<int>)
    requires k.cur in s
    ensures var k2 := SetJoin(SetAt(k, k.cur, Halted).(cur := 0), par, n); Frame(k, k2, s) && Joined(k, k2)
  {
    var k2 := SetJoin(SetAt(k, k.cur, Halted).(cur := 0), par, n);
    forall x ensures Slots(k2, x) == Slots(k, x) { }
  }

  lemma ResumeFrame(k: K, p: int, iptr: int, s: set<int>)
    requires p in s
    ensures Frame(k, SetAt(k, p, Running).(cur := p, iptr := iptr), s)
  {
    forall x ensures Slots(SetAt(k, p, Running).(cur := p, iptr := iptr), x) == Slots(k, x) { }
  }

  // ----- every instruction

  /** The processes an instruction names or finds: those it starts, meets in a channel or frees from a queue. */
  function Partners(k: K, op: Op): set<int> {
    match op
    case StartOp(p, _) => {p}
    case RunOp(p) => {p}
    case EndOp(par) => if JoinCount(k, par) == 1 then {par} else {}
    case AdjustOp(p) => {p}
    case OutOp(c, _, _) => {Untag(ChanWord(k, c))}
    case InOp(c, _, _) => {Untag(ChanWord(k, c))}
    case XEndOp(c) => {ChanWord(k, c)}
    case ReleaseOp(s) => if SemQueue(k, s) == [] then {} else {SemQueue(k, s)[0]}
    case SyncOp(b) => if BarOf(k, b).count > 1 then {} else set x | x in BarOf(k, b).queue
    case ResignOp(b, n) => if BarOf(k, b).count > n then {} else set x | x in BarOf(k, b).queue
    case _ => {}
  }

  function Touched(k: K, op: Op, now: Word): set<int> {
    {k.cur} + Partners(k, op) + DueSet(k, now) + Front(k)
  }

  /**
   An instruction touches the current process, those it names or finds, those whose
   time has come and the next to run. Everybody else is where he was, with the slots
   he had.
   */
  lemma StepFrame(k: K, op: Op, iptr: int, now: Word)
    ensures Frame(k, Step(k, op, iptr, now), Touched(k, op, now))
  {
    var s := Touched(k, op, now);
    hide DueSet, Front, Step, Frame;
    assert Covers(k, now, s) && Partners(k, op) <= s;
    hide Touched, Covers, Partners;
    match op
    case AltOp(_) => CurrentIn(k, now, s); AltFrame(k, op, iptr, now, s);
    case Enb(_, _) => CurrentIn(k, now, s); AltFrame(k, op, iptr, now, s);
    case Dis(_, _, _) => CurrentIn(k, now, s); AltFrame(k, op, iptr, now, s);
    case AltEndOp => CurrentIn(k, now, s); AltFrame(k, op, iptr, now, s);
    case CountOp(_, _) => MarkFrame(k, op, iptr, now, s);
    case ReturnOp(_) => CurrentIn(k, now, s); MarkFrame(k, op, iptr, now, s);
    case Compute(_) => MarkFrame(k, op, iptr, now, s);
    case _ => WaitFrame(k, op, iptr, now, s);
  }

  lemma WaitFrame(k: K, op: Op, iptr: int, now: Word, s: set<int>)
    requires Covers(k, now, s) && Partners(k, op) <= s
    requires !op.AltOp? && !op.Enb? && !op.Dis? && !op.AltEndOp? && !op.CountOp? && !op.ReturnOp? && !op.Compute?
    ensures Frame(k, Step(k, op, iptr, now), s)
  {
    hide Slots, At, Frame, Covers, StartP, EndP, Adjust, AltWt, TaltWt, Out, In, XAble, XIn, XEnd, Tin, SemClaim,
         SemRelease, BarSync, BarEnroll, BarResign, RunNext, Enqueue, Park, JoinCount, ChanWord, BarOf, SemQueue,
         Untag;
    CurrentIn(k, now, s);
    match op
    case StartOp(p, at) => StartFrame(k, p, at, s);
    case StopOp => JoinFrame(k, 0, iptr, now, s);
    case RunOp(p) => EnqueueFrame(k, p, s);
    case EndOp(par) => EndFrame(k, par, Slots(k, par).temp, now, s);
    case AdjustOp(p) => AdjustFrame(k, p, s);
    case AltWtOp => AltWtFrame(k, iptr, now, s);
    case TaltWtOp => AltWtFrame(k, iptr, now, s);
    case OutOp(c, ptr, len) => OutFrame(k, c, ptr, len, iptr, now, s);
    case InOp(c, ptr, len) => InFrame(k, c, ptr, len, iptr, now, s);
    case XAbleOp(c) => XAbleFrame(k, c, iptr, now, s);
    case XInOp(c, ptr, len) => XInFrame(k, c, ptr, len, iptr, now, s);
    case XEndOp(c) => XEndFrame(k, c, s);
    case TinOp(t) => TinFrame(k, t, iptr, now, s);
    case ClaimOp(x) => ClaimFrame(k, x, iptr, now, s);
    case ReleaseOp(x) => ReleaseFrame(k, x, s);
    case SyncOp(b) => SyncFrame(k, b, iptr, now, s);
    case EnrollOp(b, n) => CountFrame(k, b, n, s);
    case ResignOp(b, n) => CountFrame(k, b, n, s);
    case Idle => IdleFrame(k, now, s);
  }

  lemma MarkFrame(k: K, op: Op, iptr: int, now: Word, s: set<int>)
    requires op.CountOp? || (op.ReturnOp? && k.cur in s) || op.Compute?
    ensures Frame(k, Step(k, op, iptr, now), s)
  {
    if op.ReturnOp? {
      assert Frame(k, SetReturn(k, op.at), s);
    } else {
      hide Frame;
      SameFrame(k, Step(k, op, iptr, now), s);
    }
  }

  lemma IdleFrame(k: K, now: Word, s: set<int>)
    requires Covers(k, now, s)
    ensures Frame(k, RunNext(k, now), s)
  {
    hide Frame, RunNext, DueSet, Front;
    NextFrame(k, now, s);
  }
}
