/** What the timer walk, semaphores and barriers do to the run queue. */
module KernelQueues {
  import opened Words
  import opened Kernel
  import opened KernelInv
  import opened KernelRuns

  // ----- the timer walk

  /** Those of the first n processes of q that are not ready already, in order. */
  function Sleepers(k: K, q: seq<int>): seq<int>
    decreases |q|
  {
    if q == [] then []
    else (if Slots(k, q[0]).state == READY then [] else [q[0]]) + Sleepers(k, q[1..])
  }

  /** How many processes at the front of the timer queue are due. */
  function Expired(k: K, q: seq<int>, now: Word): nat
    decreases |q|
  {
    if q == [] || TimeAfter(Slots(k, q[0]).time, now) then 0 else 1 + Expired(k, q[1..], now)
  }

  lemma {:induction false} SleepersSame(k: K, k': K, q: seq<int>)
    requires forall x :: x in q ==> Slots(k', x) == Slots(k, x)
    ensures Sleepers(k', q) == Sleepers(k, q)
    decreases |q|
  {
    if q != [] { SleepersSame(k, k', q[1..]); }
  }

  lemma {:induction false} ExpiredSame(k: K, k': K, q: seq<int>, now: Word)
    requires forall x :: x in q ==> Slots(k', x) == Slots(k, x)
    ensures Expired(k', q, now) == Expired(k, q, now)
    decreases |q|
  {
    if q != [] { ExpiredSame(k, k', q[1..], now); }
  }

  lemma {:induction false} ExpiredBound(k: K, q: seq<int>, now: Word)
    ensures Expired(k, q, now) <= |q|
    decreases |q|
  {
    if q != [] { ExpiredBound(k, q[1..], now); }
  }

  /** The walk takes the due processes off the front, and queues those of them not already ready, in order. */
  lemma {:induction false} WalkTakes(k: K, now: Word)
    requires NoDup(k.timq)
    ensures Expired(k, k.timq, now) <= |k.timq|
    ensures var n, k' := Expired(k, k.timq, now), Walk(k, now);
            k'.timq == k.timq[n..] && k'.runq == k.runq + Sleepers(k, k.timq[..n]) && k'.cur == k.cur
    decreases |k.timq|
  {
    hide TimeAfter, Expire, Slots;
    var q, n := k.timq, Expired(k, k.timq, now);
    ExpiredBound(k, q, now);
    if q == [] || TimeAfter(Slots(k, q[0]).time, now) {
      assert q[..0] == [];
    } else {
      var k1 := Expire(k, now);
      ExpireEffect(k, now);
      TailNoDup(q);
      ExpiredSame(k, k1, q[1..], now);
      WalkTakes(k1, now);
      assert q[..n][0] == q[0] && q[..n][1..] == q[1..][..n - 1];
      SleepersSame(k, k1, q[1..][..n - 1]);
    }
  }

  /**
   A process the walk takes off learns the time: of its timer guards those due are
   ready, and it is awake.
   */
  lemma {:induction false} WalkMarks(k: K, now: Word, i: nat)
    requires NoDup(k.timq) && i < Expired(k, k.timq, now) <= |k.timq|
    ensures var k', p := Walk(k, now), k.timq[i];
            Slots(k', p).state == READY && Slots(k', p).time == now &&
            forall t :: Ready(k', p, Timer(t)) <==> !TimeAfter(t, now)
    decreases |k.timq|
  {
    hide TimeAfter, Expire, Slots;
    var q, p, k1 := k.timq, k.timq[i], Expire(k, now);
    ExpireEffect(k, now);
    TailNoDup(q);
    ExpiredSame(k, k1, q[1..], now);
    if i > 0 {
      assert q[1..][i - 1] == p;
      ExpiredBound(k1, q[1..], now);
      WalkMarks(k1, now, i - 1);
    } else {
      WalkLeaves(k1, now, p);
    }
  }

  lemma {:induction false} WalkLeaves(k: K, now: Word, p: int)
    requires p !in k.timq
    ensures Slots(Walk(k, now), p) == Slots(k, p)
    decreases |k.timq|
  {
    hide TimeAfter, Expire, Slots;
    if k.timq != [] && !TimeAfter(Slots(k, k.timq[0]).time, now) {
      ExpireEffect(k, now);
      WalkLeaves(Expire(k, now), now, p);
    }
  }

  /** With the queue in order and times in one half of the clock, exactly the due processes are taken. */
  lemma WalkTakesDue(k: K, now: Word, i: nat)
    requires Inv(k) && HalfRange(k, k.timq, {now}) && i < |k.timq|
    ensures i < Expired(k, k.timq, now) <==> !TimeAfter(Slots(k, k.timq[i]).time, now)
  {
    var base: Word :| InWindow(k, k.timq, {now}, base);
    assert Sorted(k, k.timq);
    hide Inv;
    DueFirst(k, k.timq, now, base, i);
  }

  lemma {:induction false} DueFirst(k: K, q: seq<int>, now: Word, base: Word, i: nat)
    requires Sorted(k, q) && InWindow(k, q, {now}, base) && i < |q|
    ensures i < Expired(k, q, now) <==> !TimeAfter(Slots(k, q[i]).time, now)
    decreases |q|
  {
    hide TimeAfter, Ahead;
    var t0, ti := Slots(k, q[0]).time, Slots(k, q[i]).time;
    LaterIsFurther(t0, ti, base);
    LaterIsFurther(ti, now, base);
    LaterIsFurther(t0, now, base);
    assert i > 0 ==> !TimeAfter(t0, ti);
    if !TimeAfter(t0, now) && i > 0 {
      TailSorted(k, q);
      assert q[i] == q[1..][i - 1];
      DueFirst(k, q[1..], now, base, i - 1);
    }
  }

  // ----- semaphores are first come, first served

  /** A claim of a held semaphore joins the back of its queue; a release queues the front and keeps the rest in order.
   */
  lemma SemaphoreOrder(k: K, s: int, iptr: int)
    requires SemOf(k, s).Claimed?
    ensures SemQueue(JoinSem(Park(k, iptr), k.cur, s), s) == SemQueue(k, s) + [k.cur]
    ensures var q, k' := SemQueue(k, s), SemRelease(k, s);
            if q == [] then SemOf(k', s) == Free && k'.runq == k.runq
            else SemOf(k', s) == Claimed(q[1..]) && k'.runq == k.runq + [q[0]] && At(k', q[0]) == Queued
  {
    ParkSem(k, iptr, s);
  }

  lemma ParkSem(k: K, iptr: int, s: int)
    ensures SemQueue(Park(k, iptr), s) == SemQueue(k, s)
  {
  }

  // ----- barriers

  /** Those still awaited and those waiting are all the enrolled, and somebody is awaited unless nobody is enrolled. */
  ghost predicate CountsOk(k: K) {
    forall b :: CountOk(BarOf(k, b))
  }

  predicate CountOk(bar: Bar) {
    bar.count + |bar.queue| == bar.enrolled && (bar.enrolled > 0 ==> bar.count > 0)
  }

  lemma {:induction false} DrainQueues(k: K, b: int)
    ensures var k' := DrainBar(k, b);
            k'.runq == k.runq + BarOf(k, b).queue && BarOf(k', b).queue == [] && k'.cur == k.cur
    ensures forall x :: x != b ==> BarOf(DrainBar(k, b), x) == BarOf(k, x)
    decreases |BarOf(k, b).queue|
  {
    if BarOf(k, b).queue != [] {
      var k1 := Enqueue(OffBar(k, b), BarOf(k, b).queue[0]);
      assert k1.runq == k.runq + [BarOf(k, b).queue[0]] && BarOf(k1, b).queue == BarOf(k, b).queue[1..] &&
             k1.cur == k.cur;
      assert forall x :: x != b ==> BarOf(k1, x) == BarOf(k, x);
      hide Enqueue, OffBar;
      DrainQueues(k1, b);
    }
  }

  /**
   A process that arrives at a barrier waits unless it is the last awaited; the last
   lets all the waiting go, in order of arrival, and the next phase awaits everybody.
   */
  lemma SyncPhase(k: K, b: int, iptr: int, now: Word)
    requires CountsOk(k)
    ensures var bar, k' := BarOf(k, b), BarSync(k, b, iptr, now);
            if |bar.queue| + 1 < bar.enrolled then
              k' == RunNext(JoinBar(Park(k, iptr), k.cur, b), now) &&
              BarOf(k', b) == Bar(bar.enrolled, bar.count - 1, bar.queue + [k.cur])
            else k'.runq == k.runq + bar.queue && BarOf(k', b) == Bar(bar.enrolled, bar.enrolled, []) && k'.cur == k.cur
  {
    var bar := BarOf(k, b);
    assert CountOk(bar);
    if bar.count > 1 {
      var k1 := JoinBar(Park(k, iptr), k.cur, b);
      ParkBar(k, iptr, b);
      assert BarOf(k1, b) == Bar(bar.enrolled, bar.count - 1, bar.queue + [k.cur]);
      hide JoinBar, Park, RunNext;
      RunNextWorld(k1, now);
      SameBar(k1, RunNext(k1, now), b);
    } else {
      hide DrainBar;
      DrainQueues(k, b);
    }
  }

  lemma ParkBar(k: K, iptr: int, b: int)
    ensures BarOf(Park(k, iptr), b) == BarOf(k, b)
  {
  }

  lemma SameBar(k: K, k': K, b: int)
    requires k'.bar == k.bar
    ensures BarOf(k', b) == BarOf(k, b)
  {
  }

  /** Resignations that leave nobody awaited complete the phase too; others only lower the counts. */
  lemma ResignPhase(k: K, b: int, n: Word)
    requires CountsOk(k) && n <= BarOf(k, b).enrolled && n <= BarOf(k, b).count
    ensures var bar, k' := BarOf(k, b), BarResign(k, b, n);
            if n < bar.count then k'.runq == k.runq && BarOf(k', b) == Bar(bar.enrolled - n, bar.count - n, bar.queue)
            else k'.runq == k.runq + bar.queue && BarOf(k', b) == Bar(bar.enrolled - n, bar.enrolled - n, [])
  {
    hide DrainBar;
    DrainQueues(k, b);
  }

  // ----- barrier counts in every run

  /** Instructions that are not barrier operations leave every barrier alone. */
  lemma OtherBars(k: K, op: Op, iptr: int, now: Word)
    requires Inv(k) && Legal(k, op, now) && !op.SyncOp? && !op.EnrollOp? && !op.ResignOp?
    ensures Step(k, op, iptr, now).bar == k.bar
  {
    hide Inv, Legal, Step;
    if op.AltOp? || op.Enb? || op.Dis? || op.AltEndOp? {
      OwnAltBars(k, op, iptr, now);
    } else if op.OutOp? || op.InOp? || op.XAbleOp? || op.XInOp? || op.XEndOp? {
      ChannelBars(k, op, iptr, now);
    } else {
      ProcessBars(k, op, iptr, now);
    }
  }

  /** Channel instructions. */
  lemma ChannelBars(k: K, op: Op, iptr: int, now: Word)
    requires op.OutOp? || op.InOp? || op.XAbleOp? || op.XInOp? || op.XEndOp?
    ensures Step(k, op, iptr, now).bar == k.bar
  {
    hide Out, In, XAble, XIn, XEnd;
    match op
    case OutOp(c, ptr, len) => OutBars(k, c, ptr, len, iptr, now);
    case InOp(c, ptr, len) => InBars(k, c, ptr, len, iptr, now);
    case XAbleOp(c) => XAbleBars(k, c, iptr, now);
    case XInOp(c, ptr, len) => XInBars(k, c, ptr, len, iptr, now);
    case XEndOp(c) => QueueBars(k, c);
  }

  /** Processes, waits of an ALT, times and semaphores. */
  lemma ProcessBars(k: K, op: Op, iptr: int, now: Word)
    requires !op.SyncOp? && !op.EnrollOp? && !op.ResignOp? && !op.AltOp? && !op.Enb? && !op.Dis? && !op.AltEndOp?
    requires !op.OutOp? && !op.InOp? && !op.XAbleOp? && !op.XInOp? && !op.XEndOp?
    ensures Step(k, op, iptr, now).bar == k.bar
  {
    hide RunNext, StartP, Enqueue, Park, Adjust, EndP, SemRelease, SetMem, SetJoin, SetReturn, AltWt, TaltWt, Tin,
         SemClaim, Slots;
    match op
    case StartOp(p, at) => MoveBars(k, p, at);
    case StopOp => WaitBars(k, iptr, 0, 0, now);
    case RunOp(p) => MoveBars(k, p, 0);
    case EndOp(par) => EndBars(k, par, Slots(k, par).temp, now);
    case AdjustOp(p) => MoveBars(k, p, 0);
    case AltWtOp => AltWtBars(k, iptr, now);
    case TaltWtOp => TaltWtBars(k, iptr, now);
    case TinOp(t) => BlockingBars(k, iptr, t, 0, now);
    case ClaimOp(s) => BlockingBars(k, iptr, 0, s, now);
    case ReleaseOp(s) => QueueBars(k, s);
    case CountOp(par, n) => MarkBars(k, par, n, map[]);
    case ReturnOp(at) => MarkBars(k, at, 0, map[]);
    case Compute(mem) => MarkBars(k, 0, 0, mem);
    case Idle => NextBars(k, now);
  }

  /** Instructions that touch only the current process's own ALT. */
  lemma OwnAltBars(k: K, op: Op, iptr: int, now: Word)
    requires Inv(k) && Legal(k, op, now) && (op.AltOp? || op.Enb? || op.Dis? || op.AltEndOp?)
    ensures Step(k, op, iptr, now).bar == k.bar
  {
    hide Inv, HalfRange, AltStart, Enable, Disable, AltEnd, MayEnable, MayDisable, OwnSlots, Answer, Slots, RunNext;
    match op
    case AltOp(timed) => AltStartEffect(k, timed); OwnBars(k, AltStart(k, timed), k.cur);
    case Enb(g, on) => if on { EnableEffect(k, g); OwnBars(k, Enable(k, g), k.cur); }
    case Dis(g, on, target) =>
      if on {
        DisableEffect(k, g, target);
        OwnBars(k, Disable(k, g, target), k.cur);
      } else { MarkBars(k, 0, 0, map[]); }
    case AltEndOp => AltEndsWell(k, iptr); AltEndEffect(k, iptr); OwnBars(k, AltEnd(k, iptr), k.cur);
  }

  /** Waiting for a time and for a semaphore. */
  lemma BlockingBars(k: K, iptr: int, t: Word, s: int, now: Word)
    ensures Tin(k, t, iptr, now).bar == k.bar && SemClaim(k, s, iptr, now).bar == k.bar
  {
    hide RunNext, Park, AwaitTime, JoinSem, TimeAfter, SemOf, SetSem;
    WaitBars(k, iptr, s, t, now);
    QueueBars(k, s);
  }

  lemma NextBars(k: K, now: Word)
    ensures RunNext(k, now).bar == k.bar
  {
    hide RunNext;
    RunNextWorld(k, now);
  }

  lemma MoveBars(k: K, p: int, at: int)
    ensures StartP(k, p, at).bar == k.bar && Enqueue(k, p).bar == k.bar && Adjust(k, p).bar == k.bar
  {
    hide StartP, Enqueue, Adjust;
    MoveWorld(k, p, at, 0);
  }

  /** Giving up the processor, for a time or to a semaphore. */
  lemma WaitBars(k: K, iptr: int, s: int, t: Word, now: Word)
    ensures RunNext(Park(k, iptr), now).bar == k.bar &&
            RunNext(AwaitTime(Park(k, iptr), k.cur, t, iptr), now).bar == k.bar
    ensures RunNext(JoinSem(Park(k, iptr), k.cur, s), now).bar == k.bar
  {
    hide RunNext, Park, AwaitTime, SemQueue;
    var k1 := Park(k, iptr);
    MoveWorld(k, 0, 0, iptr);
    AwaitWorld(k1, k.cur, t, iptr);
    assert JoinSem(k1, k.cur, s).bar == k1.bar;
    hide JoinSem;
    NextBars(k1, now);
    NextBars(AwaitTime(k1, k.cur, t, iptr), now);
    NextBars(JoinSem(k1, k.cur, s), now);
  }

  lemma EndBars(k: K, par: int, resume: int, now: Word)
    ensures EndP(k, par, resume, now).bar == k.bar
  {
    hide RunNext, At;
    NextBars(SetJoin(SetAt(k, k.cur, Halted).(cur := 0), par, JoinCount(k, par) - 1), now);
  }

  /** Letting a sender or a claimer go, and taking a free semaphore. */
  lemma QueueBars(k: K, x: int)
    ensures XEnd(k, x).bar == k.bar && SemRelease(k, x).bar == k.bar && SetSem(k, x, Claimed([])).bar == k.bar
  {
    hide SemQueue, Enqueue;
    EnqueueWorld(Leave(k, x), ChanWord(k, x));
    if SemQueue(k, x) != [] { EnqueueWorld(LeaveSem(k, x), SemQueue(k, x)[0]); }
  }

  lemma MarkBars(k: K, par: int, n: int, mem: map<int, int>)
    ensures SetReturn(k, par).bar == k.bar && SetJoin(k, par, n).bar == k.bar && SetMem(k, mem).bar == k.bar &&
            Answer(k, false).bar == k.bar
  {
  }

  lemma OwnBars(k: K, k': K, p: int)
    requires OwnSlots(k, k', p)
    ensures k'.bar == k.bar
  {
  }

  lemma AltWtBars(k: K, iptr: int, now: Word)
    ensures AltWt(k, iptr, now).bar == k.bar
  {
    hide Proceed, Sleep, RunNext;
    ProceedEffect(k, false, now);
    SleepEffect(k, iptr);
    RunNextWorld(Sleep(k, iptr), now);
  }

  lemma TaltWtBars(k: K, iptr: int, now: Word)
    ensures TaltWt(k, iptr, now).bar == k.bar
  {
    var k1 := TimerInsert(k, k.cur, Wrap(Slots(k, k.cur).time + 1), iptr);
    hide Proceed, Sleep, RunNext, TimeAfter, InsertTime;
    assert k1.bar == k.bar;
    hide TimerInsert, Slots;
    ProceedEffect(k, true, now);
    SleepEffect(k, iptr);
    SleepEffect(k1, iptr);
    RunNextWorld(Sleep(k, iptr), now);
    RunNextWorld(Sleep(k1, iptr), now);
  }

  lemma BlockBars(k: K, c: int, sending: bool, ptr: int, len: int, iptr: int, now: Word, q: int)
    ensures var k2 := Arrive(Park(k, iptr), k.cur, c, sending, ptr, len);
            RunNext(k2, now).bar == k.bar && Load(k2, q).bar == k.bar
    ensures RunNext(Enqueue(Park(k, iptr), k.cur), now).bar == k.bar &&
            Load(Enqueue(Park(Leave(k, c), iptr), k.cur), q).bar == k.bar
  {
    hide Slots, At, ChanWord;
    var k2 := Arrive(Park(k, iptr), k.cur, c, sending, ptr, len);
    ArriveBars(Park(k, iptr), k.cur, c, sending, ptr, len);
    hide RunNext, Arrive;
    RunNextWorld(k2, now);
    RunNextWorld(Enqueue(Park(k, iptr), k.cur), now);
  }

  lemma ArriveBars(k: K, p: int, c: int, sending: bool, ptr: int, len: int)
    ensures Arrive(k, p, c, sending, ptr, len).bar == k.bar
  {
    hide Slots, At;
  }

  lemma EnvBars(k: K, c: int, ptr: int, src: int, len: int)
    ensures Say(k, c, ptr, len).bar == k.bar && Say(k, c, ptr, len).cur == k.cur
    ensures Deliver(k, c, ptr, src, len).bar == k.bar && Deliver(k, c, ptr, src, len).cur == k.cur
    ensures SetError(k, EFLAG_CHAN).bar == k.bar
    ensures SetMem(k, Zero(k.env.mem, ptr, len)).bar == k.bar && SetMem(k, Zero(k.env.mem, ptr, len)).cur == k.cur
  {
    hide Copy, Bytes, Zero;
  }

  lemma OutBars(k: K, c: int, ptr: int, len: int, iptr: int, now: Word)
    ensures Out(k, c, ptr, len, iptr, now).bar == k.bar
  {
    hide Arrive, RunNext, Load, Enqueue, Park, Leave, Say, Deliver, SetError, Slots;
    var q, k1 := Untag(ChanWord(k, c)), Say(k, c, ptr, len);
    var k2 := Deliver(k1, c, Slots(k, q).state, ptr, len);
    EnvBars(k, c, ptr, 0, len);
    EnvBars(k1, c, Slots(k, q).state, ptr, len);
    BlockBars(k1, c, true, ptr, len, iptr, now, q);
    BlockBars(k, c, true, ptr, len, iptr, now, q);
    BlockBars(k2, c, true, ptr, len, iptr, now, q);
  }

  lemma InBars(k: K, c: int, ptr: int, len: int, iptr: int, now: Word)
    ensures In(k, c, ptr, len, iptr, now).bar == k.bar
  {
    hide Arrive, RunNext, Load, Enqueue, Park, Leave, Deliver, SetError, SetMem, Slots;
    var q := Untag(ChanWord(k, c));
    var k1, k2 := Deliver(k, c, ptr, Slots(k, q).state, len), SetMem(k, Zero(k.env.mem, ptr, len));
    EnvBars(k, c, ptr, Slots(k, q).state, len);
    BlockBars(k, c, false, ptr, len, iptr, now, q);
    BlockBars(k1, c, false, ptr, len, iptr, now, q);
    BlockBars(k2, c, false, ptr, len, iptr, now, q);
  }

  lemma XAbleBars(k: K, c: int, iptr: int, now: Word)
    ensures XAble(k, c, iptr, now).bar == k.bar
  {
    var k2 := AwaitChannel(Park(k, iptr), k.cur, c);
    assert k2.bar == k.bar;
    hide AwaitChannel, Park, RunNext;
    RunNextWorld(k2, now);
  }

  lemma XInBars(k: K, c: int, ptr: int, len: int, iptr: int, now: Word)
    ensures XIn(k, c, ptr, len, iptr, now).bar == k.bar
  {
    var k1, v := EndAlt(k, k.cur), ChanWord(k, c);
    assert k1.bar == k.bar && k1.cur == k.cur && k1.env == k.env;
    hide EndAlt, RunNext, Enqueue, Park, Deliver, SetMem, SetError, Slots;
    EnvBars(k1, c, ptr, Slots(k, v).state, len);
    EnvBars(k, c, ptr, Slots(k, v).state, len);
    BlockBars(SetMem(k1, Zero(k.env.mem, ptr, len)), c, false, ptr, len, iptr, now, 0);
  }

  lemma StepCounts(k: K, op: Op, iptr: int, now: Word)
    requires Inv(k) && Legal(k, op, now) && CountsOk(k)
    ensures CountsOk(Step(k, op, iptr, now))
  {
    var k' := Step(k, op, iptr, now);
    hide Inv, HalfRange, BarSync, BarEnroll, BarResign, StartP, EndP, Adjust, AltStart, Enable, AltWt, TaltWt,
         Disable, AltEnd, Out, In, XAble, XIn, XEnd, Tin, SemClaim, SemRelease, RunNext, Enqueue, Park, MayEnable,
         MayDisable, MayOutput, MayInput, MayXIn, BarOf;
    forall b ensures CountOk(BarOf(k', b)) {
      assert CountOk(BarOf(k, b));
      match op
      case SyncOp(x) => SyncCount(k, x, iptr, now, b);
      case EnrollOp(x, n) => EnrollCount(k, x, n, b);
      case ResignOp(x, n) => ResignCount(k, x, n, b);
      case _ => OtherBars(k, op, iptr, now); SameBar(k, k', b);
    }
  }

  lemma SyncCount(k: K, x: int, iptr: int, now: Word, b: int)
    requires CountsOk(k)
    ensures CountOk(BarOf(Step(k, SyncOp(x), iptr, now), b))
  {
    assert CountOk(BarOf(k, b));
    if b == x { SyncPhase(k, x, iptr, now); } else { SyncElsewhere(k, x, iptr, now, b); }
  }

  lemma SyncElsewhere(k: K, x: int, iptr: int, now: Word, b: int)
    requires b != x
    ensures BarOf(BarSync(k, x, iptr, now), b) == BarOf(k, b)
  {
    if BarOf(k, x).count > 1 {
      var k1 := JoinBar(Park(k, iptr), k.cur, x);
      ParkBar(k, iptr, b);
      assert BarOf(k1, b) == BarOf(k, b);
      hide JoinBar, Park, RunNext;
      RunNextWorld(k1, now);
      SameBar(k1, RunNext(k1, now), b);
    } else {
      hide DrainBar;
      DrainQueues(k, x);
    }
  }

  /** An enrolment keeps the counts right, and so does one refused. */
  lemma EnrollCount(k: K, x: int, n: Word, b: int)
    requires CountsOk(k)
    ensures CountOk(BarOf(BarEnroll(k, x, n), b))
  {
    var bar := BarOf(k, x);
    assert CountOk(BarOf(k, b)) && CountOk(bar);
    if bar.enrolled + n < WORD_MOD {
      WrapWitness(bar.count + n, 0, bar.count + n);
    } else {
      ErrorBars(k, b);
    }
  }

  lemma ErrorBars(k: K, b: int)
    ensures BarOf(SetError(k, EFLAG_BAR), b) == BarOf(k, b)
  {
    hide Or;
  }

  /** A resignation keeps the counts right, and so does one refused. */
  lemma ResignCount(k: K, x: int, n: Word, b: int)
    requires CountsOk(k)
    ensures CountOk(BarOf(BarResign(k, x, n), b))
  {
    hide DrainBar;
    assert CountOk(BarOf(k, b)) && CountOk(BarOf(k, x));
    if n <= BarOf(k, x).enrolled && n <= BarOf(k, x).count {
      ResignPhase(k, x, n);
      DrainQueues(k, x);
    } else {
      ErrorBars(k, b);
    }
  }

  /** In every run the counts are right: count and queue add up to the enrolled. */
  lemma {:induction false} RunCounts(k: K, ticks: seq<Tick>)
    requires Inv(k) && LegalRun(k, ticks) && CountsOk(k)
    ensures CountsOk(Run(k, ticks))
    decreases |ticks|
  {
    hide Inv, Legal, CountOk, Step, Fetch;
    if ticks != [] {
      var t := ticks[0];
      FetchKeeps(k, t);
      StepKeeps(Fetch(k, t), t.op, t.iptr, t.now);
      assert forall b :: CountOk(BarOf(k, b)) && BarOf(Fetch(k, t), b) == BarOf(k, b);
      StepCounts(Fetch(k, t), t.op, t.iptr, t.now);
      RunCounts(Next(k, t), ticks[1..]);
    }
  }

  // ----- a phase of a barrier

  /** An instruction lets the processes of barrier b go. */
  ghost predicate Completes(k: K, op: Op, b: int) {
    || (op == SyncOp(b) && BarOf(k, b).count <= 1)
    || (op.ResignOp? && op.b == b && op.n == BarOf(k, b).count)
  }

  /** No instruction of the run lets the processes of barrier b go. */
  ghost predicate OnePhase(k: K, ticks: seq<Tick>, b: int)
    decreases |ticks|
  {
    ticks == [] || (!Completes(Fetch(k, ticks[0]), ticks[0].op, b) && OnePhase(Next(k, ticks[0]), ticks[1..], b))
  }

  /** The processes that reach barrier b in the run, in order. */
  ghost function Arrivals(k: K, ticks: seq<Tick>, b: int): seq<int>
    decreases |ticks|
  {
    if ticks == [] then []
    else (if ticks[0].op == SyncOp(b) then [k.cur] else []) + Arrivals(Next(k, ticks[0]), ticks[1..], b)
  }

  function JoinedBy(op: Op, b: int): int {
    match op
    case EnrollOp(x, n) => if x == b then n else 0
    case ResignOp(x, n) => if x == b then 0 - n else 0
    case _ => 0
  }

  /** Enrolments less resignations in the run. */
  function Joined(ticks: seq<Tick>, b: int): int
    decreases |ticks|
  {
    if ticks == [] then 0 else JoinedBy(ticks[0].op, b) + Joined(ticks[1..], b)
  }

  /** What one instruction that does not complete barrier b does to it. */
  lemma StepPhase(k: K, op: Op, iptr: int, now: Word, b: int)
    requires Inv(k) && Legal(k, op, now) && CountsOk(k) && !Completes(k, op, b)
    ensures var bar, bar' := BarOf(k, b), BarOf(Step(k, op, iptr, now), b);
            match op
            case SyncOp(x) => bar' == if x == b then Bar(bar.enrolled, bar.count - 1, bar.queue + [k.cur]) else bar
            case EnrollOp(x, n) => if x == b
              then bar'.enrolled == bar.enrolled + n && bar'.count == bar.count + n && bar'.queue == bar.queue
              else bar' == bar
            case ResignOp(x, n) => if x == b
              then bar'.enrolled == bar.enrolled - n && bar'.count == bar.count - n && bar'.queue == bar.queue
              else bar' == bar
            case _ => bar' == bar
  {
    hide Inv, HalfRange, BarSync, BarEnroll, BarResign, StartP, EndP, Adjust, AltStart, Enable, AltWt, TaltWt,
         Disable, AltEnd, Out, In, XAble, XIn, XEnd, Tin, SemClaim, SemRelease, RunNext, Enqueue, Park, MayEnable,
         MayDisable, MayOutput, MayInput, MayXIn, BarOf;
    assert CountOk(BarOf(k, b));
    match op
    case SyncOp(x) => if x == b { SyncPhase(k, b, iptr, now); } else { SyncElsewhere(k, x, iptr, now, b); }
    case EnrollOp(x, n) => EnrollEffect(k, x, n, b);
    case ResignOp(x, n) => if x == b { ResignPhase(k, b, n); } else { ResignElsewhere(k, x, n, b); }
    case _ => OtherBars(k, op, iptr, now); SameBar(k, Step(k, op, iptr, now), b);
  }

  lemma EnrollEffect(k: K, x: int, n: Word, b: int)
    requires BarOf(k, x).enrolled + n < WORD_MOD && CountOk(BarOf(k, x))
    ensures var bar, bar' := BarOf(k, b), BarOf(BarEnroll(k, x, n), b);
            bar' == if x == b then bar.(enrolled := bar.enrolled + n, count := bar.count + n) else bar
  {
    var bar := BarOf(k, x);
    WrapWitness(bar.count + n, 0, bar.count + n);
  }

  lemma ResignElsewhere(k: K, x: int, n: Word, b: int)
    requires b != x && n <= BarOf(k, x).enrolled && n <= BarOf(k, x).count
    ensures BarOf(BarResign(k, x, n), b) == BarOf(k, b)
  {
    hide DrainBar;
    DrainQueues(k, x);
  }

  /**
   In a run that does not complete a barrier, everybody who reached it is still
   waiting there, in order of arrival, and its counts are those of the start with the
   enrolments, resignations and arrivals of the run.
   */
  lemma {:induction false} PhaseHolds(k: K, ticks: seq<Tick>, b: int)
    requires Inv(k) && LegalRun(k, ticks) && CountsOk(k) && OnePhase(k, ticks, b)
    ensures var bar, bar' := BarOf(k, b), BarOf(Run(k, ticks), b);
            bar'.queue == bar.queue + Arrivals(k, ticks, b) && bar'.enrolled == bar.enrolled + Joined(ticks, b) &&
            bar'.count == bar.count + Joined(ticks, b) - |Arrivals(k, ticks, b)| && Inv(Run(k, ticks)) &&
            CountsOk(Run(k, ticks))
    decreases |ticks|
  {
    hide Inv, Legal, CountOk, Step, Fetch, Completes, BarOf;
    if ticks == [] {
      assert BarOf(k, b).queue + [] == BarOf(k, b).queue;
    } else {
      var t := ticks[0];
      var k1 := Fetch(k, t);
      FetchKeeps(k, t);
      StepKeeps(k1, t.op, t.iptr, t.now);
      assert forall x :: CountOk(BarOf(k, x)) && BarOf(k1, x) == BarOf(k, x);
      StepCounts(k1, t.op, t.iptr, t.now);
      StepPhase(k1, t.op, t.iptr, t.now, b);
      PhaseHolds(Next(k, t), ticks[1..], b);
      assert BarOf(Run(k, ticks), b).queue == BarOf(k, b).queue + Arrivals(k, ticks, b);
    }
  }

  /**
   Nobody passes a barrier early: between two completions those who arrived wait, and
   the next arrival lets them go exactly if with it everybody enrolled by then has
   arrived, the next resignation exactly if nobody else is awaited.
   */
  lemma NobodyPasses(k: K, ticks: seq<Tick>, b: int, e: Word, p: int)
    requires Inv(k) && LegalRun(k, ticks) && CountsOk(k) && OnePhase(k, ticks, b) && BarOf(k, b) == Bar(e, e, [])
    ensures var k', came := Run(k, ticks), Arrivals(k, ticks, b);
            (p in came ==> At(k', p) == OnBar(b)) &&
            (Completes(k', SyncOp(b), b) <==> |came| + 1 >= e + Joined(ticks, b)) &&
            forall n: Word :: Completes(k', ResignOp(b, n), b) <==> |came| + n == e + Joined(ticks, b)
  {
    hide Run, LegalRun, OnePhase, Arrivals, Joined, CountsOk, Inv;
    PhaseHolds(k, ticks, b);
    var k', came := Run(k, ticks), Arrivals(k, ticks, b);
    assert BarOf(k', b).queue == came;
    if p in came { WaitsThere(k', b, p); }
  }

  lemma WaitsThere(k: K, b: int, p: int)
    requires Inv(k) && p in BarOf(k, b).queue
    ensures At(k, p) == OnBar(b)
  {
    assert BarOk(k, b);
  }
}
