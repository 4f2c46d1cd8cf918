/** First come, first served: the run queue, semaphores and wake-ups in every run. */
module KernelOrder {
  import opened Words
  import opened Kernel
  import opened KernelInv
  import opened KernelRuns

  // ----- what an instruction does to the run queue

  /** Processes may have joined the run queue behind those on it; semaphores are the same. */
  ghost predicate Grows(k: K, k': K) {
    k.runq <= k'.runq && k'.sem == k.sem
  }

  /** The same, and then perhaps the next process runs. */
  ghost predicate Moves(k: K, k': K, now: Word) {
    Grows(k, k') || exists k2 :: Grows(k, k2) && k' == RunNext(k2, now)
  }

  /** The front of the run queue has become the current process. */
  predicate Dispatched(k: K, k': K) {
    k.runq != [] && k'.cur == k.runq[0]
  }

  /** Nobody leaves the run queue but a front that is dispatched, and nobody overtakes. */
  ghost predicate Fifo(k: K, k': K) {
    (if Dispatched(k, k') then k.runq[1..] else k.runq) <= k'.runq
  }

  lemma GrowsChain(k: K, k1: K, k2: K)
    requires Grows(k, k1) && Grows(k1, k2)
    ensures Grows(k, k2)
  {
  }

  lemma {:induction false} WalkGrows(k: K, now: Word)
    ensures Grows(k, Walk(k, now))
    decreases |k.timq|
  {
    hide Expire, Slots, TimeAfter;
    if k.timq != [] && !TimeAfter(Slots(k, k.timq[0]).time, now) {
      ExpireEffect(k, now);
      WalkGrows(Expire(k, now), now);
    }
  }

  lemma ThenNext(k: K, k2: K, now: Word)
    requires Grows(k, k2)
    ensures Moves(k, RunNext(k2, now), now)
  {
    hide Grows, RunNext;
  }

  lemma NextFifo(k: K, k2: K, now: Word)
    requires Grows(k, k2)
    ensures Fifo(k, RunNext(k2, now))
  {
    hide Walk, Slots;
    WalkGrows(k2, now);
    var k1 := if k2.tq then Sync(k2, now) else k2;
    assert k.runq <= k1.runq && RunNext(k2, now) == Dispatch(k1);
    if k.runq != [] {
      assert k1.runq[0] == k.runq[0];
    }
  }

  /** A current process is on no run queue, so an instruction that dispatches nobody takes nobody off. */
  lemma MovesFifo(k: K, k': K, now: Word)
    requires Moves(k, k', now) && Inv(k')
    ensures Fifo(k, k')
  {
    hide RunNext;
    if Grows(k, k') {
      NoneDispatched(k, k');
    } else {
      var k2 :| Grows(k, k2) && k' == RunNext(k2, now);
      NextFifo(k, k2, now);
    }
  }

  lemma NoneDispatched(k: K, k': K)
    requires Inv(k') && k.runq <= k'.runq
    ensures Fifo(k, k')
  {
    hide ChannelsOk, SemsOk, BarsOk, TimersOk, AltsOk;
    if k.runq != [] {
      assert k.runq[0] in k'.runq;
    }
  }

  lemma MovesSems(k: K, k': K, now: Word)
    requires Moves(k, k', now)
    ensures k'.sem == k.sem
  {
    hide RunNext;
    if !Grows(k, k') {
      var k2 :| Grows(k, k2) && k' == RunNext(k2, now);
      RunNextWorld(k2, now);
    }
  }

  // ----- the parts of instructions

  lemma PartsGrow(k: K, p: int, at: int, iptr: int)
    ensures Grows(k, Park(k, iptr)) && Grows(k, Enqueue(k, p)) && Grows(k, StartP(k, p, at)) &&
            Grows(k, Adjust(k, p)) && Grows(k, Load(k, p))
  {
    hide Slots;
  }

  /** A change to workspaces, channels, ALTs, barriers and what the scheduler does not touch. */
  lemma SameGrows(k: K, k': K)
    requires k'.runq == k.runq && k'.sem == k.sem
    ensures Grows(k, k')
  {
  }

  lemma WakeGrows(k: K, q: int)
    ensures Grows(k, Wake(k, q))
  {
    hide Slots;
  }

  lemma ArriveGrows(k: K, p: int, c: int, sending: bool, ptr: int, len: int)
    ensures Grows(k, Arrive(k, p, c, sending, ptr, len))
  {
    hide Slots, At, ChanWord, Wake;
    if ChanWord(k, c) % 2 == 1 { WakeGrows(k, ChanWord(k, c) - 1); }
  }

  /** A process that blocks in a channel, exchanges or yields. */
  lemma BlockGrows(k: K, c: int, sending: bool, ptr: int, len: int, iptr: int, q: int)
    ensures var k2 := Arrive(Park(k, iptr), k.cur, c, sending, ptr, len); Grows(k, k2) && Grows(k, Load(k2, q))
    ensures Grows(k, Enqueue(Park(k, iptr), k.cur)) && Grows(k, Load(Enqueue(Park(Leave(k, c), iptr), k.cur), q))
  {
    hide Arrive, Slots, Park, Enqueue, Load, Grows;
    var p, k1, l := k.cur, Park(k, iptr), Leave(k, c);
    assert Grows(k, l) by { SameGrows(k, l); }
    hide Leave;
    var k2, m := Arrive(k1, p, c, sending, ptr, len), Enqueue(Park(l, iptr), p);
    PartsGrow(k, 0, 0, iptr);
    PartsGrow(k1, p, 0, iptr);
    PartsGrow(l, 0, 0, iptr);
    PartsGrow(Park(l, iptr), p, 0, iptr);
    ArriveGrows(k1, p, c, sending, ptr, len);
    PartsGrow(k2, q, 0, iptr);
    PartsGrow(m, q, 0, iptr);
    GrowsChain(k, k1, k2);
    GrowsChain(k, k2, Load(k2, q));
    GrowsChain(k, k1, Enqueue(k1, p));
    GrowsChain(k, l, Park(l, iptr));
    GrowsChain(k, Park(l, iptr), m);
    GrowsChain(k, m, Load(m, q));
  }

  lemma BlockMoves(k: K, k1: K, c: int, sending: bool, ptr: int, len: int, iptr: int, q: int, now: Word)
    requires Grows(k, k1)
    ensures var k2 := Arrive(Park(k1, iptr), k1.cur, c, sending, ptr, len);
            Moves(k, RunNext(k2, now), now) && Moves(k, Load(k2, q), now)
    ensures Moves(k, RunNext(Enqueue(Park(k1, iptr), k1.cur), now), now)
    ensures Moves(k, Load(Enqueue(Park(Leave(k1, c), iptr), k1.cur), q), now)
  {
    hide Grows, Arrive, Park, Enqueue, Leave, Load, RunNext;
    var k2, k3 := Arrive(Park(k1, iptr), k1.cur, c, sending, ptr, len), Enqueue(Park(k1, iptr), k1.cur);
    var k4 := Load(Enqueue(Park(Leave(k1, c), iptr), k1.cur), q);
    BlockGrows(k1, c, sending, ptr, len, iptr, q);
    GrowsChain(k, k1, k2);
    GrowsChain(k, k1, Load(k2, q));
    GrowsChain(k, k1, k3);
    GrowsChain(k, k1, k4);
    ThenNext(k, k2, now);
    ThenNext(k, k3, now);
  }

  lemma EnvGrows(k: K, c: int, ptr: int, src: int, len: int)
    ensures Grows(k, Say(k, c, ptr, len)) && Say(k, c, ptr, len).cur == k.cur
    ensures Grows(k, Deliver(k, c, ptr, src, len)) && Deliver(k, c, ptr, src, len).cur == k.cur
    ensures Grows(k, SetError(k, EFLAG_CHAN)) && Grows(k, k)
    ensures Grows(k, SetMem(k, Zero(k.env.mem, ptr, len))) && SetMem(k, Zero(k.env.mem, ptr, len)).cur == k.cur
  {
    hide Copy, Bytes, Zero, Or;
  }

  lemma OutMoves(k: K, c: int, ptr: int, len: int, iptr: int, now: Word)
    ensures Moves(k, Out(k, c, ptr, len, iptr, now), now)
  {
    hide Grows, Arrive, RunNext, Load, Enqueue, Park, Leave, Say, Deliver, SetError, Slots;
    var q, k1 := Untag(ChanWord(k, c)), Say(k, c, ptr, len);
    var k2 := Deliver(k1, c, Slots(k, q).state, ptr, len);
    EnvGrows(k, c, ptr, 0, len);
    EnvGrows(k1, c, Slots(k, q).state, ptr, len);
    GrowsChain(k, k1, k2);
    BlockMoves(k, k1, c, true, ptr, len, iptr, q, now);
    BlockMoves(k, k2, c, true, ptr, len, iptr, q, now);
    BlockMoves(k, k, c, true, ptr, len, iptr, q, now);
  }

  lemma InMoves(k: K, c: int, ptr: int, len: int, iptr: int, now: Word)
    ensures Moves(k, In(k, c, ptr, len, iptr, now), now)
  {
    hide Grows, Arrive, RunNext, Load, Enqueue, Park, Leave, Deliver, SetError, SetMem, Slots;
    var q := Untag(ChanWord(k, c));
    var k1, k2 := Deliver(k, c, ptr, Slots(k, q).state, len), SetMem(k, Zero(k.env.mem, ptr, len));
    EnvGrows(k, c, ptr, Slots(k, q).state, len);
    BlockMoves(k, k1, c, false, ptr, len, iptr, q, now);
    BlockMoves(k, k2, c, false, ptr, len, iptr, q, now);
    BlockMoves(k, k, c, false, ptr, len, iptr, q, now);
  }

  lemma XAbleMoves(k: K, c: int, iptr: int, now: Word)
    ensures Moves(k, XAble(k, c, iptr, now), now)
  {
    var k2 := AwaitChannel(Park(k, iptr), k.cur, c);
    assert Grows(k, k2) by { hide Slots; }
    SameGrows(k, k);
    hide Grows, AwaitChannel, Park, RunNext;
    ThenNext(k, k2, now);
  }

  lemma XInMoves(k: K, c: int, ptr: int, len: int, iptr: int, now: Word)
    ensures Moves(k, XIn(k, c, ptr, len, iptr, now), now)
  {
    hide Grows, EndAlt, RunNext, Enqueue, Park, Deliver, SetMem, SetError, SetTaken, Slots, ChanWord;
    var k1, v := EndAlt(k, k.cur), ChanWord(k, c);
    var k2, k3 := SetMem(k1, Zero(k.env.mem, ptr, len)), Deliver(k1, c, ptr, Slots(k, v).state, len);
    EndAltGrows(k, k.cur);
    EnvGrows(k1, c, ptr, Slots(k, v).state, len);
    EnvGrows(k, c, ptr, 0, len);
    TakenGrows(k3, k.env.ext + {c});
    GrowsChain(k, k1, k2);
    GrowsChain(k, k1, k3);
    GrowsChain(k, k3, SetTaken(k3, k.env.ext + {c}));
    BlockMoves(k, k2, c, false, ptr, len, iptr, 0, now);
  }

  lemma EndAltGrows(k: K, p: int)
    ensures Grows(k, EndAlt(k, p)) && EndAlt(k, p).cur == k.cur && EndAlt(k, p).env == k.env
  {
  }

  lemma TakenGrows(k: K, ext: set<int>)
    ensures Grows(k, SetTaken(k, ext))
  {
  }

  lemma XEndGrows(k: K, c: int)
    ensures Grows(k, XEnd(k, c))
  {
    hide Slots;
  }

  lemma EndMoves(k: K, par: int, resume: int, now: Word)
    ensures Moves(k, EndP(k, par, resume, now), now)
  {
    var n := JoinCount(k, par);
    var k1 := SetJoin(SetAt(k, k.cur, Halted).(cur := 0), par, n - 1);
    SameGrows(k, k1);
    assert n == 1 ==> Grows(k, EndP(k, par, resume, now));
    hide Grows, RunNext, SetAt, SetJoin;
    ThenNext(k, k1, now);
  }

  /** The current process goes to sleep in an ALT, for a time, or in the queue of a barrier. */
  lemma WaitMoves(k: K, iptr: int, t: Word, b: int, now: Word)
    ensures Moves(k, RunNext(Park(k, iptr), now), now) && Moves(k, RunNext(Sleep(k, iptr), now), now)
    ensures Moves(k, RunNext(AwaitTime(Park(k, iptr), k.cur, t, iptr), now), now)
    ensures Moves(k, RunNext(JoinBar(Park(k, iptr), k.cur, b), now), now)
    ensures Moves(k, RunNext(Sleep(TimerInsert(k, k.cur, t, iptr), iptr), now), now)
  {
    hide Slots, InsertTime, Sleep, BarOf, RunNext;
    var k1 := TimerInsert(k, k.cur, t, iptr);
    SleepEffect(k, iptr);
    SleepEffect(k1, iptr);
    ThenNext(k, Park(k, iptr), now);
    ThenNext(k, Sleep(k, iptr), now);
    ThenNext(k, AwaitTime(Park(k, iptr), k.cur, t, iptr), now);
    ThenNext(k, JoinBar(Park(k, iptr), k.cur, b), now);
    ThenNext(k, Sleep(k1, iptr), now);
  }

  lemma ProceedGrows(k: K, timed: bool, now: Word)
    ensures Grows(k, Proceed(k, timed, now))
  {
    hide Proceed;
    ProceedEffect(k, timed, now);
  }

  lemma AltWtMoves(k: K, iptr: int, now: Word)
    ensures Moves(k, AltWt(k, iptr, now), now)
  {
    hide Grows, Proceed, Sleep, RunNext, Slots;
    ProceedGrows(k, false, now);
    WaitMoves(k, iptr, 0, 0, now);
  }

  lemma TaltWtMoves(k: K, iptr: int, now: Word)
    ensures Moves(k, TaltWt(k, iptr, now), now)
  {
    hide Grows, Proceed, Sleep, RunNext, Slots, TimerInsert, TimeAfter;
    ProceedGrows(k, true, now);
    WaitMoves(k, iptr, Wrap(Slots(k, k.cur).time + 1), 0, now);
  }

  lemma {:induction false} DrainGrows(k: K, b: int)
    ensures Grows(k, DrainBar(k, b))
    decreases |BarOf(k, b).queue|
  {
    if BarOf(k, b).queue != [] {
      var k2 := Enqueue(OffBar(k, b), BarOf(k, b).queue[0]);
      assert Grows(k, k2) && |BarOf(k2, b).queue| < |BarOf(k, b).queue| by { hide Slots, At; }
      hide Enqueue, OffBar;
      DrainGrows(k2, b);
    }
  }

  lemma CompleteGrows(k: K, b: int, e: Word)
    ensures Grows(k, BarComplete(k, b, e))
  {
    hide DrainBar;
    DrainGrows(k, b);
  }

  lemma CountGrows(k: K, b: int, n: Word)
    ensures Grows(k, BarEnroll(k, b, n)) && Grows(k, BarResign(k, b, n))
  {
    hide BarOf, BarComplete, Wrap, Or;
    var bar := BarOf(k, b);
    if n <= bar.enrolled { CompleteGrows(k, b, bar.enrolled - n); }
  }

  lemma MarkGrows(k: K, par: int, n: int, mem: map<int, int>)
    ensures Grows(k, SetJoin(k, par, n)) && Grows(k, SetReturn(k, par)) && Grows(k, SetMem(k, mem)) &&
            Grows(k, Answer(k, false)) && Grows(k, k)
  {
  }

  lemma OwnGrows(k: K, k': K, p: int)
    requires OwnSlots(k, k', p)
    ensures Grows(k, k')
  {
  }

  // ----- every instruction

  lemma StepMoves(k: K, op: Op, iptr: int, now: Word)
    requires Inv(k) && Legal(k, op, now) && !op.ClaimOp? && !op.ReleaseOp?
    ensures Moves(k, Step(k, op, iptr, now), now)
  {
    hide Moves, Inv, Legal, TimeAfter, StartP, EndP, Adjust, AltStart, Enable, AltWt, TaltWt, Disable, AltEnd, Out,
         In, XAble, XIn, XEnd, Grows, AwaitTime, JoinBar, BarComplete, BarEnroll, BarResign, RunNext, Enqueue, Park,
         SetMem, SetJoin, SetReturn, Answer, Slots, BarOf;
    var k' := Step(k, op, iptr, now);
    match op
    case StartOp(x, at) => PartsGrow(k, x, at, iptr); GrowsMoves(k, k', now);
    case StopOp => WaitMoves(k, iptr, 0, 0, now);
    case RunOp(x) => PartsGrow(k, x, 0, iptr); GrowsMoves(k, k', now);
    case EndOp(par) => EndMoves(k, par, Slots(k, par).temp, now);
    case AdjustOp(x) => PartsGrow(k, x, 0, iptr); GrowsMoves(k, k', now);
    case AltOp(_) => OwnMoves(k, op, iptr, now);
    case Enb(_, _) => OwnMoves(k, op, iptr, now);
    case AltWtOp => AltWtMoves(k, iptr, now);
    case TaltWtOp => TaltWtMoves(k, iptr, now);
    case Dis(_, _, _) => OwnMoves(k, op, iptr, now);
    case AltEndOp => OwnMoves(k, op, iptr, now);
    case OutOp(c, ptr, len) => OutMoves(k, c, ptr, len, iptr, now);
    case InOp(c, ptr, len) => InMoves(k, c, ptr, len, iptr, now);
    case XAbleOp(c) => XAbleMoves(k, c, iptr, now);
    case XInOp(c, ptr, len) => XInMoves(k, c, ptr, len, iptr, now);
    case XEndOp(c) => XEndGrows(k, c); GrowsMoves(k, k', now);
    case TinOp(t) => TinMoves(k, t, iptr, now);
    case SyncOp(b) => SyncMoves(k, b, iptr, now);
    case EnrollOp(b, n) => CountGrows(k, b, n); GrowsMoves(k, k', now);
    case ResignOp(b, n) => CountGrows(k, b, n); GrowsMoves(k, k', now);
    case CountOp(par, n) => MarkGrows(k, par, n, map[]); GrowsMoves(k, k', now);
    case ReturnOp(at) => MarkGrows(k, at, 0, map[]); GrowsMoves(k, k', now);
    case Compute(mem) => MarkGrows(k, 0, 0, mem); GrowsMoves(k, k', now);
    case Idle => IdleMoves(k, now);
  }

  lemma GrowsMoves(k: K, k': K, now: Word)
    requires Grows(k, k')
    ensures Moves(k, k', now)
  {
    hide RunNext;
  }

  lemma IdleMoves(k: K, now: Word)
    ensures Moves(k, RunNext(k, now), now)
  {
    hide RunNext;
    SameGrows(k, k);
    ThenNext(k, k, now);
  }

  lemma TinMoves(k: K, t: Word, iptr: int, now: Word)
    ensures Moves(k, Tin(k, t, iptr, now), now)
  {
    hide TimeAfter, AwaitTime, Park, RunNext;
    SameGrows(k, k);
    WaitMoves(k, iptr, t, 0, now);
  }

  lemma SyncMoves(k: K, b: int, iptr: int, now: Word)
    ensures Moves(k, BarSync(k, b, iptr, now), now)
  {
    hide JoinBar, BarComplete, Park, RunNext, Grows;
    WaitMoves(k, iptr, 0, b, now);
    CompleteGrows(k, b, BarOf(k, b).enrolled);
  }

  /** Instructions that touch only the current process's own ALT. */
  lemma OwnMoves(k: K, op: Op, iptr: int, now: Word)
    requires Inv(k) && Legal(k, op, now) && (op.AltOp? || op.Enb? || op.Dis? || op.AltEndOp?)
    ensures Moves(k, Step(k, op, iptr, now), now)
  {
    hide Inv, HalfRange, AltStart, Enable, Disable, AltEnd, MayEnable, MayDisable, OwnSlots, Answer, Slots, Grows,
         RunNext;
    var k', p := Step(k, op, iptr, now), k.cur;
    match op
    case AltOp(timed) => AltStartEffect(k, timed); OwnGrows(k, k', p);
    case Enb(g, on) => if on { EnableEffect(k, g); OwnGrows(k, k', p); } else { MarkGrows(k, 0, 0, map[]); }
    case Dis(g, on, target) =>
      if on { DisableEffect(k, g, target); OwnGrows(k, k', p); } else { MarkGrows(k, 0, 0, map[]); }
    case AltEndOp => AltEndsWell(k, iptr); AltEndEffect(k, iptr); OwnGrows(k, k', p);
  }

  /** Every instruction leaves the run queue in order. */
  lemma StepFifo(k: K, op: Op, iptr: int, now: Word)
    requires Inv(k) && Legal(k, op, now)
    ensures Fifo(k, Step(k, op, iptr, now))
  {
    hide Inv, Legal, Step, Fifo, Moves;
    var k' := Step(k, op, iptr, now);
    StepKeeps(k, op, iptr, now);
    match op
    case ClaimOp(s) => ClaimFifo(k, s, iptr, now);
    case ReleaseOp(s) => ReleaseFifo(k, s, iptr, now);
    case _ => StepMoves(k, op, iptr, now); MovesFifo(k, k', now);
  }

  lemma ClaimFifo(k: K, s: int, iptr: int, now: Word)
    requires Inv(k) && Inv(Step(k, ClaimOp(s), iptr, now))
    ensures Fifo(k, Step(k, ClaimOp(s), iptr, now))
  {
    hide Inv, RunNext, SemQueue, Slots;
    var k' := Step(k, ClaimOp(s), iptr, now);
    if SemOf(k, s).Free? {
      NoneDispatched(k, k');
    } else {
      var k2 := JoinSem(Park(k, iptr), k.cur, s);
      NextFifo(k.(sem := k2.sem), k2, now);
    }
  }

  lemma ReleaseFifo(k: K, s: int, iptr: int, now: Word)
    requires Inv(Step(k, ReleaseOp(s), iptr, now))
    ensures Fifo(k, Step(k, ReleaseOp(s), iptr, now))
  {
    hide Inv, SemQueue, Slots;
    var k' := Step(k, ReleaseOp(s), iptr, now);
    assert k.runq <= k'.runq;
    hide SemRelease;
    NoneDispatched(k, k');
  }

  // ----- the run queue in every run

  /** The processes the run dispatches from a run queue that was not empty, in order. */
  ghost function Loads(k: K, ticks: seq<Tick>): seq<int>
    decreases |ticks|
  {
    if ticks == [] then []
    else (if Dispatched(k, Next(k, ticks[0])) then [k.runq[0]] else []) + Loads(Next(k, ticks[0]), ticks[1..])
  }

  /** Dispatching d from q, with others joining behind, leaves q'. */
  ghost predicate Served(q: seq<int>, d: seq<int>, q': seq<int>) {
    if |d| <= |q| then d == q[..|d|] && q[|d|..] <= q' else q <= d
  }

  lemma ServedFirst(q: seq<int>, q1: seq<int>, d: seq<int>, q': seq<int>)
    requires q != [] && q[1..] <= q1 && Served(q1, d, q')
    ensures Served(q, [q[0]] + d, q')
  {
    var e := [q[0]] + d;
    if |e| <= |q| {
      assert q[1..][..|d|] == q1[..|d|];
      assert e == q[..|e|];
      assert q[|e|..] == q[1..][|d|..] && q[1..][|d|..] <= q1[|d|..];
    } else {
      assert forall i :: 0 <= i < |q| ==> e[i] == q[i];
    }
  }

  lemma ServedLater(q: seq<int>, q1: seq<int>, d: seq<int>, q': seq<int>)
    requires q <= q1 && Served(q1, d, q')
    ensures Served(q, d, q')
  {
    if |d| <= |q| {
      assert q[..|d|] == q1[..|d|] && q[|d|..] <= q1[|d|..];
    } else if |d| <= |q1| {
      assert q == q1[..|d|][..|q|];
    }
  }

  /** In every run processes are dispatched in the order in which they stand on the run queue, whatever joins behind
   them. */
  lemma {:induction false} DispatchOrder(k: K, ticks: seq<Tick>)
    requires Inv(k) && LegalRun(k, ticks)
    ensures Served(k.runq, Loads(k, ticks), Run(k, ticks).runq) && Inv(Run(k, ticks))
    decreases |ticks|
  {
    hide Inv, Legal, Step, Fetch, Served;
    if ticks == [] {
      ServedNone(k.runq);
    } else {
      var t := ticks[0];
      var k1, k2 := Fetch(k, t), Next(k, t);
      FetchQueue(k, t);
      FetchKeeps(k, t);
      StepKeeps(k1, t.op, t.iptr, t.now);
      StepFifo(k1, t.op, t.iptr, t.now);
      DispatchOrder(k2, ticks[1..]);
      var d, q' := Loads(k2, ticks[1..]), Run(k2, ticks[1..]).runq;
      if Dispatched(k, k2) {
        ServedFirst(k.runq, k2.runq, d, q');
      } else {
        ServedLater(k.runq, k2.runq, d, q');
        assert [] + d == d;
      }
    }
  }

  lemma ServedNone(q: seq<int>)
    ensures Served(q, [], q)
  {
    assert q[..0] == [] && q[0..] == q;
  }

  lemma FetchQueue(k: K, t: Tick)
    ensures Fetch(k, t).runq == k.runq && Fetch(k, t).sem == k.sem
  {
  }

  /** A process at position i of the run queue is the i-th dispatched, and until then it waits with i - n before it
   once n have been. */
  lemma ServedInTurn(k: K, ticks: seq<Tick>, i: nat)
    requires Inv(k) && LegalRun(k, ticks) && i < |k.runq|
    ensures var k', d := Run(k, ticks), Loads(k, ticks);
            if i < |d| then d[i] == k.runq[i]
            else i - |d| < |k'.runq| && k'.runq[i - |d|] == k.runq[i] && At(k', k.runq[i]) == Queued
  {
    hide Run, LegalRun, Loads;
    DispatchOrder(k, ticks);
    var k', d := Run(k, ticks), Loads(k, ticks);
    if |d| <= i {
      assert k.runq[|d|..][i - |d|] == k.runq[i];
      QueuedAt(k', i - |d|);
    }
  }

  lemma QueuedAt(k: K, i: nat)
    requires Inv(k) && i < |k.runq|
    ensures At(k, k.runq[i]) == Queued
  {
    hide ChannelsOk, SemsOk, BarsOk, TimersOk, AltsOk;
    assert k.runq[i] in k.runq;
  }

  // ----- a process is scheduled once however many reach it

  /** Running, or on the run queue. */
  predicate Up(k: K, p: int) {
    At(k, p) == Running || At(k, p) == Queued
  }

  /** p executes no instruction of the run. */
  ghost predicate Rests(k: K, ticks: seq<Tick>, p: int)
    decreases |ticks|
  {
    ticks == [] || (k.cur != p && Rests(Next(k, ticks[0]), ticks[1..], p))
  }

  /** How often the run schedules p, dispatched at once or put on the run queue. */
  ghost function Wakes(k: K, ticks: seq<Tick>, p: int): nat
    decreases |ticks|
  {
    if ticks == [] then 0
    else (if !Up(k, p) && Up(Next(k, ticks[0]), p) then 1 else 0) + Wakes(Next(k, ticks[0]), ticks[1..], p)
  }

  /** Once scheduled, a process stays so until it executes. */
  lemma StaysUp(k: K, op: Op, iptr: int, now: Word, p: int)
    requires Inv(k) && Legal(k, op, now) && p != k.cur && Up(k, p)
    ensures Up(Step(k, op, iptr, now), p)
  {
    hide Legal, Step, ChannelsOk, SemsOk, BarsOk, TimersOk, AltsOk, NoDup, At;
    var k' := Step(k, op, iptr, now);
    StepKeeps(k, op, iptr, now);
    StepFifo(k, op, iptr, now);
    var i :| 0 <= i < |k.runq| && k.runq[i] == p;
    if Dispatched(k, k') && i > 0 {
      assert k.runq[1..][i - 1] == p && k'.runq[i - 1] == p;
    } else if !Dispatched(k, k') {
      assert k'.runq[i] == p;
    }
  }

  /**
   However many partners, time-outs and releases reach a process, it is scheduled at
   most once before it executes again: once if it ends up scheduled and was not.
   */
  lemma {:induction false} WokenOnce(k: K, ticks: seq<Tick>, p: int)
    requires Inv(k) && LegalRun(k, ticks) && Rests(k, ticks, p)
    ensures Wakes(k, ticks, p) == if !Up(k, p) && Up(Run(k, ticks), p) then 1 else 0
    ensures Up(k, p) ==> Up(Run(k, ticks), p)
    decreases |ticks|
  {
    hide Inv, Legal, Step, Fetch, Up;
    if ticks != [] {
      var t := ticks[0];
      var k1 := Fetch(k, t);
      FetchKeeps(k, t);
      FetchUp(k, t, p);
      StepKeeps(k1, t.op, t.iptr, t.now);
      if Up(k, p) { StaysUp(k1, t.op, t.iptr, t.now, p); }
      WokenOnce(Next(k, t), ticks[1..], p);
    }
  }

  lemma FetchUp(k: K, t: Tick, p: int)
    ensures Up(Fetch(k, t), p) == Up(k, p) && Fetch(k, t).cur == k.cur
  {
  }

  // ----- semaphores

  /** The process an instruction makes wait for semaphore s. */
  function Claims(k: K, op: Op, s: int): seq<int> {
    if op == ClaimOp(s) && SemOf(k, s).Claimed? then [k.cur] else []
  }

  /** The process an instruction hands semaphore s to. */
  function Grants(k: K, op: Op, s: int): seq<int> {
    if op == ReleaseOp(s) && SemQueue(k, s) != [] then [SemQueue(k, s)[0]] else []
  }

  /** A claimer that must wait goes behind those waiting, and a release hands over to the first and schedules it. */
  lemma StepSem(k: K, op: Op, iptr: int, now: Word, s: int)
    requires Inv(k) && Legal(k, op, now)
    ensures var k' := Step(k, op, iptr, now);
            SemQueue(k, s) + Claims(k, op, s) == Grants(k, op, s) + SemQueue(k', s) &&
            (forall x :: x in Claims(k, op, s) ==> At(k', x) == OnSem(s)) &&
            (forall x :: x in Grants(k, op, s) ==> At(k', x) == Queued)
  {
    hide Inv, Legal, Step, SemClaim, SemRelease, SemQueue, SemOf, At;
    StepKeeps(k, op, iptr, now);
    match op
    case ClaimOp(x) => StepClaims(k, x, iptr, now); ClaimSem(k, x, iptr, now, s);
    case ReleaseOp(x) => StepReleases(k, x, iptr, now); ReleaseSem(k, x, s);
    case _ => OtherSems(k, op, iptr, now, s);
  }

  lemma StepClaims(k: K, s: int, iptr: int, now: Word)
    ensures Step(k, ClaimOp(s), iptr, now) == SemClaim(k, s, iptr, now)
  {
    hide SemClaim;
  }

  lemma StepReleases(k: K, s: int, iptr: int, now: Word)
    ensures Step(k, ReleaseOp(s), iptr, now) == SemRelease(k, s)
    ensures Legal(k, ReleaseOp(s), now) ==> SemOf(k, s).Claimed?
  {
    hide SemRelease, HalfRange;
  }

  lemma OtherSems(k: K, op: Op, iptr: int, now: Word, s: int)
    requires Inv(k) && Legal(k, op, now) && !op.ClaimOp? && !op.ReleaseOp?
    ensures SemQueue(Step(k, op, iptr, now), s) == SemQueue(k, s)
  {
    var k' := Step(k, op, iptr, now);
    hide Inv, Legal, Step, Moves, SemQueue;
    StepMoves(k, op, iptr, now);
    MovesSems(k, k', now);
    SameSem(k, k', s);
  }

  lemma ClaimSem(k: K, x: int, iptr: int, now: Word, s: int)
    requires Inv(SemClaim(k, x, iptr, now))
    ensures var k', joins := SemClaim(k, x, iptr, now), s == x && SemOf(k, x).Claimed?;
            SemQueue(k', s) == SemQueue(k, s) + (if joins then [k.cur] else []) && (joins ==> At(k', k.cur) == OnSem(s))
  {
    hide Inv, Park, JoinSem, RunNext, At, Slots;
    if SemOf(k, x).Claimed? {
      var k2 := JoinSem(Park(k, iptr), k.cur, x);
      var k' := RunNext(k2, now);
      JoinedSem(k, x, iptr, s);
      RunNextWorld(k2, now);
      SameSem(k2, k', s);
      if s == x { WaitsForSem(k', s, k.cur); }
    }
  }

  lemma JoinedSem(k: K, x: int, iptr: int, s: int)
    requires SemOf(k, x).Claimed?
    ensures SemQueue(JoinSem(Park(k, iptr), k.cur, x), s) == SemQueue(k, s) + (if s == x then [k.cur] else [])
  {
    hide Slots, At;
    assert SemQueue(k, s) + [] == SemQueue(k, s);
  }

  lemma SameSem(k: K, k': K, s: int)
    requires k'.sem == k.sem
    ensures SemQueue(k', s) == SemQueue(k, s)
  {
  }

  lemma WaitsForSem(k: K, s: int, p: int)
    requires Inv(k) && p in SemQueue(k, s)
    ensures At(k, p) == OnSem(s)
  {
    hide Placed, ChannelsOk, BarsOk, TimersOk, AltsOk;
    assert SemOk(k, s);
  }

  lemma ReleaseSem(k: K, x: int, s: int)
    requires SemOf(k, x).Claimed?
    ensures var k', q := SemRelease(k, x), SemQueue(k, x);
            SemQueue(k', s) == (if s == x && q != [] then q[1..] else SemQueue(k, s)) &&
            (q != [] ==> At(k', q[0]) == Queued)
  {
    hide Slots;
  }

  /** Those made to wait for semaphore s in the run, and those it is handed to, in order. */
  ghost function AllClaims(k: K, ticks: seq<Tick>, s: int): seq<int>
    decreases |ticks|
  {
    if ticks == [] then [] else Claims(Fetch(k, ticks[0]), ticks[0].op, s) + AllClaims(Next(k, ticks[0]), ticks[1..], s)
  }

  ghost function AllGrants(k: K, ticks: seq<Tick>, s: int): seq<int>
    decreases |ticks|
  {
    if ticks == [] then [] else Grants(Fetch(k, ticks[0]), ticks[0].op, s) + AllGrants(Next(k, ticks[0]), ticks[1..], s)
  }

  /** In every run those waiting and those made to wait are those served and those still waiting, in one order. */
  lemma {:induction false} SemaphoreFifo(k: K, ticks: seq<Tick>, s: int)
    requires Inv(k) && LegalRun(k, ticks)
    ensures SemQueue(k, s) + AllClaims(k, ticks, s) == AllGrants(k, ticks, s) + SemQueue(Run(k, ticks), s)
    decreases |ticks|
  {
    hide Inv, Legal, Step, Fetch, SemQueue, Claims, Grants;
    if ticks == [] {
      assert SemQueue(k, s) + [] == [] + SemQueue(k, s);
    } else {
      var t := ticks[0];
      var k1, k2 := Fetch(k, t), Next(k, t);
      FetchKeeps(k, t);
      FetchSem(k, t, s);
      StepKeeps(k1, t.op, t.iptr, t.now);
      StepSem(k1, t.op, t.iptr, t.now, s);
      SemaphoreFifo(k2, ticks[1..], s);
      var c, g := Claims(k1, t.op, s), Grants(k1, t.op, s);
      var cs, gs, q' := AllClaims(k2, ticks[1..], s), AllGrants(k2, ticks[1..], s), SemQueue(Run(k2, ticks[1..]), s);
      calc {
        SemQueue(k, s) + (c + cs);
        (SemQueue(k, s) + c) + cs;
        (g + SemQueue(k2, s)) + cs;
        g + (SemQueue(k2, s) + cs);
        g + (gs + q');
        (g + gs) + q';
      }
    }
  }

  lemma FetchSem(k: K, t: Tick, s: int)
    ensures SemQueue(Fetch(k, t), s) == SemQueue(k, s)
  {
  }

  /** A semaphore nobody waits for at the start is handed over in exactly the order in which processes were made to
   wait for it. */
  lemma GrantedInOrder(k: K, ticks: seq<Tick>, s: int, i: nat)
    requires Inv(k) && LegalRun(k, ticks) && SemQueue(k, s) == [] && i < |AllGrants(k, ticks, s)|
    ensures i < |AllClaims(k, ticks, s)| && AllGrants(k, ticks, s)[i] == AllClaims(k, ticks, s)[i]
  {
    hide Inv, LegalRun, Run, SemQueue, AllClaims, AllGrants;
    SemaphoreFifo(k, ticks, s);
    var cs, gs := AllClaims(k, ticks, s), AllGrants(k, ticks, s);
    assert [] + cs == cs;
    assert cs[i] == (gs + SemQueue(Run(k, ticks), s))[i];
  }

  // ----- mutual exclusion

  predicate Held(k: K, s: int) {
    SemOf(k, s).Claimed?
  }

  /** How often an instruction that leads to k' gives semaphore s to a process: a claim that goes on, or a hand-over. */
  function Takes(k: K, op: Op, k': K, s: int): nat {
    if op == ClaimOp(s) then (if At(k', k.cur) == OnSem(s) then 0 else 1) else |Grants(k, op, s)|
  }

  function Gives(op: Op, s: int): nat {
    if op == ReleaseOp(s) then 1 else 0
  }

  function Level(k: K, s: int): nat {
    if Held(k, s) then 1 else 0
  }

  /** What an instruction does to the state of a semaphore. */
  lemma StepHold(k: K, op: Op, iptr: int, now: Word, s: int)
    requires Inv(k) && Legal(k, op, now)
    ensures var k' := Step(k, op, iptr, now);
            Level(k', s) == Level(k, s) + Takes(k, op, k', s) - Gives(op, s) &&
            (op == ReleaseOp(s) ==> Held(k, s)) && (op != ReleaseOp(s) && Held(k, s) ==> Held(k', s)) &&
            (op == ClaimOp(s) ==> Held(k', s) && if Held(k, s) then At(k', k.cur) == OnSem(s) else k'.cur == k.cur)
  {
    hide Inv, Legal, Step, SemClaim, SemRelease, SemQueue, SemOf, At;
    var k' := Step(k, op, iptr, now);
    StepKeeps(k, op, iptr, now);
    match op
    case ClaimOp(x) => StepClaims(k, x, iptr, now); ClaimHold(k, x, iptr, now, s);
    case ReleaseOp(x) => StepReleases(k, x, iptr, now); ReleaseHold(k, x, s);
    case _ =>
      StepMoves(k, op, iptr, now);
      MovesSems(k, k', now);
      SameHold(k, k', s);
  }

  lemma SameHold(k: K, k': K, s: int)
    requires k'.sem == k.sem
    ensures Held(k', s) == Held(k, s)
  {
  }

  lemma ClaimHold(k: K, x: int, iptr: int, now: Word, s: int)
    requires Inv(k) && Inv(SemClaim(k, x, iptr, now)) && Legal(k, ClaimOp(x), now)
    ensures var k' := SemClaim(k, x, iptr, now);
            (if s == x then Held(k', s) else Held(k', s) == Held(k, s)) &&
            if Held(k, x) then At(k', k.cur) == OnSem(x) else k'.cur == k.cur && At(k', k.cur) != OnSem(x)
  {
    hide Inv, HalfRange, Park, JoinSem, RunNext, At, Slots;
    ClaimSem(k, x, iptr, now, x);
    if Held(k, x) {
      var k2 := JoinSem(Park(k, iptr), k.cur, x);
      JoinedHold(k, x, iptr, s);
      RunNextWorld(k2, now);
      SameHold(k2, RunNext(k2, now), s);
    } else {
      ClaimerRuns(k);
      PlaceKept(k, x);
    }
  }

  lemma JoinedHold(k: K, x: int, iptr: int, s: int)
    requires Held(k, x)
    ensures Held(JoinSem(Park(k, iptr), k.cur, x), s) == Held(k, s)
  {
    hide Slots, At, SemQueue;
  }

  lemma ClaimerRuns(k: K)
    requires Inv(k) && k.cur != 0
    ensures At(k, k.cur) == Running
  {
    CurrentPlace(k);
  }

  lemma PlaceKept(k: K, x: int)
    ensures At(SetSem(k, x, Claimed([])), k.cur) == At(k, k.cur)
  {
  }

  lemma ReleaseHold(k: K, x: int, s: int)
    requires Held(k, x)
    ensures var k' := SemRelease(k, x);
            if s == x then Held(k', s) <==> SemQueue(k, s) != [] else Held(k', s) == Held(k, s)
  {
    hide Slots, At;
  }

  /** How often the run gives semaphore s to a process, and how often it is released. */
  ghost function AllTakes(k: K, ticks: seq<Tick>, s: int): nat
    decreases |ticks|
  {
    if ticks == [] then 0
    else Takes(Fetch(k, ticks[0]), ticks[0].op, Next(k, ticks[0]), s) + AllTakes(Next(k, ticks[0]), ticks[1..], s)
  }

  function AllGives(ticks: seq<Tick>, s: int): nat
    decreases |ticks|
  {
    if ticks == [] then 0 else Gives(ticks[0].op, s) + AllGives(ticks[1..], s)
  }

  /** At any time a semaphore has been given once more than released, or as often: it has one holder, or none. */
  lemma {:induction false} OneHolder(k: K, ticks: seq<Tick>, s: int)
    requires Inv(k) && LegalRun(k, ticks)
    ensures Level(k, s) + AllTakes(k, ticks, s) == Level(Run(k, ticks), s) + AllGives(ticks, s)
    decreases |ticks|
  {
    hide Inv, Legal, Step, Fetch, Takes, Gives, Level;
    if ticks != [] {
      var t := ticks[0];
      FetchKeeps(k, t);
      FetchLevel(k, t, s);
      StepKeeps(Fetch(k, t), t.op, t.iptr, t.now);
      StepHold(Fetch(k, t), t.op, t.iptr, t.now, s);
      OneHolder(Next(k, t), ticks[1..], s);
    }
  }

  lemma FetchLevel(k: K, t: Tick, s: int)
    ensures Level(Fetch(k, t), s) == Level(k, s) && Held(Fetch(k, t), s) == Held(k, s)
  {
  }

  /** Every claim of s in the run leaves its process waiting for s. */
  ghost predicate ClaimersWait(k: K, ticks: seq<Tick>, s: int)
    decreases |ticks|
  {
    ticks == [] ||
    ((ticks[0].op == ClaimOp(s) ==> At(Next(k, ticks[0]), k.cur) == OnSem(s)) &&
     ClaimersWait(Next(k, ticks[0]), ticks[1..], s))
  }

  /**
   Mutual exclusion: a claim that finds the semaphore free goes on, and from then, or
   from a hand-over, until the next release every claim waits.
   */
  lemma {:induction false} Excludes(k: K, ticks: seq<Tick>, s: int)
    requires Inv(k) && LegalRun(k, ticks) && AllGives(ticks, s) == 0 && Held(k, s)
    ensures ClaimersWait(k, ticks, s) && Held(Run(k, ticks), s)
    decreases |ticks|
  {
    hide Inv, Legal, Step, Fetch, Held, At;
    if ticks != [] {
      var t := ticks[0];
      var k1 := Fetch(k, t);
      FetchKeeps(k, t);
      FetchLevel(k, t, s);
      FetchUp(k, t, 0);
      StepKeeps(k1, t.op, t.iptr, t.now);
      StepHold(k1, t.op, t.iptr, t.now, s);
      Excludes(Next(k, t), ticks[1..], s);
    }
  }

  /** The claim that begins the exclusion. */
  lemma ClaimExcludes(k: K, t: Tick, ticks: seq<Tick>)
    requires Inv(k) && t.op.ClaimOp? && !Held(k, t.op.s) && LegalRun(k, [t] + ticks) && AllGives(ticks, t.op.s) == 0
    ensures Next(k, t).cur == k.cur && ClaimersWait(Next(k, t), ticks, t.op.s) && Held(Run(k, [t] + ticks), t.op.s)
  {
    hide Inv, Legal, Step, Fetch, Held, At;
    var s, k1 := t.op.s, Fetch(k, t);
    assert ([t] + ticks)[0] == t && ([t] + ticks)[1..] == ticks;
    FetchKeeps(k, t);
    FetchLevel(k, t, s);
    FetchUp(k, t, 0);
    StepKeeps(k1, t.op, t.iptr, t.now);
    StepHold(k1, t.op, t.iptr, t.now, s);
    Excludes(Next(k, t), ticks, s);
  }
}
