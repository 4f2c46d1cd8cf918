/** The instructions as steps, what a well-formed program may execute, and what every run keeps. */
module KernelRuns {
  import opened Words
  import opened Kernel
  import opened KernelInv

  datatype Op =
    | StartOp(p: int, at: int) | StopOp | RunOp(p: int) | EndOp(par: int) | AdjustOp(p: int)
    | AltOp(timed: bool) | Enb(g: Guard, on: bool) | AltWtOp | TaltWtOp | Dis(g: Guard, on: bool, target: int) |
    AltEndOp
    | OutOp(c: int, ptr: int, len: int) | InOp(c: int, ptr: int, len: int)
    | XAbleOp(c: int) | XInOp(c: int, ptr: int, len: int) | XEndOp(c: int)
    | TinOp(t: Word)
    | ClaimOp(s: int) | ReleaseOp(s: int)
    | SyncOp(b: int) | EnrollOp(b: int, n: Word) | ResignOp(b: int, n: Word)
    | CountOp(par: int, many: int) | ReturnOp(at: int) | Compute(mem: map<int, int>)
    | Idle

  /** One instruction of the current process, whose next instruction is at iptr, at clock time now; Idle is the
   machine looking for work. */
  function Step(k: K, op: Op, iptr: int, now: Word): K {
    match op
    case StartOp(p, at) => StartP(k, p, at)
    case StopOp => RunNext(Park(k, iptr), now)
    case RunOp(p) => Enqueue(k, p)
    case EndOp(par) => EndP(k, par, Slots(k, par).temp, now)
    case AdjustOp(p) => Adjust(k, p)
    case AltOp(timed) => AltStart(k, timed)
    case Enb(g, on) => if on then Enable(k, g) else k
    case AltWtOp => AltWt(k, iptr, now)
    case TaltWtOp => TaltWt(k, iptr, now)
    case Dis(g, on, target) => if on then Disable(k, g, target) else Answer(k, false)
    case AltEndOp => AltEnd(k, iptr)
    case OutOp(c, ptr, len) => Out(k, c, ptr, len, iptr, now)
    case InOp(c, ptr, len) => In(k, c, ptr, len, iptr, now)
    case XAbleOp(c) => XAble(k, c, iptr, now)
    case XInOp(c, ptr, len) => XIn(k, c, ptr, len, iptr, now)
    case XEndOp(c) => XEnd(k, c)
    case TinOp(t) => Tin(k, t, iptr, now)
    case ClaimOp(s) => SemClaim(k, s, iptr, now)
    case ReleaseOp(s) => SemRelease(k, s)
    case SyncOp(b) => BarSync(k, b, iptr, now)
    case EnrollOp(b, n) => BarEnroll(k, b, n)
    case ResignOp(b, n) => BarResign(k, b, n)
    case CountOp(par, n) => SetJoin(k, par, n)
    case ReturnOp(at) => SetReturn(k, at)
    case Compute(mem) => SetMem(k, mem)
    case Idle => RunNext(k, now)
  }

  // ----- well-formed programs

  /** The current process is running outside any ALT. */
  ghost predicate Plain(k: K) {
    k.cur != 0 && k.cur !in k.alts
  }

  /** A process that can be started or named: halted and in no ALT. */
  ghost predicate Spare(k: K, p: int) {
    IsProcess(p) && At(k, p) == Halted && p !in k.alts
  }

  /** The times an instruction adds to those pending. */
  function NewTimes(k: K, op: Op, now: Word): set<Word> {
    match op
    case TinOp(t) => if TimeAfter(now, t) then {} else {t}
    case TaltWtOp =>
      var w := Slots(k, k.cur);
      if w.state == READY || w.tlink == TIME_NOT_SET || TimeAfter(now, w.time) then {} else {Wrap(w.time + 1)}
    case _ => {}
  }

  /**
   What the instruction demands: one reader and one writer per channel, ALT
   instructions bracketed over the same guards, semaphores released by an owner,
   barrier counts in range, and pending times within half the clock.
   */
  ghost predicate Legal(k: K, op: Op, now: Word) {
    HalfRange(k, k.timq, {now} + NewTimes(k, op, now)) &&
    match op
    case StartOp(p, _) => Plain(k) && Spare(k, p)
    case StopOp => Plain(k)
    case RunOp(p) => k.cur != 0 && Spare(k, p)
    case EndOp(par) => Plain(k) && (JoinCount(k, par) == 1 ==> par == k.cur || Spare(k, par))
    case AdjustOp(p) => Plain(k) && (p == k.cur || Spare(k, p))
    case AltOp(_) => Plain(k)
    case Enb(g, on) => k.cur != 0 && (on ==> MayEnable(k, g))
    case AltWtOp => MaySleep(k, false) || MayProceed(k, false, now)
    case TaltWtOp => MaySleep(k, true) || MayProceed(k, true, now)
    case Dis(g, on, target) => k.cur != 0 && (on ==> MayDisable(k, g, target))
    case AltEndOp => MayEndAlt(k)
    case OutOp(c, _, _) => Plain(k) && MayOutput(k, c)
    case InOp(c, _, _) => Plain(k) && MayInput(k, c)
    case XAbleOp(c) => Plain(k) && NoAltOn(k, c)
    case XInOp(c, _, _) => MayXIn(k, c)
    case XEndOp(c) => Plain(k) && NoAltOn(k, c) && (ChanWord(k, c) == 1 || IsProcess(ChanWord(k, c)))
    case TinOp(_) => Plain(k)
    case ClaimOp(_) => Plain(k)
    case ReleaseOp(s) => Plain(k) && SemOf(k, s).Claimed?
    case SyncOp(_) => Plain(k)
    case EnrollOp(b, n) => Plain(k) && BarOf(k, b).enrolled + n < WORD_MOD
    case ResignOp(b, n) => Plain(k) && n <= BarOf(k, b).enrolled && n <= BarOf(k, b).count
    case CountOp(_, _) => k.cur != 0
    case ReturnOp(_) => Plain(k)
    case Compute(_) => k.cur != 0
    case Idle => k.cur == 0
  }

  /** No other process is sending on the channel, and a process receiving there uses no ALT for it. */
  ghost predicate MayOutput(k: K, c: int) {
    var v := ChanWord(k, c);
    IsProcess(v) ==> At(k, v) == Receiving(c) && NoAltOn(k, c)
  }

  /** No other process reads the channel. */
  ghost predicate MayInput(k: K, c: int) {
    var v := ChanWord(k, c);
    NoAltOn(k, c) && (IsProcess(v) ==> At(k, v) == Sending(c))
  }

  /** An extended input follows its enable. */
  ghost predicate MayXIn(k: K, c: int) {
    var p, v := k.cur, ChanWord(k, c);
    p != 0 &&
    if p in k.alts then Info(k, p).phase == Extended && Info(k, p).todo == [Chan(c)]
    else NoAltOn(k, c) && (v == 1 || (IsProcess(v) && At(k, v) == Sending(c)))
  }

  // ----- windows outlive steps that touch no pending time

  lemma WindowKept(k: K, k': K, ts: set<Word>, ts': set<Word>)
    requires HalfRange(k, k.timq, ts) && ts' <= ts && (forall x :: x in k'.timq ==> x in k.timq)
    requires forall x :: x in k.timq ==> Slots(k', x).time == Slots(k, x).time
    ensures HalfRange(k', k'.timq, ts')
  {
    hide Ahead;
    var base: Word :| InWindow(k, k.timq, ts, base);
    assert InWindow(k', k'.timq, ts', base);
  }

  // ----- steps that put the current process to rest

  /** The timer queue and its times are the same. */
  ghost predicate SameTimers(k: K, k': K) {
    k'.timq == k.timq && forall x :: x in k.timq ==> Slots(k', x).time == Slots(k, x).time
  }

  lemma ParkTimers(k: K, iptr: int)
    ensures SameTimers(k, Park(k, iptr))
  {
  }

  lemma WakeTimers(k: K, q: int)
    ensures SameTimers(k, Wake(k, q))
  {
  }

  lemma SettleTimers(k: K, p: int, c: int, sending: bool, ptr: int, len: int)
    ensures SameTimers(k, Settle(k, p, c, sending, ptr, len))
  {
  }

  lemma ArriveTimers(k: K, p: int, c: int, sending: bool, ptr: int, len: int)
    ensures SameTimers(k, Arrive(k, p, c, sending, ptr, len))
  {
    hide Wake, Settle;
    var v := ChanWord(k, c);
    if v % 2 == 1 && v != 1 {
      WakeTimers(k, v - 1);
      SettleTimers(Wake(k, v - 1), p, c, sending, ptr, len);
    } else {
      SettleTimers(k, p, c, sending, ptr, len);
    }
  }

  lemma EnqueueTimers(k: K, p: int)
    ensures SameTimers(k, Enqueue(k, p))
  {
  }

  lemma TimersChain(k: K, k1: K, k2: K, ts: set<Word>, ts': set<Word>)
    requires HalfRange(k, k.timq, ts) && ts' <= ts && SameTimers(k, k1) && SameTimers(k1, k2)
    ensures HalfRange(k2, k2.timq, ts')
  {
    hide HalfRange;
    WindowKept(k, k2, ts, ts');
  }

  lemma ParkWorld(k: K, iptr: int, c: int)
    requires k.cur !in k.alts
    ensures var k' := Park(k, iptr);
            k'.alts == k.alts && k'.cur == 0 && ChanWord(k', c) == ChanWord(k, c) &&
            (NoAltOn(k, c) ==> NoAltOn(k', c)) &&
            forall x :: x != k.cur ==> Slots(k', x) == Slots(k, x)
  {
    var k' := Park(k, iptr);
    if NoAltOn(k, c) {
      forall x ensures !Uses(k', x, c) { assert !Uses(k, x, c); }
    }
  }

  /** The current process blocks on a channel. */
  lemma BlockKeeps(k: K, c: int, sending: bool, ptr: int, len: int, iptr: int, now: Word)
    requires Inv(k) && Plain(k) && HalfRange(k, k.timq, {now})
    requires ChanWord(k, c) == 0 || (ChanWord(k, c) % 2 == 1 && ChanWord(k, c) != 1)
    requires !sending ==> NoAltOn(k, c)
    ensures var k2, v := Arrive(Park(k, iptr), k.cur, c, sending, ptr, len), ChanWord(k, c);
            Inv(k2) && k2.cur == 0 && HalfRange(k2, k2.timq, {now}) &&
            (v % 2 == 1 && v - 1 != k.cur && Slots(k, v - 1).state == WAITING ==> At(k2, v - 1) == Halted)
  {
    var p, k1 := k.cur, Park(k, iptr);
    hide Arrive, Inv, HalfRange;
    ParkKeeps(k, iptr);
    CurrentPlace(k);
    ParkTimers(k, iptr);
    ArriveTimers(k1, p, c, sending, ptr, len);
    ParkWorld(k, iptr, c);
    hide Park;
    ArriveKeeps(k1, p, c, sending, ptr, len);
    TimersChain(k, k1, Arrive(k1, p, c, sending, ptr, len), {now}, {now});
  }

  /** The current process goes to the back of the run queue. */
  lemma RequeueKeeps(k: K, iptr: int, now: Word)
    requires Inv(k) && Plain(k) && HalfRange(k, k.timq, {now})
    ensures var k2 := Enqueue(Park(k, iptr), k.cur); Inv(k2) && k2.cur == 0 && HalfRange(k2, k2.timq, {now})
    ensures forall x :: x != k.cur ==> At(Enqueue(Park(k, iptr), k.cur), x) == At(k, x)
  {
    var p, k1 := k.cur, Park(k, iptr);
    ParkKeeps(k, iptr);
    CurrentPlace(k);
    ParkTimers(k, iptr);
    EnqueueTimers(k1, p);
    hide Inv, HalfRange;
    EnqueueKeeps(k1, p);
    TimersChain(k, k1, Enqueue(k1, p), {now}, {now});
  }

  // ----- scheduling touches nothing else

  /** Channels, semaphores, barriers, ALTs and all the scheduler does not touch are the same. */
  ghost predicate SameWorld(k: K, k': K) {
    k'.chan == k.chan && k'.sem == k.sem && k'.bar == k.bar && k'.alts == k.alts && k'.env == k.env
  }

  /** Starting, queueing, parking and changing processes. */
  lemma MoveWorld(k: K, p: int, at: int, iptr: int)
    ensures SameWorld(k, Park(k, iptr)) && SameWorld(k, Enqueue(k, p)) && SameWorld(k, StartP(k, p, at)) &&
            SameWorld(k, Adjust(k, p))
  {
    hide Slots, Enqueue;
    var k1 := SetWs(k, p, Slots(k, p).(iptr := at));
    assert SameWorld(k, k1) && SameWorld(k, SetAt(k, k.cur, Halted));
    EnqueueWorld(k, p);
    EnqueueWorld(k1, p);
  }

  lemma AwaitWorld(k: K, p: int, t: Word, iptr: int)
    ensures SameWorld(k, AwaitTime(k, p, t, iptr))
  {
    hide Slots, InsertTime;
    var k1 := TimerInsert(k, p, t, iptr);
    assert SameWorld(k, k1);
    assert SameWorld(k1, SetWs(k1, p, Slots(k1, p).(state := 0)));
  }

  lemma EnqueueWorld(k: K, p: int)
    ensures SameWorld(k, Enqueue(k, p))
  {
    hide Slots;
  }

  lemma ExpireWorld(k: K, now: Word)
    requires k.timq != []
    ensures SameWorld(k, Expire(k, now))
  {
    hide Slots, Enqueue;
    var p, k1 := k.timq[0], k.(timq := k.timq[1..]);
    var w := Slots(k, p).(tlink := TIME_SET, time := now);
    assert SameWorld(k, SetWs(k1, p, w)) && SameWorld(k, SetWs(k1, p, w.(state := READY)));
    EnqueueWorld(SetWs(k1, p, w.(state := READY)), p);
  }

  lemma {:induction false} WalkWorld(k: K, now: Word)
    ensures SameWorld(k, Walk(k, now))
    decreases |k.timq|
  {
    hide Expire, TimeAfter;
    if k.timq != [] && !TimeAfter(Slots(k, k.timq[0]).time, now) {
      ExpireWorld(k, now);
      WalkWorld(Expire(k, now), now);
    }
  }

  lemma DispatchWorld(k: K)
    ensures SameWorld(k, Dispatch(k))
  {
    hide Slots;
  }

  lemma RunNextWorld(k: K, now: Word)
    ensures SameWorld(k, RunNext(k, now))
  {
    hide Walk, Dispatch;
    WalkWorld(k, now);
    DispatchWorld(if k.tq then Sync(k, now) else k);
  }

  /** A channel word is empty, disconnected, a process blocked there, or the tag of an ALTer that uses the channel. */
  lemma WordKinds(k: K, c: int)
    requires Inv(k)
    ensures var v := ChanWord(k, c);
            if v % 2 == 0
              then v == 0 || (IsProcess(v) && Untag(v) == v && (At(k, v) == Sending(c) || At(k, v) == Receiving(c)))
            else Untag(v) == v - 1 && (v == 1 || (IsProcess(v - 1) && Uses(k, v - 1, c)))
  {
    assert WordOk(k, c);
  }

  /** An ALTer found in a channel by another process is waiting or ready. */
  lemma TagState(k: K, c: int)
    requires Inv(k) && Plain(k) && ChanWord(k, c) % 2 == 1 && ChanWord(k, c) != 1
    ensures var q := ChanWord(k, c) - 1;
            q != k.cur && IsProcess(q) && q in k.alts && Asleep(k, q) &&
            (Slots(k, q).state == WAITING || Slots(k, q).state == READY)
  {
    WordKinds(k, c);
    assert AltOk(k, ChanWord(k, c) - 1);
    CurrentPlace(k);
  }

  lemma LoadKnown(k: K, q: int)
    requires Inv(k) && k.cur == 0 && At(k, q) == Halted && IsProcess(q) && (q in k.alts ==> Asleep(k, q))
    ensures Inv(Load(k, q)) && SameWorld(k, Load(k, q))
  {
    hide Inv;
    LoadKeeps(k, q);
  }

  /** An exchange with the process blocked in the channel: it runs at once, and the current one is queued. */
  lemma ExchangeKeeps(k: K, c: int, iptr: int, now: Word)
    requires Inv(k) && Plain(k) && HalfRange(k, k.timq, {now}) && IsProcess(ChanWord(k, c)) && NoAltOn(k, c)
    ensures var q := ChanWord(k, c); var k' := Load(Enqueue(Park(Leave(k, c), iptr), k.cur), q);
            Inv(k') && k'.env == k.env
  {
    var p, q, k1 := k.cur, ChanWord(k, c), Leave(k, c);
    LeaveKeeps(k, c);
    LeaveTimers(k, c);
    hide Inv, HalfRange;
    assert k1.cur == p && k1.alts == k.alts;
    WindowSame(k, k1, {now});
    hide Leave;
    RequeueKeeps(k1, iptr, now);
    LoadKnown(Enqueue(Park(k1, iptr), p), q);
  }

  lemma LeaveTimers(k: K, c: int)
    ensures SameTimers(k, Leave(k, c))
  {
  }

  lemma WindowSame(k: K, k': K, ts: set<Word>)
    requires HalfRange(k, k.timq, ts) && SameTimers(k, k')
    ensures HalfRange(k', k'.timq, ts)
  {
    hide HalfRange;
    WindowKept(k, k', ts, ts);
  }

  lemma BlockWorld(k: K, c: int, sending: bool, ptr: int, len: int, iptr: int)
    ensures var k2 := Arrive(Park(k, iptr), k.cur, c, sending, ptr, len);
            k2.env == k.env && k2.alts == k.alts && SameAsleep(k, k2)
  {
  }

  ghost predicate SameAsleep(k: K, k': K) {
    forall q :: Asleep(k', q) == Asleep(k, q)
  }

  /** A process that blocks where an ALTer waits hands over to it; elsewhere the next process runs. */
  lemma SettleKeeps(k: K, c: int, sending: bool, ptr: int, len: int, iptr: int, now: Word)
    requires Inv(k) && Plain(k) && HalfRange(k, k.timq, {now})
    requires ChanWord(k, c) == 0 || (ChanWord(k, c) % 2 == 1 && ChanWord(k, c) != 1)
    requires !sending ==> NoAltOn(k, c)
    ensures var k2 := Arrive(Park(k, iptr), k.cur, c, sending, ptr, len);
            Inv(RunNext(k2, now)) && RunNext(k2, now).env == k.env
    ensures var k2, v := Arrive(Park(k, iptr), k.cur, c, sending, ptr, len), ChanWord(k, c);
            v % 2 == 1 && Slots(k, v - 1).state == WAITING ==> Inv(Load(k2, v - 1)) && Load(k2, v - 1).env == k.env
  {
    hide Inv, Arrive, Park, HalfRange, RunNext, Load;
    var k2, v := Arrive(Park(k, iptr), k.cur, c, sending, ptr, len), ChanWord(k, c);
    BlockWorld(k, c, sending, ptr, len, iptr);
    BlockKeeps(k, c, sending, ptr, len, iptr, now);
    RunNextKeeps(k2, now);
    RunNextWorld(k2, now);
    if v % 2 == 1 {
      TagState(k, c);
      if Slots(k, v - 1).state == WAITING { LoadKnown(k2, v - 1); }
    }
  }

  /** A change of what the scheduler does not touch changes nothing it looks at. */
  lemma EnvKeeps(k: K, k1: K, ts: set<Word>)
    requires Inv(k) && HalfRange(k, k.timq, ts) && k1 == k.(env := k1.env)
    ensures Inv(k1) && HalfRange(k1, k1.timq, ts)
    ensures forall c :: ChanWord(k1, c) == ChanWord(k, c) && (NoAltOn(k, c) ==> NoAltOn(k1, c))
    ensures forall x :: At(k1, x) == At(k, x) && Slots(k1, x) == Slots(k, x)
  {
    hide HalfRange, Inv;
    CoreKeeps(k, k1);
    WindowSame(k, k1, ts);
    forall c | NoAltOn(k, c) ensures NoAltOn(k1, c) {
      forall q ensures !Uses(k1, q, c) { assert !Uses(k, q, c); }
    }
  }

  lemma OutKeeps(k: K, c: int, ptr: int, len: int, iptr: int, now: Word)
    requires Inv(k) && HalfRange(k, k.timq, {now}) && Plain(k) && MayOutput(k, c)
    ensures Inv(Out(k, c, ptr, len, iptr, now)) && Out(k, c, ptr, len, iptr, now).env.eflags == k.env.eflags
  {
    hide Inv, HalfRange, Arrive, Park, RunNext, Load, Enqueue, Leave, NoAltOn;
    var v, k1 := ChanWord(k, c), Say(k, c, ptr, len);
    WordKinds(k, c);
    EnvKeeps(k, k1, {now});
    if v == 0 {
      SettleKeeps(k1, c, true, ptr, len, iptr, now);
    } else if v % 2 == 0 {
      var k2 := Deliver(k1, c, Slots(k, v).state, ptr, len);
      EnvKeeps(k, k2, {now});
      ExchangeKeeps(k2, c, iptr, now);
    } else if v != 1 {
      TagState(k, c);
      SettleKeeps(k1, c, true, ptr, len, iptr, now);
    } else {
      YieldKeeps(k, iptr, now);
    }
  }

  /** The current process goes to the back of the queue and the next one runs. */
  lemma YieldKeeps(k: K, iptr: int, now: Word)
    requires Inv(k) && Plain(k) && HalfRange(k, k.timq, {now})
    ensures var k' := RunNext(Enqueue(Park(k, iptr), k.cur), now); Inv(k') && k'.env == k.env
  {
    var k2 := Enqueue(Park(k, iptr), k.cur);
    assert k2.env == k.env;
    hide Inv, HalfRange, Enqueue, Park, RunNext;
    RequeueKeeps(k, iptr, now);
    RunNextKeeps(k2, now);
    RunNextWorld(k2, now);
  }

  lemma InKeeps(k: K, c: int, ptr: int, len: int, iptr: int, now: Word)
    requires Inv(k) && HalfRange(k, k.timq, {now}) && Plain(k) && MayInput(k, c)
    ensures Inv(In(k, c, ptr, len, iptr, now)) && In(k, c, ptr, len, iptr, now).env.eflags == k.env.eflags
  {
    hide Inv, HalfRange, Arrive, Park, RunNext, Load, Enqueue, Leave;
    var v := ChanWord(k, c);
    WordKinds(k, c);
    if v == 0 {
      SettleKeeps(k, c, false, ptr, len, iptr, now);
    } else if v % 2 == 0 {
      var k1 := Deliver(k, c, ptr, Slots(k, v).state, len);
      EnvKeeps(k, k1, {now});
      ExchangeKeeps(k1, c, iptr, now);
    } else {
      assert v == 1 by { assert v != 1 ==> Uses(k, v - 1, c); }
      var k1 := SetMem(k, Zero(k.env.mem, ptr, len));
      EnvKeeps(k, k1, {now});
      YieldKeeps(k1, iptr, now);
    }
  }

  lemma XAbleKeeps(k: K, c: int, iptr: int, now: Word)
    requires Inv(k) && HalfRange(k, k.timq, {now}) && Plain(k) && NoAltOn(k, c)
    ensures Inv(XAble(k, c, iptr, now)) && XAble(k, c, iptr, now).env.eflags == k.env.eflags
  {
    if ChanWord(k, c) == 0 {
      var p, k1 := k.cur, Park(k, iptr);
      var k2 := AwaitChannel(k1, p, c);
      assert k2.env == k.env;
      hide Inv, HalfRange, AwaitChannel, RunNext;
      ParkKeeps(k, iptr);
      CurrentPlace(k);
      ParkTimers(k, iptr);
      ParkWorld(k, iptr, c);
      AwaitChannelKeeps(k1, p, c);
      ChannelAwaitTimers(k1, p, c);
      TimersChain(k, k1, k2, {now}, {now});
      RunNextKeeps(k2, now);
      RunNextWorld(k2, now);
    }
  }

  lemma ChannelAwaitTimers(k: K, p: int, c: int)
    ensures SameTimers(k, AwaitChannel(k, p, c))
  {
  }

  lemma XInKeeps(k: K, c: int, ptr: int, len: int, iptr: int, now: Word)
    requires Inv(k) && HalfRange(k, k.timq, {now}) && MayXIn(k, c)
    ensures Inv(XIn(k, c, ptr, len, iptr, now)) && XIn(k, c, ptr, len, iptr, now).env.eflags == k.env.eflags
  {
    hide HalfRange, RunNext, Inv, EndAlt, MayXIn, Enqueue, Park, Slots;
    var p, v, k1 := k.cur, ChanWord(k, c), EndAlt(k, k.cur);
    XInReady(k, c);
    EndExtended(k, c);
    XInStart(k, c, {now});
    if v == 1 {
      var k2 := SetMem(k1, Zero(k.env.mem, ptr, len));
      EnvKeeps(k1, k2, {now});
      YieldKeeps(k2, iptr, now);
    } else {
      EnvKeeps(k1, XIn(k, c, ptr, len, iptr, now), {now});
    }
  }

  lemma XInStart(k: K, c: int, ts: set<Word>)
    requires HalfRange(k, k.timq, ts) && MayXIn(k, c)
    ensures var k1 := EndAlt(k, k.cur); HalfRange(k1, k1.timq, ts) && k1.env == k.env && Plain(k1) && k1.cur == k.cur
  {
    var k1 := EndAlt(k, k.cur);
    hide HalfRange;
    WindowSame(k, k1, ts);
  }

  /** An extended input always finds a sender or a disconnected channel. */
  lemma XInReady(k: K, c: int)
    requires Inv(k) && MayXIn(k, c)
    ensures var v := ChanWord(k, c); v == 1 || (v != 0 && v % 2 == 0 && IsProcess(v) && At(k, v) == Sending(c))
    ensures k.cur !in k.timq && forall d :: ChanWord(k, d) != k.cur + 1
  {
    hide Inv;
    WordKinds(k, c);
    CurrentPlace(k);
    if k.cur in k.alts {
      ExtendedReady(k, c);
    } else {
      NoTag(k);
    }
  }

  /** No channel holds the tag of a process in no ALT. */
  lemma NoTag(k: K)
    requires Inv(k) && Plain(k)
    ensures forall d :: ChanWord(k, d) != k.cur + 1
  {
    CurrentPlace(k);
    forall d ensures ChanWord(k, d) != k.cur + 1 { assert WordOk(k, d); }
  }

  /** A process resumed from an extended input's wait has its partner, and is on no channel or timer queue. */
  lemma ExtendedReady(k: K, c: int)
    requires Inv(k) && MayXIn(k, c) && k.cur in k.alts
    ensures ChanWord(k, c) != 0 && (IsProcess(ChanWord(k, c)) ==> At(k, ChanWord(k, c)) == Sending(c))
    ensures k.cur !in k.timq && forall d :: ChanWord(k, d) != k.cur + 1
    ensures forall x :: Uses(k, x, c) ==> x == k.cur
  {
    var p := k.cur;
    CurrentPlace(k);
    assert AltOk(k, p) && Uses(k, p, c);
    forall d ensures ChanWord(k, d) != p + 1 { assert WordOk(k, d); }
  }

  lemma EndExtended(k: K, c: int)
    requires Inv(k) && MayXIn(k, c)
    ensures Inv(EndAlt(k, k.cur))
  {
    var k', p := EndAlt(k, k.cur), k.cur;
    XInReady(k, c);
    hide Inv;
    assert OwnSlots(k, k', p);
    EndAltKeeps(k, k', p);
  }

  lemma XEndKeeps(k: K, c: int)
    requires Inv(k) && Plain(k) && NoAltOn(k, c) && (ChanWord(k, c) == 1 || IsProcess(ChanWord(k, c)))
    ensures Inv(XEnd(k, c)) && XEnd(k, c).env.eflags == k.env.eflags
  {
    var v := ChanWord(k, c);
    if v != 1 {
      var k1 := Leave(k, c);
      assert k1.env == k.env && k1.alts == k.alts;
      hide Inv, Leave, NoAltOn;
      LeaveKeeps(k, c);
      EnqueueKeeps(k1, v);
      var k2 := Enqueue(k1, v);
      assert k2.env == k.env;
      CoreKeeps(k2, XEnd(k, c));
    }
  }

  /** The state of a process that waits for a time, before the next process runs. */
  lemma TinReady(k: K, t: Word, iptr: int, now: Word)
    requires Inv(k) && Plain(k) && HalfRange(k, k.timq, {now, t})
    ensures var k2 := AwaitTime(Park(k, iptr), k.cur, t, iptr); Inv(k2) && HalfRange(k2, k2.timq, {now}) && k2.cur == 0
  {
    var p, k1 := k.cur, Park(k, iptr);
    var k2 := AwaitTime(k1, p, t, iptr);
    AwaitWindow(k1, p, t, iptr);
    hide Inv, HalfRange, AwaitTime, TimeAfter;
    ParkKeeps(k, iptr);
    CurrentPlace(k);
    ParkTimers(k, iptr);
    WindowSame(k, k1, {now, t});
    hide Park;
    SmallerWindow(k1, {now, t}, {t});
    AwaitTimeKeeps(k1, p, t, iptr);
    AddedWindow(k1, k2, p, t, now);
  }

  lemma TinKeeps(k: K, t: Word, iptr: int, now: Word)
    requires Inv(k) && Plain(k) && HalfRange(k, k.timq, {now} + NewTimes(k, TinOp(t), now))
    ensures Inv(Tin(k, t, iptr, now)) && Tin(k, t, iptr, now).env == k.env
  {
    hide Inv, HalfRange, AwaitTime, Park, RunNext, TimeAfter;
    if !TimeAfter(now, t) {
      var k2 := AwaitTime(Park(k, iptr), k.cur, t, iptr);
      MoveWorld(k, 0, 0, iptr);
      AwaitWorld(Park(k, iptr), k.cur, t, iptr);
      assert NewTimes(k, TinOp(t), now) == {t} && {now} + {t} == {now, t};
      TinReady(k, t, iptr, now);
      RunNextKeeps(k2, now);
      RunNextWorld(k2, now);
    }
  }

  lemma SmallerWindow(k: K, ts: set<Word>, ts': set<Word>)
    requires HalfRange(k, k.timq, ts) && ts' <= ts
    ensures HalfRange(k, k.timq, ts')
  {
    hide HalfRange;
    WindowKept(k, k, ts, ts');
  }

  /** A process joins the timer queue with time t. */
  ghost predicate Added(k: K, k': K, p: int, t: Word) {
    && (forall x :: x in k'.timq ==> x == p || x in k.timq) && Slots(k', p).time == t
    && forall x :: x != p ==> Slots(k', x).time == Slots(k, x).time
  }

  lemma AwaitWindow(k: K, p: int, t: Word, iptr: int)
    ensures Added(k, AwaitTime(k, p, t, iptr), p, t)
  {
    hide InsertTime;
    InsertMembers(k.timq, k, p, t);
  }

  lemma AddedWindow(k: K, k': K, p: int, t: Word, now: Word)
    requires HalfRange(k, k.timq, {now, t}) && Added(k, k', p, t)
    ensures HalfRange(k', k'.timq, {now})
  {
    hide Ahead;
    var base: Word :| InWindow(k, k.timq, {now, t}, base);
    assert InWindow(k', k'.timq, {now}, base);
  }

  lemma AltWtKeeps(k: K, iptr: int, now: Word)
    requires Inv(k) && HalfRange(k, k.timq, {now}) && (MaySleep(k, false) || MayProceed(k, false, now))
    ensures Inv(AltWt(k, iptr, now)) && AltWt(k, iptr, now).env == k.env
  {
    var p := k.cur;
    if Slots(k, p).state == READY {
      ProceedKeeps(k, false, now);
    } else {
      UntimedSleepKeeps(k, iptr, now);
    }
  }

  /** The state of an untimed sleeper before the next process runs. */
  lemma AsleepState(k: K, iptr: int, now: Word)
    requires Inv(k) && HalfRange(k, k.timq, {now}) && MaySleep(k, Info(k, k.cur).timed)
    requires Info(k, k.cur).timed ==> Slots(k, k.cur).tlink == TIME_NOT_SET
    ensures var k1 := Sleep(k, iptr); Inv(k1) && HalfRange(k1, k1.timq, {now})
  {
    var k1 := Sleep(k, iptr);
    assert AltOk(k, k.cur);
    assert !HasTimer(Info(k, k.cur).todo);
    hide Inv, HalfRange, AltOk, HasTimer;
    SleepKeeps(k, iptr);
    SleepEffect(k, iptr);
    assert SameTimers(k, k1);
    hide Sleep;
    WindowSame(k, k1, {now});
  }

  /** The state of a sleeper on the timer queue before the next process runs. */
  lemma TimedState(k: K, iptr: int, now: Word)
    requires Inv(k) && MaySleep(k, true) && Slots(k, k.cur).tlink != TIME_NOT_SET
    requires HalfRange(k, k.timq, {now, Wrap(Slots(k, k.cur).time + 1)})
    ensures var k2 := Sleep(TimerInsert(k, k.cur, Wrap(Slots(k, k.cur).time + 1), iptr), iptr);
            Inv(k2) && HalfRange(k2, k2.timq, {now})
  {
    hide HalfRange, HasTimer, Sleep;
    var p, t := k.cur, Wrap(Slots(k, k.cur).time + 1);
    var k1 := TimerInsert(k, p, t, iptr);
    var k2 := Sleep(k1, iptr);
    assert AltOk(k, p);
    assert HasTimer(Info(k, p).todo);
    InsertMembers(k.timq, k, p, t);
    SleepEffect(k1, iptr);
    assert Added(k, k2, p, t) by { hide Inv, HalfRange, Sleep, AltOk, InsertTime; }
    hide Inv, AltOk, TimerInsert, Added;
    SmallerWindow(k, {now, t}, {t});
    TimedSleepKeeps(k, iptr);
    AddedWindow(k, k2, p, t, now);
  }

  /** An ALT without timer guards goes to sleep and the next process runs. */
  lemma UntimedSleepKeeps(k: K, iptr: int, now: Word)
    requires Inv(k) && HalfRange(k, k.timq, {now}) && MaySleep(k, Info(k, k.cur).timed) &&
             (Info(k, k.cur).timed ==> Slots(k, k.cur).tlink == TIME_NOT_SET)
    ensures var k' := RunNext(Sleep(k, iptr), now); Inv(k') && k'.env == k.env
  {
    var k1 := Sleep(k, iptr);
    assert k1.env == k.env;
    hide Inv, HalfRange, RunNext, Sleep;
    AsleepState(k, iptr, now);
    RunNextKeeps(k1, now);
    RunNextWorld(k1, now);
  }

  lemma TaltWtKeeps(k: K, iptr: int, now: Word)
    requires Inv(k) && HalfRange(k, k.timq, {now} + NewTimes(k, TaltWtOp, now)) &&
             (MaySleep(k, true) || MayProceed(k, true, now))
    ensures Inv(TaltWt(k, iptr, now)) && TaltWt(k, iptr, now).env == k.env
  {
    hide Inv, HalfRange, RunNext, TimeAfter, Sleep, Proceed;
    var p, w := k.cur, Slots(k, k.cur);
    SmallerWindow(k, {now} + NewTimes(k, TaltWtOp, now), {now});
    if w.state == READY {
      ProceedKeeps(k, true, now);
      ProceedEnv(k, true, now);
    } else if w.tlink == TIME_NOT_SET {
      UntimedSleepKeeps(k, iptr, now);
    } else if TimeAfter(now, w.time) {
      ProceedKeeps(k, true, now);
      ProceedEnv(k, true, now);
    } else {
      assert {now} + NewTimes(k, TaltWtOp, now) == {now, Wrap(w.time + 1)};
      TimedSleep(k, iptr, now);
    }
  }

  lemma ProceedEnv(k: K, timed: bool, now: Word)
    ensures Proceed(k, timed, now).env == k.env
  {
  }

  lemma TimedSleep(k: K, iptr: int, now: Word)
    requires Inv(k) && MaySleep(k, true) && Slots(k, k.cur).tlink != TIME_NOT_SET
    requires HalfRange(k, k.timq, {now, Wrap(Slots(k, k.cur).time + 1)})
    ensures var k' := RunNext(Sleep(TimerInsert(k, k.cur, Wrap(Slots(k, k.cur).time + 1), iptr), iptr), now);
            Inv(k') && k'.env == k.env
  {
    var k2 := Sleep(TimerInsert(k, k.cur, Wrap(Slots(k, k.cur).time + 1), iptr), iptr);
    assert k2.env == k.env;
    hide Inv, HalfRange, RunNext, Sleep, TimerInsert;
    TimedState(k, iptr, now);
    RunNextKeeps(k2, now);
    RunNextWorld(k2, now);
  }

  /** The state of a process that joins a semaphore's queue, before the next process runs. */
  lemma SemReady(k: K, s: int, iptr: int, now: Word)
    requires Inv(k) && Plain(k) && HalfRange(k, k.timq, {now})
    ensures var k2 := JoinSem(Park(k, iptr), k.cur, s); Inv(k2) && HalfRange(k2, k2.timq, {now}) && k2.cur == 0
  {
    var p, k1 := k.cur, Park(k, iptr);
    var k2 := JoinSem(k1, p, s);
    assert SameTimers(k1, k2);
    hide Inv, HalfRange, JoinSem;
    ParkKeeps(k, iptr);
    CurrentPlace(k);
    ParkTimers(k, iptr);
    assert k1.alts == k.alts && k1.cur == 0;
    hide Park, SameTimers;
    JoinSemKeeps(k1, p, s);
    TimersChain(k, k1, k2, {now}, {now});
  }

  lemma SemClaimKeeps(k: K, s: int, iptr: int, now: Word)
    requires Inv(k) && Plain(k) && HalfRange(k, k.timq, {now})
    ensures Inv(SemClaim(k, s, iptr, now)) && SemClaim(k, s, iptr, now).env == k.env
  {
    if SemOf(k, s) == Free {
      SetSemKeeps(k, s, Claimed([]));
    } else {
      var k2 := JoinSem(Park(k, iptr), k.cur, s);
      assert k2.env == k.env;
      hide Inv, HalfRange, RunNext, JoinSem, Park;
      SemReady(k, s, iptr, now);
      RunNextKeeps(k2, now);
      RunNextWorld(k2, now);
    }
  }

  lemma SemReleaseKeeps(k: K, s: int)
    requires Inv(k) && SemOf(k, s).Claimed?
    ensures Inv(SemRelease(k, s)) && SemRelease(k, s).env == k.env
  {
    var q := SemQueue(k, s);
    if q == [] {
      SetSemKeeps(k, s, Free);
    } else {
      var k1 := LeaveSem(k, s);
      assert k1.alts == k.alts;
      hide Inv, LeaveSem;
      LeaveSemKeeps(k, s);
      EnqueueKeeps(k1, q[0]);
    }
  }

  lemma {:induction false} DrainEnv(k: K, b: int)
    ensures DrainBar(k, b).env == k.env && forall x :: x != b ==> BarOf(DrainBar(k, b), x) == BarOf(k, x)
    decreases |BarOf(k, b).queue|
  {
    if BarOf(k, b).queue != [] {
      var k1 := Enqueue(OffBar(k, b), BarOf(k, b).queue[0]);
      assert k1.env == k.env && forall x :: x != b ==> BarOf(k1, x) == BarOf(k, x);
      assert |BarOf(k1, b).queue| < |BarOf(k, b).queue|;
      hide Enqueue, OffBar;
      DrainEnv(k1, b);
    }
  }

  lemma BarCompleteKeeps(k: K, b: int, enrolled: Word)
    requires Inv(k)
    ensures Inv(BarComplete(k, b, enrolled)) && BarComplete(k, b, enrolled).env == k.env
  {
    hide Inv, DrainBar;
    DrainKeeps(k, b);
    DrainEnv(k, b);
    SetBarKeeps(DrainBar(k, b), b, Bar(enrolled, enrolled, []));
  }

  /** The state of a process that waits at a barrier, before the next process runs. */
  lemma BarReady(k: K, b: int, iptr: int, now: Word)
    requires Inv(k) && Plain(k) && HalfRange(k, k.timq, {now})
    ensures var k2 := JoinBar(Park(k, iptr), k.cur, b); Inv(k2) && HalfRange(k2, k2.timq, {now}) && k2.cur == 0
  {
    var p, k1 := k.cur, Park(k, iptr);
    var k2 := JoinBar(k1, p, b);
    assert SameTimers(k1, k2);
    hide Inv, HalfRange, JoinBar;
    ParkKeeps(k, iptr);
    CurrentPlace(k);
    ParkTimers(k, iptr);
    assert k1.alts == k.alts && k1.cur == 0;
    hide Park, SameTimers;
    JoinBarKeeps(k1, p, b);
    TimersChain(k, k1, k2, {now}, {now});
  }

  lemma BarSyncKeeps(k: K, b: int, iptr: int, now: Word)
    requires Inv(k) && Plain(k) && HalfRange(k, k.timq, {now})
    ensures Inv(BarSync(k, b, iptr, now)) && BarSync(k, b, iptr, now).env == k.env
  {
    if BarOf(k, b).count > 1 {
      var k2 := JoinBar(Park(k, iptr), k.cur, b);
      assert k2.env == k.env;
      hide Inv, HalfRange, RunNext, JoinBar, Park;
      BarReady(k, b, iptr, now);
      RunNextKeeps(k2, now);
      RunNextWorld(k2, now);
    } else {
      hide Inv, HalfRange, BarComplete;
      BarCompleteKeeps(k, b, BarOf(k, b).enrolled);
    }
  }

  lemma BarCountKeeps(k: K, b: int, n: Word)
    requires Inv(k)
    ensures BarOf(k, b).enrolled + n < WORD_MOD ==> Inv(BarEnroll(k, b, n)) && BarEnroll(k, b, n).env == k.env
    ensures n <= BarOf(k, b).enrolled && n <= BarOf(k, b).count ==>
            Inv(BarResign(k, b, n)) && BarResign(k, b, n).env == k.env
  {
    hide Inv, BarComplete;
    var bar := BarOf(k, b);
    if bar.enrolled + n < WORD_MOD {
      SetBarKeeps(k, b, bar.(enrolled := bar.enrolled + n, count := Wrap(bar.count + n)));
    }
    if n <= bar.enrolled && n <= bar.count {
      SetBarKeeps(k, b, bar.(enrolled := bar.enrolled - n, count := bar.count - n));
      BarCompleteKeeps(k, b, bar.enrolled - n);
    }
  }

  // ----- processes come and go

  lemma StartKeeps(k: K, p: int, at: int)
    requires Inv(k) && Spare(k, p)
    ensures Inv(StartP(k, p, at)) && StartP(k, p, at).env == k.env
  {
    hide ChannelsOk, SemsOk, BarsOk, TimersOk, AltsOk, NoDup, IsProcess, SetWs;
    var k1 := SetWs(k, p, Slots(k, p).(iptr := at));
    assert forall x :: At(k1, x) == At(k, x);
    assert Placed(k1);
    LooseKeeps(k, k1, p);
    assert At(k1, p) == Halted && k1.alts == k.alts;
    hide Inv;
    EnqueueKeeps(k1, p);
  }

  /** The current process stops. */
  lemma HaltKeeps(k: K)
    requires Inv(k) && Plain(k)
    ensures var k1 := SetAt(k, k.cur, Halted).(cur := 0);
            Inv(k1) && k1.env == k.env && SameTimers(k, k1) && k1.alts == k.alts &&
            forall x :: At(k1, x) == if x == k.cur then Halted else At(k, x)
  {
    hide ChannelsOk, SemsOk, BarsOk, TimersOk, AltsOk, NoDup, IsProcess;
    var k0 := SetAt(k, k.cur, Halted);
    var k1 := k0.(cur := 0);
    SamePlaces(k0, k1);
    assert Placed(k1);
    LooseKeeps(k, k1, k.cur);
  }

  /** A halted process becomes the current one. */
  lemma BecomeKeeps(k: K, k': K, p: int)
    requires Inv(k) && k.cur == 0 && At(k, p) == Halted && IsProcess(p) && p !in k.alts
    requires k' == SetAt(k, p, Running).(cur := p, iptr := k'.iptr)
    ensures Inv(k')
  {
    hide ChannelsOk, SemsOk, BarsOk, TimersOk, AltsOk, NoDup;
    SamePlaces(SetAt(k, p, Running), k');
    assert Placed(k');
    LooseKeeps(k, k', p);
  }

  lemma AdjustKeeps(k: K, p: int)
    requires Inv(k) && Plain(k) && (p == k.cur || Spare(k, p))
    ensures Inv(Adjust(k, p)) && Adjust(k, p).env == k.env
  {
    CurrentPlace(k);
    hide Inv;
    HaltKeeps(k);
    BecomeKeeps(SetAt(k, k.cur, Halted).(cur := 0), Adjust(k, p), p);
  }

  lemma EndKeeps(k: K, par: int, resume: int, now: Word)
    requires Inv(k) && Plain(k) && HalfRange(k, k.timq, {now}) &&
             (JoinCount(k, par) == 1 ==> par == k.cur || Spare(k, par))
    ensures Inv(EndP(k, par, resume, now)) && EndP(k, par, resume, now).env.eflags == k.env.eflags
  {
    hide Inv, HalfRange, RunNext, SetAt, SameTimers, At, Slots, ChanWord, JoinCount;
    var n := JoinCount(k, par);
    var k1 := SetAt(k, k.cur, Halted).(cur := 0);
    CurrentPlace(k);
    HaltKeeps(k);
    WindowSame(k, k1, {now});
    if n == 1 {
      var k2 := SetJoin(k1, par, 0);
      EnvKeeps(k1, k2, {now});
      BecomeKeeps(k2, EndP(k, par, resume, now), par);
    } else {
      var k2 := SetJoin(k1, par, n - 1);
      EnvKeeps(k1, k2, {now});
      hide SetJoin;
      RunNextKeeps(k2, now);
      RunNextWorld(k2, now);
    }
  }

  lemma ReturnEffect(k: K, at: int)
    ensures var k', p := SetReturn(k, at), k.cur;
            OwnSlots(k, k', p) && k'.timq == k.timq && k'.chan == k.chan && k'.alts == k.alts && k'.env == k.env &&
            k'.place == k.place && k'.iptr == k.iptr &&
            Slots(k', p) == Slots(k, p).(temp := at)
  {
    hide Slots;
  }

  lemma ReturnKeeps(k: K, at: int)
    requires Inv(k) && Plain(k)
    ensures Inv(SetReturn(k, at)) && SetReturn(k, at).env == k.env
  {
    var k' := SetReturn(k, at);
    hide SetReturn, ChannelsOk, SemsOk, BarsOk, TimersOk, AltsOk, SemOf, SemQueue, BarOf, NoDup, IsProcess, Slots;
    ReturnEffect(k, at);
    CurrentPlace(k);
    assert Placed(k') && OffQueues(k, k');
    QueuesKept(k, k');
    hide Placed;
    ElsewhereKeeps(k, k', k.cur);
  }

  lemma StopKeeps(k: K, iptr: int, now: Word)
    requires Inv(k) && Plain(k) && HalfRange(k, k.timq, {now})
    ensures var k' := RunNext(Park(k, iptr), now); Inv(k') && k'.env == k.env
  {
    var k1 := Park(k, iptr);
    assert k1.env == k.env;
    hide Inv, HalfRange, RunNext;
    ParkKeeps(k, iptr);
    ParkTimers(k, iptr);
    WindowSame(k, k1, {now});
    RunNextKeeps(k1, now);
    RunNextWorld(k1, now);
  }

  // ----- every step, every run

  lemma StepKeeps(k: K, op: Op, iptr: int, now: Word)
    requires Inv(k) && Legal(k, op, now)
    ensures Inv(Step(k, op, iptr, now)) && Step(k, op, iptr, now).env.eflags == k.env.eflags
  {
    hide Inv, HalfRange, StartP, EndP, Adjust, AltStart, Enable, AltWt, TaltWt, Disable, AltEnd, Out, In, XAble, XIn,
         XEnd, Tin, SemClaim, SemRelease, BarSync, BarEnroll, BarResign, RunNext, Enqueue, Park, MayEnable,
         MayDisable, MayEndAlt, MaySleep, MayProceed, MayOutput, MayInput, MayXIn, NoAltOn;
    SmallerWindow(k, {now} + NewTimes(k, op, now), {now});
    match op
    case StartOp(p, at) => StartKeeps(k, p, at);
    case StopOp => StopKeeps(k, iptr, now);
    case RunOp(p) => EnqueueKeeps(k, p); QuietEnv(k, p);
    case EndOp(par) => EndKeeps(k, par, Slots(k, par).temp, now);
    case AdjustOp(p) => AdjustKeeps(k, p);
    case AltOp(timed) => AltStartKeeps(k, timed); StartEnv(k, timed);
    case Enb(g, on) => if on { EnableKeeps(k, g); EnableEnv(k, g); }
    case AltWtOp => AltWtKeeps(k, iptr, now);
    case TaltWtOp => TaltWtKeeps(k, iptr, now);
    case Dis(g, on, target) =>
      if on {
        DisableKeeps(k, g, target);
        DisableEnv(k, g, target);
      } else { EnvKeeps(k, Step(k, op, iptr, now), {now}); }
    case AltEndOp => AltEndKeeps(k, iptr); AltEndsWell(k, iptr);
    case OutOp(c, ptr, len) => OutKeeps(k, c, ptr, len, iptr, now);
    case InOp(c, ptr, len) => InKeeps(k, c, ptr, len, iptr, now);
    case XAbleOp(c) => XAbleKeeps(k, c, iptr, now);
    case XInOp(c, ptr, len) => XInKeeps(k, c, ptr, len, iptr, now);
    case XEndOp(c) => XEndKeeps(k, c);
    case TinOp(t) => TinKeeps(k, t, iptr, now);
    case ClaimOp(s) => SemClaimKeeps(k, s, iptr, now);
    case ReleaseOp(s) => SemReleaseKeeps(k, s);
    case SyncOp(b) => BarSyncKeeps(k, b, iptr, now);
    case EnrollOp(b, n) => BarCountKeeps(k, b, n);
    case ResignOp(b, n) => BarCountKeeps(k, b, n);
    case CountOp(par, n) => EnvKeeps(k, Step(k, op, iptr, now), {now});
    case ReturnOp(at) => ReturnKeeps(k, at);
    case Compute(mem) => EnvKeeps(k, Step(k, op, iptr, now), {now});
    case Idle => RunNextKeeps(k, now); RunNextWorld(k, now);
  }

  lemma QuietEnv(k: K, p: int)
    ensures Enqueue(k, p).env == k.env
  {
  }

  lemma StartEnv(k: K, timed: bool)
    ensures AltStart(k, timed).env == k.env
  {
    hide Slots;
  }

  lemma EnableEnv(k: K, g: Guard)
    ensures Enable(k, g).env == k.env
  {
    hide Slots, ChanWord, TimeAfter, Note, SetWs, SetChan;
    var p, w := k.cur, Slots(k, k.cur);
    NoteEnv(k, g);
    match g
    case Chan(c) => NoteEnv(SetChan(k, c, p + 1), g); NoteEnv(SetWs(k, p, w.(state := READY)), g);
    case Skip => NoteEnv(SetWs(k, p, w.(state := READY)), g);
    case Timer(t) => NoteEnv(SetWs(k, p, w.(tlink := TIME_SET, time := t)), g); NoteEnv(SetWs(k, p, w.(time := t)), g);
  }

  lemma NoteEnv(k: K, g: Guard)
    ensures Note(k, g).env == k.env
  {
    hide Info;
  }

  lemma DisableEnv(k: K, g: Guard, target: int)
    ensures Disable(k, g, target).env.eflags == k.env.eflags && Disable(k, g, target).iptr == k.iptr
  {
    hide Slots, ChanWord, TimeAfter, Forget, TimerRemove, Select;
    SelectEnv(k, target);
    RemoveEnv(k);
    ForgetEnv(Select(k, target), g);
    ForgetEnv(Answer(k, false), g);
    ForgetEnv(Answer(TimerRemove(k, k.cur), false), g);
    if g.Chan? { ForgetEnv(Answer(SetChan(k, g.c, 0), false), g); }
  }

  lemma ForgetEnv(k: K, g: Guard)
    ensures Forget(k, g).env == k.env && Forget(k, g).iptr == k.iptr
  {
    hide Info, Without;
  }

  lemma SelectEnv(k: K, target: int)
    ensures Select(k, target).env.eflags == k.env.eflags && Select(k, target).iptr == k.iptr
  {
    hide Slots;
  }

  lemma RemoveEnv(k: K)
    ensures TimerRemove(k, k.cur).env == k.env && TimerRemove(k, k.cur).iptr == k.iptr
  {
    hide Slots, RemoveTime;
  }

  /** An instruction, the address after it, and the clock when it runs. */
  datatype Tick = Tick(op: Op, iptr: int, now: Word)

  /** The instruction pointer moves past the next instruction. */
  function Fetch(k: K, t: Tick): (k': K)
    ensures k'.cur == k.cur && k'.alts == k.alts && k'.env == k.env
    ensures forall x :: At(k', x) == At(k, x) && Slots(k', x) == Slots(k, x) && Info(k', x) == Info(k, x)
    ensures forall c :: ChanWord(k', c) == ChanWord(k, c) && BarOf(k', c) == BarOf(k, c)
  {
    k.(iptr := t.iptr)
  }

  lemma FetchKeeps(k: K, t: Tick)
    requires Inv(k)
    ensures Inv(Fetch(k, t))
  {
    hide Inv;
    CoreKeeps(k, Fetch(k, t));
  }

  function Next(k: K, t: Tick): K {
    Step(Fetch(k, t), t.op, t.iptr, t.now)
  }

  function Run(k: K, ticks: seq<Tick>): K
    decreases |ticks|
  {
    if ticks == [] then k else Run(Next(k, ticks[0]), ticks[1..])
  }

  ghost predicate LegalRun(k: K, ticks: seq<Tick>)
    decreases |ticks|
  {
    ticks == [] || (Legal(Fetch(k, ticks[0]), ticks[0].op, ticks[0].now) && LegalRun(Next(k, ticks[0]), ticks[1..]))
  }

  /** One process running, nothing else. */
  function Boot(p: int, mem: map<int, int>): K {
    K(p, 0, false, [], [], map[], map[], map[], map[], map[p := Running], map[],
      Env(false, 0, map[], mem, map[], map[], {}))
  }

  lemma BootInv(p: int, mem: map<int, int>)
    requires IsProcess(p)
    ensures Inv(Boot(p, mem))
  {
  }

  /** Every state of every run of a well-formed program keeps the invariant, and no run raises an ALT, channel or
   barrier error. */
  lemma {:induction false} RunKeeps(k: K, ticks: seq<Tick>)
    requires Inv(k) && LegalRun(k, ticks)
    ensures Inv(Run(k, ticks)) && Run(k, ticks).env.eflags == k.env.eflags
    decreases |ticks|
  {
    hide Inv, Legal, Step, Fetch;
    if ticks != [] {
      var t := ticks[0];
      FetchKeeps(k, t);
      StepKeeps(Fetch(k, t), t.op, t.iptr, t.now);
      RunKeeps(Next(k, t), ticks[1..]);
    }
  }

  /** A process on the run queue is there once, and nowhere else. */
  lemma QueuedOnce(k: K, i: nat, j: nat)
    requires Inv(k) && i < |k.runq| && j < |k.runq| && i != j
    ensures k.runq[i] != k.runq[j]
    ensures var p := k.runq[i];
            p != k.cur && (forall c :: ChanWord(k, c) != p) && (forall s :: p !in SemQueue(k, s)) &&
            (forall b :: p !in BarOf(k, b).queue)
  {
    var p := k.runq[i];
    assert i < j ==> k.runq[i] != k.runq[j];
    assert j < i ==> k.runq[j] != k.runq[i];
    Nowhere(k, p);
  }

  lemma Nowhere(k: K, p: int)
    requires Inv(k) && p in k.runq
    ensures p != k.cur && (forall c :: ChanWord(k, c) != p) && (forall s :: p !in SemQueue(k, s)) &&
            (forall b :: p !in BarOf(k, b).queue)
  {
    assert At(k, p) == Queued && IsProcess(p);
    forall c ensures ChanWord(k, c) != p { assert WordOk(k, c); }
    forall s ensures p !in SemQueue(k, s) { assert SemOk(k, s); }
    forall b ensures p !in BarOf(k, b).queue { assert BarOk(k, b); }
  }

  /** A process a channel word names is in no other channel, on no queue and not running. */
  lemma BlockedOnce(k: K, c: int, d: int)
    requires Inv(k) && IsProcess(ChanWord(k, c)) && d != c
    ensures var p := ChanWord(k, c);
            ChanWord(k, d) != p && p != k.cur && p !in k.runq && p !in k.timq &&
            (forall s :: p !in SemQueue(k, s)) && (forall b :: p !in BarOf(k, b).queue)
  {
    var p := ChanWord(k, c);
    assert WordOk(k, c) && WordOk(k, d);
    NotAlting(k, p);
    NotOnTimer(k, p);
    forall s ensures p !in SemQueue(k, s) { assert SemOk(k, s); }
    forall b ensures p !in BarOf(k, b).queue { assert BarOk(k, b); }
  }
}
