/** A whole ALT: what it selects, and that it wakes exactly when it should. */
module KernelAlt {
  import opened Words
  import opened Kernel
  import opened KernelInv
  import opened KernelRuns
  import opened KernelEffects

  // ----- disabling all guards

  /** A guard, whether its condition holds, and the target its disable names. */
  datatype Branch = Branch(g: Guard, on: bool, target: int)

  /** The guards whose conditions hold. */
  function Guards(ds: seq<Branch>): multiset<Guard> {
    if ds == [] then multiset{}
    else (if ds[0].on then multiset{ds[0].g} else multiset{}) + Guards(ds[1..])
  }

  function DisableBranch(k: K, d: Branch): K {
    if d.on then Disable(k, d.g, d.target) else Answer(k, false)
  }

  function DisableAll(k: K, ds: seq<Branch>): K
    decreases |ds|
  {
    if ds == [] then k else DisableAll(DisableBranch(k, ds[0]), ds[1..])
  }

  /** The target of the first guard ready in k. */
  function FirstReady(k: K, p: int, ds: seq<Branch>): int
    decreases |ds|
  {
    if ds == [] then NONE_SELECTED
    else if ds[0].on && Ready(k, p, ds[0].g) then ds[0].target
    else FirstReady(k, p, ds[1..])
  }

  ghost predicate Targets(ds: seq<Branch>) {
    forall i :: 0 <= i < |ds| ==> ds[i].target != NONE_SELECTED
  }

  lemma {:induction false} WithoutMultiset(s: seq<Guard>, g: Guard)
    requires g in s
    ensures multiset(Without(s, g)) == multiset(s) - multiset{g}
    decreases |s|
  {
    assert s == [s[0]] + s[1..];
    if s[0] != g {
      WithoutMultiset(s[1..], g);
    }
  }

  lemma {:induction false} SameReady(k: K, k': K, p: int, ds: seq<Branch>)
    requires forall h :: Ready(k', p, h) <==> Ready(k, p, h)
    ensures FirstReady(k', p, ds) == FirstReady(k, p, ds)
    decreases |ds|
  {
    hide Ready;
    if ds != [] {
      SameReady(k, k', p, ds[1..]);
    }
  }

  /** The ALT of the current process is past its wait, with the guards of ds to disable. */
  ghost predicate MayDisableAll(k: K, ds: seq<Branch>) {
    var p := k.cur;
    && p != 0 && p in k.alts && (Info(k, p).phase == Waiting || Info(k, p).phase == Disabling)
    && multiset(Info(k, p).todo) == Guards(ds) && Targets(ds)
  }

  lemma DisableOne(k: K, ds: seq<Branch>)
    requires MayDisableAll(k, ds) && ds != []
    ensures ds[0].on ==> MayDisable(k, ds[0].g, ds[0].target)
    ensures MayDisableAll(DisableBranch(k, ds[0]), ds[1..])
  {
    var d, p := ds[0], k.cur;
    hide Disable, Ready, DisabledSlots;
    if d.on {
      assert d.g in multiset(Info(k, p).todo);
      DisableEffect(k, d.g, d.target);
      WithoutMultiset(Info(k, p).todo, d.g);
    } else {
      AnswerSame(k);
    }
  }

  /** A disable whose condition fails only answers. */
  lemma AnswerSame(k: K)
    ensures var k' := Answer(k, false);
            k' == k.(env := k'.env) && k'.env.eflags == k.env.eflags && Info(k', k.cur) == Info(k, k.cur) &&
            Slots(k', k.cur) == Slots(k, k.cur) &&
            forall h :: Ready(k', k.cur, h) <==> Ready(k, k.cur, h)
  {
  }

  /** One disable keeps the invariant and leaves the other guards as ready as they were. */
  lemma BranchDisabled(k: K, ds: seq<Branch>)
    requires Inv(k) && MayDisableAll(k, ds) && ds != []
    ensures var k', p, d := DisableBranch(k, ds[0]), k.cur, ds[0];
            Inv(k') && k'.cur == p && k'.iptr == k.iptr && k'.runq == k.runq && k'.env.eflags == k.env.eflags &&
            MayDisableAll(k', ds[1..]) &&
            (d.on ==> Info(k', p).phase == Disabling) && (!d.on ==> Info(k', p) == Info(k, p)) &&
            (forall h :: Ready(k', p, h) <==> Ready(k, p, h)) &&
            Slots(k', p).temp == if d.on && Ready(k, p, d.g) && Slots(k, p).temp == NONE_SELECTED then d.target
            else Slots(k, p).temp
  {
    hide Inv, Disable, Ready, OneMove, MayDisableAll;
    var p, d := k.cur, ds[0];
    DisableOne(k, ds);
    if d.on {
      var k1 := Disable(k, d.g, d.target);
      DisableKeeps(k, d.g, d.target);
      DisableEffect(k, d.g, d.target);
      DisableEnv(k, d.g, d.target);
      forall h ensures Ready(k1, p, h) <==> Ready(k, p, h) {
        ReadyStays(k, k1, p, d.g, d.target, h);
      }
    } else {
      AnswerSame(k);
      CoreKeeps(k, Answer(k, false));
    }
  }

  /**
   Disabling every guard, in any order, selects the first that was ready when the
   process resumed, whatever the earlier disables did to channels and timers.
   */
  lemma {:induction false} FirstReadySelected(k: K, ds: seq<Branch>)
    requires Inv(k) && MayDisableAll(k, ds)
    ensures var k', p := DisableAll(k, ds), k.cur;
            Inv(k') && k'.cur == p && p in k'.alts && Info(k', p).todo == [] &&
            (Guards(ds) != multiset{} || Info(k, p).phase == Disabling ==> Info(k', p).phase == Disabling) &&
            k'.iptr == k.iptr && k'.runq == k.runq && k'.env.eflags == k.env.eflags &&
            Slots(k', p).temp == (if Slots(k, p).temp == NONE_SELECTED then FirstReady(k, p, ds) else Slots(k, p).temp)
    decreases |ds|
  {
    hide Inv, Ready, DisableBranch;
    var p := k.cur;
    if ds == [] {
      assert Info(k, p).todo == [];
    } else {
      var k1 := DisableBranch(k, ds[0]);
      BranchDisabled(k, ds);
      SameReady(k, k1, p, ds[1..]);
      FirstReadySelected(k1, ds[1..]);
    }
  }

  /** Some guard of a list is ready, so one is selected. */
  lemma {:induction false} ReadySelects(k: K, p: int, ds: seq<Branch>, g: Guard)
    requires g in Guards(ds) && Ready(k, p, g) && Targets(ds)
    ensures FirstReady(k, p, ds) != NONE_SELECTED
    decreases |ds|
  {
    hide Ready;
    if !(ds[0].on && Ready(k, p, ds[0].g)) {
      ReadySelects(k, p, ds[1..], g);
    }
  }

  // ----- the end of an ALT

  /**
   A resumed ALT that disables all its guards jumps to the first that was ready, and
   there is one: EFLAG_ALT is never raised. No channel still carries its tag and it
   is on no timer queue.
   */
  lemma AltSelects(k: K, ds: seq<Branch>, iptr: int)
    requires Inv(k) && MayDisableAll(k, ds) && Slots(k, k.cur).temp == NONE_SELECTED
    ensures var p, k' := k.cur, AltEnd(DisableAll(k, ds), iptr);
            FirstReady(k, p, ds) != NONE_SELECTED && k'.iptr == iptr + FirstReady(k, p, ds) &&
            k'.env.eflags == k.env.eflags &&
            Inv(k') && k'.cur == p && p !in k'.alts && p !in k'.timq && forall c :: ChanWord(k', c) != p + 1
  {
    var p, k1 := k.cur, DisableAll(k, ds);
    ResumedReady(k);
    var g :| g in Info(k, p).todo && Ready(k, p, g);
    hide Inv, DisableAll, Ready, AltEnd, FirstReady, Slots, Info, OnlyAt;
    assert g in multiset(Info(k, p).todo) && Guards(ds) != multiset{};
    ReadySelects(k, p, ds, g);
    FirstReadySelected(k, ds);
    AltEndKeeps(k1, iptr);
    AltEndsWell(k1, iptr);
    AltEndEffect(k1, iptr);
    SameChannelWords(k1, AltEnd(k1, iptr));
  }

  lemma ResumedReady(k: K)
    requires Inv(k) && k.cur != 0 && k.cur in k.alts &&
             (Info(k, k.cur).phase == Waiting || Info(k, k.cur).phase == Disabling)
    requires Slots(k, k.cur).temp == NONE_SELECTED
    ensures SomeReady(k, k.cur)
  {
    assert AltOk(k, k.cur);
    CurrentPlace(k);
  }

  // ----- while others run

  /** The ALTs of processes other than p are the same. */
  ghost predicate SameOthers(k: K, k': K, p: int) {
    forall x :: x != p ==> (x in k'.alts <==> x in k.alts) && Info(k', x) == Info(k, x)
  }

  lemma SameAltsMap(k: K, k': K, p: int)
    requires k'.alts == k.alts
    ensures SameOthers(k, k', p)
  {
  }

  /** An instruction touches no ALT but the current process's own. */
  lemma StepOthers(k: K, op: Op, iptr: int, now: Word)
    requires Inv(k) && Legal(k, op, now)
    ensures SameOthers(k, Step(k, op, iptr, now), k.cur)
  {
    hide Inv, HalfRange, StartP, EndP, Adjust, AltStart, Enable, AltWt, TaltWt, Disable, AltEnd, Out, In, XAble, XIn,
         XEnd, Tin, SemClaim, SemRelease, BarSync, BarEnroll, BarResign, RunNext, Enqueue, Park, MayEnable,
         MayDisable, MaySleep, MayProceed, MayOutput, MayInput, MayXIn, NoAltOn, SameOthers, OnlyAt;
    var k', p := Step(k, op, iptr, now), k.cur;
    match op
    case AltOp(timed) => AltStartEffect(k, timed); OwnOthers(k, k', p);
    case Enb(g, on) => if on { EnableEffect(k, g); OwnOthers(k, k', p); } else { SameAltsMap(k, k', p); }
    case AltWtOp => AltWtOthers(k, iptr, now);
    case TaltWtOp => TaltWtOthers(k, iptr, now);
    case Dis(g, on, target) =>
      if on { DisableEffect(k, g, target); OwnOthers(k, k', p); } else { SameAltsMap(k, k', p); }
    case AltEndOp => AltEndsWell(k, iptr); AltEndEffect(k, iptr); OwnOthers(k, k', p);
    case XAbleOp(c) => XAbleOthers(k, c, iptr, now);
    case XInOp(c, ptr, len) => XInOthers(k, c, ptr, len, iptr, now);
    case _ => PlainOthers(k, op, iptr, now); SameAltsMap(k, k', p);
  }

  lemma OwnOthers(k: K, k': K, p: int)
    requires OwnSlots(k, k', p)
    ensures SameOthers(k, k', p)
  {
  }

  lemma PlainOthers(k: K, op: Op, iptr: int, now: Word)
    requires Inv(k) && Legal(k, op, now)
    requires !op.AltOp? && !op.Enb? && !op.AltWtOp? && !op.TaltWtOp? && !op.Dis? && !op.AltEndOp? && !op.XAbleOp? &&
             !op.XInOp?
    ensures Step(k, op, iptr, now).alts == k.alts
  {
    hide Inv, Legal, RunNext, TimeAfter, SemOf, BarOf, StartP, Enqueue, Park, Adjust, AwaitTime, EndP, Out, In, XEnd,
         JoinSem, JoinBar, SemRelease, BarComplete, BarEnroll, BarResign, SetMem, SetJoin, SetReturn, SetSem,
         AltStart, Enable, AltWt, TaltWt, Disable, AltEnd, XAble, XIn, Answer, Tin, SemClaim, BarSync;
    match op
    case StartOp(p, at) => MoveAlts(k, p, at);
    case StopOp => WaitAlts(k, iptr, 0, 0, now);
    case RunOp(p) => MoveAlts(k, p, 0);
    case EndOp(par) => EndAlts(k, par, Slots(k, par).temp, now);
    case AdjustOp(p) => MoveAlts(k, p, 0);
    case OutOp(c, ptr, len) => OutAlts(k, c, ptr, len, iptr, now);
    case InOp(c, ptr, len) => InAlts(k, c, ptr, len, iptr, now);
    case XEndOp(c) => QueueAlts(k, c, 0);
    case TinOp(t) => BlockingAlts(k, iptr, t, 0, 0, now);
    case ClaimOp(s) => BlockingAlts(k, iptr, 0, s, 0, now);
    case ReleaseOp(s) => QueueAlts(k, s, 0);
    case SyncOp(b) => BlockingAlts(k, iptr, 0, 0, b, now);
    case EnrollOp(b, n) => QueueAlts(k, b, n);
    case ResignOp(b, n) => ResignAlts(k, b, n);
    case CountOp(par, n) => MarkAlts(k, par, n, map[]);
    case ReturnOp(at) => MarkAlts(k, at, 0, map[]);
    case Compute(mem) => MarkAlts(k, 0, 0, mem);
    case Idle => NextAlts(k, now);
  }

  /** Waiting for a time, for a semaphore and at a barrier. */
  lemma BlockingAlts(k: K, iptr: int, t: Word, s: int, b: int, now: Word)
    ensures Tin(k, t, iptr, now).alts == k.alts && SemClaim(k, s, iptr, now).alts == k.alts &&
            BarSync(k, b, iptr, now).alts == k.alts
  {
    hide RunNext, Park, AwaitTime, JoinSem, JoinBar, BarComplete, TimeAfter, SemOf, BarOf, SetSem;
    WaitAlts(k, iptr, 0, t, now);
    WaitAlts(k, iptr, s, t, now);
    WaitAlts(k, iptr, b, t, now);
    JoinAlts(k, k.cur, s);
    CompleteAlts(k, b, BarOf(k, b).enrolled);
  }

  lemma NextAlts(k: K, now: Word)
    ensures RunNext(k, now).alts == k.alts
  {
    hide RunNext;
    RunNextWorld(k, now);
  }

  lemma MoveAlts(k: K, p: int, at: int)
    ensures StartP(k, p, at).alts == k.alts && Enqueue(k, p).alts == k.alts && Adjust(k, p).alts == k.alts
  {
    hide StartP, Enqueue, Adjust;
    MoveWorld(k, p, at, 0);
  }

  /** Giving up the processor, for a time or in a queue. */
  lemma WaitAlts(k: K, iptr: int, x: int, t: Word, now: Word)
    ensures RunNext(Park(k, iptr), now).alts == k.alts &&
            RunNext(AwaitTime(Park(k, iptr), k.cur, t, iptr), now).alts == k.alts
    ensures RunNext(JoinSem(Park(k, iptr), k.cur, x), now).alts == k.alts &&
            RunNext(JoinBar(Park(k, iptr), k.cur, x), now).alts == k.alts
  {
    hide RunNext, Park, AwaitTime, JoinSem, JoinBar;
    var k1 := Park(k, iptr);
    MoveWorld(k, 0, 0, iptr);
    AwaitWorld(k1, k.cur, t, iptr);
    JoinAlts(k1, k.cur, x);
    NextAlts(k1, now);
    NextAlts(AwaitTime(k1, k.cur, t, iptr), now);
    NextAlts(JoinSem(k1, k.cur, x), now);
    NextAlts(JoinBar(k1, k.cur, x), now);
  }

  /** Joining a queue. */
  lemma JoinAlts(k: K, p: int, x: int)
    ensures JoinSem(k, p, x).alts == k.alts && JoinBar(k, p, x).alts == k.alts &&
            SetSem(k, x, Claimed([])).alts == k.alts
  {
    hide SemQueue, BarOf;
  }

  /** Letting one go, and counting. */
  lemma QueueAlts(k: K, x: int, n: Word)
    ensures XEnd(k, x).alts == k.alts && SemRelease(k, x).alts == k.alts && BarEnroll(k, x, n).alts == k.alts
  {
    hide SemQueue, BarOf, Enqueue, Or, Wrap;
    EnqueueWorld(Leave(k, x), ChanWord(k, x));
    if SemQueue(k, x) != [] { EnqueueWorld(LeaveSem(k, x), SemQueue(k, x)[0]); }
  }

  lemma CompleteAlts(k: K, b: int, e: Word)
    ensures BarComplete(k, b, e).alts == k.alts
  {
    hide DrainBar;
    DrainAlts(k, b);
  }

  lemma MarkAlts(k: K, par: int, n: int, mem: map<int, int>)
    ensures SetJoin(k, par, n).alts == k.alts && SetMem(k, mem).alts == k.alts && SetReturn(k, par).alts == k.alts
  {
  }

  lemma {:induction false} DrainAlts(k: K, b: int)
    ensures DrainBar(k, b).alts == k.alts
    decreases |BarOf(k, b).queue|
  {
    if BarOf(k, b).queue != [] {
      var k1 := Enqueue(OffBar(k, b), BarOf(k, b).queue[0]);
      assert k1.alts == k.alts && |BarOf(k1, b).queue| < |BarOf(k, b).queue|;
      hide Enqueue, OffBar;
      DrainAlts(k1, b);
    }
  }

  lemma ResignAlts(k: K, b: int, n: Word)
    ensures BarResign(k, b, n).alts == k.alts
  {
    hide DrainBar;
    DrainAlts(k, b);
  }

  lemma EndAlts(k: K, par: int, resume: int, now: Word)
    ensures EndP(k, par, resume, now).alts == k.alts
  {
    hide RunNext, At;
    RunNextWorld(SetJoin(SetAt(k, k.cur, Halted).(cur := 0), par, JoinCount(k, par) - 1), now);
  }

  lemma BlockAlts(k: K, c: int, sending: bool, ptr: int, len: int, iptr: int, now: Word, q: int)
    ensures var k2 := Arrive(Park(k, iptr), k.cur, c, sending, ptr, len);
            RunNext(k2, now).alts == k.alts && Load(k2, q).alts == k.alts
  {
    var k2 := Arrive(Park(k, iptr), k.cur, c, sending, ptr, len);
    BlockWorld(k, c, sending, ptr, len, iptr);
    hide Arrive, Park, RunNext;
    RunNextWorld(k2, now);
  }

  lemma EnvAlts(k: K, c: int, ptr: int, src: int, len: int)
    ensures Say(k, c, ptr, len).alts == k.alts && Say(k, c, ptr, len).cur == k.cur
    ensures Deliver(k, c, ptr, src, len).alts == k.alts && Deliver(k, c, ptr, src, len).cur == k.cur
    ensures SetError(k, EFLAG_CHAN).alts == k.alts
    ensures SetMem(k, Zero(k.env.mem, ptr, len)).alts == k.alts && SetMem(k, Zero(k.env.mem, ptr, len)).cur == k.cur
  {
    hide Copy, Bytes, Zero;
  }

  lemma OutAlts(k: K, c: int, ptr: int, len: int, iptr: int, now: Word)
    ensures Out(k, c, ptr, len, iptr, now).alts == k.alts
  {
    hide Arrive, RunNext, Load, Enqueue, Park, Leave, Say, Deliver, SetError, Slots;
    var q, k1 := Untag(ChanWord(k, c)), Say(k, c, ptr, len);
    var k2 := Deliver(k1, c, Slots(k, q).state, ptr, len);
    EnvAlts(k, c, ptr, 0, len);
    EnvAlts(k1, c, Slots(k, q).state, ptr, len);
    BlockAlts(k1, c, true, ptr, len, iptr, now, q);
    YieldAlts(k, iptr, now);
    ExchangeAlts(k2, c, iptr, q);
  }

  lemma InAlts(k: K, c: int, ptr: int, len: int, iptr: int, now: Word)
    ensures In(k, c, ptr, len, iptr, now).alts == k.alts
  {
    hide Arrive, RunNext, Load, Enqueue, Park, Leave, Deliver, SetError, SetMem, Slots;
    var q := Untag(ChanWord(k, c));
    var k1, k2 := Deliver(k, c, ptr, Slots(k, q).state, len), SetMem(k, Zero(k.env.mem, ptr, len));
    EnvAlts(k, c, ptr, Slots(k, q).state, len);
    BlockAlts(k, c, false, ptr, len, iptr, now, q);
    YieldAlts(k2, iptr, now);
    ExchangeAlts(k1, c, iptr, q);
  }

  lemma YieldAlts(k: K, iptr: int, now: Word)
    ensures RunNext(Enqueue(Park(k, iptr), k.cur), now).alts == k.alts
  {
    hide RunNext;
    RunNextWorld(Enqueue(Park(k, iptr), k.cur), now);
  }

  lemma ExchangeAlts(k: K, c: int, iptr: int, q: int)
    ensures Load(Enqueue(Park(Leave(k, c), iptr), k.cur), q).alts == k.alts
  {
  }

  lemma AltWtOthers(k: K, iptr: int, now: Word)
    ensures SameOthers(k, AltWt(k, iptr, now), k.cur)
  {
    hide Proceed, Sleep, RunNext;
    ProceedEffect(k, false, now);
    SleepEffect(k, iptr);
    RunNextWorld(Sleep(k, iptr), now);
    SameAltsMap(Sleep(k, iptr), RunNext(Sleep(k, iptr), now), k.cur);
  }

  lemma SleepOthers(k: K, k1: K, iptr: int, now: Word)
    requires k1.alts == k.alts && k1.cur == k.cur
    ensures SameOthers(k, RunNext(Sleep(k1, iptr), now), k.cur)
  {
    hide Sleep, RunNext;
    SleepEffect(k1, iptr);
    SameAltsMap(k, k1, k.cur);
    RunNextWorld(Sleep(k1, iptr), now);
    SameAltsMap(Sleep(k1, iptr), RunNext(Sleep(k1, iptr), now), k.cur);
  }

  lemma ProceedOthers(k: K, now: Word)
    ensures SameOthers(k, Proceed(k, true, now), k.cur)
  {
    hide Proceed;
    ProceedEffect(k, true, now);
    OwnOthers(k, Proceed(k, true, now), k.cur);
  }

  lemma InsertAlts(k: K, p: int, t: Word, iptr: int)
    ensures TimerInsert(k, p, t, iptr).alts == k.alts && TimerInsert(k, p, t, iptr).cur == k.cur
  {
  }

  lemma TaltWtOthers(k: K, iptr: int, now: Word)
    ensures SameOthers(k, TaltWt(k, iptr, now), k.cur)
  {
    var k1 := TimerInsert(k, k.cur, Wrap(Slots(k, k.cur).time + 1), iptr);
    hide Proceed, Sleep, RunNext, TimerInsert, SameOthers, TimeAfter, Info;
    InsertAlts(k, k.cur, Wrap(Slots(k, k.cur).time + 1), iptr);
    hide Slots, Wrap;
    ProceedOthers(k, now);
    SleepOthers(k, k, iptr, now);
    SleepOthers(k, k1, iptr, now);
  }

  lemma XAbleOthers(k: K, c: int, iptr: int, now: Word)
    requires k.cur !in k.alts
    ensures SameOthers(k, XAble(k, c, iptr, now), k.cur)
  {
    if ChanWord(k, c) == 0 {
      var k1 := Park(k, iptr);
      var k2 := AwaitChannel(k1, k.cur, c);
      assert k1.alts == k.alts;
      SameAltsMap(k, k1, k.cur);
      hide Park, AwaitChannel, RunNext;
      AwaitEffect(k1, k.cur, c);
      RunNextWorld(k2, now);
      SameAltsMap(k2, RunNext(k2, now), k.cur);
    }
  }

  lemma XInOthers(k: K, c: int, ptr: int, len: int, iptr: int, now: Word)
    ensures SameOthers(k, XIn(k, c, ptr, len, iptr, now), k.cur)
  {
    hide EndAlt, RunNext, Enqueue, Park, Deliver, SetMem, SetError, Slots;
    var k1, v := EndAlt(k, k.cur), ChanWord(k, c);
    assert SameOthers(k, k1, k.cur);
    EnvAlts(k1, c, ptr, Slots(k, v).state, len);
    EnvAlts(k, c, ptr, Slots(k, v).state, len);
    SetMemAlts(k1, Zero(k.env.mem, ptr, len));
    YieldAlts(SetMem(k1, Zero(k.env.mem, ptr, len)), iptr, now);
    var k' := XIn(k, c, ptr, len, iptr, now);
    if (v != 0 && v % 2 == 0) || v == 1 {
      assert k'.alts == k1.alts;
      SameAltsMap(k1, k', k.cur);
    } else {
      ErrorAlts(k);
      SameAltsMap(k, k', k.cur);
    }
  }

  lemma ErrorAlts(k: K)
    ensures SetError(k, EFLAG_CHAN).alts == k.alts
  {
  }

  lemma SetMemAlts(k: K, mem: map<int, int>)
    ensures SetMem(k, mem).alts == k.alts && SetMem(k, mem).cur == k.cur
  {
  }

  // ----- asleep

  /** A waiting ALT has no ready guard; with timer guards it is on the timer queue for the tick after the earliest. */
  lemma WaitingMeansNothingReady(k: K, p: int)
    requires Inv(k) && p in k.alts && Info(k, p).phase == Waiting && Slots(k, p).state == WAITING
    ensures At(k, p) == AltWait && !SomeReady(k, p)
    ensures HasTimer(Info(k, p).todo) ==>
            p in k.timq && exists m: Word :: Earliest(Info(k, p).todo, m) && Slots(k, p).time == Wrap(m + 1)
  {
    assert AltOk(k, p);
    if p in k.timq { assert OnTimer(k, p); }
    forall g | g in Info(k, p).todo ensures !Ready(k, p, g) {
      if g.Timer? { TodoHasTimer(k, p, g); }
    }
  }

  lemma TodoHasTimer(k: K, p: int, g: Guard)
    requires g in Info(k, p).todo && g.Timer?
    ensures HasTimer(Info(k, p).todo)
  {
  }

  /** The clock reaching a process a partner already woke does not schedule it again. */
  lemma ClockAfterPartner(k: K, now: Word)
    requires k.timq != [] && Slots(k, k.timq[0]).state == READY
    ensures Expire(k, now).runq == k.runq && At(Expire(k, now), k.timq[0]) == At(k, k.timq[0]) &&
            Expire(k, now).cur == k.cur
  {
    ExpireEffect(k, now);
  }

  /** A timer ALT that goes straight on has noted the time: of its timer guards those due are ready. */
  lemma ProceedKnowsTime(k: K, now: Word, t: Word)
    requires Slots(k, k.cur).tlink == TIME_SET
    ensures Ready(Proceed(k, true, now), k.cur, Timer(t)) <==> !TimeAfter(t, now)
  {
    hide Proceed, TimeAfter;
    ProceedEffect(k, true, now);
  }

  /** A partner arriving at a process already ready, woken by the clock or another partner, does not schedule it
   again. */
  lemma PartnerAfterWake(k: K, c: int, ptr: int, len: int, iptr: int, now: Word)
    requires Inv(k) && Plain(k) && HalfRange(k, k.timq, {now}) && ChanWord(k, c) % 2 == 1 && ChanWord(k, c) != 1
    requires Slots(k, ChanWord(k, c) - 1).state == READY
    ensures var k1 := Say(k, c, ptr, len);
            Out(k, c, ptr, len, iptr, now) == RunNext(Arrive(Park(k1, iptr), k.cur, c, true, ptr, len), now)
    ensures var k1, q := Say(k, c, ptr, len), ChanWord(k, c) - 1;
            var k2 := Arrive(Park(k1, iptr), k.cur, c, true, ptr, len);
            k2.runq == k.runq && At(k2, q) == At(k, q)
  {
    var q, p, k1 := ChanWord(k, c) - 1, k.cur, Say(k, c, ptr, len);
    TagState(k, c);
    WordKinds(k, c);
    SayReads(k, c, ptr, len);
    ParkEffect(k1, iptr);
    var k2 := Park(k1, iptr);
    assert At(k2, q) == At(k1, q) && Slots(k2, q) == Slots(k1, q);
    hide Inv, HalfRange, RunNext, Say, Park, Wake, Settle, Enqueue, Load, Leave, Deliver, SetError;
    ReadArrival(k2, q, p, c, ptr, len);
  }

  lemma SayReads(k: K, c: int, ptr: int, len: int)
    ensures var k1 := Say(k, c, ptr, len);
            k1.cur == k.cur && k1.runq == k.runq &&
            (forall x :: At(k1, x) == At(k, x) && Slots(k1, x) == Slots(k, x)) &&
            forall d :: ChanWord(k1, d) == ChanWord(k, d)
  {
  }

  lemma ReadArrival(k: K, q: int, p: int, c: int, ptr: int, len: int)
    requires ChanWord(k, c) == q + 1 && q != 0 && (q + 1) % 2 == 1 && q != p && Slots(k, q).state == READY
    ensures var k' := Arrive(k, p, c, true, ptr, len); k'.runq == k.runq && At(k', q) == At(k, q)
  {
    hide Wake, Settle;
    WakeEntries(k, q);
    SettleEntries(Wake(k, q), p, c, true, ptr, len);
  }

  // ----- a whole ALT

  /** p runs nothing in the run, and the run ends with p resumed. */
  ghost predicate Resumes(k: K, ticks: seq<Tick>, p: int)
    decreases |ticks|
  {
    if ticks == [] then k.cur == p else k.cur != p && Resumes(Next(k, ticks[0]), ticks[1..], p)
  }

  lemma {:induction false} SleepKeepsGuards(k: K, ticks: seq<Tick>, p: int)
    requires Inv(k) && LegalRun(k, ticks) && Resumes(k, ticks, p) && p in k.alts
    ensures var k' := Run(k, ticks);
            Inv(k') && k'.cur == p && p in k'.alts && Info(k', p) == Info(k, p) && k'.env.eflags == k.env.eflags
    decreases |ticks|
  {
    hide Inv, Legal, Step, Fetch;
    if ticks != [] {
      var t := ticks[0];
      FetchKeeps(k, t);
      StepKeeps(Fetch(k, t), t.op, t.iptr, t.now);
      StepOthers(Fetch(k, t), t.op, t.iptr, t.now);
      SleepKeepsGuards(Next(k, t), ticks[1..], p);
    }
  }

  /**
   An ALT past its wait, through any run of other processes to its resumption, then
   disabling its guards in any order: it ends at the first guard that was ready when
   it resumed, without error, untagged and off the timer queue.
   */
  lemma AltCompletes(k: K, ticks: seq<Tick>, p: int, ds: seq<Branch>, iptr: int)
    requires Inv(k) && LegalRun(k, ticks) && Resumes(k, ticks, p) && IsProcess(p)
    requires p in k.alts && multiset(Info(k, p).todo) == Guards(ds) && Targets(ds)
    requires Info(k, p).phase == Waiting ||
             (Info(k, p).phase == Disabling && k.cur == p && Slots(k, p).temp == NONE_SELECTED)
    ensures var k1 := Run(k, ticks); var k2 := AltEnd(DisableAll(k1, ds), iptr);
            FirstReady(k1, p, ds) != NONE_SELECTED && k2.iptr == iptr + FirstReady(k1, p, ds) &&
            k2.env.eflags == k.env.eflags &&
            Inv(k2) && k2.cur == p && p !in k2.alts && p !in k2.timq && forall c :: ChanWord(k2, c) != p + 1
  {
    var k1 := Run(k, ticks);
    if k.cur == p { assert ticks == []; }
    hide Run, LegalRun, Resumes, AltEnd, DisableAll, FirstReady, Guards, Targets;
    SleepKeepsGuards(k, ticks, p);
    assert AltOk(k1, p);
    hide Inv;
    AltSelects(k1, ds, iptr);
  }

  // ----- the beginning of an ALT

  /** The guards whose conditions hold, in order, duplicates included. */
  function Enabled(bs: seq<Branch>): seq<Guard> {
    if bs == [] then [] else (if bs[0].on then [bs[0].g] else []) + Enabled(bs[1..])
  }

  function EnableAll(k: K, bs: seq<Branch>): K
    decreases |bs|
  {
    if bs == [] then k else EnableAll(if bs[0].on then Enable(k, bs[0].g) else k, bs[1..])
  }

  /** Every enable of the list is one a well-formed program makes. */
  ghost predicate MayEnableAll(k: K, bs: seq<Branch>)
    decreases |bs|
  {
    bs == [] || ((bs[0].on ==> MayEnable(k, bs[0].g)) &&
                 MayEnableAll(if bs[0].on then Enable(k, bs[0].g) else k, bs[1..]))
  }

  /** After all enables the ALT holds exactly the guards that were true. */
  lemma {:induction false} EnablesNoted(k: K, bs: seq<Branch>)
    requires Inv(k) && k.cur != 0 && k.cur in k.alts && Info(k, k.cur).phase == Enabling && MayEnableAll(k, bs)
    ensures var k', p := EnableAll(k, bs), k.cur;
            Inv(k') && k'.cur == p && p in k'.alts && k'.env == k.env &&
            Info(k', p) == Info(k, p).(todo := Info(k, p).todo + Enabled(bs))
    decreases |bs|
  {
    hide Inv, Enable, MayEnable, EnabledSlots;
    var p := k.cur;
    if bs == [] {
      assert Info(k, p).todo + [] == Info(k, p).todo;
    } else {
      var b := bs[0];
      var k1 := if b.on then Enable(k, b.g) else k;
      if b.on {
        EnableKeeps(k, b.g);
        EnableEffect(k, b.g);
        EnableEnv(k, b.g);
      }
      EnablesNoted(k1, bs[1..]);
      assert Info(k, p).todo + Enabled(bs) == Info(k1, p).todo + Enabled(bs[1..]);
    }
  }

  lemma {:induction false} EnabledGuards(bs: seq<Branch>)
    ensures multiset(Enabled(bs)) == Guards(bs)
  {
    if bs != [] { EnabledGuards(bs[1..]); }
  }

  /** An ALT done enabling either goes straight on or goes to sleep; it keeps its guards and selects nothing yet. */
  lemma WaitPhase(k: K, timed: bool, iptr: int, now: Word)
    requires Inv(k) && k.cur != 0 && k.cur in k.alts && Info(k, k.cur).phase == Enabling &&
             Info(k, k.cur).timed == timed
    requires HalfRange(k, k.timq, {now} + NewTimes(k, if timed then TaltWtOp else AltWtOp, now))
    ensures var k', p := if timed then TaltWt(k, iptr, now) else AltWt(k, iptr, now), k.cur;
            Legal(k, if timed then TaltWtOp else AltWtOp, now) && Inv(k') && k'.env == k.env && p in k'.alts &&
            Info(k', p).todo == Info(k, p).todo &&
            (Info(k', p).phase == Waiting ||
             (Info(k', p).phase == Disabling && k'.cur == p && Slots(k', p).temp == NONE_SELECTED))
  {
    hide Inv, HalfRange, TaltWt, AltWt, Sleep, Proceed, RunNext, TimeAfter, TimerInsert, Slots, Info, NewTimes;
    var op := if timed then TaltWtOp else AltWtOp;
    var w, t := Slots(k, k.cur), Wrap(Slots(k, k.cur).time + 1);
    AltWtIs(k, iptr, now);
    if timed {
      TaltWtKeeps(k, iptr, now);
    } else { SmallerWindow(k, {now} + NewTimes(k, op, now), {now}); AltWtKeeps(k, iptr, now); }
    ProceedEffect(k, timed, now);
    SleepEffect(k, iptr);
    InsertAlts(k, k.cur, t, iptr);
    var k1 := TimerInsert(k, k.cur, t, iptr);
    SleepEffect(k1, iptr);
    RunNextWorld(Sleep(k, iptr), now);
    RunNextWorld(Sleep(k1, iptr), now);
    InfoSame(Sleep(k, iptr), RunNext(Sleep(k, iptr), now), k.cur);
    InfoSame(Sleep(k1, iptr), RunNext(Sleep(k1, iptr), now), k.cur);
    InfoSame(k, k1, k.cur);
  }

  lemma InfoSame(k: K, k': K, p: int)
    requires k'.alts == k.alts
    ensures Info(k', p) == Info(k, p)
  {
  }

  /**
   A complete ALT, from its first instruction to its last: the enables of any guards,
   true or false, the wait, any run of other processes until it goes on, and the
   disables of the same true guards in any order. If it goes on at all it ends at the
   first true guard, in disabling order, that was ready when it did, whether or not it
   slept; no error is raised, no channel holds its tag and no timeout is left.
   */
  lemma WholeAlt(k: K, timed: bool, bs: seq<Branch>, iptr: int, now: Word, ticks: seq<Tick>, ds: seq<Branch>, next: int)
    requires Inv(k) && Plain(k) && MayEnableAll(AltStart(k, timed), bs) && Guards(ds) == Guards(bs) && Targets(ds)
    requires var k1 := EnableAll(AltStart(k, timed), bs);
             HalfRange(k1, k1.timq, {now} + NewTimes(k1, if timed then TaltWtOp else AltWtOp, now))
    requires var k1 := EnableAll(AltStart(k, timed), bs);
             var k2 := if timed then TaltWt(k1, iptr, now) else AltWt(k1, iptr, now);
             LegalRun(k2, ticks) && Resumes(k2, ticks, k.cur)
    ensures var k1 := EnableAll(AltStart(k, timed), bs);
            var k2 := if timed then TaltWt(k1, iptr, now) else AltWt(k1, iptr, now);
            var p, k3 := k.cur, Run(k2, ticks); var k4 := AltEnd(DisableAll(k3, ds), next);
            FirstReady(k3, p, ds) != NONE_SELECTED && k4.iptr == next + FirstReady(k3, p, ds) &&
            k4.env.eflags == k.env.eflags &&
            Inv(k4) && k4.cur == p && p !in k4.alts && p !in k4.timq && forall c :: ChanWord(k4, c) != p + 1
  {
    hide Inv, HalfRange, AltStart, EnableAll, MayEnableAll, TaltWt, AltWt, Run, LegalRun, Resumes, AltEnd,
         DisableAll, FirstReady, Guards, Targets, NewTimes;
    var k0, p := AltStart(k, timed), k.cur;
    AltStartKeeps(k, timed);
    AltStartEffect(k, timed);
    StartEnv(k, timed);
    EnablesNoted(k0, bs);
    EnabledGuards(bs);
    var k1 := EnableAll(k0, bs);
    assert Info(k1, p).todo == Enabled(bs);
    WaitPhase(k1, timed, iptr, now);
    CurrentPlace(k);
    AltCompletes(if timed then TaltWt(k1, iptr, now) else AltWt(k1, iptr, now), ticks, p, ds, next);
  }
}
