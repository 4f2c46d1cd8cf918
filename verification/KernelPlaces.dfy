/** Every live process is in exactly one place, and no instruction loses one. */
module KernelPlaces {
  import opened Words
  import opened Kernel
  import opened KernelInv
  import opened KernelRuns
  import opened KernelEffects
  import opened KernelAlt

  /** Between instructions no ALTer is halfway: woken, but not yet loaded or queued. */
  ghost predicate Settled(k: K) {
    forall p :: p in k.alts ==> At(k, p) != Halted
  }

  // ----- the places a process can be found

  ghost predicate OnRunQueue(k: K, p: int) {
    p in k.runq
  }

  /** In a timer input. */
  ghost predicate OnClock(k: K, p: int) {
    p in k.timq && p !in k.alts
  }

  /** A channel word names it. */
  ghost predicate InChannel(k: K, p: int) {
    p % 4 == 0 && p > 0 && exists c :: ChanWord(k, c) == p
  }

  /** Asleep in an ALT or an extended input, not woken. */
  ghost predicate InAlt(k: K, p: int) {
    p in k.alts && Asleep(k, p) && Slots(k, p).state == WAITING
  }

  ghost predicate InSem(k: K, p: int) {
    exists s :: p in SemQueue(k, s)
  }

  ghost predicate InBar(k: K, p: int) {
    exists b :: p in BarOf(k, b).queue
  }

  /** How many of the places hold p. */
  ghost function Places(k: K, p: int): nat {
    (if p == k.cur && p != 0 then 1 else 0) + (if OnRunQueue(k, p) then 1 else 0) + (if OnClock(k, p) then 1 else 0) +
    (if InChannel(k, p) then 1 else 0) + (if InAlt(k, p) then 1 else 0) + (if InSem(k, p) then 1 else 0) +
    (if InBar(k, p) then 1 else 0)
  }

  lemma RunningThere(k: K, p: int)
    requires Inv(k)
    ensures At(k, p) == Running <==> p == k.cur && p != 0
    ensures At(k, p) == Queued <==> OnRunQueue(k, p)
  {
    if At(k, p) == Running { assert IsProcess(p); }
  }

  lemma ClockThere(k: K, p: int)
    requires Inv(k)
    ensures At(k, p) == TimerWait <==> OnClock(k, p)
  {
    if p in k.timq { assert OnTimer(k, p); }
    if At(k, p) == TimerWait { NotAlting(k, p); }
  }

  lemma ChannelThere(k: K, p: int)
    requires Inv(k)
    ensures OnChannel(At(k, p)) <==> InChannel(k, p)
  {
    if OnChannel(At(k, p)) {
      assert ChanWord(k, At(k, p).c) == p;
    }
    if InChannel(k, p) {
      var c :| ChanWord(k, c) == p;
      assert WordOk(k, c);
    }
  }

  lemma AltThere(k: K, p: int)
    requires Inv(k)
    ensures At(k, p) == AltWait <==> InAlt(k, p)
  {
    if p in k.alts { assert AltOk(k, p); }
  }

  lemma QueueThere(k: K, p: int)
    requires Inv(k)
    ensures At(k, p).OnSem? <==> InSem(k, p)
    ensures At(k, p).OnBar? <==> InBar(k, p)
  {
    if InSem(k, p) { var s :| p in SemQueue(k, s); assert SemOk(k, s); }
    if InBar(k, p) { var b :| p in BarOf(k, b).queue; assert BarOk(k, b); }
  }

  /** A live process is in exactly one place, any other in none; and in no two queues of one kind. */
  lemma ExactlyOnePlace(k: K, p: int)
    requires Inv(k)
    ensures Places(k, p) == if At(k, p) == Halted then 0 else 1
    ensures forall c, d :: p % 4 == 0 && p > 0 && ChanWord(k, c) == p && ChanWord(k, d) == p ==> c == d
    ensures forall s, t :: p in SemQueue(k, s) && p in SemQueue(k, t) ==> s == t
    ensures forall b, d :: p in BarOf(k, b).queue && p in BarOf(k, d).queue ==> b == d
  {
    OneOfEach(k, p);
    hide Inv, OnRunQueue, OnClock, InChannel, InAlt, InSem, InBar;
    RunningThere(k, p);
    ClockThere(k, p);
    ChannelThere(k, p);
    AltThere(k, p);
    QueueThere(k, p);
  }

  lemma OneOfEach(k: K, p: int)
    requires Inv(k)
    ensures forall c, d :: p % 4 == 0 && p > 0 && ChanWord(k, c) == p && ChanWord(k, d) == p ==> c == d
    ensures forall s, t :: p in SemQueue(k, s) && p in SemQueue(k, t) ==> s == t
    ensures forall b, d :: p in BarOf(k, b).queue && p in BarOf(k, d).queue ==> b == d
  {
    forall c, d | p % 4 == 0 && p > 0 && ChanWord(k, c) == p && ChanWord(k, d) == p ensures c == d {
      assert WordOk(k, c) && WordOk(k, d);
    }
    forall s, t | p in SemQueue(k, s) && p in SemQueue(k, t) ensures s == t { assert SemOk(k, s) && SemOk(k, t); }
    forall b, d | p in BarOf(k, b).queue && p in BarOf(k, d).queue ensures b == d { assert BarOk(k, b) && BarOk(k, d); }
  }

  // ----- the live processes

  function Alive(k: K): (s: set<int>)
    ensures forall p :: p in s <==> At(k, p) != Halted
  {
    set p | p in k.place && k.place[p] != Halted
  }

  /** Who an instruction ends, and who it brings to life. */
  function Ends(k: K, op: Op): set<int> {
    if op.StopOp? || op.EndOp? || op.AdjustOp? then {k.cur} else {}
  }

  function Births(k: K, op: Op): set<int> {
    match op
    case StartOp(p, _) => {p}
    case RunOp(p) => {p}
    case AdjustOp(p) => {p}
    case EndOp(par) => if JoinCount(k, par) == 1 then {par} else {}
    case _ => {}
  }

  /** Everybody lives on. */
  ghost predicate SameLife(k: K, k': K) {
    forall p :: At(k', p) == Halted <==> At(k, p) == Halted
  }

  lemma LifeChain(k: K, k1: K, k2: K)
    requires SameLife(k, k1) && SameLife(k1, k2)
    ensures SameLife(k, k2)
  {
  }

  lemma OneLives(k: K, k': K, p: int)
    requires OneMove(k, k', p) && (At(k', p) == Halted <==> At(k, p) == Halted)
    ensures SameLife(k, k')
  {
  }

  // ----- scheduling loses nobody

  lemma ExpireLife(k: K, now: Word)
    requires Inv(k) && k.timq != []
    ensures SameLife(k, Expire(k, now))
  {
    var p := k.timq[0];
    hide Inv, Expire;
    ExpireEffect(k, now);
    TimerQuiet(k, p);
    OneLives(k, Expire(k, now), p);
  }

  lemma {:induction false} WalkLife(k: K, now: Word)
    requires Inv(k) && HalfRange(k, k.timq, {now})
    ensures SameLife(k, Walk(k, now))
    decreases |k.timq|
  {
    hide Inv, HalfRange, TimeAfter, Expire, SameLife;
    if k.timq != [] && !TimeAfter(Slots(k, k.timq[0]).time, now) {
      ExpireLife(k, now);
      ExpireDue(k, now);
      WalkLife(Expire(k, now), now);
      LifeChain(k, Expire(k, now), Walk(k, now));
    } else {
      LifeSelf(k);
    }
  }

  lemma LifeSelf(k: K)
    ensures SameLife(k, k)
  {
  }

  lemma FlagLife(k: K, now: Word)
    requires SameLife(k, Walk(k, now))
    ensures SameLife(k, Sync(k, now))
  {
    hide Walk;
    var k1, k2 := Walk(k, now), Sync(k, now);
    assert k2.place == k1.place;
    forall p ensures At(k2, p) == At(k1, p) { }
  }

  lemma DispatchLife(k: K)
    requires Inv(k)
    ensures SameLife(k, Dispatch(k))
  {
    if k.runq != [] {
      var p, k1 := k.runq[0], k.(runq := k.runq[1..]);
      assert At(k, p) == Queued && forall x :: At(k1, x) == At(k, x);
      hide Inv, Load;
      LoadSlots(k1, p);
    }
  }

  lemma RunNextLife(k: K, now: Word)
    requires Inv(k) && HalfRange(k, k.timq, {now})
    ensures SameLife(k, RunNext(k, now))
  {
    hide Inv, HalfRange, Sync, Dispatch, SameLife, Walk, RunNext;
    RunNextIs(k, now);
    if k.tq {
      WalkLife(k, now);
      FlagLife(k, now);
      SyncKeeps(k, now);
      DispatchLife(Sync(k, now));
      LifeChain(k, Sync(k, now), RunNext(k, now));
    } else {
      DispatchLife(k);
    }
  }

  /** The current process moved somewhere, and the next one runs. */
  lemma MovedOn(k: K, k2: K, now: Word)
    requires SameLife(k, k2) && Inv(k2) && HalfRange(k2, k2.timq, {now})
    ensures SameLife(k, RunNext(k2, now))
  {
    hide Inv, HalfRange, SameLife, RunNext;
    RunNextLife(k2, now);
    LifeChain(k, k2, RunNext(k2, now));
  }

  // ----- what each instruction does to the living

  /** Those in out end, those in born come to life, everybody else lives on. */
  ghost predicate Lives(k: K, k': K, out: set<int>, born: set<int>) {
    forall p :: At(k', p) != Halted <==> (At(k, p) != Halted && p !in out) || p in born
  }

  lemma NoneChange(k: K, k': K)
    requires SameLife(k, k')
    ensures Lives(k, k', {}, {})
  {
  }

  lemma OwnLife(k: K, k': K, p: int)
    requires OwnSlots(k, k', p)
    ensures SameLife(k, k')
  {
  }

  lemma PlaceLife(k: K, k': K)
    requires k'.place == k.place
    ensures SameLife(k, k')
  {
    forall p ensures At(k', p) == At(k, p) { }
  }

  /** An exchange: the process in the channel runs, the current one is queued. */
  lemma ExchangeLife(k: K, c: int, q: int, sending: bool, ptr: int, len: int, iptr: int)
    requires q == ChanWord(k, c) && At(k, q) != Halted && q != k.cur && At(k, k.cur) == Running
    ensures SameLife(k, Load(Enqueue(Park(Leave(Moved(k, c, q, sending, ptr, len), c), iptr), k.cur), q))
  {
    var k1 := Moved(k, c, q, sending, ptr, len);
    MovedRegs(k, c, q, sending, ptr, len);
    SamePlaces(k, k1);
    assert ChanWord(k1, c) == q;
    hide Moved, Leave, Park, Enqueue, Load, Slots, At;
    LeaveSlots(k1, c);
    var k2 := Leave(k1, c);
    ParkSlots(k2, iptr);
    var k3 := Park(k2, iptr);
    EnqueueEffect(k3, k.cur);
    LoadSlots(Enqueue(k3, k.cur), q);
  }

  /** A process settled in a channel; an ALTer it woke there, if it was waiting, runs at once. */
  lemma ArriveLife(k: K, c: int, sending: bool, ptr: int, len: int, iptr: int)
    requires Inv(k) && Plain(k) && (ChanWord(k, c) == 0 || (ChanWord(k, c) % 2 == 1 && ChanWord(k, c) != 1))
    ensures var k2, v := Arrive(Park(k, iptr), k.cur, c, sending, ptr, len), ChanWord(k, c);
            SameLife(k, if v != 0 && Slots(k, v - 1).state == WAITING then Load(k2, v - 1) else k2)
  {
    hide Inv, Arrive, Park, Wake, Block, Load, ChanWord;
    var v, k1 := ChanWord(k, c), Park(k, iptr);
    if v != 0 { TaggedElsewhere(k, c); }
    PlainDetached(k);
    WakeFirst(k, c, sending, ptr, len, iptr) by { PlainUnthreadedWord(k, c); }
    if v != 0 {
      WakeIs(k, v - 1);
      var kw := Wake(k, v - 1);
      WakePlace(k, v - 1);
      BlockSlots(kw, c, sending, ptr, len, iptr);
      LoadSlots(Block(kw, c, sending, ptr, len, iptr), v - 1);
    } else {
      BlockSlots(k, c, sending, ptr, len, iptr);
    }
  }

  lemma WakePlace(k: K, q: int)
    ensures var k' := Wake(k, q);
            k'.cur == k.cur && OneMove(k, k', q) && At(k', q) == if Slots(k, q).state == WAITING then Halted
            else At(k, q)
  {
    hide Slots, Wake;
    WakeIs(k, q);
  }

  lemma PlainUnthreadedWord(k: K, c: int)
    requires Inv(k) && Plain(k)
    ensures ChanWord(k, c) - 1 != k.cur
  {
    assert WordOk(k, c);
    CurrentPlace(k);
  }

  lemma StdIoLife(k: K, c: int, sending: bool, ptr: int, len: int, iptr: int, now: Word)
    requires Inv(k) && Plain(k) && HalfRange(k, k.timq, {now}) && MayMeet(k, c, sending)
    ensures SameLife(k, StdIo(k, c, sending, ptr, len, iptr, now))
  {
    hide Inv, HalfRange, Arrive, Park, Leave, Moved, Nothing, Enqueue, Load, RunNext, Slots, SameLife, ChanWord;
    var v, p := ChanWord(k, c), k.cur;
    WordKinds(k, c);
    PlainDetached(k);
    if v == 1 {
      var k1 := Nothing(k, sending, ptr, len);
      NothingReady(k, sending, ptr, len, now);
      NothingPlace(k, sending, ptr, len);
      YieldLife(k1, iptr, now);
      LifeChain(k, k1, RunNext(Enqueue(Park(k1, iptr), p), now));
    } else if v != 0 && v % 2 == 0 {
      ExchangeLife(k, c, v, sending, ptr, len, iptr) by { BlockedApart(k, c); }
    } else {
      var k2 := Arrive(Park(k, iptr), p, c, sending, ptr, len);
      ArriveLife(k, c, sending, ptr, len, iptr);
      if v != 0 { TaggedElsewhere(k, c); }
      if v == 0 || Slots(k, v - 1).state != WAITING {
        BlockKeeps(k, c, sending, ptr, len, iptr, now);
        MovedOn(k, k2, now);
      }
    }
  }

  lemma BlockedApart(k: K, c: int)
    requires Inv(k) && k.cur != 0 && IsProcess(ChanWord(k, c))
    ensures At(k, ChanWord(k, c)) != Halted && ChanWord(k, c) != k.cur
  {
    WordKinds(k, c);
    PlainDetached(k);
  }

  lemma NothingPlace(k: K, sending: bool, ptr: int, len: int)
    ensures SameLife(k, Nothing(k, sending, ptr, len)) && Nothing(k, sending, ptr, len).cur == k.cur
  {
    hide Zero;
    PlaceLife(k, Nothing(k, sending, ptr, len));
  }

  lemma YieldLife(k: K, iptr: int, now: Word)
    requires Inv(k) && Plain(k) && HalfRange(k, k.timq, {now})
    ensures SameLife(k, RunNext(Enqueue(Park(k, iptr), k.cur), now))
  {
    hide Inv, HalfRange, Park, Enqueue, RunNext, At;
    PlainDetached(k);
    RequeueKeeps(k, iptr, now);
    ParkSlots(k, iptr);
    EnqueueEffect(Park(k, iptr), k.cur);
    OneLives(k, Enqueue(Park(k, iptr), k.cur), k.cur) by { hide SameLife; }
    hide SameLife;
    MovedOn(k, Enqueue(Park(k, iptr), k.cur), now);
  }

  lemma OutLife(k: K, c: int, ptr: int, len: int, iptr: int, now: Word)
    requires Inv(k) && HalfRange(k, k.timq, {now}) && Plain(k) && MayOutput(k, c)
    ensures SameLife(k, Out(k, c, ptr, len, iptr, now))
  {
    hide Inv, HalfRange, Out, StdIo, Say, SameLife, NoAltOn;
    OutIs(k, c, ptr, len, iptr, now);
    if ChanWord(k, c) == 1 {
      StdIoLife(k, c, true, ptr, len, iptr, now);
    } else {
      var k1 := Say(k, c, ptr, len);
      SayReady(k, c, ptr, len, now);
      StdIoLife(k1, c, true, ptr, len, iptr, now);
      LifeChain(k, k1, Out(k, c, ptr, len, iptr, now));
    }
  }

  lemma SayReady(k: K, c: int, ptr: int, len: int, now: Word)
    requires Inv(k) && HalfRange(k, k.timq, {now}) && Plain(k) && MayOutput(k, c)
    ensures var k1 := Say(k, c, ptr, len);
            SameLife(k, k1) && Inv(k1) && HalfRange(k1, k1.timq, {now}) && Plain(k1) && MayMeet(k1, c, true)
  {
    hide Inv, HalfRange, NoAltOn, Bytes, Said;
    var k1 := Say(k, c, ptr, len);
    EnvKeeps(k, k1, {now});
    PlaceLife(k, k1);
  }

  lemma XAbleLife(k: K, c: int, iptr: int, now: Word)
    requires Inv(k) && HalfRange(k, k.timq, {now}) && Plain(k) && NoAltOn(k, c)
    ensures SameLife(k, XAble(k, c, iptr, now))
  {
    hide Inv, HalfRange, NoAltOn, AwaitChannel, Park, RunNext, At;
    if ChanWord(k, c) == 0 {
      PlainDetached(k);
      AwaitReady(k, c, iptr, now);
      AwaitSlots(k, c, iptr);
      MovedOn(k, AwaitChannel(Park(k, iptr), k.cur, c), now);
    }
  }

  lemma XInLife(k: K, c: int, ptr: int, len: int, iptr: int, now: Word)
    requires Inv(k) && HalfRange(k, k.timq, {now}) && MayXIn(k, c)
    ensures SameLife(k, XIn(k, c, ptr, len, iptr, now))
  {
    hide Inv, HalfRange, MayXIn, XIn, EndAlt, Park, Enqueue, RunNext, Moved, Nothing, SetTaken, SameLife, ChanWord;
    var v, k1 := ChanWord(k, c), EndAlt(k, k.cur);
    XInCases(k, c);
    XInIs(k, c, ptr, len, iptr, now);
    EndExtended(k, c);
    XInStart(k, c, {now});
    EndAltLife(k);
    if v == 1 {
      NothingReady(k1, false, ptr, len, now);
      NothingPlace(k1, false, ptr, len);
      YieldLife(Nothing(k1, false, ptr, len), iptr, now);
      LifeChain(k, k1, Nothing(k1, false, ptr, len));
      LifeChain(k, Nothing(k1, false, ptr, len), XIn(k, c, ptr, len, iptr, now));
    } else {
      TakenLife(k1, c, v, ptr, len, k.env.ext + {c});
      LifeChain(k, k1, XIn(k, c, ptr, len, iptr, now));
    }
  }

  lemma EndAltLife(k: K)
    ensures SameLife(k, EndAlt(k, k.cur))
  {
    EndAltIs(k);
    hide EndAlt;
    PlaceLife(k, EndAlt(k, k.cur));
  }

  lemma TakenLife(k: K, c: int, q: int, ptr: int, len: int, ext: set<int>)
    ensures SameLife(k, SetTaken(Moved(k, c, q, false, ptr, len), ext))
  {
    MovedRegs(k, c, q, false, ptr, len);
    hide Moved, Slots;
    PlaceLife(k, SetTaken(Moved(k, c, q, false, ptr, len), ext));
  }

  lemma XEndLife(k: K, c: int)
    requires Inv(k) && Plain(k) && (ChanWord(k, c) == 1 || IsProcess(ChanWord(k, c)))
    ensures SameLife(k, XEnd(k, c))
  {
    var v := ChanWord(k, c);
    if v != 1 {
      BlockedApart(k, c);
      hide Inv, Leave, Enqueue, At, ChanWord;
      LeaveSlots(k, c);
      EnqueueEffect(Leave(k, c), v);
      OneLives(k, Enqueue(Leave(k, c), v), v);
      hide SameLife;
      PlaceLife(Enqueue(Leave(k, c), v), XEnd(k, c));
      LifeChain(k, Enqueue(Leave(k, c), v), XEnd(k, c));
    }
  }

  lemma TinLife(k: K, t: Word, iptr: int, now: Word)
    requires Inv(k) && Plain(k) && Legal(k, TinOp(t), now)
    ensures SameLife(k, Tin(k, t, iptr, now))
  {
    hide Inv, HalfRange, AwaitTime, Park, RunNext, At, TimeAfter, TimerInsert, Legal;
    if !TimeAfter(now, t) {
      PlainDetached(k);
      TinWindow(k, t, now);
      TinReady(k, t, iptr, now);
      ParkSlots(k, iptr);
      AwaitLast(Park(k, iptr), k.cur, t, iptr);
      InsertPlace(Park(k, iptr), k.cur, t, iptr);
      MovedOn(k, AwaitTime(Park(k, iptr), k.cur, t, iptr), now);
    }
  }

  lemma InsertPlace(k: K, p: int, t: Word, iptr: int)
    ensures forall x :: At(TimerInsert(k, p, t, iptr), x) == At(k, x)
  {
    hide InsertTime, Slots;
  }

  lemma AltWtLife(k: K, iptr: int, now: Word)
    requires Inv(k) && Legal(k, AltWtOp, now)
    ensures SameLife(k, AltWt(k, iptr, now))
  {
    hide Inv, HalfRange, Sleep, Proceed, RunNext, At, Slots, OwnSlots, AltWt;
    LegalNow(k, AltWtOp, now);
    AltWtIs(k, iptr, now);
    PlainDetached(k);
    if Slots(k, k.cur).state == READY {
      ProceedSlots(k, false, now);
      OwnLife(k, Proceed(k, false, now), k.cur);
    } else {
      AsleepState(k, iptr, now) by { EnablingApart(k); AltTimed(k); }
      SleepSlots(k, iptr);
      MovedOn(k, Sleep(k, iptr), now);
    }
  }

  lemma AltTimed(k: K)
    requires Inv(k) && k.cur != 0 && k.cur in k.alts
    ensures At(k, k.cur) == Running
  {
    CurrentPlace(k);
  }

  lemma TaltWtLife(k: K, iptr: int, now: Word)
    requires Inv(k) && Legal(k, TaltWtOp, now)
    ensures SameLife(k, TaltWt(k, iptr, now))
  {
    hide Inv, HalfRange, Sleep, Proceed, RunNext, At, Slots, OwnSlots, TaltWt, TimeAfter, TimerInsert;
    LegalNow(k, TaltWtOp, now);
    AltWtIs(k, iptr, now);
    PlainDetached(k);
    var w, t := Slots(k, k.cur), Wrap(Slots(k, k.cur).time + 1);
    if w.state == READY || (w.tlink != TIME_NOT_SET && TimeAfter(now, w.time)) {
      ProceedSlots(k, true, now);
      OwnLife(k, Proceed(k, true, now), k.cur);
    } else if w.tlink != TIME_NOT_SET {
      TaltWindow(k, now);
      TimedState(k, iptr, now);
      InsertPlace(k, k.cur, t, iptr);
      SleepSlots(TimerInsert(k, k.cur, t, iptr), iptr) by { InsertTemp(k, k.cur, t, iptr); }
      InsertTemp(k, k.cur, t, iptr);
      MovedOn(k, Sleep(TimerInsert(k, k.cur, t, iptr), iptr), now);
    } else {
      AsleepState(k, iptr, now);
      SleepSlots(k, iptr);
      MovedOn(k, Sleep(k, iptr), now);
    }
  }

  lemma ClaimLife(k: K, s: int, iptr: int, now: Word)
    requires Inv(k) && Plain(k) && HalfRange(k, k.timq, {now})
    ensures SameLife(k, SemClaim(k, s, iptr, now))
  {
    hide Inv, HalfRange, JoinSem, Park, RunNext, At, SetSem;
    PlainDetached(k);
    if SemOf(k, s) == Free {
      SetSemPlace(k, s, Claimed([]));
    } else {
      SemReady(k, s, iptr, now);
      ParkSlots(k, iptr);
      JoinSemSlots(Park(k, iptr), k.cur, s);
      MovedOn(k, JoinSem(Park(k, iptr), k.cur, s), now);
    }
  }

  lemma SetSemPlace(k: K, s: int, m: Sem)
    ensures SameLife(k, SetSem(k, s, m))
  {
    PlaceLife(k, SetSem(k, s, m));
  }

  lemma ReleaseLife(k: K, s: int)
    requires Inv(k) && SemOf(k, s).Claimed?
    ensures SameLife(k, SemRelease(k, s))
  {
    var q := SemQueue(k, s);
    if q == [] {
      SetSemPlace(k, s, Free);
    } else {
      assert At(k, q[0]) == OnSem(s) by { assert SemOk(k, s); }
      hide Inv, LeaveSem, Enqueue, At, SemQueue;
      LeaveSemSlots(k, s);
      EnqueueEffect(LeaveSem(k, s), q[0]);
      OneLives(k, SemRelease(k, s), q[0]);
    }
  }

  lemma CompleteLife(k: K, b: int, e: Word)
    requires Inv(k)
    ensures SameLife(k, BarComplete(k, b, e))
  {
    hide BarComplete, At, BarOf;
    var k', q := BarComplete(k, b, e), BarOf(k, b).queue;
    assert forall x :: x in q ==> At(k, x) == OnBar(b) by { assert BarOk(k, b); }
    hide Inv;
    CompleteSlots(k, b, e);
  }

  lemma SyncLife(k: K, b: int, iptr: int, now: Word)
    requires Inv(k) && Plain(k) && HalfRange(k, k.timq, {now})
    ensures SameLife(k, BarSync(k, b, iptr, now))
  {
    hide Inv, HalfRange, JoinBar, Park, RunNext, At, BarComplete;
    PlainDetached(k);
    if BarOf(k, b).count > 1 {
      BarReady(k, b, iptr, now);
      ParkSlots(k, iptr);
      JoinBarSlots(Park(k, iptr), k.cur, b);
      MovedOn(k, JoinBar(Park(k, iptr), k.cur, b), now);
    } else {
      CompleteLife(k, b, BarOf(k, b).enrolled);
    }
  }

  lemma BarCountLife(k: K, b: int, n: Word)
    requires Inv(k)
    ensures SameLife(k, BarEnroll(k, b, n)) && SameLife(k, BarResign(k, b, n))
  {
    hide Inv, SetBar, BarComplete, SetError, Wrap, BarOf, SameLife, BarEnroll, BarResign;
    var bar := BarOf(k, b);
    EnrollIs(k, b, n);
    ResignIs(k, b, n);
    ErrorLife(k, EFLAG_BAR);
    if bar.enrolled + n < WORD_MOD {
      SetBarLife(k, b, bar.(enrolled := bar.enrolled + n, count := Wrap(bar.count + n)));
    }
    if n <= bar.enrolled && n <= bar.count {
      SetBarLife(k, b, bar.(enrolled := bar.enrolled - n, count := bar.count - n));
      CompleteLife(k, b, bar.enrolled - n);
    }
  }

  lemma ErrorLife(k: K, flag: nat)
    ensures SameLife(k, SetError(k, flag)) && SameLife(SetError(k, flag), k)
  {
    hide Or;
    PlaceLife(k, SetError(k, flag));
    PlaceLife(SetError(k, flag), k);
  }


  lemma SetBarLife(k: K, b: int, m: Bar)
    ensures SameLife(k, SetBar(k, b, m))
  {
    PlaceLife(k, SetBar(k, b, m));
  }

  // ----- processes come and go

  lemma StartLives(k: K, p: int, at: int)
    ensures Lives(k, StartP(k, p, at), {}, {p})
  {
    hide Enqueue, SetWs, At;
    StartSlots(k, p, at);
    var k1 := SetWs(k, p, Slots(k, p).(iptr := at));
    PlaceAt(k, k1);
    EnqueueEffect(k1, p);
  }

  lemma PlaceAt(k: K, k': K)
    requires k'.place == k.place
    ensures forall p :: At(k', p) == At(k, p)
  {
  }

  lemma StopLives(k: K, iptr: int, now: Word)
    requires Inv(k) && Plain(k) && HalfRange(k, k.timq, {now})
    ensures Lives(k, RunNext(Park(k, iptr), now), {k.cur}, {})
  {
    hide Inv, HalfRange, Park, RunNext, At;
    ParkKeeps(k, iptr);
    ParkTimers(k, iptr);
    WindowSame(k, Park(k, iptr), {now});
    ParkSlots(k, iptr);
    RunNextLife(Park(k, iptr), now);
  }

  lemma EndLives(k: K, par: int, resume: int, now: Word)
    requires Inv(k) && Plain(k) && HalfRange(k, k.timq, {now})
    ensures Lives(k, EndP(k, par, resume, now), {k.cur}, if JoinCount(k, par) == 1 then {par} else {})
  {
    hide Inv, HalfRange, EndP, RunNext, At, SetAt, SetJoin, JoinCount;
    var n := JoinCount(k, par);
    EndIs(k, par, resume, now);
    Ended(k, par, if n == 1 then 0 else n - 1, now);
    var k2 := SetJoin(SetAt(k, k.cur, Halted).(cur := 0), par, if n == 1 then 0 else n - 1);
    if n == 1 {
      BecomeSlots(k2, par, resume);
    } else {
      RunNextLife(k2, now);
    }
  }

  lemma AdjustLives(k: K, p: int)
    requires k.cur != 0 && (p == k.cur || Spare(k, p))
    ensures Lives(k, Adjust(k, p), {k.cur}, {p})
  {
    hide At, SetAt, Adjust;
    AdjustSlots(k, p);
  }

  /** Each instruction ends and brings to life exactly whom it names, and loses nobody. */
  lemma StepLives(k: K, op: Op, iptr: int, now: Word)
    requires Inv(k) && Legal(k, op, now)
    ensures Lives(k, Step(k, op, iptr, now), Ends(k, op), Births(k, op))
  {
    hide Inv, HalfRange, StartP, EndP, Adjust, AltStart, Enable, AltWt, TaltWt, Disable, AltEnd, Out, In, XAble, XIn,
         XEnd, Tin, SemClaim, SemRelease, BarSync, BarEnroll, BarResign, RunNext, Enqueue, Park, MayEnable,
         MayDisable, MaySleep, MayProceed, MayOutput, MayInput, MayXIn, NoAltOn, SameLife, Lives, OnlyAt, OwnSlots,
         At, JoinCount;
    LegalNow(k, op, now);
    match op
    case StartOp(p, at) => StartLives(k, p, at);
    case StopOp => StopLives(k, iptr, now);
    case RunOp(p) => RunLives(k, p);
    case EndOp(par) => EndLives(k, par, Slots(k, par).temp, now);
    case AdjustOp(p) => AdjustLives(k, p);
    case _ =>
      QuietLife(k, op, iptr, now);
      NoneChange(k, Step(k, op, iptr, now));
  }

  lemma RunLives(k: K, p: int)
    ensures Lives(k, Enqueue(k, p), {}, {p})
  {
    hide Enqueue, At;
    EnqueueEffect(k, p);
  }

  lemma QuietLife(k: K, op: Op, iptr: int, now: Word)
    requires Inv(k) && Legal(k, op, now) && !op.StartOp? && !op.StopOp? && !op.RunOp? && !op.EndOp? && !op.AdjustOp?
    ensures SameLife(k, Step(k, op, iptr, now))
  {
    hide Inv, HalfRange, AltStart, Enable, AltWt, TaltWt, Disable, AltEnd, Out, In, XAble, XIn, XEnd, Tin, SemClaim,
         SemRelease, BarSync, BarEnroll, BarResign, RunNext, MayEnable, MayDisable, MaySleep, MayProceed, MayOutput,
         MayInput, MayXIn, NoAltOn, SameLife, OnlyAt, OwnSlots, At, SetJoin, SetMem, Answer, StdIo;
    LegalNow(k, op, now);
    var k', p := Step(k, op, iptr, now), k.cur;
    match op
    case AltOp(timed) => AltStartSlots(k, timed); OwnLife(k, k', p);
    case Enb(g, on) => if on { EnableEffect(k, g); OwnLife(k, k', p); } else { LifeSelf(k); }
    case AltWtOp => AltWtLife(k, iptr, now);
    case TaltWtOp => TaltWtLife(k, iptr, now);
    case Dis(g, on, target) => if on { DisableEffect(k, g, target); OwnLife(k, k', p); } else { AnswerLife(k); }
    case AltEndOp => AltEndLife(k, iptr);
    case OutOp(c, ptr, len) => OutLife(k, c, ptr, len, iptr, now);
    case InOp(c, ptr, len) =>
      InIs(k, c, ptr, len, iptr, now);
      StdIoLife(k, c, false, ptr, len, iptr, now) by { InputMeets(k, c); }
    case XAbleOp(c) => XAbleLife(k, c, iptr, now);
    case XInOp(c, ptr, len) => XInLife(k, c, ptr, len, iptr, now);
    case XEndOp(c) => XEndLife(k, c);
    case TinOp(t) => TinLife(k, t, iptr, now);
    case ClaimOp(s) => ClaimLife(k, s, iptr, now);
    case ReleaseOp(s) => ReleaseLife(k, s);
    case SyncOp(b) => SyncLife(k, b, iptr, now);
    case EnrollOp(b, n) => BarCountLife(k, b, n);
    case ResignOp(b, n) => BarCountLife(k, b, n);
    case CountOp(par, n) => JoinLife(k, par, n);
    case ReturnOp(at) => ReturnEffect(k, at); OwnLife(k, k', p);
    case Compute(mem) => MemLife(k, mem);
    case Idle => RunNextLife(k, now);
  }

  lemma InputMeets(k: K, c: int)
    requires MayInput(k, c)
    ensures MayMeet(k, c, false)
  {
    hide NoAltOn;
  }

  lemma AnswerLife(k: K)
    ensures SameLife(k, Answer(k, false))
  {
    PlaceLife(k, Answer(k, false));
  }

  lemma JoinLife(k: K, par: int, n: int)
    ensures SameLife(k, SetJoin(k, par, n))
  {
    PlaceLife(k, SetJoin(k, par, n));
  }

  lemma MemLife(k: K, mem: map<int, int>)
    ensures SameLife(k, SetMem(k, mem))
  {
    PlaceLife(k, SetMem(k, mem));
  }

  lemma AltEndLife(k: K, iptr: int)
    ensures SameLife(k, AltEnd(k, iptr))
  {
    hide AltEnd, SetError;
    AltEndIs(k, iptr);
    PlaceLife(k, AltEnd(k, iptr));
  }

  // ----- runs

  /** An instruction leaves no ALTer halfway. */
  lemma StepSettled(k: K, op: Op, iptr: int, now: Word)
    requires Inv(k) && Legal(k, op, now) && Settled(k)
    ensures Settled(Step(k, op, iptr, now))
  {
    var k' := Step(k, op, iptr, now);
    hide Inv, Step, At;
    StepLives(k, op, iptr, now);
    StepOthers(k, op, iptr, now);
    CurrentLives(k, op, iptr, now);
  }

  /** The current process, if it ends, is in no ALT then. */
  lemma CurrentLives(k: K, op: Op, iptr: int, now: Word)
    requires Inv(k) && Legal(k, op, now)
    ensures var k', p := Step(k, op, iptr, now), k.cur; p in Ends(k, op) ==> p !in k'.alts
    ensures k.cur == 0 ==> Step(k, op, iptr, now).alts == k.alts && 0 !in k.alts
    ensures k.cur != 0 ==> At(k, k.cur) != Halted
  {
    hide Inv, HalfRange, Step;
    if k.cur != 0 { PlainDetached(k); }
    NullHalted(k);
    if op.StopOp? || op.EndOp? || op.AdjustOp? || op.Idle? { PlainOthers(k, op, iptr, now); }
  }

  /** The live processes of a run: what is left of those given, and those brought to life, after its instructions. */
  ghost function Census(alive: set<int>, k: K, ticks: seq<Tick>): set<int>
    decreases |ticks|
  {
    if ticks == [] then alive
    else
      var k1 := Fetch(k, ticks[0]);
      Census(alive - Ends(k1, ticks[0].op) + Births(k1, ticks[0].op), Next(k, ticks[0]), ticks[1..])
  }

  lemma StepAlive(k: K, op: Op, iptr: int, now: Word)
    requires Inv(k) && Legal(k, op, now)
    ensures Alive(Step(k, op, iptr, now)) == Alive(k) - Ends(k, op) + Births(k, op)
  {
    hide Inv, Legal, Step, Ends, Births, At;
    StepLives(k, op, iptr, now);
    var s, s' := Alive(Step(k, op, iptr, now)), Alive(k) - Ends(k, op) + Births(k, op);
    assert forall p :: p in s <==> p in s';
  }

  lemma FetchAlive(k: K, t: Tick)
    ensures Alive(Fetch(k, t)) == Alive(k) && (Settled(k) ==> Settled(Fetch(k, t)))
  {
    hide At;
    assert forall p :: p in Alive(Fetch(k, t)) <==> p in Alive(k);
  }

  /**
   No process is lost or doubled in any run: the live processes are those there were,
   less those that stopped, ended or moved on, with those started; each is in exactly
   one place, and no woken ALTer is left behind.
   */
  lemma {:induction false} RunConserves(k: K, ticks: seq<Tick>)
    requires Inv(k) && Settled(k) && LegalRun(k, ticks)
    ensures var k' := Run(k, ticks);
            Alive(k') == Census(Alive(k), k, ticks) && Settled(k') && forall p :: Places(k', p) == if p in Alive(k')
            then 1 else 0
    decreases |ticks|
  {
    hide Inv, Legal, Step, Settled, Ends, Births, Fetch, Places, Alive;
    if ticks == [] {
      forall p ensures Places(k, p) == if p in Alive(k) then 1 else 0 {
        ExactlyOnePlace(k, p);
        AliveAt(k, p);
      }
    } else {
      var t := ticks[0];
      FetchKeeps(k, t);
      FetchAlive(k, t);
      StepKeeps(Fetch(k, t), t.op, t.iptr, t.now);
      StepAlive(Fetch(k, t), t.op, t.iptr, t.now);
      StepSettled(Fetch(k, t), t.op, t.iptr, t.now);
      RunConserves(Next(k, t), ticks[1..]);
    }
  }

  lemma AliveAt(k: K, p: int)
    ensures p in Alive(k) <==> At(k, p) != Halted
  {
  }

  /** No instruction of the run ends p. */
  ghost predicate NeverEnds(k: K, ticks: seq<Tick>, p: int)
    decreases |ticks|
  {
    ticks == [] || (p !in Ends(Fetch(k, ticks[0]), ticks[0].op) && NeverEnds(Next(k, ticks[0]), ticks[1..], p))
  }

  /** A process that does not stop, end or move on is somewhere, once, whatever the others do. */
  lemma {:induction false} NeverLost(k: K, ticks: seq<Tick>, p: int)
    requires Inv(k) && Settled(k) && LegalRun(k, ticks) && p in Alive(k) && NeverEnds(k, ticks, p)
    ensures Places(Run(k, ticks), p) == 1
    decreases |ticks|
  {
    hide Inv, Legal, Step, Settled, Ends, Births, Fetch, Places, Alive;
    if ticks == [] {
      ExactlyOnePlace(k, p);
      AliveAt(k, p);
    } else {
      var t := ticks[0];
      FetchKeeps(k, t);
      FetchAlive(k, t);
      StepKeeps(Fetch(k, t), t.op, t.iptr, t.now);
      StepAlive(Fetch(k, t), t.op, t.iptr, t.now);
      StepSettled(Fetch(k, t), t.op, t.iptr, t.now);
      NeverLost(Next(k, t), ticks[1..], p);
    }
  }

  lemma BootSettled(p: int, mem: map<int, int>)
    requires IsProcess(p)
    ensures Settled(Boot(p, mem)) && Alive(Boot(p, mem)) == {p}
  {
    assert forall x :: x in Alive(Boot(p, mem)) <==> x in {p};
  }
}
