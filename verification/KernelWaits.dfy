/** What a process waits for, and that nothing else lets it go. */
module KernelWaits {
  import opened Words
  import opened Kernel
  import opened KernelInv
  import opened KernelRuns
  import opened KernelData
  import opened KernelFrame
  import opened KernelOrder
  import opened KernelAddress

  // ----- a waiting process

  /** In a channel, asleep in an ALT, in a timer input, or in the queue of a semaphore or barrier. */
  predicate Waits(pl: Place) {
    pl != Running && pl != Queued && pl != Halted
  }

  /** The instruction is what x waits for. */
  ghost predicate Frees(k: K, op: Op, now: Word, x: int) {
    match At(k, x)
    case Sending(c) => (op.InOp? && op.c == c) || op == XEndOp(c)
    case Receiving(c) => op.OutOp? && op.c == c
    case AltWait => (op.OutOp? && Uses(k, x, op.c)) || (x in k.timq && !TimeAfter(Slots(k, x).time, now))
    case TimerWait => !TimeAfter(Slots(k, x).time, now)
    case OnSem(s) => op == ReleaseOp(s) && SemQueue(k, s) != [] && SemQueue(k, s)[0] == x
    case OnBar(b) => (op == SyncOp(b) && BarOf(k, b).count <= 1) ||
      (op.ResignOp? && op.b == b && BarOf(k, b).count <= op.n)
    case _ => true
  }

  /** The word of a channel names x only if x waits there. */
  lemma WordNames(k: K, c: int, x: int)
    requires Inv(k) && Waits(At(k, x)) && Untag(ChanWord(k, c)) == x
    ensures At(k, x) == Sending(c) || At(k, x) == Receiving(c) || (At(k, x) == AltWait && Uses(k, x, c))
    ensures IsProcess(ChanWord(k, c)) <==> OnChannel(At(k, x))
    ensures OnChannel(At(k, x)) ==> ChanWord(k, c) == x
  {
    assert WordOk(k, c);
    if ChanWord(k, c) % 2 == 1 { AltersWait(k, x); }
    assert IsProcess(x);
  }

  lemma AltersWait(k: K, x: int)
    requires Inv(k) && Waits(At(k, x)) && x in k.alts
    ensures At(k, x) == AltWait
  {
    assert AltOk(k, x);
  }

  lemma WaiterNotDue(k: K, op: Op, now: Word, x: int)
    requires Inv(k) && Waits(At(k, x)) && !Frees(k, op, now, x)
    ensures x !in DueSet(k, now) && x !in Front(k) && x != k.cur
  {
    if x in k.timq { assert OnTimer(k, x); }
    if x in k.timq && x in k.alts { AltersWait(k, x); }
  }

  lemma WaiterApart(k: K, op: Op, now: Word, x: int)
    requires Inv(k) && Legal(k, op, now) && DataOk(k) && LegalData(k, op) && Waits(At(k, x)) && !Frees(k, op, now, x)
    ensures x !in Partners(k, op)
  {
    hide Inv, HalfRange, MayEnable, MayDisable, MaySleep, MayProceed, DataOk;
    match op
    case StartOp(p, _) =>
    case RunOp(p) =>
    case EndOp(par) => WaiterNotDue(k, op, now, x);
    case AdjustOp(p) => WaiterNotDue(k, op, now, x);
    case OutOp(c, _, _) => if Untag(ChanWord(k, c)) == x { WordNames(k, c, x); }
    case InOp(c, _, _) => if Untag(ChanWord(k, c)) == x { WordNames(k, c, x); }
    case XEndOp(c) => if ChanWord(k, c) == x { EndNames(k, c, x); }
    case ReleaseOp(s) => QueueMembers(k, s, 0);
    case SyncOp(b) => QueueMembers(k, 0, b);
    case ResignOp(b, n) => QueueMembers(k, 0, b);
    case _ =>
  }

  lemma QueueMembers(k: K, s: int, b: int)
    requires Inv(k)
    ensures forall x :: x in SemQueue(k, s) ==> At(k, x) == OnSem(s)
    ensures forall x :: x in BarOf(k, b).queue ==> At(k, x) == OnBar(b)
  {
    assert SemOk(k, s) && BarOk(k, b);
  }

  lemma EndNames(k: K, c: int, x: int)
    requires Inv(k) && DataOk(k) && (ChanWord(k, c) == 1 || c in k.env.ext) && ChanWord(k, c) == x && At(k, x) != Halted
    ensures At(k, x) == Sending(c)
  {
    assert MessagesOk(k, c) && IsProcess(x);
  }

  /** A waiting process is let go only by what it waits for; until then it is where it was, with the slots it had. */
  lemma StaysPut(k: K, op: Op, iptr: int, now: Word, x: int)
    requires Inv(k) && Legal(k, op, now) && DataOk(k) && LegalData(k, op) && Waits(At(k, x)) && !Frees(k, op, now, x)
    ensures var k' := Step(k, op, iptr, now); At(k', x) == At(k, x) && Slots(k', x) == Slots(k, x) && x != k.cur
  {
    WaiterNotDue(k, op, now, x);
    WaiterApart(k, op, now, x);
    hide Inv, Legal, Step, DueSet, Front, Partners, Frees, Slots, At;
    StepFrame(k, op, iptr, now);
  }

  /** No instruction of the run is what x waits for. */
  ghost predicate Undisturbed(k: K, ticks: seq<Tick>, x: int)
    decreases |ticks|
  {
    ticks == [] ||
    (!Frees(Fetch(k, ticks[0]), ticks[0].op, ticks[0].now, x) && Undisturbed(Next(k, ticks[0]), ticks[1..], x))
  }

  /** In every run a waiting process executes nothing before the instruction it waits for. */
  lemma {:induction false} WaitsOn(k: K, ticks: seq<Tick>, x: int)
    requires Inv(k) && LegalRun(k, ticks) && DataOk(k) && LegalDataRun(k, ticks) && Waits(At(k, x))
    requires Undisturbed(k, ticks, x)
    ensures var k' := Run(k, ticks); At(k', x) == At(k, x) && Slots(k', x) == Slots(k, x) && Rests(k, ticks, x)
    ensures Inv(Run(k, ticks)) && DataOk(Run(k, ticks))
    decreases |ticks|
  {
    hide Inv, Legal, LegalData, DataOk, Step, Fetch, Frees, Slots, At;
    if ticks != [] {
      var t := ticks[0];
      var k1 := Fetch(k, t);
      FetchKeeps(k, t);
      FetchData(k, t);
      StepKeeps(k1, t.op, t.iptr, t.now);
      StepData(k1, t.op, t.iptr, t.now);
      StaysPut(k1, t.op, t.iptr, t.now, x);
      WaitsOn(Next(k, t), ticks[1..], x);
    }
  }

  // ----- who is made to wait

  /** Where the current process is left to wait by an instruction, if it is. */
  ghost predicate Blocks(k: K, op: Op, now: Word, pl: Place) {
    match op
    case InOp(c, _, _) => ChanWord(k, c) == 0 && pl == Receiving(c)
    case OutOp(c, _, _) => (ChanWord(k, c) == 0 || (ChanWord(k, c) % 2 == 1 && ChanWord(k, c) != 1)) && pl == Sending(c)
    case XAbleOp(c) => ChanWord(k, c) == 0 && pl == AltWait
    case TinOp(t) => TimeAfter(t, now) && pl == TimerWait
    case ClaimOp(s) => SemOf(k, s).Claimed? && pl == OnSem(s)
    case SyncOp(b) => BarOf(k, b).count > 1 && pl == OnBar(b)
    case _ => false
  }

  /** A process left waiting in k2 waits on when another is dispatched. */
  lemma StillWaits(k2: K, now: Word, p: int)
    requires Inv(k2) && Waits(At(k2, p)) && (p in k2.timq ==> TimeAfter(Slots(k2, p).time, now))
    ensures var k' := RunNext(k2, now); At(k', p) == At(k2, p) && Slots(k', p) == Slots(k2, p)
  {
    assert p !in Front(k2) && p !in DueSet(k2, now) && p != k2.cur;
    hide Inv, RunNext, DueSet, Front;
    NextFrame(k2, now, DueSet(k2, now) + Front(k2));
  }

  lemma NoneTimed(k: K, p: int)
    requires Inv(k) && Waits(At(k, p)) && At(k, p) != TimerWait && At(k, p) != AltWait
    ensures p !in k.timq
  {
    if p in k.timq { assert OnTimer(k, p); }
    if p in k.alts { AltersWait(k, p); }
  }

  lemma TinBlocks(k: K, t: Word, iptr: int, now: Word)
    requires Inv(k) && Legal(k, TinOp(t), now) && TimeAfter(t, now)
    ensures var k', p := Tin(k, t, iptr, now), k.cur;
            At(k', p) == TimerWait && Slots(k', p).time == t && Slots(k', p).iptr == iptr
  {
    var p, k1 := k.cur, Park(k, iptr);
    var k2 := AwaitTime(k1, p, t, iptr);
    hide Inv, RunNext, TimeAfter, HalfRange, InsertTime;
    AfterAsymmetric(t, now);
    assert {now} + {t} == {now, t};
    assert At(k2, p) == TimerWait && Slots(k2, p).time == t && Slots(k2, p).iptr == iptr;
    hide AwaitTime, Park;
    TinReady(k, t, iptr, now);
    StillWaits(k2, now, p);
  }

  lemma ClaimBlocks(k: K, s: int, iptr: int, now: Word)
    requires Inv(k) && Plain(k) && HalfRange(k, k.timq, {now}) && SemOf(k, s).Claimed?
    ensures At(SemClaim(k, s, iptr, now), k.cur) == OnSem(s)
  {
    var p, k2 := k.cur, JoinSem(Park(k, iptr), k.cur, s);
    assert At(k2, p) == OnSem(s);
    hide Inv, JoinSem, Park, RunNext, HalfRange;
    SemReady(k, s, iptr, now);
    NoneTimed(k2, p);
    StillWaits(k2, now, p);
  }

  lemma SyncBlocks(k: K, b: int, iptr: int, now: Word)
    requires Inv(k) && Plain(k) && HalfRange(k, k.timq, {now}) && BarOf(k, b).count > 1
    ensures At(BarSync(k, b, iptr, now), k.cur) == OnBar(b)
  {
    var p, k2 := k.cur, JoinBar(Park(k, iptr), k.cur, b);
    assert At(k2, p) == OnBar(b);
    hide Inv, JoinBar, Park, RunNext, HalfRange;
    BarReady(k, b, iptr, now);
    NoneTimed(k2, p);
    StillWaits(k2, now, p);
  }

  /** The current process stored itself in a channel, and another runs. */
  lemma StoredBlocks(k: K, c: int, sending: bool, ptr: int, len: int, iptr: int, now: Word, q: int)
    requires Inv(k) && Plain(k) && HalfRange(k, k.timq, {now}) && (!sending ==> NoAltOn(k, c))
    requires ChanWord(k, c) == 0 || (ChanWord(k, c) % 2 == 1 && ChanWord(k, c) != 1)
    ensures var k2, p := Arrive(Park(k, iptr), k.cur, c, sending, ptr, len), k.cur;
            Stored(RunNext(k2, now), p, c, sending, ptr, len, iptr) &&
            (q != p ==> Stored(Load(k2, q), p, c, sending, ptr, len, iptr))
  {
    hide Inv, Arrive, RunNext, Load, HalfRange, NoAltOn, Plain, Park, Slots, At, ChanWord, Stored;
    var p, k1 := k.cur, Park(k, iptr);
    var k2 := Arrive(k1, p, c, sending, ptr, len);
    if ChanWord(k, c) != 0 { TagApart(k, c); }
    BlockKeeps(k, c, sending, ptr, len, iptr, now);
    ParkReads(k, iptr, c);
    StoredAt(k1, p, c, sending, ptr, len);
    StoredWaits(k2, p, c, sending, ptr, len, iptr, now, q);
  }

  /** p is blocked in channel c over the buffer of len bytes at ptr, and goes on at iptr. */
  predicate Stored(k: K, p: int, c: int, sending: bool, ptr: int, len: int, iptr: int) {
    var w := Slots(k, p);
    && At(k, p) == (if sending then Sending(c) else Receiving(c))
    && w.state == ptr && w.len == (if sending then -len else len) && w.iptr == iptr
  }

  lemma TagApart(k: K, c: int)
    requires Inv(k) && Plain(k) && ChanWord(k, c) % 2 == 1 && ChanWord(k, c) != 1
    ensures var q := ChanWord(k, c) - 1;
            Untag(ChanWord(k, c)) == q && q != k.cur && q != 0 &&
            (Slots(k, q).state == WAITING || Slots(k, q).state == READY)
  {
    TagState(k, c);
  }

  lemma StoredAt(k: K, p: int, c: int, sending: bool, ptr: int, len: int)
    requires ChanWord(k, c) % 2 == 1 && ChanWord(k, c) != 1 ==> ChanWord(k, c) - 1 != p
    ensures Stored(Arrive(k, p, c, sending, ptr, len), p, c, sending, ptr, len, Slots(k, p).iptr)
  {
    hide Wake;
    var v := ChanWord(k, c);
    if v % 2 == 1 && v != 1 { WakeElsewhere(k, v - 1, p); }
  }

  lemma WakeElsewhere(k: K, q: int, p: int)
    requires q != p
    ensures Slots(Wake(k, q), p) == Slots(k, p)
  {
  }

  lemma ParkReads(k: K, iptr: int, c: int)
    ensures ChanWord(Park(k, iptr), c) == ChanWord(k, c) && Slots(Park(k, iptr), k.cur).iptr == iptr
  {
  }

  lemma StoredWaits(k: K, p: int, c: int, sending: bool, ptr: int, len: int, iptr: int, now: Word, q: int)
    requires Inv(k) && Stored(k, p, c, sending, ptr, len, iptr)
    ensures Stored(RunNext(k, now), p, c, sending, ptr, len, iptr)
    ensures q != p ==> Stored(Load(k, q), p, c, sending, ptr, len, iptr)
  {
    hide Inv, RunNext, Load, Slots, At;
    NoneTimed(k, p);
    StillWaits(k, now, p);
    LoadElsewhere(k, q, p);
  }

  lemma LoadElsewhere(k: K, q: int, p: int)
    ensures Slots(Load(k, q), p) == Slots(k, p) && (p != q ==> At(Load(k, q), p) == At(k, p))
  {
  }

  lemma InBlocks(k: K, c: int, ptr: int, len: int, iptr: int, now: Word)
    requires Inv(k) && Legal(k, InOp(c, ptr, len), now) && ChanWord(k, c) == 0
    ensures Stored(In(k, c, ptr, len, iptr, now), k.cur, c, false, ptr, len, iptr)
  {
    hide Inv, RunNext, Arrive, Park, HalfRange, Stored, NoAltOn;
    assert {now} + {} == {now};
    StoredBlocks(k, c, false, ptr, len, iptr, now, k.cur);
  }

  lemma OutBlocks(k: K, c: int, ptr: int, len: int, iptr: int, now: Word)
    requires Inv(k) && Legal(k, OutOp(c, ptr, len), now)
    requires ChanWord(k, c) == 0 || (ChanWord(k, c) % 2 == 1 && ChanWord(k, c) != 1)
    ensures Stored(Out(k, c, ptr, len, iptr, now), k.cur, c, true, ptr, len, iptr)
  {
    hide Inv, RunNext, Arrive, Park, HalfRange, Stored, Say, Load, Slots, Enqueue, Deliver, Leave, SetError,
         MayOutput, ChanWord, Untag;
    var q, k1 := Untag(ChanWord(k, c)), Say(k, c, ptr, len);
    assert {now} + {} == {now};
    SaySame(k, c, ptr, len, now);
    if ChanWord(k, c) != 0 {
      TagApart(k, c);
      StoredBlocks(k1, c, true, ptr, len, iptr, now, q);
    } else {
      StoredBlocks(k1, c, true, ptr, len, iptr, now, q);
    }
  }

  lemma SaySame(k: K, c: int, ptr: int, len: int, now: Word)
    requires Inv(k) && Plain(k) && HalfRange(k, k.timq, {now})
    ensures var k1 := Say(k, c, ptr, len);
            Inv(k1) && Plain(k1) && HalfRange(k1, k1.timq, {now}) && k1.cur == k.cur &&
            ChanWord(k1, c) == ChanWord(k, c)
  {
    hide Inv, HalfRange, Bytes, Said;
    EnvKeeps(k, Say(k, c, ptr, len), {now});
  }

  lemma XAbleBlocks(k: K, c: int, iptr: int, now: Word)
    requires Inv(k) && Legal(k, XAbleOp(c), now) && ChanWord(k, c) == 0
    ensures At(XAble(k, c, iptr, now), k.cur) == AltWait
  {
    hide Inv, HalfRange, AwaitChannel, RunNext, NoAltOn, Park, At, Slots, OnlyAt;
    var p, k1 := k.cur, Park(k, iptr);
    var k2 := AwaitChannel(k1, p, c);
    assert {now} + {} == {now};
    CurrentPlace(k);
    ParkKeeps(k, iptr);
    ParkWorld(k, iptr, c);
    ParkEffect(k, iptr);
    NotOnTimer(k1, p);
    AwaitChannelKeeps(k1, p, c);
    AwaitEffect(k1, p, c);
    StillWaits(k2, now, p);
  }

  /** An instruction that blocks its process leaves it at the place given. */
  lemma StepBlocks(k: K, op: Op, iptr: int, now: Word, pl: Place)
    requires Inv(k) && Legal(k, op, now) && Blocks(k, op, now, pl)
    ensures At(Step(k, op, iptr, now), k.cur) == pl
  {
    hide Inv, HalfRange, TimeAfter, Tin, Out, In, XAble, SemClaim, BarSync, NoAltOn, At;
    assert {now} + {} == {now};
    match op
    case InOp(c, ptr, len) => InBlocks(k, c, ptr, len, iptr, now);
    case OutOp(c, ptr, len) => OutBlocks(k, c, ptr, len, iptr, now);
    case XAbleOp(c) => XAbleBlocks(k, c, iptr, now);
    case TinOp(t) => TinBlocks(k, t, iptr, now);
    case ClaimOp(s) => ClaimBlocks(k, s, iptr, now);
    case SyncOp(b) => SyncBlocks(k, b, iptr, now);
  }

  // ----- timer inputs over runs

  /** Every instruction of the run is executed before time t. */
  predicate Before(ticks: seq<Tick>, t: Word) {
    forall i :: 0 <= i < |ticks| ==> TimeAfter(t, ticks[i].now)
  }

  lemma {:induction false} EarlyUndisturbed(k: K, ticks: seq<Tick>, x: int)
    requires Inv(k) && LegalRun(k, ticks) && DataOk(k) && LegalDataRun(k, ticks) && At(k, x) == TimerWait
    requires Before(ticks, Slots(k, x).time)
    ensures Undisturbed(k, ticks, x)
    decreases |ticks|
  {
    hide Inv, Legal, LegalData, DataOk, Step, Slots, At, TimeAfter;
    if ticks != [] {
      var t := ticks[0];
      var k1 := Fetch(k, t);
      FetchKeeps(k, t);
      FetchData(k, t);
      StepKeeps(k1, t.op, t.iptr, t.now);
      StepData(k1, t.op, t.iptr, t.now);
      StaysPut(k1, t.op, t.iptr, t.now, x);
      EarlyUndisturbed(Next(k, t), ticks[1..], x);
    }
  }

  /** The process on the timer queue. */
  lemma OnQueue(k: K, x: int)
    requires Inv(k) && At(k, x) == TimerWait
    ensures x in k.timq
  {
  }

  /**
   A process that asks for a later time executes nothing until an instruction is
   executed at that time or after; until then it is on the timer queue with that time,
   to go on at the next instruction. One that asks for a time gone by goes on at once.
   */
  lemma TinWaits(k: K, t: Tick, ticks: seq<Tick>)
    requires Inv(k) && DataOk(k) && t.op.TinOp? && LegalRun(k, [t] + ticks) && LegalDataRun(k, [t] + ticks)
    ensures TimeAfter(t.now, t.op.t) ==> Next(k, t) == Fetch(k, t)
    ensures TimeAfter(t.op.t, t.now) && Before(ticks, t.op.t) ==>
              var k', p := Run(k, [t] + ticks), k.cur;
              Rests(Next(k, t), ticks, p) && p in k'.timq && At(k', p) == TimerWait &&
              Slots(k', p).time == t.op.t && Slots(k', p).iptr == t.iptr
  {
    hide Inv, HalfRange, DataOk, LegalData, TimeAfter, Tin, Before, Fetch, At, Slots;
    var p, k1 := k.cur, Fetch(k, t);
    FirstLegal(k, t, ticks);
    FetchKeeps(k, t);
    FetchData(k, t);
    if TimeAfter(t.now, t.op.t) { TinPasses(k1, t); }
    if TimeAfter(t.op.t, t.now) && Before(ticks, t.op.t) {
      TinBlocks(k1, t.op.t, t.iptr, t.now);
      hide Legal, Step;
      StepIsTin(k1, t);
      StepKeeps(k1, t.op, t.iptr, t.now);
      StepData(k1, t.op, t.iptr, t.now);
      EarlyUndisturbed(Next(k, t), ticks, p);
      WaitsOn(Next(k, t), ticks, p);
      OnQueue(Run(Next(k, t), ticks), p);
    }
  }

  lemma TinPasses(k: K, t: Tick)
    requires t.op.TinOp? && TimeAfter(t.now, t.op.t)
    ensures Step(k, t.op, t.iptr, t.now) == k
  {
    hide TimeAfter, RunNext;
  }

  lemma StepIsTin(k: K, t: Tick)
    requires t.op.TinOp?
    ensures Step(k, t.op, t.iptr, t.now) == Tin(k, t.op.t, t.iptr, t.now)
  {
    hide Tin;
  }

  lemma FirstLegal(k: K, t: Tick, ticks: seq<Tick>)
    requires LegalRun(k, [t] + ticks) && LegalDataRun(k, [t] + ticks)
    ensures Legal(Fetch(k, t), t.op, t.now) && LegalRun(Next(k, t), ticks)
    ensures LegalData(Fetch(k, t), t.op) && LegalDataRun(Next(k, t), ticks)
    ensures Run(k, [t] + ticks) == Run(Next(k, t), ticks)
  {
    hide Legal, LegalData, Step, Fetch;
    assert ([t] + ticks)[0] == t && ([t] + ticks)[1..] == ticks;
  }

  // ----- communications over runs

  /** No instruction of the run outputs to c. */
  predicate NoOutput(ticks: seq<Tick>, c: int) {
    forall i :: 0 <= i < |ticks| ==> ticks[i].op.OutOp? ==> ticks[i].op.c != c
  }

  /** No instruction of the run inputs from c or ends an extended input from it. */
  predicate NoInput(ticks: seq<Tick>, c: int) {
    forall i :: 0 <= i < |ticks| ==> (ticks[i].op.InOp? ==> ticks[i].op.c != c) && ticks[i].op != XEndOp(c)
  }

  lemma {:induction false} ChannelUndisturbed(k: K, ticks: seq<Tick>, x: int, c: int)
    requires Inv(k) && LegalRun(k, ticks) && DataOk(k) && LegalDataRun(k, ticks)
    requires (At(k, x) == Receiving(c) && NoOutput(ticks, c)) || (At(k, x) == Sending(c) && NoInput(ticks, c))
    ensures Undisturbed(k, ticks, x)
    decreases |ticks|
  {
    hide Inv, Legal, LegalData, DataOk, Step, Slots, At;
    if ticks != [] {
      var t := ticks[0];
      var k1 := Fetch(k, t);
      FetchKeeps(k, t);
      FetchData(k, t);
      StepKeeps(k1, t.op, t.iptr, t.now);
      StepData(k1, t.op, t.iptr, t.now);
      StaysPut(k1, t.op, t.iptr, t.now, x);
      ChannelUndisturbed(Next(k, t), ticks[1..], x, c);
    }
  }

  /** A process blocked in a channel is the one its word names. */
  lemma BlockedWord(k: K, x: int, c: int)
    requires Inv(k) && (At(k, x) == Sending(c) || At(k, x) == Receiving(c))
    ensures ChanWord(k, c) == x && IsProcess(x) && x != k.cur
  {
  }

  /**
   A process that inputs from a channel with nobody there executes nothing until there
   is an output; then it runs at once, at the next instruction, with the message in
   its buffer.
   */
  lemma InputCompletes(k: K, t: Tick, ticks: seq<Tick>, u: Tick)
    requires Inv(k) && DataOk(k) && t.op.InOp? && ChanWord(k, t.op.c) == 0 && NoOutput(ticks, t.op.c)
    requires u.op.OutOp? && u.op.c == t.op.c
    requires LegalRun(k, [t] + ticks) && LegalDataRun(k, [t] + ticks)
    requires var k1 := Fetch(Run(k, [t] + ticks), u); Legal(k1, u.op, u.now) && LegalData(k1, u.op)
    ensures var k1, k', p := Run(k, [t] + ticks), Next(Run(k, [t] + ticks), u), k.cur;
            Rests(Next(k, t), ticks, p) && k'.cur == p && k'.iptr == t.iptr && u.op.len == t.op.len &&
            Bytes(k'.env.mem, t.op.ptr, t.op.len) == Bytes(k1.env.mem, u.op.ptr, u.op.len)
  {
    hide Inv, HalfRange, DataOk, In, At, Slots, NoOutput, ChanWord, NoAltOn, Bytes, ReceiversClear, SendersClear;
    var p, c, k0 := k.cur, t.op.c, Fetch(k, t);
    FirstLegal(k, t, ticks);
    FetchKeeps(k, t);
    FetchData(k, t);
    InBlocks(k0, c, t.op.ptr, t.op.len, t.iptr, t.now);
    StepKeeps(k0, t.op, t.iptr, t.now);
    StepData(k0, t.op, t.iptr, t.now);
    hide Legal, LegalData, Fetch;
    StepIsIn(k0, t);
    hide Step;
    ChannelUndisturbed(Next(k, t), ticks, p, c);
    WaitsOn(Next(k, t), ticks, p);
    Received(Run(k, [t] + ticks), u, p, c, t.op.ptr, t.op.len);
  }

  lemma StepIsIn(k: K, t: Tick)
    requires t.op.InOp?
    ensures Step(k, t.op, t.iptr, t.now) == In(k, t.op.c, t.op.ptr, t.op.len, t.iptr, t.now)
  {
    hide In;
  }

  /** The output that a blocked receiver waits for. */
  lemma Received(k: K, u: Tick, p: int, c: int, ptr: int, len: int)
    requires Inv(k) && Stored(k, p, c, false, ptr, len, Slots(k, p).iptr) && u.op.OutOp? && u.op.c == c
    requires Legal(Fetch(k, u), u.op, u.now) && LegalData(Fetch(k, u), u.op)
    ensures var k' := Next(k, u);
            k'.cur == p && k'.iptr == Slots(k, p).iptr && u.op.len == len &&
            Bytes(k'.env.mem, ptr, len) == Bytes(k.env.mem, u.op.ptr, u.op.len)
  {
    hide Inv, HalfRange, Out, Bytes, NoAltOn, ReceiversClear;
    var k1 := Fetch(k, u);
    FetchKeeps(k, u);
    BlockedWord(k1, p, c);
    hide Fetch;
    OutMeetsReceiver(k1, c, u.op.ptr, u.op.len, u.iptr, u.now);
  }

  /**
   A process that outputs to a channel with nobody there, or an ALT, executes nothing
   until the message is taken: an input takes it and runs the sender at once, the end
   of an extended input queues it. Either way it is to go on at the next instruction.
   */
  lemma OutputCompletes(k: K, t: Tick, ticks: seq<Tick>, u: Tick)
    requires Inv(k) && DataOk(k) && t.op.OutOp? && NoInput(ticks, t.op.c)
    requires ChanWord(k, t.op.c) == 0 || (ChanWord(k, t.op.c) % 2 == 1 && ChanWord(k, t.op.c) != 1)
    requires (u.op.InOp? && u.op.c == t.op.c) || u.op == XEndOp(t.op.c)
    requires LegalRun(k, [t] + ticks) && LegalDataRun(k, [t] + ticks)
    requires var k1 := Fetch(Run(k, [t] + ticks), u); Legal(k1, u.op, u.now) && LegalData(k1, u.op)
    ensures var k1, k', p := Run(k, [t] + ticks), Next(Run(k, [t] + ticks), u), k.cur;
            Rests(Next(k, t), ticks, p) && Pc(k', p) == t.iptr &&
            if u.op.InOp?
            then k'.cur == p && Bytes(k'.env.mem, u.op.ptr, u.op.len) == Bytes(k1.env.mem, t.op.ptr, t.op.len)
            else k'.runq == k1.runq + [p] && t.op.c in k1.env.ext
  {
    hide Inv, HalfRange, DataOk, Out, At, Slots, NoInput, ChanWord, NoAltOn, Bytes, ReceiversClear, SendersClear;
    var p, c, k0 := k.cur, t.op.c, Fetch(k, t);
    FirstLegal(k, t, ticks);
    FetchKeeps(k, t);
    FetchData(k, t);
    OutBlocks(k0, c, t.op.ptr, t.op.len, t.iptr, t.now);
    StepKeeps(k0, t.op, t.iptr, t.now);
    StepData(k0, t.op, t.iptr, t.now);
    hide Legal, LegalData, Fetch;
    StepIsOut(k0, t);
    hide Step;
    ChannelUndisturbed(Next(k, t), ticks, p, c);
    WaitsOn(Next(k, t), ticks, p);
    Taken(Run(k, [t] + ticks), u, p, c, t.op.ptr, t.op.len);
  }

  lemma StepIsOut(k: K, t: Tick)
    requires t.op.OutOp?
    ensures Step(k, t.op, t.iptr, t.now) == Out(k, t.op.c, t.op.ptr, t.op.len, t.iptr, t.now)
  {
    hide Out;
  }

  /** The input, or end of an extended input, that a blocked sender waits for. */
  lemma Taken(k: K, u: Tick, p: int, c: int, ptr: int, len: int)
    requires Inv(k) && Stored(k, p, c, true, ptr, len, Slots(k, p).iptr)
    requires (u.op.InOp? && u.op.c == c) || u.op == XEndOp(c)
    requires Legal(Fetch(k, u), u.op, u.now) && LegalData(Fetch(k, u), u.op)
    ensures var k' := Next(k, u);
            Pc(k', p) == Slots(k, p).iptr &&
            if u.op.InOp? then k'.cur == p && Bytes(k'.env.mem, u.op.ptr, u.op.len) == Bytes(k.env.mem, ptr, len)
            else k'.runq == k.runq + [p] && c in k.env.ext
  {
    hide Inv, HalfRange, In, XEnd, Bytes, NoAltOn, SendersClear, Pc;
    var k1 := Fetch(k, u);
    FetchKeeps(k, u);
    BlockedWord(k1, p, c);
    FetchPc(k, u, p);
    OtherPc(k, p);
    StepAddress(k1, u.op, u.iptr, u.now);
    hide Fetch;
    if u.op.InOp? {
      InMeetsSender(k1, c, u.op.ptr, u.op.len, u.iptr, u.now);
    } else {
      XEndReleases(k1, c);
    }
  }

  lemma OtherPc(k: K, p: int)
    requires p != k.cur
    ensures Pc(k, p) == Slots(k, p).iptr
  {
  }

  // ----- a channel disconnected at its other end

  lemma UpAfter(k: K, now: Word, p: int)
    requires Inv(RunNext(k, now)) && p in k.runq && p != 0
    ensures Up(RunNext(k, now), p)
  {
    hide RunNext, ChannelsOk, SemsOk, BarsOk, TimersOk, AltsOk, NoDup;
    var k' := RunNext(k, now);
    var i :| 0 <= i < |k.runq| && k.runq[i] == p;
    SameGrows(k, k);
    NextFifo(k, k, now);
    if Dispatched(k, k') && i > 0 {
      assert k.runq[1..][i - 1] == p && k'.runq[i - 1] == p;
    } else if !Dispatched(k, k') {
      assert k'.runq[i] == p;
    } else {
      assert k'.cur == p;
      RunningUp(k', p);
    }
  }

  lemma RunningUp(k: K, p: int)
    requires Placed(k) && k.cur == p
    ensures p != 0 ==> Up(k, p)
  {
  }

  /**
   Input from a channel with no other end fills the buffer with zeros and touches no
   other byte; output to one is dropped. Neither blocks, and neither is a message.
   */
  lemma Disconnected(k: K, op: Op, iptr: int, now: Word)
    requires Inv(k) && Legal(k, op, now) && (op.InOp? || op.OutOp?) && ChanWord(k, op.c) == 1
    ensures var k' := Step(k, op, iptr, now);
            Up(k', k.cur) && ChanWord(k', op.c) == 1 && k'.env.sent == k.env.sent && k'.env.recd == k.env.recd &&
            if op.InOp?
            then Spares(k, k', op.ptr, op.len) && forall i :: 0 <= i < op.len ==>
            Bytes(k'.env.mem, op.ptr, op.len)[i] == 0
            else k'.env.mem == k.env.mem
  {
    hide Inv, HalfRange, RunNext, Zero, Enqueue, Park, NoAltOn, Up, Bytes, Spares;
    var k1 := if op.InOp? then SetMem(k, Zero(k.env.mem, op.ptr, op.len)) else k;
    var k2 := Enqueue(Park(k1, iptr), k.cur);
    StepKeeps(k, op, iptr, now);
    YieldWorld(k1, iptr);
    RunNextWorld(k2, now);
    UpAfter(k2, now, k.cur);
    if op.InOp? { Zeroed(k, Step(k, op, iptr, now), op.ptr, op.len); }
  }

  lemma Zeroed(k: K, k': K, ptr: int, len: int)
    requires k'.env.mem == Zero(k.env.mem, ptr, len)
    ensures Spares(k, k', ptr, len) && forall i :: 0 <= i < len ==> Bytes(k'.env.mem, ptr, len)[i] == 0
  {
    hide Bytes, Store, Byte;
    forall i | 0 <= i < len ensures Bytes(k'.env.mem, ptr, len)[i] == 0 { ZeroReads(k.env.mem, ptr, len, i); }
    forall a | a < ptr || a >= ptr + len ensures Byte(k'.env.mem, a) == Byte(k.env.mem, a) {
      StoreElsewhere(k.env.mem, ptr, Zeros(len), a);
    }
  }

  lemma YieldWorld(k: K, iptr: int)
    ensures var k2 := Enqueue(Park(k, iptr), k.cur); k.cur in k2.runq && SameWorld(k, k2)
  {
    hide Slots;
  }

  // ----- the machine rests only when there is nothing to do

  /** A process runs, or the scheduler looked for one. */
  ghost predicate Scheduled(k': K, now: Word) {
    k'.cur != 0 || exists k2: K :: k2.cur == 0 && k' == RunNext(k2, now)
  }

  /** Nobody is queued, and no time has come. */
  ghost predicate NothingToDo(k: K, now: Word) {
    k.runq == [] && (k.timq == [] || TimeAfter(Slots(k, k.timq[0]).time, now))
  }

  lemma {:induction false} WalkDone(k: K, now: Word)
    ensures var k' := Walk(k, now); k'.timq == [] || TimeAfter(Slots(k', k'.timq[0]).time, now)
    decreases |k.timq|
  {
    hide TimeAfter, Expire, Slots;
    if k.timq != [] && !TimeAfter(Slots(k, k.timq[0]).time, now) {
      WalkDone(Expire(k, now), now);
    }
  }

  lemma ScheduledRests(k': K, now: Word)
    requires Scheduled(k', now) && Inv(k') && k'.cur == 0
    ensures NothingToDo(k', now)
  {
    var k2: K :| k2.cur == 0 && k' == RunNext(k2, now);
    var k1 := if k2.tq then Sync(k2, now) else k2;
    NullHalted(k');
    WalkDone(k2, now);
    hide Walk, TimeAfter, ChannelsOk, SemsOk, BarsOk, AltsOk, Sorted;
    SyncDone(k2, now);
    assert k' == Dispatch(k1);
    if k1.runq != [] { DispatchedNull(k1); }
    assert k' == k1;
  }

  lemma SyncDone(k: K, now: Word)
    requires var k' := Walk(k, now); k'.timq == [] || TimeAfter(Slots(k', k'.timq[0]).time, now)
    ensures var k' := Sync(k, now); k'.timq == [] || TimeAfter(Slots(k', k'.timq[0]).time, now)
  {
    hide Walk, TimeAfter;
  }

  lemma DispatchedNull(k: K)
    requires k.runq != []
    ensures Dispatch(k).cur == 0 ==> At(Dispatch(k), 0) == Running
  {
  }

  lemma RunsNext(k2: K, now: Word)
    requires k2.cur == 0
    ensures Scheduled(RunNext(k2, now), now)
  {
    hide RunNext;
  }

  lemma SavedCur(k: K, k': K)
    requires SameSaved(k, k')
    ensures k'.cur == k.cur
  {
  }

  lemma LoadRuns(k: K, q: int, now: Word)
    requires q != 0
    ensures Scheduled(Load(k, q), now)
  {
    hide RunNext;
  }

  /** The current process is parked; then another runs, or the scheduler looks for one. */
  lemma ParkedRuns(k: K, c: int, sending: bool, ptr: int, len: int, iptr: int, now: Word)
    ensures Scheduled(RunNext(Arrive(Park(k, iptr), k.cur, c, sending, ptr, len), now), now)
    ensures Scheduled(RunNext(Enqueue(Park(k, iptr), k.cur), now), now)
    ensures Scheduled(RunNext(AwaitChannel(Park(k, iptr), k.cur, c), now), now)
    ensures Scheduled(RunNext(Park(k, iptr), now), now)
  {
    var p, k1 := k.cur, Park(k, iptr);
    assert k1.cur == 0 by { hide Slots; }
    hide Arrive, Enqueue, AwaitChannel, Park, RunNext, Scheduled, SameSaved;
    ArriveSaved(k1, p, c, sending, ptr, len);
    SavedCur(k1, Arrive(k1, p, c, sending, ptr, len));
    EnqueueSaved(k1, p);
    SavedCur(k1, Enqueue(k1, p));
    AwaitSaved(k1, p, c);
    SavedCur(k1, AwaitChannel(k1, p, c));
    RunsNext(Arrive(k1, p, c, sending, ptr, len), now);
    RunsNext(Enqueue(k1, p), now);
    RunsNext(AwaitChannel(k1, p, c), now);
    RunsNext(k1, now);
  }

  lemma OutRuns(k: K, c: int, ptr: int, len: int, iptr: int, now: Word)
    requires k.cur != 0
    ensures Scheduled(Out(k, c, ptr, len, iptr, now), now)
  {
    hide Scheduled, RunNext, Arrive, Park, Enqueue, Load, Leave, Deliver, Say, SetError, Slots, ChanWord, SameSaved;
    var q, k1 := Untag(ChanWord(k, c)), Say(k, c, ptr, len);
    EnvSaved(k, c, ptr, 0, len);
    SavedCur(k, k1);
    SavedCur(k, SetError(k, EFLAG_CHAN));
    RunningOn(SetError(k, EFLAG_CHAN), now);
    ParkedRuns(k1, c, true, ptr, len, iptr, now);
    ParkedRuns(k, c, true, ptr, len, iptr, now);
    if q != 0 {
      LoadRuns(Arrive(Park(k1, iptr), k.cur, c, true, ptr, len), q, now);
      LoadRuns(Enqueue(Park(Leave(Deliver(k1, c, Slots(k, q).state, ptr, len), c), iptr), k.cur), q, now);
    }
  }

  lemma InRuns(k: K, c: int, ptr: int, len: int, iptr: int, now: Word)
    requires k.cur != 0
    ensures Scheduled(In(k, c, ptr, len, iptr, now), now)
  {
    hide Scheduled, RunNext, Arrive, Park, Enqueue, Load, Leave, Deliver, SetError, SetMem, Slots, ChanWord, SameSaved;
    var q, k1 := Untag(ChanWord(k, c)), SetMem(k, Zero(k.env.mem, ptr, len));
    EnvSaved(k, c, ptr, 0, len);
    SavedCur(k, k1);
    SavedCur(k, SetError(k, EFLAG_CHAN));
    RunningOn(SetError(k, EFLAG_CHAN), now);
    ParkedRuns(k1, c, false, ptr, len, iptr, now);
    ParkedRuns(k, c, false, ptr, len, iptr, now);
    if q != 0 {
      LoadRuns(Arrive(Park(k, iptr), k.cur, c, false, ptr, len), q, now);
      LoadRuns(Enqueue(Park(Leave(Deliver(k, c, ptr, Slots(k, q).state, len), c), iptr), k.cur), q, now);
    }
  }

  lemma XInRuns(k: K, c: int, ptr: int, len: int, iptr: int, now: Word)
    requires k.cur != 0
    ensures Scheduled(XIn(k, c, ptr, len, iptr, now), now)
  {
    var k1, v := SetMem(EndAlt(k, k.cur), Zero(k.env.mem, ptr, len)), ChanWord(k, c);
    var k2 := SetTaken(Deliver(EndAlt(k, k.cur), c, ptr, Slots(k, v).state, len), k.env.ext + {c});
    assert k1.cur == k.cur && k2.cur == k.cur by { hide Bytes, Copy, Zero, Slots, Heard; }
    hide RunNext, Enqueue, Park, EndAlt, Deliver, SetMem, SetTaken, Slots, ChanWord, Or;
    ParkedRuns(k1, c, false, ptr, len, iptr, now);
  }

  /** The current process sleeps in an ALT. */
  lemma SleepRuns(k: K, iptr: int, now: Word)
    ensures Scheduled(RunNext(Sleep(k, iptr), now), now)
  {
    hide Sleep, RunNext, Scheduled, OnlyAt;
    SleepEffect(k, iptr);
    RunsNext(Sleep(k, iptr), now);
  }

  lemma AltRuns(k: K, iptr: int, now: Word)
    requires k.cur != 0
    ensures Scheduled(AltWt(k, iptr, now), now) && Scheduled(TaltWt(k, iptr, now), now)
  {
    hide Proceed, Sleep, RunNext, Slots, TimerInsert, TimeAfter, OwnSlots;
    ProceedEffect(k, false, now);
    ProceedEffect(k, true, now);
    assert forall timed :: Proceed(k, timed, now).cur == k.cur by { ProceedCur(k, now); }
    SleepRuns(k, iptr, now);
    SleepRuns(TimerInsert(k, k.cur, Wrap(Slots(k, k.cur).time + 1), iptr), iptr, now);
  }

  lemma ProceedCur(k: K, now: Word)
    ensures forall timed :: Proceed(k, timed, now).cur == k.cur
  {
    hide Slots, Info;
  }

  lemma WaitRuns(k: K, x: int, t: Word, iptr: int, now: Word)
    ensures Scheduled(RunNext(JoinSem(Park(k, iptr), k.cur, x), now), now)
    ensures Scheduled(RunNext(JoinBar(Park(k, iptr), k.cur, x), now), now)
    ensures Scheduled(RunNext(AwaitTime(Park(k, iptr), k.cur, t, iptr), now), now)
  {
    hide Slots, InsertTime, SemQueue, BarOf, RunNext, Scheduled;
    RunsNext(JoinSem(Park(k, iptr), k.cur, x), now);
    RunsNext(JoinBar(Park(k, iptr), k.cur, x), now);
    RunsNext(AwaitTime(Park(k, iptr), k.cur, t, iptr), now);
  }

  lemma EndRuns(k: K, par: int, resume: int, now: Word)
    requires JoinCount(k, par) == 1 ==> par != 0
    ensures Scheduled(EndP(k, par, resume, now), now)
  {
    hide RunNext, Scheduled;
    var n := JoinCount(k, par);
    var k2 := SetJoin(SetAt(k, k.cur, Halted).(cur := 0), par, n - 1);
    if n == 1 {
      assert Scheduled(EndP(k, par, resume, now), now) by { RunningOn(EndP(k, par, resume, now), now); }
    } else {
      RunsNext(k2, now);
    }
  }

  lemma RunningOn(k: K, now: Word)
    requires k.cur != 0
    ensures Scheduled(k, now)
  {
    hide RunNext;
  }

  lemma ClaimRuns(k: K, s: int, iptr: int, now: Word)
    requires k.cur != 0
    ensures Scheduled(SemClaim(k, s, iptr, now), now)
  {
    hide RunNext, JoinSem, Park, Scheduled;
    WaitRuns(k, s, 0, iptr, now);
    RunningOn(SetSem(k, s, Claimed([])), now);
  }

  lemma SyncRuns(k: K, b: int, iptr: int, now: Word)
    requires k.cur != 0
    ensures Scheduled(BarSync(k, b, iptr, now), now)
  {
    hide RunNext, JoinBar, Park, Scheduled, BarComplete, SameSaved;
    WaitRuns(k, b, 0, iptr, now);
    CompleteSaved(k, b, BarOf(k, b).enrolled);
    SavedCur(k, BarComplete(k, b, BarOf(k, b).enrolled));
    RunningOn(BarComplete(k, b, BarOf(k, b).enrolled), now);
  }

  /** Instructions after which the current process, or the one it becomes, goes on. */
  lemma GoesOn(k: K, op: Op, iptr: int, now: Word)
    requires Inv(k) && Legal(k, op, now) && k.cur != 0
    requires op.StartOp? || op.RunOp? || op.AdjustOp? || op.AltOp? || op.Enb? || op.Dis? || op.AltEndOp? ||
             op.XEndOp? ||
             op.ReleaseOp? || op.EnrollOp? || op.ResignOp? || op.CountOp? || op.ReturnOp? || op.Compute?
    ensures Step(k, op, iptr, now).cur != 0
  {
    hide Inv, HalfRange, AltStart, Enable, Disable, AltEnd, XEnd, SemRelease, BarEnroll, BarResign, Enqueue,
         OwnSlots, SameSaved, NoAltOn, MayEnable, MayDisable, MayEndAlt, Slots, At, ChanWord, SemOf, SetWs;
    match op
    case StartOp(p, at) =>
      var k1 := SetWs(k, p, Slots(k, p).(iptr := at));
      EnqueueSaved(k1, p);
      SavedCur(k1, Enqueue(k1, p));
    case RunOp(p) => EnqueueSaved(k, p); SavedCur(k, Enqueue(k, p));
    case AdjustOp(p) =>
    case AltOp(timed) => AltStartEffect(k, timed); OwnCur(k, AltStart(k, timed));
    case Enb(g, on) => EnableEffect(k, g); OwnCur(k, Enable(k, g));
    case Dis(g, on, target) => DisableEffect(k, g, target); OwnCur(k, Disable(k, g, target));
    case AltEndOp => AltEndsWell(k, iptr); AltEndEffect(k, iptr); OwnCur(k, AltEnd(k, iptr));
    case XEndOp(c) => XEndSaved(k, c); SavedCur(k, XEnd(k, c));
    case ReleaseOp(s) => SemSaved(k, s); SavedCur(k, SemRelease(k, s));
    case EnrollOp(b, n) => CountSaved(k, b, n); SavedCur(k, BarEnroll(k, b, n));
    case ResignOp(b, n) => CountSaved(k, b, n); SavedCur(k, BarResign(k, b, n));
    case CountOp(_, _) =>
    case ReturnOp(_) =>
    case Compute(_) =>
  }

  lemma OwnCur(k: K, k': K)
    requires OwnSlots(k, k', k.cur)
    ensures k'.cur == k.cur
  {
  }

  lemma StepScheduled(k: K, op: Op, iptr: int, now: Word)
    requires Inv(k) && Legal(k, op, now)
    ensures Scheduled(Step(k, op, iptr, now), now)
  {
    hide Inv, HalfRange, EndP, AltWt, TaltWt, Out, In, XAble, XIn, Tin, SemClaim, BarSync, RunNext, Scheduled, Park,
         MaySleep, MayProceed, MayOutput, MayInput, NoAltOn, JoinCount, ChanWord, At, Info;
    match op
    case StopOp => ParkedRuns(k, 0, true, 0, 0, iptr, now);
    case EndOp(par) => EndRuns(k, par, Slots(k, par).temp, now);
    case AltWtOp => AltRuns(k, iptr, now) by { AltCur(k, op, now); }
    case TaltWtOp => AltRuns(k, iptr, now) by { AltCur(k, op, now); }
    case OutOp(c, ptr, len) => OutRuns(k, c, ptr, len, iptr, now);
    case InOp(c, ptr, len) => InRuns(k, c, ptr, len, iptr, now);
    case XAbleOp(c) => XAbleRuns(k, c, iptr, now);
    case XInOp(c, ptr, len) => XInRuns(k, c, ptr, len, iptr, now);
    case TinOp(t) => TinRuns(k, t, iptr, now);
    case ClaimOp(s) => ClaimRuns(k, s, iptr, now);
    case SyncOp(b) => SyncRuns(k, b, iptr, now);
    case Idle => RunsNext(k, now);
    case _ => hide Step, Legal; LegalCur(k, op, now); GoesOn(k, op, iptr, now); RunningOn(Step(k, op, iptr, now), now);
  }

  lemma AltCur(k: K, op: Op, now: Word)
    requires Legal(k, op, now) && (op.AltWtOp? || op.TaltWtOp?)
    ensures k.cur != 0
  {
    hide HalfRange;
  }

  lemma LegalCur(k: K, op: Op, now: Word)
    requires Legal(k, op, now) && !op.Idle?
    ensures k.cur != 0
  {
    hide HalfRange, NoAltOn;
  }

  lemma XAbleRuns(k: K, c: int, iptr: int, now: Word)
    requires k.cur != 0
    ensures Scheduled(XAble(k, c, iptr, now), now)
  {
    hide AwaitChannel, Park, RunNext, Scheduled;
    ParkedRuns(k, c, true, 0, 0, iptr, now);
    RunningOn(k, now);
  }

  lemma TinRuns(k: K, t: Word, iptr: int, now: Word)
    requires k.cur != 0
    ensures Scheduled(Tin(k, t, iptr, now), now)
  {
    hide AwaitTime, Park, RunNext, Scheduled, TimeAfter;
    WaitRuns(k, 0, t, iptr, now);
    RunningOn(k, now);
  }

  /** After any instruction, if no process runs then none is queued and no time has come. */
  lemma NeverIdle(k: K, op: Op, iptr: int, now: Word)
    requires Inv(k) && Legal(k, op, now)
    ensures var k' := Step(k, op, iptr, now); k'.cur == 0 ==> NothingToDo(k', now)
  {
    hide Inv, Legal, Step, Scheduled, NothingToDo;
    StepKeeps(k, op, iptr, now);
    StepScheduled(k, op, iptr, now);
    if Step(k, op, iptr, now).cur == 0 { ScheduledRests(Step(k, op, iptr, now), now); }
  }
}
