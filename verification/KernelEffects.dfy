/** What each scheduling step changes, and how instructions are made of steps. */
module KernelEffects {
  import opened Words
  import opened Kernel
  import opened KernelInv
  import opened KernelRuns

  /** A process threaded on no queue. */
  ghost predicate Unthreaded(k: K, p: int) {
    p !in k.runq && (forall s :: p !in SemQueue(k, s)) && (forall b :: p !in BarOf(k, b).queue)
  }

  lemma LooseAt(k: K, p: int)
    requires Inv(k) && At(k, p) != Queued && !At(k, p).OnSem? && !At(k, p).OnBar?
    ensures Unthreaded(k, p)
  {
    forall s ensures p !in SemQueue(k, s) { assert SemOk(k, s); }
    forall b ensures p !in BarOf(k, b).queue { assert BarOk(k, b); }
  }

  /** The queues of k and k' are the same. */
  ghost predicate SameQueues(k: K, k': K) {
    k'.runq == k.runq && k'.timq == k.timq && k'.sem == k.sem && k'.bar == k.bar
  }

  lemma EnqueueTimes(k: K, p: int)
    ensures var k' := Enqueue(k, p); k'.iptr == k.iptr && forall x :: Slots(k', x).time == Slots(k, x).time
  {
  }

  /** On neither a channel, a semaphore nor a barrier. */
  ghost predicate Detached(k: K, x: int) {
    !OnChannel(At(k, x)) && (forall s :: x !in SemQueue(k, s)) && forall b :: x !in BarOf(k, b).queue
  }

  /** What the registers show is the same. */
  predicate SameRegs(k: K, k': K) {
    k'.cur == k.cur && k'.iptr == k.iptr && k'.tq == k.tq && k'.chan == k.chan && k'.env == k.env
  }

  lemma EnqueueRegs(k: K, p: int)
    ensures SameRegs(k, Enqueue(k, p))
  {
  }

  lemma ParkSlots(k: K, iptr: int)
    ensures var k', p := Park(k, iptr), k.cur;
            OnlyAt(k, k', p) && Slots(k', p) == Slots(k, p).(iptr := iptr) && At(k', p) == Halted &&
            SameQueues(k, k') && k' == k.(ws := k'.ws, place := k'.place, cur := 0)
  {
  }

  lemma LoadSlots(k: K, p: int)
    ensures var k' := Load(k, p);
            OnlyAt(k, k', p) && Slots(k', p) == Slots(k, p) && At(k', p) == Running &&
            SameQueues(k, k') && k' == k.(place := k'.place, cur := p, iptr := Slots(k, p).iptr)
  {
  }

  lemma TimerFlag(k: K)
    requires Inv(k)
    ensures k.timq != [] ==> k.tq
  {
  }

  lemma WalkStep(k: K, now: Word)
    ensures if k.timq != [] && !TimeAfter(Slots(k, k.timq[0]).time, now)
            then Walk(k, now) == Walk(Expire(k, now), now) else Walk(k, now) == k
  {
    hide TimeAfter, Expire, Slots;
  }

  /** The process at the front of the timer queue, taken off it, its slots as w. */
  function OffFront(k: K, w: Ws): K
    requires k.timq != []
  {
    SetWs(k.(timq := k.timq[1..]), k.timq[0], w)
  }

  lemma FrontSlots(k: K, w: Ws)
    requires k.timq != []
    ensures SameRegs(k, OffFront(k, w)) && Slots(OffFront(k, w), k.timq[0]) == w
  {
  }

  lemma ExpireIs(k: K, now: Word)
    requires k.timq != []
    ensures var w := Slots(k, k.timq[0]).(tlink := TIME_SET, time := now);
            Expire(k, now) == if w.state == READY then OffFront(k, w)
            else Enqueue(OffFront(k, w.(state := READY)), k.timq[0])
  {
  }

  lemma ExpireDue(k: K, now: Word)
    requires Inv(k) && HalfRange(k, k.timq, {now}) && k.timq != [] && !TimeAfter(Slots(k, k.timq[0]).time, now)
    ensures var k' := Expire(k, now); Inv(k') && HalfRange(k', k'.timq, {now})
  {
    hide Inv, HalfRange, TimeAfter, Slots, Expire;
    ExpireKeeps(k, now);
  }

  lemma RunNextIs(k: K, now: Word)
    ensures RunNext(k, now) == Dispatch(if k.tq then Sync(k, now) else k)
  {
    hide Sync, Dispatch;
  }

  lemma DispatchIs(k: K)
    ensures k.runq == [] ==> Dispatch(k) == k
  {
  }

  /** timer_queue_insert stops at the first process due strictly later. */
  lemma {:induction false} InsertTimeIs(q: seq<int>, k: K, p: int, t: Word, n: nat)
    requires n <= |q| && (forall j :: 0 <= j < n ==> !TimeAfter(Slots(k, q[j]).time, t)) &&
             (n < |q| ==> TimeAfter(Slots(k, q[n]).time, t))
    ensures InsertTime(q, k, p, t) == q[..n] + [p] + q[n..]
    decreases |q|
  {
    hide TimeAfter, Slots;
    if n == 0 {
      assert q[..0] + [p] + q[0..] == [p] + q;
    } else {
      var r := q[1..];
      forall j | 0 <= j < n - 1 ensures !TimeAfter(Slots(k, r[j]).time, t) { assert r[j] == q[j + 1]; }
      InsertTimeIs(r, k, p, t, n - 1);
      assert q[..n] + [p] + q[n..] == [q[0]] + (r[..n - 1] + [p] + r[n - 1..]);
    }
  }

  lemma InsertRegs(k: K, p: int, t: Word, iptr: int)
    ensures var k' := TimerInsert(k, p, t, iptr);
            k'.cur == k.cur && k'.iptr == k.iptr && k'.tq && k'.chan == k.chan && k'.env == k.env
    ensures var k' := TimerRemove(k, p);
            k'.cur == k.cur && k'.iptr == k.iptr && k'.tq == k.tq && k'.chan == k.chan && k'.env == k.env
  {
    hide InsertTime, RemoveTime;
  }

  lemma LeaveSlots(k: K, c: int)
    ensures var k' := Leave(k, c);
            OneMove(k, k', ChanWord(k, c)) && k'.ws == k.ws && SameQueues(k, k') && At(k', ChanWord(k, c)) == Halted &&
            k' == k.(chan := k.chan[c := 0], place := k'.place)
  {
  }

  lemma WakeSlots(k: K, q: int)
    requires At(k, q) == AltWait || Slots(k, q).state != WAITING
    ensures var k', w := Wake(k, q), Slots(k, q);
            OnlyAt(k, k', q) && SameQueues(k, k') && SameRegs(k, k') &&
            (OnChannel(At(k', q)) ==> OnChannel(At(k, q))) &&
            Slots(k', q) == if w.state == WAITING || w.state == ENABLING then w.(state := READY) else w
  {
  }

  lemma SettleSlots(k: K, p: int, c: int, sending: bool, ptr: int, len: int)
    ensures var k' := Settle(k, p, c, sending, ptr, len);
            OnlyAt(k, k', p) && SameQueues(k, k') &&
            k' == k.(ws := k'.ws, place := k'.place, chan := k.chan[c := p]) && OnChannel(At(k', p)) &&
            Slots(k', p) == Slots(k, p).(state := ptr, len := if sending then -len else len)
  {
  }

  lemma ArriveIs(k: K, p: int, c: int, sending: bool, ptr: int, len: int)
    ensures var v := ChanWord(k, c);
            Arrive(k, p, c, sending, ptr, len) ==
            Settle(if v % 2 == 1 && v != 1 then Wake(k, v - 1) else k, p, c, sending, ptr, len)
  {
    hide Wake, Settle, ChanWord;
  }

  lemma StartSlots(k: K, p: int, at: int)
    ensures var k1 := SetWs(k, p, Slots(k, p).(iptr := at));
            OnlyAt(k, k1, p) && SameQueues(k, k1) && SameRegs(k, k1) && k1.place == k.place &&
            Slots(k1, p) == Slots(k, p).(iptr := at)
    ensures StartP(k, p, at) == Enqueue(SetWs(k, p, Slots(k, p).(iptr := at)), p)
  {
    hide Enqueue;
  }

  /** The current process stopped, its context not saved. */
  lemma Ended(k: K, par: int, n: int, now: Word)
    requires Inv(k) && Plain(k) && HalfRange(k, k.timq, {now})
    ensures var k1 := SetAt(k, k.cur, Halted).(cur := 0); var k2 := SetJoin(k1, par, n);
            Inv(k2) && HalfRange(k2, k2.timq, {now}) && OneMove(k, k2, k.cur) && At(k2, k.cur) == Halted &&
            k2 == k.(place := k2.place, cur := 0, env := k.env.(joins := k.env.joins[par := n]))
  {
    hide Inv, HalfRange;
    var k1 := SetAt(k, k.cur, Halted).(cur := 0);
    HaltKeeps(k);
    WindowSame(k, k1, {now});
    EnvKeeps(k1, SetJoin(k1, par, n), {now});
  }

  lemma EndIs(k: K, par: int, resume: int, now: Word)
    ensures var n, k1 := JoinCount(k, par), SetAt(k, k.cur, Halted).(cur := 0);
            EndP(k, par, resume, now) ==
              if n == 1 then SetAt(SetJoin(k1, par, 0), par, Running).(cur := par, iptr := resume)
                else RunNext(SetJoin(k1, par, n - 1), now)
  {
    hide RunNext, SetAt, SetJoin;
  }

  lemma BecomeSlots(k: K, p: int, resume: int)
    ensures var k' := SetAt(k, p, Running).(cur := p, iptr := resume);
            OneMove(k, k', p) && k'.ws == k.ws && SameQueues(k, k') && At(k', p) == Running &&
            k' == k.(place := k'.place, cur := p, iptr := resume)
  {
  }

  lemma AdjustSlots(k: K, p: int)
    requires k.cur != 0 && (p == k.cur || Spare(k, p))
    ensures var k1, k' := SetAt(k, k.cur, Halted), Adjust(k, p);
            OneMove(k, k1, k.cur) && k1.ws == k.ws && SameQueues(k, k1) && At(k1, k.cur) == Halted &&
            OneMove(k1, k', p) && k'.ws == k1.ws && SameQueues(k1, k') && At(k', p) == Running &&
            k' == k.(place := k'.place, cur := p) && p != 0
  {
  }

  lemma LegalNow(k: K, op: Op, now: Word)
    requires Legal(k, op, now)
    ensures HalfRange(k, k.timq, {now})
  {
    assert HalfRange(k, k.timq, {now} + NewTimes(k, op, now));
    hide HalfRange, NewTimes;
    SmallerWindow(k, {now} + NewTimes(k, op, now), {now});
  }

  lemma AltStartSlots(k: K, timed: bool)
    ensures var k', p := AltStart(k, timed), k.cur; var w := Slots(k, p).(state := ENABLING);
            OwnSlots(k, k', p) && k'.timq == k.timq && SameRegs(k, k') && Slots(k', p) == if timed
            then w.(tlink := TIME_NOT_SET) else w
  {
  }

  lemma EnableRegs(k: K, g: Guard)
    ensures var k' := Enable(k, g);
            k'.cur == k.cur && k'.iptr == k.iptr && k'.tq == k.tq && k'.env == k.env &&
            k'.chan == if g.Chan? && ChanWord(k, g.c) == 0 then k.chan[g.c := k.cur + 1] else k.chan
  {
    hide Slots, ChanWord, TimeAfter, Note, SetWs, SetChan;
    var p, w := k.cur, Slots(k, k.cur);
    NoteRegs(k, g);
    match g
    case Chan(c) =>
      NoteRegs(SetChan(k, c, p + 1), g);
      NoteRegs(SetWs(k, p, w.(state := READY)), g);
      ChanSet(k, c, p + 1);
    case Skip => NoteRegs(SetWs(k, p, w.(state := READY)), g);
    case Timer(t) =>
      NoteRegs(SetWs(k, p, w.(tlink := TIME_SET, time := t)), g);
      NoteRegs(SetWs(k, p, w.(time := t)), g);
  }

  lemma NoteRegs(k: K, g: Guard)
    ensures SameRegs(k, Note(k, g))
  {
    hide Info;
  }

  lemma ChanSet(k: K, c: int, v: int)
    ensures SetChan(k, c, v) == k.(chan := k.chan[c := v])
  {
  }

  lemma TurnRegs(k: K, phase: Phase)
    ensures SameRegs(k, Turn(k, phase))
  {
    hide Info;
  }

  lemma ForgetRegs(k: K, g: Guard)
    ensures SameRegs(k, Forget(k, g))
  {
    hide Info, Without;
  }

  lemma SelectRegs(k: K, target: int)
    ensures SameRegs(k.(env := k.env.(fired := Slots(k, k.cur).temp == NONE_SELECTED)), Select(k, target))
  {
    hide Slots;
  }

  /** The process of an ALT being set up is on no timer queue, nor in a channel. */
  lemma EnablingApart(k: K)
    requires Inv(k) && k.cur != 0 && k.cur in k.alts && Info(k, k.cur).phase == Enabling
    ensures k.cur !in k.timq && At(k, k.cur) == Running
  {
    assert AltOk(k, k.cur);
    CurrentPlace(k);
  }

  lemma PlainDetached(k: K)
    requires Inv(k) && k.cur != 0
    ensures At(k, k.cur) == Running && (k.cur !in k.alts ==> k.cur !in k.timq) && k.cur > 0 && k.cur % 4 == 0
  {
    CurrentPlace(k);
  }

  lemma ProceedSlots(k: K, timed: bool, now: Word)
    ensures var k', p := Proceed(k, timed, now), k.cur; var w := Slots(k, p).(temp := NONE_SELECTED, state := READY);
            OwnSlots(k, k', p) && k'.timq == k.timq && SameRegs(k, k') && Slots(k', p) == if timed
            then w.(time := now) else w
  {
    hide Turn;
    var p, w := k.cur, Slots(k, k.cur).(state := READY);
    var w1 := if timed then w.(time := now) else w;
    TurnEffect(k, p, w1, Disabling);
    TurnRegs(SetWs(k, p, w1), Disabling);
  }

  lemma SleepSlots(k: K, iptr: int)
    ensures var k', p := Sleep(k, iptr), k.cur;
            OnlyAt(k, k', p) && SameQueues(k, k') && At(k', p) == AltWait &&
            Slots(k', p) == Slots(k, p).(temp := NONE_SELECTED, state := WAITING, iptr := iptr) &&
            k'.cur == 0 && k'.iptr == k.iptr && k'.tq == k.tq && k'.chan == k.chan && k'.env == k.env
  {
    SleepEffect(k, iptr);
    hide Info, OnlyAt, OneMove;
  }

  function Unselected(k: K): K {
    SetWs(k, k.cur, Slots(k, k.cur).(temp := NONE_SELECTED))
  }

  lemma UnselectedSlots(k: K)
    ensures var k', p := Unselected(k), k.cur;
            OnlyAt(k, k', p) && SameQueues(k, k') && SameRegs(k, k') && k'.place == k.place && At(k', p) == At(k, p) &&
            Slots(k', p) == Slots(k, p).(temp := NONE_SELECTED)
  {
  }

  /** Both ways on clear the selection anyway. */
  lemma UnselectedSame(k: K, timed: bool, now: Word, iptr: int)
    ensures Proceed(Unselected(k), timed, now) == Proceed(k, timed, now)
    ensures Sleep(Unselected(k), iptr) == Sleep(k, iptr)
  {
    assert Proceed(Unselected(k), timed, now).ws == Proceed(k, timed, now).ws;
    assert Sleep(Unselected(k), iptr).ws == Sleep(k, iptr).ws;
  }

  lemma UnselectedTimed(k: K, t: Word, iptr: int)
    requires k.cur !in k.timq
    ensures Sleep(TimerInsert(Unselected(k), k.cur, t, iptr), iptr) == Sleep(TimerInsert(k, k.cur, t, iptr), iptr)
  {
    var p, k1 := k.cur, Unselected(k);
    InsertSame(k.timq, k, k1, p, t);
    assert Sleep(TimerInsert(k1, p, t, iptr), iptr).ws == Sleep(TimerInsert(k, p, t, iptr), iptr).ws;
  }

  /** The time may be noted before the insertion. */
  lemma DueNoted(k: K, p: int, t: Word, iptr: int)
    requires p !in k.timq
    ensures TimerInsert(SetWs(k, p, Slots(k, p).(time := t)), p, t, iptr) == TimerInsert(k, p, t, iptr)
  {
    var k1 := SetWs(k, p, Slots(k, p).(time := t));
    InsertSame(k.timq, k, k1, p, t);
    assert TimerInsert(k1, p, t, iptr).ws == TimerInsert(k, p, t, iptr).ws;
  }

  lemma InsertTemp(k: K, p: int, t: Word, iptr: int)
    ensures Slots(TimerInsert(k, p, t, iptr), p).temp == Slots(k, p).temp && TimerInsert(k, p, t, iptr).cur == k.cur
  {
    hide InsertTime;
  }

  lemma {:induction false} InsertSame(q: seq<int>, k: K, k': K, p: int, t: Word)
    requires forall x :: x in q ==> Slots(k', x) == Slots(k, x)
    ensures InsertTime(q, k', p, t) == InsertTime(q, k, p, t)
    decreases |q|
  {
    if q != [] { InsertSame(q[1..], k, k', p, t); }
  }

  lemma NotedSlots(k: K, p: int, w: Ws)
    ensures var k' := SetWs(k, p, w);
            OnlyAt(k, k', p) && SameQueues(k, k') && SameRegs(k, k') && k'.place == k.place && Slots(k', p) == w &&
            At(k', p) == At(k, p)
  {
  }

  lemma DisableRegs(k: K, g: Guard, target: int)
    ensures var k', p := Disable(k, g, target), k.cur;
            k'.cur == k.cur && k'.iptr == k.iptr && k'.tq == k.tq &&
            k'.chan == (if g.Chan? && ChanWord(k, g.c) == p + 1 then k.chan[g.c := 0] else k.chan) &&
            k'.env == k.env.(fired := Ready(k, p, g) && Slots(k, p).temp == NONE_SELECTED)
  {
    hide Slots, ChanWord, TimeAfter, Forget, TimerRemove, Select, SetChan;
    SelectRegs(k, target);
    InsertRegs(k, k.cur, 0, 0);
    ForgetRegs(Select(k, target), g);
    ForgetRegs(Answer(k, false), g);
    ForgetRegs(Answer(TimerRemove(k, k.cur), false), g);
    if g.Chan? { ChanSet(k, g.c, 0); ForgetRegs(Answer(SetChan(k, g.c, 0), false), g); }
  }

  /** A disable answers true exactly when its guard is on and ready and nothing is selected yet, and then selects it. */
  lemma DisableAnswers(k: K, g: Guard, on: bool, target: int, iptr: int, now: Word)
    ensures var k', p := Step(k, Dis(g, on, target), iptr, now), k.cur;
            (k'.env.fired <==> on && Ready(k, p, g) && Slots(k, p).temp == NONE_SELECTED) &&
            Slots(k', p).temp == if k'.env.fired then target else Slots(k, p).temp
  {
    hide Disable, Slots, Ready, OnlyAt, Without;
    if on {
      DisableRegs(k, g, target);
      DisableEffect(k, g, target);
      DisabledTemp(k, k.cur, g, target);
    } else {
      AnswerEntries(k, false);
    }
  }

  lemma DisabledTemp(k: K, p: int, g: Guard, target: int)
    ensures DisabledSlots(k, p, g, target).temp ==
            if Ready(k, p, g) && Slots(k, p).temp == NONE_SELECTED then target else Slots(k, p).temp
  {
    hide Ready, Slots;
  }

  /** Cancelling a pending timeout. */
  lemma CancelIs(k: K, t: Word, target: int)
    requires TimerPending(k, k.cur, Timer(t))
    ensures var k1, k' := TimerRemove(k, k.cur), Disable(k, Timer(t), target);
            k'.ws == k1.ws && k'.place == k1.place && SameQueues(k1, k')
  {
    hide Slots, RemoveTime, Without, Info;
  }

  lemma TimedLinks(k: K)
    requires Inv(k) && k.cur != 0 && k.cur in k.alts
    ensures var p := k.cur; var l := Slots(k, p).tlink;
            (p in k.timq ==> l == ON_QUEUE) &&
            (Info(k, p).timed && p !in k.timq ==> l == TIME_SET || l == TIME_NOT_SET) &&
            forall x :: x in k.timq ==> x % 4 == 0
  {
    assert AltOk(k, k.cur);
    hide AltOk;
    forall x | x in k.timq ensures x % 4 == 0 && Slots(k, x).tlink == ON_QUEUE { assert OnTimer(k, x); }
  }

  lemma AltWtIs(k: K, iptr: int, now: Word)
    ensures AltWt(k, iptr, now) == if Slots(k, k.cur).state == READY then Proceed(k, false, now)
            else RunNext(Sleep(k, iptr), now)
    ensures var w := Slots(k, k.cur);
            TaltWt(k, iptr, now) ==
              if w.state == READY || (w.tlink != TIME_NOT_SET && TimeAfter(now, w.time)) then Proceed(k, true, now)
              else if w.tlink != TIME_NOT_SET
                then RunNext(Sleep(TimerInsert(k, k.cur, Wrap(w.time + 1), iptr), iptr), now)
              else RunNext(Sleep(k, iptr), now)
  {
    hide Slots, Proceed, RunNext, Sleep, TimerInsert, TimeAfter;
  }

  lemma AltEndIs(k: K, iptr: int)
    ensures var selection, k' := Slots(k, k.cur).temp, AltEnd(k, iptr);
            k'.ws == k.ws && k'.place == k.place && SameQueues(k, k') &&
            k' == if selection != NONE_SELECTED then k.(alts := k'.alts, iptr := iptr + selection)
            else SetError(k, EFLAG_ALT)
  {
    hide Slots, EndAlt, SetError;
    EndAltIs(k);
    ErrorIs(k, EFLAG_ALT);
  }

  lemma ErrorIs(k: K, flag: nat)
    ensures SetError(k, flag) == k.(env := SetError(k, flag).env)
  {
    hide Or;
  }

  lemma EndAltIs(k: K)
    ensures EndAlt(k, k.cur) == k.(alts := EndAlt(k, k.cur).alts)
  {
  }

  lemma TaltWindow(k: K, now: Word)
    requires Legal(k, TaltWtOp, now) && Slots(k, k.cur).state != READY && Slots(k, k.cur).tlink != TIME_NOT_SET &&
             !TimeAfter(now, Slots(k, k.cur).time)
    ensures HalfRange(k, k.timq, {now, Wrap(Slots(k, k.cur).time + 1)})
  {
    hide HalfRange, TimeAfter;
    assert {now} + NewTimes(k, TaltWtOp, now) == {now, Wrap(Slots(k, k.cur).time + 1)};
  }

  lemma TimerGuard(k: K, t: Word)
    requires Inv(k) && k.cur != 0 && k.cur in k.alts && Timer(t) in Info(k, k.cur).todo
    ensures Info(k, k.cur).timed
  {
    assert AltOk(k, k.cur);
    if !Info(k, k.cur).timed { NoTimers(Info(k, k.cur).todo, t); assert false; }
  }

  lemma PendingNotReady(k: K, t: Word)
    requires TimerPending(k, k.cur, Timer(t))
    ensures !Ready(k, k.cur, Timer(t))
  {
  }

  /** The data movement with the process q blocked in the channel. */
  function Moved(k: K, c: int, q: int, sending: bool, ptr: int, len: int): K {
    if sending then Deliver(k, c, Slots(k, q).state, ptr, len) else Deliver(k, c, ptr, Slots(k, q).state, len)
  }

  /** The data movement on a disconnected channel. */
  function Nothing(k: K, sending: bool, ptr: int, len: int): K {
    if sending then k else SetMem(k, Zero(k.env.mem, ptr, len))
  }

  /** chan_std_io. */
  function StdIo(k: K, c: int, sending: bool, ptr: int, len: int, iptr: int, now: Word): K {
    var p, v, q := k.cur, ChanWord(k, c), Untag(ChanWord(k, c));
    if v == 0 then RunNext(Arrive(Park(k, iptr), p, c, sending, ptr, len), now)
    else if v % 2 == 0 then Load(Enqueue(Park(Leave(Moved(k, c, q, sending, ptr, len), c), iptr), p), q)
    else if q != 0 then
      var state := Slots(k, q).state;
      if state == WAITING then Load(Arrive(Park(k, iptr), p, c, sending, ptr, len), q)
      else if state == READY || state == ENABLING then RunNext(Arrive(Park(k, iptr), p, c, sending, ptr, len), now)
      else SetError(k, EFLAG_CHAN)
    else RunNext(Enqueue(Park(Nothing(k, sending, ptr, len), iptr), p), now)
  }

  lemma InIs(k: K, c: int, ptr: int, len: int, iptr: int, now: Word)
    ensures In(k, c, ptr, len, iptr, now) == StdIo(k, c, false, ptr, len, iptr, now)
  {
    hide RunNext, Arrive, Park, Load, Enqueue, Leave, Deliver, Slots, SetMem, SetError, Zero, ChanWord;
  }

  /** What an output says is recorded first. */
  lemma SayLooks(k: K, c: int, ptr: int, len: int, q: int)
    ensures var k1 := Say(k, c, ptr, len);
            k1.cur == k.cur && Slots(k1, q) == Slots(k, q) && ChanWord(k1, c) == ChanWord(k, c)
  {
    hide Bytes;
  }

  lemma OutIs(k: K, c: int, ptr: int, len: int, iptr: int, now: Word)
    requires Inv(k) && Plain(k)
    ensures Out(k, c, ptr, len, iptr, now) ==
            StdIo(if ChanWord(k, c) == 1 then k else Say(k, c, ptr, len), c, true, ptr, len, iptr, now)
  {
    hide Inv, RunNext, Arrive, Park, Load, Enqueue, Leave, Deliver, Slots, SetMem, SetError, Say, ChanWord, At, Info,
         IsProcess;
    var v := ChanWord(k, c);
    SayLooks(k, c, ptr, len, Untag(v));
    WordKinds(k, c);
    if v % 2 == 1 && v != 1 { TagState(k, c); }
  }

  lemma SameUnthreaded(k: K, k': K, p: int)
    requires Unthreaded(k, p) && SameQueues(k, k')
    ensures Unthreaded(k', p)
  {
    forall s ensures p !in SemQueue(k', s) { assert SemQueue(k', s) == SemQueue(k, s); }
    forall b ensures p !in BarOf(k', b).queue { assert BarOf(k', b) == BarOf(k, b); }
  }

  /** The current process parks and settles in a channel. */
  function Block(k: K, c: int, sending: bool, ptr: int, len: int, iptr: int): K {
    Settle(Park(k, iptr), k.cur, c, sending, ptr, len)
  }

  lemma BlockSlots(k: K, c: int, sending: bool, ptr: int, len: int, iptr: int)
    ensures var k', p := Block(k, c, sending, ptr, len, iptr), k.cur;
            OnlyAt(k, k', p) && SameQueues(k, k') && OnChannel(At(k', p)) &&
            Slots(k', p) == Slots(k, p).(iptr := iptr, state := ptr, len := if sending then -len else len) &&
            k' == k.(ws := k'.ws, place := k'.place, chan := k.chan[c := p], cur := 0)
  {
    var k1, p := Park(k, iptr), k.cur;
    ParkSlots(k, iptr);
    SettleSlots(k1, p, c, sending, ptr, len);
    hide Park, Settle;
    OnlyChain(k, k1, Settle(k1, p, c, sending, ptr, len), p);
  }

  lemma WritesCommute(ws: map<int, Ws>, place: map<int, Place>, p: int, q: int, a: Ws, b: Ws)
    requires p != q
    ensures ws[p := a][q := b] == ws[q := b][p := a] &&
            place[p := Halted][q := Halted] == place[q := Halted][p := Halted]
  {
  }

  lemma ParkIs(k: K, iptr: int)
    ensures Park(k, iptr) ==
            k.(ws := k.ws[k.cur := Slots(k, k.cur).(iptr := iptr)], place := k.place[k.cur := Halted], cur := 0)
  {
    hide Slots;
  }

  lemma WakeIs(k: K, q: int)
    ensures var w := Slots(k, q).(state := READY);
            Wake(k, q) == if Slots(k, q).state == WAITING then k.(ws := k.ws[q := w], place := k.place[q := Halted])
                          else if Slots(k, q).state == ENABLING then k.(ws := k.ws[q := w])
                          else k
  {
    hide Slots;
  }

  /** An ALTer may be woken before or after the current process parks. */
  lemma WakeParks(k: K, q: int, iptr: int)
    requires q != k.cur
    ensures Wake(Park(k, iptr), q) == Park(Wake(k, q), iptr) && Wake(k, q).cur == k.cur
  {
    var p := k.cur;
    assert Slots(Park(k, iptr), q) == Slots(k, q);
    assert Slots(Wake(k, q), p) == Slots(k, p);
    hide Slots, Wake, Park;
    ParkIs(k, iptr);
    WakeIs(k, q);
    ParkIs(Wake(k, q), iptr);
    WakeIs(Park(k, iptr), q);
    WritesCommute(k.ws, k.place, p, q, Slots(k, p).(iptr := iptr), Slots(k, q).(state := READY));
  }

  lemma WakeFirst(k: K, c: int, sending: bool, ptr: int, len: int, iptr: int)
    requires ChanWord(k, c) - 1 != k.cur
    ensures var v := ChanWord(k, c); var k1 := if v % 2 == 1 && v != 1 then Wake(k, v - 1) else k;
            Arrive(Park(k, iptr), k.cur, c, sending, ptr, len) == Block(k1, c, sending, ptr, len, iptr)
  {
    var v := ChanWord(k, c);
    assert ChanWord(Park(k, iptr), c) == v;
    hide Wake, Settle, Park, ChanWord, Arrive;
    ArriveIs(Park(k, iptr), k.cur, c, sending, ptr, len);
    if v % 2 == 1 && v != 1 {
      WakeParks(k, v - 1, iptr);
    }
  }

  /** A tagged word names an ALTer elsewhere. */
  lemma TaggedElsewhere(k: K, c: int)
    requires Inv(k) && Plain(k) && ChanWord(k, c) % 2 == 1 && ChanWord(k, c) != 1
    ensures var q := ChanWord(k, c) - 1;
            q != k.cur && q > 0 && (At(k, q) == AltWait || Slots(k, q).state != WAITING) &&
            (Slots(k, q).state == WAITING || Slots(k, q).state == READY)
  {
    var q := ChanWord(k, c) - 1;
    TagState(k, c);
    assert AltOk(k, q);
  }

  lemma MovedRegs(k: K, c: int, q: int, sending: bool, ptr: int, len: int)
    ensures var k' := Moved(k, c, q, sending, ptr, len);
            k' == k.(env := k'.env) &&
            k'.env == k.env.(mem := if sending then Copy(k.env.mem, Slots(k, q).state, ptr, len)
                             else Copy(k.env.mem, ptr, Slots(k, q).state, len),
                             recd := k'.env.recd)
  {
    hide Copy, Bytes, Slots, Heard;
  }

  /** Where chan_io leaves the state, and what it returns. */
  ghost predicate ChanDone(k: K, k': K, c: int, sending: bool, ptr: int, len: int, iptr: int, ret: int, requeue: int) {
    var p, v, q := k.cur, ChanWord(k, c), Untag(ChanWord(k, c));
    var state := Slots(k, q).state;
    if v == 0 then ret == -1 && requeue == 0 && k' == Arrive(Park(k, iptr), p, c, sending, ptr, len)
    else if v % 2 == 0 then ret == 0 && requeue == v && k' == Leave(Moved(k, c, q, sending, ptr, len), c)
    else if q == 0 then ret == 0 && requeue == v && k' == Nothing(k, sending, ptr, len)
    else if state == WAITING || state == READY || state == ENABLING then
      ret == -1 && requeue == (if state == WAITING then v else 0) &&
      k' == Arrive(Park(k, iptr), p, c, sending, ptr, len)
    else ret > 0 && k' == SetError(k, EFLAG_CHAN)
  }

  lemma PlainUnthreaded(k: K)
    requires Inv(k) && Plain(k)
    ensures Unthreaded(k, k.cur) && k.cur !in k.timq && k.cur > 0 && At(k, k.cur) == Running && forall c ::
            ChanWord(k, c) - 1 != k.cur
  {
    CurrentPlace(k);
    LooseAt(k, k.cur);
    forall c ensures ChanWord(k, c) - 1 != k.cur { assert WordOk(k, c); }
  }

  lemma TaggedPlace(k: K, c: int)
    requires Inv(k) && Plain(k) && ChanWord(k, c) % 2 == 1 && ChanWord(k, c) != 1
    ensures var q := ChanWord(k, c) - 1; At(k, q) == AltWait || Slots(k, q).state != WAITING
  {
    TaggedElsewhere(k, c);
  }

  lemma WakeQueues(k: K, q: int)
    ensures SameQueues(k, Wake(k, q)) && Wake(k, q).cur == k.cur
  {
    hide Slots;
  }

  /** The channel is not misused: nobody ALTs on a channel the current process reads, or that is blocked by a process.
   */
  ghost predicate MayMeet(k: K, c: int, sending: bool) {
    (!sending || IsProcess(ChanWord(k, c)) ==> NoAltOn(k, c))
  }

  /** chan_io leaves a state that may go on. */
  lemma AfterChan(k: K, k': K, c: int, sending: bool, ptr: int, len: int, iptr: int, ret: int, requeue: int, now: Word)
    requires Inv(k) && Plain(k) && HalfRange(k, k.timq, {now}) && MayMeet(k, c, sending) &&
             ChanDone(k, k', c, sending, ptr, len, iptr, ret, requeue) && ret <= 0
    ensures Inv(k') && HalfRange(k', k'.timq, {now})
    ensures if ret == 0
            then requeue != 0 && Plain(k') && k'.cur == k.cur &&
            !OnChannel(At(Enqueue(Park(k', iptr), k'.cur), Untag(requeue)))
            else k'.cur == 0 && !OnChannel(At(k', Untag(requeue)))
  {
    hide Inv, HalfRange, Arrive, Park, Leave, Moved, Nothing, Enqueue, Slots;
    var v := ChanWord(k, c);
    WordKinds(k, c);
    if ret == 0 {
      if v == 1 {
        NothingReady(k, sending, ptr, len, now);
        RequeueKeeps(k', iptr, now);
        NullHalted(Enqueue(Park(k', iptr), k'.cur));
      } else {
        MovedReady(k, c, sending, ptr, len, now);
        RequeueKeeps(k', iptr, now);
        PlainDetached(k);
      }
    } else {
      BlockKeeps(k, c, sending, ptr, len, iptr, now);
      if v == 0 || Slots(k, v - 1).state != WAITING { NullHalted(k'); }
      else { TaggedElsewhere(k, c); }
    }
  }

  lemma NothingReady(k: K, sending: bool, ptr: int, len: int, now: Word)
    requires Inv(k) && Plain(k) && HalfRange(k, k.timq, {now})
    ensures var k' := Nothing(k, sending, ptr, len);
            Inv(k') && HalfRange(k', k'.timq, {now}) && Plain(k') && k'.cur == k.cur
  {
    hide Inv, HalfRange, Zero;
    EnvKeeps(k, Nothing(k, sending, ptr, len), {now});
  }

  lemma MovedReady(k: K, c: int, sending: bool, ptr: int, len: int, now: Word)
    requires Inv(k) && Plain(k) && HalfRange(k, k.timq, {now}) && IsProcess(ChanWord(k, c)) && NoAltOn(k, c)
    ensures var q := ChanWord(k, c); var k' := Leave(Moved(k, c, q, sending, ptr, len), c);
            Inv(k') && HalfRange(k', k'.timq, {now}) && Plain(k') && k'.cur == k.cur && At(k', q) == Halted &&
            q != k.cur
  {
    var q := ChanWord(k, c);
    var k1 := Moved(k, c, q, sending, ptr, len);
    hide Inv, HalfRange, Copy, Bytes, Leave, Slots, Moved;
    MovedRegs(k, c, q, sending, ptr, len);
    EnvKeeps(k, k1, {now});
    LeaveKeeps(k1, c);
    LeaveSlots(k1, c);
    LeaveTimers(k1, c);
    WindowSame(k1, Leave(k1, c), {now});
    WordKinds(k, c);
    PlainDetached(k);
  }

  lemma AwaitSlots(k: K, c: int, iptr: int)
    ensures var p := k.cur; var k' := AwaitChannel(Park(k, iptr), p, c);
            OnlyAt(k, k', p) && SameQueues(k, k') && At(k', p) == AltWait &&
            Slots(k', p) == Slots(k, p).(iptr := iptr, state := WAITING, len := c) &&
            k' == k.(ws := k'.ws, place := k'.place, chan := k.chan[c := p + 1], alts := k'.alts, cur := 0)
  {
    hide Info;
  }

  /** The states of an extended enable that waits. */
  lemma AwaitReady(k: K, c: int, iptr: int, now: Word)
    requires Inv(k) && Plain(k) && HalfRange(k, k.timq, {now}) && NoAltOn(k, c) && ChanWord(k, c) == 0
    ensures var k2 := AwaitChannel(Park(k, iptr), k.cur, c); Inv(k2) && HalfRange(k2, k2.timq, {now}) && k2.cur == 0
  {
    var p, k1 := k.cur, Park(k, iptr);
    var k2 := AwaitChannel(k1, p, c);
    hide Inv, HalfRange, AwaitChannel;
    ParkKeeps(k, iptr);
    CurrentPlace(k);
    ParkTimers(k, iptr);
    ParkWorld(k, iptr, c);
    AwaitChannelKeeps(k1, p, c);
    ChannelAwaitTimers(k1, p, c);
    TimersChain(k, k1, k2, {now}, {now});
  }

  /** An extended input finds a sender or a disconnected channel. */
  lemma XInCases(k: K, c: int)
    requires Inv(k) && MayXIn(k, c)
    ensures var v := ChanWord(k, c); v == 1 || (v != 0 && v % 2 == 0)
  {
    hide Inv, MayXIn, ChanWord;
    XInReady(k, c);
  }

  lemma XInIs(k: K, c: int, ptr: int, len: int, iptr: int, now: Word)
    requires var v := ChanWord(k, c); v == 1 || (v != 0 && v % 2 == 0)
    ensures var v, k1 := ChanWord(k, c), EndAlt(k, k.cur);
            XIn(k, c, ptr, len, iptr, now) ==
              if v == 1 then RunNext(Enqueue(Park(Nothing(k1, false, ptr, len), iptr), k.cur), now)
              else SetTaken(Moved(k1, c, v, false, ptr, len), k.env.ext + {c})
    ensures var k1 := EndAlt(k, k.cur); ChanWord(k1, c) == ChanWord(k, c) && k1.cur == k.cur
  {
    EndAltSame(k, c);
    hide RunNext, Enqueue, Park, Zero, Deliver, Slots, EndAlt, ChanWord, SetTaken, SetMem, SetError;
  }

  lemma EndAltSame(k: K, c: int)
    ensures var k1, v := EndAlt(k, k.cur), ChanWord(k, c);
            k1 == k.(alts := k1.alts) && ChanWord(k1, c) == v && Slots(k1, v) == Slots(k, v)
  {
    EndAltIs(k);
    hide EndAlt;
  }

  lemma AwaitLast(k: K, p: int, t: Word, iptr: int)
    ensures var k1, k' := TimerInsert(k, p, t, iptr), AwaitTime(k, p, t, iptr);
            OnlyAt(k1, k', p) && SameQueues(k1, k') && At(k', p) == TimerWait &&
            Slots(k', p) == Slots(k1, p).(state := 0) && SameRegs(k1, k')
  {
    hide TimerInsert;
  }

  /** On no barrier, and on no semaphore but s. */
  ghost predicate OnlySem(k: K, x: int, s: int) {
    (forall t :: t != s ==> x !in SemQueue(k, t)) && (forall b :: x !in BarOf(k, b).queue)
  }

  /** On no semaphore, and on no barrier but s. */
  ghost predicate OnlyBar(k: K, x: int, s: int) {
    (forall t :: x !in SemQueue(k, t)) && (forall b :: b != s ==> x !in BarOf(k, b).queue)
  }

  lemma UnthreadedOnly(k: K, x: int, s: int)
    requires Unthreaded(k, x)
    ensures OnlySem(k, x, s) && OnlyBar(k, x, s)
  {
  }

  lemma SemFront(k: K, s: int)
    requires Inv(k)
    ensures forall x :: x in SemQueue(k, s) ==> x > 1
  {
    assert SemOk(k, s);
  }

  lemma JoinSemSlots(k: K, p: int, s: int)
    ensures var k' := JoinSem(k, p, s);
            OneMove(k, k', p) && At(k', p) == OnSem(s) && SemOf(k', s) == Claimed(SemQueue(k, s) + [p]) &&
            (forall t :: t != s ==> SemOf(k', t) == SemOf(k, t)) &&
            k' == k.(sem := k'.sem, place := k'.place) && forall x :: Slots(k', x) == Slots(k, x)
  {
  }

  lemma LeaveSemSlots(k: K, s: int)
    requires SemQueue(k, s) != []
    ensures var k', p := LeaveSem(k, s), SemQueue(k, s)[0];
            OneMove(k, k', p) && At(k', p) == Halted && SemOf(k', s) == Claimed(SemQueue(k, s)[1..]) &&
            (forall t :: t != s ==> SemOf(k', t) == SemOf(k, t)) &&
            k' == k.(sem := k'.sem, place := k'.place) && forall x :: Slots(k', x) == Slots(k, x)
  {
  }

  lemma ParkSemOf(k: K, iptr: int, s: int)
    ensures SemOf(Park(k, iptr), s) == SemOf(k, s) && SemQueue(Park(k, iptr), s) == SemQueue(k, s)
  {
  }

  lemma TinWindow(k: K, t: Word, now: Word)
    requires Legal(k, TinOp(t), now) && !TimeAfter(now, t)
    ensures HalfRange(k, k.timq, {now, t})
  {
    hide HalfRange, TimeAfter;
    assert {now} + NewTimes(k, TinOp(t), now) == {now, t};
  }

  lemma JoinBarSlots(k: K, p: int, b: int)
    ensures var k', bar := JoinBar(k, p, b), BarOf(k, b);
            OneMove(k, k', p) && At(k', p) == OnBar(b) &&
            BarOf(k', b) == Bar(bar.enrolled, Wrap(bar.count - 1), bar.queue + [p]) &&
            (forall t :: t != b ==> BarOf(k', t) == BarOf(k, t)) &&
            k' == k.(bar := k'.bar, place := k'.place) && forall x :: Slots(k', x) == Slots(k, x)
  {
  }

  /** What draining a barrier's queue does to places and slots. */
  lemma {:induction false} DrainSlots(k: K, b: int)
    ensures var k', q := DrainBar(k, b), BarOf(k, b).queue;
            SameRegs(k, k') && k'.timq == k.timq && k'.sem == k.sem && k'.alts == k.alts && k'.runq == k.runq + q &&
            (forall x :: At(k', x) == if x in q then Queued else At(k, x)) &&
            (forall x :: Slots(k', x) == if x in q then Slots(k, x).(len := 0) else Slots(k, x)) &&
            (forall t :: t != b ==> BarOf(k', t) == BarOf(k, t)) && BarOf(k', b).queue == []
    decreases |BarOf(k, b).queue|
  {
    hide Enqueue, OffBar, At, Slots;
    var q := BarOf(k, b).queue;
    if q != [] {
      var k1 := Enqueue(OffBar(k, b), q[0]);
      DrainOne(k, b);
      DrainSlots(k1, b);
      assert forall x :: x in q <==> x == q[0] || x in q[1..];
    }
  }

  lemma DrainOne(k: K, b: int)
    requires BarOf(k, b).queue != []
    ensures var q := BarOf(k, b).queue; var k1 := Enqueue(OffBar(k, b), q[0]);
            SameRegs(k, k1) && k1.timq == k.timq && k1.sem == k.sem && k1.alts == k.alts &&
            k1.runq == k.runq + [q[0]] && BarOf(k1, b).queue == q[1..] &&
            (forall x :: At(k1, x) == if x == q[0] then Queued else At(k, x)) &&
            (forall x :: Slots(k1, x) == if x == q[0] then Slots(k, x).(len := 0) else Slots(k, x)) &&
            (forall t :: t != b ==> BarOf(k1, t) == BarOf(k, t))
  {
  }

  lemma CompleteSlots(k: K, b: int, e: Word)
    ensures var k', q := BarComplete(k, b, e), BarOf(k, b).queue;
            SameRegs(k, k') && k'.timq == k.timq && k'.sem == k.sem && k'.alts == k.alts && k'.runq == k.runq + q &&
            (forall x :: At(k', x) == if x in q then Queued else At(k, x)) &&
            (forall x :: Slots(k', x) == if x in q then Slots(k, x).(len := 0) else Slots(k, x)) &&
            (forall t :: t != b ==> BarOf(k', t) == BarOf(k, t)) && BarOf(k', b) == Bar(e, e, [])
  {
    DrainSlots(k, b);
    hide DrainBar;
    var k1, k' := DrainBar(k, b), BarComplete(k, b, e);
    assert forall x :: At(k', x) == At(k1, x) && Slots(k', x) == Slots(k1, x);
  }

  lemma SpliceTimes(k: K, b: int, e: Word)
    ensures forall x :: Slots(BarComplete(k, b, e), x).time == Slots(k, x).time
  {
    CompleteSlots(k, b, e);
    hide BarComplete, Slots;
  }

  lemma Overflow(e: Word, n: Word)
    ensures Wrap(e + n) < e <==> e + n >= WORD_MOD
  {
    if e + n >= WORD_MOD { WrapWitness(e + n, 1, e + n - WORD_MOD); } else { WrapWitness(e + n, 0, e + n); }
  }

  lemma ErrorKeeps(k: K, flag: nat)
    requires Inv(k)
    ensures Inv(SetError(k, flag))
  {
    hide Inv, Or;
    CoreKeeps(k, SetError(k, flag));
  }

  lemma EnrollIs(k: K, b: int, n: Word)
    ensures var bar := BarOf(k, b);
            BarEnroll(k, b, n) ==
              if bar.enrolled + n >= WORD_MOD then SetError(k, EFLAG_BAR)
              else SetBar(k, b, bar.(enrolled := bar.enrolled + n, count := Wrap(bar.count + n)))
  {
    hide SetBar, SetError, Wrap;
  }

  lemma ResignIs(k: K, b: int, n: Word)
    ensures var bar := BarOf(k, b);
            BarResign(k, b, n) ==
              if n > bar.enrolled || n > bar.count then SetError(k, EFLAG_BAR)
              else if bar.count > n then SetBar(k, b, bar.(enrolled := bar.enrolled - n, count := bar.count - n))
              else BarComplete(k, b, bar.enrolled - n)
  {
    hide SetBar, SetError, BarComplete;
  }

  lemma CountCur(k: K, b: int, n: Word)
    ensures BarEnroll(k, b, n).cur == k.cur && BarResign(k, b, n).cur == k.cur
  {
    hide BarEnroll, BarResign, BarComplete, BarOf, Wrap, Or;
    EnrollIs(k, b, n);
    ResignIs(k, b, n);
    if n <= BarOf(k, b).enrolled { CompleteSlots(k, b, BarOf(k, b).enrolled - n); }
  }
}
