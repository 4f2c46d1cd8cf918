/** Processes waiting for the same time are served in order of arrival, in every run. */
module KernelTimers {
  import opened Words
  import opened Kernel
  import opened KernelInv
  import opened KernelRuns

  /** Where p occurs last in a log, before its beginning if it does not. */
  function Last(log: seq<int>, p: int): (i: int)
    ensures -1 <= i < |log| && (p in log <==> i >= 0)
    decreases |log|
  {
    var n := |log|;
    if n == 0 then -1 else if log[n - 1] == p then n - 1 else Last(log[..n - 1], p)
  }

  lemma LastPushed(log: seq<int>, p: int, x: int)
    ensures Last(log + [p], x) == if x == p then |log| else Last(log, x)
  {
    assert (log + [p])[..|log|] == log;
  }

  /** Of two processes of q due at the same time the front one is the one logged earlier. */
  ghost predicate InOrder(k: K, q: seq<int>, log: seq<int>) {
    forall i, j :: 0 <= i < j < |q| && Slots(k, q[i]).time == Slots(k, q[j]).time ==> Last(log, q[i]) < Last(log, q[j])
  }

  /** The timer queue serves those due together in the order of the log. */
  ghost predicate FirstCome(k: K, log: seq<int>) {
    InOrder(k, k.timq, log)
  }

  /** The process an instruction adds to the timer queue, if any. */
  function Waits(k: K, op: Op, now: Word): seq<int> {
    if NewTimes(k, op, now) == {} then [] else [k.cur]
  }

  /** The processes that join the timer queue in the run, in order. */
  function Log(k: K, ticks: seq<Tick>): seq<int>
    decreases |ticks|
  {
    if ticks == [] then []
      else Waits(Fetch(k, ticks[0]), ticks[0].op, ticks[0].now) + Log(Next(k, ticks[0]), ticks[1..])
  }

  // ----- what changes no pending time

  lemma SameOrder(k: K, k': K, log: seq<int>)
    requires FirstCome(k, log) && SameTimers(k, k')
    ensures FirstCome(k', log)
  {
    hide Slots, Last;
  }

  lemma OrderKept(k: K, k': K, q: seq<int>, log: seq<int>)
    requires InOrder(k, q, log) && forall x :: x in q ==> Slots(k', x).time == Slots(k, x).time
    ensures InOrder(k', q, log)
  {
    hide Slots, Last;
  }

  lemma TailOrder(k: K, q: seq<int>, log: seq<int>)
    requires InOrder(k, q, log) && q != []
    ensures InOrder(k, q[1..], log)
    ensures forall y :: y in q[1..] && Slots(k, q[0]).time == Slots(k, y).time ==> Last(log, q[0]) < Last(log, y)
  {
    hide Slots, Last;
  }

  lemma ConsOrder(k: K, p: int, q: seq<int>, log: seq<int>)
    requires InOrder(k, q, log) && forall y :: y in q && Slots(k, p).time == Slots(k, y).time ==>
             Last(log, p) < Last(log, y)
    ensures InOrder(k, [p] + q, log)
  {
    hide Slots, Last;
  }

  // ----- the front goes

  lemma ExpireOrder(k: K, now: Word, log: seq<int>)
    requires FirstCome(k, log) && NoDup(k.timq) && k.timq != []
    ensures FirstCome(Expire(k, now), log) && NoDup(Expire(k, now).timq)
  {
    hide Slots, Last, Expire, NoDup, InOrder;
    var q, k' := k.timq, Expire(k, now);
    ExpireEffect(k, now);
    TailNoDup(q);
    TailOrder(k, q, log);
    OrderKept(k, k', q[1..], log);
  }

  lemma {:induction false} WalkOrder(k: K, now: Word, log: seq<int>)
    requires FirstCome(k, log) && NoDup(k.timq)
    ensures FirstCome(Walk(k, now), log)
    decreases |k.timq|
  {
    hide FirstCome, NoDup, Expire, Slots, TimeAfter;
    if k.timq != [] && !TimeAfter(Slots(k, k.timq[0]).time, now) {
      ExpireOrder(k, now, log);
      WalkOrder(Expire(k, now), now, log);
    }
  }

  lemma DispatchTimers(k: K)
    ensures SameTimers(k, Dispatch(k))
  {
  }

  lemma RunNextOrder(k: K, now: Word, log: seq<int>)
    requires FirstCome(k, log) && NoDup(k.timq)
    ensures FirstCome(RunNext(k, now), log)
  {
    hide Walk, Dispatch, NoDup, FirstCome;
    WalkOrder(k, now, log);
    var k1 := if k.tq then Sync(k, now) else k;
    assert FirstCome(k1, log) by { SameOrder(Walk(k, now), Walk(k, now).(tq := false), log); }
    DispatchTimers(k1);
    SameOrder(k1, Dispatch(k1), log);
  }

  /** A step that changes no pending time, and then the next process. */
  lemma ThenNext(k: K, k1: K, now: Word, log: seq<int>)
    requires Inv(k) && FirstCome(k, log) && SameTimers(k, k1)
    ensures FirstCome(RunNext(k1, now), log)
  {
    assert NoDup(k.timq);
    hide Inv, NoDup, FirstCome, RunNext, Slots;
    SameOrder(k, k1, log);
    RunNextOrder(k1, now, log);
  }

  // ----- one joins, one leaves

  /** A newcomer is put behind those due no later, so behind those due at the same time. */
  lemma {:induction false} InsertOrder(k: K, k': K, q: seq<int>, p: int, t: Word, base: Word, log: seq<int>)
    requires Sorted(k, q) && p !in q && InWindow(k, q, {t}, base) && InOrder(k, q, log)
    requires Slots(k', p).time == t && forall x :: x in q ==> Slots(k', x).time == Slots(k, x).time
    ensures InOrder(k', InsertTime(q, k, p, t), log + [p])
    decreases |q|
  {
    hide TimeAfter, Ahead, Last, Slots, InWindow;
    var log' := log + [p];
    assert q == [] ==> InOrder(k', [p], log');
    hide InOrder;
    if q != [] {
      TailOrder(k, q, log);
      if TimeAfter(Slots(k, q[0]).time, t) {
        NoneEqual(k, q, t, base);
        OrderKept(k, k', q, log);
        LogOrder(k', q, p, log);
        ConsOrder(k', p, q, log');
      } else {
        TailSorted(k, q);
        assert InWindow(k, q[1..], {t}, base) by { TailWindow(k, q, t, base); }
        InsertOrder(k, k', q[1..], p, t, base, log);
        InsertMembers(q[1..], k, p, t);
        LastPushed(log, p, q[0]);
        LastPushed(log, p, p);
        forall y | y in InsertTime(q[1..], k, p, t) && Slots(k', q[0]).time == Slots(k', y).time
          ensures Last(log', q[0]) < Last(log', y) {
          LastPushed(log, p, y);
        }
        ConsOrder(k', q[0], InsertTime(q[1..], k, p, t), log');
      }
    }
  }

  lemma TailWindow(k: K, q: seq<int>, t: Word, base: Word)
    requires InWindow(k, q, {t}, base) && q != []
    ensures InWindow(k, q[1..], {t}, base)
  {
    hide Ahead, Slots;
  }

  /** Nobody behind a process due later than t is due at t. */
  lemma NoneEqual(k: K, q: seq<int>, t: Word, base: Word)
    requires Sorted(k, q) && InWindow(k, q, {t}, base) && q != [] && TimeAfter(Slots(k, q[0]).time, t)
    ensures forall y :: y in q ==> Slots(k, y).time != t
  {
    hide TimeAfter, Ahead, Slots;
    TailSorted(k, q);
    forall y | y in q ensures Slots(k, y).time != t {
      LaterIsFurther(Slots(k, q[0]).time, t, base);
      LaterIsFurther(Slots(k, q[0]).time, Slots(k, y).time, base);
      LaterIsFurther(t, t, base);
      assert y != q[0] ==> y in q[1..];
    }
  }

  /** Logging p tells nothing about the others. */
  lemma LogOrder(k: K, q: seq<int>, p: int, log: seq<int>)
    requires InOrder(k, q, log) && p !in q
    ensures InOrder(k, q, log + [p])
  {
    hide Slots, Last;
    forall x | x in q ensures Last(log + [p], x) == Last(log, x) { LastPushed(log, p, x); }
  }

  lemma JoinOrder(k: K, k': K, p: int, t: Word, log: seq<int>)
    requires Inv(k) && FirstCome(k, log) && p !in k.timq && HalfRange(k, k.timq, {t})
    requires k'.timq == InsertTime(k.timq, k, p, t) && Slots(k', p).time == t
    requires forall x :: x in k.timq ==> Slots(k', x).time == Slots(k, x).time
    ensures FirstCome(k', log + [p])
  {
    assert Sorted(k, k.timq);
    hide Inv, Slots, Sorted, InOrder;
    var base: Word :| InWindow(k, k.timq, {t}, base);
    InsertOrder(k, k', k.timq, p, t, base, log);
  }

  lemma {:induction false} RemoveOrder(k: K, q: seq<int>, p: int, log: seq<int>)
    requires InOrder(k, q, log)
    ensures InOrder(k, RemoveTime(q, p), log) && forall x :: x in RemoveTime(q, p) ==> x in q
    decreases |q|
  {
    hide Slots, Last, InOrder;
    if q != [] && q[0] == p {
      TailOrder(k, q, log);
    } else if q != [] {
      TailOrder(k, q, log);
      RemoveOrder(k, q[1..], p, log);
      ConsOrder(k, q[0], RemoveTime(q[1..], p), log);
    }
  }

  // ----- every step, every run

  /** A change to the slots of a process that is not on the timer queue. */
  lemma OwnOrder(k: K, k': K, p: int, log: seq<int>)
    requires FirstCome(k, log) && OwnSlots(k, k', p) && k'.timq == k.timq && p !in k.timq
    ensures FirstCome(k', log)
  {
    hide Slots, InOrder, Info, At;
    OrderKept(k, k', k.timq, log);
  }

  /** While enabling, a process is on no timer queue. */
  lemma EnablingOff(k: K)
    requires Inv(k) && k.cur in k.alts && Info(k, k.cur).phase == Enabling
    ensures k.cur !in k.timq
  {
    assert AltOk(k, k.cur);
  }

  lemma EnableOrder(k: K, g: Guard, log: seq<int>)
    requires Inv(k) && FirstCome(k, log) && MayEnable(k, g)
    ensures FirstCome(Enable(k, g), log)
  {
    EnablingOff(k);
    hide Inv, Enable, FirstCome, OwnSlots, Slots;
    EnableEffect(k, g);
    OwnOrder(k, Enable(k, g), k.cur, log);
  }

  lemma DisableOrder(k: K, g: Guard, target: int, log: seq<int>)
    requires FirstCome(k, log)
    ensures FirstCome(Disable(k, g, target), log)
  {
    var k', q := Disable(k, g, target), k.timq;
    DisableEffect(k, g, target);
    hide Disable, InOrder, Info, At, ChanWord, Ready, TimerPending, RemoveTime;
    assert forall x :: Slots(k', x).time == Slots(k, x).time;
    hide Slots;
    OrderKept(k, k', q, log);
    RemoveOrder(k, q, k.cur, log);
    OrderKept(k, k', RemoveTime(q, k.cur), log);
  }

  lemma ProceedOrder(k: K, timed: bool, now: Word, log: seq<int>)
    requires Inv(k) && FirstCome(k, log) && k.cur in k.alts && Info(k, k.cur).phase == Enabling
    ensures FirstCome(Proceed(k, timed, now), log)
  {
    EnablingOff(k);
    hide Inv, Proceed, FirstCome, OwnSlots, Slots;
    ProceedEffect(k, timed, now);
    OwnOrder(k, Proceed(k, timed, now), k.cur, log);
  }

  lemma SleepTimers(k: K, iptr: int)
    ensures SameTimers(k, Sleep(k, iptr))
  {
    hide Sleep, Slots;
    SleepEffect(k, iptr);
  }

  lemma AltWtOrder(k: K, iptr: int, now: Word, log: seq<int>)
    requires Inv(k) && FirstCome(k, log) && (MaySleep(k, false) || MayProceed(k, false, now))
    ensures FirstCome(AltWt(k, iptr, now), log)
  {
    hide Inv, FirstCome, Proceed, Sleep, RunNext;
    if Slots(k, k.cur).state == READY {
      ProceedOrder(k, false, now, log);
    } else {
      SleepTimers(k, iptr);
      ThenNext(k, Sleep(k, iptr), now, log);
    }
  }

  lemma TaltWtOrder(k: K, iptr: int, now: Word, log: seq<int>)
    requires Inv(k) && FirstCome(k, log) && Legal(k, TaltWtOp, now)
    ensures FirstCome(TaltWt(k, iptr, now), log + Waits(k, TaltWtOp, now))
  {
    hide Inv, FirstCome, Proceed, Sleep, RunNext, TimerInsert, HalfRange, TimeAfter;
    var w := Slots(k, k.cur);
    assert log + [] == log;
    if w.state == READY || (w.tlink != TIME_NOT_SET && TimeAfter(now, w.time)) {
      ProceedOrder(k, true, now, log);
    } else if w.tlink == TIME_NOT_SET {
      SleepTimers(k, iptr);
      ThenNext(k, Sleep(k, iptr), now, log);
    } else {
      assert {now} + NewTimes(k, TaltWtOp, now) == {now, Wrap(w.time + 1)};
      TimedOrder(k, iptr, now, log);
    }
  }

  /** A timer ALT goes to sleep on the timer queue. */
  lemma TimedOrder(k: K, iptr: int, now: Word, log: seq<int>)
    requires Inv(k) && FirstCome(k, log) && MaySleep(k, true) && Slots(k, k.cur).tlink != TIME_NOT_SET
    requires HalfRange(k, k.timq, {now, Wrap(Slots(k, k.cur).time + 1)})
    ensures var k' := RunNext(Sleep(TimerInsert(k, k.cur, Wrap(Slots(k, k.cur).time + 1), iptr), iptr), now);
            FirstCome(k', log + [k.cur])
  {
    hide Inv, FirstCome, Sleep, RunNext, HalfRange, InsertTime;
    var p, t := k.cur, Wrap(Slots(k, k.cur).time + 1);
    var k1 := TimerInsert(k, p, t, iptr);
    var k2 := Sleep(k1, iptr);
    EnablingOff(k);
    SmallerWindow(k, {now, t}, {t});
    JoinOrder(k, k1, p, t, log);
    hide TimerInsert;
    SleepTimers(k1, iptr);
    SameOrder(k1, k2, log + [p]);
    TimedState(k, iptr, now);
    InvNoDup(k2);
    RunNextOrder(k2, now, log + [p]);
  }

  lemma InvNoDup(k: K)
    requires Inv(k)
    ensures NoDup(k.timq)
  {
  }

  lemma TinOrder(k: K, t: Word, iptr: int, now: Word, log: seq<int>)
    requires Inv(k) && FirstCome(k, log) && Legal(k, TinOp(t), now)
    ensures FirstCome(Tin(k, t, iptr, now), log + Waits(k, TinOp(t), now))
  {
    hide Inv, FirstCome, RunNext, HalfRange, TimeAfter, InsertTime;
    assert log + [] == log;
    if !TimeAfter(now, t) {
      var p, k1 := k.cur, Park(k, iptr);
      var k2 := AwaitTime(k1, p, t, iptr);
      assert {now} + {t} == {now, t};
      CurrentPlace(k);
      TinReady(k, t, iptr, now);
      InvNoDup(k2);
      ParkTimers(k, iptr);
      SmallerWindow(k, {now, t}, {t});
      InsertSame(k, k1, k.timq, p, t);
      JoinOrder(k, k2, p, t, log);
      hide AwaitTime, Park, NoDup;
      RunNextOrder(k2, now, log + [p]);
    }
  }

  lemma {:induction false} InsertSame(k: K, k': K, q: seq<int>, p: int, t: Word)
    requires forall x :: x in q ==> Slots(k', x).time == Slots(k, x).time
    ensures InsertTime(q, k', p, t) == InsertTime(q, k, p, t)
  {
    hide TimeAfter, Slots;
    if q != [] {
      InsertSame(k, k', q[1..], p, t);
    }
  }

  /** A process that blocks in a channel, exchanges or yields touches no pending time. */
  lemma BlockTimers(k: K, c: int, sending: bool, ptr: int, len: int, iptr: int, q: int)
    ensures var k2 := Arrive(Park(k, iptr), k.cur, c, sending, ptr, len);
            SameTimers(k, k2) && SameTimers(k, Load(k2, q))
    ensures SameTimers(k, Enqueue(Park(k, iptr), k.cur)) &&
            SameTimers(k, Load(Enqueue(Park(Leave(k, c), iptr), k.cur), q))
  {
    hide Arrive, Slots, Park, Enqueue, Leave;
    var k1, l := Park(k, iptr), Leave(k, c);
    ParkTimers(k, iptr);
    ArriveTimers(k1, k.cur, c, sending, ptr, len);
    EnqueueTimers(k1, k.cur);
    LeaveTimers(k, c);
    ParkTimers(l, iptr);
    EnqueueTimers(Park(l, iptr), k.cur);
    LoadTimers(Arrive(k1, k.cur, c, sending, ptr, len), q);
    LoadTimers(Enqueue(Park(l, iptr), k.cur), q);
  }

  lemma LoadTimers(k: K, q: int)
    ensures SameTimers(k, Load(k, q))
  {
  }

  /** Only what scheduling does not touch differs. */
  lemma EnvTimers(k: K, k': K)
    requires k' == k.(env := k'.env)
    ensures SameTimers(k, k')
  {
  }

  lemma ChainTimers(k: K, k1: K, k2: K)
    requires SameTimers(k, k1) && SameTimers(k1, k2)
    ensures SameTimers(k, k2)
  {
    hide Slots;
  }

  /** Blocking, exchanging and yielding from a state k1 that differs from k only in what scheduling does not touch. */
  lemma BlockOrder(k: K, k1: K, c: int, sending: bool, ptr: int, len: int, iptr: int, q: int, now: Word, log: seq<int>)
    requires Inv(k) && FirstCome(k, log) && SameTimers(k, k1)
    ensures var k2 := Arrive(Park(k1, iptr), k1.cur, c, sending, ptr, len);
            FirstCome(RunNext(k2, now), log) && FirstCome(Load(k2, q), log)
    ensures FirstCome(RunNext(Enqueue(Park(k1, iptr), k1.cur), now), log)
    ensures FirstCome(Load(Enqueue(Park(Leave(k1, c), iptr), k1.cur), q), log)
  {
    hide Inv, FirstCome, SameTimers, Arrive, Park, Enqueue, Leave, Load, RunNext;
    var k2, k3 := Arrive(Park(k1, iptr), k1.cur, c, sending, ptr, len), Enqueue(Park(k1, iptr), k1.cur);
    var k4 := Load(Enqueue(Park(Leave(k1, c), iptr), k1.cur), q);
    BlockTimers(k1, c, sending, ptr, len, iptr, q);
    ChainTimers(k, k1, k2);
    ChainTimers(k, k1, Load(k2, q));
    ChainTimers(k, k1, k3);
    ChainTimers(k, k1, k4);
    ThenNext(k, k2, now, log);
    ThenNext(k, k3, now, log);
    SameOrder(k, Load(k2, q), log);
    SameOrder(k, k4, log);
  }

  lemma EnvOrder(k: K, c: int, ptr: int, src: int, len: int)
    ensures SameTimers(k, Say(k, c, ptr, len)) && Say(k, c, ptr, len).cur == k.cur
    ensures SameTimers(k, Deliver(k, c, ptr, src, len)) && Deliver(k, c, ptr, src, len).cur == k.cur
    ensures SameTimers(k, SetError(k, EFLAG_CHAN)) && SameTimers(k, k)
    ensures SameTimers(k, SetMem(k, Zero(k.env.mem, ptr, len))) && SetMem(k, Zero(k.env.mem, ptr, len)).cur == k.cur
  {
    hide Copy, Bytes, Zero, Or, SameTimers;
    EnvTimers(k, Say(k, c, ptr, len));
    EnvTimers(k, Deliver(k, c, ptr, src, len));
    EnvTimers(k, SetError(k, EFLAG_CHAN));
    EnvTimers(k, SetMem(k, Zero(k.env.mem, ptr, len)));
    EnvTimers(k, k);
  }

  lemma OutputOrder(k: K, c: int, ptr: int, len: int, iptr: int, now: Word, log: seq<int>)
    requires Inv(k) && FirstCome(k, log)
    ensures FirstCome(Out(k, c, ptr, len, iptr, now), log)
  {
    hide Inv, FirstCome, SameTimers, Arrive, RunNext, Load, Enqueue, Park, Leave, Say, Deliver, SetError, Slots;
    var q, k1 := Untag(ChanWord(k, c)), Say(k, c, ptr, len);
    var k2 := Deliver(k1, c, Slots(k, q).state, ptr, len);
    EnvOrder(k, c, ptr, 0, len);
    EnvOrder(k1, c, Slots(k, q).state, ptr, len);
    ChainTimers(k, k1, k2);
    BlockOrder(k, k1, c, true, ptr, len, iptr, q, now, log);
    BlockOrder(k, k2, c, true, ptr, len, iptr, q, now, log);
    BlockOrder(k, k, c, true, ptr, len, iptr, q, now, log);
    SameOrder(k, SetError(k, EFLAG_CHAN), log);
  }

  lemma InputOrder(k: K, c: int, ptr: int, len: int, iptr: int, now: Word, log: seq<int>)
    requires Inv(k) && FirstCome(k, log)
    ensures FirstCome(In(k, c, ptr, len, iptr, now), log)
  {
    hide Inv, FirstCome, SameTimers, Arrive, RunNext, Load, Enqueue, Park, Leave, Deliver, SetError, SetMem, Slots;
    var q := Untag(ChanWord(k, c));
    var k1, k2 := Deliver(k, c, ptr, Slots(k, q).state, len), SetMem(k, Zero(k.env.mem, ptr, len));
    EnvOrder(k, c, ptr, Slots(k, q).state, len);
    BlockOrder(k, k1, c, false, ptr, len, iptr, q, now, log);
    BlockOrder(k, k2, c, false, ptr, len, iptr, q, now, log);
    BlockOrder(k, k, c, false, ptr, len, iptr, q, now, log);
    SameOrder(k, SetError(k, EFLAG_CHAN), log);
  }

  lemma XAbleOrder(k: K, c: int, iptr: int, now: Word, log: seq<int>)
    requires Inv(k) && FirstCome(k, log)
    ensures FirstCome(XAble(k, c, iptr, now), log)
  {
    var k1 := Park(k, iptr);
    var k2 := AwaitChannel(k1, k.cur, c);
    hide Inv, FirstCome, SameTimers, AwaitChannel, RunNext, Park;
    ParkTimers(k, iptr);
    ChannelAwaitTimers(k1, k.cur, c);
    ChainTimers(k, k1, k2);
    ThenNext(k, k2, now, log);
  }

  lemma EndAltTimers(k: K, p: int)
    ensures SameTimers(k, EndAlt(k, p)) && EndAlt(k, p).cur == k.cur && EndAlt(k, p).env == k.env
  {
  }

  lemma TakenTimers(k: K, ext: set<int>)
    ensures SameTimers(k, SetTaken(k, ext))
  {
  }

  lemma XInOrder(k: K, c: int, ptr: int, len: int, iptr: int, now: Word, log: seq<int>)
    requires Inv(k) && FirstCome(k, log)
    ensures FirstCome(XIn(k, c, ptr, len, iptr, now), log)
  {
    var k1, v := EndAlt(k, k.cur), ChanWord(k, c);
    hide Inv, FirstCome, SameTimers, EndAlt, RunNext, Enqueue, Park, Deliver, SetMem, SetError, SetTaken, Slots,
         ChanWord;
    EndAltTimers(k, k.cur);
    var k2, k3 := SetMem(k1, Zero(k.env.mem, ptr, len)), Deliver(k1, c, ptr, Slots(k, v).state, len);
    var k4 := SetTaken(k3, k.env.ext + {c});
    EnvOrder(k1, c, ptr, Slots(k, v).state, len);
    EnvOrder(k, c, ptr, 0, len);
    TakenTimers(k3, k.env.ext + {c});
    ChainTimers(k, k1, k2);
    ChainTimers(k, k1, k3);
    ChainTimers(k, k3, k4);
    BlockOrder(k, k2, c, false, ptr, len, iptr, 0, now, log);
    SameOrder(k, k4, log);
    SameOrder(k, SetError(k, EFLAG_CHAN), log);
  }

  lemma XEndOrder(k: K, c: int, log: seq<int>)
    requires FirstCome(k, log)
    ensures FirstCome(XEnd(k, c), log)
  {
    var v, k1 := ChanWord(k, c), Leave(k, c);
    var k2 := Enqueue(k1, v);
    TakenTimers(k2, k.env.ext - {c});
    hide FirstCome, SameTimers, Leave, Enqueue, SetTaken;
    LeaveTimers(k, c);
    EnqueueTimers(k1, v);
    ChainTimers(k, k1, k2);
    ChainTimers(k, k2, SetTaken(k2, k.env.ext - {c}));
    SameOrder(k, SetTaken(k2, k.env.ext - {c}), log);
  }

  /** Joining the queue of a semaphore or barrier. */
  lemma QueueOrder(k: K, x: int, iptr: int, now: Word, log: seq<int>)
    requires Inv(k) && FirstCome(k, log)
    ensures FirstCome(RunNext(JoinSem(Park(k, iptr), k.cur, x), now), log) &&
            FirstCome(RunNext(JoinBar(Park(k, iptr), k.cur, x), now), log)
  {
    var k1 := Park(k, iptr);
    var k2, k3 := JoinSem(k1, k.cur, x), JoinBar(k1, k.cur, x);
    assert SameTimers(k1, k2) && SameTimers(k1, k3) by { hide Park, SemQueue, BarOf; }
    hide Inv, FirstCome, SameTimers, JoinSem, JoinBar, RunNext, Park;
    ParkTimers(k, iptr);
    ChainTimers(k, k1, k2);
    ChainTimers(k, k1, k3);
    ThenNext(k, k2, now, log);
    ThenNext(k, k3, now, log);
  }

  lemma ReleaseTimers(k: K, s: int)
    ensures SameTimers(k, SemRelease(k, s))
  {
    hide Enqueue, SemQueue;
    if SemQueue(k, s) != [] {
      var k1, p := LeaveSem(k, s), SemQueue(k, s)[0];
      assert SameTimers(k, k1);
      hide LeaveSem, SameTimers;
      EnqueueTimers(k1, p);
      ChainTimers(k, k1, SemRelease(k, s));
    }
  }

  lemma {:induction false} DrainTimers(k: K, b: int)
    ensures SameTimers(k, DrainBar(k, b))
    decreases |BarOf(k, b).queue|
  {
    if BarOf(k, b).queue != [] {
      var k1 := OffBar(k, b);
      var k2 := Enqueue(k1, BarOf(k, b).queue[0]);
      assert SameTimers(k, k1);
      assert |BarOf(k2, b).queue| < |BarOf(k, b).queue|;
      hide Enqueue, OffBar, SameTimers;
      EnqueueTimers(k1, BarOf(k, b).queue[0]);
      ChainTimers(k, k1, k2);
      DrainTimers(k2, b);
      ChainTimers(k, k2, DrainBar(k, b));
    }
  }

  lemma CompleteTimers(k: K, b: int, enrolled: Word)
    ensures SameTimers(k, BarComplete(k, b, enrolled))
  {
    hide DrainBar;
    DrainTimers(k, b);
  }

  lemma SetBarTimers(k: K, b: int, bar: Bar)
    ensures SameTimers(k, SetBar(k, b, bar)) && SameTimers(k, SetError(k, EFLAG_BAR)) && SameTimers(k, k)
  {
    hide Or;
  }

  lemma CountTimers(k: K, b: int, n: Word)
    ensures SameTimers(k, BarEnroll(k, b, n)) && SameTimers(k, BarResign(k, b, n))
  {
    hide BarOf, BarComplete, Wrap, SetError, SetBar, SameTimers;
    var bar := BarOf(k, b);
    SetBarTimers(k, b, bar);
    if bar.enrolled + n < WORD_MOD {
      SetBarTimers(k, b, bar.(enrolled := bar.enrolled + n, count := Wrap(bar.count + n)));
    }
    if n <= bar.enrolled && n <= bar.count {
      SetBarTimers(k, b, bar.(enrolled := bar.enrolled - n, count := bar.count - n));
      CompleteTimers(k, b, bar.enrolled - n);
    }
  }

  /** The current process ends and is counted off its PAR. */
  lemma EndTimers(k: K, par: int, n: int, resume: int)
    ensures var k1 := SetJoin(SetAt(k, k.cur, Halted).(cur := 0), par, n);
            SameTimers(k, k1) && SameTimers(k, SetAt(k1, par, Running).(cur := par, iptr := resume))
  {
  }

  lemma EndOrder(k: K, par: int, resume: int, now: Word, log: seq<int>)
    requires Inv(k) && FirstCome(k, log)
    ensures FirstCome(EndP(k, par, resume, now), log)
  {
    hide Inv, FirstCome, SameTimers, RunNext, SetAt, SetJoin;
    var n := JoinCount(k, par);
    EndTimers(k, par, n - 1, resume);
    EndTimers(k, par, 0, resume);
    ThenNext(k, SetJoin(SetAt(k, k.cur, Halted).(cur := 0), par, n - 1), now, log);
    if n == 1 { SameOrder(k, EndP(k, par, resume, now), log); }
  }

  /** Starting, queueing and changing processes touch no pending time. */
  lemma PlainTimers(k: K, p: int, at: int)
    ensures SameTimers(k, StartP(k, p, at)) && SameTimers(k, Enqueue(k, p)) && SameTimers(k, Adjust(k, p))
  {
  }

  /** An instruction keeps the order of those pending and puts a newcomer behind those due with it. */
  lemma StepOrder(k: K, op: Op, iptr: int, now: Word, log: seq<int>)
    requires Inv(k) && Legal(k, op, now) && FirstCome(k, log)
    ensures FirstCome(Step(k, op, iptr, now), log + Waits(k, op, now))
  {
    var k' := Step(k, op, iptr, now);
    hide Inv, HalfRange, FirstCome, StartP, EndP, Adjust, AltStart, Enable, AltWt, TaltWt, Disable, AltEnd, Out, In,
         XAble, XIn, XEnd, Tin, SemRelease, JoinSem, JoinBar, BarComplete, BarEnroll, BarResign, RunNext, Enqueue,
         Park, MayEnable, MayDisable, MayEndAlt, MayOutput, MayInput, MayXIn, NoAltOn, SameTimers, OwnSlots, SetMem,
         SetJoin, SetReturn, Slots;
    assert log + [] == log;
    match op
    case StartOp(p, at) => PlainTimers(k, p, at); SameOrder(k, k', log);
    case StopOp => ParkTimers(k, iptr); ThenNext(k, Park(k, iptr), now, log);
    case RunOp(p) => PlainTimers(k, p, 0); SameOrder(k, k', log);
    case EndOp(par) => EndOrder(k, par, Slots(k, par).temp, now, log);
    case AdjustOp(p) => PlainTimers(k, p, 0); SameOrder(k, k', log);
    case AltOp(timed) => CurrentPlace(k); AltStartEffect(k, timed); OwnOrder(k, k', k.cur, log);
    case Enb(g, on) => if on { EnableOrder(k, g, log); }
    case AltWtOp => AltWtOrder(k, iptr, now, log);
    case TaltWtOp => TaltWtOrder(k, iptr, now, log);
    case Dis(g, on, target) =>
      if on { DisableOrder(k, g, target, log); } else { EnvTimers(k, k'); SameOrder(k, k', log); }
    case AltEndOp => AltEndsWell(k, iptr); AltEndEffect(k, iptr); OwnOrder(k, k', k.cur, log);
    case OutOp(c, ptr, len) => OutputOrder(k, c, ptr, len, iptr, now, log);
    case InOp(c, ptr, len) => InputOrder(k, c, ptr, len, iptr, now, log);
    case XAbleOp(c) => XAbleOrder(k, c, iptr, now, log);
    case XInOp(c, ptr, len) => XInOrder(k, c, ptr, len, iptr, now, log);
    case XEndOp(c) => XEndOrder(k, c, log);
    case TinOp(t) => TinOrder(k, t, iptr, now, log);
    case ClaimOp(s) => QueueOrder(k, s, iptr, now, log); ClaimOrder(k, s, log);
    case ReleaseOp(s) => ReleaseTimers(k, s); SameOrder(k, k', log);
    case SyncOp(b) =>
      QueueOrder(k, b, iptr, now, log);
      CompleteTimers(k, b, BarOf(k, b).enrolled);
      SyncOrder(k, b, iptr, now, log);
    case EnrollOp(b, n) => CountTimers(k, b, n); SameOrder(k, k', log);
    case ResignOp(b, n) => CountTimers(k, b, n); SameOrder(k, k', log);
    case CountOp(par, n) => JoinTimers(k, par, n); SameOrder(k, k', log);
    case ReturnOp(at) => JoinTimers(k, at, 0); SameOrder(k, k', log);
    case Compute(mem) => MemTimers(k, mem); SameOrder(k, k', log);
    case Idle => InvNoDup(k); RunNextOrder(k, now, log);
  }

  lemma ClaimOrder(k: K, s: int, log: seq<int>)
    requires FirstCome(k, log)
    ensures FirstCome(SetSem(k, s, Claimed([])), log)
  {
    hide Last;
  }

  lemma SyncOrder(k: K, b: int, iptr: int, now: Word, log: seq<int>)
    requires FirstCome(k, log) && SameTimers(k, BarComplete(k, b, BarOf(k, b).enrolled))
    requires FirstCome(RunNext(JoinBar(Park(k, iptr), k.cur, b), now), log)
    ensures FirstCome(BarSync(k, b, iptr, now), log)
  {
    hide FirstCome, SameTimers, BarComplete, JoinBar, Park, RunNext;
    SameOrder(k, BarComplete(k, b, BarOf(k, b).enrolled), log);
  }

  lemma JoinTimers(k: K, par: int, n: int)
    ensures SameTimers(k, SetJoin(k, par, n)) && SameTimers(k, SetReturn(k, par))
  {
  }

  lemma MemTimers(k: K, mem: map<int, int>)
    ensures SameTimers(k, SetMem(k, mem))
  {
  }

  /** In every run the timer queue serves those due together in the order in which they joined it. */
  lemma {:induction false} RunOrder(k: K, ticks: seq<Tick>, log: seq<int>)
    requires Inv(k) && LegalRun(k, ticks) && FirstCome(k, log)
    ensures FirstCome(Run(k, ticks), log + Log(k, ticks)) && Inv(Run(k, ticks))
    decreases |ticks|
  {
    hide Inv, Legal, Step, Fetch, FirstCome, Waits, SameTimers;
    if ticks == [] {
      assert log + [] == log;
    } else {
      var t := ticks[0];
      var k1 := Fetch(k, t);
      FetchKeeps(k, t);
      StepKeeps(k1, t.op, t.iptr, t.now);
      FetchTimers(k, t);
      SameOrder(k, k1, log);
      StepOrder(k1, t.op, t.iptr, t.now, log);
      RunOrder(Next(k, t), ticks[1..], log + Waits(k1, t.op, t.now));
      assert log + Waits(k1, t.op, t.now) + Log(Next(k, t), ticks[1..]) == log + Log(k, ticks);
    }
  }

  lemma FetchTimers(k: K, t: Tick)
    ensures SameTimers(k, Fetch(k, t))
  {
  }

  /**
   Whatever a machine that starts with one process has executed, the timer queue is in
   time order, and of two due at the same time the front one joined it earlier.
   */
  lemma TimersInOrder(p: int, mem: map<int, int>, ticks: seq<Tick>, i: nat, j: nat)
    requires IsProcess(p) && LegalRun(Boot(p, mem), ticks) && i < j < |Run(Boot(p, mem), ticks).timq|
    ensures var k, log := Run(Boot(p, mem), ticks), Log(Boot(p, mem), ticks);
            var x, y := k.timq[i], k.timq[j];
            x != y && !TimeAfter(Slots(k, x).time, Slots(k, y).time) &&
            (Slots(k, x).time == Slots(k, y).time ==> Last(log, x) < Last(log, y))
  {
    hide Inv, Boot, Run, LegalRun, Last, TimeAfter, Slots, Log;
    var k0 := Boot(p, mem);
    BootInv(p, mem);
    BootOrder(p, mem);
    RunOrder(k0, ticks, []);
    assert [] + Log(k0, ticks) == Log(k0, ticks);
    InvSorted(Run(k0, ticks));
  }

  lemma BootOrder(p: int, mem: map<int, int>)
    ensures FirstCome(Boot(p, mem), [])
  {
  }

  lemma InvSorted(k: K)
    requires Inv(k)
    ensures NoDup(k.timq) && Sorted(k, k.timq)
  {
  }
}
