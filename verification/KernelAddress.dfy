/** Where processes go on: every process resumes at the address at which it stopped or was started. */
module KernelAddress {
  import opened Words
  import opened Kernel
  import opened KernelInv
  import opened KernelRuns
  import opened KernelOrder
  import opened KernelPlaces

  /** The next instruction of x: the instruction pointer if it is current, what its workspace has saved if not. */
  function Pc(k: K, x: int): int {
    if x == k.cur then k.iptr else Slots(k, x).iptr
  }

  /** Nobody but those excepted is to go on anywhere else; the first words of all but p stay, and the PAR counts. */
  ghost predicate Holds(k: K, k': K, p: int, but: set<int>) {
    && k'.env.joins == k.env.joins
    && (forall x {:trigger Pc(k', x)} :: x != 0 && x !in but ==> Pc(k', x) == Pc(k, x))
    && (forall x {:trigger Slots(k', x)} :: x != p ==> Slots(k', x).temp == Slots(k, x).temp)
  }

  lemma HoldsChain(k: K, k1: K, k2: K, p: int, but: set<int>)
    requires Holds(k, k1, p, but) && Holds(k1, k2, p, but)
    ensures Holds(k, k2, p, but)
  {
    forall x | x != 0 && x !in but ensures Pc(k2, x) == Pc(k, x) { assert Pc(k1, x) == Pc(k, x); }
    forall x | x != p ensures Slots(k2, x).temp == Slots(k, x).temp { assert Slots(k1, x).temp == Slots(k, x).temp; }
  }

  /** Registers, saved pointers, first words and PAR counts are the same. */
  ghost predicate SameSaved(k: K, k': K) {
    && k'.cur == k.cur && k'.iptr == k.iptr && k'.env.joins == k.env.joins
    && forall x {:trigger Slots(k', x)} ::
       Slots(k', x).iptr == Slots(k, x).iptr && Slots(k', x).temp == Slots(k, x).temp
  }

  lemma SavedHolds(k: K, k': K, p: int, but: set<int>)
    requires SameSaved(k, k')
    ensures Holds(k, k', p, but)
  {
    forall x ensures Pc(k', x) == Pc(k, x) && Slots(k', x).temp == Slots(k, x).temp {
      assert Slots(k', x).iptr == Slots(k, x).iptr;
    }
  }

  lemma SavedChain(k: K, k1: K, k2: K)
    requires SameSaved(k, k1) && SameSaved(k1, k2)
    ensures SameSaved(k, k2)
  {
    forall x ensures Slots(k2, x).iptr == Slots(k, x).iptr && Slots(k2, x).temp == Slots(k, x).temp {
      assert Slots(k1, x).iptr == Slots(k, x).iptr;
    }
  }

  // ----- the parts of instructions

  /** A change to anything but workspaces and registers. */
  lemma SlotsSaved(k: K, k': K)
    requires k'.cur == k.cur && k'.iptr == k.iptr && k'.ws == k.ws && k'.env.joins == k.env.joins
    ensures SameSaved(k, k')
  {
    forall x ensures Slots(k', x) == Slots(k, x) { }
  }

  /** Writing a workspace whose saved pointer and first word stay. */
  lemma WriteSaved(k: K, p: int, w: Ws)
    requires w.iptr == Slots(k, p).iptr && w.temp == Slots(k, p).temp
    ensures SameSaved(k, SetWs(k, p, w))
  {
  }

  lemma EnqueueSaved(k: K, p: int)
    ensures SameSaved(k, Enqueue(k, p))
  {
    var k1 := SetWs(k, p, Slots(k, p).(len := 0));
    WriteSaved(k, p, Slots(k, p).(len := 0));
    SlotsSaved(k1, Enqueue(k, p));
    hide Slots, SameSaved;
    SavedChain(k, k1, Enqueue(k, p));
  }

  lemma WakeSaved(k: K, q: int)
    ensures SameSaved(k, Wake(k, q))
  {
    var w := Slots(k, q).(state := READY);
    var k1 := SetWs(k, q, w);
    WriteSaved(k, q, w);
    SlotsSaved(k, k);
    SlotsSaved(k1, SetAt(k1, q, Halted));
    hide SameSaved, SetWs, SetAt;
    SavedChain(k, k1, SetAt(k1, q, Halted));
  }

  lemma SettleSaved(k: K, p: int, c: int, sending: bool, ptr: int, len: int)
    ensures SameSaved(k, Settle(k, p, c, sending, ptr, len))
  {
    var k1, w := SetChan(k, c, p), Slots(k, p).(state := ptr, len := if sending then -len else len);
    SlotsSaved(k, k1);
    WriteSaved(k1, p, w);
    SlotsSaved(SetWs(k1, p, w), Settle(k, p, c, sending, ptr, len));
    hide SameSaved, Slots;
    SavedChain(k, k1, SetWs(k1, p, w));
    SavedChain(k, SetWs(k1, p, w), Settle(k, p, c, sending, ptr, len));
  }

  lemma ArriveSaved(k: K, p: int, c: int, sending: bool, ptr: int, len: int)
    ensures SameSaved(k, Arrive(k, p, c, sending, ptr, len))
  {
    hide SameSaved, Slots, Wake, Settle;
    var v := ChanWord(k, c);
    if v % 2 == 1 && v != 1 {
      WakeSaved(k, v - 1);
      SettleSaved(Wake(k, v - 1), p, c, sending, ptr, len);
      SavedChain(k, Wake(k, v - 1), Arrive(k, p, c, sending, ptr, len));
    } else {
      SettleSaved(k, p, c, sending, ptr, len);
    }
  }

  lemma ParkHolds(k: K, iptr: int, but: set<int>, own: int)
    requires k.iptr == iptr
    ensures Holds(k, Park(k, iptr), own, but) && Park(k, iptr).cur == 0
    ensures Slots(Park(k, iptr), k.cur).iptr == iptr
  {
    var k' := Park(k, iptr);
    forall x | x != 0 ensures Pc(k', x) == Pc(k, x) {
      assert Slots(k', x).iptr == if x == k.cur then iptr else Slots(k, x).iptr;
    }
  }

  lemma LoadHolds(k: K, q: int, p: int, but: set<int>)
    requires k.cur == 0
    ensures Holds(k, Load(k, q), p, but)
  {
    var k' := Load(k, q);
    forall x ensures Slots(k', x) == Slots(k, x) { }
  }

  lemma ExpireSaved(k: K, now: Word)
    requires k.timq != []
    ensures SameSaved(k, Expire(k, now))
  {
    var p, k1 := k.timq[0], k.(timq := k.timq[1..]);
    var w := Slots(k, p).(tlink := TIME_SET, time := now);
    SlotsSaved(k, k1);
    assert Slots(k1, p) == Slots(k, p);
    WriteSaved(k1, p, w);
    WriteSaved(k1, p, w.(state := READY));
    EnqueueSaved(SetWs(k1, p, w.(state := READY)), p);
    hide SameSaved, Slots, Enqueue, SetWs;
    SavedChain(k, k1, SetWs(k1, p, w));
    SavedChain(k, k1, SetWs(k1, p, w.(state := READY)));
    SavedChain(k, SetWs(k1, p, w.(state := READY)), Enqueue(SetWs(k1, p, w.(state := READY)), p));
  }

  lemma {:induction false} WalkSaved(k: K, now: Word)
    ensures SameSaved(k, Walk(k, now))
    decreases |k.timq|
  {
    hide Expire, Slots, TimeAfter, SameSaved;
    if k.timq != [] && !TimeAfter(Slots(k, k.timq[0]).time, now) {
      ExpireSaved(k, now);
      WalkSaved(Expire(k, now), now);
      SavedChain(k, Expire(k, now), Walk(k, now));
    } else {
      SlotsSaved(k, k);
    }
  }

  lemma SyncSaved(k: K, now: Word)
    ensures SameSaved(k, Sync(k, now))
  {
    hide SameSaved, Walk;
    WalkSaved(k, now);
    var k1 := Walk(k, now);
    SlotsSaved(k1, k1.(tq := false));
    SavedChain(k, k1, k1.(tq := false));
  }

  /** Whoever is dispatched goes on where it was to go on. */
  lemma NextHolds(k: K, now: Word, p: int, but: set<int>)
    requires k.cur == 0
    ensures Holds(k, RunNext(k, now), p, but)
  {
    var k1 := if k.tq then Sync(k, now) else k;
    assert k1.cur == 0 && SameSaved(k, k1) by {
      hide Sync, Slots;
      SyncSaved(k, now);
      SlotsSaved(k, k);
    }
    hide Sync, SameSaved, Load, Holds;
    SavedHolds(k, k1, p, but);
    if k1.runq != [] {
      var k2 := k1.(runq := k1.runq[1..]);
      SlotsSaved(k1, k2);
      SavedHolds(k1, k2, p, but);
      LoadHolds(k2, k1.runq[0], p, but);
      HoldsChain(k, k1, k2, p, but);
      HoldsChain(k, k2, Load(k2, k1.runq[0]), p, but);
    }
  }

  lemma ThenHolds(k: K, k2: K, now: Word, p: int, but: set<int>)
    requires Holds(k, k2, p, but) && k2.cur == 0
    ensures Holds(k, RunNext(k2, now), p, but)
  {
    hide Holds, RunNext;
    NextHolds(k2, now, p, but);
    HoldsChain(k, k2, RunNext(k2, now), p, but);
  }

  // ----- instructions that wait, exchange or yield

  lemma ArriveHolds(k: K, k1: K, c: int, sending: bool, ptr: int, len: int, iptr: int, q: int, now: Word,
                    but: set<int>, own: int)
    requires Holds(k, k1, own, but) && k1.cur == k.cur && k1.iptr == iptr
    ensures var k2 := Arrive(Park(k1, iptr), k.cur, c, sending, ptr, len);
            Holds(k, RunNext(k2, now), own, but) && Holds(k, Load(k2, q), own, but)
  {
    hide Holds, SameSaved, Arrive, Park, Load, RunNext, Slots;
    var p, k2 := k.cur, Park(k1, iptr);
    var k3 := Arrive(k2, p, c, sending, ptr, len);
    ParkHolds(k1, iptr, but, own);
    HoldsChain(k, k1, k2, own, but);
    ArriveSaved(k2, p, c, sending, ptr, len);
    RestsAt(k, k2, k3, q, now, but, own);
  }

  lemma QueueHolds(k: K, k1: K, iptr: int, q: int, now: Word, but: set<int>, own: int)
    requires Holds(k, k1, own, but) && k1.cur == k.cur && k1.iptr == iptr
    ensures var k2 := Enqueue(Park(k1, iptr), k.cur);
            Holds(k, RunNext(k2, now), own, but) && Holds(k, Load(k2, q), own, but)
  {
    hide Holds, SameSaved, Enqueue, Park, Load, RunNext, Slots;
    var p, k2 := k.cur, Park(k1, iptr);
    ParkHolds(k1, iptr, but, own);
    HoldsChain(k, k1, k2, own, but);
    EnqueueSaved(k2, p);
    RestsAt(k, k2, Enqueue(k2, p), q, now, but, own);
  }

  /** The current process is parked, its workspace perhaps written for the wait, and another runs. */
  lemma RestsAt(k: K, k2: K, k3: K, q: int, now: Word, but: set<int>, own: int)
    requires Holds(k, k2, own, but) && k2.cur == 0 && SameSaved(k2, k3)
    ensures Holds(k, RunNext(k3, now), own, but) && Holds(k, Load(k3, q), own, but)
  {
    var p := k.cur;
    assert k3.cur == 0;
    hide Holds, SameSaved, Load, RunNext;
    SavedHolds(k2, k3, own, but);
    HoldsChain(k, k2, k3, own, but);
    ThenHolds(k, k3, now, own, but);
    LoadHolds(k3, q, own, but);
    HoldsChain(k, k3, Load(k3, q), own, but);
  }

  lemma EnvSaved(k: K, c: int, ptr: int, src: int, len: int)
    ensures SameSaved(k, Say(k, c, ptr, len)) && SameSaved(k, Deliver(k, c, ptr, src, len))
    ensures SameSaved(k, SetMem(k, Zero(k.env.mem, ptr, len))) && SameSaved(k, SetError(k, EFLAG_CHAN))
    ensures SameSaved(k, Leave(k, c)) && SameSaved(k, EndAlt(k, k.cur)) && SameSaved(k, k)
  {
    hide SameSaved, Bytes, Copy, Zero, Or, Slots, Said, Heard;
    SlotsSaved(k, Say(k, c, ptr, len));
    SlotsSaved(k, Deliver(k, c, ptr, src, len));
    SlotsSaved(k, SetMem(k, Zero(k.env.mem, ptr, len)));
    SlotsSaved(k, SetError(k, EFLAG_CHAN));
    SlotsSaved(k, Leave(k, c));
    SlotsSaved(k, EndAlt(k, k.cur));
    SlotsSaved(k, k);
  }

  lemma SavedRegs(k: K, k': K, p: int, but: set<int>)
    requires SameSaved(k, k')
    ensures k'.cur == k.cur && k'.iptr == k.iptr && Holds(k, k', p, but)
  {
    hide Holds, Slots;
    SavedHolds(k, k', p, but);
  }

  lemma OutHolds(k: K, c: int, ptr: int, len: int, iptr: int, now: Word, own: int)
    requires k.iptr == iptr
    ensures Holds(k, Out(k, c, ptr, len, iptr, now), own, {})
  {
    hide Holds, SameSaved, Arrive, RunNext, Load, Enqueue, Park, Leave, Say, Deliver, SetError, Slots;
    var q, k1 := Untag(ChanWord(k, c)), Say(k, c, ptr, len);
    var k2 := Deliver(k1, c, Slots(k, q).state, ptr, len);
    EnvSaved(k, c, ptr, 0, len);
    EnvSaved(k1, c, Slots(k, q).state, ptr, len);
    EnvSaved(k2, c, ptr, 0, len);
    SavedChain(k, k1, k2);
    SavedChain(k, k2, Leave(k2, c));
    SavedRegs(k, k, own, {});
    SavedRegs(k, k1, own, {});
    SavedRegs(k, Leave(k2, c), own, {});
    SavedRegs(k, SetError(k, EFLAG_CHAN), own, {});
    ArriveHolds(k, k1, c, true, ptr, len, iptr, q, now, {}, own);
    QueueHolds(k, Leave(k2, c), iptr, q, now, {}, own);
    QueueHolds(k, k, iptr, q, now, {}, own);
    SavedRegs(k, k2, own, {});
  }

  lemma InHolds(k: K, c: int, ptr: int, len: int, iptr: int, now: Word, own: int)
    requires k.iptr == iptr
    ensures Holds(k, In(k, c, ptr, len, iptr, now), own, {})
  {
    hide Holds, SameSaved, Arrive, RunNext, Load, Enqueue, Park, Leave, Deliver, SetError, SetMem, Slots;
    var q := Untag(ChanWord(k, c));
    var k1, k2 := SetMem(k, Zero(k.env.mem, ptr, len)), Deliver(k, c, ptr, Slots(k, q).state, len);
    EnvSaved(k, c, ptr, Slots(k, q).state, len);
    EnvSaved(k2, c, ptr, 0, len);
    SavedChain(k, k2, Leave(k2, c));
    SavedRegs(k, k, own, {});
    SavedRegs(k, k1, own, {});
    SavedRegs(k, k2, own, {});
    SavedRegs(k, Leave(k2, c), own, {});
    SavedRegs(k, SetError(k, EFLAG_CHAN), own, {});
    ArriveHolds(k, k, c, false, ptr, len, iptr, q, now, {}, own);
    QueueHolds(k, Leave(k2, c), iptr, q, now, {}, own);
    QueueHolds(k, k1, iptr, q, now, {}, own);
  }

  lemma XAbleHolds(k: K, c: int, iptr: int, now: Word, own: int)
    requires k.iptr == iptr
    ensures Holds(k, XAble(k, c, iptr, now), own, {})
  {
    hide Holds, SameSaved, AwaitChannel, Park, RunNext, Slots;
    var p, k1 := k.cur, Park(k, iptr);
    ParkHolds(k, iptr, {}, own);
    AwaitSaved(k1, p, c);
    RestsAt(k, k1, AwaitChannel(k1, p, c), 0, now, {}, own);
    EnvSaved(k, c, 0, 0, 0);
    SavedRegs(k, k, own, {});
  }

  lemma AwaitSaved(k: K, p: int, c: int)
    ensures SameSaved(k, AwaitChannel(k, p, c))
  {
    var w := Slots(k, p).(state := WAITING, len := c);
    WriteSaved(k, p, w);
    SlotsSaved(SetWs(k, p, w), AwaitChannel(k, p, c));
    hide SameSaved, Slots, SetWs;
    SavedChain(k, SetWs(k, p, w), AwaitChannel(k, p, c));
  }

  lemma XInHolds(k: K, c: int, ptr: int, len: int, iptr: int, now: Word, own: int)
    requires k.iptr == iptr
    ensures Holds(k, XIn(k, c, ptr, len, iptr, now), own, {})
  {
    hide Holds, SameSaved, EndAlt, RunNext, Enqueue, Park, Deliver, SetMem, SetError, SetTaken, Slots, ChanWord;
    var k1, v := EndAlt(k, k.cur), ChanWord(k, c);
    var k2, k3 := SetMem(k1, Zero(k1.env.mem, ptr, len)), Deliver(k1, c, ptr, Slots(k, v).state, len);
    var k4 := SetTaken(k3, k.env.ext + {c});
    assert k1.env == k.env by { EndAltGrows(k, k.cur); }
    EnvSaved(k, c, ptr, 0, len);
    EnvSaved(k1, c, ptr, Slots(k, v).state, len);
    TakenSaved(k3, k.env.ext + {c});
    SavedChain(k, k1, k2);
    SavedChain(k, k1, k3);
    SavedChain(k, k3, k4);
    SavedRegs(k, k2, own, {});
    SavedRegs(k, k4, own, {});
    SavedRegs(k, SetError(k, EFLAG_CHAN), own, {});
    QueueHolds(k, k2, iptr, 0, now, {}, own);
  }

  lemma TakenSaved(k: K, ext: set<int>)
    ensures SameSaved(k, SetTaken(k, ext))
  {
    hide SameSaved;
    SlotsSaved(k, SetTaken(k, ext));
  }

  lemma XEndSaved(k: K, c: int)
    ensures SameSaved(k, XEnd(k, c))
  {
    hide SameSaved, Leave, Enqueue, SetTaken, Slots;
    var v := ChanWord(k, c);
    var k1, k2 := Leave(k, c), Enqueue(Leave(k, c), v);
    EnvSaved(k, c, 0, 0, 0);
    EnqueueSaved(k1, v);
    SavedChain(k, k1, k2);
    TakenSaved(k2, k.env.ext - {c});
    SavedChain(k, k2, SetTaken(k2, k.env.ext - {c}));
  }

  /** A process put on the timer queue keeps its saved pointer, which may be stored once more. */
  lemma InsertSaved(k: K, p: int, t: Word, iptr: int)
    requires Pc(k, p) == iptr
    ensures var k1 := TimerInsert(k, p, t, iptr); Holds(k, k1, p, {}) && k1.cur == k.cur && k1.iptr == k.iptr
    ensures p != k.cur ==> SameSaved(k, TimerInsert(k, p, t, iptr))
  {
    hide InsertTime;
    var k1 := TimerInsert(k, p, t, iptr);
    forall x ensures x != 0 ==> Pc(k1, x) == Pc(k, x) {
      assert Slots(k1, x).iptr == Slots(k1, x).iptr;
    }
  }

  lemma AwaitTimeHolds(k: K, t: Word, iptr: int, now: Word, own: int)
    requires k.iptr == iptr && k.cur != 0
    ensures Holds(k, RunNext(AwaitTime(Park(k, iptr), k.cur, t, iptr), now), own, {})
  {
    hide Holds, SameSaved, Park, RunNext, TimerInsert, Slots;
    var p, k1 := k.cur, Park(k, iptr);
    var k2 := TimerInsert(k1, p, t, iptr);
    var w := Slots(k2, p).(state := 0);
    ParkHolds(k, iptr, {}, own);
    InsertSaved(k1, p, t, iptr);
    WriteSaved(k2, p, w);
    SlotsSaved(SetWs(k2, p, w), AwaitTime(k1, p, t, iptr));
    hide SetWs, AwaitTime;
    SavedChain(k1, k2, SetWs(k2, p, w));
    SavedChain(k1, SetWs(k2, p, w), AwaitTime(k1, p, t, iptr));
    RestsAt(k, k1, AwaitTime(k1, p, t, iptr), 0, now, {}, own);
  }

  lemma TinHolds(k: K, t: Word, iptr: int, now: Word, own: int)
    requires k.iptr == iptr && k.cur != 0
    ensures Holds(k, Tin(k, t, iptr, now), own, {})
  {
    hide Holds, SameSaved, Park, RunNext, AwaitTime, TimeAfter;
    AwaitTimeHolds(k, t, iptr, now, own);
    EnvSaved(k, 0, 0, 0, 0);
    SavedRegs(k, k, own, {});
  }

  /** The current process waits in the queue of a semaphore or barrier. */
  lemma JoinHolds(k: K, x: int, iptr: int, now: Word, own: int)
    requires k.iptr == iptr
    ensures Holds(k, RunNext(JoinSem(Park(k, iptr), k.cur, x), now), own, {})
    ensures Holds(k, RunNext(JoinBar(Park(k, iptr), k.cur, x), now), own, {})
    ensures Holds(k, RunNext(Park(k, iptr), now), own, {})
  {
    hide Holds, SameSaved, Park, RunNext, Slots;
    var p, k1 := k.cur, Park(k, iptr);
    ParkHolds(k, iptr, {}, own);
    SlotsSaved(k1, JoinSem(k1, p, x));
    SlotsSaved(k1, JoinBar(k1, p, x));
    hide JoinSem, JoinBar;
    RestsAt(k, k1, JoinSem(k1, p, x), 0, now, {}, own);
    RestsAt(k, k1, JoinBar(k1, p, x), 0, now, {}, own);
    ThenHolds(k, k1, now, own, {});
  }

  // ----- semaphores and barriers that let processes go

  lemma SemSaved(k: K, s: int)
    ensures SameSaved(k, SetSem(k, s, Claimed([]))) && SameSaved(k, SemRelease(k, s))
  {
    hide SameSaved, Enqueue, Slots;
    SlotsSaved(k, SetSem(k, s, Claimed([])));
    SlotsSaved(k, SetSem(k, s, Free));
    if SemQueue(k, s) != [] {
      var k1 := LeaveSem(k, s);
      SlotsSaved(k, k1);
      EnqueueSaved(k1, SemQueue(k, s)[0]);
      SavedChain(k, k1, Enqueue(k1, SemQueue(k, s)[0]));
    }
  }

  lemma {:induction false} DrainSaved(k: K, b: int)
    ensures SameSaved(k, DrainBar(k, b))
    decreases |BarOf(k, b).queue|
  {
    hide SameSaved, Slots, Enqueue;
    if BarOf(k, b).queue != [] {
      var p, k1 := BarOf(k, b).queue[0], OffBar(k, b);
      var k2 := Enqueue(k1, p);
      SlotsSaved(k, k1);
      EnqueueSaved(k1, p);
      DrainLess(k, b);
      DrainSaved(k2, b);
      hide OffBar;
      SavedChain(k, k1, k2);
      SavedChain(k, k2, DrainBar(k, b));
    } else {
      SlotsSaved(k, k);
    }
  }

  lemma DrainLess(k: K, b: int)
    requires BarOf(k, b).queue != []
    ensures |BarOf(Enqueue(OffBar(k, b), BarOf(k, b).queue[0]), b).queue| < |BarOf(k, b).queue|
  {
    hide Slots, At;
  }

  lemma CompleteSaved(k: K, b: int, e: Word)
    ensures SameSaved(k, BarComplete(k, b, e))
  {
    hide SameSaved, DrainBar;
    DrainSaved(k, b);
    SlotsSaved(DrainBar(k, b), BarComplete(k, b, e));
    SavedChain(k, DrainBar(k, b), BarComplete(k, b, e));
  }

  lemma CountSaved(k: K, b: int, n: Word)
    ensures SameSaved(k, BarEnroll(k, b, n)) && SameSaved(k, BarResign(k, b, n))
  {
    hide SameSaved, BarComplete, Or, Wrap;
    var bar := BarOf(k, b);
    SlotsSaved(k, SetError(k, EFLAG_BAR));
    if bar.enrolled + n < WORD_MOD { SlotsSaved(k, BarEnroll(k, b, n)); }
    if n <= bar.enrolled && n <= bar.count {
      if bar.count - n >= 1 { SlotsSaved(k, BarResign(k, b, n)); }
      CompleteSaved(k, b, bar.enrolled - n);
    }
  }

  // ----- ALTs

  /** Only the current process's own workspace was written. */
  lemma OwnHolds(k: K, k': K, but: set<int>)
    requires OnlyAt(k, k', k.cur) && k'.cur == k.cur && k'.iptr == k.iptr && k'.env.joins == k.env.joins
    ensures Holds(k, k', k.cur, but)
  {
    forall x | x != k.cur ensures Pc(k', x) == Pc(k, x) && Slots(k', x).temp == Slots(k, x).temp {
      assert Slots(k', x) == Slots(k, x);
    }
  }

  lemma NoteRegs(k: K, g: Guard)
    ensures Note(k, g).iptr == k.iptr && Note(k, g).env == k.env
    ensures Forget(k, g).iptr == k.iptr && Forget(k, g).env == k.env
  {
    hide Without;
  }

  lemma EnableRegs(k: K, g: Guard)
    ensures Enable(k, g).iptr == k.iptr && Enable(k, g).env.joins == k.env.joins
  {
    hide Note, Slots, ChanWord, TimeAfter;
    var p, w := k.cur, Slots(k, k.cur);
    NoteRegs(k, g);
    if g.Chan? { NoteRegs(SetChan(k, g.c, p + 1), g); }
    if g.Timer? {
      NoteRegs(SetWs(k, p, w.(tlink := TIME_SET, time := g.t)), g);
      NoteRegs(SetWs(k, p, w.(time := g.t)), g);
    }
    NoteRegs(SetWs(k, p, w.(state := READY)), g);
  }

  lemma SelectRegs(k: K, target: int)
    ensures Select(k, target).iptr == k.iptr && Select(k, target).env.joins == k.env.joins
  {
    hide Slots, SetWs;
    var w := Slots(k, k.cur).(temp := target);
    assert SetWs(k, k.cur, w).iptr == k.iptr && SetWs(k, k.cur, w).env == k.env;
  }

  lemma RemoveRegs(k: K)
    ensures TimerRemove(k, k.cur).iptr == k.iptr && TimerRemove(k, k.cur).env == k.env
  {
    hide Slots, RemoveTime;
  }

  lemma DisableRegs(k: K, g: Guard, target: int)
    ensures Disable(k, g, target).iptr == k.iptr && Disable(k, g, target).env.joins == k.env.joins
  {
    hide Forget, Select, Slots, ChanWord, TimeAfter, TimerRemove;
    SelectRegs(k, target);
    RemoveRegs(k);
    NoteRegs(Select(k, target), g);
    NoteRegs(Answer(k, false), g);
    NoteRegs(Answer(TimerRemove(k, k.cur), false), g);
    if g.Chan? { NoteRegs(Answer(SetChan(k, g.c, 0), false), g); }
  }

  lemma AltStartHolds(k: K, timed: bool)
    ensures Holds(k, AltStart(k, timed), k.cur, {})
  {
    var k' := AltStart(k, timed);
    assert k'.iptr == k.iptr && k'.env == k.env by { hide Slots; }
    hide AltStart, Holds;
    AltStartEffect(k, timed);
    OwnHolds(k, k', {});
  }

  lemma EnableHolds(k: K, g: Guard)
    ensures Holds(k, Enable(k, g), k.cur, {})
  {
    hide Enable, Holds, EnabledSlots, OnlyAt;
    EnableEffect(k, g);
    EnableRegs(k, g);
    OwnHolds(k, Enable(k, g), {});
  }

  lemma DisableHolds(k: K, g: Guard, target: int)
    ensures Holds(k, Disable(k, g, target), k.cur, {})
  {
    hide Disable, Holds, DisabledSlots, OnlyAt, Without;
    DisableEffect(k, g, target);
    DisableRegs(k, g, target);
    OwnHolds(k, Disable(k, g, target), {});
  }

  lemma ProceedHolds(k: K, timed: bool, now: Word)
    ensures Holds(k, Proceed(k, timed, now), k.cur, {})
  {
    var k' := Proceed(k, timed, now);
    assert k'.iptr == k.iptr && k'.env == k.env by { hide Slots, Info; }
    hide Proceed, Holds, OnlyAt;
    ProceedEffect(k, timed, now);
    OwnHolds(k, k', {});
  }

  lemma SleepHolds(k: K, k1: K, iptr: int, now: Word)
    requires Holds(k, k1, k.cur, {}) && k1.cur == k.cur && k1.iptr == iptr
    ensures Holds(k, RunNext(Sleep(k1, iptr), now), k.cur, {})
  {
    var p, k2 := k.cur, Turn(k1, Waiting);
    var k3 := Park(k2, iptr);
    var w := Slots(k3, p).(state := WAITING);
    assert k2.iptr == iptr && k2.env == k1.env by { hide Slots, Info; }
    hide Turn, Holds, SameSaved, Park, RunNext;
    TurnOnly(k1, Waiting);
    OwnHolds(k1, k2, {});
    HoldsChain(k, k1, k2, p, {});
    ParkHolds(k2, iptr, {}, k.cur);
    HoldsChain(k, k2, k3, p, {});
    WriteSaved(k3, p, w);
    SlotsSaved(SetWs(k3, p, w), Sleep(k1, iptr));
    SavedChain(k3, SetWs(k3, p, w), Sleep(k1, iptr));
    RestsAt(k, k3, Sleep(k1, iptr), 0, now, {}, k.cur);
  }

  lemma AltWtHolds(k: K, iptr: int, now: Word)
    requires k.iptr == iptr
    ensures Holds(k, AltWt(k, iptr, now), k.cur, {})
  {
    hide Holds, SameSaved, Proceed, Sleep, RunNext, Slots;
    ProceedHolds(k, false, now);
    EnvSaved(k, 0, 0, 0, 0);
    SavedRegs(k, k, k.cur, {});
    SleepHolds(k, k, iptr, now);
  }

  lemma TaltWtHolds(k: K, iptr: int, now: Word)
    requires k.iptr == iptr
    ensures Holds(k, TaltWt(k, iptr, now), k.cur, {})
  {
    hide Holds, SameSaved, Proceed, Sleep, RunNext, Slots, TimerInsert, TimeAfter;
    var t := Wrap(Slots(k, k.cur).time + 1);
    ProceedHolds(k, true, now);
    EnvSaved(k, 0, 0, 0, 0);
    SavedRegs(k, k, k.cur, {});
    SleepHolds(k, k, iptr, now);
    InsertSaved(k, k.cur, t, iptr);
    SleepHolds(k, TimerInsert(k, k.cur, t, iptr), iptr, now);
  }

  // ----- the instructions that name an address

  lemma StartAddress(k: K, p: int, at: int, own: int)
    requires p != k.cur
    ensures Holds(k, StartP(k, p, at), own, {p}) && Pc(StartP(k, p, at), p) == at
  {
    var k1 := SetWs(k, p, Slots(k, p).(iptr := at));
    assert Holds(k, k1, own, {p});
    EnqueueSaved(k1, p);
    assert Slots(k1, p).iptr == at && k1.cur == k.cur;
    hide Holds, Slots, Enqueue;
    assert Slots(Enqueue(k1, p), p).iptr == at && Enqueue(k1, p).cur == k.cur;
    hide SameSaved;
    SavedHolds(k1, Enqueue(k1, p), own, {p});
    HoldsChain(k, k1, Enqueue(k1, p), own, {p});
  }

  lemma AdjustAddress(k: K, p: int, own: int)
    ensures Holds(k, Adjust(k, p), own, {k.cur, p}) && Adjust(k, p).cur == p && Pc(Adjust(k, p), p) == k.iptr
  {
    var k' := Adjust(k, p);
    forall x ensures Slots(k', x) == Slots(k, x) { }
  }

  lemma EndAddress(k: K, par: int, resume: int, now: Word, own: int)
    requires JoinCount(k, par) != 1
    ensures Holds(SetJoin(k, par, JoinCount(k, par) - 1), EndP(k, par, resume, now), own, {k.cur})
  {
    var k1 := SetJoin(k, par, JoinCount(k, par) - 1);
    var k2 := SetJoin(SetAt(k, k.cur, Halted).(cur := 0), par, JoinCount(k, par) - 1);
    forall x ensures Slots(k2, x) == Slots(k1, x) { }
    assert Holds(k1, k2, own, {k.cur});
    hide Holds, RunNext, Slots;
    ThenHolds(k1, k2, now, own, {k.cur});
  }

  lemma ResumeAddress(k: K, par: int, resume: int, now: Word, own: int)
    requires JoinCount(k, par) == 1
    ensures var k' := EndP(k, par, resume, now);
            Holds(SetJoin(k, par, 0), k', own, {k.cur, par}) && k'.cur == par && k'.iptr == resume
  {
    hide RunNext;
    var k1 := SetJoin(k, par, 0);
    forall x ensures Slots(EndP(k, par, resume, now), x) == Slots(k1, x) { }
  }

  lemma AltEndAddress(k: K, iptr: int, own: int)
    requires Slots(k, k.cur).temp != NONE_SELECTED
    ensures var k' := AltEnd(k, iptr);
            Holds(k, k', own, {k.cur}) && k'.cur == k.cur && k'.iptr == iptr + Slots(k, k.cur).temp
  {
    var k1 := EndAlt(k, k.cur);
    SlotsSaved(k, k1);
    forall x ensures Slots(AltEnd(k, iptr), x) == Slots(k1, x) { }
  }

  // ----- every instruction

  /** Where x goes on after an instruction whose successor is at iptr. */
  function Address(k: K, op: Op, iptr: int, x: int): int {
    match op
    case StartOp(p, at) => if x == p then at else Pc(k, x)
    case AdjustOp(p) => if x == p then iptr else Pc(k, x)
    case EndOp(par) => if x == par && JoinCount(k, par) == 1 then Slots(k, par).temp else Pc(k, x)
    case AltEndOp => if x == k.cur then iptr + Slots(k, x).temp else Pc(k, x)
    case _ => Pc(k, x)
  }

  /** How many branches of par's PAR have still to end after an instruction. */
  function Pending(k: K, op: Op, par: int): int {
    match op
    case CountOp(p, n) => if p == par then n else JoinCount(k, par)
    case EndOp(p) => if p == par then (if JoinCount(k, par) == 1 then 0 else JoinCount(k, par) - 1)
                     else JoinCount(k, par)
    case _ => JoinCount(k, par)
  }

  /** The processes an instruction ends for good. */
  function Gone(k: K, op: Op): set<int> {
    if op.StopOp? then {} else Ends(k, op) - Births(k, op)
  }

  /** An instruction that may write the first word of the current workspace. */
  predicate Writes(op: Op) {
    op.AltOp? || op.Enb? || op.AltWtOp? || op.TaltWtOp? || op.Dis? || op.ReturnOp?
  }

  /** Instructions that name no address. */
  lemma StepHolds(k: K, op: Op, iptr: int, now: Word)
    requires Inv(k) && Legal(k, op, now) && k.iptr == iptr
    requires !op.StartOp? && !op.AdjustOp? && !op.EndOp? && !op.AltEndOp? && !op.CountOp?
    ensures Holds(k, Step(k, op, iptr, now), if Writes(op) then k.cur else 0, {})
  {
    hide Inv, HalfRange, AltStart, Enable, AltWt, TaltWt, Disable, Out, In, XAble, XIn, XEnd, Tin, SemClaim,
         SemRelease, BarSync, BarEnroll, BarResign, RunNext, Enqueue, Park, MayEnable, MayDisable, MaySleep,
         MayProceed, MayOutput, MayInput, MayXIn, NoAltOn, Holds, SameSaved, SetJoin, SetReturn, SetMem, Answer,
         ChanWord, SemOf;
    var k' := Step(k, op, iptr, now);
    match op
    case StopOp => JoinHolds(k, 0, iptr, now, 0);
    case RunOp(p) => EnqueueSaved(k, p); SavedHolds(k, k', 0, {});
    case AltOp(timed) => AltStartHolds(k, timed);
    case Enb(g, on) => if on { EnableHolds(k, g); } else { OwnSame(k); }
    case AltWtOp => AltWtHolds(k, iptr, now);
    case TaltWtOp => TaltWtHolds(k, iptr, now);
    case Dis(g, on, target) =>
      if on { DisableHolds(k, g, target); } else { MarkSaved(k, map[]); SavedHolds(k, k', k.cur, {}); }
    case OutOp(c, ptr, len) => OutHolds(k, c, ptr, len, iptr, now, 0);
    case InOp(c, ptr, len) => InHolds(k, c, ptr, len, iptr, now, 0);
    case XAbleOp(c) => XAbleHolds(k, c, iptr, now, 0);
    case XInOp(c, ptr, len) => XInHolds(k, c, ptr, len, iptr, now, 0);
    case XEndOp(c) => XEndSaved(k, c); SavedHolds(k, k', 0, {});
    case TinOp(t) => TinHolds(k, t, iptr, now, 0);
    case ClaimOp(s) => ClaimHolds(k, s, iptr, now);
    case ReleaseOp(s) => SemSaved(k, s); SavedHolds(k, k', 0, {});
    case SyncOp(b) => SyncHolds(k, b, iptr, now);
    case EnrollOp(b, n) => CountSaved(k, b, n); SavedHolds(k, k', 0, {});
    case ResignOp(b, n) => CountSaved(k, b, n); SavedHolds(k, k', 0, {});
    case ReturnOp(at) => ReturnHolds(k, at);
    case Compute(mem) => MarkSaved(k, mem); SavedHolds(k, k', 0, {});
    case Idle => NextHolds(k, now, 0, {});
  }

  lemma OwnSame(k: K)
    ensures Holds(k, k, k.cur, {})
  {
  }

  lemma MarkSaved(k: K, mem: map<int, int>)
    ensures SameSaved(k, SetMem(k, mem)) && SameSaved(k, Answer(k, false))
  {
    hide SameSaved;
    SlotsSaved(k, SetMem(k, mem));
    SlotsSaved(k, Answer(k, false));
  }

  lemma ReturnHolds(k: K, at: int)
    ensures Holds(k, SetReturn(k, at), k.cur, {})
  {
  }

  lemma ClaimHolds(k: K, s: int, iptr: int, now: Word)
    requires k.iptr == iptr
    ensures Holds(k, SemClaim(k, s, iptr, now), 0, {})
  {
    hide Holds, SameSaved, RunNext, JoinSem, Park, SetSem;
    JoinHolds(k, s, iptr, now, 0);
    SemSaved(k, s);
    SavedHolds(k, SetSem(k, s, Claimed([])), 0, {});
  }

  lemma SyncHolds(k: K, b: int, iptr: int, now: Word)
    requires k.iptr == iptr
    ensures Holds(k, BarSync(k, b, iptr, now), 0, {})
  {
    hide Holds, SameSaved, RunNext, JoinBar, Park, BarComplete;
    JoinHolds(k, b, iptr, now, 0);
    CompleteSaved(k, b, BarOf(k, b).enrolled);
    SavedHolds(k, BarComplete(k, b, BarOf(k, b).enrolled), 0, {});
  }

  /** Everybody is to go on where the instruction says, and first words and PAR counts are as it says. */
  ghost predicate Addressed(k: K, op: Op, iptr: int, k': K) {
    && (forall x {:trigger Pc(k', x)} :: x != 0 && x !in Gone(k, op) ==> Pc(k', x) == Address(k, op, iptr, x))
    && (forall x {:trigger Slots(k', x)} :: x != 0 && (x != k.cur || !Writes(op)) ==>
          Slots(k', x).temp == Slots(k, x).temp)
    && forall par :: JoinCount(k', par) == Pending(k, op, par)
  }

  /**
   An instruction sends nobody anywhere but where it says: all others, and the current
   process however it waits, are to go on where they were to go on.
   */
  lemma StepAddress(k: K, op: Op, iptr: int, now: Word)
    requires Inv(k) && Legal(k, op, now) && k.iptr == iptr
    ensures Addressed(k, op, iptr, Step(k, op, iptr, now))
  {
    hide Inv, HalfRange, StartP, EndP, Adjust, AltEnd, Slots, RunNext, Park, NoAltOn, MayEnable, MayDisable,
         MaySleep, MayProceed, MayOutput, MayInput, MayXIn, SemOf, ChanWord, Addressed, JoinCount;
    match op
    case StartOp(p, at) => SpareElsewhere(k, p); StartAddressed(k, p, at, iptr);
    case AdjustOp(p) => AdjustAddressed(k, p, iptr);
    case EndOp(par) => EndAddressed(k, par, iptr, now);
    case AltEndOp => AltEndsWell(k, iptr); AltEndAddressed(k, iptr);
    case CountOp(par, n) => CountAddressed(k, par, n, iptr);
    case _ => hide Step; StepHolds(k, op, iptr, now); PlainAddressed(k, op, iptr, Step(k, op, iptr, now));
  }

  lemma StartAddressed(k: K, p: int, at: int, iptr: int)
    requires p != k.cur
    ensures Addressed(k, StartOp(p, at), iptr, StartP(k, p, at))
  {
    hide StartP, Slots;
    StartAddress(k, p, at, 0);
  }

  lemma AdjustAddressed(k: K, p: int, iptr: int)
    requires k.iptr == iptr
    ensures Addressed(k, AdjustOp(p), iptr, Adjust(k, p))
  {
    hide Adjust, Slots;
    AdjustAddress(k, p, 0);
  }

  lemma AltEndAddressed(k: K, iptr: int)
    requires Slots(k, k.cur).temp != NONE_SELECTED
    ensures Addressed(k, AltEndOp, iptr, AltEnd(k, iptr))
  {
    hide AltEnd, Slots;
    AltEndAddress(k, iptr, 0);
  }

  lemma CountAddressed(k: K, par: int, n: int, iptr: int)
    ensures Addressed(k, CountOp(par, n), iptr, SetJoin(k, par, n))
  {
    hide SetJoin, Slots, Pc, JoinCount;
    CountAddress(k, par, n);
  }

  lemma PlainAddressed(k: K, op: Op, iptr: int, k': K)
    requires Holds(k, k', if Writes(op) then k.cur else 0, {})
    requires !op.StartOp? && !op.AdjustOp? && !op.EndOp? && !op.AltEndOp? && !op.CountOp?
    ensures Addressed(k, op, iptr, k')
  {
    hide Slots, Pc;
  }

  lemma EndAddressed(k: K, par: int, iptr: int, now: Word)
    ensures Addressed(k, EndOp(par), iptr, EndP(k, par, Slots(k, par).temp, now))
  {
    hide EndP, Slots;
    var n := JoinCount(k, par);
    CountAddress(k, par, if n == 1 then 0 else n - 1);
    if n == 1 { ResumeAddress(k, par, Slots(k, par).temp, now, 0); }
    else { EndAddress(k, par, Slots(k, par).temp, now, 0); }
  }

  lemma CountAddress(k: K, par: int, n: int)
    ensures var k' := SetJoin(k, par, n);
            (forall x {:trigger Slots(k', x)} :: Slots(k', x) == Slots(k, x)) &&
            (forall x {:trigger Pc(k', x)} :: Pc(k', x) == Pc(k, x)) &&
            forall x :: JoinCount(k', x) == if x == par then n else JoinCount(k, x)
  {
    var k' := SetJoin(k, par, n);
    forall x ensures Slots(k', x) == Slots(k, x) { }
  }

  lemma SpareElsewhere(k: K, p: int)
    requires Inv(k) && k.cur != 0 && At(k, p) == Halted
    ensures p != k.cur
  {
    CurrentPlace(k);
  }

  // ----- runs

  /** p executes nothing in the run, and is not started, moved to or resumed in it. */
  ghost predicate Left(k: K, ticks: seq<Tick>, p: int)
    decreases |ticks|
  {
    ticks == [] ||
    (k.cur != p && (p in Births(Fetch(k, ticks[0]), ticks[0].op) ==> ticks[0].op.RunOp?) &&
     Left(Next(k, ticks[0]), ticks[1..], p))
  }

  /** Whatever the others do, a process is to go on where it was to go on, and keeps its first word. */
  lemma {:induction false} LeftGoesOn(k: K, ticks: seq<Tick>, p: int)
    requires Inv(k) && LegalRun(k, ticks) && p != 0 && Left(k, ticks, p)
    ensures Pc(Run(k, ticks), p) == Pc(k, p) && Slots(Run(k, ticks), p).temp == Slots(k, p).temp
    decreases |ticks|
  {
    hide Inv, Legal, Step, Births, Slots, Pc;
    if ticks != [] {
      var t := ticks[0];
      var k1 := Fetch(k, t);
      FetchKeeps(k, t);
      FetchPc(k, t, p);
      StepKeeps(k1, t.op, t.iptr, t.now);
      StepAddress(k1, t.op, t.iptr, t.now);
      OthersAddress(k1, t.op, t.iptr, p);
      LeftGoesOn(Next(k, t), ticks[1..], p);
    }
  }

  lemma FetchPc(k: K, t: Tick, p: int)
    ensures p != k.cur ==> Pc(Fetch(k, t), p) == Pc(k, p)
    ensures Fetch(k, t).iptr == t.iptr && Fetch(k, t).cur == k.cur && Slots(Fetch(k, t), p) == Slots(k, p)
  {
  }

  lemma OthersAddress(k: K, op: Op, iptr: int, p: int)
    requires p != k.cur && (p in Births(k, op) ==> op.RunOp?)
    ensures p !in Gone(k, op) && Address(k, op, iptr, p) == Pc(k, p)
  {
    hide Pc, Slots, JoinCount;
  }

  /** A live process that executes nothing is left alone. */
  lemma {:induction false} RestIsLeft(k: K, ticks: seq<Tick>, p: int)
    requires Inv(k) && LegalRun(k, ticks) && p in Alive(k) && Rests(k, ticks, p)
    ensures Left(k, ticks, p)
    decreases |ticks|
  {
    hide Inv, Legal, Step, Births, Ends, Alive, Fetch;
    if ticks != [] {
      var t := ticks[0];
      var k1 := Fetch(k, t);
      FetchKeeps(k, t);
      FetchAlive(k, t);
      StepKeeps(k1, t.op, t.iptr, t.now);
      StepAlive(k1, t.op, t.iptr, t.now);
      FetchPc(k, t, p);
      OthersLive(k1, t.op, t.now, p);
      RestIsLeft(Next(k, t), ticks[1..], p);
    }
  }

  lemma OthersLive(k: K, op: Op, now: Word, p: int)
    requires Inv(k) && Legal(k, op, now) && p != k.cur && p in Alive(k)
    ensures p !in Ends(k, op) && p !in Births(k, op)
  {
    hide Inv, HalfRange, NoAltOn, MayEnable, MayDisable, MaySleep, MayProceed, MayOutput, MayInput, MayXIn, Alive;
    AliveAt(k, p);
  }

  /** A started process begins at the address it was started with. */
  lemma StartsThere(k: K, t: Tick, ticks: seq<Tick>)
    requires Inv(k) && LegalRun(k, [t] + ticks) && t.op.StartOp? && Rests(Next(k, t), ticks, t.op.p)
    ensures var k' := Run(k, [t] + ticks); k'.cur == t.op.p ==> k'.iptr == t.op.at
  {
    hide Inv, Legal, Alive;
    var p, k1 := t.op.p, Fetch(k, t);
    RunFirst(k, t, ticks);
    FetchKeeps(k, t);
    FetchPc(k, t, p);
    StartedLives(k1, t);
    hide Step, Pc;
    StepKeeps(k1, t.op, t.iptr, t.now);
    StepAddress(k1, t.op, t.iptr, t.now);
    RestIsLeft(Next(k, t), ticks, p);
    LeftGoesOn(Next(k, t), ticks, p);
    CurrentPc(Run(Next(k, t), ticks));
  }

  lemma StartedLives(k: K, t: Tick)
    requires Inv(k) && Legal(k, t.op, t.now) && t.op.StartOp?
    ensures t.op.p in Alive(Step(k, t.op, t.iptr, t.now)) && t.op.p != 0 && t.op.p !in Gone(k, t.op)
  {
    hide Inv, Step, HalfRange, Alive;
    StepAlive(k, t.op, t.iptr, t.now);
  }

  lemma CurrentPc(k: K)
    ensures Pc(k, k.cur) == k.iptr
  {
  }

  lemma RunFirst(k: K, t: Tick, ticks: seq<Tick>)
    ensures LegalRun(k, [t] + ticks) ==> Legal(Fetch(k, t), t.op, t.now) && LegalRun(Next(k, t), ticks)
    ensures Run(k, [t] + ticks) == Run(Next(k, t), ticks)
  {
    hide Legal, Step, Fetch;
    assert ([t] + ticks)[0] == t && ([t] + ticks)[1..] == ticks;
  }

  /**
   A process that waited, yielded or stopped goes on at the instruction after the one
   that stopped it, and one that ends an ALT goes on at the branch selected.
   */
  lemma GoesOnThere(k: K, t: Tick, ticks: seq<Tick>)
    requires Inv(k) && LegalRun(k, [t] + ticks) && k.cur != 0 && !t.op.EndOp? && !t.op.AdjustOp?
    requires Left(Next(k, t), ticks, k.cur)
    ensures var k' := Run(k, [t] + ticks);
            k'.cur == k.cur ==>
            k'.iptr == if t.op.AltEndOp? then t.iptr + Slots(k, k.cur).temp else t.iptr
  {
    hide Inv, Legal, Step, Pc, Address, Gone, Slots;
    var p, k1 := k.cur, Fetch(k, t);
    RunFirst(k, t, ticks);
    FetchKeeps(k, t);
    FetchPc(k, t, p);
    OwnAddress(k1, t.op, t.iptr, t.now);
    StepKeeps(k1, t.op, t.iptr, t.now);
    StepAddress(k1, t.op, t.iptr, t.now);
    LeftGoesOn(Next(k, t), ticks, p);
    CurrentPc(Run(Next(k, t), ticks));
  }

  /** Where the current process goes on. */
  lemma OwnAddress(k: K, op: Op, iptr: int, now: Word)
    requires Inv(k) && k.cur != 0 && k.iptr == iptr && Legal(k, op, now) && !op.EndOp? && !op.AdjustOp?
    ensures k.cur !in Gone(k, op)
    ensures Address(k, op, iptr, k.cur) == if op.AltEndOp? then iptr + Slots(k, k.cur).temp else iptr
  {
    hide Inv, HalfRange, Slots;
    if op.StartOp? { SpareElsewhere(k, op.p); }
  }

  // ----- a whole PAR

  /** How many branches of par's PAR end in the run. */
  function Ended(ticks: seq<Tick>, par: int): nat
    decreases |ticks|
  {
    if ticks == [] then 0 else (if ticks[0].op == EndOp(par) then 1 else 0) + Ended(ticks[1..], par)
  }

  /** par counts no new PAR in the run, and executes nothing that may write its first word. */
  ghost predicate InPar(k: K, ticks: seq<Tick>, par: int)
    decreases |ticks|
  {
    ticks == [] ||
    ((ticks[0].op.CountOp? ==> ticks[0].op.par != par) && (k.cur == par ==> !Writes(ticks[0].op)) &&
     InPar(Next(k, ticks[0]), ticks[1..], par))
  }

  /** No end of a branch in the run resumes par. */
  ghost predicate NotResumed(k: K, ticks: seq<Tick>, par: int)
    decreases |ticks|
  {
    ticks == [] ||
    ((ticks[0].op == EndOp(par) ==> JoinCount(k, par) != 1) && NotResumed(Next(k, ticks[0]), ticks[1..], par))
  }

  /** While branches remain each end takes one off the count, and the parent is not resumed and keeps its address. */
  lemma {:induction false} BranchesEnd(k: K, ticks: seq<Tick>, par: int)
    requires Inv(k) && LegalRun(k, ticks) && par != 0 && InPar(k, ticks, par) && Ended(ticks, par) < JoinCount(k, par)
    ensures var k' := Run(k, ticks);
            Inv(k') && JoinCount(k', par) == JoinCount(k, par) - Ended(ticks, par) &&
            Slots(k', par).temp == Slots(k, par).temp
    ensures NotResumed(k, ticks, par)
    decreases |ticks|
  {
    hide Inv, Legal, Step, Slots, JoinCount, Writes, Pc;
    if ticks != [] {
      var t := ticks[0];
      var k1 := Fetch(k, t);
      FetchKeeps(k, t);
      FetchPc(k, t, par);
      FetchCount(k, t, par);
      StepKeeps(k1, t.op, t.iptr, t.now);
      StepAddress(k1, t.op, t.iptr, t.now);
      BranchesEnd(Next(k, t), ticks[1..], par);
    }
  }

  lemma FetchCount(k: K, t: Tick, par: int)
    ensures JoinCount(Fetch(k, t), par) == JoinCount(k, par)
  {
  }

  lemma ReturnStored(k: K, t: Tick)
    requires t.op.ReturnOp?
    ensures Slots(Next(k, t), k.cur).temp == t.op.at && Next(k, t).cur == k.cur
  {
  }

  /**
   A PAR of n branches: the process that stored an address and the count goes on at
   that address when the n-th branch ends, and not before.
   */
  lemma WholePar(k: K, ret: Tick, cnt: Tick, ticks: seq<Tick>, last: Tick, n: nat)
    requires Inv(k) && k.cur != 0 && ret.op.ReturnOp? && cnt.op == CountOp(k.cur, n) && last.op == EndOp(k.cur)
    requires LegalRun(k, [ret, cnt] + ticks + [last])
    requires var k2 := Next(Next(k, ret), cnt); InPar(k2, ticks, k.cur) && n == Ended(ticks, k.cur) + 1
    ensures var k2, par := Next(Next(k, ret), cnt), k.cur; var k' := Next(Run(k2, ticks), last);
            NotResumed(k2, ticks, par) && k'.cur == par && k'.iptr == ret.op.at
  {
    hide Inv, Legal, Slots, JoinCount, Pc;
    var par, k1 := k.cur, Next(k, ret);
    var k2 := Next(k1, cnt);
    assert [ret, cnt] + ticks + [last] == [ret] + ([cnt] + (ticks + [last]));
    RunFirst(k, ret, [cnt] + (ticks + [last]));
    RunFirst(k1, cnt, ticks + [last]);
    ReturnStored(k, ret);
    hide Step;
    Counted(k1, cnt);
    FetchKeeps(k, ret);
    StepKeeps(Fetch(k, ret), ret.op, ret.iptr, ret.now);
    FetchKeeps(k1, cnt);
    StepKeeps(Fetch(k1, cnt), cnt.op, cnt.iptr, cnt.now);
    LegalParts(k2, ticks, last);
    BranchesEnd(k2, ticks, par);
    LastBranch(Run(k2, ticks), last);
  }

  lemma Counted(k: K, t: Tick)
    requires t.op.CountOp?
    ensures JoinCount(Next(k, t), t.op.par) == t.op.many && forall x :: Slots(Next(k, t), x) == Slots(k, x)
  {
  }

  lemma {:induction false} LegalParts(k: K, ticks: seq<Tick>, last: Tick)
    requires LegalRun(k, ticks + [last])
    ensures LegalRun(k, ticks) && Legal(Fetch(Run(k, ticks), last), last.op, last.now)
    decreases |ticks|
  {
    hide Legal, Step, Fetch;
    if ticks == [] {
      RunFirst(k, last, []);
      assert [last] + [] == [] + [last];
    } else {
      assert ticks + [last] == [ticks[0]] + (ticks[1..] + [last]);
      RunFirst(k, ticks[0], ticks[1..] + [last]);
      LegalParts(Next(k, ticks[0]), ticks[1..], last);
    }
  }

  lemma LastBranch(k: K, t: Tick)
    requires t.op.EndOp? && JoinCount(k, t.op.par) == 1
    ensures Next(k, t).cur == t.op.par && Next(k, t).iptr == Slots(k, t.op.par).temp
  {
    hide RunNext;
  }
}
