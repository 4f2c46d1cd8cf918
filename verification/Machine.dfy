/**
 The virtual machine's scheduler as the original runs it: registers and words of
 memory, with queues threaded through workspaces. Every instruction is proved to do
 to these words what its step does to the abstract state.
 */
module Machine {
  import opened Words
  import opened Kernel
  import opened KernelInv
  import opened KernelRuns
  import opened KernelEffects
  import opened Links
  import opened Represent

  const ECTX_CONTINUE := 0
  const ECTX_EMPTY := 101
  const ECTX_ERROR := 69
  const ECTX_DESCHEDULE := -1
  const ECTX_SLEEP := 115

  /** What the interpreter is told: go on, sleep until a time comes, or nothing is left to do. */
  function Status(k: K): int {
    if k.cur != 0 then ECTX_CONTINUE else if k.timq != [] then ECTX_SLEEP else ECTX_EMPTY
  }

  function WordAt(chan: map<int, int>, c: int): int {
    if c in chan then chan[c] else 0
  }

  /** What a disable comes to. */
  lemma DisableWell(k: K, g: Guard, on: bool, target: int, iptr: int, now: Word) returns (k': K)
    requires Inv(k) && Legal(k, Dis(g, on, target), now)
    ensures k' == Step(k, Dis(g, on, target), iptr, now) && k' == if on then Disable(k, g, target) else Answer(k, false)
    ensures Inv(k') && k'.cur == k.cur && k.cur > 0 && k.cur % 4 == 0 && !OnChannel(At(k, k.cur))
  {
    hide Inv, HalfRange, Disable, MayDisable;
    StepKeeps(k, Dis(g, on, target), iptr, now);
    PlainDetached(k);
    DisableRegs(k, g, target);
    k' := Step(k, Dis(g, on, target), iptr, now);
  }

  /** What the timer link of a process that disables a timer guard says, and where the process is. */
  lemma TimerWhere(im: Image, k: K, t: Word, target: int, now: Word)
    requires MemRep(im, k) && Inv(k) && Legal(k, Dis(Timer(t), true, target), now)
    ensures var l, l' := F(im.ws, k.cur).tlink, Slots(k, k.cur).tlink;
            (l == TIME_SET <==> l' == TIME_SET) && (l == TIME_NOT_SET <==> l' == TIME_NOT_SET) &&
            (l != TIME_SET && l != TIME_NOT_SET ==> k.cur in k.timq)
    ensures F(im.ws, k.cur).time == Slots(k, k.cur).time
  {
    hide Inv, MemRep, HalfRange, Slots, At, Info;
    TimerLink(im, k);
    TimerGuard(k, t);
    SlotAt(im, k, k.cur);
  }

  /** What the extended input instructions come to. */
  lemma XAbleWell(k: K, c: int, iptr: int, now: Word)
    requires Inv(k) && Legal(k, XAbleOp(c), now)
    ensures Step(k, XAbleOp(c), iptr, now) == XAble(k, c, iptr, now) && Inv(XAble(k, c, iptr, now))
    ensures HalfRange(k, k.timq, {now}) && Plain(k) && NoAltOn(k, c)
  {
    hide Inv, HalfRange, XAble, NoAltOn;
    StepKeeps(k, XAbleOp(c), iptr, now);
    LegalNow(k, XAbleOp(c), now);
  }

  lemma XInWell(k: K, c: int, ptr: int, len: int, iptr: int, now: Word)
    requires Inv(k) && Legal(k, XInOp(c, ptr, len), now)
    ensures Step(k, XInOp(c, ptr, len), iptr, now) == XIn(k, c, ptr, len, iptr, now) &&
            Inv(XIn(k, c, ptr, len, iptr, now))
    ensures HalfRange(k, k.timq, {now}) && MayXIn(k, c)
  {
    hide Inv, HalfRange, XIn, MayXIn;
    StepKeeps(k, XInOp(c, ptr, len), iptr, now);
    LegalNow(k, XInOp(c, ptr, len), now);
  }

  lemma XEndWell(k: K, c: int, iptr: int, now: Word)
    requires Inv(k) && Legal(k, XEndOp(c), now)
    ensures Step(k, XEndOp(c), iptr, now) == XEnd(k, c) && Inv(XEnd(k, c))
    ensures Plain(k) && NoAltOn(k, c) && (ChanWord(k, c) == 1 || IsProcess(ChanWord(k, c)))
  {
    hide Inv, HalfRange, XEnd, NoAltOn;
    StepKeeps(k, XEndOp(c), iptr, now);
  }

  class Machine {
    var wptr: int
    var iptr: int
    var fptr: int
    var bptr: int
    var tptr: int
    var tnext: Word
    var tq: bool            // SFLAG_TQ
    var fired: bool         // the answer of a disable
    var eflags: nat
    var ws: map<int, Frame>
    var chan: map<int, int>
    var sem: map<int, SemWords>
    var bar: map<int, BarWords>
    var joins: map<int, int>
    var mem: map<int, int>

    ghost var k: K

    ghost predicate Regs()
      reads this
    {
      && (k.cur != 0 ==> wptr == k.cur) && iptr == k.iptr && tq == k.tq && chan == k.chan
      && joins == k.env.joins && mem == k.env.mem && fired == k.env.fired && eflags == k.env.eflags
    }

    ghost function Snapshot(): Image
      reads this
    {
      Image(ws, fptr, bptr, tptr, tnext, sem, bar)
    }

    ghost predicate Rep()
      reads this
    {
      Regs() && MemRep(Snapshot(), k)
    }

    ghost predicate Valid()
      reads this
    {
      Inv(k) && Rep()
    }

    /** Between instructions the workspace register names the current process. */
    ghost predicate Stable()
      reads this
    {
      Valid() && wptr == k.cur
    }

    /** The words as loaded, with one process to run. */
    constructor (p: int, image: map<int, int>)
      requires IsProcess(p)
      ensures Stable() && k == Boot(p, image)
    {
      wptr, iptr, fptr, bptr, tptr, tnext := p, 0, 0, 0, 0, 0;
      tq, fired, eflags := false, false, 0;
      ws, chan, sem, bar, joins, mem := map[], map[], map[], map[], map[], image;
      k := Boot(p, image);
      new;
      BootInv(p, image);
    }

    /** Go on exactly if there is a process to go on with; sleep exactly if none can run and a time is pending; empty
     exactly if none can run and none is pending. */
    ghost predicate Code(ret: int)
      reads this
    {
      && (ret == ECTX_CONTINUE <==> wptr != 0)
      && (ret == ECTX_SLEEP <==> wptr == 0 && fptr == 0 && tptr != 0)
      && (ret == ECTX_EMPTY <==> wptr == 0 && fptr == 0 && tptr == 0)
    }

    // ----- the run queue

    /** add_to_queue. */
    method Append(p: int, ghost q: seq<int>)
      requires Queue(ws, fptr, bptr, q) && Distinct(q + [p])
      modifies this`ws, this`fptr, this`bptr
      ensures Queue(ws, fptr, bptr, q + [p])
      ensures forall x ::
              F(ws, x) == F(old(ws), x).(link := F(ws, x).link) && (x != p && x !in q ==> F(ws, x) == F(old(ws), x))
    {
      QueueAppend(ws, fptr, bptr, q, p);
      ws := SetLink(ws, p, 0);
      assert q != [] ==> q[0] in q && bptr in q;
      assert q != [] ==> fptr == q[0] && (q + [p])[0] == q[0];
      if fptr == 0 {
        fptr := p;
        bptr := p;
      } else {
        ws := SetLink(ws, bptr, p);
        bptr := p;
      }
    }

    /** ADD_TO_QUEUE; the timer queue is the one from t, whose first time is tn. */
    method Enlist(p: int, ghost t: int, ghost tn: Word)
      requires Regs() && MemRep(Snapshot().(tptr := t, tnext := tn), k) && MayQueue(k, p)
      modifies this`ws, this`fptr, this`bptr, this`k
      ensures Regs() && MemRep(Snapshot().(tptr := t, tnext := tn), k) && k == Enqueue(old(k), p)
      ensures forall x :: F(ws, x) == F(old(ws), x).(link := F(ws, x).link)
    {
      hide MemRep, Enqueue, Queue;
      assert Queue(ws, fptr, bptr, k.runq) && Distinct(k.runq + [p]) by {
        QueueOf(Snapshot().(tptr := t, tnext := tn), k);
        AppendDistinct(k, p);
      }
      hide MayQueue, Distinct;
      ghost var im := Snapshot().(tptr := t, tnext := tn);
      Append(p, k.runq);
      QueueKeeps(im, ws, fptr, bptr, k, p);
      EnqueueRegs(k, p);
      k := Enqueue(k, p);
    }

    method AddToQueue(p: int)
      requires Rep() && MayQueue(k, p)
      modifies this`ws, this`fptr, this`bptr, this`k
      ensures Rep() && k == Enqueue(old(k), p)
    {
      hide MemRep, Enqueue, MayQueue;
      Enlist(p, tptr, tnext);
    }

    /** The context of the current process is saved in its workspace. */
    method SaveContext()
      requires Rep() && k.cur != 0
      modifies this`ws, this`k
      ensures Rep() && k == Park(old(k), iptr)
    {
      hide MemRep, Park;
      ghost var im := Snapshot();
      ws := Put(ws, wptr, F(ws, wptr).(iptr := iptr));
      ParkSlots(k, iptr);
      SlotAt(im, k, wptr);
      WriteKeeps(im, ws, k, Park(k, iptr), wptr);
      k := Park(k, iptr);
    }

    /** LOAD_PROCESS. */
    method LoadProcess(p: int)
      requires Rep() && k.cur == 0 && !OnChannel(At(k, p))
      modifies this`wptr, this`iptr, this`k
      ensures Rep() && k == Load(old(k), p) && wptr == p && k.cur == p
    {
      hide MemRep, Load;
      wptr := p;
      iptr := F(ws, wptr).iptr;
      LoadMem(Snapshot(), k, p);
      k := Load(k, p);
    }

    // ----- the clock

    /** One turn of walk_timer_queue: the process at t, the front of the timer queue, is due. */
    method ExpireFront(t: int, tn: Word, now: Word) returns (next: int)
      requires Regs() && MemRep(Snapshot().(tptr := t, tnext := tn), k) && Inv(k) && k.timq != [] && k.timq[0] == t
      modifies this`ws, this`fptr, this`bptr, this`k
      ensures Regs() && k == Expire(old(k), now) && next == (if k.timq == [] then 0 else k.timq[0])
      ensures MemRep(Snapshot().(tptr := next, tnext := F(ws, next).time), k)
    {
      hide MemRep, Enqueue, Queue, Inv, Expire, MayQueue, Distinct, OffFront, At, Info, F;
      ghost var im, k0 := Snapshot().(tptr := t, tnext := tn), k;
      SlotAt(im, k, t);
      TimerDistinct(k);
      ExpireIs(k, now);
      next := F(ws, t).tlink;
      ghost var w := Slots(k, t).(tlink := TIME_SET, time := now);
      FrontSlots(k, w);
      FrontSlots(k, w.(state := READY));
      ws := Put(ws, t, F(ws, t).(tlink := TIME_SET, time := now));
      if F(ws, t).state != READY {
        ws := Put(ws, t, F(ws, t).(state := READY));
        FrontReady(im.ws, t, now, ws);
        FrontKeeps(im, k, F(ws, t), w.(state := READY));
        SleeperMayQueue(k, w.(state := READY));
        k := OffFront(k, w.(state := READY));
        EnqueueTimers(k, t);
        Enlist(t, next, F(ws, next).time);
      } else {
        FrontKeeps(im, k, F(ws, t), w);
        k := OffFront(k, w);
      }
    }

    /** The loop of walk_timer_queue, from the front at t0, which is due. */
    method WalkDue(t0: int, tn0: Word, now: Word) returns (t: int, tn: Word)
      requires Regs() && MemRep(Snapshot().(tptr := t0, tnext := tn0), k) && Inv(k) && HalfRange(k, k.timq, {now})
      requires k.timq != [] && k.timq[0] == t0 && !TimeAfter(Slots(k, t0).time, now)
      modifies this`ws, this`fptr, this`bptr, this`k
      ensures Regs() && MemRep(Snapshot().(tptr := t, tnext := tn), k) && Inv(k) && k == Walk(old(k), now)
      ensures t == 0 <==> k.timq == []
    {
      hide MemRep, Inv, Expire, Walk, HalfRange, TimeAfter, Slots, Regs;
      t, tn := t0, tn0;
      while true
        invariant Regs() && MemRep(Snapshot().(tptr := t, tnext := tn), k) && Inv(k) && HalfRange(k, k.timq, {now})
        invariant k.timq != [] && k.timq[0] == t && !TimeAfter(Slots(k, t).time, now) &&
                  Walk(k, now) == Walk(old(k), now)
        decreases |k.timq|
      {
        WalkStep(k, now);
        ExpireDue(k, now);
        var next := ExpireFront(t, tn, now);
        t := next;
        tn := F(ws, t).time;
        TimerNull(k);
        WalkStep(k, now);
        if t == 0 { return; }
        TimerOf(Snapshot().(tptr := t, tnext := tn), k);
        if TimeAfter(tn, now) { return; }
      }
    }

    /** walk_timer_queue. */
    method WalkTimerQueue(now: Word)
      requires Valid() && HalfRange(k, k.timq, {now})
      modifies this`ws, this`fptr, this`bptr, this`tptr, this`tnext, this`tq, this`k
      ensures Valid() && k == Walk(old(k), now)
    {
      hide MemRep, Inv, Walk, HalfRange, TimeAfter, Slots, F, At, Timed;
      TimerOf(Snapshot(), k);
      WalkStep(k, now);
      TimerNull(k);
      if tptr == 0 || TimeAfter(tnext, now) { return; }
      var t, tn := WalkDue(tptr, tnext, now);
      if t == 0 {
        TimerEmpty(Snapshot().(tptr := 0, tnext := tn), tnext, k);
        tptr := 0;
      } else {
        TimerFlag(k);
        tptr, tnext, tq := t, tn, true;
      }
    }

    /** busy_wait_synchronise with the timer flag set. */
    method Synchronise(now: Word)
      requires Valid() && HalfRange(k, k.timq, {now})
      modifies this`ws, this`fptr, this`bptr, this`tptr, this`tnext, this`tq, this`k
      ensures Valid() && k == Sync(old(k), now)
    {
      hide MemRep, Inv, Walk, HalfRange;
      SyncKeeps(k, now);
      WalkTimerQueue(now);
      TimerOf(Snapshot(), k);
      TimerNull(k);
      if tptr == 0 {
        tq := false;
        FlagMem(Snapshot(), k);
        k := k.(tq := false);
      }
    }

    /** The front of the run queue, if any, becomes the current process. */
    method TakeNext() returns (ret: int)
      requires Valid() && k.cur == 0
      modifies this`wptr, this`iptr, this`fptr, this`bptr, this`k
      ensures Rep() && k == Dispatch(old(k)) && wptr == k.cur && ret == Status(k)
      ensures Code(ret)
    {
      hide MemRep, Inv, Dispatch, F, At, Slots;
      DispatchIs(k);
      RunHead(Snapshot(), k);
      if fptr != 0 {
        wptr := fptr;
      } else {
        wptr := 0;
        TimerOf(Snapshot(), k);
        TimerNull(k);
        return if tptr != 0 then ECTX_SLEEP else ECTX_EMPTY;
      }
      DispatchMem(Snapshot(), k);
      k := Dispatch(k);
      if fptr == bptr {
        fptr, bptr := 0, 0;
      } else {
        fptr := F(ws, fptr).link;
      }
      iptr := F(ws, wptr).iptr;
      ret := ECTX_CONTINUE;
    }

    /** run_next_on_queue. */
    method RunNextOnQueue(now: Word) returns (ret: int)
      requires Valid() && k.cur == 0 && HalfRange(k, k.timq, {now})
      modifies this`wptr, this`iptr, this`ws, this`fptr, this`bptr, this`tptr, this`tnext, this`tq, this`k
      ensures Stable() && k == RunNext(old(k), now) && ret == Status(k)
      ensures Code(ret)
    {
      hide MemRep, Inv, Sync, HalfRange, RunNext, Dispatch, Code;
      RunNextKeeps(k, now);
      RunNextIs(k, now);
      if tq {
        SyncKeeps(k, now);
        Synchronise(now);
      }
      ret := TakeNext();
    }

    /** The search of timer_queue_insert, past the front: p goes before the first process due strictly later. */
    method LinkInside(p: int, t: Word) returns (ghost n: nat)
      requires Rep() && Distinct(k.timq) && p !in k.timq && tptr != 0 && !TimeAfter(tnext, t)
      modifies this`ws
      ensures n <= |k.timq| && LinkedIn(old(ws), ws, k.timq, p, iptr, n) && n > 0
      ensures (forall j :: 0 <= j < n ==> !TimeAfter(Slots(k, k.timq[j]).time, t)) &&
              (n < |k.timq| ==> TimeAfter(Slots(k, k.timq[n]).time, t))
    {
      hide MemRep, TimeAfter, Slots, Regs, LinkedIn, SetTlink;
      ghost var q, ws0 := k.timq, ws;
      TimerOf(Snapshot(), k);
      var here, next := tptr, F(ws, tptr).tlink;
      n := 1;
      while true
        invariant 1 <= n <= |q| && here == q[n - 1] && next == After(q, n - 1) && ws == ws0
        invariant forall j :: 0 <= j < n ==> !TimeAfter(Slots(k, q[j]).time, t)
        decreases |q| - n
      {
        SlotAt(Snapshot(), k, next);
        LinkBehind(ws, q, p, iptr, n);
        if next == 0 {
          ws := SetTlink(ws, here, p);
          ws := SetTlink(ws, p, 0);
          return;
        } else if TimeAfter(F(ws, next).time, t) {
          ws := SetTlink(ws, p, next);
          ws := SetTlink(ws, here, p);
          return;
        } else {
          here := next;
          next := F(ws, here).tlink;
          n := n + 1;
        }
      }
    }

    /** timer_queue_insert, for a process whose time is set. */
    method TimerQueueInsert(p: int, t: Word)
      requires Rep() && Distinct(k.timq) && p !in k.timq && p != 0 && F(ws, p).time == t && Slots(k, p).time == t &&
               (k.timq != [] ==> k.tq)
      modifies this`ws, this`tptr, this`tnext, this`tq, this`k
      ensures Rep() && k == TimerInsert(old(k), p, t, iptr)
    {
      hide MemRep, TimerInsert, TimeAfter, Slots, LinkedIn, Distinct, F, Put, At, Info, SetTlink;
      ghost var im, n, k0, k1 := Snapshot(), 0, k, TimerInsert(k, p, t, iptr);
      TimerFront(Snapshot(), k);
      LinkFront(ws, k.timq, p, iptr);
      InsertRegs(k, p, t, iptr);
      if tptr == 0 {
        tptr := p;
        tnext := t;
        ws := Put(ws, p, F(ws, p).(iptr := iptr));
        ws := SetTlink(ws, p, 0);
        tq := true;
      } else if TimeAfter(tnext, t) {
        ws := SetTlink(ws, p, tptr);
        tptr := p;
        tnext := t;
        tq := true;
      } else {
        n := LinkInside(p, t);
      }
      k := k1;
      assert Regs();
      InsertKeeps(im, ws, k0, p, iptr, n);
    }

    /** The search of timer_queue_remove, past the front. */
    method UnlinkInside(p: int) returns (ghost n: nat)
      requires Rep() && Distinct(k.timq) && p in k.timq && tptr != p
      modifies this`ws
      ensures 0 < n < |k.timq| && k.timq[n] == p && ws == SetTlink(old(ws), k.timq[n - 1], After(k.timq, n))
    {
      hide MemRep, Slots, Regs;
      ghost var q := k.timq;
      TimerOf(Snapshot(), k);
      var previous, current := tptr, F(ws, tptr).tlink;
      n := 1;
      while current != 0
        invariant 1 <= n < |q| && previous == q[n - 1] && current == q[n] && ws == old(ws) && p !in q[..n]
        decreases |q| - n
      {
        if current == p {
          ws := SetTlink(ws, previous, F(ws, p).tlink);
          return;
        } else {
          previous := current;
          current := F(ws, current).tlink;
          n := n + 1;
        }
      }
    }

    /** timer_queue_remove, for a process on the queue. */
    method TimerQueueRemove(p: int)
      requires Rep() && Distinct(k.timq) && p in k.timq && k.tq
      modifies this`ws, this`tptr, this`tnext, this`tq, this`k
      ensures Rep() && k == TimerRemove(old(k), p)
    {
      hide MemRep, TimerRemove, Slots, Unlinked, Distinct, F, Put, SetTlink, Info, At, RemoveTime;
      ghost var im, n, k0, k1 := Snapshot(), 0, k, TimerRemove(k, p);
      TimerSecond(Snapshot(), k);
      TimerFront(Snapshot(), k);
      InsertRegs(k, p, 0, 0);
      if tptr == p {
        tptr := F(ws, tptr).tlink;
        if tptr != 0 {
          tnext := F(ws, tptr).time;
          tq := true;
        }
      } else if tptr != 0 {
        n := UnlinkInside(p);
      }
      ws := SetTlink(ws, p, TIME_NOT_SET);
      k := k1;
      assert Regs();
      UnlinkAt(im.ws, k0.timq, n);
      RemoveKeeps(im, ws, k0, n);
    }

    // ----- processes

    /** ins_startp. */
    method Startp(p: int, at: int, now: Word) returns (ret: int)
      requires Stable() && Legal(k, StartOp(p, at), now)
      modifies this
      ensures Stable() && k == Step(old(k), StartOp(p, at), old(iptr), now) && ret == Status(k)
    {
      hide Inv, MemRep, HalfRange, StartP, Enqueue, MayQueue, SetWs;
      StepKeeps(k, StartOp(p, at), iptr, now);
      LegalNow(k, StartOp(p, at), now);
      ghost var im, k0 := Snapshot(), k;
      HaltedMayQueue(k, p);
      StartSlots(k, p, at);
      SameMayQueue(k, SetWs(k, p, Slots(k, p).(iptr := at)), p);
      SlotAt(Snapshot(), k, p);
      ws := Put(ws, p, F(ws, p).(iptr := at));
      k := SetWs(k, p, Slots(k, p).(iptr := at));
      WriteKeeps(im, ws, k0, k, p);
      EnqueueRegs(k, p);
      AddToQueue(p);
      ret := ECTX_CONTINUE;
    }

    /** ins_stopp. */
    method Stopp(now: Word) returns (ret: int)
      requires Stable() && Legal(k, StopOp, now)
      modifies this
      ensures Stable() && k == Step(old(k), StopOp, old(iptr), now) && ret == Status(k)
    {
      hide Inv, MemRep, HalfRange, Park, RunNext, MayQueue, Unthreaded;
      StepKeeps(k, StopOp, iptr, now);
      LegalNow(k, StopOp, now);
      Parked(k, iptr, now);
      SaveContext();
      ret := RunNextOnQueue(now);
    }

    /** ins_runp. */
    method Runp(p: int, now: Word) returns (ret: int)
      requires Stable() && Legal(k, RunOp(p), now)
      modifies this
      ensures Stable() && k == Step(old(k), RunOp(p), old(iptr), now) && ret == Status(k)
    {
      hide Inv, MemRep, HalfRange, Enqueue, MayQueue;
      StepKeeps(k, RunOp(p), iptr, now);
      LegalNow(k, RunOp(p), now);
      HaltedMayQueue(k, p);
      EnqueueRegs(k, p);
      AddToQueue(p);
      ret := ECTX_CONTINUE;
    }

    /** ins_endp: par is the parent's workspace, whose first word is resume. */
    method Endp(par: int, now: Word) returns (ret: int)
      requires Stable() && Legal(k, EndOp(par), now)
      modifies this
      ensures Stable() && k == Step(old(k), EndOp(par), old(iptr), now) && ret == Status(k)
    {
      hide Inv, MemRep, HalfRange, EndP, RunNext, SetAt, SetJoin, F, At, Slots, Info;
      StepKeeps(k, EndOp(par), iptr, now);
      LegalNow(k, EndOp(par), now);
      var n := WordAt(joins, par);
      ghost var k0, resume := k, Slots(k, par).temp;
      SlotAt(Snapshot(), k, par);
      EndIs(k, par, resume, now);
      Ended(k, par, if n == 1 then 0 else n - 1, now);
      k := SetJoin(SetAt(k, k.cur, Halted).(cur := 0), par, if n == 1 then 0 else n - 1);
      PlaceMem(Snapshot(), k0, k, k0.cur);
      if n == 1 {
        joins := joins[par := 0];
        iptr := F(ws, par).temp;
        wptr := par;
        BecomeSlots(k, par, resume);
        PlaceMem(Snapshot(), k, SetAt(k, par, Running).(cur := par, iptr := resume), par);
        k := SetAt(k, par, Running).(cur := par, iptr := resume);
        ret := ECTX_CONTINUE;
      } else {
        joins := joins[par := n - 1];
        ret := RunNextOnQueue(now);
      }
    }

    /** ins_gajw and its kin: the current process goes on under another workspace pointer. */
    method Gajw(p: int, now: Word) returns (ret: int)
      requires Stable() && Legal(k, AdjustOp(p), now)
      modifies this
      ensures Stable() && k == Step(old(k), AdjustOp(p), old(iptr), now) && ret == Status(k)
    {
      hide Inv, MemRep, HalfRange, Adjust, SetAt;
      StepKeeps(k, AdjustOp(p), iptr, now);
      LegalNow(k, AdjustOp(p), now);
      AdjustSlots(k, p);
      wptr := p;
      PlaceMem(Snapshot(), k, SetAt(k, k.cur, Halted), k.cur);
      PlaceMem(Snapshot(), SetAt(k, k.cur, Halted), Adjust(k, p), p);
      k := Adjust(k, p);
      ret := ECTX_CONTINUE;
    }

    // ----- ALT

    /** ins_alt. */
    method Alt(now: Word) returns (ret: int)
      requires Stable() && Legal(k, AltOp(false), now)
      modifies this
      ensures Stable() && k == Step(old(k), AltOp(false), old(iptr), now) && ret == Status(k)
    {
      hide Inv, MemRep, HalfRange, AltStart, OwnSlots;
      StepKeeps(k, AltOp(false), iptr, now);
      LegalNow(k, AltOp(false), now);
      ghost var im := Snapshot();
      PlainDetached(k);
      AltStartSlots(k, false);
      SlotAt(Snapshot(), k, wptr);
      ws := Put(ws, wptr, F(ws, wptr).(state := ENABLING));
      OwnMem(im, ws, k, AltStart(k, false), wptr);
      k := AltStart(k, false);
      ret := ECTX_CONTINUE;
    }

    /** ins_talt. */
    method Talt(now: Word) returns (ret: int)
      requires Stable() && Legal(k, AltOp(true), now)
      modifies this
      ensures Stable() && k == Step(old(k), AltOp(true), old(iptr), now) && ret == Status(k)
    {
      hide Inv, MemRep, HalfRange, AltStart, OwnSlots;
      StepKeeps(k, AltOp(true), iptr, now);
      LegalNow(k, AltOp(true), now);
      ghost var im := Snapshot();
      PlainDetached(k);
      AltStartSlots(k, true);
      SlotAt(Snapshot(), k, wptr);
      ws := Put(ws, wptr, F(ws, wptr).(state := ENABLING));
      ws := Put(ws, wptr, F(ws, wptr).(tlink := TIME_NOT_SET));
      OwnMem(im, ws, k, AltStart(k, true), wptr);
      k := AltStart(k, true);
      ret := ECTX_CONTINUE;
    }

    /** ins_enbc. */
    method Enbc(c: int, on: bool, now: Word) returns (ret: int)
      requires Stable() && Legal(k, Enb(Chan(c), on), now)
      modifies this
      ensures Stable() && k == Step(old(k), Enb(Chan(c), on), old(iptr), now) && ret == Status(k)
    {
      hide Inv, MemRep, HalfRange, Enable, OwnSlots;
      StepKeeps(k, Enb(Chan(c), on), iptr, now);
      LegalNow(k, Enb(Chan(c), on), now);
      if on {
        ghost var im := Snapshot();
        EnablingApart(k);
        EnableEffect(k, Chan(c));
        EnableRegs(k, Chan(c));
        SlotAt(Snapshot(), k, wptr);
        var v, this_ws := WordAt(chan, c), wptr + 1;
        if v == 0 {
          chan := chan[c := this_ws];
        } else if v != this_ws {
          ws := Put(ws, wptr, F(ws, wptr).(state := READY));
        }
        OwnMem(im, ws, k, Enable(k, Chan(c)), wptr);
        k := Enable(k, Chan(c));
      }
      ret := ECTX_CONTINUE;
    }

    /** ins_enbs. */
    method Enbs(on: bool, now: Word) returns (ret: int)
      requires Stable() && Legal(k, Enb(Skip, on), now)
      modifies this
      ensures Stable() && k == Step(old(k), Enb(Skip, on), old(iptr), now) && ret == Status(k)
    {
      hide Inv, MemRep, HalfRange, Enable, OwnSlots;
      StepKeeps(k, Enb(Skip, on), iptr, now);
      LegalNow(k, Enb(Skip, on), now);
      if on {
        ghost var im := Snapshot();
        EnablingApart(k);
        EnableEffect(k, Skip);
        EnableRegs(k, Skip);
        SlotAt(Snapshot(), k, wptr);
        ws := Put(ws, wptr, F(ws, wptr).(state := READY));
        OwnMem(im, ws, k, Enable(k, Skip), wptr);
        k := Enable(k, Skip);
      }
      ret := ECTX_CONTINUE;
    }

    /** ins_enbt. */
    method Enbt(t: Word, on: bool, now: Word) returns (ret: int)
      requires Stable() && Legal(k, Enb(Timer(t), on), now)
      modifies this
      ensures Stable() && k == Step(old(k), Enb(Timer(t), on), old(iptr), now) && ret == Status(k)
    {
      hide Inv, MemRep, HalfRange, Enable, OwnSlots, TimeAfter;
      StepKeeps(k, Enb(Timer(t), on), iptr, now);
      LegalNow(k, Enb(Timer(t), on), now);
      if on {
        ghost var im := Snapshot();
        EnablingApart(k);
        EnableEffect(k, Timer(t));
        EnableRegs(k, Timer(t));
        SlotAt(Snapshot(), k, wptr);
        if F(ws, wptr).tlink == TIME_NOT_SET {
          ws := Put(ws, wptr, F(ws, wptr).(tlink := TIME_SET));
          ws := Put(ws, wptr, F(ws, wptr).(time := t));
        } else if TimeAfter(F(ws, wptr).time, t) {
          ws := Put(ws, wptr, F(ws, wptr).(time := t));
        }
        OwnMem(im, ws, k, Enable(k, Timer(t)), wptr);
        k := Enable(k, Timer(t));
      }
      ret := ECTX_CONTINUE;
    }

    /** Nothing is selected yet. */
    method ClearSelection()
      requires Rep() && k.cur != 0
      modifies this`ws, this`k
      ensures Rep() && k == Unselected(old(k))
      ensures F(ws, wptr) == F(old(ws), wptr).(temp := NONE_SELECTED)
    {
      hide MemRep, Unselected;
      ghost var im := Snapshot();
      UnselectedSlots(k);
      SlotAt(Snapshot(), k, wptr);
      ws := Put(ws, wptr, F(ws, wptr).(temp := NONE_SELECTED));
      WriteKeeps(im, ws, k, Unselected(k), wptr);
      k := Unselected(k);
    }

    /** A ready ALT goes on; a timer ALT takes the time. */
    method GoOn(timed: bool, now: Word)
      requires Rep() && k.cur != 0 && k.cur !in k.timq && Slots(k, k.cur).temp == NONE_SELECTED
      modifies this`ws, this`k
      ensures Rep() && k == Proceed(old(k), timed, now) && k.cur == old(k.cur)
    {
      hide MemRep, Proceed, OwnSlots;
      ghost var im := Snapshot();
      ProceedSlots(k, timed, now);
      SlotAt(Snapshot(), k, wptr);
      ws := Put(ws, wptr, F(ws, wptr).(state := READY));
      if timed {
        ws := Put(ws, wptr, F(ws, wptr).(time := now));
      }
      OwnMem(im, ws, k, Proceed(k, timed, now), wptr);
      k := Proceed(k, timed, now);
    }

    /** The end of a wait: the state is WAITING, the context saved, and the next process runs. */
    method FallAsleep(now: Word) returns (ret: int)
      requires Rep() && k.cur != 0 && Slots(k, k.cur).temp == NONE_SELECTED
      requires var k1 := Sleep(k, iptr); Inv(k1) && HalfRange(k1, k1.timq, {now})
      modifies this
      ensures Stable() && k == RunNext(Sleep(old(k), old(iptr)), now) && ret == Status(k)
    {
      hide Inv, MemRep, HalfRange, Sleep, RunNext;
      ghost var im := Snapshot();
      SleepSlots(k, iptr);
      SlotAt(Snapshot(), k, wptr);
      ws := Put(ws, wptr, F(ws, wptr).(state := WAITING));
      ws := Put(ws, wptr, F(ws, wptr).(iptr := iptr));
      SleepMem(im, ws, k, iptr);
      k := Sleep(k, iptr);
      ret := RunNextOnQueue(now);
    }

    /** The same, on the timer queue. */
    method FallAsleepUntil(due: Word, now: Word) returns (ret: int)
      requires Rep() && k.cur != 0 && Slots(k, k.cur).temp == NONE_SELECTED && k.cur !in k.timq &&
               Distinct(k.timq) && (k.timq != [] ==> k.tq)
      requires var k1 := Sleep(TimerInsert(k, k.cur, due, iptr), iptr); Inv(k1) && HalfRange(k1, k1.timq, {now})
      modifies this
      ensures Stable() && k == RunNext(Sleep(TimerInsert(old(k), old(k).cur, due, old(iptr)), old(iptr)), now) &&
              ret == Status(k)
    {
      hide Inv, MemRep, HalfRange, Sleep, RunNext, TimerInsert, SetWs, Distinct;
      ghost var im, k0 := Snapshot(), k;
      SlotAt(Snapshot(), k, wptr);
      DueNoted(k, wptr, due, iptr);
      ws := Put(ws, wptr, F(ws, wptr).(time := due));
      NotedSlots(k, wptr, Slots(k, wptr).(time := due));
      k := SetWs(k, wptr, Slots(k, wptr).(time := due));
      WriteKeeps(im, ws, k0, k, wptr);
      InsertTemp(k, wptr, due, iptr);
      TimerQueueInsert(wptr, due);
      ret := FallAsleep(now);
    }

    /** ins_altwt. */
    method Altwt(now: Word) returns (ret: int)
      requires Stable() && Legal(k, AltWtOp, now)
      modifies this
      ensures Stable() && k == Step(old(k), AltWtOp, old(iptr), now) && ret == Status(k)
    {
      hide Inv, MemRep, HalfRange, AltWt, Sleep, Proceed, RunNext, Unselected, AltOk;
      StepKeeps(k, AltWtOp, iptr, now);
      LegalNow(k, AltWtOp, now);
      EnablingApart(k);
      AltWtIs(k, iptr, now);
      UnselectedSlots(k);
      UnselectedSame(k, false, now, iptr);
      SlotAt(Snapshot(), k, wptr);
      if Slots(k, k.cur).state != READY { AsleepState(k, iptr, now); }
      ClearSelection();
      if F(ws, wptr).state == READY {
        GoOn(false, now);
        ret := ECTX_CONTINUE;
      } else {
        ret := FallAsleep(now);
      }
    }

    /** ins_taltwt. */
    method Taltwt(now: Word) returns (ret: int)
      requires Stable() && Legal(k, TaltWtOp, now)
      modifies this
      ensures Stable() && k == Step(old(k), TaltWtOp, old(iptr), now) && ret == Status(k)
    {
      hide Inv, MemRep, HalfRange, TaltWt, Sleep, Proceed, RunNext, Unselected, AltOk, TimeAfter, TimerInsert, Distinct;
      ghost var k0 := k;
      StepKeeps(k, TaltWtOp, iptr, now);
      LegalNow(k, TaltWtOp, now);
      EnablingApart(k);
      AltWtIs(k, iptr, now);
      UnselectedSlots(k);
      UnselectedSame(k, true, now, iptr);
      SlotAt(Snapshot(), k, wptr);
      ClearSelection();
      if F(ws, wptr).state == READY {
        GoOn(true, now);
        return ECTX_CONTINUE;
      } else if F(ws, wptr).tlink != TIME_NOT_SET {
        if TimeAfter(now, F(ws, wptr).time) {
          GoOn(true, now);
          return ECTX_CONTINUE;
        }
        var due := Wrap(F(ws, wptr).time + 1);
        TaltWindow(k0, now);
        TimedState(k0, iptr, now);
        UnselectedTimed(k0, due, iptr);
        TimerDistinct(k0);
        TimerFlag(k0);
        ret := FallAsleepUntil(due, now);
      } else {
        AsleepState(k0, iptr, now);
        ret := FallAsleep(now);
      }
    }

    /** ins_disc. */
    method Disc(c: int, on: bool, target: int, now: Word) returns (ret: int)
      requires Stable() && Legal(k, Dis(Chan(c), on, target), now)
      modifies this
      ensures Stable() && k == Step(old(k), Dis(Chan(c), on, target), old(iptr), now) && ret == Status(k)
    {
      hide Inv, MemRep, Legal, Step, Disable, Slots, At;
      ghost var k1 := DisableWell(k, Chan(c), on, target, iptr, now);
      DisableMem(Snapshot(), k, wptr, Chan(c), target);
      DisableRegs(k, Chan(c), target);
      SameMem(Snapshot(), k, Answer(k, false));
      fired := false;
      if on {
        var v := WordAt(chan, c);
        if v == wptr + 1 {
          chan := chan[c := 0];
        } else if v != 0 {
          if F(ws, wptr).temp == NONE_SELECTED {
            ws := Put(ws, wptr, F(ws, wptr).(temp := target));
            fired := true;
          }
        }
      }
      k := k1;
      ret := ECTX_CONTINUE;
    }

    /** ins_diss. */
    method Diss(on: bool, target: int, now: Word) returns (ret: int)
      requires Stable() && Legal(k, Dis(Skip, on, target), now)
      modifies this
      ensures Stable() && k == Step(old(k), Dis(Skip, on, target), old(iptr), now) && ret == Status(k)
    {
      hide Inv, MemRep, Legal, Step, Disable, Slots, At;
      ghost var k1 := DisableWell(k, Skip, on, target, iptr, now);
      DisableMem(Snapshot(), k, wptr, Skip, target);
      DisableRegs(k, Skip, target);
      SameMem(Snapshot(), k, Answer(k, false));
      fired := false;
      if on {
        if F(ws, wptr).temp == NONE_SELECTED {
          ws := Put(ws, wptr, F(ws, wptr).(temp := target));
          fired := true;
        }
      }
      k := k1;
      ret := ECTX_CONTINUE;
    }

    /** A timeout still on the timer queue is taken off it. */
    method DistCancel(t: Word, target: int)
      requires Rep() && Inv(k) && k.cur != 0 && k.cur in k.timq && TimerPending(k, k.cur, Timer(t))
      modifies this
      ensures Rep() && k == Disable(old(k), Timer(t), target) && wptr == old(wptr)
    {
      hide Inv, MemRep, Disable, OwnSlots, TimeAfter, Without, TimerRemove, Distinct, RemoveTime, TimerPending;
      ghost var k0 := k;
      TimerDistinct(k);
      TimerFlag(k);
      DisableRegs(k, Timer(t), target);
      PendingNotReady(k, t);
      InsertRegs(k, k.cur, 0, 0);
      CancelIs(k, t, target);
      TimerQueueRemove(wptr);
      fired := false;
      SameMem(Snapshot(), k, Disable(k0, Timer(t), target));
      k := Disable(k0, Timer(t), target);
    }

    /** ins_dist. */
    method Dist(t: Word, on: bool, target: int, now: Word) returns (ret: int)
      requires Stable() && Legal(k, Dis(Timer(t), on, target), now)
      modifies this
      ensures Stable() && k == Step(old(k), Dis(Timer(t), on, target), old(iptr), now) && ret == Status(k)
    {
      hide Inv, MemRep, Legal, Step, Disable, Slots, At, TimeAfter;
      ghost var k1 := DisableWell(k, Timer(t), on, target, iptr, now);
      DisableRegs(k, Timer(t), target);
      SameMem(Snapshot(), k, Answer(k, false));
      if on { TimerWhere(Snapshot(), k, t, target, now); }
      var hit := false;
      if on {
        var tlink := F(ws, wptr).tlink;
        if tlink == TIME_SET {
          DisableMem(Snapshot(), k, wptr, Timer(t), target);
          if !TimeAfter(t, F(ws, wptr).time) {
            if F(ws, wptr).temp == NONE_SELECTED {
              ws := Put(ws, wptr, F(ws, wptr).(temp := target));
              hit := true;
            }
          }
        } else if tlink != TIME_NOT_SET {
          DistCancel(t, target);
        } else {
          DisableMem(Snapshot(), k, wptr, Timer(t), target);
        }
      }
      fired := hit;
      k := k1;
      ret := ECTX_CONTINUE;
    }

    /** ins_altend. */
    method Altend() returns (ret: int)
      requires Rep() && k.cur != 0
      modifies this`iptr, this`eflags, this`k
      ensures Rep() && k == AltEnd(old(k), old(iptr))
      ensures ret == if Slots(old(k), old(k).cur).temp != NONE_SELECTED then ECTX_CONTINUE else ECTX_ERROR
    {
      hide MemRep, AltEnd, Slots, Or, At;
      AltEndMem(Snapshot(), k, wptr, iptr);
      ghost var k1 := AltEnd(k, iptr);
      var selection := F(ws, wptr).temp;
      if selection != NONE_SELECTED {
        iptr := iptr + selection;
        ret := ECTX_CONTINUE;
      } else {
        eflags := Or(eflags, EFLAG_ALT);
        ret := ECTX_ERROR;
      }
      k := k1;
    }

    // ----- channels

    /** chan_io's last part: the current process stores itself in the channel. */
    method Settle(c: int, ptr: int, dataLen: int, output: bool)
      requires Rep() && k.cur != 0 && Unthreaded(k, k.cur) && k.cur !in k.timq
      modifies this`ws, this`chan, this`k
      ensures Rep() && k == Block(old(k), c, output, ptr, if output then -dataLen else dataLen, iptr)
    {
      hide MemRep, Block, Unthreaded;
      ghost var im, k0, len := Snapshot(), k, if output then -dataLen else dataLen;
      BlockSlots(k, c, output, ptr, len, iptr);
      SlotAt(Snapshot(), k, wptr);
      ws := Put(ws, wptr, F(ws, wptr).(state := ptr, link := dataLen, iptr := iptr));
      chan := chan[c := wptr];
      k := Block(k, c, output, ptr, len, iptr);
      WriteKeeps(im, ws, k0, k, wptr);
    }

    /** chan_io's look at an ALTer: one waiting or enabling becomes ready. */
    method Notice(other: int) returns (state: int, ok: bool)
      requires Rep() && (At(k, other) == AltWait || Slots(k, other).state != WAITING)
      modifies this`ws, this`eflags, this`k
      ensures Rep() && state == Slots(old(k), other).state &&
              ok == (state == WAITING || state == ENABLING || state == READY)
      ensures k == if ok then Wake(old(k), other) else SetError(old(k), EFLAG_CHAN)
    {
      hide MemRep, Wake, SetError, Slots;
      ghost var im, k0 := Snapshot(), k;
      SlotAt(Snapshot(), k, other);
      WakeSlots(k, other);
      state := F(ws, other).state;
      ok := true;
      if state == WAITING || state == ENABLING {
        ws := Put(ws, other, F(ws, other).(state := READY));
      } else if state != READY {
        eflags := Or(eflags, EFLAG_CHAN);
        ErrorMem(Snapshot(), k, EFLAG_CHAN);
        k := SetError(k, EFLAG_CHAN);
        return state, false;
      }
      WriteKeeps(im, ws, k0, Wake(k, other), other);
      k := Wake(k, other);
    }

    /** chan_io: data moves if a process is blocked in the channel; otherwise the current process stores itself there,
     noticing an ALTer. */
    method ChanIo(c: int, ptr: int, dataLen: int, output: bool) returns (ret: int, requeue: int)
      requires Valid() && Plain(k)
      modifies this`ws, this`chan, this`mem, this`eflags, this`k
      ensures Rep() && ChanDone(old(k), k, c, output, ptr, if output then -dataLen else dataLen, iptr, ret, requeue)
      ensures ret == ECTX_CONTINUE ==> ws == old(ws)
    {
      hide Inv, MemRep, Unthreaded, Block, Wake, Moved, Nothing, Leave, Arrive, Park, SetError, Slots, F, At, Info,
           IsProcess, Plain, Copy, Zero;
      ghost var k0, len := k, if output then -dataLen else dataLen;
      PlainUnthreaded(k);
      WordKinds(k, c);
      WakeFirst(k, c, output, ptr, len, iptr);
      var v := WordAt(chan, c);
      var other := Untag(v);
      requeue := v;
      if v != 0 {
        if v % 2 == 0 {
          SlotAt(Snapshot(), k, other);
          chan := chan[c := 0];
          mem := if output then Copy(mem, F(ws, other).state, ptr, -dataLen)
            else Copy(mem, ptr, F(ws, other).state, dataLen);
          MoveMem(Snapshot(), k, c, other, output, ptr, len);
          k := Leave(Moved(k, c, other, output, ptr, len), c);
          return ECTX_CONTINUE, requeue;
        } else if other != 0 {
          TaggedPlace(k, c);
          WakeQueues(k, other);
          var state, ok := Notice(other);
          if state != WAITING { requeue := 0; }
          if !ok { return ECTX_ERROR, requeue; }
          SameUnthreaded(k0, k, k0.cur);
        } else {
          mem := if output then mem else Zero(mem, ptr, dataLen);
          NothingMem(Snapshot(), k, output, ptr, len);
          k := Nothing(k, output, ptr, len);
          return ECTX_CONTINUE, requeue;
        }
      }
      Settle(c, ptr, dataLen, output);
      return ECTX_DESCHEDULE, requeue;
    }

    /** DESCHEDULE_CURRENT. */
    method DescheduleCurrent(ghost now: Word)
      requires Valid() && Plain(k) && HalfRange(k, k.timq, {now})
      modifies this`ws, this`fptr, this`bptr, this`wptr, this`k
      ensures Valid() && wptr == 0 && k == Enqueue(Park(old(k), iptr), old(k).cur) && HalfRange(k, k.timq, {now}) &&
              k.cur == 0
    {
      hide Inv, MemRep, HalfRange, Park, Enqueue, MayQueue, Unthreaded;
      Parked(k, iptr, now);
      RequeueKeeps(k, iptr, now);
      SaveContext();
      AddToQueue(wptr);
      wptr := 0;
    }

    /** chan_std_io. */
    method ChanStdIo(c: int, ptr: int, dataLen: int, output: bool, now: Word) returns (ret: int)
      requires Valid() && Plain(k) && HalfRange(k, k.timq, {now}) && MayMeet(k, c, output)
      modifies this
      ensures Rep() && k == StdIo(old(k), c, output, ptr, if output then -dataLen else dataLen, old(iptr), now) &&
              wptr == k.cur && ret == Status(k)
    {
      hide Inv, MemRep, HalfRange, Park, Enqueue, MayQueue, Unthreaded, Moved, Nothing, Leave, Arrive, Load, RunNext,
           SetError, Slots, MayMeet;
      ghost var k0, len := k, if output then -dataLen else dataLen;
      var done, requeue := ChanIo(c, ptr, dataLen, output);
      if done > 0 {
        TaggedElsewhere(k0, c);
        assert false;
      }
      WordKinds(k0, c);
      AfterChan(k0, k, c, output, ptr, len, iptr, done, requeue, now);
      if done == ECTX_CONTINUE && requeue != 0 {
        DescheduleCurrent(now);
      }
      requeue := Untag(requeue);
      if requeue != 0 {
        LoadProcess(requeue);
        ret := ECTX_CONTINUE;
      } else {
        ret := RunNextOnQueue(now);
      }
    }

    /** chan_out. */
    method ChanOut(c: int, ptr: int, len: int, now: Word) returns (ret: int)
      requires Stable() && Legal(k, OutOp(c, ptr, len), now)
      modifies this
      ensures Stable() && k == Step(old(k), OutOp(c, ptr, len), old(iptr), now) && ret == Status(k)
    {
      hide Inv, MemRep, HalfRange, Out, StdIo, Say, NoAltOn;
      StepKeeps(k, OutOp(c, ptr, len), iptr, now);
      LegalNow(k, OutOp(c, ptr, len), now);
      OutIs(k, c, ptr, len, iptr, now);
      if ChanWord(k, c) != 1 {
        SayMem(Snapshot(), k, c, ptr, len, now);
        k := Say(k, c, ptr, len);
      }
      ret := ChanStdIo(c, ptr, -len, true, now);
    }

    /** chan_in. */
    method ChanIn(c: int, ptr: int, len: int, now: Word) returns (ret: int)
      requires Stable() && Legal(k, InOp(c, ptr, len), now)
      modifies this
      ensures Stable() && k == Step(old(k), InOp(c, ptr, len), old(iptr), now) && ret == Status(k)
    {
      hide Inv, MemRep, HalfRange, In, StdIo, NoAltOn;
      StepKeeps(k, InOp(c, ptr, len), iptr, now);
      LegalNow(k, InOp(c, ptr, len), now);
      InIs(k, c, ptr, len, iptr, now);
      ret := ChanStdIo(c, ptr, len, false, now);
    }

    /** ins_xable. */
    method Xable(c: int, now: Word) returns (ret: int)
      requires Stable() && Legal(k, XAbleOp(c), now)
      modifies this
      ensures Stable() && k == Step(old(k), XAbleOp(c), old(iptr), now) && ret == Status(k)
    {
      hide Inv, MemRep, HalfRange, RunNext, AwaitChannel, Park, Slots, NoAltOn, Step, Legal, F, Put, At;
      XAbleWell(k, c, iptr, now);
      if WordAt(chan, c) == 0 {
        ghost var im, k0 := Snapshot(), k;
        PlainUnthreaded(k);
        AwaitReady(k, c, iptr, now);
        AwaitSlots(k, c, iptr);
        SlotAt(Snapshot(), k, wptr);
        ws := Put(ws, wptr, F(ws, wptr).(state := WAITING, link := c, iptr := iptr));
        chan := chan[c := wptr + 1];
        k := AwaitChannel(Park(k, iptr), k.cur, c);
        WriteKeeps(im, ws, k0, k, wptr);
        ret := RunNextOnQueue(now);
        return;
      }
      ret := ECTX_CONTINUE;
    }

    /** ins_xin. */
    method Xin(c: int, ptr: int, len: int, now: Word) returns (ret: int)
      requires Stable() && Legal(k, XInOp(c, ptr, len), now)
      modifies this
      ensures Stable() && k == Step(old(k), XInOp(c, ptr, len), old(iptr), now) && ret == Status(k)
    {
      hide Inv, MemRep, HalfRange, XIn, MayXIn, Moved, Nothing, RunNext, Park, Enqueue, Slots, NoAltOn, EndAlt,
           SetTaken, Leave, Arrive, Step, Legal, F, At;
      XInWell(k, c, ptr, len, iptr, now);
      ghost var k0 := k;
      XInCases(k, c);
      XInIs(k, c, ptr, len, iptr, now);
      EndExtended(k, c);
      XInStart(k, c, {now});
      EndAltMem(Snapshot(), k);
      k := EndAlt(k, k.cur);
      ghost var k1, v := k, ChanWord(k, c);
      var done, requeue := ChanIo(c, ptr, len, false);
      if done != ECTX_CONTINUE {
        assert false;
      } else if requeue == 1 {
        NothingReady(k1, false, ptr, len, now);
        RequeueKeeps(k, iptr, now);
        DescheduleCurrent(now);
        ret := RunNextOnQueue(now);
      } else {
        chan := chan[c := requeue];
        MovedRegs(k1, c, v, false, ptr, len);
        LeaveSlots(Moved(k1, c, v, false, ptr, len), c);
        RestoredMem(Snapshot(), k1, c, v, ptr, len, k0.env.ext + {c});
        k := SetTaken(Moved(k1, c, v, false, ptr, len), k0.env.ext + {c});
        ret := ECTX_CONTINUE;
      }
    }

    /** ins_xend. */
    method Xend(c: int, now: Word) returns (ret: int)
      requires Stable() && Legal(k, XEndOp(c), now)
      modifies this
      ensures Stable() && k == Step(old(k), XEndOp(c), old(iptr), now) && ret == Status(k)
    {
      hide Inv, MemRep, Leave, Enqueue, MayQueue, NoAltOn, Slots, SetTaken, Step, Legal, F, At;
      XEndWell(k, c, iptr, now);
      ghost var k0 := k;
      var v := WordAt(chan, c);
      if v != 1 {
        chan := chan[c := 0];
        LeaveMem(Snapshot(), k, c);
        LeaveKeeps(k, c);
        k := Leave(k, c);
        HaltedMayQueue(k, v);
        EnqueueRegs(k, v);
        AddToQueue(Untag(v));
        TakenMem(Snapshot(), k, k0.env.ext - {c});
        k := SetTaken(k, k0.env.ext - {c});
      }
      ret := ECTX_CONTINUE;
    }

    // ----- timer input

    /** ins_tin. */
    method TimerInput(t: Word, now: Word) returns (ret: int)
      requires Stable() && Legal(k, TinOp(t), now)
      modifies this
      ensures Stable() && k == Step(old(k), TinOp(t), old(iptr), now) && ret == Status(k)
    {
      hide Inv, MemRep, HalfRange, Park, AwaitTime, RunNext, TimeAfter, MayQueue, Unthreaded;
      StepKeeps(k, TinOp(t), iptr, now);
      LegalNow(k, TinOp(t), now);
      if TimeAfter(now, t) {
        return ECTX_CONTINUE;
      }
      TinWindow(k, t, now);
      TinReady(k, t, iptr, now);
      Parked(k, iptr, now);
      PlainDetached(k);
      ParkSlots(k, iptr);
      SaveContext();
      TimerEntry(wptr, t);
      ret := RunNextOnQueue(now);
    }

    /** A process whose context is saved goes on the timer queue. */
    method TimerEntry(p: int, t: Word)
      requires Valid() && wptr == p && p != 0 && At(k, p) == Halted && p !in k.alts
      modifies this`ws, this`tptr, this`tnext, this`tq, this`k
      ensures Rep() && k == AwaitTime(old(k), p, t, iptr)
    {
      hide Inv, MemRep, AwaitTime, TimerInsert, SetWs, Distinct, F, Put, Slots, At;
      ghost var im, k0 := Snapshot(), k;
      TimerDistinct(k);
      TimerFlag(k);
      NotOnTimer(k, p);
      DueNoted(k, p, t, iptr);
      AwaitLast(k, p, t, iptr);
      SlotAt(Snapshot(), k, p);
      ws := Put(ws, wptr, F(ws, wptr).(time := t));
      NotedSlots(k, p, Slots(k, p).(time := t));
      k := SetWs(k, p, Slots(k, p).(time := t));
      WriteKeeps(im, ws, k0, k, p);
      InsertRegs(k, p, t, iptr);
      TimerQueueInsert(p, t);
      ghost var im1, k1 := Snapshot(), k;
      SlotAt(Snapshot(), k, p);
      ws := Put(ws, wptr, F(ws, wptr).(state := 0));
      k := AwaitTime(k0, p, t, iptr);
      WriteKeeps(im1, ws, k1, k, p);
    }

    // ----- semaphores

    /** tvm_sem_claim. */
    method Claim(s: int, now: Word) returns (ret: int)
      requires Stable() && Legal(k, ClaimOp(s), now)
      modifies this
      ensures Stable() && k == Step(old(k), ClaimOp(s), old(iptr), now) && ret == Status(k)
    {
      hide Inv, MemRep, HalfRange, Park, RunNext, JoinSem, SetSem, MayQueue, Unthreaded;
      StepKeeps(k, ClaimOp(s), iptr, now);
      LegalNow(k, ClaimOp(s), now);
      FreeFront(Snapshot(), k, s);
      var front := SemAt(sem, s).front;
      if front == 1 {
        SemSetMem(Snapshot(), k, s, Claimed([]));
        sem := sem[s := SemAt(sem, s).(front := 0)];
        k := SetSem(k, s, Claimed([]));
        ret := ECTX_CONTINUE;
      } else {
        Parked(k, iptr, now);
        SemReady(k, s, iptr, now);
        SemJoin(s);
        ret := RunNextOnQueue(now);
      }
    }

    /** The current process joins a semaphore's queue. */
    method SemJoin(s: int)
      requires Valid() && Plain(k) && Inv(Park(k, iptr)) && SemOf(k, s).Claimed?
      modifies this`ws, this`sem, this`k
      ensures Rep() && k == JoinSem(Park(old(k), iptr), old(k).cur, s)
    {
      hide Inv, MemRep, JoinSem, Park, F, At, Slots, SetLink;
      PlainDetached(k);
      ParkSlots(k, iptr);
      JoinSemSlots(Park(k, iptr), k.cur, s);
      ParkSemOf(k, iptr, s);
      ghost var p := k.cur;
      SaveContext();
      SemJoinMem(Snapshot(), k, p, s);
      var m := SemAt(sem, s);
      ws := SetLink(ws, wptr, 0);
      if m.front == 0 {
        sem := sem[s := SemWords(wptr, wptr)];
      } else {
        ws := SetLink(ws, m.back, wptr);
        sem := sem[s := SemWords(m.front, wptr)];
      }
      k := JoinSem(k, p, s);
    }

    /** tvm_sem_release. */
    method Release(s: int, now: Word) returns (ret: int)
      requires Stable() && Legal(k, ReleaseOp(s), now)
      modifies this
      ensures Stable() && k == Step(old(k), ReleaseOp(s), old(iptr), now) && ret == Status(k)
    {
      hide Inv, MemRep, HalfRange, Enqueue, LeaveSem, SetSem, MayQueue, Slots, F, At, Info, SemQueue, ChanWord;
      StepKeeps(k, ReleaseOp(s), iptr, now);
      LegalNow(k, ReleaseOp(s), now);
      SemLeaveMem(Snapshot(), k, s);
      var front := SemAt(sem, s).front;
      if front == 0 {
        SemSetMem(Snapshot(), k, s, Free);
        sem := sem[s := SemAt(sem, s).(front := 1)];
        k := SetSem(k, s, Free);
      } else {
        LeaveSemKeeps(k, s);
        LeaveSemSlots(k, s);
        sem := sem[s := SemAt(sem, s).(front := F(ws, front).link)];
        k := LeaveSem(k, s);
        HaltedMayQueue(k, front);
        EnqueueRegs(k, front);
        AddToQueue(front);
      }
      ret := ECTX_CONTINUE;
    }

    // ----- barriers

    /** SET_ERROR_FLAG. */
    method SetErrorFlag(flag: nat)
      requires Valid()
      modifies this`eflags, this`k
      ensures Valid() && k == SetError(old(k), flag)
    {
      hide Inv, MemRep, Or;
      ErrorKeeps(k, flag);
      ErrorMem(Snapshot(), k, flag);
      eflags := Or(eflags, flag);
      k := SetError(k, flag);
    }

    /** add_queue_to_queue; the link of the last process is made null. */
    method AddQueueToQueue(front: int, back: int, ghost q: seq<int>, ghost r: seq<int>)
      requires Queue(ws, fptr, bptr, q) && Chain(ws, front, back, r) && Distinct(q + r)
      modifies this`ws, this`fptr, this`bptr
      ensures Queue(ws, fptr, bptr, q + r)
      ensures forall x ::
              F(ws, x) == F(old(ws), x).(link := F(ws, x).link) && (x !in q && x !in r ==> F(ws, x) == F(old(ws), x))
    {
      QueueJoin(ws, fptr, bptr, q, front, back, r);
      ws := SetLink(ws, back, 0);
      assert back in r;
      assert q != [] ==> q[0] in q && bptr in q;
      assert q != [] ==> fptr == q[0] && (q + r)[0] == q[0];
      if fptr == 0 {
        fptr := front;
        bptr := back;
      } else {
        ws := SetLink(ws, bptr, front);
        bptr := back;
      }
    }

    /** tvm_bar_complete, for the enrolment the barrier's word holds; the other words are those of bar0. */
    method Complete(b: int, ghost bar0: map<int, BarWords>, ghost e: Word)
      requires Inv(k) && Regs() && MemRep(Snapshot().(bar := bar0), k)
      requires (bar == bar0 || bar == bar0[b := BarAt(bar, b)]) && BarAt(bar, b) == BarAt(bar0, b).(enrolled := e)
      modifies this`ws, this`fptr, this`bptr, this`bar, this`k
      ensures Rep() && k == BarComplete(old(k), b, e)
    {
      hide Inv, MemRep, BarComplete, Queue, Distinct, BarOf;
      ghost var im := Snapshot().(bar := bar0);
      BarWordsOf(im, k, b);
      CompleteSlots(k, b, e);
      var m := BarAt(bar, b);
      bar := bar[b := BarWords(m.enrolled, m.enrolled, 0, 0)];
      assert bar == bar0[b := BarWords(e, e, 0, 0)];
      if m.front != 0 {
        AddQueueToQueue(m.front, m.back, k.runq, BarOf(k, b).queue);
      } else {
        assert k.runq + BarOf(k, b).queue == k.runq;
      }
      SpliceMem(im, ws, fptr, bptr, k, b, e);
      k := BarComplete(k, b, e);
    }

    /** The current process joins a barrier's queue. */
    method BarJoin(b: int)
      requires Valid() && Plain(k) && Inv(Park(k, iptr))
      modifies this`ws, this`bar, this`k
      ensures Rep() && k == JoinBar(Park(old(k), iptr), old(k).cur, b)
    {
      hide Inv, MemRep, JoinBar, Park, F, At, Slots, SetLink, Wrap, ChanWord;
      PlainDetached(k);
      ParkSlots(k, iptr);
      JoinBarSlots(Park(k, iptr), k.cur, b);
      ghost var p := k.cur;
      SaveContext();
      BarJoinMem(Snapshot(), k, p, b);
      var m := BarAt(bar, b);
      ws := SetLink(ws, wptr, m.back);
      if m.back != 0 {
        ws := SetLink(ws, m.back, wptr);
      }
      bar := bar[b := BarWords(m.enrolled, Wrap(m.count - 1), if m.back == 0 then wptr else m.front, wptr)];
      k := JoinBar(k, p, b);
    }

    /** tvm_bar_sync. */
    method Synch(b: int, now: Word) returns (ret: int)
      requires Stable() && Legal(k, SyncOp(b), now)
      modifies this
      ensures Stable() && k == Step(old(k), SyncOp(b), old(iptr), now) && ret == Status(k)
    {
      hide Inv, MemRep, HalfRange, Park, RunNext, JoinBar, BarComplete, MayQueue, Unthreaded, BarOf, Queue, Distinct,
           Linked, F, At, Slots, ChanWord, SemOf, Info, WordAt;
      StepKeeps(k, SyncOp(b), iptr, now);
      LegalNow(k, SyncOp(b), now);
      BarWordsOf(Snapshot(), k, b);
      if BarAt(bar, b).count > 1 {
        Parked(k, iptr, now);
        BarReady(k, b, iptr, now);
        BarJoin(b);
        ret := RunNextOnQueue(now);
      } else {
        CompleteSlots(k, b, BarOf(k, b).enrolled);
        Complete(b, bar, BarOf(k, b).enrolled);
        ret := ECTX_CONTINUE;
      }
    }

    /** tvm_bar_enroll; a count that would overflow is an error, and the barrier stays as it is. */
    method EnrollWords(b: int, n: Word) returns (ret: int)
      requires Valid()
      modifies this`bar, this`eflags, this`k
      ensures Rep() && k == BarEnroll(old(k), b, n)
      ensures ret == if BarOf(old(k), b).enrolled + n >= WORD_MOD then ECTX_ERROR else ECTX_CONTINUE
      ensures ret == ECTX_ERROR ==> bar == old(bar) && k == SetError(old(k), EFLAG_BAR)
    {
      hide Inv, MemRep, Queue, Distinct, Linked, SetBar, BarEnroll, SetError, BarOf, Slots, At;
      BarWordsOf(Snapshot(), k, b);
      EnrollIs(k, b, n);
      var m := BarAt(bar, b);
      Overflow(m.enrolled, n);
      if Wrap(m.enrolled + n) < m.enrolled {
        SetErrorFlag(EFLAG_BAR);
        return ECTX_ERROR;
      }
      BarCountMem(Snapshot(), k, b, m.enrolled + n, Wrap(m.count + n));
      ghost var k1 := BarEnroll(k, b, n);
      bar := bar[b := m.(enrolled := Wrap(m.enrolled + n))];
      bar := bar[b := BarAt(bar, b).(count := Wrap(m.count + n))];
      assert bar == old(bar)[b := m.(enrolled := m.enrolled + n, count := Wrap(m.count + n))];
      k := k1;
      ret := ECTX_CONTINUE;
    }

    /** tvm_bar_resign; resigning more than are enrolled or awaited is an error, and the barrier stays as it is. */
    method ResignWords(b: int, n: Word) returns (ret: int)
      requires Valid()
      modifies this`ws, this`fptr, this`bptr, this`bar, this`eflags, this`k
      ensures Rep() && k == BarResign(old(k), b, n)
      ensures ret == if n > BarOf(old(k), b).enrolled || n > BarOf(old(k), b).count then ECTX_ERROR else ECTX_CONTINUE
      ensures ret == ECTX_ERROR ==>
                k == SetError(old(k), EFLAG_BAR) && bar == old(bar) && ws == old(ws) && fptr == old(fptr) &&
                bptr == old(bptr)
    {
      hide Inv, MemRep, Queue, Distinct, Linked, SetBar, BarComplete, BarResign, SetError, BarOf, F, At, Slots;
      BarWordsOf(Snapshot(), k, b);
      ResignIs(k, b, n);
      var m := BarAt(bar, b);
      if n > m.enrolled || n > m.count {
        SetErrorFlag(EFLAG_BAR);
        return ECTX_ERROR;
      }
      ret := ECTX_CONTINUE;
      var count := m.count - n;
      ghost var bar0 := bar;
      bar := bar[b := m.(enrolled := m.enrolled - n)];
      if count >= 1 {
        BarCountMem(Snapshot().(bar := bar0), k, b, m.enrolled - n, count);
        ghost var k1 := BarResign(k, b, n);
        bar := bar[b := BarAt(bar, b).(count := count)];
        assert bar == bar0[b := m.(enrolled := m.enrolled - n, count := count)];
        k := k1;
      } else {
        CompleteSlots(k, b, m.enrolled - n);
        Complete(b, bar0, m.enrolled - n);
      }
    }

    /** The barrier enrolments of a well-formed program. */
    method Enroll(b: int, n: Word, now: Word) returns (ret: int)
      requires Stable() && Legal(k, EnrollOp(b, n), now)
      modifies this
      ensures Stable() && k == Step(old(k), EnrollOp(b, n), old(iptr), now) && ret == Status(k)
    {
      hide Inv, MemRep, HalfRange, BarEnroll;
      StepKeeps(k, EnrollOp(b, n), iptr, now);
      CountCur(k, b, n);
      ret := EnrollWords(b, n);
    }

    /** The barrier resignations of a well-formed program. */
    method Resign(b: int, n: Word, now: Word) returns (ret: int)
      requires Stable() && Legal(k, ResignOp(b, n), now)
      modifies this
      ensures Stable() && k == Step(old(k), ResignOp(b, n), old(iptr), now) && ret == Status(k)
    {
      hide Inv, MemRep, HalfRange, BarResign;
      StepKeeps(k, ResignOp(b, n), iptr, now);
      CountCur(k, b, n);
      ret := ResignWords(b, n);
    }

    // ----- everything else

    /** A store of the address to go on at, in the first word of the current process. */
    method StoreReturn(at: int, now: Word) returns (ret: int)
      requires Stable() && Legal(k, ReturnOp(at), now)
      modifies this
      ensures Stable() && k == Step(old(k), ReturnOp(at), old(iptr), now) && ret == Status(k)
    {
      hide Inv, MemRep, HalfRange, SetReturn, Slots;
      StepKeeps(k, ReturnOp(at), iptr, now);
      PlainDetached(k);
      ReturnEffect(k, at);
      SlotAt(Snapshot(), k, wptr);
      ghost var im, k1 := Snapshot(), SetReturn(k, at);
      ws := Put(ws, wptr, F(ws, wptr).(temp := at));
      OwnMem(im, ws, k, k1, wptr);
      k := k1;
      ret := ECTX_CONTINUE;
    }

    /** A store of a PAR's process count. */
    method StoreCount(par: int, n: int, now: Word) returns (ret: int)
      requires Stable() && Legal(k, CountOp(par, n), now)
      modifies this
      ensures Stable() && k == Step(old(k), CountOp(par, n), old(iptr), now) && ret == Status(k)
    {
      hide Inv, MemRep, HalfRange;
      StepKeeps(k, CountOp(par, n), iptr, now);
      SameMem(Snapshot(), k, SetJoin(k, par, n));
      joins := joins[par := n];
      k := SetJoin(k, par, n);
      ret := ECTX_CONTINUE;
    }

    /** A computation that only writes data memory. */
    method Calculate(image: map<int, int>, now: Word) returns (ret: int)
      requires Stable() && Legal(k, Compute(image), now)
      modifies this
      ensures Stable() && k == Step(old(k), Compute(image), old(iptr), now) && ret == Status(k)
    {
      hide Inv, MemRep, HalfRange;
      StepKeeps(k, Compute(image), iptr, now);
      SameMem(Snapshot(), k, SetMem(k, image));
      mem := image;
      k := SetMem(k, image);
      ret := ECTX_CONTINUE;
    }

    /** The machine, asleep or out of work, looks for something to run. */
    method Look(now: Word) returns (ret: int)
      requires Stable() && Legal(k, Idle, now)
      modifies this
      ensures Stable() && k == Step(old(k), Idle, old(iptr), now) && ret == Status(k)
    {
      hide Inv, MemRep, HalfRange, RunNext;
      StepKeeps(k, Idle, iptr, now);
      LegalNow(k, Idle, now);
      ret := RunNextOnQueue(now);
    }

    /** The end of a well-formed ALT. */
    method Finish(now: Word) returns (ret: int)
      requires Stable() && Legal(k, AltEndOp, now)
      modifies this
      ensures Stable() && k == Step(old(k), AltEndOp, old(iptr), now) && ret == Status(k)
    {
      hide Inv, MemRep, HalfRange, AltEnd, Slots, OwnSlots;
      StepKeeps(k, AltEndOp, iptr, now);
      AltEndsWell(k, iptr);
      AltEndIs(k, iptr);
      ret := Altend();
    }

    /** The instruction pointer moves past the next instruction. */
    method Advance(t: Tick)
      requires Stable()
      modifies this`iptr, this`k
      ensures Stable() && k == Fetch(old(k), t) && iptr == t.iptr
    {
      hide Inv, MemRep;
      FetchKeeps(k, t);
      SameMem(Snapshot(), k, Fetch(k, t));
      iptr := t.iptr;
      k := Fetch(k, t);
    }

    method EnableGuard(g: Guard, on: bool, now: Word) returns (ret: int)
      requires Stable() && Legal(k, Enb(g, on), now)
      modifies this
      ensures Stable() && k == Step(old(k), Enb(g, on), old(iptr), now) && ret == Status(k)
    {
      hide Legal, Step, Inv, MemRep, Valid;
      match g
      case Chan(c) => ret := Enbc(c, on, now);
      case Skip => ret := Enbs(on, now);
      case Timer(t) => ret := Enbt(t, on, now);
    }

    method DisableGuard(g: Guard, on: bool, target: int, now: Word) returns (ret: int)
      requires Stable() && Legal(k, Dis(g, on, target), now)
      modifies this
      ensures Stable() && k == Step(old(k), Dis(g, on, target), old(iptr), now) && ret == Status(k)
    {
      hide Legal, Step, Inv, MemRep, Valid;
      match g
      case Chan(c) => ret := Disc(c, on, target, now);
      case Skip => ret := Diss(on, target, now);
      case Timer(t) => ret := Dist(t, on, target, now);
    }

    /** Dispatch on the instruction. */
    method Execute(op: Op, now: Word) returns (ret: int)
      requires Stable() && Legal(k, op, now)
      modifies this
      ensures Stable() && k == Step(old(k), op, old(iptr), now) && ret == Status(k)
    {
      hide Legal, Step, Inv, MemRep, Valid;
      match op
      case StartOp(p, at) => ret := Startp(p, at, now);
      case StopOp => ret := Stopp(now);
      case RunOp(p) => ret := Runp(p, now);
      case EndOp(par) => ret := Endp(par, now);
      case AdjustOp(p) => ret := Gajw(p, now);
      case AltOp(timed) => if timed { ret := Talt(now); } else { ret := Alt(now); }
      case Enb(g, on) => ret := EnableGuard(g, on, now);
      case AltWtOp => ret := Altwt(now);
      case TaltWtOp => ret := Taltwt(now);
      case Dis(g, on, target) => ret := DisableGuard(g, on, target, now);
      case AltEndOp => ret := Finish(now);
      case OutOp(c, ptr, len) => ret := ChanOut(c, ptr, len, now);
      case InOp(c, ptr, len) => ret := ChanIn(c, ptr, len, now);
      case XAbleOp(c) => ret := Xable(c, now);
      case XInOp(c, ptr, len) => ret := Xin(c, ptr, len, now);
      case XEndOp(c) => ret := Xend(c, now);
      case TinOp(t) => ret := TimerInput(t, now);
      case ClaimOp(s) => ret := Claim(s, now);
      case ReleaseOp(s) => ret := Release(s, now);
      case SyncOp(b) => ret := Synch(b, now);
      case EnrollOp(b, n) => ret := Enroll(b, n, now);
      case ResignOp(b, n) => ret := Resign(b, n, now);
      case CountOp(par, n) => ret := StoreCount(par, n, now);
      case ReturnOp(at) => ret := StoreReturn(at, now);
      case Compute(image) => ret := Calculate(image, now);
      case Idle => ret := Look(now);
    }

    /** Any sequence of instructions does to the words what the abstract run does to the abstract state. */
    method Interpret(ticks: seq<Tick>)
      requires Stable() && LegalRun(k, ticks)
      modifies this
      ensures Stable() && k == Run(old(k), ticks)
    {
      hide Legal, Step, Inv, MemRep, Stable, Fetch;
      var n := 0;
      assert ticks[0..] == ticks;
      while n < |ticks|
        invariant n <= |ticks| && Stable() && LegalRun(k, ticks[n..]) && Run(k, ticks[n..]) == Run(old(k), ticks)
      {
        assert ticks[n..][1..] == ticks[n + 1..];
        Advance(ticks[n]);
        var ret := Execute(ticks[n].op, ticks[n].now);
        n := n + 1;
      }
    }
  }
}
