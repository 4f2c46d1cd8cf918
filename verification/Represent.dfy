/** How the words of memory represent the state of the kernel, and which writes keep that so. */
module Represent {
  import opened Words
  import opened Kernel
  import opened KernelInv
  import opened KernelRuns
  import opened KernelEffects
  import opened Links

  datatype SemWords = SemWords(front: int, back: int)

  datatype BarWords = BarWords(enrolled: Word, count: Word, front: int, back: int)

  function SemAt(sem: map<int, SemWords>, s: int): SemWords {
    if s in sem then sem[s] else SemWords(1, 0)
  }

  function BarAt(bar: map<int, BarWords>, b: int): BarWords {
    if b in bar then bar[b] else BarWords(0, 0, 0, 0)
  }

  /** A free semaphore has front 1, a held one with nobody waiting front 0. */
  ghost predicate SemRep(ws: map<int, Frame>, m: SemWords, sem: Sem) {
    match sem
    case Free => m.front == 1
    case Claimed(q) => Queue(ws, m.front, m.back, q)
  }

  /** The link of the last process on a barrier is not null but never looked at. */
  ghost predicate BarRep(ws: map<int, Frame>, m: BarWords, bar: Bar) {
    && m.enrolled == bar.enrolled && m.count == bar.count
    && if bar.queue == [] then m.front == 0 && m.back == 0 else Chain(ws, m.front, m.back, bar.queue)
  }

  ghost predicate QueuesRep(ws: map<int, Frame>, sem: map<int, SemWords>, bar: map<int, BarWords>, k: K) {
    && (forall s :: SemRep(ws, SemAt(sem, s), SemOf(k, s)))
    && (forall b :: BarRep(ws, BarAt(bar, b), BarOf(k, b)))
  }

  /** A frame holds a process's slots; the link slot only while it blocks on a channel, the timer link only off the
   timer queue. */
  ghost predicate SlotRep(f: Frame, w: Ws, timed: bool, onChannel: bool) {
    && f.temp == w.temp && f.iptr == w.iptr && f.state == w.state && f.time == w.time
    && (!timed ==> f.tlink == w.tlink) && (onChannel ==> f.link == w.len)
  }

  ghost predicate SlotsRep(ws: map<int, Frame>, k: K) {
    forall p {:trigger F(ws, p)} {:trigger Slots(k, p)} ::
      SlotRep(F(ws, p), Slots(k, p), p in k.timq, OnChannel(At(k, p)))
  }

  /** Links change only off the queues. */
  lemma QueuesStay(ws: map<int, Frame>, ws': map<int, Frame>, sem: map<int, SemWords>, bar: map<int, BarWords>, k: K,
                   k': K)
    requires QueuesRep(ws, sem, bar, k) && k'.sem == k.sem && k'.bar == k.bar
    requires forall x :: F(ws', x).link != F(ws, x).link ==>
             (forall s :: x !in SemQueue(k, s)) && (forall b :: x !in BarOf(k, b).queue)
    ensures QueuesRep(ws', sem, bar, k')
  {
    forall s ensures SemRep(ws', SemAt(sem, s), SemOf(k', s)) {
      assert SemRep(ws, SemAt(sem, s), SemOf(k, s));
      assert SemOf(k', s) == SemOf(k, s);
      if SemOf(k, s).Claimed? {
        assert SemOf(k, s).queue == SemQueue(k, s);
        QueueFrame(ws, ws', SemAt(sem, s).front, SemAt(sem, s).back, SemQueue(k, s));
      }
    }
    forall b ensures BarRep(ws', BarAt(bar, b), BarOf(k', b)) {
      assert BarRep(ws, BarAt(bar, b), BarOf(k, b));
      assert BarOf(k', b) == BarOf(k, b);
      if BarOf(k, b).queue != [] {
        ChainFrame(ws, ws', BarAt(bar, b).front, BarAt(bar, b).back, BarOf(k, b).queue);
      }
    }
  }

  /** Processes on the run queue are distinct, and on no other queue. */
  lemma RunDistinct(k: K)
    requires Inv(k)
    ensures Distinct(k.runq)
    ensures forall x :: x in k.runq ==>
            At(k, x) == Queued && (forall s :: x !in SemQueue(k, s)) && (forall b :: x !in BarOf(k, b).queue)
  {
    forall i | 0 <= i < |k.runq| ensures k.runq[i] != 0 {
      assert k.runq[i] in k.runq;
    }
    forall x | x in k.runq
      ensures x != 0 && (forall s :: x !in SemQueue(k, s)) && (forall b :: x !in BarOf(k, b).queue) {
      Nowhere(k, x);
      assert At(k, x) == Queued;
    }
  }

  lemma TimerDistinct(k: K)
    requires Inv(k)
    ensures Distinct(k.timq)
  {
    forall i | 0 <= i < |k.timq| ensures k.timq[i] != 0 {
      assert k.timq[i] in k.timq && OnTimer(k, k.timq[i]);
    }
  }

  /** The queue registers and the words of memory, as a program finds them. */
  datatype Image = Image(ws: map<int, Frame>, fptr: int, bptr: int, tptr: int, tnext: Word, sem: map<int, SemWords>,
                         bar: map<int, BarWords>)

  /** The words of memory and the queue registers represent the queues, slots and synchronisation words of k. */
  ghost predicate MemRep(im: Image, k: K) {
    && SlotsRep(im.ws, k) && Queue(im.ws, im.fptr, im.bptr, k.runq)
    && Timed(im.ws, im.tptr, k.timq) && (k.timq != [] ==> im.tnext == Slots(k, k.timq[0]).time)
    && QueuesRep(im.ws, im.sem, im.bar, k)
  }

  /** One workspace is written; its link only if it is threaded on no queue. */
  lemma WriteKeeps(im: Image, ws': map<int, Frame>, k: K, k': K, p: int)
    requires MemRep(im, k) && SameQueues(k, k')
    requires forall x :: x != p ==>
             F(ws', x) == F(im.ws, x) && Slots(k', x) == Slots(k, x) && (OnChannel(At(k', x)) ==> OnChannel(At(k, x)))
    requires SlotRep(F(ws', p), Slots(k', p), p in k.timq, OnChannel(At(k', p)))
    requires F(ws', p).link != F(im.ws, p).link ==> Unthreaded(k, p)
    requires p in k.timq ==> F(ws', p).tlink == F(im.ws, p).tlink && Slots(k', p).time == Slots(k, p).time
    ensures MemRep(im.(ws := ws'), k')
  {
    hide QueuesRep, Queue, Timed, F, Slots, At;
    forall x ensures SlotRep(F(ws', x), Slots(k', x), x in k'.timq, OnChannel(At(k', x))) {
      assert SlotRep(F(im.ws, x), Slots(k, x), x in k.timq, OnChannel(At(k, x)));
    }
    hide SlotsRep;
    QueueFrame(im.ws, ws', im.fptr, im.bptr, k.runq);
    TimedFrame(im.ws, ws', im.tptr, k.timq);
    QueuesStay(im.ws, ws', im.sem, im.bar, k, k');
    assert k.timq != [] ==> k.timq[0] in k.timq;
  }

  lemma EnqueueSlots(ws: map<int, Frame>, ws': map<int, Frame>, k: K, p: int)
    requires SlotsRep(ws, k) && !OnChannel(At(k, p)) && (forall x :: x in k.runq ==> !OnChannel(At(k, x)))
    requires forall x ::
             F(ws', x) == F(ws, x).(link := F(ws', x).link) && (x != p && x !in k.runq ==> F(ws', x) == F(ws, x))
    ensures SlotsRep(ws', Enqueue(k, p))
  {
    var k' := Enqueue(k, p);
    forall x ensures SlotRep(F(ws', x), Slots(k', x), x in k'.timq, OnChannel(At(k', x))) {
      assert SlotRep(F(ws, x), Slots(k, x), x in k.timq, OnChannel(At(k, x)));
    }
  }

  /** Only timer links, and the workspace of p, are written. */
  lemma RelinkKeeps(im: Image, ws': map<int, Frame>, tptr': int, tnext': Word, k: K, k': K, p: int)
    requires MemRep(im, k) && k'.runq == k.runq && k'.sem == k.sem && k'.bar == k.bar && k'.place == k.place
    requires Timed(ws', tptr', k'.timq) && (k'.timq != [] ==> tnext' == Slots(k', k'.timq[0]).time)
    requires forall x :: x != p ==> Slots(k', x) == Slots(k, x) && (x in k'.timq <==> x in k.timq)
    requires forall x :: x != p ==>
             F(ws', x) == F(im.ws, x).(tlink := F(ws', x).tlink) && (x in k'.timq || F(ws', x) == F(im.ws, x))
    requires F(ws', p).link == F(im.ws, p).link && SlotRep(F(ws', p), Slots(k', p), p in k'.timq, OnChannel(At(k', p)))
    ensures MemRep(im.(ws := ws', tptr := tptr', tnext := tnext'), k')
  {
    hide QueuesRep, Queue, Timed;
    forall x ensures SlotRep(F(ws', x), Slots(k', x), x in k'.timq, OnChannel(At(k', x))) {
      assert SlotRep(F(im.ws, x), Slots(k, x), x in k.timq, OnChannel(At(k, x)));
    }
    hide SlotsRep;
    QueueFrame(im.ws, ws', im.fptr, im.bptr, k.runq);
    QueuesStay(im.ws, ws', im.sem, im.bar, k, k');
  }

  /** What a process's workspace holds. */
  lemma SlotAt(im: Image, k: K, p: int)
    requires MemRep(im, k)
    ensures SlotRep(F(im.ws, p), Slots(k, p), p in k.timq, OnChannel(At(k, p)))
  {
  }

  ghost predicate MayQueue(k: K, p: int) {
    p != 0 && p !in k.runq && Detached(k, p) && Distinct(k.runq) && forall x :: x in k.runq ==> Detached(k, x)
  }

  lemma HaltedMayQueue(k: K, p: int)
    requires Inv(k) && IsProcess(p) &&
             (At(k, p) == Halted || At(k, p) == AltWait || At(k, p) == TimerWait || At(k, p) == Running)
    ensures MayQueue(k, p)
  {
    RunDistinct(k);
    LooseAt(k, p);
  }

  /** A process linked in behind the run queue. */
  lemma QueueKeeps(im: Image, ws': map<int, Frame>, fptr': int, bptr': int, k: K, p: int)
    requires MemRep(im, k) && MayQueue(k, p) && Queue(ws', fptr', bptr', k.runq + [p])
    requires forall x ::
             F(ws', x) == F(im.ws, x).(link := F(ws', x).link) &&
             (x != p && x !in k.runq ==> F(ws', x) == F(im.ws, x))
    ensures MemRep(im.(ws := ws', fptr := fptr', bptr := bptr'), Enqueue(k, p))
  {
    hide Queue, QueuesRep, Timed, SlotsRep, Enqueue;
    EnqueueSlots(im.ws, ws', k, p);
    EnqueueEffect(k, p);
    EnqueueTimes(k, p);
    TimedFrame(im.ws, ws', im.tptr, k.timq);
    QueuesStay(im.ws, ws', im.sem, im.bar, k, Enqueue(k, p));
  }

  lemma QueueOf(im: Image, k: K)
    requires MemRep(im, k)
    ensures Queue(im.ws, im.fptr, im.bptr, k.runq)
  {
  }

  lemma AppendDistinct(k: K, p: int)
    requires MayQueue(k, p)
    ensures Distinct(k.runq + [p])
  {
  }

  // ----- the timer queue

  lemma TimerOf(im: Image, k: K)
    requires MemRep(im, k)
    ensures Timed(im.ws, im.tptr, k.timq) &&
            (k.timq != [] ==> im.tptr == k.timq[0] && im.tnext == Slots(k, im.tptr).time)
  {
  }

  /** TPTR is the front of the timer queue and TNEXT its time. */
  lemma TimerFront(im: Image, k: K)
    requires MemRep(im, k) && Distinct(k.timq)
    ensures if k.timq == [] then im.tptr == 0
            else im.tptr == k.timq[0] && im.tptr != 0 && im.tnext == Slots(k, im.tptr).time
    ensures |k.timq| > 1 ==> k.timq[1] != 0
  {
    hide MemRep, Slots;
    TimerOf(im, k);
    DistinctFront(k.timq);
  }

  /** The link of the front is the second of the timer queue. */
  lemma TimerSecond(im: Image, k: K)
    requires MemRep(im, k)
    ensures k.timq != [] ==> F(im.ws, im.tptr).tlink == After(k.timq, 0)
  {
    hide MemRep, F;
    TimerOf(im, k);
  }

  lemma FrontKeeps(im: Image, k: K, f: Frame, w: Ws)
    requires MemRep(im, k) && k.timq != [] && Distinct(k.timq)
    requires f.link == F(im.ws, k.timq[0]).link && SlotRep(f, w, false, OnChannel(At(k, k.timq[0])))
    ensures var next, k' := F(im.ws, k.timq[0]).tlink, OffFront(k, w);
            MemRep(im.(ws := Put(im.ws, k.timq[0], f), tptr := next,
                       tnext := F(Put(im.ws, k.timq[0], f), next).time), k') &&
            next == (if k'.timq == [] then 0 else k'.timq[0])
  {
    var p, q, k' := k.timq[0], k.timq[1..], OffFront(k, w);
    var ws', next := Put(im.ws, p, f), F(im.ws, p).tlink;
    FrontTimes(im.ws, ws', im.tptr, k.timq);
    assert forall x :: Slots(k', x) == if x == p then w else Slots(k, x);
    assert forall x :: At(k', x) == At(k, x);
    assert forall x :: x != p ==> (x in q <==> x in k.timq);
    assert p !in q;
    if q != [] {
      assert q[0] == next && q[0] in q;
      SlotAt(im, k, next);
    }
    hide MemRep, Timed, Distinct, SlotRep, OffFront;
    RelinkKeeps(im, ws', next, F(ws', next).time, k, k', p);
  }

  lemma FrontTimes(ws: map<int, Frame>, ws': map<int, Frame>, t: int, q: seq<int>)
    requires Timed(ws, t, q) && q != [] && Distinct(q) && forall x :: x != q[0] ==> F(ws', x) == F(ws, x)
    ensures Timed(ws', F(ws, q[0]).tlink, q[1..])
  {
    TimedRemove(ws, t, q, 0);
    assert q[..0] + q[1..] == q[1..];
    TimedFrame(ws, ws', After(q, 0), q[1..]);
  }

  /** A process on the timer queue that is not ready yet may be queued to run. */
  lemma SleeperMayQueue(k: K, w: Ws)
    requires Inv(k) && k.timq != [] && Slots(k, k.timq[0]).state != READY
    ensures MayQueue(OffFront(k, w), k.timq[0])
  {
    hide Inv;
    var p, k' := k.timq[0], OffFront(k, w);
    assert MayQueue(k, p) by {
      TimerQuiet(k, p);
      HaltedMayQueue(k, p);
    }
    forall x ensures Detached(k', x) == Detached(k, x) {
      assert At(k', x) == At(k, x);
      assert forall s :: SemQueue(k', s) == SemQueue(k, s);
      assert forall b :: BarOf(k', b) == BarOf(k, b);
    }
  }

  lemma FrontReady(ws: map<int, Frame>, t: int, now: Word, ws': map<int, Frame>)
    requires ws' == Put(Put(ws, t, F(ws, t).(tlink := TIME_SET, time := now)), t, F(ws', t))
    ensures ws' == Put(ws, t, F(ws', t))
  {
  }

  lemma TimerNull(k: K)
    requires Inv(k)
    ensures k.timq != [] ==> k.timq[0] != 0
  {
    TimerDistinct(k);
  }

  lemma TimerEmpty(im: Image, tnext': Word, k: K)
    requires MemRep(im, k) && k.timq == []
    ensures MemRep(im.(tnext := tnext'), k)
  {
  }

  lemma FlagMem(im: Image, k: K)
    requires MemRep(im, k)
    ensures MemRep(im, k.(tq := false))
  {
    var k' := k.(tq := false);
    assert forall x :: Slots(k', x) == Slots(k, x) && At(k', x) == At(k, x);
    assert SlotRep(F(im.ws, 0), Slots(k', 0), 0 in k'.timq, OnChannel(At(k', 0)));
    WriteKeeps(im, im.ws, k, k', 0);
  }

  lemma RunHead(im: Image, k: K)
    requires MemRep(im, k) && Inv(k)
    ensures im.fptr == (if k.runq == [] then 0 else k.runq[0]) && (k.runq != [] ==> im.fptr != 0)
  {
    RunDistinct(k);
  }

  lemma PopMem(im: Image, k: K, k1: K)
    requires MemRep(im, k) && Distinct(k.runq) && k.runq != [] && k1 == k.(runq := k.runq[1..])
    ensures MemRep(im.(fptr := if im.fptr == im.bptr then 0
                       else F(im.ws, im.fptr).link, bptr := if im.fptr == im.bptr then 0 else im.bptr), k1)
  {
    QueuePop(im.ws, im.fptr, im.bptr, k.runq);
    hide SlotRep, Distinct, Timed, SemRep, BarRep;
    forall x ensures SlotRep(F(im.ws, x), Slots(k1, x), x in k1.timq, OnChannel(At(k1, x))) {
      assert SlotRep(F(im.ws, x), Slots(k, x), x in k.timq, OnChannel(At(k, x)));
    }
    forall x ensures SemRep(im.ws, SemAt(im.sem, x), SemOf(k1, x)) {
      assert SemRep(im.ws, SemAt(im.sem, x), SemOf(k, x));
    }
    forall x ensures BarRep(im.ws, BarAt(im.bar, x), BarOf(k1, x)) {
      assert BarRep(im.ws, BarAt(im.bar, x), BarOf(k, x));
    }
  }

  lemma LoadMem(im: Image, k: K, p: int)
    requires MemRep(im, k) && !OnChannel(At(k, p))
    ensures MemRep(im, Load(k, p)) && Load(k, p) == k.(cur := p, iptr := F(im.ws, p).iptr, place := Load(k, p).place)
  {
    hide MemRep, Load;
    SlotAt(im, k, p);
    LoadSlots(k, p);
    WriteKeeps(im, im.ws, k, Load(k, p), p);
  }

  /** The front of the run queue taken off it and loaded. */
  lemma DispatchMem(im: Image, k: K)
    requires MemRep(im, k) && Inv(k) && k.runq != []
    ensures MemRep(im.(fptr := if im.fptr == im.bptr then 0
                       else F(im.ws, im.fptr).link, bptr := if im.fptr == im.bptr then 0 else im.bptr), Dispatch(k))
    ensures Dispatch(k) ==
            k.(cur := k.runq[0], iptr := F(im.ws, k.runq[0]).iptr, runq := k.runq[1..], place := Dispatch(k).place)
  {
    var p, k1 := k.runq[0], k.(runq := k.runq[1..]);
    RunDistinct(k);
    assert p in k.runq && At(k1, p) == At(k, p);
    hide Inv, MemRep, Load, Distinct, Queue;
    PopMem(im, k, k1);
    LoadMem(im.(fptr := if im.fptr == im.bptr then 0
                else F(im.ws, im.fptr).link, bptr := if im.fptr == im.bptr then 0 else im.bptr), k1, p);
  }

  // ----- insertion and removal

  /** p is linked in after the first n of q; its instruction pointer is saved if q is empty. */
  ghost predicate LinkedIn(ws: map<int, Frame>, ws': map<int, Frame>, q: seq<int>, p: int, iptr: int, n: nat) {
    n <= |q| && forall x :: F(ws', x) == LinkedFrame(F(ws, x), x, q, p, iptr, n)
  }

  function LinkedFrame(f: Frame, x: int, q: seq<int>, p: int, iptr: int, n: nat): Frame
    requires n <= |q|
  {
    if x == p then (if q == [] then f.(iptr := iptr) else f).(tlink := if n < |q| then q[n] else 0)
    else if n > 0 && x == q[n - 1] then f.(tlink := p)
    else f
  }

  /** The two writes that link p in behind the first n, in either order. */
  lemma LinkBehind(ws: map<int, Frame>, q: seq<int>, p: int, iptr: int, n: nat)
    requires p !in q && 0 < n <= |q|
    ensures var next := if n < |q| then q[n] else 0;
            LinkedIn(ws, SetTlink(SetTlink(ws, q[n - 1], p), p, next), q, p, iptr, n) &&
            LinkedIn(ws, SetTlink(SetTlink(ws, p, next), q[n - 1], p), q, p, iptr, n)
  {
  }

  lemma LinkFront(ws: map<int, Frame>, q: seq<int>, p: int, iptr: int)
    requires p !in q
    ensures LinkedIn(ws,
                     SetTlink(if q == [] then Put(ws, p, F(ws, p).(iptr := iptr)) else ws, p, if q == [] then 0
                              else q[0]), q, p, iptr, 0)
  {
  }

  lemma UnlinkAt(ws: map<int, Frame>, q: seq<int>, n: nat)
    requires n < |q| && Distinct(q)
    ensures Unlinked(ws, SetTlink(if n == 0 then ws else SetTlink(ws, q[n - 1], After(q, n)), q[n], TIME_NOT_SET), q, n)
  {
  }

  /** The member of q at n is unlinked. */
  ghost predicate Unlinked(ws: map<int, Frame>, ws': map<int, Frame>, q: seq<int>, n: nat) {
    n < |q| && forall x :: F(ws', x) == UnlinkedFrame(F(ws, x), x, q, n)
  }

  function UnlinkedFrame(f: Frame, x: int, q: seq<int>, n: nat): Frame
    requires n < |q|
  {
    if x == q[n] then f.(tlink := TIME_NOT_SET)
    else if n > 0 && x == q[n - 1] then f.(tlink := After(q, n))
    else f
  }

  /** The words after timer_queue_insert has put p after the first n. */
  lemma InsertKeeps(im: Image, ws': map<int, Frame>, k: K, p: int, iptr: int, n: nat)
    requires MemRep(im, k) && Distinct(k.timq) && p !in k.timq && p != 0 && n <= |k.timq|
    requires var t, q := Slots(k, p).time, k.timq;
             (forall j :: 0 <= j < n ==> !TimeAfter(Slots(k, q[j]).time, t)) &&
             (n < |q| ==> TimeAfter(Slots(k, q[n]).time, t))
    requires LinkedIn(im.ws, ws', k.timq, p, iptr, n)
    ensures var t := Slots(k, p).time;
            MemRep(im.(ws := ws', tptr := if n == 0 then p else im.tptr, tnext := if n == 0 then t else im.tnext),
                   TimerInsert(k, p, t, iptr))
  {
    hide Timed, TimerInsert, Distinct, Slots, At, InsertTime;
    var t, q := Slots(k, p).time, k.timq;
    var k' := TimerInsert(k, p, t, iptr);
    InsertSlots(k, p, iptr, n);
    InsertLinks(im.ws, ws', im.tptr, q, p, n);
    SlotAt(im, k, p);
    TimerOf(im, k);
    hide MemRep;
    assert n > 0 ==> q[n - 1] in q;
    RelinkKeeps(im, ws', if n == 0 then p else im.tptr, if n == 0 then t else im.tnext, k, k', p);
  }

  lemma InsertSlots(k: K, p: int, iptr: int, n: nat)
    requires Distinct(k.timq) && p !in k.timq && p != 0 && n <= |k.timq|
    requires var t, q := Slots(k, p).time, k.timq;
             (forall j :: 0 <= j < n ==> !TimeAfter(Slots(k, q[j]).time, t)) &&
             (n < |q| ==> TimeAfter(Slots(k, q[n]).time, t))
    ensures var w, q := Slots(k, p), k.timq;
            var k' := TimerInsert(k, p, w.time, iptr);
            k'.timq == q[..n] + [p] + q[n..] && k'.timq != [] && k'.timq[0] == (if n == 0 then p else q[0]) &&
            p in k'.timq &&
            OnlyAt(k, k', p) && At(k', p) == At(k, p) && k'.runq == k.runq && k'.sem == k.sem && k'.bar == k.bar &&
            k'.place == k.place &&
            Slots(k', p) == (if q == [] then w.(iptr := iptr) else w).(tlink := ON_QUEUE) &&
            (forall x :: x != p ==> (x in k'.timq <==> x in q)) && (n > 0 ==> q[0] != p)
  {
    var t, q := Slots(k, p).time, k.timq;
    InsertTimeIs(q, k, p, t, n);
    InsertMembers(q, k, p, t);
    hide TimeAfter, InsertTime, Distinct;
    assert n > 0 ==> q[0] in q;
  }

  lemma InsertLinks(ws: map<int, Frame>, ws': map<int, Frame>, tptr: int, q: seq<int>, p: int, n: nat)
    requires Timed(ws, tptr, q) && n <= |q| && Distinct(q) && p !in q && p != 0
    requires forall x :: F(ws', x).tlink == if x == p then (if n < |q| then q[n] else 0)
             else if n > 0 && x == q[n - 1] then p else F(ws, x).tlink
    ensures Timed(ws', if n == 0 then p else tptr, q[..n] + [p] + q[n..])
  {
    TimedInsert(ws, tptr, q, p, n);
    var ws1 := SetTlink(ws, p, if n < |q| then q[n] else 0);
    var ws2 := if n == 0 then ws1 else SetTlink(ws1, q[n - 1], p);
    TimedFrame(ws2, ws', if n == 0 then p else tptr, q[..n] + [p] + q[n..]);
  }

  lemma {:induction false} RemoveTimeIs(q: seq<int>, p: int, n: nat)
    requires Distinct(q) && n < |q| && q[n] == p
    ensures RemoveTime(q, p) == q[..n] + q[n + 1..]
    decreases |q|
  {
    if n > 0 {
      var r := q[1..];
      assert q[0] != q[n];
      forall i | 0 <= i < |r| ensures r[i] != 0 { assert r[i] == q[i + 1]; }
      assert Distinct(r);
      RemoveTimeIs(r, p, n - 1);
      assert q[..n] + q[n + 1..] == [q[0]] + (r[..n - 1] + r[n..]);
    }
  }

  /** The words after timer_queue_remove has unlinked the member at n. */
  lemma RemoveKeeps(im: Image, ws': map<int, Frame>, k: K, n: nat)
    requires MemRep(im, k) && Distinct(k.timq) && n < |k.timq|
    requires Unlinked(im.ws, ws', k.timq, n)
    ensures var q := k.timq;
            MemRep(im.(ws := ws', tptr := if n == 0 then After(q, 0)
                       else im.tptr, tnext := if n == 0 && |q| > 1 then F(im.ws, After(q, 0)).time else im.tnext),
                       TimerRemove(k, q[n]))
  {
    hide Timed, TimerRemove, Slots, At, RemoveTime;
    var q, p := k.timq, k.timq[n];
    var k' := TimerRemove(k, p);
    var tptr' := if n == 0 then After(q, 0) else im.tptr;
    var tnext' := if n == 0 && |q| > 1 then F(im.ws, After(q, 0)).time else im.tnext;
    RemoveLinks(im.ws, ws', im.tptr, q, n);
    RemoveSlots(k, n);
    SlotAt(im, k, p);
    SlotAt(im, k, After(q, 0));
    TimerOf(im, k);
    hide MemRep, Distinct;
    RelinkKeeps(im, ws', tptr', tnext', k, k', p);
  }

  lemma RemoveSlots(k: K, n: nat)
    requires Distinct(k.timq) && n < |k.timq|
    ensures var p, q := k.timq[n], k.timq;
            var k' := TimerRemove(k, p);
            k'.timq == q[..n] + q[n + 1..] && (k'.timq != [] ==> k'.timq[0] == if n == 0 then q[1] else q[0]) &&
            OnlyAt(k, k', p) && At(k', p) == At(k, p) && k'.runq == k.runq && k'.sem == k.sem && k'.bar == k.bar &&
            k'.place == k.place &&
            Slots(k', p) == Slots(k, p).(tlink := TIME_NOT_SET) && p !in k'.timq &&
            (n > 0 ==> q[n - 1] in k'.timq && q[0] != p) &&
            (n == 0 && |q| > 1 ==> q[1] != p) && forall x :: x != p ==> (x in k'.timq <==> x in q)
  {
    RemoveTimeIs(k.timq, k.timq[n], n);
    RemoveMembers(k.timq, n);
    hide RemoveTime;
  }

  lemma RemoveMembers(q: seq<int>, n: nat)
    requires Distinct(q) && n < |q|
    ensures var q' := q[..n] + q[n + 1..]; (forall x :: x in q' <==> x in q && x != q[n]) && (n > 0 ==> q[n - 1] in q')
  {
    var q' := q[..n] + q[n + 1..];
    forall x | x in q && x != q[n] ensures x in q' {
      var i :| 0 <= i < |q| && q[i] == x;
      assert q'[if i < n then i else i - 1] == x;
    }
  }

  lemma RemoveLinks(ws: map<int, Frame>, ws': map<int, Frame>, tptr: int, q: seq<int>, n: nat)
    requires Timed(ws, tptr, q) && n < |q| && Distinct(q)
    requires forall x :: x != q[n] ==> F(ws', x).tlink == if n > 0 && x == q[n - 1] then After(q, n) else F(ws, x).tlink
    ensures Timed(ws', if n == 0 then After(q, 0) else tptr, q[..n] + q[n + 1..])
  {
    TimedRemove(ws, tptr, q, n);
    RemoveMembers(q, n);
    TimedFrame(if n == 0 then ws else SetTlink(ws, q[n - 1], After(q, n)), ws', if n == 0 then After(q, 0)
               else tptr, q[..n] + q[n + 1..]);
  }

  lemma DistinctFront(q: seq<int>)
    requires Distinct(q)
    ensures q != [] ==> q[0] != 0
    ensures |q| > 1 ==> q[1] != 0
  {
  }

  // ----- writes that touch no queue

  lemma SameMem(im: Image, k: K, k': K)
    requires MemRep(im, k) && k'.ws == k.ws && k'.place == k.place && SameQueues(k, k')
    ensures MemRep(im, k')
  {
    SlotAt(im, k, 0);
    SamePlaces(k, k');
    assert Slots(k', 0) == Slots(k, 0) && At(k', 0) == At(k, 0);
    hide MemRep;
    WriteKeeps(im, im.ws, k, k', 0);
  }

  /** ins_altend writes no workspace. */
  lemma AltEndMem(im: Image, k: K, p: int, iptr: int)
    requires MemRep(im, k) && k.cur == p
    ensures MemRep(im, AltEnd(k, iptr))
    ensures F(im.ws, p).temp == Slots(k, p).temp
    ensures var selection, k' := Slots(k, p).temp, AltEnd(k, iptr);
            k'.cur == k.cur && k'.tq == k.tq && k'.chan == k.chan &&
            k'.iptr == (if selection != NONE_SELECTED then iptr + selection else k.iptr) &&
            k'.env == (if selection != NONE_SELECTED then k.env else k.env.(eflags := Or(k.env.eflags, EFLAG_ALT)))
  {
    hide MemRep, AltEnd, Slots, At, Or;
    SlotAt(im, k, p);
    AltEndIs(k, iptr);
    SameMem(im, k, AltEnd(k, iptr));
  }

  /** A process's own slots are written, its place and its timer link left alone. */
  lemma OwnMem(im: Image, ws': map<int, Frame>, k: K, k': K, p: int)
    requires MemRep(im, k) && OwnSlots(k, k', p) && k'.timq == k.timq
    requires forall x :: x != p ==> F(ws', x) == F(im.ws, x)
    requires SlotRep(F(ws', p), Slots(k', p), p in k.timq, OnChannel(At(k, p))) && F(ws', p).link == F(im.ws, p).link
    requires p in k.timq ==> F(ws', p).tlink == F(im.ws, p).tlink && Slots(k', p).time == Slots(k, p).time
    ensures MemRep(im.(ws := ws'), k')
  {
    hide MemRep, SlotRep;
    WriteKeeps(im, ws', k, k', p);
  }

  /** A disable of a true guard that takes nobody off the timer queue: a ready guard is selected unless one is. */
  lemma DisableMem(im: Image, k: K, p: int, g: Guard, target: int)
    requires MemRep(im, k) && k.cur == p && !OnChannel(At(k, p)) && !TimerPending(k, p, g)
    ensures F(im.ws, p).temp == Slots(k, p).temp
    ensures var ws' := if Ready(k, p, g) && F(im.ws, p).temp == NONE_SELECTED
            then Put(im.ws, p, F(im.ws, p).(temp := target)) else im.ws;
            MemRep(im.(ws := ws'), Disable(k, g, target))
  {
    hide MemRep, Disable, OwnSlots, Ready, Slots, At;
    var ws' := if Ready(k, p, g) && F(im.ws, p).temp == NONE_SELECTED
      then Put(im.ws, p, F(im.ws, p).(temp := target)) else im.ws;
    SlotAt(im, k, p);
    DisableEffect(k, g, target);
    OwnMem(im, ws', k, Disable(k, g, target), p);
  }

  /** Only places change, and nobody comes to a channel. */
  lemma PlaceMem(im: Image, k: K, k': K, p: int)
    requires MemRep(im, k) && OneMove(k, k', p) && k'.ws == k.ws && SameQueues(k, k') && !OnChannel(At(k', p))
    ensures MemRep(im, k')
  {
    SlotAt(im, k, p);
    assert forall x :: Slots(k', x) == Slots(k, x);
    hide MemRep;
    WriteKeeps(im, im.ws, k, k', p);
  }

  // ----- the states within instructions

  /** Where processes are decides who may be queued. */
  lemma SameMayQueue(k: K, k': K, p: int)
    requires MayQueue(k, p) && SameQueues(k, k') && k'.place == k.place
    ensures MayQueue(k', p)
  {
    hide Distinct;
    forall x ensures Detached(k', x) == Detached(k, x) {
      assert At(k', x) == At(k, x);
      assert forall s :: SemQueue(k', s) == SemQueue(k, s);
      assert forall b :: BarOf(k', b) == BarOf(k, b);
    }
  }

  /** The current process parked. */
  lemma Parked(k: K, iptr: int, now: Word)
    requires Inv(k) && Plain(k) && HalfRange(k, k.timq, {now})
    ensures var k1 := Park(k, iptr);
            Inv(k1) && k1.cur == 0 && HalfRange(k1, k1.timq, {now}) && k1.alts == k.alts && MayQueue(k1, k.cur) &&
            Unthreaded(k1, k.cur)
  {
    ParkKeeps(k, iptr);
    ParkTimers(k, iptr);
    CurrentPlace(k);
    hide Inv, HalfRange;
    WindowSame(k, Park(k, iptr), {now});
    HaltedMayQueue(Park(k, iptr), k.cur);
    LooseAt(Park(k, iptr), k.cur);
  }

  // ----- ALT

  /** In an ALT with timer guards, the timer link tells a queued process from one that is not. */
  lemma TimerLink(im: Image, k: K)
    requires MemRep(im, k) && Inv(k) && k.cur != 0 && k.cur in k.alts
    ensures var p := k.cur; var l, l' := F(im.ws, p).tlink, Slots(k, p).tlink;
            (l == TIME_SET <==> l' == TIME_SET) && (l == TIME_NOT_SET <==> l' == TIME_NOT_SET) &&
            (Info(k, p).timed && l != TIME_SET && l != TIME_NOT_SET ==> p in k.timq)
  {
    hide Inv, MemRep, Slots, Timed, Info;
    TimedLinks(k);
    SlotAt(im, k, k.cur);
    TimerOf(im, k);
    if k.cur in k.timq { LinkOnQueue(im.ws, im.tptr, k.timq, k.cur); }
  }

  lemma LinkOnQueue(ws: map<int, Frame>, tptr: int, q: seq<int>, p: int)
    requires Timed(ws, tptr, q) && p in q && forall x :: x in q ==> x % 4 == 0
    ensures F(ws, p).tlink % 4 == 0
  {
    var i :| 0 <= i < |q| && q[i] == p;
    assert F(ws, p).tlink == After(q, i);
    if i + 1 < |q| { assert q[i + 1] in q; }
  }

  /** The current process of an ALT goes to sleep. */
  lemma SleepMem(im: Image, ws': map<int, Frame>, k: K, iptr: int)
    requires MemRep(im, k)
    requires F(ws', k.cur) == F(im.ws, k.cur).(temp := NONE_SELECTED, state := WAITING, iptr := iptr) && forall x ::
             x != k.cur ==> F(ws', x) == F(im.ws, x)
    ensures MemRep(im.(ws := ws'), Sleep(k, iptr))
  {
    SlotAt(im, k, k.cur);
    SleepSlots(k, iptr);
    hide MemRep, Sleep;
    WriteKeeps(im, ws', k, Sleep(k, iptr), k.cur);
  }

  // ----- channels

  lemma MoveMem(im: Image, k: K, c: int, q: int, sending: bool, ptr: int, len: int)
    requires MemRep(im, k) && ChanWord(k, c) == q
    ensures var k1 := Moved(k, c, q, sending, ptr, len); var k' := Leave(k1, c);
            MemRep(im, k') &&
            k' == k.(chan := k.chan[c := 0], place := k'.place,
                     env := k.env.(mem := if sending then Copy(k.env.mem, Slots(k, q).state, ptr, len)
                                   else Copy(k.env.mem, ptr, Slots(k, q).state, len),
                                   recd := k1.env.recd))
  {
    var k1 := Moved(k, c, q, sending, ptr, len);
    MovedRegs(k, c, q, sending, ptr, len);
    assert ChanWord(k1, c) == q;
    hide MemRep, Moved, Copy, Slots, Leave;
    SameMem(im, k, k1);
    LeaveSlots(k1, c);
    PlaceMem(im, k1, Leave(k1, c), q);
  }

  lemma NothingMem(im: Image, k: K, sending: bool, ptr: int, len: int)
    requires MemRep(im, k)
    ensures var k' := Nothing(k, sending, ptr, len);
            MemRep(im, k') &&
            k' == k.(env := k.env.(mem := if sending then k.env.mem else Zero(k.env.mem, ptr, len)))
  {
    hide MemRep, Zero;
    SameMem(im, k, Nothing(k, sending, ptr, len));
  }

  lemma ErrorMem(im: Image, k: K, flag: nat)
    requires MemRep(im, k)
    ensures var k' := SetError(k, flag);
            MemRep(im, k') && k' == k.(env := k.env.(eflags := Or(k.env.eflags, flag)))
  {
    hide MemRep, Or;
    SameMem(im, k, SetError(k, flag));
  }

  lemma SayMem(im: Image, k: K, c: int, ptr: int, len: int, now: Word)
    requires MemRep(im, k) && Inv(k) && HalfRange(k, k.timq, {now}) && Plain(k) && MayOutput(k, c)
    ensures var k' := Say(k, c, ptr, len);
            MemRep(im, k') && Inv(k') && HalfRange(k', k'.timq, {now}) && Plain(k') && MayMeet(k', c, true) &&
            k' == k.(env := k.env.(sent := k'.env.sent))
  {
    var k' := Say(k, c, ptr, len);
    hide MemRep, Inv, HalfRange, NoAltOn, Bytes, Said;
    SameMem(im, k, k');
    EnvKeeps(k, k', {now});
  }

  // ----- extended input

  lemma EndAltMem(im: Image, k: K)
    requires MemRep(im, k)
    ensures var k' := EndAlt(k, k.cur); MemRep(im, k') && k' == k.(alts := k'.alts)
  {
    EndAltIs(k);
    hide MemRep, EndAlt;
    SameMem(im, k, EndAlt(k, k.cur));
  }

  /** The sender put back in the channel after an extended input. */
  lemma RestoredMem(im: Image, k: K, c: int, v: int, ptr: int, len: int, ext: set<int>)
    requires MemRep(im, k) && ChanWord(k, c) == v && v != 0
    ensures var k' := SetTaken(Moved(k, c, v, false, ptr, len), ext);
            MemRep(im, k') && k.chan[c := 0][c := v] == k.chan &&
            k' == k.(env :=
                     k.env.(mem := Copy(k.env.mem, ptr, Slots(k, v).state, len), recd := k'.env.recd, ext := ext))
  {
    MovedRegs(k, c, v, false, ptr, len);
    hide MemRep, Moved, Copy, Slots;
    SameMem(im, k, SetTaken(Moved(k, c, v, false, ptr, len), ext));
  }

  lemma LeaveMem(im: Image, k: K, c: int)
    requires MemRep(im, k)
    ensures var k' := Leave(k, c); MemRep(im, k') && k' == k.(chan := k.chan[c := 0], place := k'.place)
  {
    hide MemRep, Leave;
    LeaveSlots(k, c);
    PlaceMem(im, k, Leave(k, c), ChanWord(k, c));
  }

  lemma TakenMem(im: Image, k: K, ext: set<int>)
    requires MemRep(im, k)
    ensures var k' := SetTaken(k, ext); MemRep(im, k') && k' == k.(env := k.env.(ext := ext))
  {
    hide MemRep;
    SameMem(im, k, SetTaken(k, ext));
  }

  // ----- links written on semaphores and barriers

  lemma LinkMem(im: Image, ws': map<int, Frame>, sem': map<int, SemWords>, bar': map<int, BarWords>, k: K, k': K)
    requires MemRep(im, k) && k'.runq == k.runq && k'.timq == k.timq && QueuesRep(ws', sem', bar', k')
    requires forall x :: F(ws', x) == F(im.ws, x).(link := F(ws', x).link)
    requires forall x :: F(ws', x).link != F(im.ws, x).link ==> x !in k.runq && !OnChannel(At(k', x))
    requires forall x :: Slots(k', x) == Slots(k, x) && (OnChannel(At(k', x)) ==> OnChannel(At(k, x)))
    ensures MemRep(im.(ws := ws', sem := sem', bar := bar'), k')
  {
    hide QueuesRep;
    forall x ensures SlotRep(F(ws', x), Slots(k', x), x in k'.timq, OnChannel(At(k', x))) {
      assert SlotRep(F(im.ws, x), Slots(k, x), x in k.timq, OnChannel(At(k, x)));
    }
    hide SlotsRep, SlotRep, Queue, Timed;
    QueueFrame(im.ws, ws', im.fptr, im.bptr, k.runq);
    TimedFrame(im.ws, ws', im.tptr, k.timq);
    assert k.timq != [] ==> k.timq[0] in k.timq;
  }

  lemma QueuesSem(ws: map<int, Frame>, ws': map<int, Frame>, sem: map<int, SemWords>, bar: map<int, BarWords>, k: K,
                  k': K, s: int, m: SemWords)
    requires QueuesRep(ws, sem, bar, k) && k'.bar == k.bar && SemRep(ws', m, SemOf(k', s)) && forall t :: t != s ==>
             SemOf(k', t) == SemOf(k, t)
    requires forall x :: F(ws', x).link != F(ws, x).link ==> OnlySem(k, x, s)
    ensures QueuesRep(ws', sem[s := m], bar, k')
  {
    forall t ensures SemRep(ws', SemAt(sem[s := m], t), SemOf(k', t)) {
      assert SemRep(ws, SemAt(sem, t), SemOf(k, t));
      if t != s && SemOf(k, t).Claimed? {
        assert SemOf(k, t).queue == SemQueue(k, t);
        QueueFrame(ws, ws', SemAt(sem, t).front, SemAt(sem, t).back, SemQueue(k, t));
      }
    }
    forall b ensures BarRep(ws', BarAt(bar, b), BarOf(k', b)) {
      assert BarRep(ws, BarAt(bar, b), BarOf(k, b));
      assert BarOf(k', b) == BarOf(k, b);
      if BarOf(k, b).queue != [] {
        ChainFrame(ws, ws', BarAt(bar, b).front, BarAt(bar, b).back, BarOf(k, b).queue);
      }
    }
  }

  lemma QueuesBar(ws: map<int, Frame>, ws': map<int, Frame>, sem: map<int, SemWords>, bar: map<int, BarWords>, k: K,
                  k': K, s: int, m: BarWords)
    requires QueuesRep(ws, sem, bar, k) && k'.sem == k.sem && BarRep(ws', m, BarOf(k', s)) && forall t :: t != s ==>
             BarOf(k', t) == BarOf(k, t)
    requires forall x :: F(ws', x).link != F(ws, x).link ==> OnlyBar(k, x, s)
    ensures QueuesRep(ws', sem, bar[s := m], k')
  {
    forall t ensures SemRep(ws', SemAt(sem, t), SemOf(k', t)) {
      assert SemRep(ws, SemAt(sem, t), SemOf(k, t));
      assert SemOf(k', t) == SemOf(k, t);
      if SemOf(k, t).Claimed? {
        assert SemOf(k, t).queue == SemQueue(k, t);
        QueueFrame(ws, ws', SemAt(sem, t).front, SemAt(sem, t).back, SemQueue(k, t));
      }
    }
    forall b ensures BarRep(ws', BarAt(bar[s := m], b), BarOf(k', b)) {
      assert BarRep(ws, BarAt(bar, b), BarOf(k, b));
      if b != s && BarOf(k, b).queue != [] {
        ChainFrame(ws, ws', BarAt(bar, b).front, BarAt(bar, b).back, BarOf(k, b).queue);
      }
    }
  }

  /** Members of a semaphore's or barrier's queue are in no other queue and in no channel. */
  lemma SemMembers(k: K, s: int)
    requires Inv(k)
    ensures Distinct(SemQueue(k, s))
    ensures forall x :: x in SemQueue(k, s) ==> At(k, x) == OnSem(s) && x !in k.runq && OnlySem(k, x, s)
  {
    var q := SemQueue(k, s);
    assert SemOk(k, s);
    forall i | 0 <= i < |q| ensures q[i] != 0 { assert q[i] in q && IsProcess(q[i]); }
    forall x | x in q ensures x !in k.runq && OnlySem(k, x, s) {
      forall t | t != s ensures x !in SemQueue(k, t) { assert SemOk(k, t); }
      forall b ensures x !in BarOf(k, b).queue { assert BarOk(k, b); }
    }
  }

  lemma BarMembers(k: K, s: int)
    requires Inv(k)
    ensures Distinct(BarOf(k, s).queue)
    ensures forall x :: x in BarOf(k, s).queue ==> At(k, x) == OnBar(s) && x !in k.runq && OnlyBar(k, x, s)
  {
    var q := BarOf(k, s).queue;
    assert BarOk(k, s);
    forall i | 0 <= i < |q| ensures q[i] != 0 { assert q[i] in q && IsProcess(q[i]); }
    forall x | x in q ensures x !in k.runq && OnlyBar(k, x, s) {
      forall t ensures x !in SemQueue(k, t) { assert SemOk(k, t); }
      forall b | b != s ensures x !in BarOf(k, b).queue { assert BarOk(k, b); }
    }
  }

  /** The words after the last link of a queue: p follows back, if the queue is not empty. */
  function LinkLast(ws: map<int, Frame>, empty: bool, back: int, p: int): map<int, Frame> {
    if empty then ws else SetLink(ws, back, p)
  }

  lemma LinksLast(ws: map<int, Frame>, front: int, back: int, q: seq<int>, p: int)
    requires Queue(ws, front, back, q) && Distinct(q) && p !in q && p != 0
    ensures var ws' := LinkLast(SetLink(ws, p, 0), front == 0, back, p);
            (front == 0 <==> q == []) && Queue(ws', if front == 0 then p else front, p, q + [p]) &&
            forall x :: F(ws', x) == F(ws, x).(link := F(ws', x).link) &&
              (F(ws', x).link != F(ws, x).link ==> x == p || x in q)
  {
    JoinDistinct(q, p);
    QueueAppend(ws, front, back, q, p);
  }

  /** A process appended to a semaphore's queue. */
  lemma SemJoinMem(im: Image, k: K, p: int, s: int)
    requires MemRep(im, k) && Inv(k) && At(k, p) == Halted && IsProcess(p) && SemOf(k, s).Claimed?
    ensures var m := SemAt(im.sem, s);
            (m.front == 0 <==> SemQueue(k, s) == []) &&
            MemRep(im.(ws := LinkLast(SetLink(im.ws, p, 0), m.front == 0, m.back, p),
                       sem := im.sem[s := SemWords(if m.front == 0 then p else m.front, p)]), JoinSem(k, p, s))
  {
    var m, q, k' := SemAt(im.sem, s), SemQueue(k, s), JoinSem(k, p, s);
    var m', ws' := SemWords(if m.front == 0 then p else m.front, p),
      LinkLast(SetLink(im.ws, p, 0), m.front == 0, m.back, p);
    hide OnlySem, Inv, JoinSem, MemRep, QueuesRep, Distinct, Queue, LinkLast, SemOf, BarOf, SemQueue, At, Slots, F,
         SetLink;
    SemWordsOf(im, k, s);
    SemMembers(k, s);
    LooseAt(k, p);
    UnthreadedOnly(k, p, s);
    JoinSemSlots(k, p, s);
    LinksLast(im.ws, m.front, m.back, q, p);
    QueuesOf(im, k);
    QueuesSem(im.ws, ws', im.sem, im.bar, k, k', s, m');
    LinkMem(im, ws', im.sem[s := m'], im.bar, k, k');
  }

  lemma QueuesOf(im: Image, k: K)
    requires MemRep(im, k)
    ensures QueuesRep(im.ws, im.sem, im.bar, k)
  {
  }

  lemma SemWordsOf(im: Image, k: K, s: int)
    requires MemRep(im, k) && SemOf(k, s).Claimed?
    ensures var m := SemAt(im.sem, s); Queue(im.ws, m.front, m.back, SemQueue(k, s))
  {
    assert SemRep(im.ws, SemAt(im.sem, s), SemOf(k, s));
  }

  lemma JoinDistinct(q: seq<int>, p: int)
    requires Distinct(q) && p !in q && p != 0
    ensures Distinct(q + [p])
  {
  }

  /** The front of a semaphore's queue taken off. */
  lemma SemLeaveMem(im: Image, k: K, s: int)
    requires MemRep(im, k) && Inv(k) && SemOf(k, s).Claimed?
    ensures var m, q := SemAt(im.sem, s), SemQueue(k, s);
            if q == [] then m.front == 0
            else m.front == q[0] != 0 &&
                 MemRep(im.(sem := im.sem[s := m.(front := F(im.ws, m.front).link)]), LeaveSem(k, s))
  {
    var m, q := SemAt(im.sem, s), SemQueue(k, s);
    assert SemRep(im.ws, m, SemOf(k, s)) && SemOf(k, s).queue == q;
    SemMembers(k, s);
    SemFront(k, s);
    if q != [] {
      assert q[0] in q;
      QueuePop(im.ws, m.front, m.back, q);
      LeaveSemSlots(k, s);
      var k' := LeaveSem(k, s);
      hide Inv, Distinct, Queue, LeaveSem;
      QueuesSem(im.ws, im.ws, im.sem, im.bar, k, k', s, m.(front := F(im.ws, m.front).link));
      LinkMem(im, im.ws, im.sem[s := m.(front := F(im.ws, m.front).link)], im.bar, k, k');
    }
  }

  /** A semaphore whose queue is empty becomes free or held. */
  lemma SemSetMem(im: Image, k: K, s: int, v: Sem)
    requires MemRep(im, k) && (v == Free || v == Claimed([]))
    ensures MemRep(im.(sem := im.sem[s := SemAt(im.sem, s).(front := if v == Free then 1 else 0)]), SetSem(k, s, v))
    ensures SetSem(k, s, v) == k.(sem := SetSem(k, s, v).sem)
  {
    var k' := SetSem(k, s, v);
    assert forall x :: Slots(k', x) == Slots(k, x) && At(k', x) == At(k, x);
    hide Queue, SlotsRep, Timed;
    QueuesSem(im.ws, im.ws, im.sem, im.bar, k, k', s, SemAt(im.sem, s).(front := if v == Free then 1 else 0));
    LinkMem(im, im.ws, im.sem[s := SemAt(im.sem, s).(front := if v == Free then 1 else 0)], im.bar, k, k');
  }

  lemma FreeFront(im: Image, k: K, s: int)
    requires MemRep(im, k) && Inv(k)
    ensures SemAt(im.sem, s).front == 1 <==> SemOf(k, s) == Free
  {
    assert SemRep(im.ws, SemAt(im.sem, s), SemOf(k, s));
    SemFront(k, s);
    if SemOf(k, s).Claimed? && SemQueue(k, s) != [] { assert SemQueue(k, s)[0] in SemQueue(k, s); }
  }

  // ----- barriers

  /** p linked after the back of a barrier's queue; the link of p itself is not looked at. */
  lemma ChainLast(ws: map<int, Frame>, m: BarWords, bar: Bar, p: int)
    requires BarRep(ws, m, bar) && Distinct(bar.queue) && p !in bar.queue && p != 0
    ensures var ws' := LinkLast(SetLink(ws, p, m.back), m.back == 0, m.back, p);
            (m.back == 0 <==> bar.queue == []) && Chain(ws', if m.back == 0 then p else m.front, p, bar.queue + [p]) &&
            forall x :: F(ws', x) == F(ws, x).(link := F(ws', x).link) &&
              (F(ws', x).link != F(ws, x).link ==> x == p || x in bar.queue)
  {
    var q := bar.queue;
    var ws' := LinkLast(SetLink(ws, p, m.back), m.back == 0, m.back, p);
    var r := q + [p];
    if q != [] { assert m.back == q[|q| - 1]; }
    forall i | 0 <= i < |r| - 1 ensures F(ws', r[i]).link == r[i + 1] {
      assert r[i] == q[i] && q[i] in q;
      if i < |q| - 1 { assert q[i] != q[|q| - 1]; }
    }
  }

  /** The words of a barrier p has joined. */
  function JoinedBar(m: BarWords, p: int): BarWords {
    m.(count := Wrap(m.count - 1), front := if m.back == 0 then p else m.front, back := p)
  }

  lemma BarJoinQueues(ws: map<int, Frame>, sem: map<int, SemWords>, bar: map<int, BarWords>, k: K, p: int, b: int)
    requires QueuesRep(ws, sem, bar, k) && Inv(k) && Unthreaded(k, p) && p > 0
    ensures var m := BarAt(bar, b); var ws' := LinkLast(SetLink(ws, p, m.back), m.back == 0, m.back, p);
            QueuesRep(ws', sem, bar[b := JoinedBar(m, p)], JoinBar(k, p, b)) &&
            forall x :: F(ws', x) == F(ws, x).(link := F(ws', x).link) &&
              (F(ws', x).link != F(ws, x).link ==> x == p || x in BarOf(k, b).queue)
  {
    hide OnlyBar, Unthreaded, Inv, JoinBar, QueuesRep, Distinct, LinkLast, BarOf, SemQueue, At, Slots, Wrap, BarRep,
         JoinedBar, BarAt;
    var m := BarAt(bar, b);
    QueuesBarOf(ws, sem, bar, k, p, b);
    BarMembers(k, b);
    UnthreadedOnly(k, p, b);
    JoinBarSlots(k, p, b);
    JoinedRep(ws, m, BarOf(k, b), p);
    QueuesBar(ws, LinkLast(SetLink(ws, p, m.back), m.back == 0, m.back, p), sem, bar, k, JoinBar(k, p, b), b,
              JoinedBar(m, p));
  }

  lemma QueuesBarOf(ws: map<int, Frame>, sem: map<int, SemWords>, bar: map<int, BarWords>, k: K, p: int, b: int)
    requires QueuesRep(ws, sem, bar, k) && Unthreaded(k, p)
    ensures BarRep(ws, BarAt(bar, b), BarOf(k, b)) && p !in BarOf(k, b).queue
  {
  }

  lemma BarJoinMem(im: Image, k: K, p: int, b: int)
    requires MemRep(im, k) && Inv(k) && At(k, p) == Halted && IsProcess(p)
    ensures var m := BarAt(im.bar, b);
            MemRep(im.(ws := LinkLast(SetLink(im.ws, p, m.back), m.back == 0, m.back, p),
                       bar := im.bar[b := JoinedBar(m, p)]), JoinBar(k, p, b))
  {
    hide OnlyBar, Inv, JoinBar, MemRep, QueuesRep, Distinct, LinkLast, BarOf, SemQueue, At, Slots, Wrap, JoinedBar;
    var m, k' := BarAt(im.bar, b), JoinBar(k, p, b);
    var ws' := LinkLast(SetLink(im.ws, p, m.back), m.back == 0, m.back, p);
    QueuesOf(im, k);
    BarMembers(k, b);
    LooseAt(k, p);
    JoinBarSlots(k, p, b);
    BarJoinQueues(im.ws, im.sem, im.bar, k, p, b);
    LinkMem(im, ws', im.sem, im.bar[b := JoinedBar(m, p)], k, k');
  }

  lemma JoinedRep(ws: map<int, Frame>, m: BarWords, bar: Bar, p: int)
    requires BarRep(ws, m, bar) && Distinct(bar.queue) && p !in bar.queue && p != 0
    ensures var ws' := LinkLast(SetLink(ws, p, m.back), m.back == 0, m.back, p);
            BarRep(ws', JoinedBar(m, p), Bar(bar.enrolled, Wrap(bar.count - 1), bar.queue + [p])) &&
            forall x :: F(ws', x) == F(ws, x).(link := F(ws', x).link) &&
              (F(ws', x).link != F(ws, x).link ==> x == p || x in bar.queue)
  {
    hide Wrap, LinkLast, Distinct;
    ChainLast(ws, m, bar, p);
  }

  /** The slots of processes let go from a barrier. */
  lemma SpliceSlots(ws: map<int, Frame>, ws': map<int, Frame>, k: K, b: int, e: Word)
    requires SlotsRep(ws, k) && Inv(k)
    requires forall x ::
             F(ws', x) == F(ws, x).(link := F(ws', x).link) &&
             (x !in k.runq && x !in BarOf(k, b).queue ==> F(ws', x) == F(ws, x))
    ensures SlotsRep(ws', BarComplete(k, b, e))
  {
    var k', q := BarComplete(k, b, e), BarOf(k, b).queue;
    hide Inv, BarComplete, Distinct, BarOf, Slots, At, F;
    CompleteSlots(k, b, e);
    RunDistinct(k);
    forall x ensures SlotRep(F(ws', x), Slots(k', x), x in k'.timq, OnChannel(At(k', x))) {
      assert SlotRep(F(ws, x), Slots(k, x), x in k.timq, OnChannel(At(k, x)));
    }
  }

  lemma SpliceQueues(ws: map<int, Frame>, ws': map<int, Frame>, sem: map<int, SemWords>, bar: map<int, BarWords>,
                     k: K, b: int, e: Word)
    requires QueuesRep(ws, sem, bar, k) && Inv(k)
    requires forall x ::
             F(ws', x) == F(ws, x).(link := F(ws', x).link) &&
             (x !in k.runq && x !in BarOf(k, b).queue ==> F(ws', x) == F(ws, x))
    ensures QueuesRep(ws', sem, bar[b := BarWords(e, e, 0, 0)], BarComplete(k, b, e))
  {
    CompleteSlots(k, b, e);
    BarMembers(k, b);
    RunDistinct(k);
    hide Inv, BarComplete, Distinct, SemQueue, Slots, At;
    QueuesBar(ws, ws', sem, bar, k, BarComplete(k, b, e), b, BarWords(e, e, 0, 0));
  }

  /** The queue of a barrier spliced behind the run queue. */
  lemma SpliceMem(im: Image, ws': map<int, Frame>, fptr': int, bptr': int, k: K, b: int, e: Word)
    requires MemRep(im, k) && Inv(k)
    requires Queue(ws', fptr', bptr', k.runq + BarOf(k, b).queue)
    requires forall x ::
             F(ws', x) == F(im.ws, x).(link := F(ws', x).link) &&
             (x !in k.runq && x !in BarOf(k, b).queue ==> F(ws', x) == F(im.ws, x))
    ensures MemRep(im.(ws := ws', fptr := fptr', bptr := bptr', bar := im.bar[b := BarWords(e, e, 0, 0)]),
                   BarComplete(k, b, e))
  {
    CompleteSlots(k, b, e);
    hide Inv, BarComplete, Queue, BarOf, SlotsRep, QueuesRep, Timed, Slots, At;
    SpliceSlots(im.ws, ws', k, b, e);
    SpliceQueues(im.ws, ws', im.sem, im.bar, k, b, e);
    TimedFrame(im.ws, ws', im.tptr, k.timq);
    SpliceTimes(k, b, e);
  }

  /** Only a barrier's counts change. */
  lemma BarCountMem(im: Image, k: K, b: int, e: Word, n: Word)
    requires MemRep(im, k)
    ensures var k' := SetBar(k, b, BarOf(k, b).(enrolled := e, count := n));
            MemRep(im.(bar := im.bar[b := BarAt(im.bar, b).(enrolled := e, count := n)]), k') && k' == k.(bar := k'.bar)
  {
    var k' := SetBar(k, b, BarOf(k, b).(enrolled := e, count := n));
    assert forall x :: Slots(k', x) == Slots(k, x) && At(k', x) == At(k, x);
    hide Queue, SlotsRep, Timed, Linked;
    assert BarRep(im.ws, BarAt(im.bar, b), BarOf(k, b));
    QueuesBar(im.ws, im.ws, im.sem, im.bar, k, k', b, BarAt(im.bar, b).(enrolled := e, count := n));
    LinkMem(im, im.ws, im.sem, im.bar[b := BarAt(im.bar, b).(enrolled := e, count := n)], k, k');
  }

  lemma BarWordsOf(im: Image, k: K, b: int)
    requires MemRep(im, k) && Inv(k)
    ensures BarRep(im.ws, BarAt(im.bar, b), BarOf(k, b)) && Distinct(k.runq + BarOf(k, b).queue) &&
            Queue(im.ws, im.fptr, im.bptr, k.runq)
    ensures BarAt(im.bar, b).front == 0 <==> BarOf(k, b).queue == []
  {
    BarMembers(k, b);
    RunDistinct(k);
    assert BarRep(im.ws, BarAt(im.bar, b), BarOf(k, b));
    BothDistinct(k.runq, BarOf(k, b).queue);
  }

  lemma BothDistinct(q: seq<int>, r: seq<int>)
    requires Distinct(q) && Distinct(r) && forall x :: x in r ==> x !in q
    ensures Distinct(q + r)
  {
    var s := q + r;
    forall i, j | 0 <= i < j < |s| ensures s[i] != s[j] {
      if i < |q| <= j { assert s[i] in q && s[j] in r; }
    }
  }
}
