/** What every state of the kernel keeps, and that every step keeps it. */
module KernelInv {
  import opened Words
  import opened Kernel

  ghost predicate NoDup(q: seq<int>) {
    forall i, j :: 0 <= i < j < |q| ==> q[i] != q[j]
  }

  // ----- places

  /** A process is running exactly if it is current, and queued exactly if it is on the run queue, once. */
  ghost predicate Placed(k: K) {
    && (forall p :: At(k, p) != Halted ==> IsProcess(p))
    && (forall p :: At(k, p) == Running ==> p == k.cur)
    && (k.cur != 0 ==> At(k, k.cur) == Running)
    && NoDup(k.runq)
    && (forall p :: p in k.runq ==> At(k, p) == Queued)
    && (forall p :: At(k, p) == Queued ==> p in k.runq)
  }

  predicate OnChannel(pl: Place) {
    pl.Sending? || pl.Receiving?
  }

  /** A process is blocked on a channel exactly if the channel word names it; a tagged word names an ALTer that
   enabled the channel. */
  ghost predicate ChannelsOk(k: K) {
    && (forall p :: At(k, p).Sending? ==> ChanWord(k, At(k, p).c) == p)
    && (forall p :: At(k, p).Receiving? ==> ChanWord(k, At(k, p).c) == p)
    && (forall c :: WordOk(k, c))
  }

  ghost predicate WordOk(k: K, c: int) {
    var v := ChanWord(k, c);
    || v == 0 || v == 1
    || (IsProcess(v) && (At(k, v) == Sending(c) || At(k, v) == Receiving(c)))
    || (IsProcess(v - 1) && v - 1 in k.alts && Chan(c) in Info(k, v - 1).todo)
  }

  /** A process is queued on a semaphore exactly if the semaphore's queue holds it. */
  ghost predicate SemsOk(k: K) {
    && (forall s :: SemOk(k, s))
    && (forall p :: At(k, p).OnSem? ==> p in SemQueue(k, At(k, p).s))
  }

  ghost predicate SemOk(k: K, s: int) {
    NoDup(SemQueue(k, s)) && forall p :: p in SemQueue(k, s) ==> At(k, p) == OnSem(s)
  }

  /** Likewise for barriers. */
  ghost predicate BarsOk(k: K) {
    && (forall b :: BarOk(k, b))
    && (forall p :: At(k, p).OnBar? ==> p in BarOf(k, At(k, p).b).queue)
  }

  ghost predicate BarOk(k: K, b: int) {
    var bar := BarOf(k, b);
    NoDup(bar.queue) && forall p :: p in bar.queue ==> At(k, p) == OnBar(b)
  }

  // ----- the timer queue

  predicate HasTimer(todo: seq<Guard>) {
    exists g :: g in todo && g.Timer?
  }

  /** The timer queue is in time order and its members wait for a time, alone or as an ALT with timer guards. */
  ghost predicate TimersOk(k: K) {
    && NoDup(k.timq) && (k.timq != [] ==> k.tq)
    && Sorted(k, k.timq)
    && (forall p :: p in k.timq ==> OnTimer(k, p))
    && (forall p :: At(k, p) == TimerWait ==> p in k.timq)
  }

  ghost predicate Sorted(k: K, q: seq<int>) {
    forall i, j :: 0 <= i < j < |q| ==> !TimeAfter(Slots(k, q[i]).time, Slots(k, q[j]).time)
  }

  ghost predicate OnTimer(k: K, p: int) {
    && IsProcess(p) && Slots(k, p).tlink == ON_QUEUE
    && if p in k.alts
       then Info(k, p).timed && HasTimer(Info(k, p).todo) &&
       (Info(k, p).phase == Waiting || Info(k, p).phase == Disabling)
       else At(k, p) == TimerWait && Slots(k, p).state == 0
  }

  // ----- ALTs

  /** A guard that would be selected if it were disabled now. */
  predicate Ready(k: K, p: int, g: Guard) {
    match g
    case Chan(c) => ChanWord(k, c) != 0 && ChanWord(k, c) != p + 1
    case Skip => true
    case Timer(t) => Slots(k, p).tlink == TIME_SET && !TimeAfter(t, Slots(k, p).time)
  }

  ghost predicate SomeReady(k: K, p: int) {
    exists g :: g in Info(k, p).todo && Ready(k, p, g)
  }

  /** Some guard other than a timer is ready. */
  ghost predicate SomeNow(k: K, p: int) {
    exists g :: g in Info(k, p).todo && !g.Timer? && Ready(k, p, g)
  }

  /** No guard is ready and each channel guarded carries the ALTer's tag, so that whoever arrives will see it. */
  ghost predicate Armed(k: K, p: int) {
    && Skip !in Info(k, p).todo
    && forall c :: Chan(c) in Info(k, p).todo ==> ChanWord(k, c) == p + 1
  }

  /** m is the earliest of the timer guards. */
  ghost predicate Earliest(todo: seq<Guard>, m: Word) {
    Timer(m) in todo && forall t :: Timer(t) in todo ==> !TimeAfter(m, t)
  }

  /** While enabling, WS_TIME holds the earliest timeout so far. */
  ghost predicate TimersNoted(k: K, p: int) {
    var a, w := Info(k, p), Slots(k, p);
    if !a.timed then !HasTimer(a.todo)
    else if HasTimer(a.todo) then w.tlink == TIME_SET && Earliest(a.todo, w.time)
    else w.tlink == TIME_NOT_SET
  }

  /** A waiting timer ALT is queued for the tick after its earliest timeout. */
  ghost predicate TimerSet(k: K, p: int) {
    var a, w := Info(k, p), Slots(k, p);
    if HasTimer(a.todo) then p in k.timq && exists m: Word :: Earliest(a.todo, m) && w.time == Wrap(m + 1)
    else p !in k.timq
  }

  ghost predicate AltOk(k: K, p: int) {
    var a, w := Info(k, p), Slots(k, p);
    && IsProcess(p)
    && (forall c :: Chan(c) in a.todo && IsProcess(ChanWord(k, c)) ==> At(k, ChanWord(k, c)) == Sending(c))
    && (a.timed ==> w.tlink == TIME_SET || w.tlink == TIME_NOT_SET || p in k.timq)
    && (!a.timed ==> !HasTimer(a.todo) && p !in k.timq)
    && match a.phase
       case Enabling =>
         At(k, p) == Running && p !in k.timq && TimersNoted(k, p) &&
         if w.state == READY then SomeNow(k, p) else w.state == ENABLING && Armed(k, p)
       case Waiting =>
         w.temp == NONE_SELECTED &&
         if w.state == WAITING then At(k, p) == AltWait && Armed(k, p) && TimerSet(k, p)
         else w.state == READY && Awake(k, p) && SomeReady(k, p)
       case Disabling =>
         At(k, p) == Running && w.state == READY && (w.temp == NONE_SELECTED ==> SomeReady(k, p))
       case Extended =>
         && |a.todo| == 1 && a.todo[0].Chan?
         && if w.state == WAITING then At(k, p) == AltWait && Armed(k, p)
            else w.state == READY && Awake(k, p) && SomeReady(k, p)
  }

  predicate Awake(k: K, p: int) {
    At(k, p) == Halted || At(k, p) == Queued || At(k, p) == Running
  }

  ghost predicate AltsOk(k: K) {
    && (forall p :: p in k.alts ==> AltOk(k, p))
    && (forall p :: At(k, p) == AltWait ==> p in k.alts)
    && (forall p, q, c {:trigger Uses(k, p, c), Uses(k, q, c)} :: Uses(k, p, c) && Uses(k, q, c) ==> p == q)
  }

  /** An ALT of p has channel c among its guards. */
  predicate Uses(k: K, p: int, c: int) {
    p in k.alts && Chan(c) in Info(k, p).todo
  }

  ghost predicate Inv(k: K) {
    Placed(k) && ChannelsOk(k) && SemsOk(k) && BarsOk(k) && TimersOk(k) && AltsOk(k)
  }

  // ----- an ALT looked at from outside

  /** The ALT of p has gone to sleep, though it may have been woken since. */
  predicate Asleep(k: K, p: int) {
    Info(k, p).phase == Waiting || Info(k, p).phase == Extended
  }

  /** What AltOk(k, p) depends on is unchanged. */
  ghost predicate SameAlt(k: K, k': K, p: int) {
    var w, w' := Slots(k, p), Slots(k', p);
    && Info(k', p) == Info(k, p) && w'.temp == w.temp && w'.state == w.state && w'.tlink == w.tlink && w'.time == w.time
    && (At(k', p) == At(k, p) || (Asleep(k, p) && Awake(k, p) && Awake(k', p))) && (p in k'.timq <==> p in k.timq)
    && forall c :: Chan(c) in Info(k, p).todo ==>
         ChanWord(k', c) == ChanWord(k, c) &&
         (IsProcess(ChanWord(k, c)) ==> At(k', ChanWord(k, c)) == At(k, ChanWord(k, c)))
  }

  lemma AltKept(k: K, k': K, p: int)
    requires AltOk(k, p) && SameAlt(k, k', p)
    ensures AltOk(k', p)
  {
    hide TimeAfter, IsProcess;
    if SomeReady(k, p) {
      var g :| g in Info(k, p).todo && Ready(k, p, g);
      assert Ready(k', p, g);
    }
    if SomeNow(k, p) {
      var g :| g in Info(k, p).todo && !g.Timer? && Ready(k, p, g);
      assert Ready(k', p, g);
    }
  }

  /** Every ALT but those excepted looks the same. */
  ghost predicate SameAlts(k: K, k': K, but: set<int>) {
    && (forall x :: x !in but ==> (x in k'.alts <==> x in k.alts))
    && forall p :: p in k.alts && p !in but ==> SameAlt(k, k', p)
  }

  lemma AltsKept(k: K, k': K)
    requires AltsOk(k) && SameAlts(k, k', {})
    requires forall p :: At(k', p) == AltWait ==> At(k, p) == AltWait
    ensures AltsOk(k')
  {
    hide AltOk, SameAlt;
    forall p | p in k'.alts ensures AltOk(k', p) {
      AltKept(k, k', p);
    }
    forall p, q, c | Uses(k', p, c) && Uses(k', q, c) ensures p == q {
      InfoKept(k, k', p);
      InfoKept(k, k', q);
      assert Uses(k, p, c) && Uses(k, q, c);
    }
  }

  lemma InfoKept(k: K, k': K, p: int)
    requires SameAlts(k, k', {}) && p in k'.alts
    ensures p in k.alts && Info(k', p) == Info(k, p)
  {
    hide AltOk;
  }

  // ----- moving one process between run queue, processor and nowhere

  predicate Loose(pl: Place) {
    pl == Running || pl == Queued || pl == Halted
  }

  ghost predicate OneMove(k: K, k': K, p: int) {
    forall x :: x != p ==> At(k', x) == At(k, x)
  }

  /** Saved instruction pointers and lengths apart, the slots agree. */
  ghost predicate SameSlots(k: K, k': K) {
    forall x {:trigger Slots(k', x)} :: SameSlot(Slots(k, x), Slots(k', x))
  }

  predicate SameSlot(w: Ws, w': Ws) {
    w'.temp == w.temp && w'.state == w.state && w'.tlink == w.tlink && w'.time == w.time
  }

  /** A process moves between places that are not on a channel, semaphore or barrier. */
  predicate Quiet(pl: Place) {
    !pl.Sending? && !pl.Receiving? && !pl.OnSem? && !pl.OnBar?
  }

  ghost predicate QuietStep(k: K, k': K, p: int) {
    && OneMove(k, k', p) && Quiet(At(k, p)) && Quiet(At(k', p))
    && k'.chan == k.chan && k'.sem == k.sem && k'.bar == k.bar && k'.alts == k.alts
  }

  ghost predicate LooseStep(k: K, k': K, p: int) {
    && QuietStep(k, k', p) && Loose(At(k, p)) && Loose(At(k', p)) && SameSlots(k, k') && (p in k.alts ==> Asleep(k, p))
    && k'.timq == k.timq && k'.tq == k.tq
  }

  lemma SemsQuiet(k: K, k': K, p: int)
    requires SemsOk(k) && QuietStep(k, k', p)
    ensures SemsOk(k')
  {
    forall s ensures SemOk(k', s) {
      assert SemOk(k, s);
    }
  }

  lemma BarsQuiet(k: K, k': K, p: int)
    requires BarsOk(k) && QuietStep(k, k', p)
    ensures BarsOk(k')
  {
    forall b ensures BarOk(k', b) {
      assert BarOk(k, b);
    }
  }

  lemma ChannelsQuiet(k: K, k': K, p: int)
    requires ChannelsOk(k) && QuietStep(k, k', p)
    ensures ChannelsOk(k')
  {
    hide IsProcess;
    forall c ensures WordOk(k', c) {
      assert WordOk(k, c);
    }
  }

  lemma TimersLoose(k: K, k': K, p: int)
    requires TimersOk(k) && LooseStep(k, k', p)
    ensures TimersOk(k')
  {
    hide IsProcess, TimeAfter, HasTimer;
    forall x | x in k'.timq ensures OnTimer(k', x) {
      assert OnTimer(k, x);
    }
  }

  lemma AltsLoose(k: K, k': K, p: int)
    requires AltsOk(k) && ChannelsOk(k) && LooseStep(k, k', p)
    ensures AltsOk(k')
  {
    hide AltOk, IsProcess, WordOk;
    forall x | x in k.alts ensures SameAlt(k, k', x) {
      forall c | Chan(c) in Info(k, x).todo && IsProcess(ChanWord(k, c))
        ensures At(k', ChanWord(k, c)) == At(k, ChanWord(k, c))
      {
        BlockedThere(k, c);
      }
    }
    AltsKept(k, k');
  }

  /** A process a channel word names is blocked there. */
  lemma BlockedThere(k: K, c: int)
    requires ChannelsOk(k) && IsProcess(ChanWord(k, c))
    ensures At(k, ChanWord(k, c)) == Sending(c) || At(k, ChanWord(k, c)) == Receiving(c)
  {
    assert WordOk(k, c);
  }

  lemma LooseIsQuiet(k: K, k': K, p: int)
    requires LooseStep(k, k', p)
    ensures QuietStep(k, k', p)
  {
  }

  lemma LooseKeeps(k: K, k': K, p: int)
    requires Inv(k) && LooseStep(k, k', p) && Placed(k')
    ensures Inv(k')
  {
    hide Placed, ChannelsOk, SemsOk, BarsOk, TimersOk, AltsOk, LooseStep;
    assert QuietStep(k, k', p) by { LooseIsQuiet(k, k', p); }
    SemsQuiet(k, k', p);
    BarsQuiet(k, k', p);
    ChannelsQuiet(k, k', p);
    TimersLoose(k, k', p);
    AltsLoose(k, k', p);
  }

  lemma ParkKeeps(k: K, iptr: int)
    requires Inv(k) && k.cur != 0 && k.cur !in k.alts
    ensures Inv(Park(k, iptr)) && At(Park(k, iptr), k.cur) == Halted
  {
    hide ChannelsOk, SemsOk, BarsOk, TimersOk, AltsOk, IsProcess;
    LooseKeeps(k, Park(k, iptr), k.cur);
  }

  lemma EnqueueKeeps(k: K, p: int)
    requires Inv(k) && At(k, p) == Halted && IsProcess(p) && (p in k.alts ==> Asleep(k, p))
    ensures Inv(Enqueue(k, p))
  {
    hide ChannelsOk, SemsOk, BarsOk, TimersOk, AltsOk, IsProcess;
    LooseKeeps(k, Enqueue(k, p), p);
  }

  lemma LoadKeeps(k: K, p: int)
    requires Inv(k) && At(k, p) == Halted && IsProcess(p) && k.cur == 0 && (p in k.alts ==> Asleep(k, p))
    ensures Inv(Load(k, p))
  {
    hide ChannelsOk, SemsOk, BarsOk, TimersOk, AltsOk;
    LooseKeeps(k, Load(k, p), p);
  }

  lemma DispatchKeeps(k: K)
    requires Inv(k) && k.cur == 0
    ensures Inv(Dispatch(k))
    ensures k.runq != [] ==> Dispatch(k).cur == k.runq[0] && Dispatch(k).runq == k.runq[1..]
  {
    hide SemOk, BarOk, ChanWord, ChannelsOk, SemsOk, BarsOk, AltsOk, TimersOk;
    if k.runq != [] {
      var p, k' := k.runq[0], Dispatch(k);
      QueuedAsleep(k, p);
      assert forall x :: x in k.runq ==> x == p || x in k'.runq;
      LooseKeeps(k, k', p);
    }
  }

  lemma QueuedAsleep(k: K, p: int)
    requires Inv(k) && At(k, p) == Queued
    ensures IsProcess(p) && (p in k.alts ==> Asleep(k, p))
  {
    if p in k.alts { assert AltOk(k, p); }
  }

  // ----- the circular clock

  /** The distance from base forward to t. */
  function Ahead(t: Word, base: Word): Word {
    Wrap(t - base)
  }

  /** Inside half the circle, later means further from the base. */
  lemma LaterIsFurther(a: Word, b: Word, base: Word)
    requires Ahead(a, base) < MIN_INT && Ahead(b, base) < MIN_INT
    ensures TimeAfter(a, b) <==> Ahead(a, base) > Ahead(b, base)
  {
    var d := Ahead(a, base) - Ahead(b, base);
    var qa, qb := (a - base) / WORD_MOD, (b - base) / WORD_MOD;
    WrapWitness(a - b, qa - qb + (if d < 0 then -1 else 0), if d < 0 then d + WORD_MOD else d);
  }

  /** The pending times of q and the times given lie in one half of the circle. */
  ghost predicate InWindow(k: K, q: seq<int>, ts: set<Word>, base: Word) {
    && (forall x :: x in q ==> Ahead(Slots(k, x).time, base) < MIN_INT)
    && (forall t :: t in ts ==> Ahead(t, base) < MIN_INT)
  }

  ghost predicate HalfRange(k: K, q: seq<int>, ts: set<Word>) {
    exists base: Word :: InWindow(k, q, ts, base)
  }

  // ----- insertion and removal keep the timer queue in order

  lemma {:induction false} InsertMembers(q: seq<int>, k: K, p: int, t: Word)
    ensures forall x :: x in InsertTime(q, k, p, t) <==> x == p || x in q
  {
    hide TimeAfter;
    if q != [] && !TimeAfter(Slots(k, q[0]).time, t) {
      InsertMembers(q[1..], k, p, t);
    }
  }

  lemma ConsSorted(k: K, x: int, q: seq<int>)
    requires Sorted(k, q) && forall y :: y in q ==> !TimeAfter(Slots(k, x).time, Slots(k, y).time)
    ensures Sorted(k, [x] + q)
  {
    hide TimeAfter;
  }

  lemma ConsNoDup(x: int, q: seq<int>)
    requires NoDup(q) && x !in q
    ensures NoDup([x] + q)
  {
  }

  lemma TailSorted(k: K, q: seq<int>)
    requires Sorted(k, q) && q != []
    ensures Sorted(k, q[1..]) && forall y :: y in q[1..] ==> !TimeAfter(Slots(k, q[0]).time, Slots(k, y).time)
  {
    hide TimeAfter;
  }

  lemma TailNoDup(q: seq<int>)
    requires NoDup(q) && q != []
    ensures NoDup(q[1..]) && q[0] !in q[1..] && forall x :: x in q <==> x == q[0] || x in q[1..]
  {
  }

  /** Insertion keeps the order, with equal times in order of arrival. */
  lemma {:induction false} InsertSorted(k: K, k': K, q: seq<int>, p: int, t: Word, base: Word)
    requires Sorted(k, q) && NoDup(q) && p !in q && InWindow(k, q, {t}, base)
    requires Slots(k', p).time == t && forall x :: x in q ==> Slots(k', x).time == Slots(k, x).time
    ensures Sorted(k', InsertTime(q, k, p, t)) && NoDup(InsertTime(q, k, p, t))
    decreases |q|
  {
    hide TimeAfter, Ahead;
    if q != [] {
      TailSorted(k, q);
      TailNoDup(q);
      LaterIsFurther(Slots(k, q[0]).time, t, base);
      LaterIsFurther(t, Slots(k, q[0]).time, base);
      if TimeAfter(Slots(k, q[0]).time, t) {
        assert Sorted(k', q);
        forall y | y in q ensures !TimeAfter(t, Slots(k', y).time) {
          LaterIsFurther(t, Slots(k, y).time, base);
          LaterIsFurther(Slots(k, q[0]).time, Slots(k, y).time, base);
        }
        ConsSorted(k', p, q);
        ConsNoDup(p, q);
      } else {
        InsertSorted(k, k', q[1..], p, t, base);
        InsertMembers(q[1..], k, p, t);
        ConsSorted(k', q[0], InsertTime(q[1..], k, p, t));
        ConsNoDup(q[0], InsertTime(q[1..], k, p, t));
      }
    }
  }

  lemma {:induction false} RemoveKeepsOrder(k: K, q: seq<int>, p: int)
    requires Sorted(k, q) && NoDup(q)
    ensures Sorted(k, RemoveTime(q, p)) && NoDup(RemoveTime(q, p))
    ensures forall x :: x in RemoveTime(q, p) <==> x in q && x != p
    decreases |q|
  {
    hide TimeAfter;
    if q != [] {
      TailSorted(k, q);
      TailNoDup(q);
      if q[0] != p {
        RemoveKeepsOrder(k, q[1..], p);
        ConsSorted(k, q[0], RemoveTime(q[1..], p));
        ConsNoDup(q[0], RemoveTime(q[1..], p));
      }
    }
  }

  // ----- walking the timer queue

  lemma ExpiredReached(m: Word, now: Word, base: Word)
    requires Ahead(Wrap(m + 1), base) < MIN_INT && Ahead(now, base) < MIN_INT && !TimeAfter(Wrap(m + 1), now)
    ensures !TimeAfter(m, now)
  {
    LaterIsFurther(Wrap(m + 1), now, base);
    var d := Ahead(now, base) - Ahead(Wrap(m + 1), base) + 1;
    WrapWitness(m + 1, if m + 1 == WORD_MOD then 1 else 0, Wrap(m + 1));
    var q := (now - base) / WORD_MOD - (Wrap(m + 1) - base) / WORD_MOD + if m + 1 == WORD_MOD then 1 else 0;
    WrapWitness(m - now, -q - 1 + (if m + 1 == WORD_MOD then 2 else 0), WORD_MOD - d);
  }

  /** The front of the timer queue, which is due. */
  ghost predicate Due(k: K, now: Word) {
    k.timq != [] && !TimeAfter(Slots(k, k.timq[0]).time, now) && HalfRange(k, k.timq, {now})
  }

  /** Only p's slots and place differ. */
  ghost predicate OnlyAt(k: K, k': K, p: int) {
    && (forall x {:trigger Slots(k', x)} :: x != p ==> Slots(k', x) == Slots(k, x))
    && OneMove(k, k', p)
  }

  lemma ExpireEffect(k: K, now: Word)
    requires k.timq != []
    ensures var k', p := Expire(k, now), k.timq[0]; var w, w' := Slots(k, p), Slots(k', p);
            OnlyAt(k, k', p) && k'.cur == k.cur && k'.tq == k.tq && k'.timq == k.timq[1..] &&
            k'.chan == k.chan && k'.sem == k.sem && k'.bar == k.bar && k'.alts == k.alts &&
            w'.tlink == TIME_SET && w'.time == now && w'.state == READY && w'.temp == w.temp &&
            if w.state == READY then k'.runq == k.runq && At(k', p) == At(k, p)
              else k'.runq == k.runq + [p] && At(k', p) == Queued
  {
    hide Enqueue;
    var p, k1 := k.timq[0], k.(timq := k.timq[1..]);
    var w := Slots(k, p).(tlink := TIME_SET, time := now, state := READY);
    var k2 := SetWs(k1, p, w);
    OnlyChain(k, k1, k2, p);
    EnqueueEffect(k2, p);
    OnlyChain(k, k2, Enqueue(k2, p), p);
  }

  lemma EnqueueEffect(k: K, p: int)
    ensures var k' := Enqueue(k, p);
            OnlyAt(k, k', p) && k'.runq == k.runq + [p] && At(k', p) == Queued && SameSlot(Slots(k, p), Slots(k', p)) &&
            k'.cur == k.cur && k'.tq == k.tq && k'.timq == k.timq && k'.chan == k.chan && k'.sem == k.sem &&
            k'.bar == k.bar &&
            k'.alts == k.alts && k'.env == k.env
  {
  }

  lemma ExpireTimers(k: K, now: Word)
    requires Inv(k) && Due(k, now)
    ensures TimersOk(Expire(k, now)) && HalfRange(Expire(k, now), Expire(k, now).timq, {now})
  {
    hide TimeAfter, HasTimer, Ahead, ChannelsOk, SemsOk, BarsOk, AltsOk, IsProcess, Expire, Placed;
    var k', p, q := Expire(k, now), k.timq[0], k.timq[1..];
    ExpireEffect(k, now);
    TimerQuiet(k, p);
    TailSorted(k, k.timq);
    TailNoDup(k.timq);
    forall x | x in q ensures OnTimer(k', x) {
      assert OnTimer(k, x);
    }
    assert Sorted(k', q);
    assert forall x :: At(k', x) == TimerWait ==> x in q;
    var base: Word :| InWindow(k, k.timq, {now}, base);
    assert InWindow(k', q, {now}, base);
  }

  /** An expired timer ALT has a ready guard. */
  lemma ExpireAlt(k: K, now: Word)
    requires Inv(k) && Due(k, now) && k.timq[0] in k.alts
    ensures AltOk(Expire(k, now), k.timq[0])
  {
    hide TimeAfter, Ahead, SemsOk, BarsOk, IsProcess, Expire, Placed, WordOk;
    var k', p := Expire(k, now), k.timq[0];
    ExpireEffect(k, now);
    assert AltOk(k, p) && OnTimer(k, p);
    TailNoDup(k.timq);
    OtherSenders(k, k', p, p);
    if Slots(k, p).state == WAITING {
      TimerDue(k, now);
      assert SomeReady(k', p);
    } else if SomeReady(k, p) {
      var g :| g in Info(k, p).todo && Ready(k, p, g);
      assert Ready(k', p, g);
    }
  }

  /** Senders on the channels of an ALT are elsewhere than its own process. */
  lemma OtherSenders(k: K, k': K, p: int, x: int)
    requires ChannelsOk(k) && OneMove(k, k', p) && Quiet(At(k, p)) && k'.chan == k.chan
    ensures forall c :: IsProcess(ChanWord(k, c)) ==> At(k', ChanWord(k', c)) == At(k, ChanWord(k, c))
  {
    hide IsProcess, WordOk;
    forall c | IsProcess(ChanWord(k, c)) ensures At(k', ChanWord(k', c)) == At(k, ChanWord(k, c)) {
      BlockedThere(k, c);
    }
  }

  lemma TimerDue(k: K, now: Word)
    requires Inv(k) && Due(k, now) && k.timq[0] in k.alts && Slots(k, k.timq[0]).state == WAITING
    ensures SomeReady(Expire(k, now), k.timq[0])
  {
    hide TimeAfter, Ahead, ChannelsOk, SemsOk, BarsOk, IsProcess, Expire, Placed;
    var k', p := Expire(k, now), k.timq[0];
    ExpireEffect(k, now);
    assert AltOk(k, p) && OnTimer(k, p);
    var m: Word :| Earliest(Info(k, p).todo, m) && Slots(k, p).time == Wrap(m + 1);
    var base: Word :| InWindow(k, k.timq, {now}, base);
    ExpiredReached(m, now, base);
    assert Ready(k', p, Timer(m));
  }

  lemma ExpireAlts(k: K, now: Word)
    requires Inv(k) && Due(k, now)
    ensures AltsOk(Expire(k, now))
  {
    hide TimeAfter, SemsOk, BarsOk, IsProcess, AltOk, WordOk, Expire, Placed, HalfRange;
    var k', p := Expire(k, now), k.timq[0];
    ExpireEffect(k, now);
    TimerQuiet(k, p);
    TailNoDup(k.timq);
    OtherSenders(k, k', p, p);
    forall x | x in k.alts ensures AltOk(k', x) {
      if x == p { ExpireAlt(k, now); } else { AltKept(k, k', x); }
    }
    forall x, y, c | Uses(k', x, c) && Uses(k', y, c) ensures x == y {
      assert Uses(k, x, c) && Uses(k, y, c);
    }
  }

  lemma TimerQuiet(k: K, p: int)
    requires Inv(k) && p in k.timq
    ensures Quiet(At(k, p)) && IsProcess(p) && OnTimer(k, p)
    ensures if Slots(k, p).state == READY then Loose(At(k, p)) else At(k, p) == TimerWait || At(k, p) == AltWait
  {
    assert OnTimer(k, p);
    if p in k.alts { assert AltOk(k, p); }
  }

  lemma ExpireKeeps(k: K, now: Word)
    requires Inv(k) && Due(k, now)
    ensures Inv(Expire(k, now)) && HalfRange(Expire(k, now), Expire(k, now).timq, {now})
  {
    hide TimeAfter, ChannelsOk, SemsOk, BarsOk, TimersOk, AltsOk, AltOk, OnTimer, HalfRange, Expire, IsProcess;
    var k', p := Expire(k, now), k.timq[0];
    ExpireEffect(k, now);
    TimerQuiet(k, p);
    ExpireTimers(k, now);
    ExpireAlts(k, now);
    SemsQuiet(k, k', p);
    BarsQuiet(k, k', p);
    ChannelsQuiet(k, k', p);
  }

  lemma {:induction false} WalkKeeps(k: K, now: Word)
    requires Inv(k) && HalfRange(k, k.timq, {now})
    ensures Inv(Walk(k, now)) && Walk(k, now).cur == k.cur
    decreases |k.timq|
  {
    hide Inv, HalfRange, TimeAfter, Expire;
    if k.timq != [] && !TimeAfter(Slots(k, k.timq[0]).time, now) {
      ExpireKeeps(k, now);
      ExpireEffect(k, now);
      WalkKeeps(Expire(k, now), now);
    }
  }

  lemma SyncKeeps(k: K, now: Word)
    requires Inv(k) && HalfRange(k, k.timq, {now})
    ensures Inv(Sync(k, now)) && Sync(k, now).cur == k.cur
  {
    hide Walk, Placed;
    WalkKeeps(k, now);
    var k1, k' := Walk(k, now), Sync(k, now);
    if k1.timq == [] {
      FlagsKeep(k1, k');
    }
  }

  /** The timer flag may drop once the queue is empty. */
  lemma FlagsKeep(k: K, k': K)
    requires Inv(k) && k.timq == [] && k' == k.(tq := false)
    ensures Inv(k')
  {
    hide ChannelsOk, SemsOk, BarsOk, AltsOk, NoDup, SemOk, BarOk, BarOf, SemQueue, AltOk, WordOk, ChanWord, Info;
    SamePlaces(k, k');
    FlagAlts(k, k');
    SemsQuiet(k, k', 0);
    BarsQuiet(k, k', 0);
    ChannelsQuiet(k, k', 0);
  }

  lemma FlagAlts(k: K, k': K)
    requires AltsOk(k) && k' == k.(tq := false)
    ensures AltsOk(k')
  {
    hide AltOk;
    AltsKept(k, k');
  }

  lemma RunNextKeeps(k: K, now: Word)
    requires Inv(k) && k.cur == 0 && HalfRange(k, k.timq, {now})
    ensures Inv(RunNext(k, now))
  {
    hide Inv, Sync, Dispatch;
    if k.tq { SyncKeeps(k, now); DispatchKeeps(Sync(k, now)); } else { DispatchKeeps(k); }
  }

  // ----- a process blocks

  /** No process moves on or off a semaphore or barrier. */
  ghost predicate OffQueues(k: K, k': K) {
    && k'.sem == k.sem && k'.bar == k.bar
    && forall x :: At(k', x) == At(k, x) || (OffQueue(At(k, x)) && OffQueue(At(k', x)))
  }

  predicate OffQueue(pl: Place) {
    !pl.OnSem? && !pl.OnBar?
  }

  lemma QueuesKept(k: K, k': K)
    requires SemsOk(k) && BarsOk(k) && OffQueues(k, k')
    ensures SemsOk(k') && BarsOk(k')
  {
    forall s ensures SemOk(k', s) {
      assert SemOk(k, s);
    }
    forall b ensures BarOk(k', b) {
      assert BarOk(k, b);
    }
  }

  /** A halted process with no ALT is on no queue. */
  lemma HaltedNotTimed(k: K, p: int)
    requires Inv(k) && At(k, p) == Halted && p !in k.alts
    ensures p !in k.timq && p !in k.runq
  {
    forall x | x in k.timq ensures x != p { assert OnTimer(k, x); }
  }

  /** A halted process goes to wait somewhere. */
  lemma PlacedAway(k: K, k': K, p: int)
    requires Placed(k) && OneMove(k, k', p) && At(k, p) == Halted && IsProcess(p) && !Loose(At(k', p))
    requires k'.runq == k.runq && k'.cur == k.cur
    ensures Placed(k')
  {
  }

  /** A process with no ALT changes its slots and moves off or on the timer queue. */
  lemma PlainStepKeeps(k: K, k': K, p: int)
    requires Inv(k) && QuietStep(k, k', p) && OnlyAt(k, k', p) && p !in k.alts && At(k', p) != AltWait
    requires Placed(k') && TimersOk(k') && forall x :: x != p ==> (x in k'.timq <==> x in k.timq)
    ensures Inv(k')
  {
    hide Placed, TimersOk, AltOk, WordOk, IsProcess;
    ChannelsQuiet(k, k', p);
    QueuesKept(k, k');
    OtherSenders(k, k', p, p);
    AltsKept(k, k');
  }

  lemma AwaitTimeKeeps(k: K, p: int, t: Word, iptr: int)
    requires Inv(k) && At(k, p) == Halted && IsProcess(p) && p !in k.alts && HalfRange(k, k.timq, {t})
    ensures Inv(AwaitTime(k, p, t, iptr)) && AwaitTime(k, p, t, iptr).cur == k.cur
  {
    var k' := AwaitTime(k, p, t, iptr);
    hide InsertTime, IsProcess, ChannelsOk, SemsOk, BarsOk, TimersOk, AltsOk;
    InsertMembers(k.timq, k, p, t);
    AwaitTimers(k, p, t, iptr);
    PlacedAway(k, k', p);
    PlainStepKeeps(k, k', p);
  }

  lemma AwaitTimers(k: K, p: int, t: Word, iptr: int)
    requires Inv(k) && At(k, p) == Halted && IsProcess(p) && p !in k.alts && HalfRange(k, k.timq, {t})
    ensures TimersOk(AwaitTime(k, p, t, iptr))
  {
    hide InsertTime, TimeAfter, Ahead, IsProcess, AltOk, WordOk, HasTimer, Placed, SemsOk, BarsOk, ChannelsOk, AltsOk;
    var k' := AwaitTime(k, p, t, iptr);
    HaltedNotTimed(k, p);
    InsertMembers(k.timq, k, p, t);
    var base: Word :| InWindow(k, k.timq, {t}, base);
    InsertSorted(k, k', k.timq, p, t, base);
    forall x | x in k'.timq ensures OnTimer(k', x) {
      if x != p { assert OnTimer(k, x); }
    }
  }

  /** What Arrive does, entry by entry. */
  ghost predicate Arrived(k: K, k': K, p: int, c: int, sending: bool) {
    var v := ChanWord(k, c);
    var q := if v % 2 == 1 && v != 1 then v - 1 else 0;
    && (forall x :: ChanWord(k', x) == if x == c then p else ChanWord(k, x))
    && (forall x :: At(k', x) ==
         if x == p then (if sending then Sending(c) else Receiving(c))
         else if x == q && q != 0 && Slots(k, q).state == WAITING then Halted else At(k, x))
    && (forall x {:trigger Slots(k', x)} :: x != p ==>
          Slots(k', x) == if x == q && q != 0 && Slots(k, q).state == WAITING then Slots(k, x).(state := READY)
          else Slots(k, x))
    && k'.runq == k.runq && k'.timq == k.timq && k'.tq == k.tq && k'.sem == k.sem && k'.bar == k.bar &&
       k'.alts == k.alts && k'.cur == k.cur
  }

  /** With no process running, an ALT is asleep and either waiting or ready. */
  lemma NoneRunning(k: K, q: int)
    requires Inv(k) && k.cur == 0 && q in k.alts
    ensures Asleep(k, q) && IsProcess(q) && (Slots(k, q).state == WAITING || Slots(k, q).state == READY)
    ensures Slots(k, q).state == WAITING ==> At(k, q) == AltWait && Armed(k, q)
    ensures Slots(k, q).state == READY ==> Awake(k, q) && SomeReady(k, q)
  {
    assert AltOk(k, q);
  }

  lemma TagUses(k: K, c: int)
    requires ChannelsOk(k) && ChanWord(k, c) % 2 == 1 && ChanWord(k, c) != 1
    ensures Uses(k, ChanWord(k, c) - 1, c) && IsProcess(ChanWord(k, c) - 1)
  {
    assert WordOk(k, c);
  }

  lemma ArriveEffect(k: K, p: int, c: int, sending: bool, ptr: int, len: int)
    requires Inv(k) && k.cur == 0 && At(k, p) == Halted && IsProcess(p) && p !in k.alts
    ensures Arrived(k, Arrive(k, p, c, sending, ptr, len), p, c, sending)
  {
    hide Placed, SemsOk, BarsOk, TimersOk, AltsOk, Arrive, Arrived;
    if ChanWord(k, c) % 2 == 1 && ChanWord(k, c) != 1 {
      TagUses(k, c);
      NoneRunning(k, ChanWord(k, c) - 1);
    }
    hide ChannelsOk;
    ArriveEntries(k, p, c, sending, ptr, len);
  }

  lemma ArriveEntries(k: K, p: int, c: int, sending: bool, ptr: int, len: int)
    requires var v := ChanWord(k, c);
             v % 2 == 1 && v != 1 ==>
             v != 1 + p && (Slots(k, v - 1).state == WAITING || Slots(k, v - 1).state == READY)
    ensures Arrived(k, Arrive(k, p, c, sending, ptr, len), p, c, sending)
  {
    hide Settle, Wake;
    var v := ChanWord(k, c);
    var k1 := if v % 2 == 1 && v != 1 then Wake(k, v - 1) else k;
    if v % 2 == 1 && v != 1 { WakeEntries(k, v - 1); }
    SettleEntries(k1, p, c, sending, ptr, len);
  }

  lemma WakeEntries(k: K, q: int)
    requires Slots(k, q).state == WAITING || Slots(k, q).state == READY
    ensures var k' := Wake(k, q);
            (forall x :: ChanWord(k', x) == ChanWord(k, x)) &&
            (forall x :: At(k', x) == if x == q && Slots(k, q).state == WAITING then Halted else At(k, x)) &&
            (forall x {:trigger Slots(k', x)} :: Slots(k', x) == if x == q then Slots(k, x).(state := READY)
             else Slots(k, x)) &&
            k'.runq == k.runq && k'.timq == k.timq && k'.tq == k.tq && k'.sem == k.sem && k'.bar == k.bar &&
            k'.alts == k.alts && k'.cur == k.cur
  {
  }

  lemma SettleEntries(k: K, p: int, c: int, sending: bool, ptr: int, len: int)
    ensures var k' := Settle(k, p, c, sending, ptr, len);
            (forall x :: ChanWord(k', x) == if x == c then p else ChanWord(k, x)) &&
            (forall x :: At(k', x) == if x == p then (if sending then Sending(c) else Receiving(c)) else At(k, x)) &&
            (forall x {:trigger Slots(k', x)} :: x != p ==> Slots(k', x) == Slots(k, x)) &&
            k'.runq == k.runq && k'.timq == k.timq && k'.tq == k.tq && k'.sem == k.sem && k'.bar == k.bar &&
            k'.alts == k.alts && k'.cur == k.cur
  {
  }

  /** The ALTs after an arrival: one that uses the channel is ready, the others look the same. */
  lemma AltArrived(k: K, k': K, p: int, c: int, sending: bool, x: int)
    requires Inv(k) && k.cur == 0 && At(k, p) == Halted && IsProcess(p) && p !in k.alts && x in k.alts &&
             Arrived(k, k', p, c, sending) && (!sending ==> !Uses(k, x, c))
    requires ChanWord(k, c) == 0 || (ChanWord(k, c) % 2 == 1 && ChanWord(k, c) != 1)
    ensures AltOk(k', x)
  {
    hide Placed, SemsOk, BarsOk, TimersOk, TimeAfter, TimerSet;
    NoneRunning(k, x);
    if ChanWord(k, c) != 0 { TagUses(k, c); }
    if Uses(k, x, c) {
      assert AltOk(k, x);
      forall d | Chan(d) in Info(k, x).todo && IsProcess(ChanWord(k', d))
        ensures At(k', ChanWord(k', d)) == Sending(d) {
        if d != c { BlockedThere(k, d); }
      }
      assert Ready(k', x, Chan(c));
      assert Slots(k', x).state == READY && SomeReady(k', x);
    } else {
      forall d | Chan(d) in Info(k, x).todo && IsProcess(ChanWord(k, d))
        ensures At(k', ChanWord(k, d)) == At(k, ChanWord(k, d))
      {
        BlockedThere(k, d);
      }
      assert SameAlt(k, k', x);
      AltKept(k, k', x);
    }
  }

  lemma ArrivedChannels(k: K, k': K, p: int, c: int, sending: bool)
    requires Inv(k) && k.cur == 0 && At(k, p) == Halted && IsProcess(p) && Arrived(k, k', p, c, sending)
    requires ChanWord(k, c) == 0 || (ChanWord(k, c) % 2 == 1 && ChanWord(k, c) != 1)
    ensures ChannelsOk(k')
  {
    hide SemsOk, BarsOk, TimersOk, AltsOk, NoDup;
    if ChanWord(k, c) != 0 { TagUses(k, c); TagMoves(k, c); }
    forall d ensures WordOk(k', d) {
      assert WordOk(k, d);
    }
  }

  lemma TagMoves(k: K, c: int)
    requires Inv(k) && k.cur == 0 && ChanWord(k, c) % 2 == 1 && ChanWord(k, c) != 1
    ensures var q := ChanWord(k, c) - 1; Slots(k, q).state == WAITING ==> At(k, q) == AltWait
  {
    TagUses(k, c);
    NoneRunning(k, ChanWord(k, c) - 1);
  }

  lemma ArrivedTimers(k: K, k': K, p: int, c: int, sending: bool)
    requires Inv(k) && k.cur == 0 && At(k, p) == Halted && p !in k.alts && Arrived(k, k', p, c, sending)
    ensures TimersOk(k')
  {
    hide SemOk, BarOk, ChanWord, Placed, SemsOk, BarsOk, AltsOk, ChannelsOk, IsProcess, HasTimer, TimeAfter;
    HaltedNotTimed(k, p);
    if ChanWord(k, c) % 2 == 1 && ChanWord(k, c) != 1 { TagUses(k, c); TagMoves(k, c); }
    forall x | x in k'.timq ensures OnTimer(k', x) {
      assert OnTimer(k, x);
    }
  }

  lemma ArrivedAlts(k: K, k': K, p: int, c: int, sending: bool)
    requires Inv(k) && k.cur == 0 && At(k, p) == Halted && IsProcess(p) && p !in k.alts && Arrived(k, k', p, c, sending)
    requires ChanWord(k, c) == 0 || (ChanWord(k, c) % 2 == 1 && ChanWord(k, c) != 1)
    requires !sending ==> forall q :: !Uses(k, q, c)
    ensures AltsOk(k')
  {
    hide AltOk, Placed, SemsOk, BarsOk, ChannelsOk, TimersOk;
    forall x | x in k'.alts ensures AltOk(k', x) {
      AltArrived(k, k', p, c, sending, x);
    }
    forall x, y, d | Uses(k', x, d) && Uses(k', y, d) ensures x == y {
      assert Uses(k, x, d) && Uses(k, y, d);
    }
  }

  lemma ArriveKeeps(k: K, p: int, c: int, sending: bool, ptr: int, len: int)
    requires Inv(k) && k.cur == 0 && At(k, p) == Halted && IsProcess(p) && p !in k.alts
    requires ChanWord(k, c) == 0 || (ChanWord(k, c) % 2 == 1 && ChanWord(k, c) != 1)
    requires !sending ==> forall q :: !Uses(k, q, c)
    ensures var k', v := Arrive(k, p, c, sending, ptr, len), ChanWord(k, c);
            Inv(k') && k'.cur == 0 && (v % 2 == 1 && Slots(k, v - 1).state == WAITING ==> At(k', v - 1) == Halted)
  {
    hide Arrive, ChanWord, SemOf, AltsOk, ChannelsOk, TimersOk;
    var k' := Arrive(k, p, c, sending, ptr, len);
    ArriveEffect(k, p, c, sending, ptr, len);
    if ChanWord(k, c) != 0 { TagUses(k, c); TagMoves(k, c); }
    assert Placed(k') by { hide SemsOk, BarsOk, AltsOk, ChannelsOk, TimersOk; }
    hide Placed;
    assert SemsOk(k') && BarsOk(k') by { hide SemsOk, BarsOk; QueuesKept(k, k'); }
    ArrivedChannels(k, k', p, c, sending);
    ArrivedTimers(k, k', p, c, sending);
    ArrivedAlts(k, k', p, c, sending);
  }

  // ----- a process leaves a channel

  ghost predicate NoAltOn(k: K, c: int) {
    forall q :: !Uses(k, q, c)
  }

  /** A process stops waiting. */
  lemma PlacedFreed(k: K, k': K, p: int)
    requires Placed(k) && OneMove(k, k', p) && !Loose(At(k, p)) && At(k', p) == Halted
    requires k'.runq == k.runq && k'.cur == k.cur
    ensures Placed(k')
  {
  }

  /** One process moves on or off channel c, whose word alone changes. */
  ghost predicate ChannelMove(k: K, k': K, p: int, c: int) {
    && OneMove(k, k', p) && (forall x :: x != c ==> ChanWord(k', x) == ChanWord(k, x)) && WordOk(k', c)
    && (Quiet(At(k, p)) || At(k, p) == Sending(c) || At(k, p) == Receiving(c))
    && (Quiet(At(k', p)) || (ChanWord(k', c) == p && (At(k', p) == Sending(c) || At(k', p) == Receiving(c))))
    && (forall x :: x != p ==> At(k, x) != Sending(c) && At(k, x) != Receiving(c))
    && (forall x :: x in k.alts ==> x in k'.alts && Info(k', x) == Info(k, x))
  }

  lemma ChannelMoved(k: K, k': K, p: int, c: int)
    requires ChannelsOk(k) && ChannelMove(k, k', p, c)
    ensures ChannelsOk(k')
  {
    hide IsProcess;
    forall d ensures WordOk(k', d) {
      assert WordOk(k, d);
    }
  }

  /** Only the process a channel word names is blocked there. */
  lemma OnlyOne(k: K, c: int)
    requires Placed(k) && ChannelsOk(k)
    ensures forall x :: At(k, x) == Sending(c) || At(k, x) == Receiving(c) ==> x == ChanWord(k, c) && IsProcess(x)
  {
    hide WordOk, IsProcess;
  }

  /** The timer queue does not change, and p is not on it. */
  lemma TimersElsewhere(k: K, k': K, p: int)
    requires TimersOk(k) && OnlyAt(k, k', p) && k'.timq == k.timq && k'.tq == k.tq && p !in k.timq &&
             At(k', p) != TimerWait
    requires forall x :: x != p ==> (x in k'.alts <==> x in k.alts) && Info(k', x) == Info(k, x)
    ensures TimersOk(k')
  {
    hide IsProcess, TimeAfter, HasTimer;
    forall x | x in k'.timq ensures OnTimer(k', x) {
      assert OnTimer(k, x);
    }
  }

  /** ALTs that do not use c see nothing of a move on c. */
  lemma AltsElsewhere(k: K, k': K, p: int, c: int, x: int)
    requires ChannelsOk(k) && AltOk(k, x) && x in k.alts && !Uses(k, x, c) && x != p
    requires OnlyAt(k, k', p) && Info(k', x) == Info(k, x) && (x in k'.timq <==> x in k.timq)
    requires forall d :: d != c ==> ChanWord(k', d) == ChanWord(k, d)
    requires Quiet(At(k, p)) || At(k, p) == Sending(c) || At(k, p) == Receiving(c)
    ensures AltOk(k', x)
  {
    hide AltOk, IsProcess, WordOk;
    forall d | Chan(d) in Info(k, x).todo && IsProcess(ChanWord(k, d))
      ensures At(k', ChanWord(k, d)) == At(k, ChanWord(k, d)) {
      BlockedThere(k, d);
      assert d != c;
    }
    AltKept(k, k', x);
  }

  lemma LeaveKeeps(k: K, c: int)
    requires Inv(k) && IsProcess(ChanWord(k, c)) && NoAltOn(k, c)
    ensures var k', q := Leave(k, c), ChanWord(k, c);
            Inv(k') && k'.cur == k.cur && At(k', q) == Halted && q !in k.alts && k.cur != q
  {
    hide AltOk, NoDup, WordOk, OnTimer, SemOk, BarOk, BarOf, SemOf, SemQueue, SemsOk, BarsOk, TimersOk, ChannelsOk;
    var k', q := Leave(k, c), ChanWord(k, c);
    assert k.cur != q by { BlockedThere(k, c); }
    BlockedThere(k, c);
    NotAlting(k, q);
    NotOnTimer(k, q);
    hide IsProcess;
    OnlyOne(k, c);
    PlacedFreed(k, k', q);
    assert WordOk(k', c) by { ZeroOk(k', c); }
    hide Placed;
    ChannelMoved(k, k', q, c);
    assert SemsOk(k') && BarsOk(k') by { QueuesKept(k, k'); }
    TimersElsewhere(k, k', q);
    forall x | x in k.alts ensures AltOk(k', x) {
      AltsElsewhere(k, k', q, c, x);
    }
    forall x, y, d | Uses(k', x, d) && Uses(k', y, d) ensures x == y {
      assert Uses(k, x, d) && Uses(k, y, d);
    }
  }

  lemma ZeroOk(k: K, c: int)
    requires ChanWord(k, c) == 0
    ensures WordOk(k, c)
  {
  }

  lemma NotOnTimer(k: K, q: int)
    requires Inv(k) && At(k, q) != TimerWait && q !in k.alts
    ensures q !in k.timq
  {
    forall x | x in k.timq ensures x != q { assert OnTimer(k, x); }
  }

  /** A process blocked on a channel is in no ALT. */
  lemma NotAlting(k: K, q: int)
    requires Inv(k) && !Loose(At(k, q)) && At(k, q) != AltWait
    ensures q !in k.alts
  {
    forall x | x in k.alts ensures x != q { assert AltOk(k, x); }
  }

  // ----- extended input

  lemma AwaitEffect(k: K, p: int, c: int)
    requires p !in k.alts
    ensures var k' := AwaitChannel(k, p, c);
            OnlyAt(k, k', p) && At(k', p) == AltWait && Slots(k', p).state == WAITING && ChanWord(k', c) == p + 1 &&
            (forall x :: x != c ==> ChanWord(k', x) == ChanWord(k, x)) &&
            (forall x :: x in k'.alts <==> x in k.alts || x == p) &&
            (forall x :: x in k.alts ==> Info(k', x) == Info(k, x)) &&
            Info(k', p) == AltInfo(Extended, false, [Chan(c)]) &&
            (forall x :: x != p ==> Info(k', x) == Info(k, x)) &&
            k'.runq == k.runq && k'.timq == k.timq && k'.tq == k.tq && k'.sem == k.sem && k'.bar == k.bar &&
            k'.cur == k.cur
  {
  }

  lemma AwaitChannelAlts(k: K, p: int, c: int)
    requires Inv(k) && k.cur == 0 && At(k, p) == Halted && IsProcess(p) && p !in k.alts && ChanWord(k, c) == 0 &&
             NoAltOn(k, c)
    ensures AltsOk(AwaitChannel(k, p, c))
  {
    hide AwaitChannel, SemsOk, BarsOk, Placed, WordOk, TimersOk, ChannelsOk;
    var k' := AwaitChannel(k, p, c);
    AwaitEffect(k, p, c);
    HaltedNotTimed(k, p);
    assert AltOk(k', p) by { hide AltsOk, ChannelsOk; assert Info(k', p).todo == [Chan(c)]; }
    hide AltOk;
    forall x | x in k.alts ensures AltOk(k', x) {
      AltsElsewhere(k, k', p, c, x);
    }
    forall x, y, d | Uses(k', x, d) && Uses(k', y, d) ensures x == y {
      assert x != p ==> Uses(k, x, d);
      assert y != p ==> Uses(k, y, d);
    }
  }

  lemma AwaitChannelKeeps(k: K, p: int, c: int)
    requires Inv(k) && k.cur == 0 && At(k, p) == Halted && IsProcess(p) && p !in k.alts && ChanWord(k, c) == 0 &&
             NoAltOn(k, c)
    ensures Inv(AwaitChannel(k, p, c)) && AwaitChannel(k, p, c).cur == 0
  {
    hide AwaitChannel, AltOk, AltsOk, WordOk, OnTimer, NoDup;
    var k' := AwaitChannel(k, p, c);
    AwaitEffect(k, p, c);
    AwaitChannelAlts(k, p, c);
    HaltedNotTimed(k, p);
    PlacedAway(k, k', p);
    OnlyOne(k, c);
    assert WordOk(k', c) by { TagOk(k', p, c); }
    assert ChannelsOk(k') by { hide TimersOk, SemsOk, BarsOk; ZeroNone(k, c); ChannelMoved(k, k', p, c); }
    hide Placed, ChannelsOk;
    assert SemsOk(k') && BarsOk(k') by { QueuesKept(k, k'); }
    hide SemsOk, BarsOk;
    TimersElsewhere(k, k', p);
  }

  lemma ZeroNone(k: K, c: int)
    requires Placed(k) && ChannelsOk(k) && ChanWord(k, c) == 0
    ensures forall x :: At(k, x) != Sending(c) && At(k, x) != Receiving(c)
  {
    OnlyOne(k, c);
  }

  lemma TagOk(k: K, p: int, c: int)
    requires IsProcess(p) && ChanWord(k, c) == p + 1 && Uses(k, p, c)
    ensures WordOk(k, c)
  {
  }

  // ----- the current process works on its own ALT

  /** Only p's slots, p's ALT and the words of channels no other ALT uses change. */
  ghost predicate OwnStep(k: K, k': K, p: int) {
    && p == k.cur && p != 0 && k'.cur == k.cur && k'.runq == k.runq && k'.sem == k.sem && k'.bar == k.bar
    && (forall x :: At(k', x) == At(k, x))
    && (forall x {:trigger Slots(k', x)} :: x != p ==> Slots(k', x) == Slots(k, x))
    && (forall x :: x != p ==> Info(k', x) == Info(k, x))
    && (forall x :: x != p ==> (x in k'.alts <==> x in k.alts))
    && (forall x :: x != p ==> (x in k'.timq <==> x in k.timq))
    && (forall c :: ChanWord(k', c) == ChanWord(k, c) || OwnWord(k, k', p, c))
    && (forall c, x :: Uses(k', p, c) && x != p ==> !Uses(k, x, c))
  }

  ghost predicate OwnWord(k: K, k': K, p: int, c: int) {
    !IsProcess(ChanWord(k, c)) && !IsProcess(ChanWord(k', c)) && forall x :: x != p ==> !Uses(k, x, c)
  }

  lemma OwnKeeps(k: K, k': K, p: int)
    requires Inv(k) && OwnStep(k, k', p)
    requires (forall c :: WordOk(k', c)) && TimersOk(k') && (p in k'.alts ==> AltOk(k', p))
    ensures Inv(k')
  {
    hide WordOk, TimersOk, NoDup, AltOk;
    assert Placed(k');
    assert ChannelsOk(k');
    assert SemsOk(k') && BarsOk(k') by { QueuesKept(k, k'); }
    hide Placed, SemsOk, BarsOk;
    forall x | x in k.alts && x != p ensures AltOk(k', x) {
      OwnOther(k, k', p, x);
    }
    forall x, y, d | Uses(k', x, d) && Uses(k', y, d) ensures x == y {
      assert x != p ==> Uses(k, x, d);
      assert y != p ==> Uses(k, y, d);
    }
    assert At(k, p) == Running;
  }

  lemma OwnOther(k: K, k': K, p: int, x: int)
    requires AltOk(k, x) && OwnStep(k, k', p) && x in k.alts && x != p
    ensures AltOk(k', x)
  {
    hide AltOk, IsProcess;
    forall d | Chan(d) in Info(k, x).todo ensures ChanWord(k', d) == ChanWord(k, d) {
      assert Uses(k, x, d);
    }
    AltKept(k, k', x);
  }

  lemma CurrentPlace(k: K)
    requires Inv(k) && k.cur != 0
    ensures At(k, k.cur) == Running && IsProcess(k.cur) && (k.cur !in k.alts ==> k.cur !in k.timq)
  {
    if k.cur !in k.alts { NotOnTimer(k, k.cur); }
  }

  /** Nothing but p's slots and p's ALT information changed. */
  ghost predicate OwnSlots(k: K, k': K, p: int) {
    && OnlyAt(k, k', p) && At(k', p) == At(k, p)
    && k'.cur == k.cur && k'.runq == k.runq && k'.sem == k.sem && k'.bar == k.bar && k'.tq == k.tq
    && (forall x :: x != p ==> Info(k', x) == Info(k, x))
    && (forall x :: x != p ==> (x in k'.alts <==> x in k.alts))
  }

  /** The guards of p's ALT changed, with its slots, but no queue and no channel word. */
  lemma OwnQuietly(k: K, k': K, p: int)
    requires Inv(k) && OwnSlots(k, k', p) && p == k.cur && p != 0 && k'.chan == k.chan && k'.timq == k.timq
    requires p in k'.alts && AltOk(k', p) && (p in k.timq ==> OnTimer(k', p) && Slots(k', p).time == Slots(k, p).time)
    requires forall c :: Uses(k, p, c) && ChanWord(k, c) == p + 1 ==> Uses(k', p, c)
    requires forall c, x :: Uses(k', p, c) && x != p ==> !Uses(k, x, c)
    ensures Inv(k')
  {
    hide AltOk, SemsOk, BarsOk, Placed, AltsOk, ChannelsOk, TimersOk;
    assert At(k, p) == Running by { CurrentPlace(k); }
    OwnWords(k, k', p);
    OwnTimers(k, k', p);
    OwnKeeps(k, k', p);
  }

  lemma OwnWords(k: K, k': K, p: int)
    requires ChannelsOk(k) && OwnSlots(k, k', p) && k'.chan == k.chan
    requires forall c :: Uses(k, p, c) && ChanWord(k, c) == p + 1 ==> Uses(k', p, c)
    ensures forall c :: WordOk(k', c)
  {
    forall c ensures WordOk(k', c) { assert WordOk(k, c); }
  }

  lemma OwnTimers(k: K, k': K, p: int)
    requires TimersOk(k) && OwnSlots(k, k', p) && k'.timq == k.timq
    requires p in k.timq ==> OnTimer(k', p) && Slots(k', p).time == Slots(k, p).time
    ensures TimersOk(k')
  {
    hide HasTimer, TimeAfter, IsProcess;
    forall x | x in k'.timq ensures OnTimer(k', x) { assert OnTimer(k, x); }
  }

  lemma AltStartEffect(k: K, timed: bool)
    ensures var k', p := AltStart(k, timed), k.cur;
            OwnSlots(k, k', p) && k'.chan == k.chan && k'.timq == k.timq &&
            Info(k', p) == AltInfo(Enabling, timed, []) && p in k'.alts &&
            Slots(k', p).state == ENABLING && (timed ==> Slots(k', p).tlink == TIME_NOT_SET)
  {
  }

  lemma AltStartKeeps(k: K, timed: bool)
    requires Inv(k) && k.cur != 0 && k.cur !in k.alts
    ensures Inv(AltStart(k, timed))
  {
    hide AltStart;
    var k', p := AltStart(k, timed), k.cur;
    AltStartEffect(k, timed);
    CurrentPlace(k);
    hide Placed, ChannelsOk, SemsOk, BarsOk, TimersOk, AltsOk;
    assert AltOk(k', p);
    hide AltOk;
    OwnQuietly(k, k', p);
  }

  // ----- enabling

  /** What a program may enable: in an ALT it has begun, a channel it alone reads, a timeout within half the clock. */
  ghost predicate MayEnable(k: K, g: Guard) {
    var p := k.cur;
    && p != 0 && p in k.alts && Info(k, p).phase == Enabling
    && match g
       case Chan(c) => (forall x :: x != p ==> !Uses(k, x, c)) &&
         (IsProcess(ChanWord(k, c)) ==> At(k, ChanWord(k, c)) == Sending(c))
       case Skip => true
       case Timer(t) => Info(k, p).timed && TimersInWindow(Info(k, p).todo + [g])
  }

  ghost predicate TimersInWindow(todo: seq<Guard>) {
    exists base: Word :: TimersFrom(todo, base)
  }

  ghost predicate TimersFrom(todo: seq<Guard>, base: Word) {
    forall t :: Timer(t) in todo ==> Ahead(t, base) < MIN_INT
  }

  lemma NoTimers(todo: seq<Guard>, t: Word)
    requires !HasTimer(todo)
    ensures Timer(t) !in todo
  {
    assert Timer(t).Timer?;
  }

  lemma NoteEffect(k: K, g: Guard)
    ensures var k', p := Note(k, g), k.cur;
            OwnSlots(k, k', p) && k'.timq == k.timq && k'.chan == k.chan && p in k'.alts &&
            Slots(k', p) == Slots(k, p) &&
            Info(k', p) == Info(k, p).(todo := Info(k, p).todo + [g])
  {
  }

  /** What enabling changes: the guard is noted, the slots move towards ready or an earlier timeout, an empty channel
   is tagged. */
  lemma EnableEffect(k: K, g: Guard)
    ensures var k', p := Enable(k, g), k.cur;
            OwnSlots(k, k', p) && k'.timq == k.timq && p in k'.alts &&
            Info(k', p) == Info(k, p).(todo := Info(k, p).todo + [g]) &&
            Slots(k', p) == EnabledSlots(k, p, g) &&
            forall x :: ChanWord(k', x) == if g == Chan(x) && ChanWord(k, x) == 0 then p + 1 else ChanWord(k, x)
  {
    hide Note, OnlyAt, OneMove;
    var p := k.cur;
    assert OnlyAt(k, k, p) by { hide *; SameOnly(k, p); }
    match g {
      case Chan(c) =>
        if ChanWord(k, c) == 0 {
          NoteEffect(SetChan(k, c, p + 1), g);
          OnlyTrans(k, SetChan(k, c, p + 1), Enable(k, g), p);
        }
        else if ChanWord(k, c) != p + 1 { NoteSlots(k, p, Slots(k, p).(state := READY), g); }
        else { NoteEffect(k, g); }
      case Skip => NoteSlots(k, p, Slots(k, p).(state := READY), g);
      case Timer(t) =>
        if Slots(k, p).tlink == TIME_NOT_SET || TimeAfter(Slots(k, p).time, t) {
          NoteSlots(k, p, EnabledSlots(k, p, g), g);
        }
        else { NoteEffect(k, g); }
    }
  }

  function EnabledSlots(k: K, p: int, g: Guard): Ws {
    var w := Slots(k, p);
    match g
    case Chan(c) => if ChanWord(k, c) == 0 || ChanWord(k, c) == p + 1 then w else w.(state := READY)
    case Skip => w.(state := READY)
    case Timer(t) => if w.tlink == TIME_NOT_SET then w.(tlink := TIME_SET, time := t)
      else if TimeAfter(w.time, t) then w.(time := t) else w
  }

  lemma SameOnly(k: K, p: int)
    ensures OnlyAt(k, k, p)
  {
  }

  lemma OnlyTrans(k: K, k1: K, k': K, p: int)
    requires k1.ws == k.ws && k1.place == k.place && OnlyAt(k1, k', p)
    ensures OnlyAt(k, k', p)
  {
  }

  lemma NoteSlots(k: K, p: int, w: Ws, g: Guard)
    requires p == k.cur
    ensures var k' := Note(SetWs(k, p, w), g);
            OwnSlots(k, k', p) && k'.timq == k.timq && k'.chan == k.chan && p in k'.alts && Slots(k', p) == w &&
            Info(k', p) == Info(k, p).(todo := Info(k, p).todo + [g])
  {
  }

  /** Enabling keeps the ALT's own account right. */
  lemma EnableOk(k: K, g: Guard)
    requires AltOk(k, k.cur) && MayEnable(k, g) && ChannelsOk(k)
    ensures AltOk(Enable(k, g), k.cur)
  {
    hide Enable, WordOk, TimeAfter, TimersInWindow, TimersNoted;
    var k', p := Enable(k, g), k.cur;
    EnableEffect(k, g);
    var todo, todo' := Info(k, p).todo, Info(k', p).todo;
    assert forall x :: x in todo' <==> x in todo || x == g;
    EnableTimers(k, g);
    forall d | Chan(d) in todo' && IsProcess(ChanWord(k', d)) ensures At(k', ChanWord(k', d)) == Sending(d) { }
    if Slots(k', p).state == READY {
      if Slots(k, p).state == READY {
        var h :| h in todo && !h.Timer? && Ready(k, p, h);
        assert Ready(k', p, h);
      } else {
        assert Ready(k', p, g);
      }
    }
  }

  lemma EnableTimers(k: K, g: Guard)
    requires AltOk(k, k.cur) && MayEnable(k, g)
    ensures TimersNoted(Enable(k, g), k.cur) && (HasTimer(Info(Enable(k, g), k.cur).todo) ==> Info(k, k.cur).timed)
  {
    hide Enable, TimeAfter, Ready;
    var k', p := Enable(k, g), k.cur;
    EnableEffect(k, g);
    var todo, todo' := Info(k, p).todo, Info(k', p).todo;
    assert forall x :: x in todo' <==> x in todo || x == g;
    if g.Timer? {
      assert HasTimer(todo') by { assert g in todo' && g.Timer?; }
      var w := Slots(k, p);
      var base: Word :| TimersFrom(todo', base);
      if HasTimer(todo) {
        forall t | Timer(t) in todo' ensures !TimeAfter(Slots(k', p).time, t) {
          LaterIsFurther(w.time, g.t, base);
          LaterIsFurther(g.t, t, base);
          LaterIsFurther(w.time, t, base);
        }
      } else {
        forall t | Timer(t) in todo' ensures t == g.t {
          NoTimers(todo, t);
        }
        LaterIsFurther(g.t, g.t, base);
      }
    } else if HasTimer(todo') {
      var h :| h in todo' && h.Timer?;
      assert h in todo;
    }
  }

  lemma EnableKeeps(k: K, g: Guard)
    requires Inv(k) && MayEnable(k, g)
    ensures Inv(Enable(k, g))
  {
    hide Enable, AltOk, SemsOk, BarsOk, Placed, TimersInWindow;
    var k', p := Enable(k, g), k.cur;
    assert AltOk(k, p);
    CurrentPlace(k);
    EnableEffect(k, g);
    EnableOk(k, g);
    assert p !in k.timq by { EnablingNotTimed(k, p); }
    OwnTimers(k, k', p);
    hide TimersOk, TimeAfter, EnabledSlots;
    assert forall x :: x in Info(k', p).todo <==> x in Info(k, p).todo || x == g;
    EnableWords(k, k', p, g);
    hide ChannelsOk;
    forall c, x | Uses(k', p, c) && x != p ensures !Uses(k, x, c) {
      assert Chan(c) in Info(k, p).todo ==> Uses(k, p, c);
    }
    forall c ensures ChanWord(k', c) == ChanWord(k, c) || OwnWord(k, k', p, c) {
      if ChanWord(k', c) != ChanWord(k, c) { assert g == Chan(c) && ChanWord(k', c) == p + 1; }
    }
    hide AltsOk, OwnWord, IsProcess, MayEnable;
    assert OwnStep(k, k', p);
    OwnKeeps(k, k', p);
  }

  lemma EnablingNotTimed(k: K, p: int)
    requires AltOk(k, p) && Info(k, p).phase == Enabling
    ensures p !in k.timq
  {
  }

  lemma EnableWords(k: K, k': K, p: int, g: Guard)
    requires ChannelsOk(k) && OwnSlots(k, k', p) && IsProcess(p) && p in k.alts && p in k'.alts
    requires forall x :: ChanWord(k', x) == if g == Chan(x) && ChanWord(k, x) == 0 then p + 1 else ChanWord(k, x)
    requires forall x :: x in Info(k', p).todo <==> x in Info(k, p).todo || x == g
    ensures forall c :: WordOk(k', c)
  {
    forall c ensures WordOk(k', c) { assert WordOk(k, c); }
  }

  // ----- from enabling to disabling or to sleep

  lemma AfterAsymmetric(a: Word, b: Word)
    requires TimeAfter(a, b)
    ensures !TimeAfter(b, a)
  {
    var d := Wrap(a - b);
    WrapWitness(b - a, -((a - b) / WORD_MOD) - 1, WORD_MOD - d);
  }

  /** An ALT may go on if it is ready, or if it is a timer ALT whose earliest timeout has passed. */
  ghost predicate MayProceed(k: K, timed: bool, now: Word) {
    var p := k.cur;
    && p != 0 && p in k.alts && Info(k, p).phase == Enabling && Info(k, p).timed == timed
    && (Slots(k, p).state == READY || (timed && Slots(k, p).tlink != TIME_NOT_SET && TimeAfter(now, Slots(k, p).time)))
  }

  lemma ProceedEffect(k: K, timed: bool, now: Word)
    ensures var k', p := Proceed(k, timed, now), k.cur; var w, w' := Slots(k, p), Slots(k', p);
            OwnSlots(k, k', p) && k'.timq == k.timq && k'.chan == k.chan && p in k'.alts &&
            Info(k', p) == Info(k, p).(phase := Disabling) &&
            w'.temp == NONE_SELECTED && w'.state == READY && w'.tlink == w.tlink && w'.time == if timed then now
            else w.time
  {
    hide Turn;
    var p, w := k.cur, Slots(k, k.cur).(state := READY);
    TurnEffect(k, p, if timed then w.(time := now) else w, Disabling);
  }

  lemma TurnEffect(k: K, p: int, w: Ws, phase: Phase)
    requires p == k.cur
    ensures var k' := Turn(SetWs(k, p, w), phase);
            OwnSlots(k, k', p) && k'.timq == k.timq && k'.chan == k.chan && p in k'.alts &&
            Info(k', p) == Info(k, p).(phase := phase) &&
            Slots(k', p) == w.(temp := NONE_SELECTED)
  {
  }

  lemma ProceedKeeps(k: K, timed: bool, now: Word)
    requires Inv(k) && MayProceed(k, timed, now)
    ensures Inv(Proceed(k, timed, now))
    ensures var k', p := Proceed(k, timed, now), k.cur;
            Info(k', p).phase == Disabling && SomeReady(k', p) && Slots(k', p).temp == NONE_SELECTED
  {
    hide Proceed, ChannelsOk, SemsOk, BarsOk, Placed, TimersOk;
    var k', p := Proceed(k, timed, now), k.cur;
    assert AltOk(k, p);
    ProceedEffect(k, timed, now);
    assert SomeReady(k', p) by { ProceedReady(k, timed, now); }
    hide TimeAfter, TimersNoted, SomeNow, SomeReady;
    assert AltOk(k', p);
    hide AltOk;
    forall c, x | Uses(k', p, c) && x != p ensures !Uses(k, x, c) { assert Uses(k, p, c); }
    OwnQuietly(k, k', p);
  }

  lemma ProceedReady(k: K, timed: bool, now: Word)
    requires AltOk(k, k.cur) && MayProceed(k, timed, now)
    ensures SomeReady(Proceed(k, timed, now), k.cur)
  {
    hide Proceed;
    var k', p := Proceed(k, timed, now), k.cur;
    ProceedEffect(k, timed, now);
    if Slots(k, p).state == READY {
      var g :| g in Info(k, p).todo && !g.Timer? && Ready(k, p, g);
      assert Ready(k', p, g);
    } else {
      AfterAsymmetric(now, Slots(k, p).time);
      assert Ready(k', p, Timer(Slots(k, p).time));
    }
  }

  // ----- going to sleep

  lemma SleepEffect(k: K, iptr: int)
    ensures var k', p := Sleep(k, iptr), k.cur;
            OnlyAt(k, k', p) && At(k', p) == AltWait && k'.cur == 0 && k'.runq == k.runq && k'.timq == k.timq &&
            k'.tq == k.tq &&
            k'.chan == k.chan && k'.sem == k.sem && k'.bar == k.bar && p in k'.alts
    ensures var k', p := Sleep(k, iptr), k.cur;
            Info(k', p) == Info(k, p).(phase := Waiting) &&
            (forall x :: x != p ==> Info(k', x) == Info(k, x)) &&
            (forall x :: x != p ==> (x in k'.alts <==> x in k.alts))
    ensures var k', p := Sleep(k, iptr), k.cur; var w, w' := Slots(k, p), Slots(k', p);
            w'.temp == NONE_SELECTED && w'.state == WAITING && w'.tlink == w.tlink && w'.time == w.time
  {
    var k1, p := Turn(k, Waiting), k.cur;
    hide Turn;
    TurnOnly(k, Waiting);
    var k2 := Park(k1, iptr);
    ParkEffect(k1, iptr);
    OnlyChain(k, k1, k2, p);
    hide Park;
    var k3 := SetWs(k2, p, Slots(k2, p).(state := WAITING));
    OnlyChain(k, k2, k3, p);
    OnlyChain(k, k3, SetAt(k3, p, AltWait), p);
  }

  lemma OnlyChain(k: K, k1: K, k2: K, p: int)
    requires OnlyAt(k, k1, p) && OnlyAt(k1, k2, p)
    ensures OnlyAt(k, k2, p)
  {
    forall x | x != p ensures Slots(k2, x) == Slots(k, x) && At(k2, x) == At(k, x) {
      assert Slots(k1, x) == Slots(k, x) && At(k1, x) == At(k, x);
    }
  }

  lemma TurnOnly(k: K, phase: Phase)
    ensures var k', p := Turn(k, phase), k.cur;
            OwnSlots(k, k', p) && k'.timq == k.timq && k'.chan == k.chan && p in k'.alts &&
            Info(k', p) == Info(k, p).(phase := phase) &&
            Slots(k', p) == Slots(k, p).(temp := NONE_SELECTED)
  {
  }

  lemma ParkEffect(k: K, iptr: int)
    ensures var k', p := Park(k, iptr), k.cur;
            OnlyAt(k, k', p) && At(k', p) == Halted && SameSlot(Slots(k, p), Slots(k', p)) &&
            k' == k.(cur := 0, ws := k'.ws, place := k'.place)
  {
  }

  /** An ALT with no ready guard may sleep; a timer ALT does so on the timer queue. */
  ghost predicate MaySleep(k: K, timed: bool) {
    var p := k.cur;
    p != 0 && p in k.alts && Info(k, p).phase == Enabling && Info(k, p).timed == timed && Slots(k, p).state != READY
  }

  lemma SleepKeeps(k: K, iptr: int)
    requires Inv(k) && MaySleep(k, Info(k, k.cur).timed) && !HasTimer(Info(k, k.cur).todo)
    ensures Inv(Sleep(k, iptr)) && Sleep(k, iptr).cur == 0
  {
    hide Sleep, SemsOk, BarsOk, Armed, TimeAfter;
    var k', p := Sleep(k, iptr), k.cur;
    SleepEffect(k, iptr);
    assert AltOk(k, p);
    CurrentPlace(k);
    assert Armed(k', p) by { ArmedKept(k, k', p); }
    SleptSenders(k, k', p);
    assert AltOk(k', p) by { hide AltsOk, Placed, ChannelsOk, TimersOk; }
    hide AltOk;
    SleepRest(k, k', p);
    hide Placed, ChannelsOk;
    TimersElsewhere(k, k', p);
  }

  lemma ArmedKept(k: K, k': K, p: int)
    requires Armed(k, p) && k'.chan == k.chan && Info(k', p).todo == Info(k, p).todo
    ensures Armed(k', p)
  {
  }

  lemma SleptSenders(k: K, k': K, p: int)
    requires ChannelsOk(k) && AltOk(k, p) && OneMove(k, k', p) && Quiet(At(k, p)) && k'.chan == k.chan &&
             Info(k', p).todo == Info(k, p).todo
    ensures forall c :: Chan(c) in Info(k', p).todo && IsProcess(ChanWord(k', c)) ==>
            At(k', ChanWord(k', c)) == Sending(c)
  {
    hide WordOk, IsProcess;
    OtherSenders(k, k', p, p);
  }

  /** The state after the current process went to sleep, its own ALT and the timer queue apart. */
  lemma SleepRest(k: K, k': K, p: int)
    requires Inv(k) && p == k.cur && p != 0 && p in k.alts && p in k'.alts && AltOk(k', p) && OnlyAt(k, k', p) &&
             At(k', p) == AltWait
    requires k'.cur == 0 && k'.runq == k.runq && k'.chan == k.chan && k'.sem == k.sem && k'.bar == k.bar
    requires forall x :: x != p ==>
             Info(k', x) == Info(k, x) && (x in k'.alts <==> x in k.alts) && (x in k'.timq <==> x in k.timq)
    requires Info(k', p).todo == Info(k, p).todo
    ensures Placed(k') && ChannelsOk(k') && SemsOk(k') && BarsOk(k') && AltsOk(k')
  {
    hide AltOk, TimersOk, ChannelsOk, SemsOk, BarsOk, AltsOk, NoDup;
    CurrentPlace(k);
    assert Placed(k');
    hide Placed;
    QueuesKept(k, k');
    SleepWords(k, k', p);
    OtherSenders(k, k', p, p);
    SleepAlts(k, k', p);
  }

  lemma SleepWords(k: K, k': K, p: int)
    requires ChannelsOk(k) && OneMove(k, k', p) && Quiet(At(k, p)) && Quiet(At(k', p)) && k'.chan == k.chan
    requires forall x :: x in k.alts ==> x in k'.alts && Info(k', x).todo == Info(k, x).todo
    ensures ChannelsOk(k')
  {
    forall c ensures WordOk(k', c) { assert WordOk(k, c); }
  }

  lemma SleepAlts(k: K, k': K, p: int)
    requires AltsOk(k) && ChannelsOk(k) && p in k.alts && p in k'.alts && AltOk(k', p) && OnlyAt(k, k', p) &&
             k'.chan == k.chan && Quiet(At(k, p))
    requires forall x :: x != p ==>
             Info(k', x) == Info(k, x) && (x in k'.alts <==> x in k.alts) && (x in k'.timq <==> x in k.timq)
    requires Info(k', p).todo == Info(k, p).todo
    ensures AltsOk(k')
  {
    hide AltOk, WordOk, IsProcess;
    OtherSenders(k, k', p, p);
    hide ChannelsOk;
    forall x | x in k.alts && x != p ensures AltOk(k', x) {
      AltKept(k, k', x);
    }
    forall x, y, d | Uses(k', x, d) && Uses(k', y, d) ensures x == y {
      assert Uses(k, x, d) && Uses(k, y, d);
    }
  }

  /** Sleeping on the timer queue until the tick after the earliest timeout. */
  lemma TimedSleepKeeps(k: K, iptr: int)
    requires Inv(k) && MaySleep(k, true) && HasTimer(Info(k, k.cur).todo)
    requires HalfRange(k, k.timq, {Wrap(Slots(k, k.cur).time + 1)})
    ensures var k' := Sleep(TimerInsert(k, k.cur, Wrap(Slots(k, k.cur).time + 1), iptr), iptr); Inv(k') && k'.cur == 0
  {
    var p, t := k.cur, Wrap(Slots(k, k.cur).time + 1);
    var k1 := TimerInsert(k, p, t, iptr);
    var k' := Sleep(k1, iptr);
    hide Sleep, SemsOk, BarsOk, Armed, TimeAfter;
    SleepEffect(k1, iptr);
    InsertMembers(k.timq, k, p, t);
    assert OnlyAt(k, k', p) && k'.timq == InsertTime(k.timq, k, p, t) && Slots(k', p).time == t &&
           Slots(k', p).tlink == ON_QUEUE && k'.tq;
    hide TimerInsert, InsertTime;
    assert AltOk(k, p);
    CurrentPlace(k);
    assert Armed(k', p) by { ArmedKept(k, k', p); }
    SleptSenders(k, k', p);
    assert AltOk(k', p) by { hide AltsOk, Placed, ChannelsOk, TimersOk; }
    hide AltOk;
    SleepRest(k, k', p);
    hide Placed, ChannelsOk, AltsOk;
    TimedSleepTimers(k, k', p, t);
  }

  lemma TimedSleepTimers(k: K, k': K, p: int, t: Word)
    requires TimersOk(k) && HalfRange(k, k.timq, {t}) && p !in k.timq && IsProcess(p)
    requires OnlyAt(k, k', p) && k'.timq == InsertTime(k.timq, k, p, t) && Slots(k', p).time == t &&
             Slots(k', p).tlink == ON_QUEUE && k'.tq
    requires p in k'.alts && Info(k', p).timed && HasTimer(Info(k', p).todo) && Info(k', p).phase == Waiting &&
             At(k', p) != TimerWait
    requires forall x :: x != p ==> Info(k', x) == Info(k, x) && (x in k'.alts <==> x in k.alts)
    ensures TimersOk(k')
  {
    hide InsertTime, TimeAfter, HasTimer, Ahead, IsProcess;
    InsertMembers(k.timq, k, p, t);
    var base: Word :| InWindow(k, k.timq, {t}, base);
    InsertSorted(k, k', k.timq, p, t, base);
    forall x | x in k'.timq ensures OnTimer(k', x) {
      if x != p { assert OnTimer(k, x); }
    }
  }

  // ----- disabling

  /** What a program may disable: a guard it enabled, once it is past its wait, with a target that is not the null
   selection. */
  ghost predicate MayDisable(k: K, g: Guard, target: int) {
    var p := k.cur;
    && p != 0 && p in k.alts && (Info(k, p).phase == Waiting || Info(k, p).phase == Disabling)
    && g in Info(k, p).todo && target != NONE_SELECTED
  }

  /** The slots after disabling: a ready guard is selected if it is the first; a timer still queued is cancelled. */
  function DisabledSlots(k: K, p: int, g: Guard, target: int): Ws {
    var w := Slots(k, p);
    if Ready(k, p, g) then (if w.temp == NONE_SELECTED then w.(temp := target) else w)
    else if TimerPending(k, p, g) then w.(tlink := TIME_NOT_SET)
    else w
  }

  predicate TimerPending(k: K, p: int, g: Guard) {
    g.Timer? && Slots(k, p).tlink != TIME_SET && Slots(k, p).tlink != TIME_NOT_SET
  }

  ghost predicate Disabled(k: K, k': K, p: int, g: Guard, target: int) {
    && OwnSlots(k, k', p) && p in k'.alts
    && Info(k', p) == Info(k, p).(phase := Disabling, todo := Without(Info(k, p).todo, g))
    && Slots(k', p) == DisabledSlots(k, p, g, target)
    && k'.timq == (if TimerPending(k, p, g) then RemoveTime(k.timq, p) else k.timq)
    && forall x :: ChanWord(k', x) == if g == Chan(x) && ChanWord(k, x) == p + 1 then 0 else ChanWord(k, x)
  }

  lemma ForgetEffect(k: K, g: Guard)
    ensures var k', p := Forget(k, g), k.cur;
            OwnSlots(k, k', p) && k'.timq == k.timq && k'.chan == k.chan && p in k'.alts &&
            Slots(k', p) == Slots(k, p) &&
            Info(k', p) == Info(k, p).(phase := Disabling, todo := Without(Info(k, p).todo, g))
  {
    hide Without;
  }

  lemma ForgetAfter(k: K, k1: K, g: Guard, p: int)
    requires p == k.cur && k1.cur == k.cur && OnlyAt(k, k1, p) && k1.place == k.place && k1.alts == k.alts
    requires k1.runq == k.runq && k1.sem == k.sem && k1.bar == k.bar && k1.tq == k.tq
    ensures var k' := Forget(k1, g);
            OwnSlots(k, k', p) && k'.timq == k1.timq && k'.chan == k1.chan && p in k'.alts &&
            Slots(k', p) == Slots(k1, p) &&
            Info(k', p) == Info(k, p).(phase := Disabling, todo := Without(Info(k, p).todo, g))
  {
    hide Forget, Without;
    ForgetEffect(k1, g);
    OnlyChain(k, k1, Forget(k1, g), p);
  }

  lemma ReadyChannel(k: K, g: Guard)
    requires Ready(k, k.cur, g)
    ensures !TimerPending(k, k.cur, g) && (g.Chan? ==> ChanWord(k, g.c) != k.cur + 1)
  {
  }

  lemma AnswerEntries(k: K, b: bool)
    ensures var k1 := Answer(k, b); forall x :: Slots(k1, x) == Slots(k, x) && At(k1, x) == At(k, x)
  {
  }

  lemma SetWsPlaces(k: K, p: int, w: Ws)
    ensures forall x :: At(SetWs(k, p, w), x) == At(k, x)
  {
    hide Slots;
  }

  lemma SelectEntries(k: K, target: int)
    ensures var k1, p := Select(k, target), k.cur; var w := Slots(k, p);
            OnlyAt(k, k1, p) && k1.place == k.place && k1.alts == k.alts && k1.chan == k.chan && k1.timq == k.timq &&
            k1.runq == k.runq && k1.sem == k.sem && k1.bar == k.bar && k1.tq == k.tq && k1.cur == k.cur &&
            Slots(k1, p) == if w.temp == NONE_SELECTED then w.(temp := target) else w
  {
    hide Slots, At;
    var p, w := k.cur, Slots(k, k.cur);
    SetWsPlaces(k, p, w.(temp := target));
    AnswerEntries(k, false);
    AnswerEntries(SetWs(k, p, w.(temp := target)), true);
  }

  lemma SelectEffect(k: K, g: Guard, target: int)
    requires Ready(k, k.cur, g)
    ensures Disabled(k, Forget(Select(k, target), g), k.cur, g, target)
  {
    hide Forget, Without, Select, TimeAfter;
    SelectEntries(k, target);
    ReadyChannel(k, g);
    ForgetAfter(k, Select(k, target), g, k.cur);
  }

  lemma QuietDisable(k: K, g: Guard, target: int)
    requires !Ready(k, k.cur, g) && !TimerPending(k, k.cur, g) && (g.Chan? ==> ChanWord(k, g.c) != k.cur + 1)
    ensures Disabled(k, Forget(Answer(k, false), g), k.cur, g, target)
  {
    hide Forget, Without, TimeAfter;
    SameOnly(k, k.cur);
    ForgetAfter(k, Answer(k, false), g, k.cur);
  }

  lemma ClearDisable(k: K, c: int, target: int)
    requires ChanWord(k, c) == k.cur + 1
    ensures Disabled(k, Forget(Answer(SetChan(k, c, 0), false), Chan(c)), k.cur, Chan(c), target)
  {
    hide Forget, Without;
    SameOnly(k, k.cur);
    ForgetAfter(k, Answer(SetChan(k, c, 0), false), Chan(c), k.cur);
  }

  lemma CancelDisable(k: K, t: Word, target: int)
    requires TimerPending(k, k.cur, Timer(t))
    ensures Disabled(k, Forget(Answer(TimerRemove(k, k.cur), false), Timer(t)), k.cur, Timer(t), target)
  {
    hide Forget, Without, RemoveTime;
    ForgetAfter(k, Answer(TimerRemove(k, k.cur), false), Timer(t), k.cur);
  }

  lemma DisableEffect(k: K, g: Guard, target: int)
    ensures Disabled(k, Disable(k, g, target), k.cur, g, target)
  {
    hide Forget, Select, TimeAfter, Disabled, TimerRemove;
    var p := k.cur;
    if Ready(k, p, g) {
      SelectEffect(k, g, target);
    } else if g.Chan? && ChanWord(k, g.c) == p + 1 {
      ClearDisable(k, g.c, target);
    } else if TimerPending(k, p, g) {
      CancelDisable(k, g.t, target);
    } else {
      QuietDisable(k, g, target);
    }
  }

  lemma {:induction false} WithoutMembers(s: seq<Guard>, g: Guard)
    ensures forall x :: x in Without(s, g) ==> x in s
    ensures forall x :: x in s && x != g ==> x in Without(s, g)
    decreases |s|
  {
    if s != [] && s[0] != g {
      WithoutMembers(s[1..], g);
    }
  }

  /** Other guards are as ready after a guard is disabled as before. */
  lemma ReadyStays(k: K, k': K, p: int, g: Guard, target: int, h: Guard)
    requires Disabled(k, k', p, g, target)
    ensures Ready(k', p, h) <==> Ready(k, p, h)
  {
    hide TimeAfter, Without;
  }

  lemma DisableOk(k: K, g: Guard, target: int)
    requires AltOk(k, k.cur) && MayDisable(k, g, target) && At(k, k.cur) == Running && TimersOk(k)
    ensures AltOk(Disable(k, g, target), k.cur)
  {
    hide Disable, TimeAfter, TimersOk, Without, IsProcess;
    var k', p := Disable(k, g, target), k.cur;
    DisableEffect(k, g, target);
    var todo, todo' := Info(k, p).todo, Info(k', p).todo;
    WithoutMembers(todo, g);
    DisableTimed(k, k', p, g, target);
    if Slots(k', p).temp == NONE_SELECTED {
      DisableStillReady(k, k', p, g, target);
    }
    hide HasTimer, SomeReady;
    forall d | Chan(d) in todo' && IsProcess(ChanWord(k', d)) ensures At(k', ChanWord(k', d)) == Sending(d) {
      ZeroNotProcess();
      assert ChanWord(k', d) == ChanWord(k, d);
    }
  }

  lemma ZeroNotProcess()
    ensures !IsProcess(0)
  {
  }

  /** If nothing is selected after a disable, the guard was not ready, so some other still is. */
  lemma DisableStillReady(k: K, k': K, p: int, g: Guard, target: int)
    requires AltOk(k, p) && Disabled(k, k', p, g, target) && At(k, p) == Running && target != NONE_SELECTED
    requires Info(k, p).phase == Waiting || Info(k, p).phase == Disabling
    requires Slots(k', p).temp == NONE_SELECTED
    ensures SomeReady(k', p)
  {
    hide TimeAfter, Without, IsProcess;
    WithoutMembers(Info(k, p).todo, g);
    var h :| h in Info(k, p).todo && Ready(k, p, h);
    assert h != g;
    ReadyStays(k, k', p, g, target, h);
  }

  /** The timer link stays consistent with the timer queue. */
  lemma DisableTimed(k: K, k': K, p: int, g: Guard, target: int)
    requires AltOk(k, p) && Disabled(k, k', p, g, target) && TimersOk(k) && g in Info(k, p).todo
    requires Info(k, p).phase == Waiting || Info(k, p).phase == Disabling
    ensures Info(k', p).timed ==> Slots(k', p).tlink == TIME_SET || Slots(k', p).tlink == TIME_NOT_SET || p in k'.timq
    ensures !Info(k', p).timed ==> !HasTimer(Info(k', p).todo) && p !in k'.timq
    ensures p in k'.timq ==>
            p in k.timq && !TimerPending(k, p, g) && Slots(k', p).tlink == ON_QUEUE && HasTimer(Info(k', p).todo)
    ensures forall x :: x != p ==> (x in k'.timq <==> x in k.timq)
  {
    hide TimeAfter, Without, RemoveTime, Sorted, IsProcess;
    WithoutMembers(Info(k, p).todo, g);
    RemoveKeepsOrder(k, k.timq, p);
    if p in k.timq {
      assert OnTimer(k, p);
      if p in k'.timq {
        var h :| h in Info(k, p).todo && h.Timer?;
        assert h != g;
      }
    }
  }

  lemma DisableKeeps(k: K, g: Guard, target: int)
    requires Inv(k) && MayDisable(k, g, target)
    ensures Inv(Disable(k, g, target))
  {
    hide Disable, AltOk, SemsOk, BarsOk, TimeAfter, Without, DisabledSlots, NoDup, Ready;
    var k', p := Disable(k, g, target), k.cur;
    assert AltOk(k, p);
    CurrentPlace(k);
    DisableEffect(k, g, target);
    DisableOk(k, g, target);
    WithoutMembers(Info(k, p).todo, g);
    DisableTimed(k, k', p, g, target);
    DisableTimers(k, k', p, g, target);
    hide TimersOk, Placed;
    DisableWords(k, k', p, g, target);
    hide ChannelsOk, WordOk;
    forall c, x | Uses(k', p, c) && x != p ensures !Uses(k, x, c) {
      assert Uses(k, p, c);
    }
    forall c ensures ChanWord(k', c) == ChanWord(k, c) || OwnWord(k, k', p, c) {
      if ChanWord(k', c) != ChanWord(k, c) { assert Uses(k, p, c); }
    }
    hide AltsOk, OwnWord, IsProcess;
    assert OwnStep(k, k', p);
    OwnKeeps(k, k', p);
  }

  lemma DisableWords(k: K, k': K, p: int, g: Guard, target: int)
    requires ChannelsOk(k) && Disabled(k, k', p, g, target) && IsProcess(p)
    ensures forall c :: WordOk(k', c)
  {
    hide Without, DisabledSlots;
    WithoutMembers(Info(k, p).todo, g);
    forall c ensures WordOk(k', c) { assert WordOk(k, c); }
  }

  lemma DisableTimers(k: K, k': K, p: int, g: Guard, target: int)
    requires TimersOk(k) && AltOk(k, p) && Disabled(k, k', p, g, target) && g in Info(k, p).todo && p in k.alts
    requires Info(k, p).phase == Waiting || Info(k, p).phase == Disabling
    ensures TimersOk(k')
  {
    hide Without, TimeAfter, RemoveTime, IsProcess, AltOk, HasTimer;
    RemoveKeepsOrder(k, k.timq, p);
    DisableTimed(k, k', p, g, target);
    assert forall x :: x in k'.timq ==> x in k.timq;
    forall x | x in k'.timq ensures OnTimer(k', x) && Slots(k', x).time == Slots(k, x).time {
      assert OnTimer(k, x);
    }
    assert k'.timq != [] ==> k'.timq[0] in k.timq;
    assert Sorted(k', k'.timq);
    forall x | At(k', x) == TimerWait ensures x in k'.timq {
      assert At(k, x) == TimerWait;
      assert x != p by { AltElsewhere(k, p); }
    }
  }

  lemma AltElsewhere(k: K, p: int)
    requires AltOk(k, p)
    ensures At(k, p) != TimerWait
  {
  }

  // ----- the end of an ALT

  /** Every guard was disabled. */
  ghost predicate MayEndAlt(k: K) {
    var p := k.cur;
    p != 0 && p in k.alts && Info(k, p).phase == Disabling && Info(k, p).todo == []
  }

  /** The ALT ends with a selection, no tag left in any channel, and off the timer queue. */
  lemma AltEndsWell(k: K, iptr: int)
    requires Inv(k) && MayEndAlt(k)
    ensures Slots(k, k.cur).temp != NONE_SELECTED && AltEnd(k, iptr).env == k.env &&
            AltEnd(k, iptr).iptr == iptr + Slots(k, k.cur).temp
    ensures forall c :: ChanWord(k, c) != k.cur + 1
    ensures k.cur !in k.timq
  {
    var p := k.cur;
    assert AltOk(k, p);
    CurrentPlace(k);
    forall c ensures ChanWord(k, c) != p + 1 { assert WordOk(k, c); }
    forall x | x in k.timq ensures x != p { assert OnTimer(k, x); }
  }

  lemma AltEndEffect(k: K, iptr: int)
    requires Slots(k, k.cur).temp != NONE_SELECTED
    ensures var k', p := AltEnd(k, iptr), k.cur;
            OwnSlots(k, k', p) && k'.chan == k.chan && k'.timq == k.timq && p !in k'.alts
  {
  }

  /** p's ALT information is dropped, once no channel carries its tag. */
  lemma EndAltKeeps(k: K, k': K, p: int)
    requires Inv(k) && OwnSlots(k, k', p) && k'.chan == k.chan && k'.timq == k.timq && p !in k'.alts
    requires p == k.cur && p != 0 && p !in k.timq && forall c :: ChanWord(k, c) != p + 1
    ensures Inv(k')
  {
    hide AltOk, Placed, SemsOk, BarsOk, ChannelsOk, TimersOk, AltsOk;
    CurrentPlace(k);
    AltEndWords(k, k', p);
    TimersElsewhere(k, k', p);
    OwnKeeps(k, k', p);
  }

  lemma AltEndKeeps(k: K, iptr: int)
    requires Inv(k) && MayEndAlt(k)
    ensures Inv(AltEnd(k, iptr))
  {
    hide AltEnd, Inv;
    AltEndsWell(k, iptr);
    AltEndEffect(k, iptr);
    EndAltKeeps(k, AltEnd(k, iptr), k.cur);
  }

  lemma AltEndWords(k: K, k': K, p: int)
    requires ChannelsOk(k) && OwnSlots(k, k', p) && k'.chan == k.chan && forall c :: ChanWord(k, c) != p + 1
    ensures forall c :: WordOk(k', c)
  {
    forall c ensures WordOk(k', c) { assert WordOk(k, c); }
  }

  // ----- what the invariant does not look at

  ghost predicate SameCore(k: K, k': K) {
    && k'.cur == k.cur && k'.tq == k.tq && k'.runq == k.runq && k'.timq == k.timq && k'.ws == k.ws && k'.chan == k.chan
    && k'.sem == k.sem && k'.bar == k.bar && k'.place == k.place && k'.alts == k.alts
  }

  // ----- semaphores and barriers

  /** A process with no ALT moves on or off a queue of its own. */
  lemma ElsewhereKeeps(k: K, k': K, p: int)
    requires Inv(k) && OnlyAt(k, k', p) && k'.chan == k.chan && k'.alts == k.alts && k'.timq == k.timq && k'.tq == k.tq
    requires p !in k.alts && OffChannel(At(k, p)) && OffChannel(At(k', p))
    requires Placed(k') && SemsOk(k') && BarsOk(k')
    ensures Inv(k')
  {
    hide Placed, SemsOk, BarsOk, AltOk, IsProcess, NoDup, TimeAfter;
    NotOnTimer(k, p);
    TimersElsewhere(k, k', p);
    hide TimersOk;
    assert ChannelsOk(k') by { forall c ensures WordOk(k', c) { assert WordOk(k, c); } }
    forall x | x in k.alts ensures SameAlt(k, k', x) {
      forall d | Chan(d) in Info(k, x).todo && IsProcess(ChanWord(k, d))
        ensures At(k', ChanWord(k, d)) == At(k, ChanWord(k, d)) {
        BlockedThere(k, d);
      }
    }
    hide ChannelsOk;
    AltsKept(k, k');
  }

  predicate OffChannel(pl: Place) {
    !pl.Sending? && !pl.Receiving? && pl != TimerWait && pl != AltWait
  }

  lemma SemMove(k: K, k': K, p: int, s: int)
    requires SemsOk(k) && BarsOk(k) && OnlyAt(k, k', p) && k'.bar == k.bar && SemOk(k', s)
    requires forall x :: x != s ==> SemOf(k', x) == SemOf(k, x)
    requires (At(k, p) == Halted && At(k', p) == OnSem(s)) || (At(k, p) == OnSem(s) && At(k', p) == Halted)
    requires forall x :: x != p ==> (x in SemQueue(k', s) <==> x in SemQueue(k, s))
    requires At(k', p) == OnSem(s) ==> p in SemQueue(k', s)
    ensures SemsOk(k') && BarsOk(k')
  {
    hide NoDup;
    forall x ensures SemOk(k', x) { assert SemOk(k, x); }
    forall b ensures BarOk(k', b) { assert BarOk(k, b); }
    forall x | At(k', x).OnSem? ensures x in SemQueue(k', At(k', x).s) {
      if x != p { assert x in SemQueue(k, At(k, x).s); }
    }
  }

  lemma AppendNoDup(q: seq<int>, p: int)
    requires NoDup(q) && p !in q
    ensures NoDup(q + [p])
  {
  }

  lemma JoinSemKeeps(k: K, p: int, s: int)
    requires Inv(k) && At(k, p) == Halted && IsProcess(p) && p !in k.alts
    ensures Inv(JoinSem(k, p, s)) && JoinSem(k, p, s).cur == k.cur
  {
    hide Info, IsProcess, ChanWord, TimersNoted, TimerSet, BarOf, TimeAfter, SomeReady, Armed, NoDup, ChannelsOk,
         TimersOk, AltsOk, BarsOk;
    var k' := JoinSem(k, p, s);
    assert SemQueue(k', s) == SemQueue(k, s) + [p];
    assert SemOk(k, s);
    AppendNoDup(SemQueue(k, s), p);
    assert SemOk(k', s);
    hide SemOk;
    SemMove(k, k', p, s);
    hide SemsOk;
    PlacedAway(k, k', p);
    ElsewhereKeeps(k, k', p);
  }

  lemma LeaveSemKeeps(k: K, s: int)
    requires Inv(k) && SemQueue(k, s) != []
    ensures var k', p := LeaveSem(k, s), SemQueue(k, s)[0];
            Inv(k') && k'.cur == k.cur && At(k', p) == Halted && IsProcess(p) && p !in k.alts
  {
    hide NoDup, ChannelsOk, TimersOk, AltsOk, BarsOk;
    var k', q, p := LeaveSem(k, s), SemQueue(k, s), SemQueue(k, s)[0];
    assert SemOk(k, s) && p in q;
    TailNoDup(q);
    NotAlting(k, p);
    assert SemQueue(k', s) == q[1..];
    assert SemOk(k', s);
    hide SemOk;
    SemMove(k, k', p, s);
    hide SemsOk;
    PlacedFreed(k, k', p);
    ElsewhereKeeps(k, k', p);
  }

  lemma NullHalted(k: K)
    requires Inv(k)
    ensures At(k, 0) == Halted && 0 !in k.alts
  {
    forall x | x in k.alts ensures x != 0 { assert AltOk(k, x); }
  }

  /** No process moves and no slot changes. */
  lemma StillKeeps(k: K, k': K)
    requires Inv(k) && k'.ws == k.ws && k'.place == k.place && k'.chan == k.chan && k'.alts == k.alts &&
             k'.timq == k.timq && k'.tq == k.tq
    requires k'.runq == k.runq && k'.cur == k.cur && SemsOk(k') && BarsOk(k')
    ensures Inv(k')
  {
    hide SemsOk, BarsOk;
    NullHalted(k);
    SamePlaces(k, k');
    hide ChannelsOk, TimersOk, AltsOk, NoDup, IsProcess;
    assert Placed(k');
    ElsewhereKeeps(k, k', 0);
  }

  lemma SamePlaces(k: K, k': K)
    requires k'.ws == k.ws && k'.place == k.place
    ensures OnlyAt(k, k', 0)
    ensures forall x {:trigger At(k', x)} {:trigger At(k, x)} :: At(k', x) == At(k, x)
  {
  }

  lemma CoreKeeps(k: K, k': K)
    requires Inv(k) && SameCore(k, k')
    ensures Inv(k')
  {
    SamePlaces(k, k');
    hide ChannelsOk, TimersOk, AltsOk, Placed;
    QueuesKept(k, k');
    hide SemsOk, BarsOk;
    StillKeeps(k, k');
  }

  /** Claiming a free semaphore or releasing one nobody waits for moves no process. */
  lemma SetSemKeeps(k: K, s: int, m: Sem)
    requires Inv(k) && SemQueue(k, s) == [] && (m == Free || m == Claimed([]))
    ensures Inv(SetSem(k, s, m))
  {
    var k' := SetSem(k, s, m);
    SamePlaces(k, k');
    hide NoDup, ChannelsOk, TimersOk, AltsOk, Placed;
    assert SemsOk(k') by {
      hide BarsOk;
      forall x ensures SemOk(k', x) { assert SemOk(k, x); }
      forall x | At(k', x).OnSem? ensures x in SemQueue(k', At(k', x).s) { assert At(k, x).OnSem?; }
    }
    assert BarsOk(k') by { hide SemsOk; forall b ensures BarOk(k', b) { assert BarOk(k, b); } }
    hide SemsOk, BarsOk;
    StillKeeps(k, k');
  }

  lemma BarMove(k: K, k': K, p: int, b: int)
    requires SemsOk(k) && BarsOk(k) && OnlyAt(k, k', p) && k'.sem == k.sem && BarOk(k', b)
    requires forall x :: x != b ==> BarOf(k', x) == BarOf(k, x)
    requires (At(k, p) == Halted && At(k', p) == OnBar(b)) || (At(k, p) == OnBar(b) && At(k', p) == Halted)
    requires forall x :: x != p ==> (x in BarOf(k', b).queue <==> x in BarOf(k, b).queue)
    requires At(k', p) == OnBar(b) ==> p in BarOf(k', b).queue
    ensures SemsOk(k') && BarsOk(k')
  {
    hide NoDup;
    forall x ensures SemOk(k', x) { assert SemOk(k, x); }
    forall x ensures BarOk(k', x) { assert BarOk(k, x); }
    forall x | At(k', x).OnBar? ensures x in BarOf(k', At(k', x).b).queue {
      if x != p { assert x in BarOf(k, At(k, x).b).queue; }
    }
  }

  lemma JoinBarKeeps(k: K, p: int, b: int)
    requires Inv(k) && At(k, p) == Halted && IsProcess(p) && p !in k.alts
    ensures Inv(JoinBar(k, p, b)) && JoinBar(k, p, b).cur == k.cur
  {
    hide SemOf, SemQueue, NoDup, ChannelsOk, TimersOk, AltsOk, SemsOk;
    var k', q := JoinBar(k, p, b), BarOf(k, b).queue;
    assert BarOf(k', b).queue == q + [p];
    assert BarOk(k, b);
    AppendNoDup(q, p);
    assert BarOk(k', b);
    hide BarOk;
    BarMove(k, k', p, b);
    hide BarsOk;
    PlacedAway(k, k', p);
    ElsewhereKeeps(k, k', p);
  }

  lemma OffBarKeeps(k: K, b: int)
    requires Inv(k) && BarOf(k, b).queue != []
    ensures var k', p := OffBar(k, b), BarOf(k, b).queue[0];
            Inv(k') && k'.cur == k.cur && At(k', p) == Halted && IsProcess(p) && p !in k.alts
  {
    hide SemOf, SemQueue, NoDup, ChannelsOk, TimersOk, AltsOk, SemsOk;
    var k', q, p := OffBar(k, b), BarOf(k, b).queue, BarOf(k, b).queue[0];
    assert BarOk(k, b) && p in q;
    TailNoDup(q);
    NotAlting(k, p);
    assert BarOf(k', b).queue == q[1..];
    assert BarOk(k', b);
    hide BarOk;
    BarMove(k, k', p, b);
    hide BarsOk;
    PlacedFreed(k, k', p);
    ElsewhereKeeps(k, k', p);
  }

  lemma {:induction false} DrainKeeps(k: K, b: int)
    requires Inv(k)
    ensures Inv(DrainBar(k, b)) && BarOf(DrainBar(k, b), b).queue == [] && DrainBar(k, b).cur == k.cur
    decreases |BarOf(k, b).queue|
  {
    hide Inv;
    if BarOf(k, b).queue != [] {
      OffBarKeeps(k, b);
      EnqueueKeeps(OffBar(k, b), BarOf(k, b).queue[0]);
      DrainKeeps(Enqueue(OffBar(k, b), BarOf(k, b).queue[0]), b);
    }
  }

  /** The counts of a barrier do not matter to places. */
  lemma SetBarKeeps(k: K, b: int, m: Bar)
    requires Inv(k) && m.queue == BarOf(k, b).queue
    ensures Inv(SetBar(k, b, m))
  {
    hide NoDup, ChannelsOk, TimersOk, AltsOk, Placed;
    var k' := SetBar(k, b, m);
    SamePlaces(k, k');
    assert BarsOk(k') by {
      hide SemsOk;
      forall x ensures BarOk(k', x) { assert BarOk(k, x); }
      forall x | At(k', x).OnBar? ensures x in BarOf(k', At(k', x).b).queue { assert At(k, x).OnBar?; }
    }
    assert SemsOk(k') by { hide BarsOk; forall x ensures SemOk(k', x) { assert SemOk(k, x); } }
    hide SemsOk, BarsOk;
    StillKeeps(k, k');
  }

  lemma SameChannelWords(k: K, k': K)
    requires k'.chan == k.chan
    ensures forall c :: ChanWord(k', c) == ChanWord(k, c)
  {
  }
}
