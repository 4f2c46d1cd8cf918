/**
 Messages: in every run, what has been received on a channel is what has been sent,
 in order, but for a message its blocked sender still holds.
 */
module KernelData {
  import opened Words
  import opened Kernel
  import opened KernelInv
  import opened KernelRuns

  /** The process blocked in channel c is a sender whose message has not been taken. */
  ghost predicate Holding(k: K, c: int) {
    IsProcess(ChanWord(k, c)) && At(k, ChanWord(k, c)) == Sending(c) && c !in k.env.ext
  }

  /** The message a blocked sender offers: the bytes its pointer and length slots name, as they are now. */
  function Offer(k: K, p: int): Msg {
    Bytes(k.env.mem, Slots(k, p).state, -Slots(k, p).len)
  }

  ghost predicate MessagesOk(k: K, c: int) {
    && Said(k, c) == Heard(k, c) + (if Holding(k, c) then [Offer(k, ChanWord(k, c))] else [])
    && (c in k.env.ext ==> IsProcess(ChanWord(k, c)) && At(k, ChanWord(k, c)) == Sending(c))
  }

  /** A blocked sender's buffer and a blocked receiver's do not overlap. */
  ghost predicate BuffersApart(k: K, p: int, q: int) {
    At(k, p).Sending? && At(k, q).Receiving? ==>
    Disjoint(Slots(k, q).state, Slots(k, q).len, Slots(k, p).state, -Slots(k, p).len)
  }

  ghost predicate DataOk(k: K) {
    && (forall c :: MessagesOk(k, c))
    && (forall p, q {:trigger BuffersApart(k, p, q)} :: BuffersApart(k, p, q))
  }

  // ----- steps that leave blocked processes alone

  /** Processes blocked on channels stay as they are, with their pointers and lengths, and no process joins them. */
  ghost predicate SameBlocked(k: K, k': K) {
    forall x {:trigger At(k', x)} :: OnChannel(At(k, x)) || OnChannel(At(k', x)) ==>
      At(k', x) == At(k, x) && Slots(k', x).state == Slots(k, x).state && Slots(k', x).len == Slots(k, x).len
  }

  /** Channel words that name processes stay, and no others appear. */
  ghost predicate SameWords(k: K, k': K) {
    forall c {:trigger ChanWord(k', c)} ::
      ChanWord(k', c) == ChanWord(k, c) || (!IsProcess(ChanWord(k, c)) && !IsProcess(ChanWord(k', c)))
  }

  ghost predicate SameRecord(k: K, k': K) {
    k'.env.mem == k.env.mem && k'.env.sent == k.env.sent && k'.env.recd == k.env.recd && k'.env.ext == k.env.ext
  }

  lemma DataKept(k: K, k': K)
    requires DataOk(k) && SameBlocked(k, k') && SameWords(k, k') && SameRecord(k, k')
    requires forall c :: IsProcess(ChanWord(k, c)) ==> OnChannel(At(k, ChanWord(k, c)))
    ensures DataOk(k')
  {
    hide IsProcess, Bytes, Disjoint;
    forall c ensures MessagesOk(k', c) { assert MessagesOk(k, c); }
    forall p, q ensures BuffersApart(k', p, q) { assert BuffersApart(k, p, q); }
  }

  lemma NamedBlocked(k: K)
    requires Inv(k)
    ensures forall c :: IsProcess(ChanWord(k, c)) ==> OnChannel(At(k, ChanWord(k, c)))
  {
    hide Inv;
    forall c | IsProcess(ChanWord(k, c)) ensures OnChannel(At(k, ChanWord(k, c))) {
      assert ChannelsOk(k) by { hide *; Parts(k); }
      BlockedThere(k, c);
    }
  }

  lemma Parts(k: K)
    requires Inv(k)
    ensures ChannelsOk(k)
  {
  }

  lemma BlockedChain(k: K, k1: K, k2: K)
    requires SameBlocked(k, k1) && SameBlocked(k1, k2)
    ensures SameBlocked(k, k2)
  {
    forall x | OnChannel(At(k, x)) || OnChannel(At(k2, x))
      ensures At(k2, x) == At(k, x) && Slots(k2, x).state == Slots(k, x).state && Slots(k2, x).len == Slots(k, x).len
    {
      assert At(k1, x) == At(k1, x);
    }
  }

  /** A step on one process that is on no channel before or after. */
  lemma OneBlocked(k: K, k': K, p: int)
    requires OnlyAt(k, k', p) && !OnChannel(At(k, p)) && !OnChannel(At(k', p))
    ensures SameBlocked(k, k')
  {
  }

  lemma ExpireBlocked(k: K, now: Word)
    requires Inv(k) && k.timq != []
    ensures SameBlocked(k, Expire(k, now))
  {
    hide Inv, Expire, OnlyAt, SameBlocked;
    TimerQuiet(k, k.timq[0]);
    ExpireEffect(k, now);
    OneBlocked(k, Expire(k, now), k.timq[0]);
  }

  lemma {:induction false} WalkBlocked(k: K, now: Word)
    requires Inv(k) && HalfRange(k, k.timq, {now})
    ensures SameBlocked(k, Walk(k, now))
    decreases |k.timq|
  {
    hide Inv, HalfRange, Expire, TimeAfter, SameBlocked;
    if k.timq != [] && !TimeAfter(Slots(k, k.timq[0]).time, now) {
      ExpireKeeps(k, now);
      ExpireBlocked(k, now);
      WalkBlocked(Expire(k, now), now);
      BlockedChain(k, Expire(k, now), Walk(k, now));
    } else {
      BlockedSelf(k);
    }
  }

  lemma BlockedSelf(k: K)
    ensures SameBlocked(k, k)
  {
  }

  lemma DispatchBlocked(k: K)
    requires Inv(k)
    ensures SameBlocked(k, Dispatch(k))
  {
    if k.runq != [] {
      var p := k.runq[0];
      assert At(k, p) == Queued;
      hide Inv;
      assert OnlyAt(k, Dispatch(k), p);
      OneBlocked(k, Dispatch(k), p);
    } else {
      BlockedSelf(k);
    }
  }

  lemma RunNextBlocked(k: K, now: Word)
    requires Inv(k) && HalfRange(k, k.timq, {now})
    ensures SameBlocked(k, RunNext(k, now))
  {
    var k1 := if k.tq then Sync(k, now) else k;
    hide Inv, HalfRange, Walk, Dispatch, SameBlocked;
    if k.tq {
      WalkBlocked(k, now);
      SyncKeeps(k, now);
      SyncBlocked(Walk(k, now), k1);
      BlockedChain(k, Walk(k, now), k1);
    } else {
      BlockedSelf(k);
    }
    DispatchBlocked(k1);
    BlockedChain(k, k1, Dispatch(k1));
  }

  lemma SyncBlocked(k: K, k': K)
    requires k' == k || k' == k.(tq := false)
    ensures SameBlocked(k, k')
  {
    forall x ensures At(k', x) == At(k, x) && Slots(k', x) == Slots(k, x) { }
  }

  /** Scheduling keeps the messages right. */
  lemma RunNextData(k: K, now: Word)
    requires Inv(k) && HalfRange(k, k.timq, {now}) && DataOk(k)
    ensures DataOk(RunNext(k, now))
  {
    hide Inv, HalfRange, RunNext, DataOk;
    RunNextBlocked(k, now);
    RunNextWorld(k, now);
    NamedBlocked(k);
    SameChan(k, RunNext(k, now));
    DataKept(k, RunNext(k, now));
  }

  lemma SameChan(k: K, k': K)
    requires k'.chan == k.chan
    ensures SameWords(k, k')
  {
  }

  // ----- what a program owes its buffers

  /** A region no blocked sender's message lies in, but perhaps the sender on c. */
  ghost predicate SendersClear(k: K, dst: int, n: int, c: int) {
    forall p {:trigger At(k, p)} :: At(k, p).Sending? && At(k, p).c != c ==>
      Disjoint(dst, n, Slots(k, p).state, -Slots(k, p).len)
  }

  /** A region no blocked receiver will be written in. */
  ghost predicate ReceiversClear(k: K, src: int, n: int) {
    forall q {:trigger At(k, q)} :: At(k, q).Receiving? ==> Disjoint(Slots(k, q).state, Slots(k, q).len, src, n)
  }

  /** The two ends of a channel agree on the length, and nobody writes where a blocked sender's message lies. */
  ghost predicate LegalData(k: K, op: Op) {
    match op
    case OutOp(c, ptr, len) =>
      len >= 0 && if IsProcess(ChanWord(k, c)) then Slots(k, ChanWord(k, c)).len == len else ReceiversClear(k, ptr, len)
    case InOp(c, ptr, len) =>
      len >= 0 && SendersClear(k, ptr, len, c) && c !in k.env.ext &&
      (IsProcess(ChanWord(k, c)) ==> Slots(k, ChanWord(k, c)).len == -len)
    case XInOp(c, ptr, len) =>
      len >= 0 && SendersClear(k, ptr, len, c) && c !in k.env.ext &&
      (IsProcess(ChanWord(k, c)) ==> Slots(k, ChanWord(k, c)).len == -len)
    case XEndOp(c) => ChanWord(k, c) == 1 || c in k.env.ext
    case Compute(mem) =>
      forall p {:trigger At(k, p)} :: At(k, p).Sending? ==>
        Bytes(mem, Slots(k, p).state, -Slots(k, p).len) == Offer(k, p)
    case _ => true
  }

  /** Right but for the messages of channel c. */
  ghost predicate DataBut(k: K, c: int) {
    && (forall d :: d != c ==> MessagesOk(k, d))
    && (forall p, q {:trigger BuffersApart(k, p, q)} :: BuffersApart(k, p, q))
  }

  /** A message delivered outside every other sender's buffer. */
  lemma DeliverData(k: K, c: int, dst: int, src: int, len: int)
    requires DataBut(k, c) && Inv(k) && len >= 0
    requires SendersClear(k, dst, len, c)
    ensures var k' := Deliver(k, c, dst, src, len);
            DataBut(k', c) && Heard(k', c) == Heard(k, c) + [Bytes(k.env.mem, src, len)] &&
            Said(k', c) == Said(k, c) && k' == k.(env := k'.env) &&
            k'.env.ext == k.env.ext
  {
    var k' := Deliver(k, c, dst, src, len);
    var m := Bytes(k.env.mem, src, len);
    StoreReads(k.env.mem, dst, m);
    hide Inv, Bytes, Store, IsProcess;
    forall d | d != c ensures MessagesOk(k', d) {
      assert MessagesOk(k, d);
      if Holding(k, d) {
        var p := ChanWord(k, d);
        StoreKeeps(k.env.mem, dst, m, Slots(k, p).state, -Slots(k, p).len);
      }
    }
    forall p, q ensures BuffersApart(k', p, q) { assert BuffersApart(k, p, q); }
  }

  lemma LeaveData(k: K, c: int)
    requires DataBut(k, c) && Inv(k) && Said(k, c) == Heard(k, c) && c !in k.env.ext && IsProcess(ChanWord(k, c))
    ensures DataOk(Leave(k, c))
  {
    hide AltsOk, AltOk, WordOk, OnTimer, Sorted, Inv, Bytes, Disjoint, BuffersApart;
    var k', q := Leave(k, c), ChanWord(k, c);
    NamedBlocked(k);
    assert OnlyAt(k, k', q);
    assert k'.env == k.env && ChanWord(k', c) == 0;
    SoleWord(k, c);
    hide Leave;
    forall d ensures MessagesOk(k', d) {
      if d != c { assert MessagesOk(k, d); } else { ZeroNotProcess(); }
    }
    forall x, y ensures BuffersApart(k', x, y) { assert BuffersApart(k, x, y); BuffersApartLeft(k, k', q, x, y); }
  }

  lemma BuffersApartLeft(k: K, k': K, q: int, x: int, y: int)
    requires OnlyAt(k, k', q) && At(k', q) == Halted && BuffersApart(k, x, y)
    ensures BuffersApart(k', x, y)
  {
  }

  /** No other channel names the same process. */
  lemma SoleWord(k: K, c: int)
    requires Inv(k) && IsProcess(ChanWord(k, c))
    ensures forall d :: d != c ==> ChanWord(k, d) != ChanWord(k, c)
  {
    hide Inv;
    forall d | d != c ensures ChanWord(k, d) != ChanWord(k, c) { BlockedOnce(k, c, d); }
  }

  /** A blocked process leaves, the current one is queued, the other loaded: messages stay right. */
  lemma ExchangeData(k: K, c: int, iptr: int, now: Word)
    requires Inv(k) && Plain(k) && HalfRange(k, k.timq, {now}) && IsProcess(ChanWord(k, c)) && NoAltOn(k, c)
    requires DataBut(k, c) && Said(k, c) == Heard(k, c) && c !in k.env.ext
    ensures DataOk(Load(Enqueue(Park(Leave(k, c), iptr), k.cur), ChanWord(k, c)))
  {
    var p, q := k.cur, ChanWord(k, c);
    var k1 := Leave(k, c);
    var k2 := Enqueue(Park(k1, iptr), p);
    LeaveKeeps(k, c);
    LeaveData(k, c);
    assert k1.alts == k.alts;
    hide Leave;
    ParkChan(k1, iptr);
    CurrentPlace(k1);
    LoosePair(k1, iptr, q);
    NamedBlocked(k1);
    hide Inv, DataOk, Load, Enqueue, Park, OnlyAt;
    DataKept(k1, Load(k2, q));
  }

  lemma ParkChan(k: K, iptr: int)
    ensures Park(k, iptr).chan == k.chan
  {
  }

  lemma LoosePair(k: K, iptr: int, q: int)
    requires At(k, k.cur) == Running && At(k, q) == Halted
    ensures var k' := Load(Enqueue(Park(k, iptr), k.cur), q);
            SameBlocked(k, k') && SameWords(k, k') && SameRecord(k, k')
  {
    var p, k1 := k.cur, Park(k, iptr);
    var k2 := Enqueue(k1, p);
    ParkEffect(k, iptr);
    EnqueueEffect(k1, p);
    assert OnlyAt(k2, Load(k2, q), q);
    assert At(k2, q) == Queued || At(k2, q) == Halted;
    assert Load(k2, q).chan == k.chan && Load(k2, q).env == k.env;
    SameChan(k, Load(k2, q));
    hide Park, Enqueue, Load, OnlyAt, SameBlocked;
    OneBlocked(k, k1, p);
    OneBlocked(k1, k2, p);
    OneBlocked(k2, Load(k2, q), q);
    BlockedChain(k, k1, k2);
    BlockedChain(k, k2, Load(k2, q));
  }

  lemma ArriveSlots(k: K, p: int, c: int, sending: bool, ptr: int, len: int)
    ensures var w := Slots(Arrive(k, p, c, sending, ptr, len), p);
            w.state == ptr && w.len == if sending then -len else len
    ensures Arrive(k, p, c, sending, ptr, len).env == k.env
  {
    hide Wake;
    WakeEnv(k, ChanWord(k, c) - 1);
  }

  lemma WakeEnv(k: K, q: int)
    ensures Wake(k, q).env == k.env
  {
  }

  /** A process that blocks with its message said, or with a buffer no message lies in. */
  lemma ArriveData(k: K, p: int, c: int, sending: bool, ptr: int, len: int)
    requires Inv(k) && k.cur == 0 && At(k, p) == Halted && IsProcess(p) && p !in k.alts && len >= 0
    requires ChanWord(k, c) == 0 || (ChanWord(k, c) % 2 == 1 && ChanWord(k, c) != 1)
    requires DataBut(k, c) && c !in k.env.ext
    requires if sending then Said(k, c) == Heard(k, c) + [Bytes(k.env.mem, ptr, len)] && ReceiversClear(k, ptr, len)
             else Said(k, c) == Heard(k, c) && SendersClear(k, ptr, len, c)
    ensures DataOk(Arrive(k, p, c, sending, ptr, len))
  {
    hide Slots, At, ChanWord, BarOf, SemQueue, Arrive, Bytes, Disjoint;
    var k' := Arrive(k, p, c, sending, ptr, len);
    ArriveEffect(k, p, c, sending, ptr, len);
    ArriveSlots(k, p, c, sending, ptr, len);
    NamedBlocked(k);
    NotOnWord(k, p);
    NoneThere(k, c);
    if ChanWord(k, c) != 0 { TagUses(k, c); TagMoves(k, c); }
    hide Inv;
    ArrivedMessages(k, k', p, c, sending, ptr, len);
    ArrivedApart(k, k', p, c, sending, ptr, len);
  }

  lemma NotOnWord(k: K, p: int)
    requires Inv(k) && At(k, p) == Halted && IsProcess(p)
    ensures forall d :: ChanWord(k, d) != p
  {
    forall d ensures ChanWord(k, d) != p { assert WordOk(k, d); }
  }

  lemma NoneThere(k: K, c: int)
    requires Inv(k) && !IsProcess(ChanWord(k, c))
    ensures forall x :: At(k, x) != Sending(c) && At(k, x) != Receiving(c)
  {
    OnlyOne(k, c);
  }

  lemma ArrivedMessages(k: K, k': K, p: int, c: int, sending: bool, ptr: int, len: int)
    requires Arrived(k, k', p, c, sending) && k'.env == k.env && IsProcess(p) && Slots(k', p).state == ptr
    requires Slots(k', p).len == if sending then -len else len
    requires forall d :: d != c ==> MessagesOk(k, d)
    requires forall d :: IsProcess(ChanWord(k, d)) ==> OnChannel(At(k, ChanWord(k, d)))
    requires forall d :: ChanWord(k, d) != p
    requires c !in k.env.ext && !IsProcess(ChanWord(k, c))
    requires var v := ChanWord(k, c);
             v % 2 == 1 && v != 1 && Slots(k, v - 1).state == WAITING ==> At(k, v - 1) == AltWait
    requires if sending then Said(k, c) == Heard(k, c) + [Bytes(k.env.mem, ptr, len)] else Said(k, c) == Heard(k, c)
    ensures forall d :: MessagesOk(k', d)
  {
    hide Bytes;
    forall d ensures MessagesOk(k', d) {
      if d != c {
        assert MessagesOk(k, d);
        if IsProcess(ChanWord(k, d)) { ArrivedSame(k, k', p, c, sending, ChanWord(k, d)); }
      } else {
        assert ChanWord(k', c) == p;
      }
    }
  }

  /** Processes blocked on channels see nothing of an arrival. */
  lemma ArrivedSame(k: K, k': K, p: int, c: int, sending: bool, x: int)
    requires Arrived(k, k', p, c, sending) && x != p && OnChannel(At(k, x))
    requires var v := ChanWord(k, c);
             v % 2 == 1 && v != 1 && Slots(k, v - 1).state == WAITING ==> At(k, v - 1) == AltWait
    ensures At(k', x) == At(k, x) && Slots(k', x) == Slots(k, x)
  {
  }

  lemma ArrivedApart(k: K, k': K, p: int, c: int, sending: bool, ptr: int, len: int)
    requires Arrived(k, k', p, c, sending) && Slots(k', p).state == ptr && Slots(k', p).len == if sending then -len
             else len
    requires forall x, y {:trigger BuffersApart(k, x, y)} :: BuffersApart(k, x, y)
    requires forall x :: At(k, x) != Sending(c) && At(k, x) != Receiving(c)
    requires var v := ChanWord(k, c);
             v % 2 == 1 && v != 1 && Slots(k, v - 1).state == WAITING ==> At(k, v - 1) == AltWait
    requires if sending then ReceiversClear(k, ptr, len) else SendersClear(k, ptr, len, c)
    ensures forall x, y {:trigger BuffersApart(k', x, y)} :: BuffersApart(k', x, y)
  {
    hide Disjoint;
    forall x, y ensures BuffersApart(k', x, y) {
      assert BuffersApart(k, x, y);
      if x != p && OnChannel(At(k, x)) { ArrivedSame(k, k', p, c, sending, x); }
      if y != p && OnChannel(At(k, y)) { ArrivedSame(k, k', p, c, sending, y); }
      ArrivedPair(k, k', p, c, sending, ptr, len, x, y);
    }
  }

  lemma ArrivedPair(k: K, k': K, p: int, c: int, sending: bool, ptr: int, len: int, x: int, y: int)
    requires Arrived(k, k', p, c, sending) && Slots(k', p).state == ptr &&
             Slots(k', p).len == (if sending then -len else len) && BuffersApart(k, x, y)
    requires forall z :: At(k, z) != Sending(c) && At(k, z) != Receiving(c)
    requires x != p && OnChannel(At(k, x)) ==> At(k', x) == At(k, x) && Slots(k', x) == Slots(k, x)
    requires y != p && OnChannel(At(k, y)) ==> At(k', y) == At(k, y) && Slots(k', y) == Slots(k, y)
    requires if sending then ReceiversClear(k, ptr, len) else SendersClear(k, ptr, len, c)
    ensures BuffersApart(k', x, y)
  {
    hide Disjoint;
    assert x != p && At(k', x).Sending? ==> At(k, x) == At(k', x);
    assert y != p && At(k', y).Receiving? ==> At(k, y) == At(k', y);
  }

  lemma ButKept(k: K, k': K, c: int)
    requires DataBut(k, c) && SameBlocked(k, k') && SameWords(k, k') && SameRecord(k, k')
    requires forall d :: IsProcess(ChanWord(k, d)) ==> OnChannel(At(k, ChanWord(k, d)))
    ensures DataBut(k', c)
  {
    hide IsProcess, Bytes, Disjoint;
    forall d | d != c ensures MessagesOk(k', d) { assert MessagesOk(k, d); }
    forall p, q ensures BuffersApart(k', p, q) { assert BuffersApart(k, p, q); }
  }

  lemma ParkBlocked(k: K, iptr: int)
    requires Inv(k) && k.cur != 0
    ensures SameBlocked(k, Park(k, iptr)) && Park(k, iptr).chan == k.chan && Park(k, iptr).env == k.env
  {
    hide Inv;
    CurrentPlace(k);
    ParkEffect(k, iptr);
    OneBlocked(k, Park(k, iptr), k.cur);
  }

  lemma ClearKept(k: K, k': K, ptr: int, len: int, c: int)
    requires SameBlocked(k, k')
    ensures ReceiversClear(k, ptr, len) ==> ReceiversClear(k', ptr, len)
    ensures SendersClear(k, ptr, len, c) ==> SendersClear(k', ptr, len, c)
  {
    hide Disjoint;
  }

  /** The current process blocks on c, and the ALTer it wakes or the next process runs. */
  lemma BlockData(k: K, c: int, sending: bool, ptr: int, len: int, iptr: int, now: Word)
    requires Inv(k) && Plain(k) && HalfRange(k, k.timq, {now}) && len >= 0
    requires ChanWord(k, c) == 0 || (ChanWord(k, c) % 2 == 1 && ChanWord(k, c) != 1)
    requires !sending ==> NoAltOn(k, c)
    requires DataBut(k, c) && c !in k.env.ext
    requires if sending then Said(k, c) == Heard(k, c) + [Bytes(k.env.mem, ptr, len)] && ReceiversClear(k, ptr, len)
             else Said(k, c) == Heard(k, c) && SendersClear(k, ptr, len, c)
    ensures var k2, v := Arrive(Park(k, iptr), k.cur, c, sending, ptr, len), ChanWord(k, c);
            DataOk(RunNext(k2, now)) && (v % 2 == 1 && Slots(k, v - 1).state == WAITING ==> DataOk(Load(k2, v - 1)))
  {
    var p, k1 := k.cur, Park(k, iptr);
    var k2, v := Arrive(k1, p, c, sending, ptr, len), ChanWord(k, c);
    hide Inv, HalfRange, Arrive, Park, RunNext, Load, DataBut, SameBlocked, DataOk, ReceiversClear, SendersClear, Bytes;
    CurrentPlace(k);
    ParkKeeps(k, iptr);
    ParkBlocked(k, iptr);
    NamedBlocked(k);
    SameChan(k, k1);
    ButKept(k, k1, c);
    ClearKept(k, k1, ptr, len, c);
    SameWord(k, k1, c);
    ParkWorld(k, iptr, c);
    ArriveData(k1, p, c, sending, ptr, len);
    BlockKeeps(k, c, sending, ptr, len, iptr, now);
    RunNextData(k2, now);
    if v % 2 == 1 {
      TagState(k, c);
      if Slots(k, v - 1).state == WAITING { LoadData(k2, v - 1); }
    }
  }

  lemma SameWord(k: K, k': K, c: int)
    requires k'.chan == k.chan && k'.env == k.env
    ensures ChanWord(k', c) == ChanWord(k, c) && Said(k', c) == Said(k, c) && Heard(k', c) == Heard(k, c)
  {
  }

  lemma LoadData(k: K, q: int)
    requires Inv(k) && DataOk(k) && At(k, q) == Halted
    ensures DataOk(Load(k, q))
  {
    assert OnlyAt(k, Load(k, q), q);
    hide Inv, DataOk, OnlyAt;
    OneBlocked(k, Load(k, q), q);
    NamedBlocked(k);
    SameChan(k, Load(k, q));
    DataKept(k, Load(k, q));
  }

  /** An output is recorded: nothing else about messages changes. */
  lemma SayData(k: K, c: int, ptr: int, len: int)
    requires DataOk(k) && !Holding(k, c)
    ensures var k' := Say(k, c, ptr, len);
            DataBut(k', c) && Said(k', c) == Heard(k', c) + [Bytes(k.env.mem, ptr, len)] &&
            k' == k.(env := k'.env) && k'.env.mem == k.env.mem &&
            k'.env.ext == k.env.ext
  {
    var k' := Say(k, c, ptr, len);
    hide Bytes, IsProcess, Disjoint;
    assert MessagesOk(k, c);
    forall d | d != c ensures MessagesOk(k', d) { assert MessagesOk(k, d); }
    forall p, q ensures BuffersApart(k', p, q) { assert BuffersApart(k, p, q); }
  }

  lemma YieldData(k: K, iptr: int, now: Word)
    requires Inv(k) && Plain(k) && HalfRange(k, k.timq, {now}) && DataOk(k)
    ensures DataOk(RunNext(Enqueue(Park(k, iptr), k.cur), now))
  {
    var p, k1 := k.cur, Park(k, iptr);
    var k2 := Enqueue(k1, p);
    hide Inv, HalfRange, Park, RunNext, DataOk;
    CurrentPlace(k);
    ParkBlocked(k, iptr);
    EnqueueEffect(k1, p);
    ParkEffect(k, iptr);
    hide Enqueue, OnlyAt, SameBlocked;
    OneBlocked(k1, k2, p);
    BlockedChain(k, k1, k2);
    NamedBlocked(k);
    SameChan(k, k2);
    DataKept(k, k2);
    RequeueKeeps(k, iptr, now);
    RunNextData(k2, now);
  }

  lemma OutData(k: K, c: int, ptr: int, len: int, iptr: int, now: Word)
    requires Inv(k) && HalfRange(k, k.timq, {now}) && Plain(k) && MayOutput(k, c) && DataOk(k) &&
             LegalData(k, OutOp(c, ptr, len))
    ensures DataOk(Out(k, c, ptr, len, iptr, now))
  {
    hide Inv, HalfRange, Arrive, Park, RunNext, Load, Enqueue, Leave, NoAltOn, Say, Deliver, Bytes, DataBut;
    var v, k1 := ChanWord(k, c), Say(k, c, ptr, len);
    WordKinds(k, c);
    NotTaken(k, c);
    if v == 1 {
      YieldData(k, iptr, now);
    } else {
      SayData(k, c, ptr, len);
      EnvKeeps(k, k1, {now});
      if IsProcess(v) {
        OutDelivers(k, c, ptr, len, iptr, now);
      } else {
        ClearSame(k, k1, ptr, len, c);
        if v != 0 { TagState(k, c); }
        BlockData(k1, c, true, ptr, len, iptr, now);
      }
    }
  }

  /** No message of a channel with no blocked sender is held or taken. */
  lemma NotTaken(k: K, c: int)
    requires DataOk(k)
    ensures !(IsProcess(ChanWord(k, c)) && At(k, ChanWord(k, c)) == Sending(c)) ==>
            c !in k.env.ext && !Holding(k, c) && Said(k, c) == Heard(k, c)
  {
    assert MessagesOk(k, c);
  }

  lemma ClearSame(k: K, k': K, ptr: int, len: int, c: int)
    requires k'.ws == k.ws && k'.place == k.place
    ensures ReceiversClear(k, ptr, len) ==> ReceiversClear(k', ptr, len)
    ensures SendersClear(k, ptr, len, c) ==> SendersClear(k', ptr, len, c)
  {
    SamePlaces(k, k');
    forall x ensures Slots(k', x) == Slots(k, x) { }
    hide Disjoint;
  }

  lemma OutDelivers(k: K, c: int, ptr: int, len: int, iptr: int, now: Word)
    requires Inv(k) && HalfRange(k, k.timq, {now}) && Plain(k) && MayOutput(k, c) && DataOk(k) &&
             LegalData(k, OutOp(c, ptr, len))
    requires IsProcess(ChanWord(k, c)) && Untag(ChanWord(k, c)) == ChanWord(k, c)
    ensures var q, k1 := ChanWord(k, c), Say(k, c, ptr, len);
            DataOk(Load(Enqueue(Park(Leave(Deliver(k1, c, Slots(k, q).state, ptr, len), c), iptr), k.cur), q))
  {
    hide Inv, HalfRange, Park, Load, Enqueue, Leave, NoAltOn, Say, Deliver, Bytes, DataBut, DataOk;
    var q, k1 := ChanWord(k, c), Say(k, c, ptr, len);
    NotTaken(k, c);
    SayData(k, c, ptr, len);
    EnvKeeps(k, k1, {now});
    ReceiverClear(k, q);
    ClearSame(k, k1, Slots(k, q).state, len, c);
    DeliverData(k1, c, Slots(k, q).state, ptr, len);
    var k2 := Deliver(k1, c, Slots(k, q).state, ptr, len);
    EnvKeeps(k, k2, {now});
    ExchangeData(k2, c, iptr, now);
  }

  /** A blocked receiver's buffer holds no blocked sender's message. */
  lemma ReceiverClear(k: K, q: int)
    requires DataOk(k) && At(k, q).Receiving?
    ensures forall c :: SendersClear(k, Slots(k, q).state, Slots(k, q).len, c)
  {
    hide Disjoint;
    forall p | At(k, p).Sending?
      ensures Disjoint(Slots(k, q).state, Slots(k, q).len, Slots(k, p).state, -Slots(k, p).len) {
      assert BuffersApart(k, p, q);
    }
  }

  lemma InData(k: K, c: int, ptr: int, len: int, iptr: int, now: Word)
    requires Inv(k) && HalfRange(k, k.timq, {now}) && Plain(k) && MayInput(k, c) && DataOk(k) &&
             LegalData(k, InOp(c, ptr, len))
    ensures DataOk(In(k, c, ptr, len, iptr, now))
  {
    hide Inv, HalfRange, Arrive, Park, RunNext, Load, Enqueue, Leave, Deliver, Bytes, Zero;
    var v := ChanWord(k, c);
    WordKinds(k, c);
    NotTaken(k, c);
    if IsProcess(v) {
      InDelivers(k, c, ptr, len);
      var k1 := Deliver(k, c, ptr, Slots(k, v).state, len);
      EnvKeeps(k, k1, {now});
      ExchangeData(k1, c, iptr, now);
    } else if v == 1 {
      ZeroData(k, c, ptr, len);
      var k1 := SetMem(k, Zero(k.env.mem, ptr, len));
      EnvKeeps(k, k1, {now});
      YieldData(k1, iptr, now);
    } else {
      assert v != 0 ==> Uses(k, v - 1, c);
      BlockData(k, c, false, ptr, len, iptr, now);
    }
  }

  /** Taking a blocked sender's message. */
  lemma InDelivers(k: K, c: int, ptr: int, len: int)
    requires Inv(k) && DataOk(k) && LegalData(k, InOp(c, ptr, len)) && IsProcess(ChanWord(k, c)) &&
             At(k, ChanWord(k, c)) == Sending(c)
    ensures var k1 := Deliver(k, c, ptr, Slots(k, ChanWord(k, c)).state, len);
            DataBut(k1, c) && Said(k1, c) == Heard(k1, c) && k1 == k.(env := k1.env) && k1.env.ext == k.env.ext
  {
    hide Inv, Deliver, Bytes;
    assert MessagesOk(k, c);
    DeliverData(k, c, ptr, Slots(k, ChanWord(k, c)).state, len);
  }

  /** Writes outside every message keep the messages right. */
  lemma MemData(k: K, mem: map<int, int>)
    requires DataOk(k)
    requires forall c :: Holding(k, c) ==>
             Bytes(mem, Slots(k, ChanWord(k, c)).state, -Slots(k, ChanWord(k, c)).len) == Offer(k, ChanWord(k, c))
    ensures DataOk(SetMem(k, mem))
  {
    var k' := SetMem(k, mem);
    hide Bytes, Disjoint, IsProcess;
    forall c ensures MessagesOk(k', c) { assert MessagesOk(k, c); }
    forall p, q ensures BuffersApart(k', p, q) { assert BuffersApart(k, p, q); }
  }

  lemma ZeroData(k: K, c: int, ptr: int, len: int)
    requires DataOk(k) && SendersClear(k, ptr, len, c) && !IsProcess(ChanWord(k, c)) && len >= 0
    ensures DataOk(SetMem(k, Zero(k.env.mem, ptr, len)))
  {
    hide Bytes, Disjoint;
    forall d | Holding(k, d)
      ensures Bytes(Zero(k.env.mem, ptr, len), Slots(k, ChanWord(k, d)).state, -Slots(k, ChanWord(k, d)).len) ==
              Offer(k, ChanWord(k, d))
    {
      StoreKeeps(k.env.mem, ptr, Zeros(len), Slots(k, ChanWord(k, d)).state, -Slots(k, ChanWord(k, d)).len);
    }
    MemData(k, Zero(k.env.mem, ptr, len));
  }

  lemma XInData(k: K, c: int, ptr: int, len: int, iptr: int, now: Word)
    requires Inv(k) && HalfRange(k, k.timq, {now}) && MayXIn(k, c) && DataOk(k) && LegalData(k, XInOp(c, ptr, len))
    ensures DataOk(XIn(k, c, ptr, len, iptr, now))
  {
    hide Inv, HalfRange, RunNext, EndAlt, MayXIn, Enqueue, Park, Bytes, Deliver, Zero, DataOk, LegalData, Slots,
         SetTaken, SetMem;
    XInReady(k, c);
    if ChanWord(k, c) == 1 {
      XInDead(k, c, ptr, len, iptr, now);
    } else {
      XInTakes(k, c, ptr, len);
    }
  }

  lemma XInDead(k: K, c: int, ptr: int, len: int, iptr: int, now: Word)
    requires Inv(k) && HalfRange(k, k.timq, {now}) && MayXIn(k, c) && DataOk(k) &&
             LegalData(k, XInOp(c, ptr, len)) && ChanWord(k, c) == 1
    ensures DataOk(RunNext(Enqueue(Park(SetMem(EndAlt(k, k.cur), Zero(k.env.mem, ptr, len)), iptr), k.cur), now))
  {
    hide Inv, HalfRange, RunNext, EndAlt, MayXIn, Enqueue, Park, Bytes, Zero, DataOk;
    var k1 := EndAlt(k, k.cur);
    EndExtended(k, c);
    XInStart(k, c, {now});
    EndAltData(k);
    EndSame(k);
    ClearSame(k, k1, ptr, len, c);
    ZeroData(k1, c, ptr, len);
    var k2 := SetMem(k1, Zero(k1.env.mem, ptr, len));
    EnvKeeps(k1, k2, {now});
    YieldData(k2, iptr, now);
  }

  lemma XInTakes(k: K, c: int, ptr: int, len: int)
    requires Inv(k) && MayXIn(k, c) && DataOk(k) && LegalData(k, XInOp(c, ptr, len)) && IsProcess(ChanWord(k, c)) &&
             At(k, ChanWord(k, c)) == Sending(c)
    ensures DataOk(SetTaken(Deliver(EndAlt(k, k.cur), c, ptr, Slots(k, ChanWord(k, c)).state, len), k.env.ext + {c}))
  {
    hide Inv, EndAlt, MayXIn, Bytes, Deliver, DataOk, DataBut;
    var k1 := EndAlt(k, k.cur);
    EndExtended(k, c);
    EndAltData(k);
    EndSame(k);
    ClearSame(k, k1, ptr, len, c);
    InDelivers(k1, c, ptr, len);
    var k2 := Deliver(k1, c, ptr, Slots(k, ChanWord(k, c)).state, len);
    SamePlaces(k1, k2);
    SameChanWord(k1, k2, c);
    TakenData(k2, c);
  }

  lemma EndSame(k: K)
    ensures var k1 := EndAlt(k, k.cur); k1.ws == k.ws && k1.place == k.place && k1.chan == k.chan && k1.env == k.env
    ensures var k1 := EndAlt(k, k.cur);
            (forall x :: Slots(k1, x) == Slots(k, x) && At(k1, x) == At(k, x)) &&
            (forall c :: ChanWord(k1, c) == ChanWord(k, c))
  {
  }

  lemma EndAltData(k: K)
    requires DataOk(k) && Inv(k)
    ensures DataOk(EndAlt(k, k.cur))
  {
    NamedBlocked(k);
    EndSame(k);
    hide Inv, DataOk, EndAlt;
    DataKept(k, EndAlt(k, k.cur));
  }

  /** The message is taken, the sender still waits. */
  lemma TakenData(k: K, c: int)
    requires DataBut(k, c) && Said(k, c) == Heard(k, c) && IsProcess(ChanWord(k, c)) &&
             At(k, ChanWord(k, c)) == Sending(c)
    ensures DataOk(SetTaken(k, k.env.ext + {c}))
  {
    var k' := SetTaken(k, k.env.ext + {c});
    hide Bytes, Disjoint, IsProcess;
    forall d ensures MessagesOk(k', d) { assert d != c ==> MessagesOk(k, d); }
    forall p, q ensures BuffersApart(k', p, q) { assert BuffersApart(k, p, q); }
  }

  lemma XEndData(k: K, c: int)
    requires Inv(k) && Plain(k) && NoAltOn(k, c) && DataOk(k) && LegalData(k, XEndOp(c))
    ensures DataOk(XEnd(k, c))
  {
    hide Inv;
    var v := ChanWord(k, c);
    if v != 1 {
      assert MessagesOk(k, c);
      var k1 := SetTaken(k, k.env.ext - {c});
      ReleaseData(k, c);
      CoreKeeps(k, k1);
      SameChanWord(k, k1, c);
      hide DataOk;
      LeaveData(k1, c);
      var k2 := Leave(k1, c);
      assert At(k2, v) == Halted;
      assert SetTaken(Enqueue(Leave(k, c), v), k.env.ext - {c}) == Enqueue(k2, v);
      StillUnused(k, k1, c);
      LeaveKeeps(k1, c);
      NamedBlocked(k2);
      hide Leave, Enqueue;
      EnqueueData(k2, v);
    }
  }

  lemma SameChanWord(k: K, k': K, c: int)
    requires k'.chan == k.chan
    ensures ChanWord(k', c) == ChanWord(k, c)
  {
  }

  lemma StillUnused(k: K, k': K, c: int)
    requires NoAltOn(k, c) && k'.alts == k.alts
    ensures NoAltOn(k', c)
  {
    forall q ensures !Uses(k', q, c) { assert !Uses(k, q, c); }
  }

  lemma ReleaseData(k: K, c: int)
    requires DataOk(k) && c in k.env.ext
    ensures var k1 := SetTaken(k, k.env.ext - {c}); DataBut(k1, c) && Said(k1, c) == Heard(k1, c) && c !in k1.env.ext
  {
    var k1 := SetTaken(k, k.env.ext - {c});
    hide Bytes, Disjoint, IsProcess;
    assert MessagesOk(k, c);
    forall d | d != c ensures MessagesOk(k1, d) { assert MessagesOk(k, d); }
    forall p, q ensures BuffersApart(k1, p, q) { assert BuffersApart(k, p, q); }
  }

  lemma EnqueueData(k: K, v: int)
    requires DataOk(k) && At(k, v) == Halted && forall d :: IsProcess(ChanWord(k, d)) ==>
             OnChannel(At(k, ChanWord(k, d)))
    ensures DataOk(Enqueue(k, v))
  {
    hide DataOk, Enqueue, OnlyAt;
    EnqueueEffect(k, v);
    OneBlocked(k, Enqueue(k, v), v);
    SameChan(k, Enqueue(k, v));
    DataKept(k, Enqueue(k, v));
  }

  // ----- every other step leaves messages alone

  /** What instructions other than communications leave: blocked processes, the words that name them, memory and
   records. */
  ghost predicate Untouched(k: K, k': K) {
    SameBlocked(k, k') && SameWords(k, k') && SameRecord(k, k')
  }

  lemma UntouchedChain(k: K, k1: K, k2: K)
    requires Untouched(k, k1) && Untouched(k1, k2)
    ensures Untouched(k, k2)
  {
    BlockedChain(k, k1, k2);
    hide SameBlocked, IsProcess;
    forall c ensures ChanWord(k2, c) == ChanWord(k, c) || (!IsProcess(ChanWord(k, c)) && !IsProcess(ChanWord(k2, c))) {
      assert ChanWord(k1, c) == ChanWord(k1, c);
    }
  }

  lemma UntouchedOne(k: K, k': K, p: int)
    requires OnlyAt(k, k', p) && !OnChannel(At(k, p)) && !OnChannel(At(k', p)) && k'.chan == k.chan && k'.env == k.env
    ensures Untouched(k, k')
  {
    hide OnlyAt;
    OneBlocked(k, k', p);
    SameChan(k, k');
  }

  lemma UntouchedEnqueue(k: K, p: int)
    requires !OnChannel(At(k, p))
    ensures Untouched(k, Enqueue(k, p))
  {
    hide Enqueue, OnlyAt;
    EnqueueEffect(k, p);
    UntouchedOne(k, Enqueue(k, p), p);
  }

  lemma UntouchedPark(k: K, iptr: int)
    requires Inv(k) && k.cur != 0
    ensures Untouched(k, Park(k, iptr))
  {
    hide Inv;
    ParkBlocked(k, iptr);
    SameChan(k, Park(k, iptr));
  }

  lemma UntouchedRun(k: K, now: Word)
    requires Inv(k) && HalfRange(k, k.timq, {now})
    ensures Untouched(k, RunNext(k, now))
  {
    hide Inv, HalfRange, RunNext;
    RunNextBlocked(k, now);
    RunNextWorld(k, now);
    SameChan(k, RunNext(k, now));
  }

  /** The current process works on its own ALT. */
  lemma UntouchedOwn(k: K, k': K)
    requires Inv(k) && k.cur != 0 && OwnSlots(k, k', k.cur) && SameRecord(k, k')
    requires forall c ::
             ChanWord(k', c) == ChanWord(k, c) || (!IsProcess(ChanWord(k, c)) && !IsProcess(ChanWord(k', c)))
    ensures Untouched(k, k')
  {
    CurrentPlace(k);
    hide Inv, OnlyAt;
    OneBlocked(k, k', k.cur);
  }

  lemma StartUntouched(k: K, p: int, at: int)
    requires Spare(k, p)
    ensures Untouched(k, StartP(k, p, at))
  {
    var k1 := SetWs(k, p, Slots(k, p).(iptr := at));
    assert OnlyAt(k, k1, p);
    hide OnlyAt, Enqueue, Untouched;
    UntouchedOne(k, k1, p);
    UntouchedEnqueue(k1, p);
    UntouchedChain(k, k1, Enqueue(k1, p));
  }

  lemma StopUntouched(k: K, iptr: int, now: Word)
    requires Inv(k) && Plain(k) && HalfRange(k, k.timq, {now})
    ensures Untouched(k, RunNext(Park(k, iptr), now))
  {
    var k1 := Park(k, iptr);
    hide Inv, HalfRange, RunNext, Park, Untouched;
    UntouchedPark(k, iptr);
    ParkKeeps(k, iptr);
    ParkTimers(k, iptr);
    WindowSame(k, k1, {now});
    UntouchedRun(k1, now);
    UntouchedChain(k, k1, RunNext(k1, now));
  }

  lemma HaltUntouched(k: K)
    requires Inv(k) && Plain(k)
    ensures Untouched(k, SetAt(k, k.cur, Halted).(cur := 0))
  {
    hide Inv;
    var k1 := SetAt(k, k.cur, Halted).(cur := 0);
    CurrentPlace(k);
    HaltKeeps(k);
    forall x ensures Slots(k1, x) == Slots(k, x) { }
    assert OnlyAt(k, k1, k.cur);
    UntouchedOne(k, k1, k.cur);
  }

  lemma BecomeUntouched(k: K, k': K, p: int)
    requires At(k, p) == Halted && k' == SetAt(k, p, Running).(cur := p, iptr := k'.iptr)
    ensures Untouched(k, k')
  {
    var k1 := SetAt(k, p, Running);
    SamePlaces(k1, k');
    forall x ensures Slots(k', x) == Slots(k, x) { }
    assert OnlyAt(k, k', p);
    UntouchedOne(k, k', p);
  }

  lemma AdjustUntouched(k: K, p: int)
    requires Inv(k) && Plain(k) && (p == k.cur || Spare(k, p))
    ensures Untouched(k, Adjust(k, p))
  {
    hide Inv, Untouched;
    HaltUntouched(k);
    HaltKeeps(k);
    var k1 := SetAt(k, k.cur, Halted).(cur := 0);
    BecomeUntouched(k1, Adjust(k, p), p);
    UntouchedChain(k, k1, Adjust(k, p));
  }

  lemma EndUntouched(k: K, par: int, resume: int, now: Word)
    requires Inv(k) && Plain(k) && HalfRange(k, k.timq, {now}) &&
             (JoinCount(k, par) == 1 ==> par == k.cur || Spare(k, par))
    ensures Untouched(k, EndP(k, par, resume, now))
  {
    var n, k1 := JoinCount(k, par), SetAt(k, k.cur, Halted).(cur := 0);
    var k2 := SetJoin(k1, par, if n == 1 then 0 else n - 1);
    hide Inv, HalfRange, RunNext, SetAt, Untouched;
    HaltKeeps(k);
    HaltUntouched(k);
    JoinUntouched(k1, par, if n == 1 then 0 else n - 1);
    UntouchedChain(k, k1, k2);
    WindowSame(k, k1, {now});
    EnvKeeps(k1, k2, {now});
    if n == 1 {
      BecomeUntouched(k2, EndP(k, par, resume, now), par);
    } else {
      UntouchedRun(k2, now);
    }
    UntouchedChain(k, k2, EndP(k, par, resume, now));
  }

  lemma ReturnUntouched(k: K, at: int)
    requires Inv(k) && k.cur != 0
    ensures Untouched(k, SetReturn(k, at))
  {
    hide Inv, SetReturn, OwnSlots;
    ReturnEffect(k, at);
    SameChannelWords(k, SetReturn(k, at));
    UntouchedOwn(k, SetReturn(k, at));
  }

  lemma JoinUntouched(k: K, par: int, n: int)
    ensures Untouched(k, SetJoin(k, par, n))
  {
    var k' := SetJoin(k, par, n);
    SamePlaces(k, k');
    forall x ensures Slots(k', x) == Slots(k, x) { }
    SameChan(k, k');
  }

  lemma SleepUntouched(k: K, k1: K, iptr: int, now: Word)
    requires Inv(k) && k.cur != 0 && k1.cur == k.cur && OnlyAt(k, k1, k.cur) && At(k1, k.cur) == At(k, k.cur) &&
             k1.chan == k.chan && k1.env == k.env
    requires var k2 := Sleep(k1, iptr); Inv(k2) && HalfRange(k2, k2.timq, {now})
    ensures Untouched(k, RunNext(Sleep(k1, iptr), now))
  {
    var k2 := Sleep(k1, iptr);
    assert k2.env == k1.env;
    hide Inv, HalfRange, RunNext, Sleep, Untouched;
    CurrentPlace(k);
    SleepEffect(k1, iptr);
    OnlyChain(k, k1, k2, k.cur);
    hide OnlyAt;
    UntouchedOne(k, k2, k.cur);
    UntouchedRun(k2, now);
    UntouchedChain(k, k2, RunNext(k2, now));
  }

  lemma AltWtUntouched(k: K, iptr: int, now: Word)
    requires Inv(k) && HalfRange(k, k.timq, {now}) && (MaySleep(k, false) || MayProceed(k, false, now))
    ensures Untouched(k, AltWt(k, iptr, now))
  {
    hide Inv, HalfRange, RunNext, Sleep, Proceed, Untouched;
    if Slots(k, k.cur).state == READY {
      ProceedEffect(k, false, now);
      ProceedEnv(k, false, now);
      UntouchedByOwn(k, Proceed(k, false, now));
    } else {
      AsleepState(k, iptr, now);
      SameOnly(k, k.cur);
      SleepUntouched(k, k, iptr, now);
    }
  }

  lemma UntouchedByOwn(k: K, k': K)
    requires Inv(k) && k.cur != 0 && OwnSlots(k, k', k.cur) && k'.env == k.env && k'.chan == k.chan
    ensures Untouched(k, k')
  {
    hide Inv, OwnSlots, IsProcess;
    SameChan(k, k');
    UntouchedOwn(k, k');
  }

  lemma TaltWtUntouched(k: K, iptr: int, now: Word)
    requires Inv(k) && HalfRange(k, k.timq, {now} + NewTimes(k, TaltWtOp, now)) &&
             (MaySleep(k, true) || MayProceed(k, true, now))
    ensures Untouched(k, TaltWt(k, iptr, now))
  {
    hide Placed, ChannelsOk, SemsOk, BarsOk, TimersOk, AltsOk;
    var p, w := k.cur, Slots(k, k.cur);
    var k1 := TimerInsert(k, p, Wrap(w.time + 1), iptr);
    assert OnlyAt(k, k1, p) && At(k1, p) == At(k, p) && k1.chan == k.chan && k1.env == k.env && k1.cur == k.cur;
    hide Inv, HalfRange, RunNext, TimeAfter, Sleep, Proceed, Untouched, TimerInsert;
    SmallerWindow(k, {now} + NewTimes(k, TaltWtOp, now), {now});
    if w.state == READY || (w.tlink != TIME_NOT_SET && TimeAfter(now, w.time)) {
      ProceedEffect(k, true, now);
      ProceedEnv(k, true, now);
      UntouchedByOwn(k, Proceed(k, true, now));
    } else if w.tlink == TIME_NOT_SET {
      AsleepState(k, iptr, now);
      SameOnly(k, k.cur);
      SleepUntouched(k, k, iptr, now);
    } else {
      assert {now} + NewTimes(k, TaltWtOp, now) == {now, Wrap(w.time + 1)};
      TimedState(k, iptr, now);
      SleepUntouched(k, k1, iptr, now);
    }
  }

  lemma XAbleUntouched(k: K, c: int, iptr: int, now: Word)
    requires Inv(k) && HalfRange(k, k.timq, {now}) && Plain(k) && NoAltOn(k, c)
    ensures Untouched(k, XAble(k, c, iptr, now))
  {
    if ChanWord(k, c) == 0 {
      var p, k1 := k.cur, Park(k, iptr);
      var k2 := AwaitChannel(k1, p, c);
      assert k2.env == k1.env;
      hide Inv, HalfRange, AwaitChannel, RunNext, Untouched;
      CurrentPlace(k);
      UntouchedPark(k, iptr);
      ParkKeeps(k, iptr);
      ParkTimers(k, iptr);
      ParkWorld(k, iptr, c);
      AwaitChannelKeeps(k1, p, c);
      ChannelAwaitTimers(k1, p, c);
      TimersChain(k, k1, k2, {now}, {now});
      hide Park;
      AwaitEffect(k1, p, c);
      AwaitUntouched(k1, k2, p, c);
      UntouchedRun(k2, now);
      UntouchedChain(k, k1, k2);
      UntouchedChain(k, k2, RunNext(k2, now));
    } else {
      BlockedSelf(k);
    }
  }

  lemma AwaitUntouched(k: K, k': K, p: int, c: int)
    requires OnlyAt(k, k', p) && At(k, p) == Halted && At(k', p) == AltWait && k'.env == k.env && IsProcess(p)
    requires ChanWord(k, c) == 0 && ChanWord(k', c) == p + 1 && forall x :: x != c ==> ChanWord(k', x) == ChanWord(k, x)
    ensures Untouched(k, k')
  {
    OneBlocked(k, k', p);
  }

  lemma TinUntouched(k: K, t: Word, iptr: int, now: Word)
    requires Inv(k) && Plain(k) && HalfRange(k, k.timq, {now} + NewTimes(k, TinOp(t), now))
    ensures Untouched(k, Tin(k, t, iptr, now))
  {
    hide ChanWord, Inv, HalfRange, TimeAfter, RunNext;
    if !TimeAfter(now, t) {
      var p, k1 := k.cur, Park(k, iptr);
      var k2 := AwaitTime(k1, p, t, iptr);
      assert OnlyAt(k1, k2, p) && At(k2, p) == TimerWait && k2.chan == k1.chan && k2.env == k1.env;
      assert NewTimes(k, TinOp(t), now) == {t} && {now} + {t} == {now, t};
      AwaitWindow(k1, p, t, iptr);
      hide AwaitTime, Untouched;
      CurrentPlace(k);
      UntouchedPark(k, iptr);
      ParkKeeps(k, iptr);
      ParkTimers(k, iptr);
      WindowSame(k, k1, {now, t});
      assert At(k1, p) == Halted && k1.alts == k.alts && k1.cur == 0;
      hide Park, OnlyAt;
      SmallerWindow(k1, {now, t}, {t});
      AwaitTimeKeeps(k1, p, t, iptr);
      AddedWindow(k1, k2, p, t, now);
      UntouchedOne(k1, k2, p);
      UntouchedRun(k2, now);
      UntouchedChain(k, k1, k2);
      UntouchedChain(k, k2, RunNext(k2, now));
    } else {
      BlockedSelf(k);
    }
  }

  /** A parked process joins a semaphore or barrier, and the next one runs. */
  lemma JoinUntouchedRun(k: K, k2: K, iptr: int, now: Word)
    requires Inv(k) && Plain(k) && Inv(k2) && HalfRange(k2, k2.timq, {now})
    requires var k1 := Park(k, iptr);
             OnlyAt(k1, k2, k.cur) && At(k1, k.cur) == Halted && !OnChannel(At(k2, k.cur)) && k2.chan == k1.chan &&
             k2.env == k1.env
    ensures Untouched(k, RunNext(k2, now))
  {
    var k1 := Park(k, iptr);
    hide Inv, HalfRange, RunNext, Untouched, Park, OnlyAt;
    UntouchedPark(k, iptr);
    UntouchedOne(k1, k2, k.cur);
    UntouchedRun(k2, now);
    UntouchedChain(k, k1, k2);
    UntouchedChain(k, k2, RunNext(k2, now));
  }

  lemma ClaimUntouched(k: K, s: int, iptr: int, now: Word)
    requires Inv(k) && Plain(k) && HalfRange(k, k.timq, {now})
    ensures Untouched(k, SemClaim(k, s, iptr, now))
  {
    hide Placed, ChannelsOk, SemsOk, BarsOk, TimersOk, AltsOk;
    if SemOf(k, s) == Free {
      var k' := SetSem(k, s, Claimed([]));
      SamePlaces(k, k');
      forall x ensures Slots(k', x) == Slots(k, x) { }
      SameChan(k, k');
    } else {
      var p, k1 := k.cur, Park(k, iptr);
      var k2 := JoinSem(k1, p, s);
      assert OnlyAt(k1, k2, p) && At(k2, p) == OnSem(s) && k2.chan == k1.chan && k2.env == k1.env && SameTimers(k1, k2);
      hide Inv, HalfRange, RunNext, JoinSem, Untouched;
      ParkKeeps(k, iptr);
      CurrentPlace(k);
      ParkTimers(k, iptr);
      assert k1.alts == k.alts && k1.cur == 0;
      hide Park, SameTimers, OnlyAt;
      JoinSemKeeps(k1, p, s);
      TimersChain(k, k1, k2, {now}, {now});
      JoinUntouchedRun(k, k2, iptr, now);
    }
  }

  lemma ReleaseUntouched(k: K, s: int)
    requires Inv(k)
    ensures Untouched(k, SemRelease(k, s))
  {
    var q := SemQueue(k, s);
    if q == [] {
      var k' := SetSem(k, s, Free);
      SamePlaces(k, k');
      forall x ensures Slots(k', x) == Slots(k, x) { }
      SameChan(k, k');
    } else {
      var k1 := LeaveSem(k, s);
      assert SemOk(k, s);
      assert OnlyAt(k, k1, q[0]) && At(k, q[0]) == OnSem(s) && At(k1, q[0]) == Halted && k1.chan == k.chan &&
             k1.env == k.env;
      hide Inv, LeaveSem, Untouched, OnlyAt, Enqueue;
      UntouchedOne(k, k1, q[0]);
      UntouchedEnqueue(k1, q[0]);
      UntouchedChain(k, k1, Enqueue(k1, q[0]));
    }
  }

  /** The front of a barrier's queue leaves it and is queued. */
  lemma OffUntouched(k: K, b: int)
    requires Inv(k) && BarOf(k, b).queue != []
    ensures var k1, p := OffBar(k, b), BarOf(k, b).queue[0];
            OnlyAt(k, k1, p) && At(k, p) == OnBar(b) && At(k1, p) == Halted && k1.chan == k.chan &&
            k1.env == k.env && k1.alts == k.alts
  {
    hide Placed, ChannelsOk, SemsOk, TimersOk, AltsOk, NoDup;
    assert BarOk(k, b);
  }

  lemma {:induction false} DrainUntouched(k: K, b: int)
    requires Inv(k)
    ensures Untouched(k, DrainBar(k, b))
    decreases |BarOf(k, b).queue|
  {
    if BarOf(k, b).queue != [] {
      hide Inv, OffBar, Enqueue, Untouched, OnlyAt;
      var p, k1 := BarOf(k, b).queue[0], OffBar(k, b);
      var k2 := Enqueue(k1, p);
      DrainShrinks(k, b);
      OffUntouched(k, b);
      OffBarKeeps(k, b);
      EnqueueKeeps(k1, p);
      UntouchedOne(k, k1, p);
      UntouchedEnqueue(k1, p);
      DrainUntouched(k2, b);
      UntouchedChain(k, k1, k2);
      UntouchedChain(k, k2, DrainBar(k, b));
    } else {
      BlockedSelf(k);
    }
  }

  lemma DrainShrinks(k: K, b: int)
    requires BarOf(k, b).queue != []
    ensures |BarOf(Enqueue(OffBar(k, b), BarOf(k, b).queue[0]), b).queue| < |BarOf(k, b).queue|
  {
    hide Slots, At;
  }

  lemma SetBarUntouched(k: K, b: int, m: Bar)
    ensures Untouched(k, SetBar(k, b, m))
  {
    var k' := SetBar(k, b, m);
    SamePlaces(k, k');
    forall x ensures Slots(k', x) == Slots(k, x) { }
    SameChan(k, k');
  }

  lemma CompleteUntouched(k: K, b: int, enrolled: Word)
    requires Inv(k)
    ensures Untouched(k, BarComplete(k, b, enrolled))
  {
    hide Inv, DrainBar, Untouched, SetBar;
    DrainUntouched(k, b);
    SetBarUntouched(DrainBar(k, b), b, Bar(enrolled, enrolled, []));
    UntouchedChain(k, DrainBar(k, b), BarComplete(k, b, enrolled));
  }

  lemma SyncUntouched(k: K, b: int, iptr: int, now: Word)
    requires Inv(k) && Plain(k) && HalfRange(k, k.timq, {now})
    ensures Untouched(k, BarSync(k, b, iptr, now))
  {
    hide Placed, ChannelsOk, SemsOk, BarsOk, TimersOk, AltsOk;
    if BarOf(k, b).count > 1 {
      var p, k1 := k.cur, Park(k, iptr);
      var k2 := JoinBar(k1, p, b);
      assert OnlyAt(k1, k2, p) && At(k2, p) == OnBar(b) && k2.chan == k1.chan && k2.env == k1.env && SameTimers(k1, k2);
      hide Inv, HalfRange, RunNext, JoinBar, Untouched;
      ParkKeeps(k, iptr);
      CurrentPlace(k);
      ParkTimers(k, iptr);
      assert k1.alts == k.alts && k1.cur == 0;
      hide Park, SameTimers, OnlyAt;
      JoinBarKeeps(k1, p, b);
      TimersChain(k, k1, k2, {now}, {now});
      JoinUntouchedRun(k, k2, iptr, now);
    } else {
      hide Inv, Untouched, BarComplete;
      CompleteUntouched(k, b, BarOf(k, b).enrolled);
    }
  }

  // ----- every step, every run

  lemma CountUntouched(k: K, b: int, n: Word)
    requires Inv(k)
    ensures BarOf(k, b).enrolled + n < WORD_MOD ==> Untouched(k, BarEnroll(k, b, n))
    ensures n <= BarOf(k, b).enrolled && n <= BarOf(k, b).count ==> Untouched(k, BarResign(k, b, n))
  {
    hide Inv, Untouched, BarComplete, SetBar;
    var bar := BarOf(k, b);
    if bar.enrolled + n < WORD_MOD {
      SetBarUntouched(k, b, bar.(enrolled := bar.enrolled + n, count := Wrap(bar.count + n)));
    }
    if n <= bar.enrolled && n <= bar.count {
      SetBarUntouched(k, b, bar.(enrolled := bar.enrolled - n, count := bar.count - n));
      CompleteUntouched(k, b, bar.enrolled - n);
    }
  }

  lemma OwnAltUntouched(k: K, op: Op, iptr: int, now: Word)
    requires Inv(k) && Legal(k, op, now) && (op.AltOp? || op.Enb? || op.Dis? || op.AltEndOp?)
    ensures Untouched(k, Step(k, op, iptr, now))
  {
    hide Inv, AltStart, Enable, Disable, AltEnd, OnlyAt, MayDisable, EnabledSlots, DisabledSlots, Without, HalfRange;
    var k', p := Step(k, op, iptr, now), k.cur;
    assert p != 0;
    CurrentPlace(k);
    TagNotProcess(p);
    match op
    case AltOp(timed) => AltStartEffect(k, timed); StartEnv(k, timed); SameChannelWords(k, k'); UntouchedOwn(k, k');
    case Enb(g, on) => if on { EnableEffect(k, g); EnableEnv(k, g); UntouchedOwn(k, k'); } else { BlockedSelf(k); }
    case Dis(g, on, target) =>
      if on {
        DisableEffect(k, g, target);
        DisableRecord(k, g, target);
        UntouchedOwn(k, k');
      } else { AnswerUntouched(k); }
    case AltEndOp => AltEndsWell(k, iptr); AltEndEffect(k, iptr); SameChannelWords(k, k'); UntouchedOwn(k, k');
  }

  lemma TagNotProcess(p: int)
    requires IsProcess(p)
    ensures !IsProcess(p + 1) && !IsProcess(0)
  {
  }

  lemma AnswerUntouched(k: K)
    ensures Untouched(k, Answer(k, false))
  {
    var k' := Answer(k, false);
    SamePlaces(k, k');
    forall x ensures Slots(k', x) == Slots(k, x) { }
    SameChan(k, k');
  }

  lemma DisableRecord(k: K, g: Guard, target: int)
    ensures SameRecord(k, Disable(k, g, target))
  {
    hide Slots, ChanWord, TimeAfter, Forget, TimerRemove, Select;
    SelectRecord(k, target);
    RemoveEnv(k);
    ForgetEnv(Select(k, target), g);
    ForgetEnv(Answer(k, false), g);
    ForgetEnv(Answer(TimerRemove(k, k.cur), false), g);
    if g.Chan? { ForgetEnv(Answer(SetChan(k, g.c, 0), false), g); }
  }

  lemma SelectRecord(k: K, target: int)
    ensures SameRecord(k, Select(k, target))
  {
    hide Slots;
    if Slots(k, k.cur).temp == NONE_SELECTED {
      assert SameRecord(k, SetWs(k, k.cur, Slots(k, k.cur).(temp := target)));
    }
  }

  lemma StepUntouched(k: K, op: Op, iptr: int, now: Word)
    requires Inv(k) && Legal(k, op, now) && !op.OutOp? && !op.InOp? && !op.XInOp? && !op.XEndOp? && !op.Compute?
    ensures Untouched(k, Step(k, op, iptr, now))
  {
    hide Inv, HalfRange, StartP, EndP, Adjust, AltStart, Enable, AltWt, TaltWt, Disable, AltEnd, XAble, Tin,
         SemClaim, SemRelease, BarSync, BarEnroll, BarResign, RunNext, Enqueue, Park, MayEnable, MayDisable,
         MayEndAlt, MaySleep, MayProceed, NoAltOn, Untouched;
    SmallerWindow(k, {now} + NewTimes(k, op, now), {now});
    match op
    case StartOp(p, at) => StartUntouched(k, p, at);
    case StopOp => StopUntouched(k, iptr, now);
    case RunOp(p) => UntouchedEnqueue(k, p);
    case EndOp(par) => EndUntouched(k, par, Slots(k, par).temp, now);
    case AdjustOp(p) => AdjustUntouched(k, p);
    case AltWtOp => AltWtUntouched(k, iptr, now);
    case TaltWtOp => TaltWtUntouched(k, iptr, now);
    case XAbleOp(c) => XAbleUntouched(k, c, iptr, now);
    case TinOp(t) => TinUntouched(k, t, iptr, now);
    case ClaimOp(s) => ClaimUntouched(k, s, iptr, now);
    case ReleaseOp(s) => ReleaseUntouched(k, s);
    case SyncOp(b) => SyncUntouched(k, b, iptr, now);
    case EnrollOp(b, n) => CountUntouched(k, b, n);
    case ResignOp(b, n) => CountUntouched(k, b, n);
    case CountOp(par, n) => JoinUntouched(k, par, n);
    case ReturnOp(at) => ReturnUntouched(k, at);
    case Idle => UntouchedRun(k, now);
    case _ => OwnAltUntouched(k, op, iptr, now);
  }

  lemma ComputeData(k: K, mem: map<int, int>)
    requires DataOk(k) && LegalData(k, Compute(mem))
    ensures DataOk(SetMem(k, mem))
  {
    hide Bytes;
    forall c | Holding(k, c)
      ensures Bytes(mem, Slots(k, ChanWord(k, c)).state, -Slots(k, ChanWord(k, c)).len) == Offer(k, ChanWord(k, c))
    {
      assert At(k, ChanWord(k, c)).Sending?;
    }
    MemData(k, mem);
  }

  lemma StepData(k: K, op: Op, iptr: int, now: Word)
    requires Inv(k) && Legal(k, op, now) && DataOk(k) && LegalData(k, op)
    ensures DataOk(Step(k, op, iptr, now))
  {
    hide Inv, HalfRange, DataOk, Out, In, XIn, XEnd, MayOutput, MayInput, MayXIn, NoAltOn, Untouched, LegalData;
    SmallerWindow(k, {now} + NewTimes(k, op, now), {now});
    match op
    case OutOp(c, ptr, len) => OutData(k, c, ptr, len, iptr, now);
    case InOp(c, ptr, len) => InData(k, c, ptr, len, iptr, now);
    case XInOp(c, ptr, len) => XInData(k, c, ptr, len, iptr, now);
    case XEndOp(c) => XEndData(k, c);
    case Compute(mem) => ComputeData(k, mem);
    case _ =>
      StepUntouched(k, op, iptr, now);
      NamedBlocked(k);
      UntouchedData(k, Step(k, op, iptr, now));
  }

  lemma UntouchedData(k: K, k': K)
    requires DataOk(k) && Untouched(k, k') && forall c :: IsProcess(ChanWord(k, c)) ==> OnChannel(At(k, ChanWord(k, c)))
    ensures DataOk(k')
  {
    DataKept(k, k');
  }

  ghost predicate LegalDataRun(k: K, ticks: seq<Tick>)
    decreases |ticks|
  {
    ticks == [] || (LegalData(Fetch(k, ticks[0]), ticks[0].op) && LegalDataRun(Next(k, ticks[0]), ticks[1..]))
  }

  lemma BootData(p: int, mem: map<int, int>)
    ensures DataOk(Boot(p, mem))
  {
  }

  lemma FetchData(k: K, t: Tick)
    requires Inv(k) && DataOk(k)
    ensures DataOk(Fetch(k, t))
  {
    hide Inv, DataOk;
    var k' := Fetch(k, t);
    NamedBlocked(k);
    BlockedSelf(k);
    UntouchedOne(k, k', 0) by { hide *; NullHalted(k); }
    UntouchedData(k, k');
  }

  lemma {:induction false} RunData(k: K, ticks: seq<Tick>)
    requires Inv(k) && LegalRun(k, ticks) && DataOk(k) && LegalDataRun(k, ticks)
    ensures DataOk(Run(k, ticks)) && Inv(Run(k, ticks))
    decreases |ticks|
  {
    hide Inv, Legal, LegalData, DataOk, Step, Fetch;
    if ticks != [] {
      var t := ticks[0];
      FetchKeeps(k, t);
      FetchData(k, t);
      StepKeeps(Fetch(k, t), t.op, t.iptr, t.now);
      StepData(Fetch(k, t), t.op, t.iptr, t.now);
      RunData(Next(k, t), ticks[1..]);
    }
  }

  /**
   In every run from the start, the messages received on a channel are those sent, in
   order; only a sender still blocked there may have one more, which is what its
   buffer holds now.
   */
  lemma MessagesInOrder(p: int, mem: map<int, int>, ticks: seq<Tick>, c: int)
    requires IsProcess(p) && LegalRun(Boot(p, mem), ticks) && LegalDataRun(Boot(p, mem), ticks)
    ensures var k := Run(Boot(p, mem), ticks);
            if Holding(k, c) then Said(k, c) == Heard(k, c) + [Offer(k, ChanWord(k, c))] else Said(k, c) == Heard(k, c)
  {
    var k := Run(Boot(p, mem), ticks);
    hide Run, LegalRun, LegalDataRun, Boot, Holding, Inv;
    BootInv(p, mem);
    BootData(p, mem);
    RunData(Boot(p, mem), ticks);
    assert MessagesOk(k, c);
  }

  // ----- the two orders of a rendezvous, and the extended one

  /**
   An input that finds a sender: the message is in the reader's buffer, the channel
   is empty, the sender runs and the reader is queued, once each.
   */
  lemma InMeetsSender(k: K, c: int, ptr: int, len: int, iptr: int, now: Word)
    requires Inv(k) && Plain(k) && LegalData(k, InOp(c, ptr, len)) && IsProcess(ChanWord(k, c)) &&
             At(k, ChanWord(k, c)) == Sending(c)
    ensures var k', q := In(k, c, ptr, len, iptr, now), ChanWord(k, c);
            Bytes(k'.env.mem, ptr, len) == Offer(k, q) && ChanWord(k', c) == 0 && k'.cur == q &&
            k'.runq == k.runq + [k.cur] &&
            Heard(k', c) == Heard(k, c) + [Offer(k, q)] && Slots(k', k.cur).iptr == iptr &&
            k'.iptr == Slots(k, q).iptr &&
            Spares(k, k', ptr, len)
  {
    hide Inv, Bytes, In, Heard, SendersClear;
    var q := ChanWord(k, c);
    WordKinds(k, c);
    CurrentPlace(k);
    hide Plain;
    InMeets(k, c, ptr, len, iptr, now);
  }

  lemma InMeets(k: K, c: int, ptr: int, len: int, iptr: int, now: Word)
    requires len >= 0 && ChanWord(k, c) != 0 && ChanWord(k, c) % 2 == 0 && Untag(ChanWord(k, c)) == ChanWord(k, c) &&
             k.cur != ChanWord(k, c)
    requires Slots(k, ChanWord(k, c)).len == -len
    ensures var k', q := In(k, c, ptr, len, iptr, now), ChanWord(k, c);
            Bytes(k'.env.mem, ptr, len) == Offer(k, q) && ChanWord(k', c) == 0 && k'.cur == q &&
            k'.runq == k.runq + [k.cur] &&
            Heard(k', c) == Heard(k, c) + [Offer(k, q)] && Slots(k', k.cur).iptr == iptr &&
            k'.iptr == Slots(k, q).iptr &&
            Spares(k, k', ptr, len)
  {
    hide Bytes, RunNext, Arrive, Deliver, Load, Enqueue, Park, Leave, Zero, SetMem, SetError;
    var q := ChanWord(k, c);
    var k1 := Deliver(k, c, ptr, Slots(k, q).state, len);
    DeliverEffect(k, c, ptr, Slots(k, q).state, len);
    ExchangeEffect(k1, c, iptr);
    SameHeard(k1, In(k, c, ptr, len, iptr, now), c);
  }

  lemma SameHeard(k: K, k': K, c: int)
    requires k'.env == k.env
    ensures Heard(k', c) == Heard(k, c)
  {
  }

  lemma DeliverEffect(k: K, c: int, dst: int, src: int, len: int)
    requires len >= 0
    ensures var k1 := Deliver(k, c, dst, src, len);
            Bytes(k1.env.mem, dst, len) == Bytes(k.env.mem, src, len) &&
            Heard(k1, c) == Heard(k, c) + [Bytes(k.env.mem, src, len)] &&
            k1 == k.(env := k1.env) && ChanWord(k1, c) == ChanWord(k, c) && Spares(k, k1, dst, len)
  {
    StoreReads(k.env.mem, dst, Bytes(k.env.mem, src, len));
    CopySpares(k, c, dst, src, len);
    hide Bytes, Store;
  }

  /** Memory differs only in the n bytes from dst. */
  ghost predicate Spares(k: K, k': K, dst: int, n: int) {
    forall a :: a < dst || a >= dst + n ==> Byte(k'.env.mem, a) == Byte(k.env.mem, a)
  }

  lemma CopySpares(k: K, c: int, dst: int, src: int, len: int)
    requires len >= 0
    ensures Spares(k, Deliver(k, c, dst, src, len), dst, len)
  {
    hide Store, Byte;
    var m := Bytes(k.env.mem, src, len);
    forall a | a < dst || a >= dst + len ensures Byte(Deliver(k, c, dst, src, len).env.mem, a) == Byte(k.env.mem, a) {
      StoreElsewhere(k.env.mem, dst, m, a);
    }
  }

  lemma ExchangeEffect(k: K, c: int, iptr: int)
    requires k.cur != ChanWord(k, c)
    ensures var q := ChanWord(k, c); var k' := Load(Enqueue(Park(Leave(k, c), iptr), k.cur), q);
            ChanWord(k', c) == 0 && k'.cur == q && k'.runq == k.runq + [k.cur] && k'.env == k.env &&
            Slots(k', k.cur).iptr == iptr && k'.iptr == Slots(k, q).iptr
  {
  }

  /** An output that finds a receiver: likewise, from the sender's buffer into the receiver's. */
  lemma OutMeetsReceiver(k: K, c: int, ptr: int, len: int, iptr: int, now: Word)
    requires Inv(k) && Plain(k) && LegalData(k, OutOp(c, ptr, len)) && IsProcess(ChanWord(k, c)) &&
             At(k, ChanWord(k, c)) == Receiving(c)
    ensures var k', q := Out(k, c, ptr, len, iptr, now), ChanWord(k, c);
            Bytes(k'.env.mem, Slots(k, q).state, Slots(k, q).len) == Bytes(k.env.mem, ptr, len) &&
            ChanWord(k', c) == 0 && k'.cur == q && k'.runq == k.runq + [k.cur] &&
            Slots(k', k.cur).iptr == iptr && k'.iptr == Slots(k, q).iptr &&
            Spares(k, k', Slots(k, q).state, Slots(k, q).len)
  {
    var q := ChanWord(k, c);
    WordKinds(k, c);
    CurrentPlace(k);
    var k0 := Say(k, c, ptr, len);
    var k1 := Deliver(k0, c, Slots(k, q).state, ptr, len);
    assert ChanWord(k0, c) == q && k0.env.mem == k.env.mem;
    DeliverEffect(k0, c, Slots(k, q).state, ptr, len);
    hide Inv, Bytes, RunNext, Arrive, Deliver, Say;
    ExchangeEffect(k1, c, iptr);
  }

  /** An extended input takes the message, but the sender stays in the channel and off every queue. */
  lemma XInTakesOnly(k: K, c: int, ptr: int, len: int, iptr: int, now: Word)
    requires Inv(k) && LegalData(k, XInOp(c, ptr, len)) && IsProcess(ChanWord(k, c)) &&
             At(k, ChanWord(k, c)) == Sending(c)
    ensures var k', q := XIn(k, c, ptr, len, iptr, now), ChanWord(k, c);
            Bytes(k'.env.mem, ptr, len) == Offer(k, q) && ChanWord(k', c) == q && At(k', q) == Sending(c) &&
            k'.runq == k.runq && k'.cur == k.cur && Spares(k, k', ptr, len)
  {
    hide Or, Wrap, Inv, Placed, ChannelsOk, SemsOk, BarsOk, TimersOk;
    var q, k1 := ChanWord(k, c), EndAlt(k, k.cur);
    WordKinds(k, c);
    EndSame(k);
    hide Bytes, RunNext, EndAlt, Deliver;
    assert k1.runq == k.runq && k1.cur == k.cur by { EndQueues(k); }
    DeliverEffect(k1, c, ptr, Slots(k, q).state, len);
    SameChannelWords(k1, XIn(k, c, ptr, len, iptr, now));
    SamePlaces(k1, XIn(k, c, ptr, len, iptr, now));
  }

  lemma EndQueues(k: K)
    ensures EndAlt(k, k.cur).runq == k.runq && EndAlt(k, k.cur).cur == k.cur
  {
  }

  /** The end of an extended input queues the sender and empties the channel. */
  lemma XEndReleases(k: K, c: int)
    requires Inv(k) && IsProcess(ChanWord(k, c))
    ensures var k', q := XEnd(k, c), ChanWord(k, c);
            ChanWord(k', c) == 0 && k'.runq == k.runq + [q] && At(k', q) == Queued && k'.cur == k.cur
  {
    WordKinds(k, c);
    hide Inv;
  }
}
