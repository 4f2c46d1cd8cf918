/**
 The process kernel of one execution context as a step machine. A process is named
 by its workspace address, a positive multiple of four, so the low bit of a
 channel word is free to tag a process that is ALTing. Queues are sequences here;
 module Machine threads them through workspaces.
 */
module Kernel {
  import opened Words

  const ENABLING := MIN_INT + 1
  const WAITING := MIN_INT + 2
  const READY := MIN_INT + 3      // DISABLING_P has the same value
  const TIME_SET := MIN_INT + 1
  const TIME_NOT_SET := MIN_INT + 2
  const ON_QUEUE := 0             // stands for the link of a process on the timer queue
  const NONE_SELECTED := -1
  const EFLAG_ALT := 16
  const EFLAG_CHAN := 64
  const EFLAG_BAR := 256

  /**
   The workspace slots the kernel uses. WS_LINK and WS_PENDING are one slot: len is
   its value while blocked on a channel, 0 once a queue link overwrote it. WS_POINTER
   and WS_STATE are one slot as well.
   */
  datatype Ws = Ws(temp: int, iptr: int, len: int, state: int, tlink: int, time: Word)

  /** Where a process is. */
  datatype Place =
    | Running
    | Queued
    | Sending(c: int)
    | Receiving(c: int)
    | AltWait
    | TimerWait
    | OnSem(s: int)
    | OnBar(b: int)
    | Halted

  datatype Guard = Chan(c: int) | Skip | Timer(t: Word)

  /** Extended is the wait of an extended input, which is an ALT of one guard without a selection. */
  datatype Phase = Enabling | Waiting | Disabling | Extended

  /** An ALT in progress: the guards enabled and not yet disabled. */
  datatype AltInfo = AltInfo(phase: Phase, timed: bool, todo: seq<Guard>)

  datatype Sem = Free | Claimed(queue: seq<int>)

  datatype Bar = Bar(enrolled: Word, count: Word, queue: seq<int>)

  type Msg = seq<int>

  /**
   What scheduling does not touch: the answer register, error flags, PAR counters
   and memory, and a record of the messages sent, of those received, and of the
   channels whose message an extended input has taken while the sender still waits.
   */
  datatype Env = Env(fired: bool, eflags: nat, joins: map<int, int>, mem: map<int, int>,
                     sent: map<int, seq<Msg>>, recd: map<int, seq<Msg>>, ext: set<int>)

  /**
   The state: current process and instruction pointer, the timer flag, run and timer
   queues, workspaces, channel words, semaphores and barriers. place and alts record
   where each process is and which ALTs are in progress.
   */
  datatype K = K(
    cur: int, iptr: int, tq: bool, runq: seq<int>, timq: seq<int>, ws: map<int, Ws>, chan: map<int, int>,
    sem: map<int, Sem>, bar: map<int, Bar>, place: map<int, Place>, alts: map<int, AltInfo>, env: Env)

  // ----- reading the maps; what was never set is null, halted or empty

  function Slots(k: K, p: int): Ws {
    if p in k.ws then k.ws[p] else Ws(0, 0, 0, 0, 0, 0)
  }

  function At(k: K, p: int): Place {
    if p in k.place then k.place[p] else Halted
  }

  function ChanWord(k: K, c: int): int {
    if c in k.chan then k.chan[c] else 0
  }

  function Info(k: K, p: int): AltInfo {
    if p in k.alts then k.alts[p] else AltInfo(Enabling, false, [])
  }

  function SemOf(k: K, s: int): Sem {
    if s in k.sem then k.sem[s] else Free
  }

  function BarOf(k: K, b: int): Bar {
    if b in k.bar then k.bar[b] else Bar(0, 0, [])
  }

  function Said(k: K, c: int): seq<Msg> {
    if c in k.env.sent then k.env.sent[c] else []
  }

  function Heard(k: K, c: int): seq<Msg> {
    if c in k.env.recd then k.env.recd[c] else []
  }

  predicate IsProcess(p: int) {
    p > 0 && p % 4 == 0
  }

  function Untag(v: int): int {
    if v % 2 == 1 then v - 1 else v
  }

  // ----- time

  predicate TimeAfter(t1: Word, t2: Word) {
    Signed(Wrap(t1 - t2)) > 0
  }

  // ----- message memory

  function Byte(mem: map<int, int>, a: int): int {
    if a in mem then mem[a] else 0
  }

  /** The n bytes from a. */
  function Bytes(mem: map<int, int>, a: int, n: int): (m: Msg)
    ensures |m| == if n < 0 then 0 else n
    decreases if n < 0 then 0 else n
  {
    if n <= 0 then [] else [Byte(mem, a)] + Bytes(mem, a + 1, n - 1)
  }

  /** Memory with m stored from dst. */
  function Store(mem: map<int, int>, dst: int, m: Msg): map<int, int>
    decreases |m|
  {
    if m == [] then mem else Store(mem, dst + 1, m[1..])[dst := m[0]]
  }

  function Copy(mem: map<int, int>, dst: int, src: int, n: int): map<int, int> {
    Store(mem, dst, Bytes(mem, src, n))
  }

  function Zero(mem: map<int, int>, dst: int, n: int): map<int, int> {
    Store(mem, dst, Zeros(n))
  }

  function Zeros(n: int): (m: Msg)
    ensures |m| == if n < 0 then 0 else n
    decreases if n < 0 then 0 else n
  {
    if n <= 0 then [] else [0] + Zeros(n - 1)
  }

  lemma {:induction false} StoreReads(mem: map<int, int>, dst: int, m: Msg)
    ensures Bytes(Store(mem, dst, m), dst, |m|) == m
    decreases |m|
  {
    if m != [] {
      var mem' := Store(mem, dst + 1, m[1..]);
      StoreReads(mem, dst + 1, m[1..]);
      WriteBelow(mem', dst, m[0], dst + 1, |m| - 1);
    }
  }

  /** A buffer zeroed reads as zeros. */
  lemma ZeroReads(mem: map<int, int>, dst: int, n: nat, i: nat)
    requires i < n
    ensures Bytes(Zero(mem, dst, n), dst, n)[i] == 0
  {
    StoreReads(mem, dst, Zeros(n));
    ZerosAt(n, i);
  }

  lemma {:induction false} ZerosAt(n: nat, i: nat)
    requires i < n
    ensures Zeros(n)[i] == 0
  {
    if i > 0 {
      ZerosAt(n - 1, i - 1);
    }
  }

  lemma {:induction false} WriteBelow(mem: map<int, int>, d: int, x: int, a: int, n: int)
    requires d < a || d >= a + n
    ensures Bytes(mem[d := x], a, n) == Bytes(mem, a, n)
    decreases if n < 0 then 0 else n
  {
    if n > 0 {
      WriteBelow(mem, d, x, a + 1, n - 1);
    }
  }

  lemma {:induction false} StoreKeeps(mem: map<int, int>, dst: int, m: Msg, a: int, n: int)
    requires Disjoint(dst, |m|, a, n)
    ensures Bytes(Store(mem, dst, m), a, n) == Bytes(mem, a, n)
    decreases |m|
  {
    if m != [] && n > 0 {
      StoreKeeps(mem, dst + 1, m[1..], a, n);
      WriteBelow(Store(mem, dst + 1, m[1..]), dst, m[0], a, n);
    }
  }

  /** Bytes outside the buffer stay. */
  lemma {:induction false} StoreElsewhere(mem: map<int, int>, dst: int, m: Msg, a: int)
    requires a < dst || a >= dst + |m|
    ensures Byte(Store(mem, dst, m), a) == Byte(mem, a)
    decreases |m|
  {
    if m != [] {
      StoreElsewhere(mem, dst + 1, m[1..], a);
    }
  }

  /** Two buffers that share no byte. */
  predicate Disjoint(a: int, m: int, b: int, n: int) {
    m <= 0 || n <= 0 || a + m <= b || b + n <= a
  }

  // ----- writing one entry

  function SetWs(k: K, p: int, w: Ws): (k': K)
    ensures k' == k.(ws := k'.ws)
    ensures forall x {:trigger Slots(k', x)} :: Slots(k', x) == if x == p then w else Slots(k, x)
  {
    k.(ws := k.ws[p := w])
  }

  function SetAt(k: K, p: int, pl: Place): (k': K)
    ensures k' == k.(place := k'.place)
    ensures forall x {:trigger At(k', x)} :: At(k', x) == if x == p then pl else At(k, x)
  {
    k.(place := k.place[p := pl])
  }

  function SetChan(k: K, c: int, v: int): (k': K)
    ensures k' == k.(chan := k'.chan)
    ensures forall x {:trigger ChanWord(k', x)} :: ChanWord(k', x) == if x == c then v else ChanWord(k, x)
  {
    k.(chan := k.chan[c := v])
  }

  function SetInfo(k: K, p: int, a: AltInfo): (k': K)
    ensures k' == k.(alts := k'.alts) && forall x {:trigger x in k'.alts} :: x in k'.alts <==> x == p || x in k.alts
    ensures forall x {:trigger Info(k', x)} :: Info(k', x) == if x == p then a else Info(k, x)
  {
    k.(alts := k.alts[p := a])
  }

  /** The ALT of p is over. */
  function EndAlt(k: K, p: int): (k': K)
    ensures k' == k.(alts := k'.alts) && forall x {:trigger x in k'.alts} :: x in k'.alts <==> x != p && x in k.alts
    ensures forall x {:trigger Info(k', x)} :: x != p ==> Info(k', x) == Info(k, x)
  {
    k.(alts := k.alts - {p})
  }

  function SetSem(k: K, s: int, m: Sem): (k': K)
    ensures k' == k.(sem := k'.sem)
    ensures forall x {:trigger SemOf(k', x)} :: SemOf(k', x) == if x == s then m else SemOf(k, x)
  {
    k.(sem := k.sem[s := m])
  }

  function SetBar(k: K, b: int, m: Bar): (k': K)
    ensures k' == k.(bar := k'.bar)
    ensures forall x {:trigger BarOf(k', x)} :: BarOf(k', x) == if x == b then m else BarOf(k, x)
  {
    k.(bar := k.bar[b := m])
  }

  function SetError(k: K, flag: nat): K { k.(env := k.env.(eflags := Or(k.env.eflags, flag))) }

  function SetMem(k: K, mem: map<int, int>): K { k.(env := k.env.(mem := mem)) }

  function SetTaken(k: K, ext: set<int>): K { k.(env := k.env.(ext := ext)) }

  /** The answer a disable leaves on the evaluation stack. */
  function Answer(k: K, fired: bool): K { k.(env := k.env.(fired := fired)) }

  function JoinCount(k: K, par: int): int {
    if par in k.env.joins then k.env.joins[par] else 0
  }

  function SetJoin(k: K, par: int, n: int): K { k.(env := k.env.(joins := k.env.joins[par := n])) }

  /** The current process stores in its own first word where it will go on when its PAR has ended. */
  function SetReturn(k: K, at: int): K {
    SetWs(k, k.cur, Slots(k, k.cur).(temp := at))
  }

  // ----- scheduling steps

  /** The current process gives up the processor, its instruction pointer saved. */
  function Park(k: K, iptr: int): K {
    SetAt(SetWs(k, k.cur, Slots(k, k.cur).(iptr := iptr)), k.cur, Halted).(cur := 0)
  }

  /** ADD_TO_QUEUE. */
  function Enqueue(k: K, p: int): K {
    SetAt(SetWs(k, p, Slots(k, p).(len := 0)), p, Queued).(runq := k.runq + [p])
  }

  /** LOAD_PROCESS. */
  function Load(k: K, p: int): K {
    SetAt(k, p, Running).(cur := p, iptr := Slots(k, p).iptr)
  }

  /** Run the front of the run queue, if any. */
  function Dispatch(k: K): K {
    if k.runq == [] then k else Load(k.(runq := k.runq[1..]), k.runq[0])
  }

  /** The front of the timer queue is due: its slots say so, and it is scheduled unless it is already ready. */
  function Expire(k: K, now: Word): (k': K)
    requires k.timq != []
    ensures k'.timq == k.timq[1..]
  {
    var p := k.timq[0];
    var w := Slots(k, p).(tlink := TIME_SET, time := now);
    var k1 := k.(timq := k.timq[1..]);
    if w.state == READY then SetWs(k1, p, w) else Enqueue(SetWs(k1, p, w.(state := READY)), p)
  }

  /** walk_timer_queue. */
  function Walk(k: K, now: Word): K
    decreases |k.timq|
  {
    hide Expire, Slots, TimeAfter;
    if k.timq == [] || TimeAfter(Slots(k, k.timq[0]).time, now) then k
    else Walk(Expire(k, now), now)
  }

  /** busy_wait_synchronise, when the timer flag is the one set. */
  function Sync(k: K, now: Word): K {
    var k1 := Walk(k, now);
    if k1.timq == [] then k1.(tq := false) else k1
  }

  /** run_next_on_queue, after the current process was parked. */
  function RunNext(k: K, now: Word): K {
    Dispatch(if k.tq then Sync(k, now) else k)
  }

  // ----- the timer queue

  /** Where timer_queue_insert puts p: before the first process due strictly later. */
  function InsertTime(q: seq<int>, k: K, p: int, t: Word): seq<int> {
    if q == [] then [p]
    else if TimeAfter(Slots(k, q[0]).time, t) then [p] + q
    else [q[0]] + InsertTime(q[1..], k, p, t)
  }

  function RemoveTime(q: seq<int>, p: int): seq<int> {
    if q == [] then []
    else if q[0] == p then q[1..]
    else [q[0]] + RemoveTime(q[1..], p)
  }

  /** timer_queue_insert, which also sets the alarm flag, and saves the instruction pointer if the queue was empty. */
  function TimerInsert(k: K, p: int, t: Word, iptr: int): K {
    var w := Slots(k, p).(tlink := ON_QUEUE, time := t);
    SetWs(k, p, if k.timq == [] then w.(iptr := iptr) else w).(timq := InsertTime(k.timq, k, p, t), tq := true)
  }

  /** timer_queue_remove. */
  function TimerRemove(k: K, p: int): K {
    SetWs(k, p, Slots(k, p).(tlink := TIME_NOT_SET)).(timq := RemoveTime(k.timq, p))
  }

  /** A halted process waits for a time. */
  function AwaitTime(k: K, p: int, t: Word, iptr: int): K {
    var k1 := TimerInsert(k, p, t, iptr);
    SetAt(SetWs(k1, p, Slots(k1, p).(state := 0)), p, TimerWait)
  }

  /** ins_tin. */
  function Tin(k: K, t: Word, iptr: int, now: Word): K {
    if TimeAfter(now, t) then k else RunNext(AwaitTime(Park(k, iptr), k.cur, t, iptr), now)
  }

  // ----- channels

  /** A halted process p stores itself in channel c. */
  function Settle(k: K, p: int, c: int, sending: bool, ptr: int, len: int): K {
    SetAt(SetWs(SetChan(k, c, p), p, Slots(k, p).(state := ptr, len := if sending then -len else len)),
          p, if sending then Sending(c) else Receiving(c))
  }

  /** A process found ALTing in a channel becomes ready; if it was waiting it may now be loaded. */
  function Wake(k: K, q: int): K {
    var w := Slots(k, q);
    if w.state == WAITING then SetAt(SetWs(k, q, w.(state := READY)), q, Halted)
    else if w.state == ENABLING then SetWs(k, q, w.(state := READY))
    else k
  }

  /** A halted process p stores itself in channel c, waking an ALTer it finds there. */
  function Arrive(k: K, p: int, c: int, sending: bool, ptr: int, len: int): K {
    var v := ChanWord(k, c);
    Settle(if v % 2 == 1 && v != 1 then Wake(k, v - 1) else k, p, c, sending, ptr, len)
  }

  /** The process blocked in channel c leaves it. */
  function Leave(k: K, c: int): K {
    SetAt(SetChan(k, c, 0), ChanWord(k, c), Halted)
  }

  /** An output of the message at ptr is recorded. */
  function Say(k: K, c: int, ptr: int, len: int): K {
    k.(env := k.env.(sent := k.env.sent[c := Said(k, c) + [Bytes(k.env.mem, ptr, len)]]))
  }

  /** The data movement of a rendezvous on c: len bytes from src to dst, recorded as they arrive. */
  function Deliver(k: K, c: int, dst: int, src: int, len: int): K {
    var mem := Copy(k.env.mem, dst, src, len);
    k.(env := k.env.(mem := mem, recd := k.env.recd[c := Heard(k, c) + [Bytes(mem, dst, len)]]))
  }

  /** chan_out: chan_io and chan_std_io with the output movers. */
  function Out(k: K, c: int, ptr: int, len: int, iptr: int, now: Word): K {
    var p, v := k.cur, ChanWord(k, c);
    var q := Untag(v);
    if v == 0 then
      RunNext(Arrive(Park(Say(k, c, ptr, len), iptr), p, c, true, ptr, len), now)
    else if v % 2 == 0 then
      Load(Enqueue(Park(Leave(Deliver(Say(k, c, ptr, len), c, Slots(k, q).state, ptr, len), c), iptr), p), q)
    else if q != 0 then
      var state := Slots(k, q).state;
      if state == WAITING then Load(Arrive(Park(Say(k, c, ptr, len), iptr), p, c, true, ptr, len), q)
      else if state == READY || state == ENABLING
        then RunNext(Arrive(Park(Say(k, c, ptr, len), iptr), p, c, true, ptr, len), now)
      else SetError(k, EFLAG_CHAN)
    else
      RunNext(Enqueue(Park(k, iptr), p), now)
  }

  /** chan_in. */
  function In(k: K, c: int, ptr: int, len: int, iptr: int, now: Word): K {
    var p, v := k.cur, ChanWord(k, c);
    var q := Untag(v);
    if v == 0 then
      RunNext(Arrive(Park(k, iptr), p, c, false, ptr, len), now)
    else if v % 2 == 0 then
      Load(Enqueue(Park(Leave(Deliver(k, c, ptr, Slots(k, q).state, len), c), iptr), p), q)
    else if q != 0 then
      var state := Slots(k, q).state;
      if state == WAITING then Load(Arrive(Park(k, iptr), p, c, false, ptr, len), q)
      else if state == READY || state == ENABLING then RunNext(Arrive(Park(k, iptr), p, c, false, ptr, len), now)
      else SetError(k, EFLAG_CHAN)
    else
      RunNext(Enqueue(Park(SetMem(k, Zero(k.env.mem, ptr, len)), iptr), p), now)
  }

  /** A halted process p waits in channel c as a single-guard ALT. */
  function AwaitChannel(k: K, p: int, c: int): K {
    var k1 := SetChan(SetWs(k, p, Slots(k, p).(state := WAITING, len := c)), c, p + 1);
    SetInfo(SetAt(k1, p, AltWait), p, AltInfo(Extended, false, [Chan(c)]))
  }

  /** ins_xable. */
  function XAble(k: K, c: int, iptr: int, now: Word): K {
    if ChanWord(k, c) == 0 then RunNext(AwaitChannel(Park(k, iptr), k.cur, c), now) else k
  }

  /**
   ins_xin: take the message but leave the sender in the channel. With nobody to take
   it from, the original raises the error only after chan_io has stored the process in
   the channel; well-formed programs never do that, and here nothing else changes.
   */
  function XIn(k: K, c: int, ptr: int, len: int, iptr: int, now: Word): K {
    var p, v := k.cur, ChanWord(k, c);
    if v != 0 && v % 2 == 0 then
      SetTaken(Deliver(EndAlt(k, p), c, ptr, Slots(k, v).state, len), k.env.ext + {c})
    else if v == 1 then
      RunNext(Enqueue(Park(SetMem(EndAlt(k, p), Zero(k.env.mem, ptr, len)), iptr), p), now)
    else
      SetError(k, EFLAG_CHAN)
  }

  /** ins_xend: let the sender go. */
  function XEnd(k: K, c: int): K {
    var v := ChanWord(k, c);
    if v != 1 then SetTaken(Enqueue(Leave(k, c), v), k.env.ext - {c}) else k
  }

  // ----- ALT

  /** ins_alt and ins_talt. */
  function AltStart(k: K, timed: bool): K {
    var w := Slots(k, k.cur).(state := ENABLING);
    SetInfo(SetWs(k, k.cur, if timed then w.(tlink := TIME_NOT_SET) else w), k.cur, AltInfo(Enabling, timed, []))
  }

  /** A guard joins those of the current process's ALT. */
  function Note(k: K, g: Guard): K {
    SetInfo(k, k.cur, Info(k, k.cur).(todo := Info(k, k.cur).todo + [g]))
  }

  /** ins_enbc, ins_enbs and ins_enbt, for a guard whose condition holds. */
  function Enable(k: K, g: Guard): K {
    var p := k.cur;
    var w := Slots(k, p);
    match g
    case Chan(c) =>
      var v := ChanWord(k, c);
      if v == 0 then Note(SetChan(k, c, p + 1), g)
      else if v != p + 1 then Note(SetWs(k, p, w.(state := READY)), g)
      else Note(k, g)
    case Skip => Note(SetWs(k, p, w.(state := READY)), g)
    case Timer(t) =>
      if w.tlink == TIME_NOT_SET then Note(SetWs(k, p, w.(tlink := TIME_SET, time := t)), g)
      else if TimeAfter(w.time, t) then Note(SetWs(k, p, w.(time := t)), g)
      else Note(k, g)
  }

  /** The current process's ALT goes on to a phase, with nothing selected yet. */
  function Turn(k: K, phase: Phase): K {
    SetInfo(SetWs(k, k.cur, Slots(k, k.cur).(temp := NONE_SELECTED)), k.cur, Info(k, k.cur).(phase := phase))
  }

  /** An ALT with a ready guard goes straight on to disabling; a timer ALT notes the time. */
  function Proceed(k: K, timed: bool, now: Word): K {
    var w := Slots(k, k.cur).(state := READY);
    Turn(SetWs(k, k.cur, if timed then w.(time := now) else w), Disabling)
  }

  /** The ALT of the current process goes to sleep. */
  function Sleep(k: K, iptr: int): K {
    var p, k1 := k.cur, Park(Turn(k, Waiting), iptr);
    SetAt(SetWs(k1, p, Slots(k1, p).(state := WAITING)), p, AltWait)
  }

  /** ins_altwt. */
  function AltWt(k: K, iptr: int, now: Word): K {
    if Slots(k, k.cur).state == READY then Proceed(k, false, now) else RunNext(Sleep(k, iptr), now)
  }

  /** ins_taltwt. */
  function TaltWt(k: K, iptr: int, now: Word): K {
    var p, w := k.cur, Slots(k, k.cur);
    if w.state == READY then Proceed(k, true, now)
    else if w.tlink != TIME_NOT_SET then
      if TimeAfter(now, w.time) then Proceed(k, true, now)
      else RunNext(Sleep(TimerInsert(k, p, Wrap(w.time + 1), iptr), iptr), now)
    else RunNext(Sleep(k, iptr), now)
  }

  function Without(s: seq<Guard>, g: Guard): seq<Guard> {
    if s == [] then [] else if s[0] == g then s[1..] else [s[0]] + Without(s[1..], g)
  }

  /** A guard leaves those still to disable. */
  function Forget(k: K, g: Guard): K {
    SetInfo(k, k.cur, Info(k, k.cur).(phase := Disabling, todo := Without(Info(k, k.cur).todo, g)))
  }

  /** Select a target unless one is selected. */
  function Select(k: K, target: int): K {
    var w := Slots(k, k.cur);
    if w.temp == NONE_SELECTED then Answer(SetWs(k, k.cur, w.(temp := target)), true) else Answer(k, false)
  }

  /** ins_disc, ins_diss and ins_dist, for a guard whose condition holds. */
  function Disable(k: K, g: Guard, target: int): K {
    var p := k.cur;
    var w := Slots(k, p);
    match g
    case Chan(c) =>
      var v := ChanWord(k, c);
      if v == p + 1 then Forget(Answer(SetChan(k, c, 0), false), g)
      else if v != 0 then Forget(Select(k, target), g)
      else Forget(Answer(k, false), g)
    case Skip => Forget(Select(k, target), g)
    case Timer(t) =>
      if w.tlink == TIME_SET then
        if !TimeAfter(t, w.time) then Forget(Select(k, target), g) else Forget(Answer(k, false), g)
      else if w.tlink != TIME_NOT_SET then Forget(Answer(TimerRemove(k, p), false), g)
      else Forget(Answer(k, false), g)
  }

  /** ins_altend, with the next instruction at iptr. */
  function AltEnd(k: K, iptr: int): K {
    var selection := Slots(k, k.cur).temp;
    if selection != NONE_SELECTED then EndAlt(k, k.cur).(iptr := iptr + selection)
    else SetError(k, EFLAG_ALT)
  }

  // ----- semaphores

  /** tvm_sem_claim. */
  function SemClaim(k: K, s: int, iptr: int, now: Word): K {
    match SemOf(k, s)
    case Free => SetSem(k, s, Claimed([]))
    case Claimed(q) => RunNext(JoinSem(Park(k, iptr), k.cur, s), now)
  }

  function JoinSem(k: K, p: int, s: int): K {
    SetAt(SetSem(k, s, Claimed(SemQueue(k, s) + [p])), p, OnSem(s))
  }

  function SemQueue(k: K, s: int): seq<int> {
    if SemOf(k, s).Claimed? then SemOf(k, s).queue else []
  }

  /** tvm_sem_release of a claimed semaphore. */
  function SemRelease(k: K, s: int): K {
    var q := SemQueue(k, s);
    if q == [] then SetSem(k, s, Free) else Enqueue(LeaveSem(k, s), q[0])
  }

  function LeaveSem(k: K, s: int): K
    requires SemQueue(k, s) != []
  {
    SetAt(SetSem(k, s, Claimed(SemQueue(k, s)[1..])), SemQueue(k, s)[0], Halted)
  }

  // ----- barriers

  /** The process at the front of a barrier's queue leaves it. */
  function OffBar(k: K, b: int): K
    requires BarOf(k, b).queue != []
  {
    SetAt(SetBar(k, b, BarOf(k, b).(queue := BarOf(k, b).queue[1..])), BarOf(k, b).queue[0], Halted)
  }

  /** Every process of a barrier's queue joins the run queue, in order. */
  function DrainBar(k: K, b: int): K
    decreases |BarOf(k, b).queue|
  {
    if BarOf(k, b).queue == [] then k else DrainBar(Enqueue(OffBar(k, b), BarOf(k, b).queue[0]), b)
  }

  /** tvm_bar_complete, for the enrolment count given. */
  function BarComplete(k: K, b: int, enrolled: Word): K {
    var k1 := DrainBar(k, b);
    SetBar(k1, b, Bar(enrolled, enrolled, []))
  }

  function JoinBar(k: K, p: int, b: int): K {
    var bar := BarOf(k, b);
    SetAt(SetBar(k, b, Bar(bar.enrolled, Wrap(bar.count - 1), bar.queue + [p])), p, OnBar(b))
  }

  /** tvm_bar_sync. */
  function BarSync(k: K, b: int, iptr: int, now: Word): K {
    var bar := BarOf(k, b);
    if bar.count > 1 then RunNext(JoinBar(Park(k, iptr), k.cur, b), now)
    else BarComplete(k, b, bar.enrolled)
  }

  /** tvm_bar_enroll; a count that would overflow sets the error flag and changes nothing else. */
  function BarEnroll(k: K, b: int, n: Word): K {
    var bar := BarOf(k, b);
    if bar.enrolled + n >= WORD_MOD then SetError(k, EFLAG_BAR)
    else SetBar(k, b, bar.(enrolled := bar.enrolled + n, count := Wrap(bar.count + n)))
  }

  /** tvm_bar_resign; resigning too many sets the error flag and changes nothing else. */
  function BarResign(k: K, b: int, n: Word): K {
    var bar := BarOf(k, b);
    if n > bar.enrolled || n > bar.count then SetError(k, EFLAG_BAR)
    else if bar.count - n >= 1 then SetBar(k, b, bar.(enrolled := bar.enrolled - n, count := bar.count - n))
    else BarComplete(k, b, bar.enrolled - n)
  }

  // ----- processes

  /** ins_startp. */
  function StartP(k: K, p: int, iptr: int): K {
    Enqueue(SetWs(k, p, Slots(k, p).(iptr := iptr)), p)
  }

  /** ins_gajw and its kin: the current process goes on under another workspace pointer. */
  function Adjust(k: K, p: int): K {
    SetAt(SetAt(k, k.cur, Halted), p, Running).(cur := p)
  }

  /** ins_endp: the last branch of a PAR to end continues as its parent, at the address kept in the parent's first
   word. */
  function EndP(k: K, par: int, resume: int, now: Word): K {
    var n := JoinCount(k, par);
    var k1 := SetAt(k, k.cur, Halted).(cur := 0);
    if n == 1 then SetAt(SetJoin(k1, par, 0), par, Running).(cur := par, iptr := resume)
    else RunNext(SetJoin(k1, par, n - 1), now)
  }
}
