/**
 `OneMpsc`: the queue of capacity one for any number of producers and one consumer.

 The consumer stores the packed position word without an exchange and before it reads its slot, and
 producers write a slot without looking at its stamp. The second slot makes both safe.
 */
module OneMpsc {
  import opened Base
  import opened AbstractFifo
  import opened Stamps

  const HALF: nat := 0x8000

  /** A slot; it serves position `turn`, written if `full`, being written by `user` if there is one. */
  datatype Slot = Slot(stamp: nat, value: Option<Item>, turn: nat, full: bool, user: Option<Tid>)

  datatype Answer = Sent | Full

  /** `h` and `w` are the head and tail words seen; after the claim, `p` is the position claimed. */
  datatype Call =
    | Done(answer: Answer)
    | PushLoad(v: Item)
    | PushExchange(v: Item, h: nat, w: nat)
    | WriteValue(v: Item, w: nat, p: nat)
    | Publish(v: Item, w: nat, p: nat)

  datatype Reply = Got(value: Item) | Empty

  /** The consumer: it stores the position word, then waits for the slot and reads it. */
  datatype Reader =
    | Rest(reply: Reply)
    | PopLoad
    | StorePos(h: nat, w: nat)
    | AwaitStamp(i: nat, w: nat)
    | TakeValue(i: nat, w: nat)

  datatype Queue = Queue(
    head: nat, tail: nat, slots: seq<Slot>, calls: map<Tid, Call>, reader: Reader, pushed: seq<Item>, taken: nat)

  function New(): Queue {
    Queue(0, 0, [Slot(0, None, 0, false, None), Slot(1, None, 1, false, None)], map[], Rest(Empty), [], 0)
  }

  predicate Writing(c: Call, p: nat) { (c.WriteValue? || c.Publish?) && c.p == p }

  predicate InRead(r: Reader) { r.AwaitStamp? || r.TakeValue? }

  /** The first position not yet read: one behind `taken` while the consumer reads. */
  function Unread(s: Queue): int { if InRead(s.reader) then s.taken - 1 else s.taken }

  /** The stamp a slot shows before position `p` is written. */
  function Stale(p: nat): nat { Word(HALF, if p < 2 then p else p - 1) }

  ghost predicate SlotInv(s: Queue, i: nat)
    requires i < |s.slots|
  {
    var x := s.slots[i];
    && Side(x.turn) == i && Unread(s) <= x.turn <= Unread(s) + 1
    && (x.full ==>
          && x.stamp == Word(HALF, x.turn + 1) && x.turn < |s.pushed|
          && x.value == Some(s.pushed[x.turn]) && x.user.None?)
    && (!x.full ==>
          && x.stamp == Stale(x.turn)
          && (x.user.Some? <==> x.turn < |s.pushed|)
          && (x.user.Some? ==> x.user.value in s.calls && Writing(s.calls[x.user.value], x.turn)))
  }

  ghost predicate Shape(s: Queue) {
    && |s.slots| == 2
    && s.head == Word(HALF, s.taken) && s.tail == Word(HALF, |s.pushed|)
    && s.taken <= |s.pushed| <= s.taken + 1
    && (InRead(s.reader) ==> 0 < s.taken)
  }

  ghost predicate CallInv(s: Queue, t: Tid)
    requires |s.slots| == 2 && t in s.calls
  {
    match s.calls[t]
    case PushExchange(_, h, w) => h == w
    case WriteValue(v, w, p) =>
      && w == Word(HALF, p) && p < |s.pushed| && v == s.pushed[p]
      && s.slots[Side(p)].turn == p && s.slots[Side(p)].user == Some(t)
    case Publish(v, w, p) =>
      && w == Word(HALF, p) && p < |s.pushed| && v == s.pushed[p]
      && s.slots[Side(p)].turn == p && s.slots[Side(p)].user == Some(t) && s.slots[Side(p)].value == Some(v)
    case _ => true
  }

  ghost predicate ReaderInv(s: Queue)
    requires |s.slots| == 2
  {
    match s.reader
    case StorePos(h, w) => (s.head, s.tail) == (h, w) && |s.pushed| == s.taken + 1
    case AwaitStamp(i, w) => s.taken > 0 && w == Word(HALF, s.taken) && i == Side(s.taken - 1)
    case TakeValue(i, w) =>
      s.taken > 0 && w == Word(HALF, s.taken) && i == Side(s.taken - 1) && s.slots[i].full
    case _ => true
  }

  ghost predicate Inv(s: Queue) {
    && Shape(s)
    && (forall i: nat {:trigger SlotInv(s, i)} :: i < 2 ==> SlotInv(s, i))
    && (forall t {:trigger s.calls[t]} :: t in s.calls ==> CallInv(s, t))
    && ReaderInv(s)
  }

  predicate Active(s: Queue, t: Tid) { t in s.calls && !s.calls[t].Done? }

  // -------------------------------------------------------------------------------------- the steps

  function Goto(s: Queue, t: Tid, c: Call): Queue { s.(calls := s.calls[t := c]) }

  function PushDecide(s: Queue, v: Item): Call {
    if s.head == s.tail then PushExchange(v, s.head, s.tail) else Done(Full)
  }

  /** The exchange of a push succeeded: the tail position and its slot are claimed. */
  function ClaimTail(s: Queue, t: Tid): Queue
    requires |s.slots| == 2 && t in s.calls && s.calls[t].PushExchange?
  {
    var PushExchange(v, h, w) := s.calls[t];
    var i := Side(w);
    s.(tail := Bump(HALF, w), pushed := s.pushed + [v], slots := s.slots[i := s.slots[i].(user := Some(t))],
       calls := s.calls[t := WriteValue(v, w, |s.pushed|)])
  }

  /** One access of `_try_push` or `Slot::write`. */
  function PushStep(s: Queue, t: Tid, spurious: bool): Queue
    requires Inv(s) && Active(s, t)
  {
    match s.calls[t]
    case PushLoad(v) => Goto(s, t, PushDecide(s, v))
    case PushExchange(v, h, w) =>
      if (s.head, s.tail) == (h, w) && !spurious then ClaimTail(s, t) else Goto(s, t, PushDecide(s, v))
    case WriteValue(v, w, p) =>
      var i := Side(w);
      Goto(s.(slots := s.slots[i := s.slots[i].(value := Some(v))]), t, Publish(v, w, p))
    case Publish(v, w, p) =>
      var i := Side(w);
      Goto(s.(slots := s.slots[i := s.slots[i].(stamp := Bump(HALF, w), full := true, user := None)]), t, Done(Sent))
  }

  /** One access of `_start_read`, `_read` or `Slot::read`. */
  function PopStep(s: Queue): Queue
    requires Inv(s)
  {
    match s.reader
    case Rest(_) => s
    case PopLoad => s.(reader := if s.head == s.tail then Rest(Empty) else StorePos(s.head, s.tail))
    case StorePos(h, w) => s.(head := w, tail := w, taken := s.taken + 1, reader := AwaitStamp(Side(h), w))
    case AwaitStamp(i, w) => if s.slots[i].stamp == w then s.(reader := TakeValue(i, w)) else s
    case TakeValue(i, w) =>
      assert SlotInv(s, i);
      s.(slots := s.slots[i := s.slots[i].(turn := s.slots[i].turn + 2, full := false)],
         reader := Rest(Got(s.slots[i].value.value)))
  }

  // ---------------------------------------------------------------- every step keeps the invariant

  lemma NewKeeps(s: Queue)
    requires s == New()
    ensures Inv(s)
  {
    assert Side(0) == 0 && Side(1) == 1;
  }

  lemma EmptyTest(s: Queue)
    requires Shape(s)
    ensures s.head == s.tail <==> |s.pushed| == s.taken
  {
    if s.taken < |s.pushed| && s.head == s.tail { WordApart(HALF, s.taken, |s.pushed|); }
  }

  /** Each slot serves the unread position of its side. */
  lemma SlotOf(s: Queue, p: nat)
    requires Inv(s) && Unread(s) <= p <= Unread(s) + 1
    ensures s.slots[Side(p)].turn == p && SlotInv(s, Side(p))
  {
    var x := s.slots[Side(p)];
    assert SlotInv(s, Side(p));
    if x.turn < p { SideGap(x.turn, p); }
    if p < x.turn { SideGap(p, x.turn); }
  }

  lemma GotoKeeps(s: Queue, t: Tid, c: Call)
    requires Inv(s) && (t in s.calls ==> !s.calls[t].WriteValue? && !s.calls[t].Publish?)
    requires !c.WriteValue? && !c.Publish? && (c.PushExchange? ==> c.h == c.w)
    ensures Inv(Goto(s, t, c))
  {
    var s' := Goto(s, t, c);
    forall i: nat | i < 2 ensures SlotInv(s', i) { assert SlotInv(s, i); }
    forall u | u in s'.calls ensures CallInv(s', u) {
      if u != t { assert CallInv(s, u); }
    }
  }

  lemma ClaimKeeps(s: Queue, t: Tid)
    requires Inv(s) && t in s.calls && s.calls[t].PushExchange?
    requires (s.head, s.tail) == (s.calls[t].h, s.calls[t].w)
    ensures Inv(ClaimTail(s, t)) && |s.pushed| == s.taken
  {
    var s', n := ClaimTail(s, t), |s.pushed|;
    assert CallInv(s, t);
    EmptyTest(s);
    WordNext(HALF, n);
    WordSide(HALF, n);
    SlotOf(s, n);
    forall i: nat | i < 2 ensures SlotInv(s', i) { assert SlotInv(s, i); }
    forall u | u in s'.calls ensures CallInv(s', u) {
      if u != t { assert CallInv(s, u); }
    }
  }

  /** A producer may do anything to the slot it has claimed: nobody else relies on it. */
  lemma OwnSlotKeeps(s: Queue, t: Tid, x: Slot, c: Call)
    requires Inv(s) && t in s.calls && (s.calls[t].WriteValue? || s.calls[t].Publish?)
    requires var i := Side(s.calls[t].p);
             var s' := s.(slots := s.slots[i := x], calls := s.calls[t := c]);
             SlotInv(s', i) && CallInv(s', t)
    ensures Inv(s.(slots := s.slots[Side(s.calls[t].p) := x], calls := s.calls[t := c]))
  {
    var i := Side(s.calls[t].p);
    var s' := s.(slots := s.slots[i := x], calls := s.calls[t := c]);
    assert CallInv(s, t);
    assert SlotInv(s, i);
    forall j: nat | j < 2 ensures SlotInv(s', j) { assert SlotInv(s, j); }
    forall u | u in s'.calls ensures CallInv(s', u) {
      if u != t { assert CallInv(s, u); }
    }
  }

  lemma WriteKeeps(s: Queue, t: Tid, spurious: bool)
    requires Inv(s) && t in s.calls && (s.calls[t].WriteValue? || s.calls[t].Publish?)
    ensures Inv(PushStep(s, t, spurious))
  {
    var c := s.calls[t];
    assert CallInv(s, t);
    WordSide(HALF, c.p);
    WordNext(HALF, c.p);
    var i := Side(c.p);
    assert SlotInv(s, i);
    if c.WriteValue? { OwnSlotKeeps(s, t, s.slots[i].(value := Some(c.v)), Publish(c.v, c.w, c.p)); }
    else { OwnSlotKeeps(s, t, s.slots[i].(stamp := Bump(HALF, c.w), full := true, user := None), Done(Sent)); }
  }

  lemma PushKeeps(s: Queue, t: Tid, spurious: bool)
    requires Inv(s) && Active(s, t)
    ensures Inv(PushStep(s, t, spurious))
  {
    var c := s.calls[t];
    assert CallInv(s, t);
    if c.WriteValue? || c.Publish? { WriteKeeps(s, t, spurious); }
    else if c.PushExchange? && (s.head, s.tail) == (c.h, c.w) && !spurious { ClaimKeeps(s, t); }
    else { GotoKeeps(s, t, PushDecide(s, c.v)); }
  }

  /** The stamp of the slot being read shows whether its item has been written. */
  lemma StampTest(s: Queue)
    requires Inv(s) && s.reader.AwaitStamp?
    ensures var x := s.slots[s.reader.i];
            x.turn == s.taken - 1 && (x.stamp == s.reader.w <==> x.full)
  {
    var p := s.taken - 1;
    SlotOf(s, p);
    var stale := if p < 2 then p else p - 1;
    if Word(HALF, stale) == Word(HALF, p + 1) { WordApart(HALF, stale, p + 1); }
  }

  /** The blind store of the consumer does what a successful exchange of the word it loaded would do. */
  lemma BlindStore(s: Queue)
    requires Inv(s) && s.reader.StorePos?
    ensures (s.head, s.tail) == (s.reader.h, s.reader.w)
    ensures PopStep(s).tail == s.tail && PopStep(s).head == Bump(HALF, s.head)
  {
    WordNext(HALF, s.taken);
  }

  lemma StorePosKeeps(s: Queue)
    requires Inv(s) && s.reader.StorePos?
    ensures Inv(PopStep(s))
  {
    var s' := PopStep(s);
    WordSide(HALF, s.taken);
    forall i: nat | i < 2 ensures SlotInv(s', i) { assert SlotInv(s, i); }
    forall u | u in s'.calls ensures CallInv(s', u) { assert CallInv(s, u); }
  }

  lemma TakeKeeps(s: Queue)
    requires Inv(s) && s.reader.TakeValue?
    ensures Inv(PopStep(s)) && PopStep(s).reader == Rest(Got(s.pushed[s.taken - 1]))
  {
    var s', p := PopStep(s), s.taken - 1;
    SlotOf(s, p);
    SlotOf(s, p + 1);
    SideNext(p);
    forall i: nat | i < 2 ensures SlotInv(s', i) { assert SlotInv(s, i); }
    forall u | u in s'.calls ensures CallInv(s', u) { assert CallInv(s, u); }
  }

  lemma PopKeeps(s: Queue)
    requires Inv(s)
    ensures Inv(PopStep(s))
  {
    if s.reader.StorePos? { StorePosKeeps(s); }
    else if s.reader.TakeValue? { TakeKeeps(s); }
    else {
      var s' := PopStep(s);
      EmptyTest(s);
      if s.reader.AwaitStamp? { StampTest(s); }
      forall i: nat | i < 2 ensures SlotInv(s', i) { assert SlotInv(s, i); }
      forall u | u in s'.calls ensures CallInv(s', u) { assert CallInv(s, u); }
    }
  }

  // ------------------------------------------------------------------ what the invariant promises

  /** Two producers never hold one slot, and none holds the slot that the consumer reads. */
  lemma SlotsApart(s: Queue, t: Tid, p: nat)
    requires Inv(s) && t in s.calls && Writing(s.calls[t], p)
    ensures forall u, q :: u in s.calls && u != t && Writing(s.calls[u], q) ==> Side(q) != Side(p)
    ensures s.reader.TakeValue? ==> s.reader.i != Side(p)
  {
    assert CallInv(s, t);
    assert SlotInv(s, Side(p));
    forall u, q | u in s.calls && u != t && Writing(s.calls[u], q) ensures Side(q) != Side(p) {
      assert CallInv(s, u);
    }
  }

  /** While the consumer reads a position, no producer is given its slot for a later one. */
  lemma SlotIsKept(s: Queue, t: Tid, spurious: bool)
    requires Inv(s) && Active(s, t) && InRead(s.reader)
    ensures var c := PushStep(s, t, spurious).calls[t];
            (c.WriteValue? || c.Publish?) && Side(c.p) == s.reader.i ==> c.p == s.taken - 1
  {
    var s', p := PushStep(s, t, spurious), s.taken - 1;
    PushKeeps(s, t, spurious);
    assert CallInv(s', t);
    SlotOf(s', p);
  }

  lemma FullReport(s: Queue, t: Tid, spurious: bool)
    requires Inv(s) && t in s.calls && (s.calls[t].PushLoad? || s.calls[t].PushExchange?)
    ensures PushStep(s, t, spurious).calls[t] == Done(Full) <==> |s.pushed| == s.taken + 1
  {
    assert CallInv(s, t);
    EmptyTest(s);
  }

  lemma EmptyReport(s: Queue)
    requires Inv(s) && s.reader.PopLoad?
    ensures PopStep(s).reader == Rest(Empty) <==> |s.pushed| == s.taken
  {
    EmptyTest(s);
  }

  /** A pop that waits, waits for the producer of its own item, who waits for nobody. */
  lemma PopWaits(s: Queue)
    requires Inv(s) && s.reader.AwaitStamp? && PopStep(s) == s
    ensures var u := s.slots[s.reader.i].user;
            u.Some? && u.value in s.calls && Writing(s.calls[u.value], s.taken - 1)
  {
    StampTest(s);
    SlotOf(s, s.taken - 1);
  }

  // -------------------------------------------------------------------------- refinement and runs

  ghost function Abs(s: Queue): Fifo { Fifo(Some(1), s.pushed, s.taken) }

  datatype Move = BeginPush(t: Tid, v: Item) | Push(t: Tid, spurious: bool) | BeginPop | Pop

  predicate Enabled(s: Queue, m: Move) {
    match m
    case BeginPush(t, _) => !Active(s, t)
    case Push(t, _) => Active(s, t)
    case BeginPop => s.reader.Rest?
    case Pop => !s.reader.Rest?
  }

  function Apply(s: Queue, m: Move): Queue
    requires Inv(s) && Enabled(s, m)
  {
    match m
    case BeginPush(t, v) => Goto(s, t, PushLoad(v))
    case Push(t, spurious) => PushStep(s, t, spurious)
    case BeginPop => s.(reader := PopLoad)
    case Pop => PopStep(s)
  }

  lemma BeginPopKeeps(s: Queue)
    requires Inv(s) && s.reader.Rest?
    ensures Inv(s.(reader := PopLoad))
  {
    var s' := s.(reader := PopLoad);
    forall i: nat | i < 2 ensures SlotInv(s', i) { assert SlotInv(s, i); }
    forall u | u in s'.calls ensures CallInv(s', u) { assert CallInv(s, u); }
  }

  lemma ApplyKeeps(s: Queue, m: Move)
    requires Inv(s) && Enabled(s, m)
    ensures Inv(Apply(s, m))
  {
    match m {
    case BeginPush(t, v) => GotoKeeps(s, t, PushLoad(v));
    case Push(t, spurious) => PushKeeps(s, t, spurious);
    case BeginPop => BeginPopKeeps(s);
    case Pop => PopKeeps(s);
    }
  }

  /** The successful exchange is the push; the store of the position word is the pop. */
  ghost function EventOf(s: Queue, m: Move): Event
    requires Inv(s) && Enabled(s, m)
  {
    if m.Push? && s.calls[m.t].PushExchange? && (s.head, s.tail) == (s.calls[m.t].h, s.calls[m.t].w) && !m.spurious
    then Pushed(s.calls[m.t].v)
    else if m.Pop? && s.reader.StorePos? && s.taken < |s.pushed| then Popped(s.pushed[s.taken])
    else Silent
  }

  lemma ApplyRefines(s: Queue, m: Move)
    requires Inv(s) && Enabled(s, m)
    ensures Allowed(Abs(s), EventOf(s, m), Abs(Apply(s, m)))
  {
    if EventOf(s, m).Pushed? { ClaimKeeps(s, m.t); }
  }

  /** The position claimed by a pop that has not returned yet. */
  ghost function Open(s: Queue): set<nat> {
    if InRead(s.reader) && s.taken > 0 then {s.taken - 1} else {}
  }

  /** What a move returns to the caller of `pop`, with the position that call claimed. */
  ghost function ReceiptOf(s: Queue, m: Move): Option<Receipt>
    requires Inv(s) && Enabled(s, m)
  {
    var r := Apply(s, m).reader;
    if m.Pop? && r.Rest? && r.reply.Got?
    then Some(Receipt(if InRead(s.reader) then s.taken - 1 else |s.pushed|, r.reply.value)) else None
  }

  /** A pop event opens its own position; the pop closes it with the item of that event. */
  lemma ApplyServes(s: Queue, m: Move)
    requires Inv(s) && Enabled(s, m)
    ensures Serves(Abs(s), EventOf(s, m), ReceiptOf(s, m), Open(s), Open(Apply(s, m)))
  {
    if m.Pop? && s.reader.TakeValue? { TakeKeeps(s); }
  }

  ghost predicate Sound(h: History<Queue>) { Inv(h.s) && Accounts(Abs(h.s), Open(h.s), h.record) }

  lemma FirstSound(s: Queue, r: Record)
    requires s == New() && |r.events| == 0 && |r.receipts| == 0
    ensures Sound(History(s, r))
  {
    NewKeeps(s);
    assert Open(s) == {};
    NothingDone(Abs(s), r);
  }

  ghost function Extend(h: History<Queue>, m: Move): (h': History<Queue>)
    requires Sound(h) && Enabled(h.s, m)
    ensures Sound(h')
  {
    ApplyKeeps(h.s, m);
    ApplyRefines(h.s, m);
    ApplyServes(h.s, m);
    AccountsNext(Abs(h.s), Open(h.s), h.record, EventOf(h.s, m), ReceiptOf(h.s, m),
                 Abs(Apply(h.s, m)), Open(Apply(h.s, m)));
    History(Apply(h.s, m), Then(h.record, EventOf(h.s, m), ReceiptOf(h.s, m)))
  }

  ghost function Run(ms: seq<Move>): (r: Option<History<Queue>>)
    ensures r.Some? ==> Sound(r.value)
  {
    if ms == [] then
      FirstSound(New(), Record([], []));
      Some(History(New(), Record([], [])))
    else
      var n := |ms| - 1;
      var r := Run(ms[..n]);
      if r.None? || !Enabled(r.value.s, ms[n]) then None else Some(Extend(r.value, ms[n]))
  }

  /**
   Over every run, however often the words wrap: first in, first out, at most one inside; and each pop
   returns the item of its own pop event, once.
   */
  lemma RunIsFifo(ms: seq<Move>)
    requires Run(ms).Some?
    ensures var r := Run(ms).value.record;
            && PoppedBy(r.events) <= PushedBy(r.events) && |PushedBy(r.events)| <= |PoppedBy(r.events)| + 1
            && InOrder(Open(Run(ms).value.s), r)
  {
    var h := Run(ms).value;
    FirstInFirstOut(Abs(h.s), h.record.events);
    AnsweredInOrder(Abs(h.s), Open(h.s), h.record);
  }

  // ------------------------------------------------------------------------ the queue, in place

  /** The queue as it sits in memory; each method is one access by one thread. */
  class Memory {
    var head: nat
    var tail: nat
    const slots: array<Slot>
    var calls: map<Tid, Call>
    var reader: Reader
    var pushed: seq<Item>
    ghost var taken: nat

    ghost function View(): Queue
      reads this, slots
    {
      Queue(head, tail, slots[..], calls, reader, pushed, taken)
    }

    constructor ()
      ensures View() == New() && Inv(View()) && fresh(slots)
    {
      head, tail := 0, 0;
      slots := new Slot[2](i => Slot(if i < 1 then 0 else 1, None, if i < 1 then 0 else 1, false, None));
      calls, reader, pushed, taken := map[], Rest(Empty), [], 0;
      new;
      assert slots[..] == New().slots;
      NewKeeps(View());
    }

    method BeginPushing(t: Tid, v: Item)
      requires Inv(View()) && !Active(View(), t)
      modifies this`calls
      ensures View() == Goto(old(View()), t, PushLoad(v)) && Inv(View())
    {
      GotoKeeps(View(), t, PushLoad(v));
      calls := calls[t := PushLoad(v)];
    }

    /** The load and the exchange of `_try_push`. */
    method TryPush(t: Tid, spurious: bool)
      requires Inv(View()) && t in calls && (calls[t].PushLoad? || calls[t].PushExchange?)
      modifies this`tail, this`pushed, this`calls, slots
      ensures View() == PushStep(old(View()), t, spurious) && Inv(View())
    {
      PushKeeps(View(), t, spurious);
      var c := calls[t];
      if c.PushExchange? && head == c.h && tail == c.w && !spurious {
        var i := Side(c.w);
        slots[i] := slots[i].(user := Some(t));
        calls := calls[t := WriteValue(c.v, c.w, |pushed|)];
        tail, pushed := Bump(HALF, c.w), pushed + [c.v];
      } else {
        calls := calls[t := if head == tail then PushExchange(c.v, head, tail) else Done(Full)];
      }
    }

    /** `Slot::write`: the value, then the stamp, with no wait. */
    method Write(t: Tid)
      requires Inv(View()) && t in calls && (calls[t].WriteValue? || calls[t].Publish?)
      modifies this`calls, slots
      ensures View() == PushStep(old(View()), t, false) && Inv(View())
    {
      PushKeeps(View(), t, false);
      var c := calls[t];
      var i := Side(c.w);
      if c.WriteValue? {
        slots[i] := slots[i].(value := Some(c.v));
        calls := calls[t := Publish(c.v, c.w, c.p)];
      } else {
        slots[i] := slots[i].(stamp := Bump(HALF, c.w), full := true, user := None);
        calls := calls[t := Done(Sent)];
      }
    }

    /** `_start_read`, the blind store of `_read`, and the look at the stamp. */
    method StartRead()
      requires Inv(View()) && (reader.PopLoad? || reader.StorePos? || reader.AwaitStamp?)
      modifies this`head, this`tail, this`taken, this`reader
      ensures View() == PopStep(old(View())) && Inv(View())
    {
      PopKeeps(View());
      match reader {
      case PopLoad => reader := if head == tail then Rest(Empty) else StorePos(head, tail);
      case StorePos(h, w) =>
        head, tail, taken := w, w, taken + 1;
        reader := AwaitStamp(Side(h), w);
      case AwaitStamp(i, w) => if slots[i].stamp == w { reader := TakeValue(i, w); }
      }
    }

    /** The read of the value. */
    method Take() returns (v: Item)
      requires Inv(View()) && reader.TakeValue?
      modifies this`reader, slots
      ensures View() == PopStep(old(View())) && Inv(View())
      ensures old(taken) > 0 && v == old(pushed[taken - 1]) && reader == Rest(Got(v))
    {
      TakeKeeps(View());
      var i := reader.i;
      assert SlotInv(View(), i);
      v := slots[i].value.value;
      slots[i] := slots[i].(turn := slots[i].turn + 2, full := false);
      reader := Rest(Got(v));
    }
  }
}
