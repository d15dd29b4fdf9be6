/**
 `ArrayQueueSpsc`: the bounded queue for one producer and one consumer.

 There are no stamps: an item is published by storing the sender word and a slot is freed by
 storing the receiver word, each holding the own end and a stale copy of the other one. The chain
   head_cached <= head <= tail_cached <= tail <= head_cached + capacity
 of `Shape` is what keeps the two sides off each other's slots.
 */
module ArrayQueueSpsc {
  import opened Base
  import opened AbstractFifo
  import opened LapRing

  /** The producer: `tail` is its own word, `head` the head word to cache, standing for `f`. */
  datatype Writer =
    | Rest(sent: bool)
    | LoadOwn(v: Item)
    | LoadRecv(v: Item, w: Cursor)
    | WriteValue(v: Item, tail: nat, head: nat, f: nat)
    | StoreSender(v: Item, tail: nat, head: nat, f: nat)

  datatype Reply = Got(value: Item) | Empty | Missed

  /** The consumer: `head` is its own word, `tail` the tail word to cache, standing for `c`. */
  datatype Reader =
    | Idle(reply: Reply)
    | LoadHead(spin: bool)
    | LoadTail(head: nat)
    | TakeValue(head: nat, tail: nat, c: nat)
    | StoreRecv(head: nat, tail: nat, c: nat, v: Item)

  datatype Queue = Queue(
    ring: Ring, sender: Cursor, recv: Cursor, values: seq<Option<Item>>, writer: Writer, reader: Reader,
    pushed: seq<Item>, taken: nat, headCached: nat, tailCached: nat)

  function New(g: Ring): (s: Queue)
    requires g.Valid()
  {
    Queue(g, Cursor(0, 0), Cursor(0, 0), seq(g.cap, i => None), Rest(false), Idle(Missed), [], 0, 0, 0)
  }

  ghost predicate Shape(s: Queue) {
    && s.ring.Valid()
    && |s.values| == s.ring.cap
    && s.sender == Cursor(s.ring.Word(s.headCached), s.ring.Word(|s.pushed|))
    && s.recv == Cursor(s.ring.Word(s.tailCached), s.ring.Word(s.taken))
    && s.headCached <= s.taken <= s.tailCached <= |s.pushed| <= s.headCached + s.ring.cap
  }

  ghost function At(s: Queue, p: nat): (r: Option<Item>)
    requires Shape(s)
  {
    Layout(s.ring, p);
    s.values[s.ring.Index(p)]
  }

  ghost predicate WriterInv(s: Queue)
    requires Shape(s)
  {
    match s.writer
    case LoadRecv(v, w) => w == s.sender && |s.pushed| == s.headCached + s.ring.cap
    case WriteValue(v, tail, head, f) =>
      && tail == s.ring.Word(|s.pushed|) && head == s.ring.Word(f)
      && s.headCached <= f <= s.taken && |s.pushed| < f + s.ring.cap
    case StoreSender(v, tail, head, f) =>
      && tail == s.ring.Word(|s.pushed|) && head == s.ring.Word(f)
      && s.headCached <= f <= s.taken && |s.pushed| < f + s.ring.cap
      && At(s, |s.pushed|) == Some(v)
    case _ => true
  }

  ghost predicate ReaderInv(s: Queue)
    requires Shape(s)
  {
    match s.reader
    case LoadTail(head) => head == s.ring.Word(s.taken) && s.tailCached == s.taken
    case TakeValue(head, tail, c) =>
      head == s.ring.Word(s.taken) && tail == s.ring.Word(c) && s.taken < c <= |s.pushed|
    case StoreRecv(head, tail, c, v) =>
      && head == s.ring.Word(s.taken) && tail == s.ring.Word(c) && s.taken < c <= |s.pushed|
      && v == s.pushed[s.taken]
    case _ => true
  }

  /** Every queued item is in its slot. */
  ghost predicate Stored(s: Queue)
    requires Shape(s)
  {
    forall p :: s.taken <= p < |s.pushed| ==> At(s, p) == Some(s.pushed[p])
  }

  ghost predicate Inv(s: Queue) {
    && Shape(s)
    && Stored(s)
    && WriterInv(s)
    && ReaderInv(s)
  }

  /** One access of `_try_push`. */
  function PushStep(s: Queue): Queue
    requires Inv(s)
  {
    WordForm(s.ring, |s.pushed|);
    match s.writer
    case Rest(_) => s
    case LoadOwn(v) =>
      s.(writer := if s.ring.AddLap(s.sender.cached) == s.sender.at then LoadRecv(v, s.sender)
                   else WriteValue(v, s.sender.at, s.sender.cached, s.headCached))
    case LoadRecv(v, w) =>
      s.(writer := if s.recv.at == w.cached then Rest(false) else WriteValue(v, w.at, s.recv.at, s.taken))
    case WriteValue(v, tail, head, f) =>
      s.(values := s.values[s.ring.Slot(tail) := Some(v)], writer := StoreSender(v, tail, head, f))
    case StoreSender(v, tail, head, f) =>
      s.(sender := Cursor(head, s.ring.Next(tail)), headCached := f, pushed := s.pushed + [v],
         writer := Rest(true))
  }

  /** One access of `_start_read`, `_read`, `pop`, `pop_cached` or `read`. */
  function PopStep(s: Queue): Queue
    requires Inv(s)
  {
    WordForm(s.ring, s.taken);
    match s.reader
    case Idle(_) => s
    case LoadHead(spin) =>
      s.(reader := if s.recv.cached != s.recv.at then TakeValue(s.recv.at, s.recv.cached, s.tailCached)
                   else if spin then LoadTail(s.recv.at) else Idle(Missed))
    case LoadTail(head) =>
      s.(reader := if head == s.sender.at then Idle(Empty) else TakeValue(head, s.sender.at, |s.pushed|))
    case TakeValue(head, tail, c) =>
      assert At(s, s.taken) == Some(s.pushed[s.taken]);
      s.(reader := StoreRecv(head, tail, c, s.values[s.ring.Slot(head)].value))
    case StoreRecv(head, tail, c, v) =>
      s.(recv := Cursor(tail, s.ring.Next(head)), tailCached := c, taken := s.taken + 1,
         reader := Idle(Got(v)))
  }

  lemma NewKeeps(g: Ring)
    requires g.Valid()
    ensures Inv(New(g))
  {
  }

  /** The slot the producer is about to fill holds none of the queued items. */
  lemma TailSlotFree(s: Queue, p: nat)
    requires Shape(s) && s.taken <= p < |s.pushed| < s.taken + s.ring.cap
    ensures s.ring.Index(p) != s.ring.Index(|s.pushed|)
  {
    if s.ring.Index(p) == s.ring.Index(|s.pushed|) { SameSlot(s.ring, p, |s.pushed|); }
  }

  lemma WriteValueKeeps(s: Queue)
    requires Inv(s) && s.writer.WriteValue?
    ensures Inv(PushStep(s))
  {
    var s' := PushStep(s);
    WordForm(s.ring, |s.pushed|);
    forall p | s.taken <= p < |s.pushed| ensures At(s', p) == Some(s.pushed[p]) {
      assert At(s, p) == Some(s.pushed[p]);
      TailSlotFree(s, p);
    }
  }

  lemma StoreSenderKeeps(s: Queue)
    requires Inv(s) && s.writer.StoreSender?
    ensures Inv(PushStep(s))
  {
    var s' := PushStep(s);
    WordNext(s.ring, |s.pushed|);
    forall p | s.taken <= p < |s'.pushed| ensures At(s', p) == Some(s'.pushed[p]) {
      assert p < |s.pushed| ==> At(s, p) == Some(s.pushed[p]);
    }
  }

  /** Moving a call on without touching memory. */
  lemma MoveOnKeeps(s: Queue, w: Writer, r: Reader)
    requires Inv(s)
    requires WriterInv(s.(writer := w, reader := r)) && ReaderInv(s.(writer := w, reader := r))
    ensures Inv(s.(writer := w, reader := r))
  {
    var s' := s.(writer := w, reader := r);
    forall p | s.taken <= p < |s.pushed| ensures At(s', p) == Some(s.pushed[p]) {
      assert At(s, p) == Some(s.pushed[p]);
    }
  }

  lemma PushKeeps(s: Queue)
    requires Inv(s)
    ensures Inv(PushStep(s))
  {
    if s.writer.WriteValue? { WriteValueKeeps(s); }
    else if s.writer.StoreSender? { StoreSenderKeeps(s); }
    else {
      FullTest(s.ring, s.headCached, |s.pushed|);
      FullTest(s.ring, s.headCached, s.taken);
      MoveOnKeeps(s, PushStep(s).writer, s.reader);
    }
  }

  lemma StoreRecvKeeps(s: Queue)
    requires Inv(s) && s.reader.StoreRecv?
    ensures Inv(PopStep(s))
  {
    var s' := PopStep(s);
    WordNext(s.ring, s.taken);
    forall p | s'.taken <= p < |s'.pushed| ensures At(s', p) == Some(s'.pushed[p]) {
      assert At(s, p) == Some(s.pushed[p]);
    }
  }

  lemma PopKeeps(s: Queue)
    requires Inv(s)
    ensures Inv(PopStep(s))
  {
    if s.reader.StoreRecv? { StoreRecvKeeps(s); }
    else {
      WordForm(s.ring, s.taken);
      FullTest(s.ring, s.taken, s.tailCached);
      FullTest(s.ring, s.taken, |s.pushed|);
      if s.reader.TakeValue? { assert At(s, s.taken) == Some(s.pushed[s.taken]); }
      MoveOnKeeps(s, s.writer, PopStep(s).reader);
    }
  }

  // ------------------------------------------------------------------ what the invariant promises

  /** While the producer fills a slot it is free, and it is not the one the consumer is reading. */
  lemma SidesApart(s: Queue)
    requires Inv(s) && (s.writer.WriteValue? || s.writer.StoreSender?)
    ensures |s.pushed| < s.taken + s.ring.cap
    ensures s.reader.TakeValue? ==> s.ring.Index(s.taken) != s.ring.Index(|s.pushed|)
  {
    if s.reader.TakeValue? { TailSlotFree(s, s.taken); }
  }

  /** "Full" is answered exactly when the queue is full at the instant of the load. */
  lemma FullReport(s: Queue)
    requires Inv(s) && s.writer.LoadRecv?
    ensures PushStep(s).writer == Rest(false) <==> |s.pushed| - s.taken == s.ring.cap
  {
    FullTest(s.ring, s.headCached, s.taken);
  }

  /** "Empty" is answered exactly when the queue is empty at the instant of the load. */
  lemma EmptyReport(s: Queue)
    requires Inv(s) && s.reader.LoadTail?
    ensures PopStep(s).reader == Idle(Empty) <==> |s.pushed| == s.taken
  {
    FullTest(s.ring, s.taken, |s.pushed|);
  }

  function PushRank(w: Writer): nat {
    match w
    case LoadOwn(_) => 4
    case LoadRecv(_, _) => 3
    case WriteValue(_, _, _, _) => 2
    case StoreSender(_, _, _, _) => 1
    case Rest(_) => 0
  }

  function PopRank(r: Reader): nat {
    match r
    case LoadHead(_) => 4
    case LoadTail(_) => 3
    case TakeValue(_, _, _) => 2
    case StoreRecv(_, _, _, _) => 1
    case Idle(_) => 0
  }

  // -------------------------------------------------------------------------- refinement and runs

  ghost function Abs(s: Queue): Fifo {
    Fifo(Some(s.ring.cap), s.pushed, s.taken)
  }

  datatype Move = BeginPush(v: Item) | Push | BeginPop(spin: bool) | Pop

  predicate Enabled(s: Queue, m: Move) {
    match m
    case BeginPush(_) => s.writer.Rest?
    case Push => !s.writer.Rest?
    case BeginPop(_) => s.reader.Idle?
    case Pop => !s.reader.Idle?
  }

  function Apply(s: Queue, m: Move): Queue
    requires Inv(s)
  {
    match m
    case BeginPush(v) => s.(writer := LoadOwn(v))
    case Push => PushStep(s)
    case BeginPop(spin) => s.(reader := LoadHead(spin))
    case Pop => PopStep(s)
  }

  lemma ApplyKeeps(s: Queue, m: Move)
    requires Inv(s) && Enabled(s, m)
    ensures Inv(Apply(s, m)) && Apply(s, m).ring == s.ring
  {
    match m
    case Push => PushKeeps(s);
    case Pop => PopKeeps(s);
    case BeginPush(v) => MoveOnKeeps(s, LoadOwn(v), s.reader);
    case BeginPop(spin) => MoveOnKeeps(s, s.writer, LoadHead(spin));
  }

  /** The store to `sender` is the push; the store to `recv` is the pop. */
  ghost function EventOf(s: Queue, m: Move): Event {
    if m.Push? && s.writer.StoreSender? then Pushed(s.writer.v)
    else if m.Pop? && s.reader.StoreRecv? then Popped(s.reader.v)
    else Silent
  }

  lemma ApplyRefines(s: Queue, m: Move)
    requires Inv(s) && Enabled(s, m)
    ensures Allowed(Abs(s), EventOf(s, m), Abs(Apply(s, m)))
  {
  }

  /** Neither side ever waits: each step brings its call nearer the end, whatever the other does. */
  lemma WaitFree(s: Queue)
    requires Inv(s)
    ensures !s.writer.Rest? ==> PushRank(PushStep(s).writer) < PushRank(s.writer)
    ensures !s.reader.Idle? ==> PopRank(PopStep(s).reader) < PopRank(s.reader)
    ensures PushStep(s).writer == Rest(true) ==> s.writer.StoreSender? || s.writer.Rest?
    ensures PushStep(s).reader == s.reader && PopStep(s).writer == s.writer
  {
  }

  ghost function Run(g: Ring, ms: seq<Move>): (r: Option<Queue>)
    requires g.Valid()
    ensures r.Some? ==> Inv(r.value) && r.value.ring == g
  {
    if ms == [] then NewKeeps(g); Some(New(g))
    else
      var r := Run(g, ms[..|ms| - 1]);
      var m := ms[|ms| - 1];
      if r.None? || !Enabled(r.value, m) then None
      else ApplyKeeps(r.value, m); Some(Apply(r.value, m))
  }

  ghost function Events(g: Ring, ms: seq<Move>): seq<Event>
    requires g.Valid() && Run(g, ms).Some?
  {
    if ms == [] then []
    else Events(g, ms[..|ms| - 1]) + [EventOf(Run(g, ms[..|ms| - 1]).value, ms[|ms| - 1])]
  }

  /** Every interleaving of the two sides is a run of the bounded FIFO. */
  lemma {:induction false} RunIsFifo(g: Ring, ms: seq<Move>)
    requires g.Valid() && Run(g, ms).Some?
    ensures Explains(Abs(Run(g, ms).value), Events(g, ms))
    ensures PoppedBy(Events(g, ms)) <= PushedBy(Events(g, ms))
    ensures |PushedBy(Events(g, ms))| - |PoppedBy(Events(g, ms))| <= g.cap
  {
    if ms != [] {
      var ms', m := ms[..|ms| - 1], ms[|ms| - 1];
      RunIsFifo(g, ms');
      var s := Run(g, ms').value;
      ApplyRefines(s, m);
      ExplainsNext(Abs(s), Events(g, ms'), EventOf(s, m), Abs(Apply(s, m)));
    }
    FirstInFirstOut(Abs(Run(g, ms).value), Events(g, ms));
  }

  // ------------------------------------------------------------------------ the queue, in place

  /** The queue as it sits in memory; each method is one access by one side. */
  class Memory {
    const ring: Ring
    var sender: Cursor
    var recv: Cursor
    var values: array<Option<Item>>
    var writer: Writer
    var reader: Reader
    var pushed: seq<Item>
    var taken: nat
    var headCached: nat
    var tailCached: nat

    ghost function View(): Queue
      reads this, values
    {
      Queue(ring, sender, recv, values[..], writer, reader, pushed, taken, headCached, tailCached)
    }

    constructor (g: Ring)
      requires g.Valid()
      ensures View() == New(g) && Inv(View()) && fresh(values)
    {
      ring := g;
      sender, recv, writer, reader := Cursor(0, 0), Cursor(0, 0), Rest(false), Idle(Missed);
      pushed, taken, headCached, tailCached := [], 0, 0, 0;
      values := new Option<Item>[g.cap](i => None);
      new;
      assert values[..] == New(g).values;
      NewKeeps(g);
    }

    /** The next access of the producer. */
    method TryPush()
      requires Inv(View())
      modifies this`sender, this`headCached, this`pushed, this`writer, values
      ensures View() == PushStep(old(View())) && Inv(View())
    {
      PushKeeps(View());
      WordForm(ring, |pushed|);
      match writer
      case Rest(_) =>
      case LoadOwn(v) =>
        if ring.AddLap(sender.cached) == sender.at { writer := LoadRecv(v, sender); }
        else { writer := WriteValue(v, sender.at, sender.cached, headCached); }
      case LoadRecv(v, w) =>
        writer := if recv.at == w.cached then Rest(false) else WriteValue(v, w.at, recv.at, taken);
      case WriteValue(v, tail, head, f) =>
        values[ring.Slot(tail)] := Some(v);
        writer := StoreSender(v, tail, head, f);
        assert values[..] == old(values[..])[ring.Slot(tail) := Some(v)];
      case StoreSender(v, tail, head, f) =>
        sender, headCached := Cursor(head, ring.Next(tail)), f;
        pushed, writer := pushed + [v], Rest(true);
    }

    /** The next access of the consumer. */
    method TryPop()
      requires Inv(View())
      modifies this`recv, this`tailCached, this`taken, this`reader
      ensures View() == PopStep(old(View())) && Inv(View())
    {
      PopKeeps(View());
      WordForm(ring, taken);
      match reader
      case Idle(_) =>
      case LoadHead(spin) =>
        if recv.cached != recv.at { reader := TakeValue(recv.at, recv.cached, tailCached); }
        else { reader := if spin then LoadTail(recv.at) else Idle(Missed); }
      case LoadTail(head) =>
        reader := if head == sender.at then Idle(Empty) else TakeValue(head, sender.at, |pushed|);
      case TakeValue(head, tail, c) =>
        assert At(View(), taken) == Some(pushed[taken]);
        reader := StoreRecv(head, tail, c, values[ring.Slot(head)].value);
      case StoreRecv(head, tail, c, v) =>
        recv, tailCached := Cursor(tail, ring.Next(head)), c;
        taken, reader := taken + 1, Idle(Got(v));
    }
  }
}
