/**
 `OneSpsc`: the queue of capacity one for one producer and one consumer. There are no stamps and no
 exchanges: both sides store the packed position word outright, and the consumer does so before it
 reads its slot.
 */
module OneSpsc {
  import opened Base
  import opened AbstractFifo
  import opened Stamps

  const HALF: nat := 0x8000_0000

  datatype Writer = WriterRest(sent: bool) | PushLoad(v: Item) | WriteValue(v: Item, h: nat, w: nat)
    | StoreTail(v: Item, h: nat, w: nat)

  datatype Reply = Got(value: Item) | Empty | Broken

  datatype Reader = ReaderRest(reply: Reply) | PopLoad | StoreHead(h: nat, w: nat) | TakeValue(w: nat)

  datatype Queue = Queue(
    head: nat, tail: nat, slots: seq<Option<Item>>, writer: Writer, reader: Reader, pushed: seq<Item>, taken: nat)

  function New(): Queue { Queue(0, 0, [None, None], WriterRest(false), ReaderRest(Empty), [], 0) }

  ghost predicate Shape(s: Queue) {
    && |s.slots| == 2
    && s.head == Word(HALF, s.taken) && s.tail == Word(HALF, |s.pushed|)
    && s.taken <= |s.pushed| <= s.taken + 1
    && (s.taken < |s.pushed| ==> s.slots[Side(|s.pushed|)] == Some(s.pushed[s.taken]))
  }

  ghost predicate WriterInv(s: Queue)
    requires |s.slots| == 2
  {
    match s.writer
    case WriteValue(v, h, w) => (s.head, s.tail) == (h, w) && |s.pushed| == s.taken
    case StoreTail(v, h, w) =>
      (s.head, s.tail) == (h, w) && |s.pushed| == s.taken && s.slots[Side(s.taken + 1)] == Some(v)
    case _ => true
  }

  ghost predicate ReaderInv(s: Queue)
    requires |s.slots| == 2
  {
    match s.reader
    case StoreHead(h, w) => (s.head, s.tail) == (h, w) && |s.pushed| == s.taken + 1
    case TakeValue(w) =>
      && 0 < s.taken <= |s.pushed| && w == Word(HALF, s.taken)
      && s.slots[Side(s.taken)] == Some(s.pushed[s.taken - 1])
    case ReaderRest(r) => !r.Broken?
    case _ => true
  }

  ghost predicate Inv(s: Queue) { Shape(s) && WriterInv(s) && ReaderInv(s) }

  /** One access of `try_push`. */
  function PushStep(s: Queue): Queue
    requires |s.slots| == 2
  {
    match s.writer
    case WriterRest(_) => s
    case PushLoad(v) => s.(writer := if s.head == s.tail then WriteValue(v, s.head, s.tail) else WriterRest(false))
    case WriteValue(v, h, w) =>
      s.(slots := s.slots[Side(Bump(HALF, w)) := Some(v)], writer := StoreTail(v, h, w))
    case StoreTail(v, h, w) =>
      s.(head := h, tail := Bump(HALF, w), pushed := s.pushed + [v], writer := WriterRest(true))
  }

  /** One access of `start_read` or `_read`; a failed assertion, or a read of nothing, answers `Broken`. */
  function PopStep(s: Queue): Queue
    requires |s.slots| == 2
  {
    match s.reader
    case ReaderRest(_) => s
    case PopLoad =>
      s.(reader := if s.head == s.tail then ReaderRest(Empty)
                   else if Bump(HALF, s.head) != s.tail then ReaderRest(Broken)
                   else StoreHead(s.head, s.tail))
    case StoreHead(h, w) => s.(head := w, tail := w, taken := s.taken + 1, reader := TakeValue(w))
    case TakeValue(w) =>
      var x := s.slots[Side(w)];
      s.(reader := ReaderRest(if x.Some? then Got(x.value) else Broken))
  }

  lemma NewKeeps(s: Queue)
    requires s == New()
    ensures Inv(s)
  {
  }

  lemma EmptyTest(s: Queue)
    requires Shape(s)
    ensures s.head == s.tail <==> |s.pushed| == s.taken
    ensures s.head != s.tail ==> s.tail == Bump(HALF, s.head)
  {
    WordNext(HALF, s.taken);
    if s.taken < |s.pushed| && s.head == s.tail { WordApart(HALF, s.taken, |s.pushed|); }
  }

  lemma PushKeeps(s: Queue)
    requires Inv(s)
    ensures Inv(PushStep(s))
  {
    EmptyTest(s);
    WordNext(HALF, |s.pushed|);
    WordSide(HALF, |s.pushed| + 1);
    SideNext(s.taken);
  }

  lemma PopKeeps(s: Queue)
    requires Inv(s)
    ensures Inv(PopStep(s))
  {
    EmptyTest(s);
    WordSide(HALF, s.taken);
  }

  // ------------------------------------------------------------------ what the invariant promises

  /** Each blind store does what a successful exchange of the word that side loaded would do. */
  lemma BlindStores(s: Queue)
    requires Inv(s)
    ensures s.writer.StoreTail? ==> (s.head, s.tail) == (s.writer.h, s.writer.w) && s.head == s.tail
    ensures s.reader.StoreHead? ==> (s.head, s.tail) == (s.reader.h, s.reader.w) && s.head != s.tail
    ensures !(s.writer.StoreTail? && s.reader.StoreHead?)
  {
    EmptyTest(s);
  }

  /** The slot being written is never the slot being read, nor the one that holds the queued item. */
  lemma SlotsApart(s: Queue)
    requires Inv(s) && s.writer.WriteValue?
    ensures s.reader.TakeValue? ==> Side(Bump(HALF, s.writer.w)) != Side(s.reader.w)
    ensures |s.pushed| == s.taken
  {
    WordNext(HALF, s.taken);
    WordSide(HALF, s.taken);
    WordSide(HALF, s.taken + 1);
    SideNext(s.taken);
  }

  /** A push answers "full" exactly when an item is queued, a pop "empty" exactly when none is. */
  lemma Reports(s: Queue)
    requires Inv(s)
    ensures s.writer.PushLoad? ==> (PushStep(s).writer == WriterRest(false) <==> |s.pushed| == s.taken + 1)
    ensures s.reader.PopLoad? ==> (PopStep(s).reader == ReaderRest(Empty) <==> |s.pushed| == s.taken)
  {
    EmptyTest(s);
  }

  /** A pop answers with the item its store took out of the queue. */
  lemma PopAnswers(s: Queue)
    requires Inv(s) && s.reader.TakeValue?
    ensures 0 < s.taken <= |s.pushed| && PopStep(s).reader == ReaderRest(Got(s.pushed[s.taken - 1]))
  {
    WordSide(HALF, s.taken);
  }

  /** Neither side ever waits: three steps end a push, and three a pop. */
  function Ahead(s: Queue): (nat, nat) {
    (match s.writer case WriterRest(_) => 0 case PushLoad(_) => 3 case WriteValue(_, _, _) => 2 case StoreTail(_, _, _) => 1,
     match s.reader case ReaderRest(_) => 0 case PopLoad => 3 case StoreHead(_, _) => 2 case TakeValue(_) => 1)
  }

  lemma WaitFree(s: Queue)
    requires Inv(s)
    ensures !s.writer.WriterRest? ==> Ahead(PushStep(s)).0 < Ahead(s).0
    ensures !s.reader.ReaderRest? ==> Ahead(PopStep(s)).1 < Ahead(s).1
    ensures Ahead(PopStep(s)).0 == Ahead(s).0 && Ahead(PushStep(s)).1 == Ahead(s).1
  {
  }

  // -------------------------------------------------------------------------- refinement and runs

  ghost function Abs(s: Queue): Fifo { Fifo(Some(1), s.pushed, s.taken) }

  datatype Move = BeginPush(v: Item) | Push | BeginPop | Pop

  predicate Enabled(s: Queue, m: Move) {
    match m
    case BeginPush(_) => s.writer.WriterRest?
    case Push => !s.writer.WriterRest?
    case BeginPop => s.reader.ReaderRest?
    case Pop => !s.reader.ReaderRest?
  }

  function Apply(s: Queue, m: Move): Queue
    requires Inv(s)
  {
    match m
    case BeginPush(v) => s.(writer := PushLoad(v))
    case Push => PushStep(s)
    case BeginPop => s.(reader := PopLoad)
    case Pop => PopStep(s)
  }

  lemma ApplyKeeps(s: Queue, m: Move)
    requires Inv(s) && Enabled(s, m)
    ensures Inv(Apply(s, m))
  {
    match m {
    case BeginPush(_) =>
    case Push => PushKeeps(s);
    case BeginPop =>
    case Pop => PopKeeps(s);
    }
  }

  /** The producer's store is the push; the consumer's store is the pop. */
  ghost function EventOf(s: Queue, m: Move): Event
    requires Inv(s)
  {
    if m.Push? && s.writer.StoreTail? then Pushed(s.writer.v)
    else if m.Pop? && s.reader.StoreHead? then Popped(s.pushed[s.taken])
    else Silent
  }

  lemma ApplyRefines(s: Queue, m: Move)
    requires Inv(s) && Enabled(s, m)
    ensures Allowed(Abs(s), EventOf(s, m), Abs(Apply(s, m)))
  {
  }

  /** The position claimed by a pop that has not returned yet. */
  ghost function Open(s: Queue): set<nat> {
    if s.reader.TakeValue? && s.taken > 0 then {s.taken - 1} else {}
  }

  /** What a move returns to the caller of `pop`, with the position that call claimed. */
  ghost function ReceiptOf(s: Queue, m: Move): Option<Receipt>
    requires Inv(s)
  {
    var r := Apply(s, m).reader;
    if m.Pop? && r.ReaderRest? && r.reply.Got?
    then Some(Receipt(if s.reader.TakeValue? then s.taken - 1 else |s.pushed|, r.reply.value)) else None
  }

  /** A pop event opens its own position; the pop closes it with the item of that event. */
  lemma ApplyServes(s: Queue, m: Move)
    requires Inv(s) && Enabled(s, m)
    ensures Serves(Abs(s), EventOf(s, m), ReceiptOf(s, m), Open(s), Open(Apply(s, m)))
  {
    if m.Pop? && s.reader.TakeValue? { PopAnswers(s); }
  }

  ghost predicate Sound(h: History<Queue>) { Inv(h.s) && Accounts(Abs(h.s), Open(h.s), h.record) }

  lemma FirstSound(s: Queue, r: Record)
    requires s == New() && |r.events| == 0 && |r.receipts| == 0
    ensures Sound(History(s, r))
  {
    NewKeeps(s);
    assert Open(s) == {};
    NothingDone(Abs(s), r);
  }

  ghost function Extend(h: History<Queue>, m: Move): (h': History<Queue>)
    requires Sound(h) && Enabled(h.s, m)
    ensures Sound(h')
  {
    ApplyKeeps(h.s, m);
    ApplyRefines(h.s, m);
    ApplyServes(h.s, m);
    AccountsNext(Abs(h.s), Open(h.s), h.record, EventOf(h.s, m), ReceiptOf(h.s, m),
                 Abs(Apply(h.s, m)), Open(Apply(h.s, m)));
    History(Apply(h.s, m), Then(h.record, EventOf(h.s, m), ReceiptOf(h.s, m)))
  }

  ghost function Run(ms: seq<Move>): (r: Option<History<Queue>>)
    ensures r.Some? ==> Sound(r.value)
  {
    if ms == [] then
      FirstSound(New(), Record([], []));
      Some(History(New(), Record([], [])))
    else
      var n := |ms| - 1;
      var r := Run(ms[..n]);
      if r.None? || !Enabled(r.value.s, ms[n]) then None else Some(Extend(r.value, ms[n]))
  }

  /**
   Over every run, however often the words wrap: first in, first out, at most one inside; and each pop
   returns the item of its own pop event, once.
   */
  lemma RunIsFifo(ms: seq<Move>)
    requires Run(ms).Some?
    ensures var r := Run(ms).value.record;
            && PoppedBy(r.events) <= PushedBy(r.events) && |PushedBy(r.events)| <= |PoppedBy(r.events)| + 1
            && InOrder(Open(Run(ms).value.s), r)
  {
    var h := Run(ms).value;
    FirstInFirstOut(Abs(h.s), h.record.events);
    AnsweredInOrder(Abs(h.s), Open(h.s), h.record);
  }

  // ------------------------------------------------------------------------ the queue, in place

  /** The queue as it sits in memory; each method is one access. */
  class Memory {
    var head: nat
    var tail: nat
    const slots: array<Option<Item>>
    var writer: Writer
    var reader: Reader
    ghost var pushed: seq<Item>
    ghost var taken: nat

    ghost function View(): Queue
      reads this, slots
    {
      Queue(head, tail, slots[..], writer, reader, pushed, taken)
    }

    constructor ()
      ensures View() == New() && Inv(View()) && fresh(slots)
    {
      head, tail := 0, 0;
      slots := new Option<Item>[2](_ => None);
      writer, reader, pushed, taken := WriterRest(false), ReaderRest(Empty), [], 0;
      new;
      assert slots[..] == New().slots;
    }

    /** `try_push`, one access at a time. */
    method TryPush()
      requires Inv(View()) && !writer.WriterRest?
      modifies this`head, this`tail, this`pushed, this`writer, slots
      ensures View() == PushStep(old(View())) && Inv(View())
    {
      PushKeeps(View());
      match writer {
      case PushLoad(v) => writer := if head == tail then WriteValue(v, head, tail) else WriterRest(false);
      case WriteValue(v, h, w) =>
        slots[Side(Bump(HALF, w))] := Some(v);
        writer := StoreTail(v, h, w);
      case StoreTail(v, h, w) =>
        head, tail := h, Bump(HALF, w);
        pushed, writer := pushed + [v], WriterRest(true);
      }
    }

    /** `_pop`, one access at a time. */
    method TryPop()
      requires Inv(View()) && !reader.ReaderRest?
      modifies this`head, this`tail, this`taken, this`reader
      ensures View() == PopStep(old(View())) && Inv(View())
      ensures old(reader).TakeValue? ==> old(taken) > 0 && reader == ReaderRest(Got(old(pushed[taken - 1])))
    {
      PopKeeps(View());
      match reader {
      case PopLoad =>
        EmptyTest(View());
        reader := if head == tail then ReaderRest(Empty) else StoreHead(head, tail);
      case StoreHead(h, w) =>
        head, tail, taken := w, w, taken + 1;
        reader := TakeValue(w);
      case TakeValue(w) =>
        PopAnswers(View());
        reader := ReaderRest(Got(slots[Side(w)].value));
      }
    }
  }
}
