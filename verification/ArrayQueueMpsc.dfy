/**
 `ArrayQueueMpsc`: the bounded queue for any number of producers and one consumer.

 Each side keeps its own end and a stale copy of the other side's end, packed in one word that is
 read and written as a whole. The copies let a push or a pop skip loading the other side; what
 makes that safe is the chain
   head_cached <= head <= tail_cached <= tail <= head_cached + capacity
 on the positions the words stand for, which `Shape` states and every step keeps.
 */
module ArrayQueueMpsc {
  import opened Base
  import opened AbstractFifo
  import opened LapRing

  /** A slot; it serves position `turn`, which has been written if `full`. */
  datatype Slot = Slot(stamp: nat, value: Option<Item>, turn: nat, full: bool, user: Option<Tid>)

  datatype Answer = Sent | Full | Unsure

  /** A producer: `w` is the sender word loaded, standing for tail `q` and cached head `k`. */
  datatype Call =
    | Done(answer: Answer)
    | LoadSender(v: Item, once: bool)
    | LoadRecv(v: Item, once: bool, w: Cursor, q: nat, k: nat)
    | MoveSender(v: Item, once: bool, w: Cursor, q: nat, k: nat, head: nat, f: nat)
    | WriteValue(v: Item, tail: nat, q: nat)
    | Publish(v: Item, tail: nat, q: nat)

  datatype Reply = Got(value: Item) | Empty | Missed

  /** The consumer: `w` is the head word, `tw` the tail word to cache, standing for `c`. */
  datatype Reader =
    | Rest(reply: Reply)
    | LoadOwn(spin: bool)
    | LoadTail(w: nat)
    | AwaitStamp(w: nat, tw: nat, c: nat)
    | TakeValue(w: nat, tw: nat, c: nat)
    | StoreRecv(w: nat, tw: nat, c: nat, v: Item)

  datatype Queue = Queue(
    ring: Ring, sender: Cursor, recv: Cursor, slots: seq<Slot>, calls: map<Tid, Call>, reader: Reader,
    pushed: seq<Item>, taken: nat, headCached: nat, tailCached: nat)

  function New(g: Ring): (s: Queue)
    requires g.Valid()
  {
    Queue(g, Cursor(0, 0), Cursor(0, 0), seq(g.cap, (i: nat) => Slot(i, None, i, false, None)),
          map[], Rest(Missed), [], 0, 0, 0)
  }

  ghost predicate Shape(s: Queue) {
    && s.ring.Valid()
    && |s.slots| == s.ring.cap
    && s.sender == Cursor(s.ring.Word(s.headCached), s.ring.Word(|s.pushed|))
    && s.recv == Cursor(s.ring.Word(s.tailCached), s.ring.Word(s.taken))
    && s.headCached <= s.taken <= s.tailCached <= |s.pushed| <= s.headCached + s.ring.cap
  }

  ghost function At(s: Queue, p: nat): (r: Slot)
    requires Shape(s)
  {
    Layout(s.ring, p);
    s.slots[s.ring.Index(p)]
  }

  predicate Writing(c: Call, q: nat) {
    (c.WriteValue? || c.Publish?) && c.q == q
  }

  /** The stamp a slot shows before position `p` is written: the previous lap's, or its own index. */
  ghost function Stale(g: Ring, p: nat): nat
    requires g.Valid()
  {
    if p < g.cap then p else g.Word(p - g.cap) + 1
  }

  ghost predicate SlotInv(s: Queue, i: nat)
    requires Shape(s) && i < s.ring.cap
  {
    var x := s.slots[i];
    && s.ring.Index(x.turn) == i
    && s.taken <= x.turn < s.taken + s.ring.cap
    && (x.full ==>
          && x.stamp == s.ring.Word(x.turn) + 1
          && x.turn < |s.pushed|
          && x.value == Some(s.pushed[x.turn])
          && x.user.None?)
    && (!x.full ==>
          && x.stamp == Stale(s.ring, x.turn)
          && (x.user.None? <==> |s.pushed| <= x.turn)
          && (x.user.Some? ==> x.user.value in s.calls && Writing(s.calls[x.user.value], x.turn)))
  }

  ghost predicate CallInv(s: Queue, t: Tid)
    requires Shape(s) && t in s.calls
  {
    match s.calls[t]
    case LoadRecv(_, _, w, q, k) =>
      && w == Cursor(s.ring.Word(k), s.ring.Word(q))
      && q == k + s.ring.cap && q <= |s.pushed| && k <= s.headCached
    case MoveSender(_, _, w, q, k, head, f) =>
      && w == Cursor(s.ring.Word(k), s.ring.Word(q)) && head == s.ring.Word(f)
      && q <= |s.pushed| && q <= k + s.ring.cap && k <= s.headCached
      && k <= f <= s.taken && q < f + s.ring.cap
    case WriteValue(v, w, q) =>
      && w == s.ring.Word(q) && q < |s.pushed| && v == s.pushed[q]
      && At(s, q).turn == q && !At(s, q).full && At(s, q).user == Some(t)
    case Publish(v, w, q) =>
      && w == s.ring.Word(q) && q < |s.pushed| && v == s.pushed[q]
      && At(s, q).turn == q && !At(s, q).full && At(s, q).user == Some(t)
      && At(s, q).value == Some(v)
    case _ => true
  }

  ghost predicate ReaderInv(s: Queue)
    requires Shape(s)
  {
    match s.reader
    case LoadTail(w) => w == s.ring.Word(s.taken) && s.tailCached == s.taken
    case AwaitStamp(w, tw, c) =>
      w == s.ring.Word(s.taken) && tw == s.ring.Word(c) && s.taken < c <= |s.pushed|
    case TakeValue(w, tw, c) =>
      && w == s.ring.Word(s.taken) && tw == s.ring.Word(c) && s.taken < c <= |s.pushed|
      && At(s, s.taken).full
    case StoreRecv(w, tw, c, v) =>
      && w == s.ring.Word(s.taken) && tw == s.ring.Word(c) && s.taken < c <= |s.pushed|
      && At(s, s.taken).full && v == s.pushed[s.taken]
    case _ => true
  }

  ghost predicate Inv(s: Queue) {
    && Shape(s)
    && (forall i: nat :: i < s.ring.cap ==> SlotInv(s, i))
    && (forall t :: t in s.calls ==> CallInv(s, t))
    && ReaderInv(s)
  }

  predicate Active(s: Queue, t: Tid) {
    t in s.calls && !s.calls[t].Done?
  }

  /** The scheduling assumption: no producer sleeps across almost all the laps of a word. */
  predicate Awake(s: Queue, c: Call) {
    c.LoadRecv? || c.MoveSender? ==> |s.pushed| + s.ring.cap < c.q + s.ring.Period()
  }

  // ------------------------------------------------------------------------------------ producers

  function Goto(s: Queue, t: Tid, c: Call): Queue {
    s.(calls := s.calls[t := c])
  }

  /** What a producer does with the sender word it has just seen: refresh the cache, or try. */
  function Dispatch(s: Queue, v: Item, once: bool): Call
    requires s.ring.Valid()
  {
    var w := s.sender;
    if s.ring.AddLap(w.cached) == w.at then LoadRecv(v, once, w, |s.pushed|, s.headCached)
    else MoveSender(v, once, w, |s.pushed|, s.headCached, w.cached, s.headCached)
  }

  /** One access of `push_with_ptr`, `try_push_oneshot` or `_try_push`. */
  function PushStep(s: Queue, t: Tid, spurious: bool): Queue
    requires Inv(s) && Active(s, t)
  {
    assert CallInv(s, t);
    match s.calls[t]
    case Done(_) => s
    case LoadSender(v, once) => Goto(s, t, Dispatch(s, v, once))
    case LoadRecv(v, once, w, q, k) =>
      Goto(s, t, if s.recv.at == w.cached then Done(Full)
                 else MoveSender(v, once, w, q, k, s.recv.at, s.taken))
    case MoveSender(v, once, w, q, k, head, f) =>
      if s.sender == w && !spurious then Claim(s, t)
      else Goto(s, t, if once then Done(Unsure) else Dispatch(s, v, once))
    case WriteValue(v, w, q) =>
      WordForm(s.ring, q);
      var i := s.ring.Slot(w);
      s.(slots := s.slots[i := s.slots[i].(value := Some(v))], calls := s.calls[t := Publish(v, w, q)])
    case Publish(v, w, q) =>
      WordForm(s.ring, q);
      var i := s.ring.Slot(w);
      s.(slots := s.slots[i := s.slots[i].(stamp := w + 1, full := true, user := None)],
         calls := s.calls[t := Done(Sent)])
  }

  /** The exchange on the sender word succeeded: the tail is claimed and the cached head refreshed. */
  function Claim(s: Queue, t: Tid): Queue
    requires Inv(s) && t in s.calls && s.calls[t].MoveSender?
  {
    var MoveSender(v, once, w, q, k, head, f) := s.calls[t];
    assert CallInv(s, t);
    WordForm(s.ring, q);
    var i := s.ring.Slot(w.at);
    s.(sender := Cursor(head, s.ring.Next(w.at)), headCached := f,
       pushed := s.pushed + [v],
       slots := s.slots[i := s.slots[i].(user := Some(t))],
       calls := s.calls[t := WriteValue(v, w.at, q)])
  }

  // ------------------------------------------------------------------------------------- consumer

  /** One access of `_start_read`, `_read`, `pop`, `pop_cached` or `read`. */
  function PopStep(s: Queue): Queue
    requires Inv(s)
  {
    WordForm(s.ring, s.taken);
    match s.reader
    case Rest(_) => s
    case LoadOwn(spin) =>
      s.(reader := if s.recv.cached != s.recv.at then AwaitStamp(s.recv.at, s.recv.cached, s.tailCached)
                   else if spin then LoadTail(s.recv.at) else Rest(Missed))
    case LoadTail(w) =>
      s.(reader := if w == s.sender.at then Rest(Empty) else AwaitStamp(w, s.sender.at, |s.pushed|))
    case AwaitStamp(w, tw, c) =>
      if s.slots[s.ring.Slot(w)].stamp == w + 1 then s.(reader := TakeValue(w, tw, c)) else s
    case TakeValue(w, tw, c) =>
      assert SlotInv(s, s.ring.Index(s.taken));
      s.(reader := StoreRecv(w, tw, c, s.slots[s.ring.Slot(w)].value.value))
    case StoreRecv(w, tw, c, v) => FreeSlot(s)
  }

  /** The store to `recv` that frees the slot of the head. */
  function FreeSlot(s: Queue): Queue
    requires Inv(s) && s.reader.StoreRecv?
  {
    var StoreRecv(w, tw, c, v) := s.reader;
    WordForm(s.ring, s.taken);
    var i := s.ring.Slot(w);
    s.(recv := Cursor(tw, s.ring.Next(w)), tailCached := c, taken := s.taken + 1,
       slots := s.slots[i := s.slots[i].(turn := s.taken + s.ring.cap, full := false)],
       reader := Rest(Got(v)))
  }

  // ---------------------------------------------------------------- every step keeps the invariant

  lemma NewKeeps(g: Ring)
    requires g.Valid()
    ensures Inv(New(g))
  {
    var s := New(g);
    forall i: nat | i < g.cap ensures SlotInv(s, i) { LayoutUnique(g, i, 0, i); }
  }

  lemma GotoKeeps(s: Queue, t: Tid, c: Call)
    requires Inv(s) && (t in s.calls ==> !s.calls[t].WriteValue? && !s.calls[t].Publish?)
    requires !c.WriteValue? && !c.Publish? && CallInv(Goto(s, t, c), t)
    ensures Inv(Goto(s, t, c))
  {
    var s' := Goto(s, t, c);
    forall i: nat | i < s.ring.cap ensures SlotInv(s', i) { assert SlotInv(s, i); }
    forall u | u in s'.calls ensures CallInv(s', u) {
      if u != t { assert CallInv(s, u); }
    }
  }

  /** The slot of a position in the window starting at the head serves that very position. */
  lemma SlotInWindow(s: Queue, p: nat)
    requires Inv(s) && s.taken <= p < s.taken + s.ring.cap
    ensures At(s, p).turn == p
  {
    Layout(s.ring, p);
    assert SlotInv(s, s.ring.Index(p));
    var x := At(s, p);
    if x.turn < p { SameSlot(s.ring, x.turn, p); }
    if p < x.turn { SameSlot(s.ring, p, x.turn); }
  }

  lemma ClaimKeeps(s: Queue, t: Tid)
    requires Inv(s) && t in s.calls && s.calls[t].MoveSender? && Awake(s, s.calls[t])
    requires s.sender == s.calls[t].w
    ensures s.calls[t].q == |s.pushed| < s.taken + s.ring.cap
    ensures Inv(Claim(s, t))
  {
    var g, c, s' := s.ring, s.calls[t], Claim(s, t);
    assert CallInv(s, t);
    WordInjective(g, c.q, |s.pushed|);
    WordInjective(g, c.k, s.headCached);
    WordForm(g, c.q);
    WordNext(g, c.q);
    SlotInWindow(s, c.q);
    assert SlotInv(s, g.Index(c.q));
    forall i: nat | i < g.cap ensures SlotInv(s', i) { assert SlotInv(s, i); }
    ClaimKeepsOthers(s, s', t, g.Index(c.q));
  }

  lemma ClaimKeepsOthers(s: Queue, s': Queue, t: Tid, i: nat)
    requires Inv(s) && Shape(s') && s'.ring == s.ring && i < s.ring.cap && s.slots[i].user.None?
    requires s'.slots == s.slots[i := s.slots[i].(user := Some(t))]
    requires s.pushed <= s'.pushed && s.taken == s'.taken && s.headCached <= s'.headCached
    requires s.tailCached == s'.tailCached && s.reader == s'.reader
    requires t in s'.calls && s'.calls == s.calls[t := s'.calls[t]]
    ensures forall u :: u in s'.calls && u != t ==> CallInv(s', u)
    ensures ReaderInv(s')
  {
    forall u | u in s'.calls && u != t ensures CallInv(s', u) { assert CallInv(s, u); }
  }

  /** A producer may do anything to the slot it has claimed: nobody else relies on it. */
  lemma OwnSlotKeeps(s: Queue, t: Tid, i: nat, x: Slot, c: Call)
    requires Inv(s) && i < s.ring.cap && s.slots[i].user == Some(t) && t in s.calls
    requires var s' := s.(slots := s.slots[i := x], calls := s.calls[t := c]);
             SlotInv(s', i) && CallInv(s', t)
    ensures Inv(s.(slots := s.slots[i := x], calls := s.calls[t := c]))
  {
    var s' := s.(slots := s.slots[i := x], calls := s.calls[t := c]);
    assert SlotInv(s, i);
    assert CallInv(s, t);
    forall j: nat | j < s.ring.cap ensures SlotInv(s', j) { assert SlotInv(s, j); }
    forall u | u in s'.calls ensures CallInv(s', u) {
      if u != t { assert CallInv(s, u); }
    }
  }

  lemma FillKeeps(s: Queue, t: Tid, spurious: bool)
    requires Inv(s) && t in s.calls && (s.calls[t].WriteValue? || s.calls[t].Publish?)
    ensures Inv(PushStep(s, t, spurious))
  {
    var g, c := s.ring, s.calls[t];
    assert CallInv(s, t);
    WordForm(g, c.q);
    var i := g.Index(c.q);
    assert SlotInv(s, i);
    if c.WriteValue? {
      OwnSlotKeeps(s, t, i, s.slots[i].(value := Some(c.v)), Publish(c.v, c.tail, c.q));
    } else {
      OwnSlotKeeps(s, t, i, s.slots[i].(stamp := c.tail + 1, full := true, user := None), Done(Sent));
    }
  }

  /** The cached head shows "full" exactly when the tail is a whole capacity past it. */
  lemma DispatchKeeps(s: Queue, t: Tid, v: Item, once: bool)
    requires Inv(s) && (t in s.calls ==> !s.calls[t].WriteValue? && !s.calls[t].Publish?)
    ensures Inv(Goto(s, t, Dispatch(s, v, once)))
    ensures Dispatch(s, v, once).LoadRecv? <==> |s.pushed| == s.headCached + s.ring.cap
  {
    FullTest(s.ring, s.headCached, |s.pushed|);
    GotoKeeps(s, t, Dispatch(s, v, once));
  }

  lemma PushKeeps(s: Queue, t: Tid, spurious: bool)
    requires Inv(s) && Active(s, t) && Awake(s, s.calls[t])
    ensures Inv(PushStep(s, t, spurious))
  {
    var c := s.calls[t];
    assert CallInv(s, t);
    if c.LoadSender? { DispatchKeeps(s, t, c.v, c.once); }
    else if c.LoadRecv? {
      WordInjective(s.ring, c.k, s.taken);
      GotoKeeps(s, t, PushStep(s, t, spurious).calls[t]);
    } else if c.MoveSender? {
      if s.sender == c.w && !spurious { ClaimKeeps(s, t); }
      else if c.once { GotoKeeps(s, t, Done(Unsure)); }
      else { DispatchKeeps(s, t, c.v, c.once); }
    } else { FillKeeps(s, t, spurious); }
  }

  /** The stamp of the head's slot shows whether its item has been written. */
  lemma HeadStamp(s: Queue)
    requires Inv(s)
    ensures At(s, s.taken).turn == s.taken
    ensures At(s, s.taken).stamp == s.ring.Word(s.taken) + 1 <==> At(s, s.taken).full
  {
    var g, h := s.ring, s.taken;
    SlotInWindow(s, h);
    Layout(g, h);
    assert SlotInv(s, g.Index(h));
    if h < g.cap {
      LayoutUnique(g, h, 0, h);
      WordForm(g, h);
    } else {
      MulLeft(2, g.laps, g.cap);
      WordInjective(g, h - g.cap, h);
    }
  }

  lemma FreeSlotKeeps(s: Queue)
    requires Inv(s) && s.reader.StoreRecv?
    ensures Inv(FreeSlot(s))
  {
    var g, h, s' := s.ring, s.taken, FreeSlot(s);
    WordForm(g, h);
    WordNext(g, h);
    NextLap(g, h);
    SlotInWindow(s, h);
    assert SlotInv(s, g.Index(h));
    forall i: nat | i < g.cap ensures SlotInv(s', i) { assert SlotInv(s, i); }
    forall u | u in s'.calls ensures CallInv(s', u) { FreedKeepsCall(s, s', u, g.Index(h)); }
  }

  /** A producer does not mind the consumer freeing a full slot. */
  lemma FreedKeepsCall(s: Queue, s': Queue, u: Tid, i: nat)
    requires Inv(s) && Shape(s') && i < s.ring.cap && s.slots[i].full && u in s.calls && s'.calls == s.calls
    requires s'.ring == s.ring && s'.pushed == s.pushed && s.taken <= s'.taken && s'.headCached == s.headCached
    requires forall j: nat :: j < s.ring.cap && j != i ==> s'.slots[j] == s.slots[j]
    ensures CallInv(s', u)
  {
    assert CallInv(s, u);
  }

  lemma PopKeeps(s: Queue)
    requires Inv(s)
    ensures Inv(PopStep(s))
  {
    if s.reader.StoreRecv? { FreeSlotKeeps(s); }
    else {
      WordForm(s.ring, s.taken);
      FullTest(s.ring, s.taken, s.tailCached);
      FullTest(s.ring, s.taken, |s.pushed|);
      HeadStamp(s);
      assert SlotInv(s, s.ring.Index(s.taken));
      ReaderKeeps(s, PopStep(s).reader);
    }
  }

  // ------------------------------------------------------------------ what the invariant promises

  /**
   A producer that holds a slot holds it alone, the consumer has released it, and the consumer is
   not reading it.
   */
  lemma WriterAlone(s: Queue, t: Tid, q: nat)
    requires Inv(s) && t in s.calls && Writing(s.calls[t], q)
    ensures s.taken <= q < s.taken + s.ring.cap
    ensures forall u, p :: u in s.calls && u != t && Writing(s.calls[u], p) ==>
              s.ring.Index(p) != s.ring.Index(q)
    ensures s.reader.TakeValue? || s.reader.StoreRecv? ==> s.ring.Index(s.taken) != s.ring.Index(q)
  {
    assert CallInv(s, t);
    Layout(s.ring, q);
    assert SlotInv(s, s.ring.Index(q));
    forall u, p | u in s.calls && u != t && Writing(s.calls[u], p)
      ensures s.ring.Index(p) != s.ring.Index(q)
    {
      assert CallInv(s, u);
    }
  }

  /** "Full" is reported exactly when the queue is full at the instant of the load. */
  lemma FullReport(s: Queue, t: Tid)
    requires Inv(s) && Active(s, t) && s.calls[t].LoadRecv? && Awake(s, s.calls[t])
    ensures PushStep(s, t, false).calls[t] == Done(Full) <==>
            |s.pushed| - s.taken == s.ring.cap && s.calls[t].q == |s.pushed|
  {
    assert CallInv(s, t);
    WordInjective(s.ring, s.calls[t].k, s.taken);
  }

  /** "Empty" is reported exactly when the queue is empty at the instant of the load. */
  lemma EmptyReport(s: Queue)
    requires Inv(s) && s.reader.LoadTail?
    ensures PopStep(s).reader == Rest(Empty) <==> |s.pushed| == s.taken
  {
    FullTest(s.ring, s.taken, |s.pushed|);
  }

  /** "Sent" is answered only for an item whose position is claimed and whose value is in its slot. */
  lemma SentReport(s: Queue, t: Tid, spurious: bool)
    requires Inv(s) && Active(s, t)
    ensures PushStep(s, t, spurious).calls[t] == Done(Sent) ==>
              && s.calls[t].Publish? && s.calls[t].q < |s.pushed|
              && s.pushed[s.calls[t].q] == s.calls[t].v
              && At(s, s.calls[t].q).value == Some(s.calls[t].v)
  {
    assert CallInv(s, t);
  }

  /** How far a producer still has to go if nobody moves the sender word under it. */
  function Rank(c: Call): nat {
    match c
    case LoadSender(_, _) => 5
    case LoadRecv(_, _, _, _, _) => 4
    case MoveSender(_, _, _, _, _, _, _) => 3
    case WriteValue(_, _, _) => 2
    case Publish(_, _, _) => 1
    case Done(_) => 0
  }

  /** Undisturbed, every step of a push brings it nearer its end; it never waits for anyone. */
  lemma PushAdvances(s: Queue, t: Tid)
    requires Inv(s) && Active(s, t) && Awake(s, s.calls[t])
    requires s.calls[t].MoveSender? ==> s.calls[t].w == s.sender
    ensures Rank(PushStep(s, t, false).calls[t]) < Rank(s.calls[t])
  {
  }

  /** A pop waits only for the producer that claimed the head's slot. */
  lemma PopWaits(s: Queue)
    requires Inv(s) && s.reader.AwaitStamp?
    ensures PopStep(s).reader.TakeValue? <==> At(s, s.taken).full
    ensures PopStep(s) == s ==>
              exists t :: t in s.calls && Writing(s.calls[t], s.taken)
  {
    HeadStamp(s);
    WordForm(s.ring, s.taken);
    assert SlotInv(s, s.ring.Index(s.taken));
  }

  // -------------------------------------------------------------------------- refinement and runs

  ghost function Abs(s: Queue): Fifo {
    Fifo(Some(s.ring.cap), s.pushed, s.taken)
  }

  /** Some producer starts a push or takes its next step; the consumer starts a pop or takes its. */
  datatype Move = BeginPush(t: Tid, v: Item, once: bool) | Push(t: Tid, spurious: bool) | BeginPop(spin: bool) | Pop

  ghost predicate Enabled(s: Queue, m: Move) {
    match m
    case BeginPush(t, _, _) => !Active(s, t)
    case Push(t, _) => Active(s, t) && Awake(s, s.calls[t])
    case BeginPop(_) => s.reader.Rest?
    case Pop => !s.reader.Rest?
  }

  function Apply(s: Queue, m: Move): Queue
    requires Inv(s) && Enabled(s, m)
  {
    match m
    case BeginPush(t, v, once) => Goto(s, t, LoadSender(v, once))
    case Push(t, spurious) => PushStep(s, t, spurious)
    case BeginPop(spin) => s.(reader := LoadOwn(spin))
    case Pop => PopStep(s)
  }

  lemma ApplyKeeps(s: Queue, m: Move)
    requires Inv(s) && Enabled(s, m)
    ensures Inv(Apply(s, m)) && Apply(s, m).ring == s.ring
  {
    match m
    case BeginPush(t, v, once) => GotoKeeps(s, t, LoadSender(v, once));
    case Push(t, spurious) => PushKeeps(s, t, spurious);
    case BeginPop(spin) => ReaderKeeps(s, LoadOwn(spin));
    case Pop => PopKeeps(s);
  }

  lemma ReaderKeeps(s: Queue, r: Reader)
    requires Inv(s) && ReaderInv(s.(reader := r))
    ensures Inv(s.(reader := r))
  {
    var s' := s.(reader := r);
    forall i: nat | i < s.ring.cap ensures SlotInv(s', i) { assert SlotInv(s, i); }
    forall u | u in s'.calls ensures CallInv(s', u) { assert CallInv(s, u); }
  }

  /** The successful exchange is the push; the store that frees the slot is the pop. */
  ghost function EventOf(s: Queue, m: Move): Event
    requires Inv(s) && Enabled(s, m)
  {
    if m.Push? && s.calls[m.t].MoveSender? && s.sender == s.calls[m.t].w && !m.spurious
    then Pushed(s.calls[m.t].v)
    else if m.Pop? && s.reader.StoreRecv? then Popped(s.reader.v)
    else Silent
  }

  lemma ApplyRefines(s: Queue, m: Move)
    requires Inv(s) && Enabled(s, m)
    ensures Allowed(Abs(s), EventOf(s, m), Abs(Apply(s, m)))
  {
    if EventOf(s, m).Pushed? { ClaimKeeps(s, m.t); }
  }

  ghost function Run(g: Ring, ms: seq<Move>): (r: Option<Queue>)
    requires g.Valid()
    ensures r.Some? ==> Inv(r.value) && r.value.ring == g
  {
    if ms == [] then NewKeeps(g); Some(New(g))
    else
      var r := Run(g, ms[..|ms| - 1]);
      var m := ms[|ms| - 1];
      if r.None? || !Enabled(r.value, m) then None
      else ApplyKeeps(r.value, m); Some(Apply(r.value, m))
  }

  ghost function Events(g: Ring, ms: seq<Move>): seq<Event>
    requires g.Valid() && Run(g, ms).Some?
  {
    if ms == [] then []
    else Events(g, ms[..|ms| - 1]) + [EventOf(Run(g, ms[..|ms| - 1]).value, ms[|ms| - 1])]
  }

  /** Every run with any number of producers is a run of the bounded FIFO. */
  lemma {:induction false} RunIsFifo(g: Ring, ms: seq<Move>)
    requires g.Valid() && Run(g, ms).Some?
    ensures Explains(Abs(Run(g, ms).value), Events(g, ms))
    ensures PoppedBy(Events(g, ms)) <= PushedBy(Events(g, ms))
    ensures |PushedBy(Events(g, ms))| - |PoppedBy(Events(g, ms))| <= g.cap
  {
    if ms != [] {
      var ms', m := ms[..|ms| - 1], ms[|ms| - 1];
      RunIsFifo(g, ms');
      var s := Run(g, ms').value;
      ApplyRefines(s, m);
      ExplainsNext(Abs(s), Events(g, ms'), EventOf(s, m), Abs(Apply(s, m)));
    }
    FirstInFirstOut(Abs(Run(g, ms).value), Events(g, ms));
  }

  // ------------------------------------------------------------------------ the queue, in place

  /** The queue as it sits in memory; each method is one access by one thread. */
  class Memory {
    const ring: Ring
    var sender: Cursor
    var recv: Cursor
    var slots: array<Slot>
    var calls: map<Tid, Call>
    var reader: Reader
    var pushed: seq<Item>
    var taken: nat
    var headCached: nat
    var tailCached: nat

    ghost function View(): Queue
      reads this, slots
    {
      Queue(ring, sender, recv, slots[..], calls, reader, pushed, taken, headCached, tailCached)
    }

    constructor (g: Ring)
      requires g.Valid()
      ensures View() == New(g) && Inv(View()) && fresh(slots)
    {
      ring := g;
      sender, recv, calls, reader := Cursor(0, 0), Cursor(0, 0), map[], Rest(Missed);
      pushed, taken, headCached, tailCached := [], 0, 0, 0;
      slots := new Slot[g.cap]((i: nat) => Slot(i, None, i, false, None));
      new;
      assert slots[..] == New(g).slots;
      NewKeeps(g);
    }

    ghost predicate Ready(t: Tid)
      reads this, slots
    {
      Inv(View()) && Active(View(), t) && Awake(View(), calls[t])
    }

    method BeginPushing(t: Tid, v: Item, once: bool)
      requires Inv(View()) && !Active(View(), t)
      modifies this`calls
      ensures View() == Apply(old(View()), BeginPush(t, v, once)) && Inv(View())
    {
      ApplyKeeps(View(), BeginPush(t, v, once));
      calls := calls[t := LoadSender(v, once)];
    }

    /** The call that follows a look at the sender word. */
    method See(v: Item, once: bool) returns (c: Call)
      requires Inv(View())
      ensures c == Dispatch(View(), v, once)
    {
      if ring.AddLap(sender.cached) == sender.at { c := LoadRecv(v, once, sender, |pushed|, headCached); }
      else { c := MoveSender(v, once, sender, |pushed|, headCached, sender.cached, headCached); }
    }

    method PushLoad(t: Tid)
      requires Ready(t) && (calls[t].LoadSender? || calls[t].LoadRecv?)
      modifies this`calls
      ensures View() == PushStep(old(View()), t, false) && Inv(View())
    {
      PushKeeps(View(), t, false);
      var c := calls[t];
      if c.LoadSender? { c := See(c.v, c.once); }
      else if recv.at == c.w.cached { c := Done(Full); }
      else { c := MoveSender(c.v, c.once, c.w, c.q, c.k, recv.at, taken); }
      calls := calls[t := c];
    }

    method ExchangeSender(t: Tid, spurious: bool)
      requires Ready(t) && calls[t].MoveSender?
      modifies this`sender, this`headCached, this`pushed, this`calls, slots
      ensures View() == PushStep(old(View()), t, spurious) && Inv(View())
    {
      PushKeeps(View(), t, spurious);
      assert CallInv(View(), t);
      var c := calls[t];
      if sender == c.w && !spurious {
        WordForm(ring, c.q);
        var i := ring.Slot(c.w.at);
        sender, headCached := Cursor(c.head, ring.Next(c.w.at)), c.f;
        pushed := pushed + [c.v];
        slots[i] := slots[i].(user := Some(t));
        calls := calls[t := WriteValue(c.v, c.w.at, c.q)];
        assert slots[..] == old(slots[..])[i := slots[i]];
      } else if c.once {
        calls := calls[t := Done(Unsure)];
      } else {
        var d := See(c.v, c.once);
        calls := calls[t := d];
      }
    }

    method FillSlot(t: Tid)
      requires Ready(t) && (calls[t].WriteValue? || calls[t].Publish?)
      modifies this`calls, slots
      ensures View() == PushStep(old(View()), t, false) && Inv(View())
    {
      PushKeeps(View(), t, false);
      assert CallInv(View(), t);
      var c := calls[t];
      WordForm(ring, c.q);
      var i := ring.Slot(c.tail);
      if c.WriteValue? {
        slots[i] := slots[i].(value := Some(c.v));
        calls := calls[t := Publish(c.v, c.tail, c.q)];
      } else {
        slots[i] := slots[i].(stamp := c.tail + 1, full := true, user := None);
        calls := calls[t := Done(Sent)];
      }
      assert slots[..] == old(slots[..])[i := slots[i]];
    }

    /** The consumer starts a `pop`, or a `pop_cached` (`spin` false). */
    method BeginPopping(spin: bool)
      requires Inv(View()) && reader.Rest?
      modifies this`reader
      ensures View() == Apply(old(View()), BeginPop(spin)) && Inv(View())
    {
      ApplyKeeps(View(), BeginPop(spin));
      reader := LoadOwn(spin);
    }

    method PopLoad()
      requires Inv(View()) && !reader.Rest? && !reader.StoreRecv?
      modifies this`reader
      ensures View() == PopStep(old(View())) && Inv(View())
    {
      PopKeeps(View());
      WordForm(ring, taken);
      match reader
      case LoadOwn(spin) =>
        if recv.cached != recv.at { reader := AwaitStamp(recv.at, recv.cached, tailCached); }
        else { reader := if spin then LoadTail(recv.at) else Rest(Missed); }
      case LoadTail(w) =>
        reader := if w == sender.at then Rest(Empty) else AwaitStamp(w, sender.at, |pushed|);
      case AwaitStamp(w, tw, c) =>
        if slots[ring.Slot(w)].stamp == w + 1 { reader := TakeValue(w, tw, c); }
      case TakeValue(w, tw, c) =>
        assert SlotInv(View(), ring.Index(taken));
        reader := StoreRecv(w, tw, c, slots[ring.Slot(w)].value.value);
    }

    method Free()
      requires Inv(View()) && reader.StoreRecv?
      modifies this`recv, this`tailCached, this`taken, this`reader, slots
      ensures View() == PopStep(old(View())) && Inv(View())
    {
      PopKeeps(View());
      WordForm(ring, taken);
      var i := ring.Slot(reader.w);
      slots[i] := slots[i].(turn := taken + ring.cap, full := false);
      recv, tailCached := Cursor(reader.tw, ring.Next(reader.w)), reader.c;
      taken := taken + 1;
      reader := Rest(Got(reader.v));
      assert slots[..] == old(slots[..])[i := slots[i]];
    }
  }
}
