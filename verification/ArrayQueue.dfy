/**
 `ArrayQueue`: the bounded queue for any number of producers and consumers.

 The state is what the code keeps in memory: the `head` and `tail` words, one stamp and one value
 per slot, and, for every thread inside a call, the point it has reached with its local variables.
 One step of a thread is one atomic access. Beside the words the state carries the unbounded
 positions they stand for (`pushed`, `taken`, a slot's `turn` and `full`, the `q` and `h` of a
 call) and, for a slot, the call that is using it; no branch of the code looks at those.
 */
module ArrayQueue {
  import opened Base
  import opened AbstractFifo
  import opened LapRing

  /** A slot; it serves position `turn`, which has been written (and its stamp raised) if `full`. */
  datatype Slot = Slot(stamp: nat, value: Option<Item>, turn: nat, full: bool, user: Option<Tid>)

  datatype Answer = Sent | Full | Unsure | Got(value: Item) | Empty | Length(n: int)

  /**
   The point a call has reached: its name is the next access. `w` is the word last loaded and `q`
   (or `h`) the position it stood for; `once` marks `try_push_oneshot`.
   */
  datatype Call =
    | Done(answer: Answer)
    | LoadTail(v: Item, once: bool)
    | CheckFull(v: Item, once: bool, w: nat, q: nat)
    | InspectFree(v: Item, once: bool, w: nat, q: nat)
    | MoveTail(v: Item, once: bool, w: nat, q: nat)
    | WriteValue(v: Item, w: nat, q: nat)
    | Publish(w: nat, q: nat)
    | LoadHead
    | InspectItem(w: nat, h: nat)
    | CheckEmpty(w: nat, h: nat)
    | MoveHead(w: nat, h: nat)
    | ReadValue(w: nat, h: nat)
    | Release(w: nat, h: nat, v: Item)
    | LenTail
    | LenHead(w: nat, q: nat)
    | LenAgain(w: nat, q: nat, hw: nat, h: nat, was: int)

  datatype Queue = Queue(
    ring: Ring, head: nat, tail: nat, slots: seq<Slot>, calls: map<Tid, Call>,
    pushed: seq<Item>, taken: nat)

  /** `new`. */
  function New(g: Ring): (s: Queue)
    requires g.Valid()
  {
    Queue(g, 0, 0, seq(g.cap, (i: nat) => Slot(i, None, i, false, None)), map[], [], 0)
  }

  ghost predicate Shape(s: Queue) {
    && s.ring.Valid()
    && |s.slots| == s.ring.cap
    && s.head == s.ring.Word(s.taken)
    && s.tail == s.ring.Word(|s.pushed|)
    && s.taken <= |s.pushed| <= s.taken + s.ring.cap
  }

  /** Where the slot of position `p` is. */
  ghost function At(s: Queue, p: nat): (r: Slot)
    requires Shape(s)
  {
    Layout(s.ring, p);
    s.slots[s.ring.Index(p)]
  }

  /** `t` has claimed position `q` for writing, or `h` for reading, and not yet given it up. */
  predicate Writing(c: Call, q: nat) {
    (c.WriteValue? || c.Publish?) && c.q == q
  }

  predicate Reading(c: Call, h: nat) {
    (c.ReadValue? || c.Release?) && c.h == h
  }

  ghost predicate SlotInv(s: Queue, i: nat)
    requires Shape(s) && i < s.ring.cap
  {
    var x := s.slots[i];
    && s.ring.Index(x.turn) == i
    && |s.pushed| <= x.turn + s.ring.cap
    && (x.full ==>
          && x.stamp == s.ring.Word(x.turn) + 1
          && x.turn < |s.pushed|
          && x.value == Some(s.pushed[x.turn])
          && (x.user.None? <==> s.taken <= x.turn)
          && (x.user.Some? ==> x.user.value in s.calls && Reading(s.calls[x.user.value], x.turn)))
    && (!x.full ==>
          && x.stamp == s.ring.Word(x.turn)
          && s.taken <= x.turn < s.taken + s.ring.cap
          && (x.user.None? <==> |s.pushed| <= x.turn)
          && (x.user.Some? ==> x.user.value in s.calls && Writing(s.calls[x.user.value], x.turn)))
  }

  ghost predicate CallInv(s: Queue, t: Tid)
    requires Shape(s) && t in s.calls
  {
    match s.calls[t]
    case CheckFull(_, _, w, q) => w == s.ring.Word(q) && q <= |s.pushed|
    case InspectFree(_, _, w, q) => w == s.ring.Word(q) && q <= |s.pushed|
    case MoveTail(_, _, w, q) =>
      && w == s.ring.Word(q) && q <= |s.pushed|
      && (q == |s.pushed| ==> At(s, q).turn == q && !At(s, q).full)
    case WriteValue(v, w, q) =>
      && w == s.ring.Word(q) && q < |s.pushed| && v == s.pushed[q]
      && At(s, q).turn == q && !At(s, q).full && At(s, q).user == Some(t)
    case Publish(w, q) =>
      && w == s.ring.Word(q) && q < |s.pushed|
      && At(s, q).turn == q && !At(s, q).full && At(s, q).user == Some(t)
      && At(s, q).value == Some(s.pushed[q])
    case InspectItem(w, h) => w == s.ring.Word(h) && h <= s.taken
    case CheckEmpty(w, h) => w == s.ring.Word(h) && h <= s.taken
    case MoveHead(w, h) =>
      && w == s.ring.Word(h) && h <= s.taken
      && (h == s.taken ==> At(s, h).turn == h && At(s, h).full)
    case ReadValue(w, h) =>
      && w == s.ring.Word(h) && h < s.taken
      && At(s, h).turn == h && At(s, h).full && At(s, h).user == Some(t)
    case Release(w, h, v) =>
      && w == s.ring.Word(h) && h < s.taken && v == s.pushed[h]
      && At(s, h).turn == h && At(s, h).full && At(s, h).user == Some(t)
    case LenHead(w, q) => w == s.ring.Word(q) && q <= |s.pushed|
    case LenAgain(w, q, hw, h, was) =>
      && w == s.ring.Word(q) && q <= |s.pushed| && hw == s.ring.Word(h)
      && (q == |s.pushed| ==> h <= q <= h + s.ring.cap && was == q - h)
    case _ => true
  }

  ghost predicate Inv(s: Queue) {
    && Shape(s)
    && (forall i: nat :: i < s.ring.cap ==> SlotInv(s, i))
    && (forall t :: t in s.calls ==> CallInv(s, t))
  }

  /** `t` is inside a call. */
  predicate Active(s: Queue, t: Tid) {
    t in s.calls && !s.calls[t].Done?
  }

  /**
   The assumption on scheduling: a call that still holds a word it loaded has not slept while the
   queue moved on by almost all the laps a word can tell apart.
   */
  predicate Awake(s: Queue, c: Call) {
    match c
    case CheckFull(_, _, _, q) => |s.pushed| + s.ring.cap < q + s.ring.Period()
    case InspectFree(_, _, _, q) => |s.pushed| + s.ring.cap < q + s.ring.Period()
    case MoveTail(_, _, _, q) => |s.pushed| + s.ring.cap < q + s.ring.Period()
    case InspectItem(_, h) => s.taken + s.ring.cap < h + s.ring.Period()
    case CheckEmpty(_, h) => s.taken + s.ring.cap < h + s.ring.Period()
    case MoveHead(_, h) => s.taken + s.ring.cap < h + s.ring.Period()
    case LenAgain(_, q, _, _, _) => |s.pushed| + s.ring.cap < q + s.ring.Period()
    case _ => true
  }

  function Goto(s: Queue, t: Tid, c: Call): Queue {
    s.(calls := s.calls[t := c])
  }

  /** One access of `try_push_oneshot`, `_try_push` or `push_with_ptr`. */
  function PushStep(s: Queue, t: Tid, spurious: bool): Queue
    requires Inv(s) && Active(s, t)
  {
    var c := s.calls[t];
    assert CallInv(s, t);
    if c.LoadTail? then
      Goto(s, t, if c.once then CheckFull(c.v, true, s.tail, |s.pushed|)
                 else InspectFree(c.v, false, s.tail, |s.pushed|))
    else if c.CheckFull? then
      Goto(s, t, if s.ring.AddLap(s.head) == c.w then Done(Full)
                 else if c.once then InspectFree(c.v, true, c.w, c.q)
                 else LoadTail(c.v, false))
    else if c.InspectFree? then
      WordForm(s.ring, c.q);
      var stamp := s.slots[s.ring.Slot(c.w)].stamp;
      Goto(s, t, if stamp == c.w then MoveTail(c.v, c.once, c.w, c.q)
                 else if c.once then Done(Unsure)
                 else if s.ring.AddLap(stamp) == c.w + 1 then CheckFull(c.v, false, c.w, c.q)
                 else LoadTail(c.v, false))
    else if c.MoveTail? then
      if s.tail == c.w && !spurious then ClaimTail(s, t)
      else Goto(s, t, if c.once then Done(Unsure) else InspectFree(c.v, false, s.tail, |s.pushed|))
    else if c.WriteValue? then StoreValue(s, t)
    else if c.Publish? then RaiseStamp(s, t)
    else s
  }

  /** The exchange on `tail` succeeded: position `q` is claimed. */
  function ClaimTail(s: Queue, t: Tid): Queue
    requires Inv(s) && t in s.calls && s.calls[t].MoveTail?
  {
    var MoveTail(v, _, w, q) := s.calls[t];
    assert CallInv(s, t);
    WordForm(s.ring, q);
    var i := s.ring.Slot(w);
    s.(tail := s.ring.Next(w),
       pushed := s.pushed + [v],
       slots := s.slots[i := s.slots[i].(user := Some(t))],
       calls := s.calls[t := WriteValue(v, w, q)])
  }

  function StoreValue(s: Queue, t: Tid): Queue
    requires Inv(s) && t in s.calls && s.calls[t].WriteValue?
  {
    var WriteValue(v, w, q) := s.calls[t];
    assert CallInv(s, t);
    WordForm(s.ring, q);
    var i := s.ring.Slot(w);
    s.(slots := s.slots[i := s.slots[i].(value := Some(v))],
       calls := s.calls[t := Publish(w, q)])
  }

  function RaiseStamp(s: Queue, t: Tid): Queue
    requires Inv(s) && t in s.calls && s.calls[t].Publish?
  {
    var Publish(w, q) := s.calls[t];
    assert CallInv(s, t);
    WordForm(s.ring, q);
    var i := s.ring.Slot(w);
    s.(slots := s.slots[i := s.slots[i].(stamp := w + 1, full := true, user := None)],
       calls := s.calls[t := Done(Sent)])
  }

  /** One access of `_start_read`, `pop` or `read`. */
  function PopStep(s: Queue, t: Tid, spurious: bool): Queue
    requires Inv(s) && Active(s, t)
  {
    var c := s.calls[t];
    assert CallInv(s, t);
    if c.LoadHead? then Goto(s, t, InspectItem(s.head, s.taken))
    else if c.InspectItem? then
      WordForm(s.ring, c.h);
      var stamp := s.slots[s.ring.Slot(c.w)].stamp;
      Goto(s, t, if stamp == c.w + 1 then MoveHead(c.w, c.h)
                 else if stamp == c.w then CheckEmpty(c.w, c.h)
                 else LoadHead)
    else if c.CheckEmpty? then Goto(s, t, if s.tail == c.w then Done(Empty) else LoadHead)
    else if c.MoveHead? then
      if s.head == c.w && !spurious then ClaimHead(s, t)
      else Goto(s, t, InspectItem(s.head, s.taken))
    else if c.ReadValue? then
      WordForm(s.ring, c.h);
      assert SlotInv(s, s.ring.Index(c.h));
      Goto(s, t, Release(c.w, c.h, s.slots[s.ring.Slot(c.w)].value.value))
    else if c.Release? then LowerStamp(s, t)
    else s
  }

  /** The exchange on `head` succeeded: position `h` is claimed. */
  function ClaimHead(s: Queue, t: Tid): Queue
    requires Inv(s) && t in s.calls && s.calls[t].MoveHead?
  {
    var MoveHead(w, h) := s.calls[t];
    assert CallInv(s, t);
    WordForm(s.ring, h);
    var i := s.ring.Slot(w);
    s.(head := s.ring.Next(w),
       taken := s.taken + 1,
       slots := s.slots[i := s.slots[i].(user := Some(t))],
       calls := s.calls[t := ReadValue(w, h)])
  }

  /** The slot is handed to the next lap. */
  function LowerStamp(s: Queue, t: Tid): Queue
    requires Inv(s) && t in s.calls && s.calls[t].Release?
  {
    var Release(w, h, v) := s.calls[t];
    assert CallInv(s, t);
    WordForm(s.ring, h);
    var i := s.ring.Slot(w);
    var x := s.slots[i];
    s.(slots := s.slots[i := Slot(s.ring.AddLap(w), x.value, h + s.ring.cap, false, None)],
       calls := s.calls[t := Done(Got(v))])
  }

  /** One access of `len`. */
  function LenStep(s: Queue, t: Tid): Queue
    requires Inv(s) && Active(s, t)
  {
    var c := s.calls[t];
    if c.LenTail? then Goto(s, t, LenHead(s.tail, |s.pushed|))
    else if c.LenHead? then
      Goto(s, t, LenAgain(c.w, c.q, s.head, s.taken, |s.pushed| - s.taken))
    else if c.LenAgain? then
      Goto(s, t, if s.tail == c.w then Done(Length(s.ring.Len(c.hw, c.w))) else LenTail)
    else s
  }

  /** The next access of `t`; `spurious` lets a weak exchange fail although the word matches. */
  function Step(s: Queue, t: Tid, spurious: bool): Queue
    requires Inv(s) && Active(s, t)
  {
    var c := s.calls[t];
    if c.LenTail? || c.LenHead? || c.LenAgain? then LenStep(s, t)
    else if c.LoadHead? || c.InspectItem? || c.CheckEmpty? || c.MoveHead? || c.ReadValue? || c.Release?
    then PopStep(s, t, spurious)
    else PushStep(s, t, spurious)
  }

  // ---------------------------------------------------------------- every step keeps the invariant

  predicate Claimed(c: Call) {
    c.WriteValue? || c.Publish? || c.ReadValue? || c.Release?
  }

  lemma NewKeeps(g: Ring)
    requires g.Valid()
    ensures Inv(New(g))
  {
    var s := New(g);
    forall i: nat | i < g.cap ensures SlotInv(s, i) {
      LayoutUnique(g, i, 0, i);
      EarlyWord(g, i);
    }
  }

  lemma {:induction false} EarlyWord(g: Ring, p: nat)
    requires g.Valid() && p < g.cap
    ensures g.Word(p) == p
  {
    if p > 0 {
      EarlyWord(g, p - 1);
      WordForm(g, p - 1);
      LayoutUnique(g, p - 1, 0, p - 1);
    }
  }

  lemma GotoKeeps(s: Queue, t: Tid, c: Call)
    requires Inv(s) && (t in s.calls ==> !Claimed(s.calls[t])) && !Claimed(c)
    requires CallInv(Goto(s, t, c), t)
    ensures Inv(Goto(s, t, c))
  {
    var s' := Goto(s, t, c);
    forall i: nat | i < s.ring.cap ensures SlotInv(s', i) { assert SlotInv(s, i); }
    forall u | u in s'.calls ensures CallInv(s', u) {
      if u != t { assert CallInv(s, u); }
    }
  }

  /** A claim marks a free slot and moves one end on, which no other call can mind. */
  lemma ClaimKeepsOthers(s: Queue, s': Queue, t: Tid, i: nat)
    requires Inv(s) && Shape(s') && s'.ring == s.ring && i < s.ring.cap
    requires s.slots[i].user.None? && s'.slots == s.slots[i := s.slots[i].(user := Some(t))]
    requires s.pushed <= s'.pushed && s.taken <= s'.taken
    requires t in s'.calls && s'.calls == s.calls[t := s'.calls[t]]
    ensures forall u :: u in s'.calls && u != t ==> CallInv(s', u)
  {
    forall u | u in s'.calls && u != t ensures CallInv(s', u) { assert CallInv(s, u); }
  }

  lemma ClaimTailKeeps(s: Queue, t: Tid)
    requires Inv(s) && t in s.calls && s.calls[t].MoveTail? && Awake(s, s.calls[t])
    requires s.tail == s.calls[t].w
    ensures s.calls[t].q == |s.pushed| < s.taken + s.ring.cap
    ensures Inv(ClaimTail(s, t))
  {
    var g, s' := s.ring, ClaimTail(s, t);
    var q := s.calls[t].q;
    assert CallInv(s, t);
    WordInjective(g, q, |s.pushed|);
    WordForm(g, q);
    WordNext(g, q);
    assert SlotInv(s, g.Index(q));
    forall i: nat | i < g.cap ensures SlotInv(s', i) {
      assert SlotInv(s, i);
      if i != g.Index(q) && s.slots[i].turn + g.cap == q { NextLap(g, s.slots[i].turn); }
    }
    ClaimKeepsOthers(s, s', t, g.Index(q));
  }

  lemma ClaimHeadKeeps(s: Queue, t: Tid)
    requires Inv(s) && t in s.calls && s.calls[t].MoveHead? && Awake(s, s.calls[t])
    requires s.head == s.calls[t].w
    ensures s.calls[t].h == s.taken < |s.pushed|
    ensures Inv(ClaimHead(s, t))
  {
    var g, s' := s.ring, ClaimHead(s, t);
    var h := s.calls[t].h;
    assert CallInv(s, t);
    WordInjective(g, h, s.taken);
    WordForm(g, h);
    WordNext(g, h);
    assert SlotInv(s, g.Index(h));
    forall i: nat | i < g.cap ensures SlotInv(s', i) { assert SlotInv(s, i); }
    ClaimKeepsOthers(s, s', t, g.Index(h));
  }

  /** A call may do anything to the slot it is using: nobody else relies on it. */
  lemma OwnSlotKeeps(s: Queue, t: Tid, i: nat, x: Slot, c: Call)
    requires Inv(s) && i < s.ring.cap && s.slots[i].user == Some(t) && t in s.calls
    requires var s' := s.(slots := s.slots[i := x], calls := s.calls[t := c]);
             SlotInv(s', i) && CallInv(s', t)
    ensures Inv(s.(slots := s.slots[i := x], calls := s.calls[t := c]))
  {
    var s' := s.(slots := s.slots[i := x], calls := s.calls[t := c]);
    assert SlotInv(s, i);
    forall j: nat | j < s.ring.cap ensures SlotInv(s', j) { assert SlotInv(s, j); }
    forall u | u in s'.calls ensures CallInv(s', u) {
      if u != t { OtherCall(s, t, i, s', u); }
    }
  }

  lemma OtherCall(s: Queue, t: Tid, i: nat, s': Queue, u: Tid)
    requires Inv(s) && i < s.ring.cap && s.slots[i].user == Some(t) && t in s.calls && u in s.calls && u != t
    requires SlotInv(s, i) && Shape(s') && |s'.slots| == |s.slots| && u in s'.calls && s'.calls[u] == s.calls[u]
    requires s'.ring == s.ring && s'.pushed == s.pushed && s'.taken == s.taken
    requires forall j: nat :: j < s.ring.cap && j != i ==> s'.slots[j] == s.slots[j]
    ensures CallInv(s', u)
  {
    assert CallInv(s, u);
  }

  lemma StoreValueKeeps(s: Queue, t: Tid)
    requires Inv(s) && t in s.calls && s.calls[t].WriteValue?
    ensures Inv(StoreValue(s, t))
  {
    var c := s.calls[t];
    assert CallInv(s, t);
    WordForm(s.ring, c.q);
    var i := s.ring.Index(c.q);
    assert SlotInv(s, i);
    OwnSlotKeeps(s, t, i, s.slots[i].(value := Some(c.v)), Publish(c.w, c.q));
  }

  lemma RaiseStampKeeps(s: Queue, t: Tid)
    requires Inv(s) && t in s.calls && s.calls[t].Publish?
    ensures Inv(RaiseStamp(s, t))
  {
    var c := s.calls[t];
    assert CallInv(s, t);
    WordForm(s.ring, c.q);
    var i := s.ring.Index(c.q);
    assert SlotInv(s, i);
    OwnSlotKeeps(s, t, i, s.slots[i].(stamp := c.w + 1, full := true, user := None), Done(Sent));
  }

  lemma LowerStampKeeps(s: Queue, t: Tid)
    requires Inv(s) && t in s.calls && s.calls[t].Release?
    ensures Inv(LowerStamp(s, t))
  {
    var g, c := s.ring, s.calls[t];
    assert CallInv(s, t);
    WordForm(g, c.h);
    WordAddLap(g, c.h);
    NextLap(g, c.h);
    var i := g.Index(c.h);
    assert SlotInv(s, i);
    OwnSlotKeeps(s, t, i, Slot(g.AddLap(c.w), s.slots[i].value, c.h + g.cap, false, None), Done(Got(c.v)));
  }

  /** What the stamp of the slot of a loaded tail tells, while the loader is awake. */
  lemma StampOfTail(s: Queue, q: nat)
    requires Inv(s) && q <= |s.pushed| && |s.pushed| + s.ring.cap < q + s.ring.Period()
    ensures At(s, q).stamp == s.ring.Word(q) <==> At(s, q).turn == q && !At(s, q).full
  {
    var g, x := s.ring, At(s, q);
    Layout(g, q);
    assert SlotInv(s, g.Index(q));
    if x.full { StampApart(g, q, x.turn); }
    else if x.turn < q { WordInjective(g, x.turn, q); }
    else { WordInjective(g, q, x.turn); }
  }

  lemma StampOfHead(s: Queue, h: nat)
    requires Inv(s) && h <= s.taken && s.taken + s.ring.cap < h + s.ring.Period()
    ensures At(s, h).stamp == s.ring.Word(h) + 1 <==> At(s, h).turn == h && At(s, h).full
    ensures At(s, h).stamp == s.ring.Word(h) <==> At(s, h).turn == h && !At(s, h).full
  {
    var g, x := s.ring, At(s, h);
    Layout(g, h);
    assert SlotInv(s, g.Index(h));
    StampApart(g, h, x.turn);
    StampApart(g, x.turn, h);
    if x.turn < h { WordInjective(g, x.turn, h); }
    else { WordInjective(g, h, x.turn); }
  }

  lemma PushKeeps(s: Queue, t: Tid, spurious: bool)
    requires Inv(s) && Active(s, t) && Awake(s, s.calls[t])
    ensures Inv(PushStep(s, t, spurious))
  {
    var c := s.calls[t];
    assert CallInv(s, t);
    if c.MoveTail? && s.tail == c.w && !spurious { ClaimTailKeeps(s, t); }
    else if c.WriteValue? { StoreValueKeeps(s, t); }
    else if c.Publish? { RaiseStampKeeps(s, t); }
    else if c.LoadTail? || c.CheckFull? || c.InspectFree? || c.MoveTail? {
      if c.InspectFree? {
        WordForm(s.ring, c.q);
        StampOfTail(s, c.q);
      }
      GotoKeeps(s, t, PushStep(s, t, spurious).calls[t]);
    }
  }

  lemma PopKeeps(s: Queue, t: Tid, spurious: bool)
    requires Inv(s) && Active(s, t) && Awake(s, s.calls[t])
    ensures Inv(PopStep(s, t, spurious))
  {
    var c := s.calls[t];
    assert CallInv(s, t);
    if c.MoveHead? && s.head == c.w && !spurious { ClaimHeadKeeps(s, t); }
    else if c.Release? { LowerStampKeeps(s, t); }
    else if c.ReadValue? { ReadValueKeeps(s, t); }
    else if c.LoadHead? || c.InspectItem? || c.CheckEmpty? || c.MoveHead? {
      if c.InspectItem? {
        WordForm(s.ring, c.h);
        StampOfHead(s, c.h);
      }
      GotoKeeps(s, t, PopStep(s, t, spurious).calls[t]);
    }
  }

  lemma ReadValueKeeps(s: Queue, t: Tid)
    requires Inv(s) && t in s.calls && s.calls[t].ReadValue?
    ensures Inv(PopStep(s, t, false)) && PopStep(s, t, true) == PopStep(s, t, false)
  {
    var c := s.calls[t];
    assert CallInv(s, t);
    WordForm(s.ring, c.h);
    var i := s.ring.Index(c.h);
    assert SlotInv(s, i);
    assert s.slots == s.slots[i := s.slots[i]];
    OwnSlotKeeps(s, t, i, s.slots[i], Release(c.w, c.h, s.pushed[c.h]));
  }

  lemma LenKeeps(s: Queue, t: Tid)
    requires Inv(s) && Active(s, t) && Awake(s, s.calls[t])
    requires s.calls[t].LenTail? || s.calls[t].LenHead? || s.calls[t].LenAgain?
    ensures Inv(LenStep(s, t))
  {
    assert CallInv(s, t);
    GotoKeeps(s, t, LenStep(s, t).calls[t]);
  }

  lemma StepKeeps(s: Queue, t: Tid, spurious: bool)
    requires Inv(s) && Active(s, t) && Awake(s, s.calls[t])
    ensures Inv(Step(s, t, spurious))
  {
    var c := s.calls[t];
    if c.LenTail? || c.LenHead? || c.LenAgain? { LenKeeps(s, t); }
    else if c.LoadHead? || c.InspectItem? || c.CheckEmpty? || c.MoveHead? || c.ReadValue? || c.Release? {
      PopKeeps(s, t, spurious);
    } else { PushKeeps(s, t, spurious); }
  }

  // ------------------------------------------------------------------ what the invariant promises

  /** No slot is ever in use by two calls at once, writing or reading. */
  lemma OneUserPerSlot(s: Queue, t: Tid, u: Tid, p: nat, r: nat)
    requires Inv(s) && t in s.calls && u in s.calls
    requires Writing(s.calls[t], p) || Reading(s.calls[t], p)
    requires Writing(s.calls[u], r) || Reading(s.calls[u], r)
    requires s.ring.Index(p) == s.ring.Index(r)
    ensures t == u
  {
    assert CallInv(s, t) && CallInv(s, u);
  }

  /** A reported "full" is true of the queue at the instant of the load, and only then reported. */
  lemma FullReport(s: Queue, t: Tid)
    requires Inv(s) && Active(s, t) && s.calls[t].CheckFull? && Awake(s, s.calls[t])
    ensures Step(s, t, false).calls[t] == Done(Full) <==>
            |s.pushed| - s.taken == s.ring.cap && s.calls[t].q == |s.pushed|
  {
    var q := s.calls[t].q;
    assert CallInv(s, t);
    WordAddLap(s.ring, s.taken);
    WordInjective(s.ring, q, s.taken + s.ring.cap);
  }

  /** A reported "empty" is true of the queue at the instant of the load, and only then reported. */
  lemma EmptyReport(s: Queue, t: Tid)
    requires Inv(s) && Active(s, t) && s.calls[t].CheckEmpty? && Awake(s, s.calls[t])
    ensures Step(s, t, false).calls[t] == Done(Empty) <==>
            |s.pushed| == s.taken && s.calls[t].h == s.taken
  {
    assert CallInv(s, t);
    WordInjective(s.ring, s.calls[t].h, |s.pushed|);
  }

  /** `len` answers with the number of items there were when it loaded the head. */
  lemma LenReport(s: Queue, t: Tid)
    requires Inv(s) && Active(s, t) && s.calls[t].LenAgain? && Awake(s, s.calls[t])
    ensures Step(s, t, false).calls[t].Done? ==>
              Step(s, t, false).calls[t] == Done(Length(s.calls[t].was))
  {
    var c := s.calls[t];
    assert CallInv(s, t);
    WordInjective(s.ring, c.q, |s.pushed|);
    if s.tail == c.w { LenExact(s.ring, c.h, c.q); }
  }

  // -------------------------------------------------------------------------- refinement and runs

  ghost function Abs(s: Queue): Fifo {
    Fifo(Some(s.ring.cap), s.pushed, s.taken)
  }

  /** The abstract event of a step: the two successful exchanges are the only ones. */
  ghost function EventOf(s: Queue, t: Tid, spurious: bool): Event
    requires Inv(s) && Active(s, t)
  {
    var c := s.calls[t];
    if c.MoveTail? && s.tail == c.w && !spurious then Pushed(c.v)
    else if c.MoveHead? && s.head == c.w && !spurious && s.taken < |s.pushed| then Popped(s.pushed[s.taken])
    else Silent
  }

  lemma StepRefines(s: Queue, t: Tid, spurious: bool)
    requires Inv(s) && Active(s, t) && Awake(s, s.calls[t])
    ensures Allowed(Abs(s), EventOf(s, t, spurious), Abs(Step(s, t, spurious)))
  {
    var c := s.calls[t];
    if c.MoveTail? && s.tail == c.w && !spurious { ClaimTailKeeps(s, t); }
    if c.MoveHead? && s.head == c.w && !spurious { ClaimHeadKeeps(s, t); }
  }

  /** A pop answers with the very item its exchange took from the abstract queue. */
  lemma PopAnswers(s: Queue, t: Tid)
    requires Inv(s) && Active(s, t) && s.calls[t].Release?
    ensures s.calls[t].h < s.taken
    ensures Step(s, t, false).calls[t] == Done(Got(s.pushed[s.calls[t].h]))
  {
    assert CallInv(s, t);
  }

  /** A move of the whole system: some thread starts a call, or takes its next step. */
  datatype Move = Begin(t: Tid, call: Call) | Go(t: Tid, spurious: bool)

  ghost predicate Enabled(s: Queue, m: Move) {
    match m
    case Begin(t, c) => !Active(s, t) && (c.LoadTail? || c.LoadHead? || c.LenTail?)
    case Go(t, _) => Active(s, t) && Awake(s, s.calls[t])
  }

  ghost function Apply(s: Queue, m: Move): Queue
    requires Inv(s) && Enabled(s, m)
  {
    match m
    case Begin(t, c) => Goto(s, t, c)
    case Go(t, spurious) => Step(s, t, spurious)
  }

  lemma ApplyKeeps(s: Queue, m: Move)
    requires Inv(s) && Enabled(s, m)
    ensures Inv(Apply(s, m)) && Apply(s, m).ring == s.ring
  {
    match m
    case Begin(t, c) => GotoKeeps(s, t, c);
    case Go(t, spurious) => StepKeeps(s, t, spurious);
  }

  ghost function MoveEvent(s: Queue, m: Move): Event
    requires Inv(s) && Enabled(s, m)
  {
    if m.Go? then EventOf(s, m.t, m.spurious) else Silent
  }

  /** The positions claimed by pops that have not returned yet. */
  ghost function Open(calls: map<Tid, Call>): set<nat> {
    set t | t in calls && (calls[t].ReadValue? || calls[t].Release?) :: calls[t].h
  }

  /** What a move returns to the caller of a `pop`, with the position that call claimed. */
  ghost function ReceiptOf(s: Queue, m: Move): Option<Receipt>
    requires Inv(s) && Enabled(s, m)
  {
    if m.Begin? then None
    else
      StaysInside(s, m.t, m.spurious);
      var c, c' := s.calls[m.t], Step(s, m.t, m.spurious).calls[m.t];
      if c'.Done? && c'.answer.Got? then Some(Receipt(if c.Release? then c.h else |s.pushed|, c'.answer.value))
      else None
  }

  lemma InOpen(calls: map<Tid, Call>, u: Tid, p: nat)
    requires u in calls && Reading(calls[u], p)
    ensures p in Open(calls)
  {
  }

  lemma Reader(calls: map<Tid, Call>, p: nat) returns (u: Tid)
    requires p in Open(calls)
    ensures u in calls && Reading(calls[u], p)
  {
    u :| u in calls && Reading(calls[u], p);
  }

  lemma OpenSame(calls: map<Tid, Call>, t: Tid, c: Call)
    requires forall h :: Reading(c, h) <==> t in calls && Reading(calls[t], h)
    ensures Open(calls[t := c]) == Open(calls)
  {
    var calls' := calls[t := c];
    forall p | p in Open(calls') ensures p in Open(calls) {
      var u := Reader(calls', p);
      InOpen(calls, u, p);
    }
    forall p | p in Open(calls) ensures p in Open(calls') {
      var u := Reader(calls, p);
      InOpen(calls', u, p);
    }
  }

  lemma OpenMore(calls: map<Tid, Call>, t: Tid, c: Call, h: nat)
    requires t in calls && !calls[t].ReadValue? && !calls[t].Release? && Reading(c, h)
    ensures Open(calls[t := c]) == Open(calls) + {h}
  {
    var calls' := calls[t := c];
    forall p | p in Open(calls) ensures p in Open(calls') {
      var u := Reader(calls, p);
      InOpen(calls', u, p);
    }
    InOpen(calls', t, h);
  }

  lemma OpenLess(calls: map<Tid, Call>, t: Tid, c: Call, h: nat)
    requires t in calls && Reading(calls[t], h) && !c.ReadValue? && !c.Release?
    requires forall u :: u in calls && Reading(calls[u], h) ==> u == t
    ensures h in Open(calls) && Open(calls[t := c]) == Open(calls) - {h}
  {
    var calls' := calls[t := c];
    InOpen(calls, t, h);
    forall p | p in Open(calls) - {h} ensures p in Open(calls') {
      var u := Reader(calls, p);
      InOpen(calls', u, p);
    }
    forall p | p in Open(calls') ensures p in Open(calls) - {h} {
      var u := Reader(calls', p);
      InOpen(calls, u, p);
    }
  }

  /** A pop event opens its own position; the pop that claimed it closes it with the item of that event. */
  lemma PopServes(s: Queue, t: Tid, spurious: bool)
    requires Inv(s) && Active(s, t) && Awake(s, s.calls[t])
    requires s.calls[t].MoveHead? || s.calls[t].ReadValue? || s.calls[t].Release?
    ensures Serves(Abs(s), EventOf(s, t, spurious), ReceiptOf(s, Go(t, spurious)), Open(s.calls),
                   Open(Step(s, t, spurious).calls))
  {
    var c := s.calls[t];
    assert CallInv(s, t);
    if c.Release? {
      forall u | u in s.calls && Reading(s.calls[u], c.h) ensures u == t { OneUserPerSlot(s, t, u, c.h, c.h); }
      OpenLess(s.calls, t, Done(Got(c.v)), c.h);
    } else if c.MoveHead? && s.head == c.w && !spurious {
      ClaimHeadKeeps(s, t);
      OpenMore(s.calls, t, ReadValue(c.w, c.h), c.h);
    } else {
      OpenSame(s.calls, t, Step(s, t, spurious).calls[t]);
    }
  }

  /** Every other step of a call leaves the open positions alone and returns nothing. */
  lemma StepServes(s: Queue, t: Tid, spurious: bool)
    requires Inv(s) && Active(s, t) && Awake(s, s.calls[t])
    ensures Serves(Abs(s), EventOf(s, t, spurious), ReceiptOf(s, Go(t, spurious)), Open(s.calls),
                   Open(Step(s, t, spurious).calls))
  {
    var c := s.calls[t];
    if c.MoveHead? || c.ReadValue? || c.Release? { PopServes(s, t, spurious); }
    else {
      var s' := Step(s, t, spurious);
      OtherStep(s, t, spurious);
      OpenSame(s.calls, t, s'.calls[t]);
    }
  }

  ghost predicate ReturnsNothing(s: Queue, t: Tid, s': Queue) {
    && t in s'.calls && s'.calls == s.calls[t := s'.calls[t]]
    && !s'.calls[t].ReadValue? && !s'.calls[t].Release?
    && !(s'.calls[t].Done? && s'.calls[t].answer.Got?)
  }

  lemma PushReturnsNothing(s: Queue, t: Tid, spurious: bool)
    requires Inv(s) && Active(s, t) && !s.calls[t].ReadValue? && !s.calls[t].Release?
    ensures ReturnsNothing(s, t, PushStep(s, t, spurious))
  {
  }

  lemma OtherStep(s: Queue, t: Tid, spurious: bool)
    requires Inv(s) && Active(s, t)
    requires !s.calls[t].MoveHead? && !s.calls[t].ReadValue? && !s.calls[t].Release?
    ensures ReturnsNothing(s, t, Step(s, t, spurious))
  {
    PushReturnsNothing(s, t, spurious);
  }

  lemma ApplyServes(s: Queue, m: Move)
    requires Inv(s) && Enabled(s, m)
    ensures Serves(Abs(s), MoveEvent(s, m), ReceiptOf(s, m), Open(s.calls), Open(Apply(s, m).calls))
  {
    match m
    case Begin(t, c) => OpenSame(s.calls, t, c);
    case Go(t, spurious) => StepServes(s, t, spurious);
  }

  lemma ApplyRefines(s: Queue, m: Move)
    requires Inv(s) && Enabled(s, m)
    ensures Allowed(Abs(s), MoveEvent(s, m), Abs(Apply(s, m)))
  {
    if m.Go? { StepRefines(s, m.t, m.spurious); }
  }

  ghost predicate Sound(h: History<Queue>) {
    Inv(h.s) && Accounts(Abs(h.s), Open(h.s.calls), h.record)
  }

  lemma FirstSound(g: Ring, r: Record)
    requires g.Valid() && |r.events| == 0 && |r.receipts| == 0
    ensures Sound(History(New(g), r))
  {
    NewKeeps(g);
    assert Open(New(g).calls) == {};
    NothingDone(Abs(New(g)), r);
  }

  ghost function Extend(h: History<Queue>, m: Move): (h': History<Queue>)
    requires Sound(h) && Enabled(h.s, m)
    ensures Sound(h') && h'.s.ring == h.s.ring
  {
    ApplyKeeps(h.s, m);
    ApplyRefines(h.s, m);
    ApplyServes(h.s, m);
    AccountsNext(Abs(h.s), Open(h.s.calls), h.record, MoveEvent(h.s, m), ReceiptOf(h.s, m),
                 Abs(Apply(h.s, m)), Open(Apply(h.s, m).calls));
    History(Apply(h.s, m), Then(h.record, MoveEvent(h.s, m), ReceiptOf(h.s, m)))
  }

  /** The history of a run, if every move of it was possible. */
  ghost function Run(g: Ring, ms: seq<Move>): (r: Option<History<Queue>>)
    requires g.Valid()
    ensures r.Some? ==> Sound(r.value) && r.value.s.ring == g
  {
    if ms == [] then
      FirstSound(g, Record([], []));
      Some(History(New(g), Record([], [])))
    else
      var n := |ms| - 1;
      var r := Run(g, ms[..n]);
      if r.None? || !Enabled(r.value.s, ms[n]) then None else Some(Extend(r.value, ms[n]))
  }

  /**
   Every run, of any number of threads interleaved at every access, is a run of the bounded FIFO. The
   values that pops return to their callers are the items pushed, in order: the pop whose exchange was
   the `k`-th returns the `k`-th item, no item is returned twice, and none is lost.
   */
  lemma RunIsFifo(g: Ring, ms: seq<Move>)
    requires g.Valid() && Run(g, ms).Some?
    ensures var r := Run(g, ms).value.record;
            && PoppedBy(r.events) <= PushedBy(r.events)
            && |PushedBy(r.events)| - |PoppedBy(r.events)| <= g.cap
            && InOrder(Open(Run(g, ms).value.s.calls), r)
  {
    var h := Run(g, ms).value;
    FirstInFirstOut(Abs(h.s), h.record.events);
    AnsweredInOrder(Abs(h.s), Open(h.s.calls), h.record);
  }

  // ------------------------------------------------------------------------------ calls run alone

  /** `t` takes up to `n` steps while nobody else moves and no weak exchange fails. */
  ghost function Alone(s: Queue, t: Tid, n: nat): (r: Queue)
    requires Inv(s) && t in s.calls
    ensures Inv(r) && t in r.calls
    decreases n
  {
    if n == 0 || !Active(s, t) || !Awake(s, s.calls[t]) then s
    else
      StepKeeps(s, t, false);
      StaysInside(s, t, false);
      Alone(Step(s, t, false), t, n - 1)
  }

  lemma StaysInside(s: Queue, t: Tid, spurious: bool)
    requires Inv(s) && Active(s, t)
    ensures t in Step(s, t, spurious).calls
  {
  }

  lemma AloneNext(s: Queue, t: Tid, n: nat, s': Queue)
    requires Inv(s) && Active(s, t) && Awake(s, s.calls[t]) && s' == Step(s, t, false)
    ensures Inv(s') && t in s'.calls
    ensures Alone(s, t, n + 1) == Alone(s', t, n)
  {
    StepKeeps(s, t, false);
    StaysInside(s, t, false);
  }

  ghost predicate Quiet(s: Queue) {
    forall u :: u in s.calls ==> s.calls[u].Done?
  }

  /** With nobody inside a call, the slot of the tail is free unless the queue is full. */
  lemma QuietTail(s: Queue)
    requires Inv(s) && Quiet(s)
    ensures var x := At(s, |s.pushed|);
            if |s.pushed| - s.taken < s.ring.cap then x.turn == |s.pushed| && !x.full
            else x.full && s.ring.AddLap(x.stamp) == s.tail + 1
  {
    var g, q := s.ring, |s.pushed|;
    Layout(g, q);
    var x := At(s, q);
    assert SlotInv(s, g.Index(q));
    if x.turn < q { SameSlot(g, x.turn, q); }
    if q < x.turn { SameSlot(g, q, x.turn); }
    if x.turn < q { LapBehind(g, x.turn, q); }
  }

  /** The stamp of a full slot a lap behind, one lap on, is one above the word of its next position. */
  lemma LapBehind(g: Ring, p: nat, q: nat)
    requires g.Valid() && q == p + g.cap
    ensures g.AddLap(g.Word(p) + 1) == g.Word(q) + 1
  {
    WordForm(g, p);
    WordForm(g, q);
    NextLap(g, p);
    SuccMod(g.LapOf(p), g.laps);
    MulPos(g.lap, g.laps);
    WordTurn(g.lap, g.laps, g.LapOf(p) % g.laps, g.Index(q) + 1);
  }

  lemma QuietHead(s: Queue)
    requires Inv(s) && Quiet(s)
    ensures var x := At(s, s.taken);
            x.turn == s.taken && (x.full <==> s.taken < |s.pushed|)
  {
    var g, h := s.ring, s.taken;
    Layout(g, h);
    var x := At(s, h);
    assert SlotInv(s, g.Index(h));
    if h < x.turn { SameSlot(g, h, x.turn); }
  }

  /** After winning the tail a push finishes on its own. */
  lemma FinishPush(s: Queue, t: Tid)
    requires Inv(s) && Active(s, t) && s.calls[t].MoveTail? && Awake(s, s.calls[t])
    requires s.tail == s.calls[t].w
    ensures var s' := Alone(s, t, 3);
            s'.calls[t] == Done(Sent) && Abs(s') == Abs(s).(pushed := s.pushed + [s.calls[t].v])
  {
    var s1 := ClaimTail(s, t);
    AloneNext(s, t, 2, s1);
    var s2 := StoreValue(s1, t);
    AloneNext(s1, t, 1, s2);
    AloneNext(s2, t, 0, RaiseStamp(s2, t));
  }

  lemma FinishPop(s: Queue, t: Tid)
    requires Inv(s) && Active(s, t) && s.calls[t].MoveHead? && Awake(s, s.calls[t])
    requires s.head == s.calls[t].w && s.taken < |s.pushed| && s.calls[t].h == s.taken
    ensures var s' := Alone(s, t, 3);
            s'.calls[t] == Done(Got(s.pushed[s.taken])) && Abs(s') == Abs(s).(taken := s.taken + 1)
  {
    var s1 := ClaimHead(s, t);
    AloneNext(s, t, 2, s1);
    var s2 := PopStep(s1, t, false);
    AloneNext(s1, t, 1, s2);
    PopAnswers(s2, t);
    AloneNext(s2, t, 0, LowerStamp(s2, t));
  }

  /** A push that starts alone comes to inspect the slot of the tail. */
  lemma ReachTail(s: Queue, t: Tid, v: Item, n: nat)
    requires Inv(s)&& !Active(s, t)
    ensures var s0, s1 := Goto(s, t, LoadTail(v, false)), Goto(s, t, InspectFree(v, false, s.tail, |s.pushed|));
            Inv(s0) && Inv(s1) && Awake(s1, s1.calls[t]) && Alone(s0, t, n + 1) == Alone(s1, t, n)
  {
    GotoKeeps(s, t, LoadTail(v, false));
    MulLeft(2, s.ring.laps, s.ring.cap);
    var s0 := Goto(s, t, LoadTail(v, false));
    AloneNext(s0, t, n, Goto(s, t, InspectFree(v, false, s.tail, |s.pushed|)));
  }

  lemma ReachHead(s: Queue, t: Tid, n: nat)
    requires Inv(s) && !Active(s, t)
    ensures var s0, s1 := Goto(s, t, LoadHead), Goto(s, t, InspectItem(s.head, s.taken));
            Inv(s0) && Inv(s1) && Awake(s1, s1.calls[t]) && Alone(s0, t, n + 1) == Alone(s1, t, n)
  {
    GotoKeeps(s, t, LoadHead);
    MulLeft(2, s.ring.laps, s.ring.cap);
    var s0 := Goto(s, t, LoadHead);
    AloneNext(s0, t, n, Goto(s, t, InspectItem(s.head, s.taken)));
  }

  /** Alone, a push that finds the slot of the tail free stores its item. */
  lemma PushIntoFree(s: Queue, t: Tid, v: Item)
    requires Inv(s) && Active(s, t) && Awake(s, s.calls[t])
    requires s.calls[t] == InspectFree(v, false, s.tail, |s.pushed|)
    requires At(s, |s.pushed|).turn == |s.pushed| && !At(s, |s.pushed|).full
    ensures var s' := Alone(s, t, 4);
            s'.calls[t] == Done(Sent) && Abs(s') == Abs(s).(pushed := s.pushed + [v])
  {
    var q := |s.pushed|;
    WordForm(s.ring, q);
    StampOfTail(s, q);
    var s2 := Goto(s, t, MoveTail(v, false, s.tail, q));
    AloneNext(s, t, 3, s2);
    FinishPush(s2, t);
  }

  lemma FullAnswer(s: Queue, t: Tid)
    requires Inv(s) && Active(s, t) && Awake(s, s.calls[t]) && s.calls[t].CheckFull?
    requires s.calls[t].q == |s.pushed| == s.taken + s.ring.cap
    ensures Alone(s, t, 3).calls[t] == Done(Full) && Abs(Alone(s, t, 3)) == Abs(s)
  {
    FullReport(s, t);
    AloneNext(s, t, 2, Goto(s, t, Done(Full)));
  }

  /** Alone, a push that finds the slot of the tail full, a lap behind, reports "full". */
  lemma PushFindsFull(s: Queue, t: Tid, v: Item)
    requires Inv(s) && Active(s, t) && Awake(s, s.calls[t])
    requires s.calls[t] == InspectFree(v, false, s.tail, |s.pushed|)
    requires |s.pushed| - s.taken == s.ring.cap
    requires At(s, |s.pushed|).full && s.ring.AddLap(At(s, |s.pushed|).stamp) == s.tail + 1
    ensures Alone(s, t, 4).calls[t] == Done(Full) && Abs(Alone(s, t, 4)) == Abs(s)
  {
    var q := |s.pushed|;
    WordForm(s.ring, q);
    StampOfTail(s, q);
    var s2 := Goto(s, t, CheckFull(v, false, s.tail, q));
    AloneNext(s, t, 3, s2);
    FullAnswer(s2, t);
  }

  lemma PopFromFull(s: Queue, t: Tid)
    requires Inv(s) && Active(s, t) && Awake(s, s.calls[t])
    requires s.calls[t] == InspectItem(s.head, s.taken)
    requires At(s, s.taken).turn == s.taken && At(s, s.taken).full && s.taken < |s.pushed|
    ensures var s' := Alone(s, t, 4);
            s'.calls[t] == Done(Got(s.pushed[s.taken])) && Abs(s') == Abs(s).(taken := s.taken + 1)
  {
    WordForm(s.ring, s.taken);
    StampOfHead(s, s.taken);
    var s2 := Goto(s, t, MoveHead(s.head, s.taken));
    AloneNext(s, t, 3, s2);
    FinishPop(s2, t);
  }

  lemma PopFindsEmpty(s: Queue, t: Tid)
    requires Inv(s) && Active(s, t) && Awake(s, s.calls[t])
    requires s.calls[t] == InspectItem(s.head, s.taken)
    requires At(s, s.taken).turn == s.taken && !At(s, s.taken).full && s.taken == |s.pushed|
    ensures Alone(s, t, 4).calls[t] == Done(Empty) && Abs(Alone(s, t, 4)) == Abs(s)
  {
    WordForm(s.ring, s.taken);
    StampOfHead(s, s.taken);
    var s2 := Goto(s, t, CheckEmpty(s.head, s.taken));
    AloneNext(s, t, 3, s2);
    AloneNext(s2, t, 2, Goto(s2, t, Done(Empty)));
  }

  /** Alone, a push stores its item if there is room and reports "full" if there is none. */
  lemma PushAlone(s: Queue, t: Tid, v: Item)
    requires Inv(s) && Quiet(s)
    ensures Inv(Goto(s, t, LoadTail(v, false)))
    ensures var s' := Alone(Goto(s, t, LoadTail(v, false)), t, 5);
            if |s.pushed| - s.taken < s.ring.cap
            then s'.calls[t] == Done(Sent) && Abs(s') == Abs(s).(pushed := s.pushed + [v])
            else s'.calls[t] == Done(Full) && Abs(s') == Abs(s)
  {
    QuietTail(s);
    ReachTail(s, t, v, 4);
    var s1 := Goto(s, t, InspectFree(v, false, s.tail, |s.pushed|));
    if |s.pushed| - s.taken < s.ring.cap { PushIntoFree(s1, t, v); } else { PushFindsFull(s1, t, v); }
  }

  /** Alone, a pop returns the oldest item if there is one and reports "empty" if there is none. */
  lemma PopAlone(s: Queue, t: Tid)
    requires Inv(s) && Quiet(s)
    ensures Inv(Goto(s, t, LoadHead))
    ensures var s' := Alone(Goto(s, t, LoadHead), t, 5);
            if s.taken < |s.pushed|
            then s'.calls[t] == Done(Got(s.pushed[s.taken])) && Abs(s') == Abs(s).(taken := s.taken + 1)
            else s'.calls[t] == Done(Empty) && Abs(s') == Abs(s)
  {
    QuietHead(s);
    ReachHead(s, t, 4);
    var s1 := Goto(s, t, InspectItem(s.head, s.taken));
    if s.taken < |s.pushed| { PopFromFull(s1, t); } else { PopFindsEmpty(s1, t); }
  }

  // ------------------------------------------------------------------------ the queue, in place

  /** The queue as it sits in memory; each method is one access by one thread. */
  class Memory {
    const ring: Ring
    var head: nat
    var tail: nat
    var slots: array<Slot>
    var calls: map<Tid, Call>
    var pushed: seq<Item>
    var taken: nat

    ghost function View(): Queue
      reads this, slots
    {
      Queue(ring, head, tail, slots[..], calls, pushed, taken)
    }

    constructor (g: Ring)
      requires g.Valid()
      ensures View() == New(g) && Inv(View()) && fresh(slots)
    {
      ring := g;
      head, tail, calls, pushed, taken := 0, 0, map[], [], 0;
      slots := new Slot[g.cap]((i: nat) => Slot(i, None, i, false, None));
      new;
      assert slots[..] == New(g).slots;
      NewKeeps(g);
    }

    ghost predicate Ready(t: Tid)
      reads this, slots
    {
      Inv(View()) && Active(View(), t) && Awake(View(), calls[t])
    }

    method Begin(t: Tid, c: Call)
      requires Inv(View()) && !Active(View(), t) && (c.LoadTail? || c.LoadHead? || c.LenTail?)
      modifies this`calls
      ensures View() == Goto(old(View()), t, c) && Inv(View())
    {
      GotoKeeps(View(), t, c);
      calls := calls[t := c];
    }

    /** The loads of a push. */
    method PushLoad(t: Tid)
      requires Ready(t) && (calls[t].LoadTail? || calls[t].CheckFull? || calls[t].InspectFree?)
      modifies this`calls
      ensures View() == PushStep(old(View()), t, false) && Inv(View())
    {
      PushKeeps(View(), t, false);
      assert CallInv(View(), t);
      var c := calls[t];
      if c.LoadTail? {
        c := if c.once then CheckFull(c.v, true, tail, |pushed|) else InspectFree(c.v, false, tail, |pushed|);
      } else if c.CheckFull? {
        if ring.AddLap(head) == c.w { c := Done(Full); }
        else { c := if c.once then InspectFree(c.v, true, c.w, c.q) else LoadTail(c.v, false); }
      } else {
        WordForm(ring, c.q);
        var stamp := slots[ring.Slot(c.w)].stamp;
        if stamp == c.w { c := MoveTail(c.v, c.once, c.w, c.q); }
        else if c.once { c := Done(Unsure); }
        else if ring.AddLap(stamp) == c.w + 1 { c := CheckFull(c.v, false, c.w, c.q); }
        else { c := LoadTail(c.v, false); }
      }
      calls := calls[t := c];
    }

    method ExchangeTail(t: Tid, spurious: bool)
      requires Ready(t) && calls[t].MoveTail?
      modifies this`tail, this`calls, this`pushed, slots
      ensures View() == PushStep(old(View()), t, spurious) && Inv(View())
    {
      PushKeeps(View(), t, spurious);
      assert CallInv(View(), t);
      var c := calls[t];
      if tail == c.w && !spurious {
        WordForm(ring, c.q);
        var i := ring.Slot(c.w);
        tail, pushed := ring.Next(c.w), pushed + [c.v];
        slots[i] := slots[i].(user := Some(t));
        calls := calls[t := WriteValue(c.v, c.w, c.q)];
        assert slots[..] == old(slots[..])[i := slots[i]];
      } else {
        calls := calls[t := if c.once then Done(Unsure) else InspectFree(c.v, false, tail, |pushed|)];
      }
    }

    /** The two stores that fill a claimed slot. */
    method FillSlot(t: Tid)
      requires Ready(t) && (calls[t].WriteValue? || calls[t].Publish?)
      modifies this`calls, slots
      ensures View() == PushStep(old(View()), t, false) && Inv(View())
    {
      PushKeeps(View(), t, false);
      assert CallInv(View(), t);
      var c := calls[t];
      WordForm(ring, c.q);
      var i := ring.Slot(c.w);
      if c.WriteValue? {
        slots[i] := slots[i].(value := Some(c.v));
        calls := calls[t := Publish(c.w, c.q)];
      } else {
        slots[i] := slots[i].(stamp := c.w + 1, full := true, user := None);
        calls := calls[t := Done(Sent)];
      }
      assert slots[..] == old(slots[..])[i := slots[i]];
    }

    /** The loads of a pop. */
    method PopLoad(t: Tid)
      requires Ready(t)
      requires calls[t].LoadHead? || calls[t].InspectItem? || calls[t].CheckEmpty? || calls[t].ReadValue?
      modifies this`calls
      ensures View() == PopStep(old(View()), t, false) && Inv(View())
    {
      PopKeeps(View(), t, false);
      assert CallInv(View(), t);
      var c := calls[t];
      if c.LoadHead? { c := InspectItem(head, taken); }
      else if c.CheckEmpty? { c := if tail == c.w then Done(Empty) else LoadHead; }
      else {
        WordForm(ring, c.h);
        var x := slots[ring.Slot(c.w)];
        assert SlotInv(View(), ring.Index(c.h));
        if c.ReadValue? { c := Release(c.w, c.h, x.value.value); }
        else if x.stamp == c.w + 1 { c := MoveHead(c.w, c.h); }
        else { c := if x.stamp == c.w then CheckEmpty(c.w, c.h) else LoadHead; }
      }
      calls := calls[t := c];
    }

    method ExchangeHead(t: Tid, spurious: bool)
      requires Ready(t) && calls[t].MoveHead?
      modifies this`head, this`calls, this`taken, slots
      ensures View() == PopStep(old(View()), t, spurious) && Inv(View())
    {
      PopKeeps(View(), t, spurious);
      assert CallInv(View(), t);
      var c := calls[t];
      if head == c.w && !spurious {
        WordForm(ring, c.h);
        var i := ring.Slot(c.w);
        head, taken := ring.Next(c.w), taken + 1;
        slots[i] := slots[i].(user := Some(t));
        calls := calls[t := ReadValue(c.w, c.h)];
        assert slots[..] == old(slots[..])[i := slots[i]];
      } else {
        calls := calls[t := InspectItem(head, taken)];
      }
    }

    method ReleaseSlot(t: Tid)
      requires Ready(t) && calls[t].Release?
      modifies this`calls, slots
      ensures View() == PopStep(old(View()), t, false) && Inv(View())
    {
      PopKeeps(View(), t, false);
      assert CallInv(View(), t);
      var c := calls[t];
      WordForm(ring, c.h);
      var i := ring.Slot(c.w);
      slots[i] := Slot(ring.AddLap(c.w), slots[i].value, c.h + ring.cap, false, None);
      calls := calls[t := Done(Got(c.v))];
      assert slots[..] == old(slots[..])[i := slots[i]];
    }

    method LenLoad(t: Tid)
      requires Ready(t) && (calls[t].LenTail? || calls[t].LenHead? || calls[t].LenAgain?)
      modifies this`calls
      ensures View() == LenStep(old(View()), t) && Inv(View())
    {
      LenKeeps(View(), t);
      var c := calls[t];
      if c.LenTail? { c := LenHead(tail, |pushed|); }
      else if c.LenHead? { c := LenAgain(c.w, c.q, head, taken, |pushed| - taken); }
      else { c := if tail == c.w then Done(Length(ring.Len(c.hw, c.w))) else LenTail; }
      calls := calls[t := c];
    }
  }
}