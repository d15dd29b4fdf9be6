/**
 `One`: the queue of capacity one for any number of producers and consumers.

 Head and tail are packed in one word, so their exchanges claim positions; two slots with 16-bit
 stamps let a push overlap the previous pop. A position's word wraps after 2^16, and claimed
 operations may be delayed, so two operations on one slot could wait for the same stamp. They never
 do while fewer than 2^15 operations are in flight, which is what `Crowd` asks.
 */
module One {
  import opened Base
  import opened AbstractFifo
  import opened Stamps

  const HALF: nat := 0x8000

  /** A slot; it serves position `turn`, which has been written if `full`. */
  datatype Slot = Slot(stamp: nat, value: Option<Item>, turn: nat, full: bool)

  datatype Answer = Sent | Full | Got(value: Item) | Empty

  /** `h` and `w` are the head and tail words seen; after the claim, `p` is the position claimed. */
  datatype Call =
    | Done(answer: Answer)
    | PushLoad(v: Item)
    | PushExchange(v: Item, h: nat, w: nat)
    | AwaitFree(v: Item, w: nat, p: nat)
    | WriteValue(v: Item, w: nat, p: nat)
    | Publish(v: Item, w: nat, p: nat)
    | PopLoad
    | PopExchange(h: nat, w: nat)
    | AwaitFull(i: nat, w: nat, p: nat)
    | TakeValue(i: nat, w: nat, p: nat)
    | Release(i: nat, w: nat, p: nat, v: Item)

  /** `writers` and `readers` name the call that works for a claimed position. */
  datatype Queue = Queue(
    head: nat, tail: nat, slots: seq<Slot>, calls: map<Tid, Call>,
    pushed: seq<Item>, taken: nat, writers: map<nat, Tid>, readers: map<nat, Tid>)

  function New(): Queue {
    Queue(0, 0, [Slot(0, None, 0, false), Slot(1, None, 1, false)], map[], [], 0, map[], map[])
  }

  predicate Writing(c: Call, p: nat) { (c.AwaitFree? || c.WriteValue? || c.Publish?) && c.p == p }

  predicate Reading(c: Call, p: nat) { (c.AwaitFull? || c.TakeValue? || c.Release?) && c.p == p }

  predicate Claimed(c: Call) {
    c.AwaitFree? || c.WriteValue? || c.Publish? || c.AwaitFull? || c.TakeValue? || c.Release?
  }

  predicate Active(s: Queue, t: Tid) { t in s.calls && !s.calls[t].Done? }

  function Busy(s: Queue): set<Tid> { set t | t in s.calls && !s.calls[t].Done? }

  /** Fewer than 2^15 operations are in flight. */
  predicate Crowd(s: Queue) { |Busy(s)| < HALF }

  ghost predicate SlotInv(x: Slot, i: nat, pushed: seq<Item>, taken: nat) {
    && Side(x.turn) == i
    && x.stamp == Word(HALF, if x.full then x.turn + 1 else x.turn)
    && x.turn <= taken + 1
    && (x.full ==> x.turn < |pushed| && x.value == Some(pushed[x.turn]))
  }

  ghost predicate Shape(s: Queue) {
    && |s.slots| == 2
    && s.head == Word(HALF, s.taken) && s.tail == Word(HALF, |s.pushed|)
    && s.taken <= |s.pushed| <= s.taken + 1
    && SlotInv(s.slots[0], 0, s.pushed, s.taken)
    && SlotInv(s.slots[1], 1, s.pushed, s.taken)
  }

  /** Position `p` is claimed by a push that has not published it. */
  predicate ToWrite(s: Queue, p: nat)
    requires |s.slots| == 2
  {
    var x := s.slots[Side(p)];
    p < |s.pushed| && (x.turn < p || (x.turn == p && !x.full))
  }

  /** Position `p` is claimed by a pop that has not released it. */
  predicate ToRead(s: Queue, p: nat)
    requires |s.slots| == 2
  {
    p < s.taken && s.slots[Side(p)].turn <= p
  }

  ghost predicate WriterInv(s: Queue, p: nat)
    requires |s.slots| == 2
  {
    && (p in s.writers <==> ToWrite(s, p))
    && (p in s.writers ==> s.writers[p] in s.calls && Writing(s.calls[s.writers[p]], p))
  }

  ghost predicate ReaderInv(s: Queue, p: nat)
    requires |s.slots| == 2
  {
    && (p in s.readers <==> ToRead(s, p))
    && (p in s.readers ==> s.readers[p] in s.calls && Reading(s.calls[s.readers[p]], p))
  }

  ghost predicate CallInv(s: Queue, t: Tid)
    requires |s.slots| == 2 && t in s.calls
  {
    var c := s.calls[t];
    && (c.PushExchange? ==> c.h == c.w)
    && (c.PopExchange? ==> c.h != c.w)
    && (c.AwaitFree? || c.WriteValue? || c.Publish? ==>
          && c.p in s.writers && s.writers[c.p] == t
          && c.p < |s.pushed| && c.v == s.pushed[c.p] && c.w == Word(HALF, c.p))
    && (c.AwaitFull? || c.TakeValue? || c.Release? ==>
          && c.p in s.readers && s.readers[c.p] == t
          && c.w == Word(HALF, c.p + 1) && c.i == Side(c.p))
    && (c.WriteValue? || c.Publish? ==> s.slots[Side(c.p)].turn == c.p)
    && (c.Publish? ==> s.slots[Side(c.p)].value == Some(c.v))
    && (c.TakeValue? || c.Release? ==> s.slots[Side(c.p)].turn == c.p && s.slots[Side(c.p)].full)
    && (c.Release? ==> c.p < |s.pushed| && c.v == s.pushed[c.p])
  }

  ghost predicate Inv(s: Queue) {
    && Shape(s)
    && Crowd(s)
    && (forall p: nat {:trigger WriterInv(s, p)} :: WriterInv(s, p))
    && (forall p: nat {:trigger ReaderInv(s, p)} :: ReaderInv(s, p))
    && (forall t {:trigger s.calls[t]} :: t in s.calls ==> CallInv(s, t))
  }

  // -------------------------------------------------------------------------------------- the steps

  function Goto(s: Queue, t: Tid, c: Call): Queue { s.(calls := s.calls[t := c]) }

  /** What a push does with the word it has just seen. */
  function PushDecide(s: Queue, v: Item): Call {
    if s.head == s.tail then PushExchange(v, s.head, s.tail) else Done(Full)
  }

  /** What a pop does with the word it has just seen. */
  function PopDecide(s: Queue): Call {
    if s.head == s.tail then Done(Empty) else PopExchange(s.head, s.tail)
  }

  function Put(s: Queue, i: nat, x: Slot): Queue
    requires i < |s.slots|
  {
    s.(slots := s.slots[i := x])
  }

  /** The exchange of a push succeeded: the tail position is claimed. */
  function ClaimTail(s: Queue, t: Tid): Queue
    requires t in s.calls && s.calls[t].PushExchange?
  {
    var PushExchange(v, h, w) := s.calls[t];
    s.(tail := Bump(HALF, w), pushed := s.pushed + [v], writers := s.writers[|s.pushed| := t],
       calls := s.calls[t := AwaitFree(v, w, |s.pushed|)])
  }

  /** The exchange of a pop succeeded: the head position is claimed. */
  function ClaimHead(s: Queue, t: Tid): Queue
    requires t in s.calls && s.calls[t].PopExchange?
  {
    var PopExchange(h, w) := s.calls[t];
    s.(head := w, taken := s.taken + 1, readers := s.readers[s.taken := t],
       calls := s.calls[t := AwaitFull(Side(h), w, s.taken)])
  }

  /** The last store of a push lets the consumer in. */
  function Published(s: Queue, t: Tid): Queue
    requires |s.slots| == 2 && t in s.calls && s.calls[t].Publish?
  {
    var Publish(v, w, p) := s.calls[t];
    var i := Side(w);
    Goto(Put(s, i, s.slots[i].(stamp := Bump(HALF, w), full := true)).(writers := s.writers - {p}), t, Done(Sent))
  }

  /** The last store of a pop lets the next producer in. */
  function Released(s: Queue, t: Tid): Queue
    requires |s.slots| == 2 && t in s.calls && s.calls[t].Release? && s.calls[t].i < 2
  {
    var Release(i, w, p, v) := s.calls[t];
    Goto(Put(s, i, s.slots[i].(stamp := Bump(HALF, w), turn := p + 2, full := false)).(readers := s.readers - {p}),
         t, Done(Got(v)))
  }

  /** One access of `_try_push`, `_pop`, `Slot::write` or `Slot::read`. */
  function Step(s: Queue, t: Tid, spurious: bool): Queue
    requires Inv(s) && Active(s, t)
  {
    assert CallInv(s, t);
    match s.calls[t]
    case PushLoad(v) => Goto(s, t, PushDecide(s, v))
    case PushExchange(v, h, w) =>
      if (s.head, s.tail) == (h, w) && !spurious then ClaimTail(s, t) else Goto(s, t, PushDecide(s, v))
    case AwaitFree(v, w, p) => if s.slots[Side(w)].stamp == w then Goto(s, t, WriteValue(v, w, p)) else s
    case WriteValue(v, w, p) =>
      Goto(Put(s, Side(w), s.slots[Side(w)].(value := Some(v))), t, Publish(v, w, p))
    case Publish(v, w, p) => Published(s, t)
    case PopLoad => Goto(s, t, PopDecide(s))
    case PopExchange(h, w) =>
      if (s.head, s.tail) == (h, w) && !spurious then ClaimHead(s, t) else Goto(s, t, PopDecide(s))
    case AwaitFull(i, w, p) => if s.slots[i].stamp == w then Goto(s, t, TakeValue(i, w, p)) else s
    case TakeValue(i, w, p) =>
      assert SlotInv(s.slots[i], i, s.pushed, s.taken);
      Goto(s, t, Release(i, w, p, s.slots[i].value.value))
    case Release(i, w, p, v) => Released(s, t)
  }

  // ----------------------------------------------------------- stamps never confuse two positions

  function Later(p: nat, j: nat): nat { p + 2 * j }

  /** The calls working for the `n` positions `p`, `p + 2`, ... are `n` different ones. */
  ghost function WritersFrom(s: Queue, p: nat, n: nat): (r: set<Tid>)
    requires Inv(s) && forall j: nat :: j < n ==> Later(p, j) in s.writers
    ensures |r| == n && r <= Busy(s)
    ensures forall u :: u in r ==> exists q: nat :: q < p + 2 * n && Writing(s.calls[u], q)
  {
    if n == 0 then {}
    else
      var q := Later(p, n - 1);
      assert WriterInv(s, q);
      WritersFrom(s, p, n - 1) + {s.writers[q]}
  }

  ghost function ReadersFrom(s: Queue, p: nat, n: nat): (r: set<Tid>)
    requires Inv(s) && forall j: nat :: j < n ==> Later(p, j) in s.readers
    ensures |r| == n && r <= Busy(s)
    ensures forall u :: u in r ==> exists q: nat :: q < p + 2 * n && Reading(s.calls[u], q)
  {
    if n == 0 then {}
    else
      var q := Later(p, n - 1);
      assert ReaderInv(s, q);
      ReadersFrom(s, p, n - 1) + {s.readers[q]}
  }

  /** A slot lets a push in exactly at the push's own turn. */
  lemma FreeStamp(s: Queue, t: Tid)
    requires Inv(s) && t in s.calls && s.calls[t].AwaitFree?
    ensures var c := s.calls[t]; var x := s.slots[Side(c.w)];
            && Side(c.w) == Side(c.p) && x.turn <= c.p
            && (x.stamp == c.w <==> x.turn == c.p && !x.full)
  {
    var c := s.calls[t];
    assert CallInv(s, t);
    assert WriterInv(s, c.p);
    WordSide(HALF, c.p);
    var x := s.slots[Side(c.p)];
    assert SlotInv(x, Side(c.p), s.pushed, s.taken);
    if x.stamp == c.w {
      WordSide(HALF, if x.full then x.turn + 1 else x.turn);
      SideNext(x.turn);
      if x.turn < c.p { TooManyWriters(s, x.turn, c.p); }
    }
  }

  lemma TooManyWriters(s: Queue, p: nat, q: nat)
    requires Inv(s) && p < q < |s.pushed| && s.slots[Side(p)].turn == p && !s.slots[Side(p)].full
    ensures Word(HALF, p) != Word(HALF, q)
  {
    if Word(HALF, p) == Word(HALF, q) {
      WordApart(HALF, p, q);
      forall j: nat | j < HALF ensures Later(p, j) in s.writers {
        SideJump(p, j);
        assert WriterInv(s, p + 2 * j);
      }
      Subset(WritersFrom(s, p, HALF), Busy(s));
    }
  }

  lemma TooManyReaders(s: Queue, p: nat, q: nat)
    requires Inv(s) && p < q < s.taken && s.slots[Side(p)].turn == p
    ensures Word(HALF, p + 1) != Word(HALF, q + 1)
  {
    if Word(HALF, p + 1) == Word(HALF, q + 1) {
      WordApart(HALF, p + 1, q + 1);
      forall j: nat | j < HALF ensures Later(p, j) in s.readers {
        SideJump(p, j);
        assert ReaderInv(s, p + 2 * j);
      }
      Subset(ReadersFrom(s, p, HALF), Busy(s));
    }
  }

  /** A slot lets a pop in exactly when it holds the pop's own item. */
  lemma FullStamp(s: Queue, t: Tid)
    requires Inv(s) && t in s.calls && s.calls[t].AwaitFull?
    ensures var c := s.calls[t]; var x := s.slots[Side(c.p)];
            && c.i == Side(c.p) && x.turn <= c.p
            && (x.stamp == c.w <==> x.turn == c.p && x.full)
  {
    var c := s.calls[t];
    assert CallInv(s, t);
    assert ReaderInv(s, c.p);
    var x := s.slots[Side(c.p)];
    assert SlotInv(x, Side(c.p), s.pushed, s.taken);
    if x.stamp == c.w {
      WordSide(HALF, if x.full then x.turn + 1 else x.turn);
      WordSide(HALF, c.p + 1);
      SideNext(x.turn);
      SideNext(c.p);
      if x.turn < c.p { TooManyReaders(s, x.turn, c.p); }
    }
  }

  // ---------------------------------------------------------------- every step keeps the invariant

  lemma NewKeeps(s: Queue)
    requires s == New()
    ensures Inv(s)
  {
    assert Busy(s) == {};
    assert Side(0) == 0 && Side(1) == 1;
  }

  /** Nobody is added to the crowd by a call that goes on. */
  lemma CrowdKept(s: Queue, s': Queue, t: Tid, c: Call)
    requires Crowd(s) && s'.calls == s.calls[t := c] && (Active(s, t) || |Busy(s)| + 1 < HALF)
    ensures Crowd(s')
  {
    Subset(Busy(s'), Busy(s) + {t});
    if Active(s, t) { assert Busy(s) + {t} == Busy(s); }
  }

  lemma GotoKeeps(s: Queue, t: Tid, c: Call)
    requires Inv(s) && (Active(s, t) || |Busy(s)| + 1 < HALF) && CallInv(Goto(s, t, c), t)
    requires t in s.calls ==>
               forall p: nat :: (Writing(s.calls[t], p) ==> Writing(c, p)) && (Reading(s.calls[t], p) ==> Reading(c, p))
    ensures Inv(Goto(s, t, c))
  {
    var s' := Goto(s, t, c);
    CrowdKept(s, s', t, c);
    forall p: nat ensures WriterInv(s', p) { assert WriterInv(s, p); }
    forall p: nat ensures ReaderInv(s', p) { assert ReaderInv(s, p); }
    forall u | u in s'.calls ensures CallInv(s', u) {
      if u != t { assert CallInv(s, u); }
    }
  }

  /** The packed words are equal exactly when the queue is empty. */
  lemma EmptyTest(s: Queue)
    requires Shape(s)
    ensures s.head == s.tail <==> |s.pushed| == s.taken
  {
    if s.taken < |s.pushed| && s.head == s.tail { WordApart(HALF, s.taken, |s.pushed|); }
  }

  lemma ClaimTailKeeps(s: Queue, t: Tid)
    requires Inv(s) && t in s.calls && s.calls[t].PushExchange?
    requires (s.head, s.tail) == (s.calls[t].h, s.calls[t].w)
    ensures Inv(ClaimTail(s, t)) && |s.pushed| == s.taken
  {
    var s', n := ClaimTail(s, t), |s.pushed|;
    assert CallInv(s, t);
    EmptyTest(s);
    WordNext(HALF, n);
    CrowdKept(s, s', t, s'.calls[t]);
    forall p: nat ensures WriterInv(s', p) {
      assert WriterInv(s, p);
      if p == n {
        assert SlotInv(s.slots[Side(n)], Side(n), s.pushed, s.taken);
        SideNext(n);
      }
    }
    forall p: nat ensures ReaderInv(s', p) { assert ReaderInv(s, p); }
    assert WriterInv(s, n);
    forall u | u in s'.calls ensures CallInv(s', u) {
      if u != t { assert CallInv(s, u); } else { assert WriterInv(s', n); }
    }
  }

  lemma ClaimHeadKeeps(s: Queue, t: Tid)
    requires Inv(s) && t in s.calls && s.calls[t].PopExchange?
    requires (s.head, s.tail) == (s.calls[t].h, s.calls[t].w)
    ensures Inv(ClaimHead(s, t)) && |s.pushed| == s.taken + 1
  {
    var s', n := ClaimHead(s, t), s.taken;
    assert CallInv(s, t);
    EmptyTest(s);
    WordSide(HALF, n);
    CrowdKept(s, s', t, s'.calls[t]);
    forall p: nat ensures WriterInv(s', p) { assert WriterInv(s, p); }
    forall p: nat ensures ReaderInv(s', p) {
      assert ReaderInv(s, p);
      if p == n {
        assert SlotInv(s.slots[Side(n)], Side(n), s.pushed, s.taken);
        SideNext(n);
      }
    }
    assert ReaderInv(s, n);
    forall u | u in s'.calls ensures CallInv(s', u) {
      if u != t { assert CallInv(s, u); } else { assert ReaderInv(s', n); }
    }
  }

  predicate InSlot(c: Call, i: nat) {
    (c.WriteValue? || c.Publish? || c.TakeValue? || c.Release?) && Side(c.p) == i
  }

  /** No slot is ever in use by two operations. */
  lemma OneUserPerSlot(s: Queue, t: Tid, u: Tid, i: nat)
    requires Inv(s) && t in s.calls && u in s.calls && InSlot(s.calls[t], i) && InSlot(s.calls[u], i)
    ensures t == u
  {
    assert CallInv(s, t) && CallInv(s, u);
    assert WriterInv(s, s.calls[t].p) && ReaderInv(s, s.calls[t].p);
    assert WriterInv(s, s.calls[u].p);
  }

  lemma WriteKeeps(s: Queue, t: Tid)
    requires Inv(s) && t in s.calls && s.calls[t].WriteValue?
    ensures Inv(Step(s, t, false))
  {
    var s', c := Step(s, t, false), s.calls[t];
    assert CallInv(s, t);
    WordSide(HALF, c.p);
    assert WriterInv(s, c.p);
    CrowdKept(s, s', t, s'.calls[t]);
    forall p: nat ensures WriterInv(s', p) { assert WriterInv(s, p); }
    forall p: nat ensures ReaderInv(s', p) { assert ReaderInv(s, p); }
    forall u | u in s'.calls ensures CallInv(s', u) {
      if u != t {
        assert CallInv(s, u);
        if InSlot(s.calls[u], Side(c.p)) { OneUserPerSlot(s, t, u, Side(c.p)); }
      }
    }
  }

  lemma PublishKeeps(s: Queue, t: Tid)
    requires Inv(s) && t in s.calls && s.calls[t].Publish?
    ensures Inv(Published(s, t))
  {
    var s', c := Published(s, t), s.calls[t];
    assert CallInv(s, t);
    WordSide(HALF, c.p);
    WordNext(HALF, c.p);
    assert WriterInv(s, c.p);
    CrowdKept(s, s', t, s'.calls[t]);
    forall p: nat ensures WriterInv(s', p) { assert WriterInv(s, p); }
    forall p: nat ensures ReaderInv(s', p) { assert ReaderInv(s, p); }
    forall u | u in s'.calls ensures CallInv(s', u) {
      if u != t {
        assert CallInv(s, u);
        if InSlot(s.calls[u], Side(c.p)) { OneUserPerSlot(s, t, u, Side(c.p)); }
      }
    }
  }

  lemma ReleaseKeeps(s: Queue, t: Tid)
    requires Inv(s) && t in s.calls && s.calls[t].Release? && s.calls[t].i < 2
    ensures Inv(Released(s, t))
  {
    var s', c := Released(s, t), s.calls[t];
    assert CallInv(s, t);
    SideNext(c.p);
    WordNext(HALF, c.p + 1);
    assert ReaderInv(s, c.p);
    CrowdKept(s, s', t, s'.calls[t]);
    forall p: nat ensures WriterInv(s', p) {
      assert WriterInv(s, p);
      if Side(p) == c.i && c.p < p { SideGap(c.p, p); }
    }
    forall p: nat ensures ReaderInv(s', p) {
      assert ReaderInv(s, p);
      if Side(p) == c.i && c.p < p { SideGap(c.p, p); }
    }
    forall u | u in s'.calls ensures CallInv(s', u) {
      if u != t {
        assert CallInv(s, u);
        if InSlot(s.calls[u], Side(c.p)) { OneUserPerSlot(s, t, u, Side(c.p)); }
      }
    }
  }

  lemma PushKeeps(s: Queue, t: Tid, spurious: bool)
    requires Inv(s) && t in s.calls && (s.calls[t].PushLoad? || s.calls[t].PushExchange? || s.calls[t].AwaitFree?)
    ensures Inv(Step(s, t, spurious))
  {
    assert CallInv(s, t);
    match s.calls[t] {
    case PushLoad(v) => GotoKeeps(s, t, PushDecide(s, v));
    case PushExchange(v, h, w) =>
      if (s.head, s.tail) == (h, w) && !spurious { ClaimTailKeeps(s, t); } else { GotoKeeps(s, t, PushDecide(s, v)); }
    case AwaitFree(v, w, p) =>
      FreeStamp(s, t);
      if s.slots[Side(w)].stamp == w { GotoKeeps(s, t, WriteValue(v, w, p)); }
    }
  }

  lemma PopKeeps(s: Queue, t: Tid, spurious: bool)
    requires Inv(s) && t in s.calls
    requires s.calls[t].PopLoad? || s.calls[t].PopExchange? || s.calls[t].AwaitFull? || s.calls[t].TakeValue?
    ensures Inv(Step(s, t, spurious))
  {
    assert CallInv(s, t);
    match s.calls[t] {
    case PopLoad => GotoKeeps(s, t, PopDecide(s));
    case PopExchange(h, w) =>
      if (s.head, s.tail) == (h, w) && !spurious { ClaimHeadKeeps(s, t); } else { GotoKeeps(s, t, PopDecide(s)); }
    case AwaitFull(i, w, p) =>
      FullStamp(s, t);
      if s.slots[i].stamp == w { GotoKeeps(s, t, TakeValue(i, w, p)); }
    case TakeValue(i, w, p) =>
      assert SlotInv(s.slots[i], i, s.pushed, s.taken);
      GotoKeeps(s, t, Release(i, w, p, s.slots[i].value.value));
    }
  }

  lemma StepKeeps(s: Queue, t: Tid, spurious: bool)
    requires Inv(s) && Active(s, t)
    ensures Inv(Step(s, t, spurious))
  {
    assert CallInv(s, t);
    if s.calls[t].WriteValue? { WriteKeeps(s, t); }
    else if s.calls[t].Publish? { PublishKeeps(s, t); }
    else if s.calls[t].Release? { ReleaseKeeps(s, t); }
    else if s.calls[t].PushLoad? || s.calls[t].PushExchange? || s.calls[t].AwaitFree? { PushKeeps(s, t, spurious); }
    else { PopKeeps(s, t, spurious); }
  }

  // ------------------------------------------------------------------ what the invariant promises

  /** "Full" is answered exactly when an item is queued at the instant of the access. */
  lemma FullReport(s: Queue, t: Tid, spurious: bool)
    requires Inv(s) && t in s.calls && (s.calls[t].PushLoad? || s.calls[t].PushExchange?)
    ensures Step(s, t, spurious).calls[t] == Done(Full) <==> |s.pushed| == s.taken + 1
  {
    assert CallInv(s, t);
    EmptyTest(s);
  }

  /** "Empty" is answered exactly when no item is queued at the instant of the access. */
  lemma EmptyReport(s: Queue, t: Tid, spurious: bool)
    requires Inv(s) && t in s.calls && (s.calls[t].PopLoad? || s.calls[t].PopExchange?)
    ensures Step(s, t, spurious).calls[t] == Done(Empty) <==> |s.pushed| == s.taken
  {
    assert CallInv(s, t);
    EmptyTest(s);
  }

  /** A pop that claimed position `p` answers with the `p`-th item pushed. */
  lemma PopAnswers(s: Queue, t: Tid)
    requires Inv(s) && t in s.calls && s.calls[t].Release?
    ensures var c := s.calls[t];
            && c.p < s.taken <= |s.pushed|
            && Step(s, t, false).calls[t] == Done(Got(s.pushed[c.p]))
            && forall u :: u in s.calls && Reading(s.calls[u], c.p) ==> u == t
  {
    var c := s.calls[t];
    assert CallInv(s, t);
    assert ReaderInv(s, c.p);
    forall u | u in s.calls && Reading(s.calls[u], c.p) ensures u == t { assert CallInv(s, u); }
  }

  /** Whose turn it is at a slot where somebody waits. */
  ghost function Next(s: Queue, i: nat): (u: Option<Tid>)
    requires Shape(s) && i < 2
  {
    var x := s.slots[i];
    if x.full then if x.turn in s.readers then Some(s.readers[x.turn]) else None
    else if x.turn in s.writers then Some(s.writers[x.turn]) else None
  }

  /** A wait for a stamp is always a wait for a call under way, and that call is not itself waiting. */
  lemma WaitsForSomeone(s: Queue, t: Tid)
    requires Inv(s) && t in s.calls && (s.calls[t].AwaitFree? || s.calls[t].AwaitFull?)
    ensures var u := Next(s, Side(s.calls[t].p));
            u.Some? && Active(s, u.value) && Step(s, u.value, false) != s
  {
    var c := s.calls[t];
    var x := s.slots[Side(c.p)];
    assert CallInv(s, t);
    assert WriterInv(s, c.p) && ReaderInv(s, c.p);
    assert SlotInv(x, Side(c.p), s.pushed, s.taken);
    if x.turn < c.p { SideGap(x.turn, c.p); }
    assert WriterInv(s, x.turn) && ReaderInv(s, x.turn);
    var u := Next(s, Side(c.p)).value;
    assert CallInv(s, u);
    if s.calls[u].AwaitFree? { FreeStamp(s, u); }
    if s.calls[u].AwaitFull? { FullStamp(s, u); }
  }

  /** A claimed position has a call in flight until it is done with. */
  lemma Workers(s: Queue, p: nat)
    requires Inv(s)
    ensures ToWrite(s, p) ==> p in s.writers && s.writers[p] in Busy(s)
    ensures ToRead(s, p) ==> p in s.readers && s.readers[p] in Busy(s)
  {
    assert WriterInv(s, p) && ReaderInv(s, p);
  }

  /** What `Drop` finds when no call is under way: the queued item, if there is one. */
  lemma DropFinds(s: Queue)
    requires Inv(s) && Busy(s) == {}
    ensures s.head != s.tail ==>
              s.taken < |s.pushed| && s.slots[Side(s.head)].value == Some(s.pushed[s.taken])
    ensures s.head == s.tail ==> s.taken == |s.pushed|
  {
    EmptyTest(s);
    if s.head != s.tail {
      var p := s.taken;
      WordSide(HALF, p);
      var x := s.slots[Side(p)];
      assert SlotInv(x, Side(p), s.pushed, s.taken);
      SideNext(p);
      if x.turn < p { SideGap(x.turn, p); }
      Workers(s, p);
      Workers(s, x.turn);
    }
  }

  // -------------------------------------------------------------------------- refinement and runs

  ghost function Abs(s: Queue): Fifo { Fifo(Some(1), s.pushed, s.taken) }

  datatype Move = BeginPush(t: Tid, v: Item) | BeginPop(t: Tid) | Go(t: Tid, spurious: bool)

  predicate Enabled(s: Queue, m: Move) {
    match m
    case BeginPush(t, _) => !Active(s, t) && |Busy(s)| + 1 < HALF
    case BeginPop(t) => !Active(s, t) && |Busy(s)| + 1 < HALF
    case Go(t, _) => Active(s, t)
  }

  function Apply(s: Queue, m: Move): Queue
    requires Inv(s) && Enabled(s, m)
  {
    match m
    case BeginPush(t, v) => Goto(s, t, PushLoad(v))
    case BeginPop(t) => Goto(s, t, PopLoad)
    case Go(t, spurious) => Step(s, t, spurious)
  }

  lemma ApplyKeeps(s: Queue, m: Move)
    requires Inv(s) && Enabled(s, m)
    ensures Inv(Apply(s, m))
  {
    match m {
    case BeginPush(t, v) => GotoKeeps(s, t, PushLoad(v));
    case BeginPop(t) => GotoKeeps(s, t, PopLoad);
    case Go(t, spurious) => StepKeeps(s, t, spurious);
    }
  }

  /** The successful exchanges are the push and the pop. */
  ghost function EventOf(s: Queue, m: Move): Event
    requires Inv(s) && Enabled(s, m)
  {
    if !m.Go? || m.spurious then Silent
    else
      var c := s.calls[m.t];
      if c.PushExchange? && (s.head, s.tail) == (c.h, c.w) then Pushed(c.v)
      else if c.PopExchange? && (s.head, s.tail) == (c.h, c.w) && s.taken < |s.pushed| then Popped(s.pushed[s.taken])
      else Silent
  }

  lemma ApplyRefines(s: Queue, m: Move)
    requires Inv(s) && Enabled(s, m)
    ensures Allowed(Abs(s), EventOf(s, m), Abs(Apply(s, m)))
  {
    EmptyTest(s);
    if m.Go? { assert CallInv(s, m.t); }
  }

  /** The positions claimed by pops that have not returned yet. */
  ghost function Open(s: Queue): set<nat> { s.readers.Keys }

  /** What a move returns to the caller of a `pop`, with the position that call claimed. */
  ghost function ReceiptOf(s: Queue, m: Move): Option<Receipt>
    requires Inv(s) && Enabled(s, m)
  {
    if !m.Go? || m.t !in Step(s, m.t, m.spurious).calls then None
    else
      var c, c' := s.calls[m.t], Step(s, m.t, m.spurious).calls[m.t];
      if c'.Done? && c'.answer.Got? then Some(Receipt(if c.Release? then c.p else |s.pushed|, c'.answer.value))
      else None
  }

  /** A pop event opens its own position; the pop that claimed it closes it with the item of that event. */
  lemma ApplyServes(s: Queue, m: Move)
    requires Inv(s) && Enabled(s, m)
    ensures Serves(Abs(s), EventOf(s, m), ReceiptOf(s, m), Open(s), Open(Apply(s, m)))
  {
    EmptyTest(s);
    if m.Go? {
      assert CallInv(s, m.t);
      if s.calls[m.t].Release? { PopAnswers(s, m.t); }
    }
  }

  ghost predicate Sound(h: History<Queue>) { Inv(h.s) && Accounts(Abs(h.s), Open(h.s), h.record) }

  lemma FirstSound(s: Queue, r: Record)
    requires s == New() && |r.events| == 0 && |r.receipts| == 0
    ensures Sound(History(s, r))
  {
    NewKeeps(s);
    assert Open(s) == {};
    NothingDone(Abs(s), r);
  }

  ghost function Extend(h: History<Queue>, m: Move): (h': History<Queue>)
    requires Sound(h) && Enabled(h.s, m)
    ensures Sound(h')
  {
    ApplyKeeps(h.s, m);
    ApplyRefines(h.s, m);
    ApplyServes(h.s, m);
    AccountsNext(Abs(h.s), Open(h.s), h.record, EventOf(h.s, m), ReceiptOf(h.s, m),
                 Abs(Apply(h.s, m)), Open(Apply(h.s, m)));
    History(Apply(h.s, m), Then(h.record, EventOf(h.s, m), ReceiptOf(h.s, m)))
  }

  ghost function Run(ms: seq<Move>): (r: Option<History<Queue>>)
    ensures r.Some? ==> Sound(r.value)
  {
    if ms == [] then
      FirstSound(New(), Record([], []));
      Some(History(New(), Record([], [])))
    else
      var n := |ms| - 1;
      var r := Run(ms[..n]);
      if r.None? || !Enabled(r.value.s, ms[n]) then None else Some(Extend(r.value, ms[n]))
  }

  /**
   Over every run, however often the words wrap: first in, first out, at most one inside; and each pop
   returns the item of its own pop event, once.
   */
  lemma RunIsFifo(ms: seq<Move>)
    requires Run(ms).Some?
    ensures var r := Run(ms).value.record;
            && PoppedBy(r.events) <= PushedBy(r.events) && |PushedBy(r.events)| <= |PoppedBy(r.events)| + 1
            && InOrder(Open(Run(ms).value.s), r)
  {
    var h := Run(ms).value;
    FirstInFirstOut(Abs(h.s), h.record.events);
    AnsweredInOrder(Abs(h.s), Open(h.s), h.record);
  }

  // ------------------------------------------------------------------------ the queue, in place

  /** The queue as it sits in memory; each method is one access by one thread. */
  class Memory {
    var head: nat
    var tail: nat
    const slots: array<Slot>
    var calls: map<Tid, Call>
    var pushed: seq<Item>
    var taken: nat
    ghost var writers: map<nat, Tid>
    ghost var readers: map<nat, Tid>

    ghost function View(): Queue
      reads this, slots
    {
      Queue(head, tail, slots[..], calls, pushed, taken, writers, readers)
    }

    constructor ()
      ensures View() == New() && Inv(View()) && fresh(slots)
    {
      head, tail := 0, 0;
      slots := new Slot[2](i => Slot(if i < 1 then 0 else 1, None, if i < 1 then 0 else 1, false));
      calls, pushed, taken, writers, readers := map[], [], 0, map[], map[];
      new;
      assert slots[..] == New().slots;
      NewKeeps(View());
    }

    method Begin(t: Tid, c: Call)
      requires Inv(View()) && !Active(View(), t) && |Busy(View())| + 1 < HALF && (c.PushLoad? || c.PopLoad?)
      modifies this`calls
      ensures View() == Goto(old(View()), t, c) && Inv(View())
    {
      GotoKeeps(View(), t, c);
      calls := calls[t := c];
    }

    /** The load and the exchange of `_try_push`. */
    method TryPush(t: Tid, spurious: bool)
      requires Inv(View()) && t in calls && (calls[t].PushLoad? || calls[t].PushExchange?)
      modifies this`tail, this`pushed, this`writers, this`calls
      ensures View() == Step(old(View()), t, spurious) && Inv(View())
    {
      StepKeeps(View(), t, spurious);
      var c := calls[t];
      if c.PushExchange? && head == c.h && tail == c.w && !spurious {
        calls, writers := calls[t := AwaitFree(c.v, c.w, |pushed|)], writers[|pushed| := t];
        tail, pushed := Bump(HALF, c.w), pushed + [c.v];
      } else {
        calls := calls[t := if head == tail then PushExchange(c.v, head, tail) else Done(Full)];
      }
    }

    /** The load and the exchange of `_start_read`. */
    method StartRead(t: Tid, spurious: bool)
      requires Inv(View()) && t in calls && (calls[t].PopLoad? || calls[t].PopExchange?)
      modifies this`head, this`taken, this`readers, this`calls
      ensures View() == Step(old(View()), t, spurious) && Inv(View())
    {
      StepKeeps(View(), t, spurious);
      var c := calls[t];
      if c.PopExchange? && head == c.h && tail == c.w && !spurious {
        calls, readers := calls[t := AwaitFull(Side(c.h), c.w, taken)], readers[taken := t];
        head, taken := c.w, taken + 1;
      } else {
        calls := calls[t := if head == tail then Done(Empty) else PopExchange(head, tail)];
      }
    }

    /** A wait for a stamp looks once. */
    method LookAtStamp(t: Tid)
      requires Inv(View()) && t in calls && (calls[t].AwaitFree? || calls[t].AwaitFull?)
      modifies this`calls
      ensures View() == Step(old(View()), t, false) && Inv(View())
    {
      StepKeeps(View(), t, false);
      assert CallInv(View(), t);
      var c := calls[t];
      if c.AwaitFree? {
        if slots[Side(c.w)].stamp == c.w { calls := calls[t := WriteValue(c.v, c.w, c.p)]; }
      } else {
        if slots[c.i].stamp == c.w { calls := calls[t := TakeValue(c.i, c.w, c.p)]; }
      }
    }

    /** `Slot::write` after its wait: the value, then the stamp. */
    method Write(t: Tid)
      requires Inv(View()) && t in calls && (calls[t].WriteValue? || calls[t].Publish?)
      modifies this`writers, this`calls, slots
      ensures View() == Step(old(View()), t, false) && Inv(View())
    {
      StepKeeps(View(), t, false);
      var c := calls[t];
      var i := Side(c.w);
      if c.WriteValue? {
        slots[i] := slots[i].(value := Some(c.v));
        calls := calls[t := Publish(c.v, c.w, c.p)];
      } else {
        slots[i] := slots[i].(stamp := Bump(HALF, c.w), full := true);
        calls, writers := calls[t := Done(Sent)], writers - {c.p};
      }
    }

    /** `Slot::read` after its wait: the value, then the stamp. */
    method Read(t: Tid)
      requires Inv(View()) && t in calls && (calls[t].TakeValue? || calls[t].Release?)
      modifies this`readers, this`calls, slots
      ensures View() == Step(old(View()), t, false) && Inv(View())
    {
      StepKeeps(View(), t, false);
      assert CallInv(View(), t);
      var c := calls[t];
      if c.TakeValue? {
        assert SlotInv(View().slots[c.i], c.i, pushed, taken);
        calls := calls[t := Release(c.i, c.w, c.p, slots[c.i].value.value)];
      } else {
        slots[c.i] := slots[c.i].(stamp := Bump(HALF, c.w), turn := c.p + 2, full := false);
        calls, readers := calls[t := Done(Got(c.v))], readers - {c.p};
      }
    }
  }
}
