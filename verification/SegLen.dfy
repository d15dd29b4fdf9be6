/**
 `SegQueue::len`, called by any number of threads while pushes and pops go on: it loads the tail, the
 head and the tail again, and starts over unless the tail stood still.
 */
module SegLen {
  import opened Base
  import opened SegQueue

  /** Skips the index at a block's end, which holds no item. `w` is an index word, its low bit clear. */
  function PastEnd(w: nat): nat { if w / 2 % 32 == 31 then w + 2 else w }

  /** The distance of two indices, less one for every block end on the way, counted from the head's block. */
  function Spread(t: nat, h: nat): int {
    var start := h / 32 * 32;
    (t - start) - (h - start) - (t - start) / 32
  }

  /** The answer from the two words. */
  function Between(tailWord: nat, headWord: nat): int {
    var tail, head := PastEnd(tailWord - tailWord % 2), PastEnd(headWord - headWord % 2);
    Spread(tail / 2, head / 2)
  }

  /** On words of an index pair it is the number of items between the two. */
  lemma BetweenExact(tailWord: nat, headWord: nat, t: nat, h: nat)
    requires tailWord / 2 == t && headWord / 2 == h && h <= t
    ensures Between(tailWord, headWord) == Rank(t) - Rank(h)
  {
    var t', h' := PastEnd(tailWord - tailWord % 2) / 2, PastEnd(headWord - headWord % 2) / 2;
    Halves(tailWord, t);
    Halves(headWord, h);
    FixUp(t, t');
    FixUp(h, h');
    BetweenIs(tailWord, headWord, t', h');
  }

  lemma BetweenIs(tailWord: nat, headWord: nat, t: nat, h: nat)
    requires t == PastEnd(tailWord - tailWord % 2) / 2 && h == PastEnd(headWord - headWord % 2) / 2
    ensures Between(tailWord, headWord) == (t - t / 32) - (h - h / 32)
  {
    Rotated(t, h);
  }

  lemma Halves(w: nat, i: nat)
    requires w / 2 == i
    ensures PastEnd(w - w % 2) / 2 == if i % 32 == 31 then i + 1 else i
  {
  }

  /** Moving both indices back by whole blocks takes as many block ends off the tail as off the head. */
  lemma Rotated(t: nat, h: nat)
    ensures Spread(t, h) == (t - t / 32) - (h - h / 32)
  {
  }

  /** Skipping the index at a block's end changes no count. */
  lemma FixUp(i: nat, i': nat)
    requires i' == if i % 32 == 31 then i + 1 else i
    ensures Rank(i') == Rank(i) && Rank(i') == i' - i' / 32
  {
    Parts(i);
    Parts(i');
  }

  /** The arithmetic of the answer, step by step as the code does it. */
  method Compute(tailWord: nat, headWord: nat) returns (n: int)
    ensures n == Between(tailWord, headWord)
  {
    var tail, head := tailWord - tailWord % 2, headWord - headWord % 2;
    if tail / 2 % 32 == 31 { tail := tail + 2; }
    if head / 2 % 32 == 31 { head := head + 2; }
    var lap := head / 2 / 32;
    var tail', head' := tail - lap * 32 * 2, head - lap * 32 * 2;
    n := tail' / 2 - head' / 2 - tail' / 2 / 32;
  }

  // ----------------------------------------------------------------------------------- the calls

  /**
   `i` is the tail index loaded first and `w` the head word. When the head was loaded the tail was `at`
   and the queue held `was` items; no branch looks at those two.
   */
  datatype LenCall =
    | LenTail
    | LenHead(i: nat)
    | LenAgain(i: nat, w: nat, at: nat, was: int)
    | Answered(n: int, was: int)

  datatype System = System(q: Queue, lens: map<Tid, LenCall>)

  function HeadWord(q: Queue): nat { 2 * q.head + (if q.hasNext then 1 else 0) }

  ghost predicate CallInv(c: LenCall, q: Queue) {
    match c
    case LenTail => true
    case LenHead(i) => i <= q.tail
    case LenAgain(i, w, at, was) => i <= at <= q.tail && w / 2 <= at && was == Rank(at) - Rank(w / 2)
    case Answered(n, was) => n == was
  }

  ghost predicate SysInv(s: System) {
    Inv(s.q) && forall t {:trigger s.lens[t]} :: t in s.lens ==> CallInv(s.lens[t], s.q)
  }

  function NextCall(c: LenCall, q: Queue): LenCall {
    match c
    case LenTail => LenHead(q.tail)
    case LenHead(i) => LenAgain(i, HeadWord(q), q.tail, |q.pushed| - q.taken)
    case LenAgain(i, w, at, was) => if q.tail == i then Answered(Between(2 * i, w), was) else LenTail
    case Answered(_, _) => c
  }

  datatype LenMove = OnQueue(m: Move) | Begin(t: Tid) | Go(t: Tid)

  predicate CanGo(s: System, m: LenMove) {
    match m
    case OnQueue(qm) => Enabled(s.q, qm)
    case Begin(t) => t in s.lens ==> s.lens[t].Answered?
    case Go(t) => t in s.lens && !s.lens[t].Answered?
  }

  function Step(s: System, m: LenMove): System
    requires Inv(s.q) && CanGo(s, m)
  {
    match m
    case OnQueue(qm) => s.(q := Apply(s.q, qm))
    case Begin(t) => s.(lens := s.lens[t := LenTail])
    case Go(t) => s.(lens := s.lens[t := NextCall(s.lens[t], s.q)])
  }

  /** The tail never goes back. */
  lemma TailGrows(q: Queue, m: Move)
    requires Inv(q) && Enabled(q, m)
    ensures q.tail <= Apply(q, m).tail
  {
    if m.Push? { PushTail(q, m.t, m.spurious); }
  }

  lemma PushTail(q: Queue, t: Tid, spurious: bool)
    requires Inv(q) && Active(q, t)
    ensures q.tail <= PushStep(q, t, spurious).tail
  {
  }

  lemma CallKeeps(c: LenCall, q: Queue)
    requires Inv(q) && CallInv(c, q)
    ensures CallInv(NextCall(c, q), q)
  {
    if c.LenAgain? && q.tail == c.i { BetweenExact(2 * c.i, c.w, c.i, c.w / 2); }
  }

  lemma StepKeeps(s: System, m: LenMove)
    requires SysInv(s) && CanGo(s, m)
    ensures SysInv(Step(s, m))
  {
    var s' := Step(s, m);
    if m.OnQueue? {
      ApplyKeeps(s.q, m.m);
      TailGrows(s.q, m.m);
    } else if m.Go? {
      CallKeeps(s.lens[m.t], s.q);
    }
    forall t | t in s'.lens ensures CallInv(s'.lens[t], s'.q) {
      if t in s.lens { assert CallInv(s.lens[t], s.q); }
    }
  }

  /**
   An answer is the number of items the queue held at one instant of the call: that of its last load of
   the head.
   */
  lemma LenReport(s: System, t: Tid)
    requires SysInv(s) && t in s.lens && NextCall(s.lens[t], s.q).Answered?
    ensures NextCall(s.lens[t], s.q).n == s.lens[t].was
  {
    assert CallInv(s.lens[t], s.q);
    CallKeeps(s.lens[t], s.q);
  }

  /** Undisturbed, a call of `len` answers after three loads, with the length. */
  lemma LenAlone(q: Queue)
    requires Inv(q)
    ensures NextCall(NextCall(NextCall(LenTail, q), q), q) == Answered(|q.pushed| - q.taken, |q.pushed| - q.taken)
  {
    CallKeeps(LenTail, q);
    CallKeeps(LenHead(q.tail), q);
    CallKeeps(NextCall(LenHead(q.tail), q), q);
  }

  /** The calls of `len` on a queue in memory. */
  class Calls {
    const queue: Memory
    var lens: map<Tid, LenCall>

    ghost function View(): System
      reads this, queue
    {
      System(queue.View(), lens)
    }

    constructor (queue: Memory)
      requires Inv(queue.View())
      ensures this.queue == queue && lens == map[] && SysInv(View())
    {
      this.queue := queue;
      lens := map[];
    }

    /** One load of `len`. */
    method Load(t: Tid)
      requires SysInv(View()) && t in lens && !lens[t].Answered?
      modifies this`lens
      ensures View() == Step(old(View()), Go(t)) && SysInv(View())
    {
      StepKeeps(View(), Go(t));
      var c := lens[t];
      match c {
      case LenTail => c := LenHead(queue.tail);
      case LenHead(i) =>
        var w := 2 * queue.head;
        if queue.hasNext { w := w + 1; }
        c := LenAgain(i, w, queue.tail, |queue.pushed| - queue.taken);
      case LenAgain(i, w, at, was) =>
        c := LenTail;
        if queue.tail == i {
          var n := Compute(2 * i, w);
          c := Answered(n, was);
        }
      }
      lens := lens[t := c];
    }
  }
}
