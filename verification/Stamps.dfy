/**
 Wrapping position words of the two-slot queues: a position is kept modulo `2 * half`, and its lowest
 bit selects the slot. `half` is 2^15 for the 16-bit words and 2^31 for the 32-bit ones.
 */
module Stamps {
  import opened LapRing

  /** Head and tail in one word, each below `m` (2^16 or 2^32). */
  function Pack(m: nat, head: nat, tail: nat): nat { head * m + tail }

  function Unpack(m: nat, word: nat): (nat, nat)
    requires m > 0
  {
    (word / m, word % m)
  }

  /** Packing loses nothing, so comparing packed words compares both halves. */
  lemma PackRoundTrip(m: nat, head: nat, tail: nat)
    requires head < m && tail < m
    ensures Unpack(m, Pack(m, head, tail)) == (head, tail) && Pack(m, head, tail) < m * m
  {
    var w := Pack(m, head, tail);
    SameSplit(w / m, w % m, head, tail, m);
    MulLeft(head + 1, m, m);
  }

  function Word(half: nat, p: nat): (w: nat)
    requires half > 0
    ensures w < 2 * half
  {
    if p < 2 * half then p else Word(half, p - 2 * half)
  }

  /** `wrapping_add(1)`. */
  function Bump(half: nat, w: nat): nat
    requires half > 0
  {
    if w + 1 == 2 * half then 0 else w + 1
  }

  /** The slot of a position, or of its word. */
  function Side(p: nat): (i: nat)
    ensures i < 2
  {
    if p < 2 then p else Side(p - 2)
  }

  lemma {:induction false} SideNext(p: nat)
    ensures Side(p + 1) == 1 - Side(p) && Side(p + 2) == Side(p)
  {
    if p >= 2 { SideNext(p - 2); }
  }

  lemma {:induction false} SideMinus(p: nat, half: nat)
    requires 2 * half <= p
    ensures Side(p - 2 * half) == Side(p)
  {
    if half > 0 { SideMinus(p - 2, half - 1); }
  }

  /** Wrapping keeps the slot. */
  lemma {:induction false} WordSide(half: nat, p: nat)
    requires half > 0
    ensures Side(Word(half, p)) == Side(p)
  {
    if p >= 2 * half {
      SideMinus(p, half);
      WordSide(half, p - 2 * half);
    }
  }

  lemma {:induction false} WordNext(half: nat, p: nat)
    requires half > 0
    ensures Word(half, p + 1) == Bump(half, Word(half, p))
  {
    if p >= 2 * half { WordNext(half, p - 2 * half); }
  }

  /** Two positions with the same word are equal or a whole turn apart. */
  lemma {:induction false} WordApart(half: nat, p: nat, q: nat)
    requires half > 0 && p < q && Word(half, p) == Word(half, q)
    ensures p + 2 * half <= q
  {
    if p >= 2 * half { WordApart(half, p - 2 * half, q - 2 * half); }
  }

  lemma {:induction false} SideJump(p: nat, j: nat)
    ensures Side(p + 2 * j) == Side(p)
  {
    if j > 0 {
      SideJump(p, j - 1);
      SideNext(p + 2 * (j - 1));
    }
  }

  /** Different positions of one slot are at least two apart. */
  lemma SideGap(p: nat, q: nat)
    requires p < q && Side(p) == Side(q)
    ensures p + 2 <= q
  {
    SideNext(p);
  }
}
