/**
 The `{ lap, index }` stamps that the three ring queues pack into one machine word.

 A position counts every push (or pop) since the queue was made and never wraps. The queues only
 store its word: the index in the low bits, the lap above it, everything modulo the word size.
 `Word(p)` is the word reached after `p` applications of the step the code performs; the lemmas
 say what comparisons of words mean for positions.
 */
module LapRing {
  import opened Base

  /** `cap` slots; `lap` is `one_lap`; the machine word holds `laps` laps. */
  datatype Ring = Ring(cap: nat, lap: nat, laps: nat) {

    ghost predicate Valid() {
      0 < cap < lap && 2 <= laps
    }

    /** Number of values of the machine word. */
    function Modulus(): nat {
      lap * laps
    }

    /** Positions whose words differ: the code tells two positions apart when closer than this. */
    function Period(): nat {
      laps * cap
    }

    /** `w & (one_lap - 1)`. */
    function Slot(w: nat): nat
      requires 0 < lap
    {
      w % lap
    }

    /** The successor stamp computed by every push and pop. */
    function Next(w: nat): nat
      requires Valid()
    {
      MulPos(lap, laps);
      if Slot(w) + 1 < cap then w + 1 else (w - Slot(w) + lap) % Modulus()
    }

    /** `w.wrapping_add(one_lap)`. */
    function AddLap(w: nat): nat
      requires Valid()
    {
      MulPos(lap, laps);
      (w + lap) % Modulus()
    }

    /** The word standing for position `p`. */
    function Word(p: nat): nat
      requires Valid()
    {
      if p == 0 then 0 else Next(Word(p - 1))
    }

    /** The slot that serves position `p`, and the lap it is served in. */
    ghost function Index(p: nat): nat
      requires Valid()
    {
      if p == 0 then 0 else if Index(p - 1) + 1 < cap then Index(p - 1) + 1 else 0
    }

    ghost function LapOf(p: nat): nat
      requires Valid()
    {
      if p == 0 then 0 else if Index(p - 1) + 1 < cap then LapOf(p - 1) else LapOf(p - 1) + 1
    }

    /** The number of queued items, as `len` and `Drop` compute it from two words. */
    function Len(head: nat, tail: nat): int
      requires Valid()
    {
      var hix, tix := Slot(head), Slot(tail);
      if hix < tix then tix - hix
      else if hix > tix then cap - hix + tix
      else if tail == head then 0
      else cap
    }
  }

  /** A packed 64-bit word: the cached other end in the high half, the own end in the low half. */
  datatype Cursor = Cursor(cached: nat, at: nat)

  lemma MulPos(a: nat, b: nat)
    requires 0 < a && 0 < b
    ensures a * b >= a
    ensures a * b >= b
  {
  }

  /** Quotient and remainder are unique. */
  lemma DivUnique(x: nat, m: nat, q: nat, r: nat)
    requires r < m && x == q * m + r
    ensures x % m == r
  {
    SameSplit(x / m, x % m, q, r, m);
  }

  lemma SameSplit(a: nat, i: nat, b: nat, j: nat, m: nat)
    requires i < m && j < m && a * m + i == b * m + j
    ensures a == b && i == j
  {
    if a < b { MulLeft(a + 1, b, m); }
    if b < a { MulLeft(b + 1, a, m); }
  }

  lemma MulLeft(a: nat, b: nat, m: nat)
    requires a <= b
    ensures a * m <= b * m
  {
  }

  lemma MulSucc(a: nat, m: nat)
    ensures (a + 1) * m == a * m + m
  {
  }

  /** Positions are laps times capacity plus index. */
  lemma {:induction false} Layout(g: Ring, p: nat)
    requires g.Valid()
    ensures g.Index(p) < g.cap
    ensures p == g.LapOf(p) * g.cap + g.Index(p)
  {
    if p > 0 {
      Layout(g, p - 1);
      MulSucc(g.LapOf(p - 1), g.cap);
    }
  }

  /** The word of `p` is its lap, modulo the laps the word can hold, followed by its index. */
  lemma {:induction false} WordForm(g: Ring, p: nat)
    requires g.Valid()
    ensures g.Word(p) == (g.LapOf(p) % g.laps) * g.lap + g.Index(p)
    ensures g.Slot(g.Word(p)) == g.Index(p) < g.cap
    ensures g.Word(p) + 1 < g.Modulus()
  {
    Layout(g, p);
    if p == 0 {
      DivUnique(0, g.laps, 0, 0);
    } else {
      WordForm(g, p - 1);
      if g.Index(p - 1) + 1 >= g.cap { LapTurnAt(g, g.LapOf(p - 1), 0); }
    }
    WordRange(g, g.LapOf(p) % g.laps, g.Index(p));
  }

  lemma WordRange(g: Ring, k: nat, i: nat)
    requires g.Valid() && k < g.laps && i < g.cap
    ensures g.Slot(k * g.lap + i) == i
    ensures k * g.lap + i + 1 < g.Modulus()
  {
    DivUnique(k * g.lap + i, g.lap, k, i);
    InWord(k, i, g.lap, g.laps);
  }

  lemma InWord(k: nat, i: nat, lap: nat, laps: nat)
    requires k < laps && i + 1 < lap
    ensures k * lap + i + 1 < lap * laps
  {
    MulSucc(k, lap);
    MulLeft(k + 1, laps, lap);
  }

  /** Moving a lap forward adds one to the lap number, modulo the laps in a word. */
  lemma LapTurnAt(g: Ring, k: nat, i: nat)
    requires g.Valid() && i < g.cap
    ensures g.AddLap((k % g.laps) * g.lap + i) == ((k + 1) % g.laps) * g.lap + i
  {
    SuccMod(k, g.laps);
    WordTurn(g.lap, g.laps, k % g.laps, i);
  }

  lemma WordTurn(lap: nat, laps: nat, r: nat, i: nat)
    requires 0 < lap && i < lap && r < laps && 2 <= laps && 0 < lap * laps
    ensures (r * lap + i + lap) % (lap * laps) == (if r + 1 < laps then r + 1 else 0) * lap + i
  {
    var m := lap * laps;
    assert r * lap + i + lap == (r + 1) * lap + i;
    if r + 1 < laps {
      MulLeft(r + 2, laps, lap);
      DivUnique((r + 1) * lap + i, m, 0, (r + 1) * lap + i);
    } else {
      MulLeft(2, laps, lap);
      DivUnique((r + 1) * lap + i, m, 1, i);
    }
  }

  lemma SuccMod(k: nat, m: nat)
    requires 2 <= m
    ensures (k + 1) % m == if k % m + 1 < m then k % m + 1 else 0
  {
    var q, r := k / m, k % m;
    assert k == q * m + r;
    if r + 1 < m {
      DivUnique(k + 1, m, q, r + 1);
    } else {
      DivUnique(k + 1, m, q + 1, 0);
    }
  }

  lemma LayoutUnique(g: Ring, p: nat, k: nat, i: nat)
    requires g.Valid() && i < g.cap && p == k * g.cap + i
    ensures g.LapOf(p) == k && g.Index(p) == i
  {
    Layout(g, p);
    SameSplit(g.LapOf(p), g.Index(p), k, i, g.cap);
  }

  /** One capacity further is the same slot, one lap later. */
  lemma NextLap(g: Ring, p: nat)
    requires g.Valid()
    ensures g.Index(p + g.cap) == g.Index(p)
    ensures g.LapOf(p + g.cap) == g.LapOf(p) + 1
  {
    Layout(g, p);
    MulSucc(g.LapOf(p), g.cap);
    LayoutUnique(g, p + g.cap, g.LapOf(p) + 1, g.Index(p));
  }

  /** Two positions served by one slot are at least a capacity apart. */
  lemma SameSlot(g: Ring, p: nat, q: nat)
    requires g.Valid() && g.Index(p) == g.Index(q) && p < q
    ensures p + g.cap <= q
  {
    Layout(g, p);
    Layout(g, q);
    var k, k' := g.LapOf(p), g.LapOf(q);
    if k' <= k {
      MulLeft(k', k, g.cap);
    } else {
      MulLeft(k + 1, k', g.cap);
    }
  }

  lemma WordNext(g: Ring, p: nat)
    requires g.Valid()
    ensures g.Next(g.Word(p)) == g.Word(p + 1)
  {
  }

  /** Lap and index of position `p`, packed: its lap modulo the laps a word holds, above its index. */
  ghost function Enc(g: Ring, p: nat): nat
    requires g.Valid()
  {
    (p / g.cap % g.laps) * g.lap + p % g.cap
  }

  /** The step of the code encodes the next position, at every lap's end and at the word's end too. */
  lemma NextEncodes(g: Ring, p: nat)
    requires g.Valid()
    ensures g.Next(Enc(g, p)) == Enc(g, p + 1) && Enc(g, p) + 1 < g.Modulus()
  {
    EncIsWord(g, p);
    EncIsWord(g, p + 1);
    WordForm(g, p);
    WordNext(g, p);
  }

  lemma EncIsWord(g: Ring, p: nat)
    requires g.Valid()
    ensures Enc(g, p) == g.Word(p)
  {
    Split(p, g.cap);
    LayoutUnique(g, p, p / g.cap, p % g.cap);
    WordForm(g, p);
  }

  lemma Split(x: nat, m: nat)
    requires 0 < m
    ensures x == (x / m) * m + x % m
  {
  }

  /** Words tell positions apart within one period. */
  lemma WordInjective(g: Ring, p: nat, q: nat)
    requires g.Valid() && p <= q < p + g.Period()
    ensures g.Word(p) == g.Word(q) <==> p == q
  {
    if p < q && g.Word(p) == g.Word(q) {
      WordForm(g, p);
      WordForm(g, q);
      Layout(g, p);
      Layout(g, q);
      var a, b := g.LapOf(p), g.LapOf(q);
      MulCancel(a % g.laps, b % g.laps, g.lap);
      LapDistance(a, b, g.cap, g.laps);
      SameResidue(a, b - a, g.laps);
    }
  }

  lemma LapDistance(a: nat, b: nat, cap: nat, laps: nat)
    requires 0 < b * cap - a * cap < laps * cap
    ensures a < b < a + laps
  {
    if b <= a { MulLeft(b, a, cap); }
    if a + laps <= b { MulLeft(a + laps, b, cap); }
  }

  lemma MulCancel(a: nat, b: nat, m: nat)
    requires 0 < m && a * m == b * m
    ensures a == b
  {
  }

  lemma SameResidue(a: nat, d: nat, m: nat)
    requires 0 < d < m
    ensures (a + d) % m != a % m
  {
    var q, r := a / m, a % m;
    assert a == q * m + r;
    if r + d < m {
      DivUnique(a + d, m, q, r + d);
    } else {
      assert a + d == (q + 1) * m + (r + d - m);
      DivUnique(a + d, m, q + 1, r + d - m);
    }
  }

  /** Adding `one_lap` to a word moves its position one capacity on. */
  lemma WordAddLap(g: Ring, p: nat)
    requires g.Valid()
    ensures g.AddLap(g.Word(p)) == g.Word(p + g.cap)
  {
    WordForm(g, p);
    WordForm(g, p + g.cap);
    NextLap(g, p);
    LapTurnAt(g, g.LapOf(p), g.Index(p));
  }

  /** The code's "full" comparison, on a head and a tail at most one capacity apart. */
  lemma FullTest(g: Ring, h: nat, t: nat)
    requires g.Valid() && h <= t <= h + g.cap
    ensures g.AddLap(g.Word(h)) == g.Word(t) <==> t == h + g.cap
    ensures g.Word(h) == g.Word(t) <==> t == h
  {
    WordAddLap(g, h);
    MulLeft(2, g.laps, g.cap);
    WordInjective(g, t, h + g.cap);
    WordInjective(g, h, t);
  }

  /** `len`: the formula on two words is the distance between their positions. */
  lemma LenExact(g: Ring, h: nat, t: nat)
    requires g.Valid() && h <= t <= h + g.cap
    ensures g.Len(g.Word(h), g.Word(t)) == t - h
  {
    FullTest(g, h, t);
    WordForm(g, h);
    WordForm(g, t);
    Layout(g, h);
    Layout(g, t);
    LapNear(g.LapOf(h), g.LapOf(t), g.Index(h), g.Index(t), g.cap);
  }

  lemma LapNear(a: nat, b: nat, i: nat, j: nat, cap: nat)
    requires i < cap && j < cap
    requires a * cap + i <= b * cap + j <= a * cap + i + cap
    ensures b == a || (b == a + 1 && b * cap == a * cap + cap)
  {
    if b < a { MulLeft(b + 1, a, cap); }
    if b > a + 1 { MulLeft(a + 2, b, cap); }
  }

  /** A stamp one above a word names no position of the same slot. */
  lemma StampApart(g: Ring, p: nat, q: nat)
    requires g.Valid() && g.Index(p) == g.Index(q)
    ensures g.Word(p) != g.Word(q) + 1
  {
    WordForm(g, p);
    WordForm(g, q);
    WordRange(g, g.LapOf(q) % g.laps, g.Index(q));
    assert g.Slot(g.Word(q) + 1) == g.Index(q) + 1 by {
      var k := g.LapOf(q) % g.laps;
      DivUnique(g.Word(q) + 1, g.lap, k, g.Index(q) + 1);
    }
  }

  ghost function Pow2(e: nat): (r: nat)
    ensures 1 <= r
  {
    if e == 0 then 1 else 2 * Pow2(e - 1)
  }

  lemma {:induction false} Pow2Split(a: nat, b: nat)
    ensures Pow2(a + b) == Pow2(a) * Pow2(b)
  {
    if a > 0 { Pow2Split(a - 1, b); }
  }

  lemma {:induction false} Pow2Monotone(a: nat, b: nat)
    requires Pow2(a) < Pow2(b)
    ensures a < b
  {
    if a > 0 && b > 0 { Pow2Monotone(a - 1, b - 1); }
  }

  /** `(cap + 1).next_power_of_two()`: the least power of two above the capacity. */
  method OneLap(cap: nat) returns (lap: nat, ghost e: nat)
    ensures lap == Pow2(e) && cap < lap
    ensures e > 0 ==> lap <= 2 * cap
    ensures forall f: nat :: cap < Pow2(f) ==> e <= f
  {
    lap, e := 1, 0;
    while lap < cap + 1
      invariant lap == Pow2(e)
      invariant e > 0 ==> lap <= 2 * cap
      invariant forall f: nat :: cap < Pow2(f) ==> e <= f
      decreases cap + 1 - lap
    {
      forall f: nat | cap < Pow2(f) ensures e + 1 <= f {
        Pow2Monotone(e, f);
      }
      lap, e := 2 * lap, e + 1;
    }
  }

  /**
   `new`: the capacity must be positive and below half the word size; then one lap leaves room for
   at least two, and the word is a whole number of laps.
   */
  method NewRing(cap: nat, half: nat, ghost bits: nat) returns (g: Option<Ring>)
    requires half == Pow2(bits)
    ensures g.None? <==> cap == 0 || cap >= half
    ensures g.Some? ==> g.value.Valid() && g.value.cap == cap && g.value.Modulus() == 2 * half
  {
    if cap == 0 || cap >= half { return None; }
    var lap, e := OneLap(cap);
    ghost var rest := Pow2(bits - e);
    Pow2Split(e, bits - e);
    assert half == lap * rest;
    Quotient(2 * half, lap, 2 * rest);
    g := Some(Ring(cap, lap, 2 * half / lap));
  }

  lemma Quotient(x: nat, m: nat, q: nat)
    requires 0 < m && x == q * m
    ensures x / m == q
  {
    var q' := x / m;
    if q' < q { MulLeft(q' + 1, q, m); }
    if q < q' { MulLeft(q + 1, q', m); }
  }
}
