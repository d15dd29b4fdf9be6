/**
 `Multiplex`: weighted round robin over a fixed set of channels.

 What the senders do is left open: every probe of a channel is answered by an arbitrary function of
 the probe's number and of the channel, and a cached read may miss even if the channel holds items.
 */
module Multiplex {
  import opened Base

  /** `ready(k, j)`: the answer if the `k`-th probe of a scan asks channel `j`. */
  type Probes = (nat, nat) -> bool

  /** The weights as stored, each one less than given; the channel served last; its reads left. */
  datatype Wheel = Wheel(weights: seq<nat>, last: nat, count: nat) {
    ghost predicate Valid() { last < |weights| }
  }

  /**
   One round of a blocked receive: scans while it backs off, at least one; whether all senders were gone
   when it looked; a last scan; and, after it was parked and woken, the channel to start from.
   */
  datatype Round = Round(first: Probes, more: seq<Probes>, closing: bool, final: Probes, hint: nat)

  /** A receive: what its cached read, its probes and its looks at the open channels will be answered. */
  datatype Ask = Recv(hit: bool, cached: Probes, rounds: seq<Round>) | TryRecv(open: bool, first: Probes)

  /** `Parked`: the rounds given are over and the receive is still waiting. */
  datatype Reply = Served(c: nat) | Empty | Disconnected | Parked

  datatype Turn = Turn(wheel: Wheel, reply: Reply)

  function Succ(len: nat, i: nat): nat { if i + 1 >= len then 0 else i + 1 }

  /** The first channel after `i`, among the next `n`, whose probe succeeds. */
  function Scan(len: nat, ready: Probes, k: nat, i: nat, n: nat): Option<nat>
    decreases n
  {
    if n == 0 then None
    else
      var j := Succ(len, i);
      if ready(k, j) then Some(j) else Scan(len, ready, k + 1, j, n - 1)
  }

  /** `_try_select_all`: serve the channel found, or answer `miss`. */
  function SelectAll(w: Wheel, ready: Probes, i: nat, n: nat, miss: Reply): Turn {
    var r := Scan(|w.weights|, ready, 0, i, n);
    if r.Some? && r.value < |w.weights| then Turn(w.(last := r.value, count := w.weights[r.value]), Served(r.value))
    else Turn(w, miss)
  }

  /** `_try_select_cached`: the channel served last while its weight lasts, else the others in turn. */
  function SelectCached(w: Wheel, hit: bool, ready: Probes): Turn {
    if w.count > 0 && hit then Turn(w.(count := w.count - 1), Served(w.last))
    else SelectAll(w, ready, w.last, if w.count > 0 && |w.weights| > 0 then |w.weights| - 1 else |w.weights|, Empty)
  }

  /** The scans of one round, in turn. */
  function Scans(w: Wheel, scans: seq<Probes>, i: nat): Turn
    decreases |scans|
  {
    if scans == [] then Turn(w, Empty)
    else
      var t := SelectAll(w, scans[0], i, |w.weights|, Empty);
      if t.reply.Served? then t else Scans(w, scans[1..], i)
  }

  function OneRound(w: Wheel, r: Round, i: nat): Turn {
    var t := Scans(w, [r.first] + r.more, i);
    if t.reply.Served? then t
    else SelectAll(w, r.final, i, |w.weights|, if r.closing then Disconnected else Empty)
  }

  /** The loop of `_recv_blocking` after its cached read has missed. */
  function Blocked(w: Wheel, rounds: seq<Round>, i: nat): Turn
    decreases |rounds|
  {
    if rounds == [] then Turn(w, Parked)
    else
      var t := OneRound(w, rounds[0], i);
      if t.reply.Empty? then Blocked(w, rounds[1..], rounds[0].hint) else t
  }

  function Receive(w: Wheel, a: Ask): Turn {
    match a
    case TryRecv(open, first) => SelectAll(w, first, w.last, |w.weights|, if open then Empty else Disconnected)
    case Recv(hit, cached, rounds) =>
      var t := SelectCached(w, hit, cached);
      if t.reply.Served? then t else Blocked(w, rounds, w.last)
  }

  // ----------------------------------------------------------------------------- around the wheel

  /** How many steps forward lead from `i` to `c`; a whole turn if they are equal. */
  function Dist(len: nat, i: nat, c: nat): (d: nat)
    requires i < len && c < len
    ensures 1 <= d <= len
  {
    if i < c then c - i else c + len - i
  }

  /** The weights strictly between `i` and `c`, going forward. */
  function Between(weights: seq<nat>, i: nat, c: nat): nat
    requires i < |weights| && c < |weights|
    decreases Dist(|weights|, i, c)
  {
    var j := Succ(|weights|, i);
    if j == c then 0 else weights[j] + 1 + Between(weights, j, c)
  }

  /** The weights of channels `a` up to `b`. */
  function Range(weights: seq<nat>, a: nat, b: nat): nat
    requires a <= b <= |weights|
    decreases b - a
  {
    if a == b then 0 else weights[a] + 1 + Range(weights, a + 1, b)
  }

  /** The weights of all channels but `c`. */
  function Others(weights: seq<nat>, c: nat): nat
    requires c < |weights|
  {
    Range(weights, 0, c) + Range(weights, c + 1, |weights|)
  }

  lemma {:induction false} BetweenIsRange(weights: seq<nat>, i: nat, c: nat)
    requires i < |weights| && c < |weights|
    ensures Between(weights, i, c) ==
            if i < c then Range(weights, i + 1, c) else Range(weights, i + 1, |weights|) + Range(weights, 0, c)
    decreases Dist(|weights|, i, c)
  {
    var j := Succ(|weights|, i);
    if j != c { BetweenIsRange(weights, j, c); }
  }

  /** What lies beyond a channel on the way to `c` is less than what lies before it. */
  lemma {:induction false} OnTheWay(weights: seq<nat>, i: nat, j: nat, c: nat)
    requires i < |weights| && j < |weights| && c < |weights| && j != c
    requires Dist(|weights|, j, c) < Dist(|weights|, i, c)
    ensures weights[j] + 1 + Between(weights, j, c) <= Between(weights, i, c)
    decreases Dist(|weights|, i, c)
  {
    var k := Succ(|weights|, i);
    if k != j { OnTheWay(weights, k, j, c); }
  }

  // ------------------------------------------------------------------------------------- the bound

  /** Receives that can go to other channels before `c` is served. */
  function Ahead(w: Wheel, c: nat): nat
    requires w.Valid() && c < |w.weights|
  {
    (if w.last == c then 0 else w.count) + Between(w.weights, w.last, c)
  }

  /** Channel `c` holds an item whenever it is probed. */
  ghost predicate Stays(a: Ask, c: nat) {
    match a
    case TryRecv(_, first) => forall k: nat :: first(k, c)
    case Recv(_, cached, rounds) =>
      && (forall k: nat :: cached(k, c))
      && rounds != [] && forall k: nat :: rounds[0].first(k, c)
  }

  /** A scan of at most one turn stops at `c` or before it. */
  lemma {:induction false} ScanStops(len: nat, ready: Probes, k: nat, i: nat, n: nat, c: nat)
    requires i < len && c < len && n <= len && forall l: nat :: ready(l, c)
    ensures var r := Scan(len, ready, k, i, n);
            && (r.Some? ==> r.value < len && (r.value == c || Dist(len, r.value, c) < Dist(len, i, c)))
            && (Dist(len, i, c) <= n ==> r.Some?)
    decreases n
  {
    if n > 0 {
      var j := Succ(len, i);
      if !ready(k, j) { ScanStops(len, ready, k + 1, j, n - 1, c); }
    }
  }

  lemma SelectAllSteps(w: Wheel, ready: Probes, n: nat, c: nat, miss: Reply)
    requires w.Valid() && c < |w.weights| && n <= |w.weights| && !miss.Served? && forall l: nat :: ready(l, c)
    ensures var t := SelectAll(w, ready, w.last, n, miss);
            && t.wheel.Valid() && t.wheel.weights == w.weights
            && (!t.reply.Served? ==> t.wheel == w && n < Dist(|w.weights|, w.last, c))
            && (t.reply.Served? && t.reply != Served(c) ==> Ahead(t.wheel, c) < Ahead(w, c))
  {
    ScanStops(|w.weights|, ready, 0, w.last, n, c);
    var r := Scan(|w.weights|, ready, 0, w.last, n);
    if r.Some? && r.value != c { OnTheWay(w.weights, w.last, r.value, c); }
  }

  /** While `c` holds items every receive serves somebody; if not `c`, then `c` has come nearer. */
  lemma ReceiveSteps(w: Wheel, a: Ask, c: nat)
    requires w.Valid() && c < |w.weights| && Stays(a, c)
    ensures var t := Receive(w, a);
            && t.wheel.Valid() && t.wheel.weights == w.weights && t.reply.Served?
            && (t.reply != Served(c) ==> Ahead(t.wheel, c) < Ahead(w, c))
  {
    var n := |w.weights|;
    match a {
    case TryRecv(open, first) => SelectAllSteps(w, first, n, c, if open then Empty else Disconnected);
    case Recv(hit, cached, rounds) =>
      SelectAllSteps(w, cached, if w.count > 0 then n - 1 else n, c, Empty);
      SelectAllSteps(w, rounds[0].first, n, c, Empty);
      assert ([rounds[0].first] + rounds[0].more)[0] == rounds[0].first;
    }
  }

  /** The answers to a sequence of receives. */
  function Replies(w: Wheel, asks: seq<Ask>): seq<Reply>
    decreases |asks|
  {
    if asks == [] then []
    else
      var t := Receive(w, asks[0]);
      [t.reply] + Replies(t.wheel, asks[1..])
  }

  lemma {:induction false} BypassIsAhead(w: Wheel, asks: seq<Ask>, c: nat)
    requires w.Valid() && c < |w.weights| && forall a :: a in asks ==> Stays(a, c)
    requires Served(c) !in Replies(w, asks)
    ensures |asks| <= Ahead(w, c)
    decreases |asks|
  {
    if asks != [] {
      var t := Receive(w, asks[0]);
      ReceiveSteps(w, asks[0], c);
      assert Replies(w, asks) == [t.reply] + Replies(t.wheel, asks[1..]);
      assert t.reply == Replies(w, asks)[0];
      BypassIsAhead(t.wheel, asks[1..], c);
    }
  }

  /** Reads left to the channel served last beyond its own weight: none, unless a channel was added meanwhile. */
  function Excess(w: Wheel): nat
    requires w.Valid()
  {
    if w.count > w.weights[w.last] + 1 then w.count - w.weights[w.last] - 1 else 0
  }

  /**
   Bounded bypass: a channel that stays non-empty is passed over by at most as many receives as the
   weights of the other channels add up to, from any state, whatever the senders do.
   */
  lemma BoundedBypass(w: Wheel, asks: seq<Ask>, c: nat)
    requires w.Valid() && c < |w.weights| && forall a :: a in asks ==> Stays(a, c)
    requires |asks| > Others(w.weights, c) + Excess(w)
    ensures Served(c) in Replies(w, asks)
  {
    if Served(c) !in Replies(w, asks) {
      BypassIsAhead(w, asks, c);
      AheadIsBounded(w, c);
    }
  }

  lemma AheadIsBounded(w: Wheel, c: nat)
    requires w.Valid() && c < |w.weights|
    ensures Ahead(w, c) <= Others(w.weights, c) + Excess(w)
    ensures w.last == c ==> Ahead(w, c) == Others(w.weights, c)
  {
    BetweenIsRange(w.weights, c, c);
    if w.last != c { OnTheWay(w.weights, c, w.last, c); }
  }

  /** All channels full, all cached reads hits. */
  ghost predicate Saturated(a: Ask) {
    a.Recv? && a.hit && forall k: nat, j: nat :: a.cached(k, j)
  }

  /** The bound is exact: right after `c` had its turn, saturated channels use all of it. */
  lemma {:induction false} BypassIsReached(w: Wheel, asks: seq<Ask>, c: nat)
    requires w.Valid() && c < |w.weights| && (w.last == c ==> w.count == 0)
    requires |asks| == Ahead(w, c) && forall a :: a in asks ==> Saturated(a)
    ensures Served(c) !in Replies(w, asks)
    decreases |asks|
  {
    if asks != [] {
      var a, t := asks[0], Receive(w, asks[0]);
      assert Saturated(a);
      if w.count == 0 { assert a.cached(0, Succ(|w.weights|, w.last)); }
      assert Replies(w, asks) == [t.reply] + Replies(t.wheel, asks[1..]);
      BypassIsReached(t.wheel, asks[1..], c);
    }
  }

  // ------------------------------------------------------------------------------------ the end

  /** Some probe of channel `c` in a scan of one turn found it empty. */
  ghost predicate Missed(len: nat, ready: Probes, c: nat) { exists k: nat :: k < len && !ready(k, c) }

  /** A scan that finds nothing has asked the next `n` channels, each in vain. */
  lemma {:induction false} ScanAsksAll(len: nat, ready: Probes, k: nat, i: nat, n: nat, c: nat)
    requires c < len && n <= len && Scan(len, ready, k, i, n).None?
    requires i < len && Dist(len, i, c) <= n
    ensures exists l: nat :: k <= l < k + n && !ready(l, c)
    decreases n
  {
    var j := Succ(len, i);
    if j == c { assert !ready(k, c); }
    else {
      ScanAsksAll(len, ready, k + 1, j, n - 1, c);
      var l: nat :| k + 1 <= l < k + n && !ready(l, c);
      assert !ready(l, c);
    }
  }

  lemma FullScanAsksAll(w: Wheel, ready: Probes, i: nat, miss: Reply, c: nat)
    requires c < |w.weights| && !miss.Served? && !SelectAll(w, ready, i, |w.weights|, miss).reply.Served?
    ensures Missed(|w.weights|, ready, c)
  {
    var len := |w.weights|;
    ScanInside(len, ready, 0, i, len);
    var start := if i < len then i else len - 1;
    SameStart(len, ready, i, len);
    ScanAsksAll(len, ready, 0, start, len, c);
    var l: nat :| 0 <= l < len && !ready(l, c);
  }

  lemma {:induction false} ScanInside(len: nat, ready: Probes, k: nat, i: nat, n: nat)
    requires len > 0
    ensures Scan(len, ready, k, i, n).Some? ==> Scan(len, ready, k, i, n).value < len
    decreases n
  {
    if n > 0 { ScanInside(len, ready, k + 1, Succ(len, i), n - 1); }
  }

  /** A start beyond the end is as good as the last channel. */
  lemma SameStart(len: nat, ready: Probes, i: nat, n: nat)
    requires len > 0
    ensures Scan(len, ready, 0, i, n) == Scan(len, ready, 0, if i < len then i else len - 1, n)
  {
  }

  /**
   "Disconnected" is answered only after a look that found no channel open, followed by a scan that asked
   every channel and found each empty.
   */
  ghost predicate SawTheEnd(len: nat, a: Ask) {
    match a
    case TryRecv(open, first) => !open && forall c :: 0 <= c < len ==> Missed(len, first, c)
    case Recv(_, _, rounds) =>
      exists i :: 0 <= i < |rounds| && rounds[i].closing && forall c :: 0 <= c < len ==> Missed(len, rounds[i].final, c)
  }

  lemma DisconnectedIsTrue(w: Wheel, a: Ask)
    requires Receive(w, a).reply.Disconnected?
    ensures SawTheEnd(|w.weights|, a)
  {
    var len := |w.weights|;
    match a {
    case TryRecv(open, first) =>
      forall c: nat | c < len ensures Missed(len, first, c) { FullScanAsksAll(w, first, w.last, Disconnected, c); }
    case Recv(hit, cached, rounds) => var i := BlockedEnds(w, rounds, w.last);
    }
  }

  lemma {:induction false} ScansAnswer(w: Wheel, scans: seq<Probes>, i: nat)
    ensures Scans(w, scans, i).reply.Served? || Scans(w, scans, i) == Turn(w, Empty)
    decreases |scans|
  {
    if scans != [] { ScansAnswer(w, scans[1..], i); }
  }

  lemma {:induction false} BlockedEnds(w: Wheel, rounds: seq<Round>, start: nat) returns (i: nat)
    requires Blocked(w, rounds, start).reply.Disconnected?
    ensures i < |rounds| && rounds[i].closing
    ensures forall c :: 0 <= c < |w.weights| ==> Missed(|w.weights|, rounds[i].final, c)
    decreases |rounds|
  {
    var r, len := rounds[0], |w.weights|;
    ScansAnswer(w, [r.first] + r.more, start);
    if OneRound(w, r, start).reply.Empty? {
      var j := BlockedEnds(w, rounds[1..], r.hint);
      i := j + 1;
    } else {
      i := 0;
      forall c: nat | c < len ensures Missed(len, r.final, c) { FullScanAsksAll(w, r.final, start, Disconnected, c); }
    }
  }

  // --------------------------------------------------------------------- the multiplexer, in place

  /** The handler list and the two cells that receives update. */
  class Handlers {
    var weights: seq<nat>
    var lastIdx: nat
    var count: nat

    ghost function View(): Wheel
      reads this
    {
      Wheel(weights, lastIdx, count)
    }

    constructor ()
      ensures weights == [] && lastIdx == 0 && count == 0
    {
      weights, lastIdx, count := [], 0, 0;
    }

    /** `_add_item`, at any time: the new channel comes last, and the reads left pass to it. */
    method Add(weight: nat)
      requires weight >= 1
      modifies this
      ensures weights == old(weights) + [weight - 1] && count == old(count) && lastIdx == |weights| - 1
      ensures View().Valid() && Excess(View()) == (if count > weight then count - weight else 0)
    {
      weights := weights + [weight - 1];
      lastIdx := |weights| - 1;
    }

    method TrySelectAll(ready: Probes, start: nat, loopCount: nat, miss: Reply) returns (r: Reply)
      requires (weights != [] || loopCount == 0) && !miss.Served?
      modifies this`lastIdx, this`count
      ensures Turn(View(), r) == SelectAll(old(View()), ready, start, loopCount, miss)
    {
      var len, idx := |weights|, start;
      for k := 0 to loopCount
        invariant 0 <= idx && len == |weights| && lastIdx == old(lastIdx) && count == old(count)
        invariant Scan(len, ready, k, idx, loopCount - k) == Scan(len, ready, 0, start, loopCount)
      {
        idx := if idx + 1 >= len then 0 else idx + 1;
        if ready(k, idx) {
          count, lastIdx := weights[idx], idx;
          return Served(idx);
        }
      }
      return miss;
    }

    method TrySelectCached(hit: bool, ready: Probes) returns (r: Reply)
      requires weights != []
      modifies this`lastIdx, this`count
      ensures Turn(View(), r) == SelectCached(old(View()), hit, ready)
    {
      var loopCount := |weights|;
      if count > 0 {
        if hit {
          count := count - 1;
          return Served(lastIdx);
        }
        loopCount := |weights| - 1;
      }
      r := TrySelectAll(ready, lastIdx, loopCount, Empty);
    }

    /** `try_recv`, on any number of channels. */
    method TryReceive(open: bool, first: Probes) returns (r: Reply)
      modifies this`lastIdx, this`count
      ensures Turn(View(), r) == Receive(old(View()), TryRecv(open, first))
    {
      r := TrySelectAll(first, lastIdx, |weights|, if open then Empty else Disconnected);
    }

    /** The scans of one round while the receive backs off. */
    method BackOff(scans: seq<Probes>, start: nat) returns (r: Reply)
      requires weights != []
      modifies this`lastIdx, this`count
      ensures Turn(View(), r) == Scans(old(View()), scans, start)
    {
      var i := 0;
      r := Empty;
      while i < |scans| && !r.Served?
        invariant 0 <= i <= |scans| && weights == old(weights) && (r.Empty? || r.Served?)
        invariant if r.Served? then Turn(View(), r) == Scans(old(View()), scans, start)
                  else View() == old(View()) && Scans(View(), scans[i..], start) == Scans(old(View()), scans, start)
        decreases |scans| - i, !r.Served?
      {
        assert scans[i..][0] == scans[i] && scans[i..][1..] == scans[i + 1..];
        r := TrySelectAll(scans[i], start, |weights|, Empty);
        i := i + 1;
      }
    }

    /** `_recv_blocking`. */
    method ReceiveBlocking(hit: bool, cached: Probes, rounds: seq<Round>) returns (r: Reply)
      requires weights != []
      modifies this`lastIdx, this`count
      ensures Turn(View(), r) == Receive(old(View()), Recv(hit, cached, rounds))
    {
      var start := lastIdx;
      r := TrySelectCached(hit, cached);
      if r.Served? { return; }
      var i := 0;
      while i < |rounds|
        invariant 0 <= i <= |rounds| && View() == old(View())
        invariant Blocked(View(), rounds[i..], start) == Blocked(old(View()), rounds, old(lastIdx))
      {
        assert rounds[i..][0] == rounds[i] && rounds[i..][1..] == rounds[i + 1..];
        ScansAnswer(View(), [rounds[i].first] + rounds[i].more, start);
        r := BackOff([rounds[i].first] + rounds[i].more, start);
        if r.Served? { return; }
        r := TrySelectAll(rounds[i].final, start, |weights|, if rounds[i].closing then Disconnected else Empty);
        if r.Served? || r.Disconnected? { return; }
        start := rounds[i].hint;
        i := i + 1;
      }
      r := Parked;
    }
  }
}
