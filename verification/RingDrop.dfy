/** Dropping a ring queue: the loop the three ring queues share. */
module RingDrop {
  import opened Base
  import opened LapRing
  import Mpmc = ArrayQueue
  import Mpsc = ArrayQueueMpsc
  import Spsc = ArrayQueueSpsc

  /** The slot `i` places after the head's, computed without a division. */
  lemma SlotAfter(g: Ring, h: nat, i: nat)
    requires g.Valid() && i < g.cap
    ensures g.Index(h) < g.cap
    ensures g.Index(h + i) == if g.Index(h) + i < g.cap then g.Index(h) + i else g.Index(h) + i - g.cap
  {
    Layout(g, h);
    var k, hix := g.LapOf(h), g.Index(h);
    if hix + i < g.cap {
      LayoutUnique(g, h + i, k, hix + i);
    } else {
      MulSucc(k, g.cap);
      LayoutUnique(g, h + i, k + 1, hix + i - g.cap);
    }
  }

  lemma SlotsApart(g: Ring, p: nat, q: nat)
    requires g.Valid() && p < q < p + g.cap
    ensures g.Index(p) != g.Index(q)
  {
    if g.Index(p) == g.Index(q) { SameSlot(g, p, q); }
  }

  /** The slots after the items of `n` positions from `h` have been dropped. */
  ghost function Emptied(g: Ring, values: seq<Option<Item>>, h: nat, n: nat): (r: seq<Option<Item>>)
    requires g.Valid() && |values| == g.cap
    ensures |r| == g.cap
  {
    if n == 0 then values
    else Layout(g, h + n - 1); Emptied(g, values, h, n - 1)[g.Index(h + n - 1) := None]
  }

  /** Exactly the slots of those positions are empty afterwards; the rest are untouched. */
  lemma {:induction false} EmptiedSlots(g: Ring, values: seq<Option<Item>>, h: nat, n: nat, i: nat)
    requires g.Valid() && |values| == g.cap && i < g.cap
    ensures (exists p :: h <= p < h + n && g.Index(p) == i) ==> Emptied(g, values, h, n)[i] == None
    ensures (forall p :: h <= p < h + n ==> g.Index(p) != i) ==> Emptied(g, values, h, n)[i] == values[i]
  {
    if n > 0 {
      Layout(g, h + n - 1);
      EmptiedSlots(g, values, h, n - 1, i);
    }
  }

  ghost predicate StoredAt(g: Ring, values: seq<Option<Item>>, pushed: seq<Item>, p: nat)
    requires g.Valid() && p < |pushed|
  {
    g.Index(p) < |values| && values[g.Index(p)] == Some(pushed[p])
  }

  /** The slots of the positions from `h` on hold the items pushed there. */
  ghost predicate Stored(g: Ring, values: seq<Option<Item>>, pushed: seq<Item>, h: nat)
    requires g.Valid()
  {
    && |values| == g.cap && h <= |pushed| <= h + g.cap
    && forall p: nat {:trigger StoredAt(g, values, pushed, p)} :: h <= p < |pushed| ==> StoredAt(g, values, pushed, p)
  }

  /** After `i` items have been dropped the next one is still there. */
  lemma NextItem(g: Ring, values: seq<Option<Item>>, pushed: seq<Item>, h: nat, i: nat)
    requires g.Valid() && Stored(g, values, pushed, h) && h + i < |pushed|
    ensures g.Index(h) < g.cap && g.Index(h + i) < g.cap
    ensures g.Index(h + i) == if g.Index(h) + i < g.cap then g.Index(h) + i else g.Index(h) + i - g.cap
    ensures Emptied(g, values, h, i)[g.Index(h + i)] == Some(pushed[h + i])
  {
    SlotAfter(g, h, i);
    Layout(g, h + i);
    assert StoredAt(g, values, pushed, h + i);
    forall p | h <= p < h + i ensures g.Index(p) != g.Index(h + i) { SlotsApart(g, p, h + i); }
    EmptiedSlots(g, values, h, i, g.Index(h + i));
  }

  /**
   `Drop`: from the words of head and tail the loop drops the queued items, oldest first and each once,
   and leaves every other slot alone.
   */
  method DropItems(g: Ring, values: array<Option<Item>>, head: nat, tail: nat, ghost pushed: seq<Item>, ghost h: nat)
    returns (dropped: seq<Item>)
    requires g.Valid() && Stored(g, values[..], pushed, h) && head == g.Word(h) && tail == g.Word(|pushed|)
    modifies values
    ensures dropped == pushed[h..] && values[..] == Emptied(g, old(values[..]), h, |pushed| - h)
  {
    LenExact(g, h, |pushed|);
    WordForm(g, h);
    var hix, len := g.Slot(head), g.Len(head, tail);
    dropped := [];
    for i := 0 to len
      invariant dropped == pushed[h..h + i]
      invariant values[..] == Emptied(g, old(values[..]), h, i)
    {
      NextItem(g, old(values[..]), pushed, h, i);
      var index := if hix + i < g.cap then hix + i else hix + i - g.cap;
      assert values[index] == values[..][index];
      dropped := dropped + [values[index].value];
      values[index] := None;
    }
  }

  // ------------------------------------------------------------------------------ the three queues

  ghost predicate MpmcQuiet(s: Mpmc.Queue) { forall t :: t in s.calls ==> s.calls[t].Done? }

  function MpmcValues(s: Mpmc.Queue): seq<Option<Item>> { seq(|s.slots|, i requires 0 <= i < |s.slots| => s.slots[i].value) }

  /** With no call under way every queued item of the MPMC queue is in its slot. */
  lemma MpmcStored(s: Mpmc.Queue)
    requires Mpmc.Inv(s) && MpmcQuiet(s)
    ensures Stored(s.ring, MpmcValues(s), s.pushed, s.taken)
  {
    forall p: nat | s.taken <= p < |s.pushed| ensures StoredAt(s.ring, MpmcValues(s), s.pushed, p)
    {
      MpmcAt(s, p);
    }
  }

  lemma MpmcAt(s: Mpmc.Queue, p: nat)
    requires Mpmc.Inv(s) && MpmcQuiet(s) && s.taken <= p < |s.pushed|
    ensures s.ring.Index(p) < s.ring.cap && s.slots[s.ring.Index(p)].value == Some(s.pushed[p])
  {
    Layout(s.ring, p);
    var x := s.slots[s.ring.Index(p)];
    assert Mpmc.SlotInv(s, s.ring.Index(p));
    if x.turn < p { SameSlot(s.ring, x.turn, p); }
    if p < x.turn { SameSlot(s.ring, p, x.turn); }
  }

  /** `Drop` of the MPMC queue, on the value cells of its slots. */
  method DropMpmc(q: Mpmc.Memory) returns (dropped: seq<Item>)
    requires Mpmc.Inv(q.View()) && MpmcQuiet(q.View())
    ensures dropped == q.pushed[q.taken..]
  {
    MpmcStored(q.View());
    var slots := q.slots;
    var values := new Option<Item>[slots.Length](i requires 0 <= i < slots.Length reads slots => slots[i].value);
    assert values[..] == MpmcValues(q.View());
    dropped := DropItems(q.ring, values, q.head, q.tail, q.pushed, q.taken);
  }

  ghost predicate MpscQuiet(s: Mpsc.Queue) { s.reader.Rest? && forall t :: t in s.calls ==> s.calls[t].Done? }

  function MpscValues(s: Mpsc.Queue): seq<Option<Item>> { seq(|s.slots|, i requires 0 <= i < |s.slots| => s.slots[i].value) }

  /** With no call under way every queued item of the MPSC queue is in its slot. */
  lemma MpscStored(s: Mpsc.Queue)
    requires Mpsc.Inv(s) && MpscQuiet(s)
    ensures Stored(s.ring, MpscValues(s), s.pushed, s.taken)
  {
    forall p: nat | s.taken <= p < |s.pushed| ensures StoredAt(s.ring, MpscValues(s), s.pushed, p)
    {
      Layout(s.ring, p);
      Mpsc.SlotInWindow(s, p);
      assert Mpsc.SlotInv(s, s.ring.Index(p));
    }
  }

  /** `Drop` of the MPSC queue, on the value cells of its slots. */
  method DropMpsc(q: Mpsc.Memory) returns (dropped: seq<Item>)
    requires Mpsc.Inv(q.View()) && MpscQuiet(q.View())
    ensures dropped == q.pushed[q.taken..]
  {
    MpscStored(q.View());
    var slots := q.slots;
    var values := new Option<Item>[slots.Length](i requires 0 <= i < slots.Length reads slots => slots[i].value);
    assert values[..] == MpscValues(q.View());
    dropped := DropItems(q.ring, values, q.recv.at, q.sender.at, q.pushed, q.taken);
  }

  /** `Drop` of the SPSC queue, in place; its invariant has every queued item in its slot at all times. */
  method DropSpsc(q: Spsc.Memory) returns (dropped: seq<Item>)
    requires Spsc.Inv(q.View())
    modifies q.values
    ensures dropped == q.pushed[q.taken..]
    ensures q.values[..] == Emptied(q.ring, old(q.values[..]), q.taken, |q.pushed| - q.taken)
  {
    forall p: nat | q.taken <= p < |q.pushed| ensures StoredAt(q.ring, q.values[..], q.pushed, p)
    {
      Layout(q.ring, p);
      assert Spsc.At(q.View(), p) == Some(q.pushed[p]);
    }
    dropped := DropItems(q.ring, q.values, q.recv.at, q.sender.at, q.pushed, q.taken);
  }
}
