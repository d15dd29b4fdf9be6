/**
 The abstract queue that every flavour refines: items leave in the order they entered and, if the
 flavour is bounded, never more than `cap` of them are inside.
 */
module AbstractFifo {
  import opened Base

  /** Every item ever pushed, in order; the first `taken` of them have been popped. */
  datatype Fifo = Fifo(cap: Option<nat>, pushed: seq<Item>, taken: nat) {

    predicate Fits(n: int) {
      cap.Some? ==> n <= cap.value
    }

    ghost predicate Valid() {
      taken <= |pushed| && Fits(|pushed| - taken)
    }

    function Contents(): seq<Item>
      requires taken <= |pushed|
    {
      pushed[taken..]
    }
  }

  /** What one atomic step of an implementation does to the abstract queue. */
  datatype Event = Silent | Pushed(value: Item) | Popped(value: Item)

  ghost predicate Allowed(f: Fifo, e: Event, f': Fifo) {
    && f.Valid()
    && match e
       case Silent => f' == f
       case Pushed(v) => f.Fits(|f.Contents()| + 1) && f' == f.(pushed := f.pushed + [v])
       case Popped(v) => f.Contents() != [] && v == f.Contents()[0] && f' == f.(taken := f.taken + 1)
  }

  ghost function PushedBy(es: seq<Event>): seq<Item> {
    if es == [] then []
    else PushedBy(es[..|es| - 1]) + (if es[|es| - 1].Pushed? then [es[|es| - 1].value] else [])
  }

  ghost function PoppedBy(es: seq<Event>): seq<Item> {
    if es == [] then []
    else PoppedBy(es[..|es| - 1]) + (if es[|es| - 1].Popped? then [es[|es| - 1].value] else [])
  }

  /** What a history of events says about the queue it produced. */
  ghost predicate Explains(f: Fifo, es: seq<Event>) {
    && f.Valid()
    && PushedBy(es) == f.pushed
    && PoppedBy(es) == f.pushed[..f.taken]
  }

  lemma NothingYet(f: Fifo, es: seq<Event>)
    requires f.pushed == [] && f.taken == 0 && |es| == 0 && f.Valid()
    ensures Explains(f, es)
  {
  }

  lemma ExplainsNext(f: Fifo, es: seq<Event>, e: Event, f': Fifo)
    requires Explains(f, es) && Allowed(f, e, f')
    ensures Explains(f', es + [e])
  {
    assert (es + [e])[..|es|] == es;
    if e.Popped? {
      assert f.pushed[..f.taken + 1] == f.pushed[..f.taken] + [f.pushed[f.taken]];
    } else if e.Pushed? {
      assert f'.pushed[..f.taken] == f.pushed[..f.taken];
    }
  }

  /** First in, first out, and bounded: pops are a prefix of pushes, at most `cap` behind. */
  lemma FirstInFirstOut(f: Fifo, es: seq<Event>)
    requires Explains(f, es)
    ensures PoppedBy(es) <= PushedBy(es)
    ensures f.Fits(|PushedBy(es)| - |PoppedBy(es)|)
    ensures PushedBy(es) == PoppedBy(es) + f.Contents()
  {
    assert f.pushed == f.pushed[..f.taken] + f.pushed[f.taken..];
  }

  /** A pop that claimed position `p` has returned `v` to its caller. */
  datatype Receipt = Receipt(p: nat, v: Item)

  /** What a run did: the events of the abstract queue, and what its pops returned. */
  datatype Record = Record(events: seq<Event>, receipts: seq<Receipt>)

  /** Where a run of an implementation has led, and what it did on the way. */
  datatype History<S> = History(s: S, record: Record)

  ghost predicate Answered(receipts: seq<Receipt>, p: nat) {
    exists i :: 0 <= i < |receipts| && receipts[i].p == p
  }

  /**
   Every position popped has been claimed by one pop: it is `open`, the pop being still under way, or
   it was answered, once, with the item of that position.
   */
  ghost predicate Settled(f: Fifo, open: set<nat>, receipts: seq<Receipt>) {
    && (forall p :: p in open ==> p < f.taken && !Answered(receipts, p))
    && (forall p: nat :: p < f.taken ==> p in open || Answered(receipts, p))
    && (forall i :: 0 <= i < |receipts| ==>
          receipts[i].p < f.taken <= |f.pushed| && receipts[i].v == f.pushed[receipts[i].p])
    && (forall i, j :: 0 <= i < j < |receipts| ==> receipts[i].p != receipts[j].p)
  }

  /** A step opens the position of its pop event, or closes one by an receipt. */
  ghost predicate Serves(f: Fifo, e: Event, receipt: Option<Receipt>, open: set<nat>, open': set<nat>) {
    match receipt
    case None => open' == if e.Popped? then open + {f.taken} else open
    case Some(a) =>
      && e.Silent? && a.p in open && open' == open - {a.p}
      && a.p < |f.pushed| && a.v == f.pushed[a.p]
  }

  ghost predicate Accounts(f: Fifo, open: set<nat>, r: Record) {
    Explains(f, r.events) && Settled(f, open, r.receipts)
  }

  function Then(r: Record, e: Event, receipt: Option<Receipt>): Record {
    Record(r.events + [e], if receipt.None? then r.receipts else r.receipts + [receipt.value])
  }

  lemma NothingDone(f: Fifo, r: Record)
    requires f.pushed == [] && f.taken == 0 && |r.events| == 0 && |r.receipts| == 0 && f.Valid()
    ensures Accounts(f, {}, r)
  {
    NothingYet(f, r.events);
  }

  lemma AccountsNext(f: Fifo, open: set<nat>, r: Record, e: Event, receipt: Option<Receipt>, f': Fifo, open': set<nat>)
    requires Accounts(f, open, r) && Allowed(f, e, f') && Serves(f, e, receipt, open, open')
    ensures Accounts(f', open', Then(r, e, receipt))
  {
    ExplainsNext(f, r.events, e, f');
    if receipt.Some? { SettledByReceipt(f, open, r.receipts, receipt.value); }
  }

  lemma SettledByReceipt(f: Fifo, open: set<nat>, receipts: seq<Receipt>, a: Receipt)
    requires Settled(f, open, receipts) && a.p in open && a.p < f.taken <= |f.pushed| && a.v == f.pushed[a.p]
    ensures Settled(f, open - {a.p}, receipts + [a])
  {
    var receipts' := receipts + [a];
    assert receipts'[|receipts|] == a;
    forall p: nat | p < f.taken ensures p in open - {a.p} || Answered(receipts', p) {
      if p != a.p && p !in open {
        var i :| 0 <= i < |receipts| && receipts[i].p == p;
        assert receipts'[i].p == p;
      }
    }
    assert forall p :: Answered(receipts', p) ==> p == a.p || Answered(receipts, p);
  }

  /**
   What the callers of `pop` see: the `k`-th pop event is answered at most once, by its own call, with
   the item of that event; and it is answered, unless its call is still under way.
   */
  ghost predicate InOrder(open: set<nat>, r: Record) {
    var popped := PoppedBy(r.events);
    && (forall i :: 0 <= i < |r.receipts| ==> r.receipts[i].p < |popped| && r.receipts[i].v == popped[r.receipts[i].p])
    && (forall i, j :: 0 <= i < j < |r.receipts| ==> r.receipts[i].p != r.receipts[j].p)
    && (forall k: nat :: k < |popped| ==> (k in open <==> !Answered(r.receipts, k)))
  }

  lemma AnsweredInOrder(f: Fifo, open: set<nat>, r: Record)
    requires Accounts(f, open, r)
    ensures InOrder(open, r)
  {
  }
}
