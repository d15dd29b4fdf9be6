/** Whole runs of `SegQueue`: what its pops return, and which blocks have been freed. */
module SegRun {
  import opened Base
  import opened AbstractFifo
  import B = SegBlock
  import opened SegQueue

  /** The pop of slot `j` of block `k` has returned. */
  predicate Over(blocks: seq<B.Block>, k: nat, j: nat) {
    k < |blocks| && j < |blocks[k].slots| && blocks[k].slots[j].reader.Finished?
  }

  /** The pop that claimed position `p` has returned; a block serves 31 positions. */
  predicate Returned(blocks: seq<B.Block>, p: nat) { Over(blocks, p / 31, p % 31) }

  /** The positions claimed by pops that have not returned yet. */
  ghost function Open(s: Queue): set<nat> {
    set p: nat | p < s.taken && !Returned(s.blocks, p)
  }

  /** What a move returns to the caller of a `pop`, with the position that call claimed. */
  ghost function ReceiptOf(s: Queue, m: Move): Option<Receipt>
    requires Inv(s) && Enabled(s, m)
  {
    if m.Read? && !Over(s.blocks, m.k, m.j) && Over(Apply(s, m).blocks, m.k, m.j)
    then Some(Receipt(m.k * 31 + m.j, Apply(s, m).blocks[m.k].slots[m.j].reader.v))
    else None
  }

  lemma SlotOfPosition(k: nat, j: nat)
    requires j < 31
    ensures (k * 31 + j) / 31 == k && (k * 31 + j) % 31 == j
  {
  }

  /** A move that ends no pop. */
  ghost predicate SameOver(bs: seq<B.Block>, bs': seq<B.Block>) {
    forall k: nat, j: nat :: Over(bs', k, j) <==> Over(bs, k, j)
  }

  lemma OpenSame(s: Queue, s': Queue)
    requires SameOver(s.blocks, s'.blocks) && s'.taken == s.taken
    ensures Open(s') == Open(s)
  {
  }

  /** Block `k` is replaced by one in which the same pops are over. */
  lemma SameOverAt(bs: seq<B.Block>, k: nat, b: B.Block)
    requires k < |bs| && |b.slots| == |bs[k].slots|
    requires forall j: nat :: j < |b.slots| ==> (b.slots[j].reader.Finished? <==> bs[k].slots[j].reader.Finished?)
    ensures SameOver(bs, bs[k := b])
  {
  }

  lemma SameOverGrown(bs: seq<B.Block>)
    ensures SameOver(bs, bs + [B.NewBlock()])
  {
  }

  lemma PushSame(s: Queue, t: Tid, spurious: bool)
    requires Inv(s) && Active(s, t)
    ensures SameOver(s.blocks, PushStep(s, t, spurious).blocks) && PushStep(s, t, spurious).taken == s.taken
  {
    var c := s.calls[t];
    if c.FirstBlock? && s.tailBlock.None? { SameOverGrown(s.blocks); }
    if c.MoveTail? {
      InBlock(s, t);
      SameOverAt(s.blocks, c.b, B.ClaimWrite(s.blocks[c.b], Offset(c.i), c.v));
    }
  }

  lemma TailSame(s: Queue)
    requires Inv(s)
    ensures SameOver(s.blocks, TailStep(s).blocks) && TailStep(s).taken == s.taken
  {
    var k := BlockOf(s.tail);
    if s.tailStage.PutBlock? { SameOverGrown(s.blocks); }
    if s.tailStage.PutIndex? {
      NextIndex(s.tail);
      Last(s, k);
      SameOverAt(s.blocks, k, B.Installed(s.blocks[k]));
    }
  }

  lemma HeadSame(s: Queue)
    requires Inv(s)
    ensures SameOver(s.blocks, HeadStep(s).blocks) && HeadStep(s).taken == s.taken
  {
    var k := BlockOf(s.head);
    if s.headStage.PutHeadIndex? {
      Pointers(s);
      NextIndex(s.head);
      NextIndex(s.tail);
      Last(s, k);
      SameOverAt(s.blocks, k, B.Advanced(s.blocks[k]));
    }
  }

  lemma WriteSame(s: Queue, k: nat, j: nat)
    requires Inv(s) && k < |s.blocks| && j < 31
    ensures SameOver(s.blocks, WriterStep(s, k, j).blocks) && WriterStep(s, k, j).taken == s.taken
  {
    Last(s, k);
    SameOverAt(s.blocks, k, B.WriterStep(s.blocks[k], j));
  }

  /** A race for the head opens the position it wins, and nothing else. */
  lemma PopServes(s: Queue, t: Tid, spurious: bool)
    requires Inv(s) && Active(s, t)
    ensures Serves(Abs(s), EventOf(s, Pop(t, spurious)), None, Open(s), Open(PopStep(s, t, spurious)))
  {
    var c := s.calls[t];
    if c.MoveHead? && s.head == c.h && s.hasNext == c.f && !spurious {
      WinRefines(s, t);
      ClaimHeadKeeps(s, t);
      WinOpens(s, t);
    } else {
      OpenSame(s, PopStep(s, t, spurious));
    }
  }

  lemma WinOpens(s: Queue, t: Tid)
    requires Inv(s) && t in s.calls && s.calls[t].MoveHead? && s.head == s.calls[t].h
    requires Inside(s, s.calls[t].b, Offset(s.head)) && s.calls[t].b == BlockOf(s.head) && Offset(s.head) < 31
    ensures Open(ClaimHead(s, t)) == Open(s) + {s.taken}
  {
    var k, j, s' := BlockOf(s.head), Offset(s.head), ClaimHead(s, t);
    Unread(s);
    SameOverAt(s.blocks, k, B.ClaimRead(s.blocks[k], j));
    assert !Over(s'.blocks, k, j);
  }

  /** The slot of the head has no pop yet. */
  lemma Unread(s: Queue)
    requires Inv(s) && BlockOf(s.head) < |s.blocks| && Offset(s.head) < 31
    ensures s.taken / 31 == BlockOf(s.head) && s.taken % 31 == Offset(s.head)
    ensures !Over(s.blocks, BlockOf(s.head), Offset(s.head)) && |s.blocks[BlockOf(s.head)].slots| == 31
  {
    var k, j := BlockOf(s.head), Offset(s.head);
    NextIndex(s.head);
    Last(s, k);
    assert Linked(s.blocks[k], k, s.tail, s.head, s.pushed);
    assert SlotOk(s.blocks[k].slots[j], k, j, s.tail, s.head, s.pushed);
    SlotOfPosition(k, j);
  }

  /** A step inside a block ends at most its own pop, and undoes no end. */
  lemma ReaderOver(b: B.Block, j: nat)
    requires B.Inv(b) && j < 31
    ensures var b' := B.ReaderStep(b, j);
            && |b'.slots| == 31
            && (forall m: nat :: m < 31 && m != j ==> (b'.slots[m].reader.Finished? <==> b.slots[m].reader.Finished?))
            && (b.slots[j].reader.Finished? ==> b'.slots[j].reader.Finished?)
  {
    if !b.slots[j].reader.SweepOr? { B.OwnStep(b, j); }
  }

  /** A pop that returns closes its own position, with the item of that position. */
  lemma ReadServes(s: Queue, k: nat, j: nat)
    requires Inv(s) && k < |s.blocks| && j < 31
    ensures Serves(Abs(s), Silent, ReceiptOf(s, Read(k, j)), Open(s), Open(ReaderStep(s, k, j)))
  {
    var s' := ReaderStep(s, k, j);
    Last(s, k);
    ReaderOver(s.blocks[k], j);
    if !Over(s.blocks, k, j) && Over(s'.blocks, k, j) {
      ReturnsItem(s, k, j);
      Closes(s, s', k, j);
    } else {
      SameOverAt(s.blocks, k, s'.blocks[k]);
      OpenSame(s, s');
    }
  }

  lemma ReturnsItem(s: Queue, k: nat, j: nat)
    requires Inv(s) && k < |s.blocks| && j < 31 && Over(ReaderStep(s, k, j).blocks, k, j)
    ensures k * 31 + j < s.taken <= |s.pushed|
    ensures ReaderStep(s, k, j).blocks[k].slots[j].reader.v == s.pushed[k * 31 + j]
  {
    ReaderKeeps(s, k, j);
    Last(ReaderStep(s, k, j), k);
    PopAnswers(ReaderStep(s, k, j), k, j);
  }

  lemma Closes(s: Queue, s': Queue, k: nat, j: nat)
    requires k < |s.blocks| == |s'.blocks| && j < 31 && s'.taken == s.taken && k * 31 + j < s.taken
    requires !Over(s.blocks, k, j) && Over(s'.blocks, k, j)
    requires forall l: nat :: l < |s.blocks| && l != k ==> s'.blocks[l] == s.blocks[l]
    requires forall m: nat :: m != j ==> (Over(s'.blocks, k, m) <==> Over(s.blocks, k, m))
    ensures k * 31 + j in Open(s) && Open(s') == Open(s) - {k * 31 + j}
  {
    SlotOfPosition(k, j);
    forall p: nat | p < s.taken && p != k * 31 + j ensures Returned(s'.blocks, p) <==> Returned(s.blocks, p) {
      assert p == (p / 31) * 31 + p % 31;
    }
  }

  lemma ApplyServes(s: Queue, m: Move)
    requires Inv(s) && Enabled(s, m)
    ensures Serves(Abs(s), EventOf(s, m), ReceiptOf(s, m), Open(s), Open(Apply(s, m)))
  {
    match m {
    case Push(t, spurious) => PushSame(s, t, spurious); OpenSame(s, Apply(s, m));
    case Pop(t, spurious) => PopServes(s, t, spurious);
    case InstallNext => TailSame(s); OpenSame(s, Apply(s, m));
    case AdvanceHead => HeadSame(s); OpenSame(s, Apply(s, m));
    case Write(k, j) => WriteSame(s, k, j); OpenSame(s, Apply(s, m));
    case Read(k, j) => ReadServes(s, k, j);
    case _ => OpenSame(s, Apply(s, m));
    }
  }

  ghost predicate Sound(h: History<Queue>) { Inv(h.s) && Accounts(Abs(h.s), Open(h.s), h.record) }

  lemma NothingReturned(s: Queue, r: Record)
    requires s.taken == 0 && s.pushed == [] && |r.events| == 0 && |r.receipts| == 0
    ensures Accounts(Abs(s), Open(s), r)
  {
    assert Open(s) == {};
    NothingDone(Abs(s), r);
  }

  lemma MakeSound(s: Queue, r: Record)
    requires Inv(s) && Accounts(Abs(s), Open(s), r)
    ensures Sound(History(s, r))
  {
  }

  lemma FirstSound(r: Record)
    requires |r.events| == 0 && |r.receipts| == 0
    ensures Sound(History(New(), r))
  {
    NewKeeps();
    NothingReturned(New(), r);
    MakeSound(New(), r);
  }

  ghost function Extend(h: History<Queue>, m: Move): (h': History<Queue>)
    requires Sound(h) && Enabled(h.s, m)
    ensures Sound(h')
  {
    ApplyKeeps(h.s, m);
    ApplyRefines(h.s, m);
    ApplyServes(h.s, m);
    AccountsNext(Abs(h.s), Open(h.s), h.record, EventOf(h.s, m), ReceiptOf(h.s, m),
                 Abs(Apply(h.s, m)), Open(Apply(h.s, m)));
    History(Apply(h.s, m), Then(h.record, EventOf(h.s, m), ReceiptOf(h.s, m)))
  }

  /** The history of a run, if every move of it was possible. */
  ghost function Run(ms: seq<Move>): (r: Option<History<Queue>>)
    ensures r.Some? ==> Sound(r.value)
  {
    if ms == [] then
      FirstSound(Record([], []));
      Some(History(New(), Record([], [])))
    else
      var n := |ms| - 1;
      var r := Run(ms[..n]);
      if r.None? || !Enabled(r.value.s, ms[n]) then None else Some(Extend(r.value, ms[n]))
  }

  /**
   In every run items leave in the order they entered, whatever the interleaving; and the pop whose
   exchange was the `k`-th returns the `k`-th item, once.
   */
  lemma RunIsFifo(ms: seq<Move>)
    requires Run(ms).Some?
    ensures var h := Run(ms).value;
            && PushedBy(h.record.events) == PoppedBy(h.record.events) + Abs(h.s).Contents()
            && InOrder(Open(h.s), h.record)
  {
    var h := Run(ms).value;
    FirstInFirstOut(Abs(h.s), h.record.events);
    AnsweredInOrder(Abs(h.s), Open(h.s), h.record);
  }

  /** In every run, a block has been freed exactly when all 31 of its items have been taken out. */
  lemma FreedExactlyWhenDrained(ms: seq<Move>, k: nat)
    requires Run(ms).Some? && k < |Run(ms).value.s.blocks|
    ensures var b := Run(ms).value.s.blocks[k];
            |b.slots| == 31 && (b.freed <==> forall j :: 0 <= j < 31 ==> b.slots[j].reader.Finished?)
  {
    Last(Run(ms).value.s, k);
    B.FreedIffAllFinished(Run(ms).value.s.blocks[k]);
  }
}
