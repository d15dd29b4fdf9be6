/**
 One block of `SegQueue` and the protocol that decides who frees it.

 A block has `BLOCK_CAP` slots; each is written by one push and read by one pop. The pop of the last
 slot starts the destruction: it sweeps over the other slots and, where a reader is still busy,
 leaves the duty to that reader by setting the slot's DESTROY bit. Once a push or a pop has won its
 slot, the rest of its code is a walk through stages kept here, in the slot.
 */
module SegBlock {
  import opened Base

  const LAP := 32
  const BLOCK_CAP := LAP - 1

  /** The rest of a push: install the next block (last slot only), link it, store, mark. */
  datatype Writer = NoWriter | Install(v: Item) | Link(v: Item) | Store(v: Item) | MarkWrite(v: Item) | Wrote(v: Item)

  /** The rest of a pop: move the head on (last slot only), wait, take, mark, sweep. */
  datatype Reader =
    | NoReader
    | Advance
    | WaitWrite
    | Take
    | MarkRead(v: Item)
    | Sweep(v: Item, i: nat)
    | SweepOr(v: Item, i: nat)
    | Finished(v: Item)

  datatype Slot = Slot(write: bool, read: bool, destroy: bool, value: Option<Item>, writer: Writer, reader: Reader)

  /** Where the duty to free the block is: not yet started, with a reader, parked in a slot, done. */
  datatype Duty = Waiting | Held(j: nat) | Parked(i: nat) | Gone

  datatype Block = Block(next: bool, slots: seq<Slot>, freed: bool, duty: Duty)

  function NewBlock(): Block {
    Block(false, seq(BLOCK_CAP, i => Slot(false, false, false, None, NoWriter, NoReader)), false, Waiting)
  }

  predicate Sweeping(r: Reader) {
    r.Sweep? || r.SweepOr?
  }

  ghost predicate SlotInv(x: Slot, last: bool) {
    && (x.write <==> x.writer.Wrote?)
    && (x.writer.MarkWrite? || x.writer.Wrote? ==> x.value == Some(x.writer.v))
    && (x.reader.Take? || x.reader.MarkRead? || Sweeping(x.reader) || x.reader.Finished? ==> x.writer.Wrote?)
    && (x.reader.MarkRead? || Sweeping(x.reader) || x.reader.Finished? ==> x.reader.v == x.writer.v)
    && (x.reader.MarkRead? ==> !last)
    && (x.read <==> !last && (Sweeping(x.reader) || x.reader.Finished?))
    && (x.reader.Advance? || x.writer.Install? || x.writer.Link? ==> last)
  }

  /** Every slot below `n` has been read, and so has the last one. */
  ghost predicate ReadBelow(b: Block, n: nat)
    requires |b.slots| == BLOCK_CAP && n < BLOCK_CAP
  {
    && (forall m :: 0 <= m < n ==> b.slots[m].read)
    && (Sweeping(b.slots[BLOCK_CAP - 1].reader) || b.slots[BLOCK_CAP - 1].reader.Finished?)
  }

  ghost predicate DutyInv(b: Block)
    requires |b.slots| == BLOCK_CAP
  {
    && (forall m :: 0 <= m < BLOCK_CAP && Sweeping(b.slots[m].reader) ==> b.duty == Held(m))
    && (forall m :: 0 <= m < BLOCK_CAP && b.slots[m].destroy ==> b.slots[m].read || b.duty == Parked(m))
    && (b.freed <==> b.duty.Gone?)
    && match b.duty
       case Waiting =>
         !Sweeping(b.slots[BLOCK_CAP - 1].reader) && !b.slots[BLOCK_CAP - 1].reader.Finished?
       case Held(j) =>
         j < BLOCK_CAP && Sweeping(b.slots[j].reader)
         && b.slots[j].reader.i < BLOCK_CAP && ReadBelow(b, b.slots[j].reader.i)
         && (b.slots[j].reader.SweepOr? ==> b.slots[j].reader.i < BLOCK_CAP - 1)
       case Parked(i) =>
         i < BLOCK_CAP - 1 && b.slots[i].destroy && !b.slots[i].read && ReadBelow(b, i)
       case Gone => ReadBelow(b, BLOCK_CAP - 1)
  }

  ghost predicate Inv(b: Block) {
    && |b.slots| == BLOCK_CAP
    && (forall m :: 0 <= m < BLOCK_CAP ==> SlotInv(b.slots[m], m == BLOCK_CAP - 1))
    && (b.next <==> var w := b.slots[BLOCK_CAP - 1].writer; w.Store? || w.MarkWrite? || w.Wrote?)
    && DutyInv(b)
  }

  // ---------------------------------------------------------------------------------------- steps

  function Put(b: Block, j: nat, x: Slot): Block
    requires j < |b.slots|
  {
    b.(slots := b.slots[j := x])
  }

  /** The push that won slot `j` takes its next access to the block. */
  function WriterStep(b: Block, j: nat): Block
    requires j < |b.slots|
  {
    var x := b.slots[j];
    match x.writer
    case Link(v) => Put(b, j, x.(writer := Store(v))).(next := true)
    case Store(v) => Put(b, j, x.(writer := MarkWrite(v), value := Some(v)))
    case MarkWrite(v) => Put(b, j, x.(writer := Wrote(v), write := true))
    case _ => b
  }

  /** The pop that won slot `j` takes its next access to the block. */
  function ReaderStep(b: Block, j: nat): Block
    requires Inv(b) && j < BLOCK_CAP
  {
    var x := b.slots[j];
    match x.reader
    case WaitWrite => if x.write then Put(b, j, x.(reader := Take)) else b
    case Take =>
      var v := x.value.value;
      if j + 1 == BLOCK_CAP then Put(b, j, x.(reader := Sweep(v, 0))).(duty := Held(j))
      else Put(b, j, x.(reader := MarkRead(v)))
    case MarkRead(v) =>
      if x.destroy then Put(b, j, x.(read := true, reader := Sweep(v, j + 1))).(duty := Held(j))
      else Put(b, j, x.(read := true, reader := Finished(v)))
    case Sweep(v, i) =>
      if i >= BLOCK_CAP - 1 then Put(b, j, x.(reader := Finished(v))).(freed := true, duty := Gone)
      else if b.slots[i].read then Put(b, j, x.(reader := Sweep(v, i + 1)))
      else Put(b, j, x.(reader := SweepOr(v, i)))
    case SweepOr(v, i) => HandOver(b, j)
    case _ => b
  }

  /** `fetch_or(DESTROY)` on slot `i`: a busy reader inherits the duty, a finished one is passed. */
  function HandOver(b: Block, j: nat): Block
    requires Inv(b) && j < BLOCK_CAP && b.slots[j].reader.SweepOr?
  {
    var SweepOr(v, i) := b.slots[j].reader;
    var b' := Put(b, i, b.slots[i].(destroy := true));
    if b.slots[i].read then Put(b', j, b'.slots[j].(reader := Sweep(v, i + 1)))
    else Put(b', j, b'.slots[j].(reader := Finished(v))).(duty := Parked(i))
  }

  /** A push has won slot `j`. */
  function ClaimWrite(b: Block, j: nat, v: Item): Block
    requires j < |b.slots|
  {
    Put(b, j, b.slots[j].(writer := if j + 1 == BLOCK_CAP then Install(v) else Store(v)))
  }

  /** The next block is installed: the push of the last slot goes on to link it. */
  function Installed(b: Block): Block
    requires |b.slots| == BLOCK_CAP && b.slots[BLOCK_CAP - 1].writer.Install?
  {
    var x := b.slots[BLOCK_CAP - 1];
    Put(b, BLOCK_CAP - 1, x.(writer := Link(x.writer.v)))
  }

  /** A pop has won slot `j`. */
  function ClaimRead(b: Block, j: nat): Block
    requires j < |b.slots|
  {
    Put(b, j, b.slots[j].(reader := if j + 1 == BLOCK_CAP then Advance else WaitWrite))
  }

  /** The head has moved on: the pop of the last slot goes on to read it. */
  function Advanced(b: Block): Block
    requires |b.slots| == BLOCK_CAP
  {
    Put(b, BLOCK_CAP - 1, b.slots[BLOCK_CAP - 1].(reader := WaitWrite))
  }

  // ---------------------------------------------------------------- every step keeps the invariant

  lemma NewBlockKeeps()
    ensures Inv(NewBlock())
  {
  }

  lemma WriterKeeps(b: Block, j: nat)
    requires Inv(b) && j < BLOCK_CAP
    ensures Inv(WriterStep(b, j))
  {
  }

  lemma ReaderKeeps(b: Block, j: nat)
    requires Inv(b) && j < BLOCK_CAP
    ensures Inv(ReaderStep(b, j))
  {
    var r := b.slots[j].reader;
    if r.SweepOr? { HandOverKeeps(b, j); }
    else if r.Sweep? { SweepKeeps(b, j); }
    else if r.MarkRead? { MarkReadKeeps(b, j); }
    else { ArriveKeeps(b, j); }
  }

  lemma ArriveKeeps(b: Block, j: nat)
    requires Inv(b) && j < BLOCK_CAP
    requires !Sweeping(b.slots[j].reader) && !b.slots[j].reader.MarkRead?
    ensures Inv(ReaderStep(b, j))
  {
    if b.slots[j].reader.WaitWrite? { WaitKeeps(b, j); }
    else if b.slots[j].reader.Take? { TakeKeeps(b, j); }
  }

  lemma WaitKeeps(b: Block, j: nat)
    requires Inv(b) && j < BLOCK_CAP && b.slots[j].reader.WaitWrite?
    ensures Inv(ReaderStep(b, j))
  {
  }

  lemma TakeKeeps(b: Block, j: nat)
    requires Inv(b) && j < BLOCK_CAP && b.slots[j].reader.Take?
    ensures Inv(ReaderStep(b, j))
  {
  }

  lemma MarkReadKeeps(b: Block, j: nat)
    requires Inv(b) && j < BLOCK_CAP && b.slots[j].reader.MarkRead?
    ensures Inv(ReaderStep(b, j))
    ensures b.slots[j].destroy <==> b.duty == Parked(j)
  {
  }

  lemma SweepKeeps(b: Block, j: nat)
    requires Inv(b) && j < BLOCK_CAP && b.slots[j].reader.Sweep?
    ensures Inv(ReaderStep(b, j))
  {
    var i := b.slots[j].reader.i;
    if i < BLOCK_CAP - 1 && b.slots[i].read {
      assert ReadBelow(ReaderStep(b, j), i + 1);
    }
  }

  lemma HandOverKeeps(b: Block, j: nat)
    requires Inv(b) && j < BLOCK_CAP && b.slots[j].reader.SweepOr?
    ensures Inv(HandOver(b, j))
  {
  }

  lemma ClaimWriteKeeps(b: Block, j: nat, v: Item)
    requires Inv(b) && j < BLOCK_CAP && b.slots[j].writer.NoWriter?
    ensures Inv(ClaimWrite(b, j, v))
  {
  }

  lemma ClaimReadKeeps(b: Block, j: nat)
    requires Inv(b) && j < BLOCK_CAP && b.slots[j].reader.NoReader?
    ensures Inv(ClaimRead(b, j))
  {
  }

  lemma InstalledKeeps(b: Block)
    requires Inv(b) && b.slots[BLOCK_CAP - 1].writer.Install?
    ensures Inv(Installed(b))
  {
  }

  lemma AdvancedKeeps(b: Block)
    requires Inv(b) && b.slots[BLOCK_CAP - 1].reader.Advance?
    ensures Inv(Advanced(b))
  {
  }

  // ------------------------------------------------------------------ what the invariant promises

  /** A block is freed exactly when every slot's pop has finished: never early, never forgotten. */
  lemma FreedIffAllFinished(b: Block)
    requires Inv(b)
    ensures b.freed <==> forall m :: 0 <= m < BLOCK_CAP ==> b.slots[m].reader.Finished?
  {
    if b.freed {
      forall m | 0 <= m < BLOCK_CAP ensures b.slots[m].reader.Finished? {
        assert m < BLOCK_CAP - 1 ==> b.slots[m].read;
      }
    }
  }

  /** Nobody is left to touch a freed block: all its pushes and pops are over. */
  lemma FreedIsUntouched(b: Block, j: nat)
    requires Inv(b) && b.freed && j < BLOCK_CAP
    ensures b.next && b.slots[j].writer.Wrote? && b.slots[j].reader.Finished?
    ensures WriterStep(b, j) == b && ReaderStep(b, j) == b
  {
    FreedIffAllFinished(b);
    assert b.slots[j].reader.Finished? && b.slots[BLOCK_CAP - 1].reader.Finished?;
  }

  /**
   The step that frees: there is one, it is taken by the one holder of the duty, and at that instant
   every other pop of the block has finished.
   */
  lemma FreeingStep(b: Block, j: nat)
    requires Inv(b) && j < BLOCK_CAP && !b.freed && ReaderStep(b, j).freed
    ensures b.duty == Held(j)
    ensures forall m :: 0 <= m < BLOCK_CAP && m != j ==> b.slots[m].reader.Finished?
  {
    ReaderKeeps(b, j);
    FreedIffAllFinished(ReaderStep(b, j));
    forall m | 0 <= m < BLOCK_CAP && m != j ensures b.slots[m].reader.Finished? {
      assert ReaderStep(b, j).slots[m].reader.Finished?;
    }
  }

  /** A finished pop holds what the slot's push stored. */
  lemma PopTakesPush(b: Block, j: nat)
    requires Inv(b) && j < BLOCK_CAP && b.slots[j].reader.Finished?
    ensures b.slots[j].writer == Wrote(b.slots[j].reader.v)
  {
    assert SlotInv(b.slots[j], j == BLOCK_CAP - 1);
  }

  /** How many accesses the pop of a slot still needs if its item has been written. */
  function Left(r: Reader): nat {
    match r
    case NoReader => 200
    case Advance => 150
    case WaitWrite => 100
    case Take => 90
    case MarkRead(_) => 80
    case Sweep(_, i) => if i < BLOCK_CAP then 2 * (BLOCK_CAP - i) else 1
    case SweepOr(_, i) => if i < BLOCK_CAP then 2 * (BLOCK_CAP - i) - 1 else 1
    case Finished(_) => 0
  }

  /** Once its item is written a pop waits for nobody: each step, the sweep included, is progress. */
  lemma PopAdvances(b: Block, j: nat)
    requires Inv(b) && j < BLOCK_CAP && b.slots[j].write
    requires var r := b.slots[j].reader; !r.NoReader? && !r.Advance? && !r.Finished?
    ensures Left(ReaderStep(b, j).slots[j].reader) < Left(b.slots[j].reader)
  {
    if Sweeping(b.slots[j].reader) { SweepAdvances(b, j); }
  }

  lemma SweepAdvances(b: Block, j: nat)
    requires Inv(b) && j < BLOCK_CAP && Sweeping(b.slots[j].reader)
    ensures Left(ReaderStep(b, j).slots[j].reader) < Left(b.slots[j].reader)
  {
  }

  /** A pop leaves the pushes of its block alone. */
  lemma ReaderLeavesWriters(b: Block, j: nat, m: nat)
    requires Inv(b) && j < BLOCK_CAP && m < BLOCK_CAP
    ensures |ReaderStep(b, j).slots| == BLOCK_CAP
    ensures ReaderStep(b, j).slots[m].writer == b.slots[m].writer && ReaderStep(b, j).slots[m].write == b.slots[m].write
  {
  }

  /** What the queue around the block can rely on: steps in the block make and undo no claims. */
  ghost predicate SameClaims(b: Block, b': Block)
    requires |b.slots| == BLOCK_CAP && |b'.slots| == BLOCK_CAP
  {
    forall m :: 0 <= m < BLOCK_CAP ==>
      var x, x' := b.slots[m], b'.slots[m];
      && (x.writer.NoWriter? <==> x'.writer.NoWriter?)
      && (x.writer.Install? <==> x'.writer.Install?)
      && (!x.writer.NoWriter? ==> x.writer.v == x'.writer.v)
      && (x.reader.NoReader? <==> x'.reader.NoReader?)
      && (x.reader.Advance? <==> x'.reader.Advance?)
  }

  lemma WriterClaims(b: Block, j: nat)
    requires Inv(b) && j < BLOCK_CAP
    ensures SameClaims(b, WriterStep(b, j))
    ensures WriterStep(b, j).next && !b.next ==> b.slots[BLOCK_CAP - 1].writer.Link?
  {
  }

  lemma ReaderClaims(b: Block, j: nat)
    requires Inv(b) && j < BLOCK_CAP
    ensures |ReaderStep(b, j).slots| == BLOCK_CAP && SameClaims(b, ReaderStep(b, j))
    ensures ReaderStep(b, j).next == b.next
  {
    var x := b.slots[j];
    if x.reader.SweepOr? { HandOverClaims(b, j); }
    else {
      var x' := ReaderStep(b, j).slots[j];
      OwnStep(b, j);
      PutClaims(b, j, x', ReaderStep(b, j));
    }
  }

  /** All but the hand-over touch the call's own slot only. */
  lemma OwnStep(b: Block, j: nat)
    requires Inv(b) && j < BLOCK_CAP && !b.slots[j].reader.SweepOr?
    ensures var b' := ReaderStep(b, j);
            && b'.slots == b.slots[j := b'.slots[j]] && b'.next == b.next
            && b'.slots[j].writer == b.slots[j].writer
            && (b'.slots[j].reader.NoReader? <==> b.slots[j].reader.NoReader?)
            && (b'.slots[j].reader.Advance? <==> b.slots[j].reader.Advance?)
  {
  }

  lemma PutClaims(b: Block, j: nat, x: Slot, b': Block)
    requires |b.slots| == BLOCK_CAP && j < BLOCK_CAP && b'.slots == b.slots[j := x] && x.writer == b.slots[j].writer
    requires x.reader.NoReader? <==> b.slots[j].reader.NoReader?
    requires x.reader.Advance? <==> b.slots[j].reader.Advance?
    ensures SameClaims(b, b')
  {
  }

  lemma HandOverClaims(b: Block, j: nat)
    requires Inv(b) && j < BLOCK_CAP && b.slots[j].reader.SweepOr?
    ensures |HandOver(b, j).slots| == BLOCK_CAP && SameClaims(b, HandOver(b, j)) && HandOver(b, j).next == b.next
  {
  }
}
