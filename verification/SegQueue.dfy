/**
 `SegQueue`: the unbounded queue, a linked list of blocks for any number of producers and consumers.

 LAP is 32 and BLOCK_CAP 31; they are written out below, which keeps index arithmetic linear.
 Index `i` belongs to block `i / 32`; the last index of each 32 is skipped. `tail` and `head` are the
 indices (the low HAS_NEXT bit of the head word is `hasNext`). A block pointer is the block's place
 in the list. A thread races for an index with a call kept in `calls`; once it has won, the rest of
 its code is played out in the block (see SegBlock), except that the push of a block's last slot
 first installs the next block (`tailStage`) and its pop first moves the head there (`headStage`).
 */
module SegQueue {
  import opened Base
  import opened AbstractFifo
  import B = SegBlock

  /** `i / LAP` and `i % LAP`, by repeated subtraction (see `Parts`). */
  function BlockOf(i: nat): nat {
    if i < 32 then 0 else BlockOf(i - 32) + 1
  }

  function Offset(i: nat): nat {
    if i < 32 then i else Offset(i - 32)
  }

  /** How many items have an index below `i`: one index in 32 holds none. */
  function Rank(i: nat): nat {
    Parts(i);
    i - BlockOf(i)
  }

  lemma {:induction false} Parts(i: nat)
    ensures i == 32 * BlockOf(i) + Offset(i) && Offset(i) < 32
    ensures BlockOf(i) == i / 32 && Offset(i) == i % 32
  {
    if i >= 32 { Parts(i - 32); }
  }

  /** An index and its successor. */
  lemma NextIndex(i: nat)
    ensures i == 32 * BlockOf(i) + Offset(i) && Offset(i) < 32
    ensures Offset(i) < 31 ==>
              BlockOf(i + 1) == BlockOf(i) && Offset(i + 1) == Offset(i) + 1 && Rank(i + 1) == Rank(i) + 1
    ensures Offset(i) == 31 ==>
              BlockOf(i + 1) == BlockOf(i) + 1 && Offset(i + 1) == 0 && Rank(i + 1) == Rank(i)
  {
    Parts(i);
    Parts(i + 1);
  }

  lemma BlocksAscend(i: nat, j: nat)
    requires i <= j
    ensures BlockOf(i) <= BlockOf(j)
  {
    Parts(i);
    Parts(j);
  }

  datatype Answer = Pushing(i: nat) | Popping(i: nat) | Empty

  datatype Call =
    | Done(answer: Answer)
    | LoadTail(v: Item, spare: bool)
    | LoadBlock(v: Item, spare: bool, i: nat)
    | FirstBlock(v: Item, spare: bool, i: nat)
    | StoreHeadBlock(v: Item, spare: bool, i: nat)
    | MoveTail(v: Item, spare: bool, i: nat, b: nat)
    | LoadHead(final: bool)
    | CheckTail(h: nat, f: bool)
    | LoadHeadBlock(h: nat, f: bool)
    | SeeTail(h: nat, ob: Option<nat>)
    | MoveHead(h: nat, f: bool, f': bool, b: nat)

  datatype TailStage = TailFree | PutBlock | PutIndex

  datatype HeadStage = HeadFree | AwaitNext | PeekNext | PutHead(flag: bool) | PutHeadIndex(flag: bool)

  datatype Queue = Queue(
    tail: nat, tailBlock: Option<nat>, tailStage: TailStage,
    head: nat, hasNext: bool, headBlock: Option<nat>, headStage: HeadStage,
    blocks: seq<B.Block>, calls: map<Tid, Call>,
    starter: Option<Tid>, pushed: seq<Item>, taken: nat)

  function New(): Queue {
    Queue(0, None, TailFree, 0, false, None, HeadFree, [], map[], None, [], 0)
  }

  // ------------------------------------------------------------------------------------ invariant

  ghost predicate TailInv(s: Queue) {
    var k := BlockOf(s.tail);
    if s.tailBlock.None? then s.tail == 0 && s.blocks == [] && s.tailStage.TailFree?
    else match s.tailStage
      case TailFree => Offset(s.tail) < 31 && s.tailBlock == Some(k) && |s.blocks| == k + 1
      case PutBlock => Offset(s.tail) == 31 && s.tailBlock == Some(k) && |s.blocks| == k + 1
      case PutIndex => Offset(s.tail) == 31 && s.tailBlock == Some(k + 1) && |s.blocks| == k + 2
  }

  ghost predicate HeadInv(s: Queue) {
    var k := BlockOf(s.head);
    && s.head <= s.tail
    && (s.hasNext ==> k < BlockOf(s.tail))
    && (s.starter.Some? ==> s.headBlock.None? && s.tailBlock.Some?)
    && (s.headBlock.None? ==> s.head == 0 && s.headStage.HeadFree? && (s.starter.Some? || s.tailBlock.None?))
    && (s.headBlock.Some? ==>
          && s.tailBlock.Some?
          && match s.headStage
             case HeadFree => Offset(s.head) < 31 && s.headBlock == Some(k)
             case AwaitNext => Offset(s.head) == 31 && s.headBlock == Some(k)
             case PeekNext => Offset(s.head) == 31 && s.headBlock == Some(k) && (k + 1) * 32 <= s.tail
             case PutHead(flag) =>
               && Offset(s.head) == 31 && s.headBlock == Some(k)
               && (k + 1) * 32 <= s.tail && (flag ==> (k + 2) * 32 <= s.tail)
             case PutHeadIndex(flag) =>
               && Offset(s.head) == 31 && s.headBlock == Some(k + 1)
               && (k + 1) * 32 <= s.tail && (flag ==> (k + 2) * 32 <= s.tail))
  }

  ghost predicate CountInv(s: Queue) {
    |s.pushed| == Rank(s.tail) && s.taken == Rank(s.head)
  }

  /** Slot `j` of block `k`: claimed for writing iff its index is below the tail, and so on. */
  ghost predicate SlotOk(x: B.Slot, k: nat, j: nat, tail: nat, head: nat, pushed: seq<Item>) {
    && (x.writer.NoWriter? <==> tail <= k * 32 + j)
    && (x.reader.NoReader? <==> head <= k * 32 + j)
    && (!x.writer.NoWriter? ==> k * 31 + j < |pushed| && x.writer.v == pushed[k * 31 + j])
    && (j == 30 ==> (x.writer.Install? <==> tail == k * 32 + 31))
    && (j == 30 ==> (x.reader.Advance? <==> head == k * 32 + 31))
  }

  ghost predicate Linked(b: B.Block, k: nat, tail: nat, head: nat, pushed: seq<Item>) {
    && |b.slots| == 31
    && (b.next ==> (k + 1) * 32 <= tail)
    && (forall j: nat {:trigger b.slots[j]} :: j < 31 ==> SlotOk(b.slots[j], k, j, tail, head, pushed))
  }

  ghost predicate AllLinked(bs: seq<B.Block>, tail: nat, head: nat, pushed: seq<Item>) {
    forall k: nat {:trigger Linked(bs[k], k, tail, head, pushed)} ::
      k < |bs| ==> Linked(bs[k], k, tail, head, pushed)
  }

  ghost predicate AllGood(bs: seq<B.Block>) {
    forall k: nat {:trigger B.Inv(bs[k])} :: k < |bs| ==> B.Inv(bs[k])
  }

  ghost predicate AllBlocks(bs: seq<B.Block>, tail: nat, head: nat, pushed: seq<Item>) {
    AllGood(bs) && AllLinked(bs, tail, head, pushed)
  }

  /** The part of the state a waiting call relies on; none of it ever goes back. */
  datatype Ends = Ends(tail: nat, head: nat, blocks: nat, begun: bool, starter: Option<Tid>)

  ghost function EndsOf(s: Queue): Ends {
    Ends(s.tail, s.head, |s.blocks|, s.headBlock.Some?, s.starter)
  }

  ghost predicate CallOk(c: Call, t: Tid, e: Ends) {
    match c
    case LoadBlock(_, _, i) => i <= e.tail
    case FirstBlock(_, _, i) => i == 0
    case StoreHeadBlock(_, _, i) => e.starter == Some(t) && i == 0
    case MoveTail(_, spare, i, b) =>
      && i <= e.tail && Offset(i) < 31 && (Offset(i) == 30 ==> spare) && b < e.blocks
      && (i == e.tail ==> b == BlockOf(i))
    case CheckTail(h, _) => h <= e.head
    case LoadHeadBlock(h, _) => h <= e.head
    case SeeTail(h, ob) =>
      && h <= e.head && Offset(h) < 31
      && (ob.Some? ==> e.begun && ob.value < e.blocks && (h == e.head ==> ob == Some(BlockOf(h))))
    case MoveHead(h, f, f', b) =>
      && h <= e.head && Offset(h) < 31 && e.begun && b < e.blocks
      && (h == e.head ==> b == BlockOf(h))
      && (f ==> f') && (f' && !f ==> BlockOf(h) < BlockOf(e.tail)) && (!f ==> h < e.tail)
    case _ => true
  }

  ghost predicate AllCalls(calls: map<Tid, Call>, e: Ends) {
    forall t {:trigger CallOk(calls[t], t, e)} :: t in calls ==> CallOk(calls[t], t, e)
  }

  ghost predicate Inv(s: Queue) {
    && TailInv(s) && HeadInv(s) && CountInv(s)
    && AllBlocks(s.blocks, s.tail, s.head, s.pushed)
    && AllCalls(s.calls, EndsOf(s))
    && (s.starter.Some? ==> s.starter.value in s.calls && s.calls[s.starter.value].StoreHeadBlock?)
  }

  // ----------------------------------------------------------------------------- racing for a slot

  predicate Active(s: Queue, t: Tid) {
    t in s.calls && !s.calls[t].Done?
  }

  function Goto(s: Queue, t: Tid, c: Call): Queue {
    s.(calls := s.calls[t := c])
  }

  /** Where a push goes from a load, by what it saw of the tail's index and block pointer. */
  function PushSees(c: Call, tail: nat, tailBlock: Option<nat>): Call
    requires c.LoadTail? || c.LoadBlock?
  {
    if c.LoadTail? then LoadBlock(c.v, c.spare, tail)
    else if Offset(c.i) == 31 then LoadTail(c.v, c.spare)
    else
      var spare := c.spare || Offset(c.i) == 30;
      if tailBlock.None? then FirstBlock(c.v, spare, c.i) else MoveTail(c.v, spare, c.i, tailBlock.value)
  }

  /** One access of a push that has not won an index yet. */
  function PushStep(s: Queue, t: Tid, spurious: bool): Queue
    requires Inv(s) && Active(s, t)
  {
    match s.calls[t]
    case LoadTail(v, spare) => Goto(s, t, PushSees(s.calls[t], s.tail, s.tailBlock))
    case LoadBlock(v, spare, i) => Goto(s, t, PushSees(s.calls[t], s.tail, s.tailBlock))
    case FirstBlock(v, spare, i) =>
      if s.tailBlock.None? then OpenList(s, t) else Goto(s, t, LoadTail(v, true))
    case StoreHeadBlock(v, spare, i) =>
      Goto(s, t, MoveTail(v, spare, i, 0)).(headBlock := Some(0), starter := None)
    case MoveTail(v, spare, i, b) =>
      InBlock(s, t);
      if s.tail == i && !spurious then ClaimTail(s, t) else Goto(s, t, LoadBlock(v, spare, s.tail))
    case _ => s
  }

  predicate Inside(s: Queue, b: nat, j: nat) { b < |s.blocks| && j < |s.blocks[b].slots| }

  lemma InBlock(s: Queue, t: Tid)
    requires Inv(s) && t in s.calls
    ensures s.calls[t].MoveTail? ==> Inside(s, s.calls[t].b, Offset(s.calls[t].i))
    ensures s.calls[t].MoveHead? ==> Inside(s, s.calls[t].b, Offset(s.calls[t].h))
  {
    var c := s.calls[t];
    assert CallOk(c, t, EndsOf(s));
    if c.MoveTail? || c.MoveHead? { Last(s, c.b); }
  }

  /** The exchange on the null block pointer succeeded. */
  function OpenList(s: Queue, t: Tid): Queue
    requires t in s.calls && s.calls[t].FirstBlock?
  {
    var FirstBlock(v, spare, i) := s.calls[t];
    s.(tailBlock := Some(0), blocks := [B.NewBlock()], starter := Some(t),
       calls := s.calls[t := StoreHeadBlock(v, spare, i)])
  }

  /** The exchange on the tail index succeeded. */
  function ClaimTail(s: Queue, t: Tid): Queue
    requires t in s.calls && s.calls[t].MoveTail? && Inside(s, s.calls[t].b, Offset(s.calls[t].i))
  {
    var MoveTail(v, spare, i, b) := s.calls[t];
    s.(tail := i + 1,
       tailStage := if Offset(i) == 30 then PutBlock else s.tailStage,
       blocks := s.blocks[b := B.ClaimWrite(s.blocks[b], Offset(i), v)],
       pushed := s.pushed + [v],
       calls := s.calls[t := Done(Pushing(i))])
  }

  /** The push of the last slot of a block stores the next block, then the next index. */
  function TailStep(s: Queue): Queue
    requires Inv(s)
  {
    match s.tailStage
    case TailFree => s
    case PutBlock =>
      s.(tailBlock := Some(BlockOf(s.tail) + 1), blocks := s.blocks + [B.NewBlock()], tailStage := PutIndex)
    case PutIndex =>
      var k := BlockOf(s.tail);
      NextIndex(s.tail);
      Last(s, k);
      s.(tail := s.tail + 1, tailStage := TailFree, blocks := s.blocks[k := B.Installed(s.blocks[k])])
  }

  predicate PopLoads(c: Call) { c.LoadHead? || c.CheckTail? || c.LoadHeadBlock? || c.SeeTail? }

  /** Where a pop goes from a load, by what it saw of the head's word and block pointer and of the tail. */
  function PopSees(c: Call, head: nat, hasNext: bool, headBlock: Option<nat>, tail: nat): Call
    requires PopLoads(c)
  {
    match c
    case LoadHead(final) => if final then CheckTail(head, hasNext) else LoadHeadBlock(head, hasNext)
    case CheckTail(h, f) => if h == tail then Done(Empty) else LoadHeadBlock(h, f)
    case LoadHeadBlock(h, f) =>
      if Offset(h) == 31 then LoadHead(false)
      else if !f then SeeTail(h, headBlock)
      else if headBlock.None? then LoadHead(false)
      else MoveHead(h, true, true, headBlock.value)
    case SeeTail(h, ob) =>
      if h == tail then Done(Empty)
      else if ob.None? then LoadHead(false)
      else MoveHead(h, false, BlockOf(h) != BlockOf(tail), ob.value)
  }

  /** One access of a pop that has not won an index yet. */
  function PopStep(s: Queue, t: Tid, spurious: bool): Queue
    requires Inv(s) && Active(s, t)
  {
    var c := s.calls[t];
    if PopLoads(c) then Goto(s, t, PopSees(c, s.head, s.hasNext, s.headBlock, s.tail))
    else if c.MoveHead? then
      InBlock(s, t);
      if s.head == c.h && s.hasNext == c.f && !spurious then ClaimHead(s, t)
      else Goto(s, t, LoadHeadBlock(s.head, s.hasNext))
    else s
  }

  /** The exchange on the head word succeeded. */
  function ClaimHead(s: Queue, t: Tid): Queue
    requires t in s.calls && s.calls[t].MoveHead? && Inside(s, s.calls[t].b, Offset(s.calls[t].h))
  {
    var MoveHead(h, f, f', b) := s.calls[t];
    s.(head := h + 1, hasNext := f',
       headStage := if Offset(h) == 30 then AwaitNext else s.headStage,
       blocks := s.blocks[b := B.ClaimRead(s.blocks[b], Offset(h))],
       taken := s.taken + 1,
       calls := s.calls[t := Done(Popping(h))])
  }

  /** The pop of the last slot of a block waits for the next block and moves the head there. */
  function HeadStep(s: Queue): Queue
    requires Inv(s)
  {
    var k := BlockOf(s.head);
    Pointers(s);
    NextIndex(s.head);
    NextIndex(s.tail);
    match s.headStage
    case HeadFree => s
    case AwaitNext => if s.blocks[k].next then s.(headStage := PeekNext) else s
    case PeekNext => s.(headStage := PutHead(s.blocks[k + 1].next))
    case PutHead(flag) => s.(headBlock := Some(k + 1), headStage := PutHeadIndex(flag))
    case PutHeadIndex(flag) =>
      Last(s, k);
      s.(head := s.head + 1, hasNext := flag, headStage := HeadFree,
         blocks := s.blocks[k := B.Advanced(s.blocks[k])])
  }

  /** The push, or the pop, that won slot `j` of block `k` takes its next access to the block. */
  function WriterStep(s: Queue, k: nat, j: nat): Queue
    requires Inv(s) && k < |s.blocks| && j < 31
  {
    assert B.Inv(s.blocks[k]);
    s.(blocks := s.blocks[k := B.WriterStep(s.blocks[k], j)])
  }

  function ReaderStep(s: Queue, k: nat, j: nat): Queue
    requires Inv(s) && k < |s.blocks| && j < 31
  {
    assert B.Inv(s.blocks[k]);
    s.(blocks := s.blocks[k := B.ReaderStep(s.blocks[k], j)])
  }

  /** The last slot of a block and the two ends. */
  lemma Last(s: Queue, k: nat)
    requires AllBlocks(s.blocks, s.tail, s.head, s.pushed) && k < |s.blocks|
    ensures B.Inv(s.blocks[k]) && |s.blocks[k].slots| == 31
    ensures s.blocks[k].slots[30].writer.Install? <==> s.tail == k * 32 + 31
    ensures s.blocks[k].slots[30].reader.Advance? <==> s.head == k * 32 + 31
    ensures s.blocks[k].next ==> (k + 1) * 32 <= s.tail
  {
    assert Linked(s.blocks[k], k, s.tail, s.head, s.pushed);
    assert SlotOk(s.blocks[k].slots[30], k, 30, s.tail, s.head, s.pushed);
  }

  /** A block pointer read now is in the list, and is the right one if its end is inside a block. */
  lemma Pointers(s: Queue)
    requires TailInv(s) && HeadInv(s)
    ensures s.tailBlock.Some? ==> s.tailBlock.value < |s.blocks|
    ensures s.tailBlock.Some? && Offset(s.tail) < 31 ==> s.tailBlock == Some(BlockOf(s.tail))
    ensures s.headBlock.Some? ==> s.headBlock.value < |s.blocks|
    ensures s.headBlock.Some? && Offset(s.head) < 31 ==> s.headBlock == Some(BlockOf(s.head))
    ensures BlockOf(s.head) <= BlockOf(s.tail)
  {
    NextIndex(s.tail);
    NextIndex(s.head);
  }

  // -------------------------------------------------------------------- what moves do to the blocks

  lemma LinkedAfterPush(b: B.Block, k: nat, tail: nat, head: nat, pushed: seq<Item>, v: Item)
    requires Linked(b, k, tail, head, pushed) && Offset(tail) < 31 && |pushed| == Rank(tail)
    ensures k != BlockOf(tail) ==> Linked(b, k, tail + 1, head, pushed + [v])
    ensures k == BlockOf(tail) ==> Linked(B.ClaimWrite(b, Offset(tail), v), k, tail + 1, head, pushed + [v])
  {
    NextIndex(tail);
    var b' := if k == BlockOf(tail) then B.ClaimWrite(b, Offset(tail), v) else b;
    forall j: nat | j < 31 ensures SlotOk(b'.slots[j], k, j, tail + 1, head, pushed + [v]) {
      assert SlotOk(b.slots[j], k, j, tail, head, pushed);
    }
  }

  lemma LinkedAfterPop(b: B.Block, k: nat, tail: nat, head: nat, pushed: seq<Item>)
    requires Linked(b, k, tail, head, pushed) && Offset(head) < 31
    ensures k != BlockOf(head) ==> Linked(b, k, tail, head + 1, pushed)
    ensures k == BlockOf(head) ==> Linked(B.ClaimRead(b, Offset(head)), k, tail, head + 1, pushed)
  {
    NextIndex(head);
    var b' := if k == BlockOf(head) then B.ClaimRead(b, Offset(head)) else b;
    forall j: nat | j < 31 ensures SlotOk(b'.slots[j], k, j, tail, head + 1, pushed) {
      assert SlotOk(b.slots[j], k, j, tail, head, pushed);
    }
  }

  lemma LinkedAfterInstall(b: B.Block, k: nat, tail: nat, head: nat, pushed: seq<Item>)
    requires Linked(b, k, tail, head, pushed) && Offset(tail) == 31
    requires k == BlockOf(tail) ==> b.slots[30].writer.Install?
    ensures k != BlockOf(tail) ==> Linked(b, k, tail + 1, head, pushed)
    ensures k == BlockOf(tail) ==> Linked(B.Installed(b), k, tail + 1, head, pushed)
  {
    NextIndex(tail);
    var b' := if k == BlockOf(tail) then B.Installed(b) else b;
    forall j: nat | j < 31 ensures SlotOk(b'.slots[j], k, j, tail + 1, head, pushed) {
      assert SlotOk(b.slots[j], k, j, tail, head, pushed);
    }
  }

  lemma LinkedAfterAdvance(b: B.Block, k: nat, tail: nat, head: nat, pushed: seq<Item>)
    requires Linked(b, k, tail, head, pushed) && Offset(head) == 31
    requires k == BlockOf(head) ==> b.slots[30].reader.Advance?
    ensures k != BlockOf(head) ==> Linked(b, k, tail, head + 1, pushed)
    ensures k == BlockOf(head) ==> Linked(B.Advanced(b), k, tail, head + 1, pushed)
  {
    NextIndex(head);
    var b' := if k == BlockOf(head) then B.Advanced(b) else b;
    forall j: nat | j < 31 ensures SlotOk(b'.slots[j], k, j, tail, head + 1, pushed) {
      assert SlotOk(b.slots[j], k, j, tail, head, pushed);
    }
  }

  lemma LinkedFresh(k: nat, tail: nat, head: nat, pushed: seq<Item>)
    requires head <= tail <= k * 32
    ensures Linked(B.NewBlock(), k, tail, head, pushed)
  {
  }

  lemma LinkedInside(b: B.Block, b': B.Block, k: nat, tail: nat, head: nat, pushed: seq<Item>)
    requires Linked(b, k, tail, head, pushed) && |b'.slots| == 31 && B.SameClaims(b, b')
    requires b'.next ==> (k + 1) * 32 <= tail
    ensures Linked(b', k, tail, head, pushed)
  {
    forall j: nat | j < 31 ensures SlotOk(b'.slots[j], k, j, tail, head, pushed) {
      assert SlotOk(b.slots[j], k, j, tail, head, pushed);
    }
  }

  lemma BlocksAfterPush(bs: seq<B.Block>, tail: nat, head: nat, pushed: seq<Item>, v: Item)
    requires AllBlocks(bs, tail, head, pushed) && Offset(tail) < 31 && |pushed| == Rank(tail)
    requires BlockOf(tail) < |bs| && Offset(tail) < |bs[BlockOf(tail)].slots|
    ensures AllBlocks(bs[BlockOf(tail) := B.ClaimWrite(bs[BlockOf(tail)], Offset(tail), v)],
                      tail + 1, head, pushed + [v])
  {
    NextIndex(tail);
    var b, j := BlockOf(tail), Offset(tail);
    assert Linked(bs[b], b, tail, head, pushed) && B.Inv(bs[b]);
    assert SlotOk(bs[b].slots[j], b, j, tail, head, pushed);
    B.ClaimWriteKeeps(bs[b], j, v);
    var bs' := bs[b := B.ClaimWrite(bs[b], j, v)];
    forall k: nat | k < |bs'| ensures Linked(bs'[k], k, tail + 1, head, pushed + [v]) {
      LinkedAfterPush(bs[k], k, tail, head, pushed, v);
    }
  }

  lemma BlocksAfterPop(bs: seq<B.Block>, tail: nat, head: nat, pushed: seq<Item>)
    requires AllBlocks(bs, tail, head, pushed) && Offset(head) < 31
    requires BlockOf(head) < |bs| && Offset(head) < |bs[BlockOf(head)].slots|
    ensures AllBlocks(bs[BlockOf(head) := B.ClaimRead(bs[BlockOf(head)], Offset(head))], tail, head + 1, pushed)
  {
    NextIndex(head);
    var b, j := BlockOf(head), Offset(head);
    assert Linked(bs[b], b, tail, head, pushed) && B.Inv(bs[b]);
    assert SlotOk(bs[b].slots[j], b, j, tail, head, pushed);
    B.ClaimReadKeeps(bs[b], j);
    var bs' := bs[b := B.ClaimRead(bs[b], j)];
    forall k: nat | k < |bs'| ensures Linked(bs'[k], k, tail, head + 1, pushed) {
      LinkedAfterPop(bs[k], k, tail, head, pushed);
    }
  }

  lemma BlocksAfterInstall(bs: seq<B.Block>, tail: nat, head: nat, pushed: seq<Item>)
    requires AllBlocks(bs, tail, head, pushed) && Offset(tail) == 31 && BlockOf(tail) < |bs|
    requires |bs[BlockOf(tail)].slots| == 31 && bs[BlockOf(tail)].slots[30].writer.Install?
    ensures AllBlocks(bs[BlockOf(tail) := B.Installed(bs[BlockOf(tail)])], tail + 1, head, pushed)
  {
    NextIndex(tail);
    var b := BlockOf(tail);
    assert B.Inv(bs[b]);
    B.InstalledKeeps(bs[b]);
    var bs' := bs[b := B.Installed(bs[b])];
    forall k: nat | k < |bs'| ensures Linked(bs'[k], k, tail + 1, head, pushed) {
      LinkedAfterInstall(bs[k], k, tail, head, pushed);
    }
  }

  lemma BlocksAfterAdvance(bs: seq<B.Block>, tail: nat, head: nat, pushed: seq<Item>)
    requires AllBlocks(bs, tail, head, pushed) && Offset(head) == 31 && BlockOf(head) < |bs|
    requires |bs[BlockOf(head)].slots| == 31 && bs[BlockOf(head)].slots[30].reader.Advance?
    ensures AllBlocks(bs[BlockOf(head) := B.Advanced(bs[BlockOf(head)])], tail, head + 1, pushed)
  {
    NextIndex(head);
    var b := BlockOf(head);
    assert B.Inv(bs[b]);
    B.AdvancedKeeps(bs[b]);
    var bs' := bs[b := B.Advanced(bs[b])];
    forall k: nat | k < |bs'| ensures Linked(bs'[k], k, tail, head + 1, pushed) {
      LinkedAfterAdvance(bs[k], k, tail, head, pushed);
    }
  }

  // --------------------------------------------------------------------- what moves do to the calls

  /** The ends only move forward, and while `head` (or `tail`) stays, so does its block. */
  ghost predicate Onward(e: Ends, e': Ends) {
    && e.tail <= e'.tail && e.head <= e'.head && e.blocks <= e'.blocks && (e.begun ==> e'.begun)
  }

  lemma CallsOnward(calls: map<Tid, Call>, t: Tid, c: Call, e: Ends, e': Ends)
    requires AllCalls(calls, e) && Onward(e, e') && CallOk(c, t, e')
    requires e.starter == e'.starter || (e.starter.None? && e'.starter == Some(t)) || (e.starter == Some(t) && e'.starter.None?)
    ensures AllCalls(calls[t := c], e')
  {
    BlocksAscend(e.tail, e'.tail);
    var calls' := calls[t := c];
    forall u | u in calls' ensures CallOk(calls'[u], u, e') {
      if u != t { assert CallOk(calls[u], u, e); }
    }
  }

  // ---------------------------------------------------------------- every step keeps the invariant

  lemma GotoKeeps(s: Queue, t: Tid, c: Call)
    requires Inv(s) && (t in s.calls ==> !s.calls[t].StoreHeadBlock?) && CallOk(c, t, EndsOf(s))
    ensures Inv(Goto(s, t, c))
  {
    CallsOnward(s.calls, t, c, EndsOf(s), EndsOf(s));
  }

  lemma FirstBlockKeeps(s: Queue, t: Tid)
    requires Inv(s) && Active(s, t) && s.calls[t].FirstBlock? && s.tailBlock.None?
    ensures Inv(PushStep(s, t, false))
  {
    var s' := PushStep(s, t, false);
    assert CallOk(s.calls[t], t, EndsOf(s));
    B.NewBlockKeeps();
    LinkedFresh(0, 0, 0, s.pushed);
    CallsOnward(s.calls, t, s'.calls[t], EndsOf(s), EndsOf(s'));
  }

  lemma StoreHeadBlockKeeps(s: Queue, t: Tid)
    requires Inv(s) && Active(s, t) && s.calls[t].StoreHeadBlock?
    ensures Inv(PushStep(s, t, false))
  {
    var s' := PushStep(s, t, false);
    assert CallOk(s.calls[t], t, EndsOf(s));
    CallsOnward(s.calls, t, s'.calls[t], EndsOf(s), EndsOf(s'));
  }

  lemma ClaimTailEnds(s: Queue, s': Queue)
    requires TailInv(s) && HeadInv(s) && CountInv(s) && s.tailBlock.Some? && Offset(s.tail) < 31
    requires s'.tail == s.tail + 1 && s'.tailBlock == s.tailBlock && |s'.blocks| == |s.blocks|
    requires s'.tailStage == if Offset(s.tail) == 30 then PutBlock else s.tailStage
    requires s'.head == s.head && s'.hasNext == s.hasNext && s'.headBlock == s.headBlock && s'.headStage == s.headStage
    requires s'.starter == s.starter && s'.taken == s.taken && |s'.pushed| == |s.pushed| + 1
    ensures TailInv(s') && HeadInv(s') && CountInv(s')
  {
    NextIndex(s.tail);
    BlocksAscend(s.tail, s.tail + 1);
  }

  lemma ClaimTailKeeps(s: Queue, t: Tid)
    requires Inv(s) && t in s.calls && s.calls[t].MoveTail? && s.tail == s.calls[t].i
    ensures Inside(s, s.calls[t].b, Offset(s.tail)) && s.calls[t].b == BlockOf(s.tail) && Offset(s.tail) < 31
    ensures Offset(s.tail) == 30 ==> s.calls[t].spare
    ensures Inv(ClaimTail(s, t))
  {
    InBlock(s, t);
    var s' := ClaimTail(s, t);
    assert CallOk(s.calls[t], t, EndsOf(s));
    ClaimTailEnds(s, s');
    BlocksAfterPush(s.blocks, s.tail, s.head, s.pushed, s.calls[t].v);
    CallsOnward(s.calls, t, s'.calls[t], EndsOf(s), EndsOf(s'));
  }

  lemma ClaimHeadKeeps(s: Queue, t: Tid)
    requires Inv(s) && t in s.calls && s.calls[t].MoveHead?
    requires s.head == s.calls[t].h && s.hasNext == s.calls[t].f
    ensures Inside(s, s.calls[t].b, Offset(s.head)) && s.calls[t].b == BlockOf(s.head)
    ensures Offset(s.head) < 31 && s.head < s.tail
    ensures Inv(ClaimHead(s, t))
  {
    InBlock(s, t);
    var s' := ClaimHead(s, t);
    assert CallOk(s.calls[t], t, EndsOf(s));
    NextIndex(s.head);
    Pointers(s);
    Last(s, BlockOf(s.head));
    BlocksAfterPop(s.blocks, s.tail, s.head, s.pushed);
    CallsOnward(s.calls, t, s'.calls[t], EndsOf(s), EndsOf(s'));
  }

  lemma PutBlockKeeps(s: Queue)
    requires Inv(s) && s.tailStage.PutBlock?
    ensures Inv(TailStep(s))
  {
    NextIndex(s.tail);
    var s' := TailStep(s);
    B.NewBlockKeeps();
    BlocksGrow(s.blocks, s.tail, s.head, s.pushed);
    CallsStay(s.calls, EndsOf(s), EndsOf(s'));
  }

  lemma BlocksGrow(bs: seq<B.Block>, tail: nat, head: nat, pushed: seq<Item>)
    requires AllBlocks(bs, tail, head, pushed) && head <= tail <= |bs| * 32
    ensures AllBlocks(bs + [B.NewBlock()], tail, head, pushed)
  {
    B.NewBlockKeeps();
    LinkedFresh(|bs|, tail, head, pushed);
    var bs' := bs + [B.NewBlock()];
    forall k: nat | k < |bs'| ensures B.Inv(bs'[k]) && Linked(bs'[k], k, tail, head, pushed) {
      if k < |bs| { assert B.Inv(bs[k]) && Linked(bs[k], k, tail, head, pushed); }
    }
  }

  lemma CallsStay(calls: map<Tid, Call>, e: Ends, e': Ends)
    requires AllCalls(calls, e) && Onward(e, e') && e.starter == e'.starter
    ensures AllCalls(calls, e')
  {
    BlocksAscend(e.tail, e'.tail);
    forall u | u in calls ensures CallOk(calls[u], u, e') { assert CallOk(calls[u], u, e); }
  }

  lemma TailKeeps(s: Queue)
    requires Inv(s)
    ensures Inv(TailStep(s))
  {
    if s.tailStage.PutBlock? { PutBlockKeeps(s); }
    else if s.tailStage.PutIndex? { PutIndexKeeps(s); }
  }

  lemma PutIndexKeeps(s: Queue)
    requires Inv(s) && s.tailStage.PutIndex?
    ensures Inv(TailStep(s))
  {
    NextIndex(s.tail);
    Last(s, BlockOf(s.tail));
    BlocksAfterInstall(s.blocks, s.tail, s.head, s.pushed);
    CallsStay(s.calls, EndsOf(s), EndsOf(TailStep(s)));
  }

  lemma AwaitNextKeeps(s: Queue)
    requires Inv(s) && s.headStage.AwaitNext?
    ensures Inv(HeadStep(s))
  {
    Pointers(s);
    Last(s, BlockOf(s.head));
  }

  lemma PeekNextKeeps(s: Queue)
    requires Inv(s) && s.headStage.PeekNext?
    ensures Inv(HeadStep(s))
  {
    PeekEnds(s);
    Last(s, BlockOf(s.head) + 1);
  }

  lemma PeekEnds(s: Queue)
    requires TailInv(s) && HeadInv(s) && s.headStage.PeekNext?
    ensures BlockOf(s.head) + 1 < |s.blocks|
  {
    Pointers(s);
    NextIndex(s.head);
    NextIndex(s.tail);
  }

  lemma HeadKeeps(s: Queue)
    requires Inv(s)
    ensures Inv(HeadStep(s))
  {
    if s.headStage.AwaitNext? { AwaitNextKeeps(s); }
    if s.headStage.PeekNext? { PeekNextKeeps(s); }
    if s.headStage.PutHeadIndex? { PutHeadIndexKeeps(s); }
  }

  lemma PutHeadIndexKeeps(s: Queue)
    requires Inv(s) && s.headStage.PutHeadIndex?
    ensures Inv(HeadStep(s))
  {
    Pointers(s);
    NextIndex(s.head);
    NextIndex(s.tail);
    var s', kh := HeadStep(s), BlockOf(s.head);
    Last(s, kh);
    BlocksAfterAdvance(s.blocks, s.tail, s.head, s.pushed);
    CallsStay(s.calls, EndsOf(s), EndsOf(s'));
  }

  /** A step inside one block that makes and undoes no claims concerns nobody else. */
  lemma InsideKeeps(s: Queue, k: nat, b: B.Block)
    requires Inv(s) && k < |s.blocks| && B.Inv(b) && |s.blocks[k].slots| == 31 && |b.slots| == 31
    requires B.SameClaims(s.blocks[k], b) && (b.next && !s.blocks[k].next ==> s.blocks[k].slots[30].writer.Link?)
    ensures Inv(s.(blocks := s.blocks[k := b]))
  {
    Last(s, k);
    assert Linked(s.blocks[k], k, s.tail, s.head, s.pushed);
    assert SlotOk(s.blocks[k].slots[30], k, 30, s.tail, s.head, s.pushed);
    LinkedInside(s.blocks[k], b, k, s.tail, s.head, s.pushed);
  }

  lemma WriterKeeps(s: Queue, k: nat, j: nat)
    requires Inv(s) && k < |s.blocks| && j < 31
    ensures Inv(WriterStep(s, k, j))
  {
    Last(s, k);
    B.WriterKeeps(s.blocks[k], j);
    B.WriterClaims(s.blocks[k], j);
    InsideKeeps(s, k, B.WriterStep(s.blocks[k], j));
  }

  lemma ReaderKeeps(s: Queue, k: nat, j: nat)
    requires Inv(s) && k < |s.blocks| && j < 31
    ensures Inv(ReaderStep(s, k, j))
  {
    Last(s, k);
    B.ReaderKeeps(s.blocks[k], j);
    B.ReaderClaims(s.blocks[k], j);
    InsideKeeps(s, k, B.ReaderStep(s.blocks[k], j));
  }

  /** Where a push goes after seeing the tail's block pointer. */
  lemma PushSeesOk(s: Queue, c: Call, t: Tid)
    requires TailInv(s) && HeadInv(s) && c.LoadBlock? && CallOk(c, t, EndsOf(s))
    ensures CallOk(PushSees(c, s.tail, s.tailBlock), t, EndsOf(s))
  {
    NextIndex(c.i);
    Pointers(s);
  }

  lemma PushLoadKeeps(s: Queue, t: Tid)
    requires Inv(s) && Active(s, t) && s.calls[t].LoadBlock?
    ensures Inv(PushStep(s, t, false)) && PushStep(s, t, true) == PushStep(s, t, false)
  {
    var c := s.calls[t];
    assert CallOk(c, t, EndsOf(s));
    PushSeesOk(s, c, t);
    GotoKeeps(s, t, PushSees(c, s.tail, s.tailBlock));
  }

  lemma PushKeeps(s: Queue, t: Tid, spurious: bool)
    requires Inv(s) && Active(s, t)
    ensures Inv(PushStep(s, t, spurious))
  {
    var c := s.calls[t];
    if c.LoadTail? { GotoKeeps(s, t, LoadBlock(c.v, c.spare, s.tail)); }
    else if c.LoadBlock? { PushLoadKeeps(s, t); }
    else if c.FirstBlock? {
      if s.tailBlock.None? { FirstBlockKeeps(s, t); } else { GotoKeeps(s, t, LoadTail(c.v, true)); }
    }
    else if c.StoreHeadBlock? { StoreHeadBlockKeeps(s, t); }
    else if c.MoveTail? {
      if s.tail == c.i && !spurious { ClaimTailKeeps(s, t); }
      else { GotoKeeps(s, t, LoadBlock(c.v, c.spare, s.tail)); }
    }
  }

  /** Where a pop goes after a load. */
  lemma PopSeesOk(s: Queue, c: Call, t: Tid)
    requires TailInv(s) && HeadInv(s) && PopLoads(c) && CallOk(c, t, EndsOf(s))
    ensures CallOk(PopSees(c, s.head, s.hasNext, s.headBlock, s.tail), t, EndsOf(s))
  {
    if c.LoadHeadBlock? {
      NextIndex(c.h);
      Pointers(s);
    } else if c.SeeTail? {
      NextIndex(s.tail);
      BlocksAscend(c.h, s.tail);
    }
  }

  lemma PopLoadKeeps(s: Queue, t: Tid)
    requires Inv(s) && Active(s, t) && PopLoads(s.calls[t])
    ensures Inv(Goto(s, t, PopSees(s.calls[t], s.head, s.hasNext, s.headBlock, s.tail)))
  {
    assert CallOk(s.calls[t], t, EndsOf(s));
    PopSeesOk(s, s.calls[t], t);
    GotoKeeps(s, t, PopSees(s.calls[t], s.head, s.hasNext, s.headBlock, s.tail));
  }

  lemma PopKeeps(s: Queue, t: Tid, spurious: bool)
    requires Inv(s) && Active(s, t)
    ensures Inv(PopStep(s, t, spurious))
  {
    var c := s.calls[t];
    if PopLoads(c) { PopLoadKeeps(s, t); }
    else if c.MoveHead? {
      if s.head == c.h && s.hasNext == c.f && !spurious { ClaimHeadKeeps(s, t); }
      else { GotoKeeps(s, t, LoadHeadBlock(s.head, s.hasNext)); }
    }
  }

  // ------------------------------------------------------------------ what the invariant promises

  /** "Empty" is reported exactly when the tail is still where the head was, and is true then. */
  lemma EmptyReport(s: Queue, t: Tid)
    requires Inv(s) && Active(s, t) && (s.calls[t].SeeTail? || s.calls[t].CheckTail?)
    ensures PopStep(s, t, false).calls[t] == Done(Empty) <==> s.calls[t].h == s.tail
    ensures s.calls[t].h == s.tail ==> s.head == s.tail && s.taken == |s.pushed|
  {
    EmptySeen(s.calls[t], s.head, s.hasNext, s.headBlock, s.tail);
    assert CallOk(s.calls[t], t, EndsOf(s));
    EmptyEnds(s, s.calls[t].h);
  }

  lemma EmptySeen(c: Call, head: nat, hasNext: bool, headBlock: Option<nat>, tail: nat)
    requires c.SeeTail? || c.CheckTail?
    ensures PopSees(c, head, hasNext, headBlock, tail) == Done(Empty) <==> c.h == tail
  {
  }

  lemma EmptyEnds(s: Queue, h: nat)
    requires HeadInv(s) && CountInv(s) && h <= s.head
    ensures h == s.tail ==> s.head == s.tail && s.taken == |s.pushed|
  {
  }

  /** HAS_NEXT spares a pop the look at the tail: with it set, the head's slot has an item. */
  lemma HasNextMeansItem(s: Queue)
    requires Inv(s) && s.hasNext && Offset(s.head) < 31
    ensures s.head < s.tail && s.taken < |s.pushed|
  {
    Parts(s.head);
    Parts(s.tail);
  }

  /** A finished pop returns the item whose turn its index was. */
  lemma PopAnswers(s: Queue, k: nat, j: nat)
    requires Inv(s) && k < |s.blocks| && j < 31 && |s.blocks[k].slots| == 31
    requires s.blocks[k].slots[j].reader.Finished?
    ensures k * 31 + j < s.taken <= |s.pushed| && s.blocks[k].slots[j].reader.v == s.pushed[k * 31 + j]
  {
    Last(s, k);
    B.PopTakesPush(s.blocks[k], j);
    assert Linked(s.blocks[k], k, s.tail, s.head, s.pushed);
    assert SlotOk(s.blocks[k].slots[j], k, j, s.tail, s.head, s.pushed);
    Parts(s.head);
    Parts(s.tail);
  }

  /** A block with a slot not yet popped has not been freed. */
  lemma Alive(s: Queue, k: nat, j: nat)
    requires Inv(s) && k < |s.blocks| && j < 31 && |s.blocks[k].slots| == 31
    requires !s.blocks[k].slots[j].reader.Finished?
    ensures !s.blocks[k].freed
  {
    Last(s, k);
    B.FreedIffAllFinished(s.blocks[k]);
  }

  /** Racing pushes and pops touch a block only on winning its index, and then it is alive. */
  lemma WinnersTouchLiveBlocks(s: Queue, t: Tid)
    requires Inv(s) && t in s.calls
    ensures s.calls[t].MoveTail? && s.calls[t].i == s.tail ==>
              s.calls[t].b < |s.blocks| && !s.blocks[s.calls[t].b].freed
    ensures s.calls[t].MoveHead? && s.calls[t].h == s.head ==>
              s.calls[t].b < |s.blocks| && !s.blocks[s.calls[t].b].freed
  {
    var c := s.calls[t];
    assert CallOk(c, t, EndsOf(s));
    if c.MoveTail? && c.i == s.tail { UnreadAlive(s, c.b, Offset(s.tail)); }
    if c.MoveHead? && c.h == s.head { UnreadAlive(s, c.b, Offset(s.head)); }
  }

  /** No pop has reached slot `j` of block `k` yet, so the block is alive. */
  lemma UnreadAlive(s: Queue, k: nat, j: nat)
    requires Inv(s) && k < |s.blocks| && j < 31
    ensures s.head <= k * 32 + j ==> !s.blocks[k].freed
    ensures 32 * BlockOf(s.tail) + Offset(s.tail) == s.tail && 32 * BlockOf(s.head) + Offset(s.head) == s.head
  {
    Parts(s.tail);
    Parts(s.head);
    Last(s, k);
    assert Linked(s.blocks[k], k, s.tail, s.head, s.pushed);
    assert SlotOk(s.blocks[k].slots[j], k, j, s.tail, s.head, s.pushed);
    if s.head <= k * 32 + j { Alive(s, k, j); }
  }

  /** The two end-of-block walks touch only blocks that are alive. */
  lemma WalksTouchLiveBlocks(s: Queue)
    requires Inv(s)
    ensures s.headStage.AwaitNext? ==> BlockOf(s.head) < |s.blocks| && !s.blocks[BlockOf(s.head)].freed
    ensures s.headStage.PeekNext? ==>
              BlockOf(s.head) + 1 < |s.blocks| && !s.blocks[BlockOf(s.head) + 1].freed
  {
    Pointers(s);
    NextIndex(s.head);
    NextIndex(s.tail);
    if s.headStage.AwaitNext? {
      Last(s, BlockOf(s.head));
      Alive(s, BlockOf(s.head), 30);
    }
    if s.headStage.PeekNext? { UnreadAlive(s, BlockOf(s.head) + 1, 0); }
  }

  /** A push or pop that still has work to do in a block finds it alive. */
  lemma WorkersTouchLiveBlocks(s: Queue, k: nat, j: nat)
    requires Inv(s) && k < |s.blocks| && j < 31
    ensures s.blocks[k].freed ==> WriterStep(s, k, j) == s && ReaderStep(s, k, j) == s
  {
    Last(s, k);
    if s.blocks[k].freed { B.FreedIsUntouched(s.blocks[k], j); }
  }

  /** The pop of a block's last slot waits for nothing but the push of that slot to link the next. */
  lemma AdvanceWaits(s: Queue)
    requires Inv(s) && s.headStage.AwaitNext? && HeadStep(s) == s
    ensures var k := BlockOf(s.head);
            && k < |s.blocks| && |s.blocks[k].slots| == 31
            && (s.blocks[k].slots[30].writer.Install? || s.blocks[k].slots[30].writer.Link?)
  {
    Pointers(s);
    NextIndex(s.head);
    var k := BlockOf(s.head);
    Last(s, k);
    assert Linked(s.blocks[k], k, s.tail, s.head, s.pushed);
    assert SlotOk(s.blocks[k].slots[30], k, 30, s.tail, s.head, s.pushed);
  }

  // ------------------------------------------------------------------------------------ refinement

  ghost function Abs(s: Queue): Fifo {
    Fifo(None, s.pushed, s.taken)
  }

  datatype Move =
    | BeginPush(t: Tid, v: Item)
    | BeginPop(t: Tid, final: bool)
    | Push(t: Tid, spurious: bool)
    | Pop(t: Tid, spurious: bool)
    | InstallNext
    | AdvanceHead
    | Write(k: nat, j: nat)
    | Read(k: nat, j: nat)

  predicate Enabled(s: Queue, m: Move) {
    match m
    case BeginPush(t, _) => !Active(s, t)
    case BeginPop(t, _) => !Active(s, t)
    case Push(t, _) => Active(s, t)
    case Pop(t, _) => Active(s, t)
    case Write(k, j) => k < |s.blocks| && j < 31
    case Read(k, j) => k < |s.blocks| && j < 31
    case _ => true
  }

  function Apply(s: Queue, m: Move): Queue
    requires Inv(s) && Enabled(s, m)
  {
    match m
    case BeginPush(t, v) => Goto(s, t, LoadTail(v, false))
    case BeginPop(t, final) => Goto(s, t, LoadHead(final))
    case Push(t, spurious) => PushStep(s, t, spurious)
    case Pop(t, spurious) => PopStep(s, t, spurious)
    case InstallNext => TailStep(s)
    case AdvanceHead => HeadStep(s)
    case Write(k, j) => WriterStep(s, k, j)
    case Read(k, j) => ReaderStep(s, k, j)
  }

  lemma ApplyKeeps(s: Queue, m: Move)
    requires Inv(s) && Enabled(s, m)
    ensures Inv(Apply(s, m))
  {
    match m
    case BeginPush(t, v) => GotoKeeps(s, t, LoadTail(v, false));
    case BeginPop(t, final) => GotoKeeps(s, t, LoadHead(final));
    case Push(t, spurious) => PushKeeps(s, t, spurious);
    case Pop(t, spurious) => PopKeeps(s, t, spurious);
    case InstallNext => TailKeeps(s);
    case AdvanceHead => HeadKeeps(s);
    case Write(k, j) => WriterKeeps(s, k, j);
    case Read(k, j) => ReaderKeeps(s, k, j);
  }

  /** Winning an index is the push, or the pop. */
  ghost function EventOf(s: Queue, m: Move): Event
    requires Inv(s) && Enabled(s, m)
  {
    if m.Push? && s.calls[m.t].MoveTail? && s.tail == s.calls[m.t].i && !m.spurious
    then Pushed(s.calls[m.t].v)
    else if m.Pop? && s.calls[m.t].MoveHead? && s.head == s.calls[m.t].h && s.hasNext == s.calls[m.t].f
         && !m.spurious && s.taken < |s.pushed|
    then Popped(s.pushed[s.taken])
    else Silent
  }

  lemma AbsValid(s: Queue)
    requires Inv(s)
    ensures Abs(s).Valid()
  {
    Parts(s.head);
    Parts(s.tail);
    BlocksAscend(s.head, s.tail);
  }

  lemma PushRefines(s: Queue, t: Tid, spurious: bool)
    requires Inv(s) && Active(s, t)
    ensures Allowed(Abs(s), EventOf(s, Push(t, spurious)), Abs(PushStep(s, t, spurious)))
  {
    AbsValid(s);
  }

  /** Winning the head takes the oldest item. */
  lemma WinRefines(s: Queue, t: Tid)
    requires Inv(s) && t in s.calls && s.calls[t].MoveHead?
    requires s.head == s.calls[t].h && s.hasNext == s.calls[t].f
    ensures s.taken < |s.pushed|
  {
    ClaimHeadKeeps(s, t);
    NextIndex(s.head);
    AbsValid(ClaimHead(s, t));
  }

  lemma PopRefines(s: Queue, t: Tid, spurious: bool)
    requires Inv(s) && Active(s, t)
    ensures Allowed(Abs(s), EventOf(s, Pop(t, spurious)), Abs(PopStep(s, t, spurious)))
  {
    AbsValid(s);
    var c := s.calls[t];
    if c.MoveHead? && s.head == c.h && s.hasNext == c.f { WinRefines(s, t); }
  }

  lemma ApplyRefines(s: Queue, m: Move)
    requires Inv(s) && Enabled(s, m)
    ensures Allowed(Abs(s), EventOf(s, m), Abs(Apply(s, m)))
  {
    match m
    case Push(t, spurious) => PushRefines(s, t, spurious);
    case Pop(t, spurious) => PopRefines(s, t, spurious);
    case _ => AbsValid(s);
  }

  lemma NewKeeps()
    ensures Inv(New())
  {
  }

  // ------------------------------------------------------------------------ the queue, in place

  /** The queue as it sits in memory; each method is one access. */
  class Memory {
    var tail: nat
    var tailBlock: Option<nat>
    var tailStage: TailStage
    var head: nat
    var hasNext: bool
    var headBlock: Option<nat>
    var headStage: HeadStage
    var blocks: seq<B.Block>
    var calls: map<Tid, Call>
    ghost var starter: Option<Tid>
    var pushed: seq<Item>
    var taken: nat

    ghost function View(): Queue
      reads this
    {
      Queue(tail, tailBlock, tailStage, head, hasNext, headBlock, headStage, blocks, calls, starter, pushed, taken)
    }

    constructor ()
      ensures View() == New()
    {
      tail, tailBlock, tailStage := 0, None, TailFree;
      head, hasNext, headBlock, headStage := 0, false, None, HeadFree;
      blocks, calls, starter, pushed, taken := [], map[], None, [], 0;
    }

    method Begin(t: Tid, c: Call)
      requires Inv(View()) && !Active(View(), t) && ((c.LoadTail? && !c.spare) || c.LoadHead?)
      modifies this`calls
      ensures View() == Goto(old(View()), t, c) && Inv(View())
    {
      GotoKeeps(View(), t, c);
      calls := calls[t := c];
    }

    /** The loads of a racing push. */
    method PushLoad(t: Tid)
      requires Inv(View()) && Active(View(), t) && (calls[t].LoadTail? || calls[t].LoadBlock?)
      modifies this`calls
      ensures View() == PushStep(old(View()), t, false) && Inv(View())
    {
      PushKeeps(View(), t, false);
      SeeTailWords(t);
    }

    method SeeTailWords(t: Tid)
      requires t in calls && (calls[t].LoadTail? || calls[t].LoadBlock?)
      modifies this`calls
      ensures calls == old(calls)[t := PushSees(old(calls)[t], tail, tailBlock)]
    {
      var c := calls[t];
      if c.LoadTail? { c := LoadBlock(c.v, c.spare, tail); }
      else {
        var offset := Offset(c.i);
        var spare := c.spare || offset == 30;
        if offset == 31 { c := LoadTail(c.v, c.spare); }
        else if tailBlock.None? { c := FirstBlock(c.v, spare, c.i); }
        else { c := MoveTail(c.v, spare, c.i, tailBlock.value); }
      }
      calls := calls[t := c];
    }

    /** The first push allocates the first block ... */
    method PutFirstBlock(t: Tid)
      requires Inv(View()) && Active(View(), t) && calls[t].FirstBlock?
      modifies this`tailBlock, this`blocks, this`starter, this`calls
      ensures View() == PushStep(old(View()), t, false) && Inv(View())
    {
      PushKeeps(View(), t, false);
      if tailBlock.None? { Open(t); }
      else { calls := calls[t := LoadTail(calls[t].v, true)]; }
    }

    method Open(t: Tid)
      requires t in calls && calls[t].FirstBlock?
      modifies this`tailBlock, this`blocks, this`starter, this`calls
      ensures View() == OpenList(old(View()), t)
    {
      tailBlock, blocks, starter := Some(0), [B.NewBlock()], Some(t);
      calls := calls[t := StoreHeadBlock(calls[t].v, calls[t].spare, calls[t].i)];
    }

    /** ... and hands it to the consumers. */
    method ShowFirstBlock(t: Tid)
      requires Inv(View()) && Active(View(), t) && calls[t].StoreHeadBlock?
      modifies this`headBlock, this`starter, this`calls
      ensures View() == PushStep(old(View()), t, false) && Inv(View())
    {
      PushKeeps(View(), t, false);
      var c := calls[t];
      headBlock, starter := Some(0), None;
      calls := calls[t := MoveTail(c.v, c.spare, c.i, 0)];
    }

    method ExchangeTail(t: Tid, spurious: bool)
      requires Inv(View()) && Active(View(), t) && calls[t].MoveTail?
      modifies this`tail, this`tailStage, this`blocks, this`pushed, this`calls
      ensures View() == PushStep(old(View()), t, spurious) && Inv(View())
    {
      PushKeeps(View(), t, spurious);
      InBlock(View(), t);
      var c := calls[t];
      if tail == c.i && !spurious { WinTail(t); }
      else { calls := calls[t := LoadBlock(c.v, c.spare, tail)]; }
    }

    method WinTail(t: Tid)
      requires t in calls && calls[t].MoveTail? && Inside(View(), calls[t].b, Offset(calls[t].i))
      modifies this`tail, this`tailStage, this`blocks, this`pushed, this`calls
      ensures View() == ClaimTail(old(View()), t)
    {
      var c := calls[t];
      if Offset(c.i) == 30 { tailStage := PutBlock; }
      blocks := blocks[c.b := B.ClaimWrite(blocks[c.b], Offset(c.i), c.v)];
      tail, pushed := c.i + 1, pushed + [c.v];
      calls := calls[t := Done(Pushing(c.i))];
    }

    /** The push of a block's last slot stores the next block, then the next index. */
    method InstallNextBlock()
      requires Inv(View()) && !tailStage.TailFree?
      modifies this`tail, this`tailBlock, this`tailStage, this`blocks
      ensures View() == TailStep(old(View())) && Inv(View())
    {
      TailKeeps(View());
      var k := BlockOf(tail);
      if tailStage.PutBlock? {
        tailBlock, blocks, tailStage := Some(k + 1), blocks + [B.NewBlock()], PutIndex;
      } else {
        NextIndex(tail);
        Last(View(), k);
        blocks := blocks[k := B.Installed(blocks[k])];
        tail, tailStage := tail + 1, TailFree;
      }
    }

    /** The loads of a racing pop. */
    method PopLoad(t: Tid)
      requires Inv(View()) && Active(View(), t) && PopLoads(calls[t])
      modifies this`calls
      ensures View() == PopStep(old(View()), t, false) && Inv(View())
    {
      PopKeeps(View(), t, false);
      SeeHeadWords(t);
    }

    method SeeHeadWords(t: Tid)
      requires t in calls && PopLoads(calls[t])
      modifies this`calls
      ensures calls == old(calls)[t := PopSees(old(calls)[t], head, hasNext, headBlock, tail)]
    {
      var c := calls[t];
      match c {
      case LoadHead(final) => c := if final then CheckTail(head, hasNext) else LoadHeadBlock(head, hasNext);
      case CheckTail(h, f) => c := if h == tail then Done(Empty) else LoadHeadBlock(h, f);
      case LoadHeadBlock(h, f) =>
        if Offset(h) == 31 { c := LoadHead(false); }
        else if !f { c := SeeTail(h, headBlock); }
        else { c := if headBlock.None? then LoadHead(false) else MoveHead(h, true, true, headBlock.value); }
      case SeeTail(h, ob) =>
        if h == tail { c := Done(Empty); }
        else { c := if ob.None? then LoadHead(false) else MoveHead(h, false, BlockOf(h) != BlockOf(tail), ob.value); }
      }
      calls := calls[t := c];
    }

    method ExchangeHead(t: Tid, spurious: bool)
      requires Inv(View()) && Active(View(), t) && calls[t].MoveHead?
      modifies this`head, this`hasNext, this`headStage, this`blocks, this`taken, this`calls
      ensures View() == PopStep(old(View()), t, spurious) && Inv(View())
    {
      PopKeeps(View(), t, spurious);
      InBlock(View(), t);
      var c := calls[t];
      if head == c.h && hasNext == c.f && !spurious { WinHead(t); }
      else { calls := calls[t := LoadHeadBlock(head, hasNext)]; }
    }

    method WinHead(t: Tid)
      requires t in calls && calls[t].MoveHead? && Inside(View(), calls[t].b, Offset(calls[t].h))
      modifies this`head, this`hasNext, this`headStage, this`blocks, this`taken, this`calls
      ensures View() == ClaimHead(old(View()), t)
    {
      var c := calls[t];
      if Offset(c.h) == 30 { headStage := AwaitNext; }
      blocks := blocks[c.b := B.ClaimRead(blocks[c.b], Offset(c.h))];
      head, hasNext, taken := c.h + 1, c.f', taken + 1;
      calls := calls[t := Done(Popping(c.h))];
    }

    /** The pop of a block's last slot looks for the next block ... */
    method AwaitNextBlock()
      requires Inv(View()) && (headStage.AwaitNext? || headStage.PeekNext?)
      modifies this`headStage
      ensures View() == HeadStep(old(View())) && Inv(View())
    {
      HeadKeeps(View());
      Pointers(View());
      NextIndex(head);
      NextIndex(tail);
      var k := BlockOf(head);
      if headStage.PeekNext? { headStage := PutHead(blocks[k + 1].next); }
      else if blocks[k].next { headStage := PeekNext; }
    }

    /** ... and moves the head there. */
    method MoveToNextBlock()
      requires Inv(View()) && (headStage.PutHead? || headStage.PutHeadIndex?)
      modifies this`head, this`hasNext, this`headBlock, this`headStage, this`blocks
      ensures View() == HeadStep(old(View())) && Inv(View())
    {
      HeadKeeps(View());
      Pointers(View());
      if headStage.PutHeadIndex? { Last(View(), BlockOf(head)); }
      StoreHead();
    }

    method StoreHead()
      requires headStage.PutHead? || (headStage.PutHeadIndex? && Inside(View(), BlockOf(head), 30))
      requires headStage.PutHeadIndex? ==> |blocks[BlockOf(head)].slots| == 31
      modifies this`head, this`hasNext, this`headBlock, this`headStage, this`blocks
      ensures old(headStage).PutHead? ==>
                View() == old(View()).(headBlock := Some(BlockOf(head) + 1), headStage := PutHeadIndex(old(headStage).flag))
      ensures old(headStage).PutHeadIndex? ==>
                View() == old(View()).(
                  head := old(head) + 1, hasNext := old(headStage).flag, headStage := HeadFree,
                  blocks := old(blocks)[BlockOf(old(head)) := B.Advanced(old(blocks)[BlockOf(old(head))])])
    {
      var k, flag := BlockOf(head), headStage.flag;
      if headStage.PutHead? { headBlock, headStage := Some(k + 1), PutHeadIndex(flag); }
      else {
        blocks := blocks[k := B.Advanced(blocks[k])];
        head, hasNext, headStage := head + 1, flag, HeadFree;
      }
    }

    method WriteSlot(k: nat, j: nat)
      requires Inv(View()) && k < |blocks| && j < 31
      modifies this`blocks
      ensures View() == WriterStep(old(View()), k, j) && Inv(View())
    {
      WriterKeeps(View(), k, j);
      Last(View(), k);
      blocks := blocks[k := B.WriterStep(blocks[k], j)];
    }

    method ReadSlot(k: nat, j: nat)
      requires Inv(View()) && k < |blocks| && j < 31
      modifies this`blocks
      ensures View() == ReaderStep(old(View()), k, j) && Inv(View())
    {
      ReaderKeeps(View(), k, j);
      Last(View(), k);
      blocks := blocks[k := B.ReaderStep(blocks[k], j)];
    }
  }
}
