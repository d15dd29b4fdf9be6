/** The walk of `SegQueue`'s `Drop`. */
module SegDrop {
  import opened Base
  import B = SegBlock
  import opened SegQueue
  import opened SegAlone

  /** In a quiet queue the blocks already freed are the ones before the head's. */
  lemma QuietFreed(s: Queue, k: nat)
    requires Inv(s) && Quiet(s) && k < |s.blocks|
    ensures s.blocks[k].freed <==> k < BlockOf(s.head)
  {
    Last(s, k);
    Pointers(s);
    Parts(s.head);
    B.FreedIffAllFinished(s.blocks[k]);
    QuietSlot(s, k, 30);
    if k < BlockOf(s.head) {
      forall j: nat | j < 31 ensures s.blocks[k].slots[j].reader.Finished? { QuietSlot(s, k, j); }
    }
  }

  /** The block a block links to; blocks are named by their place in the list. */
  function NextOf(blocks: seq<B.Block>, k: nat): Option<nat>
    requires k < |blocks|
  {
    if blocks[k].next then Some(k + 1) else None
  }

  /** What the walk needs of the block and slot it looks at for index `i`. */
  ghost predicate StepAt(blocks: seq<B.Block>, pushed: seq<Item>, i: nat) {
    && BlockOf(i) < |blocks| && |blocks[BlockOf(i)].slots| == 31
    && (if Offset(i) < 31
        then Rank(i) < |pushed| && blocks[BlockOf(i)].slots[Offset(i)].value == Some(pushed[Rank(i)])
        else blocks[BlockOf(i)].next)
  }

  lemma QuietStep(s: Queue, i: nat)
    requires Inv(s) && Quiet(s) && s.head <= i < s.tail
    ensures s.headBlock == Some(BlockOf(s.head)) && StepAt(s.blocks, s.pushed, i)
  {
    Parts(i);
    Pointers(s);
    Parts(s.tail);
    BlocksAscend(i, s.tail);
    QuietSlot(s, BlockOf(i), if Offset(i) < 31 then Offset(i) else 30);
  }

  /**
   `Drop`: the walk ends; it drops every item still queued once, oldest first, and frees every block
   not freed before once, in list order.
   */
  method DropWalk(s: Queue) returns (dropped: seq<Item>, freed: seq<nat>)
    requires Inv(s) && Quiet(s)
    ensures s.taken <= |s.pushed| && dropped == s.pushed[s.taken..]
    ensures forall k {:trigger freed[k]} :: 0 <= k < |freed| ==> freed[k] == BlockOf(s.head) + k
    ensures forall k: nat :: k < |s.blocks| ==> (k in freed <==> !s.blocks[k].freed)
  {
    AbsValid(s);
    forall i | s.head <= i < s.tail ensures StepAt(s.blocks, s.pushed, i) { QuietStep(s, i); }
    EndBlock(s);
    dropped, freed := Walk(s.blocks, s.headBlock, s.head, s.tail, s.pushed);
    forall k: nat | k < |s.blocks| ensures k in freed <==> !s.blocks[k].freed {
      QuietFreed(s, k);
      if k >= BlockOf(s.head) { assert freed[k - BlockOf(s.head)] == k; }
    }
  }

  method Walk(blocks: seq<B.Block>, headBlock: Option<nat>, from: nat, tail: nat, ghost pushed: seq<Item>)
    returns (dropped: seq<Item>, freed: seq<nat>)
    requires from <= tail && (from < tail ==> headBlock.Some?)
    requires headBlock.Some? ==> headBlock.value == BlockOf(from)
    requires forall i: nat {:trigger StepAt(blocks, pushed, i)} :: from <= i < tail ==> StepAt(blocks, pushed, i)
    requires Rank(tail) <= |pushed|
    ensures Rank(from) <= Rank(tail) && dropped == pushed[Rank(from)..Rank(tail)]
    ensures |freed| == if headBlock.None? then 0 else BlockOf(tail) + 1 - BlockOf(from)
    ensures forall k {:trigger freed[k]} :: 0 <= k < |freed| ==> freed[k] == BlockOf(from) + k
  {
    var head, block := from, headBlock;
    dropped, freed := [], [];
    assert Rank(from) <= Rank(tail) by {
      Parts(from);
      Parts(tail);
    }
    while head != tail
      invariant from <= head <= tail
      invariant Rank(from) <= Rank(head) <= |pushed| && dropped == pushed[Rank(from)..Rank(head)]
      invariant block == if headBlock.Some? then Some(BlockOf(head)) else None
      invariant |freed| == BlockOf(head) - BlockOf(from)
      invariant forall k {:trigger freed[k]} :: 0 <= k < |freed| ==> freed[k] == BlockOf(from) + k
      decreases tail - head
    {
      NextIndex(head);
      assert StepAt(blocks, pushed, head);
      var offset := Offset(head);
      if offset < 31 {
        assert pushed[Rank(from)..Rank(head) + 1] == pushed[Rank(from)..Rank(head)] + [pushed[Rank(head)]];
        dropped := dropped + [blocks[block.value].slots[offset].value.value];
      } else {
        freed := freed + [block.value];
        block := NextOf(blocks, block.value);
      }
      head := head + 1;
    }
    if block.Some? { freed := freed + [block.value]; }
  }

  lemma EndBlock(s: Queue)
    requires Inv(s) && Quiet(s)
    ensures s.headBlock.None? ==> s.head == s.tail && s.blocks == []
    ensures s.headBlock.Some? ==> s.headBlock.value == BlockOf(s.head) && |s.blocks| == BlockOf(s.tail) + 1
  {
    Pointers(s);
    NextIndex(s.tail);
    NextIndex(s.head);
  }
}
