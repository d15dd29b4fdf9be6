/**
 A push or a pop of `SegQueue` that runs while nobody else is inside a call. What it does after
 winning its index is played out by the moves of its own slot, so the next move of a lone call is
 determined: its race, then the walk to the next block if it has the last slot, then its slot.
 */
module SegAlone {
  import opened Base
  import opened AbstractFifo
  import B = SegBlock
  import opened SegQueue

  /** Nobody is inside a call: every claimed slot has been written, every pop has finished. */
  ghost predicate Quiet(s: Queue) {
    && s.tailStage.TailFree? && s.headStage.HeadFree? && s.starter.None?
    && (forall k: nat, j: nat :: k < |s.blocks| && j < |s.blocks[k].slots| ==> SlotQuiet(s.blocks[k].slots[j]))
  }

  ghost predicate SlotQuiet(x: B.Slot) {
    && (x.writer.NoWriter? || x.writer.Wrote?)
    && (x.reader.NoReader? || x.reader.Finished?)
  }

  /** What the walk finds at slot `j` of block `k`. */
  lemma QuietSlot(s: Queue, k: nat, j: nat)
    requires Inv(s) && Quiet(s) && k < |s.blocks| && j < 31
    ensures |s.blocks[k].slots| == 31
    ensures k * 32 + j < s.tail ==>
              k * 31 + j < |s.pushed| && s.blocks[k].slots[j].value == Some(s.pushed[k * 31 + j])
    ensures k * 32 + 30 < s.tail ==> s.blocks[k].next
    ensures s.blocks[k].slots[j].reader.Finished? <==> k * 32 + j < s.head
  {
    Last(s, k);
    var b := s.blocks[k];
    assert Linked(b, k, s.tail, s.head, s.pushed);
    assert SlotOk(b.slots[j], k, j, s.tail, s.head, s.pushed);
    assert SlotOk(b.slots[30], k, 30, s.tail, s.head, s.pushed);
    assert SlotQuiet(b.slots[j]) && SlotQuiet(b.slots[30]);
    assert B.SlotInv(b.slots[j], j == 30);
  }

  /** The push, or the pop, by `t` that wins slot `j` of block `k`. */
  datatype Lone = LonePush(t: Tid, k: nat, j: nat) | LonePop(t: Tid, k: nat, j: nat)

  predicate Working(s: Queue, l: Lone) {
    && l.k < |s.blocks| && l.j < 31 && l.j < |s.blocks[l.k].slots|
    && var x := s.blocks[l.k].slots[l.j];
       if l.LonePush? then x.writer.Link? || x.writer.Store? || x.writer.MarkWrite?
       else !x.reader.NoReader? && !x.reader.Finished?
  }

  /** The next move of the call; none when it has returned. */
  function NextMove(s: Queue, l: Lone): Option<Move> {
    match l
    case LonePush(t, k, j) =>
      if Active(s, t) then Some(Push(t, false))
      else if !s.tailStage.TailFree? then Some(InstallNext)
      else if Working(s, l) then Some(Write(k, j))
      else None
    case LonePop(t, k, j) =>
      if Active(s, t) then Some(Pop(t, false))
      else if !s.headStage.HeadFree? then Some(AdvanceHead)
      else if Working(s, l) then Some(Read(k, j))
      else None
  }

  ghost predicate To(s: Queue, s': Queue, l: Lone) {
    && Inv(s) && NextMove(s, l).Some? && Enabled(s, NextMove(s, l).value)
    && s' == Apply(s, NextMove(s, l).value)
  }

  ghost predicate ToAt(ss: seq<Queue>, i: nat, l: Lone)
    requires i + 1 < |ss|
  {
    To(ss[i], ss[i + 1], l)
  }

  /** The call, with nobody else moving, leads from `s` to `s'` in at most `n` moves. */
  ghost predicate Leads(ss: seq<Queue>, l: Lone, s: Queue, s': Queue, n: nat) {
    && 0 < |ss| <= n + 1 && ss[0] == s && ss[|ss| - 1] == s'
    && forall i: nat {:trigger ToAt(ss, i, l)} :: i + 1 < |ss| ==> ToAt(ss, i, l)
  }

  lemma Stay(s: Queue, l: Lone) returns (ss: seq<Queue>)
    ensures Leads(ss, l, s, s, 0)
  {
    ss := [s];
  }

  lemma Once(s: Queue, s': Queue, l: Lone) returns (ss: seq<Queue>)
    requires To(s, s', l)
    ensures Inv(s') && Leads(ss, l, s, s', 1)
  {
    ss := [s, s'];
    ApplyKeeps(s, NextMove(s, l).value);
    assert ToAt(ss, 0, l);
  }

  lemma Join(a: seq<Queue>, b: seq<Queue>, l: Lone, s: Queue, s1: Queue, s2: Queue, n: nat, m: nat)
    returns (c: seq<Queue>)
    requires Leads(a, l, s, s1, n) && Leads(b, l, s1, s2, m)
    ensures Leads(c, l, s, s2, n + m)
  {
    c := a + b[1..];
    forall i: nat | i + 1 < |c| ensures ToAt(c, i, l) {
      if i + 1 < |a| {
        assert ToAt(a, i, l);
        SameTo(a, i, c, i, l);
      } else {
        assert ToAt(b, i + 1 - |a|, l);
        SameTo(b, i + 1 - |a|, c, i, l);
      }
    }
  }

  lemma SameTo(a: seq<Queue>, i: nat, c: seq<Queue>, j: nat, l: Lone)
    requires i + 1 < |a| && j + 1 < |c| && c[j] == a[i] && c[j + 1] == a[i + 1] && ToAt(a, i, l)
    ensures ToAt(c, j, l)
  {
  }

  lemma GotoTwice(s: Queue, t: Tid, c: Call, c': Call)
    ensures Goto(Goto(s, t, c), t, c') == Goto(s, t, c')
  {
  }

  // ------------------------------------------------------------------------------------ a lone push

  /** A load of a lone push. */
  lemma PushLoads(s: Queue, c: Call, l: Lone)
    requires l.LonePush? && Inv(Goto(s, l.t, c)) && (c.LoadTail? || c.LoadBlock?)
    ensures To(Goto(s, l.t, c), Goto(s, l.t, PushSees(c, s.tail, s.tailBlock)), l)
  {
    PushLoadTo(Goto(s, l.t, c), l);
    GotoTwice(s, l.t, c, PushSees(c, s.tail, s.tailBlock));
  }

  lemma PushLoadTo(s: Queue, l: Lone)
    requires Inv(s) && l.LonePush? && Active(s, l.t) && (s.calls[l.t].LoadTail? || s.calls[l.t].LoadBlock?)
    ensures To(s, Goto(s, l.t, PushSees(s.calls[l.t], s.tail, s.tailBlock)), l)
  {
  }

  /** What the two loads of a lone push lead to. */
  lemma PushLoadsTwice(s: Queue, v: Item, l: Lone) returns (c: Call, ss: seq<Queue>)
    requires Inv(s) && l.LonePush? && !Active(s, l.t)
    ensures c == PushSees(LoadBlock(v, false, s.tail), s.tail, s.tailBlock) && Inv(Goto(s, l.t, c))
    ensures Leads(ss, l, Goto(s, l.t, LoadTail(v, false)), Goto(s, l.t, c), 2)
  {
    var c0, c1 := LoadTail(v, false), LoadBlock(v, false, s.tail);
    c := PushSees(c1, s.tail, s.tailBlock);
    GotoKeeps(s, l.t, c0);
    PushLoads(s, c0, l);
    var a := Once(Goto(s, l.t, c0), Goto(s, l.t, c1), l);
    PushLoads(s, c1, l);
    var b := Once(Goto(s, l.t, c1), Goto(s, l.t, c), l);
    ss := Join(a, b, l, Goto(s, l.t, c0), Goto(s, l.t, c1), Goto(s, l.t, c), 1, 1);
  }

  /** The first push opens the list. */
  lemma Opens(s: Queue, v: Item, l: Lone) returns (s': Queue, ss: seq<Queue>)
    requires Inv(s) && l.LonePush? && Active(s, l.t) && s.tailBlock.None? && s.calls[l.t] == FirstBlock(v, false, 0)
    ensures Inv(s') && Active(s', l.t) && s'.calls[l.t] == MoveTail(v, false, 0, 0)
    ensures s'.tail == s.tail && s'.tailStage == s.tailStage && Abs(s') == Abs(s)
    ensures Leads(ss, l, s, s', 2)
  {
    var s1 := OpenList(s, l.t);
    var a := Once(s, s1, l);
    s' := PushStep(s1, l.t, false);
    var b := Once(s1, s', l);
    ss := Join(a, b, l, s, s1, s', 1, 1);
  }

  /** The push of `v` has won index `i`, that of its slot. */
  ghost predicate Won(s: Queue, l: Lone, v: Item) {
    && Inv(s) && !Active(s, l.t) && l.k < |s.blocks| && l.j < 31 == |s.blocks[l.k].slots|
    && (if l.j == 30 then s.tailStage.PutBlock? && BlockOf(s.tail) == l.k && s.blocks[l.k].slots[30].writer == B.Install(v)
        else s.tailStage.TailFree? && s.blocks[l.k].slots[l.j].writer == B.Store(v))
  }

  lemma WinTail(s: Queue, v: Item, l: Lone) returns (s': Queue, ss: seq<Queue>)
    requires Inv(s) && l == LonePush(l.t, BlockOf(s.tail), Offset(s.tail)) && s.tailStage.TailFree?
    requires Active(s, l.t) && s.calls[l.t].MoveTail? && s.calls[l.t].i == s.tail && s.calls[l.t].v == v
    ensures Won(s', l, v) && Abs(s') == Abs(s).(pushed := s.pushed + [v]) && Leads(ss, l, s, s', 1)
  {
    ClaimTailKeeps(s, l.t);
    Last(s, l.k);
    NextIndex(s.tail);
    s' := ClaimTail(s, l.t);
    ss := Once(s, s', l);
  }

  /** What two loads lead to: the exchange of the tail, or that of the missing first block. */
  lemma PushSeen(v: Item, i: nat, tailBlock: Option<nat>)
    requires Offset(i) < 31
    ensures var c := PushSees(LoadBlock(v, false, i), i, tailBlock);
            if tailBlock.None? then c == FirstBlock(v, Offset(i) == 30, i)
            else c == MoveTail(v, Offset(i) == 30, i, tailBlock.value)
  {
  }

  lemma Race(s: Queue, v: Item, l: Lone) returns (s': Queue, ss: seq<Queue>)
    requires Inv(s) && Quiet(s) && l == LonePush(l.t, BlockOf(s.tail), Offset(s.tail)) && !Active(s, l.t)
    ensures Won(s', l, v) && Abs(s') == Abs(s).(pushed := s.pushed + [v])
    ensures Leads(ss, l, Goto(s, l.t, LoadTail(v, false)), s', 5)
  {
    if s.tailBlock.Some? { s', ss := RaceInList(s, v, l); } else { s', ss := RaceOpens(s, v, l); }
  }

  /** The race on a queue that has a block ... */
  lemma RaceInList(s: Queue, v: Item, l: Lone) returns (s': Queue, ss: seq<Queue>)
    requires Inv(s) && s.tailStage.TailFree? && l == LonePush(l.t, BlockOf(s.tail), Offset(s.tail)) && !Active(s, l.t)
    requires s.tailBlock.Some?
    ensures Won(s', l, v) && Abs(s') == Abs(s).(pushed := s.pushed + [v])
    ensures Leads(ss, l, Goto(s, l.t, LoadTail(v, false)), s', 3)
  {
    PushSeen(v, s.tail, s.tailBlock);
    var c, a := PushLoadsTwice(s, v, l);
    var b;
    s', b := WinTail(Goto(s, l.t, c), v, l);
    ss := Join(a, b, l, Goto(s, l.t, LoadTail(v, false)), Goto(s, l.t, c), s', 2, 1);
  }

  /** ... and that of the first push. */
  lemma RaceOpens(s: Queue, v: Item, l: Lone) returns (s': Queue, ss: seq<Queue>)
    requires Inv(s) && s.tailStage.TailFree? && l == LonePush(l.t, BlockOf(s.tail), Offset(s.tail)) && !Active(s, l.t)
    requires s.tailBlock.None?
    ensures Won(s', l, v) && Abs(s') == Abs(s).(pushed := s.pushed + [v])
    ensures Leads(ss, l, Goto(s, l.t, LoadTail(v, false)), s', 5)
  {
    NextIndex(s.tail);
    PushSeen(v, s.tail, s.tailBlock);
    var c, a := PushLoadsTwice(s, v, l);
    var s2, b := Opens(Goto(s, l.t, c), v, l);
    var d := Join(a, b, l, Goto(s, l.t, LoadTail(v, false)), Goto(s, l.t, c), s2, 2, 2);
    s', b := WinTail(s2, v, l);
    ss := Join(d, b, l, Goto(s, l.t, LoadTail(v, false)), s2, s', 4, 1);
  }

  /** The walk of the push of a last slot: the next block, then the next index. */
  lemma Install(s: Queue, v: Item, l: Lone) returns (s': Queue, ss: seq<Queue>)
    requires l.LonePush? && l.j == 30 && Won(s, l, v)
    ensures Inv(s') && !Active(s', l.t) && s'.tailStage.TailFree? && Abs(s') == Abs(s) && Leads(ss, l, s, s', 2)
    ensures l.k < |s'.blocks| && |s'.blocks[l.k].slots| == 31 && s'.blocks[l.k].slots[30].writer == B.Link(v)
  {
    var s1 := TailStep(s);
    var a := Once(s, s1, l);
    s' := TailStep(s1);
    var b := Once(s1, s', l);
    ss := Join(a, b, l, s, s1, s', 1, 1);
  }

  function Stores(w: B.Writer): nat { if w.Link? then 3 else if w.Store? then 2 else if w.MarkWrite? then 1 else 0 }

  lemma WriteAdvances(s: Queue, k: nat, j: nat)
    requires Inv(s) && k < |s.blocks| && j < 31 == |s.blocks[k].slots| && Stores(s.blocks[k].slots[j].writer) > 0
    ensures var bs := WriterStep(s, k, j).blocks;
            && |bs| == |s.blocks| && |bs[k].slots| == 31
            && !bs[k].slots[j].writer.NoWriter? && !bs[k].slots[j].writer.Install?
            && bs[k].slots[j].writer.v == s.blocks[k].slots[j].writer.v
            && Stores(bs[k].slots[j].writer) == Stores(s.blocks[k].slots[j].writer) - 1
  {
    Last(s, k);
  }

  /** The stores of a push into its slot. */
  lemma Stored(s: Queue, v: Item, l: Lone) returns (s': Queue, ss: seq<Queue>)
    requires Inv(s) && l.LonePush? && !Active(s, l.t) && s.tailStage.TailFree?
    requires l.k < |s.blocks| && l.j < 31 == |s.blocks[l.k].slots|
    requires var w := s.blocks[l.k].slots[l.j].writer; !w.NoWriter? && !w.Install? && w.v == v
    ensures Abs(s') == Abs(s) && l.k < |s'.blocks| && |s'.blocks[l.k].slots| == 31
    ensures s'.blocks[l.k].slots[l.j].writer == B.Wrote(v) && NextMove(s', l).None?
    ensures Leads(ss, l, s, s', Stores(s.blocks[l.k].slots[l.j].writer))
    decreases Stores(s.blocks[l.k].slots[l.j].writer)
  {
    var w := s.blocks[l.k].slots[l.j].writer;
    if w.Wrote? {
      s' := s;
      ss := Stay(s, l);
    } else {
      var s1 := WriterStep(s, l.k, l.j);
      WriteAdvances(s, l.k, l.j);
      var a := Once(s, s1, l);
      var b;
      s', b := Stored(s1, v, l);
      ss := Join(a, b, l, s, s1, s', 1, Stores(w) - 1);
    }
  }

  /**
   Alone, a push returns within ten moves; then its item is the newest of the queue and has been
   written to its slot.
   */
  lemma PushAlone(s: Queue, t: Tid, v: Item) returns (s': Queue, ss: seq<Queue>)
    requires Inv(s) && Quiet(s) && !Active(s, t)
    ensures var l := LonePush(t, BlockOf(s.tail), Offset(s.tail));
            && Leads(ss, l, Goto(s, t, LoadTail(v, false)), s', 10) && NextMove(s', l).None?
            && Abs(s') == Abs(s).(pushed := s.pushed + [v])
            && l.k < |s'.blocks| && l.j < |s'.blocks[l.k].slots| && s'.blocks[l.k].slots[l.j].writer == B.Wrote(v)
  {
    var l, s0 := LonePush(t, BlockOf(s.tail), Offset(s.tail)), Goto(s, t, LoadTail(v, false));
    var s1, a := Race(s, v, l);
    var s2, b := s1, [];
    if l.j == 30 { s2, b := Install(s1, v, l); } else { b := Stay(s1, l); }
    var d := Join(a, b, l, s0, s1, s2, 5, 2);
    var e;
    s', e := Stored(s2, v, l);
    ss := Join(d, e, l, s0, s2, s', 7, 3);
  }

  // ------------------------------------------------------------------------------------- a lone pop

  /** A load of a lone pop. */
  lemma PopLoadOnce(s: Queue, c: Call, l: Lone) returns (ss: seq<Queue>)
    requires l.LonePop? && Inv(Goto(s, l.t, c)) && PopLoads(c)
    ensures var s' := Goto(s, l.t, PopSees(c, s.head, s.hasNext, s.headBlock, s.tail));
            Inv(s') && Leads(ss, l, Goto(s, l.t, c), s', 1)
  {
    var c' := PopSees(c, s.head, s.hasNext, s.headBlock, s.tail);
    PopLoadTo(Goto(s, l.t, c), l);
    GotoTwice(s, l.t, c, c');
    ss := Once(Goto(s, l.t, c), Goto(s, l.t, c'), l);
  }

  lemma PopLoadTo(s: Queue, l: Lone)
    requires Inv(s) && l.LonePop? && Active(s, l.t) && PopLoads(s.calls[l.t])
    ensures To(s, Goto(s, l.t, PopSees(s.calls[l.t], s.head, s.hasNext, s.headBlock, s.tail)), l)
  {
  }

  /** What a pop sees that has loaded the head `h`, which has not moved. */
  lemma PopSeen(h: nat, f: bool, headBlock: Option<nat>, tail: nat)
    requires Offset(h) < 31
    ensures var c := PopSees(LoadHeadBlock(h, f), h, f, headBlock, tail);
            if !f then c == SeeTail(h, headBlock) else headBlock.Some? ==> c == MoveHead(h, true, true, headBlock.value)
    ensures var c := PopSees(SeeTail(h, headBlock), h, f, headBlock, tail);
            if h == tail then c == Done(Empty) else headBlock.Some? ==> c.MoveHead? && c.h == h && !c.f
  {
  }

  /** Where a lone pop's loads end: at its exchange, or with "empty". */
  predicate Seen(s: Queue, c: Call) {
    if s.head == s.tail then c == Done(Empty) else c.MoveHead? && c.h == s.head && c.f == s.hasNext
  }

  ghost predicate HeadReady(s: Queue) {
    && Offset(s.head) < 31 && (s.headBlock.Some? || s.head == s.tail) && (s.hasNext ==> s.head != s.tail)
  }

  lemma PopComes(s: Queue, l: Lone) returns (c: Call, ss: seq<Queue>)
    requires l.LonePop? && Inv(Goto(s, l.t, LoadHeadBlock(s.head, s.hasNext))) && HeadReady(s)
    ensures Inv(Goto(s, l.t, c)) && Seen(s, c)
    ensures Leads(ss, l, Goto(s, l.t, LoadHeadBlock(s.head, s.hasNext)), Goto(s, l.t, c), 2)
  {
    var c0 := LoadHeadBlock(s.head, s.hasNext);
    PopSeen(s.head, s.hasNext, s.headBlock, s.tail);
    ss := PopLoadOnce(s, c0, l);
    if s.hasNext { c := MoveHead(s.head, true, true, s.headBlock.value); }
    else {
      var c1 := SeeTail(s.head, s.headBlock);
      var b := PopLoadOnce(s, c1, l);
      c := PopSees(c1, s.head, s.hasNext, s.headBlock, s.tail);
      ss := Join(ss, b, l, Goto(s, l.t, c0), Goto(s, l.t, c1), Goto(s, l.t, c), 1, 1);
    }
  }

  /** The first loads of a pop: the head, and for a last look the tail, which may answer "empty" at once. */
  lemma PopStarts(s: Queue, final: bool, l: Lone) returns (c: Call, ss: seq<Queue>)
    requires Inv(s) && l.LonePop? && !Active(s, l.t)
    ensures Inv(Goto(s, l.t, c)) && Leads(ss, l, Goto(s, l.t, LoadHead(final)), Goto(s, l.t, c), 2)
    ensures c == if final && s.head == s.tail then Done(Empty) else LoadHeadBlock(s.head, s.hasNext)
  {
    GotoKeeps(s, l.t, LoadHead(final));
    ss := PopLoadOnce(s, LoadHead(final), l);
    c := LoadHeadBlock(s.head, s.hasNext);
    if final {
      var c' := CheckTail(s.head, s.hasNext);
      var b := PopLoadOnce(s, c', l);
      c := PopSees(c', s.head, s.hasNext, s.headBlock, s.tail);
      ss := Join(ss, b, l, Goto(s, l.t, LoadHead(final)), Goto(s, l.t, c'), Goto(s, l.t, c), 1, 1);
    }
  }

  lemma PopRaces(s: Queue, final: bool, l: Lone) returns (c: Call, ss: seq<Queue>)
    requires Inv(s) && l.LonePop? && !Active(s, l.t) && HeadReady(s)
    ensures Inv(Goto(s, l.t, c)) && Seen(s, c)
    ensures Leads(ss, l, Goto(s, l.t, LoadHead(final)), Goto(s, l.t, c), 4)
  {
    var c1, a := PopStarts(s, final, l);
    if c1.Done? { c, ss := c1, a; }
    else {
      var b;
      c, b := PopComes(s, l);
      ss := Join(a, b, l, Goto(s, l.t, LoadHead(final)), Goto(s, l.t, c1), Goto(s, l.t, c), 2, 2);
    }
  }

  /** Nobody is inside a call, so the head is inside a block. */
  lemma QuietHead(s: Queue)
    requires Inv(s) && Quiet(s)
    ensures HeadReady(s) && (s.head == s.tail <==> s.taken == |s.pushed|) && s.taken <= |s.pushed|
  {
    NextIndex(s.head);
    NextIndex(s.tail);
    BlocksAscend(s.head, s.tail);
    RankAscends(s.head, s.tail);
    if s.head < s.tail { RankAscends(s.head + 1, s.tail); }
  }

  lemma RankAscends(i: nat, j: nat)
    requires i <= j
    ensures Rank(i) <= Rank(j)
  {
    Parts(i);
    Parts(j);
  }

  /** The pop has won the index of its slot, whose item has been written. */
  ghost predicate Took(s: Queue, l: Lone) {
    && Inv(s) && !Active(s, l.t) && l.k < |s.blocks| && l.j < 31 == |s.blocks[l.k].slots| && s.blocks[l.k].slots[l.j].write
    && (if l.j == 30 then s.headStage.AwaitNext? && BlockOf(s.head) == l.k && s.blocks[l.k].next
        else s.headStage.HeadFree? && s.blocks[l.k].slots[l.j].reader.WaitWrite?)
  }

  lemma WinHead(s: Queue, c: Call, l: Lone) returns (s': Queue, ss: seq<Queue>)
    requires Inv(s) && Quiet(s) && l == LonePop(l.t, BlockOf(s.head), Offset(s.head)) && Inv(Goto(s, l.t, c))
    requires s.head < s.tail && c.MoveHead? && c.h == s.head && c.f == s.hasNext
    ensures Took(s', l) && Abs(s') == Abs(s).(taken := s.taken + 1) && Leads(ss, l, Goto(s, l.t, c), s', 1)
  {
    var s2 := Goto(s, l.t, c);
    ClaimHeadKeeps(s2, l.t);
    WrittenAt(s, l.k, l.j);
    NextIndex(s.head);
    s' := ClaimHead(s2, l.t);
    ss := Once(s2, s', l);
  }

  lemma WrittenAt(s: Queue, k: nat, j: nat)
    requires Inv(s) && Quiet(s) && k < |s.blocks| && j < 31 && k == BlockOf(s.head) && j == Offset(s.head) && s.head < s.tail
    ensures |s.blocks[k].slots| == 31 && s.blocks[k].slots[j].write && (j == 30 ==> s.blocks[k].next)
  {
    NextIndex(s.head);
    QuietSlot(s, k, j);
    Last(s, k);
    assert Linked(s.blocks[k], k, s.tail, s.head, s.pushed);
    assert SlotOk(s.blocks[k].slots[j], k, j, s.tail, s.head, s.pushed);
    assert SlotQuiet(s.blocks[k].slots[j]);
    assert B.SlotInv(s.blocks[k].slots[j], j == 30);
  }

  /** The walk of the pop of a last slot: it finds the next block ... */
  lemma FindNext(s: Queue, l: Lone) returns (s': Queue, ss: seq<Queue>)
    requires l.LonePop? && l.j == 30 && Took(s, l)
    ensures Inv(s') && s' == s.(headStage := s'.headStage) && s'.headStage.PutHead? && Leads(ss, l, s, s', 2)
  {
    var s1 := s.(headStage := PeekNext);
    var a := Once(s, s1, l);
    s' := HeadStep(s1);
    var b := Once(s1, s', l);
    ss := Join(a, b, l, s, s1, s', 1, 1);
  }

  /** ... and moves the head there. */
  lemma MoveOn(s: Queue, l: Lone) returns (s': Queue, ss: seq<Queue>)
    requires Inv(s) && l.LonePop? && l.j == 30 && !Active(s, l.t) && s.headStage.PutHead? && l.k == BlockOf(s.head)
    requires l.k < |s.blocks| && |s.blocks[l.k].slots| == 31 && s.blocks[l.k].slots[30].write
    ensures Inv(s') && !Active(s', l.t) && s'.headStage.HeadFree? && Abs(s') == Abs(s) && Leads(ss, l, s, s', 2)
    ensures l.k < |s'.blocks| && |s'.blocks[l.k].slots| == 31
    ensures s'.blocks[l.k].slots[30].write && s'.blocks[l.k].slots[30].reader.WaitWrite?
  {
    var s1 := s.(headBlock := Some(l.k + 1), headStage := PutHeadIndex(s.headStage.flag));
    var a := Once(s, s1, l);
    s' := HeadStep(s1);
    var b := Once(s1, s', l);
    ss := Join(a, b, l, s, s1, s', 1, 1);
  }

  /** Once its item is there a pop reads it, and sweeps if it has to, to the end. */
  lemma ReadOn(s: Queue, l: Lone) returns (s': Queue, ss: seq<Queue>)
    requires Inv(s) && l.LonePop? && !Active(s, l.t) && s.headStage.HeadFree?
    requires l.k < |s.blocks| && l.j < 31 == |s.blocks[l.k].slots|
    requires var x := s.blocks[l.k].slots[l.j]; x.write && !x.reader.NoReader? && !x.reader.Advance?
    ensures Inv(s') && Abs(s') == Abs(s) && l.k < |s'.blocks| && |s'.blocks[l.k].slots| == 31
    ensures s'.blocks[l.k].slots[l.j].reader.Finished? && NextMove(s', l).None?
    ensures Leads(ss, l, s, s', B.Left(s.blocks[l.k].slots[l.j].reader))
    decreases B.Left(s.blocks[l.k].slots[l.j].reader)
  {
    var r := s.blocks[l.k].slots[l.j].reader;
    if r.Finished? {
      s' := s;
      ss := Stay(s, l);
    } else {
      var s1 := ReaderStep(s, l.k, l.j);
      ReadAdvances(s, l.k, l.j);
      var a := Once(s, s1, l);
      var b;
      s', b := ReadOn(s1, l);
      ss := Join(a, b, l, s, s1, s', 1, B.Left(s1.blocks[l.k].slots[l.j].reader));
    }
  }

  lemma ReadAdvances(s: Queue, k: nat, j: nat)
    requires Inv(s) && k < |s.blocks| && j < 31 == |s.blocks[k].slots|
    requires var x := s.blocks[k].slots[j];
             x.write && !x.reader.NoReader? && !x.reader.Advance? && !x.reader.Finished?
    ensures var bs := ReaderStep(s, k, j).blocks;
            && |bs| == |s.blocks| && |bs[k].slots| == 31 && bs[k].slots[j].write
            && !bs[k].slots[j].reader.NoReader? && !bs[k].slots[j].reader.Advance?
            && B.Left(bs[k].slots[j].reader) < B.Left(s.blocks[k].slots[j].reader)
  {
    Last(s, k);
    B.PopAdvances(s.blocks[k], j);
    B.ReaderLeavesWriters(s.blocks[k], j, j);
    B.ReaderClaims(s.blocks[k], j);
  }

  /**
   Alone, a pop returns within 109 moves, most of them the sweep that frees a block: with the oldest
   item if there is one, and with "empty" if there is none.
   */
  lemma PopAlone(s: Queue, t: Tid, final: bool) returns (s': Queue, ss: seq<Queue>)
    requires Inv(s) && Quiet(s) && !Active(s, t)
    ensures var l := LonePop(t, BlockOf(s.head), Offset(s.head));
            && Leads(ss, l, Goto(s, t, LoadHead(final)), s', 109)
            && if s.taken < |s.pushed| then PopEnded(s, s', l) else s' == Goto(s, t, Done(Empty))
  {
    var l, s0 := LonePop(t, BlockOf(s.head), Offset(s.head)), Goto(s, t, LoadHead(final));
    QuietHead(s);
    var c, a := PopRaces(s, final, l);
    if s.head == s.tail { s', ss := Goto(s, t, c), a; }
    else {
      var s1, b := WinHead(s, c, l);
      var d := Join(a, b, l, s0, Goto(s, t, c), s1, 4, 1);
      s', b := AfterWin(s1, l);
      AnswerIs(s, s', l.k, l.j);
      ss := Join(d, b, l, s0, s1, s', 5, 104);
    }
  }

  /** What a lone pop has come to in the end. */
  ghost predicate PopEnded(s: Queue, s': Queue, l: Lone) {
    && Abs(s') == Abs(s).(taken := s.taken + 1) && NextMove(s', l).None?
    && l.k < |s'.blocks| && l.j < |s'.blocks[l.k].slots| && s.taken < |s.pushed|
    && s'.blocks[l.k].slots[l.j].reader == B.Finished(s.pushed[s.taken])
  }

  lemma AfterWin(s: Queue, l: Lone) returns (s': Queue, ss: seq<Queue>)
    requires l.LonePop? && Took(s, l)
    ensures Inv(s') && Abs(s') == Abs(s) && l.k < |s'.blocks| && |s'.blocks[l.k].slots| == 31
    ensures s'.blocks[l.k].slots[l.j].reader.Finished? && NextMove(s', l).None? && Leads(ss, l, s, s', 104)
  {
    var s2, a := s, [];
    if l.j == 30 {
      var s1, b;
      s1, a := FindNext(s, l);
      s2, b := MoveOn(s1, l);
      a := Join(a, b, l, s, s1, s2, 2, 2);
    } else { a := Stay(s, l); }
    var b;
    s', b := ReadOn(s2, l);
    ss := Join(a, b, l, s, s2, s', 4, 100);
  }

  lemma AnswerIs(s: Queue, s': Queue, k: nat, j: nat)
    requires CountInv(s) && Inv(s') && s'.pushed == s.pushed && k == BlockOf(s.head) && j == Offset(s.head) && j < 31
    requires k < |s'.blocks| && |s'.blocks[k].slots| == 31 && s'.blocks[k].slots[j].reader.Finished?
    ensures s.taken < |s.pushed| && s'.blocks[k].slots[j].reader == B.Finished(s.pushed[s.taken])
  {
    NextIndex(s.head);
    PopAnswers(s', k, j);
  }
}
