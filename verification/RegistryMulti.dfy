/**
 `RegistryMulti`: the waker queue of a side with many waiters.

 Everything interleaves freely, with any number of `fire` calls: loads of the flag, the two halves of
 a wake, the owners' own state changes. Under the mutex, `close` and `_clear_wakers` take one step for
 each entry, since owners do not need the mutex to change their wakers. A registration and a pop are
 one step each: a pop only looks at which entries are dead, and dead entries stay dead, so it might as
 well happen at its last look. Sequence numbers do not wrap.
 */
module RegistryMulti {
  import opened Base

  type Wid = nat

  datatype State = Init | Waiting | Woken | Closed

  /** Where a waker's one weak reference is: with its owner only, in the queue, or in a `fire`'s hands. */
  datatype Place = Idle | Queued | Held(t: Tid)

  datatype Waker = Waker(alive: bool, state: State, seqNo: nat, place: Place)

  /** What a `fire` remembers: the limit, the live entries it found, how many it has taken. */
  datatype Memo = Memo(last: Option<nat>, found: nat, took: nat)

  datatype Fire =
    | FirstFlag
    | PopFirst
    | WakeLoad(w: Wid, first: bool, at: nat, memo: Memo)
    | WakeStore(w: Wid, first: bool, at: nat, seen: State, memo: Memo)
    | Decide(w: Wid, at: nat, memo: Memo)
    | AgainFlag(memo: Memo)
    | PopAgain(memo: Memo)
    | Finished(memo: Memo)

  /** The mutex, for the operations that go over the queue while owners change their wakers. */
  datatype Lock = Free | Closing | Clearing(mine: nat, oneshot: bool)

  datatype Registry = Registry(
    queue: seq<Wid>, seqNo: nat, flag: bool, wakers: map<Wid, Waker>, fires: map<Tid, Fire>, issued: map<nat, Wid>,
    lock: Lock)

  function New(): Registry { Registry([], 0, false, map[], map[], map[], Free) }

  // ------------------------------------------------------------------------------- under the lock

  predicate Live(wakers: map<Wid, Waker>, w: Wid) { w in wakers && wakers[w].alive }

  /** The queue from its first live entry on. */
  function FromLive(q: seq<Wid>, wakers: map<Wid, Waker>): seq<Wid> {
    if q == [] || Live(wakers, q[0]) then q else FromLive(q[1..], wakers)
  }

  predicate Finishing(wakers: map<Wid, Waker>, w: Wid) {
    w in wakers && (wakers[w].state.Woken? || wakers[w].state.Closed?)
  }

  /** The wakers after queue `q` shrank to its suffix `q'`. */
  function Left(wakers: map<Wid, Waker>, q: seq<Wid>, q': seq<Wid>): map<Wid, Waker> {
    map w | w in wakers :: if w in q && w !in q' then wakers[w].(place := Idle) else wakers[w]
  }

  predicate Suffix(q': seq<Wid>, q: seq<Wid>) { |q'| <= |q| && q' == q[|q| - |q'|..] }

  // -------------------------------------------------------------------------------- the invariant

  ghost predicate Ordered(q: seq<Wid>, wakers: map<Wid, Waker>) {
    && (forall i :: 0 <= i < |q| ==> q[i] in wakers)
    && (forall i, j :: 0 <= i < j < |q| ==> wakers[q[i]].seqNo < wakers[q[j]].seqNo)
  }

  ghost predicate WakerInv(s: Registry, w: Wid)
    requires w in s.wakers
  {
    var x := s.wakers[w];
    && x.seqNo <= s.seqNo && x.seqNo in s.issued && s.issued[x.seqNo] == w
    && (x.place.Queued? <==> w in s.queue)
    && (x.state.Woken? ==> x.place.Idle?)
    && (x.place.Held? ==> x.place.t in s.fires && Holds(s.fires[x.place.t], w))
  }

  predicate Holds(f: Fire, w: Wid) { (f.WakeLoad? || f.WakeStore?) && f.w == w }

  /** The live queued wakers with sequence numbers below `b`. */
  function Below(s: Registry, b: int): set<Wid> {
    set w | w in s.queue && Live(s.wakers, w) && s.wakers[w].seqNo < b
  }

  function LiveQueued(s: Registry): set<Wid> { set w | w in s.queue && Live(s.wakers, w) }

  /** The takes of a `fire` so far, with what it may still take below its limit, are what it found. */
  ghost predicate Budget(s: Registry, m: Memo, extra: nat) {
    m.last.Some? ==> m.last.value <= s.seqNo && m.took + |Below(s, m.last.value - 1)| <= m.found + extra
  }

  ghost predicate FireInv(s: Registry, t: Tid)
    requires t in s.fires
  {
    match s.fires[t]
    case FirstFlag => true
    case PopFirst => true
    case WakeLoad(w, first, at, m) => TakenInv(s, w, first, at, m) && s.wakers[w].place == Held(t)
    case WakeStore(w, first, at, seen, m) => TakenInv(s, w, first, at, m) && s.wakers[w].place == Held(t)
    case Decide(w, at, m) => m.last.Some? && TakenInv(s, w, false, at, m)
    case AgainFlag(m) => m.last.Some? && m.took <= m.found && Budget(s, m, 0)
    case PopAgain(m) => m.last.Some? && m.took <= m.found && Budget(s, m, 0)
    case Finished(m) => m.took <= m.found + 1
  }

  /** A waker taken at sequence number `at`: one too many only if `at` is past the limit. */
  ghost predicate TakenInv(s: Registry, w: Wid, first: bool, at: nat, m: Memo) {
    && w in s.wakers && at <= s.wakers[w].seqNo
    && (m.last.None? ==> m.took <= m.found)
    && Budget(s, m, if m.last.Some? && !first && at >= m.last.value - 1 then 1 else 0)
    && (m.last.None? ==> first)
  }

  ghost predicate Core(s: Registry) {
    && Ordered(s.queue, s.wakers)
    && (forall w {:trigger s.wakers[w]} :: w in s.wakers ==> WakerInv(s, w))
    && (forall t {:trigger s.fires[t]} :: t in s.fires ==> FireInv(s, t))
  }

  /** The flag shows a waiting entry, and is only ahead of the queue while somebody has the lock. */
  predicate FlagInv(s: Registry) { (s.queue != [] ==> s.flag) && (s.lock.Free? && s.flag ==> s.queue != []) }

  ghost predicate Inv(s: Registry) { Core(s) && FlagInv(s) }

  // -------------------------------------------------------------------------------- the operations

  /** The queue shrinks to its suffix `q`. */
  function Shrink(s: Registry, q: seq<Wid>): Registry {
    s.(queue := q, wakers := Left(s.wakers, s.queue, q))
  }

  /** The mutex is released; an empty queue clears the flag. */
  function Unlock(s: Registry): Registry { s.(lock := Free, flag := s.flag && s.queue != []) }

  /** `reg_waker`: the next number, and the end of the queue. */
  function Enqueue(s: Registry, w: Wid): Registry {
    var n := s.seqNo + 1;
    s.(queue := s.queue + [w], seqNo := n, flag := true,
       wakers := s.wakers[w := Waker(true, Init, n, Queued)], issued := s.issued[n := w])
  }

  function SetState(s: Registry, w: Wid, state: State): Registry
    requires w in s.wakers
  {
    s.(wakers := s.wakers[w := s.wakers[w].(state := state)])
  }

  function GoFire(s: Registry, t: Tid, f: Fire): Registry { s.(fires := s.fires[t := f]) }

  /** The pop loop of `pop_first` and `pop_again`, by call `t`. */
  function Pop(s: Registry, t: Tid, first: bool, m: Memo): Registry {
    var q := FromLive(s.queue, s.wakers);
    if q == [] || q[0] !in s.wakers then GoFire(Unlock(Shrink(s, [])), t, Finished(m))
    else
      Hold(Unlock(Shrink(s, q[1..])), t, q[0], WakeLoad(q[0], first, s.wakers[q[0]].seqNo, NextMemo(s, first, m, q[1..])))
  }

  /** What a pop adds to the memory of its `fire`; `rest` is what it leaves in the queue. */
  function NextMemo(s: Registry, first: bool, m: Memo, rest: seq<Wid>): Memo {
    if first then Memo(if rest == [] then None else Some(s.seqNo), |LiveQueued(s)|, 1) else m.(took := m.took + 1)
  }

  /** Call `t` takes `w`, which has just left the queue, into its hands. */
  function Hold(s: Registry, t: Tid, w: Wid, f: Fire): Registry
    requires w in s.wakers
  {
    GoFire(s.(wakers := s.wakers[w := s.wakers[w].(place := Held(t))]), t, f)
  }

  /** Where a `fire` goes after a wake that did not end it. */
  function AfterWake(f: Fire): Fire
    requires f.WakeStore?
  {
    if !f.first then Decide(f.w, f.at, f.memo) else if f.memo.last.None? then Finished(f.memo) else AgainFlag(f.memo)
  }

  /** The waker leaves the `fire`'s hands, in state `state`. */
  function LetGo(s: Registry, t: Tid, w: Wid, state: State, f: Fire): Registry
    requires w in s.wakers
  {
    GoFire(s.(wakers := s.wakers[w := s.wakers[w].(state := state, place := Idle)]), t, f)
  }

  /** The second half of `wake`, after its load saw `seen`. */
  function StoreWoken(s: Registry, t: Tid, spurious: bool): Registry
    requires t in s.fires && s.fires[t].WakeStore? && s.fires[t].w in s.wakers
  {
    var f := s.fires[t];
    var state := s.wakers[f.w].state;
    match f.seen
    case Waiting => LetGo(s, t, f.w, Woken, Finished(f.memo))
    case Init =>
      if state.Init? && !spurious then LetGo(s, t, f.w, Woken, AfterWake(f)) else GoFire(s, t, f.(seen := state))
    case _ => LetGo(s, t, f.w, state, AfterWake(f))
  }

  const NOTHING := Memo(None, 0, 0)

  /** One step of a `fire`; `spurious` lets the weak exchange of a wake fail although the state matches. */
  function FireStep(s: Registry, t: Tid, spurious: bool): Registry
    requires Core(s) && t in s.fires
  {
    assert FireInv(s, t);
    match s.fires[t]
    case FirstFlag => GoFire(s, t, if s.flag then PopFirst else Finished(NOTHING))
    case PopFirst => Pop(s, t, true, NOTHING)
    case WakeLoad(w, first, at, m) => GoFire(s, t, WakeStore(w, first, at, s.wakers[w].state, m))
    case WakeStore(w, first, at, seen, m) => StoreWoken(s, t, spurious)
    case Decide(w, at, m) =>
      GoFire(s, t, if s.wakers[w].seqNo >= m.last.value - 1 then Finished(m) else AgainFlag(m))
    case AgainFlag(m) => GoFire(s, t, if s.flag then PopAgain(m) else Finished(m))
    case PopAgain(m) => Pop(s, t, false, m)
    case Finished(_) => s
  }

  /** `close_wake`: a waker that is not finished yet becomes closed. */
  function Tell(wakers: map<Wid, Waker>, w: Wid): map<Wid, Waker> {
    if Live(wakers, w) && !Finishing(wakers, w) then wakers[w := wakers[w].(state := Closed)] else wakers
  }

  /** The entry at the front leaves the queue. */
  function Leave(s: Registry): Registry
    requires s.queue != []
  {
    Shrink(s, s.queue[1..])
  }

  /** `close` deals with one entry: it is told, and leaves. */
  function CloseStep(s: Registry): Registry {
    if s.queue == [] then Unlock(s) else Leave(s.(wakers := Tell(s.wakers, s.queue[0])))
  }

  /**
   `_clear_wakers` deals with one entry. Dead entries leave, and so does the caller's own, which ends it;
   a later or a waiting one stays and ends it; a finished one leaves, and ends it if `oneshot`.
   */
  function ClearStep(s: Registry, mine: nat, oneshot: bool): Registry {
    if s.queue == [] then Unlock(s)
    else
      var w := s.queue[0];
      if !Live(s.wakers, w) then Leave(s)
      else if s.wakers[w].seqNo == mine then Unlock(Leave(s))
      else if s.wakers[w].seqNo > mine || !Finishing(s.wakers, w) then Unlock(s)
      else if oneshot then Unlock(Leave(s)) else Leave(s)
  }

  /** The next step of whoever has the mutex. */
  function LockedStep(s: Registry): Registry {
    match s.lock
    case Free => s
    case Closing => CloseStep(s)
    case Clearing(mine, oneshot) => ClearStep(s, mine, oneshot)
  }

  // -------------------------------------------------------------------------- facts about the queue

  lemma {:induction false} FromLiveSuffix(q: seq<Wid>, wakers: map<Wid, Waker>)
    ensures Suffix(FromLive(q, wakers), q)
    ensures FromLive(q, wakers) != [] ==> Live(wakers, FromLive(q, wakers)[0])
  {
    if q != [] && !Live(wakers, q[0]) {
      FromLiveSuffix(q[1..], wakers);
      SuffixOfTail(FromLive(q[1..], wakers), q);
    }
  }

  /** Skipping dead entries skips no live one. */
  lemma {:induction false} FromLiveKeeps(q: seq<Wid>, wakers: map<Wid, Waker>, w: Wid)
    requires w in q && Live(wakers, w)
    ensures w in FromLive(q, wakers)
  {
    if q[0] != w && !Live(wakers, q[0]) {
      assert q == [q[0]] + q[1..];
      FromLiveKeeps(q[1..], wakers, w);
    }
  }

  lemma SuffixOfTail(q': seq<Wid>, q: seq<Wid>)
    requires q != [] && Suffix(q', q[1..])
    ensures Suffix(q', q)
  {
    assert q[1..][|q| - 1 - |q'|..] == q[|q| - |q'|..];
  }

  lemma SuffixTail(q': seq<Wid>, q: seq<Wid>)
    requires Suffix(q', q) && q' != []
    ensures Suffix(q'[1..], q)
  {
  }

  // ---------------------------------------------------------------- every step keeps the invariant

  /** Fires keep their budgets while the queue below their limits does not grow. */
  lemma FiresKept(s: Registry, s': Registry, t: Tid)
    requires t in s.fires && FireInv(s, t) && t in s'.fires && s'.fires[t] == s.fires[t] && s.seqNo <= s'.seqNo
    requires forall w :: w in s.wakers ==> w in s'.wakers && s.wakers[w].seqNo <= s'.wakers[w].seqNo
    requires forall w :: w in s.wakers && s.wakers[w].place == Held(t) ==> s'.wakers[w].place == Held(t)
    requires forall b: int :: b < s.seqNo ==> Below(s', b) <= Below(s, b)
    ensures FireInv(s', t)
  {
    var f := s.fires[t];
    if !f.FirstFlag? && !f.PopFirst? && f.memo.last.Some? && f.memo.last.value <= s.seqNo {
      Subset(Below(s', f.memo.last.value - 1), Below(s, f.memo.last.value - 1));
    }
  }

  lemma OrderedSuffix(q: seq<Wid>, q': seq<Wid>, wakers: map<Wid, Waker>)
    requires Ordered(q, wakers) && Suffix(q', q)
    ensures Ordered(q', wakers)
    ensures forall w :: w in q' ==> w in q
  {
    var d := |q| - |q'|;
    forall i | 0 <= i < |q'| ensures q'[i] in wakers { assert q'[i] == q[i + d]; }
    forall i, j | 0 <= i < j < |q'| ensures wakers[q'[i]].seqNo < wakers[q'[j]].seqNo {
      assert q'[i] == q[i + d] && q'[j] == q[j + d];
    }
  }

  /** The order only depends on the numbers. */
  lemma OrderedSame(q: seq<Wid>, wakers: map<Wid, Waker>, wakers': map<Wid, Waker>)
    requires Ordered(q, wakers)
    requires forall w :: w in q ==> w in wakers' && wakers'[w].seqNo == wakers[w].seqNo
    ensures Ordered(q, wakers')
  {
  }

  lemma ShrinkKeeps(s: Registry, q: seq<Wid>)
    requires Core(s) && Suffix(q, s.queue)
    ensures Core(Shrink(s, q))
  {
    var s' := Shrink(s, q);
    OrderedSuffix(s.queue, q, s.wakers);
    OrderedSame(q, s.wakers, s'.wakers);
    forall w | w in s'.wakers ensures WakerInv(s', w) { assert WakerInv(s, w); }
    forall t | t in s'.fires ensures FireInv(s', t) { FiresKept(s, s', t); }
  }

  lemma EnqueueKeeps(s: Registry, w: Wid)
    requires Core(s) && (w in s.wakers ==> s.wakers[w].state.Woken?)
    ensures Core(Enqueue(s, w))
  {
    var s' := Enqueue(s, w);
    if w in s.wakers { assert WakerInv(s, w); }
    EnqueueOrdered(s, w);
    forall v | v in s'.wakers ensures WakerInv(s', v) {
      if v != w { assert WakerInv(s, v); }
    }
    forall t | t in s'.fires ensures FireInv(s', t) { FiresKept(s, s', t); }
  }

  lemma EnqueueOrdered(s: Registry, w: Wid)
    requires Core(s) && w !in s.queue
    ensures Ordered(s.queue + [w], Enqueue(s, w).wakers)
  {
    var q, s' := s.queue + [w], Enqueue(s, w);
    forall i, j | 0 <= i < j < |q| ensures s'.wakers[q[i]].seqNo < s'.wakers[q[j]].seqNo {
      assert q[i] == s.queue[i] && q[i] in s.queue;
      assert WakerInv(s, q[i]);
    }
  }

  /** An owner changes its own waker: to waiting, to closed, or to dead. */
  lemma OwnKeeps(s: Registry, w: Wid, x: Waker)
    requires Core(s) && w in s.wakers && !x.state.Woken?
    requires x == s.wakers[w].(state := x.state, alive := x.alive) && (x.alive ==> s.wakers[w].alive)
    ensures Core(s.(wakers := s.wakers[w := x]))
  {
    var s' := s.(wakers := s.wakers[w := x]);
    OrderedSame(s.queue, s.wakers, s'.wakers);
    forall v | v in s'.wakers ensures WakerInv(s', v) { assert WakerInv(s, v); }
    forall t | t in s'.fires ensures FireInv(s', t) { FiresKept(s, s', t); }
  }

  lemma DropKeeps(s: Registry, w: Wid)
    requires Core(s) && w in s.wakers
    ensures Core(s.(wakers := s.wakers[w := s.wakers[w].(alive := false)]))
  {
    var s' := s.(wakers := s.wakers[w := s.wakers[w].(alive := false)]);
    OrderedSame(s.queue, s.wakers, s'.wakers);
    forall v | v in s'.wakers ensures WakerInv(s', v) { assert WakerInv(s, v); }
    forall t | t in s'.fires ensures FireInv(s', t) { FiresKept(s, s', t); }
  }

  /** Taking or releasing the mutex, or setting the flag, concerns no waker. */
  lemma LockKeeps(s: Registry, lock: Lock, flag: bool)
    requires Core(s)
    ensures Core(s.(lock := lock, flag := flag))
  {
    var s' := s.(lock := lock, flag := flag);
    forall v | v in s'.wakers ensures WakerInv(s', v) { assert WakerInv(s, v); }
    forall t | t in s'.fires ensures FireInv(s', t) { FiresKept(s, s', t); }
  }

  lemma UnlockKeeps(s: Registry)
    requires Core(s)
    ensures Core(Unlock(s))
  {
    LockKeeps(s, Free, s.flag && s.queue != []);
  }

  lemma LeaveKeeps(s: Registry)
    requires Core(s) && s.queue != []
    ensures Core(Leave(s))
  {
    ShrinkKeeps(s, s.queue[1..]);
  }

  lemma CloseKeeps(s: Registry)
    requires Core(s)
    ensures Core(CloseStep(s))
  {
    if s.queue == [] { UnlockKeeps(s); }
    else {
      var w := s.queue[0];
      if Live(s.wakers, w) && !Finishing(s.wakers, w) {
        OwnKeeps(s, w, s.wakers[w].(state := Closed));
      }
      LeaveKeeps(s.(wakers := Tell(s.wakers, w)));
    }
  }

  lemma ClearKeeps(s: Registry, mine: nat, oneshot: bool)
    requires Core(s)
    ensures Core(ClearStep(s, mine, oneshot))
  {
    if s.queue != [] {
      LeaveKeeps(s);
      UnlockKeeps(Leave(s));
    }
    UnlockKeeps(s);
  }

  lemma LockedKeeps(s: Registry)
    requires Core(s)
    ensures Core(LockedStep(s))
  {
    match s.lock {
    case Free =>
    case Closing => CloseKeeps(s);
    case Clearing(mine, oneshot) => ClearKeeps(s, mine, oneshot);
    }
  }

  /** A `fire` moves on without touching the registry. */
  lemma GoFireKeeps(s: Registry, t: Tid, f: Fire)
    requires Core(s) && FireInv(GoFire(s, t, f), t)
    requires t in s.fires ==> forall w :: Holds(s.fires[t], w) ==> Holds(f, w)
    ensures Core(GoFire(s, t, f))
  {
    var s' := GoFire(s, t, f);
    forall v | v in s'.wakers ensures WakerInv(s', v) { assert WakerInv(s, v); }
    forall u | u in s'.fires ensures FireInv(s', u) {
      if u != t { FiresKept(s, s', u); }
    }
  }

  lemma LetGoKeeps(s: Registry, t: Tid, w: Wid, state: State, f: Fire)
    requires Core(s) && t in s.fires && Holds(s.fires[t], w) && !f.WakeLoad? && !f.WakeStore?
    requires w in s.wakers && FireInv(LetGo(s, t, w, state, f), t)
    ensures Core(LetGo(s, t, w, state, f))
  {
    var s' := LetGo(s, t, w, state, f);
    assert FireInv(s, t);
    assert WakerInv(s, w);
    OrderedSame(s.queue, s.wakers, s'.wakers);
    forall v | v in s'.wakers ensures WakerInv(s', v) { assert WakerInv(s, v); }
    forall u | u in s'.fires ensures FireInv(s', u) {
      if u != t { FiresKept(s, s', u); }
    }
  }

  lemma StoreKeeps(s: Registry, t: Tid, spurious: bool)
    requires Core(s) && t in s.fires && s.fires[t].WakeStore? && s.fires[t].w in s.wakers
    ensures Core(StoreWoken(s, t, spurious))
  {
    var f := s.fires[t];
    var state := s.wakers[f.w].state;
    assert FireInv(s, t);
    assert WakerInv(s, f.w);
    if f.seen.Init? && (!state.Init? || spurious) { GoFireKeeps(s, t, f.(seen := state)); }
    else {
      var to := if f.seen.Waiting? || f.seen.Init? then Woken else state;
      var next := if f.seen.Waiting? then Finished(f.memo) else AfterWake(f);
      var s' := LetGo(s, t, f.w, to, next);
      assert forall b: int :: Below(s', b) == Below(s, b);
      LetGoKeeps(s, t, f.w, to, next);
    }
  }

  lemma HoldKeeps(s: Registry, t: Tid, w: Wid, f: Fire)
    requires Core(s) && w in s.wakers && s.wakers[w].place.Idle? && !s.wakers[w].state.Woken?
    requires Holds(f, w) && (t in s.fires ==> !s.fires[t].WakeLoad? && !s.fires[t].WakeStore?)
    requires FireInv(Hold(s, t, w, f), t)
    ensures Core(Hold(s, t, w, f))
  {
    var s' := Hold(s, t, w, f);
    assert WakerInv(s, w);
    OrderedSame(s.queue, s.wakers, s'.wakers);
    forall v | v in s'.wakers ensures WakerInv(s', v) { assert WakerInv(s, v); }
    forall u | u in s'.fires ensures FireInv(s', u) {
      if u != t { FiresKept(s, s', u); }
    }
  }

  /** The first live entry leaves the queue: it is one of the live ones, and not Woken. */
  lemma FrontLeaves(s: Registry)
    requires Core(s) && FromLive(s.queue, s.wakers) != []
    ensures var q := FromLive(s.queue, s.wakers);
            && Suffix(q[1..], s.queue) && q[0] in s.queue && q[0] !in q[1..] && Live(s.wakers, q[0])
            && !s.wakers[q[0]].state.Woken?
            && (forall w :: w in q[1..] ==> w in s.queue)
  {
    var q := FromLive(s.queue, s.wakers);
    FromLiveSuffix(s.queue, s.wakers);
    OrderedSuffix(s.queue, q, s.wakers);
    SuffixTail(q, s.queue);
    assert q[0] in q;
    assert WakerInv(s, q[0]);
  }

  /** With `w` gone from the queue, so many fewer live entries are below any limit. */
  lemma FewerBelow(s: Registry, s': Registry, w: Wid, b: int)
    requires w in s.queue && Live(s.wakers, w) && forall v :: v in s'.queue ==> v in s.queue && v != w
    requires forall v :: v in s'.wakers ==>
               v in s.wakers && s'.wakers[v].alive == s.wakers[v].alive && s'.wakers[v].seqNo == s.wakers[v].seqNo
    ensures |Below(s', b)| + (if s.wakers[w].seqNo < b then 1 else 0) <= |Below(s, b)|
    ensures |Below(s', b)| + 1 <= |LiveQueued(s)|
  {
    if s.wakers[w].seqNo < b { Subset(Below(s', b) + {w}, Below(s, b)); } else { Subset(Below(s', b), Below(s, b)); }
    Subset(Below(s', b) + {w}, LiveQueued(s));
  }

  lemma PopKeeps(s: Registry, t: Tid, first: bool, m: Memo)
    requires Core(s) && t in s.fires
    requires if first then s.fires[t].PopFirst? && m == NOTHING else s.fires[t] == PopAgain(m)
    ensures Core(Pop(s, t, first, m))
  {
    assert FireInv(s, t);
    var q := FromLive(s.queue, s.wakers);
    if q == [] {
      NoneLeft(s, t, m);
      assert Pop(s, t, first, m) == GoFire(Unlock(Shrink(s, [])), t, Finished(m));
    } else {
      FrontLeaves(s);
      var w, rest := q[0], q[1..];
      TakeKeeps(s, t, first, m, w, rest);
      assert Pop(s, t, first, m) ==
             Hold(Unlock(Shrink(s, rest)), t, w, WakeLoad(w, first, s.wakers[w].seqNo, NextMemo(s, first, m, rest)));
    }
  }

  lemma NoneLeft(s: Registry, t: Tid, m: Memo)
    requires Core(s) && t in s.fires && FireInv(s, t) && m.took <= m.found + 1
    requires s.fires[t].PopFirst? || s.fires[t].PopAgain?
    ensures Core(GoFire(Unlock(Shrink(s, [])), t, Finished(m)))
  {
    ShrinkKeeps(s, []);
    UnlockKeeps(Shrink(s, []));
    GoFireKeeps(Unlock(Shrink(s, [])), t, Finished(m));
  }

  lemma TakeKeeps(s: Registry, t: Tid, first: bool, m: Memo, w: Wid, rest: seq<Wid>)
    requires Core(s) && t in s.fires && FireInv(s, t)
    requires if first then s.fires[t].PopFirst? else s.fires[t] == PopAgain(m)
    requires Suffix(rest, s.queue) && w in s.queue && w !in rest && Live(s.wakers, w)
    requires !s.wakers[w].state.Woken? && forall v :: v in rest ==> v in s.queue
    ensures Core(Hold(Unlock(Shrink(s, rest)), t, w, WakeLoad(w, first, s.wakers[w].seqNo, NextMemo(s, first, m, rest))))
  {
    var s1, memo := Unlock(Shrink(s, rest)), NextMemo(s, first, m, rest);
    var f := WakeLoad(w, first, s.wakers[w].seqNo, memo);
    var s' := Hold(s1, t, w, f);
    assert WakerInv(s, w);
    ShrinkKeeps(s, rest);
    UnlockKeeps(Shrink(s, rest));
    TakenFits(s, s', t, first, m, w, rest);
    HoldKeeps(s1, t, w, f);
  }

  /** A take fits the budget of its `fire`. */
  lemma TakenFits(s: Registry, s': Registry, t: Tid, first: bool, m: Memo, w: Wid, rest: seq<Wid>)
    requires t in s.fires && FireInv(s, t) && s'.queue == rest && s'.seqNo == s.seqNo
    requires if first then s.fires[t].PopFirst? else s.fires[t] == PopAgain(m)
    requires w in s.queue && Live(s.wakers, w) && w in s'.wakers && forall v :: v in rest ==> v in s.queue && v != w
    requires forall v :: v in s'.wakers ==>
               v in s.wakers && s'.wakers[v].alive == s.wakers[v].alive && s'.wakers[v].seqNo == s.wakers[v].seqNo
    ensures TakenInv(s', w, first, s.wakers[w].seqNo, NextMemo(s, first, m, rest))
  {
    var memo := NextMemo(s, first, m, rest);
    FewerBelow(s, s', w, if memo.last.Some? then memo.last.value - 1 else 0);
  }

  lemma FireKeeps(s: Registry, t: Tid, spurious: bool)
    requires Core(s) && t in s.fires
    ensures Core(FireStep(s, t, spurious))
  {
    assert FireInv(s, t);
    match s.fires[t] {
    case PopFirst => PopKeeps(s, t, true, NOTHING);
    case PopAgain(m) => PopKeeps(s, t, false, m);
    case WakeStore(w, first, at, seen, m) => StoreKeeps(s, t, spurious);
    case Finished(_) =>
    case _ => WatchKeeps(s, t, spurious);
    }
  }

  lemma WatchKeeps(s: Registry, t: Tid, spurious: bool)
    requires Core(s) && t in s.fires
    requires s.fires[t].FirstFlag? || s.fires[t].WakeLoad? || s.fires[t].Decide? || s.fires[t].AgainFlag?
    ensures Core(FireStep(s, t, spurious))
  {
    assert FireInv(s, t);
    var f := FireStep(s, t, spurious).fires[t];
    assert forall b: int :: Below(GoFire(s, t, f), b) == Below(s, b);
    GoFireKeeps(s, t, f);
  }

  // ------------------------------------------------------------------------------------------ moves

  datatype Move =
    | Register(w: Wid)
    | Reregister(w: Wid)
    | Commit(w: Wid)
    | Abandon(w: Wid)
    | DropWaker(w: Wid)
    | BeginClear(w: Wid, oneshot: bool)
    | BeginClose
    | Locked
    | BeginFire(t: Tid)
    | Go(t: Tid, spurious: bool)

  /** An owner registers a new waker, or one that it has seen woken. The mutex keeps others out. */
  predicate Enabled(s: Registry, m: Move) {
    match m
    case Register(w) => s.lock.Free? && w !in s.wakers
    case Reregister(w) => s.lock.Free? && Live(s.wakers, w) && s.wakers[w].state.Woken?
    case Commit(w) => Live(s.wakers, w)
    case Abandon(w) => Live(s.wakers, w)
    case DropWaker(w) => Live(s.wakers, w)
    case BeginClear(w, _) => s.lock.Free? && Live(s.wakers, w)
    case BeginClose => s.lock.Free?
    case Locked => !s.lock.Free?
    case BeginFire(t) => t in s.fires ==> s.fires[t].Finished?
    case Go(t, _) =>
      && t in s.fires && !s.fires[t].Finished?
      && (s.fires[t].PopFirst? || s.fires[t].PopAgain? ==> s.lock.Free?)
  }

  function Apply(s: Registry, m: Move): Registry
    requires Core(s) && Enabled(s, m)
  {
    match m
    case Register(w) => Enqueue(s, w)
    case Reregister(w) => Enqueue(s, w)
    case Commit(w) => if s.wakers[w].state.Init? then SetState(s, w, Waiting) else s
    case Abandon(w) => if Finishing(s.wakers, w) then s else SetState(s, w, State.Closed)
    case DropWaker(w) => s.(wakers := s.wakers[w := s.wakers[w].(alive := false)])
    case BeginClear(w, oneshot) => s.(lock := Clearing(s.wakers[w].seqNo, oneshot))
    case BeginClose => s.(lock := Closing)
    case Locked => LockedStep(s)
    case BeginFire(t) => GoFire(s, t, FirstFlag)
    case Go(t, spurious) => FireStep(s, t, spurious)
  }

  lemma CoreKeeps(s: Registry, m: Move)
    requires Core(s) && Enabled(s, m)
    ensures Core(Apply(s, m))
  {
    match m {
    case Register(w) => EnqueueKeeps(s, w);
    case Reregister(w) => EnqueueKeeps(s, w);
    case Commit(w) => if s.wakers[w].state.Init? { OwnKeeps(s, w, s.wakers[w].(state := Waiting)); }
    case Abandon(w) => if !Finishing(s.wakers, w) { OwnKeeps(s, w, s.wakers[w].(state := State.Closed)); }
    case DropWaker(w) => DropKeeps(s, w);
    case BeginClear(w, oneshot) => LockKeeps(s, Clearing(s.wakers[w].seqNo, oneshot), s.flag);
    case BeginClose => LockKeeps(s, Closing, s.flag);
    case Locked => LockedKeeps(s);
    case BeginFire(t) => GoFireKeeps(s, t, FirstFlag);
    case Go(t, spurious) => FireKeeps(s, t, spurious);
    }
  }

  lemma FlagKeeps(s: Registry, m: Move)
    requires Core(s) && FlagInv(s) && Enabled(s, m)
    ensures FlagInv(Apply(s, m))
  {
    if m.Go? { assert FireInv(s, m.t); }
  }

  lemma ApplyKeeps(s: Registry, m: Move)
    requires Inv(s) && Enabled(s, m)
    ensures Inv(Apply(s, m))
  {
    CoreKeeps(s, m);
    FlagKeeps(s, m);
  }

  // ------------------------------------------------------------------------- what the machine promises

  /** Queued wakers are strictly ordered by their numbers, so none is queued twice. */
  lemma QueueIsOrdered(s: Registry, i: nat, j: nat)
    requires Inv(s) && i < j < |s.queue|
    ensures s.queue[i] != s.queue[j] && s.wakers[s.queue[i]].seqNo < s.wakers[s.queue[j]].seqNo
  {
  }

  /** A waker its owner sees woken is in no queue and in nobody's hands: it may be registered again. */
  lemma WokenIsIdle(s: Registry, w: Wid)
    requires Inv(s) && w in s.wakers && s.wakers[w].state.Woken?
    ensures w !in s.queue && forall t :: t in s.fires ==> !Holds(s.fires[t], w)
  {
    assert WakerInv(s, w);
    forall t | t in s.fires ensures !Holds(s.fires[t], w) { assert FireInv(s, t); }
  }

  /**
   A `fire` wakes at most one more live waker than it found queued, even if every waker it wakes is
   registered again at once. As every pop counts, it comes to an end.
   */
  lemma FireIsBounded(s: Registry, t: Tid)
    requires Inv(s) && t in s.fires && !s.fires[t].FirstFlag? && !s.fires[t].PopFirst?
    ensures s.fires[t].memo.took <= s.fires[t].memo.found + 1
  {
    assert FireInv(s, t);
  }

  /** What it found is the number of live entries queued when its first pop had the lock. */
  lemma FindsLive(s: Registry, t: Tid)
    requires Inv(s) && t in s.fires && s.fires[t].PopFirst?
    ensures var f := FireStep(s, t, false).fires[t];
            if LiveQueued(s) == {} then f == Finished(NOTHING)
            else f.WakeLoad? && f.w in LiveQueued(s) && f.memo.found == |LiveQueued(s)| && f.memo.took == 1
  {
    var q := FromLive(s.queue, s.wakers);
    if q != [] {
      FrontLeaves(s);
      assert q[0] in LiveQueued(s);
    } else {
      forall w | w in s.queue && Live(s.wakers, w) ensures w in q { FromLiveKeeps(s.queue, s.wakers, w); }
      assert LiveQueued(s) == {};
    }
  }

  /** A pop takes the live entry with the least number. */
  lemma PopTakesOldest(s: Registry, t: Tid, w: Wid)
    requires Inv(s) && t in s.fires && (s.fires[t].PopFirst? || s.fires[t].PopAgain?) && w in LiveQueued(s)
    ensures var f := FireStep(s, t, false).fires[t];
            f.WakeLoad? && f.w in s.wakers && s.wakers[f.w].seqNo <= s.wakers[w].seqNo
  {
    assert FireInv(s, t);
    FromLiveSuffix(s.queue, s.wakers);
    FromLiveKeeps(s.queue, s.wakers, w);
    var q := FromLive(s.queue, s.wakers);
    OrderedSuffix(s.queue, q, s.wakers);
    var i :| 0 <= i < |q| && q[i] == w;
  }

  /**
   An entry that a clear takes off the queue is, at that instant, the caller's own, or dead, or finished.
   The step that takes nothing off ends the clear.
   */
  lemma ClearIsSafe(s: Registry)
    requires Inv(s) && s.lock.Clearing? && s.queue != []
    ensures var s', w := LockedStep(s), s.queue[0];
            if s'.queue == s.queue then s'.lock.Free? && Live(s.wakers, w)
            else && s'.queue == s.queue[1..]
                 && (s.wakers[w].seqNo == s.lock.mine || !Live(s.wakers, w) || Finishing(s.wakers, w))
  {
  }

  /** The caller's own entry is the one with its number. */
  lemma OwnNumber(s: Registry, v: Wid, w: Wid)
    requires Inv(s) && v in s.wakers && w in s.wakers && s.wakers[v].seqNo == s.wakers[w].seqNo
    ensures v == w
  {
    assert WakerInv(s, v) && WakerInv(s, w);
  }

  /** Every entry that `close` takes off is dead or has been told, and `close` ends only on an empty queue. */
  lemma CloseTells(s: Registry)
    requires Inv(s) && s.lock.Closing?
    ensures var s' := LockedStep(s);
            if s.queue == [] then s'.lock.Free? && !s'.flag
            else && s'.lock.Closing? && s'.queue == s.queue[1..]
                 && (Live(s'.wakers, s.queue[0]) ==> Finishing(s'.wakers, s.queue[0]))
  {
    if s.queue != [] { assert s.queue[0] in s.queue && s.queue[0] in s.wakers; }
  }

  /** Each step under the mutex takes an entry off or releases it: nobody keeps it for ever. */
  lemma LockEnds(s: Registry)
    requires !s.lock.Free?
    ensures LockedStep(s).lock.Free? || |LockedStep(s).queue| < |s.queue|
  {
  }

  /** The state after a run; `None` if some move was not possible when its turn came. */
  ghost function Run(ms: seq<Move>): (r: Option<Registry>)
    ensures r.Some? ==> Inv(r.value)
  {
    if ms == [] then Some(New())
    else
      var n := |ms| - 1;
      var before := Run(ms[..n]);
      if before.Some? && Enabled(before.value, ms[n]) then
        ApplyKeeps(before.value, ms[n]);
        Some(Apply(before.value, ms[n]))
      else None
  }

  /** In every run, every `fire` keeps to its bound and the queue stays ordered. */
  lemma RunIsBounded(ms: seq<Move>, t: Tid)
    requires Run(ms).Some?
    ensures var s := Run(ms).value;
            && Ordered(s.queue, s.wakers)
            && (t in s.fires && s.fires[t].Finished? ==> s.fires[t].memo.took <= s.fires[t].memo.found + 1)
  {
    var s := Run(ms).value;
    if t in s.fires && s.fires[t].Finished? { FireIsBounded(s, t); }
  }

  /** The same wakers, alive or not, in the same states and with the same numbers. */
  ghost predicate SameStates(a: map<Wid, Waker>, b: map<Wid, Waker>) {
    a.Keys == b.Keys && forall w :: w in a ==> b[w] == a[w].(place := b[w].place)
  }

  predicate Dispensable(wakers: map<Wid, Waker>, v: Wid, mine: Wid) {
    v == mine || !Live(wakers, v) || Finishing(wakers, v)
  }

  /** The queue has lost a front part, and no waiting waker but the caller's own with it. */
  ghost predicate Spared(q0: seq<Wid>, q: seq<Wid>, wakers: map<Wid, Waker>, mine: Wid) {
    Suffix(q, q0) && forall v {:trigger Dispensable(wakers, v, mine)} :: v in q0 && v !in q ==> Dispensable(wakers, v, mine)
  }

  /** A step of a clear by `mine`, if no owner interferes. */
  lemma ClearTakes(s: Registry, mine: Wid, q0: seq<Wid>, wakers0: map<Wid, Waker>)
    requires Inv(s) && s.lock.Clearing? && mine in s.wakers && s.wakers[mine].seqNo == s.lock.mine
    requires Spared(q0, s.queue, wakers0, mine) && SameStates(wakers0, s.wakers)
    ensures var s' := LockedStep(s);
            && Spared(q0, s'.queue, wakers0, mine) && SameStates(wakers0, s'.wakers)
            && (s'.lock == s.lock || s'.lock.Free?) && (s'.lock.Free? || |s'.queue| < |s.queue|)
  {
    LockEnds(s);
    if s.queue != [] {
      var w := s.queue[0];
      ClearIsSafe(s);
      assert w in s.queue && w in s.wakers;
      if s.wakers[w].seqNo == s.lock.mine { OwnNumber(s, w, mine); }
      if LockedStep(s).queue != s.queue { SparedMore(q0, s.queue, wakers0, mine); }
      StatesStay(s);
    }
  }

  lemma StatesStay(s: Registry)
    requires s.lock.Clearing?
    ensures SameStates(s.wakers, LockedStep(s).wakers)
  {
    if s.queue != [] { LeftSame(s.wakers, s.queue, s.queue[1..]); }
    assert LockedStep(s).wakers == s.wakers || (s.queue != [] && LockedStep(s).wakers == Leave(s).wakers);
  }

  lemma LeftSame(wakers: map<Wid, Waker>, q: seq<Wid>, q': seq<Wid>)
    ensures SameStates(wakers, Left(wakers, q, q'))
  {
  }

  lemma SparedMore(q0: seq<Wid>, q: seq<Wid>, wakers: map<Wid, Waker>, mine: Wid)
    requires Spared(q0, q, wakers, mine) && q != [] && Dispensable(wakers, q[0], mine)
    ensures Spared(q0, q[1..], wakers, mine)
  {
    SuffixTail(q, q0);
    assert q == [q[0]] + q[1..];
  }

  // ---------------------------------------------------------------------- the registry, in place

  /** The registry and its wakers in memory; a method is one locked section or one access. */
  class Memory {
    var queue: seq<Wid>
    var seqNo: nat
    var flag: bool
    var wakers: map<Wid, Waker>
    var fires: map<Tid, Fire>
    var issued: map<nat, Wid>
    var lock: Lock

    ghost function View(): Registry
      reads this
    {
      Registry(queue, seqNo, flag, wakers, fires, issued, lock)
    }

    constructor ()
      ensures View() == New() && Inv(View())
    {
      queue, seqNo, flag, wakers, fires, issued, lock := [], 0, false, map[], map[], map[], Free;
    }

    /** `reg_waker`. */
    method RegWaker(w: Wid)
      requires Inv(View()) && (Enabled(View(), Register(w)) || Enabled(View(), Reregister(w)))
      modifies this`queue, this`seqNo, this`flag, this`wakers, this`issued
      ensures View() == Enqueue(old(View()), w) && Inv(View())
    {
      EnqueueKeeps(View(), w);
      seqNo := seqNo + 1;
      wakers, issued := wakers[w := Waker(true, Init, seqNo, Queued)], issued[seqNo := w];
      if queue == [] { flag := true; }
      queue := queue + [w];
    }

    /** The loop of `pop_first` and of `pop_again`: dead entries go until a live one comes. */
    method PopLive() returns (hit: Option<Wid>)
      modifies this`queue
      ensures hit == if FromLive(old(queue), wakers) == [] then None else Some(FromLive(old(queue), wakers)[0])
      ensures queue == if hit.None? then [] else FromLive(old(queue), wakers)[1..]
      ensures hit.Some? ==> Live(wakers, hit.value)
    {
      hit := None;
      while queue != [] && hit.None?
        invariant hit.None? ==> FromLive(queue, wakers) == FromLive(old(queue), wakers)
        invariant hit.Some? ==> Live(wakers, hit.value) && [hit.value] + queue == FromLive(old(queue), wakers)
        decreases |queue|
      {
        var w := queue[0];
        if Live(wakers, w) { hit := Some(w); }
        queue := queue[1..];
      }
    }

    /** The locked section of `pop_first` and of `pop_again`. */
    method PopWaker(t: Tid, first: bool, m: Memo)
      requires Inv(View()) && lock.Free? && t in fires
      requires if first then fires[t].PopFirst? && m == NOTHING else fires[t] == PopAgain(m)
      modifies this`queue, this`flag, this`wakers, this`fires
      ensures View() == Pop(old(View()), t, first, m) && Inv(View())
    {
      ApplyKeeps(View(), Go(t, false));
      PopLocked(t, first, m);
    }

    method PopLocked(t: Tid, first: bool, m: Memo)
      requires lock.Free?
      modifies this`queue, this`flag, this`wakers, this`fires
      ensures View() == Pop(old(View()), t, first, m)
    {
      var was, found := queue, |LiveQueued(Registry(queue, seqNo, flag, wakers, fires, issued, lock))|;
      var hit := PopLive();
      if queue == [] { flag := false; }
      if hit.None? {
        wakers, fires := Left(wakers, was, queue), fires[t := Finished(m)];
      } else {
        var w := hit.value;
        var memo := if first then Memo(if queue == [] then None else Some(seqNo), found, 1) else m.(took := m.took + 1);
        fires := fires[t := WakeLoad(w, first, wakers[w].seqNo, memo)];
        wakers := Left(wakers, was, queue)[w := wakers[w].(place := Held(t))];
      }
    }

    method PopFront()
      requires queue != []
      modifies this`queue, this`wakers
      ensures View() == Leave(old(View()))
    {
      wakers := Left(wakers, queue, queue[1..]);
      queue := queue[1..];
    }

    method Release()
      modifies this`lock, this`flag
      ensures View() == Unlock(old(View()))
    {
      if queue == [] { flag := false; }
      lock := Free;
    }

    /** One entry of the loop of `close`. */
    method CloseEntry()
      requires Inv(View()) && lock.Closing?
      modifies this`queue, this`wakers, this`flag, this`lock
      ensures View() == LockedStep(old(View())) && Inv(View())
    {
      ApplyKeeps(View(), Locked);
      if queue == [] { Release(); }
      else {
        var w := queue[0];
        if Live(wakers, w) && !Finishing(wakers, w) { wakers := wakers[w := wakers[w].(state := State.Closed)]; }
        PopFront();
      }
    }

    /** One entry of the loop of `_clear_wakers`. */
    method ClearEntry()
      requires Inv(View()) && lock.Clearing?
      modifies this`queue, this`wakers, this`flag, this`lock
      ensures View() == LockedStep(old(View())) && Inv(View())
    {
      ApplyKeeps(View(), Locked);
      var Clearing(mine, oneshot) := lock;
      if queue == [] { Release(); }
      else {
        var w := queue[0];
        if Live(wakers, w) {
          if wakers[w].seqNo == mine {
            PopFront();
            Release();
          } else if wakers[w].seqNo > mine || !Finishing(wakers, w) {
            Release();
          } else {
            PopFront();
            if oneshot { Release(); }
          }
        } else {
          PopFront();
        }
      }
    }

    /** `_clear_wakers` with no owner interfering: it ends, and takes off a front part of the queue only. */
    method ClearWakers(mine: Wid, oneshot: bool)
      requires Inv(View()) && Enabled(View(), BeginClear(mine, oneshot))
      modifies this`queue, this`wakers, this`flag, this`lock
      ensures Inv(View()) && lock.Free? && Spared(old(queue), queue, old(wakers), mine)
    {
      ApplyKeeps(View(), BeginClear(mine, oneshot));
      lock := Clearing(wakers[mine].seqNo, oneshot);
      assert queue == queue[0..];
      while !lock.Free?
        invariant Inv(View()) && Spared(old(queue), queue, old(wakers), mine) && SameStates(old(wakers), wakers)
        invariant !lock.Free? ==> lock == Clearing(old(wakers)[mine].seqNo, oneshot)
        decreases !lock.Free?, |queue|
      {
        ClearTakes(View(), mine, old(queue), old(wakers));
        ClearEntry();
      }
    }

    /** A step of `fire` outside the lock: a load of the flag, half a wake, or the look at the limit. */
    method FireAccess(t: Tid, spurious: bool)
      requires Inv(View()) && t in fires && !fires[t].PopFirst? && !fires[t].PopAgain? && !fires[t].Finished?
      modifies this`wakers, this`fires
      ensures View() == FireStep(old(View()), t, spurious) && Inv(View())
    {
      FireKeeps(View(), t, spurious);
      assert FireInv(View(), t);
      var f := fires[t];
      match f {
      case FirstFlag => fires := fires[t := if flag then PopFirst else Finished(NOTHING)];
      case AgainFlag(m) => fires := fires[t := if flag then PopAgain(m) else Finished(m)];
      case Decide(w, at, m) =>
        fires := fires[t := if wakers[w].seqNo >= m.last.value - 1 then Finished(m) else AgainFlag(m)];
      case WakeLoad(w, first, at, m) => fires := fires[t := WakeStore(w, first, at, wakers[w].state, m)];
      case WakeStore(w, first, at, seen, m) =>
        var state := wakers[w].state;
        if seen.Init? && (!state.Init? || spurious) { fires := fires[t := WakeStore(w, first, at, state, m)]; }
        else {
          var woken := seen.Init? || seen.Waiting?;
          wakers := wakers[w := wakers[w].(state := if woken then Woken else state, place := Idle)];
          fires := fires[t := if seen.Waiting? then Finished(m) else AfterWake(f)];
        }
      }
    }
  }
}
