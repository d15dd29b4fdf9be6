/**
 Waiting and closing, for a channel with any number of senders and one blocking receiver whose waker
 sits in a `RegistrySingle` (a one-place `WeakCell`).

 The queue is taken as atomic here, as the queue models justify. Senders push and then fire the
 receiver's waker; the last sender handle to go fires it too. The receiver registers a waker, looks
 once more at the queue and at the sender count, and parks.
 */
module Channel {
  import opened Base

  /** The way of one `fire`: the load and the exchange of `WeakCell::pop`, the upgrade, the wake. */
  datatype Fire = FireLoad | FireExchange(seen: nat) | Upgrade(k: nat) | Wake(k: nat)

  /**
   A call of a sender through handle `h`; a call that has given its handle back and still has to
   fire; or the upgrade of a weak handle into a new one.
   */
  datatype Call =
    | Sending(h: nat, v: Item)
    | Firing(owner: Option<nat>, fire: Fire)
    | UpgradeLoad
    | UpgradeExchange(seen: nat)

  datatype Result = Nothing | Got(value: Item) | Disconnected | Timeout

  /** The receiver; `k` numbers the waker of the current registration. */
  datatype Rx =
    | Rest(result: Result)
    | TryLoop
    | Register
    | FinalCheck(k: nat)
    | ClosedCheck(k: nat)
    | Parked(k: nat)
    | AfterPark(k: nat)
    | LastTry
    | AskClosed
    | AskOnce

  datatype Channel = Channel(
    cap: Option<nat>, pushed: seq<Item>, taken: nat, txCount: nat, handles: set<nat>, calls: map<Tid, Call>,
    nextHandle: nat,
    cell: Option<nat>, nextWaker: nat, held: Option<nat>, rx: Rx, token: bool)

  function New(cap: Option<nat>): Channel {
    Channel(cap, [], 0, 1, {0}, map[], 1, None, 0, None, Rest(Nothing), false)
  }

  predicate Queued(s: Channel) { s.taken < |s.pushed| }

  predicate Pending(c: Call) { c.Firing? && (c.fire.FireLoad? || c.fire.FireExchange?) }

  predicate WakesK(c: Call, k: nat) { c.Firing? && (c.fire == Upgrade(k) || c.fire == Wake(k)) }

  /** Some call is between its push, or its close, and its look at the waker cell. */
  ghost predicate SomeoneFires(calls: map<Tid, Call>) { exists t :: t in calls && Pending(calls[t]) }

  /** Some call has taken waker `k` out of the cell and is about to wake it. */
  ghost predicate SomeoneWakes(calls: map<Tid, Call>, k: nat) { exists t :: t in calls && WakesK(calls[t], k) }

  /** The handle a call borrows is alive. */
  ghost predicate CallInv(s: Channel, t: Tid)
    requires t in s.calls
  {
    match s.calls[t]
    case Sending(h, _) => h in s.handles
    case Firing(owner, _) => owner.Some? ==> owner.value in s.handles
    case UpgradeLoad => true
    case UpgradeExchange(seen) => seen > 0
  }

  ghost predicate Shape(s: Channel) {
    && s.taken <= |s.pushed|
    && s.txCount == |s.handles|
    && (forall h :: h in s.handles ==> h < s.nextHandle)
    && (s.cell.Some? ==> s.cell.value < s.nextWaker)
    && (s.held.Some? ==> s.held.value < s.nextWaker)
  }

  /** The receiver has registered waker `k`, and every item found by a later push is announced. */
  ghost predicate Registered(s: Channel, k: nat) {
    && s.held == Some(k)
    && (s.cell.None? || s.cell == Some(k))
    && (s.cell.None? ==> s.token || SomeoneWakes(s.calls, k))
  }

  ghost predicate RxInv(s: Channel) {
    match s.rx
    case FinalCheck(k) => Registered(s, k)
    case ClosedCheck(k) => Registered(s, k) && (s.cell.Some? && Queued(s) ==> SomeoneFires(s.calls))
    case Parked(k) => Registered(s, k) && (s.cell.Some? && (Queued(s) || s.txCount == 0) ==> SomeoneFires(s.calls))
    case AfterPark(k) =>
      && s.held == Some(k) && (s.cell.None? || s.cell == Some(k))
      && (s.cell.Some? && (Queued(s) || s.txCount == 0) ==> SomeoneFires(s.calls))
    case LastTry => s.txCount == 0
    case Rest(r) => r.Disconnected? ==> s.txCount == 0 && !Queued(s)
    case _ => true
  }

  ghost predicate Inv(s: Channel) {
    && Shape(s)
    && (forall t {:trigger s.calls[t]} :: t in s.calls ==> CallInv(s, t))
    && RxInv(s)
  }

  // ------------------------------------------------------------------------------------ the senders

  function Goto(s: Channel, t: Tid, c: Call): Channel { s.(calls := s.calls[t := c]) }

  function End(s: Channel, t: Tid): Channel { s.(calls := s.calls - {t}) }

  /** The exchange of `WeakCell::pop` saw `cell`: it goes on with it, or gives up on an empty cell. */
  function PopAgain(s: Channel, t: Tid, owner: Option<nat>): Channel {
    if s.cell.None? then End(s, t) else Goto(s, t, Firing(owner, FireExchange(s.cell.value)))
  }

  /** One access of a `fire`. `alike` allows a new waker to sit at the address of an old one. */
  function FireStep(s: Channel, t: Tid, alike: bool): Channel
    requires t in s.calls && s.calls[t].Firing?
  {
    var Firing(owner, fire) := s.calls[t];
    match fire
    case FireLoad => PopAgain(s, t, owner)
    case FireExchange(seen) =>
      if s.cell.Some? && (s.cell.value == seen || alike)
      then Goto(s.(cell := None), t, Firing(owner, Upgrade(s.cell.value)))
      else PopAgain(s, t, owner)
    case Upgrade(k) => if s.held == Some(k) then Goto(s, t, Firing(owner, Wake(k))) else End(s, t)
    case Wake(k) => End(s.(token := true), t)
  }

  /** One access of a call: the push of a send, a step of its `fire`, or of `try_add_tx`. */
  function CallStep(s: Channel, t: Tid, alike: bool): Channel
    requires t in s.calls
  {
    match s.calls[t]
    case Sending(h, v) =>
      if s.cap.Some? && |s.pushed| - s.taken >= s.cap.value then End(s, t)
      else Goto(s.(pushed := s.pushed + [v]), t, Firing(Some(h), FireLoad))
    case Firing(_, _) => FireStep(s, t, alike)
    case UpgradeLoad => if s.txCount == 0 then End(s, t) else Goto(s, t, UpgradeExchange(s.txCount))
    case UpgradeExchange(seen) =>
      if s.txCount == seen then End(AddTx(s), t)
      else if s.txCount == 0 then End(s, t) else Goto(s, t, UpgradeExchange(s.txCount))
  }

  /** A new handle, by `add_tx` or by the exchange of `try_add_tx`. */
  function AddTx(s: Channel): Channel {
    s.(txCount := s.txCount + 1, handles := s.handles + {s.nextHandle}, nextHandle := s.nextHandle + 1)
  }

  /** `close_tx`: the handle goes; the last one out fires. */
  function CloseTx(s: Channel, h: nat, t: Tid): Channel {
    var s' := s.(txCount := if s.txCount == 0 then 0 else s.txCount - 1, handles := s.handles - {h});
    if s.txCount <= 1 then Goto(s', t, Firing(None, FireLoad)) else s'
  }

  // ----------------------------------------------------------------------------------- the receiver

  /** The queue's `try_recv`: the head item, or on to point `p`. */
  function TryPop(s: Channel, p: Rx): Channel {
    if Queued(s) then s.(taken := s.taken + 1, rx := Rest(Got(s.pushed[s.taken])), held := None)
    else s.(rx := p, held := if p.Rest? then None else s.held)
  }

  /** One access of `_recv_blocking` or of `ChannelShared::try_recv`. */
  function RxStep(s: Channel, again: bool): Channel {
    match s.rx
    case Rest(_) => s
    case Parked(_) => s
    case TryLoop => TryPop(s, if again then TryLoop else Register)
    case Register => Registering(s)
    case FinalCheck(k) => TryPop(s, ClosedCheck(k))
    case ClosedCheck(k) => s.(rx := if s.txCount == 0 then LastTry else Parked(k))
    case AfterPark(k) => s.(rx := if s.cell.None? then TryLoop else Parked(k))
    case LastTry => TryPop(s, Rest(Disconnected))
    case AskClosed => s.(rx := if s.txCount == 0 then LastTry else AskOnce)
    case AskOnce => TryPop(s, Rest(Nothing))
  }

  // ---------------------------------------------------------------- every step keeps the invariant

  lemma NewKeeps(cap: Option<nat>)
    ensures Inv(New(cap))
  {
  }

  /**
   A step of call `t` leaves the receiver's point in order: it takes the waker out only to wake it,
   it goes on firing until the cell is empty, and who adds an item or removes the last handle fires.
   */
  lemma SenderKeepsRx(s: Channel, s': Channel, t: Tid)
    requires RxInv(s) && s'.rx == s.rx && s'.held == s.held && s'.taken == s.taken && |s.pushed| <= |s'.pushed|
    requires forall u :: u != t ==> (u in s.calls <==> u in s'.calls)
    requires forall u :: u in s.calls && u != t ==> s'.calls[u] == s.calls[u]
    requires s.token ==> s'.token
    requires s'.cell == s.cell || (s'.cell.None? && t in s'.calls && WakesK(s'.calls[t], s.cell.value))
    requires s.txCount == 0 ==> s'.txCount == 0 && s'.pushed == s.pushed
    requires (Queued(s') && !Queued(s)) || (s'.txCount == 0 && s.txCount > 0) ==> t in s'.calls && Pending(s'.calls[t])
    requires t in s.calls && Pending(s.calls[t]) && s'.cell.Some? ==> t in s'.calls && Pending(s'.calls[t])
    requires forall k: nat :: t in s.calls && WakesK(s.calls[t], k) && s.held == Some(k) ==>
               s'.token || (t in s'.calls && WakesK(s'.calls[t], k))
    ensures RxInv(s')
  {
    if SomeoneFires(s.calls) && s'.cell.Some? {
      var u :| u in s.calls && Pending(s.calls[u]);
      assert u in s'.calls && Pending(s'.calls[u]);
    }
    if s.held.Some? && SomeoneWakes(s.calls, s.held.value) {
      var u :| u in s.calls && WakesK(s.calls[u], s.held.value);
      assert s'.token || (u in s'.calls && WakesK(s'.calls[u], s.held.value));
    }
  }

  /** The handles that other calls borrow are still there. */
  lemma OthersKept(s: Channel, s': Channel, t: Tid)
    requires Inv(s) && s.handles <= s'.handles && (t in s'.calls ==> CallInv(s', t))
    requires forall u :: u in s'.calls && u != t ==> u in s.calls && s'.calls[u] == s.calls[u]
    ensures forall u :: u in s'.calls ==> CallInv(s', u)
  {
    forall u | u in s'.calls && u != t ensures CallInv(s', u) { assert CallInv(s, u); }
  }

  lemma PopKeeps(s: Channel, t: Tid, alike: bool)
    requires Inv(s) && t in s.calls && Pending(s.calls[t])
    ensures Inv(FireStep(s, t, alike))
  {
    var s' := FireStep(s, t, alike);
    assert CallInv(s, t);
    OthersKept(s, s', t);
    SenderKeepsRx(s, s', t);
  }

  lemma FireKeeps(s: Channel, t: Tid, alike: bool)
    requires Inv(s) && t in s.calls && s.calls[t].Firing?
    ensures Inv(FireStep(s, t, alike))
  {
    assert CallInv(s, t);
    if Pending(s.calls[t]) { PopKeeps(s, t, alike); }
    else {
      OthersKept(s, FireStep(s, t, alike), t);
      SenderKeepsRx(s, FireStep(s, t, alike), t);
    }
  }

  /** A send whose handle lives can only be under way while the count is above zero. */
  lemma HandlesCount(s: Channel, h: nat)
    requires Shape(s) && h in s.handles
    ensures s.txCount > 0 && |s.handles - {h}| == s.txCount - 1
  {
  }

  lemma SendKeeps(s: Channel, t: Tid, alike: bool)
    requires Inv(s) && t in s.calls && s.calls[t].Sending?
    ensures Inv(CallStep(s, t, alike))
  {
    assert CallInv(s, t);
    HandlesCount(s, s.calls[t].h);
    OthersKept(s, CallStep(s, t, alike), t);
    SenderKeepsRx(s, CallStep(s, t, alike), t);
  }

  lemma UpgradeKeeps(s: Channel, t: Tid, alike: bool)
    requires Inv(s) && t in s.calls && (s.calls[t].UpgradeLoad? || s.calls[t].UpgradeExchange?)
    ensures Inv(CallStep(s, t, alike))
  {
    assert CallInv(s, t);
    assert s.nextHandle !in s.handles;
    OthersKept(s, CallStep(s, t, alike), t);
    SenderKeepsRx(s, CallStep(s, t, alike), t);
  }

  lemma CallKeeps(s: Channel, t: Tid, alike: bool)
    requires Inv(s) && t in s.calls
    ensures Inv(CallStep(s, t, alike))
  {
    if s.calls[t].Firing? { FireKeeps(s, t, alike); }
    else if s.calls[t].Sending? { SendKeeps(s, t, alike); }
    else { UpgradeKeeps(s, t, alike); }
  }

  /** No call borrows handle `h`. */
  predicate Unused(s: Channel, h: nat) {
    forall t :: t in s.calls ==>
      !(s.calls[t].Sending? && s.calls[t].h == h) && !(s.calls[t].Firing? && s.calls[t].owner == Some(h))
  }

  lemma CloseKeeps(s: Channel, h: nat, t: Tid)
    requires Inv(s) && h in s.handles && Unused(s, h) && t !in s.calls
    ensures Inv(CloseTx(s, h, t))
  {
    var s' := CloseTx(s, h, t);
    HandlesCount(s, h);
    forall u | u in s'.calls ensures CallInv(s', u) {
      if u != t { assert CallInv(s, u); }
    }
    SenderKeepsRx(s, s', t);
  }

  /** The receiver has moved to `s'`, leaving the calls alone. */
  lemma Moved(s: Channel, s': Channel)
    requires Inv(s) && s'.calls == s.calls && s'.handles == s.handles && Shape(s') && RxInv(s')
    ensures Inv(s')
  {
    forall u | u in s'.calls ensures CallInv(s', u) { assert CallInv(s, u); }
  }

  lemma TryPopKeeps(s: Channel, p: Rx)
    requires Inv(s) && (!Queued(s) ==> RxInv(s.(rx := p, held := if p.Rest? then None else s.held)))
    ensures Inv(TryPop(s, p))
  {
    Moved(s, TryPop(s, p));
  }

  lemma RxKeeps(s: Channel, again: bool)
    requires Inv(s) && !s.rx.Rest? && !s.rx.Parked?
    ensures Inv(RxStep(s, again))
  {
    match s.rx {
    case TryLoop => TryPopKeeps(s, if again then TryLoop else Register);
    case Register => RegisterKeeps(s);
    case FinalCheck(k) => TryPopKeeps(s, ClosedCheck(k));
    case ClosedCheck(k) => Moved(s, s.(rx := if s.txCount == 0 then LastTry else Parked(k)));
    case AfterPark(k) => Moved(s, s.(rx := if s.cell.None? then TryLoop else Parked(k)));
    case LastTry => TryPopKeeps(s, Rest(Disconnected));
    case AskClosed => Moved(s, s.(rx := if s.txCount == 0 then LastTry else AskOnce));
    case AskOnce => TryPopKeeps(s, Rest(Nothing));
    }
  }

  /** `_reg_waker_blocking` with a new waker. */
  function Registering(s: Channel): Channel {
    var k := s.nextWaker;
    s.(cell := Some(k), held := Some(k), nextWaker := k + 1, rx := FinalCheck(k))
  }

  lemma RegisterKeeps(s: Channel)
    requires Inv(s) && s.rx.Register?
    ensures Inv(Registering(s))
  {
    Moved(s, Registering(s));
  }

  // -------------------------------------------------------------------------------------------- moves

  datatype Move =
    | BeginSend(t: Tid, h: nat, v: Item)
    | BeginUpgrade(t: Tid)
    | Clone(h: nat)
    | DropTx(h: nat, t: Tid)
    | Go(t: Tid, alike: bool)
    | BeginRecv
    | BeginTry
    | Rx(again: bool)
    | Unpark
    | TimeOut

  predicate Enabled(s: Channel, m: Move) {
    match m
    case BeginSend(t, h, _) => t !in s.calls && h in s.handles
    case BeginUpgrade(t) => t !in s.calls
    case Clone(h) => h in s.handles
    case DropTx(h, t) => h in s.handles && Unused(s, h) && t !in s.calls
    case Go(t, _) => t in s.calls
    case BeginRecv => s.rx.Rest?
    case BeginTry => s.rx.Rest?
    case Rx(_) => !s.rx.Rest? && !s.rx.Parked?
    case Unpark => s.rx.Parked?
    case TimeOut => s.rx.Parked?
  }

  function Apply(s: Channel, m: Move): Channel
    requires Enabled(s, m)
  {
    match m
    case BeginSend(t, h, v) => Goto(s, t, Sending(h, v))
    case BeginUpgrade(t) => Goto(s, t, UpgradeLoad)
    case Clone(h) => AddTx(s)
    case DropTx(h, t) => CloseTx(s, h, t)
    case Go(t, alike) => CallStep(s, t, alike)
    case BeginRecv => s.(rx := TryLoop)
    case BeginTry => s.(rx := AskClosed)
    case Rx(again) => RxStep(s, again)
    case Unpark => s.(rx := AfterPark(s.rx.k), token := false)
    case TimeOut => s.(rx := Rest(Timeout), held := None)
  }

  lemma BeginKeeps(s: Channel, t: Tid, c: Call)
    requires Inv(s) && t !in s.calls && (c.UpgradeLoad? || (c.Sending? && c.h in s.handles))
    ensures Inv(Goto(s, t, c))
  {
    var s' := Goto(s, t, c);
    forall u | u in s'.calls ensures CallInv(s', u) {
      if u != t { assert CallInv(s, u); }
    }
    SenderKeepsRx(s, s', t);
  }

  lemma CloneKeeps(s: Channel, h: nat)
    requires Inv(s) && h in s.handles
    ensures Inv(AddTx(s))
  {
    var s' := AddTx(s);
    HandlesCount(s, h);
    assert s.nextHandle !in s.handles;
    forall u | u in s'.calls ensures CallInv(s', u) { assert CallInv(s, u); }
    SenderKeepsRx(s, s', 0);
  }

  lemma WakeUpKeeps(s: Channel, m: Move)
    requires Inv(s) && Enabled(s, m) && (m.BeginRecv? || m.BeginTry? || m.Unpark? || m.TimeOut?)
    ensures Inv(Apply(s, m))
  {
    Moved(s, Apply(s, m));
  }

  lemma ApplyKeeps(s: Channel, m: Move)
    requires Inv(s) && Enabled(s, m)
    ensures Inv(Apply(s, m))
  {
    match m {
    case BeginSend(t, h, v) => BeginKeeps(s, t, Sending(h, v));
    case BeginUpgrade(t) => BeginKeeps(s, t, UpgradeLoad);
    case Clone(h) => CloneKeeps(s, h);
    case DropTx(h, t) => CloseKeeps(s, h, t);
    case Go(t, alike) => CallKeeps(s, t, alike);
    case Rx(again) => RxKeeps(s, again);
    case _ => WakeUpKeeps(s, m);
    }
  }

  // ------------------------------------------------------------------------- what the machine promises

  /**
   No wake is lost. If the receiver is parked with no wake token, while an item is queued or no sender
   is left, then some call is on its way to the waker, or holds it and will wake the receiver.
   */
  lemma ParkedIsWoken(s: Channel)
    requires Inv(s) && s.rx.Parked? && !s.token && (Queued(s) || s.txCount == 0)
    ensures if s.cell == Some(s.rx.k) then SomeoneFires(s.calls) else SomeoneWakes(s.calls, s.rx.k)
  {
  }

  /** Steps a firing call still takes at most before the receiver, with waker `k`, has its token. */
  function ToWake(f: Fire, k: nat): nat {
    match f
    case FireLoad => 5
    case FireExchange(seen) => if seen == k then 3 else 4
    case Upgrade(_) => 2
    case Wake(_) => 1
  }

  /** While the receiver is parked, a call that will wake it gets nearer to that with every step. */
  lemma FireAdvances(s: Channel, t: Tid, alike: bool)
    requires Inv(s) && s.rx.Parked? && t in s.calls
    requires (Pending(s.calls[t]) && s.cell.Some?) || WakesK(s.calls[t], s.rx.k)
    ensures var s' := FireStep(s, t, alike);
            || s'.token
            || (t in s'.calls && s'.calls[t].Firing?
                && ToWake(s'.calls[t].fire, s.rx.k) < ToWake(s.calls[t].fire, s.rx.k))
  {
  }

  /** A token brings a parked receiver whose waker was taken back to the queue. */
  lemma TokenSuffices(s: Channel)
    requires Inv(s) && s.rx.Parked? && s.cell.None?
    ensures RxStep(Apply(s, Unpark), false).rx == TryLoop
  {
  }

  /** The count is the number of live handles. */
  lemma CountIsTrue(s: Channel)
    requires Inv(s)
    ensures s.txCount == |s.handles| && (s.txCount == 0 <==> s.handles == {})
  {
  }

  /** Once zero the count stays zero, and nothing more is ever pushed. */
  lemma ClosedForGood(s: Channel, m: Move)
    requires Inv(s) && Enabled(s, m) && s.txCount == 0
    ensures Apply(s, m).txCount == 0 && Apply(s, m).pushed == s.pushed
  {
    CountIsTrue(s);
    if m.Go? { assert CallInv(s, m.t); }
  }

  /** "Disconnected" is answered only when no sender is left and every item sent has been taken. */
  lemma DisconnectedMeansDrained(s: Channel)
    requires Inv(s) && s.rx == Rest(Disconnected)
    ensures s.handles == {} && s.taken == |s.pushed|
  {
  }

  /** What the receiver gets is the oldest item. */
  lemma GetsTheOldest(s: Channel, again: bool)
    requires Inv(s) && RxStep(s, again).taken != s.taken
    ensures Queued(s) && RxStep(s, again).taken == s.taken + 1
    ensures RxStep(s, again).rx == Rest(Got(s.pushed[s.taken]))
  {
  }

  // -------------------------------------------------------------------------------------- whole runs

  /** The state after the moves `ms` from `s`; `None` if some move was not possible in its turn. */
  ghost function Run(s: Channel, ms: seq<Move>): (r: Option<Channel>)
    requires Inv(s)
    ensures r.Some? ==> Inv(r.value)
  {
    if ms == [] then Some(s)
    else
      var n := |ms| - 1;
      var before := Run(s, ms[..n]);
      if before.Some? && Enabled(before.value, ms[n]) then
        ApplyKeeps(before.value, ms[n]);
        Some(Apply(before.value, ms[n]))
      else None
  }

  /** After "disconnected", however the run goes on, nothing is sent and nothing is received. */
  lemma {:induction false} DisconnectedForGood(s: Channel, ms: seq<Move>)
    requires Inv(s) && s.rx == Rest(Disconnected) && Run(s, ms).Some?
    ensures var s' := Run(s, ms).value;
            s'.txCount == 0 && s'.pushed == s.pushed && s'.taken == s.taken == |s.pushed|
  {
    if ms != [] {
      var n := |ms| - 1;
      DisconnectedForGood(s, ms[..n]);
      var before := Run(s, ms[..n]).value;
      ClosedForGood(before, ms[n]);
      TakenOnlyQueued(before, ms[n]);
    }
  }

  lemma TakenOnlyQueued(s: Channel, m: Move)
    requires Inv(s) && Enabled(s, m) && !Queued(s)
    ensures Apply(s, m).taken == s.taken
  {
  }

  // ------------------------------------------------------------------------ the channel, in place

  /** The shared state and the calls under way; each method is one access, made in place. */
  class Memory {
    const cap: Option<nat>
    var pushed: seq<Item>
    var taken: nat
    var txCount: nat
    var handles: set<nat>
    var calls: map<Tid, Call>
    var nextHandle: nat
    var cell: Option<nat>
    var nextWaker: nat
    var held: Option<nat>
    var rx: Rx
    var token: bool

    ghost function View(): Channel
      reads this
    {
      Channel(cap, pushed, taken, txCount, handles, calls, nextHandle, cell, nextWaker, held, rx, token)
    }

    constructor (cap: Option<nat>)
      ensures View() == New(cap) && Inv(View())
    {
      this.cap := cap;
      pushed, taken, txCount, handles, calls, nextHandle := [], 0, 1, {0}, map[], 1;
      cell, nextWaker, held, rx, token := None, 0, None, Rest(Nothing), false;
    }

    /** The queue's `try_send`. */
    method Push(t: Tid)
      requires Inv(View()) && t in calls && calls[t].Sending?
      modifies this`pushed, this`calls
      ensures View() == CallStep(old(View()), t, false) && Inv(View())
    {
      CallKeeps(View(), t, false);
      var Sending(h, v) := calls[t];
      if cap.Some? && |pushed| - taken >= cap.value { calls := calls - {t}; }
      else { pushed, calls := pushed + [v], calls[t := Firing(Some(h), FireLoad)]; }
    }

    /** `RegistrySingle::fire`, and `WeakCell::pop` in it. */
    method FireAccess(t: Tid, alike: bool)
      requires Inv(View()) && t in calls && calls[t].Firing?
      modifies this`cell, this`token, this`calls
      ensures View() == FireStep(old(View()), t, alike) && Inv(View())
    {
      FireKeeps(View(), t, alike);
      var Firing(owner, fire) := calls[t];
      if fire.Wake? { token, calls := true, calls - {t}; }
      else if fire.Upgrade? {
        calls := if held == Some(fire.k) then calls[t := Firing(owner, Wake(fire.k))] else calls - {t};
      } else if cell.None? { calls := calls - {t}; }
      else if fire.FireExchange? && (cell.value == fire.seen || alike) {
        calls := calls[t := Firing(owner, Upgrade(cell.value))];
        cell := None;
      } else { calls := calls[t := Firing(owner, FireExchange(cell.value))]; }
    }

    /** `try_add_tx`. */
    method TryAddTx(t: Tid)
      requires Inv(View()) && t in calls && (calls[t].UpgradeLoad? || calls[t].UpgradeExchange?)
      modifies this`txCount, this`handles, this`nextHandle, this`calls
      ensures View() == CallStep(old(View()), t, false) && Inv(View())
    {
      CallKeeps(View(), t, false);
      var c := calls[t];
      if c.UpgradeExchange? && txCount == c.seen {
        txCount, handles, nextHandle := txCount + 1, handles + {nextHandle}, nextHandle + 1;
        calls := calls - {t};
      } else {
        calls := if txCount == 0 then calls - {t} else calls[t := UpgradeExchange(txCount)];
      }
    }

    /** `add_tx`, for a clone of handle `h`. */
    method CloneTx(h: nat)
      requires Inv(View()) && h in handles
      modifies this`txCount, this`handles, this`nextHandle
      ensures View() == AddTx(old(View())) && Inv(View())
    {
      CloneKeeps(View(), h);
      txCount, handles, nextHandle := txCount + 1, handles + {nextHandle}, nextHandle + 1;
    }

    /** `close_tx`. */
    method CloseHandle(h: nat, t: Tid)
      requires Inv(View()) && h in handles && Unused(View(), h) && t !in calls
      modifies this`txCount, this`handles, this`calls
      ensures View() == CloseTx(old(View()), h, t) && Inv(View())
    {
      CloseKeeps(View(), h, t);
      HandlesCount(View(), h);
      var before := txCount;
      txCount, handles := txCount - 1, handles - {h};
      if before <= 1 { calls := calls[t := Firing(None, FireLoad)]; }
    }

    /** The queue's `try_recv`, at the four places where the receiver calls it. */
    method TryReceive(again: bool)
      requires Inv(View()) && (rx.TryLoop? || rx.FinalCheck? || rx.LastTry? || rx.AskOnce?)
      modifies this`taken, this`rx, this`held
      ensures View() == RxStep(old(View()), again) && Inv(View())
    {
      RxKeeps(View(), again);
      if taken < |pushed| { taken, rx, held := taken + 1, Rest(Got(pushed[taken])), None; }
      else {
        match rx {
        case TryLoop => rx := if again then TryLoop else Register;
        case FinalCheck(k) => rx := ClosedCheck(k);
        case LastTry => rx, held := Rest(Disconnected), None;
        case AskOnce => rx, held := Rest(Nothing), None;
        }
      }
    }

    /** `_reg_waker_blocking`: a new waker replaces what is in the cell. */
    method RegisterWaker()
      requires Inv(View()) && rx.Register?
      modifies this`cell, this`held, this`nextWaker, this`rx
      ensures View() == RxStep(old(View()), false) && Inv(View())
    {
      RxKeeps(View(), false);
      cell, held, rx := Some(nextWaker), Some(nextWaker), FinalCheck(nextWaker);
      nextWaker := nextWaker + 1;
    }

    /** `is_tx_closed`, and `get_waker_state` after a park. */
    method Look()
      requires Inv(View()) && (rx.ClosedCheck? || rx.AskClosed? || rx.AfterPark?)
      modifies this`rx
      ensures View() == RxStep(old(View()), false) && Inv(View())
    {
      RxKeeps(View(), false);
      match rx {
      case ClosedCheck(k) => rx := if txCount == 0 then LastTry else Parked(k);
      case AskClosed => rx := if txCount == 0 then LastTry else AskOnce;
      case AfterPark(k) => rx := if cell.None? then TryLoop else Parked(k);
      }
    }

    method Wakeup()
      requires Inv(View()) && rx.Parked?
      modifies this`rx, this`token
      ensures View() == Apply(old(View()), Unpark) && Inv(View())
    {
      ApplyKeeps(View(), Unpark);
      rx, token := AfterPark(rx.k), false;
    }
  }
}
