/**
 `OneShotInner`: one box shared by a sender and a receiver, who settle by four flags who hands over
 the value, who wakes whom, and who frees the box. Every access to the flags, to the value cell and
 to the waker cell is one step. A failed assertion, `panic!`, `unreachable!` or `unwrap` of the
 source leads to a point of its own, `TxPanic` or `RxPanic`.
 */
module OneShot {
  import opened Base

  type Waker = nat

  /** The state byte: `LOCK_FLAG`, `WAKER_SET_FLAG`, `CLOSE_FLAG`, `EXIST_FLAG`. */
  datatype Flags = Flags(lock: bool, waker: bool, close: bool, exist: bool)

  const CLEAR := Flags(false, false, false, false)
  const WAITING := Flags(false, true, false, false)

  /** The sender: what is left of `send` or of its `Drop`. */
  datatype Tx =
    | TxHeld
    | TxWrite(v: Item)
    | TxTry(seen: Flags, exist: bool)
    | TxWake(exist: bool)
    | TxLast(exist: bool)
    | TxFree
    | TxDone
    | TxPanic

  datatype Outcome = Received(item: Option<Item>) | Dropped | TimedOut

  /**
   The receiver. At rest it may have left a waker registered (a future that answered Pending);
   `m` is the waker of the current poll or of the blocking thread.
   */
  datatype Rx =
    | RxRest(registered: Option<Waker>)
    | TryLoad(registered: Option<Waker>)
    | PollLoad(m: Waker)
    | PollLook(m: Waker)
    | PollCancel(m: Waker)
    | Put(m: Waker, blocking: bool)
    | Set(m: Waker, blocking: bool)
    | RecvLoad(m: Waker)
    | RecvAgain(m: Waker)
    | Parked(m: Waker)
    | RecvCancel(m: Waker)
    | Take(seen: Flags)
    | Close(seen: Flags, item: Option<Item>)
    | FreeAfter(outcome: Outcome)
    | DropFlag
    | RxDone(outcome: Outcome)
    | RxPanic

  datatype Channel = Channel(
    state: Flags, value: Option<Item>, cell: Option<Waker>, tx: Tx, rx: Rx,
    sent: Option<Item>, freed: nat, discarded: nat, wakes: set<Waker>)

  function New(): Channel {
    Channel(CLEAR, None, None, TxHeld, RxRest(None), None, 0, 0, {})
  }

  // ------------------------------------------------------------------------------------- the sender

  /** What `_notify_rx` does with the word it has just seen. */
  function TxDecide(seen: Flags, exist: bool): Tx {
    if seen == CLEAR || seen == WAITING then TxTry(seen, exist) else if seen.close then TxFree else TxPanic
  }

  /** The box goes, and with it a value still inside. */
  function Free(s: Channel): Channel {
    s.(freed := s.freed + 1, discarded := s.discarded + (if s.value.Some? then 1 else 0), value := None)
  }

  /** One access of `send` or of the sender's `Drop`. */
  function TxStep(s: Channel, spurious: bool): Channel {
    match s.tx
    case TxWrite(v) => s.(value := Some(v), sent := Some(v), tx := TxTry(CLEAR, true))
    case TxTry(seen, exist) =>
      if s.state != seen || spurious then s.(tx := TxDecide(s.state, exist))
      else if seen == CLEAR then s.(state := Flags(true, false, true, exist), tx := TxDone)
      else s.(state := Flags(true, true, false, exist), tx := TxWake(exist))
    case TxWake(exist) =>
      if s.cell.None? then s.(tx := TxPanic) else s.(wakes := s.wakes + {s.cell.value}, tx := TxLast(exist))
    case TxLast(exist) =>
      if s.state == Flags(true, true, false, exist) then s.(state := Flags(true, false, true, exist), tx := TxDone)
      else s.(tx := if s.state.close then TxFree else TxPanic)
    case TxFree => Free(s).(tx := TxDone)
    case _ => s
  }

  // ----------------------------------------------------------------------------------- the receiver

  /** `_consume_value` begins; it asserts that it was called with the lock flag seen. */
  function Consume(seen: Flags): Rx { if seen.lock then Take(seen) else RxPanic }

  /** What `_consume_value` does after taking the value, with the word it has just seen. */
  function CloseDecide(seen: Flags, item: Option<Item>): Rx {
    if seen.close then FreeAfter(Received(item)) else Close(seen, item)
  }

  predicate DropExpects(was: Flags) {
    if was.close then was.lock && !was.waker else was == CLEAR || was == WAITING || (was.lock && was.waker)
  }

  /** One access of `try_recv`, `poll`, `_recv_blocking` or the receiver's `Drop`. */
  function RxStep(s: Channel, late: bool): Channel {
    match s.rx
    case TryLoad(registered) => s.(rx := if s.state.lock then Consume(s.state) else RxRest(registered))
    case PollLoad(m) =>
      s.(rx := if s.state.lock then Consume(s.state) else if s.state.waker then PollLook(m) else Put(m, false))
    case PollLook(m) =>
      s.(rx := if s.cell.None? then RxPanic else if s.cell == Some(m) then RxRest(Some(m)) else PollCancel(m))
    case PollCancel(m) =>
      if s.state == WAITING then s.(state := CLEAR, rx := Put(m, false)) else s.(rx := Consume(s.state))
    case Put(m, blocking) => s.(cell := Some(m), rx := Set(m, blocking))
    case Set(m, blocking) =>
      if s.state == CLEAR then s.(state := WAITING, rx := if blocking then RecvAgain(m) else RxRest(Some(m)))
      else s.(rx := Consume(s.state))
    case RecvLoad(m) =>
      s.(rx := if s.state.lock then Consume(s.state) else if late then Put(m, true) else RecvLoad(m))
    case RecvAgain(m) =>
      s.(rx := if s.state.lock then Consume(s.state) else if late then RecvCancel(m) else Parked(m))
    case RecvCancel(m) =>
      if s.state == WAITING then s.(state := WAITING.(waker := false, close := true), rx := RxDone(TimedOut))
      else s.(rx := Consume(s.state))
    case Take(seen) =>
      if seen.exist then s.(value := None, rx := CloseDecide(seen, s.value)) else s.(rx := CloseDecide(seen, None))
    case Close(seen, item) =>
      if s.state == seen then s.(state := seen.(close := true), rx := RxDone(Received(item)))
      else s.(rx := CloseDecide(s.state, item))
    case DropFlag =>
      var s' := s.(state := s.state.(close := true));
      if !DropExpects(s.state) then s.(rx := RxPanic)
      else if s.state.close then s'.(rx := FreeAfter(Dropped)) else s'.(rx := RxDone(Dropped))
    case FreeAfter(outcome) => Free(s).(rx := RxDone(outcome))
    case _ => s
  }

  // ------------------------------------------------------------------------------------- calls begin

  datatype Move =
    | Send(v: Item)
    | DropTx
    | Tx(spurious: bool)
    | TryRecv
    | Poll(m: Waker)
    | Recv(m: Waker)
    | Rx(late: bool)
    | Unpark
    | DropRx

  /** A blocking receive is not begun on a receiver that a poll has left registered. */
  predicate Enabled(s: Channel, m: Move) {
    match m
    case Send(_) => s.tx.TxHeld?
    case DropTx => s.tx.TxHeld?
    case Tx(_) => !s.tx.TxHeld? && !s.tx.TxDone?
    case TryRecv => s.rx.RxRest?
    case Poll(_) => s.rx.RxRest?
    case Recv(_) => s.rx == RxRest(None)
    case Rx(_) => !s.rx.RxRest? && !s.rx.Parked? && !s.rx.RxDone?
    case Unpark => s.rx.Parked?
    case DropRx => s.rx.RxRest?
  }

  function Apply(s: Channel, m: Move): Channel
    requires Enabled(s, m)
  {
    match m
    case Send(v) => s.(tx := TxWrite(v))
    case DropTx => s.(tx := TxTry(CLEAR, false))
    case Tx(spurious) => TxStep(s, spurious)
    case TryRecv => s.(rx := TryLoad(s.rx.registered))
    case Poll(w) => s.(rx := PollLoad(w), wakes := s.wakes - {w})
    case Recv(w) => s.(rx := RecvLoad(w))
    case Rx(late) => RxStep(s, late)
    case Unpark => s.(rx := RecvAgain(s.rx.m), wakes := s.wakes - {s.rx.m})
    case DropRx => s.(rx := DropFlag)
  }

  // ---------------------------------------------------------------------------------- the invariant

  /** The value the receiver has taken out of the box. */
  function Held(r: Rx): Option<Item> {
    match r
    case Close(_, item) => item
    case FreeAfter(o) => if o.Received? then o.item else None
    case RxDone(o) => if o.Received? then o.item else None
    case _ => None
  }

  /** The word, by how far the sender has come. */
  ghost predicate TxInv(s: Channel) {
    match s.tx
    case TxHeld => !s.state.lock && !s.state.exist && s.sent.None?
    case TxWrite(_) => !s.state.lock && !s.state.exist && s.sent.None?
    case TxTry(seen, exist) =>
      !s.state.lock && !s.state.exist && exist == s.sent.Some? && (seen == CLEAR || seen == WAITING)
    case TxWake(exist) => s.state.lock && s.state.waker && s.state.exist == exist == s.sent.Some? && s.cell.Some?
    case TxLast(exist) => s.state.lock && s.state.waker && s.state.exist == exist == s.sent.Some?
    case TxFree => s.state.close && s.rx.RxDone?
    case TxDone => s.state.lock && s.state.close && !s.state.waker && s.state.exist == s.sent.Some? && !s.rx.RxDone?
    case TxPanic => false
  }

  /** The waker the receiver left is shown by the flag, or is being woken, or has been woken. */
  ghost predicate WakeDue(s: Channel, m: Waker) {
    || m in s.wakes
    || (s.state == WAITING && s.cell == Some(m))
    || (s.tx.TxWake? && s.cell == Some(m))
  }

  ghost predicate RxInv(s: Channel) {
    && (s.state.close && !s.rx.RxDone? ==> s.tx.TxDone?)
    && (s.state.waker ==> s.cell.Some?)
    && match s.rx
       case RxRest(r) => Registered(s, r)
       case TryLoad(r) => Registered(s, r)
       case PollLoad(m) => true
       case PollLook(m) => s.cell.Some? && (s.state.lock || s.state.waker) && WakeDue(s, s.cell.value)
       case PollCancel(m) => s.cell.Some? && (s.state.lock || s.state.waker)
       case Put(_, _) => !s.state.waker
       case Set(m, _) => !s.state.waker && s.cell == Some(m)
       case RecvLoad(_) => !s.state.waker
       case RecvAgain(m) => s.cell == Some(m) && (s.state.lock || s.state.waker)
       case RecvCancel(m) => s.cell == Some(m) && (s.state.lock || s.state.waker)
       case Parked(m) => s.cell == Some(m) && (s.state.lock || s.state.waker) && WakeDue(s, m)
       case Take(seen) => s.state.lock && seen.lock && SeenBefore(s, seen)
       case Close(seen, _) => s.state.lock && !seen.close && seen.lock && SeenBefore(s, seen)
       case FreeAfter(_) => s.tx.TxDone?
       case DropFlag => true
       case RxDone(_) => s.state.close && !s.tx.TxDone?
       case RxPanic => false
  }

  ghost predicate Registered(s: Channel, r: Option<Waker>) {
    match r
    case None => !s.state.waker
    case Some(m) => s.cell == Some(m) && (s.state.lock || s.state.waker) && WakeDue(s, m)
  }

  /** A word with the lock flag, seen by the receiver a while ago. */
  predicate SeenBefore(s: Channel, seen: Flags) {
    seen.exist == s.state.exist && (if seen.close then s.tx.TxDone? else seen.waker)
  }

  /** The value is in the box until the receiver has it. */
  ghost predicate ValueInv(s: Channel) {
    && (Held(s.rx).Some? ==> s.value.None? && Held(s.rx) == s.sent)
    && (Held(s.rx).None? ==> s.value == s.sent)
    && ((s.rx.Close? || (s.rx.FreeAfter? && s.rx.outcome.Received?) || (s.rx.RxDone? && s.rx.outcome.Received?)) ==>
          Held(s.rx) == s.sent && s.state.lock)
  }

  ghost predicate Live(s: Channel) {
    s.freed == 0 && s.discarded == 0 && TxInv(s) && RxInv(s) && ValueInv(s)
  }

  /** The box is gone: both sides are done, and the value went to one place. */
  ghost predicate Gone(s: Channel) {
    && s.freed == 1 && s.tx.TxDone? && s.rx.RxDone?
    && (if Held(s.rx).Some? then Held(s.rx) == s.sent && s.discarded == 0
        else s.discarded == if s.sent.Some? then 1 else 0)
    && (s.rx.outcome.Received? ==> Held(s.rx) == s.sent)
  }

  ghost predicate Inv(s: Channel) { Live(s) || Gone(s) }

  lemma NewKeeps()
    ensures Inv(New())
  {
  }

  lemma TxKeeps(s: Channel, spurious: bool)
    requires Live(s) && !s.tx.TxHeld? && !s.tx.TxDone?
    ensures Inv(TxStep(s, spurious))
  {
  }

  lemma RxKeeps(s: Channel, late: bool)
    requires Live(s) && !s.rx.RxRest? && !s.rx.Parked? && !s.rx.RxDone?
    ensures Inv(RxStep(s, late))
  {
  }

  lemma ApplyKeeps(s: Channel, m: Move)
    requires Inv(s) && Enabled(s, m)
    ensures Inv(Apply(s, m))
  {
    match m {
    case Tx(spurious) => TxKeeps(s, spurious);
    case Rx(late) => RxKeeps(s, late);
    case _ =>
    }
  }

  // ------------------------------------------------------------------------- what the machine promises

  /** None of the panics, unwraps and assertions of the source fails. */
  lemma NeverPanics(s: Channel)
    requires Inv(s)
    ensures !s.tx.TxPanic? && !s.rx.RxPanic?
  {
  }

  /** The box is freed at most once, and has been freed exactly when both sides are done. */
  lemma FreedOnce(s: Channel)
    requires Inv(s)
    ensures s.freed <= 1 && (s.freed == 1 <==> s.tx.TxDone? && s.rx.RxDone?)
  {
  }

  /** Whoever is still to make an access finds the box alive; a side that frees it is the only one left. */
  lemma AccessIsSafe(s: Channel, m: Move)
    requires Inv(s) && Enabled(s, m)
    ensures s.freed == 0
    ensures s.tx.TxFree? ==> s.rx.RxDone?
    ensures s.rx.FreeAfter? ==> s.tx.TxDone?
  {
  }

  /** The two sides are never both at a conflicting access of the waker cell or of the value cell. */
  lemma CellsHaveOneUser(s: Channel)
    requires Inv(s)
    ensures s.rx.Put? ==> !s.tx.TxWake?
    ensures s.rx.Take? ==> !s.tx.TxWrite?
  {
  }

  /**
   Once the box is gone, a value that was sent has either been received or been dropped, once; and
   a receive that answers "disconnected" means that nothing was sent.
   */
  lemma ValueGoesOnce(s: Channel)
    requires Inv(s) && s.freed == 1
    ensures s.discarded + (if Held(s.rx).Some? then 1 else 0) == (if s.sent.Some? then 1 else 0)
    ensures Held(s.rx).Some? ==> Held(s.rx) == s.sent
    ensures s.rx.outcome == Received(None) ==> s.sent.None?
  {
  }

  /** Until then the value is in one place: with the receiver, or in the box. */
  lemma ValueIsKept(s: Channel)
    requires Inv(s) && s.freed == 0
    ensures s.discarded == 0 && (if Held(s.rx).Some? then s.value.None? && Held(s.rx) == s.sent else s.value == s.sent)
  {
  }

  predicate WaitsFor(r: Rx, m: Waker) { r == RxRest(Some(m)) || r == Parked(m) }

  /**
   A receiver left waiting with waker `m` has `m` in the cell, shown by the flag while the sender has
   not announced its end; once it has, it wakes `m` in its next step, and nobody can prevent it.
   */
  lemma WaiterIsWoken(s: Channel, m: Waker)
    requires Inv(s) && WaitsFor(s.rx, m) && m !in s.wakes
    ensures s.cell == Some(m)
    ensures s.tx.TxHeld? || s.tx.TxWrite? || s.tx.TxTry? || s.tx.TxWake?
    ensures !s.tx.TxWake? ==> s.state == WAITING
    ensures s.tx.TxWake? ==> m in TxStep(s, false).wakes
  {
  }

  /** A receiver that has seen the lock flag is done after three steps, whatever the sender does. */
  lemma ConsumeEnds(s: Channel, late: bool)
    requires Inv(s) && s.freed == 0
    ensures s.rx.Take? ==> RxStep(s, late).rx.Close? || RxStep(s, late).rx.FreeAfter?
    ensures s.rx.Close? ==> RxStep(s, late).rx.RxDone? || RxStep(s, late).rx.FreeAfter?
    ensures s.rx.FreeAfter? ==> RxStep(s, late).rx.RxDone?
  {
  }

  /**
   Why a blocking receive must not follow a poll that answered Pending: run without interruption, its
   first three accesses end in a failed assertion exactly when a waker is registered and the sender
   has not announced its end.
   */
  lemma BlockingNeedsNoWaker(s: Channel, m: Waker)
    requires Inv(s) && s.rx.RxRest?
    ensures var s1 := RxStep(s.(rx := RecvLoad(m)), true);
            var s3 := RxStep(RxStep(s1, true), true);
            s3.rx.RxPanic? <==> s.rx.registered.Some? && !s.state.lock
  {
  }

  // -------------------------------------------------------------------------------------- whole runs

  /** The state after a run; `None` if some move was not possible when its turn came. */
  ghost function Run(ms: seq<Move>): (r: Option<Channel>)
    ensures r.Some? ==> Inv(r.value)
  {
    if ms == [] then
      NewKeeps();
      Some(New())
    else
      var n := |ms| - 1;
      var before := Run(ms[..n]);
      if before.Some? && Enabled(before.value, ms[n]) then
        ApplyKeeps(before.value, ms[n]);
        Some(Apply(before.value, ms[n]))
      else None
  }

  lemma RunOn(ms: seq<Move>, m: Move)
    requires Run(ms).Some? && Enabled(Run(ms).value, m)
    ensures Run(ms + [m]) == Some(Apply(Run(ms).value, m))
  {
    assert (ms + [m])[..|ms|] == ms;
  }

  /** A run to a state that breaks it: a poll of a new channel answers Pending; then a blocking receive. */
  lemma PollThenRecvBreaks(w: Waker, m: Waker) returns (ms: seq<Move>)
    ensures Run(ms).Some? && Run(ms).value.rx == RxRest(Some(w))
    ensures var s1 := RxStep(Run(ms).value.(rx := RecvLoad(m)), true);
            RxStep(RxStep(s1, true), true).rx.RxPanic?
  {
    ms := [];
    RunOn(ms, Poll(w));
    ms := ms + [Poll(w)];
    RunOn(ms, Rx(false));
    ms := ms + [Rx(false)];
    RunOn(ms, Rx(false));
    ms := ms + [Rx(false)];
    RunOn(ms, Rx(false));
    ms := ms + [Rx(false)];
    BlockingNeedsNoWaker(Run(ms).value, m);
  }

  /** What a receiver ends up with was sent in an earlier move of the run. */
  lemma {:induction false} ReceivedWasSent(ms: seq<Move>)
    requires Run(ms).Some?
    ensures Run(ms).value.sent.Some? ==> Send(Run(ms).value.sent.value) in ms
    ensures Run(ms).value.tx.TxWrite? ==> Send(Run(ms).value.tx.v) in ms
    ensures Held(Run(ms).value.rx).Some? ==> Send(Held(Run(ms).value.rx).value) in ms
  {
    if ms != [] {
      var n := |ms| - 1;
      ReceivedWasSent(ms[..n]);
      SentByMove(Run(ms[..n]).value, ms[n], Run(ms).value);
    }
    HeldIsSent(Run(ms).value);
  }

  lemma HeldIsSent(s: Channel)
    requires Inv(s)
    ensures Held(s.rx).Some? ==> Held(s.rx) == s.sent
  {
  }

  lemma SentByMove(s: Channel, m: Move, s': Channel)
    requires Inv(s) && Enabled(s, m) && s' == Apply(s, m)
    ensures s'.sent == s.sent || (s.tx.TxWrite? && s'.sent == Some(s.tx.v))
    ensures s'.tx.TxWrite? ==> s'.tx == s.tx || m == Send(s'.tx.v)
  {
  }

  // ---------------------------------------------------------------------------- the box, in place

  /** The shared box and the two calls under way; each method is one access, made in place. */
  class Memory {
    var state: Flags
    var value: Option<Item>
    var cell: Option<Waker>
    var tx: Tx
    var rx: Rx
    ghost var sent: Option<Item>
    var freed: nat
    var discarded: nat
    var wakes: set<Waker>

    ghost function View(): Channel
      reads this
    {
      Channel(state, value, cell, tx, rx, sent, freed, discarded, wakes)
    }

    constructor ()
      ensures View() == New() && Inv(View())
    {
      state, value, cell, tx, rx := CLEAR, None, None, TxHeld, RxRest(None);
      sent, freed, discarded, wakes := None, 0, 0, {};
    }

    method Begin(m: Move)
      requires Inv(View()) && Enabled(View(), m) && !m.Tx? && !m.Rx?
      modifies this`tx, this`rx, this`wakes
      ensures View() == Apply(old(View()), m) && Inv(View())
    {
      ApplyKeeps(View(), m);
      match m {
      case Send(v) => tx := TxWrite(v);
      case DropTx => tx := TxTry(CLEAR, false);
      case TryRecv => rx := TryLoad(rx.registered);
      case Poll(w) => rx, wakes := PollLoad(w), wakes - {w};
      case Recv(w) => rx := RecvLoad(w);
      case Unpark => rx, wakes := RecvAgain(rx.m), wakes - {rx.m};
      case DropRx => rx := DropFlag;
      }
    }

    method WriteValue()
      requires Inv(View()) && tx.TxWrite?
      modifies this`value, this`sent, this`tx
      ensures View() == TxStep(old(View()), false) && Inv(View())
    {
      TxKeeps(View(), false);
      value, sent, tx := Some(tx.v), Some(tx.v), TxTry(CLEAR, true);
    }

    /** The exchanges of `_notify_rx`: the one that announces the end, and the one that closes. */
    method Notify(spurious: bool)
      requires Inv(View()) && (tx.TxTry? || tx.TxLast?)
      modifies this`state, this`tx
      ensures View() == TxStep(old(View()), spurious) && Inv(View())
    {
      TxKeeps(View(), spurious);
      var exist := tx.exist;
      if tx.TxLast? {
        if state == Flags(true, true, false, exist) { state, tx := Flags(true, false, true, exist), TxDone; }
        else { tx := TxFree; }
      } else if state != tx.seen || spurious {
        tx := TxDecide(state, exist);
      } else if state == CLEAR {
        state, tx := Flags(true, false, true, exist), TxDone;
      } else {
        state, tx := Flags(true, true, false, exist), TxWake(exist);
      }
    }

    method WakeReceiver()
      requires Inv(View()) && tx.TxWake?
      modifies this`wakes, this`tx
      ensures View() == TxStep(old(View()), false) && Inv(View())
    {
      TxKeeps(View(), false);
      wakes, tx := wakes + {cell.value}, TxLast(tx.exist);
    }

    /** The loads of the receiver. */
    method LoadState(late: bool)
      requires Inv(View()) && (rx.TryLoad? || rx.PollLoad? || rx.RecvLoad? || rx.RecvAgain?)
      modifies this`rx
      ensures View() == RxStep(old(View()), late) && Inv(View())
    {
      RxKeeps(View(), late);
      if state.lock { rx := Take(state); }
      else {
        match rx {
        case TryLoad(registered) => rx := RxRest(registered);
        case PollLoad(m) => rx := if state.waker then PollLook(m) else Put(m, false);
        case RecvLoad(m) => if late { rx := Put(m, true); }
        case RecvAgain(m) => rx := if late then RecvCancel(m) else Parked(m);
        }
      }
    }

    /** A poll compares the waker it left with the one it was called with. */
    method LookAtWaker()
      requires Inv(View()) && rx.PollLook?
      modifies this`rx
      ensures View() == RxStep(old(View()), false) && Inv(View())
    {
      RxKeeps(View(), false);
      rx := if cell == Some(rx.m) then RxRest(Some(rx.m)) else PollCancel(rx.m);
    }

    /** `set_waker`, first half. */
    method PutWaker()
      requires Inv(View()) && rx.Put?
      modifies this`cell, this`rx
      ensures View() == RxStep(old(View()), false) && Inv(View())
    {
      RxKeeps(View(), false);
      cell, rx := Some(rx.m), Set(rx.m, rx.blocking);
    }

    /** `set_waker`, second half, and `cancel_waker`. */
    method ExchangeWaker()
      requires Inv(View()) && (rx.Set? || rx.PollCancel? || rx.RecvCancel?)
      modifies this`state, this`rx
      ensures View() == RxStep(old(View()), false) && Inv(View())
    {
      RxKeeps(View(), false);
      match rx {
      case Set(m, blocking) =>
        if state == CLEAR { state, rx := WAITING, if blocking then RecvAgain(m) else RxRest(Some(m)); }
        else { rx := Take(state); }
      case PollCancel(m) =>
        if state == WAITING { state, rx := CLEAR, Put(m, false); } else { rx := Take(state); }
      case RecvCancel(m) =>
        if state == WAITING { state, rx := Flags(false, false, true, false), RxDone(TimedOut); }
        else { rx := Take(state); }
      }
    }

    /** `_consume_value`: take the value out, then close unless the sender has. */
    method ConsumeValue()
      requires Inv(View()) && (rx.Take? || rx.Close?)
      modifies this`state, this`value, this`rx
      ensures View() == RxStep(old(View()), false) && Inv(View())
    {
      RxKeeps(View(), false);
      if rx.Take? {
        var seen, item := rx.seen, None;
        if seen.exist { value, item := None, value; }
        rx := CloseDecide(seen, item);
      } else if state == rx.seen {
        state, rx := state.(close := true), RxDone(Received(rx.item));
      } else {
        rx := CloseDecide(state, rx.item);
      }
    }

    method DropReceiver()
      requires Inv(View()) && rx.DropFlag?
      modifies this`state, this`rx
      ensures View() == RxStep(old(View()), false) && Inv(View())
    {
      RxKeeps(View(), false);
      var before := state;
      state := state.(close := true);
      rx := if before.close then FreeAfter(Dropped) else RxDone(Dropped);
    }

    /** The side that closes second frees the box. */
    method FreeBox()
      requires Inv(View()) && (tx.TxFree? || rx.FreeAfter?)
      modifies this`freed, this`discarded, this`value, this`tx, this`rx
      ensures old(freed) == 0 && freed == 1 && Gone(View())
      ensures View() == if old(tx).TxFree? then TxStep(old(View()), false) else RxStep(old(View()), false)
    {
      if tx.TxFree? { TxKeeps(View(), false); } else { RxKeeps(View(), false); }
      freed := freed + 1;
      if value.Some? { discarded := discarded + 1; }
      value := None;
      if tx.TxFree? { tx := TxDone; } else { rx := RxDone(rx.outcome); }
    }
  }
}
