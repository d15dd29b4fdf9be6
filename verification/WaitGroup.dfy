/**
 The word of `WaitGroupInner`: a reference count below two flag bits, on 64-bit words.

 The masks are written as comparisons and subtractions, which agree with the bit operations of the
 source because the flags are the two highest bits.
 */
module WaitGroupWord {
  const LOCK: nat := 0x4000_0000_0000_0000
  const SET: nat := 0x8000_0000_0000_0000
  const COUNT_MASK: nat := LOCK - 1

  predicate HasWaker(w: nat) { w >= SET }

  predicate IsLocked(w: nat) { (if w >= SET then w - SET else w) >= LOCK }

  function Flags(w: nat): nat {
    (if HasWaker(w) then SET else 0) + (if IsLocked(w) then LOCK else 0)
  }

  /** The reference count: what the flags leave. */
  function Count(w: nat): nat { w - Flags(w) }

  predicate IsLast(w: nat, delta: nat) { Flags(w) != LOCK && Count(w) == delta }

  function TryLock(w: nat): nat { Count(w) + LOCK }

  /** `State::try_done`: the word after `delta` references leave, and whether that takes the lock. */
  function TryDone(w: nat, delta: nat, threshold: nat): (r: (nat, bool))
    requires w < 2 * SET && delta <= Count(w)
    ensures Count(r.0) == Count(w) - delta
    ensures r.1 <==> Count(w) - delta <= threshold && HasWaker(w) && !IsLocked(w)
    ensures r.1 ==> IsLocked(r.0) && !HasWaker(r.0)
    ensures !r.1 ==> IsLocked(r.0) == IsLocked(w) && HasWaker(r.0) == HasWaker(w)
  {
    var left := Count(w) - delta;
    if left <= threshold && Flags(w) == SET then (LOCK + left, true) else (Flags(w) + left, false)
  }

  function OrSet(w: nat): nat { if HasWaker(w) then w else w + SET }

  function XorMask(w: nat): nat { Count(w) + (SET + LOCK - Flags(w)) }

  /**
   `add` on any word: adding one to the whole word adds one to the count and leaves the flags alone
   exactly when the count is not at its maximum.
   */
  lemma AddOne(w: nat)
    requires w < 2 * SET
    ensures Flags(w + 1) == Flags(w) && Count(w + 1) == Count(w) + 1 && w + 1 < 2 * SET <==> Count(w) < COUNT_MASK
  {
  }

  /** The overflow test comes after the addition: an add at the maximum count turns on the lock flag. */
  lemma AddAtMaximum()
    ensures !IsLocked(COUNT_MASK) && IsLocked(COUNT_MASK + 1)
    ensures COUNT_MASK - 2 <= Count(COUNT_MASK)
  {
  }

  /** `destroy` subtracts one from the whole word: only the count changes. */
  lemma SubOne(w: nat)
    requires Count(w) >= 1
    ensures Flags(w - 1) == Flags(w) && Count(w - 1) == Count(w) - 1
  {
  }
}

/**
 `WaitGroupInner`: one heap box shared by an owner, who may wait for the count to fall, and by any
 number of guards. The machine interleaves every access to the packed word and to the waker cell.
 */
module WaitGroup {
  import opened Base
  import opened WaitGroupWord

  type Waker = nat

  /**
   One wait: a blocking call, or an async future polled any number of times. `me` is the waker of
   the current poll, `kept` the one it registered last; `trusted` says that when the wait began every
   guard carried a threshold no lower than the waiter's.
   */
  datatype Wait = Wait(blocking: bool, me: Waker, kept: Option<Waker>, trusted: bool)

  datatype Point =
    | Rest
    | Check(wait: Wait)
    | Recheck(wait: Wait)
    | SetLoad(wait: Wait)
    | SetLock(wait: Wait, seen: nat)
    | Replace(wait: Wait, locked: bool)
    | Show(wait: Wait, locked: bool)
    | Parked(wait: Wait)
    | DropLoad
    | DropExchange(seen: nat)
    | DropFree

  datatype Owner = Owner(threshold: nat, at: Point)

  /** A guard, from its creation until its reference is given back. */
  datatype GuardPoint = Held | DoneLoad | DoneAgain(seen: nat) | DoneExchange(seen: nat) | DoneFree

  datatype Guard = Guard(threshold: nat, at: GuardPoint)

  /** What a `done` that took the lock still has to do, its reference being gone. */
  datatype Closing = Take | Unlock(waker: Option<Waker>) | LastFree | Wake(w: Waker)

  /** Who holds the lock, or has released it as the last user of the box. */
  datatype Holder = Nobody | ByOwner | ByDone(g: Tid) | Last(g: Tid)

  datatype Group = Group(
    word: nat, cell: Option<Waker>, owner: Option<Owner>, guards: map<Tid, Guard>, closing: map<Tid, Closing>,
    holder: Holder, leaked: nat, freed: nat, wakes: set<Waker>)

  function New(threshold: nat): Group {
    Group(1, None, Some(Owner(threshold + 1, Rest)), map[], map[], Nobody, 0, 0, {})
  }

  function References(s: Group): nat {
    |s.guards| + (if s.owner.Some? then 1 else 0) + s.leaked
  }

  predicate Covers(guards: map<Tid, Guard>, threshold: nat) {
    forall g :: g in guards ==> threshold <= guards[g].threshold
  }

  predicate Waiting(p: Point) {
    p.Check? || p.Recheck? || p.SetLoad? || p.SetLock? || p.Replace? || p.Show? || p.Parked?
  }

  predicate Locking(p: Point) { (p.Replace? || p.Show?) && p.locked }

  /**
   A wake of `m` has been issued, or a `done` under way will issue it, or the set flag shows `m` to
   the next `done` that reaches the threshold (`strict`: the count is still above it).
   */
  ghost predicate WakeDue(s: Group, m: Waker, strict: bool, threshold: nat) {
    || m in s.wakes
    || WakeComing(s, m)
    || (HasWaker(s.word) && s.cell == Some(m) && (strict ==> Count(s.word) > threshold))
  }

  /** A `done` that took the lock has the waker or is about to take it, and will wake it. */
  ghost predicate WakeComing(s: Group, m: Waker) {
    exists g :: g in s.closing && Wakes(s.closing[g], s.cell, m)
  }

  predicate Wakes(c: Closing, cell: Option<Waker>, m: Waker) {
    match c
    case Take => cell == Some(m)
    case Unlock(w) => w == Some(m)
    case Wake(w) => w == m
    case LastFree => false
  }

  ghost predicate WordInv(s: Group) {
    && s.word < 2 * SET
    && Count(s.word) == References(s)
    && (IsLocked(s.word) <==> s.holder.ByOwner? || s.holder.ByDone?)
    && (HasWaker(s.word) ==> !IsLocked(s.word) && s.cell.Some?)
    && (Count(s.word) == 0 ==> !s.holder.Nobody?)
    && (s.holder.Last? ==> Count(s.word) == 0)
  }

  ghost predicate ClosingInv(s: Group, g: Tid)
    requires g in s.closing
  {
    match s.closing[g]
    case Take => s.holder == ByDone(g) && s.cell.Some?
    case Unlock(w) => s.holder == ByDone(g) && w.Some?
    case LastFree => s.holder == Last(g)
    case Wake(_) => s.holder != ByDone(g) && s.holder != Last(g)
  }

  ghost predicate HolderInv(s: Group) {
    match s.holder
    case Nobody => true
    case ByOwner => s.owner.Some? && Locking(s.owner.value.at)
    case ByDone(g) => g in s.closing
    case Last(g) => g in s.closing
  }

  ghost predicate GuardInv(s: Group, g: Tid)
    requires g in s.guards
  {
    && g !in s.closing
    && match s.guards[g].at
       case DoneAgain(seen) => IsLast(seen, 1)
       case DoneExchange(seen) => seen < 2 * SET && 1 <= Count(seen) && !IsLast(seen, 1)
       case DoneFree => Count(s.word) == 1 && s.holder.Nobody?
       case _ => true
  }

  ghost predicate WaitInv(s: Group, threshold: nat, w: Wait) {
    && (w.blocking && w.kept.Some? ==> w.kept == Some(w.me))
    && (w.trusted ==> Covers(s.guards, threshold))
    && (w.kept.Some? && HasWaker(s.word) ==> s.cell == w.kept)
  }

  ghost predicate OwnerInv(s: Group, o: Owner) {
    && (Locking(o.at) ==> s.holder.ByOwner?)
    && (Waiting(o.at) && !o.at.Show? ==> WaitInv(s, o.threshold, o.at.wait))
    && match o.at
       case Recheck(w) => w.kept == Some(w.me) && WakeDue(s, w.me, false, o.threshold)
       case Parked(w) => w.kept == Some(w.me) && WakeDue(s, w.me, w.trusted, o.threshold)
       case SetLock(w, seen) => seen < 2 * SET && HasWaker(seen) && !IsLocked(seen)
       case Replace(w, locked) => !HasWaker(s.word) && (!locked ==> s.holder.Nobody?)
       case Show(w, locked) =>
         && !HasWaker(s.word) && (!locked ==> s.holder.Nobody?) && s.cell == Some(w.me)
         && WaitInv(s, o.threshold, w)
       case DropExchange(seen) => seen < 2 * SET && 1 <= Count(seen) && (IsLocked(seen) || Count(seen) > 1)
       case DropFree => Count(s.word) == 1 && s.holder.Nobody?
       case _ => true
  }

  ghost predicate Live(s: Group) {
    && s.freed == 0
    && WordInv(s)
    && HolderInv(s)
    && (forall g :: g in s.closing ==> ClosingInv(s, g))
    && (forall g :: g in s.guards ==> GuardInv(s, g))
    && (s.owner.Some? ==> OwnerInv(s, s.owner.value))
  }

  /** The box is gone: nobody refers to it, and all that is left to do is to wake wakers taken out. */
  ghost predicate Gone(s: Group) {
    && s.freed == 1
    && References(s) == 0
    && s.holder.Nobody?
    && forall g :: g in s.closing ==> s.closing[g].Wake?
  }

  ghost predicate Inv(s: Group) { Live(s) || Gone(s) }

  // ------------------------------------------------------------------------------------ the owner

  function GoOwner(s: Group, p: Point): Group
    requires s.owner.Some?
  {
    s.(owner := Some(s.owner.value.(at := p)))
  }

  /** What `try_set_waker` does with the word it has just seen. */
  function SetDecide(w: nat, threshold: nat, wait: Wait): Point {
    if Count(w) <= threshold then Rest
    else if IsLocked(w) then SetLoad(wait)
    else if HasWaker(w) then
      if wait.blocking && wait.kept.Some? then Parked(wait) else SetLock(wait, w)
    else Replace(wait, false)
  }

  /** What `destroy` does with the word it has just seen. */
  function DropDecide(w: nat): Point {
    if IsLocked(w) || Count(w) > 1 then DropExchange(w) else DropFree
  }

  /** The wait has been announced in the word; `before` is the word it replaced. */
  function Announced(before: nat, threshold: nat, wait: Wait): Point {
    if Count(before) <= threshold then Rest else Parked(wait.(kept := Some(wait.me)))
  }

  /** One access of `wait_blocking`, `poll_async`, `try_set_waker` or `destroy`. */
  function OwnerStep(s: Group, flag: bool): Group
    requires Live(s) && s.owner.Some?
  {
    var Owner(threshold, at) := s.owner.value;
    match at
    case Rest => s
    case Parked(_) => s
    case Check(w) =>
      GoOwner(s, if Count(s.word) <= threshold then Rest
                 else if w.blocking then if flag then at else SetLoad(w)
                 else if HasWaker(s.word) && w.kept == Some(w.me) then Recheck(w)
                 else SetLoad(w))
    case Recheck(w) => GoOwner(s, if Count(s.word) <= threshold then Rest else Parked(w))
    case SetLoad(w) => GoOwner(s, SetDecide(s.word, threshold, w))
    case SetLock(w, seen) =>
      if s.word == seen && !flag then
        GoOwner(s.(word := TryLock(seen), holder := ByOwner), Replace(w, true))
      else GoOwner(s, SetDecide(s.word, threshold, w))
    case Replace(w, locked) => GoOwner(s.(cell := Some(w.me)), Show(w, locked))
    case Show(w, locked) =>
      if locked then GoOwner(s.(word := XorMask(s.word), holder := Nobody), Announced(s.word, threshold, w))
      else GoOwner(s.(word := OrSet(s.word)), Announced(s.word, threshold, w))
    case DropLoad => GoOwner(s, DropDecide(s.word))
    case DropExchange(seen) =>
      if s.word == seen && !flag then s.(word := seen - 1, owner := None)
      else GoOwner(s, DropDecide(s.word))
    case DropFree => s.(freed := s.freed + 1, owner := None)
  }

  // ----------------------------------------------------------------------------------- the guards

  function GoGuard(s: Group, g: Tid, p: GuardPoint): Group
    requires g in s.guards
  {
    s.(guards := s.guards[g := s.guards[g].(at := p)])
  }

  /** What `done` does with the word it has just seen. */
  function DoneDecide(w: nat): GuardPoint {
    if IsLast(w, 1) then DoneAgain(w) else DoneExchange(w)
  }

  /** The exchange of `done` succeeded: the reference is gone and maybe the lock is taken. */
  function GiveBack(s: Group, g: Tid): Group
    requires Live(s) && g in s.guards && s.guards[g].at.DoneExchange?
  {
    assert GuardInv(s, g);
    var Guard(threshold, at) := s.guards[g];
    var (word, lock) := TryDone(at.seen, 1, threshold);
    if lock then s.(word := word, guards := s.guards - {g}, closing := s.closing[g := Take], holder := ByDone(g))
    else s.(word := word, guards := s.guards - {g})
  }

  /** One access of a `done` that still holds its reference. */
  function GuardStep(s: Group, g: Tid, spurious: bool): Group
    requires Live(s) && g in s.guards
  {
    match s.guards[g].at
    case Held => s
    case DoneLoad => GoGuard(s, g, DoneDecide(s.word))
    case DoneAgain(seen) => GoGuard(s, g, if s.word == seen then DoneFree else DoneDecide(s.word))
    case DoneExchange(seen) =>
      if s.word == seen && !spurious then GiveBack(s, g) else GoGuard(s, g, DoneDecide(s.word))
    case DoneFree => s.(freed := s.freed + 1, guards := s.guards - {g})
  }

  /** One access of a `done` that took the lock. */
  function ClosingStep(s: Group, g: Tid): Group
    requires Inv(s) && g in s.closing
  {
    match s.closing[g]
    case Take => s.(cell := None, closing := s.closing[g := Unlock(s.cell)])
    case Unlock(w) =>
      if Count(s.word) == 0 then s.(word := 0, holder := Last(g), closing := s.closing[g := LastFree])
      else Released(s, g, w)
    case LastFree => s.(freed := s.freed + 1, holder := Nobody, closing := s.closing - {g})
    case Wake(w) => s.(wakes := s.wakes + {w}, closing := s.closing - {g})
  }

  function Released(s: Group, g: Tid, w: Option<Waker>): Group
    requires g in s.closing
  {
    s.(word := Count(s.word), holder := Nobody,
       closing := if w.Some? then s.closing[g := Wake(w.value)] else s.closing - {g})
  }

  // ------------------------------------------------------------- calls begin, guards come into being

  /** `add`: the count goes up first; at the limit the call then panics and no guard comes of it. */
  function Add(s: Group, threshold: nat, g: Tid): Group {
    if Count(s.word) >= COUNT_MASK - 2 then s.(word := s.word + 1, leaked := s.leaked + 1)
    else s.(word := s.word + 1, guards := s.guards[g := Guard(threshold, Held)])
  }

  datatype Move =
    | AddGuard(g: Tid)
    | Clone(from: Tid, g: Tid)
    | DropGuard(g: Tid)
    | Done(g: Tid, spurious: bool)
    | Close(g: Tid)
    | BeginWait(blocking: bool, me: Waker)
    | Own(flag: bool)
    | Unpark
    | Poll(me: Waker)
    | GiveUp
    | SetThreshold(n: nat)
    | DropOwner

  predicate OwnerAt(s: Group, p: Point) { s.owner.Some? && s.owner.value.at == p }

  predicate OwnerParked(s: Group) { s.owner.Some? && s.owner.value.at.Parked? }

  predicate Fresh(s: Group, g: Tid) { g !in s.guards && g !in s.closing && Count(s.word) < COUNT_MASK }

  predicate Enabled(s: Group, m: Move) {
    match m
    case AddGuard(g) => s.owner.Some? && (s.owner.value.at.Rest? || Waiting(s.owner.value.at)) && Fresh(s, g)
    case Clone(from, g) => from in s.guards && s.guards[from].at.Held? && Fresh(s, g)
    case DropGuard(g) => g in s.guards && s.guards[g].at.Held?
    case Done(g, _) => g in s.guards && !s.guards[g].at.Held?
    case Close(g) => g in s.closing
    case BeginWait(_, _) => OwnerAt(s, Rest)
    case Own(_) => s.owner.Some? && !s.owner.value.at.Rest? && !s.owner.value.at.Parked?
    case Unpark => OwnerParked(s) && s.owner.value.at.wait.blocking
    case Poll(_) => OwnerParked(s) && !s.owner.value.at.wait.blocking
    case GiveUp => OwnerParked(s)
    case SetThreshold(_) => OwnerAt(s, Rest)
    case DropOwner => OwnerAt(s, Rest)
  }

  ghost function Apply(s: Group, m: Move): Group
    requires Inv(s) && Enabled(s, m)
  {
    match m
    case AddGuard(g) => Add(s, s.owner.value.threshold, g)
    case Clone(from, g) => Add(s, s.guards[from].threshold, g)
    case DropGuard(g) => GoGuard(s, g, DoneLoad)
    case Done(g, spurious) => GuardStep(s, g, spurious)
    case Close(g) => ClosingStep(s, g)
    case BeginWait(blocking, me) => StartWait(s, blocking, me)
    case Own(flag) => OwnerStep(s, flag)
    case Unpark => Resume(s, s.owner.value.at.wait.me)
    case Poll(me) => Resume(s, me)
    case GiveUp => GoOwner(s, Rest)
    case SetThreshold(n) => s.(owner := Some(Owner(n + 1, Rest)))
    case DropOwner => GoOwner(s, DropLoad)
  }

  function StartWait(s: Group, blocking: bool, me: Waker): Group
    requires s.owner.Some?
  {
    var trusted := Covers(s.guards, s.owner.value.threshold);
    GoOwner(s.(wakes := if blocking then s.wakes else s.wakes - {me}), Check(Wait(blocking, me, None, trusted)))
  }

  /** The parked thread runs again, or the pending future is polled with waker `me`. */
  function Resume(s: Group, me: Waker): Group
    requires OwnerParked(s)
  {
    GoOwner(s.(wakes := s.wakes - {me}), Check(s.owner.value.at.wait.(me := me)))
  }

  // ---------------------------------------------------------------- every step keeps the invariant

  lemma NewKeeps(threshold: nat)
    ensures Inv(New(threshold))
  {
  }

  /** The only reference left is the one in hand. */
  lemma Alone(s: Group, g: Tid)
    requires g in s.guards && References(s) == 1
    ensures s.guards.Keys == {g} && s.owner.None? && s.leaked == 0
  {
    assert |s.guards.Keys - {g}| == |s.guards.Keys| - 1;
  }

  lemma OneLess(m: map<Tid, Guard>, g: Tid)
    requires g in m
    ensures |m - {g}| == |m| - 1
  {
    assert (m - {g}).Keys == m.Keys - {g};
  }

  /** A step of somebody else leaves the owner's point in order. */
  lemma OwnerKept(s: Group, s': Group, o: Owner)
    requires OwnerInv(s, o)
    requires s.holder.ByOwner? ==> s'.holder.ByOwner?
    requires !HasWaker(s.word) ==> !HasWaker(s'.word) && (s.holder.Nobody? ==> s'.holder.Nobody?)
    requires HasWaker(s'.word) || o.at.Show? ==> s'.cell == s.cell
    requires Waiting(o.at) && o.at.wait.trusted && Covers(s.guards, o.threshold) ==> Covers(s'.guards, o.threshold)
    requires o.at.Recheck? || o.at.Parked? ==>
               WakeDue(s', o.at.wait.me, o.at.Parked? && o.at.wait.trusted, o.threshold)
    requires o.at.DropFree? ==> Count(s'.word) == 1 && s'.holder.Nobody?
    ensures OwnerInv(s', o)
  {
  }

  /** Wakes on their way stay on their way. */
  lemma DueKept(s: Group, s': Group, m: Waker, strict: bool, threshold: nat)
    requires WakeDue(s, m, strict, threshold) && s.wakes <= s'.wakes
    requires forall g :: g in s.closing && Wakes(s.closing[g], s.cell, m) ==>
                           m in s'.wakes || (g in s'.closing && Wakes(s'.closing[g], s'.cell, m))
    requires HasWaker(s.word) && s.cell == Some(m) && (strict ==> Count(s.word) > threshold) ==>
               WakeDue(s', m, strict, threshold)
    ensures WakeDue(s', m, strict, threshold)
  {
  }

  /** Who is in the middle of a call, and so lends the reference that `add` uses. */
  predicate CanAdd(s: Group, threshold: nat) {
    && References(s) >= 1
    && (forall h :: h in s.guards ==> !s.guards[h].at.DoneFree?)
    && (s.owner.Some? ==>
          && !s.owner.value.at.DropFree?
          && (Waiting(s.owner.value.at) && s.owner.value.at.wait.trusted ==> s.owner.value.threshold <= threshold))
  }

  lemma AddKeeps(s: Group, threshold: nat, g: Tid)
    requires Live(s) && Fresh(s, g) && CanAdd(s, threshold)
    ensures Live(Add(s, threshold, g))
  {
    var s' := Add(s, threshold, g);
    AddOne(s.word);
    forall h | h in s'.closing ensures ClosingInv(s', h) { assert ClosingInv(s, h); }
    forall h | h in s'.guards ensures GuardInv(s', h) {
      if h != g { assert GuardInv(s, h); }
    }
    if s.owner.Some? { AddOwner(s, threshold, g); }
  }

  lemma AddOwner(s: Group, threshold: nat, g: Tid)
    requires Live(s) && Fresh(s, g) && CanAdd(s, threshold) && s.owner.Some?
    ensures OwnerInv(Add(s, threshold, g), s.owner.value)
  {
    var s', o := Add(s, threshold, g), s.owner.value;
    AddOne(s.word);
    if o.at.Recheck? || o.at.Parked? {
      DueKept(s, s', o.at.wait.me, o.at.Parked? && o.at.wait.trusted, o.threshold);
    }
    OwnerKept(s, s', o);
  }

  /** A guard moves on without touching the box. */
  lemma GoGuardKeeps(s: Group, g: Tid, p: GuardPoint)
    requires Live(s) && g in s.guards && GuardInv(GoGuard(s, g, p), g)
    ensures Live(GoGuard(s, g, p))
  {
    var s' := GoGuard(s, g, p);
    forall h | h in s'.closing ensures ClosingInv(s', h) { assert ClosingInv(s, h); }
    forall h | h in s'.guards ensures GuardInv(s', h) {
      if h != g { assert GuardInv(s, h); }
    }
    if s.owner.Some? {
      var o := s.owner.value;
      if o.at.Recheck? || o.at.Parked? {
        DueKept(s, s', o.at.wait.me, o.at.Parked? && o.at.wait.trusted, o.threshold);
      }
      OwnerKept(s, s', o);
    }
  }

  /** With a second reference alive nobody is about to free the box. */
  lemma NotAlone(s: Group, g: Tid)
    requires Live(s) && g in s.guards && !s.guards[g].at.DoneFree?
    ensures forall h :: h in s.guards ==> !s.guards[h].at.DoneFree?
    ensures s.owner.Some? ==> !s.owner.value.at.DropFree?
  {
    assert GuardInv(s, g);
    forall h | h in s.guards ensures !s.guards[h].at.DoneFree? {
      assert GuardInv(s, h);
      if s.guards[h].at.DoneFree? { Alone(s, h); }
    }
  }

  lemma GiveBackKeeps(s: Group, g: Tid)
    requires Live(s) && g in s.guards && s.guards[g].at.DoneExchange? && s.word == s.guards[g].at.seen
    requires !IsLast(s.word, 1)
    ensures Live(GiveBack(s, g))
  {
    var s' := GiveBack(s, g);
    NotAlone(s, g);
    OneLess(s.guards, g);
    assert GuardInv(s, g);
    forall h | h in s'.closing ensures ClosingInv(s', h) {
      if h != g { assert ClosingInv(s, h); }
    }
    forall h | h in s'.guards ensures GuardInv(s', h) { assert GuardInv(s, h); }
    if s.owner.Some? { GiveBackOwner(s, g); }
  }

  /** Reaching the threshold of a waiting owner takes the lock, with the owner's waker in the cell. */
  lemma GiveBackOwner(s: Group, g: Tid)
    requires Live(s) && g in s.guards && s.guards[g].at.DoneExchange? && s.word == s.guards[g].at.seen
    requires s.owner.Some?
    ensures OwnerInv(GiveBack(s, g), s.owner.value)
  {
    var s', o := GiveBack(s, g), s.owner.value;
    NotAlone(s, g);
    assert GuardInv(s, g);
    if o.at.Recheck? || o.at.Parked? {
      var m := o.at.wait.me;
      if HasWaker(s.word) && s.cell == Some(m) && !HasWaker(s'.word) {
        assert Wakes(s'.closing[g], s'.cell, m);
      }
      DueKept(s, s', m, o.at.Parked? && o.at.wait.trusted, o.threshold);
    }
    OwnerKept(s, s', o);
  }

  lemma GuardKeeps(s: Group, g: Tid, spurious: bool)
    requires Live(s) && g in s.guards
    ensures Inv(GuardStep(s, g, spurious))
  {
    assert GuardInv(s, g);
    match s.guards[g].at {
    case Held =>
    case DoneLoad => GoGuardKeeps(s, g, DoneDecide(s.word));
    case DoneAgain(seen) => GoGuardKeeps(s, g, if s.word == seen then DoneFree else DoneDecide(s.word));
    case DoneExchange(seen) =>
      if s.word == seen && !spurious { GiveBackKeeps(s, g); }
      else { GoGuardKeeps(s, g, DoneDecide(s.word)); }
    case DoneFree => GuardFrees(s, g);
    }
  }

  lemma GuardFrees(s: Group, g: Tid)
    requires Live(s) && g in s.guards && s.guards[g].at.DoneFree?
    ensures Gone(s.(freed := s.freed + 1, guards := s.guards - {g}))
  {
    assert GuardInv(s, g);
    Alone(s, g);
    OneLess(s.guards, g);
    forall h | h in s.closing ensures s.closing[h].Wake? { assert ClosingInv(s, h); }
  }

  /** A `done` past its exchange has moved on to `s'`; nobody else relies on what it changed. */
  lemma ClosingOthers(s: Group, s': Group, g: Tid)
    requires Live(s) && g in s.closing && s'.guards == s.guards && s'.owner == s.owner
    requires forall h :: h in s'.closing && h != g ==> h in s.closing && s'.closing[h] == s.closing[h]
    requires forall h :: h in s.closing && h != g ==> h in s'.closing
    requires Count(s'.word) == Count(s.word) && s.wakes <= s'.wakes
    requires HasWaker(s'.word) == HasWaker(s.word) && (HasWaker(s.word) ==> s'.cell == s.cell)
    requires s'.cell == s.cell || s.holder == ByDone(g)
    requires s.holder == s'.holder || (s.holder == ByDone(g) && (s'.holder.Nobody? || s'.holder == Last(g)))
    requires forall m {:trigger Wakes(s.closing[g], s.cell, m)} :: s.owner.Some? && Wakes(s.closing[g], s.cell, m) ==>
               m in s'.wakes || (g in s'.closing && Wakes(s'.closing[g], s'.cell, m))
    ensures forall h :: h in s'.closing && h != g ==> ClosingInv(s', h)
    ensures forall h :: h in s'.guards ==> GuardInv(s', h)
    ensures s'.owner.Some? ==> OwnerInv(s', s'.owner.value)
  {
    assert ClosingInv(s, g);
    forall h | h in s'.closing && h != g ensures ClosingInv(s', h) { assert ClosingInv(s, h); }
    forall h | h in s'.guards ensures GuardInv(s', h) { assert GuardInv(s, h); }
    if s.owner.Some? {
      var o := s.owner.value;
      if o.at.Recheck? || o.at.Parked? {
        forall h | h in s.closing && Wakes(s.closing[h], s.cell, o.at.wait.me)
          ensures o.at.wait.me in s'.wakes || (h in s'.closing && Wakes(s'.closing[h], s'.cell, o.at.wait.me))
        {
          assert ClosingInv(s, h);
        }
        DueKept(s, s', o.at.wait.me, o.at.Parked? && o.at.wait.trusted, o.threshold);
      }
      OwnerKept(s, s', o);
    }
  }

  lemma ClosingKeeps(s: Group, g: Tid)
    requires Live(s) && g in s.closing
    ensures Inv(ClosingStep(s, g))
  {
    assert ClosingInv(s, g);
    if s.closing[g].Take? || s.closing[g].Wake? {
      ClosingOthers(s, ClosingStep(s, g), g);
    } else {
      UnlockKeeps(s, g);
    }
  }

  lemma UnlockKeeps(s: Group, g: Tid)
    requires Live(s) && g in s.closing && (s.closing[g].Unlock? || s.closing[g].LastFree?)
    ensures Inv(ClosingStep(s, g))
  {
    var s' := ClosingStep(s, g);
    assert ClosingInv(s, g);
    if s.closing[g].LastFree? {
      forall h | h in s'.closing ensures s'.closing[h].Wake? { assert ClosingInv(s, h); }
    } else {
      ClosingOthers(s, s', g);
    }
  }

  lemma GoneKeeps(s: Group, g: Tid)
    requires Gone(s) && g in s.closing
    ensures Gone(ClosingStep(s, g))
  {
  }

  /** The owner moves on without touching the box. */
  lemma GoOwnerKeeps(s: Group, p: Point)
    requires Live(s) && s.owner.Some? && !Locking(s.owner.value.at) && OwnerInv(s, s.owner.value.(at := p))
    ensures Live(GoOwner(s, p))
  {
    var s' := GoOwner(s, p);
    forall h | h in s'.closing ensures ClosingInv(s', h) { assert ClosingInv(s, h); }
    forall h | h in s'.guards ensures GuardInv(s', h) { assert GuardInv(s, h); }
    OwnerMoved(s, s', s'.owner.value);
  }

  /** What is said of the owner's point does not depend on the owner field. */
  lemma OwnerMoved(s: Group, s': Group, o: Owner)
    requires OwnerInv(s, o) && s' == s.(owner := Some(o))
    ensures OwnerInv(s', o)
  {
    if o.at.Recheck? || o.at.Parked? {
      DueKept(s, s', o.at.wait.me, o.at.Parked? && o.at.wait.trusted, o.threshold);
    }
    OwnerKept(s, s', o);
  }

  /** An owner that has seen a waker of its own in the word may park. */
  lemma SetDecides(s: Group, wait: Wait)
    requires Live(s) && s.owner.Some? && WaitInv(s, s.owner.value.threshold, wait)
    requires !s.holder.ByOwner?
    ensures OwnerInv(s, s.owner.value.(at := SetDecide(s.word, s.owner.value.threshold, wait)))
  {
  }

  lemma LockKeeps(s: Group)
    requires Live(s) && s.owner.Some? && s.owner.value.at.SetLock? && s.word == s.owner.value.at.seen
    ensures Live(OwnerStep(s, false))
  {
    var s' := OwnerStep(s, false);
    forall h | h in s'.closing ensures ClosingInv(s', h) { assert ClosingInv(s, h); }
    forall h | h in s'.guards ensures GuardInv(s', h) {
      assert GuardInv(s, h);
      if s.guards[h].at.DoneFree? { Alone(s, h); }
    }
  }

  lemma ReplaceKeeps(s: Group, flag: bool)
    requires Live(s) && s.owner.Some? && s.owner.value.at.Replace?
    ensures Live(OwnerStep(s, flag))
  {
    var s' := OwnerStep(s, flag);
    forall h | h in s'.closing ensures ClosingInv(s', h) { assert ClosingInv(s, h); }
    forall h | h in s'.guards ensures GuardInv(s', h) { assert GuardInv(s, h); }
  }

  lemma ShowKeeps(s: Group, flag: bool)
    requires Live(s) && s.owner.Some? && s.owner.value.at.Show?
    ensures Live(OwnerStep(s, flag))
  {
    var s' := OwnerStep(s, flag);
    forall h | h in s'.closing ensures ClosingInv(s', h) { assert ClosingInv(s, h); }
    forall h | h in s'.guards ensures GuardInv(s', h) {
      assert GuardInv(s, h);
      if s.guards[h].at.DoneFree? { Alone(s, h); }
    }
  }

  lemma OwnerLeaves(s: Group)
    requires Live(s) && s.owner.Some? && s.owner.value.at.DropExchange? && s.word == s.owner.value.at.seen
    requires IsLocked(s.word) || Count(s.word) > 1
    ensures Live(OwnerStep(s, false))
  {
    var s' := OwnerStep(s, false);
    SubOne(s.word);
    forall h | h in s'.closing ensures ClosingInv(s', h) { assert ClosingInv(s, h); }
    forall h | h in s'.guards ensures GuardInv(s', h) {
      assert GuardInv(s, h);
      if s.guards[h].at.DoneFree? { Alone(s, h); }
    }
  }

  lemma OwnerFrees(s: Group, flag: bool)
    requires Live(s) && s.owner.Some? && s.owner.value.at.DropFree?
    ensures Gone(OwnerStep(s, flag))
  {
    forall h | h in s.closing ensures s.closing[h].Wake? { assert ClosingInv(s, h); }
  }

  lemma OwnerKeeps(s: Group, flag: bool)
    requires Live(s) && s.owner.Some?
    ensures Inv(OwnerStep(s, flag))
  {
    var o := s.owner.value;
    match o.at {
    case Rest =>
    case Parked(_) =>
    case Check(w) => GoOwnerKeeps(s, OwnerStep(s, flag).owner.value.at);
    case Recheck(w) => GoOwnerKeeps(s, OwnerStep(s, flag).owner.value.at);
    case SetLoad(w) => SetKeeps(s, flag);
    case SetLock(w, seen) => SetKeeps(s, flag);
    case Replace(_, _) => ReplaceKeeps(s, flag);
    case Show(_, _) => ShowKeeps(s, flag);
    case DropLoad => GoOwnerKeeps(s, DropDecide(s.word));
    case DropExchange(seen) =>
      if s.word == seen && !flag { OwnerLeaves(s); } else { GoOwnerKeeps(s, DropDecide(s.word)); }
    case DropFree => OwnerFrees(s, flag);
    }
  }

  lemma SetKeeps(s: Group, flag: bool)
    requires Live(s) && s.owner.Some? && (s.owner.value.at.SetLoad? || s.owner.value.at.SetLock?)
    ensures Live(OwnerStep(s, flag))
  {
    var o := s.owner.value;
    if o.at.SetLock? && s.word == o.at.seen && !flag { LockKeeps(s); }
    else {
      SetDecides(s, o.at.wait);
      GoOwnerKeeps(s, SetDecide(s.word, o.threshold, o.at.wait));
    }
  }

  /** Tokens may be spent while nobody is parked. */
  lemma SpendKeeps(s: Group, wakes: set<Waker>)
    requires Live(s) && s.owner.Some? && !s.owner.value.at.Recheck? && !s.owner.value.at.Parked?
    ensures Live(s.(wakes := wakes))
  {
    var s' := s.(wakes := wakes);
    forall h | h in s'.closing ensures ClosingInv(s', h) { assert ClosingInv(s, h); }
    forall h | h in s'.guards ensures GuardInv(s', h) { assert GuardInv(s, h); }
  }

  lemma StartKeeps(s: Group, blocking: bool, me: Waker)
    requires Live(s) && OwnerAt(s, Rest)
    ensures Live(StartWait(s, blocking, me))
  {
    var s' := StartWait(s, blocking, me);
    GoOwnerKeeps(s, s'.owner.value.at);
    SpendKeeps(GoOwner(s, s'.owner.value.at), s'.wakes);
  }

  lemma ResumeKeeps(s: Group, me: Waker)
    requires Live(s) && OwnerParked(s) && (s.owner.value.at.wait.blocking ==> me == s.owner.value.at.wait.me)
    ensures Live(Resume(s, me))
  {
    var p := Check(s.owner.value.at.wait.(me := me));
    GoOwnerKeeps(s, p);
    SpendKeeps(GoOwner(s, p), s.wakes - {me});
  }

  /** A new threshold, set between waits. */
  lemma ThresholdKeeps(s: Group, n: nat)
    requires Live(s) && OwnerAt(s, Rest)
    ensures Live(s.(owner := Some(Owner(n + 1, Rest))))
  {
    var s' := s.(owner := Some(Owner(n + 1, Rest)));
    forall h | h in s'.closing ensures ClosingInv(s', h) { assert ClosingInv(s, h); }
    forall h | h in s'.guards ensures GuardInv(s', h) { assert GuardInv(s, h); }
  }

  /** A call that may add a reference holds one, and nobody is about to free the box. */
  lemma Lender(s: Group, m: Move)
    requires Live(s) && Enabled(s, m) && (m.AddGuard? || m.Clone?)
    ensures CanAdd(s, if m.AddGuard? then s.owner.value.threshold else s.guards[m.from].threshold)
  {
    if m.Clone? { NotAlone(s, m.from); }
    else {
      forall h | h in s.guards ensures !s.guards[h].at.DoneFree? {
        assert GuardInv(s, h);
        if s.guards[h].at.DoneFree? { Alone(s, h); }
      }
    }
  }

  lemma ApplyKeeps(s: Group, m: Move)
    requires Inv(s) && Enabled(s, m)
    ensures Inv(Apply(s, m))
  {
    if Gone(s) { GoneKeeps(s, m.g); }
    else {
      match m {
      case AddGuard(g) => Lender(s, m); AddKeeps(s, s.owner.value.threshold, g);
      case Clone(from, g) => Lender(s, m); AddKeeps(s, s.guards[from].threshold, g);
      case DropGuard(g) => assert GuardInv(s, g); GoGuardKeeps(s, g, DoneLoad);
      case Done(g, spurious) => GuardKeeps(s, g, spurious);
      case Close(g) => ClosingKeeps(s, g);
      case BeginWait(blocking, me) => StartKeeps(s, blocking, me);
      case Own(flag) => OwnerKeeps(s, flag);
      case Unpark => ResumeKeeps(s, s.owner.value.at.wait.me);
      case Poll(me) => ResumeKeeps(s, me);
      case GiveUp => GoOwnerKeeps(s, Rest);
      case SetThreshold(n) => ThresholdKeeps(s, n);
      case DropOwner => GoOwnerKeeps(s, DropLoad);
      }
    }
  }

  /** The owner, outside its drop, or a guard not being dropped may add. */
  predicate MayAdd(s: Group, from: Option<Tid>, g: Tid) {
    && g !in s.guards && g !in s.closing
    && (if from.None? then s.owner.Some? && (s.owner.value.at.Rest? || Waiting(s.owner.value.at))
        else from.value in s.guards && s.guards[from.value].at.Held?)
  }

  /** The threshold that the new guard gets. */
  function Lent(s: Group, from: Option<Tid>): nat
    requires if from.None? then s.owner.Some? else from.value in s.guards
  {
    if from.None? then s.owner.value.threshold else s.guards[from.value].threshold
  }

  /** An add keeps the box in order exactly when the count is below its maximum. */
  lemma AddKeepsIff(s: Group, from: Option<Tid>, g: Tid)
    requires Inv(s) && MayAdd(s, from, g)
    ensures Live(s)
    ensures Inv(Add(s, Lent(s, from), g)) <==> References(s) < COUNT_MASK
  {
    var m := if from.None? then AddGuard(g) else Clone(from.value, g);
    if References(s) < COUNT_MASK {
      Lender(s, m);
      AddKeeps(s, Lent(s, from), g);
    } else {
      AddOne(s.word);
    }
  }

  // ------------------------------------------------------------------------- what the machine promises

  /** Does the move access the box? Waking a waker that was taken out of the box does not. */
  predicate Touches(s: Group, m: Move) {
    !(m.Close? && m.g in s.closing && s.closing[m.g].Wake?)
  }

  /** No step touches the box after it was freed. */
  lemma TouchesLiveBox(s: Group, m: Move)
    requires Inv(s) && Enabled(s, m) && Touches(s, m)
    ensures s.freed == 0
  {
  }

  /**
   The box is freed at most once, and exactly when no reference is left and no `done` is between its
   lock and its last access.
   */
  lemma FreedOnce(s: Group)
    requires Inv(s)
    ensures s.freed <= 1
    ensures s.freed == 1 <==> s.owner.None? && s.guards == map[] && s.leaked == 0 && s.holder.Nobody?
  {
  }

  /** The step that frees the box is taken by its only user. */
  lemma FreeingStep(s: Group, m: Move)
    requires Inv(s) && Enabled(s, m) && Frees(s, m)
    ensures s.freed == 0 && References(s) + (if s.holder.Nobody? then 0 else 1) == 1
  {
    if m.Done? { assert GuardInv(s, m.g); }
    if m.Close? { assert ClosingInv(s, m.g); }
  }

  predicate Frees(s: Group, m: Move) {
    match m
    case Done(g, _) => g in s.guards && s.guards[g].at.DoneFree?
    case Close(g) => g in s.closing && s.closing[g].LastFree?
    case Own(_) => OwnerAt(s, DropFree)
    case _ => false
  }

  /** While the box lives the count is the number of references and the flags exclude each other. */
  lemma WordIsTrue(s: Group)
    requires Inv(s) && s.freed == 0
    ensures Count(s.word) == References(s) && !(HasWaker(s.word) && IsLocked(s.word))
    ensures HasWaker(s.word) ==> s.cell.Some?
  {
  }

  predicate OwnerUsesCell(s: Group) { s.owner.Some? && s.owner.value.at.Replace? }

  predicate DoneUsesCell(s: Group, g: Tid) { g in s.closing && s.closing[g].Take? }

  /** At most one call is at an access of the waker cell. */
  lemma CellHasOneUser(s: Group, g: Tid, h: Tid)
    requires Inv(s) && DoneUsesCell(s, g)
    ensures !OwnerUsesCell(s) && (DoneUsesCell(s, h) ==> h == g)
    ensures IsLocked(s.word) && s.cell.Some?
  {
    assert ClosingInv(s, g);
    if h in s.closing { assert ClosingInv(s, h); }
  }

  /** `try_done` never meets a count smaller than what it takes off. */
  lemma NoUnderflow(s: Group, g: Tid)
    requires Inv(s) && g in s.guards && s.guards[g].at.DoneExchange?
    ensures 1 <= Count(s.guards[g].at.seen)
  {
    assert Live(s);
    assert GuardInv(s, g);
  }

  /** A wait that ends by itself ends at an instant when the count is at or below the threshold. */
  lemma WaitReturns(s: Group, flag: bool)
    requires Inv(s) && Enabled(s, Own(flag)) && Waiting(s.owner.value.at)
    requires OwnerAt(Apply(s, Own(flag)), Rest)
    ensures References(s) <= s.owner.value.threshold
  {
  }

  /**
   No wake is lost. A parked waiter whose guards carry its threshold, and who has not been woken, is
   shown by the set flag while the count is above the threshold; or else a `done` will wake it.
   */
  lemma ParkedIsCovered(s: Group)
    requires Inv(s) && OwnerParked(s) && s.owner.value.at.wait.trusted && s.owner.value.at.wait.me !in s.wakes
    ensures var m := s.owner.value.at.wait.me;
            || (HasWaker(s.word) && s.cell == Some(m) && References(s) > s.owner.value.threshold)
            || exists g :: g in s.closing && Wakes(s.closing[g], s.cell, m)
  {
  }

  /**
   Exactly when a wake is missed. The waiter `me` is parked, nothing but the set flag speaks for it, and a
   guard is about to bring the count to the waiter's threshold: the guard takes up the wake if and only
   if the count it leaves is also within the threshold that the guard itself carries.
   */
  lemma WakeTakenUp(s: Group, g: Tid)
    requires Live(s) && OwnerParked(s) && g in s.guards
    requires s.guards[g].at == DoneExchange(s.word) && Count(s.word) - 1 <= s.owner.value.threshold
    requires var me := s.owner.value.at.wait.me; me !in s.wakes && !WakeComing(s, me)
    ensures WakeComing(GiveBack(s, g), s.owner.value.at.wait.me) <==> Count(s.word) - 1 <= s.guards[g].threshold
  {
    var me, s' := s.owner.value.at.wait.me, GiveBack(s, g);
    assert GuardInv(s, g);
    if Count(s.word) - 1 <= s.guards[g].threshold {
      assert Wakes(s'.closing[g], s'.cell, me);
    } else {
      assert s'.closing == s.closing && s'.cell == s.cell;
    }
  }

  /** The parked waiter has been woken, or will be, or the count is above its threshold and the flag set. */
  ghost predicate Covered(s: Group) {
    OwnerParked(s) && WakeDue(s, s.owner.value.at.wait.me, true, s.owner.value.threshold)
  }

  /** An exchange by a guard whose threshold is too low for the waiter, at the count that matters. */
  ghost predicate Misses(s: Group, m: Move) {
    && m.Done? && !m.spurious && m.g in s.guards && s.guards[m.g].at == DoneExchange(s.word)
    && OwnerParked(s) && s.owner.value.at.wait.me !in s.wakes && !WakeComing(s, s.owner.value.at.wait.me)
    && s.guards[m.g].threshold < Count(s.word) - 1 <= s.owner.value.threshold
  }

  /**
   Of all moves of all calls, those exchanges and no others leave a parked waiter uncovered. In
   particular none does if every guard carries at least the waiter's threshold.
   */
  lemma CoverLostIff(s: Group, m: Move)
    requires Inv(s) && Covered(s) && Enabled(s, m) && OwnerParked(Apply(s, m))
    ensures Covered(Apply(s, m)) <==> !Misses(s, m)
    ensures Covers(s.guards, s.owner.value.threshold) ==> !Misses(s, m)
  {
    var me, thr, s' := s.owner.value.at.wait.me, s.owner.value.threshold, Apply(s, m);
    match m {
    case AddGuard(g) => AddOne(s.word); DueKept(s, s', me, true, thr);
    case Clone(_, g) => AddOne(s.word); DueKept(s, s', me, true, thr);
    case DropGuard(_) => DueKept(s, s', me, true, thr);
    case Done(g, spurious) => DoneCovers(s, g, spurious);
    case Close(g) => CloseCovers(s, g);
    case _ =>
    }
  }

  lemma DoneCovers(s: Group, g: Tid, spurious: bool)
    requires Live(s) && Covered(s) && g in s.guards && !s.guards[g].at.Held? && GuardStep(s, g, spurious).owner == s.owner
    ensures Covered(GuardStep(s, g, spurious)) <==> !Misses(s, Done(g, spurious))
  {
    var me, thr, s' := s.owner.value.at.wait.me, s.owner.value.threshold, GuardStep(s, g, spurious);
    assert GuardInv(s, g);
    if s.guards[g].at.DoneExchange? && s.word == s.guards[g].at.seen && !spurious {
      if HasWaker(s.word) && s.cell == Some(me) && Count(s.word) - 1 <= s.guards[g].threshold {
        assert Wakes(s'.closing[g], s'.cell, me);
      }
      if Misses(s, Done(g, spurious)) { WakeTakenUp(s, g); } else { DueKept(s, s', me, true, thr); }
    } else {
      DueKept(s, s', me, true, thr);
    }
  }

  lemma CloseCovers(s: Group, g: Tid)
    requires Live(s) && Covered(s) && g in s.closing
    ensures Covered(ClosingStep(s, g))
  {
    var me, s' := s.owner.value.at.wait.me, ClosingStep(s, g);
    assert ClosingInv(s, g);
    forall h | h in s.closing && Wakes(s.closing[h], s.cell, me)
      ensures me in s'.wakes || (h in s'.closing && Wakes(s'.closing[h], s'.cell, me))
    {
      assert ClosingInv(s, h);
    }
    DueKept(s, s', me, true, s.owner.value.threshold);
  }

  /** Steps a `done` still takes before its wake. */
  function ToWake(c: Closing): nat {
    match c
    case Take => 3
    case Unlock(_) => 2
    case Wake(_) => 1
    case LastFree => 0
  }

  /** A `done` that has a waiter's waker goes on with every step until it has woken it. */
  lemma WakeArrives(s: Group, g: Tid, m: Waker)
    requires Inv(s) && s.owner.Some? && g in s.closing && Wakes(s.closing[g], s.cell, m)
    ensures var s' := ClosingStep(s, g);
            || m in s'.wakes
            || (g in s'.closing && Wakes(s'.closing[g], s'.cell, m) && ToWake(s'.closing[g]) < ToWake(s.closing[g]))
  {
    assert ClosingInv(s, g);
  }

  // -------------------------------------------------------------------------------------- whole runs

  /** The state after a run; `None` if some move was not possible when its turn came. */
  ghost function Run(threshold: nat, ms: seq<Move>): (r: Option<Group>)
    ensures r.Some? ==> Inv(r.value)
  {
    if ms == [] then
      NewKeeps(threshold);
      Some(New(threshold))
    else
      var n := |ms| - 1;
      var before := Run(threshold, ms[..n]);
      if before.Some? && Enabled(before.value, ms[n]) then
        ApplyKeeps(before.value, ms[n]);
        Some(Apply(before.value, ms[n]))
      else None
  }

  lemma OwnerFreed(s: Group, flag: bool)
    requires Live(s) && s.owner.Some?
    ensures OwnerStep(s, flag).freed == s.freed + (if s.owner.value.at.DropFree? then 1 else 0)
  {
  }

  lemma GuardFreed(s: Group, g: Tid, spurious: bool)
    requires Live(s) && g in s.guards
    ensures GuardStep(s, g, spurious).freed == s.freed + (if s.guards[g].at.DoneFree? then 1 else 0)
  {
  }

  /** The count of frees goes up at the three freeing steps only. */
  lemma FreedGrows(s: Group, m: Move)
    requires Inv(s) && Enabled(s, m)
    ensures Apply(s, m).freed == s.freed + (if Frees(s, m) then 1 else 0)
  {
    if m.Done? { GuardFreed(s, m.g, m.spurious); }
    else if m.Own? { OwnerFreed(s, m.flag); }
  }

  /** Once freed, a box is never freed again, however the run goes on. */
  lemma {:induction false} RunFreesOnce(threshold: nat, ms: seq<Move>, k: nat)
    requires k <= |ms| && Run(threshold, ms).Some?
    ensures Run(threshold, ms[..k]).Some?
    ensures Run(threshold, ms[..k]).value.freed <= Run(threshold, ms).value.freed <= 1
  {
    FreedOnce(Run(threshold, ms).value);
    if k == |ms| { assert ms[..k] == ms; }
    else {
      var n := |ms| - 1;
      assert ms[..n][..k] == ms[..k];
      RunFreesOnce(threshold, ms[..n], k);
      FreedGrows(Run(threshold, ms[..n]).value, ms[n]);
    }
  }

  lemma RunOn(threshold: nat, ms: seq<Move>, m: Move)
    requires Run(threshold, ms).Some? && Enabled(Run(threshold, ms).value, m)
    ensures Run(threshold, ms + [m]) == Some(Apply(Run(threshold, ms).value, m))
  {
    assert (ms + [m])[..|ms|] == ms;
  }

  /**
   Why the guards must carry the waiter's threshold: raised between two guards' creation and the wait,
   the threshold is reached by a `done` that does not know it, and the waiter sleeps on.
   */
  lemma RaisedThresholdSleeps(g: Tid, h: Tid, me: Waker) returns (ms: seq<Move>)
    requires g != h
    ensures Run(0, ms).Some?
    ensures var s := Run(0, ms).value;
            && OwnerParked(s) && !s.owner.value.at.wait.trusted
            && References(s) <= s.owner.value.threshold && s.wakes == {} && s.closing == map[]
  {
    ms := GuardsThenRaise(g, h);
    ms := ParkAbove(ms, me);
    var s := Run(0, ms).value;
    RunOn(0, ms, DropGuard(g));
    ms := ms + [DropGuard(g)];
    RunOn(0, ms, Done(g, false));
    ms := ms + [Done(g, false)];
    RunOn(0, ms, Done(g, false));
    ms := ms + [Done(g, false)];
    OneLess(s.guards, g);
  }

  lemma GuardsThenRaise(g: Tid, h: Tid) returns (ms: seq<Move>)
    requires g != h
    ensures Run(0, ms) == Some(Group(3, None, Some(Owner(2, Rest)), map[g := Guard(1, Held), h := Guard(1, Held)], map[],
                                     Nobody, 0, 0, {}))
  {
    ms := [];
    RunOn(0, ms, AddGuard(g));
    ms := ms + [AddGuard(g)];
    RunOn(0, ms, AddGuard(h));
    ms := ms + [AddGuard(h)];
    RunOn(0, ms, SetThreshold(1));
    ms := ms + [SetThreshold(1)];
  }

  /** A blocking wait begins, sees the count above the threshold, and comes to its waker. */
  lemma ReachReplace(before: seq<Move>, me: Waker) returns (ms: seq<Move>)
    requires Run(0, before).Some?
    requires var s := Run(0, before).value;
             s.word == 3 && s.owner == Some(Owner(2, Rest)) && !Covers(s.guards, 2)
    ensures Run(0, ms) ==
            Some(Run(0, before).value.(owner := Some(Owner(2, Replace(Wait(true, me, None, false), false)))))
  {
    RunOn(0, before, BeginWait(true, me));
    ms := before + [BeginWait(true, me)];
    RunOn(0, ms, Own(false));
    ms := ms + [Own(false)];
    RunOn(0, ms, Own(false));
    ms := ms + [Own(false)];
  }

  lemma PutAndShow(s: Group, w: Wait)
    requires Inv(s) && s.word == 3 && s.owner == Some(Owner(2, Replace(w, false)))
    ensures var s1 := s.(cell := Some(w.me), owner := Some(Owner(2, Show(w, false))));
            && Enabled(s, Own(false)) && Apply(s, Own(false)) == s1 && Inv(s1) && Enabled(s1, Own(false))
            && Apply(s1, Own(false)) ==
               s1.(word := 3 + SET, owner := Some(Owner(2, Parked(w.(kept := Some(w.me))))))
  {
    ApplyKeeps(s, Own(false));
  }

  lemma ParkAbove(before: seq<Move>, me: Waker) returns (ms: seq<Move>)
    requires Run(0, before).Some?
    requires var s := Run(0, before).value;
             s.word == 3 && s.owner == Some(Owner(2, Rest)) && !Covers(s.guards, 2)
    ensures Run(0, ms) == Some(Run(0, before).value.(
              word := 3 + SET, cell := Some(me), owner := Some(Owner(2, Parked(Wait(true, me, Some(me), false))))))
  {
    ms := ReachReplace(before, me);
    PutAndShow(Run(0, ms).value, Wait(true, me, None, false));
    RunOn(0, ms, Own(false));
    ms := ms + [Own(false)];
    RunOn(0, ms, Own(false));
    ms := ms + [Own(false)];
  }

  // ---------------------------------------------------------------------------- the box, in place

  /** The shared box with the calls under way; each method is one access, made in place. */
  class Memory {
    var word: nat
    var cell: Option<Waker>
    var owner: Option<Owner>
    var guards: map<Tid, Guard>
    var closing: map<Tid, Closing>
    ghost var holder: Holder
    ghost var leaked: nat
    var freed: nat
    var wakes: set<Waker>

    ghost function View(): Group
      reads this
    {
      Group(word, cell, owner, guards, closing, holder, leaked, freed, wakes)
    }

    constructor (threshold: nat)
      ensures View() == New(threshold) && Inv(View())
    {
      word, cell, owner, guards, closing := 1, None, Some(Owner(threshold + 1, Rest)), map[], map[];
      holder, leaked, freed, wakes := Nobody, 0, 0, {};
    }

    /**
     `add`, for the owner (`from` is none) or for a guard being cloned. It panics within two of the
     maximum, after adding; at the maximum itself the sum spoils the flags, and only then.
     */
    method FetchAdd(from: Option<Tid>, g: Tid) returns (panics: bool)
      requires Inv(View()) && MayAdd(View(), from, g)
      modifies this`word, this`guards, this`leaked
      ensures View() == Add(old(View()), Lent(old(View()), from), g)
      ensures Inv(View()) <==> References(old(View())) < COUNT_MASK
      ensures panics <==> References(old(View())) >= COUNT_MASK - 2
    {
      AddKeepsIff(View(), from, g);
      var threshold := if from.None? then owner.value.threshold else guards[from.value].threshold;
      panics := Count(word) >= COUNT_MASK - 2;
      word := word + 1;
      if panics { leaked := leaked + 1; } else { guards := guards[g := Guard(threshold, Held)]; }
    }

    /** The loads of `done`, and its exchange. */
    method DoneAccess(g: Tid, spurious: bool)
      requires Inv(View()) && Enabled(View(), Done(g, spurious)) && !guards[g].at.DoneFree?
      modifies this`word, this`guards, this`closing, this`holder
      ensures View() == GuardStep(old(View()), g, spurious) && Inv(View())
    {
      GuardKeeps(View(), g, spurious);
      var Guard(threshold, at) := guards[g];
      if at.DoneExchange? && word == at.seen && !spurious {
        assert GuardInv(View(), g);
        var (next, lock) := TryDone(at.seen, 1, threshold);
        word, guards := next, guards - {g};
        if lock { closing, holder := closing[g := Take], ByDone(g); }
      } else if at.DoneAgain? && word == at.seen {
        guards := guards[g := Guard(threshold, DoneFree)];
      } else {
        guards := guards[g := Guard(threshold, DoneDecide(word))];
      }
    }

    /** The last guard frees the box. */
    method FreeByGuard(g: Tid)
      requires Inv(View()) && g in guards && guards[g].at.DoneFree?
      modifies this`guards, this`freed
      ensures View() == GuardStep(old(View()), g, false) && Inv(View()) && old(freed) == 0 && freed == 1
    {
      GuardKeeps(View(), g, false);
      freed, guards := freed + 1, guards - {g};
    }

    /** A `done` with the lock takes the waker out, unlocks, and then frees the box or wakes. */
    method Close(g: Tid)
      requires Inv(View()) && g in closing
      modifies this
      ensures View() == ClosingStep(old(View()), g) && Inv(View())
    {
      if closing[g].Wake? {
        if Gone(View()) { GoneKeeps(View(), g); } else { ClosingKeeps(View(), g); }
        wakes, closing := wakes + {closing[g].w}, closing - {g};
      } else {
        ClosingKeeps(View(), g);
        match closing[g] {
        case Take => cell, closing := None, closing[g := Unlock(cell)];
        case LastFree => freed, holder, closing := freed + 1, Nobody, closing - {g};
        case Unlock(w) =>
          var before := word;
          word := Count(word);
          if Count(before) == 0 { holder, closing := Last(g), closing[g := LastFree]; }
          else {
            holder := Nobody;
            closing := if w.Some? then closing[g := Wake(w.value)] else closing - {g};
          }
        }
      }
    }

    /** The loads of a wait, and of `try_set_waker`, and the exchange that locks the waker cell. */
    method WaitAccess(flag: bool)
      requires Inv(View()) && owner.Some?
      requires owner.value.at.Check? || owner.value.at.Recheck? || owner.value.at.SetLoad? || owner.value.at.SetLock?
      modifies this`word, this`holder, this`owner
      ensures View() == OwnerStep(old(View()), flag) && Inv(View())
    {
      OwnerKeeps(View(), flag);
      var Owner(threshold, at) := owner.value;
      var wait := at.wait;
      if at.SetLock? && word == at.seen && !flag {
        word, holder, at := TryLock(word), ByOwner, Replace(wait, true);
      } else if at.SetLoad? || at.SetLock? {
        at := SetDecide(word, threshold, wait);
      } else if Count(word) <= threshold {
        at := Rest;
      } else if at.Recheck? {
        at := Parked(wait);
      } else if wait.blocking {
        if !flag { at := SetLoad(wait); }
      } else {
        at := if HasWaker(word) && wait.kept == Some(wait.me) then Recheck(wait) else SetLoad(wait);
      }
      owner := Some(Owner(threshold, at));
    }

    /** The waiter puts its waker into the cell ... */
    method PutWaker()
      requires Inv(View()) && OwnerUsesCell(View())
      modifies this`cell, this`owner
      ensures View() == OwnerStep(old(View()), false) && Inv(View())
    {
      OwnerKeeps(View(), false);
      var Owner(threshold, at) := owner.value;
      cell, owner := Some(at.wait.me), Some(Owner(threshold, Show(at.wait, at.locked)));
    }

    /** ... and shows it by the set flag. */
    method ShowWaker() returns (ready: bool)
      requires Inv(View()) && owner.Some? && owner.value.at.Show?
      modifies this`word, this`holder, this`owner
      ensures View() == OwnerStep(old(View()), false) && Inv(View())
      ensures ready <==> References(old(View())) <= old(owner.value.threshold)
    {
      OwnerKeeps(View(), false);
      var Owner(threshold, at) := owner.value;
      var before := word;
      if at.locked { word, holder := XorMask(word), Nobody; } else { word := OrSet(word); }
      ready := Count(before) <= threshold;
      owner := Some(Owner(threshold, Announced(before, threshold, at.wait)));
    }

    /** `destroy`: the load, the exchange, and the free. */
    method Destroy(spurious: bool)
      requires Inv(View()) && owner.Some?
      requires owner.value.at.DropLoad? || owner.value.at.DropExchange? || owner.value.at.DropFree?
      modifies this`word, this`owner, this`freed
      ensures View() == OwnerStep(old(View()), spurious) && Inv(View())
    {
      OwnerKeeps(View(), spurious);
      var Owner(threshold, at) := owner.value;
      if at.DropFree? { freed, owner := freed + 1, None; }
      else if at.DropExchange? && word == at.seen && !spurious { word, owner := word - 1, None; }
      else { owner := Some(Owner(threshold, DropDecide(word))); }
    }
  }
}
