/** Exit orders of the options book: exactly which steps keep every position with a single working
    exit that its record points at. When two exits of a position both work is PositionSales. */
module PositionExits {
  import opened Prelude
  import opened PositionBook
  import opened PositionSafety

  predicate IsExit(o: Order) {
    !o.kind.EntryBuy?
  }

  /** An exit order of k that has filled or still can. */
  predicate Working(s: State, i: int, k: nat) {
    0 <= i < |s.orders| && s.orders[i].owner == k && IsExit(s.orders[i]) && s.orders[i].status != Dead
  }

  /** The signal's buy filled for this many contracts. */
  ghost predicate Bought(s: State, k: nat, qty: int) {
    exists j | 0 <= j < |s.orders| ::
      s.orders[j].owner == k && s.orders[j].kind.EntryBuy? && s.orders[j].status.Filled? && s.orders[j].qty == qty
  }

  predicate PointsAt(r: Record, i: int) {
    r.stopOrder == Some(i) || r.manualOrder == Some(i)
  }

  /** Every signal has at most one working exit order, and an open record points at it. */
  ghost predicate Sole(s: State) {
    && (forall i, j, k: nat | Working(s, i, k) && Working(s, j, k) :: i == j)
    && (forall k <- s.open, i | Working(s, i, k) :: PointsAt(s.open[k], i))
    && (forall i, k: nat | Working(s, i, k) :: k < |s.signals|)
  }

  /** Exit orders are for the quantity the signal bought. */
  ghost predicate Backed(s: State) {
    && (forall i | 0 <= i < |s.orders| :: IsExit(s.orders[i]) ==> Bought(s, s.orders[i].owner, s.orders[i].qty))
    && (forall k <- s.open :: Bought(s, k, s.open[k].qty))
  }

  /** A record points at a stop and at a manual sell of its own signal. */
  predicate OwnsPointers(orders: seq<Order>, k: nat, r: Record) {
    && (r.stopOrder.Some? ==> IsOwn(orders, r.stopOrder.value, k, StopSell))
    && (r.manualOrder.Some? ==> IsOwn(orders, r.manualOrder.value, k, ManualSell))
  }

  predicate IsOwn(orders: seq<Order>, i: nat, k: nat, kind: Kind) {
    i < |orders| && orders[i].owner == k && orders[i].kind == kind
  }

  /** Every position has a single exit: at most one order that sells it works, for what was bought,
      and while the position is open its record points at that order. */
  ghost predicate Single(s: State) {
    Sole(s) && Backed(s) && forall k <- s.open :: OwnsPointers(s.orders, k, s.open[k])
  }

  // ---- Which steps are safe -------------------------------------------------------------------

  /** A cancel request leaves nothing working: there is no order, it is dead already, or it is
      live and the cancel takes effect. */
  predicate Clears(orders: seq<Order>, id: Option<nat>, takes: bool) {
    id.None? || id.value >= |orders| || orders[id.value].status == Dead
    || (orders[id.value].status == Live && takes)
  }

  /** Handling a "Sell now": the handler forgets the stop whatever happens. */
  predicate RequestIsSafe(s: State, sig: nat, takes: bool, manual: ManualFate)
    requires sig in s.open
  {
    !manual.ManualUnaudited? && Clears(s.orders, s.open[sig].stopOrder, takes)
  }

  /** _close_position: an accepted sell must be booked, and neither the stop nor a manual sell
      may be left working. */
  predicate CloseIsSafe(s: State, sig: nat, env: CloseEnv)
    requires sig in s.open
  {
    match env.sell
    case SellRejected => true
    case SellAbandoned(_) => false
    case SellBooked(_) =>
      Clears(s.orders, s.open[sig].stopOrder, env.cancelTakes) && Clears(s.orders, s.open[sig].manualOrder, false)
  }

  /** modify_stop: when a new stop is accepted, the old one must be dead or die. */
  predicate ModifyIsSafe(s: State, sig: nat, fate: ModifyFate)
    requires sig in s.open && s.open[sig].stopOrder.Some?
  {
    Restops(s, sig, fate) ==> Clears(s.orders, s.open[sig].stopOrder, fate.swaps || fate.cancelTakes)
  }

  /** modify_stop returns a new stop order. */
  predicate Restops(s: State, sig: nat, fate: ModifyFate)
    requires sig in s.open && s.open[sig].stopOrder.Some?
  {
    var id := s.open[sig].stopOrder.value;
    (fate.swaps && id < |s.orders| && s.orders[id].status == Live) || !fate.submitRaises
  }

  /** An advance is safe when what it sends is. */
  predicate AdvanceIsSafe(s: State, sig: nat, e: Event)
    requires e.FinishAdvance? && sig in s.open
  {
    Verdict(s.open[sig], e).Ok? ==>
      && (PushesStop(s, sig, e) ==> ModifyIsSafe(s, sig, e.push))
      && (ActsOnExit(s, sig, e) ==> CloseIsSafe(Pushed(s, sig, e), sig, e.env))
  }

  /** The adoption that counts for its contract. */
  predicate LastFor(adoptions: seq<Adoption>, i: nat)
    requires i < |adoptions|
  {
    forall j | i < j < |adoptions| :: adoptions[j].contract != adoptions[i].contract
  }

  /** A position may be adopted when every exit order of its signal that still works is the stop
      the record will point at, that stop is its own, and the size is what it bought. */
  ghost predicate AdoptionIsSafe(s: State, a: Adoption) {
    var origin := LatestTaken(s, a.contract, |s.signals|);
    origin.Some? ==>
      && (forall i | Working(s, i, origin.value) :: AdoptedStop(s, a) == Some(i))
      && (AdoptedStop(s, a).Some? ==> s.orders[AdoptedStop(s, a).value].owner == origin.value)
      && Bought(s, origin.value, a.qty)
  }

  /** What a caller can check before the step. */
  ghost predicate Safe(s: State, e: Event) {
    match e
    case DrainRequest(takes, manual) =>
      s.phase.Idle? && s.queue != [] && s.queue[0] in s.open ==> RequestIsSafe(s, s.queue[0], takes, manual)
    case FinishAdvance(_, _, _, _, _) =>
      s.phase.Quoted? && s.phase.signal in s.open ==> AdvanceIsSafe(s, s.phase.signal, e)
    case Flatten(sig, env) => s.phase.Idle? && sig in s.open ==> CloseIsSafe(s, sig, env)
    case Restart(adoptions) => forall i | 0 <= i < |adoptions| && LastFor(adoptions, i) :: AdoptionIsSafe(s, adoptions[i])
    case _ => true
  }

  ghost predicate SafeRun(s: State, es: seq<Event>, cfg: Config) {
    es == [] || (SafeRun(s, es[..|es| - 1], cfg) && Safe(Run(s, es[..|es| - 1], cfg), es[|es| - 1]))
  }

  // ---- Steps that add no exit order ---------------------------------------------------------

  /** Existing orders keep their identity and their fills, and the dead stay dead. */
  ghost predicate Settles(a: seq<Order>, b: seq<Order>) {
    && |a| <= |b|
    && forall i | 0 <= i < |a| ::
         && b[i].owner == a[i].owner && b[i].kind == a[i].kind && b[i].qty == a[i].qty
         && (a[i].status.Filled? ==> b[i].status == a[i].status)
         && (a[i].status == Dead ==> b[i].status == Dead)
  }

  lemma BoughtStays(s: State, t: State, k: nat, qty: int)
    requires Bought(s, k, qty) && Settles(s.orders, t.orders)
    ensures Bought(t, k, qty)
  {
    var j :| 0 <= j < |s.orders| && s.orders[j].owner == k && s.orders[j].kind.EntryBuy?
             && s.orders[j].status.Filled? && s.orders[j].qty == qty;
    assert t.orders[j].owner == k && t.orders[j].status == s.orders[j].status;
  }

  lemma NoNewExitKeepsSingle(s: State, t: State)
    requires Single(s) && Settles(s.orders, t.orders) && |s.signals| <= |t.signals|
    requires forall i | |s.orders| <= i < |t.orders| :: !IsExit(t.orders[i])
    requires forall k <- t.open :: k in s.open && t.open[k].qty == s.open[k].qty
               && OwnsPointers(t.orders, k, t.open[k]) && (forall i | Working(t, i, k) :: PointsAt(t.open[k], i))
    ensures Single(t)
  {
    forall i, k: nat ensures Working(t, i, k) ==> Working(s, i, k) {}
    forall i | 0 <= i < |t.orders| && IsExit(t.orders[i]) ensures Bought(t, t.orders[i].owner, t.orders[i].qty) {
      BoughtStays(s, t, s.orders[i].owner, s.orders[i].qty);
    }
    forall k <- t.open ensures Bought(t, k, t.open[k].qty) {
      BoughtStays(s, t, k, s.open[k].qty);
    }
  }

  /** Records may leave or change their flags and position; statuses may settle. */
  lemma SettlingKeepsSingle(s: State, t: State)
    requires Single(s) && Settles(s.orders, t.orders) && |t.orders| == |s.orders| && |s.signals| <= |t.signals|
    requires forall k <- t.open :: k in s.open && SameExits(s.open[k], t.open[k])
    ensures Single(t)
  {
    forall i, k: nat ensures Working(t, i, k) ==> Working(s, i, k) {}
    forall k <- t.open
      ensures OwnsPointers(t.orders, k, t.open[k]) && forall i | Working(t, i, k) :: PointsAt(t.open[k], i)
    {
      assert OwnsPointers(s.orders, k, s.open[k]);
      forall i | Working(t, i, k) ensures PointsAt(t.open[k], i) {
        assert Working(s, i, k) && PointsAt(s.open[k], i);
      }
    }
    NoNewExitKeepsSingle(s, t);
  }

  predicate SameExits(a: Record, b: Record) {
    a.qty == b.qty && a.stopOrder == b.stopOrder && a.manualOrder == b.manualOrder
  }

  /** One order is appended for a signal that has nothing working; an open record points at it. */
  lemma OneNewExitKeepsSingle(s: State, t: State, sig: nat)
    requires Single(s) && sig < |s.signals| <= |t.signals|
    requires |t.orders| == |s.orders| + 1 && t.orders[..|s.orders|] == s.orders
    requires var o := t.orders[|s.orders|]; o.owner == sig && IsExit(o) && Bought(s, sig, o.qty)
    requires forall i :: !Working(s, i, sig)
    requires forall k <- t.open ::
               if k == sig then
                 && PointsAt(t.open[k], |s.orders|) && OwnsPointers(t.orders, k, t.open[k])
                 && t.open[k].qty == t.orders[|s.orders|].qty
               else k in s.open && t.open[k] == s.open[k]
    ensures Single(t)
  {
    var n := |s.orders|;
    forall i | 0 <= i < n ensures t.orders[i] == s.orders[i] {
      assert t.orders[..n][i] == s.orders[i];
    }
    forall i, k: nat ensures Working(t, i, k) ==> Working(s, i, k) || (i == n && k == sig) {}
    forall i | 0 <= i < |t.orders| && IsExit(t.orders[i]) ensures Bought(t, t.orders[i].owner, t.orders[i].qty) {
      BoughtStays(s, t, t.orders[i].owner, t.orders[i].qty);
    }
    forall k <- t.open ensures Bought(t, k, t.open[k].qty) && OwnsPointers(t.orders, k, t.open[k]) {
      BoughtStays(s, t, k, t.open[k].qty);
      assert k != sig ==> OwnsPointers(s.orders, k, s.open[k]);
    }
  }

  /** Asking for a cancel of one order, with nothing else changed. */
  lemma CancelKeepsSingle(s: State, id: Option<nat>, takes: bool)
    requires Single(s)
    ensures Single(s.(orders := Cancelled(s.orders, id, takes)))
  {
    SettlingKeepsSingle(s, s.(orders := Cancelled(s.orders, id, takes)));
  }

  /** The exit orders of an open position are the ones its record points at. */
  lemma OnlyPointersWork(s: State, t: State, sig: nat)
    requires Single(s) && sig in s.open && Settles(s.orders, t.orders) && |t.orders| == |s.orders|
    requires var r := s.open[sig];
             && (r.stopOrder.Some? ==> t.orders[r.stopOrder.value].status == Dead)
             && (r.manualOrder.Some? ==> t.orders[r.manualOrder.value].status == Dead)
    ensures forall i :: !Working(t, i, sig)
  {
    forall i ensures !Working(t, i, sig) {
      assert Working(t, i, sig) ==> Working(s, i, sig);
      assert Working(s, i, sig) ==> PointsAt(s.open[sig], i);
    }
  }

  // ---- Closing, asking, modifying: exactly when ------------------------------------------------

  lemma BookedCloseKeepsSingle(s: State, sig: nat, reason: S.ExitReason, nominal: real, env: CloseEnv)
    requires Inv(s) && Single(s) && sig in s.open && env.sell.SellBooked? && CloseIsSafe(s, sig, env)
    ensures Single(Closed(s, sig, reason, nominal, env))
  {
    var t := Closed(s, sig, reason, nominal, env);
    var cleared := s.(orders := Cancelled(s.orders, s.open[sig].stopOrder, env.cancelTakes));
    assert OwnsPointers(s.orders, sig, s.open[sig]);
    CancelKeepsSingle(s, s.open[sig].stopOrder, env.cancelTakes);
    OnlyPointersWork(s, cleared, sig);
    BoughtStays(s, cleared, sig, s.open[sig].qty);
    assert t.orders[..|cleared.orders|] == cleared.orders;
    OneNewExitKeepsSingle(cleared, t, sig);
  }

  /** Exactly when closing a position leaves it with a single exit: a sell that is accepted but not
      booked works without a record that points at it. */
  lemma CloseIsSafeIff(s: State, sig: nat, reason: S.ExitReason, nominal: real, env: CloseEnv)
    requires Inv(s) && Single(s) && sig in s.open
    ensures Single(Closed(s, sig, reason, nominal, env)) <==> CloseIsSafe(s, sig, env)
    ensures Sole(Closed(s, sig, reason, nominal, env)) <==> CloseIsSafe(s, sig, env)
  {
    var r, t, n := s.open[sig], Closed(s, sig, reason, nominal, env), |s.orders|;
    assert OwnsPointers(s.orders, sig, r);
    match env.sell
    case SellRejected => CancelKeepsSingle(s, r.stopOrder, env.cancelTakes);
    case SellAbandoned(_) =>
      assert Working(t, n, sig) && !PointsAt(t.open[sig], n);
    case SellBooked(_) =>
      assert Working(t, n, sig);
      if CloseIsSafe(s, sig, env) {
        BookedCloseKeepsSingle(s, sig, reason, nominal, env);
      } else if !Clears(s.orders, r.stopOrder, env.cancelTakes) {
        assert Working(t, r.stopOrder.value, sig);
      } else {
        ManualSurvives(s, sig, reason, nominal, env);
      }
  }

  lemma ManualSurvives(s: State, sig: nat, reason: S.ExitReason, nominal: real, env: CloseEnv)
    requires Single(s) && sig in s.open && env.sell.SellBooked?
    requires Clears(s.orders, s.open[sig].stopOrder, env.cancelTakes)
    requires !Clears(s.orders, s.open[sig].manualOrder, false)
    ensures !Sole(Closed(s, sig, reason, nominal, env))
  {
    var r, t := s.open[sig], Closed(s, sig, reason, nominal, env);
    var m := r.manualOrder.value;
    assert OwnsPointers(s.orders, sig, r);
    assert Working(t, |s.orders|, sig) && Working(t, m, sig);
  }

  lemma SentRequestKeepsSingle(s: State, sig: nat, takes: bool)
    requires Inv(s) && Single(s) && sig in s.open && s.open[sig].manualOrder.None?
    requires Clears(s.orders, s.open[sig].stopOrder, takes)
    ensures Single(Requested(s, sig, takes, ManualSent))
  {
    var t := Requested(s, sig, takes, ManualSent);
    var cleared := s.(orders := Cancelled(s.orders, s.open[sig].stopOrder, takes));
    assert OwnsPointers(s.orders, sig, s.open[sig]);
    CancelKeepsSingle(s, s.open[sig].stopOrder, takes);
    OnlyPointersWork(s, cleared, sig);
    BoughtStays(s, cleared, sig, s.open[sig].qty);
    assert t.orders[..|cleared.orders|] == cleared.orders;
    OneNewExitKeepsSingle(cleared, t, sig);
  }

  lemma RejectedRequestKeepsSingle(s: State, sig: nat, takes: bool)
    requires Inv(s) && Single(s) && sig in s.open && s.open[sig].manualOrder.None?
    requires Clears(s.orders, s.open[sig].stopOrder, takes)
    ensures Single(Requested(s, sig, takes, ManualRejected))
  {
    var t := Requested(s, sig, takes, ManualRejected);
    var cleared := s.(orders := Cancelled(s.orders, s.open[sig].stopOrder, takes));
    assert OwnsPointers(s.orders, sig, s.open[sig]);
    CancelKeepsSingle(s, s.open[sig].stopOrder, takes);
    OnlyPointersWork(s, cleared, sig);
    forall k <- t.open
      ensures OwnsPointers(t.orders, k, t.open[k]) && forall i | Working(t, i, k) :: PointsAt(t.open[k], i)
    {
      assert OwnsPointers(cleared.orders, k, cleared.open[k]);
      forall i | Working(t, i, k) ensures PointsAt(t.open[k], i) {
        assert Working(cleared, i, k);
      }
    }
    NoNewExitKeepsSingle(cleared, t);
  }

  /** Exactly when handling a "Sell now" leaves the position with a single exit: the handler never
      looks whether the stop has filled and forgets it in every case. */
  lemma RequestIsSafeIff(s: State, sig: nat, takes: bool, manual: ManualFate)
    requires Inv(s) && Single(s) && sig in s.open && s.open[sig].manualOrder.None?
    ensures Single(Requested(s, sig, takes, manual)) <==> RequestIsSafe(s, sig, takes, manual)
    ensures Sole(Requested(s, sig, takes, manual)) <==> RequestIsSafe(s, sig, takes, manual)
  {
    var r, t, n := s.open[sig], Requested(s, sig, takes, manual), |s.orders|;
    assert OwnsPointers(s.orders, sig, r);
    if manual.ManualUnaudited? {
      assert Working(t, n, sig) && !PointsAt(t.open[sig], n);
    } else if !Clears(s.orders, r.stopOrder, takes) {
      assert Working(t, r.stopOrder.value, sig) && !PointsAt(t.open[sig], r.stopOrder.value);
    } else if manual.ManualSent? {
      SentRequestKeepsSingle(s, sig, takes);
    } else {
      RejectedRequestKeepsSingle(s, sig, takes);
    }
  }

  /** The orders once modify_stop has dealt with the old stop. */
  function Unstopped(s: State, sig: nat, fate: ModifyFate): State
    requires sig in s.open && s.open[sig].stopOrder.Some?
  {
    var id := s.open[sig].stopOrder.value;
    var replaced := fate.swaps && id < |s.orders| && s.orders[id].status == Live;
    s.(orders := Cancelled(s.orders, s.open[sig].stopOrder, replaced || fate.cancelTakes))
  }

  lemma AcceptedModifyKeepsSingle(s: State, sig: nat, newStop: real, fate: ModifyFate)
    requires Inv(s) && Single(s) && sig in s.open && s.open[sig].manualOrder.None?
    requires s.open[sig].stopOrder.Some? && Restops(s, sig, fate) && ModifyIsSafe(s, sig, fate)
    ensures Single(Restopped(s, sig, newStop, fate))
  {
    var t, cleared := Restopped(s, sig, newStop, fate), Unstopped(s, sig, fate);
    assert OwnsPointers(s.orders, sig, s.open[sig]);
    SettlingKeepsSingle(s, cleared);
    OnlyPointersWork(s, cleared, sig);
    BoughtStays(s, cleared, sig, s.open[sig].qty);
    assert t.orders[..|cleared.orders|] == cleared.orders;
    OneNewExitKeepsSingle(cleared, t, sig);
  }

  /** Exactly when modify_stop leaves the position with a single exit: an accepted new stop
      needs the old one dead, or live and swapped or effectively cancelled. A stop that has just
      filled is replaced all the same. */
  lemma ModifyIsSafeIff(s: State, sig: nat, newStop: real, fate: ModifyFate)
    requires Inv(s) && Single(s) && sig in s.open && s.open[sig].manualOrder.None?
    requires s.open[sig].stopOrder.Some?
    ensures Single(Restopped(s, sig, newStop, fate)) <==> ModifyIsSafe(s, sig, fate)
    ensures Sole(Restopped(s, sig, newStop, fate)) <==> ModifyIsSafe(s, sig, fate)
  {
    var r, t := s.open[sig], Restopped(s, sig, newStop, fate);
    assert OwnsPointers(s.orders, sig, r);
    if !Restops(s, sig, fate) {
      SettlingKeepsSingle(s, t);
    } else if ModifyIsSafe(s, sig, fate) {
      AcceptedModifyKeepsSingle(s, sig, newStop, fate);
    } else {
      assert Working(t, r.stopOrder.value, sig) && Working(t, |s.orders|, sig);
    }
  }

  // ---- The advance ---------------------------------------------------------------------------

  lemma EvaluatedKeepsSingle(s: State, sig: nat, position: S.Position)
    requires Inv(s) && Single(s) && sig in s.open
    ensures Single(Evaluated(s, sig, position)) && Inv(Evaluated(s, sig, position))
  {
    SettlingKeepsSingle(s, Evaluated(s, sig, position));
    SameBooksKeepInv(s, Evaluated(s, sig, position));
  }

  lemma PushIsSafeIff(s: State, sig: nat, e: Event)
    requires Inv(s) && Single(s) && e.FinishAdvance? && sig in s.open && s.open[sig].manualOrder.None?
    requires Verdict(s.open[sig], e).Ok?
    ensures var safe := PushesStop(s, sig, e) ==> ModifyIsSafe(s, sig, e.push);
            && (Single(Pushed(s, sig, e)) <==> safe) && (Sole(Pushed(s, sig, e)) <==> safe)
  {
    var position := Verdict(s.open[sig], e).value.position;
    EvaluatedKeepsSingle(s, sig, position);
    if PushesStop(s, sig, e) {
      ModifyIsSafeIff(Evaluated(s, sig, position), sig, position.stopPrice, e.push);
    }
  }

  /** Two working exit orders of a position never become a single exit, whatever the close sends. */
  lemma CloseNeverHeals(s: State, sig: nat, reason: S.ExitReason, nominal: real, env: CloseEnv, i: nat)
    requires sig in s.open && s.open[sig].stopOrder.Some? && i < s.open[sig].stopOrder.value < |s.orders|
    requires Working(s, i, sig) && s.open[sig].manualOrder.None?
    ensures !Sole(Closed(s, sig, reason, nominal, env))
  {
    var t := Closed(s, sig, reason, nominal, env);
    assert Working(t, i, sig);
    if env.sell.SellBooked? {
      assert Working(t, |s.orders|, sig);
    } else {
      assert !PointsAt(t.open[sig], i);
    }
  }

  lemma UnsafePushStays(s: State, sig: nat, e: Event)
    requires Inv(s) && Single(s) && e.FinishAdvance? && sig in s.open && s.open[sig].manualOrder.None?
    requires Verdict(s.open[sig], e).Ok? && PushesStop(s, sig, e) && !ModifyIsSafe(s, sig, e.push)
    ensures !Sole(Managed(s, sig, e))
  {
    var mid, id := Pushed(s, sig, e), s.open[sig].stopOrder.value;
    assert OwnsPointers(s.orders, sig, s.open[sig]);
    assert Working(mid, id, sig) && mid.open[sig].stopOrder == Some(|s.orders|) && |mid.orders| == |s.orders| + 1;
    PushIsSafeIff(s, sig, e);
    if ActsOnExit(s, sig, e) {
      CloseNeverHeals(mid, sig, Verdict(s.open[sig], e).value.exit.value.reason, e.quote.value, e.env, id);
    }
  }

  /** Exactly when an advance leaves the position with a single exit. */
  lemma AdvanceIsSafeIff(s: State, sig: nat, e: Event)
    requires Inv(s) && Single(s) && e.FinishAdvance? && sig in s.open && s.open[sig].manualOrder.None?
    ensures Single(Managed(s, sig, e)) <==> AdvanceIsSafe(s, sig, e)
    ensures Sole(Managed(s, sig, e)) <==> AdvanceIsSafe(s, sig, e)
  {
    var verdict := Verdict(s.open[sig], e);
    if verdict.Ok? {
      PushedShape(s, sig, e);
      PushIsSafeIff(s, sig, e);
      if PushesStop(s, sig, e) && !ModifyIsSafe(s, sig, e.push) {
        UnsafePushStays(s, sig, e);
      } else if ActsOnExit(s, sig, e) {
        SameBooksKeepInv(s, Pushed(s, sig, e));
        CloseIsSafeIff(Pushed(s, sig, e), sig, verdict.value.exit.value.reason, e.quote.value, e.env);
      }
    }
  }

  // ---- Entries and restarts --------------------------------------------------------------------

  lemma EnterKeepsSingle(s: State, sig: nat, e: Event, qty: int, cfg: Config)
    requires e.Post? && Single(s) && |s.signals| == sig + 1
    requires sig !in s.open && forall i :: !Working(s, i, sig)
    ensures Single(Enter(s, sig, e, qty, cfg))
  {
    var t := Enter(s, sig, e, qty, cfg);
    EnterAppends(s, sig, e, qty, cfg);
    if |t.orders| > |s.orders| {
      var bought := s.(orders := s.orders + [t.orders[|s.orders|]]);
      forall k <- s.open
        ensures OwnsPointers(bought.orders, k, s.open[k]) && forall i | Working(bought, i, k) :: PointsAt(s.open[k], i)
      {
        assert OwnsPointers(s.orders, k, s.open[k]);
        assert forall i | Working(bought, i, k) :: Working(s, i, k);
      }
      NoNewExitKeepsSingle(s, bought);
      if |t.orders| > |s.orders| + 1 {
        assert bought.orders[|s.orders|].owner == sig && bought.orders[|s.orders|].qty == qty;
        assert Bought(bought, sig, qty);
        assert forall i | Working(bought, i, sig) :: Working(s, i, sig);
        assert t.orders[..|bought.orders|] == bought.orders;
        OneNewExitKeepsSingle(bought, t, sig);
      } else {
        assert t.orders == bought.orders;
      }
    }
  }

  /** The orders an entry appends: a buy, then at most a stop for the filled quantity. */
  lemma EnterAppends(s: State, sig: nat, e: Event, qty: int, cfg: Config)
    requires e.Post? && sig < |s.signals|
    ensures var t, n := Enter(s, sig, e, qty, cfg), |s.orders|;
            && |t.signals| == |s.signals| && n <= |t.orders| <= n + 2 && t.orders[..n] == s.orders
            && (|t.orders| > n ==> t.orders[n].owner == sig && t.orders[n].kind.EntryBuy? && t.orders[n].qty == qty)
            && (|t.orders| == n + 2 ==>
                  && t.orders[n].status.Filled?
                  && t.orders[n + 1].owner == sig && t.orders[n + 1].kind.StopSell? && t.orders[n + 1].qty == qty)
            && (forall k <- t.open :: k != sig ==> k in s.open && t.open[k] == s.open[k])
            && (sig in t.open && sig !in s.open ==>
                  && |t.orders| == n + 2 && t.open[sig].qty == qty
                  && t.open[sig].stopOrder == Some(n + 1) && t.open[sig].manualOrder.None?)
            && (|t.orders| < n + 2 ==> t.open == s.open)
  {}

  lemma PostKeepsSingle(s: State, e: Event, cfg: Config)
    requires e.Post? && Inv(s) && Single(s)
    ensures Single(HandlePost(s, e, cfg))
  {
    var logged := s.(signals := s.signals + [Signal(e.contract, e.receivedAt, false)]);
    SettlingKeepsSingle(s, logged);
    if HandlePost(s, e, cfg) != logged {
      forall i ensures !Working(logged, i, |s.signals|) {
        assert Working(logged, i, |s.signals|) ==> Working(s, i, |s.signals|);
      }
      EnterKeepsSingle(logged, |s.signals|, e, ComputeQty(e.ask.value, cfg.spendCap, cfg.maxQty), cfg);
    }
  }

  lemma SameTablesSameLatest(s: State, t: State, contract: Contract)
    requires t.signals == s.signals && t.rows == s.rows
    ensures LatestTaken(t, contract, |t.signals|) == LatestTaken(s, contract, |s.signals|)
  {
    assert forall j: nat | j < |s.signals| :: Adoptable(t, j, contract) == Adoptable(s, j, contract);
  }

  /** The adoption is the last one for its contract and brings back the signal. */
  ghost predicate Brings(s: State, adoptions: seq<Adoption>, i: nat, sig: nat) {
    && i < |adoptions| && LastFor(adoptions, i)
    && LatestTaken(s, adoptions[i].contract, |s.signals|) == Some(sig)
  }

  /** The books of t are what the adoptions rebuild, as far as sig is concerned. */
  ghost predicate Rebuilt(s: State, adoptions: seq<Adoption>, cfg: Config, sig: nat, t: State) {
    && t.signals == s.signals && t.rows == s.rows && t.orders == s.orders
    && (sig in t.open <==> exists i: nat :: Brings(s, adoptions, i, sig))
    && (forall i: nat | Brings(s, adoptions, i, sig) ::
          sig in t.open && t.open[sig] == AdoptedRecord(s, adoptions[i], sig, cfg))
  }

  lemma BringsOneMore(s: State, init: seq<Adoption>, last: Adoption, i: nat, sig: nat)
    requires i < |init|
    ensures Brings(s, init + [last], i, sig) <==>
              Brings(s, init, i, sig) && LatestTaken(s, last.contract, |s.signals|) != Some(sig)
  {
    var all := init + [last];
    assert all[i] == init[i] && all[|init|] == last;
    assert LastFor(all, i) ==> last.contract != init[i].contract;
    assert LastFor(init, i) && last.contract != init[i].contract ==> LastFor(all, i);
    assert LastFor(all, i) ==> LastFor(init, i) by {
      assert forall j | i < j < |init| :: all[j] == init[j];
    }
  }

  lemma RebuiltOneMore(s: State, init: seq<Adoption>, last: Adoption, cfg: Config, sig: nat, u: State)
    requires Rebuilt(s, init, cfg, sig, u)
    ensures Rebuilt(s, init + [last], cfg, sig, Adopted(u, last, cfg))
  {
    var all, t := init + [last], Adopted(u, last, cfg);
    SameTablesSameLatest(s, u, last.contract);
    assert AdoptedStop(u, last) == AdoptedStop(s, last);
    assert all[|init|] == last && LastFor(all, |init|);
    forall i: nat | i < |init|
      ensures Brings(s, all, i, sig) <==>
                Brings(s, init, i, sig) && LatestTaken(s, last.contract, |s.signals|) != Some(sig)
      ensures all[i] == init[i]
    {
      BringsOneMore(s, init, last, i, sig);
    }
    if LatestTaken(s, last.contract, |s.signals|) == Some(sig) {
      assert Brings(s, all, |init|, sig);
    } else if sig in u.open {
      var i: nat :| Brings(s, init, i, sig);
      assert Brings(s, all, i, sig);
    }
  }

  /** What a restart rebuilds: for each contract the record of its last adoption. */
  lemma {:induction false} AdoptedExactly(s: State, adoptions: seq<Adoption>, cfg: Config, sig: nat)
    ensures Rebuilt(s, adoptions, cfg, sig, AdoptedAll(Crashed(s), adoptions, cfg))
  {
    if adoptions != [] {
      var n := |adoptions| - 1;
      AdoptedExactly(s, adoptions[..n], cfg, sig);
      RebuiltOneMore(s, adoptions[..n], adoptions[n], cfg, sig, AdoptedAll(Crashed(s), adoptions[..n], cfg));
      assert adoptions == adoptions[..n] + [adoptions[n]];
    }
  }

  lemma SafeAdoptionIsSingle(s: State, t: State, adoptions: seq<Adoption>, cfg: Config, k: nat)
    requires Single(s) && Safe(s, Restart(adoptions)) && Rebuilt(s, adoptions, cfg, k, t) && k in t.open
    ensures OwnsPointers(t.orders, k, t.open[k]) && Bought(t, k, t.open[k].qty)
    ensures forall i | Working(t, i, k) :: PointsAt(t.open[k], i)
  {
    var i: nat :| Brings(s, adoptions, i, k);
    assert AdoptionIsSafe(s, adoptions[i]);
    forall j | Working(t, j, k) ensures PointsAt(t.open[k], j) {
      assert Working(s, j, k);
    }
  }

  lemma SafeAdoptionsAreSingle(s: State, t: State, adoptions: seq<Adoption>, cfg: Config)
    requires Single(s) && Safe(s, Restart(adoptions))
    requires forall k: nat :: Rebuilt(s, adoptions, cfg, k, t)
    ensures Single(t)
  {
    assert Rebuilt(s, adoptions, cfg, 0, t);
    forall i, k: nat ensures Working(t, i, k) <==> Working(s, i, k) {}
    forall k <- t.open
      ensures OwnsPointers(t.orders, k, t.open[k]) && Bought(t, k, t.open[k].qty)
      ensures forall i | Working(t, i, k) :: PointsAt(t.open[k], i)
    {
      SafeAdoptionIsSingle(s, t, adoptions, cfg, k);
    }
    forall i | 0 <= i < |t.orders| && IsExit(t.orders[i]) ensures Bought(t, t.orders[i].owner, t.orders[i].qty) {
      BoughtStays(s, t, s.orders[i].owner, s.orders[i].qty);
    }
  }

  lemma SingleAdoptionIsSafe(s: State, t: State, adoptions: seq<Adoption>, cfg: Config, i: nat)
    requires Single(t) && i < |adoptions| && LastFor(adoptions, i)
    requires forall k: nat :: Rebuilt(s, adoptions, cfg, k, t)
    ensures AdoptionIsSafe(s, adoptions[i])
  {
    var origin := LatestTaken(s, adoptions[i].contract, |s.signals|);
    if origin.Some? {
      var k := origin.value;
      assert Rebuilt(s, adoptions, cfg, k, t) && Brings(s, adoptions, i, k);
      assert OwnsPointers(t.orders, k, t.open[k]);
      forall j | Working(s, j, k) ensures AdoptedStop(s, adoptions[i]) == Some(j) {
        assert Working(t, j, k);
      }
      BoughtStays(t, s, k, t.open[k].qty);
    }
  }

  /** Exactly when a restart leaves every re-adopted position with a single exit. */
  lemma RestartIsSafeIff(s: State, adoptions: seq<Adoption>, cfg: Config)
    requires Single(s)
    ensures Single(AdoptedAll(Crashed(s), adoptions, cfg)) <==> Safe(s, Restart(adoptions))
  {
    var t := AdoptedAll(Crashed(s), adoptions, cfg);
    forall k: nat ensures Rebuilt(s, adoptions, cfg, k, t) {
      AdoptedExactly(s, adoptions, cfg, k);
    }
    if Safe(s, Restart(adoptions)) {
      SafeAdoptionsAreSingle(s, t, adoptions, cfg);
    }
    if Single(t) {
      forall i: nat | i < |adoptions| && LastFor(adoptions, i) ensures AdoptionIsSafe(s, adoptions[i]) {
        SingleAdoptionIsSafe(s, t, adoptions, cfg, i);
      }
    }
  }

  // ---- Every step, every run --------------------------------------------------------------------

  lemma DrainIsSafeIff(s: State, e: Event)
    requires Inv(s) && Requests(s) && Single(s) && e.DrainRequest?
    ensures Single(Drained(s, e)) <==> Safe(s, e)
    ensures !Safe(s, e) ==> !Sole(Drained(s, e))
  {
    if s.phase.Idle? && s.queue != [] {
      var sig, popped := s.queue[0], s.(queue := s.queue[1..]);
      SettlingKeepsSingle(s, popped);
      SameBooksKeepInv(s, popped);
      if sig in s.open {
        PopDropsOnePending(s, sig);
        assert Pending(s, sig) == 1;
        assert Flagged(s, sig);
        RequestIsSafeIff(popped, sig, e.cancelTakes, e.manual);
      }
    }
  }

  lemma FinishIsSafeIff(s: State, e: Event)
    requires Inv(s) && Requests(s) && Single(s) && e.FinishAdvance?
    ensures Single(Advanced(s, e)) <==> Safe(s, e)
    ensures !Safe(s, e) ==> !Sole(Advanced(s, e))
  {
    if s.phase.Quoted? {
      var t := Managed(s, s.phase.signal, e);
      AdvanceIsSafeIff(s, s.phase.signal, e);
      forall i, k: nat ensures Working(Advanced(s, e), i, k) <==> Working(t, i, k) {}
      if Single(t) {
        SettlingKeepsSingle(t, Advanced(s, e));
      }
    }
  }

  /** Positions only leave or are flagged; no order changes. */
  lemma DroppingKeepsSingle(s: State, t: State)
    requires Single(s) && t.orders == s.orders && t.signals == s.signals
    requires forall k <- t.open :: k in s.open && SameExits(s.open[k], t.open[k])
    ensures Single(t)
  {
    SettlingKeepsSingle(s, t);
  }

  lemma BrokerKeepsSingle(s: State, id: nat, status: Status)
    requires Single(s)
    ensures Single(Broker(s, id, status))
  {
    SettlingKeepsSingle(s, Broker(s, id, status));
  }

  lemma RequestingKeepsSingle(s: State, e: Event)
    requires Single(s) && (e.ApiFlag? || e.ApiPut?)
    ensures Single(Requesting(s, e))
  {
    DroppingKeepsSingle(s, Requesting(s, e));
  }

  lemma ClosingKeepsSingle(s: State, e: Event)
    requires Single(s) && (e.PollManual? || e.Reconcile?)
    ensures Single(if e.PollManual? then Polled(s, e) else Reconciled(s, e))
  {
    DroppingKeepsSingle(s, if e.PollManual? then Polled(s, e) else Reconciled(s, e));
  }

  lemma ReadingKeepsSingle(s: State, e: Event)
    requires Single(s) && (e.StartAdvance? || e.ReadStop?)
    ensures Single(Advanced(s, e))
  {
    DroppingKeepsSingle(s, Advanced(s, e));
  }

  /** One step: from a state in which every position has a single exit, under any failure, the step
      leads to another such state if and only if it is safe. */
  lemma StepIsSafeIff(s: State, e: Event, cfg: Config)
    requires Inv(s) && Requests(s) && Single(s)
    ensures Single(Step(s, e, cfg)) <==> Safe(s, e)
  {
    match e
    case Post(_, _, _, _, _, _) =>
      if s.phase.Idle? {
        PostKeepsSingle(s, e, cfg);
      }
    case DrainRequest(_, _) => DrainIsSafeIff(s, e);
    case FinishAdvance(_, _, _, _, _) => FinishIsSafeIff(s, e);
    case Flatten(sig, env) =>
      if s.phase.Idle? && sig in s.open {
        CloseIsSafeIff(s, sig, S.TimeStop1555, s.open[sig].entryPrice, env);
      }
    case Restart(adoptions) => RestartIsSafeIff(s, adoptions, cfg);
    case ApiFlag(_) => RequestingKeepsSingle(s, e);
    case ApiPut(_) => RequestingKeepsSingle(s, e);
    case PollManual(_, _, _) => ClosingKeepsSingle(s, e);
    case StartAdvance(_) => ReadingKeepsSingle(s, e);
    case ReadStop(_, _) => ReadingKeepsSingle(s, e);
    case Reconcile(_, _, _) => ClosingKeepsSingle(s, e);
    case BrokerFills(id, price) => BrokerKeepsSingle(s, id, Filled(price));
    case BrokerKills(id) => BrokerKeepsSingle(s, id, Dead);
  }

  /** At the end of the run and at every point before it. */
  ghost predicate AlwaysSingle(s: State, es: seq<Event>, cfg: Config) {
    Single(Run(s, es, cfg)) && (es == [] || AlwaysSingle(s, es[..|es| - 1], cfg))
  }

  /** Whole runs: over any run, restarts and flattens included, every position always has a single
      exit if and only if every step of the run is safe. */
  lemma {:induction false} RunIsSafeIff(s: State, es: seq<Event>, cfg: Config)
    requires Inv(s) && Requests(s) && Single(s)
    ensures AlwaysSingle(s, es, cfg) <==> SafeRun(s, es, cfg)
  {
    if es != [] {
      var init := es[..|es| - 1];
      RunIsSafeIff(s, init, cfg);
      RunKeepsRequests(s, init, cfg);
      if Single(Run(s, init, cfg)) {
        StepIsSafeIff(Run(s, init, cfg), es[|es| - 1], cfg);
      }
    }
  }

  /** In orders: on a safe run from the empty system, restarts and safe flattens included, two exit
      orders of the bot that have filled or still can never sell the same position, and each is
      for the quantity that the position's filled buy bought. */
  lemma NeverOversold(es: seq<Event>, cfg: Config, i: nat, j: nat)
    requires SafeRun(EMPTY, es, cfg)
    ensures var s := Run(EMPTY, es, cfg);
            && (i < j < |s.orders| && Working(s, i, s.orders[i].owner) && Working(s, j, s.orders[j].owner) ==>
                  s.orders[i].owner != s.orders[j].owner)
            && (i < |s.orders| && Working(s, i, s.orders[i].owner) ==> Bought(s, s.orders[i].owner, s.orders[i].qty))
  {
    RunIsSafeIff(EMPTY, es, cfg);
  }
}
