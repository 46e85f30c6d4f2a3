/** What does complete in the options book, and the "Sell now" that never does. */
module PositionProgress {
  import opened Prelude
  import opened PositionBook
  import opened PositionSafety

  // ---- A manual sell the broker kills ---------------------------------------------------------

  /** The position waits for a manual sell that is dead, and no order at or after base is its own. */
  ghost predicate Stuck(s: State, sig: nat, m: nat, base: nat) {
    && sig in s.open && s.open[sig].closing && s.open[sig].manualOrder == Some(m)
    && m < |s.orders| && s.orders[m].status == Dead
    && (!s.phase.Idle? ==> s.phase.signal != sig)
    && forall i | base <= i < |s.orders| :: s.orders[i].owner != sig
  }

  /** Neither the 15:55 flatten of this position nor a new process. */
  predicate LeavesAlone(e: Event, sig: nat) {
    !e.Restart? && (e.Flatten? ==> e.sig != sig)
  }

  lemma DrainLeavesStuck(s: State, e: Event, sig: nat, m: nat, base: nat)
    requires Inv(s) && Requests(s) && Stuck(s, sig, m, base) && e.DrainRequest?
    ensures Stuck(Drained(s, e), sig, m, base)
  {
    if s.queue != [] {
      PopDropsOnePending(s, s.queue[0]);
      assert Pending(s, sig) == 1 <==> Flagged(s, sig);
    }
  }

  lemma PostLeavesStuck(s: State, e: Event, cfg: Config, sig: nat, m: nat, base: nat)
    requires Inv(s) && Stuck(s, sig, m, base) && e.Post?
    ensures Stuck(HandlePost(s, e, cfg), sig, m, base)
  {}

  lemma ClosedLeavesStuck(
    s: State, at: nat, reason: S.ExitReason, nominal: real, env: CloseEnv, sig: nat, m: nat, base: nat)
    requires Stuck(s, sig, m, base) && at in s.open && at != sig
    ensures Stuck(Closed(s, at, reason, nominal, env), sig, m, base)
  {}

  lemma PushedLeavesStuck(s: State, at: nat, e: Event, sig: nat, m: nat, base: nat)
    requires Stuck(s, sig, m, base) && e.FinishAdvance? && at in s.open && at != sig && Verdict(s.open[at], e).Ok?
    ensures Stuck(Pushed(s, at, e), sig, m, base)
  {}

  lemma ManagedLeavesStuck(s: State, at: nat, e: Event, sig: nat, m: nat, base: nat)
    requires Stuck(s, sig, m, base) && e.FinishAdvance? && at in s.open && at != sig
    ensures Stuck(Managed(s, at, e), sig, m, base)
  {
    var verdict := Verdict(s.open[at], e);
    if verdict.Ok? {
      PushedLeavesStuck(s, at, e, sig, m, base);
      if ActsOnExit(s, at, e) {
        ClosedLeavesStuck(Pushed(s, at, e), at, verdict.value.exit.value.reason, e.quote.value, e.env, sig, m, base);
      }
    }
  }

  lemma BookingLeavesStuck(s: State, e: Event, sig: nat, m: nat, base: nat)
    requires Stuck(s, sig, m, base) && (e.PollManual? || e.Reconcile?)
    ensures Stuck(if e.PollManual? then Polled(s, e) else Reconciled(s, e), sig, m, base)
  {}

  lemma ReadingLeavesStuck(s: State, e: Event, sig: nat, m: nat, base: nat)
    requires Inv(s) && Stuck(s, sig, m, base) && (e.StartAdvance? || e.ReadStop?)
    ensures Stuck(Advanced(s, e), sig, m, base)
  {}

  lemma StepLeavesStuck(s: State, e: Event, cfg: Config, sig: nat, m: nat, base: nat)
    requires Inv(s) && Requests(s) && Stuck(s, sig, m, base) && LeavesAlone(e, sig)
    ensures Stuck(Step(s, e, cfg), sig, m, base)
  {
    match e
    case Post(_, _, _, _, _, _) => PostLeavesStuck(s, e, cfg, sig, m, base);
    case ApiFlag(_) =>
    case ApiPut(_) =>
    case DrainRequest(_, _) => DrainLeavesStuck(s, e, sig, m, base);
    case PollManual(_, _, _) => BookingLeavesStuck(s, e, sig, m, base);
    case StartAdvance(_) => ReadingLeavesStuck(s, e, sig, m, base);
    case ReadStop(_, _) => ReadingLeavesStuck(s, e, sig, m, base);
    case FinishAdvance(_, _, _, _, _) =>
      if s.phase.Quoted? {
        ManagedLeavesStuck(s, s.phase.signal, e, sig, m, base);
      }
    case Reconcile(_, _, _) => BookingLeavesStuck(s, e, sig, m, base);
    case Flatten(at, env) =>
      if s.phase.Idle? && at in s.open {
        ClosedLeavesStuck(s, at, S.TimeStop1555, s.open[at].entryPrice, env, sig, m, base);
      }
    case BrokerFills(_, _) =>
    case BrokerKills(_) =>
  }

  /** Main result: once the broker kills the accepted sell of a "Sell now", nothing short of the
      15:55 flatten or a restart ever closes, books or re-sells the position: the advance skips
      it, a second tap is answered "already closing", and reconciliation keeps deferring to the
      dead order. No later order of the run is its own. */
  lemma {:induction false} KilledManualSellIsNeverResolved(s: State, es: seq<Event>, cfg: Config, sig: nat, m: nat)
    requires Inv(s) && Requests(s) && Stuck(s, sig, m, |s.orders|)
    requires forall i | 0 <= i < |es| :: LeavesAlone(es[i], sig)
    ensures var t := Run(s, es, cfg);
            && Stuck(t, sig, m, |s.orders|) && !HasRow(t.rows, sig)
            && forall i | |s.orders| <= i < |t.orders| :: t.orders[i].owner != sig
  {
    RunKeepsRequests(s, es, cfg);
    if es != [] {
      var init := es[..|es| - 1];
      KilledManualSellIsNeverResolved(s, init, cfg, sig, m);
      RunKeepsRequests(s, init, cfg);
      StepLeavesStuck(Run(s, init, cfg), es[|es| - 1], cfg, sig, m, |s.orders|);
    }
  }

  // ---- What does complete -----------------------------------------------------------------

  /** An entry that runs to its end is managed and protected: the position is as the strategy
      opens one, for the largest affordable quantity, and a live stop for that quantity rests
      within half a cent of the strategy's stop. */
  lemma EntryIsProtected(s: State, e: Event, cfg: Config)
    requires e.Post? && e.accepted && |s.open| < cfg.maxConcurrent && e.ask.Some? && s.phase.Idle?
    requires ComputeQty(e.ask.value, cfg.spendCap, cfg.maxQty) >= 1
    requires e.fate.Opened? && e.fate.price > 0.0 && 0.0 < cfg.stopLossPct < 1.0
    ensures var t, sig := Step(s, e, cfg), |s.signals|;
            && sig in t.open && t.signals[sig] == Signal(e.contract, e.receivedAt, e.fate.marked)
            && var r := t.open[sig];
               && r.stopOrder.Some? && r.stopOrder.value < |t.orders|
               && r.qty == ComputeQty(e.ask.value, cfg.spendCap, cfg.maxQty)
               && S.Fresh(r.position) && r.position.entryPrice == e.fate.price && r.entryPrice == e.fate.price
               && var stop := t.orders[r.stopOrder.value];
                  && stop.kind.StopSell? && stop.owner == sig && stop.qty == r.qty && stop.status.Live?
                  && stop.stopPrice.Some? && -0.005 <= stop.stopPrice.value - r.position.stopPrice <= 0.005
  {
    var qty := ComputeQty(e.ask.value, cfg.spendCap, cfg.maxQty);
    S.OpenedIsFresh(e.fate.price, qty, e.now.utc, e.contract.expiration, cfg.stopLossPct);
    CentsAreNear(e.fate.price * (1.0 - cfg.stopLossPct));
  }

  lemma CentsAreNear(x: real)
    ensures -0.005 <= HalfEvenCents(x) - x <= 0.005
  {}

  /** The position sig of s waits for its manual sell m, or it has been booked as manually closed
      at that sell's fill. */
  ghost predicate OnItsWay(t: State, sig: nat, m: nat, entry: real, qty: int) {
    && m < |t.orders|
    && (sig in t.open ==>
          && t.open[sig].closing && t.open[sig].manualOrder == Some(m)
          && t.open[sig].entryPrice == entry && t.open[sig].qty == qty)
    && (sig !in t.open ==>
          t.orders[m].status.Filled?
          && exists i | 0 <= i < |t.rows| :: t.rows[i] == Row(sig, entry, t.orders[m].status.price, qty, ManualClose))
  }

  /** Orders only grow and keep their fills; rows only grow. */
  ghost predicate KeepsFills(s: State, t: State) {
    && |s.orders| <= |t.orders| && s.rows <= t.rows
    && forall i | 0 <= i < |s.orders| :: s.orders[i].status.Filled? ==> t.orders[i].status == s.orders[i].status
  }

  lemma OthersKeepItOnItsWay(s: State, t: State, sig: nat, m: nat, entry: real, qty: int)
    requires OnItsWay(s, sig, m, entry, qty) && KeepsFills(s, t)
    requires sig in t.open <==> sig in s.open
    requires sig in s.open ==>
               && t.open[sig].closing == s.open[sig].closing && t.open[sig].manualOrder == s.open[sig].manualOrder
               && t.open[sig].entryPrice == s.open[sig].entryPrice && t.open[sig].qty == s.open[sig].qty
    ensures OnItsWay(t, sig, m, entry, qty)
  {
    if sig !in s.open {
      var i :| 0 <= i < |s.rows| && s.rows[i] == Row(sig, entry, s.orders[m].status.price, qty, ManualClose);
      assert t.rows[i] == s.rows[i];
    }
  }

  /** The journal answers, and neither the flatten of the position nor a restart comes. */
  predicate LetsItFinish(e: Event, sig: nat) {
    Answered(e) && LeavesAlone(e, sig)
  }

  lemma BookingFinishes(s: State, e: Event, sig: nat, m: nat, entry: real, qty: int)
    requires Inv(s) && OnItsWay(s, sig, m, entry, qty) && (e.PollManual? || e.Reconcile?) && LetsItFinish(e, sig)
    ensures OnItsWay(if e.PollManual? then Polled(s, e) else Reconciled(s, e), sig, m, entry, qty)
  {
    var t := if e.PollManual? then Polled(s, e) else Reconciled(s, e);
    if e.sig == sig && sig in s.open && sig !in t.open {
      NoRowWhileOpen(s, sig);
      assert t.rows[|s.rows|] == Row(sig, entry, s.orders[m].status.price, qty, ManualClose);
    } else {
      OthersKeepItOnItsWay(s, t, sig, m, entry, qty);
    }
  }

  lemma DrainKeepsItOnItsWay(s: State, e: Event, sig: nat, m: nat, entry: real, qty: int)
    requires Inv(s) && Requests(s) && OnItsWay(s, sig, m, entry, qty) && e.DrainRequest?
    ensures OnItsWay(Drained(s, e), sig, m, entry, qty)
  {
    if s.queue != [] {
      PopDropsOnePending(s, s.queue[0]);
      if sig in s.open {
        assert Pending(s, sig) == 1 <==> Flagged(s, sig);
      }
    }
    OthersKeepItOnItsWay(s, Drained(s, e), sig, m, entry, qty);
  }

  lemma ClosedKeepsItOnItsWay(
    s: State, at: nat, reason: S.ExitReason, nominal: real, env: CloseEnv, sig: nat, m: nat, entry: real, qty: int)
    requires OnItsWay(s, sig, m, entry, qty) && at in s.open && at != sig
    ensures OnItsWay(Closed(s, at, reason, nominal, env), sig, m, entry, qty)
  {
    OthersKeepItOnItsWay(s, Closed(s, at, reason, nominal, env), sig, m, entry, qty);
  }

  lemma ManagedKeepsItOnItsWay(s: State, at: nat, e: Event, sig: nat, m: nat, entry: real, qty: int)
    requires OnItsWay(s, sig, m, entry, qty) && e.FinishAdvance? && at in s.open && at != sig
    ensures OnItsWay(Managed(s, at, e), sig, m, entry, qty)
  {
    var verdict := Verdict(s.open[at], e);
    if verdict.Ok? {
      PushedShape(s, at, e);
      OthersKeepItOnItsWay(s, Pushed(s, at, e), sig, m, entry, qty);
      if ActsOnExit(s, at, e) {
        ClosedKeepsItOnItsWay(Pushed(s, at, e), at, verdict.value.exit.value.reason, e.quote.value, e.env, sig, m, entry, qty);
      }
    }
  }

  lemma AdvanceKeepsItOnItsWay(s: State, e: Event, sig: nat, m: nat, entry: real, qty: int)
    requires Inv(s) && Requests(s) && OnItsWay(s, sig, m, entry, qty)
    requires e.StartAdvance? || e.ReadStop? || e.FinishAdvance?
    ensures OnItsWay(Advanced(s, e), sig, m, entry, qty)
  {
    if e.FinishAdvance? {
      if s.phase.Quoted? {
        ManagedKeepsItOnItsWay(s, s.phase.signal, e, sig, m, entry, qty);
      }
    } else {
      OthersKeepItOnItsWay(s, Advanced(s, e), sig, m, entry, qty);
    }
  }

  lemma PostKeepsItOnItsWay(s: State, e: Event, cfg: Config, sig: nat, m: nat, entry: real, qty: int)
    requires Inv(s) && OnItsWay(s, sig, m, entry, qty) && e.Post? && sig < |s.signals|
    ensures OnItsWay(HandlePost(s, e, cfg), sig, m, entry, qty)
  {
    OthersKeepItOnItsWay(s, HandlePost(s, e, cfg), sig, m, entry, qty);
  }

  lemma StepKeepsItOnItsWay(s: State, e: Event, cfg: Config, sig: nat, m: nat, entry: real, qty: int)
    requires Inv(s) && Requests(s) && OnItsWay(s, sig, m, entry, qty) && LetsItFinish(e, sig) && sig < |s.signals|
    ensures OnItsWay(Step(s, e, cfg), sig, m, entry, qty)
  {
    match e
    case Post(_, _, _, _, _, _) => PostKeepsItOnItsWay(s, e, cfg, sig, m, entry, qty);
    case ApiFlag(_) => OthersKeepItOnItsWay(s, Requesting(s, e), sig, m, entry, qty);
    case ApiPut(_) => OthersKeepItOnItsWay(s, Requesting(s, e), sig, m, entry, qty);
    case DrainRequest(_, _) => DrainKeepsItOnItsWay(s, e, sig, m, entry, qty);
    case PollManual(_, _, _) => BookingFinishes(s, e, sig, m, entry, qty);
    case StartAdvance(_) => AdvanceKeepsItOnItsWay(s, e, sig, m, entry, qty);
    case ReadStop(_, _) => AdvanceKeepsItOnItsWay(s, e, sig, m, entry, qty);
    case FinishAdvance(_, _, _, _, _) => AdvanceKeepsItOnItsWay(s, e, sig, m, entry, qty);
    case Reconcile(_, _, _) => BookingFinishes(s, e, sig, m, entry, qty);
    case Flatten(at, env) =>
      if s.phase.Idle? && at in s.open {
        ClosedKeepsItOnItsWay(s, at, S.TimeStop1555, s.open[at].entryPrice, env, sig, m, entry, qty);
      }
    case BrokerFills(id, price) => OthersKeepItOnItsWay(s, Broker(s, id, Filled(price)), sig, m, entry, qty);
    case BrokerKills(id) => OthersKeepItOnItsWay(s, Broker(s, id, Dead), sig, m, entry, qty);
  }

  lemma {:induction false} RunKeepsItOnItsWay(s: State, es: seq<Event>, cfg: Config, sig: nat, m: nat, entry: real, qty: int)
    requires Inv(s) && Requests(s) && OnItsWay(s, sig, m, entry, qty) && sig < |s.signals|
    requires forall i | 0 <= i < |es| :: LetsItFinish(es[i], sig)
    ensures OnItsWay(Run(s, es, cfg), sig, m, entry, qty)
    ensures sig < |Run(s, es, cfg).signals|
  {
    if es != [] {
      var init := es[..|es| - 1];
      RunKeepsItOnItsWay(s, init, cfg, sig, m, entry, qty);
      RunKeepsRequests(s, init, cfg);
      StepKeepsItOnItsWay(Run(s, init, cfg), es[|es| - 1], cfg, sig, m, entry, qty);
      SignalsOnlyGrow(Run(s, init, cfg), es[|es| - 1], cfg);
    }
  }

  lemma SignalsOnlyGrow(s: State, e: Event, cfg: Config)
    requires !e.Restart?
    ensures |s.signals| <= |Step(s, e, cfg).signals|
  {
    if e.FinishAdvance? && s.phase.Quoted? && s.phase.signal in s.open {
      var mid := ManagedShape(s, s.phase.signal, e);
    }
  }

  /** Main result: whatever else happens after a "Sell now" has been sent, in any interleaving and
      with any broker failure, as long as the journal answers and neither the flatten of the
      position nor a restart comes: the position waits for that one order or has been booked as
      manual_close at its fill, and once the order has filled the next poll that can read it
      leaves the row and no position. */
  lemma SellNowCompletes(s: State, es: seq<Event>, cfg: Config, sig: nat, m: nat)
    requires Inv(s) && Requests(s) && sig in s.open && s.open[sig].manualOrder == Some(m) && m < |s.orders|
    requires forall i | 0 <= i < |es| :: LetsItFinish(es[i], sig)
    ensures var r, t := s.open[sig], Run(s, es, cfg);
            && OnItsWay(t, sig, m, r.entryPrice, r.qty)
            && (t.phase.Idle? && t.orders[m].status.Filled? ==>
                  var u := Step(t, PollManual(sig, false, Written), cfg);
                  && sig !in u.open
                  && exists i | 0 <= i < |u.rows| ::
                       u.rows[i] == Row(sig, r.entryPrice, t.orders[m].status.price, r.qty, ManualClose))
  {
    var r, t := s.open[sig], Run(s, es, cfg);
    RunKeepsItOnItsWay(s, es, cfg, sig, m, r.entryPrice, r.qty);
    RunKeepsRequests(s, es, cfg);
    if t.phase.Idle? && t.orders[m].status.Filled? {
      var poll := PollManual(sig, false, Written);
      BookingFinishes(t, poll, sig, m, r.entryPrice, r.qty);
      assert Step(t, poll, cfg).orders == t.orders;
    }
  }
}
