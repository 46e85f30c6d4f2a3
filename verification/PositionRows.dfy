/** Where the rows of the trades table come from, over all runs: which step booked each row, and
    which order or price stands behind its exit price. */
module PositionRows {
  import opened Prelude
  import opened PositionBook
  import opened PositionSafety

  // ---- What the records point at ------------------------------------------------------------

  /** The order protects the contract: its signal is one for it. */
  predicate OnContract(s: State, o: Order, contract: Contract) {
    o.owner < |s.signals| && s.signals[o.owner].contract == contract
  }

  /** A record is for its signal's contract, its stop order is a stop on that contract, and its
      manual order is a manual sell of that very position. */
  predicate PointsWell(s: State, sig: nat, r: Record) {
    && sig < |s.signals| && s.signals[sig].contract == r.contract
    && (r.stopOrder.Some? ==>
          && r.stopOrder.value < |s.orders| && s.orders[r.stopOrder.value].kind.StopSell?
          && OnContract(s, s.orders[r.stopOrder.value], r.contract))
    && (r.manualOrder.Some? ==>
          && r.manualOrder.value < |s.orders| && s.orders[r.manualOrder.value].kind.ManualSell?
          && s.orders[r.manualOrder.value].owner == sig)
  }

  ghost predicate Truthful(s: State) {
    forall k <- s.open :: PointsWell(s, k, s.open[k])
  }

  /** Orders keep their owner and kind, signals their contract, and both only grow. */
  ghost predicate Grows(s: State, t: State) {
    && |s.orders| <= |t.orders| && |s.signals| <= |t.signals|
    && (forall i | 0 <= i < |s.orders| :: t.orders[i].owner == s.orders[i].owner && t.orders[i].kind == s.orders[i].kind)
    && (forall i | 0 <= i < |s.signals| :: t.signals[i].contract == s.signals[i].contract)
  }

  predicate SamePointers(a: Record, b: Record) {
    a.contract == b.contract && a.stopOrder == b.stopOrder && a.manualOrder == b.manualOrder
  }

  lemma GrowsKeepsTruth(s: State, t: State)
    requires Truthful(s) && Grows(s, t)
    requires forall k <- t.open :: (k in s.open && SamePointers(s.open[k], t.open[k])) || PointsWell(t, k, t.open[k])
    ensures Truthful(t)
  {
    forall k <- t.open ensures PointsWell(t, k, t.open[k]) {
      assert k in s.open && SamePointers(s.open[k], t.open[k]) ==> PointsWell(s, k, s.open[k]);
    }
  }

  /** Positions only leave; orders and signals stay. */
  lemma DroppingKeepsTruth(s: State, t: State)
    requires Truthful(s) && t.orders == s.orders && t.signals == s.signals
    requires forall k <- t.open :: k in s.open && SamePointers(s.open[k], t.open[k])
    ensures Truthful(t)
  {
    GrowsKeepsTruth(s, t);
  }

  lemma ClosedKeepsTruth(s: State, sig: nat, reason: S.ExitReason, nominal: real, env: CloseEnv)
    requires Truthful(s) && sig in s.open
    ensures Truthful(Closed(s, sig, reason, nominal, env))
  {
    GrowsKeepsTruth(s, Closed(s, sig, reason, nominal, env));
  }

  lemma RequestedKeepsTruth(s: State, sig: nat, takes: bool, manual: ManualFate)
    requires Truthful(s) && sig in s.open
    ensures Truthful(Requested(s, sig, takes, manual))
  {
    var t := Requested(s, sig, takes, manual);
    assert PointsWell(s, sig, s.open[sig]);
    GrowsKeepsTruth(s, t);
  }

  lemma RestoppedKeepsTruth(s: State, sig: nat, newStop: real, fate: ModifyFate)
    requires Truthful(s) && sig in s.open && s.open[sig].stopOrder.Some?
    ensures Truthful(Restopped(s, sig, newStop, fate))
  {
    assert PointsWell(s, sig, s.open[sig]);
    GrowsKeepsTruth(s, Restopped(s, sig, newStop, fate));
  }

  lemma PushedKeepsTruth(s: State, sig: nat, e: Event)
    requires Truthful(s) && e.FinishAdvance? && sig in s.open && Verdict(s.open[sig], e).Ok?
    ensures Truthful(Pushed(s, sig, e))
  {
    var evaluated := Evaluated(s, sig, Verdict(s.open[sig], e).value.position);
    DroppingKeepsTruth(s, evaluated);
    if PushesStop(s, sig, e) {
      RestoppedKeepsTruth(evaluated, sig, evaluated.open[sig].position.stopPrice, e.push);
    }
  }

  lemma ManagedKeepsTruth(s: State, sig: nat, e: Event)
    requires Truthful(s) && e.FinishAdvance? && sig in s.open
    ensures Truthful(Managed(s, sig, e))
  {
    var verdict := Verdict(s.open[sig], e);
    if verdict.Ok? {
      PushedKeepsTruth(s, sig, e);
      PushedShape(s, sig, e);
      if ActsOnExit(s, sig, e) {
        ClosedKeepsTruth(Pushed(s, sig, e), sig, verdict.value.exit.value.reason, e.quote.value, e.env);
      }
    }
  }

  lemma AdvancedKeepsTruth(s: State, e: Event)
    requires Inv(s) && Truthful(s) && (e.StartAdvance? || e.ReadStop? || e.FinishAdvance?)
    ensures Truthful(Advanced(s, e))
  {
    if e.FinishAdvance? {
      if s.phase.Quoted? {
        ManagedKeepsTruth(s, s.phase.signal, e);
        DroppingKeepsTruth(Managed(s, s.phase.signal, e), Advanced(s, e));
      }
    } else {
      DroppingKeepsTruth(s, Advanced(s, e));
    }
  }

  lemma EnterKeepsTruth(s: State, sig: nat, e: Event, qty: int, cfg: Config)
    requires e.Post? && Truthful(s) && sig < |s.signals| && s.signals[sig].contract == e.contract
    ensures Truthful(Enter(s, sig, e, qty, cfg))
  {
    var t := Enter(s, sig, e, qty, cfg);
    assert forall k <- t.open :: k != sig ==> k in s.open && t.open[k] == s.open[k];
    assert sig in t.open ==> (sig in s.open && t.open[sig] == s.open[sig]) || PointsWell(t, sig, t.open[sig]);
    GrowsKeepsTruth(s, t);
  }

  lemma PostKeepsTruth(s: State, e: Event, cfg: Config)
    requires e.Post? && Truthful(s)
    ensures Truthful(HandlePost(s, e, cfg))
  {
    var logged := s.(signals := s.signals + [Signal(e.contract, e.receivedAt, false)]);
    GrowsKeepsTruth(s, logged);
    if HandlePost(s, e, cfg) != logged {
      EnterKeepsTruth(logged, |s.signals|, e, ComputeQty(e.ask.value, cfg.spendCap, cfg.maxQty), cfg);
    }
  }

  lemma DrainedKeepsTruth(s: State, e: Event)
    requires Truthful(s) && e.DrainRequest?
    ensures Truthful(Drained(s, e))
  {
    if s.queue != [] {
      var popped := s.(queue := s.queue[1..]);
      DroppingKeepsTruth(s, popped);
      if s.queue[0] in s.open {
        RequestedKeepsTruth(popped, s.queue[0], e.cancelTakes, e.manual);
      }
    }
  }

  lemma {:induction false} AdoptionsKeepTruth(s: State, adoptions: seq<Adoption>, cfg: Config)
    requires Truthful(s)
    ensures Truthful(AdoptedAll(s, adoptions, cfg))
  {
    if adoptions != [] {
      var t := AdoptedAll(s, adoptions[..|adoptions| - 1], cfg);
      AdoptionsKeepTruth(s, adoptions[..|adoptions| - 1], cfg);
      GrowsKeepsTruth(t, Adopted(t, adoptions[|adoptions| - 1], cfg));
    }
  }

  lemma RequestingKeepsTruth(s: State, e: Event)
    requires Truthful(s) && (e.ApiFlag? || e.ApiPut?)
    ensures Truthful(Requesting(s, e))
  {
    DroppingKeepsTruth(s, Requesting(s, e));
  }

  lemma BrokerKeepsTruth(s: State, id: nat, status: Status)
    requires Truthful(s)
    ensures Truthful(Broker(s, id, status))
  {
    GrowsKeepsTruth(s, Broker(s, id, status));
  }

  lemma RestartKeepsTruth(s: State, adoptions: seq<Adoption>, cfg: Config)
    requires Truthful(s)
    ensures Truthful(AdoptedAll(Crashed(s), adoptions, cfg))
  {
    GrowsKeepsTruth(s, Crashed(s));
    AdoptionsKeepTruth(Crashed(s), adoptions, cfg);
  }

  lemma StepKeepsTruth(s: State, e: Event, cfg: Config)
    requires Inv(s) && Truthful(s)
    ensures Truthful(Step(s, e, cfg))
  {
    match e
    case Post(_, _, _, _, _, _) => PostKeepsTruth(s, e, cfg);
    case ApiFlag(_) => RequestingKeepsTruth(s, e);
    case ApiPut(_) => RequestingKeepsTruth(s, e);
    case DrainRequest(_, _) => DrainedKeepsTruth(s, e);
    case PollManual(_, _, _) => DroppingKeepsTruth(s, Polled(s, e));
    case StartAdvance(_) => AdvancedKeepsTruth(s, e);
    case ReadStop(_, _) => AdvancedKeepsTruth(s, e);
    case FinishAdvance(_, _, _, _, _) => AdvancedKeepsTruth(s, e);
    case Reconcile(_, _, _) => DroppingKeepsTruth(s, Reconciled(s, e));
    case Flatten(sig, env) =>
      if sig in s.open {
        ClosedKeepsTruth(s, sig, S.TimeStop1555, s.open[sig].entryPrice, env);
      }
    case BrokerFills(id, price) => BrokerKeepsTruth(s, id, Filled(price));
    case BrokerKills(id) => BrokerKeepsTruth(s, id, Dead);
    case Restart(adoptions) => RestartKeepsTruth(s, adoptions, cfg);
  }

  lemma {:induction false} RunKeepsTruth(es: seq<Event>, cfg: Config)
    ensures Truthful(Run(EMPTY, es, cfg)) && Inv(Run(EMPTY, es, cfg))
  {
    RunKeepsInv(EMPTY, es, cfg);
    if es != [] {
      RunKeepsTruth(es[..|es| - 1], cfg);
      StepKeepsTruth(Run(EMPTY, es[..|es| - 1], cfg), es[|es| - 1], cfg);
    }
  }

  // ---- Which step booked a row, and at what price ---------------------------------------------

  /** The row closes the open position sig of s: same entry, same size. */
  predicate Closes(s: State, row: Row, sig: nat) {
    sig in s.open && row.signal == sig && row.entryPrice == s.open[sig].entryPrice && row.qty == s.open[sig].qty
  }

  /** The manual sell the record points at is the position's own and had filled at the row's price. */
  predicate SoldByHand(s: State, row: Row)
    requires row.signal in s.open
  {
    var pointer := s.open[row.signal].manualOrder;
    && row.reason == ManualClose && pointer.Some? && pointer.value < |s.orders|
    && var sold := s.orders[pointer.value];
       sold.kind.ManualSell? && sold.owner == row.signal && sold.status == Filled(row.exitPrice)
  }

  /** The stop the record points at is on the position's contract and had filled at the row's price. */
  predicate StoppedOut(s: State, row: Row)
    requires row.signal in s.open
  {
    var pointer := s.open[row.signal].stopOrder;
    && row.reason == Exit(S.StopLoss) && pointer.Some? && pointer.value < |s.orders| && row.signal < |s.signals|
    && var stop := s.orders[pointer.value];
       && stop.kind.StopSell? && OnContract(s, stop, s.signals[row.signal].contract)
       && stop.status == Filled(row.exitPrice)
  }

  /** The close sent a sell of the position as the newest order of t. The row carries the sell's
      fill price exactly when it filled within the wait; otherwise the nominal price. */
  predicate SoldAtClose(t: State, row: Row, sell: SellFate, nominal: real) {
    && sell.SellBooked? && t.orders != []
    && var sold := t.orders[|t.orders| - 1];
       && sold.kind.AutoSell? && sold.owner == row.signal && sold.qty == row.qty
       && (sold.status.Filled? <==> sell.fill.Some?)
       && (sold.status.Filled? ==> sold.status == Filled(row.exitPrice))
       && (!sold.status.Filled? ==> sold.status == Live && row.exitPrice == nominal)
  }

  /** What the step from s to t must be for it to book the row. The nominal price of a tick exit
      is the quote; that of the 15:55 flatten is the entry price. */
  ghost predicate Books(s: State, e: Event, t: State, row: Row) {
    match e
    case PollManual(sig, _, _) => Closes(s, row, sig) && SoldByHand(s, row)
    case ReadStop(_, _) => s.phase.Checked? && Closes(s, row, s.phase.signal) && StoppedOut(s, row)
    case Reconcile(sig, readRaises, _) =>
      && Closes(s, row, sig)
      && (SoldByHand(s, row) || StoppedOut(s, row)
          || (row.reason == ExternalClose && row.exitPrice == row.entryPrice
              && (readRaises || FillPrice(s.orders, s.open[sig].stopOrder).None?)))
    case FinishAdvance(quote, _, _, _, env) =>
      && s.phase.Quoted? && Closes(s, row, s.phase.signal) && quote.Some?
      && Verdict(s.open[s.phase.signal], e).Ok? && Verdict(s.open[s.phase.signal], e).value.exit.Some?
      && row.reason == Exit(Verdict(s.open[s.phase.signal], e).value.exit.value.reason)
      && SoldAtClose(t, row, env.sell, quote.value)
    case Flatten(sig, env) =>
      && Closes(s, row, sig) && row.reason == Exit(S.TimeStop1555)
      && SoldAtClose(t, row, env.sell, row.entryPrice)
    case _ => false
  }

  /** A step leaves the table alone or appends the one row it books. */
  ghost predicate RowsStep(s: State, e: Event, t: State) {
    || t.rows == s.rows
    || (|t.rows| == |s.rows| + 1 && t.rows[..|s.rows|] == s.rows && Books(s, e, t, t.rows[|s.rows|]))
  }

  lemma PolledRows(s: State, e: Event)
    requires Inv(s) && Truthful(s) && e.PollManual?
    ensures RowsStep(s, e, Polled(s, e))
  {
    if e.sig in s.open {
      assert PointsWell(s, e.sig, s.open[e.sig]);
    }
  }

  lemma ReconciledRows(s: State, e: Event)
    requires Inv(s) && Truthful(s) && e.Reconcile?
    ensures RowsStep(s, e, Reconciled(s, e))
  {
    if e.sig in s.open {
      assert PointsWell(s, e.sig, s.open[e.sig]);
    }
  }

  lemma StopReadRows(s: State, e: Event)
    requires Inv(s) && Truthful(s) && e.ReadStop?
    ensures RowsStep(s, e, Advanced(s, e))
  {
    if s.phase.Checked? {
      assert PointsWell(s, s.phase.signal, s.open[s.phase.signal]);
    }
  }

  lemma ClosedRows(s: State, sig: nat, reason: S.ExitReason, nominal: real, env: CloseEnv)
    requires sig in s.open
    ensures var t := Closed(s, sig, reason, nominal, env);
            || t.rows == s.rows
            || (|t.rows| == |s.rows| + 1 && t.rows[..|s.rows|] == s.rows
                && var row := t.rows[|s.rows|];
                   Closes(s, row, sig) && row.reason == Exit(reason) && SoldAtClose(t, row, env.sell, nominal))
  {}

  lemma ManagedRows(s: State, e: Event)
    requires Inv(s) && e.FinishAdvance?
    ensures RowsStep(s, e, Advanced(s, e))
  {
    if s.phase.Quoted? && Verdict(s.open[s.phase.signal], e).Ok? {
      var sig := s.phase.signal;
      PushedShape(s, sig, e);
      if ActsOnExit(s, sig, e) {
        ClosedRows(Pushed(s, sig, e), sig, Verdict(s.open[sig], e).value.exit.value.reason, e.quote.value, e.env);
      }
    }
  }

  lemma {:induction false} AdoptionsKeepRows(s: State, adoptions: seq<Adoption>, cfg: Config)
    ensures AdoptedAll(s, adoptions, cfg).rows == s.rows
  {
    if adoptions != [] {
      AdoptionsKeepRows(s, adoptions[..|adoptions| - 1], cfg);
    }
  }

  lemma StepRows(s: State, e: Event, cfg: Config)
    requires Inv(s) && Truthful(s)
    ensures RowsStep(s, e, Step(s, e, cfg))
  {
    match e
    case Post(_, _, _, _, _, _) => PostKeepsRows(s, e, cfg);
    case ApiFlag(_) =>
    case ApiPut(_) =>
    case DrainRequest(_, _) => DrainKeepsRows(s, e);
    case PollManual(_, _, _) => PolledRows(s, e);
    case StartAdvance(_) =>
    case ReadStop(_, _) => StopReadRows(s, e);
    case FinishAdvance(_, _, _, _, _) => ManagedRows(s, e);
    case Reconcile(_, _, _) => ReconciledRows(s, e);
    case Flatten(sig, env) =>
      if sig in s.open {
        ClosedRows(s, sig, S.TimeStop1555, s.open[sig].entryPrice, env);
      }
    case BrokerFills(_, _) =>
    case BrokerKills(_) =>
    case Restart(adoptions) => AdoptionsKeepRows(Crashed(s), adoptions, cfg);
  }

  lemma PostKeepsRows(s: State, e: Event, cfg: Config)
    requires e.Post?
    ensures HandlePost(s, e, cfg).rows == s.rows
  {}

  lemma DrainKeepsRows(s: State, e: Event)
    requires e.DrainRequest?
    ensures Drained(s, e).rows == s.rows
  {}

  /** Step n of the run books row j. */
  ghost predicate BookedAt(es: seq<Event>, cfg: Config, j: nat, n: nat, row: Row) {
    && n < |es| && |Run(EMPTY, es[..n], cfg).rows| == j
    && Books(Run(EMPTY, es[..n], cfg), es[n], Run(EMPTY, es[..n + 1], cfg), row)
  }

  lemma PrefixBooks(es: seq<Event>, cfg: Config, m: nat, j: nat, n: nat, row: Row)
    requires m <= |es| && BookedAt(es[..m], cfg, j, n, row)
    ensures BookedAt(es, cfg, j, n, row)
  {
    assert es[..m][..n] == es[..n] && es[..m][..n + 1] == es[..n + 1];
  }

  /** Main result: over every run, under any failure, restarts and the flatten included, each
      trades row was booked by one step of the run that closed the position with its entry and
      size, and its price is explained by that step: a manual close carries the fill price of
      the position's own manual sell that its record points at, an external stop-out that of the
      stop its record points at, a strategy exit or flatten its own sell's fill price exactly when
      the sell filled within the wait and otherwise the quote (a tick exit) or the entry price (the
      flatten), and an external close without a readable stop fill the entry price. */
  lemma {:induction false} EveryRowIsExplained(es: seq<Event>, cfg: Config, j: nat)
    requires j < |Run(EMPTY, es, cfg).rows|
    ensures exists n: nat :: BookedAt(es, cfg, j, n, Run(EMPTY, es, cfg).rows[j])
  {
    if es != [] {
      var n := |es| - 1;
      var before, after := Run(EMPTY, es[..n], cfg), Run(EMPTY, es, cfg);
      assert es[..n + 1] == es;
      RunKeepsTruth(es[..n], cfg);
      StepRows(before, es[n], cfg);
      if j < |before.rows| {
        EveryRowIsExplained(es[..n], cfg, j);
        assert after.rows[j] == before.rows[j] by {
          assert after.rows != before.rows ==> after.rows[..|before.rows|][j] == before.rows[j];
        }
        var k: nat :| BookedAt(es[..n], cfg, j, k, before.rows[j]);
        PrefixBooks(es, cfg, n, j, k, before.rows[j]);
      } else {
        assert BookedAt(es, cfg, j, n, after.rows[j]);
      }
    }
  }
}
