/** The protective stop of an open option position: what the broker's book holds against what
    the strategy wants, tick by tick, over a process run and across a restart. */
module PositionStops {
  import opened Prelude
  import opened PositionBook
  import opened PositionSafety

  // ---- The lag between the strategy's stop and the book's ---------------------------------

  /** A tick with a quote, a readable stop and a successful modify that decides no exit leaves
      the book less than 1% of the entry behind the strategy. The branch that refuses to push a
      stop at or above the market cannot leave a larger gap: it implies an exit. */
  lemma SurvivingTickBoundsTheLag(s: State, sig: nat, e: Event)
    requires e.FinishAdvance? && sig in s.open && s.open[sig].entryPrice > 0.0
    requires e.quote.Some? && S.Evaluate(s.open[sig].position, e.quote.value, e.now).Ok?
    requires !e.readRaises && StopOnBook(s.orders, s.open[sig].stopOrder).Some?
    requires !e.push.submitRaises
    requires S.Evaluate(s.open[sig].position, e.quote.value, e.now).value.exit.None?
    ensures var t := Managed(s, sig, e);
            && sig in t.open
            && t.open[sig].position == S.Advance(s.open[sig].position, e.quote.value)
            && StopOnBook(t.orders, t.open[sig].stopOrder).Some?
            && t.open[sig].position.stopPrice - StopOnBook(t.orders, t.open[sig].stopOrder).value
                 < s.open[sig].entryPrice * MIN_STOP_BUMP_FRACTION
  {
    var r, price := s.open[sig], e.quote.value;
    var advanced := S.Advance(r.position, price);
    assert advanced.stopPrice < price;
    var prior := StopOnBook(s.orders, r.stopOrder);
    PositiveFraction(r.entryPrice);
    var evaluated := Evaluated(s, sig, advanced);
    if Pushes(r, advanced.stopPrice, prior, price) {
      RestoppedShows(evaluated, sig, advanced.stopPrice, e.push);
    }
  }

  lemma PositiveFraction(entry: real)
    requires entry > 0.0
    ensures entry * MIN_STOP_BUMP_FRACTION > 0.0
  {}

  lemma RestoppedShows(s: State, sig: nat, newStop: real, fate: ModifyFate)
    requires sig in s.open && s.open[sig].stopOrder.Some? && !fate.submitRaises
    ensures var t := Restopped(s, sig, newStop, fate);
            && t.open == s.open[sig := s.open[sig].(stopOrder := Some(|s.orders|))]
            && StopOnBook(t.orders, Some(|s.orders|)) == Some(newStop)
  {}

  // ---- Stops never fall within a process ---------------------------------------------------

  /** Every record points at a stop order, or at none; stop orders have a stop price. */
  ghost predicate StopsKnown(s: State) {
    && (forall k <- s.open :: s.open[k].stopOrder.Some? ==> StopOnBook(s.orders, s.open[k].stopOrder).Some?)
    && (forall i | 0 <= i < |s.orders| :: s.orders[i].kind.StopSell? ==> s.orders[i].stopPrice.Some?)
  }

  /** Stop prices of existing orders are immutable. */
  ghost predicate SameStopPrices(s: State, t: State) {
    |s.orders| <= |t.orders| && forall i | 0 <= i < |s.orders| :: t.orders[i].stopPrice == s.orders[i].stopPrice
  }

  /** Neither the strategy's stop nor the stop order on the book has moved down, and a position
      without a stop order has not got one. */
  ghost predicate HoldsOrRaises(s: State, t: State, k: nat)
    requires k in s.open && k in t.open
  {
    && s.open[k].position.stopPrice <= t.open[k].position.stopPrice
    && (t.open[k].stopOrder.Some? ==>
          var before, after := StopOnBook(s.orders, s.open[k].stopOrder), StopOnBook(t.orders, t.open[k].stopOrder);
          before.Some? && after.Some? && before.value <= after.value)
  }

  /** Surviving positions hold or raise; new ones are new signals with a stop. */
  ghost predicate Protects(s: State, t: State) {
    && SameStopPrices(s, t) && |s.signals| <= |t.signals|
    && (forall k <- t.open :: if k in s.open then HoldsOrRaises(s, t, k) else |s.signals| <= k)
  }

  lemma AdvanceRaises(p: S.Position, price: real)
    requires p.entryPrice != 0.0
    ensures S.Advance(p, price).stopPrice >= p.stopPrice
  {}

  lemma ProtectsChains(s: State, m: State, t: State)
    requires Inv(s) && Protects(s, m) && Protects(m, t) && StopsKnown(m)
    ensures Protects(s, t)
  {
    forall k <- t.open ensures if k in s.open then HoldsOrRaises(s, t, k) else |s.signals| <= k {
      if k in s.open {
        assert k in m.open && HoldsOrRaises(s, m, k) && HoldsOrRaises(m, t, k);
      }
    }
  }

  lemma RestoppedProtects(s: State, sig: nat, newStop: real, fate: ModifyFate)
    requires sig in s.open && StopsKnown(s) && s.open[sig].stopOrder.Some?
    requires StopOnBook(s.orders, s.open[sig].stopOrder).value <= newStop
    ensures StopsKnown(Restopped(s, sig, newStop, fate)) && Protects(s, Restopped(s, sig, newStop, fate))
  {}

  lemma ClosedProtects(s: State, sig: nat, reason: S.ExitReason, nominal: real, env: CloseEnv)
    requires sig in s.open && StopsKnown(s)
    ensures StopsKnown(Closed(s, sig, reason, nominal, env)) && Protects(s, Closed(s, sig, reason, nominal, env))
  {}

  lemma EvaluatedProtects(s: State, sig: nat, position: S.Position)
    requires sig in s.open && StopsKnown(s) && s.open[sig].position.stopPrice <= position.stopPrice
    ensures var t := Evaluated(s, sig, position); StopsKnown(t) && Protects(s, t)
  {}

  lemma PushedProtects(s: State, sig: nat, e: Event)
    requires Inv(s) && e.FinishAdvance? && sig in s.open && StopsKnown(s) && Verdict(s.open[sig], e).Ok?
    ensures StopsKnown(Pushed(s, sig, e)) && Protects(s, Pushed(s, sig, e))
  {
    var position := Verdict(s.open[sig], e).value.position;
    AdvanceRaises(s.open[sig].position, e.quote.value);
    EvaluatedProtects(s, sig, position);
    SameBooksKeepInv(s, Evaluated(s, sig, position));
    if PushesStop(s, sig, e) {
      RestoppedProtects(Evaluated(s, sig, position), sig, position.stopPrice, e.push);
      ProtectsChains(s, Evaluated(s, sig, position), Pushed(s, sig, e));
    }
  }

  lemma ManagedProtects(s: State, sig: nat, e: Event)
    requires Inv(s) && e.FinishAdvance? && sig in s.open && StopsKnown(s)
    ensures StopsKnown(Managed(s, sig, e)) && Protects(s, Managed(s, sig, e))
  {
    var verdict := Verdict(s.open[sig], e);
    if verdict.Ok? {
      PushedProtects(s, sig, e);
      if ActsOnExit(s, sig, e) {
        ClosedProtects(Pushed(s, sig, e), sig, verdict.value.exit.value.reason, e.quote.value, e.env);
        ProtectsChains(s, Pushed(s, sig, e), Managed(s, sig, e));
      }
    }
  }

  lemma PostProtects(s: State, e: Event, cfg: Config)
    requires Inv(s) && e.Post? && StopsKnown(s)
    ensures StopsKnown(HandlePost(s, e, cfg)) && Protects(s, HandlePost(s, e, cfg))
  {
    var logged := s.(signals := s.signals + [Signal(e.contract, e.receivedAt, false)]);
    if HandlePost(s, e, cfg) != logged {
      EnterProtects(logged, |s.signals|, e, ComputeQty(e.ask.value, cfg.spendCap, cfg.maxQty), cfg);
    }
  }

  lemma EnterProtects(s: State, sig: nat, e: Event, qty: int, cfg: Config)
    requires e.Post? && StopsKnown(s) && |s.signals| == sig + 1
    ensures var t := Enter(s, sig, e, qty, cfg);
            && StopsKnown(t) && SameStopPrices(s, t) && |t.signals| == |s.signals|
            && forall k <- t.open :: k == sig || (k in s.open && HoldsOrRaises(s, t, k))
  {}

  lemma DrainedProtects(s: State, e: Event)
    requires e.DrainRequest? && StopsKnown(s)
    ensures StopsKnown(Drained(s, e)) && Protects(s, Drained(s, e))
  {
    if s.phase.Idle? && s.queue != [] && s.queue[0] in s.open {
      RequestedProtects(s.(queue := s.queue[1..]), s.queue[0], e.cancelTakes, e.manual);
    }
  }

  lemma RequestedProtects(s: State, sig: nat, takes: bool, manual: ManualFate)
    requires sig in s.open && StopsKnown(s)
    ensures StopsKnown(Requested(s, sig, takes, manual)) && Protects(s, Requested(s, sig, takes, manual))
  {
    var cancelled := Cancelled(s.orders, s.open[sig].stopOrder, takes);
    assert forall i | 0 <= i < |s.orders| :: cancelled[i].stopPrice == s.orders[i].stopPrice;
  }

  lemma DroppedProtects(s: State, e: Event)
    requires (e.PollManual? || e.Reconcile?) && StopsKnown(s)
    ensures var t := if e.PollManual? then Polled(s, e) else Reconciled(s, e); StopsKnown(t) && Protects(s, t)
  {}

  lemma AdvancedProtects(s: State, e: Event)
    requires Inv(s) && (e.StartAdvance? || e.ReadStop? || e.FinishAdvance?) && StopsKnown(s)
    ensures StopsKnown(Advanced(s, e)) && Protects(s, Advanced(s, e))
  {
    if e.FinishAdvance? && s.phase.Quoted? {
      ManagedProtects(s, s.phase.signal, e);
    }
  }

  lemma RequestingProtects(s: State, e: Event)
    requires (e.ApiFlag? || e.ApiPut?) && StopsKnown(s)
    ensures StopsKnown(Requesting(s, e)) && Protects(s, Requesting(s, e))
  {}

  lemma BrokerProtects(s: State, id: nat, status: Status)
    requires StopsKnown(s)
    ensures StopsKnown(Broker(s, id, status)) && Protects(s, Broker(s, id, status))
  {}

  lemma StepProtects(s: State, e: Event, cfg: Config)
    requires Inv(s) && StopsKnown(s) && !e.Restart?
    ensures StopsKnown(Step(s, e, cfg)) && Protects(s, Step(s, e, cfg))
  {
    match e
    case Post(_, _, _, _, _, _) => PostProtects(s, e, cfg);
    case ApiFlag(_) => RequestingProtects(s, e);
    case ApiPut(_) => RequestingProtects(s, e);
    case DrainRequest(_, _) => DrainedProtects(s, e);
    case PollManual(_, _, _) => DroppedProtects(s, e);
    case StartAdvance(_) => AdvancedProtects(s, e);
    case ReadStop(_, _) => AdvancedProtects(s, e);
    case FinishAdvance(_, _, _, _, _) => AdvancedProtects(s, e);
    case Reconcile(_, _, _) => DroppedProtects(s, e);
    case Flatten(sig, env) =>
      if sig in s.open {
        ClosedProtects(s, sig, S.TimeStop1555, s.open[sig].entryPrice, env);
      }
    case BrokerFills(id, price) => BrokerProtects(s, id, Filled(price));
    case BrokerKills(id) => BrokerProtects(s, id, Dead);
  }

  lemma {:induction false} AdoptionsKnowStops(s: State, adoptions: seq<Adoption>, cfg: Config)
    requires StopsKnown(s)
    ensures StopsKnown(AdoptedAll(s, adoptions, cfg))
  {
    if adoptions != [] {
      AdoptionsKnowStops(s, adoptions[..|adoptions| - 1], cfg);
    }
  }

  lemma {:induction false} RunProtects(s: State, es: seq<Event>, cfg: Config)
    requires Inv(s) && StopsKnown(s)
    requires forall i | 0 <= i < |es| :: !es[i].Restart?
    ensures StopsKnown(Run(s, es, cfg)) && Protects(s, Run(s, es, cfg))
  {
    if es != [] {
      var init := es[..|es| - 1];
      RunProtects(s, init, cfg);
      RunKeepsInv(s, init, cfg);
      StepProtects(Run(s, init, cfg), es[|es| - 1], cfg);
      ProtectsChains(s, Run(s, init, cfg), Run(s, es, cfg));
    }
  }

  lemma {:induction false} RunKnowsStops(es: seq<Event>, cfg: Config)
    ensures StopsKnown(Run(EMPTY, es, cfg))
  {
    if es != [] {
      var init, e := es[..|es| - 1], es[|es| - 1];
      RunKnowsStops(init, cfg);
      RunKeepsInv(EMPTY, init, cfg);
      if e.Restart? {
        AdoptionsKnowStops(Crashed(Run(EMPTY, init, cfg)), e.adoptions, cfg);
      } else {
        StepProtects(Run(EMPTY, init, cfg), e, cfg);
      }
    }
  }

  /** Main result: while one process lives, whatever calls fail, the strategy's stop of an open
      position never falls and the stop price of the order its record points at never falls. A
      position whose record points at no stop order never gets one again: nothing re-places a
      stop that was missing at adoption or cancelled for a rejected manual sell. */
  lemma StopsNeverFall(past: seq<Event>, es: seq<Event>, cfg: Config, sig: nat)
    requires forall i | 0 <= i < |es| :: !es[i].Restart?
    ensures var s := Run(EMPTY, past, cfg);
            var t := Run(s, es, cfg);
            sig in s.open && sig in t.open ==>
              HoldsOrRaises(s, t, sig) && (s.open[sig].stopOrder.None? ==> t.open[sig].stopOrder.None?)
  {
    RunKnowsStops(past, cfg);
    RunKeepsInv(EMPTY, past, cfg);
    RunProtects(Run(EMPTY, past, cfg), es, cfg);
  }

  // ---- Across a restart -----------------------------------------------------------------

  /** The latest taken signal for the contract that has no trades row. */
  ghost predicate Returns(s: State, contract: Contract, sig: nat) {
    && sig < |s.signals| && Adoptable(s, sig, contract)
    && forall j | sig < j < |s.signals| :: !Adoptable(s, j, contract)
  }

  lemma AdoptedKeepsTables(s: State, t: State, a: Adoption, cfg: Config, sig: nat)
    requires t.signals == s.signals && t.rows == s.rows
    ensures var u := Adopted(t, a, cfg);
            && u.signals == s.signals && u.rows == s.rows
            && (sig in u.open <==> sig in t.open || Returns(s, a.contract, sig))
  {
    forall j: nat | j < |s.signals| ensures Adoptable(t, j, a.contract) == Adoptable(s, j, a.contract) {}
    var origin := LatestTaken(t, a.contract, |t.signals|);
    if origin.Some? {
      assert Returns(s, a.contract, origin.value);
    }
  }

  /** Which positions come back: exactly those whose signal is the latest taken one without a
      row for a contract the broker still holds. A position whose entry snapshot raised, so
      that taken was never set, is not among them. */
  lemma {:induction false} AdoptedIff(s: State, adoptions: seq<Adoption>, cfg: Config, sig: nat)
    ensures var t := AdoptedAll(Crashed(s), adoptions, cfg);
            && t.signals == s.signals && t.rows == s.rows
            && (sig in t.open <==> exists i | 0 <= i < |adoptions| :: Returns(s, adoptions[i].contract, sig))
  {
    if adoptions != [] {
      var n := |adoptions| - 1;
      var init, last := adoptions[..n], adoptions[n];
      AdoptedIff(s, init, cfg, sig);
      AdoptedKeepsTables(s, AdoptedAll(Crashed(s), init, cfg), last, cfg, sig);
      if exists i | 0 <= i < |init| :: Returns(s, init[i].contract, sig) {
        var i :| 0 <= i < |init| && Returns(s, init[i].contract, sig);
        assert adoptions[i] == init[i];
      }
      if exists i | 0 <= i < |adoptions| :: Returns(s, adoptions[i].contract, sig) {
        var i :| 0 <= i < |adoptions| && Returns(s, adoptions[i].contract, sig);
        assert i < n ==> init[i] == adoptions[i];
      }
    }
  }

  /** The signal was never marked as taken. */
  predicate Unmarked(s: State, sig: nat) {
    sig < |s.signals| && !s.signals[sig].taken
  }

  lemma PostKeepsSignals(s: State, e: Event, cfg: Config)
    requires e.Post?
    ensures s.signals <= HandlePost(s, e, cfg).signals
  {}

  lemma StepKeepsSignals(s: State, e: Event, cfg: Config)
    requires !e.Restart?
    ensures s.signals <= Step(s, e, cfg).signals
  {
    match e
    case Post(_, _, _, _, _, _) => PostKeepsSignals(s, e, cfg);
    case FinishAdvance(_, _, _, _, _) =>
      if s.phase.Quoted? && s.phase.signal in s.open {
        var mid := ManagedShape(s, s.phase.signal, e);
      }
    case _ =>
  }

  /** An unmarked signal stays unmarked, a restart closes its position, and nothing reopens it. */
  lemma StepKeepsUnmarked(s: State, e: Event, cfg: Config, sig: nat)
    requires Inv(s) && Unmarked(s, sig)
    ensures Unmarked(Step(s, e, cfg), sig)
    ensures sig !in s.open || e.Restart? ==> sig !in Step(s, e, cfg).open
  {
    if e.Restart? {
      AdoptedIff(s, e.adoptions, cfg, sig);
    } else {
      StepKeepsSignals(s, e, cfg);
      assert Step(s, e, cfg).signals[sig] == s.signals[sig];
      if e.Post? {
        assert sig in Step(s, e, cfg).open ==> sig in s.open;
      } else {
        OnlyPostsOpen(s, e, cfg);
      }
    }
  }

  /** The run contains the start of a new process. */
  predicate Restarts(es: seq<Event>) {
    es != [] && (es[|es| - 1].Restart? || Restarts(es[..|es| - 1]))
  }

  lemma {:induction false} RunKeepsUnmarked(s: State, es: seq<Event>, cfg: Config, sig: nat)
    requires Inv(s) && Unmarked(s, sig)
    ensures Unmarked(Run(s, es, cfg), sig)
    ensures sig !in s.open || Restarts(es) ==> sig !in Run(s, es, cfg).open
  {
    if es != [] {
      var n := |es| - 1;
      RunKeepsUnmarked(s, es[..n], cfg, sig);
      RunKeepsInv(s, es[..n], cfg);
      StepKeepsUnmarked(Run(s, es[..n], cfg), es[n], cfg, sig);
    }
  }

  /** Main result: when the entry snapshot or the write of the taken flag raised, the position is
      managed by the process that opened it, and over every run that contains a restart, however
      late and whatever the broker still holds, it is open in no process after that. */
  lemma UnmarkedEntryIsOrphaned(past: seq<Event>, post: Event, es: seq<Event>, cfg: Config)
    requires post.Post? && (post.fate.Opened? ==> !post.fate.marked)
    requires Restarts(es)
    ensures var s := Run(EMPTY, past, cfg);
            s.phase.Idle? ==> |s.signals| !in Run(Step(s, post, cfg), es, cfg).open
  {
    var s := Run(EMPTY, past, cfg);
    RunKeepsInv(EMPTY, past, cfg);
    StepKeepsInv(s, post, cfg);
    if s.phase.Idle? {
      EntryIsUnmarked(s, post, cfg);
      RunKeepsUnmarked(Step(s, post, cfg), es, cfg, |s.signals|);
    }
  }

  lemma EntryIsUnmarked(s: State, post: Event, cfg: Config)
    requires post.Post? && (post.fate.Opened? ==> !post.fate.marked)
    ensures Unmarked(HandlePost(s, post, cfg), |s.signals|)
  {}
}
