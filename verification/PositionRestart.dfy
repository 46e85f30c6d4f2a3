/** What a restart does to the protection of an option position: which stop the re-adopted position
    starts from, how far that is from the stop before the crash, and where both go from there. */
module PositionRestart {
  import opened Prelude
  import opened PositionBook
  import opened PositionSafety
  import opened PositionStops
  import opened PositionExits
  import F = PositionEffects

  // ---- The book's stop is not ahead of the strategy's -------------------------------------------

  /** The position is settled, and the stop on the book, if there is one, is at most half a cent
      above the strategy's. */
  ghost predicate Abreast(orders: seq<Order>, r: Record) {
    && r.entryPrice > 0.0 && r.position.entryPrice == r.entryPrice
    && r.position.peakPrice >= 0.0 && S.Settled(r.position)
    && var book := StopOnBook(orders, r.stopOrder);
       book.Some? ==> book.value <= r.position.stopPrice + 0.005
  }

  ghost predicate AllAbreast(s: State) {
    forall k <- s.open :: Abreast(s.orders, s.open[k])
  }

  /** What a startup must find for a position it adopts: the broker states a positive entry, and a
      stop that it lists but cannot read is not above the configured one. */
  predicate ReadsWell(s: State, a: Adoption, cfg: Config) {
    LatestTaken(s, a.contract, |s.signals|).Some? ==>
      && a.entryPrice > 0.0
      && var book := StopOnBook(s.orders, AdoptedStop(s, a));
         a.readRaises && book.Some? ==> book.value <= InitialStop(a.entryPrice, cfg) + 0.005
  }

  /** What must hold before the step; only a restart has a guard. */
  predicate Readable(s: State, e: Event, cfg: Config) {
    e.Restart? ==> forall i | 0 <= i < |e.adoptions| && LastFor(e.adoptions, i) :: ReadsWell(s, e.adoptions[i], cfg)
  }

  /** Surviving records keep their position, and their stop unless they forget it. */
  lemma SurvivorsStayAbreast(s: State, t: State)
    requires AllAbreast(s) && StopsKnown(s) && SameStopPrices(s, t)
    requires forall k <- t.open :: Abreast(t.orders, t.open[k]) || (k in s.open && SameOrForgotten(s.open[k], t.open[k]))
    ensures AllAbreast(t)
  {
    forall k <- t.open ensures Abreast(t.orders, t.open[k]) {
      assert k in s.open ==> Abreast(s.orders, s.open[k]);
    }
  }

  predicate SameOrForgotten(a: Record, b: Record) {
    && b.entryPrice == a.entryPrice && b.position == a.position
    && (b.stopOrder == a.stopOrder || b.stopOrder.None?)
  }

  lemma CentsAreNear(x: real)
    ensures x - 0.005 <= HalfEvenCents(x) <= x + 0.005
  {}

  lemma EnteredIsAbreast(s: State, sig: nat, e: Event, qty: int, cfg: Config)
    requires e.Post? && sig < |s.signals| && sig !in s.open
    ensures var t := Enter(s, sig, e, qty, cfg); sig in t.open ==> Abreast(t.orders, t.open[sig])
  {
    if e.fate.Opened? {
      S.OpenedIsFresh(e.fate.price, qty, e.now.utc, e.contract.expiration, cfg.stopLossPct);
      CentsAreNear(e.fate.price * (1.0 - cfg.stopLossPct));
    }
  }

  lemma PostStaysAbreast(s: State, e: Event, cfg: Config)
    requires Inv(s) && AllAbreast(s) && StopsKnown(s) && e.Post?
    requires SameStopPrices(s, HandlePost(s, e, cfg))
    ensures AllAbreast(HandlePost(s, e, cfg))
  {
    var t := HandlePost(s, e, cfg);
    var logged := s.(signals := s.signals + [Signal(e.contract, e.receivedAt, false)]);
    if t != logged {
      EnteredIsAbreast(logged, |s.signals|, e, ComputeQty(e.ask.value, cfg.spendCap, cfg.maxQty), cfg);
    }
    assert forall k <- t.open :: k != |s.signals| ==> k in s.open && t.open[k] == s.open[k];
    SurvivorsStayAbreast(s, t);
  }

  lemma PushedIsAbreast(s: State, sig: nat, e: Event)
    requires e.FinishAdvance? && sig in s.open && StopsKnown(s)
    requires Abreast(s.orders, s.open[sig]) && Verdict(s.open[sig], e).Ok?
    ensures Abreast(Pushed(s, sig, e).orders, Pushed(s, sig, e).open[sig])
  {
    var r := s.open[sig];
    S.AdvanceSettles(r.position, e.quote.value);
    var t := Pushed(s, sig, e);
    assert t.open[sig].position == S.Advance(r.position, e.quote.value);
    PushedShape(s, sig, e);
    if PushesStop(s, sig, e) && t.open[sig].stopOrder != r.stopOrder {
      assert StopOnBook(t.orders, t.open[sig].stopOrder) == Some(t.open[sig].position.stopPrice);
    }
  }

  lemma PushedStaysAbreast(s: State, sig: nat, e: Event)
    requires e.FinishAdvance? && sig in s.open && AllAbreast(s) && StopsKnown(s) && Verdict(s.open[sig], e).Ok?
    ensures AllAbreast(Pushed(s, sig, e))
  {
    var t := Pushed(s, sig, e);
    PushedShape(s, sig, e);
    PushedIsAbreast(s, sig, e);
    assert forall k <- t.open :: k != sig ==> k in s.open && t.open[k] == s.open[k];
    SurvivorsStayAbreast(s, t);
  }

  lemma ClosedStaysAbreast(s: State, sig: nat, reason: S.ExitReason, nominal: real, env: CloseEnv)
    requires sig in s.open && AllAbreast(s) && StopsKnown(s)
    ensures AllAbreast(Closed(s, sig, reason, nominal, env))
  {
    SurvivorsStayAbreast(s, Closed(s, sig, reason, nominal, env));
  }

  lemma FinishStaysAbreast(s: State, e: Event)
    requires Inv(s) && e.FinishAdvance? && AllAbreast(s) && StopsKnown(s)
    ensures AllAbreast(Advanced(s, e))
  {
    if s.phase.Quoted? {
      var sig := s.phase.signal;
      var verdict := Verdict(s.open[sig], e);
      if verdict.Ok? {
        PushedStaysAbreast(s, sig, e);
        PushedProtects(s, sig, e);
        if ActsOnExit(s, sig, e) {
          ClosedStaysAbreast(Pushed(s, sig, e), sig, verdict.value.exit.value.reason, e.quote.value, e.env);
        }
      }
    }
  }

  lemma RequestedStaysAbreast(s: State, sig: nat, takes: bool, manual: ManualFate)
    requires sig in s.open && AllAbreast(s) && StopsKnown(s)
    ensures AllAbreast(Requested(s, sig, takes, manual))
  {
    RequestedProtects(s, sig, takes, manual);
    SurvivorsStayAbreast(s, Requested(s, sig, takes, manual));
  }

  lemma DrainStaysAbreast(s: State, e: Event)
    requires e.DrainRequest? && AllAbreast(s) && StopsKnown(s)
    ensures AllAbreast(Drained(s, e))
  {
    if s.phase.Idle? && s.queue != [] && s.queue[0] in s.open {
      RequestedStaysAbreast(s.(queue := s.queue[1..]), s.queue[0], e.cancelTakes, e.manual);
    }
  }

  /** Positions only leave; orders stay. */
  lemma LeavingStaysAbreast(s: State, t: State)
    requires AllAbreast(s) && StopsKnown(s) && t.orders == s.orders
    requires forall k <- t.open :: k in s.open && SameOrForgotten(s.open[k], t.open[k])
    ensures AllAbreast(t)
  {
    SurvivorsStayAbreast(s, t);
  }

  lemma BrokerStaysAbreast(s: State, id: nat, status: Status)
    requires AllAbreast(s) && StopsKnown(s)
    ensures AllAbreast(Broker(s, id, status))
  {
    SurvivorsStayAbreast(s, Broker(s, id, status));
  }

  /** Requests, reads and external closes send nothing. */
  lemma QuietStaysAbreast(s: State, e: Event, cfg: Config)
    requires AllAbreast(s) && StopsKnown(s)
    requires e.ApiFlag? || e.ApiPut? || e.PollManual? || e.Reconcile? || e.StartAdvance? || e.ReadStop?
    ensures AllAbreast(Step(s, e, cfg))
  {
    LeavingStaysAbreast(s, Step(s, e, cfg));
  }

  lemma AdoptedIsAbreastIff(s: State, a: Adoption, sig: nat, cfg: Config)
    requires LatestTaken(s, a.contract, |s.signals|) == Some(sig)
    ensures Abreast(s.orders, AdoptedRecord(s, a, sig, cfg)) <==> ReadsWell(s, a, cfg)
  {}

  lemma RestartIsAbreastIff(s: State, adoptions: seq<Adoption>, cfg: Config)
    ensures AllAbreast(AdoptedAll(Crashed(s), adoptions, cfg)) <==> Readable(s, Restart(adoptions), cfg)
  {
    var t := AdoptedAll(Crashed(s), adoptions, cfg);
    forall k: nat ensures Rebuilt(s, adoptions, cfg, k, t) {
      AdoptedExactly(s, adoptions, cfg, k);
    }
    if Readable(s, Restart(adoptions), cfg) {
      forall k <- t.open ensures Abreast(t.orders, t.open[k]) {
        assert Rebuilt(s, adoptions, cfg, k, t);
        var i: nat :| Brings(s, adoptions, i, k);
        AdoptedIsAbreastIff(s, adoptions[i], k, cfg);
      }
    }
    if AllAbreast(t) {
      forall i: nat | i < |adoptions| && LastFor(adoptions, i) ensures ReadsWell(s, adoptions[i], cfg) {
        var origin := LatestTaken(s, adoptions[i].contract, |s.signals|);
        if origin.Some? {
          assert Rebuilt(s, adoptions, cfg, origin.value, t) && Brings(s, adoptions, i, origin.value);
          AdoptedIsAbreastIff(s, adoptions[i], origin.value, cfg);
        }
      }
    }
  }

  /** One step of any kind keeps every position abreast if and only if it meets its guard: only a
      startup that cannot read a listed stop can put the strategy's stop below the book's. */
  lemma StepIsAbreastIff(s: State, e: Event, cfg: Config)
    requires Inv(s) && StopsKnown(s) && AllAbreast(s)
    ensures AllAbreast(Step(s, e, cfg)) <==> Readable(s, e, cfg)
  {
    if e.Restart? {
      RestartIsAbreastIff(s, e.adoptions, cfg);
    } else {
      StepProtects(s, e, cfg);
      match e
      case Post(_, _, _, _, _, _) =>
        if s.phase.Idle? {
          PostStaysAbreast(s, e, cfg);
        }
      case FinishAdvance(_, _, _, _, _) => FinishStaysAbreast(s, e);
      case DrainRequest(_, _) => DrainStaysAbreast(s, e);
      case Flatten(sig, env) =>
        if s.phase.Idle? && sig in s.open {
          ClosedStaysAbreast(s, sig, S.TimeStop1555, s.open[sig].entryPrice, env);
        }
      case BrokerFills(id, price) => BrokerStaysAbreast(s, id, Filled(price));
      case BrokerKills(id) => BrokerStaysAbreast(s, id, Dead);
      case _ => QuietStaysAbreast(s, e, cfg);
    }
  }

  ghost predicate AlwaysAbreast(s: State, es: seq<Event>, cfg: Config) {
    AllAbreast(Run(s, es, cfg)) && (es == [] || AlwaysAbreast(s, es[..|es| - 1], cfg))
  }

  predicate ReadableRun(s: State, es: seq<Event>, cfg: Config) {
    es == [] || (ReadableRun(s, es[..|es| - 1], cfg) && Readable(Run(s, es[..|es| - 1], cfg), es[|es| - 1], cfg))
  }

  /** Main result, whole runs: no open position ever has a stop on the book more than half a cent
      above the strategy's if and only if every startup of the run reads well. */
  lemma {:induction false} RunIsAbreastIff(es: seq<Event>, cfg: Config)
    ensures AlwaysAbreast(EMPTY, es, cfg) <==> ReadableRun(EMPTY, es, cfg)
  {
    if es != [] {
      var init := es[..|es| - 1];
      RunIsAbreastIff(init, cfg);
      RunKeepsInv(EMPTY, init, cfg);
      RunKnowsStops(init, cfg);
      if AllAbreast(Run(EMPTY, init, cfg)) {
        StepIsAbreastIff(Run(EMPTY, init, cfg), es[|es| - 1], cfg);
      }
    }
  }

  // ---- Before and after the crash -----------------------------------------------------------------

  /** What a restart may begin with for the position sig of s. */
  function Start(s: State, a: Adoption, sig: nat, cfg: Config): real
    requires sig < |s.signals|
  {
    AdoptedRecord(s, a, sig, cfg).position.stopPrice
  }

  /** Over the later prices, the stop q resumes to lies between its start and the higher of that and
      the uninterrupted stop of p; once the old peak is regained with the trail active the two
      differ only by what the stops at the crash exceed the trail. */
  ghost predicate Sandwiched(p: S.Position, q: S.Position, after: seq<real>)
    requires p.entryPrice > 0.0 && q.entryPrice > 0.0
  {
    var regained := S.Highest(0.0, after);
    S.Meet(S.Track(q, after).stopPrice, S.Track(p, after).stopPrice, q.stopPrice, p.stopPrice,
           regained >= p.peakPrice && S.Regime(p.entryPrice, regained) > 0)
  }

  /** From the book's stop when the startup reads the position's own stop order, which is at most
      half a cent above the stop before the crash; from the configured stop when there is none or
      it cannot be read, that far from the configured percentage below the entry. */
  predicate StartsWell(s: State, a: Adoption, sig: nat, cfg: Config)
    requires sig in s.open && sig < |s.signals|
  {
    var r, start := s.open[sig], Start(s, a, sig, cfg);
    && (AdoptedStop(s, a).Some? && AdoptedStop(s, a) == r.stopOrder && !a.readRaises ==>
          StopOnBook(s.orders, r.stopOrder) == Some(start) && start <= r.position.stopPrice + 0.005)
    && (AdoptedStop(s, a).None? || a.readRaises ==>
          -0.005 <= start - a.entryPrice * (1.0 - cfg.stopLossPct) <= 0.005)
  }

  lemma CrashStartsWell(s: State, a: Adoption, sig: nat, cfg: Config)
    requires StopsKnown(s) && sig in s.open && sig < |s.signals| && Abreast(s.orders, s.open[sig])
    ensures StartsWell(s, a, sig, cfg)
  {
    CentsAreNear(a.entryPrice * (1.0 - cfg.stopLossPct));
  }

  /** Main result: a position of a run whose startups read well is adopted again after a crash, at
      the entry it had. For every later price list the stop it resumes to is sandwiched between where it
      starts and the uninterrupted one, and it starts well. */
  lemma AdoptedPositionIsSandwiched(past: seq<Event>, a: Adoption, cfg: Config, sig: nat, after: seq<real>)
    requires ReadableRun(EMPTY, past, cfg) && sig in Run(EMPTY, past, cfg).open
    requires var s := Run(EMPTY, past, cfg);
             LatestTaken(s, a.contract, |s.signals|) == Some(sig) && a.entryPrice == s.open[sig].entryPrice
    ensures var s := Run(EMPTY, past, cfg);
            var p, q := s.open[sig].position, Adopted(s, a, cfg).open[sig].position;
            && p.entryPrice > 0.0 && q.entryPrice > 0.0 && q.stopPrice == Start(s, a, sig, cfg)
            && StartsWell(s, a, sig, cfg) && Sandwiched(p, q, after)
  {
    var s := Run(EMPTY, past, cfg);
    RunIsAbreastIff(past, cfg);
    RunKnowsStops(past, cfg);
    assert Abreast(s.orders, s.open[sig]);
    CrashStartsWell(s, a, sig, cfg);
    S.ResumedSandwich(s.open[sig].position, AdoptedRecord(s, a, sig, cfg).position, after);
  }

  // ---- What is adopted ------------------------------------------------------------------------------

  /** A live protective stop of the broker's book on the contract. */
  predicate ProtectsContract(s: State, id: nat, contract: Contract) {
    && id < |s.orders| && s.orders[id].kind == StopSell && s.orders[id].status == Live
    && s.orders[id].owner < |s.signals| && s.signals[s.orders[id].owner].contract == contract
  }

  /** The record of an adopted position: the broker's size and entry, the signal's receipt, the
      contract's expiration, the listed stop if it protects the contract, and as stop price what
      that order shows when it can be read, else the configured fraction below the entry. */
  predicate AdoptedAs(s: State, a: Adoption, sig: nat, r: Record, cfg: Config) {
    var p := r.position;
    && sig < |s.signals|
    && r.contract == a.contract && r.qty == a.qty && r.entryPrice == a.entryPrice && !r.closing && r.manualOrder.None?
    && (a.stop.Some? && ProtectsContract(s, a.stop.value, a.contract) ==> r.stopOrder == a.stop)
    && (!(a.stop.Some? && ProtectsContract(s, a.stop.value, a.contract)) ==> r.stopOrder.None?)
    && p.entryPrice == a.entryPrice && p.qty == a.qty
    && p.openedAt == s.signals[sig].receivedAt && p.expiration == a.contract.expiration
    && p.initialStopPct == cfg.stopLossPct && p.ratchetLevel == 0 && p.peakPrice == 0.0
    && (r.stopOrder.Some? && !a.readRaises && s.orders[r.stopOrder.value].stopPrice.Some? ==>
          p.stopPrice == s.orders[r.stopOrder.value].stopPrice.value)
    && (r.stopOrder.None? || a.readRaises || s.orders[r.stopOrder.value].stopPrice.None? ==>
          -0.005 <= p.stopPrice - a.entryPrice * (1.0 - cfg.stopLossPct) <= 0.005)
  }

  lemma RecordIsAdopted(s: State, a: Adoption, sig: nat, cfg: Config)
    requires sig < |s.signals|
    ensures AdoptedAs(s, a, sig, AdoptedRecord(s, a, sig, cfg), cfg)
  {
    CentsAreNear(a.entryPrice * (1.0 - cfg.stopLossPct));
  }

  /** The signal is matched: taken, for the contract, without a row, and no later one is. */
  ghost predicate Matches(s: State, contract: Contract, sig: nat) {
    && sig < |s.signals| && s.signals[sig].taken && s.signals[sig].contract == contract && NoRow(s, sig)
    && forall j | sig < j < |s.signals| && s.signals[j].taken && s.signals[j].contract == contract :: !NoRow(s, j)
  }

  ghost predicate NoRow(s: State, sig: nat) {
    forall i | 0 <= i < |s.rows| :: s.rows[i].signal != sig
  }

  lemma MatchIsLatest(s: State, contract: Contract, sig: nat)
    ensures Matches(s, contract, sig) <==> LatestTaken(s, contract, |s.signals|) == Some(sig)
  {
    var k := LatestTaken(s, contract, |s.signals|);
    forall j: nat | j < |s.signals|
      ensures Adoptable(s, j, contract) <==>
                s.signals[j].taken && s.signals[j].contract == contract && NoRow(s, j)
    {}
    if Matches(s, contract, sig) {
      assert Adoptable(s, sig, contract);
      assert k.Some? && sig <= k.value && Adoptable(s, k.value, contract);
    }
    if k == Some(sig) {
      forall j | sig < j < |s.signals| && s.signals[j].taken && s.signals[j].contract == contract ensures !NoRow(s, j) {
        assert !Adoptable(s, j, contract);
      }
    }
  }

  /** Main result: a restart empties the process and manages exactly the matched positions, each from
      the last listing of its contract, on the size, entry, receipt and expiration it really has. */
  lemma RestartEffect(s: State, adoptions: seq<Adoption>, cfg: Config, sig: nat)
    ensures var t := Step(s, Restart(adoptions), cfg);
            && t.signals == s.signals && t.rows == s.rows && t.orders == s.orders
            && (forall i: nat | i < |adoptions| && LastFor(adoptions, i) && Matches(s, adoptions[i].contract, sig) ::
                  sig in t.open && AdoptedAs(s, adoptions[i], sig, t.open[sig], cfg))
            && (sig in t.open ==>
                  exists i: nat :: i < |adoptions| && LastFor(adoptions, i) && Matches(s, adoptions[i].contract, sig))
  {
    var t := Step(s, Restart(adoptions), cfg);
    AdoptedExactly(s, adoptions, cfg, sig);
    forall i: nat | i < |adoptions| && LastFor(adoptions, i) && Matches(s, adoptions[i].contract, sig)
      ensures sig in t.open && AdoptedAs(s, adoptions[i], sig, t.open[sig], cfg)
    {
      MatchIsLatest(s, adoptions[i].contract, sig);
      assert Brings(s, adoptions, i, sig);
      RecordIsAdopted(s, adoptions[i], sig, cfg);
    }
    if sig in t.open {
      var i: nat :| Brings(s, adoptions, i, sig);
      MatchIsLatest(s, adoptions[i].contract, sig);
    }
  }

  lemma FreshStartsEmpty(s: State, adoptions: seq<Adoption>, cfg: Config)
    ensures var t := Step(s, Restart(adoptions), cfg); t.puts == multiset{} && t.queue == [] && t.phase == Idle
  {
    AdoptionsKeepTheRest(Crashed(s), adoptions, cfg);
  }

  lemma {:induction false} AdoptionsKeepTheRest(s: State, adoptions: seq<Adoption>, cfg: Config)
    ensures var t := AdoptedAll(s, adoptions, cfg); t.puts == s.puts && t.queue == s.queue && t.phase == s.phase
  {
    if adoptions != [] {
      AdoptionsKeepTheRest(s, adoptions[..|adoptions| - 1], cfg);
    }
  }

  /** Main result: the clock of an adopted position is the true one. For every quote above its stop
      and every moment the strategy's verdict is: 15:55 ET with at most three days to the contract's
      expiration, else at most one day, else four hours since the signal's receipt with the quote
      within 2% of the entry. */
  lemma AdoptedClock(s: State, a: Adoption, sig: nat, r: Record, cfg: Config, quote: real, now: Moment)
    requires AdoptedAs(s, a, sig, r, cfg) && a.entryPrice > 0.0 && quote > 0.0 && quote > r.position.stopPrice
    ensures var verdict := S.Evaluate(r.position, quote, now);
            var days := a.contract.expiration - now.etDate;
            var late := now.etTime >= 57300 && days <= 3;
            && verdict.Ok?
            && (verdict.value.exit.Some? <==>
                  late || days <= 1
                  || (now.utc - s.signals[sig].receivedAt >= 14400 && 0.98 * a.entryPrice < quote < 1.02 * a.entryPrice))
            && (verdict.value.exit.Some? ==>
                  verdict.value.exit.value.reason
                  == if late then S.TimeStop1555 else if days <= 1 then S.DteClose else S.StaleNoMovement)
  {
    F.VerdictInRawTerms(r.position, quote, now);
    assert F.Raised(r.position, quote) < quote;
    var verdict := S.Evaluate(r.position, quote, now).value;
    var stop := F.Raised(r.position, quote);
    assert !F.Owes(r.position, stop, quote, now, S.StopLoss);
    assert F.Owes(r.position, stop, quote, now, S.TimeStop1555)
           || F.Owes(r.position, stop, quote, now, S.DteClose)
           || F.Owes(r.position, stop, quote, now, S.StaleNoMovement)
           || verdict.exit.None?;
  }
}
