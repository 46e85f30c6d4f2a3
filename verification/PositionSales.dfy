/** Two exit orders that both sell one position: exactly which steps and runs of the options book
    lead there, restarts included, and that the broker can then fill both. */
module PositionSales {
  import opened Prelude
  import opened PositionBook
  import opened PositionSafety
  import opened PositionExits

  /** No two exit orders of one signal have filled or still can. */
  ghost predicate SoldOnce(s: State) {
    forall i, j, k: nat | Working(s, i, k) && Working(s, j, k) :: i == j
  }

  /** No exit order of the signal has filled or still can. */
  ghost predicate Unsold(s: State, k: nat) {
    forall i :: !Working(s, i, k)
  }

  /** Orders belong to issued signals. */
  predicate Issued(s: State) {
    forall i | 0 <= i < |s.orders| :: s.orders[i].owner < |s.signals|
  }

  // ---- What two working exit orders mean ------------------------------------------------------

  /** Two exit orders of the signal have filled. */
  predicate SoldTwice(s: State, k: nat, i: nat, j: nat) {
    i < j < |s.orders| && Working(s, i, k) && Working(s, j, k)
    && s.orders[i].status.Filled? && s.orders[j].status.Filled?
  }

  predicate OnlyFills(es: seq<Event>) {
    forall i | 0 <= i < |es| :: es[i].BrokerFills?
  }

  /** The broker fills these orders, and then two exit orders of the signal have filled. */
  predicate FillsBoth(s: State, es: seq<Event>, cfg: Config, k: nat, i: nat, j: nat) {
    OnlyFills(es) && SoldTwice(Run(s, es, cfg), k, i, j)
  }

  lemma {:induction false} FillsKeepOnce(s: State, es: seq<Event>, cfg: Config)
    requires SoldOnce(s) && OnlyFills(es)
    ensures SoldOnce(Run(s, es, cfg))
  {
    if es != [] {
      var init := es[..|es| - 1];
      FillsKeepOnce(s, init, cfg);
      SettlingKeepsOnce(Run(s, init, cfg), Run(s, es, cfg));
    }
  }

  lemma FillBoth(s: State, i: nat, j: nat, k: nat, cfg: Config) returns (es: seq<Event>)
    requires i < j && Working(s, i, k) && Working(s, j, k)
    ensures FillsBoth(s, es, cfg, k, i, j)
  {
    es := [BrokerFills(i, 1.0), BrokerFills(j, 1.0)];
    var one := es[..1];
    assert one == [BrokerFills(i, 1.0)] && one[..0] == [];
    assert Run(s, one, cfg) == Step(s, BrokerFills(i, 1.0), cfg);
  }

  /** Two exit orders of one position both work exactly when the broker, all by itself, can still
      fill two exit orders of one position. */
  lemma CanBeSoldTwiceIff(s: State, cfg: Config)
    ensures !SoldOnce(s) <==> exists es, k, i, j :: FillsBoth(s, es, cfg, k, i, j)
  {
    if !SoldOnce(s) {
      var i, j, k: nat :| Working(s, i, k) && Working(s, j, k) && i != j;
      var es := FillBoth(s, if i < j then i else j, if i < j then j else i, k, cfg);
    } else {
      forall es, k, i, j ensures !FillsBoth(s, es, cfg, k, i, j) {
        if OnlyFills(es) {
          FillsKeepOnce(s, es, cfg);
        }
      }
    }
  }

  // ---- Orders that settle, orders that are added ------------------------------------------------

  /** Orders settle and no exit order is added. */
  lemma SettlingKeepsOnce(s: State, t: State)
    requires SoldOnce(s) && Settles(s.orders, t.orders)
    requires forall i | |s.orders| <= i < |t.orders| :: !IsExit(t.orders[i])
    ensures SoldOnce(t)
  {
    forall i, k: nat ensures Working(t, i, k) ==> Working(s, i, k) {}
  }

  /** One working exit order is added. */
  lemma AppendIff(s: State, t: State, k: nat)
    requires SoldOnce(s) && |t.orders| == |s.orders| + 1 && t.orders[..|s.orders|] == s.orders
    requires var o := t.orders[|s.orders|]; o.owner == k && IsExit(o) && o.status != Dead
    ensures SoldOnce(t) <==> Unsold(s, k)
  {
    var n := |s.orders|;
    forall i | 0 <= i < n ensures t.orders[i] == s.orders[i] {
      assert t.orders[..n][i] == s.orders[i];
    }
    forall i, m: nat ensures Working(t, i, m) <==> Working(s, i, m) || (i == n && m == k) {}
    if !Unsold(s, k) {
      var i :| Working(s, i, k);
      assert Working(t, i, k) && Working(t, n, k);
    }
  }

  /** The book once the cancel of the position's stop has been dealt with. */
  function Cleared(s: State, sig: nat, takes: bool): State
    requires sig in s.open
  {
    s.(orders := Cancelled(s.orders, s.open[sig].stopOrder, takes))
  }

  // ---- Which steps sell once ----------------------------------------------------------------------

  /** An accepted sell must find no other exit order of the position at work. */
  ghost predicate CloseSellsOnce(s: State, sig: nat, env: CloseEnv)
    requires sig in s.open
  {
    !env.sell.SellRejected? ==> Unsold(Cleared(s, sig, env.cancelTakes), sig)
  }

  ghost predicate RequestSellsOnce(s: State, sig: nat, takes: bool, manual: ManualFate)
    requires sig in s.open
  {
    !manual.ManualRejected? ==> Unsold(Cleared(s, sig, takes), sig)
  }

  ghost predicate ModifySellsOnce(s: State, sig: nat, fate: ModifyFate)
    requires sig in s.open && s.open[sig].stopOrder.Some?
  {
    Restops(s, sig, fate) ==> Unsold(Unstopped(s, sig, fate), sig)
  }

  /** A second stop that a push leaves is gone again only when the same advance decides to exit,
      its cancel of that stop takes effect and its sell is rejected. */
  ghost predicate AdvanceSellsOnce(s: State, sig: nat, e: Event)
    requires e.FinishAdvance? && sig in s.open
  {
    Verdict(s.open[sig], e).Ok? ==>
      if PushesStop(s, sig, e) && !ModifySellsOnce(s, sig, e.push)
      then ActsOnExit(s, sig, e) && e.env.cancelTakes && e.env.sell.SellRejected?
      else ActsOnExit(s, sig, e) ==> CloseSellsOnce(Pushed(s, sig, e), sig, e.env)
  }

  /** What must hold before the step. A restart sends no order and needs nothing. */
  ghost predicate SellsOnce(s: State, e: Event) {
    match e
    case DrainRequest(takes, manual) =>
      s.phase.Idle? && s.queue != [] && s.queue[0] in s.open ==> RequestSellsOnce(s, s.queue[0], takes, manual)
    case FinishAdvance(_, _, _, _, _) =>
      s.phase.Quoted? && s.phase.signal in s.open ==> AdvanceSellsOnce(s, s.phase.signal, e)
    case Flatten(sig, env) => s.phase.Idle? && sig in s.open ==> CloseSellsOnce(s, sig, env)
    case _ => true
  }

  lemma ClosedSellsOnceIff(s: State, sig: nat, reason: S.ExitReason, nominal: real, env: CloseEnv)
    requires SoldOnce(s) && sig in s.open
    ensures SoldOnce(Closed(s, sig, reason, nominal, env)) <==> CloseSellsOnce(s, sig, env)
  {
    var t, cleared := Closed(s, sig, reason, nominal, env), Cleared(s, sig, env.cancelTakes);
    SettlingKeepsOnce(s, cleared);
    if env.sell.SellRejected? {
      assert t == cleared;
    } else {
      assert t.orders[..|cleared.orders|] == cleared.orders;
      AppendIff(cleared, t, sig);
    }
  }

  lemma RequestedSellsOnceIff(s: State, sig: nat, takes: bool, manual: ManualFate)
    requires SoldOnce(s) && sig in s.open
    ensures SoldOnce(Requested(s, sig, takes, manual)) <==> RequestSellsOnce(s, sig, takes, manual)
  {
    var t, cleared := Requested(s, sig, takes, manual), Cleared(s, sig, takes);
    SettlingKeepsOnce(s, cleared);
    if manual.ManualRejected? {
      SettlingKeepsOnce(cleared, t);
    } else {
      assert t.orders[..|cleared.orders|] == cleared.orders;
      AppendIff(cleared, t, sig);
    }
  }

  lemma RestoppedSellsOnceIff(s: State, sig: nat, newStop: real, fate: ModifyFate)
    requires SoldOnce(s) && sig in s.open && s.open[sig].stopOrder.Some?
    ensures SoldOnce(Restopped(s, sig, newStop, fate)) <==> ModifySellsOnce(s, sig, fate)
  {
    var t, cleared := Restopped(s, sig, newStop, fate), Unstopped(s, sig, fate);
    SettlingKeepsOnce(s, cleared);
    if Restops(s, sig, fate) {
      assert t.orders[..|cleared.orders|] == cleared.orders;
      AppendIff(cleared, t, sig);
    } else {
      assert t.orders == cleared.orders;
      SettlingKeepsOnce(cleared, t);
    }
  }

  lemma PushedSellsOnceIff(s: State, sig: nat, e: Event)
    requires SoldOnce(s) && e.FinishAdvance? && sig in s.open && Verdict(s.open[sig], e).Ok?
    ensures SoldOnce(Pushed(s, sig, e)) <==> (PushesStop(s, sig, e) ==> ModifySellsOnce(s, sig, e.push))
  {
    var evaluated := Evaluated(s, sig, Verdict(s.open[sig], e).value.position);
    SettlingKeepsOnce(s, evaluated);
    if PushesStop(s, sig, e) {
      RestoppedSellsOnceIff(evaluated, sig, evaluated.open[sig].position.stopPrice, e.push);
      var a, b := Unstopped(s, sig, e.push), Unstopped(evaluated, sig, e.push);
      assert a.orders == b.orders;
      assert forall i :: Working(a, i, sig) <==> Working(b, i, sig);
    }
  }

  /** A push that leaves two stops, followed by a close of the position. */
  lemma SecondStopGoesIff(s: State, sig: nat, e: Event)
    requires SoldOnce(s) && e.FinishAdvance? && sig in s.open && Verdict(s.open[sig], e).Ok?
    requires PushesStop(s, sig, e) && !ModifySellsOnce(s, sig, e.push) && ActsOnExit(s, sig, e)
    ensures SoldOnce(Managed(s, sig, e)) <==> e.env.cancelTakes && e.env.sell.SellRejected?
  {
    var mid, before, n := Pushed(s, sig, e), Unstopped(s, sig, e.push), |s.orders|;
    var was :| Working(before, was, sig);
    assert mid.orders[..n] == before.orders;
    assert mid.orders[n].status == Live && mid.open[sig].stopOrder == Some(n);
    SettlingKeepsOnce(s, before);
    var t := Managed(s, sig, e);
    assert mid.orders[was] == mid.orders[..n][was];
    assert Working(t, was, sig);
    if !e.env.cancelTakes {
      assert Working(t, n, sig);
    } else if !e.env.sell.SellRejected? {
      assert Working(t, n + 1, sig);
    } else {
      assert t.orders == before.orders + [mid.orders[n].(status := Dead)];
      forall i, k: nat ensures Working(t, i, k) ==> Working(before, i, k) {}
    }
  }

  lemma ManagedSellsOnceIff(s: State, sig: nat, e: Event)
    requires SoldOnce(s) && e.FinishAdvance? && sig in s.open
    ensures SoldOnce(Managed(s, sig, e)) <==> AdvanceSellsOnce(s, sig, e)
  {
    var verdict := Verdict(s.open[sig], e);
    if verdict.Ok? {
      PushedSellsOnceIff(s, sig, e);
      if PushesStop(s, sig, e) && !ModifySellsOnce(s, sig, e.push) {
        if ActsOnExit(s, sig, e) {
          SecondStopGoesIff(s, sig, e);
        }
      } else if ActsOnExit(s, sig, e) {
        ClosedSellsOnceIff(Pushed(s, sig, e), sig, verdict.value.exit.value.reason, e.quote.value, e.env);
      }
    }
  }

  lemma EnterSellsOnce(s: State, sig: nat, e: Event, qty: int, cfg: Config)
    requires e.Post? && SoldOnce(s) && sig < |s.signals| && Unsold(s, sig)
    ensures SoldOnce(Enter(s, sig, e, qty, cfg))
  {
    var t, n := Enter(s, sig, e, qty, cfg), |s.orders|;
    EnterAppends(s, sig, e, qty, cfg);
    if |t.orders| > n {
      var bought := s.(orders := t.orders[..n + 1]);
      assert bought.orders[..n] == s.orders;
      SettlingKeepsOnce(s, bought);
      if |t.orders| > n + 1 {
        assert forall i :: Working(bought, i, sig) ==> Working(s, i, sig);
        assert t.orders[..n + 1] == bought.orders;
        AppendIff(bought, t, sig);
      } else {
        assert t.orders == bought.orders;
      }
    }
  }

  lemma PostSellsOnce(s: State, e: Event, cfg: Config)
    requires e.Post? && SoldOnce(s) && Issued(s)
    ensures SoldOnce(HandlePost(s, e, cfg)) && Issued(HandlePost(s, e, cfg))
  {
    var logged := s.(signals := s.signals + [Signal(e.contract, e.receivedAt, false)]);
    SettlingKeepsOnce(s, logged);
    if HandlePost(s, e, cfg) != logged {
      var qty := ComputeQty(e.ask.value, cfg.spendCap, cfg.maxQty);
      EnterSellsOnce(logged, |s.signals|, e, qty, cfg);
      EnterAppends(logged, |s.signals|, e, qty, cfg);
      var t, n := HandlePost(s, e, cfg), |s.orders|;
      forall i | 0 <= i < |t.orders| ensures t.orders[i].owner < |t.signals| {
        assert i < n ==> t.orders[i] == t.orders[..n][i];
      }
    }
  }

  /** Orders of issued signals are added, or none; the signals only grow. */
  lemma StaysIssued(s: State, t: State, sig: nat)
    requires Issued(s) && |s.signals| <= |t.signals| && |s.orders| <= |t.orders|
    requires forall i | 0 <= i < |s.orders| :: t.orders[i].owner == s.orders[i].owner
    requires forall i | |s.orders| <= i < |t.orders| :: t.orders[i].owner == sig
    requires |s.orders| < |t.orders| ==> sig < |s.signals|
    ensures Issued(t)
  {}

  lemma ManagedStaysIssued(s: State, sig: nat, e: Event)
    requires Inv(s) && Issued(s) && e.FinishAdvance? && sig in s.open
    ensures Issued(Managed(s, sig, e))
  {
    if Verdict(s.open[sig], e).Ok? {
      var mid := Pushed(s, sig, e);
      PushedShape(s, sig, e);
      assert |mid.orders| > |s.orders| ==> mid.orders[|s.orders|].owner == sig;
      StaysIssued(s, mid, sig);
    }
  }

  lemma {:induction false} AdoptionsKeepOrders(s: State, adoptions: seq<Adoption>, cfg: Config)
    ensures AdoptedAll(s, adoptions, cfg).orders == s.orders && AdoptedAll(s, adoptions, cfg).signals == s.signals
  {
    if adoptions != [] {
      AdoptionsKeepOrders(s, adoptions[..|adoptions| - 1], cfg);
    }
  }

  lemma StepStaysIssued(s: State, e: Event, cfg: Config)
    requires Inv(s) && Issued(s) && SoldOnce(s)
    ensures Issued(Step(s, e, cfg))
  {
    match e
    case Post(_, _, _, _, _, _) => PostSellsOnce(s, e, cfg);
    case FinishAdvance(_, _, _, _, _) =>
      if s.phase.Quoted? {
        ManagedStaysIssued(s, s.phase.signal, e);
      }
    case DrainRequest(_, _) => StaysIssued(s, Drained(s, e), if s.queue == [] then 0 else s.queue[0]);
    case Flatten(sig, _) => StaysIssued(s, Step(s, e, cfg), sig);
    case Restart(adoptions) => AdoptionsKeepOrders(Crashed(s), adoptions, cfg);
    case _ => StaysIssued(s, Step(s, e, cfg), 0);
  }

  /** Main result, one step of any kind: from a book in which no two exit orders of a position both
      work, the step leads to another such book if and only if its guard holds. */
  lemma StepSellsOnceIff(s: State, e: Event, cfg: Config)
    requires Inv(s) && Issued(s) && SoldOnce(s)
    ensures SoldOnce(Step(s, e, cfg)) <==> SellsOnce(s, e)
  {
    match e
    case Post(_, _, _, _, _, _) => PostSellsOnce(s, e, cfg);
    case DrainRequest(takes, manual) =>
      if s.phase.Idle? && s.queue != [] && s.queue[0] in s.open {
        var popped := s.(queue := s.queue[1..]);
        SettlingKeepsOnce(s, popped);
        RequestedSellsOnceIff(popped, s.queue[0], takes, manual);
        var a, b := Cleared(s, s.queue[0], takes), Cleared(popped, s.queue[0], takes);
        assert forall i :: Working(a, i, s.queue[0]) <==> Working(b, i, s.queue[0]);
      } else {
        SettlingKeepsOnce(s, Drained(s, e));
      }
    case FinishAdvance(_, _, _, _, _) =>
      if s.phase.Quoted? {
        ManagedSellsOnceIff(s, s.phase.signal, e);
        var t := Managed(s, s.phase.signal, e);
        assert forall i, k: nat :: Working(Advanced(s, e), i, k) <==> Working(t, i, k);
      }
    case Flatten(sig, env) =>
      if s.phase.Idle? && sig in s.open {
        ClosedSellsOnceIff(s, sig, S.TimeStop1555, s.open[sig].entryPrice, env);
      }
    case Restart(adoptions) =>
      AdoptionsKeepOrders(Crashed(s), adoptions, cfg);
      SettlingKeepsOnce(s, Step(s, e, cfg));
    case _ => SettlingKeepsOnce(s, Step(s, e, cfg));
  }

  /** At the end of the run and at every point before it. */
  ghost predicate AlwaysSoldOnce(s: State, es: seq<Event>, cfg: Config) {
    SoldOnce(Run(s, es, cfg)) && (es == [] || AlwaysSoldOnce(s, es[..|es| - 1], cfg))
  }

  ghost predicate SellsOnceRun(s: State, es: seq<Event>, cfg: Config) {
    es == [] || (SellsOnceRun(s, es[..|es| - 1], cfg) && SellsOnce(Run(s, es[..|es| - 1], cfg), es[|es| - 1]))
  }

  /** Main result, whole runs, restarts and flattens included: no two exit orders of a position
      ever both work if and only if every step meets its guard. */
  lemma {:induction false} RunSellsOnceIff(s: State, es: seq<Event>, cfg: Config)
    requires Inv(s) && Issued(s) && SoldOnce(s)
    ensures AlwaysSoldOnce(s, es, cfg) <==> SellsOnceRun(s, es, cfg)
    ensures SellsOnceRun(s, es, cfg) ==> Issued(Run(s, es, cfg))
  {
    if es != [] {
      var init := es[..|es| - 1];
      RunSellsOnceIff(s, init, cfg);
      RunKeepsInv(s, init, cfg);
      if SellsOnceRun(s, init, cfg) {
        StepSellsOnceIff(Run(s, init, cfg), es[|es| - 1], cfg);
        StepStaysIssued(Run(s, init, cfg), es[|es| - 1], cfg);
      }
    }
  }

  // ---- The same guards, read off the record ----------------------------------------------------------

  /** A tidy book: what still sells the position is what its record points at. */
  lemma UnsoldIff(s: State, sig: nat, takes: bool)
    requires Single(s) && sig in s.open
    ensures Unsold(Cleared(s, sig, takes), sig) <==>
              Clears(s.orders, s.open[sig].stopOrder, takes) && Clears(s.orders, s.open[sig].manualOrder, false)
  {
    var r, t := s.open[sig], Cleared(s, sig, takes);
    assert OwnsPointers(s.orders, sig, r);
    if !Clears(s.orders, r.stopOrder, takes) {
      assert Working(t, r.stopOrder.value, sig);
    } else if !Clears(s.orders, r.manualOrder, false) {
      assert Working(t, r.manualOrder.value, sig);
    } else {
      OnlyPointersWork(s, t, sig);
    }
  }

  /** Exactly when closing a position, by a tick or by the flatten, makes two of its exit orders
      work: an accepted sell, booked or not, next to a stop or a manual sell that was not cleared. */
  lemma CloseSellsTwiceIff(s: State, sig: nat, reason: S.ExitReason, nominal: real, env: CloseEnv)
    requires Single(s) && sig in s.open
    ensures !SoldOnce(Closed(s, sig, reason, nominal, env)) <==>
              && !env.sell.SellRejected?
              && !(Clears(s.orders, s.open[sig].stopOrder, env.cancelTakes)
                   && Clears(s.orders, s.open[sig].manualOrder, false))
  {
    ClosedSellsOnceIff(s, sig, reason, nominal, env);
    UnsoldIff(s, sig, env.cancelTakes);
  }

  /** Exactly when a handled "Sell now" does: an accepted sell next to a stop that was not cleared,
      whether or not the position remembers the sell. */
  lemma RequestSellsTwiceIff(s: State, sig: nat, takes: bool, manual: ManualFate)
    requires Single(s) && sig in s.open && s.open[sig].manualOrder.None?
    ensures !SoldOnce(Requested(s, sig, takes, manual)) <==>
              !manual.ManualRejected? && !Clears(s.orders, s.open[sig].stopOrder, takes)
  {
    RequestedSellsOnceIff(s, sig, takes, manual);
    UnsoldIff(s, sig, takes);
  }

  lemma ModifyGuardIff(s: State, sig: nat, fate: ModifyFate)
    requires Single(s) && sig in s.open && s.open[sig].stopOrder.Some? && s.open[sig].manualOrder.None?
    ensures ModifySellsOnce(s, sig, fate) <==> ModifyIsSafe(s, sig, fate)
  {
    var id := s.open[sig].stopOrder.value;
    var replaced := fate.swaps && id < |s.orders| && s.orders[id].status == Live;
    assert Unstopped(s, sig, fate) == Cleared(s, sig, replaced || fate.cancelTakes);
    UnsoldIff(s, sig, replaced || fate.cancelTakes);
  }

  /** Exactly when modify_stop does: a new stop is accepted while the old one has filled or lives. */
  lemma ModifySellsTwiceIff(s: State, sig: nat, newStop: real, fate: ModifyFate)
    requires Single(s) && sig in s.open && s.open[sig].stopOrder.Some? && s.open[sig].manualOrder.None?
    ensures !SoldOnce(Restopped(s, sig, newStop, fate)) <==>
              && Restops(s, sig, fate)
              && !Clears(s.orders, s.open[sig].stopOrder, fate.swaps || fate.cancelTakes)
  {
    RestoppedSellsOnceIff(s, sig, newStop, fate);
    ModifyGuardIff(s, sig, fate);
  }

  /** Exactly when a tick does: it pushes next to an old stop that was not cleared and does not
      take the new one back, or it exits with an accepted sell next to the stop. */
  lemma AdvanceSellsTwiceIff(s: State, sig: nat, e: Event)
    requires Inv(s) && Single(s) && e.FinishAdvance? && sig in s.open && s.open[sig].manualOrder.None?
    requires Verdict(s.open[sig], e).Ok?
    ensures !SoldOnce(Managed(s, sig, e)) <==>
              if PushesStop(s, sig, e) && !ModifyIsSafe(s, sig, e.push)
              then !(ActsOnExit(s, sig, e) && e.env.cancelTakes && e.env.sell.SellRejected?)
              else
                && ActsOnExit(s, sig, e) && !e.env.sell.SellRejected?
                && !Clears(Pushed(s, sig, e).orders, Pushed(s, sig, e).open[sig].stopOrder, e.env.cancelTakes)
  {
    ManagedSellsOnceIff(s, sig, e);
    if PushesStop(s, sig, e) {
      ModifyGuardIff(s, sig, e.push);
    }
    PushIsSafeIff(s, sig, e);
    PushedShape(s, sig, e);
    if Single(Pushed(s, sig, e)) {
      UnsoldIff(Pushed(s, sig, e), sig, e.env.cancelTakes);
    }
  }
}
