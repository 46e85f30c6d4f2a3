/** What the options book sends to the broker in one process run before 15:55. */
module PositionOrders {
  import opened Prelude
  import opened PositionBook
  import opened PositionSafety

  // ---- One market sell per position ----------------------------------------------------

  /** No journal write or fill poll raises after an accepted sell; no 15:55 flatten, no restart. */
  predicate Calm(e: Event) {
    match e
    case DrainRequest(_, manual) => !manual.ManualUnaudited?
    case FinishAdvance(_, _, _, _, env) => !env.sell.SellAbandoned?
    case Flatten(_, _) => false
    case Restart(_) => false
    case _ => true
  }

  predicate IsSell(o: Order) {
    o.kind.AutoSell? || o.kind.ManualSell?
  }

  /** A market sell for k accepted by this process, whose orders start at base. */
  predicate SellAt(s: State, base: nat, i: int, k: nat) {
    base <= i < |s.orders| && s.orders[i].owner == k && IsSell(s.orders[i])
  }

  ghost predicate OneSell(s: State, base: nat) {
    forall i, j, k: nat | SellAt(s, base, i, k) && SellAt(s, base, j, k) :: i == j
  }

  /** An open position's only sell is the manual one its record points at. */
  ghost predicate OpenSells(s: State, base: nat, k: nat)
    requires k in s.open
  {
    match s.open[k].manualOrder
    case Some(m) => SellAt(s, base, m, k) && s.orders[m].kind.ManualSell?
    case None => forall i :: !SellAt(s, base, i, k)
  }

  /** A row of a manually sold position tells the fill of that very order. */
  predicate TellsFill(s: State, row: Row, i: int)
    requires 0 <= i < |s.orders|
  {
    row.reason == ManualClose && s.orders[i].status == Filled(row.exitPrice)
  }

  ghost predicate Booked(s: State, base: nat) {
    forall i, j | 0 <= j < |s.rows| && SellAt(s, base, i, s.rows[j].signal) && s.orders[i].kind.ManualSell? ::
      TellsFill(s, s.rows[j], i)
  }

  ghost predicate Sells(s: State, base: nat) {
    && OneSell(s, base) && Booked(s, base)
    && (forall k <- s.open :: OpenSells(s, base, k))
    && (forall i, k: nat | SellAt(s, base, i, k) :: k < |s.signals|)
  }

  /** Old orders keep their identity and their fills, and no sell is added. */
  ghost predicate NoNewSell(s: State, t: State) {
    && |s.orders| <= |t.orders|
    && (forall i | 0 <= i < |s.orders| ::
          && t.orders[i].owner == s.orders[i].owner && t.orders[i].kind == s.orders[i].kind
          && (s.orders[i].status.Filled? ==> t.orders[i].status == s.orders[i].status))
    && (forall i | |s.orders| <= i < |t.orders| :: !IsSell(t.orders[i]))
  }

  lemma SameSells(s: State, t: State, base: nat)
    requires base <= |s.orders| && NoNewSell(s, t)
    ensures forall i, k: nat :: SellAt(t, base, i, k) <==> SellAt(s, base, i, k)
  {}

  lemma NoNewSellKeepsSells(s: State, t: State, base: nat)
    requires Sells(s, base) && base <= |s.orders| && NoNewSell(s, t)
    requires t.rows == s.rows && |s.signals| <= |t.signals|
    requires forall k <- t.open ::
               (k in s.open && t.open[k].manualOrder == s.open[k].manualOrder)
               || (|s.signals| <= k && t.open[k].manualOrder.None?)
    ensures Sells(t, base)
  {
    SameSells(s, t, base);
    forall k <- t.open ensures OpenSells(t, base, k) {
      assert k in s.open ==> OpenSells(s, base, k);
    }
  }

  lemma ExternallyClosedKeepsSells(s: State, sig: nat, price: real, reason: Reason, reply: JournalReply, base: nat)
    requires Inv(s) && Sells(s, base) && base <= |s.orders| && sig in s.open
    requires s.open[sig].manualOrder.Some? ==>
               reason == ManualClose && FillPrice(s.orders, s.open[sig].manualOrder) == Some(price)
    ensures Sells(ExternallyClosed(s, sig, price, reason, reply), base)
  {
    var t := ExternallyClosed(s, sig, price, reason, reply);
    SameSells(s, t, base);
    assert OpenSells(s, base, sig);
    forall k <- t.open ensures OpenSells(t, base, k) {
      assert OpenSells(s, base, k);
    }
  }

  lemma ClosedKeepsSells(s: State, sig: nat, reason: S.ExitReason, nominal: real, env: CloseEnv, base: nat)
    requires Inv(s) && Sells(s, base) && base <= |s.orders| && sig in s.open
    requires s.open[sig].manualOrder.None? && !env.sell.SellAbandoned?
    ensures Sells(Closed(s, sig, reason, nominal, env), base)
  {
    var t := Closed(s, sig, reason, nominal, env);
    assert OpenSells(s, base, sig);
    var cancelled := s.(orders := Cancelled(s.orders, s.open[sig].stopOrder, env.cancelTakes));
    NoNewSellKeepsSells(s, cancelled, base);
    if env.sell.SellBooked? {
      SameSells(s, cancelled, base);
      AutoSellKeepsSells(cancelled, t, sig, base);
    }
  }

  /** The accepted sell, its row and the drop of the record, together. */
  lemma AutoSellKeepsSells(s: State, t: State, sig: nat, base: nat)
    requires Inv(s) && Sells(s, base) && base <= |s.orders| && sig in s.open
    requires forall i :: !SellAt(s, base, i, sig)
    requires |t.rows| == |s.rows| + 1 && t.rows[..|s.rows|] == s.rows && t.rows[|s.rows|].signal == sig
    requires |t.orders| == |s.orders| + 1 && t.orders[..|s.orders|] == s.orders
    requires t.orders[|s.orders|].owner == sig && t.orders[|s.orders|].kind.AutoSell?
    requires t.open == s.open - {sig} && t.signals == s.signals
    ensures Sells(t, base)
  {
    var n := |s.orders|;
    forall i | 0 <= i < n ensures t.orders[i] == s.orders[i] {
      assert t.orders[..n][i] == s.orders[i];
    }
    forall i | 0 <= i < |s.rows| ensures t.rows[i] == s.rows[i] {
      assert t.rows[..|s.rows|][i] == s.rows[i];
    }
    forall i, k: nat ensures SellAt(t, base, i, k) <==> SellAt(s, base, i, k) || (i == n && k == sig) {}
    forall k <- t.open ensures OpenSells(t, base, k) {
      assert OpenSells(s, base, k);
    }
  }

  lemma ManualSellKeepsSells(s: State, t: State, sig: nat, base: nat)
    requires Inv(s) && Sells(s, base) && base <= |s.orders| && sig in s.open
    requires forall i :: !SellAt(s, base, i, sig)
    requires |t.orders| == |s.orders| + 1 && t.orders[..|s.orders|] == s.orders
    requires t.orders[|s.orders|].owner == sig && t.orders[|s.orders|].kind.ManualSell?
    requires sig in t.open && t == s.(orders := t.orders, open := s.open[sig := t.open[sig]])
    requires t.open[sig].manualOrder == Some(|s.orders|)
    ensures Sells(t, base)
  {
    var n := |s.orders|;
    forall i | 0 <= i < n ensures t.orders[i] == s.orders[i] {
      assert t.orders[..n][i] == s.orders[i];
    }
    forall i, k: nat ensures SellAt(t, base, i, k) <==> SellAt(s, base, i, k) || (i == n && k == sig) {}
    forall k <- t.open ensures OpenSells(t, base, k) {
      assert OpenSells(s, base, k);
    }
    forall j | 0 <= j < |t.rows| ensures t.rows[j].signal != sig {}
  }

  lemma DrainedKeepsSells(s: State, e: Event, base: nat)
    requires Inv(s) && Requests(s) && Sells(s, base) && base <= |s.orders|
    requires e.DrainRequest? && Calm(e)
    ensures Sells(Drained(s, e), base)
  {
    if s.phase.Idle? && s.queue != [] {
      var sig, popped := s.queue[0], s.(queue := s.queue[1..]);
      NoNewSellKeepsSells(s, popped, base);
      if sig in s.open {
        PopDropsOnePending(s, sig);
        assert Pending(s, sig) == 1;
        assert Flagged(s, sig);
        assert OpenSells(popped, base, sig);
        var t := Requested(popped, sig, e.cancelTakes, e.manual);
        var cancelled := popped.(orders := Cancelled(s.orders, s.open[sig].stopOrder, e.cancelTakes));
        NoNewSellKeepsSells(popped, cancelled, base);
        if e.manual.ManualSent? {
          SameSells(popped, cancelled, base);
          ManualSellKeepsSells(cancelled, t, sig, base);
        } else {
          NoNewSellKeepsSells(cancelled, t, base);
        }
      }
    }
  }

  lemma PolledKeepsSells(s: State, e: Event, base: nat)
    requires Inv(s) && Sells(s, base) && base <= |s.orders| && e.PollManual?
    ensures Sells(Polled(s, e), base)
  {
    if s.phase.Idle? && e.sig in s.open {
      var price := FillPrice(s.orders, s.open[e.sig].manualOrder);
      if price.Some? {
        ExternallyClosedKeepsSells(s, e.sig, price.value, ManualClose, e.journal, base);
      }
    }
  }

  lemma ReconciledKeepsSells(s: State, e: Event, base: nat)
    requires Inv(s) && Requests(s) && Sells(s, base) && base <= |s.orders| && e.Reconcile?
    ensures Sells(Reconciled(s, e), base)
  {
    if s.phase.Idle? && e.sig in s.open {
      var r := s.open[e.sig];
      var manual, stop := FillPrice(s.orders, r.manualOrder), FillPrice(s.orders, r.stopOrder);
      if r.manualOrder.Some? {
        if manual.Some? {
          ExternallyClosedKeepsSells(s, e.sig, manual.value, ManualClose, e.journal, base);
        }
      } else {
        ExternallyClosedKeepsSells(s, e.sig, r.entryPrice, ExternalClose, e.journal, base);
        if stop.Some? {
          ExternallyClosedKeepsSells(s, e.sig, stop.value, Exit(S.StopLoss), e.journal, base);
        }
      }
    }
  }

  lemma PhaseKeepsSells(s: State, phase: Phase, base: nat)
    requires Sells(s, base) && base <= |s.orders|
    ensures Sells(s.(phase := phase), base)
  {
    NoNewSellKeepsSells(s, s.(phase := phase), base);
  }

  lemma StopReadKeepsSells(s: State, e: Event, base: nat)
    requires Inv(s) && Requests(s) && Sells(s, base) && base <= |s.orders| && e.ReadStop?
    ensures Sells(Advanced(s, e), base)
  {
    if s.phase.Checked? {
      var sig := s.phase.signal;
      var price := FillPrice(s.orders, s.open[sig].stopOrder);
      if e.readRaises || price.None? {
        PhaseKeepsSells(s, Quoted(sig), base);
      } else {
        ExternallyClosedKeepsSells(s, sig, price.value, Exit(S.StopLoss), e.journal, base);
        PhaseKeepsSells(ExternallyClosed(s, sig, price.value, Exit(S.StopLoss), e.journal), Idle, base);
      }
    }
  }

  lemma ManagedKeepsSells(s: State, sig: nat, e: Event, base: nat)
    requires Inv(s) && Sells(s, base) && base <= |s.orders| && e.FinishAdvance? && Calm(e)
    requires sig in s.open && s.open[sig].manualOrder.None?
    ensures Sells(Managed(s, sig, e), base)
  {
    var mid := ManagedShape(s, sig, e);
    NoNewSellKeepsSells(s, mid, base);
    SameBooksKeepInv(s, mid);
    if Managed(s, sig, e) != mid {
      var reason :| Managed(s, sig, e) == Closed(mid, sig, reason, e.quote.value, e.env);
      ClosedKeepsSells(mid, sig, reason, e.quote.value, e.env, base);
    }
  }

  lemma AdvancedKeepsSells(s: State, e: Event, base: nat)
    requires Inv(s) && Requests(s) && Sells(s, base) && base <= |s.orders|
    requires (e.StartAdvance? || e.FinishAdvance?) && Calm(e)
    ensures Sells(Advanced(s, e), base)
  {
    if e.StartAdvance? {
      PhaseKeepsSells(s, Checked(e.sig), base);
    } else if s.phase.Quoted? {
      ManagedKeepsSells(s, s.phase.signal, e, base);
      OrdersStay(s, s.phase.signal, e);
      PhaseKeepsSells(Managed(s, s.phase.signal, e), Idle, base);
    }
  }

  lemma OrdersStay(s: State, sig: nat, e: Event)
    requires e.FinishAdvance? && sig in s.open
    ensures |s.orders| <= |Managed(s, sig, e).orders|
  {
    var mid := ManagedShape(s, sig, e);
  }

  lemma PostKeepsSells(s: State, e: Event, cfg: Config, base: nat)
    requires Inv(s) && Sells(s, base) && base <= |s.orders| && e.Post? && s.phase.Idle?
    ensures Sells(HandlePost(s, e, cfg), base)
  {
    NoNewSellKeepsSells(s, HandlePost(s, e, cfg), base);
  }

  lemma RequestingKeepsSells(s: State, e: Event, base: nat)
    requires Inv(s) && Sells(s, base) && base <= |s.orders| && (e.ApiFlag? || e.ApiPut?)
    ensures Sells(Requesting(s, e), base)
  {
    NoNewSellKeepsSells(s, Requesting(s, e), base);
  }

  lemma BrokerKeepsSells(s: State, id: nat, status: Status, base: nat)
    requires Inv(s) && Sells(s, base) && base <= |s.orders|
    ensures Sells(Broker(s, id, status), base)
  {
    NoNewSellKeepsSells(s, Broker(s, id, status), base);
  }

  lemma StepKeepsSells(s: State, e: Event, cfg: Config, base: nat)
    requires Inv(s) && Requests(s) && Sells(s, base) && base <= |s.orders| && Calm(e)
    ensures Sells(Step(s, e, cfg), base)
  {
    match e
    case Post(_, _, _, _, _, _) =>
      if s.phase.Idle? {
        PostKeepsSells(s, e, cfg, base);
      }
    case ApiFlag(_) => RequestingKeepsSells(s, e, base);
    case ApiPut(_) => RequestingKeepsSells(s, e, base);
    case DrainRequest(_, _) => DrainedKeepsSells(s, e, base);
    case PollManual(_, _, _) => PolledKeepsSells(s, e, base);
    case StartAdvance(_) => AdvancedKeepsSells(s, e, base);
    case ReadStop(_, _) => StopReadKeepsSells(s, e, base);
    case FinishAdvance(_, _, _, _, _) => AdvancedKeepsSells(s, e, base);
    case Reconcile(_, _, _) => ReconciledKeepsSells(s, e, base);
    case BrokerFills(id, price) => BrokerKeepsSells(s, id, Filled(price), base);
    case BrokerKills(id) => BrokerKeepsSells(s, id, Dead, base);
  }

  lemma PostsOnlyAppend(s: State, e: Event, cfg: Config)
    requires e.Post?
    ensures s.orders <= HandlePost(s, e, cfg).orders
  {}

  lemma OrdersOnlyGrow(s: State, e: Event, cfg: Config)
    requires !e.Restart?
    ensures |s.orders| <= |Step(s, e, cfg).orders|
  {
    match e
    case Post(_, _, _, _, _, _) => PostsOnlyAppend(s, e, cfg);
    case FinishAdvance(_, _, _, _, _) =>
      if s.phase.Quoted? && s.phase.signal in s.open {
        OrdersStay(s, s.phase.signal, e);
      }
    case _ =>
  }

  lemma {:induction false} RunKeepsSells(s: State, es: seq<Event>, cfg: Config, base: nat)
    requires Inv(s) && Requests(s) && Sells(s, base) && base <= |s.orders|
    requires forall i | 0 <= i < |es| :: Calm(es[i])
    ensures Sells(Run(s, es, cfg), base)
    ensures base <= |Run(s, es, cfg).orders|
  {
    if es != [] {
      RunKeepsSells(s, es[..|es| - 1], cfg, base);
      RunKeepsRequests(s, es[..|es| - 1], cfg);
      StepKeepsSells(Run(s, es[..|es| - 1], cfg), es[|es| - 1], cfg, base);
      OrdersOnlyGrow(Run(s, es[..|es| - 1], cfg), es[|es| - 1], cfg);
    }
  }

  lemma {:induction false} AdoptionsStartIdle(s: State, adoptions: seq<Adoption>, cfg: Config)
    ensures AdoptedAll(Crashed(s), adoptions, cfg).phase == Idle
    ensures AdoptedAll(Crashed(s), adoptions, cfg).orders == s.orders
  {
    if adoptions != [] {
      AdoptionsStartIdle(s, adoptions[..|adoptions| - 1], cfg);
    }
  }

  /** Main result: after any past run and a restart (the empty past included), for every
      interleaving of "Sell now" with the tick thread before 15:55, as long as no call raises
      after an accepted sell: no two market sells of one position, and a row booked for a
      manually sold position always tells that order's fill price as a manual close. */
  lemma OneSellPerPosition(past: seq<Event>, adoptions: seq<Adoption>, es: seq<Event>, cfg: Config)
    requires forall i | 0 <= i < |es| :: Calm(es[i])
    ensures var s := Run(EMPTY, past + [Restart(adoptions)], cfg);
            var t := Run(s, es, cfg);
            && (forall i, j | |s.orders| <= i < j < |t.orders| && IsSell(t.orders[i]) && IsSell(t.orders[j]) ::
                  t.orders[i].owner != t.orders[j].owner)
            && (forall i, j | |s.orders| <= i < |t.orders| && 0 <= j < |t.rows| && t.orders[i].kind.ManualSell?
                              && t.rows[j].signal == t.orders[i].owner ::
                  TellsFill(t, t.rows[j], i))
  {
    var begin := past + [Restart(adoptions)];
    assert begin[..|begin| - 1] == past;
    var s := Run(EMPTY, begin, cfg);
    var base := |s.orders|;
    RunKeepsRequests(EMPTY, begin, cfg);
    AdoptionsStartIdle(Run(EMPTY, past, cfg), adoptions, cfg);
    AdoptionsRequestNothing(Crashed(Run(EMPTY, past, cfg)), adoptions, cfg);
    assert Sells(s, base);
    RunKeepsSells(s, es, cfg, base);
    var t := Run(s, es, cfg);
    forall i, j | base <= i < j < |t.orders| && IsSell(t.orders[i]) && IsSell(t.orders[j])
      ensures t.orders[i].owner != t.orders[j].owner
    {
      assert SellAt(t, base, i, t.orders[i].owner) && SellAt(t, base, j, t.orders[j].owner);
    }
    forall i, j | base <= i < |t.orders| && 0 <= j < |t.rows| && t.orders[i].kind.ManualSell?
                  && t.rows[j].signal == t.orders[i].owner
      ensures TellsFill(t, t.rows[j], i)
    {
      assert SellAt(t, base, i, t.rows[j].signal);
    }
  }
}
