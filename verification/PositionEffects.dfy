/** What each step of the options book does, told by its outcome in raw terms: the clock and the
    prices it looks at, the orders it sends, what becomes of the record and which row it writes. */
module PositionEffects {
  import opened Prelude
  import opened PositionBook
  import opened PositionSafety

  // ---- Outcomes ------------------------------------------------------------------------------------

  /** No other position has changed, and nothing of the requests and signals. */
  ghost predicate OnlyTouches(s: State, t: State, sig: nat) {
    && t.signals == s.signals && t.puts == s.puts && t.queue == s.queue
    && forall k: nat | k != sig :: (k in t.open <==> k in s.open) && (k in s.open ==> t.open[k] == s.open[k])
  }

  /** Order i after a cancel request that takes effect or not; order at is the one cancelled. */
  predicate CancelledAs(before: seq<Order>, after: seq<Order>, at: Option<nat>, takes: bool) {
    && |before| <= |after|
    && forall i | 0 <= i < |before| ::
         after[i] == if at == Some(i) && takes && before[i].status == Live then before[i].(status := Dead) else before[i]
  }

  /** The position is closed at the price by a journal that answers; otherwise it is just dropped. */
  ghost predicate DroppedAs(s: State, t: State, sig: nat, price: real, reason: Reason, journal: JournalReply)
    requires sig in s.open
  {
    var r := s.open[sig];
    && OnlyTouches(s, t, sig) && sig !in t.open && t.orders == s.orders
    && t.rows == s.rows + (if journal.Written? then [Row(sig, r.entryPrice, price, r.qty, reason)] else [])
  }

  /** The stop is cancelled if it is live and the cancel takes effect; an accepted market sell for
      the position's contracts follows; when it is booked, the position is gone and its row has the
      fill price, or the nominal one when the sell did not fill within the wait. */
  ghost predicate SoldAs(s: State, t: State, sig: nat, reason: S.ExitReason, nominal: real, env: CloseEnv)
    requires sig in s.open
  {
    var r, n := s.open[sig], |s.orders|;
    && OnlyTouches(s, t, sig) && t.phase == s.phase
    && CancelledAs(s.orders, t.orders, r.stopOrder, env.cancelTakes)
    && (env.sell.SellRejected? ==> |t.orders| == n)
    && (!env.sell.SellRejected? ==>
          && |t.orders| == n + 1
          && t.orders[n] == Order(sig, AutoSell, r.qty, None,
                                  if env.sell.fill.Some? then Filled(env.sell.fill.value) else Live))
    && (!env.sell.SellBooked? ==> t.rows == s.rows && sig in t.open && t.open[sig] == r)
    && (env.sell.SellBooked? ==>
          && sig !in t.open
          && t.rows == s.rows + [Row(sig, r.entryPrice, if env.sell.fill.Some? then env.sell.fill.value else nominal,
                                     r.qty, Exit(reason))])
  }

  // ---- Posts ----------------------------------------------------------------------------------------

  /** The most contracts of 100 within the spend cap and the quantity cap. */
  predicate Affords(cfg: Config, ask: real, qty: int) {
    && ask > 0.0 && 1 <= qty <= cfg.maxQty && qty as real * (ask * 100.0) <= cfg.spendCap
    && (qty == cfg.maxQty || cfg.spendCap < (qty + 1) as real * (ask * 100.0))
  }

  /** The post buys qty contracts: it is accepted, a slot is free and the ask affords one. */
  predicate Buys(s: State, e: Event, cfg: Config, qty: int)
    requires e.Post?
  {
    e.accepted && |s.open| < cfg.maxConcurrent && e.ask.Some? && Affords(cfg, e.ask.value, qty)
  }

  /** The stop sent after a fill: the configured fraction below the price, to the cent. */
  predicate IsInitialStop(o: Order, sig: nat, qty: int, price: real, cfg: Config) {
    && o.owner == sig && o.kind == StopSell && o.qty == qty && o.status == Live && o.stopPrice.Some?
    && -0.005 <= o.stopPrice.value - price * (1.0 - cfg.stopLossPct) <= 0.005
  }

  /** The record of a position just bought at price: fresh, opened now, for the post's contract. */
  predicate BeginsAs(r: Record, e: Event, cfg: Config, qty: int, stop: nat)
    requires e.Post? && e.fate.Opened?
  {
    var p := r.position;
    && r.contract == e.contract && r.qty == qty && r.entryPrice == e.fate.price
    && r.stopOrder == Some(stop) && !r.closing && r.manualOrder.None?
    && p.entryPrice == e.fate.price && p.qty == qty && p.openedAt == e.now.utc
    && p.expiration == e.contract.expiration && p.initialStopPct == cfg.stopLossPct
    && p.stopPrice == e.fate.price * (1.0 - cfg.stopLossPct) && p.peakPrice == e.fate.price && p.ratchetLevel == 0
  }

  /** What an entry for qty contracts leaves, call by call. */
  ghost predicate EnteredAs(s: State, t: State, e: Event, cfg: Config, qty: int)
    requires e.Post?
  {
    var sig, n := |s.signals|, |s.orders|;
    var logged := Signal(e.contract, e.receivedAt, false);
    && t.rows == s.rows && t.puts == s.puts && t.queue == s.queue && t.phase == s.phase
    && |t.orders| >= n && t.orders[..n] == s.orders
    && (!e.fate.Opened? ==> t.open == s.open && t.signals == s.signals + [logged])
    && match e.fate
       case BuyRejected => |t.orders| == n
       case BuyAbandoned => |t.orders| == n + 1 && t.orders[n] == Order(sig, EntryBuy, qty, None, Live)
       case BuyUnfilled(takes) =>
         |t.orders| == n + 1 && t.orders[n] == Order(sig, EntryBuy, qty, None, if takes then Dead else Live)
       case BoughtOnly(price) =>
         |t.orders| == n + 1 && t.orders[n] == Order(sig, EntryBuy, qty, None, Filled(price))
       case BoughtWithStop(price) =>
         && |t.orders| == n + 2 && t.orders[n] == Order(sig, EntryBuy, qty, None, Filled(price))
         && IsInitialStop(t.orders[n + 1], sig, qty, price, cfg)
       case Opened(price, marked) =>
         && |t.orders| == n + 2 && t.orders[n] == Order(sig, EntryBuy, qty, None, Filled(price))
         && IsInitialStop(t.orders[n + 1], sig, qty, price, cfg)
         && (price > 0.0 && 0.0 < cfg.stopLossPct < 1.0 ==>
               && t.signals == s.signals + [Signal(e.contract, e.receivedAt, marked)]
               && t.open.Keys == s.open.Keys + {sig} && (forall k <- s.open :: t.open[k] == s.open[k])
               && BeginsAs(t.open[sig], e, cfg, qty, n + 1))
         && (!(price > 0.0 && 0.0 < cfg.stopLossPct < 1.0) ==> t.open == s.open && t.signals == s.signals + [logged])
  }

  lemma CentsAreNear(x: real)
    ensures -0.005 <= HalfEvenCents(x) - x <= 0.005
  {}

  lemma TooDear(cfg: Config, ask: real, qty: int)
    requires ask > 0.0 && ComputeQty(ask, cfg.spendCap, cfg.maxQty) < 1
    ensures !Affords(cfg, ask, qty)
  {
    if 1 <= qty <= cfg.maxQty && qty as real * (ask * 100.0) <= cfg.spendCap {
      QtyIsLargestAffordable(ask, cfg.spendCap, cfg.maxQty, qty);
    }
  }

  lemma OnlyOneCount(cfg: Config, ask: real, qty: int)
    requires ask > 0.0
    ensures var n := ComputeQty(ask, cfg.spendCap, cfg.maxQty);
            && (n >= 1 ==> Affords(cfg, ask, n))
            && (Affords(cfg, ask, qty) ==> qty == n)
  {
    var n := ComputeQty(ask, cfg.spendCap, cfg.maxQty);
    if n >= 1 {
      QtyIsLargestAffordable(ask, cfg.spendCap, cfg.maxQty, n);
      QtyIsLargestAffordable(ask, cfg.spendCap, cfg.maxQty, n + 1);
    }
    if Affords(cfg, ask, qty) {
      QtyIsLargestAffordable(ask, cfg.spendCap, cfg.maxQty, qty);
      QtyIsLargestAffordable(ask, cfg.spendCap, cfg.maxQty, qty + 1);
    }
  }

  lemma OpenedEffect(s: State, e: Event, cfg: Config, qty: int)
    requires e.Post? && e.fate.Opened? && qty >= 1 && forall k <- s.open :: k < |s.signals|
    ensures var logged := s.(signals := s.signals + [Signal(e.contract, e.receivedAt, false)]);
            EnteredAs(s, Enter(logged, |s.signals|, e, qty, cfg), e, cfg, qty)
  {
    var logged := s.(signals := s.signals + [Signal(e.contract, e.receivedAt, false)]);
    OpenedOrders(logged, |s.signals|, e, cfg, qty);
    assert logged.signals[|s.signals| := Signal(e.contract, e.receivedAt, e.fate.marked)]
           == s.signals + [Signal(e.contract, e.receivedAt, e.fate.marked)];
  }

  lemma OpenedOrders(s: State, sig: nat, e: Event, cfg: Config, qty: int)
    requires e.Post? && e.fate.Opened? && qty >= 1 && sig < |s.signals|
    ensures var t, n := Enter(s, sig, e, qty, cfg), |s.orders|;
            && |t.orders| == n + 2 && t.orders[..n] == s.orders
            && t.orders[n] == Order(sig, EntryBuy, qty, None, Filled(e.fate.price))
            && IsInitialStop(t.orders[n + 1], sig, qty, e.fate.price, cfg)
  {
    CentsAreNear(e.fate.price * (1.0 - cfg.stopLossPct));
    assert Enter(s, sig, e, qty, cfg).orders[..|s.orders|] == s.orders;
  }

  lemma UnopenedEffect(s: State, e: Event, cfg: Config, qty: int)
    requires e.Post? && !e.fate.Opened? && qty >= 1
    ensures var logged := s.(signals := s.signals + [Signal(e.contract, e.receivedAt, false)]);
            EnteredAs(s, Enter(logged, |s.signals|, e, qty, cfg), e, cfg, qty)
  {
    if e.fate.BoughtWithStop? {
      CentsAreNear(e.fate.price * (1.0 - cfg.stopLossPct));
    }
    var t := Enter(s.(signals := s.signals + [Signal(e.contract, e.receivedAt, false)]), |s.signals|, e, qty, cfg);
    assert t.orders[..|s.orders|] == s.orders;
  }

  lemma EnterEffect(s: State, e: Event, cfg: Config, qty: int)
    requires e.Post? && qty >= 1 && forall k <- s.open :: k < |s.signals|
    ensures var logged := s.(signals := s.signals + [Signal(e.contract, e.receivedAt, false)]);
            EnteredAs(s, Enter(logged, |s.signals|, e, qty, cfg), e, cfg, qty)
  {
    if e.fate.Opened? {
      OpenedEffect(s, e, cfg, qty);
    } else {
      UnopenedEffect(s, e, cfg, qty);
    }
  }

  /** Main result: a post is logged, and buys exactly when it is accepted, a slot is free and a
      contract is affordable, for the most contracts within both caps. */
  lemma PostEffect(s: State, e: Event, cfg: Config)
    requires Inv(s) && e.Post? && s.phase.Idle?
    ensures var t := Step(s, e, cfg);
            && (forall qty | Buys(s, e, cfg, qty) :: EnteredAs(s, t, e, cfg, qty))
            && ((forall qty :: !Buys(s, e, cfg, qty)) ==>
                  t == s.(signals := s.signals + [Signal(e.contract, e.receivedAt, false)]))
  {
    if e.accepted && |s.open| < cfg.maxConcurrent && e.ask.Some? {
      var n := ComputeQty(e.ask.value, cfg.spendCap, cfg.maxQty);
      if n >= 1 {
        assert e.ask.value > 0.0;
        EnterEffect(s, e, cfg, n);
        forall qty ensures Buys(s, e, cfg, qty) <==> qty == n {
          OnlyOneCount(cfg, e.ask.value, qty);
        }
        assert Buys(s, e, cfg, n);
      } else if e.ask.value > 0.0 {
        forall qty ensures !Buys(s, e, cfg, qty) {
          TooDear(cfg, e.ask.value, qty);
        }
      }
    }
  }

  // ---- "Sell now" ----------------------------------------------------------------------------------

  /** A tap on an open, unflagged position flags it and leaves one put to make; the put joins the
      queue's end. Anything else changes nothing. */
  lemma TapEffect(s: State, e: Event, cfg: Config)
    requires e.ApiFlag? || e.ApiPut?
    ensures var t := Step(s, e, cfg);
            && (e.ApiFlag? ==>
                  t == if e.sig in s.open && !s.open[e.sig].closing
                       then s.(open := s.open[e.sig := s.open[e.sig].(closing := true)], puts := s.puts + multiset{e.sig})
                       else s)
            && (e.ApiPut? ==>
                  t == if e.sig in s.puts then s.(puts := s.puts - multiset{e.sig}, queue := s.queue + [e.sig]) else s)
  {}

  /** The drain takes the oldest request off the queue. For an open position it cancels the stop,
      forgets it and sells the position's contracts; only a sell that was sent to the end is
      remembered and leaves the position flagged. */
  ghost predicate DrainedAs(s: State, t: State, e: Event)
    requires e.DrainRequest? && s.queue != []
  {
    var sig, n := s.queue[0], |s.orders|;
    && t.queue == s.queue[1..] && t.rows == s.rows && t.phase == s.phase
    && OnlyTouches(s.(queue := s.queue[1..]), t, sig)
    && (sig !in s.open ==> t.orders == s.orders && sig !in t.open)
    && (sig in s.open ==>
          var r := s.open[sig];
          && CancelledAs(s.orders, t.orders, r.stopOrder, e.cancelTakes)
          && (e.manual.ManualRejected? ==> |t.orders| == n)
          && (!e.manual.ManualRejected? ==>
                |t.orders| == n + 1 && t.orders[n] == Order(sig, ManualSell, r.qty, None, Live))
          && sig in t.open
          && t.open[sig] == r.(stopOrder := None, closing := e.manual.ManualSent? && r.closing,
                               manualOrder := if e.manual.ManualSent? then Some(n) else None))
  }

  lemma DrainEffect(s: State, e: Event, cfg: Config)
    requires e.DrainRequest? && s.phase.Idle?
    ensures if s.queue == [] then Step(s, e, cfg) == s else DrainedAs(s, Step(s, e, cfg), e)
  {}

  /** The poll books a flagged position whose manual sell it can read as filled, and nothing else. */
  ghost predicate PolledAs(s: State, t: State, e: Event)
    requires e.PollManual?
  {
    if e.sig in s.open && s.open[e.sig].closing && !e.readRaises
       && s.open[e.sig].manualOrder.Some? && s.open[e.sig].manualOrder.value < |s.orders|
       && s.orders[s.open[e.sig].manualOrder.value].status.Filled?
    then DroppedAs(s, t, e.sig, s.orders[s.open[e.sig].manualOrder.value].status.price, ManualClose, e.journal)
    else t == s
  }

  lemma PollEffect(s: State, e: Event, cfg: Config)
    requires Inv(s) && e.PollManual? && s.phase.Idle?
    ensures PolledAs(s, Step(s, e, cfg), e)
  {
    if e.sig in s.open {
      NoRowWhileOpen(s, e.sig);
    }
  }

  /** A position the broker lost: booked at its filled manual sell while one is pending, else at its
      filled stop, else at the entry price. */
  ghost predicate ReconciledAs(s: State, t: State, e: Event)
    requires e.Reconcile? && e.sig in s.open
  {
    var r := s.open[e.sig];
    if r.closing && r.manualOrder.Some? then
      if !e.readRaises && r.manualOrder.value < |s.orders| && s.orders[r.manualOrder.value].status.Filled?
      then DroppedAs(s, t, e.sig, s.orders[r.manualOrder.value].status.price, ManualClose, e.journal)
      else t == s
    else if !e.readRaises && r.stopOrder.Some? && r.stopOrder.value < |s.orders|
            && s.orders[r.stopOrder.value].status.Filled?
    then DroppedAs(s, t, e.sig, s.orders[r.stopOrder.value].status.price, Exit(S.StopLoss), e.journal)
    else DroppedAs(s, t, e.sig, r.entryPrice, ExternalClose, e.journal)
  }

  lemma ReconcileEffect(s: State, e: Event, cfg: Config)
    requires Inv(s) && e.Reconcile? && s.phase.Idle?
    ensures if e.sig in s.open then ReconciledAs(s, Step(s, e, cfg), e) else Step(s, e, cfg) == s
  {
    if e.sig in s.open {
      NoRowWhileOpen(s, e.sig);
    }
  }

  // ---- Closing at 15:55 ----------------------------------------------------------------------------

  /** The flatten sells every open position it lists, flagged or not, as time_stop_1555 at its fill
      or at the entry price. */
  lemma FlattenEffect(s: State, e: Event, cfg: Config)
    requires e.Flatten? && s.phase.Idle?
    ensures var t := Step(s, e, cfg);
            if e.sig in s.open then SoldAs(s, t, e.sig, S.TimeStop1555, s.open[e.sig].entryPrice, e.env) else t == s
  {}

  // ---- One round on a position ------------------------------------------------------------------------

  /** The round begins on an open position that is not being closed, reads its stop, and either
      books its fill or goes on to the quote. */
  lemma RoundBegins(s: State, sig: nat, read: Event, cfg: Config)
    requires Inv(s) && s.phase.Idle? && read.ReadStop?
    ensures var u := Step(s, StartAdvance(sig), cfg);
            var t := Step(u, read, cfg);
            && (sig !in s.open || s.open[sig].closing ==> u == s && t == s)
            && (sig in s.open && !s.open[sig].closing ==>
                  var r := s.open[sig];
                  && u == s.(phase := Checked(sig))
                  && if !read.readRaises && r.stopOrder.Some? && r.stopOrder.value < |s.orders|
                        && s.orders[r.stopOrder.value].status.Filled?
                     then DroppedAs(s, t, sig, s.orders[r.stopOrder.value].status.price, Exit(S.StopLoss), read.journal)
                          && t.phase == Idle
                     else t == s.(phase := Quoted(sig)))
  {
    if sig in s.open {
      NoRowWhileOpen(s, sig);
    }
  }

  /** The stop after the quote: 5% below a peak 5% above the entry, but not below the entry, 3%
      below a peak 40% above it, and never lower than before. */
  function Raised(p: S.Position, quote: real): real {
    var peak := if quote > p.peakPrice then quote else p.peakPrice;
    if peak < p.entryPrice * 1.05 then p.stopPrice
    else if peak < p.entryPrice * 1.40 then Max(p.stopPrice, Max(p.entryPrice, peak * 0.95))
    else Max(p.stopPrice, peak * 0.97)
  }

  /** The exit a position owes at a quote and a moment, given its stop. */
  predicate Owes(p: S.Position, stop: real, quote: real, now: Moment, reason: S.ExitReason) {
    var days := p.expiration - now.etDate;
    var late := now.etTime >= 15 * 3600 + 55 * 60 && days <= 3;
    var idle := now.utc >= p.openedAt + 4 * 3600 && 0.98 * p.entryPrice < quote < 1.02 * p.entryPrice;
    match reason
    case StopLoss => quote <= stop
    case TimeStop1555 => quote > stop && late
    case DteClose => quote > stop && !late && days <= 1
    case StaleNoMovement => quote > stop && !late && days > 1 && idle
  }

  /** The broker's stop is to be replaced: it could be read, the new one is higher by at least a
      hundredth of the entry, and it lies below the market. */
  predicate Replaces(s: State, sig: nat, stop: real, quote: real, readRaises: bool)
    requires sig in s.open
  {
    var r := s.open[sig];
    && !readRaises && r.stopOrder.Some? && r.stopOrder.value < |s.orders|
    && var prior := s.orders[r.stopOrder.value].stopPrice;
       && prior.Some? && stop > prior.value && stop - prior.value >= r.entryPrice * 0.01 && stop < quote
  }

  /** A new stop order was accepted: by replacing a live one, or by submitting. */
  predicate Accepts(s: State, sig: nat, fate: ModifyFate)
    requires sig in s.open && s.open[sig].stopOrder.Some? && s.open[sig].stopOrder.value < |s.orders|
  {
    (fate.swaps && s.orders[s.open[sig].stopOrder.value].status == Live) || !fate.submitRaises
  }

  /** The strategy's answer to a positive quote, in raw terms. */
  lemma VerdictInRawTerms(p: S.Position, quote: real, now: Moment)
    requires p.entryPrice > 0.0 && p.ratchetLevel >= 0 && quote > 0.0
    ensures var r := S.Evaluate(p, quote, now);
            && r.Ok?
            && r.value.position == p.(stopPrice := Raised(p, quote), peakPrice := Max(quote, p.peakPrice),
                                      ratchetLevel := r.value.position.ratchetLevel)
            && (r.value.exit.Some? ==>
                  r.value.exit.value.exitPrice == quote && r.value.exit.value.triggeredAt == now.utc)
            && (forall reason ::
                  (r.value.exit.Some? && r.value.exit.value.reason == reason)
                  <==> Owes(p, Raised(p, quote), quote, now, reason))
  {
    S.AdvanceLifts(p, quote);
    S.NearEntry(quote, p.entryPrice);
  }

  /** The new stop is accepted, for the position's contracts at the strategy's stop. */
  predicate Restops(s: State, sig: nat, e: Event)
    requires e.FinishAdvance? && e.quote.Some? && sig in s.open
  {
    && Replaces(s, sig, Raised(s.open[sig].position, e.quote.value), e.quote.value, e.readRaises)
    && Accepts(s, sig, e.push)
  }

  /** What the quote does before an exit is acted upon: the position takes on its new peak and stop;
      when the broker's stop is replaced, the old one goes by the swap or by the cancel, and an
      accepted new one is what the record points at. */
  ghost predicate QuotedAs(s: State, t: State, sig: nat, e: Event)
    requires e.FinishAdvance? && e.quote.Some? && sig in s.open
  {
    var r, n, quote := s.open[sig], |s.orders|, e.quote.value;
    var stop := Raised(r.position, quote);
    var pushes := Replaces(s, sig, stop, quote, e.readRaises);
    && OnlyTouches(s, t, sig) && t.rows == s.rows && t.phase == s.phase && sig in t.open
    && t.open[sig] == r.(position := t.open[sig].position, stopOrder := if Restops(s, sig, e) then Some(n) else r.stopOrder)
    && t.open[sig].position == r.position.(stopPrice := stop, peakPrice := Max(quote, r.position.peakPrice),
                                           ratchetLevel := t.open[sig].position.ratchetLevel)
    && CancelledAs(s.orders, t.orders, if pushes then r.stopOrder else None, e.push.swaps || e.push.cancelTakes)
    && (Restops(s, sig, e) ==> |t.orders| == n + 1 && t.orders[n] == Order(sig, StopSell, r.qty, Some(stop), Live))
    && (!Restops(s, sig, e) ==> |t.orders| == n)
  }

  lemma RestoppedEffect(s: State, sig: nat, newStop: real, fate: ModifyFate)
    requires sig in s.open && s.open[sig].stopOrder.Some? && s.open[sig].stopOrder.value < |s.orders|
    ensures var t, r, n := Restopped(s, sig, newStop, fate), s.open[sig], |s.orders|;
            var accepts := Accepts(s, sig, fate);
            && OnlyTouches(s, t, sig) && t.rows == s.rows && t.phase == s.phase && sig in t.open
            && t.open[sig] == r.(stopOrder := if accepts then Some(n) else r.stopOrder)
            && CancelledAs(s.orders, t.orders, r.stopOrder, fate.swaps || fate.cancelTakes)
            && (accepts ==> |t.orders| == n + 1 && t.orders[n] == Order(sig, StopSell, r.qty, Some(newStop), Live))
            && (!accepts ==> |t.orders| == n)
  {
    var t := Restopped(s, sig, newStop, fate);
    if Accepts(s, sig, fate) {
      assert forall i | 0 <= i < |s.orders| :: t.orders[i] == t.orders[..|s.orders|][i];
    }
  }

  lemma QuoteEffect(s: State, sig: nat, e: Event)
    requires e.FinishAdvance? && sig in s.open && e.quote.Some? && e.quote.value > 0.0
    requires s.open[sig].position.entryPrice == s.open[sig].entryPrice > 0.0 && s.open[sig].position.ratchetLevel >= 0
    ensures Verdict(s.open[sig], e).Ok? && QuotedAs(s, Pushed(s, sig, e), sig, e)
    ensures var p := s.open[sig].position;
            forall reason ::
              (Verdict(s.open[sig], e).value.exit.Some? && Verdict(s.open[sig], e).value.exit.value.reason == reason)
              <==> Owes(p, Raised(p, e.quote.value), e.quote.value, e.now, reason)
    ensures PushesStop(s, sig, e) <==>
              Replaces(s, sig, Raised(s.open[sig].position, e.quote.value), e.quote.value, e.readRaises)
  {
    var p := s.open[sig].position;
    VerdictInRawTerms(p, e.quote.value, e.now);
    if PushesStop(s, sig, e) {
      RestoppedEffect(Evaluated(s, sig, Verdict(s.open[sig], e).value.position), sig, Raised(p, e.quote.value), e.push);
    }
  }

  lemma SoldEffect(s: State, sig: nat, reason: S.ExitReason, nominal: real, env: CloseEnv)
    requires sig in s.open
    ensures SoldAs(s, Closed(s, sig, reason, nominal, env), sig, reason, nominal, env)
  {}

  /** From s by way of mid, where the quote has been taken on: for every exit the strategy owes the
      position is sold for it, unless a journal write after an accepted new stop has cut the round
      short; without an exit it stays as in mid. */
  ghost predicate FinishedAs(s: State, mid: State, t: State, sig: nat, e: Event)
    requires e.FinishAdvance? && e.quote.Some? && sig in s.open
  {
    var p, quote := s.open[sig].position, e.quote.value;
    var cut := Restops(s, sig, e) && e.push.writeRaises;
    && QuotedAs(s, mid, sig, e)
    && (forall reason | Owes(p, Raised(p, quote), quote, e.now, reason) && !cut ::
          SoldAs(mid, t.(phase := mid.phase), sig, reason, quote, e.env))
    && (NothingIsOwed(p, quote, e.now) || cut ==> t == mid.(phase := Idle))
  }

  predicate NothingIsOwed(p: S.Position, quote: real, now: Moment) {
    && !Owes(p, Raised(p, quote), quote, now, S.StopLoss) && !Owes(p, Raised(p, quote), quote, now, S.TimeStop1555)
    && !Owes(p, Raised(p, quote), quote, now, S.DteClose)
    && !Owes(p, Raised(p, quote), quote, now, S.StaleNoMovement)
  }

  /** Main result: what the quote of a round does to a managed position. Its stop moves, on the book
      too when it moves by enough; then every exit of the strategy is acted upon. Without a usable
      quote nothing changes. */
  lemma FinishEffect(s: State, e: Event, cfg: Config, sig: nat)
    requires e.FinishAdvance? && s.phase == Quoted(sig) && sig in s.open
    requires s.open[sig].position.entryPrice == s.open[sig].entryPrice > 0.0 && s.open[sig].position.ratchetLevel >= 0
    ensures var t := Step(s, e, cfg);
            t.phase.Idle? && (e.quote.None? || e.quote.value <= 0.0 ==> t == s.(phase := Idle))
    ensures e.quote.Some? && e.quote.value > 0.0 ==> exists mid :: FinishedAs(s, mid, Step(s, e, cfg), sig, e)
  {
    if e.quote.Some? && e.quote.value > 0.0 {
      QuoteEffect(s, sig, e);
      var mid, verdict := Pushed(s, sig, e), Verdict(s.open[sig], e).value;
      if verdict.exit.Some? {
        SoldEffect(mid, sig, verdict.exit.value.reason, e.quote.value, e.env);
        var p := s.open[sig].position;
        assert Owes(p, Raised(p, e.quote.value), e.quote.value, e.now, verdict.exit.value.reason);
      }
      assert FinishedAs(s, mid, Step(s, e, cfg), sig, e);
    }
  }

  /** A sell after the quote is the newest order, and its row the newest row. */
  lemma SellTells(s: State, mid: State, t: State, sig: nat, e: Event, reason: S.ExitReason)
    requires e.FinishAdvance? && e.quote.Some? && sig in s.open && QuotedAs(s, mid, sig, e)
    requires SoldAs(mid, t, sig, reason, e.quote.value, e.env)
    ensures SellIsTold(s, t, sig, reason, e.quote.value, e.env.sell)
  {}

  predicate SellIsTold(s: State, t: State, sig: nat, reason: S.ExitReason, quote: real, sell: SellFate)
    requires sig in s.open
  {
    var r := s.open[sig];
    && (!sell.SellRejected? ==>
          && |t.orders| > |s.orders|
          && t.orders[|t.orders| - 1]
             == Order(sig, AutoSell, r.qty, None, if sell.fill.Some? then Filled(sell.fill.value) else Live))
    && (sell.SellBooked? ==>
          && sig !in t.open
          && t.rows == s.rows + [Row(sig, r.entryPrice, if sell.fill.Some? then sell.fill.value else quote, r.qty,
                                     Exit(reason))])
  }

  lemma NoExitTells(s: State, mid: State, sig: nat, e: Event)
    requires e.FinishAdvance? && e.quote.Some? && sig in s.open && QuotedAs(s, mid, sig, e)
    ensures StaysUnsold(s, mid.(phase := Idle), sig)
  {}

  predicate StaysUnsold(s: State, t: State, sig: nat) {
    sig in t.open && t.rows == s.rows && forall i | |s.orders| <= i < |t.orders| :: !t.orders[i].kind.AutoSell?
  }

  /** In rows and orders: an accepted exit sell is the newest order, a booked one leaves the position
      gone with its row at the fill or the quote, and no exit no sell. */
  lemma ExitsAreSold(s: State, e: Event, cfg: Config, sig: nat)
    requires e.FinishAdvance? && s.phase == Quoted(sig) && sig in s.open
    requires s.open[sig].position.entryPrice == s.open[sig].entryPrice > 0.0 && s.open[sig].position.ratchetLevel >= 0
    requires e.quote.Some? && e.quote.value > 0.0
    ensures var p, t, quote := s.open[sig].position, Step(s, e, cfg), e.quote.value;
            var cut := Restops(s, sig, e) && e.push.writeRaises;
            && (forall reason | Owes(p, Raised(p, quote), quote, e.now, reason) && !cut ::
                  SellIsTold(s, t, sig, reason, quote, e.env.sell))
            && (NothingIsOwed(p, quote, e.now) || cut ==> StaysUnsold(s, t, sig))
  {
    FinishEffect(s, e, cfg, sig);
    var p, t, quote := s.open[sig].position, Step(s, e, cfg), e.quote.value;
    var cut := Restops(s, sig, e) && e.push.writeRaises;
    var mid :| FinishedAs(s, mid, t, sig, e);
    forall reason | Owes(p, Raised(p, quote), quote, e.now, reason) && !cut
      ensures SellIsTold(s, t, sig, reason, quote, e.env.sell)
    {
      SellTells(s, mid, t.(phase := mid.phase), sig, e, reason);
    }
    NoExitTells(s, mid, sig, e);
  }

  /** What a round that nothing interrupts makes of the book. */
  ghost predicate RoundActs(s: State, t: State, sig: nat, read: Event, finish: Event)
    requires read.ReadStop? && finish.FinishAdvance?
  {
    if sig !in s.open || s.open[sig].closing then t == s
    else
      var r := s.open[sig];
      if !read.readRaises && r.stopOrder.Some? && r.stopOrder.value < |s.orders|
         && s.orders[r.stopOrder.value].status.Filled?
      then DroppedAs(s, t, sig, s.orders[r.stopOrder.value].status.price, Exit(S.StopLoss), read.journal) && t.phase.Idle?
      else if finish.quote.None? || finish.quote.value <= 0.0 then t == s
      else exists mid :: FinishedAs(s.(phase := Quoted(sig)), mid, t, sig, finish)
  }

  /** Main result: it skips a position that is being closed or gone, books a filled stop, and otherwise
      acts on the quote. */
  lemma RoundEffect(s: State, sig: nat, read: Event, finish: Event, cfg: Config)
    requires Inv(s) && s.phase.Idle? && read.ReadStop? && finish.FinishAdvance?
    requires sig in s.open ==>
               s.open[sig].position.entryPrice == s.open[sig].entryPrice > 0.0 && s.open[sig].position.ratchetLevel >= 0
    ensures RoundActs(s, Step(Step(Step(s, StartAdvance(sig), cfg), read, cfg), finish, cfg), sig, read, finish)
  {
    RoundBegins(s, sig, read, cfg);
    var v := Step(Step(s, StartAdvance(sig), cfg), read, cfg);
    if v == s.(phase := Quoted(sig)) && sig in s.open {
      FinishEffect(v, finish, cfg, sig);
    }
  }
}
