/** What each step of the scanner book does, told by its outcome in raw terms: the clock and the
    prices it looks at, the orders it sends, what becomes of the record and of its row. */
module ScannerEffects {
  import opened Prelude
  import opened ScannerBook
  import opened ScannerSafety
  import R = RiskManager

  // ---- Outcomes ----------------------------------------------------------------------------------

  /** Nothing but the short of the ticker, its row and its orders has changed. */
  ghost predicate OnlyTouches(s: State, t: State, ticker: string)
    requires ticker in s.book
  {
    && t.queue == s.queue && t.staged == s.staged && t.recorded == s.recorded
    && (forall u | u != ticker :: (u in t.book <==> u in s.book) && (u in s.book ==> t.book[u] == s.book[u]))
    && |t.rows| == |s.rows|
    && (forall i | 0 <= i < |s.rows| && s.book[ticker].tradeId != Some(i) :: t.rows[i] == s.rows[i])
    && |s.orders| <= |t.orders|
    && (forall i | 0 <= i < |s.orders| && s.book[ticker].stopOrder != Some(i) :: t.orders[i] == s.orders[i])
  }

  /** The short's own row tells this close, and the short is gone. */
  ghost predicate ToldAs(s: State, t: State, ticker: string, price: real, reason: Reason, order: nat)
    requires ticker in s.book
  {
    var r := s.book[ticker];
    && ticker !in t.book
    && r.tradeId.Some? && r.tradeId.value < |s.rows| == |t.rows|
    && t.rows[r.tradeId.value]
       == s.rows[r.tradeId.value].(exit :=
            Some(Exit(Some(price), reason, Some(E.ShortGrossCents(r.entryPrice, price, r.qty)), Some(order))))
  }

  /** A fill is booked, unless the row's update raises: then everything stays. */
  ghost predicate BookedAs(s: State, t: State, ticker: string, price: real, reason: Reason, order: nat, raises: bool)
    requires ticker in s.book
  {
    if raises then t == s
    else OnlyTouches(s, t, ticker) && t.orders == s.orders && ToldAs(s, t, ticker, price, reason, order)
  }

  /** The stop is cancelled if it is live and the cancel takes effect; an accepted cover for the
      short's shares follows, and is booked at once when it fills within the wait and the row's
      update does not raise. A rejected cover leaves the short open without a stop order. */
  ghost predicate CoveredAs(s: State, t: State, ticker: string, reason: E.ExitReason, env: CloseEnv)
    requires ticker in s.book
  {
    var r, n := s.book[ticker], |s.orders|;
    && OnlyTouches(s, t, ticker)
    && (r.stopOrder.Some? && r.stopOrder.value < n ==>
          var was := s.orders[r.stopOrder.value];
          t.orders[r.stopOrder.value]
          == if was.status == Live && env.cancelTakes then was.(status := Dead) else was)
    && (env.submitRaises ==>
          |t.orders| == n && t.rows == s.rows && ticker in t.book && t.book[ticker] == r.(stopOrder := None))
    && (!env.submitRaises ==>
          && |t.orders| == n + 1
          && t.orders[n] == Order(r.key, Cover, r.qty, if env.fill.FilledAt? then Filled(env.fill.price) else Live)
          && if env.fill.FilledAt? && !env.bookRaises then ToldAs(s, t, ticker, env.fill.price, Because(reason), n)
             else
               && t.rows == s.rows && ticker in t.book
               && t.book[ticker] == r.(stopOrder := None, exitOrder := Some(n), pendingReason := Some(Because(reason))))
  }

  // ---- Exits ------------------------------------------------------------------------------------------

  /** Which exit a tick owes a short that has no cover and no filled stop: 15:55 ET, an hour since
      the opening, or a quote at the stop price when no stop order rests. */
  predicate Owes(r: Short, now: Moment, quote: Option<real>, reason: E.ExitReason) {
    var late, aged := now.etTime >= 15 * 3600 + 55 * 60, now.utc >= r.openedAt + 3600;
    match reason
    case EodFailsafe => late
    case TimeExit => !late && aged
    case StopBackup => !late && !aged && r.stopOrder.None? && quote.Some? && quote.value >= r.stopPrice
  }

  /** The record's own row, and the cover as the order that closed it. */
  lemma BookedCoverEffect(s: State, cfg: Config, ticker: string, reason: E.ExitReason, env: CloseEnv)
    requires Inv(s, cfg) && ticker in s.book && !env.submitRaises && env.fill.FilledAt? && !env.bookRaises
    ensures CoveredAs(s, Close(s, ticker, Because(reason), env), ticker, reason, env)
  {
    PendingCoverEffect(s, cfg, ticker, reason, env.(bookRaises := true));
    var covering := Close(s, ticker, Because(reason), env.(bookRaises := true));
    assert Tracks(s, ticker);
    assert Close(s, ticker, Because(reason), env)
           == Booked(covering, ticker, env.fill.price, Because(reason), |s.orders|, false);
  }

  lemma PendingCoverEffect(s: State, cfg: Config, ticker: string, reason: E.ExitReason, env: CloseEnv)
    requires Inv(s, cfg) && ticker in s.book && (env.submitRaises || !env.fill.FilledAt? || env.bookRaises)
    ensures CoveredAs(s, Close(s, ticker, Because(reason), env), ticker, reason, env)
  {
    assert Tracks(s, ticker);
  }

  lemma CloseEffect(s: State, cfg: Config, ticker: string, reason: E.ExitReason, env: CloseEnv)
    requires Inv(s, cfg) && ticker in s.book
    ensures CoveredAs(s, Close(s, ticker, Because(reason), env), ticker, reason, env)
  {
    if !env.submitRaises && env.fill.FilledAt? && !env.bookRaises {
      BookedCoverEffect(s, cfg, ticker, reason, env);
    } else {
      PendingCoverEffect(s, cfg, ticker, reason, env);
    }
  }

  lemma BookedEffect(s: State, cfg: Config, ticker: string, price: real, reason: Reason, order: nat, raises: bool)
    requires Inv(s, cfg) && ticker in s.book
    ensures BookedAs(s, Booked(s, ticker, price, reason, order, raises), ticker, price, reason, order, raises)
  {
    assert Tracks(s, ticker);
  }

  /** No cover is pending, and the stop is absent, or was read and has not filled. */
  predicate LooksAtTheClock(s: State, e: Event)
    requires e.AdvanceShort? && e.ticker in s.book
  {
    var r := s.book[e.ticker];
    && r.exitOrder.None?
    && (r.stopOrder.Some? ==>
          !e.readRaises && !(r.stopOrder.value < |s.orders| && s.orders[r.stopOrder.value].status.Filled?))
  }

  lemma AdvanceAtTheClock(s: State, e: Event, cfg: Config)
    requires Inv(s, cfg) && e.AdvanceShort? && e.ticker in s.book && LooksAtTheClock(s, e)
    ensures var r, t := s.book[e.ticker], Advance(s, e);
            && (forall reason | Owes(r, e.now, e.quote, reason) :: CoveredAs(s, t, e.ticker, reason, e.env))
            && ((forall reason :: !Owes(r, e.now, e.quote, reason)) ==> t == s)
  {
    var r := s.book[e.ticker];
    var exit := E.EvaluateExit(r.openedAt, r.stopPrice, e.now, if r.stopOrder.None? then e.quote else None);
    forall reason ensures Owes(r, e.now, e.quote, reason) <==> exit == Some(reason) {}
    if exit.Some? {
      CloseEffect(s, cfg, e.ticker, exit.value, e.env);
      assert Owes(r, e.now, e.quote, exit.value);
    }
  }

  lemma VisitToACover(s: State, e: Event, cfg: Config)
    requires Inv(s, cfg) && e.AdvanceShort? && e.ticker in s.book && s.book[e.ticker].exitOrder.Some?
    ensures var r, t := s.book[e.ticker], Advance(s, e);
            var m := r.exitOrder.value;
            if !e.readRaises && m < |s.orders| && s.orders[m].status.Filled?
            then BookedAs(s, t, e.ticker, s.orders[m].status.price,
                          if r.pendingReason.Some? then r.pendingReason.value else StopHit, m, e.env.bookRaises)
            else t == s
  {
    var r := s.book[e.ticker];
    if r.exitOrder.value < |s.orders| && s.orders[r.exitOrder.value].status.Filled? {
      BookedEffect(s, cfg, e.ticker, s.orders[r.exitOrder.value].status.price,
                   if r.pendingReason.Some? then r.pendingReason.value else StopHit, r.exitOrder.value, e.env.bookRaises);
    }
  }

  lemma VisitToAStop(s: State, e: Event, cfg: Config)
    requires Inv(s, cfg) && e.AdvanceShort? && e.ticker in s.book
    requires s.book[e.ticker].exitOrder.None? && s.book[e.ticker].stopOrder.Some?
    ensures var t, m := Advance(s, e), s.book[e.ticker].stopOrder.value;
            && (e.readRaises ==> t == s)
            && (!e.readRaises && m < |s.orders| && s.orders[m].status.Filled? ==>
                  BookedAs(s, t, e.ticker, s.orders[m].status.price, StopHit, m, e.env.bookRaises))
  {
    var m := s.book[e.ticker].stopOrder.value;
    if m < |s.orders| && s.orders[m].status.Filled? {
      BookedEffect(s, cfg, e.ticker, s.orders[m].status.price, StopHit, m, e.env.bookRaises);
    }
  }

  /** What a visit makes of a tracked short. A pending cover is only looked at; a filled stop is
      booked as stop_hit; otherwise a cover is sent exactly when an exit is owed, with that exit as
      its reason, and without one nothing changes. */
  ghost predicate VisitedAs(s: State, t: State, e: Event)
    requires e.AdvanceShort? && e.ticker in s.book
  {
    var r := s.book[e.ticker];
    && (r.exitOrder.Some? ==>
          var m := r.exitOrder.value;
          if !e.readRaises && m < |s.orders| && s.orders[m].status.Filled?
          then BookedAs(s, t, e.ticker, s.orders[m].status.price,
                        if r.pendingReason.Some? then r.pendingReason.value else StopHit, m, e.env.bookRaises)
          else t == s)
    && (r.exitOrder.None? && r.stopOrder.Some? ==>
          var m := r.stopOrder.value;
          && (e.readRaises ==> t == s)
          && (!e.readRaises && m < |s.orders| && s.orders[m].status.Filled? ==>
                BookedAs(s, t, e.ticker, s.orders[m].status.price, StopHit, m, e.env.bookRaises)))
    && (LooksAtTheClock(s, e) ==>
          && (forall reason | Owes(r, e.now, e.quote, reason) :: CoveredAs(s, t, e.ticker, reason, e.env))
          && ((forall reason :: !Owes(r, e.now, e.quote, reason)) ==> t == s))
  }

  /** Main result: every visit to a tracked short does that, and a visit to no short does nothing. */
  lemma AdvanceEffect(s: State, e: Event, cfg: Config)
    requires Inv(s, cfg) && e.AdvanceShort?
    ensures if e.ticker in s.book then VisitedAs(s, Step(s, e, cfg), e) else Step(s, e, cfg) == s
  {
    if e.ticker !in s.book {
    } else if s.book[e.ticker].exitOrder.Some? {
      VisitToACover(s, e, cfg);
    } else if LooksAtTheClock(s, e) {
      AdvanceAtTheClock(s, e, cfg);
    } else {
      VisitToAStop(s, e, cfg);
    }
  }

  /** The flatten covers every short that has no cover yet, whatever its stop has done. */
  lemma FlattenEffect(s: State, e: Event, cfg: Config)
    requires Inv(s, cfg) && e.FlattenShort?
    ensures var t := Step(s, e, cfg);
            if e.ticker !in s.book || s.book[e.ticker].exitOrder.Some? then t == s
            else CoveredAs(s, t, e.ticker, E.EodFailsafe, e.env)
  {
    if e.ticker in s.book {
      CloseEffect(s, cfg, e.ticker, E.EodFailsafe, e.env);
    }
  }

  // ---- Entries ------------------------------------------------------------------------------------------

  /** The most whole shares the notional buys at the price. */
  predicate Affords(notional: real, price: real, qty: int) {
    price > 0.0 && qty >= 1 && qty as real * price <= notional < (qty + 1) as real * price
  }

  /** The signal may be shorted, before any price is asked. */
  predicate Shortable(s: State, sig: Signal, now: Moment, active: set<R.Switch>, cfg: Config) {
    && cfg.armed && sig.key.scanner == "failed_breakout"
    && sig.volumeRatio.Some? && sig.volumeRatio.value >= cfg.minVolumeRatio
    && sig.failure.etTime < 10 * 3600 + 30 * 60 && now.utc <= sig.failure.utc + 600
    && sig.key.ticker !in s.book && |s.book| < cfg.maxConcurrent
    && R.DailyLoss !in active && R.ConsecutiveLosses !in active && R.AlpacaDisconnected !in active
  }

  /** What an entry for qty shares leaves, call by call. */
  ghost predicate EnteredAs(s: State, t: State, sig: Signal, qty: int, fate: EntryFate) {
    var n := |s.orders|;
    match fate
    case SubmitRejected => t.orders == s.orders && t.rows == s.rows && t.book == s.book
    case EntryPollRaises =>
      t.orders == s.orders + [Order(sig.key, ShortSell, qty, Live)] && t.rows == s.rows && t.book == s.book
    case Unfilled(takes) =>
      && t.orders == s.orders + [Order(sig.key, ShortSell, qty, if takes then Dead else Live)]
      && t.rows == s.rows && t.book == s.book
    case Entered(price, at, stopAccepted, rowWritten) =>
      && t.orders == s.orders + [Order(sig.key, ShortSell, qty, Filled(price))]
                     + (if stopAccepted then [Order(sig.key, StopBuy, qty, Live)] else [])
      && (!rowWritten ==> t.rows == s.rows && t.book == s.book)
      && (rowWritten ==>
            var stop := if stopAccepted then Some(n + 1) else None;
            && t.rows == s.rows + [Row(sig.key, qty, price, stop, None)]
            && t.book == s.book[sig.key.ticker :=
                 Short(sig.key, Some(|s.rows|), qty, price, at, E.StopPriceFor(price), stop, None, None)])
  }

  lemma TooDear(notional: real, price: real, qty: int)
    requires price > 0.0 && notional < price
    ensures !Affords(notional, price, qty)
  {
    if qty >= 1 {
      E.Scale(1.0, qty as real, price);
      assert 1.0 * price == price;
    }
  }

  lemma Affordable(notional: real, price: real)
    ensures var n := E.SharesForNotional(notional, price);
            (n >= 1 ==> Affords(notional, price, n)) && (n < 1 ==> forall qty :: !Affords(notional, price, qty))
  {
    var n := E.SharesForNotional(notional, price);
    if price > 0.0 {
      E.Scale(n as real, (n + 1) as real, price);
      assert (n + 1) as real * price == n as real * price + price;
      if n < 1 {
        assert notional < price;
        forall qty ensures !Affords(notional, price, qty) {
          TooDear(notional, price, qty);
        }
      }
    }
  }

  /** The signal enters for qty shares. */
  predicate Enters(s: State, e: Event, cfg: Config, qty: int)
    requires e.Handle? && s.queue != []
  {
    && Shortable(s, s.queue[0], e.now, e.active, cfg)
    && e.reply.Price? && e.reply.value.Some? && Affords(cfg.notional, e.reply.value.value, qty)
  }

  lemma EnterEffect(s: State, sig: Signal, qty: int, fate: EntryFate)
    requires sig.key !in RowKeys(s.rows)
    ensures EnteredAs(s, Enter(s, sig, qty, fate), sig, qty, fate)
    ensures var t := Enter(s, sig, qty, fate);
            t.queue == s.queue && t.staged == s.staged && t.recorded == s.recorded
  {}

  /** The oldest signal is off the queue, and entered if it enters. */
  ghost predicate HandledAs(s: State, t: State, e: Event, cfg: Config)
    requires e.Handle? && s.queue != []
  {
    && t.queue == s.queue[1..] && t.staged == s.staged && t.recorded == s.recorded
    && (forall qty | Enters(s, e, cfg, qty) :: EnteredAs(s, t, s.queue[0], qty, e.fate))
    && ((forall qty :: !Enters(s, e, cfg, qty)) ==> t == s.(queue := s.queue[1..]))
  }

  /** Main result: every queued signal is taken off the queue; it enters exactly when it is
      shortable and a price affords a share, for the most shares the notional buys. */
  lemma HandleEffect(s: State, e: Event, cfg: Config)
    requires Inv(s, cfg) && e.Handle? && s.queue != []
    ensures HandledAs(s, Step(s, e, cfg), e, cfg)
  {
    var popped, n := s.(queue := s.queue[1..]), EntryQty(e.reply, cfg);
    PopKeepsInv(s, cfg);
    EntersOnce(s, e, cfg);
    if Gated(s, s.queue[0], e.now, e.active, cfg) && n > 0 {
      EnterEffect(popped, s.queue[0], n, e.fate);
      assert Enters(s, e, cfg, n);
    }
  }

  lemma EntersOnce(s: State, e: Event, cfg: Config)
    requires e.Handle? && s.queue != []
    ensures forall qty ::
              Enters(s, e, cfg, qty) <==>
                Gated(s, s.queue[0], e.now, e.active, cfg) && qty == EntryQty(e.reply, cfg) && qty > 0
  {
    GatedIsShortable(s, s.queue[0], e.now, e.active, cfg);
    if e.reply.Price? && e.reply.value.Some? {
      var price, n := e.reply.value.value, EntryQty(e.reply, cfg);
      Affordable(cfg.notional, price);
      forall qty | Affords(cfg.notional, price, qty) ensures qty == n {
        OnlyOneCount(cfg.notional, price, qty, n);
      }
    }
  }

  lemma GatedIsShortable(s: State, sig: Signal, now: Moment, active: set<R.Switch>, cfg: Config)
    ensures Gated(s, sig, now, active, cfg) <==> Shortable(s, sig, now, active, cfg)
  {
    E.EntryInRawTerms(sig.key.scanner, sig.volumeRatio, sig.failure, now, cfg.armed, |s.book|,
                      sig.key.ticker in s.book, cfg.maxConcurrent, cfg.minVolumeRatio);
    forall sw ensures sw in active * R.SCANNER_BLOCKERS <==> sw in active && sw != R.XStreamDisconnected {}
  }

  lemma OnlyOneCount(notional: real, price: real, a: int, b: int)
    requires Affords(notional, price, a) && Affords(notional, price, b)
    ensures a == b
  {
    E.Scale((a + 1) as real, b as real, price);
    E.Scale((b + 1) as real, a as real, price);
  }

  // ---- The hand-off ----------------------------------------------------------------------------------

  /** A new event is staged behind the others, the oldest staged one moves to the queue's end, and a
      raise in between loses what is staged. */
  lemma HandOffEffect(s: State, e: Event, cfg: Config)
    ensures e.Detect? ==>
              Step(s, e, cfg) == if e.raises || e.signal.key in s.recorded then s
                                 else s.(recorded := s.recorded + {e.signal.key}, staged := s.staged + [e.signal])
    ensures e.Enqueue? && s.staged != [] ==>
              Step(s, e, cfg) == s.(queue := s.queue + [s.staged[0]], staged := s.staged[1..])
    ensures e.Abandon? ==> Step(s, e, cfg) == s.(staged := [])
  {}

  // ---- The startup sweep -----------------------------------------------------------------------------

  /** What a sweep that gets past an open row makes of it: its live stop is cancelled if the cancel
      takes effect; a short that the broker still holds is covered, with the fill price and gross
      when the cover fills within the wait; otherwise the row is closed as an orphan. */
  ghost predicate SweptAs(s: State, t: State, k: nat, fate: RowFate)
    requires k < |s.rows|
  {
    var row := s.rows[k];
    && |t.rows| == |s.rows| && |s.orders| <= |t.orders|
    && t.rows[k] == row.(exit := t.rows[k].exit)
    && (row.stopOrder.Some? && row.stopOrder.value < |s.orders|
        && s.orders[row.stopOrder.value].status == Live && fate.cancelTakes ==>
          t.orders[row.stopOrder.value].status == Dead)
    && (!fate.shortHeld ==> t.rows[k].exit == Some(Exit(None, OrphanOnRestart, None, None)))
    && (fate.shortHeld ==>
          && t.rows[k].exit.Some? && t.rows[k].exit.value.order.Some?
          && var m := t.rows[k].exit.value.order.value;
             && |s.orders| <= m < |t.orders|
             && t.orders[m] == Order(row.key, Cover, row.qty, t.orders[m].status)
             && (fate.fill.FilledAt? ==>
                   && t.orders[m].status == Filled(fate.fill.price)
                   && t.rows[k].exit.value
                      == Exit(Some(fate.fill.price), RestartClose,
                              Some(E.ShortGrossCents(row.entryPrice, fate.fill.price, row.qty)), Some(m)))
             && (!fate.fill.FilledAt? ==> t.rows[k].exit.value == Exit(None, RestartClose, None, Some(m))))
  }

  /** Orders are added and cancelled, rows other than those from i on stay. */
  ghost predicate SweepsOn(s: State, t: State, i: nat) {
    && |t.rows| == |s.rows| && |s.orders| <= |t.orders|
    && (forall j | 0 <= j < i && j < |s.rows| :: t.rows[j] == s.rows[j])
    && (forall j | 0 <= j < |s.rows| && s.rows[j].exit.Some? :: t.rows[j] == s.rows[j])
    && (forall j | 0 <= j < |s.orders| ::
          t.orders[j] == s.orders[j] || (s.orders[j].status == Live && t.orders[j] == s.orders[j].(status := Dead)))
    && t.queue == s.queue && t.staged == s.staged && t.book == s.book && t.recorded == s.recorded
  }

  lemma {:induction false} SweepMovesOn(s: State, i: nat, fates: seq<RowFate>)
    ensures SweepsOn(s, SweepFrom(s, i, fates), i)
    decreases |s.rows| - i
  {
    if i < |s.rows| {
      if s.rows[i].exit.Some? {
        SweepMovesOn(s, i + 1, fates);
      } else if i < |fates| {
        var t := SweepRow(s, i, fates[i]);
        assert SweepsOn(s, t, i);
        if !Dies(fates[i]) {
          SweepMovesOn(t, i + 1, fates);
        }
      }
    }
  }

  lemma RowIsSwept(s: State, k: nat, fate: RowFate)
    requires k < |s.rows| && s.rows[k].exit.None?
    requires !(fate.writeRaises || (fate.shortHeld && (fate.submitRaises || fate.fill.WaitRaises?)))
    ensures SweptAs(s, SweepRow(s, k, fate), k, fate)
  {}

  lemma SweptStays(s: State, t: State, u: State, k: nat, fate: RowFate)
    requires k < |s.rows| && SweptAs(s, t, k, fate) && SweepsOn(t, u, k + 1)
    ensures SweptAs(s, u, k, fate)
  {}

  lemma EarlierRowsSweepOn(s: State, t: State, u: State, i: nat, k: nat, fate: RowFate)
    requires i < k < |s.rows| && SweepsOn(s, t, i) && t.rows[k] == s.rows[k]
    requires SweptAs(t, u, k, fate) && SweepsOn(t, u, i + 1)
    ensures SweptAs(s, u, k, fate)
  {}

  lemma {:induction false} SweepSweeps(s: State, i: nat, fates: seq<RowFate>, k: nat)
    requires i <= k < |s.rows| && s.rows[k].exit.None? && |fates| > k
    requires forall j | i <= j <= k && s.rows[j].exit.None? ::
               !(fates[j].writeRaises || (fates[j].shortHeld && (fates[j].submitRaises || fates[j].fill.WaitRaises?)))
    ensures SweptAs(s, SweepFrom(s, i, fates), k, fates[k])
    decreases |s.rows| - i
  {
    if s.rows[i].exit.Some? {
      SweepSweeps(s, i + 1, fates, k);
    } else {
      var t := SweepRow(s, i, fates[i]);
      assert SweepsOn(s, t, i) && forall j | i < j < |s.rows| :: t.rows[j] == s.rows[j];
      SweepMovesOn(t, i + 1, fates);
      if i == k {
        RowIsSwept(s, k, fates[k]);
        SweptStays(s, t, SweepFrom(t, i + 1, fates), k, fates[k]);
      } else {
        SweepSweeps(t, i + 1, fates, k);
        EarlierRowsSweepOn(s, t, SweepFrom(t, i + 1, fates), i, k, fates[k]);
      }
    }
  }

  /** Main result: a new process forgets the queue and the book, keeps every closed row, and sweeps
      every open row as long as nothing raises; when the rows or the broker's positions cannot be
      read it sweeps none. */
  lemma RestartEffect(s: State, startup: Startup, cfg: Config)
    ensures var t := Step(s, Restart(startup), cfg);
            && t.queue == [] && t.staged == [] && t.book == map[] && t.recorded == s.recorded
            && |t.rows| == |s.rows|
            && (forall j | 0 <= j < |s.rows| && s.rows[j].exit.Some? :: t.rows[j] == s.rows[j])
            && (!startup.Sweep? ==> t.rows == s.rows && t.orders == s.orders)
            && (startup.Sweep? ==> forall k: nat | Reaches(s, startup.fates, k) :: SweptAs(s, t, k, startup.fates[k]))
  {
    var forgotten := s.(staged := [], queue := [], book := map[]);
    if startup.Sweep? {
      SweepMovesOn(forgotten, 0, startup.fates);
      forall k: nat | Reaches(s, startup.fates, k)
        ensures SweptAs(s, Step(s, Restart(startup), cfg), k, startup.fates[k])
      {
        SweepSweeps(forgotten, 0, startup.fates, k);
      }
    }
  }

  /** The open row is swept: nothing raises on it or on an open row before it. */
  predicate Reaches(s: State, fates: seq<RowFate>, k: nat) {
    && k < |s.rows| && k < |fates| && s.rows[k].exit.None?
    && forall j | 0 <= j <= k && s.rows[j].exit.None? ::
         !(fates[j].writeRaises || (fates[j].shortHeld && (fates[j].submitRaises || fates[j].fill.WaitRaises?)))
  }
}
