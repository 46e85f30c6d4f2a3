/** What does complete in the scanner book, the cover that never does, and what the startup sweep
    buys against what the broker holds. */
module ScannerProgress {
  import opened Prelude
  import opened ScannerBook
  import opened ScannerSafety
  import opened ScannerOrders
  import T = ScannerBuys

  /** An accepted signal that runs to its end becomes one open row and one tracked short of the
      largest affordable size, with the buy-stop resting when the broker took it. */
  lemma EntryIsTracked(s: State, e: Event, cfg: Config)
    requires Inv(s, cfg) && e.Handle? && s.queue != []
    requires Gated(s, s.queue[0], e.now, e.active, cfg) && EntryQty(e.reply, cfg) > 0
    requires e.fate.Entered? && e.fate.rowWritten
    ensures var sig, qty := s.queue[0], EntryQty(e.reply, cfg);
            var t := Step(s, e, cfg);
            && sig.key.ticker in t.book && t.queue == s.queue[1..]
            && var r := t.book[sig.key.ticker];
               && r.key == sig.key && r.qty == qty && r.entryPrice == e.fate.price && r.exitOrder.None?
               && r.stopPrice == E.StopPriceFor(e.fate.price)
               && r.tradeId == Some(|s.rows|)
               && t.rows == s.rows + [Row(sig.key, qty, e.fate.price, r.stopOrder, None)]
               && (r.stopOrder.Some? <==> e.fate.stopAccepted)
               && (r.stopOrder.Some? ==> Is(t, r.stopOrder.value, StopBuy, sig.key) && t.orders[r.stopOrder.value].status.Live?)
  {
    PopKeepsInv(s, cfg);
  }

  // ---- A cover under way -------------------------------------------------------------------

  /** What the row of a short covered by order m says once m has filled. */
  predicate TellsCover(row: Row, r: Short, m: nat, price: real) {
    row.exit == Some(Exit(Some(price), if r.pendingReason.Some? then r.pendingReason.value else StopHit,
                          Some(E.ShortGrossCents(r.entryPrice, price, r.qty)), Some(m)))
  }

  /** The short r waits for its cover m, or its own row tells that cover's fill. */
  ghost predicate Covering(s: State, ticker: string, r: Short, m: nat) {
    && m < |s.orders| && r.tradeId.Some? && r.tradeId.value < |s.rows|
    && (s.rows[r.tradeId.value].exit.None? ==> ticker in s.book && s.book[ticker] == r)
    && (s.rows[r.tradeId.value].exit.Some? ==>
          s.orders[m].status.Filled? && TellsCover(s.rows[r.tradeId.value], r, m, s.orders[m].status.price))
  }

  /** Fills stay, closed rows stay, and the short waits on if its row is still open. */
  lemma OthersKeepCovering(s: State, t: State, ticker: string, r: Short, m: nat)
    requires Covering(s, ticker, r, m) && |s.orders| <= |t.orders| && |s.rows| <= |t.rows|
    requires s.orders[m].status.Filled? ==> t.orders[m].status == s.orders[m].status
    requires t.rows[r.tradeId.value].exit == s.rows[r.tradeId.value].exit
    requires ticker in s.book && s.book[ticker] == r && s.rows[r.tradeId.value].exit.None? ==>
               ticker in t.book && t.book[ticker] == r
    ensures Covering(t, ticker, r, m)
  {}

  lemma BookedKeepsCovering(
    s: State, cfg: Config, at: string, price: real, reason: Reason, order: nat, raises: bool, ticker: string, r: Short, m: nat)
    requires Inv(s, cfg) && Covering(s, ticker, r, m) && at in s.book
    requires s.rows[r.tradeId.value].exit.None? && at == ticker ==>
               && order == m && s.orders[m].status == Filled(price)
               && reason == if r.pendingReason.Some? then r.pendingReason.value else StopHit
    ensures Covering(Booked(s, at, price, reason, order, raises), ticker, r, m)
  {
    assert Tracks(s, at);
    if s.rows[r.tradeId.value].exit.None? {
      assert Tracks(s, ticker);
      assert s.book[at].tradeId == r.tradeId ==> s.book[at].key == r.key;
    }
  }

  lemma CloseKeepsCovering(
    s: State, cfg: Config, at: string, reason: Reason, env: CloseEnv, ticker: string, r: Short, m: nat)
    requires Inv(s, cfg) && Covering(s, ticker, r, m) && r.exitOrder.Some?
    requires at in s.book && s.book[at].exitOrder.None?
    ensures Covering(Close(s, at, reason, env), ticker, r, m)
  {
    var unprotected := Unprotect(s, at, env.cancelTakes);
    UnprotectKeepsInv(s, cfg, at, env.cancelTakes);
    OthersKeepCovering(s, unprotected, ticker, r, m);
    if !env.submitRaises {
      var covering := SendCover(unprotected, at, reason, env.fill);
      SendCoverKeepsInv(unprotected, cfg, at, reason, env.fill);
      OthersKeepCovering(unprotected, covering, ticker, r, m);
      if env.fill.FilledAt? {
        BookedKeepsCovering(covering, cfg, at, env.fill.price, reason, |s.orders|, env.bookRaises, ticker, r, m);
      }
    }
  }

  lemma AdvanceKeepsCovering(s: State, e: Event, cfg: Config, ticker: string, r: Short, m: nat)
    requires Inv(s, cfg) && Covering(s, ticker, r, m) && r.exitOrder == Some(m) && e.AdvanceShort?
    ensures Covering(Advance(s, e), ticker, r, m)
  {
    if e.ticker in s.book {
      var q := s.book[e.ticker];
      var exitPrice, stopPrice := FillPrice(s, q.exitOrder), FillPrice(s, q.stopOrder);
      var pending := if q.pendingReason.Some? then q.pendingReason.value else StopHit;
      if q.exitOrder.Some? {
        if exitPrice.Some? {
          BookedKeepsCovering(s, cfg, e.ticker, exitPrice.value, pending, q.exitOrder.value, e.env.bookRaises, ticker, r, m);
        }
      } else if stopPrice.Some? {
        BookedKeepsCovering(s, cfg, e.ticker, stopPrice.value, StopHit, q.stopOrder.value, e.env.bookRaises, ticker, r, m);
      } else {
        var exit := E.EvaluateExit(q.openedAt, q.stopPrice, e.now, if q.stopOrder.None? then e.quote else None);
        if exit.Some? {
          CloseKeepsCovering(s, cfg, e.ticker, Because(exit.value), e.env, ticker, r, m);
        }
      }
    }
  }

  lemma HandleKeepsCovering(s: State, e: Event, cfg: Config, ticker: string, r: Short, m: nat)
    requires Inv(s, cfg) && Covering(s, ticker, r, m) && e.Handle?
    ensures Covering(HandleSignal(s, e, cfg), ticker, r, m)
  {
    OthersKeepCovering(s, HandleSignal(s, e, cfg), ticker, r, m);
  }

  lemma StepKeepsCovering(s: State, e: Event, cfg: Config, ticker: string, r: Short, m: nat)
    requires Inv(s, cfg) && Covering(s, ticker, r, m) && r.exitOrder == Some(m) && !e.Restart?
    ensures Covering(Step(s, e, cfg), ticker, r, m)
  {
    match e
    case Handle(_, _, _, _) => HandleKeepsCovering(s, e, cfg, ticker, r, m);
    case AdvanceShort(_, _, _, _, _) => AdvanceKeepsCovering(s, e, cfg, ticker, r, m);
    case FlattenShort(at, env) =>
      if at in s.book && s.book[at].exitOrder.None? {
        CloseKeepsCovering(s, cfg, at, Because(E.EodFailsafe), env, ticker, r, m);
      }
    case Detect(_, _) => OthersKeepCovering(s, Step(s, e, cfg), ticker, r, m);
    case Enqueue => OthersKeepCovering(s, Step(s, e, cfg), ticker, r, m);
    case Abandon => OthersKeepCovering(s, Step(s, e, cfg), ticker, r, m);
    case BrokerFills(_, _) => OthersKeepCovering(s, Step(s, e, cfg), ticker, r, m);
    case BrokerKills(_) => OthersKeepCovering(s, Step(s, e, cfg), ticker, r, m);
  }

  lemma {:induction false} RunKeepsCovering(s: State, es: seq<Event>, cfg: Config, ticker: string, r: Short, m: nat)
    requires Inv(s, cfg) && Covering(s, ticker, r, m) && r.exitOrder == Some(m) && OneProcess(es)
    ensures Covering(Run(s, es, cfg), ticker, r, m)
  {
    if es != [] {
      var init := es[..|es| - 1];
      RunKeepsCovering(s, init, cfg, ticker, r, m);
      RunKeepsInv(s, init, cfg);
      StepKeepsCovering(Run(s, init, cfg), es[|es| - 1], cfg, ticker, r, m);
    }
  }

  /** Main result: whatever else happens in the process after a cover was accepted, flattens
      included, the short waits for that one order or its own row tells the order's fill, the
      remembered reason and the gross; and once the order has filled, the next visit that can
      read it and write the row closes it. */
  lemma CoverCompletes(s: State, es: seq<Event>, cfg: Config, ticker: string, m: nat, visit: Event)
    requires Inv(s, cfg) && OneProcess(es) && ticker in s.book && s.book[ticker].exitOrder == Some(m) && m < |s.orders|
    requires visit.AdvanceShort? && visit.ticker == ticker && !visit.readRaises && !visit.env.bookRaises
    ensures var r, t := s.book[ticker], Run(s, es, cfg);
            && Covering(t, ticker, r, m)
            && (t.orders[m].status.Filled? ==>
                  var u := Step(t, visit, cfg);
                  && Covering(u, ticker, r, m) && u.rows[r.tradeId.value].exit.Some?)
  {
    var r, t := s.book[ticker], Run(s, es, cfg);
    assert Tracks(s, ticker);
    RunKeepsCovering(s, es, cfg, ticker, r, m);
    RunKeepsInv(s, es, cfg);
    if t.orders[m].status.Filled? {
      StepKeepsCovering(t, visit, cfg, ticker, r, m);
      if t.rows[r.tradeId.value].exit.None? {
        assert Tracks(t, ticker);
      } else {
        ClosedRowsStay(t, visit, cfg, r.tradeId.value);
      }
    }
  }

  /** A visit never reopens a row. */
  lemma ClosedRowsStay(s: State, e: Event, cfg: Config, id: nat)
    requires e.AdvanceShort? && id < |s.rows| && s.rows[id].exit.Some?
    ensures id < |Step(s, e, cfg).rows| && Step(s, e, cfg).rows[id].exit.Some?
  {}

  /** A cover the broker kills is never sent again: within the process, the flatten included, the
      short stays tracked as it is and its row stays open. */
  lemma {:induction false} KilledCoverIsNeverResolved(s: State, es: seq<Event>, cfg: Config, ticker: string, m: nat)
    requires Inv(s, cfg) && OneProcess(es)
    requires ticker in s.book && s.book[ticker].exitOrder == Some(m) && m < |s.orders| && s.orders[m].status == Dead
    ensures var t := Run(s, es, cfg);
            && ticker in t.book && t.book[ticker] == s.book[ticker]
            && m < |t.orders| && t.orders[m].status == Dead
            && s.book[ticker].tradeId.value < |t.rows| && t.rows[s.book[ticker].tradeId.value].exit.None?
  {
    var r := s.book[ticker];
    assert Tracks(s, ticker);
    RunKeepsCovering(s, es, cfg, ticker, r, m);
    DeadStaysDead(s, es, cfg, m);
  }

  lemma DeadStaysDeadStep(s: State, e: Event, cfg: Config, m: nat)
    requires !e.Restart? && m < |s.orders| && s.orders[m].status == Dead
    ensures m < |Step(s, e, cfg).orders| && Step(s, e, cfg).orders[m].status == Dead
  {
    if e.AdvanceShort? && e.ticker in s.book {
      var q := s.book[e.ticker];
      var exit := E.EvaluateExit(q.openedAt, q.stopPrice, e.now, if q.stopOrder.None? then e.quote else None);
      if exit.Some? {
        DeadStaysDeadClose(s, e.ticker, Because(exit.value), e.env, m);
      }
    }
  }

  lemma DeadStaysDeadClose(s: State, at: string, reason: Reason, env: CloseEnv, m: nat)
    requires at in s.book && m < |s.orders| && s.orders[m].status == Dead
    ensures m < |Close(s, at, reason, env).orders| && Close(s, at, reason, env).orders[m].status == Dead
  {}

  lemma {:induction false} DeadStaysDead(s: State, es: seq<Event>, cfg: Config, m: nat)
    requires OneProcess(es) && m < |s.orders| && s.orders[m].status == Dead
    ensures m < |Run(s, es, cfg).orders| && Run(s, es, cfg).orders[m].status == Dead
  {
    if es != [] {
      DeadStaysDead(s, es[..|es| - 1], cfg, m);
      DeadStaysDeadStep(Run(s, es[..|es| - 1], cfg), es[|es| - 1], cfg, m);
    }
  }

  // ---- What the startup sweep buys ------------------------------------------------------------------

  /** The broker's short position in a ticker, as the sweep reads it once. */
  function Held(held: map<string, int>, ticker: string): int {
    if ticker in held then held[ticker] else 0
  }

  /** The sweep answers every open row from the one reading, which it never reduces. */
  ghost predicate AnswersFrom(rows: seq<Row>, held: map<string, int>, fates: seq<RowFate>) {
    && |fates| >= |rows|
    && forall i | 0 <= i < |rows| && rows[i].exit.None? ::
         fates[i].shortHeld == (Held(held, rows[i].key.ticker) >= rows[i].qty)
  }

  /** Shares of a ticker in open rows that fit the reading one by one, from row i on. */
  function FittingQty(rows: seq<Row>, held: map<string, int>, ticker: string, i: nat): int
    decreases |rows| - i
  {
    if i >= |rows| then 0
    else
      FittingQty(rows, held, ticker, i + 1)
      + if rows[i].exit.None? && rows[i].key.ticker == ticker && Held(held, ticker) >= rows[i].qty then rows[i].qty else 0
  }

  /** Shares of a ticker in covers from order base on. */
  function CoveredQty(orders: seq<Order>, base: nat, ticker: string): int {
    if |orders| <= base then 0
    else
      var last := orders[|orders| - 1];
      CoveredQty(orders[..|orders| - 1], base, ticker)
      + if last.kind.Cover? && last.key.ticker == ticker then last.qty else 0
  }

  lemma CoveredAppend(orders: seq<Order>, o: Order, base: nat, ticker: string)
    requires base <= |orders|
    ensures CoveredQty(orders + [o], base, ticker)
            == CoveredQty(orders, base, ticker) + if o.kind.Cover? && o.key.ticker == ticker then o.qty else 0
  {
    assert (orders + [o])[..|orders|] == orders;
  }

  lemma {:induction false} CoveredIgnoresStatus(a: seq<Order>, b: seq<Order>, base: nat, ticker: string)
    requires |a| == |b| && forall i | 0 <= i < |a| :: b[i] == a[i].(status := b[i].status)
    ensures CoveredQty(b, base, ticker) == CoveredQty(a, base, ticker)
  {
    if |a| > base {
      CoveredIgnoresStatus(a[..|a| - 1], b[..|b| - 1], base, ticker);
    }
  }

  lemma SweepRowBuys(s: State, i: nat, fate: RowFate, base: nat, ticker: string)
    requires i < |s.rows| && base <= |s.orders| && !Dies(fate)
    ensures var t := SweepRow(s, i, fate);
            && base <= |t.orders|
            && CoveredQty(t.orders, base, ticker) == CoveredQty(s.orders, base, ticker)
                 + if fate.shortHeld && s.rows[i].key.ticker == ticker then s.rows[i].qty else 0
  {
    var cancelled := Cancelled(s.orders, s.rows[i].stopOrder, fate.cancelTakes);
    CoveredIgnoresStatus(s.orders, cancelled, base, ticker);
    if fate.shortHeld {
      CoveredAppend(cancelled, SweepRow(s, i, fate).orders[|cancelled|], base, ticker);
    }
  }

  /** Rows from i on are untouched. */
  lemma SweepRowKeepsLater(s: State, i: nat, fate: RowFate)
    requires i < |s.rows|
    ensures forall j | i < j < |s.rows| :: SweepRow(s, i, fate).rows[j] == s.rows[j]
  {}

  lemma {:induction false} FittingReadsLater(
    rows: seq<Row>, more: seq<Row>, held: map<string, int>, ticker: string, i: nat)
    requires |more| == |rows| && forall j | i <= j < |rows| :: more[j] == rows[j]
    ensures FittingQty(more, held, ticker, i) == FittingQty(rows, held, ticker, i)
    decreases |rows| - i
  {
    if i < |rows| {
      FittingReadsLater(rows, more, held, ticker, i + 1);
    }
  }

  lemma {:induction false} SweepBuys(
    s: State, i: nat, held: map<string, int>, fates: seq<RowFate>, base: nat, ticker: string)
    requires |fates| >= |s.rows| && base <= |s.orders|
    requires forall j | i <= j < |s.rows| && s.rows[j].exit.None? ::
               fates[j].shortHeld == (Held(held, s.rows[j].key.ticker) >= s.rows[j].qty)
    requires forall j | 0 <= j < |fates| :: !Dies(fates[j])
    ensures CoveredQty(SweepFrom(s, i, fates).orders, base, ticker)
            == CoveredQty(s.orders, base, ticker) + FittingQty(s.rows, held, ticker, i)
    decreases |s.rows| - i
  {
    if i < |s.rows| {
      if s.rows[i].exit.Some? {
        SweepBuys(s, i + 1, held, fates, base, ticker);
      } else {
        var t := SweepRow(s, i, fates[i]);
        SweepRowBuys(s, i, fates[i], base, ticker);
        SweepRowKeepsLater(s, i, fates[i]);
        FittingReadsLater(s.rows, t.rows, held, ticker, i + 1);
        SweepBuys(t, i + 1, held, fates, base, ticker);
      }
    }
  }

  predicate IsOpenIn(row: Row, ticker: string) {
    row.exit.None? && row.key.ticker == ticker
  }

  lemma {:induction false} NoOpenRowNeedsNothing(rows: seq<Row>, held: map<string, int>, ticker: string, i: nat)
    requires forall j | i <= j < |rows| :: !IsOpenIn(rows[j], ticker)
    ensures FittingQty(rows, held, ticker, i) == 0
    decreases |rows| - i
  {
    if i < |rows| {
      assert !IsOpenIn(rows[i], ticker);
      NoOpenRowNeedsNothing(rows, held, ticker, i + 1);
    }
  }

  /** One open row of a ticker never covers more than the broker holds of it. */
  lemma {:induction false} LoneRowFits(rows: seq<Row>, held: map<string, int>, ticker: string, i: nat)
    requires Held(held, ticker) >= 0
    requires forall j, k | i <= j < k < |rows| :: !(IsOpenIn(rows[j], ticker) && IsOpenIn(rows[k], ticker))
    ensures FittingQty(rows, held, ticker, i) <= Held(held, ticker)
    decreases |rows| - i
  {
    if i < |rows| {
      if IsOpenIn(rows[i], ticker) {
        NoOpenRowNeedsNothing(rows, held, ticker, i + 1);
      } else {
        LoneRowFits(rows, held, ticker, i + 1);
      }
    }
  }

  /** Main result: a startup in which nothing raises covers, per ticker, exactly the open rows
      that fit the broker's short one by one, since the reading is never reduced. A ticker with at
      most one open row is never covered for more than is held. */
  lemma SweepCoversWhatFits(s: State, held: map<string, int>, fates: seq<RowFate>, cfg: Config, ticker: string)
    requires AnswersFrom(s.rows, held, fates) && forall j | 0 <= j < |fates| :: !Dies(fates[j])
    ensures var bought := CoveredQty(Step(s, Restart(Sweep(fates)), cfg).orders, |s.orders|, ticker);
            && bought == FittingQty(s.rows, held, ticker, 0)
            && (Held(held, ticker) >= 0
                && (forall j, k | 0 <= j < k < |s.rows| ::
                      !(IsOpenIn(s.rows[j], ticker) && IsOpenIn(s.rows[k], ticker)))
                ==> bought <= Held(held, ticker))
  {
    SweepBuys(s.(staged := [], queue := [], book := map[]), 0, held, fates, |s.orders|, ticker);
    if Held(held, ticker) >= 0
       && forall j, k | 0 <= j < k < |s.rows| :: !(IsOpenIn(s.rows[j], ticker) && IsOpenIn(s.rows[k], ticker)) {
      LoneRowFits(s.rows, held, ticker, 0);
    }
  }

  /** Shares the filled orders leave short of a ticker. */
  function NetShort(orders: seq<Order>, ticker: string): int {
    if orders == [] then 0
    else
      var last := orders[|orders| - 1];
      NetShort(orders[..|orders| - 1], ticker)
      + if last.key.ticker != ticker || !last.status.Filled? then 0
        else if last.kind.ShortSell? then last.qty else -last.qty
  }

  const NEXT_DAY := Key("failed_breakout", "X", 1)

  /** Two shorts of one ticker, the first stopped out. */
  function TwoShorts(qty: int): seq<Order> {
    [Order(T.KEY, ShortSell, qty, Filled(100.0)), Order(T.KEY, StopBuy, qty, Filled(101.0)),
     Order(NEXT_DAY, ShortSell, qty, Filled(100.0)), Order(NEXT_DAY, StopBuy, qty, Live)]
  }

  lemma OneIsStillHeld(qty: int)
    ensures NetShort(TwoShorts(qty), "X") == qty
  {
    var orders := TwoShorts(qty);
    assert orders[..3][..2] == orders[..2] && orders[..2][..1] == orders[..1] && orders[..1][..0] == [];
    assert NetShort(orders[..1], "X") == qty && NetShort(orders[..2], "X") == 0;
    assert NetShort(orders[..3], "X") == qty;
  }

  /** A startup sweep was deferred, the next day shorts the same ticker, and the first short's stop
      fills: both open rows are left. */
  lemma TwoOpenRows(cfg: Config) returns (es: seq<Event>, qty: int)
    requires T.Suits(cfg)
    ensures qty > 0
    ensures var s := Run(EMPTY, es, cfg);
            && s.orders == TwoShorts(qty)
            && s.rows == [Row(T.KEY, qty, 100.0, Some(1), None), Row(NEXT_DAY, qty, 100.0, Some(3), None)]
  {
    var first;
    first, qty := T.OneShort(cfg);
    var sig := Signal(NEXT_DAY, T.MORNING, Some(2.0));
    var again := first + [Restart(PositionsUnreadable)];
    var queued := again + [Detect(sig, false)] + [Enqueue];
    es := queued + [T.Entering()] + [BrokerFills(1, 101.0)];
    T.OneMore(first, Restart(PositionsUnreadable), cfg);
    T.OneMore(again, Detect(sig, false), cfg);
    T.OneMore(again + [Detect(sig, false)], Enqueue, cfg);
    T.OneMore(queued, T.Entering(), cfg);
    T.OneMore(queued + [T.Entering()], BrokerFills(1, 101.0), cfg);
    SecondShort(Run(EMPTY, queued, cfg), sig, qty, cfg);
  }

  lemma SecondShort(s: State, sig: Signal, qty: int, cfg: Config)
    requires T.Suits(cfg) && qty > 0 && qty == E.SharesForNotional(cfg.notional, 100.0)
    requires sig == Signal(NEXT_DAY, T.MORNING, Some(2.0)) && s.queue == [sig] && s.book == map[]
    requires s.rows == [Row(T.KEY, qty, 100.0, Some(1), None)]
    requires s.orders == [Order(T.KEY, ShortSell, qty, Filled(100.0)), Order(T.KEY, StopBuy, qty, Live)]
    ensures var t := Step(Step(s, T.Entering(), cfg), BrokerFills(1, 101.0), cfg);
            && t.orders == TwoShorts(qty)
            && t.rows == [Row(T.KEY, qty, 100.0, Some(1), None), Row(NEXT_DAY, qty, 100.0, Some(3), None)]
  {
    assert Gated(s, sig, T.MORNING, {}, cfg);
  }

  /** A run from the empty system after which both open rows of a ticker fit the one short the
      broker still holds, so that the sweep covers twice what is held. */
  lemma SweepCoversTooMuch(cfg: Config) returns (es: seq<Event>, held: map<string, int>, fates: seq<RowFate>)
    requires T.Suits(cfg)
    ensures var s := Run(EMPTY, es, cfg);
            && AnswersFrom(s.rows, held, fates) && (forall j | 0 <= j < |fates| :: !Dies(fates[j]))
            && 0 < Held(held, "X") == NetShort(s.orders, "X")
            && CoveredQty(Step(s, Restart(Sweep(fates)), cfg).orders, |s.orders|, "X") == 2 * Held(held, "X")
  {
    var qty;
    es, qty := TwoOpenRows(cfg);
    var fate := RowFate(true, true, false, NotYet, false);
    held, fates := map["X" := qty], [fate, fate];
    var s := Run(EMPTY, es, cfg);
    OneIsStillHeld(qty);
    assert FittingQty(s.rows, held, "X", 1) == qty;
    SweepCoversWhatFits(s, held, fates, cfg, "X");
  }
}
