/** The scanner book as the object main.py updates in place. Each method that the tick, the
    scanner thread or the startup calls makes steps of the specification machine and keeps the
    desk valid: hand-off, ledger and cap of ScannerSafety, and the single covers of
    ScannerOrders counted from the start of the process. */
module EquityDesk {
  import opened Prelude
  import opened RiskManager
  import opened ScannerBook
  import ScannerSafety
  import ScannerOrders

  /** What holds of every book a process can reach when it started with base orders. */
  ghost predicate Sound(s: State, cfg: Config, base: nat) {
    ScannerSafety.Inv(s, cfg) && ScannerOrders.Covers(s, base)
  }

  lemma StepIsSound(s: State, e: Event, cfg: Config, base: nat)
    requires Sound(s, cfg, base) && !e.Restart?
    ensures Sound(Step(s, e, cfg), cfg, base)
  {
    ScannerSafety.StepKeepsInv(s, e, cfg);
    ScannerOrders.StepKeepsCovers(s, e, cfg, base);
  }

  lemma RestartIsSound(s: State, startup: Startup, cfg: Config)
    requires ScannerSafety.Inv(s, cfg)
    ensures var t := Step(s, Restart(startup), cfg); Sound(t, cfg, |t.orders|)
  {
    ScannerSafety.RestartKeepsInv(s, cfg, startup);
    ScannerSafety.RestartEmptiesQueues(s, startup, cfg);
  }

  lemma RunSnoc(s: State, es: seq<Event>, e: Event, cfg: Config)
    ensures Run(s, es + [e], cfg) == Step(Run(s, es, cfg), e, cfg)
  {
    assert (es + [e])[..|es|] == es;
  }

  lemma {:induction false} RunConcat(s: State, es: seq<Event>, more: seq<Event>, cfg: Config)
    ensures Run(s, es + more, cfg) == Run(Run(s, es, cfg), more, cfg)
  {
    if more == [] {
      assert es + more == es;
    } else {
      var init, last := more[..|more| - 1], more[|more| - 1];
      RunConcat(s, es, init, cfg);
      RunSnoc(s, es + init, last, cfg);
      assert es + more == es + init + [last];
    }
  }

  lemma {:induction false} RunOneMore(s: State, es: seq<Event>, i: nat, cfg: Config)
    requires i < |es|
    ensures Run(s, es[..i + 1], cfg) == Step(Run(s, es[..i], cfg), es[i], cfg)
  {
    assert es[..i + 1][..i] == es[..i];
  }

  class Desk {
    var recorded: set<Key>
    var staged: seq<Signal>
    var queue: seq<Signal>
    var book: map<string, Short>
    var rows: seq<Row>
    var orders: seq<Order>
    const cfg: Config
    /** How many orders there were when the process started. */
    ghost var base: nat

    constructor (cfg: Config)
      ensures Valid() && View() == EMPTY && this.cfg == cfg && base == 0
    {
      base := 0;
      recorded, staged, queue, book, rows, orders := {}, [], [], map[], [], [];
      this.cfg := cfg;
    }

    ghost function View(): State
      reads this
    {
      State(recorded, staged, queue, book, rows, orders)
    }

    ghost predicate Valid()
      reads this
    {
      Sound(View(), cfg, base)
    }

    // ---- Broker and journal ---------------------------------------------------------

    method Submit(key: Key, kind: Kind, qty: int, status: Status) returns (id: nat)
      modifies this`orders
      ensures orders == old(orders) + [Order(key, kind, qty, status)] && id == |old(orders)|
    {
      id := |orders|;
      orders := orders + [Order(key, kind, qty, status)];
    }

    /** cancel_order swallows every failure. */
    method CancelOrder(id: nat, takes: bool)
      modifies this`orders
      ensures orders == Cancelled(old(orders), Some(id), takes)
    {
      if id < |orders| && orders[id].status == Live && takes {
        orders := orders[id := orders[id].(status := Dead)];
      }
    }

    /** get_order: the fill price once the order is filled. */
    method GetFill(id: nat) returns (price: Option<real>)
      ensures price == FillPrice(View(), Some(id))
    {
      if id < |orders| && orders[id].status.Filled? {
        return Some(orders[id].status.price);
      }
      return None;
    }

    /** insert_scanner_event: true on an actual insert. */
    method RecordScannerEvent(sig: Signal, raises: bool) returns (inserted: bool)
      requires Valid()
      modifies this`recorded, this`staged
      ensures Valid() && View() == Step(old(View()), Detect(sig, raises), cfg)
      ensures inserted <==> !raises && sig.key !in old(recorded)
    {
      StepIsSound(View(), Detect(sig, raises), cfg, base);
      if raises || sig.key in recorded {
        return false;
      }
      recorded := recorded + {sig.key};
      staged := staged + [sig];
      return true;
    }

    /** insert_scanner_trade: nothing when the unique guard blocks the row. */
    method InsertScannerTrade(row: Row) returns (id: Option<nat>)
      modifies this`rows
      ensures row.key in RowKeys(old(rows)) ==> id == None && rows == old(rows)
      ensures row.key !in RowKeys(old(rows)) ==> id == Some(|old(rows)|) && rows == old(rows) + [row]
    {
      if row.key in RowKeys(rows) {
        return None;
      }
      id := Some(|rows|);
      rows := rows + [row];
    }

    // ---- Entries ----------------------------------------------------------------------

    method EnqueueScannerSignal()
      requires Valid()
      modifies this`staged, this`queue
      ensures Valid() && View() == Step(old(View()), Enqueue, cfg)
      ensures queue + staged == old(queue + staged)
    {
      StepIsSound(View(), Enqueue, cfg, base);
      if staged != [] {
        queue := queue + [staged[0]];
        staged := staged[1..];
      }
    }

    /** What a raise in the hand-over loop leaves: the rest of the scan is lost. */
    method AbandonScan()
      requires Valid()
      modifies this`staged
      ensures Valid() && View() == Step(old(View()), Abandon, cfg)
    {
      StepIsSound(View(), Abandon, cfg, base);
      staged := [];
    }

    method HandleScannerSignal(e: Event)
      requires Valid() && e.Handle?
      modifies this`queue, this`orders, this`rows, this`book
      ensures Valid() && View() == Step(old(View()), e, cfg)
      ensures queue == if old(queue) == [] then [] else old(queue)[1..]
      ensures e.active * SCANNER_BLOCKERS != {} ==> orders == old(orders)
    {
      StepIsSound(View(), e, cfg, base);
      if queue == [] {
        return;
      }
      var sig := queue[0];
      queue := queue[1..];
      var decision := E.EvaluateEntry(sig.key.scanner, sig.volumeRatio, sig.failure, e.now, cfg.armed, |book|,
                                      sig.key.ticker in book, cfg.maxConcurrent, cfg.minVolumeRatio);
      if decision != E.Accepted {
        return;
      }
      var blocked := e.active * SCANNER_BLOCKERS;
      if blocked != {} {
        return;
      }
      OpenEquityShort(sig, e.reply, e.fate);
    }

    method OpenEquityShort(sig: Signal, reply: PriceReply, fate: EntryFate)
      modifies this`orders, this`rows, this`book
      ensures View() == if EntryQty(reply, cfg) > 0 then Enter(old(View()), sig, EntryQty(reply, cfg), fate)
                        else old(View())
    {
      if reply.PriceRaises? || reply.value.None? || reply.value.value <= 0.0 {
        return;
      }
      var qty := E.SharesForNotional(cfg.notional, reply.value.value);
      if qty <= 0 {
        return;
      }
      if fate.SubmitRejected? {
        return;
      }
      if fate.EntryPollRaises? {
        var _ := Submit(sig.key, ShortSell, qty, Live);
        return;
      }
      if fate.Unfilled? {
        var entry := Submit(sig.key, ShortSell, qty, Live);
        CancelOrder(entry, fate.cancelTakes);
        return;
      }
      var _ := Submit(sig.key, ShortSell, qty, Filled(fate.price));
      var stopPrice := E.StopPriceFor(fate.price);
      var stopOrder: Option<nat> := None;
      if fate.stopAccepted {
        var id := Submit(sig.key, StopBuy, qty, Live);
        stopOrder := Some(id);
      }
      if !fate.rowWritten {
        return;
      }
      var tradeId := InsertScannerTrade(Row(sig.key, qty, fate.price, stopOrder, None));
      book := book[sig.key.ticker :=
        Short(sig.key, tradeId, qty, fate.price, fate.at, stopPrice, stopOrder, None, None)];
    }

    /** _drain_scanner_signal_queue: one reply per queued signal. */
    method DrainScannerSignalQueue(replies: seq<Event>)
      requires Valid() && |replies| == |queue| && forall i | 0 <= i < |replies| :: replies[i].Handle?
      modifies this`queue, this`orders, this`rows, this`book
      ensures Valid() && View() == Run(old(View()), replies, cfg)
      ensures queue == []
    {
      var i := 0;
      while queue != []
        invariant Valid()
        invariant 0 <= i <= |replies| && |queue| == |replies| - i
        invariant View() == Run(old(View()), replies[..i], cfg)
      {
        RunOneMore(old(View()), replies, i, cfg);
        HandleScannerSignal(replies[i]);
        i := i + 1;
      }
      assert replies[..i] == replies;
    }

    // ---- Exits -------------------------------------------------------------------------

    method BookEquityClose(ticker: string, price: real, reason: Reason, order: nat, raises: bool)
      requires ticker in book
      modifies this`rows, this`book
      ensures View() == Booked(old(View()), ticker, price, reason, order, raises)
    {
      var record := book[ticker];
      if record.tradeId.Some? && record.tradeId.value < |rows| {
        if raises {
          return;
        }
        var gross := E.ShortGrossCents(record.entryPrice, price, record.qty);
        var id := record.tradeId.value;
        rows := rows[id := rows[id].(exit := Some(Exit(Some(price), reason, Some(gross), Some(order))))];
      }
      book := book - {ticker};
    }

    method CloseEquityPosition(ticker: string, reason: Reason, env: CloseEnv)
      requires ticker in book
      modifies this`rows, this`book, this`orders
      ensures View() == Close(old(View()), ticker, reason, env)
    {
      var record := book[ticker];
      if record.stopOrder.Some? {
        CancelOrder(record.stopOrder.value, env.cancelTakes);
        record := record.(stopOrder := None);
      }
      book := book[ticker := record];
      if env.submitRaises {
        return;
      }
      var cover := Submit(record.key, Cover, record.qty, if env.fill.FilledAt? then Filled(env.fill.price) else Live);
      book := book[ticker := record.(exitOrder := Some(cover), pendingReason := Some(reason))];
      if env.fill.FilledAt? {
        BookEquityClose(ticker, env.fill.price, reason, cover, env.bookRaises);
      }
    }

    method AdvanceEquityPosition(ticker: string, now: Moment, readRaises: bool, quote: Option<real>, env: CloseEnv)
      requires Valid()
      modifies this`rows, this`book, this`orders
      ensures Valid() && View() == Step(old(View()), AdvanceShort(ticker, now, readRaises, quote, env), cfg)
    {
      StepIsSound(View(), AdvanceShort(ticker, now, readRaises, quote, env), cfg, base);
      PollAndExit(ticker, now, readRaises, quote, env);
    }

    /** Cover poll, stop poll, exit rules. */
    method PollAndExit(ticker: string, now: Moment, readRaises: bool, quote: Option<real>, env: CloseEnv)
      modifies this`rows, this`book, this`orders
      ensures View() == Step(old(View()), AdvanceShort(ticker, now, readRaises, quote, env), cfg)
    {
      if ticker !in book {
        return;
      }
      var record := book[ticker];
      if record.exitOrder.Some? {
        if readRaises {
          return;
        }
        var price := GetFill(record.exitOrder.value);
        if price.Some? {
          var reason := if record.pendingReason.Some? then record.pendingReason.value else StopHit;
          BookEquityClose(ticker, price.value, reason, record.exitOrder.value, env.bookRaises);
        }
        return;
      }
      if record.stopOrder.Some? {
        if readRaises {
          return;
        }
        var price := GetFill(record.stopOrder.value);
        if price.Some? {
          BookEquityClose(ticker, price.value, StopHit, record.stopOrder.value, env.bookRaises);
          return;
        }
      }
      var current := if record.stopOrder.None? then quote else None;
      var reason := E.EvaluateExit(record.openedAt, record.stopPrice, now, current);
      if reason.Some? {
        CloseEquityPosition(ticker, Because(reason.value), env);
      }
    }

    /** One short of the 15:55 flatten. */
    method FlattenEquityPosition(ticker: string, env: CloseEnv)
      requires Valid()
      modifies this`rows, this`book, this`orders
      ensures Valid() && View() == Step(old(View()), FlattenShort(ticker, env), cfg)
    {
      StepIsSound(View(), FlattenShort(ticker, env), cfg, base);
      if ticker in book && book[ticker].exitOrder.None? {
        CloseEquityPosition(ticker, Because(E.EodFailsafe), env);
      }
    }

    /** _advance_equity_positions and _flatten_equity_positions: one entry per short, a failure
        in one never stops the rest. */
    method AdvanceEquityPositions(steps: seq<Event>)
      requires Valid() && forall i | 0 <= i < |steps| :: steps[i].AdvanceShort? || steps[i].FlattenShort?
      modifies this`rows, this`book, this`orders
      ensures Valid() && View() == Run(old(View()), steps, cfg)
    {
      for i := 0 to |steps|
        invariant Valid()
        invariant View() == Run(old(View()), steps[..i], cfg)
      {
        RunOneMore(old(View()), steps, i, cfg);
        match steps[i] {
          case AdvanceShort(ticker, now, readRaises, quote, env) =>
            AdvanceEquityPosition(ticker, now, readRaises, quote, env);
          case FlattenShort(ticker, env) =>
            FlattenEquityPosition(ticker, env);
        }
      }
      assert steps[..|steps|] == steps;
    }

    // ---- Startup ------------------------------------------------------------------------

    /** A new process: memory is empty, then the sweep of _reconcile_scanner_trades_on_startup
        runs until a call raises. */
    method ReconcileOnStartup(startup: Startup)
      requires Valid()
      modifies this
      ensures Valid() && View() == Step(old(View()), Restart(startup), cfg)
      ensures base == |orders| && book == map[] && queue == [] && staged == []
    {
      RestartIsSound(View(), startup, cfg);
      ScannerSafety.RestartEmptiesQueues(View(), startup, cfg);
      Sweep(startup);
      base := |orders|;
    }

    method Sweep(startup: Startup)
      modifies this`staged, this`queue, this`book, this`rows, this`orders
      ensures View() == Step(old(View()), Restart(startup), cfg)
    {
      staged, queue, book := [], [], map[];
      if !startup.Sweep? {
        return;
      }
      ghost var restarted := View();
      var i := 0;
      while i < |rows|
        invariant 0 <= i <= |rows| == |restarted.rows|
        invariant SweepFrom(View(), i, startup.fates) == SweepFrom(restarted, 0, startup.fates)
        decreases |rows| - i
      {
        var row := rows[i];
        if row.exit.None? {
          if i >= |startup.fates| {
            return;
          }
          var alive := SweepOne(i, startup.fates[i]);
          if !alive {
            return;
          }
        }
        i := i + 1;
      }
    }

    method SweepOne(i: nat, fate: RowFate) returns (alive: bool)
      requires i < |rows|
      modifies this`rows, this`orders
      ensures View() == SweepRow(old(View()), i, fate)
      ensures alive <==> !Dies(fate)
    {
      var row := rows[i];
      if row.stopOrder.Some? {
        CancelOrder(row.stopOrder.value, fate.cancelTakes);
      }
      if !fate.shortHeld {
        if fate.writeRaises {
          return false;
        }
        rows := rows[i := row.(exit := Some(Exit(None, OrphanOnRestart, None, None)))];
        return true;
      }
      if fate.submitRaises {
        return false;
      }
      var cover := Submit(row.key, Cover, row.qty, if fate.fill.FilledAt? then Filled(fate.fill.price) else Live);
      if fate.fill.WaitRaises? || fate.writeRaises {
        return false;
      }
      var price: Option<real> := None;
      var gross: Option<int> := None;
      if fate.fill.FilledAt? {
        price := Some(fate.fill.price);
        gross := Some(E.ShortGrossCents(row.entryPrice, fate.fill.price, row.qty));
      }
      rows := rows[i := row.(exit := Some(Exit(price, RestartClose, gross, Some(cover))))];
      return true;
    }
  }
}
