/** Safety of the scanner book over all runs. */
module ScannerSafety {
  import opened Prelude
  import opened ScannerBook

  // ---- The hand-off: events, queue and table keys ---------------------------------

  /** Signals recorded but not yet handled, oldest first. */
  function Waiting(s: State): seq<Signal> {
    s.queue + s.staged
  }

  /** The key is recorded and is not waiting any more. */
  ghost predicate Spent(s: State, k: Key) {
    k in s.recorded && forall i | 0 <= i < |Waiting(s)| :: Waiting(s)[i].key != k
  }

  /** Waiting signals have distinct recorded keys; table rows have distinct keys; rows and
      broker orders only ever carry spent keys. */
  ghost predicate HandOff(s: State) {
    && (forall i, j | 0 <= i < j < |Waiting(s)| :: Waiting(s)[i].key != Waiting(s)[j].key)
    && (forall i | 0 <= i < |Waiting(s)| :: Waiting(s)[i].key in s.recorded)
    && (forall i, j | 0 <= i < j < |s.rows| :: s.rows[i].key != s.rows[j].key)
    && (forall i | 0 <= i < |s.rows| :: Spent(s, s.rows[i].key))
    && (forall i | 0 <= i < |s.orders| :: Spent(s, s.orders[i].key))
  }

  /** Every tracked short holds the id of its own open row. */
  ghost predicate Ledger(s: State) {
    forall t <- s.book :: Tracks(s, t)
  }

  ghost predicate Tracks(s: State, t: string)
    requires t in s.book
  {
    var r := s.book[t];
    && r.key.ticker == t
    && r.tradeId.Some? && r.tradeId.value < |s.rows|
    && var row := s.rows[r.tradeId.value];
       row.key == r.key && row.exit.None? && row.qty == r.qty && row.entryPrice == r.entryPrice
  }

  ghost predicate Inv(s: State, cfg: Config) {
    HandOff(s) && Ledger(s) && |s.book| <= cfg.maxConcurrent
  }

  /** An update that only appends orders with spent keys or changes statuses. */
  ghost predicate OrdersGrow(s: State, t: State) {
    && |s.orders| <= |t.orders|
    && (forall i | 0 <= i < |s.orders| :: t.orders[i].key == s.orders[i].key)
    && (forall i | |s.orders| <= i < |t.orders| :: Spent(s, t.orders[i].key))
  }

  lemma OrdersKeepHandOff(s: State, t: State)
    requires HandOff(s) && OrdersGrow(s, t)
    requires t.recorded == s.recorded && t.staged == s.staged && t.queue == s.queue
    requires |t.rows| == |s.rows| && forall i | 0 <= i < |s.rows| :: t.rows[i].key == s.rows[i].key
    ensures HandOff(t)
  {
    assert Waiting(t) == Waiting(s);
    forall k | Spent(s, k) ensures Spent(t, k) {}
    forall i | 0 <= i < |t.orders| ensures Spent(t, t.orders[i].key) {
      assert i < |s.orders| ==> Spent(s, s.orders[i].key);
    }
    forall i | 0 <= i < |t.rows| ensures Spent(t, t.rows[i].key) {
      assert Spent(s, s.rows[i].key);
    }
  }

  lemma TrackedIsSpent(s: State, t: string)
    requires HandOff(s) && t in s.book && Tracks(s, t)
    ensures Spent(s, s.book[t].key)
  {}

  lemma BookedKeepsInv(s: State, cfg: Config, ticker: string, price: real, reason: Reason, order: nat, raises: bool)
    requires Inv(s, cfg) && ticker in s.book
    ensures Inv(Booked(s, ticker, price, reason, order, raises), cfg)
  {
    var t := Booked(s, ticker, price, reason, order, raises);
    assert Tracks(s, ticker);
    assert OrdersGrow(s, t);
    OrdersKeepHandOff(s, t);
    forall u <- t.book ensures Tracks(t, u) {
      assert Tracks(s, u);
    }
  }

  lemma UnprotectKeepsInv(s: State, cfg: Config, ticker: string, takes: bool)
    requires Inv(s, cfg) && ticker in s.book
    ensures Inv(Unprotect(s, ticker, takes), cfg)
  {
    RetrackKeepsInv(s, cfg, Unprotect(s, ticker, takes), ticker);
  }

  lemma SendCoverKeepsInv(s: State, cfg: Config, ticker: string, reason: Reason, fill: FillReply)
    requires Inv(s, cfg) && ticker in s.book
    ensures Inv(SendCover(s, ticker, reason, fill), cfg)
  {
    TrackedIsSpent(s, ticker);
    RetrackKeepsInv(s, cfg, SendCover(s, ticker, reason, fill), ticker);
  }

  lemma CloseKeepsInv(s: State, cfg: Config, ticker: string, reason: Reason, env: CloseEnv)
    requires Inv(s, cfg) && ticker in s.book
    ensures Inv(Close(s, ticker, reason, env), cfg)
  {
    var unprotected := Unprotect(s, ticker, env.cancelTakes);
    UnprotectKeepsInv(s, cfg, ticker, env.cancelTakes);
    if !env.submitRaises {
      SendCoverKeepsInv(unprotected, cfg, ticker, reason, env.fill);
      if env.fill.FilledAt? {
        BookedKeepsInv(SendCover(unprotected, ticker, reason, env.fill), cfg, ticker, env.fill.price, reason,
                       |s.orders|, env.bookRaises);
      }
    }
  }

  lemma RetrackKeepsInv(s: State, cfg: Config, t: State, ticker: string)
    requires Inv(s, cfg) && ticker in s.book && OrdersGrow(s, t)
    requires t == s.(orders := t.orders, book := t.book)
    requires t.book.Keys == s.book.Keys
    requires forall u <- s.book :: u != ticker ==> t.book[u] == s.book[u]
    requires var r := s.book[ticker];
             t.book[ticker] == r.(stopOrder := t.book[ticker].stopOrder, exitOrder := t.book[ticker].exitOrder,
                                  pendingReason := t.book[ticker].pendingReason)
    ensures Inv(t, cfg)
  {
    OrdersKeepHandOff(s, t);
    forall u <- t.book ensures Tracks(t, u) {
      assert Tracks(s, u);
    }
    assert |t.book| == |t.book.Keys| == |s.book.Keys|;
  }

  lemma PopKeepsInv(s: State, cfg: Config)
    requires Inv(s, cfg) && s.queue != []
    ensures Inv(s.(queue := s.queue[1..]), cfg)
    ensures Spent(s.(queue := s.queue[1..]), s.queue[0].key)
    ensures forall i | 0 <= i < |s.orders| :: s.orders[i].key != s.queue[0].key
    ensures s.queue[0].key !in RowKeys(s.rows)
  {
    var t := s.(queue := s.queue[1..]);
    assert Waiting(t) == Waiting(s)[1..];
    assert Waiting(s)[0] == s.queue[0];
    forall k | Spent(s, k) ensures Spent(t, k) {}
    forall u <- t.book ensures Tracks(t, u) {
      assert Tracks(s, u);
    }
    forall i | 0 <= i < |t.rows| ensures Spent(t, t.rows[i].key) {
      assert Spent(s, s.rows[i].key);
    }
    forall i | 0 <= i < |t.orders| ensures Spent(t, t.orders[i].key) {
      assert Spent(s, s.orders[i].key);
    }
  }

  /** The broker's part of an entry. */
  lemma EntryOrdersKeepInv(s: State, cfg: Config, sig: Signal, qty: int, fate: EntryFate)
    requires Inv(s, cfg) && Spent(s, sig.key)
    ensures Inv(s.(orders := Enter(s, sig, qty, fate).orders), cfg)
  {
    var ordered := s.(orders := Enter(s, sig, qty, fate).orders);
    assert OrdersGrow(s, ordered);
    OrdersKeepHandOff(s, ordered);
    forall u <- s.book ensures Tracks(ordered, u) {
      assert Tracks(s, u);
    }
  }

  /** The journal's part of an entry: one more row, one more tracked short. */
  lemma OpenRowKeepsInv(s: State, cfg: Config, row: Row, short: Short)
    requires Inv(s, cfg) && Spent(s, row.key)
    requires row.key.ticker !in s.book && |s.book| < cfg.maxConcurrent
    requires row.key !in RowKeys(s.rows)
    requires row.exit.None? && short.key == row.key && short.qty == row.qty && short.entryPrice == row.entryPrice
    requires short.tradeId == Some(|s.rows|)
    ensures Inv(s.(rows := s.rows + [row], book := s.book[row.key.ticker := short]), cfg)
  {
    var t := s.(rows := s.rows + [row], book := s.book[row.key.ticker := short]);
    assert Waiting(t) == Waiting(s);
    forall k | Spent(s, k) ensures Spent(t, k) {}
    forall i | 0 <= i < |s.rows| ensures s.rows[i].key != row.key {
      assert s.rows[i] in s.rows;
    }
    forall i | 0 <= i < |t.rows| ensures Spent(t, t.rows[i].key) {
      assert i < |s.rows| ==> Spent(s, s.rows[i].key);
    }
    forall i | 0 <= i < |t.orders| ensures Spent(t, t.orders[i].key) {
      assert Spent(s, s.orders[i].key);
    }
    forall u <- t.book ensures Tracks(t, u) {
      if u != row.key.ticker {
        assert Tracks(s, u);
      }
    }
  }

  lemma EnterKeepsInv(s: State, cfg: Config, sig: Signal, qty: int, fate: EntryFate)
    requires Inv(s, cfg) && Spent(s, sig.key)
    requires sig.key.ticker !in s.book && |s.book| < cfg.maxConcurrent
    requires sig.key !in RowKeys(s.rows)
    ensures Inv(Enter(s, sig, qty, fate), cfg)
  {
    var t := Enter(s, sig, qty, fate);
    var ordered := s.(orders := t.orders);
    EntryOrdersKeepInv(s, cfg, sig, qty, fate);
    if fate.Entered? && fate.rowWritten {
      assert Waiting(ordered) == Waiting(s);
      OpenRowKeepsInv(ordered, cfg, t.rows[|s.rows|], t.book[sig.key.ticker]);
    }
  }

  lemma SweepRowKeepsInv(s: State, cfg: Config, i: nat, fate: RowFate)
    requires Inv(s, cfg) && s.book == map[]
    requires i < |s.rows|
    ensures Inv(SweepRow(s, i, fate), cfg)
  {
    var t := SweepRow(s, i, fate);
    assert Spent(s, s.rows[i].key);
    assert OrdersGrow(s, t);
    OrdersKeepHandOff(s, t);
  }

  lemma {:induction false} SweepKeepsInv(s: State, cfg: Config, i: nat, fates: seq<RowFate>)
    requires Inv(s, cfg) && s.book == map[]
    ensures Inv(SweepFrom(s, i, fates), cfg)
    ensures SweepFrom(s, i, fates).book == map[]
    decreases |s.rows| - i
  {
    if i < |s.rows| {
      if s.rows[i].exit.Some? {
        SweepKeepsInv(s, cfg, i + 1, fates);
      } else if i < |fates| {
        SweepRowKeepsInv(s, cfg, i, fates[i]);
        if !Dies(fates[i]) {
          SweepKeepsInv(SweepRow(s, i, fates[i]), cfg, i + 1, fates);
        }
      }
    }
  }

  lemma RestartKeepsInv(s: State, cfg: Config, startup: Startup)
    requires Inv(s, cfg)
    ensures Inv(Step(s, Restart(startup), cfg), cfg)
  {
    var t := s.(staged := [], queue := [], book := map[]);
    forall i | 0 <= i < |t.rows| ensures Spent(t, t.rows[i].key) {
      assert Spent(s, s.rows[i].key);
    }
    forall i | 0 <= i < |t.orders| ensures Spent(t, t.orders[i].key) {
      assert Spent(s, s.orders[i].key);
    }
    if startup.Sweep? {
      SweepKeepsInv(t, cfg, 0, startup.fates);
    }
  }

  lemma DetectKeepsInv(s: State, cfg: Config, sig: Signal)
    requires Inv(s, cfg) && sig.key !in s.recorded
    ensures Inv(s.(recorded := s.recorded + {sig.key}, staged := s.staged + [sig]), cfg)
  {
    var t := s.(recorded := s.recorded + {sig.key}, staged := s.staged + [sig]);
    assert Waiting(t) == Waiting(s) + [sig];
    forall k | Spent(s, k) ensures Spent(t, k) {}
    forall i | 0 <= i < |t.rows| ensures Spent(t, t.rows[i].key) {
      assert Spent(s, s.rows[i].key);
    }
    forall i | 0 <= i < |t.orders| ensures Spent(t, t.orders[i].key) {
      assert Spent(s, s.orders[i].key);
    }
    forall u <- t.book ensures Tracks(t, u) {
      assert Tracks(s, u);
    }
  }

  lemma EnqueueKeepsInv(s: State, cfg: Config)
    requires Inv(s, cfg) && s.staged != []
    ensures Inv(s.(staged := s.staged[1..], queue := s.queue + [s.staged[0]]), cfg)
  {
    var t := s.(staged := s.staged[1..], queue := s.queue + [s.staged[0]]);
    assert Waiting(t) == Waiting(s);
    forall k | Spent(s, k) ensures Spent(t, k) {}
    forall i | 0 <= i < |t.rows| ensures Spent(t, t.rows[i].key) {
      assert Spent(s, s.rows[i].key);
    }
    forall i | 0 <= i < |t.orders| ensures Spent(t, t.orders[i].key) {
      assert Spent(s, s.orders[i].key);
    }
    forall u <- t.book ensures Tracks(t, u) {
      assert Tracks(s, u);
    }
  }

  lemma AbandonKeepsInv(s: State, cfg: Config)
    requires Inv(s, cfg)
    ensures Inv(s.(staged := []), cfg)
  {
    var t := s.(staged := []);
    assert forall i | 0 <= i < |Waiting(t)| :: Waiting(t)[i] == Waiting(s)[i];
    forall i | 0 <= i < |t.rows| ensures Spent(t, t.rows[i].key) {
      assert Spent(s, s.rows[i].key);
    }
    forall i | 0 <= i < |t.orders| ensures Spent(t, t.orders[i].key) {
      assert Spent(s, s.orders[i].key);
    }
    forall u <- t.book ensures Tracks(t, u) {
      assert Tracks(s, u);
    }
  }

  lemma AdvanceKeepsInv(s: State, e: Event, cfg: Config)
    requires Inv(s, cfg) && e.AdvanceShort?
    ensures Inv(Advance(s, e), cfg)
  {
    if e.ticker in s.book {
      var r := s.book[e.ticker];
      var stopPrice, exitPrice := FillPrice(s, r.stopOrder), FillPrice(s, r.exitOrder);
      var pending := if r.pendingReason.Some? then r.pendingReason.value else StopHit;
      if r.exitOrder.Some? && exitPrice.Some? {
        BookedKeepsInv(s, cfg, e.ticker, exitPrice.value, pending, r.exitOrder.value, e.env.bookRaises);
      } else if r.stopOrder.Some? && stopPrice.Some? {
        BookedKeepsInv(s, cfg, e.ticker, stopPrice.value, StopHit, r.stopOrder.value, e.env.bookRaises);
      } else {
        var exit := E.EvaluateExit(r.openedAt, r.stopPrice, e.now, if r.stopOrder.None? then e.quote else None);
        if exit.Some? {
          CloseKeepsInv(s, cfg, e.ticker, Because(exit.value), e.env);
        }
      }
    }
  }

  lemma BrokerKeepsInv(s: State, cfg: Config, id: nat, status: Status)
    requires Inv(s, cfg) && id < |s.orders|
    ensures Inv(s.(orders := s.orders[id := s.orders[id].(status := status)]), cfg)
  {
    var t := s.(orders := s.orders[id := s.orders[id].(status := status)]);
    assert OrdersGrow(s, t);
    OrdersKeepHandOff(s, t);
    forall u <- t.book ensures Tracks(t, u) {
      assert Tracks(s, u);
    }
  }

  /** Every step, under any failure, keeps the hand-off, the ledger and the book's size. */
  lemma StepKeepsInv(s: State, e: Event, cfg: Config)
    requires Inv(s, cfg)
    ensures Inv(Step(s, e, cfg), cfg)
  {
    match e
    case Detect(sig, raises) =>
      if !raises && sig.key !in s.recorded {
        DetectKeepsInv(s, cfg, sig);
      }
    case Enqueue =>
      if s.staged != [] {
        EnqueueKeepsInv(s, cfg);
      }
    case Abandon => AbandonKeepsInv(s, cfg);
    case Handle(now, active, price, fate) =>
      if s.queue != [] {
        PopKeepsInv(s, cfg);
        var sig, qty := s.queue[0], EntryQty(price, cfg);
        if Gated(s, sig, now, active, cfg) && qty > 0 {
          EnterKeepsInv(s.(queue := s.queue[1..]), cfg, sig, qty, fate);
        }
      }
    case AdvanceShort(_, _, _, _, _) => AdvanceKeepsInv(s, e, cfg);
    case FlattenShort(ticker, env) =>
      if ticker in s.book && s.book[ticker].exitOrder.None? {
        CloseKeepsInv(s, cfg, ticker, Because(E.EodFailsafe), env);
      }
    case BrokerFills(id, price) =>
      if id < |s.orders| {
        BrokerKeepsInv(s, cfg, id, Filled(price));
      }
    case BrokerKills(id) =>
      if id < |s.orders| {
        BrokerKeepsInv(s, cfg, id, Dead);
      }
    case Restart(startup) => RestartKeepsInv(s, cfg, startup);
  }

  lemma {:induction false} RunKeepsInv(s: State, es: seq<Event>, cfg: Config)
    requires Inv(s, cfg)
    ensures Inv(Run(s, es, cfg), cfg)
  {
    if es != [] {
      RunKeepsInv(s, es[..|es| - 1], cfg);
      StepKeepsInv(Run(s, es[..|es| - 1], cfg), es[|es| - 1], cfg);
    }
  }

  /** Main result: over every run from the empty system, with any call raising and restarts
      at any point, waiting signals are distinct and have neither a row nor an order yet, rows
      have distinct keys, every tracked short holds its own open row, and the book never
      exceeds scanner_max_concurrent. */
  lemma EveryRunIsSafe(es: seq<Event>, cfg: Config)
    ensures Inv(Run(EMPTY, es, cfg), cfg)
  {
    RunKeepsInv(EMPTY, es, cfg);
  }

  /** The unique guard of scanner_trades never fires: a signal about to be handled has no row
      and has never sent an order. */
  lemma UniqueGuardNeverFires(es: seq<Event>, cfg: Config)
    ensures var s := Run(EMPTY, es, cfg);
            s.queue != [] ==>
              s.queue[0].key !in RowKeys(s.rows)
              && forall i | 0 <= i < |s.orders| :: s.orders[i].key != s.queue[0].key
  {
    RunKeepsInv(EMPTY, es, cfg);
    var s := Run(EMPTY, es, cfg);
    if s.queue != [] {
      PopKeepsInv(s, cfg);
    }
  }

  // ---- At most once -----------------------------------------------------------------

  /** How often the run hands a key to the tick loop. */
  function Handed(s: State, es: seq<Event>, cfg: Config, k: Key): nat {
    if es == [] then 0
    else
      var before := Run(s, es[..|es| - 1], cfg);
      Handed(s, es[..|es| - 1], cfg, k)
      + if es[|es| - 1].Handle? && before.queue != [] && before.queue[0].key == k then 1 else 0
  }

  ghost predicate IsWaiting(s: State, k: Key) {
    exists i | 0 <= i < |Waiting(s)| :: Waiting(s)[i].key == k
  }

  lemma {:induction false} HandedBound(es: seq<Event>, cfg: Config, k: Key)
    ensures var s := Run(EMPTY, es, cfg);
            Handed(EMPTY, es, cfg, k) + (if IsWaiting(s, k) then 1 else 0) <= if k in s.recorded then 1 else 0
  {
    if es != [] {
      var init, e := es[..|es| - 1], es[|es| - 1];
      var s := Run(EMPTY, init, cfg);
      HandedBound(init, cfg, k);
      RunKeepsInv(EMPTY, init, cfg);
      WaitingMoves(s, e, cfg, k);
    }
  }

  /** One step can make a key wait only by recording it, and handling it ends the wait. */
  lemma WaitingMoves(s: State, e: Event, cfg: Config, k: Key)
    requires Inv(s, cfg)
    ensures var t := Step(s, e, cfg);
            && (k in s.recorded ==> k in t.recorded)
            && (IsWaiting(t, k) ==> IsWaiting(s, k) || (k !in s.recorded && k in t.recorded))
            && (e.Handle? && s.queue != [] && s.queue[0].key == k ==> IsWaiting(s, k) && !IsWaiting(t, k))
  {
    match e
    case Detect(sig, raises) => DetectExtendsWaiting(s, sig, raises, cfg);
    case Handle(_, _, _, _) => HandlePopsWaiting(s, e, cfg);
    case Restart(startup) => RestartEmptiesQueues(s, startup, cfg);
    case Abandon =>
      var t := Step(s, e, cfg);
      assert forall i | 0 <= i < |Waiting(t)| :: Waiting(t)[i] == Waiting(s)[i];
    case _ => WaitingStays(s, e, cfg);
  }

  lemma DetectExtendsWaiting(s: State, sig: Signal, raises: bool, cfg: Config)
    ensures var t := Step(s, Detect(sig, raises), cfg);
            if t.recorded == s.recorded then t == s
            else sig.key !in s.recorded && t.recorded == s.recorded + {sig.key} && Waiting(t) == Waiting(s) + [sig]
  {}

  lemma HandlePopsWaiting(s: State, e: Event, cfg: Config)
    requires e.Handle?
    ensures var t := HandleSignal(s, e, cfg);
            && t.recorded == s.recorded
            && Waiting(t) == (if s.queue == [] then Waiting(s) else Waiting(s)[1..])
            && (s.queue != [] ==> Waiting(s)[0] == s.queue[0])
  {
    var t := HandleSignal(s, e, cfg);
    assert t.staged == s.staged && t.recorded == s.recorded;
    if s.queue != [] {
      assert t.queue == s.queue[1..];
      assert Waiting(t) == Waiting(s)[1..];
    }
  }

  lemma WaitingStays(s: State, e: Event, cfg: Config)
    requires !(e.Detect? || e.Restart? || e.Handle? || e.Abandon?)
    ensures Waiting(Step(s, e, cfg)) == Waiting(s)
    ensures Step(s, e, cfg).recorded == s.recorded
  {
    match e
    case AdvanceShort(_, _, _, _, _) => AdvanceKeepsQueues(s, e);
    case FlattenShort(ticker, env) =>
      if ticker in s.book {
        CloseKeepsQueues(s, ticker, Because(E.EodFailsafe), env);
      }
    case _ =>
  }

  ghost predicate SameQueues(s: State, t: State) {
    t.staged == s.staged && t.queue == s.queue && t.recorded == s.recorded
  }

  lemma CloseKeepsQueues(s: State, ticker: string, reason: Reason, env: CloseEnv)
    requires ticker in s.book
    ensures SameQueues(s, Close(s, ticker, reason, env))
  {}

  lemma AdvanceKeepsQueues(s: State, e: Event)
    requires e.AdvanceShort?
    ensures SameQueues(s, Advance(s, e))
  {
    if e.ticker in s.book {
      var r := s.book[e.ticker];
      var exit := E.EvaluateExit(r.openedAt, r.stopPrice, e.now, if r.stopOrder.None? then e.quote else None);
      if exit.Some? {
        CloseKeepsQueues(s, e.ticker, Because(exit.value), e.env);
      }
    }
  }

  lemma RestartEmptiesQueues(s: State, startup: Startup, cfg: Config)
    ensures Waiting(Step(s, Restart(startup), cfg)) == []
    ensures Step(s, Restart(startup), cfg).book == map[]
    ensures Step(s, Restart(startup), cfg).recorded == s.recorded
  {
    if startup.Sweep? {
      SweepKeepsQueues(s.(staged := [], queue := [], book := map[]), 0, startup.fates);
    }
  }

  lemma {:induction false} SweepKeepsQueues(s: State, i: nat, fates: seq<RowFate>)
    ensures var t := SweepFrom(s, i, fates);
            t.staged == s.staged && t.queue == s.queue && t.book == s.book && t.recorded == s.recorded
    decreases |s.rows| - i
  {
    if i < |s.rows| {
      if s.rows[i].exit.Some? {
        SweepKeepsQueues(s, i + 1, fates);
      } else if i < |fates| && !Dies(fates[i]) {
        SweepKeepsQueues(SweepRow(s, i, fates[i]), i + 1, fates);
      }
    }
  }

  /** Over any sequence of scans, failures and restarts, one (scanner, ticker, day) is handed
      to the tick loop at most once, so it can open at most one short. */
  lemma HandedAtMostOnce(es: seq<Event>, cfg: Config, k: Key)
    ensures Handed(EMPTY, es, cfg, k) <= 1
  {
    HandedBound(es, cfg, k);
  }

  // ---- Rows and tracked shorts ---------------------------------------------------------

  ghost predicate IsOpen(s: State, id: nat) {
    id < |s.rows| && s.rows[id].exit.None?
  }

  ghost predicate IsTracked(s: State, id: nat) {
    exists t <- s.book :: s.book[t].tradeId == Some(id)
  }

  /** The open rows are those a deferred startup left behind plus the tracked shorts, one each. */
  ghost predicate Balanced(s: State, leftover: set<nat>) {
    && (forall id: nat :: IsOpen(s, id) <==> id in leftover || IsTracked(s, id))
    && (forall id <- leftover :: !IsTracked(s, id))
    && (forall t, u | t in s.book && u in s.book && t != u :: s.book[t].tradeId != s.book[u].tradeId)
  }

  ghost predicate OneProcess(es: seq<Event>) {
    forall i | 0 <= i < |es| :: !es[i].Restart?
  }

  /** The rows and the tracked trade ids are the same. */
  ghost predicate SameLedger(s: State, t: State) {
    && |t.rows| == |s.rows| && (forall i | 0 <= i < |s.rows| :: t.rows[i].exit == s.rows[i].exit)
    && t.book.Keys == s.book.Keys && forall u <- s.book :: t.book[u].tradeId == s.book[u].tradeId
  }

  lemma SameLedgerKeepsBalance(s: State, t: State, leftover: set<nat>)
    requires Balanced(s, leftover) && SameLedger(s, t)
    ensures Balanced(t, leftover)
  {
    forall id: nat ensures IsTracked(t, id) == IsTracked(s, id) && IsOpen(t, id) == IsOpen(s, id) {
      if IsTracked(s, id) {
        var u :| u in s.book && s.book[u].tradeId == Some(id);
        assert u in t.book;
      }
      if IsTracked(t, id) {
        var u :| u in t.book && t.book[u].tradeId == Some(id);
        assert u in s.book;
      }
    }
  }

  lemma BookedKeepsBalance(
    s: State, cfg: Config, ticker: string, price: real, reason: Reason, order: nat, raises: bool, leftover: set<nat>)
    requires Inv(s, cfg) && Balanced(s, leftover) && ticker in s.book
    ensures Balanced(Booked(s, ticker, price, reason, order, raises), leftover)
  {
    var t := Booked(s, ticker, price, reason, order, raises);
    assert Tracks(s, ticker);
    if t != s {
      var gone := s.book[ticker].tradeId.value;
      assert IsTracked(s, gone);
      forall id: nat ensures IsTracked(t, id) <==> IsTracked(s, id) && id != gone {
        if IsTracked(s, id) && id != gone {
          var u :| u in s.book && s.book[u].tradeId == Some(id);
          assert u in t.book;
        }
      }
    }
  }

  lemma UnprotectKeepsBalance(s: State, ticker: string, takes: bool, leftover: set<nat>)
    requires Balanced(s, leftover) && ticker in s.book
    ensures Balanced(Unprotect(s, ticker, takes), leftover)
  {
    SameLedgerKeepsBalance(s, Unprotect(s, ticker, takes), leftover);
  }

  lemma SendCoverKeepsBalance(s: State, ticker: string, reason: Reason, fill: FillReply, leftover: set<nat>)
    requires Balanced(s, leftover) && ticker in s.book
    ensures Balanced(SendCover(s, ticker, reason, fill), leftover)
  {
    SameLedgerKeepsBalance(s, SendCover(s, ticker, reason, fill), leftover);
  }

  lemma CloseKeepsBalance(s: State, cfg: Config, ticker: string, reason: Reason, env: CloseEnv, leftover: set<nat>)
    requires Inv(s, cfg) && Balanced(s, leftover) && ticker in s.book
    ensures Balanced(Close(s, ticker, reason, env), leftover)
  {
    var unprotected := Unprotect(s, ticker, env.cancelTakes);
    UnprotectKeepsInv(s, cfg, ticker, env.cancelTakes);
    UnprotectKeepsBalance(s, ticker, env.cancelTakes, leftover);
    if !env.submitRaises {
      SendCoverKeepsInv(unprotected, cfg, ticker, reason, env.fill);
      SendCoverKeepsBalance(unprotected, ticker, reason, env.fill, leftover);
      if env.fill.FilledAt? {
        BookedKeepsBalance(SendCover(unprotected, ticker, reason, env.fill), cfg, ticker, env.fill.price, reason,
                           |s.orders|, env.bookRaises, leftover);
      }
    }
  }

  lemma AdvanceKeepsBalance(s: State, e: Event, cfg: Config, leftover: set<nat>)
    requires Inv(s, cfg) && Balanced(s, leftover) && e.AdvanceShort?
    ensures Balanced(Advance(s, e), leftover)
  {
    if e.ticker in s.book {
      var r := s.book[e.ticker];
      var stopPrice, exitPrice := FillPrice(s, r.stopOrder), FillPrice(s, r.exitOrder);
      var pending := if r.pendingReason.Some? then r.pendingReason.value else StopHit;
      if r.exitOrder.Some? && exitPrice.Some? {
        BookedKeepsBalance(s, cfg, e.ticker, exitPrice.value, pending, r.exitOrder.value, e.env.bookRaises, leftover);
      } else if r.stopOrder.Some? && stopPrice.Some? {
        BookedKeepsBalance(s, cfg, e.ticker, stopPrice.value, StopHit, r.stopOrder.value, e.env.bookRaises, leftover);
      } else {
        var exit := E.EvaluateExit(r.openedAt, r.stopPrice, e.now, if r.stopOrder.None? then e.quote else None);
        if exit.Some? {
          CloseKeepsBalance(s, cfg, e.ticker, Because(exit.value), e.env, leftover);
        }
      }
    }
  }

  lemma HandleKeepsBalance(s: State, e: Event, cfg: Config, leftover: set<nat>)
    requires Inv(s, cfg) && Balanced(s, leftover) && e.Handle?
    ensures Balanced(HandleSignal(s, e, cfg), leftover)
  {
    if s.queue != [] {
      PopKeepsInv(s, cfg);
      var popped := s.(queue := s.queue[1..]);
      SameLedgerKeepsBalance(s, popped, leftover);
      var sig, qty := s.queue[0], EntryQty(e.reply, cfg);
      if Gated(s, sig, e.now, e.active, cfg) && qty > 0 {
        EnterKeepsBalance(popped, cfg, sig, qty, e.fate, leftover);
      }
    }
  }

  lemma EnterKeepsBalance(s: State, cfg: Config, sig: Signal, qty: int, fate: EntryFate, leftover: set<nat>)
    requires Inv(s, cfg) && Balanced(s, leftover)
    requires sig.key.ticker !in s.book && sig.key !in RowKeys(s.rows)
    ensures Balanced(Enter(s, sig, qty, fate), leftover)
  {
    var t := Enter(s, sig, qty, fate);
    if fate.Entered? && fate.rowWritten {
      var new' := |s.rows|;
      forall u <- s.book ensures s.book[u].tradeId != Some(new') {
        assert Tracks(s, u);
      }
      assert !IsTracked(s, new') && !IsOpen(s, new');
      assert t.book[sig.key.ticker].tradeId == Some(new');
      assert IsTracked(t, new');
      forall id: nat ensures IsTracked(t, id) <==> IsTracked(s, id) || id == new' {
        if IsTracked(s, id) {
          var u :| u in s.book && s.book[u].tradeId == Some(id);
          assert u in t.book && t.book[u] == s.book[u];
        }
      }
      forall id: nat ensures IsOpen(t, id) <==> IsOpen(s, id) || id == new' {}
    } else {
      SameLedgerKeepsBalance(s, t, leftover);
    }
  }

  lemma StepKeepsBalance(s: State, e: Event, cfg: Config, leftover: set<nat>)
    requires Inv(s, cfg) && Balanced(s, leftover) && !e.Restart?
    ensures Balanced(Step(s, e, cfg), leftover)
  {
    match e
    case Handle(_, _, _, _) => HandleKeepsBalance(s, e, cfg, leftover);
    case AdvanceShort(_, _, _, _, _) => AdvanceKeepsBalance(s, e, cfg, leftover);
    case FlattenShort(ticker, env) =>
      if ticker in s.book && s.book[ticker].exitOrder.None? {
        CloseKeepsBalance(s, cfg, ticker, Because(E.EodFailsafe), env, leftover);
      }
    case Detect(_, _) => QueueingKeepsBalance(s, e, cfg, leftover);
    case Enqueue => QueueingKeepsBalance(s, e, cfg, leftover);
    case Abandon => QueueingKeepsBalance(s, e, cfg, leftover);
    case BrokerFills(_, _) => BrokerKeepsBalance(s, e, cfg, leftover);
    case BrokerKills(_) => BrokerKeepsBalance(s, e, cfg, leftover);
  }

  lemma QueueingKeepsBalance(s: State, e: Event, cfg: Config, leftover: set<nat>)
    requires Balanced(s, leftover) && (e.Detect? || e.Enqueue? || e.Abandon?)
    ensures Balanced(Step(s, e, cfg), leftover)
  {
    SameLedgerKeepsBalance(s, Step(s, e, cfg), leftover);
  }

  lemma BrokerKeepsBalance(s: State, e: Event, cfg: Config, leftover: set<nat>)
    requires Balanced(s, leftover) && (e.BrokerFills? || e.BrokerKills?)
    ensures Balanced(Step(s, e, cfg), leftover)
  {
    SameLedgerKeepsBalance(s, Step(s, e, cfg), leftover);
  }

  /** Main result: within one process, starting from an empty book over any table, the open
      rows are exactly the leftovers plus one per tracked short. With no leftovers open rows
      and tracked shorts are in bijection, under any failure. */
  lemma {:induction false} OpenRowsMatchTheBook(s: State, es: seq<Event>, cfg: Config, leftover: set<nat>)
    requires Inv(s, cfg) && Balanced(s, leftover) && OneProcess(es)
    ensures Balanced(Run(s, es, cfg), leftover)
  {
    if es != [] {
      var init := es[..|es| - 1];
      OpenRowsMatchTheBook(s, init, cfg, leftover);
      RunKeepsInv(s, init, cfg);
      StepKeepsBalance(Run(s, init, cfg), es[|es| - 1], cfg, leftover);
    }
  }

  /** A startup sweep in which no call raises leaves no open row behind, so the process that
      follows starts balanced with no leftovers. */
  lemma CleanStartupLeavesNothingOpen(s: State, fates: seq<RowFate>, cfg: Config)
    requires |fates| >= |s.rows| && forall i | 0 <= i < |fates| :: !Dies(fates[i])
    ensures Balanced(Step(s, Restart(Sweep(fates)), cfg), {})
  {
    SweepClosesAll(s.(staged := [], queue := [], book := map[]), 0, fates);
    RestartEmptiesQueues(s, Sweep(fates), cfg);
  }

  lemma {:induction false} SweepClosesAll(s: State, i: nat, fates: seq<RowFate>)
    requires |fates| >= |s.rows| && forall j | 0 <= j < |fates| :: !Dies(fates[j])
    requires forall j | 0 <= j < i && j < |s.rows| :: s.rows[j].exit.Some?
    ensures forall j | 0 <= j < |SweepFrom(s, i, fates).rows| :: SweepFrom(s, i, fates).rows[j].exit.Some?
    decreases |s.rows| - i
  {
    if i < |s.rows| {
      if s.rows[i].exit.Some? {
        SweepClosesAll(s, i + 1, fates);
      } else {
        SweepClosesAll(SweepRow(s, i, fates[i]), i + 1, fates);
      }
    }
  }
}
