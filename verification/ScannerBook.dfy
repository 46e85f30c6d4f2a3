/** The scanner's equity book: detection hand-off, short entries, protective stops, covers,
    the scanner_trades table and the broker, as a state machine over the steps that can
    interleave. Every external call may raise, the broker fills and kills orders on its own,
    and the process may be restarted at any step. */
module ScannerBook {
  import opened Prelude
  import opened RiskManager
  import E = EquityStrategy

  /** The natural key of scanner_events and scanner_trades. */
  datatype Key = Key(scanner: string, ticker: string, day: int)

  datatype Signal = Signal(key: Key, failure: Moment, volumeRatio: Option<real>)

  datatype Kind = ShortSell | StopBuy | Cover

  datatype Status = Live | Filled(price: real) | Dead

  /** A broker order; its id is its index. The key says which event it was sent for. */
  datatype Order = Order(key: Key, kind: Kind, qty: int, status: Status)

  datatype Reason = StopHit | Because(exit: E.ExitReason) | RestartClose | OrphanOnRestart

  datatype Exit = Exit(price: Option<real>, reason: Reason, grossCents: Option<int>, order: Option<nat>)

  /** A scanner_trades row; its id is its index. */
  datatype Row = Row(key: Key, qty: int, entryPrice: real, stopOrder: Option<nat>, exit: Option<Exit>)

  /** A tracked short (EquityPositionRecord). */
  datatype Short = Short(
    key: Key,
    tradeId: Option<nat>,
    qty: int,
    entryPrice: real,
    openedAt: int,
    stopPrice: real,
    stopOrder: Option<nat>,
    exitOrder: Option<nat>,
    pendingReason: Option<Reason>)

  datatype State = State(
    recorded: set<Key>,
    staged: seq<Signal>,
    queue: seq<Signal>,
    book: map<string, Short>,
    rows: seq<Row>,
    orders: seq<Order>)

  const EMPTY := State({}, [], [], map[], [], [])

  datatype Config = Config(armed: bool, maxConcurrent: nat, minVolumeRatio: real, notional: real)

  // ---- What the environment may do at each external call -----------------------

  datatype PriceReply = PriceRaises | Price(value: Option<real>)

  datatype FillReply = WaitRaises | NotYet | FilledAt(price: real)

  datatype EntryFate =
    | SubmitRejected
    | EntryPollRaises
    | Unfilled(cancelTakes: bool)
    | Entered(price: real, at: int, stopAccepted: bool, rowWritten: bool)

  datatype CloseEnv = CloseEnv(cancelTakes: bool, submitRaises: bool, fill: FillReply, bookRaises: bool)

  datatype RowFate = RowFate(shortHeld: bool, cancelTakes: bool, submitRaises: bool, fill: FillReply, writeRaises: bool)

  datatype Startup = RowsUnreadable | PositionsUnreadable | Sweep(fates: seq<RowFate>)

  datatype Event =
    | Detect(signal: Signal, raises: bool)
    | Enqueue
    | Abandon
    | Handle(now: Moment, active: set<Switch>, reply: PriceReply, fate: EntryFate)
    | AdvanceShort(ticker: string, now: Moment, readRaises: bool, quote: Option<real>, env: CloseEnv)
    | FlattenShort(ticker: string, env: CloseEnv)
    | BrokerFills(id: nat, price: real)
    | BrokerKills(id: nat)
    | Restart(startup: Startup)

  // ---- The specification machine -------------------------------------------------

  function RowKeys(rows: seq<Row>): set<Key> {
    set r <- rows :: r.key
  }

  /** The entry gate and the kill switches let the signal through. */
  predicate Gated(s: State, sig: Signal, now: Moment, active: set<Switch>, cfg: Config) {
    && E.EvaluateEntry(sig.key.scanner, sig.volumeRatio, sig.failure, now, cfg.armed, |s.book|,
                       sig.key.ticker in s.book, cfg.maxConcurrent, cfg.minVolumeRatio) == E.Accepted
    && active * SCANNER_BLOCKERS == {}
  }

  /** The share count an entry would ask for; 0 means no entry. */
  function EntryQty(price: PriceReply, cfg: Config): int {
    if price.PriceRaises? || price.value.None? || price.value.value <= 0.0 then 0
    else E.SharesForNotional(cfg.notional, price.value.value)
  }

  function Enter(s: State, sig: Signal, qty: int, fate: EntryFate): State {
    match fate
    case SubmitRejected => s
    case EntryPollRaises => s.(orders := s.orders + [Order(sig.key, ShortSell, qty, Live)])
    case Unfilled(cancelTakes) =>
      s.(orders := s.orders + [Order(sig.key, ShortSell, qty, if cancelTakes then Dead else Live)])
    case Entered(price, at, stopAccepted, rowWritten) =>
      var n := |s.orders|;
      var stop := if stopAccepted then Some(n + 1) else None;
      var sent := s.(orders := s.orders + [Order(sig.key, ShortSell, qty, Filled(price))]
                               + if stopAccepted then [Order(sig.key, StopBuy, qty, Live)] else []);
      if !rowWritten then sent
      else
        var free := sig.key !in RowKeys(s.rows);
        sent.(rows := if free then s.rows + [Row(sig.key, qty, price, stop, None)] else s.rows,
              book := s.book[sig.key.ticker :=
                Short(sig.key, if free then Some(|s.rows|) else None, qty, price, at,
                      E.StopPriceFor(price), stop, None, None)])
  }

  function HandleSignal(s: State, e: Event, cfg: Config): State
    requires e.Handle?
  {
    if s.queue == [] then s
    else
      var sig, popped := s.queue[0], s.(queue := s.queue[1..]);
      var qty := EntryQty(e.reply, cfg);
      if Gated(s, sig, e.now, e.active, cfg) && qty > 0 then Enter(popped, sig, qty, e.fate) else popped
  }

  function Cancelled(orders: seq<Order>, id: Option<nat>, takes: bool): (r: seq<Order>)
    ensures |r| == |orders|
  {
    if id.Some? && id.value < |orders| && orders[id.value].status == Live && takes
    then orders[id.value := orders[id.value].(status := Dead)]
    else orders
  }

  /** Books the close of a tracked short and stops tracking it, unless the write raises. */
  function Booked(s: State, ticker: string, price: real, reason: Reason, order: nat, raises: bool): State
    requires ticker in s.book
  {
    var r := s.book[ticker];
    if r.tradeId.None? || r.tradeId.value >= |s.rows| then s.(book := s.book - {ticker})
    else if raises then s
    else
      var id := r.tradeId.value;
      var exit := Exit(Some(price), reason, Some(E.ShortGrossCents(r.entryPrice, price, r.qty)), Some(order));
      s.(rows := s.rows[id := s.rows[id].(exit := Some(exit))], book := s.book - {ticker})
  }

  /** Cancels the resting stop and forgets it. */
  function Unprotect(s: State, ticker: string, takes: bool): State
    requires ticker in s.book
  {
    var r := s.book[ticker];
    s.(orders := Cancelled(s.orders, r.stopOrder, takes), book := s.book[ticker := r.(stopOrder := None)])
  }

  /** The broker accepts a cover; the record remembers it at once. */
  function SendCover(s: State, ticker: string, reason: Reason, fill: FillReply): State
    requires ticker in s.book
  {
    var r := s.book[ticker];
    var status := if fill.FilledAt? then Filled(fill.price) else Live;
    s.(orders := s.orders + [Order(r.key, Cover, r.qty, status)],
       book := s.book[ticker := r.(exitOrder := Some(|s.orders|), pendingReason := Some(reason))])
  }

  function Close(s: State, ticker: string, reason: Reason, env: CloseEnv): State
    requires ticker in s.book
  {
    var unprotected := Unprotect(s, ticker, env.cancelTakes);
    if env.submitRaises then unprotected
    else
      var covering := SendCover(unprotected, ticker, reason, env.fill);
      if env.fill.FilledAt? then Booked(covering, ticker, env.fill.price, reason, |s.orders|, env.bookRaises)
      else covering
  }

  function FillPrice(s: State, id: Option<nat>): Option<real> {
    if id.Some? && id.value < |s.orders| && s.orders[id.value].status.Filled? then Some(s.orders[id.value].status.price)
    else None
  }

  function Advance(s: State, e: Event): State
    requires e.AdvanceShort?
  {
    if e.ticker !in s.book then s
    else
      var r := s.book[e.ticker];
      if r.exitOrder.Some? then
        var price := FillPrice(s, r.exitOrder);
        if e.readRaises || price.None? then s
        else Booked(s, e.ticker, price.value,
                    if r.pendingReason.Some? then r.pendingReason.value else StopHit, r.exitOrder.value, e.env.bookRaises)
      else if r.stopOrder.Some? && e.readRaises then s
      else
        var price := FillPrice(s, r.stopOrder);
        if price.Some? then Booked(s, e.ticker, price.value, StopHit, r.stopOrder.value, e.env.bookRaises)
        else
          var exit := E.EvaluateExit(r.openedAt, r.stopPrice, e.now, if r.stopOrder.None? then e.quote else None);
          if exit.None? then s else Close(s, e.ticker, Because(exit.value), e.env)
  }

  function CloseRow(s: State, i: nat, exit: Exit): (t: State)
    requires i < |s.rows|
    ensures |t.rows| == |s.rows|
  {
    s.(rows := s.rows[i := s.rows[i].(exit := Some(exit))])
  }

  /** A journal write, order submission or fill wait of the sweep raises: the process ends. */
  predicate Dies(fate: RowFate) {
    if fate.shortHeld then fate.submitRaises || fate.fill.WaitRaises? || fate.writeRaises else fate.writeRaises
  }

  /** The broker accepts the sweep's cover for a row. */
  function SweepCover(s: State, i: nat, fate: RowFate): State
    requires i < |s.rows|
  {
    var row := s.rows[i];
    var status := if fate.fill.FilledAt? then Filled(fate.fill.price) else Live;
    s.(orders := s.orders + [Order(row.key, Cover, row.qty, status)])
  }

  /** One open row at startup: cover it if the broker still holds the short, close it as an
      orphan otherwise. */
  function SweepRow(s: State, i: nat, fate: RowFate): (t: State)
    requires i < |s.rows|
    ensures |t.rows| == |s.rows|
  {
    var row := s.rows[i];
    var unprotected := s.(orders := Cancelled(s.orders, row.stopOrder, fate.cancelTakes));
    if !fate.shortHeld then
      if fate.writeRaises then unprotected else CloseRow(unprotected, i, Exit(None, OrphanOnRestart, None, None))
    else if fate.submitRaises then unprotected
    else
      var covering := SweepCover(unprotected, i, fate);
      if Dies(fate) then covering
      else if fate.fill.FilledAt? then
        var gross := E.ShortGrossCents(row.entryPrice, fate.fill.price, row.qty);
        CloseRow(covering, i, Exit(Some(fate.fill.price), RestartClose, Some(gross), Some(|s.orders|)))
      else CloseRow(covering, i, Exit(None, RestartClose, None, Some(|s.orders|)))
  }

  /** The startup sweep over the open rows from row i on, up to the call that raises. */
  function SweepFrom(s: State, i: nat, fates: seq<RowFate>): State
    decreases |s.rows| - i
  {
    if i >= |s.rows| then s
    else if s.rows[i].exit.Some? then SweepFrom(s, i + 1, fates)
    else if i >= |fates| then s
    else if Dies(fates[i]) then SweepRow(s, i, fates[i])
    else SweepFrom(SweepRow(s, i, fates[i]), i + 1, fates)
  }

  function Step(s: State, e: Event, cfg: Config): State {
    match e
    case Detect(sig, raises) =>
      if raises || sig.key in s.recorded then s
      else s.(recorded := s.recorded + {sig.key}, staged := s.staged + [sig])
    case Enqueue =>
      if s.staged == [] then s else s.(staged := s.staged[1..], queue := s.queue + [s.staged[0]])
    case Abandon => s.(staged := [])
    case Handle(_, _, _, _) => HandleSignal(s, e, cfg)
    case AdvanceShort(_, _, _, _, _) => Advance(s, e)
    case FlattenShort(ticker, env) =>
      if ticker in s.book && s.book[ticker].exitOrder.None? then Close(s, ticker, Because(E.EodFailsafe), env) else s
    case BrokerFills(id, price) =>
      if id < |s.orders| && s.orders[id].status == Live
      then s.(orders := s.orders[id := s.orders[id].(status := Filled(price))]) else s
    case BrokerKills(id) =>
      if id < |s.orders| && s.orders[id].status == Live
      then s.(orders := s.orders[id := s.orders[id].(status := Dead)]) else s
    case Restart(startup) =>
      var restarted := s.(staged := [], queue := [], book := map[]);
      if startup.Sweep? then SweepFrom(restarted, 0, startup.fates) else restarted
  }

  function Run(s: State, es: seq<Event>, cfg: Config): State {
    if es == [] then s else Step(Run(s, es[..|es| - 1], cfg), es[|es| - 1], cfg)
  }
}
