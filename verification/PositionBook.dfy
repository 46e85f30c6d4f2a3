/** The options book: posts, the trailing stop, "Sell now" requests from the API thread,
    reconciliation, the 15:55 flatten, adoption after a restart, the trades table and the
    broker, as a state machine over the steps that can interleave. The tick thread is split
    where the API thread or the broker can get in between; every external call may raise. */
module PositionBook {
  import opened Prelude
  import S = Strategy

  /** An option contract: its OCC symbol and the expiration day the symbol spells. */
  datatype Contract = Contract(symbol: string, expiration: int)

  /** A signals row; its id is its index. */
  datatype Signal = Signal(contract: Contract, receivedAt: int, taken: bool)

  datatype Kind = EntryBuy | StopSell | AutoSell | ManualSell

  datatype Status = Live | Filled(price: real) | Dead

  /** A broker order; its id is its index. */
  datatype Order = Order(owner: nat, kind: Kind, qty: int, stopPrice: Option<real>, status: Status)

  datatype Reason = ManualClose | ExternalClose | Exit(exit: S.ExitReason)

  /** A trades row. The table has no unique key on the signal. */
  datatype Row = Row(signal: nat, entryPrice: real, exitPrice: real, qty: int, reason: Reason)

  /** An open position (PositionRecord). */
  datatype Record = Record(
    contract: Contract,
    qty: int,
    entryPrice: real,
    position: S.Position,
    stopOrder: Option<nat>,
    closing: bool,
    manualOrder: Option<nat>)

  /** Where the tick thread stands inside the advance of one position. */
  datatype Phase = Idle | Checked(signal: nat) | Quoted(signal: nat)

  /** puts holds the requests whose API thread has set the flag but not yet reached the queue. */
  datatype State = State(
    signals: seq<Signal>,
    open: map<nat, Record>,
    rows: seq<Row>,
    orders: seq<Order>,
    puts: multiset<nat>,
    queue: seq<nat>,
    phase: Phase)

  const EMPTY := State([], map[], [], [], multiset{}, [], Idle)

  datatype Config = Config(maxConcurrent: nat, spendCap: real, maxQty: int, stopLossPct: real)

  const CONTRACT_MULTIPLIER := 100.0
  const MIN_STOP_BUMP_FRACTION := 0.01

  // ---- What the environment may do at each external call -----------------------------

  datatype EntryFate =
    | BuyRejected
    | BuyAbandoned
    | BuyUnfilled(cancelTakes: bool)
    | BoughtOnly(price: real)
    | BoughtWithStop(price: real)
    | Opened(price: real, marked: bool)

  /** How the journal answers an external close: both calls return, the existence check
      raises, or close_trade raises. */
  datatype JournalReply = Written | CheckRaises | TradeRaises

  datatype ManualFate = ManualRejected | ManualUnaudited | ManualSent

  datatype ModifyFate = ModifyFate(swaps: bool, cancelTakes: bool, submitRaises: bool, writeRaises: bool)

  /** SellAbandoned: some call raises between the accepted sell and the trades row. */
  datatype SellFate = SellRejected | SellAbandoned(fill: Option<real>) | SellBooked(fill: Option<real>)

  datatype CloseEnv = CloseEnv(cancelTakes: bool, sell: SellFate)

  datatype Adoption = Adoption(contract: Contract, qty: int, entryPrice: real, stop: Option<nat>, readRaises: bool)

  datatype Event =
    | Post(contract: Contract, ask: Option<real>, accepted: bool, receivedAt: int, now: Moment, fate: EntryFate)
    | ApiFlag(sig: nat)
    | ApiPut(sig: nat)
    | DrainRequest(cancelTakes: bool, manual: ManualFate)
    | PollManual(sig: nat, readRaises: bool, journal: JournalReply)
    | StartAdvance(sig: nat)
    | ReadStop(readRaises: bool, journal: JournalReply)
    | FinishAdvance(quote: Option<real>, now: Moment, readRaises: bool, push: ModifyFate, env: CloseEnv)
    | Reconcile(sig: nat, readRaises: bool, journal: JournalReply)
    | Flatten(sig: nat, env: CloseEnv)
    | BrokerFills(id: nat, price: real)
    | BrokerKills(id: nat)
    | Restart(adoptions: seq<Adoption>)

  // ---- Sizing --------------------------------------------------------------------------

  function ComputeQty(ask: real, spendCap: real, maxQty: int): (n: int)
    ensures n >= 0
  {
    var cost := ask * CONTRACT_MULTIPLIER;
    if cost <= 0.0 then 0 else MaxInt(0, MinInt((spendCap / cost).Floor, maxQty))
  }

  /** The largest count within both caps; the spend cap is met by n * ask * 100 <= spendCap. */
  lemma QtyIsLargestAffordable(ask: real, spendCap: real, maxQty: int, n: int)
    requires ask > 0.0 && n >= 1
    ensures n <= ComputeQty(ask, spendCap, maxQty) <==>
              n <= maxQty && n as real * (ask * CONTRACT_MULTIPLIER) <= spendCap
  {
    var cost := ask * CONTRACT_MULTIPLIER;
    var ratio := spendCap / cost;
    assert ratio * cost == spendCap;
    if n as real <= ratio {
      assert n as real * cost <= ratio * cost;
    } else {
      assert n as real * cost > ratio * cost;
    }
    assert n as real <= ratio <==> n <= ratio.Floor;
  }

  // ---- Broker and journal --------------------------------------------------------------

  /** cancel_order: never raises; kills a live order when the cancel takes effect. */
  function Cancelled(orders: seq<Order>, id: Option<nat>, takes: bool): (r: seq<Order>)
    ensures |r| == |orders|
  {
    if id.Some? && id.value < |orders| && orders[id.value].status == Live && takes
    then orders[id.value := orders[id.value].(status := Dead)]
    else orders
  }

  function FillPrice(orders: seq<Order>, id: Option<nat>): Option<real> {
    if id.Some? && id.value < |orders| && orders[id.value].status.Filled? then Some(orders[id.value].status.price)
    else None
  }

  function StopOnBook(orders: seq<Order>, id: Option<nat>): Option<real> {
    if id.Some? && id.value < |orders| then orders[id.value].stopPrice else None
  }

  predicate HasRow(rows: seq<Row>, sig: nat) {
    exists i | 0 <= i < |rows| :: rows[i].signal == sig
  }

  // ---- Entries -------------------------------------------------------------------------

  function InitialStop(price: real, cfg: Config): real {
    HalfEvenCents(price * (1.0 - cfg.stopLossPct))
  }

  /** From the accepted buy on: order, fill, stop, record, taken flag. */
  function Enter(s: State, sig: nat, e: Event, qty: int, cfg: Config): State
    requires e.Post? && sig < |s.signals|
  {
    var n := |s.orders|;
    var position := if e.fate.Opened? then S.OpenPosition(e.fate.price, qty, e.now.utc, e.contract.expiration, cfg.stopLossPct)
                    else Err(ValueError);
    match e.fate
    case BuyRejected => s
    case BuyAbandoned => s.(orders := s.orders + [Order(sig, EntryBuy, qty, None, Live)])
    case BuyUnfilled(takes) => s.(orders := s.orders + [Order(sig, EntryBuy, qty, None, if takes then Dead else Live)])
    case BoughtOnly(price) => s.(orders := s.orders + [Order(sig, EntryBuy, qty, None, Filled(price))])
    case BoughtWithStop(price) =>
      s.(orders := s.orders + [Order(sig, EntryBuy, qty, None, Filled(price)),
                               Order(sig, StopSell, qty, Some(InitialStop(price, cfg)), Live)])
    case Opened(price, marked) =>
      var sent := s.(orders := s.orders + [Order(sig, EntryBuy, qty, None, Filled(price)),
                                           Order(sig, StopSell, qty, Some(InitialStop(price, cfg)), Live)]);
      if position.Err? then sent
      else sent.(open := s.open[sig := Record(e.contract, qty, price, position.value, Some(n + 1), false, None)],
                 signals := s.signals[sig := s.signals[sig].(taken := marked)])
  }

  function HandlePost(s: State, e: Event, cfg: Config): State
    requires e.Post?
  {
    var logged := s.(signals := s.signals + [Signal(e.contract, e.receivedAt, false)]);
    if !e.accepted || |s.open| >= cfg.maxConcurrent || e.ask.None? then logged
    else
      var qty := ComputeQty(e.ask.value, cfg.spendCap, cfg.maxQty);
      if qty < 1 then logged else Enter(logged, |s.signals|, e, qty, cfg)
  }

  // ---- Closes --------------------------------------------------------------------------

  /** _record_external_close: the position is dropped whatever the journal does. */
  function ExternallyClosed(s: State, sig: nat, price: real, reason: Reason, reply: JournalReply): State
    requires sig in s.open
  {
    var r := s.open[sig];
    var silent := HasRow(s.rows, sig) || !reply.Written?;
    s.(rows := if silent then s.rows else s.rows + [Row(sig, r.entryPrice, price, r.qty, reason)],
       open := s.open - {sig})
  }

  /** _close_position: cancel the stop, sell at market, book. */
  function Closed(s: State, sig: nat, reason: S.ExitReason, nominal: real, env: CloseEnv): State
    requires sig in s.open
  {
    var r := s.open[sig];
    var cancelled := Cancelled(s.orders, r.stopOrder, env.cancelTakes);
    match env.sell
    case SellRejected => s.(orders := cancelled)
    case SellAbandoned(fill) => s.(orders := cancelled + [SellOrder(sig, r.qty, fill)])
    case SellBooked(fill) =>
      var price := if fill.Some? then fill.value else nominal;
      s.(orders := cancelled + [SellOrder(sig, r.qty, fill)],
         rows := s.rows + [Row(sig, r.entryPrice, price, r.qty, Exit(reason))],
         open := s.open - {sig})
  }

  function SellOrder(sig: nat, qty: int, fill: Option<real>): Order {
    Order(sig, AutoSell, qty, None, if fill.Some? then Filled(fill.value) else Live)
  }

  /** _handle_manual_close plus the rollback of its caller. */
  function Requested(s: State, sig: nat, takes: bool, manual: ManualFate): State
    requires sig in s.open
  {
    var r := s.open[sig];
    var cancelled := Cancelled(s.orders, r.stopOrder, takes);
    var bare := r.(stopOrder := None);
    var sell := Order(sig, ManualSell, r.qty, None, Live);
    match manual
    case ManualRejected =>
      s.(orders := cancelled, open := s.open[sig := bare.(closing := false, manualOrder := None)])
    case ManualUnaudited =>
      s.(orders := cancelled + [sell], open := s.open[sig := bare.(closing := false, manualOrder := None)])
    case ManualSent =>
      s.(orders := cancelled + [sell], open := s.open[sig := bare.(manualOrder := Some(|s.orders|))])
  }

  function Drained(s: State, e: Event): State
    requires e.DrainRequest?
  {
    if s.phase != Idle || s.queue == [] then s
    else
      var popped := s.(queue := s.queue[1..]);
      if s.queue[0] in s.open then Requested(popped, s.queue[0], e.cancelTakes, e.manual) else popped
  }

  function Polled(s: State, e: Event): State
    requires e.PollManual?
  {
    if s.phase != Idle || e.sig !in s.open || !s.open[e.sig].closing || e.readRaises then s
    else
      var price := FillPrice(s.orders, s.open[e.sig].manualOrder);
      if price.None? then s else ExternallyClosed(s, e.sig, price.value, ManualClose, e.journal)
  }

  /** A position the broker does not hold any more. */
  function Reconciled(s: State, e: Event): State
    requires e.Reconcile?
  {
    if s.phase != Idle || e.sig !in s.open then s
    else
      var r := s.open[e.sig];
      if r.closing && r.manualOrder.Some? then
        var price := FillPrice(s.orders, r.manualOrder);
        if e.readRaises || price.None? then s else ExternallyClosed(s, e.sig, price.value, ManualClose, e.journal)
      else
        var price := FillPrice(s.orders, r.stopOrder);
        if e.readRaises || price.None? then ExternallyClosed(s, e.sig, r.entryPrice, ExternalClose, e.journal)
        else ExternallyClosed(s, e.sig, price.value, Exit(S.StopLoss), e.journal)
  }

  // ---- Advancing one position ------------------------------------------------------------

  function StopRead(s: State, sig: nat, e: Event): State
    requires e.ReadStop? && sig in s.open
  {
    var price := FillPrice(s.orders, s.open[sig].stopOrder);
    if e.readRaises || price.None? then s.(phase := Quoted(sig))
    else ExternallyClosed(s, sig, price.value, Exit(S.StopLoss), e.journal).(phase := Idle)
  }

  /** The stop on the broker's book is to be replaced by a higher one. */
  predicate Pushes(r: Record, newStop: real, prior: Option<real>, price: real) {
    prior.Some? && newStop > prior.value && newStop - prior.value >= r.entryPrice * MIN_STOP_BUMP_FRACTION
    && newStop < price
  }

  /** modify_stop: atomic replace of a live order, else cancel and submit. */
  function Restopped(s: State, sig: nat, newStop: real, fate: ModifyFate): State
    requires sig in s.open && s.open[sig].stopOrder.Some?
  {
    var r := s.open[sig];
    var id := r.stopOrder.value;
    var replaced := fate.swaps && id < |s.orders| && s.orders[id].status == Live;
    var cleared := Cancelled(s.orders, r.stopOrder, replaced || fate.cancelTakes);
    if !replaced && fate.submitRaises then s.(orders := cleared)
    else s.(orders := cleared + [Order(sig, StopSell, r.qty, Some(newStop), Live)],
            open := s.open[sig := r.(stopOrder := Some(|s.orders|))])
  }

  /** modify_stop returned but the journal write after it raised: the advance ends there. */
  predicate CutShort(s: State, sig: nat, fate: ModifyFate)
    requires sig in s.open && s.open[sig].stopOrder.Some?
  {
    var id := s.open[sig].stopOrder.value;
    var replaced := fate.swaps && id < |s.orders| && s.orders[id].status == Live;
    (replaced || !fate.submitRaises) && fate.writeRaises
  }

  /** What the strategy says to the quote, when the advance gets that far. */
  function Verdict(r: Record, e: Event): Result<S.Evaluation>
    requires e.FinishAdvance?
  {
    if e.quote.None? then Err(ValueError)
    else if r.entryPrice == 0.0 then Err(DivisionByZero)
    else S.Evaluate(r.position, e.quote.value, e.now)
  }

  /** The advance decides to replace the stop. */
  predicate PushesStop(s: State, sig: nat, e: Event)
    requires e.FinishAdvance? && sig in s.open && Verdict(s.open[sig], e).Ok?
  {
    var r := s.open[sig];
    var prior := if e.readRaises then None else StopOnBook(s.orders, r.stopOrder);
    Pushes(r, Verdict(r, e).value.position.stopPrice, prior, e.quote.value)
  }

  /** The record carries the evaluated position. */
  function Evaluated(s: State, sig: nat, position: S.Position): State
    requires sig in s.open
  {
    s.(open := s.open[sig := s.open[sig].(position := position)])
  }

  /** The book before the exit decision is acted upon. */
  function Pushed(s: State, sig: nat, e: Event): (t: State)
    requires e.FinishAdvance? && sig in s.open && Verdict(s.open[sig], e).Ok?
    ensures sig in t.open
  {
    var position := Verdict(s.open[sig], e).value.position;
    var evaluated := Evaluated(s, sig, position);
    if PushesStop(s, sig, e) then Restopped(evaluated, sig, position.stopPrice, e.push) else evaluated
  }

  /** The advance gets to act on an exit. */
  predicate ActsOnExit(s: State, sig: nat, e: Event)
    requires e.FinishAdvance? && sig in s.open && Verdict(s.open[sig], e).Ok?
  {
    && Verdict(s.open[sig], e).value.exit.Some?
    && !(PushesStop(s, sig, e) && CutShort(s, sig, e.push))
  }

  /** From the quote on: evaluate, push the stop, close. */
  function Managed(s: State, sig: nat, e: Event): State
    requires e.FinishAdvance? && sig in s.open
  {
    if Verdict(s.open[sig], e).Err? then s
    else if ActsOnExit(s, sig, e) then
      Closed(Pushed(s, sig, e), sig, Verdict(s.open[sig], e).value.exit.value.reason, e.quote.value, e.env)
    else Pushed(s, sig, e)
  }

  // ---- Restart -----------------------------------------------------------------------------

  predicate Adoptable(s: State, k: nat, contract: Contract)
    requires k < |s.signals|
  {
    s.signals[k].taken && s.signals[k].contract == contract && !HasRow(s.rows, k)
  }

  /** The most recent taken signal for the contract that has no trades row, among the first n. */
  function LatestTaken(s: State, contract: Contract, n: nat): (k: Option<nat>)
    requires n <= |s.signals|
    ensures k.Some? ==> k.value < n && Adoptable(s, k.value, contract)
    ensures forall j: nat | j < n && Adoptable(s, j, contract) :: k.Some? && j <= k.value
  {
    if n == 0 then None
    else if Adoptable(s, n - 1, contract) then Some(n - 1)
    else LatestTaken(s, contract, n - 1)
  }

  /** A live protective stop on the adopted contract. */
  predicate IsLiveStop(s: State, id: nat, contract: Contract) {
    && id < |s.orders| && s.orders[id].kind.StopSell? && s.orders[id].status == Live
    && s.orders[id].owner < |s.signals| && s.signals[s.orders[id].owner].contract == contract
  }

  /** The stop order an adopted record points at. */
  function AdoptedStop(s: State, a: Adoption): Option<nat> {
    if a.stop.Some? && IsLiveStop(s, a.stop.value, a.contract) then a.stop else None
  }

  function AdoptedRecord(s: State, a: Adoption, sig: nat, cfg: Config): Record
    requires sig < |s.signals|
  {
    var onBook := if a.readRaises then None else StopOnBook(s.orders, AdoptedStop(s, a));
    var stopPrice := if onBook.Some? then onBook.value else InitialStop(a.entryPrice, cfg);
    var position := S.Position(a.entryPrice, a.qty, s.signals[sig].receivedAt, a.contract.expiration,
                               cfg.stopLossPct, stopPrice, 0.0, 0);
    Record(a.contract, a.qty, a.entryPrice, position, AdoptedStop(s, a), false, None)
  }

  function Adopted(s: State, a: Adoption, cfg: Config): State {
    var origin := LatestTaken(s, a.contract, |s.signals|);
    if origin.None? then s
    else s.(open := s.open[origin.value := AdoptedRecord(s, a, origin.value, cfg)])
  }

  function AdoptedAll(s: State, adoptions: seq<Adoption>, cfg: Config): State {
    if adoptions == [] then s
    else Adopted(AdoptedAll(s, adoptions[..|adoptions| - 1], cfg), adoptions[|adoptions| - 1], cfg)
  }

  /** What a crash leaves: the tables and the broker. */
  function Crashed(s: State): State {
    s.(open := map[], puts := multiset{}, queue := [], phase := Idle)
  }

  // ---- The machine -----------------------------------------------------------------------

  function Advanced(s: State, e: Event): State
    requires e.StartAdvance? || e.ReadStop? || e.FinishAdvance?
  {
    match e
    case StartAdvance(sig) =>
      if s.phase == Idle && sig in s.open && !s.open[sig].closing then s.(phase := Checked(sig)) else s
    case ReadStop(_, _) =>
      if s.phase.Checked? && s.phase.signal in s.open then StopRead(s, s.phase.signal, e) else s
    case FinishAdvance(_, _, _, _, _) =>
      if s.phase.Quoted? && s.phase.signal in s.open then Managed(s, s.phase.signal, e).(phase := Idle) else s
  }

  function Requesting(s: State, e: Event): State
    requires e.ApiFlag? || e.ApiPut?
  {
    match e
    case ApiFlag(sig) =>
      if sig in s.open && !s.open[sig].closing
      then s.(open := s.open[sig := s.open[sig].(closing := true)], puts := s.puts + multiset{sig}) else s
    case ApiPut(sig) =>
      if sig in s.puts then s.(puts := s.puts - multiset{sig}, queue := s.queue + [sig]) else s
  }

  function Broker(s: State, id: nat, status: Status): State {
    if id < |s.orders| && s.orders[id].status == Live
    then s.(orders := s.orders[id := s.orders[id].(status := status)]) else s
  }

  function Step(s: State, e: Event, cfg: Config): State {
    match e
    case Post(_, _, _, _, _, _) => if s.phase == Idle then HandlePost(s, e, cfg) else s
    case ApiFlag(_) => Requesting(s, e)
    case ApiPut(_) => Requesting(s, e)
    case DrainRequest(_, _) => Drained(s, e)
    case PollManual(_, _, _) => Polled(s, e)
    case StartAdvance(_) => Advanced(s, e)
    case ReadStop(_, _) => Advanced(s, e)
    case FinishAdvance(_, _, _, _, _) => Advanced(s, e)
    case Reconcile(_, _, _) => Reconciled(s, e)
    case Flatten(sig, env) =>
      if s.phase == Idle && sig in s.open
      then Closed(s, sig, S.TimeStop1555, s.open[sig].entryPrice, env) else s
    case BrokerFills(id, price) => Broker(s, id, Filled(price))
    case BrokerKills(id) => Broker(s, id, Dead)
    case Restart(adoptions) => AdoptedAll(Crashed(s), adoptions, cfg)
  }

  function Run(s: State, es: seq<Event>, cfg: Config): State {
    if es == [] then s else Step(Run(s, es[..|es| - 1], cfg), es[|es| - 1], cfg)
  }
}
