/** Runs of the options book, from the empty system, in which a position is sold twice or booked
    at its entry price: each takes one step that is not safe, with every cancel taking effect. */
module PositionScenarios {
  import opened Prelude
  import opened PositionBook
  import opened PositionSales

  /** One contract is affordable at 1.0. */
  predicate Suits(cfg: Config) {
    cfg.maxConcurrent >= 1 && cfg.spendCap >= 100.0 && cfg.maxQty >= 1 && 0.0 < cfg.stopLossPct < 1.0
  }

  function First(contract: Contract, now: Moment): Event {
    Post(contract, Some(1.0), true, now.utc, now, Opened(1.0, true))
  }

  lemma RunOneMore(es: seq<Event>, e: Event, cfg: Config)
    ensures Run(EMPTY, es + [e], cfg) == Step(Run(EMPTY, es, cfg), e, cfg)
  {
    assert (es + [e])[..|es|] == es;
  }

  /** The run that ends with these steps. */
  lemma RunTwoMore(es: seq<Event>, e: Event, f: Event, cfg: Config)
    ensures Run(EMPTY, es + [e] + [f], cfg) == Step(Step(Run(EMPTY, es, cfg), e, cfg), f, cfg)
  {
    RunOneMore(es, e, cfg);
    RunOneMore(es + [e], f, cfg);
  }

  /** The book right after the first entry: bought at 1.0, protected, nothing else. */
  predicate JustOpened(s: State, cfg: Config, contract: Contract, now: Moment) {
    && s.open.Keys == {0} && s.phase == Idle && s.rows == [] && s.queue == [] && s.puts == multiset{}
    && |s.signals| == 1 && |s.orders| == 2
    && var r := s.open[0];
       && r.stopOrder == Some(1) && !r.closing && r.manualOrder.None? && r.entryPrice == 1.0
       && r.position.entryPrice == 1.0 && r.position.peakPrice == 1.0 && r.position.stopPrice < 1.0
       && r.position.expiration == contract.expiration && r.position.openedAt == now.utc
       && s.orders[0].kind.EntryBuy?
       && s.orders[1] == Order(0, StopSell, r.qty, Some(InitialStop(1.0, cfg)), Live)
  }

  lemma FirstOpens(cfg: Config, contract: Contract, now: Moment)
    requires Suits(cfg)
    ensures JustOpened(Run(EMPTY, [First(contract, now)], cfg), cfg, contract, now)
    ensures InitialStop(1.0, cfg) <= 1.005
  {
    RunOneMore([], First(contract, now), cfg);
    assert [] + [First(contract, now)] == [First(contract, now)];
    QtyIsLargestAffordable(1.0, cfg.spendCap, cfg.maxQty, 1);
    StopIsNear(1.0 - cfg.stopLossPct);
  }

  lemma StopIsNear(x: real)
    requires x < 1.0
    ensures HalfEvenCents(x) <= 1.005
  {}

  /** A flatten whose sell does not fill within the wait books the entry price while the sell is
      still live. */
  lemma FlattenMayBookTheEntry(cfg: Config, contract: Contract, now: Moment) returns (es: seq<Event>)
    requires Suits(cfg)
    ensures var t := Run(EMPTY, es, cfg);
            && |t.rows| == 1 && t.rows[0].reason == Exit(S.TimeStop1555)
            && t.rows[0].exitPrice == t.rows[0].entryPrice == 1.0
            && |t.orders| == 3 && t.orders[2].kind.AutoSell? && t.orders[2].status == Live
  {
    FirstOpens(cfg, contract, now);
    es := [First(contract, now)] + [Flatten(0, CloseEnv(true, SellBooked(None)))];
    RunOneMore([First(contract, now)], Flatten(0, CloseEnv(true, SellBooked(None))), cfg);
  }

  /** "Sell now", handled and sent, from a book whose only position is unflagged. */
  lemma Sent(es: seq<Event>, cfg: Config) returns (more: seq<Event>)
    requires var s := Run(EMPTY, es, cfg);
             0 in s.open && s.phase == Idle && s.queue == [] && s.puts == multiset{} && !s.open[0].closing
             && s.open[0].stopOrder == Some(1)
    ensures var s, t := Run(EMPTY, es, cfg), Run(EMPTY, more, cfg);
            && t.orders == Cancelled(s.orders, Some(1), true) + [Order(0, ManualSell, s.open[0].qty, None, Live)]
            && t.phase == Idle && 0 in t.open && t.open[0].stopOrder.None? && t.open[0].manualOrder == Some(|s.orders|)
  {
    var s := Run(EMPTY, es, cfg);
    RunTwoMore(es, ApiFlag(0), ApiPut(0), cfg);
    var asked := Step(Step(s, ApiFlag(0), cfg), ApiPut(0), cfg);
    assert asked.queue == [0] && 0 in asked.open;
    more := es + [ApiFlag(0)] + [ApiPut(0)] + [DrainRequest(true, ManualSent)];
    RunOneMore(es + [ApiFlag(0)] + [ApiPut(0)], DrainRequest(true, ManualSent), cfg);
  }

  /** The stop fills, then "Sell now" is handled: both sell the position. */
  lemma SellNowSellsTwice(cfg: Config, contract: Contract, now: Moment) returns (es: seq<Event>)
    requires Suits(cfg)
    ensures SoldTwice(Run(EMPTY, es, cfg), 0, 1, 2)
  {
    FirstOpens(cfg, contract, now);
    var stopped := [First(contract, now)] + [BrokerFills(1, 0.8)];
    RunOneMore([First(contract, now)], BrokerFills(1, 0.8), cfg);
    var sent := Sent(stopped, cfg);
    es := sent + [BrokerFills(2, 0.8)];
    RunOneMore(sent, BrokerFills(2, 0.8), cfg);
  }

  /** A manual sell has filled and waits for its poll when the 15:55 flatten sells again. */
  lemma FlattenSellsTwice(cfg: Config, contract: Contract, now: Moment) returns (es: seq<Event>)
    requires Suits(cfg)
    ensures SoldTwice(Run(EMPTY, es, cfg), 0, 2, 3)
  {
    FirstOpens(cfg, contract, now);
    var sent := Sent([First(contract, now)], cfg);
    var flatten := Flatten(0, CloseEnv(true, SellBooked(Some(1.1))));
    es := sent + [BrokerFills(2, 1.1)] + [flatten];
    RunTwoMore(sent, BrokerFills(2, 1.1), flatten, cfg);
    FlattenAfterFill(Step(Run(EMPTY, sent, cfg), BrokerFills(2, 1.1), cfg), flatten, cfg);
  }

  lemma FlattenAfterFill(s: State, flatten: Event, cfg: Config)
    requires flatten == Flatten(0, CloseEnv(true, SellBooked(Some(1.1))))
    requires s.phase == Idle && 0 in s.open && s.open[0].stopOrder.None? && |s.orders| == 3
    requires s.orders[2].kind.ManualSell? && s.orders[2].owner == 0 && s.orders[2].status.Filled?
    ensures SoldTwice(Step(s, flatten, cfg), 0, 2, 3)
  {
    assert Cancelled(s.orders, None, true) == s.orders;
  }

  /** The stop fills between the stop read and the push: modify_stop falls back to cancel and
      submit, and the new stop sells the position again. */
  lemma ModifySellsTwice(cfg: Config, contract: Contract, now: Moment) returns (es: seq<Event>)
    requires Suits(cfg) && contract.expiration > now.etDate + 3
    ensures SoldTwice(Run(EMPTY, es, cfg), 0, 1, 2)
  {
    var first := First(contract, now);
    FirstOpens(cfg, contract, now);
    var book := Run(EMPTY, [first], cfg);
    var push := FinishAdvance(Some(2.0), now, false, ModifyFate(true, true, false, false), CloseEnv(true, SellRejected));
    RunTwoMore([first], StartAdvance(0), ReadStop(false, Written), cfg);
    var quoted := Step(Step(book, StartAdvance(0), cfg), ReadStop(false, Written), cfg);
    assert quoted == book.(phase := Quoted(0));
    var before := [first] + [StartAdvance(0)] + [ReadStop(false, Written)];
    RunTwoMore(before, BrokerFills(1, 0.8), push, cfg);
    var filled := Step(quoted, BrokerFills(1, 0.8), cfg);
    PushAtTwo(filled, push, cfg);
    es := before + [BrokerFills(1, 0.8)] + [push] + [BrokerFills(2, 1.9)];
    RunOneMore(before + [BrokerFills(1, 0.8)] + [push], BrokerFills(2, 1.9), cfg);
  }

  /** A quote of 2.0 for a position bought at 1.0 moves the stop to 1.94. */
  lemma PushAtTwo(s: State, push: Event, cfg: Config)
    requires push.FinishAdvance? && push.quote == Some(2.0) && !push.readRaises
    requires push.push == ModifyFate(true, true, false, false) && push.env.sell.SellRejected?
    requires s.phase == Quoted(0) && 0 in s.open && |s.orders| == 2
    requires var r := s.open[0];
             && r.stopOrder == Some(1) && r.entryPrice == 1.0
             && r.position.entryPrice == 1.0 && r.position.peakPrice == 1.0 && r.position.stopPrice < 1.0
             && r.position.expiration > push.now.etDate + 3 && r.position.openedAt == push.now.utc
    requires s.orders[1].stopPrice.Some? && s.orders[1].stopPrice.value <= 1.005 && s.orders[1].status.Filled?
    ensures var t := Step(s, push, cfg);
            && |t.orders| == 3 && t.orders[1] == s.orders[1]
            && t.orders[2] == Order(0, StopSell, s.open[0].qty, Some(1.94), Live)
  {
    var verdict := Verdict(s.open[0], push);
    assert verdict.Ok? && verdict.value.position.stopPrice == 1.94 && verdict.value.exit.None?;
    assert PushesStop(s, 0, push);
  }
}
