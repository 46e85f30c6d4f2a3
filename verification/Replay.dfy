/** The historical replay loop (scripts/backtest_signals.py): one trade's ticks run
    through the strategy. The loop carries a Position from tick to tick; its contract
    speaks only of the raw tick list. */
module Replay {
  import opened Prelude
  import opened Strategy

  datatype Tick = Tick(at: Moment, price: real)

  datatype Ending = Exited(reason: ExitReason) | EndOfData

  datatype TradeResult = TradeResult(
    tradeId: string,
    entryPrice: real,
    exitPrice: real,
    ending: Ending,
    exitTs: int,
    pnl: real,
    pnlPct: real,
    ratchetLevel: int,
    holdMinutes: int)

  /** The prices the strategy has seen once tick i is in: the first tick is the entry. */
  function PricesTo(ticks: seq<Tick>, i: nat): (prices: seq<real>)
    requires i < |ticks|
    ensures |prices| == i
    ensures forall j | 0 <= j < i :: prices[j] == ticks[j + 1].price
  {
    seq(i, j requires 0 <= j < i => ticks[j + 1].price)
  }

  /** The running peak at tick i, from the raw prices. */
  ghost function PeakAt(entry: real, ticks: seq<Tick>, i: nat): real
    requires i < |ticks|
  {
    Highest(entry, PricesTo(ticks, i))
  }

  /** The trailing stop in force at tick i, from the raw prices. */
  ghost function StopAt(entry: real, initialStop: real, ticks: seq<Tick>, i: nat): real
    requires i < |ticks|
  {
    var peak := PeakAt(entry, ticks, i);
    if peak < entry * 1.05 then initialStop
    else if peak < entry * 1.40 then Max(entry, peak * 0.95)
    else peak * 0.97
  }

  /** The stateless firing condition at tick i: which exit rule, if any, the raw prefix
      of ticks calls for, in priority order. */
  ghost function FiringAt(entry: real, initialStop: real, expiration: int, ticks: seq<Tick>, i: nat): Option<ExitReason>
    requires entry > 0.0
    requires i < |ticks|
  {
    var tick := ticks[i];
    var daysToExpiry := expiration - tick.at.etDate;
    if tick.price <= StopAt(entry, initialStop, ticks, i) then Some(StopLoss)
    else if tick.at.etTime >= 15 * 3600 + 55 * 60 && daysToExpiry <= 3 then Some(TimeStop1555)
    else if daysToExpiry <= 1 then Some(DteClose)
    else if tick.at.utc - ticks[0].at.utc >= 4 * 3600
            && 0.98 * entry < tick.price < 1.02 * entry then Some(StaleNoMovement)
    else None
  }

  /** Tick i neither raises nor fires. */
  ghost predicate Quiet(entry: real, initialStop: real, expiration: int, ticks: seq<Tick>, i: nat)
    requires entry > 0.0
    requires i < |ticks|
  {
    ticks[i].price > 0.0 && FiringAt(entry, initialStop, expiration, ticks, i) == None
  }

  /** Tick k is the first one that is not quiet. */
  ghost predicate FirstStir(entry: real, initialStop: real, expiration: int, ticks: seq<Tick>, k: int)
    requires entry > 0.0
  {
    && 1 <= k < |ticks|
    && !Quiet(entry, initialStop, expiration, ticks, k)
    && forall j | 1 <= j < k :: Quiet(entry, initialStop, expiration, ticks, j)
  }

  predicate BadArguments(entry: real, stopPct: real) {
    entry <= 0.0 || !(0.0 < stopPct < 1.0)
  }

  /** A position as OpenPosition makes it from the replay's arguments. */
  ghost predicate OpenedFrom(p: Position, entry: real, initialStop: real, expiration: int, openTs: int) {
    Fresh(p) && Settled(p) && p.entryPrice == entry && p.stopPrice == initialStop
    && p.expiration == expiration && p.openedAt == openTs
  }

  /** The carried position's stop is the stateless one. */
  lemma TrackedStop(p: Position, entry: real, initialStop: real, expiration: int, ticks: seq<Tick>, i: nat)
    requires i < |ticks|
    requires OpenedFrom(p, entry, initialStop, expiration, ticks[0].at.utc)
    ensures Track(p, PricesTo(ticks, i)).stopPrice == StopAt(entry, initialStop, ticks, i)
    ensures Track(p, PricesTo(ticks, i)).ratchetLevel == Regime(entry, PeakAt(entry, ticks, i))
    ensures Track(p, PricesTo(ticks, i)).entryPrice == entry
    ensures Track(p, PricesTo(ticks, i)).openedAt == ticks[0].at.utc
    ensures Track(p, PricesTo(ticks, i)).expiration == expiration
  {
    OpenedClosedForm(p, PricesTo(ticks, i));
  }

  /** The exit rules read the position through its stop, entry, opening and expiration only. */
  lemma VerdictIsStateless(q: Position, entry: real, initialStop: real, expiration: int, ticks: seq<Tick>, i: nat)
    requires i < |ticks| && entry > 0.0
    requires q.stopPrice == StopAt(entry, initialStop, ticks, i)
    requires q.entryPrice == entry && q.openedAt == ticks[0].at.utc && q.expiration == expiration
    ensures ExitReasonFor(q, ticks[i].price, ticks[i].at) == FiringAt(entry, initialStop, expiration, ticks, i)
  {
    NearEntry(ticks[i].price, entry);
  }

  lemma TrackStep(p: Position, ticks: seq<Tick>, i: nat)
    requires 1 <= i < |ticks| && p.entryPrice > 0.0
    ensures Advance(Track(p, PricesTo(ticks, i - 1)), ticks[i].price) == Track(p, PricesTo(ticks, i))
  {
    assert PricesTo(ticks, i)[..i - 1] == PricesTo(ticks, i - 1);
  }

  /** The strategy's verdict at tick i, on the position the prefix produced, is the
      stateless firing condition. */
  lemma EvaluateIsStateless(p: Position, entry: real, initialStop: real, expiration: int, ticks: seq<Tick>, i: nat)
    requires 1 <= i < |ticks| && ticks[i].price > 0.0
    requires OpenedFrom(p, entry, initialStop, expiration, ticks[0].at.utc)
    ensures var r := Evaluate(Track(p, PricesTo(ticks, i - 1)), ticks[i].price, ticks[i].at);
            var firing := FiringAt(entry, initialStop, expiration, ticks, i);
            r == Ok(Evaluation(Track(p, PricesTo(ticks, i)),
                               if firing.Some? then Some(ExitDecision(firing.value, ticks[i].price, ticks[i].at.utc))
                               else None))
  {
    TrackStep(p, ticks, i);
    TrackedStop(p, entry, initialStop, expiration, ticks, i);
    VerdictIsStateless(Track(p, PricesTo(ticks, i)), entry, initialStop, expiration, ticks, i);
  }

  /** What a replay that does not raise must report: the first stirring tick with the reason
      its raw prefix calls for, or the last tick as end_of_data when none stirs. */
  ghost predicate Reports(t: TradeResult, entry: real, initialStop: real, expiration: int, ticks: seq<Tick>)
    requires entry > 0.0
  {
    if t.ending.Exited? then
      exists k :: FirstStir(entry, initialStop, expiration, ticks, k)
                  && FiringAt(entry, initialStop, expiration, ticks, k) == Some(t.ending.reason)
                  && ReportsTick(t, entry, ticks, k)
    else
      && |ticks| > 0
      && (forall j | 1 <= j < |ticks| :: Quiet(entry, initialStop, expiration, ticks, j))
      && ReportsTick(t, entry, ticks, |ticks| - 1)
  }

  ghost predicate ReportsTick(t: TradeResult, entry: real, ticks: seq<Tick>, k: nat)
    requires k < |ticks| && entry > 0.0
  {
    && t.entryPrice == entry
    && t.exitPrice == ticks[k].price
    && t.exitTs == ticks[k].at.utc
    && t.ratchetLevel == Regime(entry, PeakAt(entry, ticks, k))
    && t.pnl == ticks[k].price - entry
    && t.pnlPct == t.pnl / entry
    && t.holdMinutes == TruncDiv(ticks[k].at.utc - ticks[0].at.utc, 60)
  }

  /** Some tick without a positive price comes before anything has fired. */
  ghost predicate Derails(entry: real, initialStop: real, expiration: int, ticks: seq<Tick>)
    requires entry > 0.0
  {
    exists k :: FirstStir(entry, initialStop, expiration, ticks, k) && ticks[k].price <= 0.0
  }

  /** The loop of backtest_one over the ticks after the entry tick. */
  method ReplayTicks(start: Position, ticks: seq<Tick>)
    returns (raised: Option<Error>, finalExit: Option<ExitDecision>, position: Position, ghost last: nat)
    requires |ticks| > 0
    requires Fresh(start) && Settled(start) && start.openedAt == ticks[0].at.utc
    ensures raised.Some? <==> Derails(start.entryPrice, start.stopPrice, start.expiration, ticks)
    ensures raised.Some? ==> raised.value == ValueError
    ensures raised.None? && finalExit.None? ==>
              && last == |ticks| - 1
              && forall j | 1 <= j < |ticks| :: Quiet(start.entryPrice, start.stopPrice, start.expiration, ticks, j)
    ensures raised.None? && finalExit.Some? ==>
              FirstStir(start.entryPrice, start.stopPrice, start.expiration, ticks, last)
              && FiringAt(start.entryPrice, start.stopPrice, start.expiration, ticks, last)
                 == Some(finalExit.value.reason)
              && finalExit.value.exitPrice == ticks[last].price
              && finalExit.value.triggeredAt == ticks[last].at.utc
    ensures raised.None? ==> last < |ticks| && position == Track(start, PricesTo(ticks, last))
  {
    ghost var entry, initialStop, expiration := start.entryPrice, start.stopPrice, start.expiration;
    position, finalExit := start, None;
    var i := 1;
    while i < |ticks|
      invariant 1 <= i <= |ticks|
      invariant finalExit.None?
      invariant position == Track(start, PricesTo(ticks, i - 1))
      invariant forall j | 1 <= j < i :: Quiet(entry, initialStop, expiration, ticks, j)
    {
      var result := Evaluate(position, ticks[i].price, ticks[i].at);
      if result.Err? {
        assert FirstStir(entry, initialStop, expiration, ticks, i);
        return Some(result.error), None, position, i;
      }
      EvaluateIsStateless(start, entry, initialStop, expiration, ticks, i);
      position := result.value.position;
      if result.value.exit.Some? {
        assert FirstStir(entry, initialStop, expiration, ticks, i);
        return None, result.value.exit, position, i;
      }
      i := i + 1;
    }
    return None, None, position, |ticks| - 1;
  }

  /** Replays one trade. It exits at exactly the first tick that stirs, with the reason
      the raw prefix calls for there; it raises iff that tick's price is not positive; and
      it reports end_of_data iff no tick stirs. */
  method BacktestOne(tradeId: string, ticks: seq<Tick>, entry: real, expiration: int, stopPct: real)
    returns (r: Result<Option<TradeResult>>)
    ensures ticks == [] ==> r == Ok(None)
    ensures ticks != [] && BadArguments(entry, stopPct) ==> r == Err(ValueError)
    ensures ticks != [] && !BadArguments(entry, stopPct) ==>
              var initialStop := entry * (1.0 - stopPct);
              if Derails(entry, initialStop, expiration, ticks) then r == Err(ValueError)
              else r.Ok? && r.value.Some? && Reports(r.value.value, entry, initialStop, expiration, ticks)
  {
    if ticks == [] {
      return Ok(None);
    }
    var openTs := ticks[0].at.utc;
    var opening := OpenPosition(entry, 1, openTs, expiration, stopPct);
    if opening.Err? {
      return Err(opening.error);
    }
    OpenedIsFresh(entry, 1, openTs, expiration, stopPct);
    var start := opening.value;
    var raised, finalExit, position, k := ReplayTicks(start, ticks);
    if raised.Some? {
      return Err(raised.value);
    }
    TrackedStop(start, entry, start.stopPrice, expiration, ticks, k);
    var last := ticks[|ticks| - 1];
    var exitPrice := if finalExit.Some? then finalExit.value.exitPrice else last.price;
    var exitTs := if finalExit.Some? then finalExit.value.triggeredAt else last.at.utc;
    var ending := if finalExit.Some? then Exited(finalExit.value.reason) else EndOfData;
    var pnl := exitPrice - entry;
    var t := TradeResult(tradeId, entry, exitPrice, ending, exitTs, pnl, pnl / entry,
                         position.ratchetLevel, TruncDiv(exitTs - openTs, 60));
    assert ReportsTick(t, entry, ticks, k);
    r := Ok(Some(t));
  }

  lemma FiringIsPrefixStable(entry: real, initialStop: real, expiration: int, ticks: seq<Tick>, more: seq<Tick>, j: nat)
    requires entry > 0.0
    requires j < |ticks|
    ensures FiringAt(entry, initialStop, expiration, ticks + more, j)
            == FiringAt(entry, initialStop, expiration, ticks, j)
  {
    assert PricesTo(ticks + more, j) == PricesTo(ticks, j);
  }

  /** Recording more ticks never changes an exit that the shorter recording already had. */
  lemma ExitIsPrefixStable(entry: real, initialStop: real, expiration: int, ticks: seq<Tick>, more: seq<Tick>, k: int)
    requires entry > 0.0
    requires FirstStir(entry, initialStop, expiration, ticks, k)
    ensures FirstStir(entry, initialStop, expiration, ticks + more, k)
    ensures FiringAt(entry, initialStop, expiration, ticks + more, k)
            == FiringAt(entry, initialStop, expiration, ticks, k)
  {
    forall j | 1 <= j <= k
      ensures Quiet(entry, initialStop, expiration, ticks + more, j) == Quiet(entry, initialStop, expiration, ticks, j)
    {
      FiringIsPrefixStable(entry, initialStop, expiration, ticks, more, j);
    }
    FiringIsPrefixStable(entry, initialStop, expiration, ticks, more, k);
  }
}
