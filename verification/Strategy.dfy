/** The trailing-stop strategy (strategy.py) and its restart path.

    Evaluate is the code's tick function. The lemmas show that folding it over any
    price history gives a closed form of the running maximum alone, and that a
    position rebuilt after a restart is sandwiched between the stop that was on the
    book and the stop of the position that was never interrupted. */
module Strategy {
  import opened Prelude

  const TRAIL_ACTIVATION_GAIN := 0.05
  const TRAIL_WIDTH := 0.05
  const TIGHT_TRAIL_GAIN := 0.40
  const TIGHT_TRAIL_WIDTH := 0.03

  const MARKET_CLOSE := At(15, 55)
  const DTE_THRESHOLD_DAYS := 1
  const EOD_DTE_THRESHOLD_DAYS := 3
  const STALE_WINDOW := 4 * 3600
  const STALE_MOVEMENT_PCT := 0.02

  datatype ExitReason = StopLoss | TimeStop1555 | DteClose | StaleNoMovement

  datatype Position = Position(
    entryPrice: real,
    qty: int,
    openedAt: int,
    expiration: int,
    initialStopPct: real,
    stopPrice: real,
    peakPrice: real,
    ratchetLevel: int)

  datatype ExitDecision = ExitDecision(reason: ExitReason, exitPrice: real, triggeredAt: int)

  datatype Evaluation = Evaluation(position: Position, exit: Option<ExitDecision>)

  function OpenPosition(entryPrice: real, qty: int, openedAt: int, expiration: int, initialStopPct: real)
    : Result<Position>
  {
    if qty <= 0 || entryPrice <= 0.0 || !(0.0 < initialStopPct < 1.0) then
      Err(ValueError)
    else
      Ok(Position(entryPrice, qty, openedAt, expiration, initialStopPct,
                  entryPrice * (1.0 - initialStopPct), entryPrice, 0))
  }

  /** Step 1 of a tick: raise the peak, then the level and the stop, never lowering any. */
  function Advance(p: Position, price: real): Position
    requires p.entryPrice != 0.0
  {
    var peak := if price > p.peakPrice then price else p.peakPrice;
    var gain := (peak - p.entryPrice) / p.entryPrice;
    var trail :=
      if gain >= TIGHT_TRAIL_GAIN then Some(peak * (1.0 - TIGHT_TRAIL_WIDTH))
      else if gain >= TRAIL_ACTIVATION_GAIN then Some(peak * (1.0 - TRAIL_WIDTH))
      else None;
    var level :=
      if gain >= TIGHT_TRAIL_GAIN then 2
      else if gain >= TRAIL_ACTIVATION_GAIN then 1
      else p.ratchetLevel;
    var stop :=
      if trail.Some? then
        var candidate := if trail.value >= p.entryPrice then trail.value else p.entryPrice;
        if candidate > p.stopPrice then candidate else p.stopPrice
      else p.stopPrice;
    p.(stopPrice := stop, peakPrice := peak, ratchetLevel := MaxInt(level, p.ratchetLevel))
  }

  function IsAtOrPastClose(now: Moment): bool {
    now.etTime >= MARKET_CLOSE
  }

  /** Step 2 of a tick: the hard exits in priority order, for the advanced position. */
  function ExitReasonFor(p: Position, price: real, now: Moment): Option<ExitReason>
    requires p.entryPrice != 0.0
  {
    var daysToExpiry := p.expiration - now.etDate;
    if price <= p.stopPrice then Some(StopLoss)
    else if IsAtOrPastClose(now) && daysToExpiry <= EOD_DTE_THRESHOLD_DAYS then Some(TimeStop1555)
    else if daysToExpiry <= DTE_THRESHOLD_DAYS then Some(DteClose)
    else if now.utc - p.openedAt >= STALE_WINDOW
            && Abs(price - p.entryPrice) / p.entryPrice < STALE_MOVEMENT_PCT then Some(StaleNoMovement)
    else None
  }

  function Evaluate(p: Position, price: real, now: Moment): Result<Evaluation> {
    if price <= 0.0 then Err(ValueError)
    else if p.entryPrice == 0.0 then Err(DivisionByZero)
    else
      var q := Advance(p, price);
      var reason := ExitReasonFor(q, price, now);
      Ok(Evaluation(q, if reason.Some? then Some(ExitDecision(reason.value, price, now.utc)) else None))
  }

  // ---- Closed form ----------------------------------------------------------

  /** The running maximum of a price history, starting from a floor. */
  function Highest(floor: real, prices: seq<real>): (h: real)
    ensures h >= floor
    ensures forall i | 0 <= i < |prices| :: h >= prices[i]
    ensures h == floor || h in prices
  {
    if prices == [] then floor
    else Max(Highest(floor, prices[..|prices| - 1]), prices[|prices| - 1])
  }

  /** 0: initial stop, 1: 5% trail, 2: 3% trail. */
  function Regime(entry: real, peak: real): int {
    if peak >= entry * 1.40 then 2 else if peak >= entry * 1.05 then 1 else 0
  }

  /** The trail a peak in regime 1 or 2 demands. */
  function TrailStop(entry: real, peak: real): real {
    if Regime(entry, peak) == 2 then peak * 0.97 else Max(entry, peak * 0.95)
  }

  /** The stop after the peak has been reached, given the stop held before. */
  function Lift(entry: real, peak: real, stop: real): real {
    if Regime(entry, peak) == 0 then stop else Max(stop, TrailStop(entry, peak))
  }

  /** The stop of an opened position, as a function of its peak only. */
  function ClosedStop(start: Position, peak: real): real {
    if Regime(start.entryPrice, peak) == 0 then start.stopPrice else TrailStop(start.entryPrice, peak)
  }

  /** The fold of the tick function over a price history (exits ignored). */
  function Track(p: Position, prices: seq<real>): (q: Position)
    requires p.entryPrice > 0.0
    ensures q.entryPrice == p.entryPrice
  {
    if prices == [] then p
    else Advance(Track(p, prices[..|prices| - 1]), prices[|prices| - 1])
  }

  /** The position's own peak has already been acted upon. */
  ghost predicate Settled(p: Position) {
    p.entryPrice > 0.0
    && Lift(p.entryPrice, p.peakPrice, p.stopPrice) == p.stopPrice
    && 0 <= Regime(p.entryPrice, p.peakPrice) <= p.ratchetLevel
  }

  lemma GainAtLeast(peak: real, entry: real, gain: real)
    requires entry > 0.0
    ensures (peak - entry) / entry >= gain <==> peak >= entry * (1.0 + gain)
  {
    var g := (peak - entry) / entry;
    assert g * entry == peak - entry;
    if g >= gain {
      assert g * entry >= gain * entry;
    } else {
      assert g * entry < gain * entry;
    }
  }

  /** One tick, with the division gone. */
  lemma AdvanceLifts(p: Position, price: real)
    requires p.entryPrice > 0.0 && p.ratchetLevel >= 0
    ensures var peak := Max(p.peakPrice, price);
            Advance(p, price) == p.(peakPrice := peak,
                                    stopPrice := Lift(p.entryPrice, peak, p.stopPrice),
                                    ratchetLevel := MaxInt(Regime(p.entryPrice, peak), p.ratchetLevel))
  {
    var peak := Max(p.peakPrice, price);
    GainAtLeast(peak, p.entryPrice, TIGHT_TRAIL_GAIN);
    GainAtLeast(peak, p.entryPrice, TRAIL_ACTIVATION_GAIN);
  }

  /** A higher peak never asks for a lower stop, across the regime borders too. */
  lemma TrailMonotone(entry: real, low: real, high: real, stop: real)
    requires entry > 0.0 && low <= high
    ensures Regime(entry, low) <= Regime(entry, high)
    ensures Lift(entry, low, stop) <= Lift(entry, high, stop)
    ensures Lift(entry, high, Lift(entry, low, stop)) == Lift(entry, high, stop)
  {}

  /** Path independence: the whole history acts through its maximum alone. */
  lemma {:induction false} TrackClosedForm(p: Position, prices: seq<real>)
    requires Settled(p)
    ensures var peak := Highest(p.peakPrice, prices);
            Track(p, prices) == p.(peakPrice := peak,
                                   stopPrice := Lift(p.entryPrice, peak, p.stopPrice),
                                   ratchetLevel := MaxInt(Regime(p.entryPrice, peak), p.ratchetLevel))
    ensures Settled(Track(p, prices))
  {
    if prices != [] {
      var before, price := prices[..|prices| - 1], prices[|prices| - 1];
      TrackClosedForm(p, before);
      AdvanceLifts(Track(p, before), price);
      TrailMonotone(p.entryPrice, Highest(p.peakPrice, before), Highest(p.peakPrice, prices), p.stopPrice);
    }
  }

  /** What OpenPosition guarantees: the initial stop lies strictly below the entry. */
  ghost predicate Fresh(p: Position) {
    p.entryPrice > 0.0 && 0.0 < p.stopPrice < p.entryPrice && p.peakPrice == p.entryPrice && p.ratchetLevel == 0
  }

  lemma OpenedIsFresh(entry: real, qty: int, openedAt: int, expiration: int, pct: real)
    ensures var r := OpenPosition(entry, qty, openedAt, expiration, pct);
            r.Ok? ==> Fresh(r.value) && Settled(r.value)
  {
    if OpenPosition(entry, qty, openedAt, expiration, pct).Ok? {
      ProductIsPositive(entry, pct);
      ProductIsPositive(entry, 1.0 - pct);
      assert entry * (1.0 - pct) == entry - entry * pct;
    }
  }

  lemma ProductIsPositive(a: real, b: real)
    requires a > 0.0 && b > 0.0
    ensures a * b > 0.0
  {}

  /** Main result: a freshly opened position after any history of prices. */
  lemma OpenedClosedForm(p: Position, prices: seq<real>)
    requires Fresh(p)
    ensures var peak := Highest(p.entryPrice, prices);
            Track(p, prices) == p.(peakPrice := peak,
                                   stopPrice := ClosedStop(p, peak),
                                   ratchetLevel := Regime(p.entryPrice, peak))
  {
    TrackClosedForm(p, prices);
  }

  /** The stop never falls over the life of a position, whatever prices arrive. */
  lemma StopNeverFalls(p: Position, earlier: seq<real>, later: seq<real>)
    requires Settled(p)
    ensures Track(p, earlier).stopPrice <= Track(p, earlier + later).stopPrice
    ensures Track(p, earlier).ratchetLevel <= Track(p, earlier + later).ratchetLevel
  {
    TrackClosedForm(p, earlier);
    TrackClosedForm(p, earlier + later);
    HighestGrows(p.peakPrice, earlier, later);
    TrailMonotone(p.entryPrice, Highest(p.peakPrice, earlier), Highest(p.peakPrice, earlier + later), p.stopPrice);
  }

  lemma {:induction false} HighestGrows(floor: real, earlier: seq<real>, later: seq<real>)
    ensures Highest(floor, earlier + later) == Highest(Highest(floor, earlier), later)
  {
    if later == [] {
      assert earlier + later == earlier;
    } else {
      var n := |earlier + later| - 1;
      assert (earlier + later)[..n] == earlier + later[..|later| - 1];
      HighestGrows(floor, earlier, later[..|later| - 1]);
    }
  }

  /** A tick at or above every price seen so far is never a stop-out, and the stop
      always sits strictly below the peak. */
  lemma NewHighIsNeverStoppedOut(p: Position, prices: seq<real>, price: real, now: Moment)
    requires Fresh(p)
    requires price >= Highest(p.entryPrice, prices)
    ensures Track(p, prices).stopPrice < Track(p, prices).peakPrice
    ensures var r := Evaluate(Track(p, prices), price, now);
            r.Ok? && (r.value.exit.Some? ==> r.value.exit.value.reason != StopLoss)
  {
    var q := Track(p, prices);
    OpenedClosedForm(p, prices);
    StopBelowPeak(p, q.peakPrice);
    StopBelowPeak(p, price);
    AdvanceLifts(q, price);
    TrailMonotone(p.entryPrice, q.peakPrice, price, p.stopPrice);
    StopLossOnlyAtOrBelowStop(Advance(q, price), price, now);
  }

  lemma StopBelowPeak(p: Position, peak: real)
    requires Fresh(p) && peak >= p.entryPrice
    ensures ClosedStop(p, peak) < peak
    ensures ClosedStop(p, peak) == Lift(p.entryPrice, peak, p.stopPrice)
  {}

  lemma StopLossOnlyAtOrBelowStop(q: Position, price: real, now: Moment)
    requires q.entryPrice > 0.0
    ensures ExitReasonFor(q, price, now) == Some(StopLoss) <==> price <= q.stopPrice
  {}

  lemma NearEntry(price: real, entry: real)
    requires entry > 0.0
    ensures Abs(price - entry) / entry < 0.02 <==> 0.98 * entry < price < 1.02 * entry
  {
    QuotientBelow(Abs(price - entry), entry, 0.02);
  }

  lemma QuotientBelow(a: real, b: real, c: real)
    requires b > 0.0
    ensures a / b < c <==> a < c * b
  {
    var q := a / b;
    assert q * b == a;
    if q < c {
      assert (c - q) * b > 0.0;
    } else {
      assert (q - c) * b >= 0.0;
    }
  }

  // ---- Restart --------------------------------------------------------------

  /** The position _adopt_position rebuilds: the book's stop, no peak, no level. */
  function Adopted(p: Position, bookStop: real): Position {
    p.(stopPrice := bookStop, peakPrice := 0.0, ratchetLevel := 0)
  }

  /** A restart costs protection but never more than the crash already had: for every
      later history the adopted stop lies between the stop on the book at the crash and
      the stop of the uninterrupted position, and meets the latter as soon as the prices
      after the restart regain the old peak with the trail active. */
  lemma RestartSandwich(p: Position, before: seq<real>, bookStop: real, after: seq<real>)
    requires Fresh(p)
    requires bookStop <= Track(p, before).stopPrice
    ensures bookStop <= Track(Adopted(Track(p, before), bookStop), after).stopPrice
    ensures Track(Adopted(Track(p, before), bookStop), after).stopPrice <= Track(p, before + after).stopPrice
    ensures var regained := Highest(0.0, after);
            regained >= Highest(p.entryPrice, before) && Regime(p.entryPrice, regained) > 0 ==>
              Track(Adopted(Track(p, before), bookStop), after) == Track(p, before + after)
  {
    var peak, regained := Highest(p.entryPrice, before), Highest(0.0, after);
    OpenedClosedForm(p, before);
    OpenedClosedForm(p, before + after);
    TrackClosedForm(Adopted(Track(p, before), bookStop), after);
    HighestGrows(p.entryPrice, before, after);
    HighestFromPeak(peak, after);
    LiftSandwich(p, peak, regained, bookStop);
  }

  /** One tick keeps a position settled and lowers neither its peak nor its stop. */
  lemma AdvanceSettles(p: Position, price: real)
    requires Settled(p)
    ensures var q := Advance(p, price);
            Settled(q) && q.entryPrice == p.entryPrice && q.peakPrice >= p.peakPrice && q.stopPrice >= p.stopPrice
  {
    AdvanceLifts(p, price);
    TrailMonotone(p.entryPrice, p.peakPrice, Max(p.peakPrice, price), p.stopPrice);
  }

  /** A resumed stop against the uninterrupted one, both lifted from what they held. */
  predicate Meet(resumed: real, unbroken: real, start: real, stop: real, regained: bool) {
    && start <= resumed <= Max(start, unbroken)
    && (regained ==> Max(resumed, stop) == Max(unbroken, start))
  }

  /** The same comparison from any settled position p and any stop a restart may begin with. With
      the old peak regained the trail is back: the two stops differ only where the stop at the
      crash or the one at the start was higher than the trail. */
  lemma ResumedSandwich(p: Position, q: Position, after: seq<real>)
    requires Settled(p) && p.peakPrice >= 0.0
    requires q.entryPrice == p.entryPrice && q.peakPrice == 0.0 && q.ratchetLevel == 0
    ensures var regained := Highest(0.0, after);
            Meet(Track(q, after).stopPrice, Track(p, after).stopPrice, q.stopPrice, p.stopPrice,
                 regained >= p.peakPrice && Regime(p.entryPrice, regained) > 0)
  {
    HighestFromPeak(p.peakPrice, after);
    TrackedStop(p, after);
    TrackedStop(q, after);
    LiftsMeet(p.entryPrice, p.peakPrice, p.stopPrice, q.stopPrice, Highest(0.0, after));
  }

  lemma TrackedStop(p: Position, prices: seq<real>)
    requires p.entryPrice > 0.0 && (Settled(p) || (p.peakPrice == 0.0 && p.ratchetLevel == 0))
    ensures Track(p, prices).stopPrice == Lift(p.entryPrice, Highest(p.peakPrice, prices), p.stopPrice)
  {
    TrackClosedForm(p, prices);
  }

  lemma LiftsMeet(entry: real, peak: real, stop: real, start: real, regained: real)
    requires entry > 0.0 && Lift(entry, peak, stop) == stop
    ensures Meet(Lift(entry, regained, start), Lift(entry, Max(peak, regained), stop), start, stop,
                 regained >= peak && Regime(entry, regained) > 0)
  {
    if regained <= peak {
      TrailMonotone(entry, regained, peak, stop);
    }
  }

  lemma LiftSandwich(p: Position, peak: real, regained: real, bookStop: real)
    requires Fresh(p) && peak >= p.entryPrice && regained >= 0.0
    requires bookStop <= ClosedStop(p, peak)
    ensures bookStop <= Lift(p.entryPrice, regained, bookStop) <= ClosedStop(p, Max(peak, regained))
    ensures regained >= peak && Regime(p.entryPrice, regained) > 0 ==>
              Lift(p.entryPrice, regained, bookStop) == ClosedStop(p, regained)
  {}

  lemma {:induction false} HighestFromPeak(peak: real, prices: seq<real>)
    requires peak >= 0.0
    ensures Highest(peak, prices) == Max(peak, Highest(0.0, prices))
  {
    if prices != [] {
      HighestFromPeak(peak, prices[..|prices| - 1]);
    }
  }
}
