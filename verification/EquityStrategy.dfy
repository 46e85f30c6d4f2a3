/** Entry gate, exit rules and arithmetic of the scanner shorts (equity_strategy.py). */
module EquityStrategy {
  import opened Prelude

  const ENTRY_FAILURE_CUTOFF := At(10, 30)
  const MAX_ENTRY_DELAY := 10 * 60
  const EXIT_HOLD := 60 * 60
  const EOD_FLATTEN := At(15, 55)

  datatype EntryReason =
    | Accepted | Disarmed | UnvalidatedHypothesis | NoVolumeRatio | VolumeRatioBelowMin
    | FailureAfterCutoff | StaleEvent | TickerAlreadyOpen | MaxConcurrentReached

  datatype ExitReason = EodFailsafe | TimeExit | StopBackup

  /** One event gets exactly one verdict, cheapest rejection first. */
  function EvaluateEntry(
    scannerName: string, volumeRatio: Option<real>, failure: Moment, now: Moment, armed: bool,
    openCount: int, tickerAlreadyOpen: bool, maxConcurrent: int, minVolumeRatio: real) : EntryReason
  {
    if !armed then Disarmed
    else if scannerName != "failed_breakout" then UnvalidatedHypothesis
    else if volumeRatio.None? then NoVolumeRatio
    else if volumeRatio.value < minVolumeRatio then VolumeRatioBelowMin
    else if failure.etTime >= ENTRY_FAILURE_CUTOFF then FailureAfterCutoff
    else if now.utc - failure.utc > MAX_ENTRY_DELAY then StaleEvent
    else if tickerAlreadyOpen then TickerAlreadyOpen
    else if openCount >= maxConcurrent then MaxConcurrentReached
    else Accepted
  }

  function EvaluateExit(entryTime: int, stopPrice: real, now: Moment, price: Option<real>): Option<ExitReason> {
    if now.etTime >= EOD_FLATTEN then Some(EodFailsafe)
    else if now.utc >= entryTime + EXIT_HOLD then Some(TimeExit)
    else if price.Some? && price.value >= stopPrice then Some(StopBackup)
    else None
  }

  /** The gate in raw terms: an event is shorted when it passes all eight checks, and otherwise
      rejected for the first one it fails. */
  lemma EntryInRawTerms(
    scannerName: string, volumeRatio: Option<real>, failure: Moment, now: Moment, armed: bool,
    openCount: int, tickerAlreadyOpen: bool, maxConcurrent: int, minVolumeRatio: real)
    ensures var r := EvaluateEntry(
                       scannerName, volumeRatio, failure, now, armed, openCount, tickerAlreadyOpen, maxConcurrent,
                       minVolumeRatio);
            var validated, measured := scannerName == "failed_breakout", volumeRatio.Some?;
            var loud := measured && volumeRatio.value >= minVolumeRatio;
            var early, recent := failure.etTime < 10 * 3600 + 30 * 60, now.utc <= failure.utc + 600;
            && (r == Disarmed <==> !armed)
            && (r == UnvalidatedHypothesis <==> armed && !validated)
            && (r == NoVolumeRatio <==> armed && validated && !measured)
            && (r == VolumeRatioBelowMin <==> armed && validated && measured && !loud)
            && (r == FailureAfterCutoff <==> armed && validated && loud && !early)
            && (r == StaleEvent <==> armed && validated && loud && early && !recent)
            && (r == TickerAlreadyOpen <==> armed && validated && loud && early && recent && tickerAlreadyOpen)
            && (r == MaxConcurrentReached <==>
                  armed && validated && loud && early && recent && !tickerAlreadyOpen && openCount >= maxConcurrent)
            && (r == Accepted <==>
                  armed && validated && loud && early && recent && !tickerAlreadyOpen && openCount < maxConcurrent)
  {}

  /** Decimal's ROUND_HALF_UP to an integer: ties go away from zero. */
  function RoundHalfUp(x: real): (n: int)
    ensures x - 0.5 <= n as real <= x + 0.5
    ensures x >= 0.0 && x - x.Floor as real == 0.5 ==> n == x.Floor + 1
    ensures x < 0.0 && x - x.Floor as real == 0.5 ==> n == x.Floor
  {
    if x >= 0.0 then (x + 0.5).Floor else -((-x + 0.5).Floor)
  }

  /** quantize(Decimal("0.01"), ROUND_HALF_UP), as a count of cents. */
  function Cents(x: real): int {
    RoundHalfUp(x * 100.0)
  }

  /** Whole shares for a dollar notional. */
  function SharesForNotional(notional: real, price: real): (n: int)
    ensures n >= 0
    ensures price > 0.0 && notional > 0.0 ==> 0.0 <= notional - n as real * price < price
    ensures n > 0 ==> price > 0.0
  {
    if price <= 0.0 || notional <= 0.0 then 0
    else
      var shares := (notional / price).Floor;
      FloorTimes(notional, price);
      shares
  }

  lemma FloorTimes(a: real, b: real)
    requires b > 0.0 && a > 0.0
    ensures (a / b).Floor >= 0 && 0.0 <= a - (a / b).Floor as real * b < b
  {
    assert (a / b) * b == a;
    Remainder(a, b, a / b, (a / b).Floor as real);
  }

  lemma Remainder(a: real, b: real, q: real, whole: real)
    requires b > 0.0 && a > 0.0 && q * b == a
    requires whole <= q < whole + 1.0
    ensures 0.0 <= a - whole * b < b
    ensures q > 0.0
  {
    var part := q - whole;
    var rest := part * b;
    assert rest == a - whole * b;
    Scale(part, 1.0, b);
    assert rest < 1.0 * b;
    Scale(0.0, part, b);
    Scale(q, 0.0, b);
  }

  lemma Scale(x: real, y: real, b: real)
    requires b > 0.0
    ensures x <= y ==> x * b <= y * b
    ensures x < y ==> x * b < y * b
  {
    assert y * b - x * b == (y - x) * b;
  }

  /** The protective buy-stop, 1% above the short's entry, in cents. */
  function StopPriceFor(entryPrice: real): real {
    Cents(entryPrice * 1.01) as real / 100.0
  }

  /** Gross P&L of a short in cents. */
  function ShortGrossCents(entryPrice: real, exitPrice: real, qty: int): int {
    Cents((entryPrice - exitPrice) * qty as real)
  }

  /** For an entry of n whole cents the stop is n + round(n / 100) cents, ties up; it lies
      above the entry iff the entry is at least 50 cents. */
  lemma StopInCents(n: int)
    requires n > 0
    ensures StopPriceFor(n as real / 100.0) == (n + (n + 50) / 100) as real / 100.0
    ensures StopPriceFor(n as real / 100.0) > n as real / 100.0 <==> n >= 50
  {
    var x := n as real / 100.0 * 1.01 * 100.0;
    var k := n + (n + 50) / 100;
    assert x + 0.5 == (101 * n + 50) as real / 100.0;
    assert 100 * k <= 101 * n + 50 < 100 * (k + 1);
    assert k as real <= x + 0.5 < (k + 1) as real;
    assert (x + 0.5).Floor == k;
  }

  /** A move of k whole cents a share is booked exactly. */
  lemma GrossOfWholeCents(entry: real, exit: real, k: int, qty: int)
    requires k >= 0 && qty > 0
    requires (exit - entry) * 100.0 == k as real
    ensures ShortGrossCents(entry, exit, qty) == -(k * qty)
  {
    var x := (entry - exit) * qty as real * 100.0;
    assert x == -(((exit - entry) * 100.0) * qty as real);
    ProductOfInts(k, qty);
    assert x == -((k * qty) as real);
    assert k * qty >= 0;
    assert ((k * qty) as real + 0.5).Floor == k * qty;
  }

  lemma ProductOfInts(a: int, b: int)
    ensures a as real * b as real == (a * b) as real
  {}

  /** The stop lies 1% above the entry, to half a cent, for every fill price. */
  lemma StopIsNear(entry: real)
    requires entry > 0.0
    ensures 0.01 * entry - 0.005 <= StopPriceFor(entry) - entry <= 0.01 * entry + 0.005
  {
    assert Cents(entry * 1.01) == RoundHalfUp(entry * 1.01 * 100.0);
  }

  /** A short stopped exactly at its stop price, at any fill price: the booked loss is within half
      a cent of qty times 1% of the entry, give or take half a cent a share. */
  lemma StopBoundsTheLoss(entry: real, qty: int)
    requires entry > 0.0 && qty > 0
    ensures var loss := -ShortGrossCents(entry, StopPriceFor(entry), qty) as real / 100.0;
            qty as real * (0.01 * entry - 0.005) - 0.005 <= loss <= qty as real * (0.01 * entry + 0.005) + 0.005
  {
    StopIsNear(entry);
    LossBetween(entry, StopPriceFor(entry), qty, 0.01 * entry - 0.005, 0.01 * entry + 0.005);
  }

  /** What a short loses when the price runs by between low and high a share. */
  lemma LossBetween(entry: real, exit: real, qty: int, low: real, high: real)
    requires qty > 0 && low <= exit - entry <= high
    ensures var loss := -ShortGrossCents(entry, exit, qty) as real / 100.0;
            qty as real * low - 0.005 <= loss <= qty as real * high + 0.005
  {
    ScaleBetween(entry, exit, low, high, qty as real);
    RoundedLoss(entry, exit, qty, qty as real * low, qty as real * high);
  }

  lemma ScaleBetween(entry: real, stop: real, low: real, high: real, shares: real)
    requires low <= stop - entry <= high && shares > 0.0
    ensures shares * low <= -((entry - stop) * shares) <= shares * high
  {
    var gap := stop - entry;
    assert shares * gap - shares * low == shares * (gap - low);
    assert shares * high - shares * gap == shares * (high - gap);
    assert -((entry - stop) * shares) == shares * gap;
  }

  lemma RoundedLoss(entry: real, exit: real, qty: int, low: real, high: real)
    requires low <= -((entry - exit) * qty as real) <= high
    ensures low - 0.005 <= -ShortGrossCents(entry, exit, qty) as real / 100.0 <= high + 0.005
  {
    CentsError((entry - exit) * qty as real);
  }

  lemma CentsError(x: real)
    ensures x - 0.005 <= Cents(x) as real / 100.0 <= x + 0.005
  {
    assert Cents(x) == RoundHalfUp(x * 100.0);
  }

  /** For a whole-cent entry the booking is exact: a loss, and no more than 1% of the entry and
      half a cent a share. */
  lemma StopBoundsTheLossInCents(n: int, qty: int)
    requires n > 0 && qty > 0
    ensures var entry := n as real / 100.0;
            var loss := -ShortGrossCents(entry, StopPriceFor(entry), qty) as real / 100.0;
            0.0 <= loss <= qty as real * (0.01 * entry + 0.005)
  {
    var entry := n as real / 100.0;
    var k := (n + 50) / 100;
    StopInCents(n);
    assert (StopPriceFor(entry) - entry) * 100.0 == k as real;
    GrossOfWholeCents(entry, StopPriceFor(entry), k, qty);
    WholeCentLoss(n, k, qty);
  }

  lemma WholeCentLoss(n: int, k: int, qty: int)
    requires qty > 0 && 0 <= k && k as real <= n as real / 100.0 + 0.5
    ensures 0.0 <= (k * qty) as real / 100.0 <= qty as real * (0.01 * (n as real / 100.0) + 0.005)
  {
    ProductOfInts(k, qty);
    Scale(k as real, n as real / 100.0 + 0.5, qty as real);
    assert k * qty >= 0;
  }

  /** Off the cent grid the sharper bound fails: a share shorted at 1.00496 and stopped books a
      loss of two cents. */
  lemma SharperBoundFailsOffTheGrid()
    ensures -ShortGrossCents(1.00496, StopPriceFor(1.00496), 1) as real / 100.0 == 0.02
    ensures 0.02 > 1.0 * (0.01 * 1.00496 + 0.005)
  {
    assert StopPriceFor(1.00496) == 1.02 by {
      assert (1.00496 * 1.01 * 100.0 + 0.5).Floor == 102;
    }
    assert (1.00496 - 1.02) * 1 as real * 100.0 == -1.504;
    assert (1.504 + 0.5).Floor == 2;
  }
}
