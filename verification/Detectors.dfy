/** The four scanner hypotheses (scanners/failed_breakout.py, scanners/lab.py).

    Each detector is a pair of loops with early breaks; its contract is a declarative
    "first trigger, then first confirm" specification. The lemmas show that the early
    breaks are sound on one session's bars and that an event, once there, is never
    changed by bars that arrive later. */
module Detectors {
  import opened Prelude
  import opened Bars

  const VWAP_STRENGTH_PCT := 0.003
  const GAP_MIN_PCT := 0.02
  const OPENING_RANGE_BARS := 3
  const GAP_CONFIRM_CUTOFF := At(11, 30)

  datatype PriorDay = PriorDay(high: real, low: real, close: real)

  function EventAt(ticker: string, trigger: Bar, triggerPrice: real, confirm: Bar, level: real, baseline: Option<real>): Event {
    Event(ticker, trigger.at.etDate, trigger.at.utc, triggerPrice, confirm.at.utc, confirm.close, level,
          VolumeRatio(confirm, baseline))
  }

  predicate InWindow(bar: Bar, w: Window) {
    w.earliest <= bar.at.etTime < w.cutoff
  }

  /** The scan gets to bar i: no earlier bar inside the day's watch is at or past the cutoff. */
  ghost predicate Reached(bars: seq<Bar>, i: int, w: Window) {
    forall k | 0 <= k < i && k < |bars| :: bars[k].at.etTime < w.earliest || bars[k].at.etTime < w.cutoff
  }

  predicate InTime(trigger: Bar, bar: Bar, w: Window) {
    bar.at.utc <= trigger.at.utc + w.minutes * 60
  }

  lemma ReachedInOneSession(bars: seq<Bar>, i: int, w: Window)
    requires TimeOrdered(bars) && OneSession(bars)
    requires 0 <= i < |bars| && InWindow(bars[i], w)
    ensures Reached(bars, i, w)
  {
    forall k | 0 <= k < i ensures bars[k].at.etTime < w.cutoff {
      assert bars[k].at.utc <= bars[i].at.utc;
    }
  }

  /** What every event means, whatever the hypothesis and the order the bars came in: the
      trigger is not after the confirmation and the confirming close lies strictly below the
      reference level. */
  ghost predicate Confirmed(e: Event) {
    e.triggerTs <= e.confirmTs && e.confirmPrice < e.level
  }

  // ---- failed_breakout ------------------------------------------------------

  ghost predicate Breaks(bars: seq<Bar>, i: int, level: real, w: Window) {
    0 <= i < |bars| && InWindow(bars[i], w) && bars[i].close > level
  }

  ghost predicate Fails(bars: seq<Bar>, b: int, j: int, level: real, w: Window) {
    0 <= b < j < |bars| && InTime(bars[b], bars[j], w) && bars[j].close < level
  }

  /** b is the first breakout the scan reaches and f the first failure after it. */
  ghost predicate BreaksThenFails(bars: seq<Bar>, level: real, w: Window, b: int, f: int) {
    && Breaks(bars, b, level, w) && Reached(bars, b, w)
    && (forall k | 0 <= k < b :: !Breaks(bars, k, level, w))
    && Fails(bars, b, f, level, w)
    && (forall k | b < k < f :: !Fails(bars, b, k, level, w))
  }

  ghost function FailedBreakoutIn(
    ticker: string, bars: seq<Bar>, level: real, w: Window, baseline: Option<real>): (r: Option<Event>)
    ensures TimeOrdered(bars) && r.Some? ==> Confirmed(r.value)
  {
    if exists b, f :: BreaksThenFails(bars, level, w, b, f) then
      var b, f :| BreaksThenFails(bars, level, w, b, f);
      Some(EventAt(ticker, bars[b], bars[b].close, bars[f], level, baseline))
    else None
  }

  ghost function FailedBreakoutOf(
    ticker: string, intraday: seq<Bar>, level: real, w: Window, baseline: Option<real>): (r: Option<Event>)
    ensures r.Some? ==> Confirmed(r.value)
  {
    SortSorts(intraday);
    if level <= 0.0 then None else FailedBreakoutIn(ticker, SortByTime(intraday), level, w, baseline)
  }

  lemma FailedBreakoutIs(ticker: string, bars: seq<Bar>, level: real, w: Window, baseline: Option<real>, b: int, f: int)
    requires BreaksThenFails(bars, level, w, b, f)
    ensures FailedBreakoutIn(ticker, bars, level, w, baseline)
            == Some(EventAt(ticker, bars[b], bars[b].close, bars[f], level, baseline))
  {
    forall c, g | BreaksThenFails(bars, level, w, c, g) ensures c == b && g == f {}
  }

  /** The trigger loop of find_failed_breakout. */
  method FirstBreakout(bars: seq<Bar>, level: real, w: Window) returns (breakout: int)
    ensures breakout == -1 ==> forall b | Breaks(bars, b, level, w) :: !Reached(bars, b, w)
    ensures breakout != -1 ==>
              && Breaks(bars, breakout, level, w) && Reached(bars, breakout, w)
              && forall k | 0 <= k < breakout :: !Breaks(bars, k, level, w)
  {
    var i := 0;
    while i < |bars|
      invariant 0 <= i <= |bars|
      invariant Reached(bars, i, w)
      invariant forall k | 0 <= k < i :: !Breaks(bars, k, level, w)
    {
      var t := bars[i].at.etTime;
      if t >= w.earliest {
        if t >= w.cutoff {
          break;
        }
        if bars[i].close > level {
          return i;
        }
      }
      i := i + 1;
    }
    return -1;
  }

  method FindFailedBreakout(ticker: string, intraday: seq<Bar>, priorHigh: real, w: Window, baseline: Option<real>)
    returns (r: Option<Event>)
    ensures r == FailedBreakoutOf(ticker, intraday, priorHigh, w, baseline)
  {
    if intraday == [] || priorHigh <= 0.0 {
      return None;
    }
    var bars := SortByTime(intraday);
    SortSorts(intraday);
    var breakout := FirstBreakout(bars, priorHigh, w);
    if breakout == -1 {
      return None;
    }
    var j := breakout + 1;
    while j < |bars|
      invariant breakout < j <= |bars|
      invariant forall k | breakout < k < j :: !Fails(bars, breakout, k, priorHigh, w)
    {
      if bars[j].at.utc > bars[breakout].at.utc + w.minutes * 60 {
        break;
      }
      if bars[j].close < priorHigh {
        FailedBreakoutIs(ticker, bars, priorHigh, w, baseline, breakout, j);
        return Some(EventAt(ticker, bars[breakout], bars[breakout].close, bars[j], priorHigh, baseline));
      }
      j := j + 1;
    }
    assert forall k | breakout < k < |bars| :: !Fails(bars, breakout, k, priorHigh, w);
    forall b, f | BreaksThenFails(bars, priorHigh, w, b, f) ensures b == breakout {}
    return None;
  }

  /** On one session's bars the early breaks cost nothing: the scan's answer is the first
      breakout of the window, then the first failure in time. */
  lemma FailedBreakoutInOneSession(bars: seq<Bar>, level: real, w: Window, b: int, f: int)
    requires TimeOrdered(bars) && OneSession(bars)
    ensures BreaksThenFails(bars, level, w, b, f) <==>
            && Breaks(bars, b, level, w) && (forall k | 0 <= k < b :: !Breaks(bars, k, level, w))
            && Fails(bars, b, f, level, w) && (forall k | b < k < f :: bars[k].close >= level)
  {
    if Breaks(bars, b, level, w) && Fails(bars, b, f, level, w) {
      ReachedInOneSession(bars, b, w);
      forall k | b < k < f ensures Fails(bars, b, k, level, w) <==> bars[k].close < level {
        assert bars[k].at.utc <= bars[f].at.utc;
      }
    }
  }

  /** Bars that arrive later never change an event already detected. */
  lemma FailedBreakoutIsPrefixStable(
    ticker: string, bars: seq<Bar>, later: seq<Bar>, level: real, w: Window, baseline: Option<real>)
    requires TimeOrdered(bars + later)
    requires FailedBreakoutOf(ticker, bars, level, w, baseline).Some?
    ensures FailedBreakoutOf(ticker, bars + later, level, w, baseline)
            == FailedBreakoutOf(ticker, bars, level, w, baseline)
  {
    OrderedPrefix(bars, later);
    SortOfOrdered(bars);
    SortOfOrdered(bars + later);
    var b, f :| BreaksThenFails(bars, level, w, b, f);
    assert forall k | 0 <= k < |bars| :: Breaks(bars + later, k, level, w) == Breaks(bars, k, level, w);
    assert forall k | 0 <= k < |bars| :: Fails(bars + later, b, k, level, w) == Fails(bars, b, k, level, w);
    FailedBreakoutIs(ticker, bars, level, w, baseline, b, f);
    FailedBreakoutIs(ticker, bars + later, level, w, baseline, b, f);
  }

  lemma OrderedPrefix(bars: seq<Bar>, later: seq<Bar>)
    requires TimeOrdered(bars + later)
    ensures TimeOrdered(bars)
  {
    assert forall i | 0 <= i < |bars| :: (bars + later)[i] == bars[i];
  }

  // ---- vwap_reject ----------------------------------------------------------

  function Typical(bar: Bar): real {
    (bar.high + bar.low + bar.close) / 3.0
  }

  function PriceVolume(bars: seq<Bar>): real {
    if bars == [] then 0.0
    else PriceVolume(bars[..|bars| - 1]) + Typical(bars[|bars| - 1]) * bars[|bars| - 1].volume
  }

  function Volume(bars: seq<Bar>): real {
    if bars == [] then 0.0 else Volume(bars[..|bars| - 1]) + bars[|bars| - 1].volume
  }

  /** The session VWAP after bar i: the volume-weighted mean of the bars up to it. */
  function Vwap(bars: seq<Bar>, i: nat): Option<real>
    requires i < |bars|
  {
    var seen := bars[..i + 1];
    if Volume(seen) > 0.0 then Some(PriceVolume(seen) / Volume(seen)) else None
  }

  method RunningVwap(bars: seq<Bar>) returns (out: seq<Option<real>>)
    ensures |out| == |bars|
    ensures forall i | 0 <= i < |bars| :: out[i] == Vwap(bars, i)
  {
    out := [];
    var pv, vol := 0.0, 0.0;
    for i := 0 to |bars|
      invariant |out| == i
      invariant pv == PriceVolume(bars[..i]) && vol == Volume(bars[..i])
      invariant forall k | 0 <= k < i :: out[k] == Vwap(bars, k)
    {
      assert bars[..i + 1][..i] == bars[..i];
      pv := pv + Typical(bars[i]) * bars[i].volume;
      vol := vol + bars[i].volume;
      out := out + [if vol > 0.0 then Some(pv / vol) else None];
    }
  }

  function Vwaps(bars: seq<Bar>): seq<Option<real>> {
    seq(|bars|, i requires 0 <= i < |bars| => Vwap(bars, i))
  }

  ghost predicate Pushes(bars: seq<Bar>, vwaps: seq<Option<real>>, i: int, w: Window) {
    && 0 <= i < |bars| == |vwaps| && InWindow(bars[i], w)
    && vwaps[i].Some? && bars[i].close >= vwaps[i].value * (1.0 + VWAP_STRENGTH_PCT)
  }

  ghost predicate Rejected(bars: seq<Bar>, vwaps: seq<Option<real>>, b: int, j: int, w: Window) {
    && 0 <= b < j < |bars| == |vwaps| && InTime(bars[b], bars[j], w)
    && vwaps[j].Some? && bars[j].close < vwaps[j].value
  }

  ghost predicate PushesThenRejected(bars: seq<Bar>, vwaps: seq<Option<real>>, w: Window, b: int, f: int) {
    && Pushes(bars, vwaps, b, w) && Reached(bars, b, w)
    && (forall k | 0 <= k < b :: !Pushes(bars, vwaps, k, w))
    && Rejected(bars, vwaps, b, f, w)
    && (forall k | b < k < f :: !Rejected(bars, vwaps, b, k, w))
  }

  ghost function VwapRejectIn(ticker: string, bars: seq<Bar>, vwaps: seq<Option<real>>, w: Window, baseline: Option<real>): (r: Option<Event>)
    ensures TimeOrdered(bars) && r.Some? ==> Confirmed(r.value)
  {
    if exists b, f :: PushesThenRejected(bars, vwaps, w, b, f) then
      var b, f :| PushesThenRejected(bars, vwaps, w, b, f);
      Some(EventAt(ticker, bars[b], bars[b].close, bars[f], vwaps[f].value, baseline))
    else None
  }

  ghost function VwapRejectOf(ticker: string, intraday: seq<Bar>, baseline: Option<real>): (r: Option<Event>)
    ensures r.Some? ==> Confirmed(r.value)
  {
    SortSorts(intraday);
    VwapRejectIn(ticker, SortByTime(intraday), Vwaps(SortByTime(intraday)), LAB_WINDOW, baseline)
  }

  lemma VwapRejectIs(ticker: string, bars: seq<Bar>, vwaps: seq<Option<real>>, w: Window, baseline: Option<real>, b: int, f: int)
    requires PushesThenRejected(bars, vwaps, w, b, f)
    ensures VwapRejectIn(ticker, bars, vwaps, w, baseline)
            == Some(EventAt(ticker, bars[b], bars[b].close, bars[f], vwaps[f].value, baseline))
  {
    forall c, g | PushesThenRejected(bars, vwaps, w, c, g) ensures c == b && g == f {}
  }

  /** The trigger loop of detect_vwap_reject. */
  method FirstPush(bars: seq<Bar>, vwaps: seq<Option<real>>) returns (trigger: int)
    requires |vwaps| == |bars|
    ensures trigger == -1 ==> forall b | Pushes(bars, vwaps, b, LAB_WINDOW) :: !Reached(bars, b, LAB_WINDOW)
    ensures trigger != -1 ==>
              && Pushes(bars, vwaps, trigger, LAB_WINDOW) && Reached(bars, trigger, LAB_WINDOW)
              && forall k | 0 <= k < trigger :: !Pushes(bars, vwaps, k, LAB_WINDOW)
  {
    ghost var w := LAB_WINDOW;
    var i := 0;
    while i < |bars|
      invariant 0 <= i <= |bars|
      invariant Reached(bars, i, w)
      invariant forall k | 0 <= k < i :: !Pushes(bars, vwaps, k, w)
    {
      var t := bars[i].at.etTime;
      if t >= LAB_WINDOW.earliest {
        if t >= LAB_WINDOW.cutoff {
          break;
        }
        if vwaps[i].Some? && bars[i].close >= vwaps[i].value * (1.0 + VWAP_STRENGTH_PCT) {
          return i;
        }
      }
      i := i + 1;
    }
    return -1;
  }

  method DetectVwapReject(ticker: string, intraday: seq<Bar>, prior: PriorDay, baseline: Option<real>)
    returns (r: Option<Event>)
    ensures r == VwapRejectOf(ticker, intraday, baseline)
  {
    if intraday == [] {
      return None;
    }
    var bars := SortByTime(intraday);
    SortSorts(intraday);
    var vwaps := RunningVwap(bars);
    assert vwaps == Vwaps(bars);
    var trigger := FirstPush(bars, vwaps);
    if trigger == -1 {
      return None;
    }
    ghost var w := LAB_WINDOW;
    var j := trigger + 1;
    while j < |bars|
      invariant trigger < j <= |bars|
      invariant forall k | trigger < k < j :: !Rejected(bars, vwaps, trigger, k, w)
    {
      if bars[j].at.utc > bars[trigger].at.utc + LAB_WINDOW.minutes * 60 {
        break;
      }
      if vwaps[j].Some? && bars[j].close < vwaps[j].value {
        VwapRejectIs(ticker, bars, vwaps, w, baseline, trigger, j);
        return Some(EventAt(ticker, bars[trigger], bars[trigger].close, bars[j], vwaps[j].value, baseline));
      }
      j := j + 1;
    }
    assert forall k | trigger < k < |bars| :: !Rejected(bars, vwaps, trigger, k, w);
    forall b, f | PushesThenRejected(bars, vwaps, w, b, f) ensures b == trigger {}
    return None;
  }

  lemma VwapRejectInOneSession(bars: seq<Bar>, vwaps: seq<Option<real>>, w: Window, b: int, f: int)
    requires TimeOrdered(bars) && OneSession(bars) && vwaps == Vwaps(bars)
    ensures PushesThenRejected(bars, vwaps, w, b, f) <==>
            && Pushes(bars, vwaps, b, w) && (forall k | 0 <= k < b :: !Pushes(bars, vwaps, k, w))
            && Rejected(bars, vwaps, b, f, w)
            && (forall k | b < k < f :: vwaps[k].None? || bars[k].close >= vwaps[k].value)
  {
    if Pushes(bars, vwaps, b, w) && Rejected(bars, vwaps, b, f, w) {
      ReachedInOneSession(bars, b, w);
      forall k | b < k < f
        ensures Rejected(bars, vwaps, b, k, w) <==> vwaps[k].Some? && bars[k].close < vwaps[k].value
      {
        assert bars[k].at.utc <= bars[f].at.utc;
      }
    }
  }

  lemma VwapsOfPrefix(bars: seq<Bar>, later: seq<Bar>)
    ensures Vwaps(bars + later)[..|bars|] == Vwaps(bars)
  {
    forall k | 0 <= k < |bars| ensures Vwap(bars + later, k) == Vwap(bars, k) {
      assert (bars + later)[..k + 1] == bars[..k + 1];
    }
  }

  lemma PushesThenRejectedIsPrefixStable(
    bars: seq<Bar>, later: seq<Bar>, vwaps: seq<Option<real>>, moreVwaps: seq<Option<real>>, w: Window, b: int, f: int)
    requires |vwaps| == |bars| && |moreVwaps| == |bars + later| && moreVwaps[..|bars|] == vwaps
    requires PushesThenRejected(bars, vwaps, w, b, f)
    ensures PushesThenRejected(bars + later, moreVwaps, w, b, f)
  {
    var more := bars + later;
    forall k | 0 <= k < |bars| ensures more[k] == bars[k] && moreVwaps[k] == vwaps[k] {
      assert moreVwaps[..|bars|][k] == moreVwaps[k];
    }
    forall k | 0 <= k < |bars|
      ensures Pushes(more, moreVwaps, k, w) == Pushes(bars, vwaps, k, w)
      ensures Rejected(more, moreVwaps, b, k, w) == Rejected(bars, vwaps, b, k, w)
    {}
  }

  lemma VwapRejectIsPrefixStable(ticker: string, bars: seq<Bar>, later: seq<Bar>, baseline: Option<real>)
    requires TimeOrdered(bars + later)
    requires VwapRejectOf(ticker, bars, baseline).Some?
    ensures VwapRejectOf(ticker, bars + later, baseline) == VwapRejectOf(ticker, bars, baseline)
  {
    var w, vwaps, moreVwaps := LAB_WINDOW, Vwaps(bars), Vwaps(bars + later);
    OrderedPrefix(bars, later);
    SortOfOrdered(bars);
    SortOfOrdered(bars + later);
    VwapsOfPrefix(bars, later);
    var b, f :| PushesThenRejected(bars, vwaps, w, b, f);
    PushesThenRejectedIsPrefixStable(bars, later, vwaps, moreVwaps, w, b, f);
    VwapRejectIs(ticker, bars, vwaps, w, baseline, b, f);
    VwapRejectIs(ticker, bars + later, moreVwaps, w, baseline, b, f);
    assert moreVwaps[f] == moreVwaps[..|bars|][f];
  }

  // ---- gap_fade -------------------------------------------------------------

  /** The lowest low of the first n bars. */
  function LowestLow(bars: seq<Bar>, n: nat): (low: real)
    requires 1 <= n <= |bars|
    ensures forall i | 0 <= i < n :: low <= bars[i].low
    ensures exists i | 0 <= i < n :: low == bars[i].low
  {
    if n == 1 then bars[0].low
    else
      var rest := LowestLow(bars, n - 1);
      if bars[n - 1].low < rest then bars[n - 1].low else rest
  }

  ghost predicate Gaps(bars: seq<Bar>, prior: PriorDay) {
    |bars| > OPENING_RANGE_BARS && prior.close > 0.0 && bars[0].open >= prior.close * (1.0 + GAP_MIN_PCT)
  }

  /** Bar f is the first after the opening range to close below its low, before 11:30. */
  ghost predicate FirstFade(bars: seq<Bar>, f: int) {
    && OPENING_RANGE_BARS <= f < |bars|
    && bars[f].close < LowestLow(bars, OPENING_RANGE_BARS)
    && (forall k | OPENING_RANGE_BARS <= k <= f :: bars[k].at.etTime < GAP_CONFIRM_CUTOFF)
    && (forall k | OPENING_RANGE_BARS <= k < f :: bars[k].close >= LowestLow(bars, OPENING_RANGE_BARS))
  }

  ghost function GapFadeOf(ticker: string, intraday: seq<Bar>, prior: PriorDay, baseline: Option<real>): (r: Option<Event>)
    ensures r.Some? ==> Confirmed(r.value)
  {
    SortSorts(intraday);
    var bars := SortByTime(intraday);
    if Gaps(bars, prior) && exists f :: FirstFade(bars, f) then
      var f :| FirstFade(bars, f);
      Some(EventAt(ticker, bars[0], bars[0].open, bars[f], LowestLow(bars, OPENING_RANGE_BARS), baseline))
    else None
  }

  lemma FirstFadeIsUnique(bars: seq<Bar>, f: int, g: int)
    requires FirstFade(bars, f) && FirstFade(bars, g)
    ensures f == g
  {}

  method DetectGapFade(ticker: string, intraday: seq<Bar>, prior: PriorDay, baseline: Option<real>)
    returns (r: Option<Event>)
    ensures r == GapFadeOf(ticker, intraday, prior, baseline)
  {
    SortSorts(intraday);
    if prior.close <= 0.0 || |intraday| <= OPENING_RANGE_BARS {
      return None;
    }
    var bars := SortByTime(intraday);
    var openBar := bars[0];
    if openBar.open < prior.close * (1.0 + GAP_MIN_PCT) {
      return None;
    }
    var orLow := LowestLow(bars, OPENING_RANGE_BARS);
    var j := OPENING_RANGE_BARS;
    while j < |bars|
      invariant OPENING_RANGE_BARS <= j <= |bars|
      invariant forall k | OPENING_RANGE_BARS <= k < j ::
                  bars[k].at.etTime < GAP_CONFIRM_CUTOFF && bars[k].close >= orLow
    {
      if bars[j].at.etTime >= GAP_CONFIRM_CUTOFF {
        break;
      }
      if bars[j].close < orLow {
        forall g | FirstFade(bars, g) ensures g == j {
          FirstFadeIsUnique(bars, j, g);
        }
        assert FirstFade(bars, j);
        return Some(EventAt(ticker, openBar, openBar.open, bars[j], orLow, baseline));
      }
      j := j + 1;
    }
    return None;
  }

  lemma GapFadeInOneSession(bars: seq<Bar>, f: int)
    requires TimeOrdered(bars) && OneSession(bars)
    ensures FirstFade(bars, f) <==>
            && OPENING_RANGE_BARS <= f < |bars| && bars[f].at.etTime < GAP_CONFIRM_CUTOFF
            && bars[f].close < LowestLow(bars, OPENING_RANGE_BARS)
            && (forall k | OPENING_RANGE_BARS <= k < f :: bars[k].close >= LowestLow(bars, OPENING_RANGE_BARS))
  {
    if 0 <= f < |bars| && bars[f].at.etTime < GAP_CONFIRM_CUTOFF {
      forall k | 0 <= k <= f ensures bars[k].at.etTime < GAP_CONFIRM_CUTOFF {
        assert bars[k].at.utc <= bars[f].at.utc;
      }
    }
  }

  lemma LowestLowOfPrefix(bars: seq<Bar>, later: seq<Bar>, n: nat)
    requires 1 <= n <= |bars|
    ensures LowestLow(bars + later, n) == LowestLow(bars, n)
  {}

  lemma GapFadeIsPrefixStable(ticker: string, bars: seq<Bar>, later: seq<Bar>, prior: PriorDay, baseline: Option<real>)
    requires TimeOrdered(bars + later)
    requires GapFadeOf(ticker, bars, prior, baseline).Some?
    ensures GapFadeOf(ticker, bars + later, prior, baseline) == GapFadeOf(ticker, bars, prior, baseline)
  {
    OrderedPrefix(bars, later);
    SortOfOrdered(bars);
    SortOfOrdered(bars + later);
    LowestLowOfPrefix(bars, later, OPENING_RANGE_BARS);
    var f :| FirstFade(bars, f);
    assert FirstFade(bars + later, f);
    forall g | FirstFade(bars + later, g) ensures g == f {
      FirstFadeIsUnique(bars + later, f, g);
    }
  }

  // ---- prior_low_break ------------------------------------------------------

  ghost predicate Breaches(bars: seq<Bar>, i: int, low: real, w: Window) {
    0 <= i < |bars| && InWindow(bars[i], w) && bars[i].close < low
  }

  /** b is the first breach the scan reaches and the very next bar confirms it. */
  ghost predicate BreachesTwice(bars: seq<Bar>, low: real, w: Window, b: int) {
    && Breaches(bars, b, low, w) && Reached(bars, b, w)
    && (forall k | 0 <= k < b :: !Breaches(bars, k, low, w))
    && b + 1 < |bars| && bars[b + 1].close < low
  }

  ghost function PriorLowBreakIn(ticker: string, bars: seq<Bar>, low: real, baseline: Option<real>): (r: Option<Event>)
    ensures TimeOrdered(bars) && r.Some? ==> Confirmed(r.value)
  {
    if exists b :: BreachesTwice(bars, low, LAB_WINDOW, b) then
      var b :| BreachesTwice(bars, low, LAB_WINDOW, b);
      Some(EventAt(ticker, bars[b], bars[b].close, bars[b + 1], low, baseline))
    else None
  }

  ghost function PriorLowBreakOf(ticker: string, intraday: seq<Bar>, prior: PriorDay, baseline: Option<real>): (r: Option<Event>)
    ensures r.Some? ==> Confirmed(r.value)
  {
    SortSorts(intraday);
    if prior.low <= 0.0 then None else PriorLowBreakIn(ticker, SortByTime(intraday), prior.low, baseline)
  }

  lemma PriorLowBreakIs(ticker: string, bars: seq<Bar>, low: real, baseline: Option<real>, b: int)
    requires BreachesTwice(bars, low, LAB_WINDOW, b)
    ensures PriorLowBreakIn(ticker, bars, low, baseline)
            == Some(EventAt(ticker, bars[b], bars[b].close, bars[b + 1], low, baseline))
  {
    forall c | BreachesTwice(bars, low, LAB_WINDOW, c) ensures c == b {}
  }

  method DetectPriorLowBreak(ticker: string, intraday: seq<Bar>, prior: PriorDay, baseline: Option<real>)
    returns (r: Option<Event>)
    ensures r == PriorLowBreakOf(ticker, intraday, prior, baseline)
  {
    if prior.low <= 0.0 || intraday == [] {
      return None;
    }
    var bars := SortByTime(intraday);
    ghost var w := LAB_WINDOW;
    var i := 0;
    while i < |bars|
      invariant 0 <= i <= |bars|
      invariant Reached(bars, i, w)
      invariant forall k | 0 <= k < i :: !Breaches(bars, k, prior.low, w)
    {
      var t := bars[i].at.etTime;
      if t >= LAB_WINDOW.earliest {
        if t >= LAB_WINDOW.cutoff {
          break;
        }
        if bars[i].close < prior.low {
          assert Breaches(bars, i, prior.low, w);
          forall b | BreachesTwice(bars, prior.low, w, b) ensures b == i {}
          if i + 1 >= |bars| {
            return None;
          }
          var confirm := bars[i + 1];
          if confirm.close < prior.low {
            assert BreachesTwice(bars, prior.low, w, i);
            return Some(EventAt(ticker, bars[i], bars[i].close, confirm, prior.low, baseline));
          }
          return None;
        }
      }
      i := i + 1;
    }
    forall b | Breaches(bars, b, prior.low, w) ensures !Reached(bars, b, w) {}
    return None;
  }

  lemma PriorLowBreakInOneSession(bars: seq<Bar>, low: real, w: Window, b: int)
    requires TimeOrdered(bars) && OneSession(bars)
    ensures BreachesTwice(bars, low, w, b) <==>
            && Breaches(bars, b, low, w) && (forall k | 0 <= k < b :: !Breaches(bars, k, low, w))
            && b + 1 < |bars| && bars[b + 1].close < low
  {
    if Breaches(bars, b, low, w) {
      ReachedInOneSession(bars, b, w);
    }
  }

  lemma BreachesTwiceIsPrefixStable(bars: seq<Bar>, later: seq<Bar>, low: real, w: Window, b: int)
    requires BreachesTwice(bars, low, w, b)
    ensures BreachesTwice(bars + later, low, w, b)
  {
    assert forall k | 0 <= k < |bars| :: Breaches(bars + later, k, low, w) == Breaches(bars, k, low, w);
  }

  lemma PriorLowBreakIsPrefixStable(ticker: string, bars: seq<Bar>, later: seq<Bar>, prior: PriorDay, baseline: Option<real>)
    requires TimeOrdered(bars + later)
    requires PriorLowBreakOf(ticker, bars, prior, baseline).Some?
    ensures PriorLowBreakOf(ticker, bars + later, prior, baseline) == PriorLowBreakOf(ticker, bars, prior, baseline)
  {
    OrderedPrefix(bars, later);
    SortOfOrdered(bars);
    SortOfOrdered(bars + later);
    var b :| BreachesTwice(bars, prior.low, LAB_WINDOW, b);
    BreachesTwiceIsPrefixStable(bars, later, prior.low, LAB_WINDOW, b);
    PriorLowBreakIs(ticker, bars, prior.low, baseline, b);
    PriorLowBreakIs(ticker, bars + later, prior.low, baseline, b);
  }
}
