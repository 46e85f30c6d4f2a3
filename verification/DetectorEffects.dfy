/** What each detector reports on one session's bars, in raw terms: clock times in seconds, prices and
    the fields of the event. */
module DetectorEffects {
  import opened Prelude
  import opened Bars
  import opened Detectors

  /** The event told by its trigger bar, the price of the trigger, its confirming bar and its level. */
  predicate Tells(r: Option<Event>, ticker: string, trigger: Bar, price: real, confirm: Bar, level: real, baseline: Option<real>) {
    && r.Some? && r.value.ticker == ticker && r.value.day == trigger.at.etDate && r.value.level == level
    && r.value.triggerTs == trigger.at.utc && r.value.triggerPrice == price
    && r.value.confirmTs == confirm.at.utc && r.value.confirmPrice == confirm.close
    && (r.value.volumeRatio.Some? <==> baseline.Some? && baseline.value > 0.0)
    && (r.value.volumeRatio.Some? ==> r.value.volumeRatio.value * baseline.value == confirm.volume)
  }

  lemma EventIsTold(ticker: string, trigger: Bar, price: real, confirm: Bar, level: real, baseline: Option<real>)
    ensures Tells(Some(EventAt(ticker, trigger, price, confirm, level, baseline)),
                  ticker, trigger, price, confirm, level, baseline)
  {}

  // ---- failed_breakout ------------------------------------------------------------------------------

  /** Bar b is the first close above the level in the window, bar f the first below it afterwards, in
      time. */
  predicate FailsBackAt(bars: seq<Bar>, level: real, w: Window, b: int, f: int) {
    && 0 <= b < f < |bars|
    && w.earliest <= bars[b].at.etTime < w.cutoff && bars[b].close > level
    && (forall k | 0 <= k < b && w.earliest <= bars[k].at.etTime < w.cutoff :: bars[k].close <= level)
    && bars[f].at.utc <= bars[b].at.utc + w.minutes * 60 && bars[f].close < level
    && (forall k | b < k < f :: bars[k].close >= level)
  }

  lemma FailedBreakoutInRawTerms(ticker: string, intraday: seq<Bar>, level: real, w: Window, baseline: Option<real>)
    requires OneSession(SortByTime(intraday))
    ensures var bars, r := SortByTime(intraday), FailedBreakoutOf(ticker, intraday, level, w, baseline);
            && (r.Some? <==> level > 0.0 && exists b, f :: FailsBackAt(bars, level, w, b, f))
            && (forall b, f | level > 0.0 && FailsBackAt(bars, level, w, b, f) ::
                  Tells(r, ticker, bars[b], bars[b].close, bars[f], level, baseline))
  {
    var bars := SortByTime(intraday);
    SortSorts(intraday);
    forall b, f ensures BreaksThenFails(bars, level, w, b, f) <==> FailsBackAt(bars, level, w, b, f) {
      FailedBreakoutInOneSession(bars, level, w, b, f);
      assert forall k | 0 <= k < |bars| ::
          Breaks(bars, k, level, w) <==> w.earliest <= bars[k].at.etTime < w.cutoff && bars[k].close > level;
    }
    forall b, f | level > 0.0 && FailsBackAt(bars, level, w, b, f)
      ensures Tells(FailedBreakoutOf(ticker, intraday, level, w, baseline),
                    ticker, bars[b], bars[b].close, bars[f], level, baseline)
    {
      FailedBreakoutIs(ticker, bars, level, w, baseline, b, f);
      EventIsTold(ticker, bars[b], bars[b].close, bars[f], level, baseline);
    }
  }

  // ---- vwap_reject ----------------------------------------------------------------------------------

  /** The running mean, bar by bar: typical prices weighted by volume, absent without volume. */
  lemma VwapInRawTerms(bars: seq<Bar>, i: nat)
    requires i < |bars|
    ensures var volume, value := Volume(bars[..i]) + bars[i].volume,
              PriceVolume(bars[..i]) + (bars[i].high + bars[i].low + bars[i].close) / 3.0 * bars[i].volume;
            && Volume(bars[..i + 1]) == volume && PriceVolume(bars[..i + 1]) == value
            && (Vwaps(bars)[i].Some? <==> volume > 0.0)
            && (Vwaps(bars)[i].Some? ==> Vwaps(bars)[i].value * volume == value)
    ensures Volume([]) == 0.0 && PriceVolume([]) == 0.0
  {
    assert bars[..i + 1][..i] == bars[..i];
  }

  /** Bar b is the first between 9:35 and 10:30 to close 0.3% above the mean, bar f the first to close
      below it within the hour. */
  predicate RejectsAt(bars: seq<Bar>, vwaps: seq<Option<real>>, b: int, f: int)
    requires |vwaps| == |bars|
  {
    && 0 <= b < f < |bars| && PushesAt(bars, vwaps, b) && (forall k | 0 <= k < b :: !PushesAt(bars, vwaps, k))
    && bars[f].at.utc <= bars[b].at.utc + 3600 && vwaps[f].Some? && bars[f].close < vwaps[f].value
    && (forall k | b < k < f && vwaps[k].Some? :: bars[k].close >= vwaps[k].value)
  }

  predicate PushesAt(bars: seq<Bar>, vwaps: seq<Option<real>>, k: nat)
    requires k < |bars| == |vwaps|
  {
    && 9 * 3600 + 35 * 60 <= bars[k].at.etTime < 10 * 3600 + 30 * 60
    && vwaps[k].Some? && bars[k].close >= vwaps[k].value * 1.003
  }

  lemma VwapRejectInRawTerms(ticker: string, intraday: seq<Bar>, baseline: Option<real>)
    requires OneSession(SortByTime(intraday))
    ensures var bars, r := SortByTime(intraday), VwapRejectOf(ticker, intraday, baseline);
            var vwaps := Vwaps(bars);
            && (r.Some? <==> exists b, f :: RejectsAt(bars, vwaps, b, f))
            && (forall b, f | RejectsAt(bars, vwaps, b, f) ::
                  Tells(r, ticker, bars[b], bars[b].close, bars[f], vwaps[f].value, baseline))
  {
    var bars, w := SortByTime(intraday), LAB_WINDOW;
    var vwaps := Vwaps(bars);
    SortSorts(intraday);
    forall b, f ensures PushesThenRejected(bars, vwaps, w, b, f) <==> RejectsAt(bars, vwaps, b, f) {
      VwapRejectInOneSession(bars, vwaps, w, b, f);
      assert forall k | 0 <= k < |bars| :: Pushes(bars, vwaps, k, w) <==> PushesAt(bars, vwaps, k);
    }
    forall b, f | RejectsAt(bars, vwaps, b, f)
      ensures Tells(VwapRejectOf(ticker, intraday, baseline),
                    ticker, bars[b], bars[b].close, bars[f], vwaps[f].value, baseline)
    {
      VwapRejectIs(ticker, bars, vwaps, w, baseline, b, f);
      EventIsTold(ticker, bars[b], bars[b].close, bars[f], vwaps[f].value, baseline);
    }
  }

  // ---- gap_fade -------------------------------------------------------------------------------------

  /** The day opens 2% above the prior close, and bar f is the first after the opening three bars to
      close below their lowest low, before 11:30. */
  predicate FadesAt(bars: seq<Bar>, prior: PriorDay, low: real, f: int) {
    && 3 <= f < |bars| && prior.close > 0.0 && bars[0].open >= prior.close * 1.02
    && low <= bars[0].low && low <= bars[1].low && low <= bars[2].low
    && (low == bars[0].low || low == bars[1].low || low == bars[2].low)
    && bars[f].at.etTime < 11 * 3600 + 30 * 60 && bars[f].close < low
    && (forall k | 3 <= k < f :: bars[k].close >= low)
  }

  lemma GapFadeInRawTerms(ticker: string, intraday: seq<Bar>, prior: PriorDay, baseline: Option<real>)
    requires OneSession(SortByTime(intraday))
    ensures var bars, r := SortByTime(intraday), GapFadeOf(ticker, intraday, prior, baseline);
            && (r.Some? <==> exists low, f :: FadesAt(bars, prior, low, f))
            && (forall low, f | FadesAt(bars, prior, low, f) ::
                  Tells(r, ticker, bars[0], bars[0].open, bars[f], low, baseline))
  {
    var bars := SortByTime(intraday);
    SortSorts(intraday);
    forall low, f
      ensures FadesAt(bars, prior, low, f) <==>
                Gaps(bars, prior) && FirstFade(bars, f) && low == LowestLow(bars, OPENING_RANGE_BARS)
    {
      GapFadeInOneSession(bars, f);
    }
    forall low, f | FadesAt(bars, prior, low, f)
      ensures Tells(GapFadeOf(ticker, intraday, prior, baseline), ticker, bars[0], bars[0].open, bars[f], low, baseline)
    {
      forall g | FirstFade(bars, g) ensures g == f {
        FirstFadeIsUnique(bars, f, g);
      }
      EventIsTold(ticker, bars[0], bars[0].open, bars[f], low, baseline);
    }
    if GapFadeOf(ticker, intraday, prior, baseline).Some? {
      var f :| FirstFade(bars, f);
      assert FadesAt(bars, prior, LowestLow(bars, OPENING_RANGE_BARS), f);
    }
  }

  // ---- prior_low_break --------------------------------------------------------------------------------

  predicate ClosesBelow(bars: seq<Bar>, low: real, k: nat)
    requires k < |bars|
  {
    9 * 3600 + 35 * 60 <= bars[k].at.etTime < 10 * 3600 + 30 * 60 && bars[k].close < low
  }

  /** Bar b is the first between 9:35 and 10:30 to close below the prior low, and so does the next. */
  predicate BreaksLowAt(bars: seq<Bar>, low: real, b: int) {
    && 0 <= b && b + 1 < |bars| && ClosesBelow(bars, low, b) && bars[b + 1].close < low
    && (forall k | 0 <= k < b :: !ClosesBelow(bars, low, k))
  }

  lemma PriorLowBreakInRawTerms(ticker: string, intraday: seq<Bar>, prior: PriorDay, baseline: Option<real>)
    requires OneSession(SortByTime(intraday))
    ensures var bars, r := SortByTime(intraday), PriorLowBreakOf(ticker, intraday, prior, baseline);
            && (r.Some? <==> prior.low > 0.0 && exists b :: BreaksLowAt(bars, prior.low, b))
            && (forall b | prior.low > 0.0 && BreaksLowAt(bars, prior.low, b) ::
                  Tells(r, ticker, bars[b], bars[b].close, bars[b + 1], prior.low, baseline))
  {
    var bars, low := SortByTime(intraday), prior.low;
    SortSorts(intraday);
    forall b ensures BreachesTwice(bars, low, LAB_WINDOW, b) <==> BreaksLowAt(bars, low, b) {
      PriorLowBreakInOneSession(bars, low, LAB_WINDOW, b);
      assert forall k | 0 <= k < |bars| :: Breaches(bars, k, low, LAB_WINDOW) <==> ClosesBelow(bars, low, k);
    }
    forall b | low > 0.0 && BreaksLowAt(bars, low, b)
      ensures Tells(PriorLowBreakOf(ticker, intraday, prior, baseline),
                    ticker, bars[b], bars[b].close, bars[b + 1], low, baseline)
    {
      PriorLowBreakIs(ticker, bars, low, baseline, b);
      EventIsTold(ticker, bars[b], bars[b].close, bars[b + 1], low, baseline);
    }
  }
}
