/** The offline multi-day detector (research/backtest_failed_breakout.py on top of
    research/backtest_momentum.py), a second implementation of the failed-breakout
    hypothesis, and its equivalence with the live one-day detector. */
module Batch {
  import opened Prelude
  import opened Bars
  import opened Detectors

  datatype BatchEvent = BatchEvent(day: int, breakout: Bar, failure: Bar, priorHigh: real, volumeRatio: Option<real>)

  // ---- Grouping ---------------------------------------------------------------

  /** The bars of one ET day, in the order they came. */
  function DayBars(intraday: seq<Bar>, day: int): (r: seq<Bar>)
    ensures forall b <- r :: b.at.etDate == day
  {
    if intraday == [] then []
    else
      var last := intraday[|intraday| - 1];
      DayBars(intraday[..|intraday| - 1], day) + if last.at.etDate == day then [last] else []
  }

  lemma SomeMember(days: set<int>)
    ensures days == {} || exists d :: d in days
  {
    if !exists d :: d in days {
      assert days == {};
    }
  }

  ghost function DaysOf(bars: seq<Bar>): set<int> {
    set b <- bars :: b.at.etDate
  }

  lemma OneMoreBar(bars: seq<Bar>, bar: Bar)
    ensures DaysOf(bars + [bar]) == DaysOf(bars) + {bar.at.etDate}
    ensures forall day ::
              DayBars(bars + [bar], day) == DayBars(bars, day) + if bar.at.etDate == day then [bar] else []
  {
    assert (bars + [bar])[..|bars|] == bars;
    assert forall b :: b in bars + [bar] <==> b in bars || b == bar;
  }

  /** The buckets hold the bars of each day seen, in order. */
  ghost predicate Grouped(bars: seq<Bar>, buckets: map<int, seq<Bar>>) {
    && buckets.Keys == DaysOf(bars)
    && (forall day <- buckets :: buckets[day] == DayBars(bars, day))
    && (forall day | day !in buckets :: DayBars(bars, day) == [])
  }

  lemma GroupOneMore(bars: seq<Bar>, bar: Bar, buckets: map<int, seq<Bar>>)
    requires Grouped(bars, buckets)
    ensures var day := bar.at.etDate;
            Grouped(bars + [bar], buckets[day := (if day in buckets then buckets[day] else []) + [bar]])
  {
    OneMoreBar(bars, bar);
  }

  /** Buckets by ET day; each bucket sorted by time. */
  method GroupByDay(intraday: seq<Bar>) returns (buckets: map<int, seq<Bar>>)
    ensures buckets.Keys == DaysOf(intraday)
    ensures forall day <- buckets :: buckets[day] == SortByTime(DayBars(intraday, day))
  {
    buckets := map[];
    for i := 0 to |intraday|
      invariant Grouped(intraday[..i], buckets)
    {
      var day := intraday[i].at.etDate;
      GroupOneMore(intraday[..i], intraday[i], buckets);
      assert intraday[..i + 1] == intraday[..i] + [intraday[i]];
      buckets := buckets[day := (if day in buckets then buckets[day] else []) + [intraday[i]]];
    }
    assert intraday[..|intraday|] == intraday;
    buckets := SortBuckets(buckets);
  }

  method SortBuckets(unsorted: map<int, seq<Bar>>) returns (buckets: map<int, seq<Bar>>)
    ensures buckets.Keys == unsorted.Keys
    ensures forall day <- buckets :: buckets[day] == SortByTime(unsorted[day])
  {
    buckets := unsorted;
    var todo := buckets.Keys;
    while todo != {}
      invariant todo <= buckets.Keys == unsorted.Keys
      invariant forall day <- buckets ::
                  buckets[day] == if day in todo then unsorted[day] else SortByTime(unsorted[day])
    {
      SomeMember(todo);
      var day :| day in todo;
      buckets := buckets[day := SortByTime(buckets[day])];
      todo := todo - {day};
    }
  }

  /** Among the first n bars, bar i is the last of its day, and h is the high before it. */
  ghost predicate LastOfDay(ordered: seq<Bar>, n: int, day: int, i: int, h: real) {
    && 1 <= i < n <= |ordered|
    && ordered[i].at.etDate == day
    && h == ordered[i - 1].high
    && NoneOnDay(ordered, i + 1, n, day)
  }

  ghost predicate NoneOnDay(ordered: seq<Bar>, lo: int, hi: int, day: int) {
    forall k | 0 <= lo <= k < hi <= |ordered| :: ordered[k].at.etDate != day
  }

  /** Each trading day mapped to the high of the bar before it in time order; the first
      bar's day is omitted unless it recurs. */
  ghost predicate ArePriorHighs(ordered: seq<Bar>, n: int, highs: map<int, real>) {
    && (forall i | 1 <= i < n <= |ordered| :: ordered[i].at.etDate in highs)
    && (forall day <- highs :: HasPriorHigh(ordered, n, day, highs[day]))
  }

  ghost predicate HasPriorHigh(ordered: seq<Bar>, n: int, day: int, h: real) {
    exists i :: LastOfDay(ordered, n, day, i, h)
  }

  lemma LastOfDayMoves(ordered: seq<Bar>, n: int, more: int, day: int, i: int, h: real)
    requires 1 <= n < |ordered| && more == n + 1
    ensures ordered[n].at.etDate != day && LastOfDay(ordered, n, day, i, h) ==> LastOfDay(ordered, more, day, i, h)
    ensures LastOfDay(ordered, more, ordered[n].at.etDate, n, ordered[n - 1].high)
  {}

  lemma PriorHighsOneMore(ordered: seq<Bar>, n: int, highs: map<int, real>, more: int)
    requires 1 <= n < |ordered| && more == n + 1
    requires ArePriorHighs(ordered, n, highs)
    ensures ArePriorHighs(ordered, more, highs[ordered[n].at.etDate := ordered[n - 1].high])
  {
    var today, h := ordered[n].at.etDate, ordered[n - 1].high;
    var after := highs[today := h];
    forall i | 1 <= i < more ensures ordered[i].at.etDate in after {
      assert i < n ==> ordered[i].at.etDate in highs;
    }
    forall day <- after ensures HasPriorHigh(ordered, more, day, after[day]) {
      if day == today {
        LastOfDayMoves(ordered, n, more, day, n, h);
      } else {
        assert HasPriorHigh(ordered, n, day, highs[day]);
        var i :| LastOfDay(ordered, n, day, i, highs[day]);
        LastOfDayMoves(ordered, n, more, day, i, highs[day]);
      }
    }
  }

  method PriorDayHighs(daily: seq<Bar>) returns (highs: map<int, real>)
    ensures ArePriorHighs(SortByTime(daily), |daily|, highs)
  {
    var ordered := SortByTime(daily);
    SortSorts(daily);
    highs := map[];
    if ordered != [] {
      for n := 1 to |ordered|
        invariant ArePriorHighs(ordered, n, highs)
      {
        PriorHighsOneMore(ordered, n, highs, n + 1);
        highs := highs[ordered[n].at.etDate := ordered[n - 1].high];
      }
    }
  }

  ghost predicate Ascending(days: seq<int>) {
    forall i, j | 0 <= i < j < |days| :: days[i] < days[j]
  }

  lemma {:induction false} LeastExists(days: set<int>)
    requires exists d :: d in days
    ensures exists d :: d in days && forall e <- days :: d <= e
    decreases |days|
  {
    var x :| x in days;
    var rest := days - {x};
    assert forall e <- days :: e == x || e in rest;
    if exists e :: e in rest {
      LeastExists(rest);
      var m :| m in rest && forall e <- rest :: m <= e;
      var least := if x <= m then x else m;
      assert least in days && forall e <- days :: least <= e;
    }
  }

  /** sorted(by_day). */
  method SortedDays(days: set<int>) returns (out: seq<int>)
    ensures Ascending(out)
    ensures forall d :: d in out <==> d in days
  {
    out := [];
    var todo := days;
    while todo != {}
      invariant Ascending(out) && todo <= days
      invariant forall d :: d in out <==> d in days - todo
      invariant forall d <- out, e <- todo :: d < e
    {
      SomeMember(todo);
      LeastExists(todo);
      var d :| d in todo && forall e <- todo :: d <= e;
      assert forall i | 0 <= i < |out| :: out[i] in out;
      out := out + [d];
      todo := todo - {d};
    }
  }

  // ---- One day ------------------------------------------------------------------

  function BatchRatio(bar: Bar, baseline: Option<real>): Option<real> {
    if baseline.Some? && baseline.value != 0.0 then Some(bar.volume / baseline.value) else None
  }

  /** What the batch detector reports for one day: like the live detector, but without its
      check that the prior high is positive and with a looser check of the baseline. */
  ghost function BatchDay(bars: seq<Bar>, day: int, level: real, w: Window, baseline: Option<real>): Option<BatchEvent> {
    if exists b, f :: BreaksThenFails(bars, level, w, b, f) then
      var b, f :| BreaksThenFails(bars, level, w, b, f);
      Some(BatchEvent(day, bars[b], bars[f], level, BatchRatio(bars[f], baseline)))
    else None
  }

  lemma BatchDayIs(bars: seq<Bar>, day: int, level: real, w: Window, baseline: Option<real>, b: int, f: int)
    requires BreaksThenFails(bars, level, w, b, f)
    ensures BatchDay(bars, day, level, w, baseline)
            == Some(BatchEvent(day, bars[b], bars[f], level, BatchRatio(bars[f], baseline)))
  {
    forall c, g | BreaksThenFails(bars, level, w, c, g) ensures c == b && g == f {}
  }

  /** A batch event in the live scanner's shape. */
  function AsLive(ticker: string, e: BatchEvent): Event {
    Event(ticker, e.day, e.breakout.at.utc, e.breakout.close, e.failure.at.utc, e.failure.close, e.priorHigh, e.volumeRatio)
  }

  ghost function LiveShape(ticker: string, e: Option<BatchEvent>): Option<Event> {
    if e.Some? then Some(AsLive(ticker, e.value)) else None
  }

  /** The live detector's answer for one of the days of a multi-day recording. */
  ghost function LiveDay(
    ticker: string, intraday: seq<Bar>, day: int, level: real, w: Window, baseline: Option<real>): Option<Event>
  {
    FailedBreakoutOf(ticker, DayBars(intraday, day), level, w, baseline)
  }

  /** A condition a caller can check before comparing the two on one day. */
  predicate Comparable(level: real, baseline: Option<real>) {
    level > 0.0 && (baseline.Some? ==> baseline.value >= 0.0)
  }

  lemma SortedDayBars(intraday: seq<Bar>, day: int)
    ensures forall b <- SortByTime(DayBars(intraday, day)) :: b.at.etDate == day
  {
    var bars := DayBars(intraday, day);
    SortSorts(bars);
    forall b <- SortByTime(bars) ensures b.at.etDate == day {
      assert b in multiset(SortByTime(bars));
      assert b in bars;
    }
  }

  lemma DaysAgree(ticker: string, intraday: seq<Bar>, day: int, level: real, w: Window, baseline: Option<real>)
    requires Comparable(level, baseline)
    ensures LiveShape(ticker, BatchDay(SortByTime(DayBars(intraday, day)), day, level, w, baseline))
            == LiveDay(ticker, intraday, day, level, w, baseline)
  {
    var bars := SortByTime(DayBars(intraday, day));
    SortedDayBars(intraday, day);
    if exists b, f :: BreaksThenFails(bars, level, w, b, f) {
      var b, f :| BreaksThenFails(bars, level, w, b, f);
      FailedBreakoutIs(ticker, bars, level, w, baseline, b, f);
      BatchDayIs(bars, day, level, w, baseline, b, f);
      assert bars[b].at.etDate == day;
    }
  }

  /** The day on which the two detectors part ways when they are not comparable. */
  function Witness(day: int, level: real, w: Window): seq<Bar> {
    var broke := Moment(0, day, w.earliest);
    [Bar(broke, level, level, level, level + 1.0, 1.0), Bar(broke, level, level, level, level - 1.0, 1.0)]
  }

  /** Exactly when the offline and the live detector agree on every recording of a day: the
      prior high must be positive and the baseline must not be negative. */
  lemma DaysAgreeIff(ticker: string, day: int, level: real, w: Window, baseline: Option<real>)
    requires w.earliest < w.cutoff && w.minutes >= 0
    ensures (forall intraday: seq<Bar> ::
               LiveShape(ticker, BatchDay(SortByTime(DayBars(intraday, day)), day, level, w, baseline))
               == LiveDay(ticker, intraday, day, level, w, baseline))
            <==> Comparable(level, baseline)
  {
    if Comparable(level, baseline) {
      forall intraday: seq<Bar> {
        DaysAgree(ticker, intraday, day, level, w, baseline);
      }
    } else {
      var bars := Witness(day, level, w);
      WitnessSeparates(ticker, day, level, w, baseline);
      assert LiveShape(ticker, BatchDay(SortByTime(DayBars(bars, day)), day, level, w, baseline))
             != LiveDay(ticker, bars, day, level, w, baseline);
    }
  }

  lemma WitnessIsItsDay(day: int, level: real, w: Window)
    ensures DayBars(Witness(day, level, w), day) == Witness(day, level, w)
    ensures SortByTime(Witness(day, level, w)) == Witness(day, level, w)
  {
    var bars := Witness(day, level, w);
    assert bars[..1] == [bars[0]] && bars[..1][..0] == [];
    assert DayBars(bars[..1], day) == [bars[0]];
    SortOfOrdered(bars);
  }

  lemma WitnessSeparates(ticker: string, day: int, level: real, w: Window, baseline: Option<real>)
    requires w.earliest < w.cutoff && w.minutes >= 0
    requires !Comparable(level, baseline)
    ensures var bars := Witness(day, level, w);
            LiveShape(ticker, BatchDay(SortByTime(DayBars(bars, day)), day, level, w, baseline))
            != LiveDay(ticker, bars, day, level, w, baseline)
  {
    var bars := Witness(day, level, w);
    WitnessIsItsDay(day, level, w);
    assert Breaks(bars, 0, level, w) && Fails(bars, 0, 1, level, w);
    assert BreaksThenFails(bars, level, w, 0, 1);
    BatchDayIs(bars, day, level, w, baseline, 0, 1);
    if level > 0.0 {
      FailedBreakoutIs(ticker, bars, level, w, baseline, 0, 1);
    }
  }

  // ---- Many days ----------------------------------------------------------------

  /** The events of the days in order, skipping days without a prior high. */
  ghost function BatchEvents(
    days: seq<int>, highs: map<int, real>, intraday: seq<Bar>, w: Window, baseline: Option<real>): seq<BatchEvent>
  {
    if days == [] then []
    else
      var day := days[|days| - 1];
      BatchEvents(days[..|days| - 1], highs, intraday, w, baseline)
      + if day !in highs then []
        else
          var e := BatchDay(SortByTime(DayBars(intraday, day)), day, highs[day], w, baseline);
          if e.Some? then [e.value] else []
  }

  ghost function LiveEvents(
    ticker: string, days: seq<int>, highs: map<int, real>, intraday: seq<Bar>, w: Window, baseline: Option<real>): seq<Event>
  {
    if days == [] then []
    else
      var day := days[|days| - 1];
      LiveEvents(ticker, days[..|days| - 1], highs, intraday, w, baseline)
      + if day !in highs then []
        else
          var e := LiveDay(ticker, intraday, day, highs[day], w, baseline);
          if e.Some? then [e.value] else []
  }

  /** Main result: over any recording, in any order of bars, the batch run reports exactly
      what the live detector would have reported day by day. */
  lemma {:induction false} BatchIsLive(
    ticker: string, days: seq<int>, highs: map<int, real>, intraday: seq<Bar>, w: Window, baseline: Option<real>)
    requires forall day <- highs :: Comparable(highs[day], baseline)
    ensures var batch := BatchEvents(days, highs, intraday, w, baseline);
            LiveEvents(ticker, days, highs, intraday, w, baseline)
            == seq(|batch|, i requires 0 <= i < |batch| => AsLive(ticker, batch[i]))
  {
    if days != [] {
      var day := days[|days| - 1];
      BatchIsLive(ticker, days[..|days| - 1], highs, intraday, w, baseline);
      if day in highs {
        DaysAgree(ticker, intraday, day, highs[day], w, baseline);
      }
    }
  }

  function PositiveVolume(bars: seq<Bar>): real {
    if bars == [] then 0.0
    else PositiveVolume(bars[..|bars| - 1]) + Max(bars[|bars| - 1].volume, 0.0)
  }

  function TradedBars(bars: seq<Bar>): nat {
    if bars == [] then 0 else TradedBars(bars[..|bars| - 1]) + if bars[|bars| - 1].volume > 0.0 then 1 else 0
  }

  /** The baseline the batch run falls back to: the mean of the positive bar volumes. It is
      never negative, so it never stands in the way of Comparable. */
  method MeanVolume(intraday: seq<Bar>) returns (r: Option<real>)
    ensures TradedBars(intraday) == 0 <==> r == None
    ensures r.Some? ==> r.value == PositiveVolume(intraday) / TradedBars(intraday) as real && r.value > 0.0
  {
    var sum, count := 0.0, 0;
    for i := 0 to |intraday|
      invariant sum == PositiveVolume(intraday[..i]) && count == TradedBars(intraday[..i])
      invariant sum >= 0.0 && (count > 0 ==> sum > 0.0)
    {
      assert intraday[..i + 1][..i] == intraday[..i];
      if intraday[i].volume > 0.0 {
        sum, count := sum + intraday[i].volume, count + 1;
      }
    }
    assert intraday[..|intraday|] == intraday;
    r := if count > 0 then Some(sum / count as real) else None;
  }

  /** The inner loops of find_failed_breakouts for one day's sorted bars. */
  method ScanDay(bars: seq<Bar>, day: int, priorHigh: real, w: Window, baseline: Option<real>)
    returns (r: Option<BatchEvent>)
    requires TimeOrdered(bars)
    ensures r == BatchDay(bars, day, priorHigh, w, baseline)
  {
    var breakout := FirstBreakout(bars, priorHigh, w);
    if breakout == -1 {
      return None;
    }
    var deadline := bars[breakout].at.utc + w.minutes * 60;
    var j := breakout + 1;
    while j < |bars| && bars[j].at.utc <= deadline
      invariant breakout < j <= |bars|
      invariant forall k | breakout < k < j :: !Fails(bars, breakout, k, priorHigh, w)
    {
      if bars[j].close < priorHigh {
        BatchDayIs(bars, day, priorHigh, w, baseline, breakout, j);
        return Some(BatchEvent(day, bars[breakout], bars[j], priorHigh, BatchRatio(bars[j], baseline)));
      }
      j := j + 1;
    }
    assert forall k | breakout < k < |bars| :: !Fails(bars, breakout, k, priorHigh, w);
    forall b, f | BreaksThenFails(bars, priorHigh, w, b, f) ensures b == breakout {}
    return None;
  }

  /** The baseline in use: the caller's, or the mean of the positive volumes. */
  ghost predicate IsBaseline(intraday: seq<Bar>, given: Option<real>, used: Option<real>) {
    if given.Some? then used == given
    else if TradedBars(intraday) == 0 then used == None
    else used == Some(PositiveVolume(intraday) / TradedBars(intraday) as real)
  }

  /** What the run works on: the days seen, ascending, the prior highs and the baseline. */
  ghost predicate WorksOn(
    daily: seq<Bar>, intraday: seq<Bar>, given: Option<real>, days: seq<int>, highs: map<int, real>, used: Option<real>)
  {
    && Ascending(days) && (forall d :: d in days <==> d in DaysOf(intraday))
    && ArePriorHighs(SortByTime(daily), |daily|, highs)
    && IsBaseline(intraday, given, used)
  }

  method FindFailedBreakouts(daily: seq<Bar>, intraday: seq<Bar>, w: Window, baselineVolume: Option<real>)
    returns (out: seq<BatchEvent>)
    ensures exists days, highs, used ::
              WorksOn(daily, intraday, baselineVolume, days, highs, used) && out == BatchEvents(days, highs, intraday, w, used)
  {
    var priorHighs := PriorDayHighs(daily);
    var byDay := GroupByDay(intraday);
    var yardstick := baselineVolume;
    if yardstick.None? {
      yardstick := MeanVolume(intraday);
    }
    var order := SortedDays(byDay.Keys);
    out := [];
    for i := 0 to |order|
      invariant out == BatchEvents(order[..i], priorHighs, intraday, w, yardstick)
    {
      var day := order[i];
      assert order[..i + 1][..i] == order[..i];
      assert day in byDay;
      if day in priorHighs {
        SortSorts(DayBars(intraday, day));
        var e := ScanDay(byDay[day], day, priorHighs[day], w, yardstick);
        if e.Some? {
          out := out + [e.value];
        }
      }
    }
    assert order[..|order|] == order;
    assert WorksOn(daily, intraday, baselineVolume, order, priorHighs, yardstick);
  }
}
