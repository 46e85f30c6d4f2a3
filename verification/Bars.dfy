/** Price bars, the stable sort every detector starts with, and the event they report. */
module Bars {
  import opened Prelude

  datatype Bar = Bar(at: Moment, open: real, high: real, low: real, close: real, volume: real)

  /** One scanner_events row's worth of detection. */
  datatype Event = Event(
    ticker: string,
    day: int,
    triggerTs: int,
    triggerPrice: real,
    confirmTs: int,
    confirmPrice: real,
    level: real,
    volumeRatio: Option<real>)

  /** When to look for a trigger (ET), and how long to wait for its confirmation. */
  datatype Window = Window(earliest: int, cutoff: int, minutes: int)

  const LAB_WINDOW := Window(At(9, 35), At(10, 30), 60)

  ghost predicate TimeOrdered(bars: seq<Bar>) {
    forall i, j | 0 <= i < j < |bars| :: bars[i].at.utc <= bars[j].at.utc
  }

  /** Bars of one ET session: the ET clock runs with UTC. */
  ghost predicate OneSession(bars: seq<Bar>) {
    && (forall i, j | 0 <= i < |bars| && 0 <= j < |bars| :: bars[i].at.etDate == bars[j].at.etDate)
    && (forall i, j | 0 <= i < |bars| && 0 <= j < |bars| ::
          bars[i].at.utc <= bars[j].at.utc ==> bars[i].at.etTime <= bars[j].at.etTime)
  }

  /** Puts a bar behind every bar that is not later. */
  function Insert(bars: seq<Bar>, bar: Bar): seq<Bar> {
    if bars == [] || bars[|bars| - 1].at.utc <= bar.at.utc then bars + [bar]
    else Insert(bars[..|bars| - 1], bar) + [bars[|bars| - 1]]
  }

  /** sorted(bars, key=ts). */
  function SortByTime(bars: seq<Bar>): seq<Bar> {
    if bars == [] then [] else Insert(SortByTime(bars[..|bars| - 1]), bars[|bars| - 1])
  }

  lemma {:induction false} InsertKeepsBars(bars: seq<Bar>, bar: Bar)
    ensures multiset(Insert(bars, bar)) == multiset(bars) + multiset{bar}
  {
    if bars != [] {
      InsertKeepsBars(bars[..|bars| - 1], bar);
      assert bars == bars[..|bars| - 1] + [bars[|bars| - 1]];
    }
  }

  lemma {:induction false} InsertKeepsOrder(bars: seq<Bar>, bar: Bar)
    requires TimeOrdered(bars)
    ensures TimeOrdered(Insert(bars, bar))
    ensures forall i | 0 <= i < |Insert(bars, bar)| :: Insert(bars, bar)[i] == bar || Insert(bars, bar)[i] in bars
  {
    if bars != [] && bars[|bars| - 1].at.utc > bar.at.utc {
      var init, last := bars[..|bars| - 1], bars[|bars| - 1];
      InsertKeepsOrder(init, bar);
      forall i | 0 <= i < |Insert(init, bar)| ensures Insert(init, bar)[i].at.utc <= last.at.utc {
        if Insert(init, bar)[i] in init {
          var k :| 0 <= k < |init| && init[k] == Insert(init, bar)[i];
          assert bars[k].at.utc <= last.at.utc;
        }
      }
    }
  }

  lemma {:induction false} SortSorts(bars: seq<Bar>)
    ensures TimeOrdered(SortByTime(bars))
    ensures multiset(SortByTime(bars)) == multiset(bars)
    ensures |SortByTime(bars)| == |bars|
  {
    if bars != [] {
      var init, last := bars[..|bars| - 1], bars[|bars| - 1];
      SortSorts(init);
      InsertKeepsOrder(SortByTime(init), last);
      InsertKeepsBars(SortByTime(init), last);
      assert bars == init + [last];
    }
    assert |SortByTime(bars)| == |multiset(SortByTime(bars))|;
  }

  lemma OrderedInit(bars: seq<Bar>)
    requires TimeOrdered(bars) && bars != []
    ensures TimeOrdered(bars[..|bars| - 1])
    ensures |bars| > 1 ==> bars[|bars| - 2].at.utc <= bars[|bars| - 1].at.utc
  {}

  lemma {:induction false} SortOfOrdered(bars: seq<Bar>)
    requires TimeOrdered(bars)
    ensures SortByTime(bars) == bars
  {
    if bars != [] {
      var init, last := bars[..|bars| - 1], bars[|bars| - 1];
      OrderedInit(bars);
      SortOfOrdered(init);
      assert Insert(init, last) == init + [last];
      assert bars == init + [last];
    }
  }

  /** Sorting is stable: bars with one time stamp keep their order. */
  lemma {:induction false} SortIsStable(bars: seq<Bar>, utc: int)
    ensures AtInstant(SortByTime(bars), utc) == AtInstant(bars, utc)
  {
    if bars != [] {
      var init, last := bars[..|bars| - 1], bars[|bars| - 1];
      SortIsStable(init, utc);
      SortSorts(init);
      InsertIsStable(SortByTime(init), last, utc);
    }
  }

  function AtInstant(bars: seq<Bar>, utc: int): seq<Bar> {
    if bars == [] then []
    else
      var last := bars[|bars| - 1];
      AtInstant(bars[..|bars| - 1], utc) + if last.at.utc == utc then [last] else []
  }

  lemma {:induction false} InsertIsStable(bars: seq<Bar>, bar: Bar, utc: int)
    requires TimeOrdered(bars)
    ensures AtInstant(Insert(bars, bar), utc) == AtInstant(bars, utc) + if bar.at.utc == utc then [bar] else []
  {
    if bars == [] || bars[|bars| - 1].at.utc <= bar.at.utc {
      assert (bars + [bar])[..|bars|] == bars;
    } else {
      var init, last := bars[..|bars| - 1], bars[|bars| - 1];
      InsertIsStable(init, bar, utc);
      assert (Insert(init, bar) + [last])[..|Insert(init, bar)|] == Insert(init, bar);
    }
  }

  /** Volume of the confirming bar over the baseline. */
  function VolumeRatio(bar: Bar, baseline: Option<real>): Option<real> {
    if baseline.Some? && baseline.value > 0.0 then Some(bar.volume / baseline.value) else None
  }
}
