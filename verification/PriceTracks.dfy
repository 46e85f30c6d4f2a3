/** The post-signal price study: every pass captures the option mid of each signal at fixed
    minute offsets, deciding what is due from the tables alone. */
module PriceTracks {
  import opened Prelude

  /** Timestamps are microseconds. */
  const MINUTE := 60_000_000
  const OFFSETS := [1, 5, 15, 30]
  const LARGEST_OFFSET := 30
  const GRACE_MINUTES := 10

  datatype Pair = Pair(signal: nat, offset: int)

  datatype Track = Track(capturedAt: int, mid: Option<real>)

  /** signals holds parsed_at by id; tracks is signal_price_tracks by its unique key. */
  datatype State = State(signals: seq<int>, tracks: map<Pair, Track>)

  datatype Write = Write(pair: Pair, mid: Option<real>)

  /** Pass: the inserts that went through, in the query's order, before a call raised. */
  datatype Event = Arrive(parsedAt: int) | Pass(now: int, writes: seq<Write>)

  function Target(s: State, p: Pair): int
    requires p.signal < |s.signals|
  {
    s.signals[p.signal] + p.offset * MINUTE
  }

  /** What the study promises: capture in [target, target + grace). */
  predicate InWindow(s: State, p: Pair, now: int) {
    && p.signal < |s.signals| && (p.offset == 1 || p.offset == 5 || p.offset == 15 || p.offset == 30)
    && var target := s.signals[p.signal] + p.offset * 60_000_000;
       target <= now < target + 10 * 60_000_000
  }

  /** The WHERE clause, coarse parsed_at prefilter included. */
  predicate Selected(s: State, p: Pair, now: int) {
    && p.signal < |s.signals| && p.offset in OFFSETS && p !in s.tracks
    && s.signals[p.signal] > now - (LARGEST_OFFSET + GRACE_MINUTES) * MINUTE
    && now >= Target(s, p)
    && now < Target(s, p) + GRACE_MINUTES * MINUTE
  }

  /** The table after a pass: selected pairs are inserted, a conflict does nothing. */
  function Written(s: State, now: int, writes: seq<Write>): map<Pair, Track> {
    if writes == [] then s.tracks
    else
      var earlier, w := Written(s, now, writes[..|writes| - 1]), writes[|writes| - 1];
      if Selected(s, w.pair, now) && w.pair !in earlier then earlier[w.pair := Track(now, w.mid)] else earlier
  }

  function Step(s: State, e: Event): State {
    match e
    case Arrive(parsedAt) => s.(signals := s.signals + [parsedAt])
    case Pass(now, writes) => s.(tracks := Written(s, now, writes))
  }

  function Run(s: State, es: seq<Event>): State {
    if es == [] then s else Step(Run(s, es[..|es| - 1]), es[|es| - 1])
  }

  /** The pass went through: every selected pair was written. */
  ghost predicate Succeeds(s: State, e: Event) {
    e.Pass? && forall p | Selected(s, p, e.now) :: Writes(e, p)
  }

  ghost predicate Writes(e: Event, p: Pair)
    requires e.Pass?
  {
    exists i | 0 <= i < |e.writes| :: e.writes[i].pair == p
  }

  // ---- What a pass selects --------------------------------------------------------------

  /** The prefilter never drops a due pair: the query selects exactly the untracked pairs in
      their window. */
  lemma PrefilterDropsNothing(s: State, p: Pair, now: int)
    ensures Selected(s, p, now) <==> p !in s.tracks && InWindow(s, p, now)
  {
    if p.offset in OFFSETS {
      var i :| 0 <= i < |OFFSETS| && OFFSETS[i] == p.offset;
      assert p.offset <= LARGEST_OFFSET;
    }
  }

  /** A pass adds exactly the selected pairs it writes, stamped with its time, and changes no
      earlier track. */
  lemma {:induction false} PassAdds(s: State, now: int, writes: seq<Write>, p: Pair)
    ensures var t := Written(s, now, writes);
            && (p in t <==> p in s.tracks || (Selected(s, p, now) && Writes(Pass(now, writes), p)))
            && (p in s.tracks ==> t[p] == s.tracks[p])
            && (p in t && p !in s.tracks ==> t[p].capturedAt == now)
  {
    if writes != [] {
      var n := |writes| - 1;
      PassAdds(s, now, writes[..n], p);
      if Writes(Pass(now, writes), p) {
        var i :| 0 <= i < |writes| && writes[i].pair == p;
        assert i < n ==> writes[..n][i].pair == p;
      }
      if Writes(Pass(now, writes[..n]), p) {
        var i :| 0 <= i < n && writes[..n][i].pair == p;
        assert writes[i].pair == p;
      }
    }
  }

  lemma {:induction false} SignalsStay(s: State, es: seq<Event>)
    ensures s.signals <= Run(s, es).signals
  {
    if es != [] {
      SignalsStay(s, es[..|es| - 1]);
    }
  }

  /** At most once: a captured pair keeps its first capture for good. */
  lemma {:induction false} CapturedOnce(s: State, es: seq<Event>, p: Pair)
    requires p in s.tracks
    ensures p in Run(s, es).tracks && Run(s, es).tracks[p] == s.tracks[p]
  {
    if es != [] {
      CapturedOnce(s, es[..|es| - 1], p);
      if es[|es| - 1].Pass? {
        PassAdds(Run(s, es[..|es| - 1]), es[|es| - 1].now, es[|es| - 1].writes, p);
      }
    }
  }

  /** The pass at position i of the run writes the pair, inside its window. */
  ghost predicate CapturedAt(s: State, es: seq<Event>, p: Pair, i: nat) {
    && i < |es| && es[i].Pass? && Writes(es[i], p)
    && InWindow(Run(s, es[..i]), p, es[i].now)
  }

  ghost predicate CapturedBy(s: State, es: seq<Event>, p: Pair, i: nat) {
    && CapturedAt(s, es, p, i)
    && forall j: nat | j < i :: !CapturedAt(s, es, p, j)
  }

  lemma PrefixCaptures(s: State, es: seq<Event>, n: nat, p: Pair, i: nat)
    requires n <= |es| && i < n
    ensures CapturedAt(s, es[..n], p, i) <==> CapturedAt(s, es, p, i)
  {
    assert es[..n][..i] == es[..i];
  }

  /** Main result: after any run of passes, arrivals and failures, an initially untracked pair
      has a capture if and only if some pass wrote it inside [target, target + 10 minutes); the
      capture is that of the first such pass and is never changed. */
  lemma {:induction false} CapturedIff(s: State, es: seq<Event>, p: Pair)
    requires p !in s.tracks
    ensures p in Run(s, es).tracks <==> exists i: nat :: CapturedAt(s, es, p, i)
    ensures p in Run(s, es).tracks ==>
              exists i: nat :: CapturedBy(s, es, p, i) && Run(s, es).tracks[p].capturedAt == es[i].now
  {
    if es != [] {
      var n := |es| - 1;
      var before := Run(s, es[..n]);
      CapturedIff(s, es[..n], p);
      forall i: nat | i < n ensures CapturedAt(s, es[..n], p, i) <==> CapturedAt(s, es, p, i) {
        PrefixCaptures(s, es, n, p, i);
      }
      if es[n].Pass? {
        PrefilterDropsNothing(before, p, es[n].now);
        PassAdds(before, es[n].now, es[n].writes, p);
      }
      if p in before.tracks {
        var i: nat :| CapturedBy(s, es[..n], p, i) && before.tracks[p].capturedAt == es[..n][i].now;
        assert CapturedBy(s, es, p, i);
      } else if CapturedAt(s, es, p, n) {
        assert CapturedBy(s, es, p, n);
      }
    }
  }

  // ---- Exactly once ------------------------------------------------------------------------

  /** Indices of successful passes, in order, at most the grace apart. */
  ghost predicate Steady(s: State, es: seq<Event>, at: seq<nat>) {
    && (forall i | 0 <= i < |at| :: at[i] < |es| && Succeeds(Run(s, es[..at[i]]), es[at[i]]))
    && (forall i, j | 0 <= i < j < |at| :: at[i] < at[j])
    && (forall i | 0 < i < |at| :: Close(es, at, i))
  }

  ghost predicate Close(es: seq<Event>, at: seq<nat>, i: int)
    requires 0 < i < |at| && at[i] < |es| && at[i - 1] < |es| && es[at[i]].Pass? && es[at[i - 1]].Pass?
  {
    es[at[i]].now <= es[at[i - 1]].now + 10 * 60_000_000
  }

  /** Some pass of a steady sequence that begins before the target and ends at or after it falls
      inside the window. */
  lemma {:induction false} SteadyHitsWindow(s: State, es: seq<Event>, at: seq<nat>, target: int) returns (i: nat)
    requires Steady(s, es, at) && |at| > 0
    requires es[at[0]].now < target <= es[at[|at| - 1]].now
    ensures i < |at| && target <= es[at[i]].now < target + 10 * 60_000_000
  {
    i := 0;
    while es[at[i]].now < target
      invariant i < |at|
      invariant i > 0 ==> es[at[i - 1]].now < target
      decreases |at| - i
    {
      i := i + 1;
    }
    if i > 0 {
      assert Close(es, at, i);
    }
  }

  /** Main result: when successful passes come at most ten minutes apart, from before the target
      until at or after it, with the signal already recorded, the pair is captured in time. */
  lemma SteadyPassesCapture(s: State, es: seq<Event>, at: seq<nat>, p: Pair)
    requires p.signal < |s.signals| && p.offset in {1, 5, 15, 30} && p !in s.tracks
    requires Steady(s, es, at) && |at| > 0
    requires es[at[0]].now < s.signals[p.signal] + p.offset * 60_000_000 <= es[at[|at| - 1]].now
    ensures p in Run(s, es).tracks
    ensures var target, captured := s.signals[p.signal] + p.offset * 60_000_000, Run(s, es).tracks[p].capturedAt;
            target <= captured < target + 10 * 60_000_000
  {
    var i := SteadyHitsWindow(s, es, at, Target(s, p));
    var n := at[i];
    var before := Run(s, es[..n]);
    SignalsStay(s, es[..n]);
    PrefilterDropsNothing(before, p, es[n].now);
    CapturedIff(s, es[..n], p);
    CapturedIff(s, es, p);
    if p in before.tracks {
      var j: nat :| CapturedAt(s, es[..n], p, j);
      PrefixCaptures(s, es, n, p, j);
    } else {
      assert CapturedAt(s, es, p, n);
    }
    var first: nat :| CapturedBy(s, es, p, first) && Run(s, es).tracks[p].capturedAt == es[first].now;
    SignalsStay(s, es[..first]);
  }

  // ---- The capture loop ---------------------------------------------------------------------

  class Study {
    var signals: seq<int>
    var tracks: map<Pair, Track>

    constructor (signals: seq<int>)
      ensures View() == State(signals, map[])
    {
      this.signals, tracks := signals, map[];
    }

    ghost function View(): State
      reads this
    {
      State(signals, tracks)
    }

    /** _capture_due_price_tracks: due is the query's answer in any order, with the mid found for
        each; the insert at index stop raises when that index exists. */
    method CaptureDuePriceTracks(now: int, due: seq<Write>, stop: nat)
      requires forall i | 0 <= i < |due| :: Selected(View(), due[i].pair, now)
      modifies this`tracks
      ensures View() == Step(old(View()), Pass(now, due[..MinInt(stop, |due|)]))
    {
      ghost var start := View();
      var i := 0;
      while i < |due| && i < stop
        invariant 0 <= i <= |due| && i <= stop
        invariant signals == start.signals && tracks == Written(start, now, due[..i])
      {
        assert due[..i + 1][..i] == due[..i];
        if due[i].pair !in tracks {
          tracks := tracks[due[i].pair := Track(now, due[i].mid)];
        }
        i := i + 1;
      }
    }
  }
}
