/** The kill-switch machine of the orchestrator: strip the self-healing switches, assemble
    a session, evaluate, union, announce. Every external call may raise, and where it does
    decides how much of the update happens.

    The machine recomputes from carried state on every event; the lemmas show that what it
    carries is a function of the history of the process, that daily_loss is a latch no
    later event can get an entry past, and when alerts are sent. */
module KillSwitches {
  import opened Prelude
  import opened RiskManager

  /** Everything an evaluation reads from outside. clock is None when get_clock raises. */
  datatype Observation = Observation(
    now: int,
    realized: real,
    clock: Option<bool>,
    xPaused: bool,
    listenerAlive: bool,
    losses: int,
    lastTradeClosed: Option<int>,
    killPct: real)

  /** Which external call of an evaluation raises first, if any. */
  datatype Fate = PnlQueryRaises | TradeQueryRaises | EventWriteRaises | Completes

  datatype Event =
    | XHeartbeat(at: int)
    | AlpacaHeartbeat(at: int)
    | Pulse(obs: Observation, fate: Fate)
    | Post(obs: Observation, fate: Fate, otherGatesPass: bool)
    | ScannerSignal(otherGatesPass: bool)

  datatype Panel = Panel(
    active: set<Switch>,
    notified: set<Switch>,
    lastX: Option<int>,
    lastAlpaca: Option<int>)

  const START := Panel({}, {}, None, None)
  const STARTING_EQUITY := 100000.0
  const RECOMPUTED := {XStreamDisconnected, AlpacaDisconnected, ConsecutiveLosses}

  // ---- The specification machine --------------------------------------------

  /** The session a panel and an observation give, after the strip. */
  function Session(p: Panel, obs: Observation): (s: SessionState)
    ensures s.startingEquity > 0.0
  {
    SessionState(
      STARTING_EQUITY, STARTING_EQUITY + obs.realized, obs.losses,
      if obs.xPaused || obs.listenerAlive then Some(obs.now) else p.lastX,
      if obs.clock.Some? then Some(obs.now) else p.lastAlpaca,
      obs.clock == Some(true),
      p.active - RECOMPUTED,
      obs.lastTradeClosed)
  }

  function Decision(p: Panel, obs: Observation, maxLosses: int): RiskDecision {
    Evaluate(Session(p, obs), obs.now, obs.killPct, maxLosses).value
  }

  /** The event evaluates the switches against an observation. */
  predicate IsRisk(e: Event) {
    e.Pulse? || e.Post?
  }

  /** The evaluation got past the P&L queries, so the self-healing switches were stripped. */
  predicate Strips(e: Event) {
    IsRisk(e) && !e.fate.PnlQueryRaises?
  }

  /** The evaluation's verdict reached active_switches. A pulse stores it before it writes
      its event; a post stores it only after evaluate_and_log has written one. */
  predicate Settles(e: Event) {
    || (e.Pulse? && (e.fate.EventWriteRaises? || e.fate.Completes?))
    || (e.Post? && e.fate.Completes?)
  }

  function Next(p: Panel, e: Event, maxLosses: int): Panel {
    match e
    case XHeartbeat(at) => p.(lastX := Some(at))
    case AlpacaHeartbeat(at) => p.(lastAlpaca := Some(at))
    case ScannerSignal(_) => p
    case Pulse(obs, fate) =>
      if fate.PnlQueryRaises? then p
      else
        var tripped := Decision(p, obs, maxLosses).tripped;
        p.(active := if Settles(e) then tripped else p.active - RECOMPUTED,
           notified := if Settles(e) then tripped else p.notified,
           lastAlpaca := Session(p, obs).lastAlpaca)
    case Post(obs, fate, _) =>
      if fate.PnlQueryRaises? then p
      else
        p.(active := if Settles(e) then Decision(p, obs, maxLosses).tripped else p.active - RECOMPUTED,
           lastAlpaca := Session(p, obs).lastAlpaca)
  }

  /** The event submits an entry order to the broker. */
  predicate Submits(p: Panel, e: Event, maxLosses: int) {
    match e
    case Post(obs, fate, otherGatesPass) =>
      fate.Completes? && Decision(p, obs, maxLosses).accepted && otherGatesPass
    case ScannerSignal(otherGatesPass) => otherGatesPass && p.active * SCANNER_BLOCKERS == {}
    case _ => false
  }

  /** The switches the event announces in the events table. */
  function Announces(p: Panel, e: Event, maxLosses: int): set<Switch> {
    if e.Pulse? && e.fate.Completes? then Decision(p, e.obs, maxLosses).tripped - p.notified else {}
  }

  function After(h: seq<Event>, maxLosses: int): Panel {
    if h == [] then START else Next(After(h[..|h| - 1], maxLosses), h[|h| - 1], maxLosses)
  }

  // ---- What the history says ------------------------------------------------

  /** Event i of the history evaluated the switch's condition to true. */
  ghost predicate HeldAt(sw: Switch, h: seq<Event>, i: nat, maxLosses: int)
    requires i < |h|
  {
    IsRisk(h[i]) && Holds(sw, Session(After(h[..i], maxLosses), h[i].obs), h[i].obs.now, h[i].obs.killPct, maxLosses)
  }

  /** Event i is the last one that stripped. */
  ghost predicate LastStrip(h: seq<Event>, i: int) {
    0 <= i < |h| && Strips(h[i]) && forall j | i < j < |h| :: !Strips(h[j])
  }

  /** Event i is the last pulse whose verdict was stored. */
  ghost predicate LastPulse(h: seq<Event>, i: int) {
    0 <= i < |h| && h[i].Pulse? && Settles(h[i]) && forall j | i < j < |h| :: !(h[j].Pulse? && Settles(h[j]))
  }

  /** daily_loss is on iff its condition held at some stored evaluation of this process. */
  lemma {:induction false} DailyLossIsHistory(h: seq<Event>, maxLosses: int)
    ensures DailyLoss in After(h, maxLosses).active
            <==> exists i | 0 <= i < |h| :: Settles(h[i]) && HeldAt(DailyLoss, h, i, maxLosses)
  {
    if h != [] {
      var n := |h| - 1;
      var before := h[..n];
      DailyLossIsHistory(before, maxLosses);
      forall i | 0 <= i < n
        ensures HeldAt(DailyLoss, h, i, maxLosses) == HeldAt(DailyLoss, before, i, maxLosses)
      {
        assert h[..i] == before[..i];
      }
      if DailyLoss in After(before, maxLosses).active {
        var i :| 0 <= i < n && Settles(before[i]) && HeldAt(DailyLoss, before, i, maxLosses);
        assert Settles(h[i]) && HeldAt(DailyLoss, h, i, maxLosses);
      } else if DailyLoss in After(h, maxLosses).active {
        assert Settles(h[n]) && HeldAt(DailyLoss, h, n, maxLosses);
      }
    }
  }

  /** A self-healing switch is on iff the last evaluation that stripped it also stored its
      verdict and found the condition true: an aborted evaluation silently clears it. */
  lemma {:induction false} HealingIsLastEvaluation(h: seq<Event>, sw: Switch, maxLosses: int)
    requires sw != DailyLoss
    ensures sw in After(h, maxLosses).active
            <==> exists i :: LastStrip(h, i) && Settles(h[i]) && HeldAt(sw, h, i, maxLosses)
  {
    if h != [] {
      var n := |h| - 1;
      var before := h[..n];
      if Strips(h[n]) {
        assert LastStrip(h, n);
        forall i | LastStrip(h, i) ensures i == n {}
      } else {
        HealingIsLastEvaluation(before, sw, maxLosses);
        assert After(h, maxLosses).active == After(before, maxLosses).active;
        forall i | 0 <= i < n
          ensures LastStrip(h, i) <==> LastStrip(before, i)
          ensures HeldAt(sw, h, i, maxLosses) == HeldAt(sw, before, i, maxLosses)
        {
          assert h[..i] == before[..i];
          assert forall j | i < j < n :: h[j] == before[j];
        }
        if sw in After(before, maxLosses).active {
          var i :| LastStrip(before, i) && Settles(before[i]) && HeldAt(sw, before, i, maxLosses);
          assert LastStrip(h, i);
        }
      }
    }
  }

  /** Main result: right after an evaluation whose verdict was stored, the active switches
      are the self-healing ones whose condition holds now, plus daily_loss iff its condition
      held at some stored evaluation of the run. */
  lemma ActiveIsHistory(h: seq<Event>, e: Event, sw: Switch, maxLosses: int)
    requires Settles(e)
    ensures var run := h + [e];
            sw in After(run, maxLosses).active <==>
              if sw == DailyLoss then exists i | 0 <= i < |run| :: Settles(run[i]) && HeldAt(sw, run, i, maxLosses)
              else HeldAt(sw, run, |h|, maxLosses)
  {
    var run := h + [e];
    if sw == DailyLoss {
      DailyLossIsHistory(run, maxLosses);
    } else {
      HealingIsLastEvaluation(run, sw, maxLosses);
      assert run[|h|] == e;
      assert LastStrip(run, |h|);
      forall i | LastStrip(run, i) ensures i == |h| {}
    }
  }

  lemma {:induction false} LatchPersists(h: seq<Event>, more: seq<Event>, maxLosses: int)
    requires DailyLoss in After(h, maxLosses).active
    ensures DailyLoss in After(h + more, maxLosses).active
  {
    if more == [] {
      assert h + more == h;
    } else {
      var n := |more| - 1;
      LatchPersists(h, more[..n], maxLosses);
      assert (h + more)[..|h + more| - 1] == h + more[..n];
    }
  }

  /** Safety: once daily_loss is on, no later event of the process submits an entry in
      either book, whatever raises. */
  lemma NoEntryAfterDailyLoss(h: seq<Event>, more: seq<Event>, e: Event, maxLosses: int)
    requires DailyLoss in After(h, maxLosses).active
    ensures !Submits(After(h + more, maxLosses), e, maxLosses)
  {
    LatchPersists(h, more, maxLosses);
    var p := After(h + more, maxLosses);
    if e.Post? {
      assert DailyLoss in Session(p, e.obs).activeSwitches;
    } else if e.ScannerSignal? {
      assert DailyLoss in p.active * SCANNER_BLOCKERS;
    }
  }

  /** The code's comment promises that a failing get_clock trips alpaca_disconnected. It
      cannot: the switch needs an open market, an open market needs a successful get_clock,
      and that call has just refreshed the heartbeat the switch looks at. */
  lemma {:induction false} AlpacaDisconnectedNeverTrips(h: seq<Event>, maxLosses: int)
    ensures AlpacaDisconnected !in After(h, maxLosses).active
    ensures AlpacaDisconnected !in After(h, maxLosses).notified
    ensures forall e :: AlpacaDisconnected !in Announces(After(h, maxLosses), e, maxLosses)
  {
    if h != [] {
      AlpacaDisconnectedNeverTrips(h[..|h| - 1], maxLosses);
    }
  }

  // ---- In raw terms ---------------------------------------------------------

  /** The streak alone keeps the bot from entering. */
  predicate OnLosingStreak(obs: Observation, maxLosses: int) {
    obs.losses >= maxLosses && (obs.lastTradeClosed.Some? ==> obs.now < obs.lastTradeClosed.value + 1800)
  }

  /** The stream is neither paused nor alive and has not been heard for more than a minute. */
  predicate StreamIsGone(p: Panel, obs: Observation) {
    && obs.clock == Some(true) && !obs.xPaused && !obs.listenerAlive
    && (p.lastX.Some? ==> obs.now > p.lastX.value + 60)
  }

  /** What an evaluation leaves on the panel, from what it observed: the loss of the day against a
      starting equity of 100000 stays on for good, the streak and the stream are what they are
      now, and a call that raises before the verdict is stored clears both. */
  lemma EvaluationInRawTerms(p: Panel, e: Event, maxLosses: int)
    ensures e.XHeartbeat? ==> Next(p, e, maxLosses) == Panel(p.active, p.notified, Some(e.at), p.lastAlpaca)
    ensures e.AlpacaHeartbeat? ==> Next(p, e, maxLosses) == Panel(p.active, p.notified, p.lastX, Some(e.at))
    ensures e.ScannerSignal? ==> Next(p, e, maxLosses) == p
    ensures e.Pulse? || e.Post? ==>
            var q := Next(p, e, maxLosses);
            && q.lastX == p.lastX
            && (e.fate.PnlQueryRaises? ==> q == p)
            && (!e.fate.PnlQueryRaises? ==>
                  && q.lastAlpaca == (if e.obs.clock.Some? then Some(e.obs.now) else p.lastAlpaca)
                  && var stored := e.fate.Completes? || (e.Pulse? && e.fate.EventWriteRaises?);
                     && (DailyLoss in q.active <==>
                           DailyLoss in p.active || (stored && -e.obs.realized >= e.obs.killPct * 100000.0))
                     && (ConsecutiveLosses in q.active <==> stored && OnLosingStreak(e.obs, maxLosses))
                     && (XStreamDisconnected in q.active <==> stored && StreamIsGone(p, e.obs))
                     && AlpacaDisconnected !in q.active
                     && q.notified == if stored && e.Pulse? then q.active else p.notified)
  {
    if e.Pulse? || e.Post? {
      SwitchesInRawTerms(Session(p, e.obs), e.obs.now, e.obs.killPct, maxLosses);
    }
  }

  /** What gets past the gates: a post only when its evaluation completes and nothing is on; a
      scanner signal unless one of three switches is on. An x_stream outage does not stop it. */
  lemma GatesInRawTerms(p: Panel, e: Event, maxLosses: int)
    ensures e.Post? ==>
              (Submits(p, e, maxLosses) <==>
                 && e.otherGatesPass && e.fate.Completes? && DailyLoss !in p.active
                 && -e.obs.realized < e.obs.killPct * 100000.0
                 && !OnLosingStreak(e.obs, maxLosses) && !StreamIsGone(p, e.obs))
    ensures e.ScannerSignal? ==>
              (Submits(p, e, maxLosses) <==>
                 && e.otherGatesPass && DailyLoss !in p.active && ConsecutiveLosses !in p.active
                 && AlpacaDisconnected !in p.active)
    ensures e.XHeartbeat? || e.AlpacaHeartbeat? || e.Pulse? ==> !Submits(p, e, maxLosses)
  {
    if e.Post? {
      SwitchesInRawTerms(Session(p, e.obs), e.obs.now, e.obs.killPct, maxLosses);
    }
    if e.ScannerSignal? {
      forall sw ensures sw in p.active * SCANNER_BLOCKERS <==> sw in p.active && sw != XStreamDisconnected {}
    }
  }

  // ---- Alerts ---------------------------------------------------------------

  /** notified_switches is the verdict of the last stored pulse. */
  lemma {:induction false} NotifiedIsLastPulse(h: seq<Event>, i: int, maxLosses: int)
    requires LastPulse(h, i)
    ensures After(h, maxLosses).notified == After(h[..i + 1], maxLosses).active
  {
    var n := |h| - 1;
    if i == n {
      assert h[..i + 1] == h;
    } else {
      assert LastPulse(h[..n], i);
      NotifiedIsLastPulse(h[..n], i, maxLosses);
      assert h[..n][..i + 1] == h[..i + 1];
    }
  }

  lemma {:induction false} NothingNotifiedBeforePulses(h: seq<Event>, maxLosses: int)
    requires forall i | 0 <= i < |h| :: !(h[i].Pulse? && Settles(h[i]))
    ensures After(h, maxLosses).notified == {}
  {
    if h != [] {
      NothingNotifiedBeforePulses(h[..|h| - 1], maxLosses);
    }
  }

  /** Alerts are rising edges between pulses: a pulse announces a switch iff its event write
      succeeds, the switch is on after it, and it was off after the previous pulse. */
  lemma AnnouncesRisingEdges(h: seq<Event>, e: Event, sw: Switch, maxLosses: int)
    requires e.Pulse?
    ensures sw in Announces(After(h, maxLosses), e, maxLosses) <==>
            && e.fate.Completes?
            && sw in After(h + [e], maxLosses).active
            && forall i :: LastPulse(h, i) ==> sw !in After(h[..i + 1], maxLosses).active
  {
    assert (h + [e])[..|h|] == h;
    if exists i :: LastPulse(h, i) {
      var i :| LastPulse(h, i);
      NotifiedIsLastPulse(h, i, maxLosses);
      forall j | LastPulse(h, j) ensures i == j {}
    } else {
      NoPulseWithoutALastOne(h);
      NothingNotifiedBeforePulses(h, maxLosses);
    }
  }

  lemma {:induction false} NoPulseWithoutALastOne(h: seq<Event>)
    requires forall i :: !LastPulse(h, i)
    ensures forall i | 0 <= i < |h| :: !(h[i].Pulse? && Settles(h[i]))
  {
    if h != [] {
      var n := |h| - 1;
      assert !LastPulse(h, n);
      forall i ensures LastPulse(h[..n], i) ==> LastPulse(h, i) {}
      NoPulseWithoutALastOne(h[..n]);
      forall i | 0 <= i < n ensures !(h[i].Pulse? && Settles(h[i])) {
        assert h[i] == h[..n][i];
      }
    }
  }

  /** daily_loss is announced at most once per process. */
  lemma DailyLossAnnouncedOnce(h: seq<Event>, first: Event, between: seq<Event>, second: Event, maxLosses: int)
    requires DailyLoss in Announces(After(h, maxLosses), first, maxLosses)
    ensures DailyLoss !in Announces(After(h + [first] + between, maxLosses), second, maxLosses)
  {
    var run := h + [first];
    assert run[..|h|] == h && run[|h|] == first;
    NotifiedPersists(run, between, maxLosses);
  }

  lemma {:induction false} NotifiedPersists(h: seq<Event>, more: seq<Event>, maxLosses: int)
    requires DailyLoss in After(h, maxLosses).active && DailyLoss in After(h, maxLosses).notified
    ensures DailyLoss in After(h + more, maxLosses).active && DailyLoss in After(h + more, maxLosses).notified
  {
    if more == [] {
      assert h + more == h;
    } else {
      var n := |more| - 1;
      NotifiedPersists(h, more[..n], maxLosses);
      assert (h + more)[..|h + more| - 1] == h + more[..n];
    }
  }

  // ---- The object that is updated in place ----------------------------------

  /** The orchestrator's switch state: _state.active_switches, _state.notified_switches and
      the two heartbeats. */
  class SwitchBoard {
    var active: set<Switch>
    var notified: set<Switch>
    var lastX: Option<int>
    var lastAlpaca: Option<int>
    const maxLosses: int

    constructor (maxLosses: int)
      ensures View() == START && this.maxLosses == maxLosses
    {
      active, notified, lastX, lastAlpaca := {}, {}, None, None;
      this.maxLosses := maxLosses;
    }

    ghost function View(): Panel
      reads this
    {
      Panel(active, notified, lastX, lastAlpaca)
    }

    /** A drained post is evidence that the stream was alive when it came. */
    method HearPost(receivedAt: int)
      modifies this`lastX
      ensures View() == if old(lastX).Some? && receivedAt <= old(lastX).value then old(View())
                        else Next(old(View()), XHeartbeat(receivedAt), maxLosses)
    {
      if lastX.None? || receivedAt > lastX.value {
        lastX := Some(receivedAt);
      }
    }

    /** _build_session_state: returns nothing when a query raises. */
    method BuildSessionState(obs: Observation, fate: Fate) returns (s: Option<SessionState>)
      modifies this
      ensures notified == old(notified) && lastX == old(lastX)
      ensures s.Some? <==> fate.EventWriteRaises? || fate.Completes?
      ensures s.Some? ==> s.value == Session(old(View()), obs)
      ensures fate.PnlQueryRaises? ==> View() == old(View())
      ensures !fate.PnlQueryRaises? ==>
                active == old(active) - RECOMPUTED && lastAlpaca == Session(old(View()), obs).lastAlpaca
    {
      if fate.PnlQueryRaises? {
        return None;
      }
      var marketOpen := false;
      if obs.clock.Some? {
        marketOpen := obs.clock.value;
        lastAlpaca := Some(obs.now);
      }
      var seenX := lastX;
      if obs.xPaused {
        seenX := Some(obs.now);
      } else if obs.listenerAlive {
        seenX := Some(obs.now);
      }
      active := active - RECOMPUTED;
      if fate.TradeQueryRaises? {
        return None;
      }
      s := Some(SessionState(STARTING_EQUITY, STARTING_EQUITY + obs.realized, obs.losses, seenX,
                             lastAlpaca, marketOpen, active, obs.lastTradeClosed));
    }

    /** _risk_pulse: returns the switches it announced. */
    method RiskPulse(obs: Observation, fate: Fate) returns (announced: set<Switch>)
      modifies this
      ensures View() == Next(old(View()), Pulse(obs, fate), maxLosses)
      ensures announced == Announces(old(View()), Pulse(obs, fate), maxLosses)
    {
      var s := BuildSessionState(obs, fate);
      if s.None? {
        return {};
      }
      var decision := Evaluate(s.value, obs.now, obs.killPct, maxLosses).value;
      if decision.tripped != active {
        active := decision.tripped;
      }
      var announce := decision.tripped - notified;
      var cleared := notified - decision.tripped;
      if announce != {} || cleared != {} {
        notified := decision.tripped;
      }
      if fate.EventWriteRaises? {
        return {};
      }
      return announce;
    }

    /** The risk check of _handle_post: whether the post may go on to submit an entry. */
    method CheckPost(obs: Observation, fate: Fate) returns (accepted: bool)
      modifies this
      ensures View() == Next(old(View()), Post(obs, fate, true), maxLosses)
      ensures accepted == Submits(old(View()), Post(obs, fate, true), maxLosses)
    {
      var s := BuildSessionState(obs, fate);
      if s.None? {
        return false;
      }
      var decision := Evaluate(s.value, obs.now, obs.killPct, maxLosses).value;
      if fate.EventWriteRaises? {
        return false;
      }
      if !decision.accepted {
        active := decision.tripped;
        return false;
      }
      return true;
    }
  }
}
