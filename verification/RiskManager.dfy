/** The kill-switch evaluator (risk_manager.py): which switches a session snapshot trips. */
module RiskManager {
  import opened Prelude

  datatype Switch = DailyLoss | ConsecutiveLosses | XStreamDisconnected | AlpacaDisconnected

  /** The switches that also keep the scanner book from entering. */
  const SCANNER_BLOCKERS := {DailyLoss, ConsecutiveLosses, AlpacaDisconnected}

  const CONNECTION_STALL_SECONDS := 60
  const CONSECUTIVE_LOSS_COOLDOWN := 30 * 60

  datatype SessionState = SessionState(
    startingEquity: real,
    currentEquity: real,
    consecutiveLosses: int,
    lastX: Option<int>,
    lastAlpaca: Option<int>,
    marketOpen: bool,
    activeSwitches: set<Switch>,
    lastTradeClosed: Option<int>)

  datatype RiskDecision = RiskDecision(
    accepted: bool,
    tripped: set<Switch>,
    newlyTripped: set<Switch>,
    reason: Option<Switch>)

  predicate Stalled(heartbeat: Option<int>, now: int) {
    heartbeat.None? || now - heartbeat.value > CONNECTION_STALL_SECONDS
  }

  predicate CooledOff(lastTradeClosed: Option<int>, now: int) {
    lastTradeClosed.Some? && now - lastTradeClosed.value >= CONSECUTIVE_LOSS_COOLDOWN
  }

  /** The condition of one switch, taken alone. */
  predicate Holds(sw: Switch, s: SessionState, now: int, killPct: real, maxLosses: int)
    requires s.startingEquity > 0.0
  {
    match sw
    case DailyLoss => (s.startingEquity - s.currentEquity) / s.startingEquity >= killPct
    case ConsecutiveLosses => s.consecutiveLosses >= maxLosses && !CooledOff(s.lastTradeClosed, now)
    case XStreamDisconnected => s.marketOpen && Stalled(s.lastX, now)
    case AlpacaDisconnected => s.marketOpen && Stalled(s.lastAlpaca, now)
  }

  /** Capital protection first, then the connections: the position in KILL_SWITCH_NAMES. */
  function Priority(sw: Switch): nat {
    match sw
    case DailyLoss => 0
    case ConsecutiveLosses => 1
    case XStreamDisconnected => 2
    case AlpacaDisconnected => 3
  }

  /** The reason that is journaled: the tripped switch that comes first. */
  function FirstReason(tripped: set<Switch>): (r: Option<Switch>)
    ensures r.None? <==> tripped == {}
    ensures r.Some? ==> r.value in tripped && forall sw <- tripped :: Priority(r.value) <= Priority(sw)
  {
    if DailyLoss in tripped then Some(DailyLoss)
    else if ConsecutiveLosses in tripped then Some(ConsecutiveLosses)
    else if XStreamDisconnected in tripped then Some(XStreamDisconnected)
    else if AlpacaDisconnected in tripped then Some(AlpacaDisconnected)
    else
      assert forall sw <- tripped :: 0 <= Priority(sw) <= 3;
      None
  }

  /** The evaluator's verdict. A switch is on afterwards iff it was on or its condition
      holds, and the session is accepted iff none is on. */
  function Evaluate(s: SessionState, now: int, killPct: real, maxLosses: int): (r: Result<RiskDecision>)
    ensures r.Err? <==> s.startingEquity <= 0.0
    ensures r.Ok? ==> forall sw ::
                sw in r.value.tripped <==> sw in s.activeSwitches || Holds(sw, s, now, killPct, maxLosses)
    ensures r.Ok? ==> r.value.newlyTripped == r.value.tripped - s.activeSwitches
    ensures r.Ok? ==> (r.value.accepted <==> r.value.tripped == {})
  {
    if s.startingEquity <= 0.0 then Err(ValueError)
    else
      var lossPct := (s.startingEquity - s.currentEquity) / s.startingEquity;
      var daily := if lossPct >= killPct then {DailyLoss} else {};
      var streak :=
        if s.consecutiveLosses >= maxLosses && !CooledOff(s.lastTradeClosed, now) then {ConsecutiveLosses} else {};
      var x := if s.marketOpen && Stalled(s.lastX, now) then {XStreamDisconnected} else {};
      var alpaca := if s.marketOpen && Stalled(s.lastAlpaca, now) then {AlpacaDisconnected} else {};
      var holding := daily + streak + x + alpaca;
      var tripped := s.activeSwitches + holding;
      Ok(RiskDecision(tripped == {}, tripped, holding - s.activeSwitches, FirstReason(tripped)))
  }

  /** The verdict in raw terms: daily_loss from the configured fraction of the starting equity on,
      a losing streak until its newest close is half an hour old, a connection that has not been
      heard for more than a minute while the market is open. */
  lemma SwitchesInRawTerms(s: SessionState, now: int, killPct: real, maxLosses: int)
    requires s.startingEquity > 0.0
    ensures var r := Evaluate(s, now, killPct, maxLosses);
            && r.Ok?
            && (DailyLoss in r.value.tripped <==>
                  DailyLoss in s.activeSwitches || s.startingEquity - s.currentEquity >= killPct * s.startingEquity)
            && (ConsecutiveLosses in r.value.tripped <==>
                  || ConsecutiveLosses in s.activeSwitches
                  || (s.consecutiveLosses >= maxLosses
                      && (s.lastTradeClosed.Some? ==> now < s.lastTradeClosed.value + 1800)))
            && (XStreamDisconnected in r.value.tripped <==>
                  || XStreamDisconnected in s.activeSwitches
                  || (s.marketOpen && (s.lastX.Some? ==> now > s.lastX.value + 60)))
            && (AlpacaDisconnected in r.value.tripped <==>
                  || AlpacaDisconnected in s.activeSwitches
                  || (s.marketOpen && (s.lastAlpaca.Some? ==> now > s.lastAlpaca.value + 60)))
            && (r.value.accepted <==>
                  && DailyLoss !in r.value.tripped && ConsecutiveLosses !in r.value.tripped
                  && XStreamDisconnected !in r.value.tripped && AlpacaDisconnected !in r.value.tripped)
  {
    QuotientAtLeast(s.startingEquity - s.currentEquity, s.startingEquity, killPct);
    var tripped := Evaluate(s, now, killPct, maxLosses).value.tripped;
    if tripped != {} {
      var sw :| sw in tripped;
    }
  }

  lemma QuotientAtLeast(a: real, b: real, c: real)
    requires b > 0.0
    ensures a / b >= c <==> a >= c * b
  {
    var q := a / b;
    assert q * b == a;
    if q >= c {
      assert (q - c) * b >= 0.0;
    } else {
      assert (c - q) * b > 0.0;
    }
  }

  /** A tripped set names its reason: capital protection first, then the connections. */
  lemma ReasonInRawTerms(tripped: set<Switch>)
    ensures var r := FirstReason(tripped);
            && (r == Some(DailyLoss) <==> DailyLoss in tripped)
            && (r == Some(ConsecutiveLosses) <==> ConsecutiveLosses in tripped && DailyLoss !in tripped)
            && (r == Some(XStreamDisconnected) <==>
                  XStreamDisconnected in tripped && DailyLoss !in tripped && ConsecutiveLosses !in tripped)
            && (r == Some(AlpacaDisconnected) <==> tripped == {AlpacaDisconnected})
            && (r == None <==> tripped == {})
  {
    forall sw <- tripped ensures sw in {DailyLoss, ConsecutiveLosses, XStreamDisconnected, AlpacaDisconnected} {
      assert 0 <= Priority(sw) <= 3;
    }
  }

  /** The length of the losing streak at the head of the newest-first trade rows. */
  method ConsecutiveLossCount(newestFirst: seq<Option<real>>) returns (count: nat)
    ensures count <= |newestFirst|
    ensures forall i | 0 <= i < count :: newestFirst[i].Some? && newestFirst[i].value <= 0.0
    ensures count < |newestFirst| ==> newestFirst[count].None? || newestFirst[count].value > 0.0
  {
    count := 0;
    for i := 0 to |newestFirst|
      invariant count == i
      invariant forall j | 0 <= j < i :: newestFirst[j].Some? && newestFirst[j].value <= 0.0
    {
      var pnl := newestFirst[i];
      if pnl.None? {
        break;
      }
      if pnl.value <= 0.0 {
        count := count + 1;
      } else {
        break;
      }
    }
  }
}
