/** The kill switches and both books together: the panel's verdicts are what the books' entries
    are let through by. */
module Orchestration {
  import opened Prelude
  import R = RiskManager
  import K = KillSwitches
  import P = PositionBook
  import PS = PositionSafety
  import C = ScannerBook
  import CO = ScannerOrders

  datatype State = State(panel: K.Panel, options: P.State, scanner: C.State)

  /** Watch: heartbeats and pulses. Arrive: a post with what its risk check observes; its own
      accepted flag says that the validator passed it. Options and Scanner: every other step. */
  datatype Event =
    | Watch(panelEvent: K.Event)
    | Arrive(post: P.Event, obs: K.Observation, fate: K.Fate)
    | Options(step: P.Event)
    | Scanner(shortStep: C.Event)
    | Crash(adoptions: seq<P.Adoption>, startup: C.Startup)

  datatype Config = Config(options: P.Config, scanner: C.Config, maxLosses: int)

  /** Every drained post is evidence that the stream was alive when it came. */
  function Heard(p: K.Panel, at: int, cfg: Config): K.Panel {
    if p.lastX.None? || at > p.lastX.value then K.Next(p, K.XHeartbeat(at), cfg.maxLosses) else p
  }

  /** A validated post goes through the risk check; the book sees its verdict. */
  function Arrived(s: State, e: Event, cfg: Config): State
    requires e.Arrive? && e.post.Post?
  {
    var heard := Heard(s.panel, e.post.receivedAt, cfg);
    if !s.options.phase.Idle? then s
    else if !e.post.accepted then s.(panel := heard, options := P.Step(s.options, e.post, cfg.options))
    else
      var check := K.Post(e.obs, e.fate, true);
      s.(panel := K.Next(heard, check, cfg.maxLosses),
         options := P.Step(s.options, e.post.(accepted := K.Submits(heard, check, cfg.maxLosses)), cfg.options))
  }

  /** A scanner signal is handled under the panel's active switches. */
  function ScannerStepped(s: State, e: Event, cfg: Config): State
    requires e.Scanner? && !e.shortStep.Restart?
  {
    var step := if e.shortStep.Handle? then e.shortStep.(active := s.panel.active) else e.shortStep;
    s.(scanner := C.Step(s.scanner, step, cfg.scanner))
  }

  function Step(s: State, e: Event, cfg: Config): State {
    match e
    case Watch(panelEvent) =>
      if K.IsRisk(panelEvent) && !panelEvent.Pulse? then s
      else s.(panel := K.Next(s.panel, panelEvent, cfg.maxLosses))
    case Arrive(post, _, _) => if post.Post? then Arrived(s, e, cfg) else s
    case Options(step) =>
      if step.Post? || step.Restart? then s else s.(options := P.Step(s.options, step, cfg.options))
    case Scanner(shortStep) => if shortStep.Restart? then s else ScannerStepped(s, e, cfg)
    case Crash(adoptions, startup) =>
      State(K.START, P.Step(s.options, P.Restart(adoptions), cfg.options),
            C.Step(s.scanner, C.Restart(startup), cfg.scanner))
  }

  function Run(s: State, es: seq<Event>, cfg: Config): State {
    if es == [] then s else Step(Run(s, es[..|es| - 1], cfg), es[|es| - 1], cfg)
  }

  lemma RunSnoc(s: State, es: seq<Event>, e: Event, cfg: Config)
    ensures Run(s, es + [e], cfg) == Step(Run(s, es, cfg), e, cfg)
  {
    assert (es + [e])[..|es|] == es;
  }

  lemma {:induction false} RunConcat(s: State, es: seq<Event>, more: seq<Event>, cfg: Config)
    ensures Run(s, es + more, cfg) == Run(Run(s, es, cfg), more, cfg)
  {
    if more == [] {
      assert es + more == es;
    } else {
      var init, last := more[..|more| - 1], more[|more| - 1];
      RunConcat(s, es, init, cfg);
      RunSnoc(s, es + init, last, cfg);
      assert es + more == es + init + [last];
    }
  }

  /** Steps of one of the books as steps of the whole. */
  function OnOptions(es: seq<P.Event>): seq<Event> {
    seq(|es|, i requires 0 <= i < |es| => Options(es[i]))
  }

  function OnShorts(es: seq<C.Event>): seq<Event> {
    seq(|es|, i requires 0 <= i < |es| => Scanner(es[i]))
  }

  lemma ShortsUpTo(s: State, es: seq<C.Event>, i: nat, cfg: Config)
    requires i < |es|
    ensures Run(s, OnShorts(es[..i + 1]), cfg) == Step(Run(s, OnShorts(es[..i]), cfg), Scanner(es[i]), cfg)
  {
    assert OnShorts(es[..i + 1]) == OnShorts(es[..i]) + [Scanner(es[i])];
    RunSnoc(s, OnShorts(es[..i]), Scanner(es[i]), cfg);
  }

  /** Steps that no gate lets through or stops. */
  predicate Ungated(es: seq<P.Event>) {
    forall i | 0 <= i < |es| :: !es[i].Post? && !es[i].Restart?
  }

  predicate UngatedShorts(es: seq<C.Event>) {
    forall i | 0 <= i < |es| :: !es[i].Handle? && !es[i].Restart?
  }

  lemma OptionsUpTo(s: State, es: seq<P.Event>, i: nat, cfg: Config)
    requires i < |es|
    ensures Run(s, OnOptions(es[..i + 1]), cfg) == Step(Run(s, OnOptions(es[..i]), cfg), Options(es[i]), cfg)
  {
    assert OnOptions(es[..i + 1]) == OnOptions(es[..i]) + [Options(es[i])];
    RunSnoc(s, OnOptions(es[..i]), Options(es[i]), cfg);
  }

  lemma OptionsStep(s: State, e: P.Event, cfg: Config)
    requires !e.Post? && !e.Restart?
    ensures Step(s, Options(e), cfg) == s.(options := P.Step(s.options, e, cfg.options))
  {}

  lemma {:induction false} OptionsRun(s: State, es: seq<P.Event>, cfg: Config)
    requires Ungated(es)
    ensures Run(s, OnOptions(es), cfg) == s.(options := P.Run(s.options, es, cfg.options))
  {
    if es != [] {
      var n := |es| - 1;
      OptionsRun(s, es[..n], cfg);
      OptionsUpTo(s, es, n, cfg);
      assert es[..n + 1] == es;
      OptionsStep(s.(options := P.Run(s.options, es[..n], cfg.options)), es[n], cfg);
    }
  }

  lemma {:induction false} ShortsRun(s: State, es: seq<C.Event>, cfg: Config)
    requires UngatedShorts(es)
    ensures Run(s, OnShorts(es), cfg) == s.(scanner := C.Run(s.scanner, es, cfg.scanner))
  {
    if es != [] {
      var n := |es| - 1;
      ShortsRun(s, es[..n], cfg);
      assert OnShorts(es) == OnShorts(es[..n]) + [Scanner(es[n])];
      RunSnoc(s, OnShorts(es[..n]), Scanner(es[n]), cfg);
    }
  }

  // ---- daily_loss stops both books ----------------------------------------------------------

  /** No buy of the options book is added, and the old orders keep their kind. */
  ghost predicate BuysNothing(s: P.State, t: P.State) {
    && |s.orders| <= |t.orders|
    && (forall i | 0 <= i < |s.orders| :: t.orders[i].kind == s.orders[i].kind)
    && (forall i | |s.orders| <= i < |t.orders| :: !t.orders[i].kind.EntryBuy?)
  }

  ghost predicate EntersNothing(s: State, t: State) {
    BuysNothing(s.options, t.options) && CO.NoNewEntry(s.scanner, t.scanner)
  }

  lemma ClosedBuysNothing(
    s: P.State, sig: nat, reason: P.S.ExitReason, nominal: real, env: P.CloseEnv)
    requires sig in s.open
    ensures BuysNothing(s, P.Closed(s, sig, reason, nominal, env))
  {}

  lemma ManagedBuysNothing(s: P.State, sig: nat, e: P.Event)
    requires e.FinishAdvance? && sig in s.open
    ensures BuysNothing(s, P.Managed(s, sig, e))
  {
    var mid := PS.ManagedShape(s, sig, e);
    assert BuysNothing(s, mid);
    if P.Managed(s, sig, e) != mid {
      var reason :| P.Managed(s, sig, e) == P.Closed(mid, sig, reason, e.quote.value, e.env);
      ClosedBuysNothing(mid, sig, reason, e.quote.value, e.env);
    }
  }

  lemma OnlyPostsBuy(s: P.State, e: P.Event, cfg: P.Config)
    requires !e.Restart? && !(e.Post? && e.accepted)
    ensures BuysNothing(s, P.Step(s, e, cfg))
  {
    if e.FinishAdvance? && s.phase.Quoted? && s.phase.signal in s.open {
      ManagedBuysNothing(s, s.phase.signal, e);
    }
  }

  lemma OnlySignalsShort(s: C.State, e: C.Event, cfg: C.Config)
    requires !e.Restart? && !(e.Handle? && e.active * R.SCANNER_BLOCKERS == {})
    ensures CO.NoNewEntry(s, C.Step(s, e, cfg))
  {
    match e
    case AdvanceShort(_, _, _, _, _) => CO.AdvanceAddsNoEntry(s, e);
    case FlattenShort(ticker, env) =>
      if ticker in s.book {
        CO.CloseAddsNoEntry(s, ticker, C.Because(C.E.EodFailsafe), env);
      }
    case _ =>
  }

  lemma ArrivalEntersNothing(s: State, e: Event, cfg: Config)
    requires R.DailyLoss in s.panel.active && e.Arrive? && e.post.Post?
    ensures R.DailyLoss in Arrived(s, e, cfg).panel.active && EntersNothing(s, Arrived(s, e, cfg))
  {
    var heard, check := Heard(s.panel, e.post.receivedAt, cfg), K.Post(e.obs, e.fate, true);
    assert R.DailyLoss in K.Session(heard, e.obs).activeSwitches;
    assert !K.Submits(heard, check, cfg.maxLosses);
    OnlyPostsBuy(s.options, e.post.(accepted := false), cfg.options);
  }

  lemma StepEntersNothing(s: State, e: Event, cfg: Config)
    requires R.DailyLoss in s.panel.active && !e.Crash?
    ensures R.DailyLoss in Step(s, e, cfg).panel.active && EntersNothing(s, Step(s, e, cfg))
  {
    match e
    case Watch(panelEvent) =>
    case Arrive(post, _, _) =>
      if post.Post? {
        ArrivalEntersNothing(s, e, cfg);
      }
    case Options(step) =>
      if !step.Post? && !step.Restart? {
        OnlyPostsBuy(s.options, step, cfg.options);
      }
    case Scanner(shortStep) =>
      if !shortStep.Restart? {
        var step := if shortStep.Handle? then shortStep.(active := s.panel.active) else shortStep;
        assert step.Handle? ==> R.DailyLoss in step.active * R.SCANNER_BLOCKERS;
        OnlySignalsShort(s.scanner, step, cfg.scanner);
      }
  }

  /** Main result: once daily_loss is on, no later step of the process, whatever raises, appends a
      buy to the options book's orders or a short sale to the scanner's, in any interleaving of
      posts, signals, pulses, "Sell now" requests, ticks and broker events. */
  lemma {:induction false} NoEntryInEitherBook(s: State, es: seq<Event>, cfg: Config)
    requires R.DailyLoss in s.panel.active && forall i | 0 <= i < |es| :: !es[i].Crash?
    ensures R.DailyLoss in Run(s, es, cfg).panel.active && EntersNothing(s, Run(s, es, cfg))
  {
    if es != [] {
      var init := es[..|es| - 1];
      NoEntryInEitherBook(s, init, cfg);
      StepEntersNothing(Run(s, init, cfg), es[|es| - 1], cfg);
    }
  }
}
