/** One tick of main.py as a run of both books and the kill switches: which steps it makes from the
    outside's answers, in which order, and what that does. */
module Ticks {
  import opened Prelude
  import R = RiskManager
  import K = KillSwitches
  import P = PositionBook
  import PS = PositionSafety
  import PD = PositionDesk
  import PE = PositionEffects
  import PRows = PositionRows
  import C = ScannerBook
  import CS = ScannerSafety
  import CE = ScannerEffects
  import O = Orchestration

  /** A post with what its risk check would observe; its accepted flag is the validator's. */
  datatype Incoming = Incoming(post: P.Event, obs: K.Observation, fate: K.Fate)

  /** One position's round of the advance stage. */
  datatype Round = Round(sig: nat, read: P.Event, finish: P.Event)

  /** What the outside world answers during one tick. */
  datatype Answers = Answers(
    posts: seq<Incoming>,
    requests: seq<P.Event>,
    polls: seq<P.Event>,
    signals: seq<C.Event>,
    now: Moment,
    flattenRaises: bool,
    shortFlattens: seq<C.Event>,
    flattens: seq<P.Event>,
    rounds: seq<Round>,
    shorts: seq<C.Event>,
    pulse: K.Observation,
    pulseFate: K.Fate,
    ghosts: seq<P.Event>)

  predicate AtClose(a: Answers) {
    a.now.etTime >= 15 * 3600 + 55 * 60
  }

  /** The tick goes on to manage: it is early, or the flattens raised. */
  predicate Manages(a: Answers) {
    !AtClose(a) || a.flattenRaises
  }

  /** The answers are of the right kinds, one for each queued request and signal. */
  predicate Fits(a: Answers, requests: nat, signals: nat) {
    && (forall i | 0 <= i < |a.posts| :: a.posts[i].post.Post?)
    && |a.requests| == requests && (forall i | 0 <= i < |a.requests| :: a.requests[i].DrainRequest?)
    && (forall i | 0 <= i < |a.polls| :: a.polls[i].PollManual?)
    && |a.signals| == signals && (forall i | 0 <= i < |a.signals| :: a.signals[i].Handle?)
    && (forall i | 0 <= i < |a.shortFlattens| :: a.shortFlattens[i].FlattenShort?)
    && (forall i | 0 <= i < |a.flattens| :: a.flattens[i].Flatten?)
    && (forall i | 0 <= i < |a.rounds| :: a.rounds[i].read.ReadStop? && a.rounds[i].finish.FinishAdvance?)
    && (forall i | 0 <= i < |a.shorts| :: a.shorts[i].AdvanceShort?)
    && (forall i | 0 <= i < |a.ghosts| :: a.ghosts[i].Reconcile?)
  }

  // ---- The steps of a tick --------------------------------------------------------------------------

  function Arrivals(posts: seq<Incoming>): seq<O.Event> {
    seq(|posts|, i requires 0 <= i < |posts| => O.Arrive(posts[i].post, posts[i].obs, posts[i].fate))
  }

  function RoundSteps(round: Round): seq<P.Event> {
    [P.StartAdvance(round.sig), round.read, round.finish]
  }

  function Rounds(rounds: seq<Round>): seq<P.Event> {
    if rounds == [] then [] else Rounds(rounds[..|rounds| - 1]) + RoundSteps(rounds[|rounds| - 1])
  }

  function Pulse(a: Answers): O.Event {
    O.Watch(K.Pulse(a.pulse, a.pulseFate))
  }

  /** Posts, "Sell now" requests, their polls, scanner signals. */
  function Intake(a: Answers): seq<O.Event> {
    Arrivals(a.posts) + O.OnOptions(a.requests) + O.OnOptions(a.polls) + O.OnShorts(a.signals)
  }

  /** The 15:55 stage: the shorts before the positions. */
  function Flattens(a: Answers): seq<O.Event> {
    O.OnShorts(a.shortFlattens) + O.OnOptions(a.flattens)
  }

  /** The managing stages: a round for each position, a visit to each short, the risk pulse, and the
      reconciliation. */
  function ManageSteps(a: Answers): seq<O.Event> {
    O.OnOptions(Rounds(a.rounds)) + O.OnShorts(a.shorts) + [Pulse(a)] + O.OnOptions(a.ghosts)
  }

  /** The stages every tick reaches: the intake, and at or after 15:55 the flattens. */
  function Opening(a: Answers): seq<O.Event> {
    Intake(a) + if AtClose(a) then Flattens(a) else []
  }

  /** The flattens end the tick, unless that stage raises. */
  function TickSteps(a: Answers): seq<O.Event> {
    Opening(a) + if Manages(a) then ManageSteps(a) else []
  }

  lemma OpenThenManage(s: O.State, a: Answers, cfg: O.Config)
    ensures var u := O.Run(s, Opening(a), cfg);
            O.Run(s, TickSteps(a), cfg) == if Manages(a) then O.Run(u, ManageSteps(a), cfg) else u
  {
    if Manages(a) {
      O.RunConcat(s, Opening(a), ManageSteps(a), cfg);
    } else {
      assert TickSteps(a) == Opening(a);
    }
  }

  predicate AreRounds(rounds: seq<Round>) {
    forall i | 0 <= i < |rounds| :: rounds[i].read.ReadStop? && rounds[i].finish.FinishAdvance?
  }

  lemma {:induction false} RoundsAreUngated(rounds: seq<Round>)
    requires AreRounds(rounds)
    ensures O.Ungated(Rounds(rounds))
  {
    if rounds != [] {
      RoundsAreUngated(rounds[..|rounds| - 1]);
    }
  }

  lemma TicksNeverCrash(a: Answers)
    ensures forall i | 0 <= i < |TickSteps(a)| :: !TickSteps(a)[i].Crash?
  {}

  // ---- Well-kept states -------------------------------------------------------------------------------

  /** Every position has the positive entry price of its record. */
  ghost predicate Priced(s: P.State) {
    forall sig <- s.open :: PricedRecord(s.open[sig])
  }

  predicate PricedRecord(r: P.Record) {
    r.position.entryPrice == r.entryPrice > 0.0 && r.position.ratchetLevel >= 0
  }

  /** A well-kept book. Only the adoption of a position without a positive entry can leave another. */
  ghost predicate Kept(s: P.State) {
    PD.Sound(s) && Priced(s)
  }

  lemma PostStaysPriced(s: P.State, e: P.Event, cfg: P.Config)
    requires Priced(s) && e.Post?
    ensures Priced(P.HandlePost(s, e, cfg))
  {}

  lemma QuoteStaysPriced(s: P.State, sig: nat, e: P.Event)
    requires e.FinishAdvance? && sig in s.open && Priced(s) && P.Verdict(s.open[sig], e).Ok?
    ensures Priced(P.Pushed(s, sig, e))
  {
    PS.PushedShape(s, sig, e);
    PE.QuoteEffect(s, sig, e);
    P.S.AdvanceLifts(s.open[sig].position, e.quote.value);
  }

  lemma FinishStaysPriced(s: P.State, e: P.Event)
    requires Priced(s) && e.FinishAdvance?
    ensures Priced(P.Advanced(s, e))
  {
    if s.phase.Quoted? && s.phase.signal in s.open && P.Verdict(s.open[s.phase.signal], e).Ok? {
      QuoteStaysPriced(s, s.phase.signal, e);
    }
  }

  lemma StepStaysPriced(s: P.State, e: P.Event, cfg: P.Config)
    requires Priced(s) && !e.Restart?
    ensures Priced(P.Step(s, e, cfg))
  {
    if e.Post? {
      PostStaysPriced(s, e, cfg);
    } else if e.FinishAdvance? {
      FinishStaysPriced(s, e);
    }
  }

  lemma StepStaysKept(s: P.State, e: P.Event, cfg: P.Config)
    requires Kept(s) && !e.Restart?
    ensures Kept(P.Step(s, e, cfg))
  {
    PD.StepIsSound(s, e, cfg);
    StepStaysPriced(s, e, cfg);
  }

  /** Both books are well kept. */
  ghost predicate WellKept(s: O.State, cfg: O.Config) {
    Kept(s.options) && CS.Inv(s.scanner, cfg.scanner)
  }

  lemma StepStaysWellKept(s: O.State, e: O.Event, cfg: O.Config)
    requires WellKept(s, cfg) && !e.Crash?
    ensures WellKept(O.Step(s, e, cfg), cfg)
  {
    match e
    case Watch(_) =>
    case Arrive(post, obs, fate) =>
      if post.Post? {
        StepStaysKept(s.options, post, cfg.options);
        var heard := O.Heard(s.panel, post.receivedAt, cfg);
        var passed := K.Submits(heard, K.Post(obs, fate, true), cfg.maxLosses);
        StepStaysKept(s.options, post.(accepted := passed), cfg.options);
      }
    case Options(step) =>
      if !step.Restart? {
        StepStaysKept(s.options, step, cfg.options);
      }
    case Scanner(step) =>
      CS.StepKeepsInv(s.scanner, if step.Handle? then step.(active := s.panel.active) else step, cfg.scanner);
  }

  lemma {:induction false} RunStaysWellKept(s: O.State, es: seq<O.Event>, cfg: O.Config)
    requires WellKept(s, cfg) && forall i | 0 <= i < |es| :: !es[i].Crash?
    ensures WellKept(O.Run(s, es, cfg), cfg)
  {
    if es != [] {
      RunStaysWellKept(s, es[..|es| - 1], cfg);
      StepStaysWellKept(O.Run(s, es[..|es| - 1], cfg), es[|es| - 1], cfg);
    }
  }

  /** A tick may start with these answers: both books are well kept and no round is under way. */
  ghost predicate Ready(s: O.State, a: Answers, cfg: O.Config) {
    WellKept(s, cfg) && s.options.phase.Idle? && Fits(a, |s.options.queue|, |s.scanner.queue|)
  }

  // ---- The intake -------------------------------------------------------------------------------------

  /** The risk check lets a post through: its evaluation completes and nothing is on. */
  predicate Lets(p: K.Panel, obs: K.Observation, fate: K.Fate, maxLosses: int) {
    && fate.Completes? && R.DailyLoss !in p.active && -obs.realized < obs.killPct * 100000.0
    && !K.OnLosingStreak(obs, maxLosses) && !K.StreamIsGone(p, obs)
  }

  /** What an evaluation makes of the active switches. */
  predicate EvaluatedAs(p: K.Panel, q: K.Panel, obs: K.Observation, fate: K.Fate, stored: bool, maxLosses: int) {
    && (fate.PnlQueryRaises? ==> q == p)
    && (!fate.PnlQueryRaises? ==>
          && (R.DailyLoss in q.active <==>
                R.DailyLoss in p.active || (stored && -obs.realized >= obs.killPct * 100000.0))
          && (R.ConsecutiveLosses in q.active <==> stored && K.OnLosingStreak(obs, maxLosses))
          && (R.XStreamDisconnected in q.active <==> stored && K.StreamIsGone(p, obs))
          && R.AlpacaDisconnected !in q.active)
  }

  /** What an arriving post does: the stream counts as alive when it came; a validated one has the
      switches evaluated, and enters when they let it through, a slot is free and a contract is
      affordable; every post is logged. */
  ghost predicate ArrivedAs(s: O.State, t: O.State, incoming: Incoming, cfg: O.Config)
    requires incoming.post.Post?
  {
    var came, last := incoming.post.receivedAt, s.panel.lastX;
    var heard := s.panel.(lastX := if last.Some? && last.value >= came then last else Some(came));
    var lets := incoming.post.accepted && Lets(heard, incoming.obs, incoming.fate, cfg.maxLosses);
    var post := incoming.post.(accepted := lets);
    && t.scanner == s.scanner && t.panel.lastX == heard.lastX
    && (incoming.post.accepted ==>
          EvaluatedAs(heard, t.panel, incoming.obs, incoming.fate, incoming.fate.Completes?, cfg.maxLosses))
    && (!incoming.post.accepted ==> t.panel == heard)
    && (forall qty | PE.Buys(s.options, post, cfg.options, qty) ::
          PE.EnteredAs(s.options, t.options, post, cfg.options, qty))
    && ((forall qty :: !PE.Buys(s.options, post, cfg.options, qty)) ==>
          t.options == s.options.(signals := s.options.signals + [P.Signal(post.contract, post.receivedAt, false)]))
  }

  lemma PostArrives(s: O.State, incoming: Incoming, cfg: O.Config)
    requires PS.Inv(s.options) && s.options.phase.Idle? && incoming.post.Post?
    ensures ArrivedAs(s, O.Step(s, O.Arrive(incoming.post, incoming.obs, incoming.fate), cfg), incoming, cfg)
  {
    var heard, check := O.Heard(s.panel, incoming.post.receivedAt, cfg), K.Post(incoming.obs, incoming.fate, true);
    K.EvaluationInRawTerms(heard, check, cfg.maxLosses);
    K.GatesInRawTerms(heard, check, cfg.maxLosses);
    var lets := incoming.post.accepted && Lets(heard, incoming.obs, incoming.fate, cfg.maxLosses);
    PE.PostEffect(s.options, incoming.post.(accepted := lets), cfg.options);
  }

  predicate AllPosts(posts: seq<Incoming>) {
    forall i | 0 <= i < |posts| :: posts[i].post.Post?
  }

  lemma BookStaysIdle(s: P.State, e: P.Event, cfg: P.Config)
    requires s.phase.Idle? && e.Post?
    ensures P.Step(s, e, cfg).phase.Idle?
  {}

  lemma PostStaysIdle(s: O.State, incoming: Incoming, cfg: O.Config)
    requires s.options.phase.Idle? && incoming.post.Post?
    ensures var t := O.Step(s, O.Arrive(incoming.post, incoming.obs, incoming.fate), cfg);
            t.options.phase.Idle? && t.scanner == s.scanner
  {
    BookStaysIdle(s.options, incoming.post, cfg.options);
    var heard := O.Heard(s.panel, incoming.post.receivedAt, cfg);
    var passed := K.Submits(heard, K.Post(incoming.obs, incoming.fate, true), cfg.maxLosses);
    BookStaysIdle(s.options, incoming.post.(accepted := passed), cfg.options);
  }

  lemma {:induction false} ArrivalsStayIdle(s: O.State, posts: seq<Incoming>, cfg: O.Config)
    requires s.options.phase.Idle? && AllPosts(posts)
    ensures var t := O.Run(s, Arrivals(posts), cfg); t.options.phase.Idle? && t.scanner == s.scanner
  {
    if posts != [] {
      var n := |posts| - 1;
      ArrivalsStayIdle(s, posts[..n], cfg);
      ArrivalsUpTo(s, posts, n, cfg);
      assert posts[..n + 1] == posts;
      PostStaysIdle(O.Run(s, Arrivals(posts[..n]), cfg), posts[n], cfg);
    }
  }

  lemma ArrivalsUpTo(s: O.State, posts: seq<Incoming>, i: nat, cfg: O.Config)
    requires i < |posts|
    ensures O.Run(s, Arrivals(posts[..i + 1]), cfg)
            == O.Step(O.Run(s, Arrivals(posts[..i]), cfg), O.Arrive(posts[i].post, posts[i].obs, posts[i].fate), cfg)
  {
    var e := O.Arrive(posts[i].post, posts[i].obs, posts[i].fate);
    assert Arrivals(posts[..i + 1]) == Arrivals(posts[..i]) + [e];
    O.RunSnoc(s, Arrivals(posts[..i]), e, cfg);
  }

  /** Main result: every post of a tick arrives as the posts before it left the panel and the book. */
  lemma ArrivalOfATick(s: O.State, a: Answers, cfg: O.Config, i: nat)
    requires Ready(s, a, cfg) && i < |a.posts|
    ensures ArrivedAs(O.Run(s, Arrivals(a.posts[..i]), cfg), O.Run(s, Arrivals(a.posts[..i + 1]), cfg), a.posts[i], cfg)
  {
    RunStaysWellKept(s, Arrivals(a.posts[..i]), cfg);
    ArrivalsStayIdle(s, a.posts[..i], cfg);
    ArrivalsUpTo(s, a.posts, i, cfg);
    PostArrives(O.Run(s, Arrivals(a.posts[..i]), cfg), a.posts[i], cfg);
  }

  /** The signals as they are handled under the active switches. */
  function Under(signals: seq<C.Event>, active: set<R.Switch>): seq<C.Event>
    requires forall i | 0 <= i < |signals| :: signals[i].Handle?
  {
    seq(|signals|, i requires 0 <= i < |signals| => signals[i].(active := active))
  }

  lemma {:induction false} SignalsRun(s: O.State, signals: seq<C.Event>, cfg: O.Config)
    requires forall i | 0 <= i < |signals| :: signals[i].Handle?
    ensures O.Run(s, O.OnShorts(signals), cfg) == s.(scanner := C.Run(s.scanner, Under(signals, s.panel.active), cfg.scanner))
  {
    if signals != [] {
      var n := |signals| - 1;
      SignalsRun(s, signals[..n], cfg);
      assert O.OnShorts(signals) == O.OnShorts(signals[..n]) + [O.Scanner(signals[n])];
      O.RunSnoc(s, O.OnShorts(signals[..n]), O.Scanner(signals[n]), cfg);
      assert Under(signals, s.panel.active)[..n] == Under(signals[..n], s.panel.active);
    }
  }

  /** After the posts, the requests and then the polls act on the book, and the signals on the scanner
      under the switches the posts left. */
  lemma IntakeSteps(s: O.State, a: Answers, cfg: O.Config)
    requires Fits(a, |s.options.queue|, |s.scanner.queue|)
    ensures var u := O.Run(s, Arrivals(a.posts), cfg);
            O.Run(s, Intake(a), cfg)
            == O.State(u.panel, P.Run(P.Run(u.options, a.requests, cfg.options), a.polls, cfg.options),
                       C.Run(u.scanner, Under(a.signals, u.panel.active), cfg.scanner))
  {
    var posts, requests, polls, signals := Arrivals(a.posts), O.OnOptions(a.requests), O.OnOptions(a.polls), O.OnShorts(a.signals);
    O.RunConcat(s, posts + requests + polls, signals, cfg);
    O.RunConcat(s, posts + requests, polls, cfg);
    O.RunConcat(s, posts, requests, cfg);
    O.OptionsRun(O.Run(s, posts, cfg), a.requests, cfg);
    O.OptionsRun(O.Run(s, posts + requests, cfg), a.polls, cfg);
    SignalsRun(O.Run(s, posts + requests + polls, cfg), a.signals, cfg);
  }

  /** Request i was drained as the requests before it left the book. */
  ghost predicate RequestDrained(u: P.State, requests: seq<P.Event>, i: nat, cfg: P.Config)
    requires i < |requests| && requests[i].DrainRequest?
  {
    var before, after := P.Run(u, requests[..i], cfg), P.Run(u, requests[..i + 1], cfg);
    if before.queue == [] then after == before else PE.DrainedAs(before, after, requests[i])
  }

  lemma {:induction false} DrainsStayIdle(u: P.State, es: seq<P.Event>, cfg: P.Config)
    requires u.phase.Idle? && forall i | 0 <= i < |es| :: es[i].DrainRequest? || es[i].PollManual?
    ensures P.Run(u, es, cfg).phase.Idle?
  {
    if es != [] {
      DrainsStayIdle(u, es[..|es| - 1], cfg);
    }
  }

  lemma RequestInARun(u: P.State, requests: seq<P.Event>, i: nat, cfg: P.Config)
    requires u.phase.Idle? && i < |requests| && forall j | 0 <= j < |requests| :: requests[j].DrainRequest?
    ensures RequestDrained(u, requests, i, cfg)
  {
    DrainsStayIdle(u, requests[..i], cfg);
    PD.RunOneMore(u, requests, i, cfg);
    PE.DrainEffect(P.Run(u, requests[..i], cfg), requests[i], cfg);
  }

  /** Poll i booked a manual sell it could read as filled, and nothing else. */
  ghost predicate PollActed(u: P.State, polls: seq<P.Event>, i: nat, cfg: P.Config)
    requires i < |polls| && polls[i].PollManual?
  {
    PE.PolledAs(P.Run(u, polls[..i], cfg), P.Run(u, polls[..i + 1], cfg), polls[i])
  }

  lemma PollInARun(u: P.State, polls: seq<P.Event>, i: nat, cfg: P.Config)
    requires PD.Sound(u) && u.phase.Idle? && i < |polls| && forall j | 0 <= j < |polls| :: polls[j].PollManual?
    ensures PollActed(u, polls, i, cfg)
  {
    PD.RunIsSound(u, polls[..i], cfg);
    DrainsStayIdle(u, polls[..i], cfg);
    PD.RunOneMore(u, polls, i, cfg);
    PE.PollEffect(P.Run(u, polls[..i], cfg), polls[i], cfg);
  }

  /** Signal i was taken off the queue, and entered when nothing forbids it. */
  ghost predicate SignalHandled(u: C.State, signals: seq<C.Event>, i: nat, cfg: C.Config)
    requires i < |signals| && signals[i].Handle?
  {
    var before, after := C.Run(u, signals[..i], cfg), C.Run(u, signals[..i + 1], cfg);
    if before.queue == [] then after == before else CE.HandledAs(before, after, signals[i], cfg)
  }

  lemma SignalInARun(u: C.State, signals: seq<C.Event>, i: nat, cfg: C.Config)
    requires CS.Inv(u, cfg) && i < |signals| && forall j | 0 <= j < |signals| :: signals[j].Handle?
    ensures SignalHandled(u, signals, i, cfg)
  {
    CS.RunKeepsInv(u, signals[..i], cfg);
    assert signals[..i + 1][..i] == signals[..i];
    var before := C.Run(u, signals[..i], cfg);
    if before.queue != [] {
      CE.HandleEffect(before, signals[i], cfg);
    }
  }

  lemma IntakeStaysIdle(s: O.State, a: Answers, cfg: O.Config)
    requires Fits(a, |s.options.queue|, |s.scanner.queue|) && s.options.phase.Idle?
    ensures O.Run(s, Intake(a), cfg).options.phase.Idle?
  {
    IntakeSteps(s, a, cfg);
    ArrivalsStayIdle(s, a.posts, cfg);
    var u := O.Run(s, Arrivals(a.posts), cfg).options;
    DrainsStayIdle(u, a.requests, cfg.options);
    DrainsStayIdle(P.Run(u, a.requests, cfg.options), a.polls, cfg.options);
  }

  /** Main result: what the intake does after the posts. Every listed request is drained, every poll
      acts, every listed signal is handled under the switches that the posts left active. */
  lemma IntakeOfATick(s: O.State, a: Answers, cfg: O.Config)
    requires Ready(s, a, cfg)
    ensures var u, t := O.Run(s, Arrivals(a.posts), cfg), O.Run(s, Intake(a), cfg);
            var drained := P.Run(u.options, a.requests, cfg.options);
            && t.panel == u.panel && t.options == P.Run(drained, a.polls, cfg.options)
            && t.scanner == C.Run(s.scanner, Under(a.signals, u.panel.active), cfg.scanner)
            && (forall i | 0 <= i < |a.requests| :: RequestDrained(u.options, a.requests, i, cfg.options))
            && (forall i | 0 <= i < |a.polls| :: PollActed(drained, a.polls, i, cfg.options))
            && (forall i | 0 <= i < |a.signals| ::
                  SignalHandled(s.scanner, Under(a.signals, u.panel.active), i, cfg.scanner))
  {
    var u := O.Run(s, Arrivals(a.posts), cfg);
    IntakeSteps(s, a, cfg);
    RunStaysWellKept(s, Arrivals(a.posts), cfg);
    ArrivalsStayIdle(s, a.posts, cfg);
    PD.RunIsSound(u.options, a.requests, cfg.options);
    DrainsStayIdle(u.options, a.requests, cfg.options);
    forall i | 0 <= i < |a.requests| ensures RequestDrained(u.options, a.requests, i, cfg.options) {
      RequestInARun(u.options, a.requests, i, cfg.options);
    }
    var drained := P.Run(u.options, a.requests, cfg.options);
    forall i | 0 <= i < |a.polls| ensures PollActed(drained, a.polls, i, cfg.options) {
      PollInARun(drained, a.polls, i, cfg.options);
    }
    var signals := Under(a.signals, u.panel.active);
    forall i | 0 <= i < |a.signals| ensures SignalHandled(s.scanner, signals, i, cfg.scanner) {
      SignalInARun(s.scanner, signals, i, cfg.scanner);
    }
  }

  // ---- At 15:55 ---------------------------------------------------------------------------------------

  /** The row of a flattened position. */
  predicate FlattenRow(row: P.Row, sig: nat, r: P.Record, sell: P.SellFate)
    requires sell.SellBooked?
  {
    row == P.Row(sig, r.entryPrice, if sell.fill.Some? then sell.fill.value else r.entryPrice, r.qty,
                 P.Exit(P.S.TimeStop1555))
  }

  predicate AllFlatten(fs: seq<P.Event>) {
    forall i | 0 <= i < |fs| :: fs[i].Flatten?
  }

  /** Until one of its sells is booked a position stays as it is; nothing opens, rows are added. */
  lemma {:induction false} FlattensOnlyClose(s: P.State, fs: seq<P.Event>, cfg: P.Config, sig: nat)
    requires s.phase.Idle? && AllFlatten(fs)
    ensures var t := P.Run(s, fs, cfg);
            && t.phase.Idle? && s.rows <= t.rows && (sig !in s.open ==> sig !in t.open)
            && (sig in s.open && (forall i | 0 <= i < |fs| && fs[i].sig == sig :: !fs[i].env.sell.SellBooked?) ==>
                  sig in t.open && t.open[sig] == s.open[sig])
  {
    if fs != [] {
      var n := |fs| - 1;
      FlattensOnlyClose(s, fs[..n], cfg, sig);
      PE.FlattenEffect(P.Run(s, fs[..n], cfg), fs[n], cfg);
    }
  }

  /** The first booked sell of a listed position closes it for good and writes its row. */
  lemma {:induction false} BookedFlattenCloses(s: P.State, fs: seq<P.Event>, cfg: P.Config, i: nat)
    requires s.phase.Idle? && AllFlatten(fs) && i < |fs| && fs[i].env.sell.SellBooked? && fs[i].sig in s.open
    requires forall j | 0 <= j < i && fs[j].sig == fs[i].sig :: !fs[j].env.sell.SellBooked?
    ensures var t := P.Run(s, fs, cfg);
            && fs[i].sig !in t.open
            && exists k | |s.rows| <= k < |t.rows| :: FlattenRow(t.rows[k], fs[i].sig, s.open[fs[i].sig], fs[i].env.sell)
  {
    var n, sig := |fs| - 1, fs[i].sig;
    var u, t := P.Run(s, fs[..n], cfg), P.Run(s, fs, cfg);
    FlattensOnlyClose(s, fs[..n], cfg, sig);
    PE.FlattenEffect(u, fs[n], cfg);
    if i == n {
      assert FlattenRow(t.rows[|u.rows|], sig, s.open[sig], fs[i].env.sell);
    } else {
      BookedFlattenCloses(s, fs[..n], cfg, i);
      var k :| |s.rows| <= k < |u.rows| && FlattenRow(u.rows[k], sig, s.open[sig], fs[i].env.sell);
      assert t.rows[k] == u.rows[k];
    }
  }

  lemma FirstBooked(fs: seq<P.Event>, sig: nat) returns (i: nat)
    requires AllFlatten(fs) && exists j :: 0 <= j < |fs| && fs[j].sig == sig && fs[j].env.sell.SellBooked?
    ensures i < |fs| && fs[i].sig == sig && fs[i].env.sell.SellBooked?
    ensures forall j | 0 <= j < i && fs[j].sig == sig :: !fs[j].env.sell.SellBooked?
  {
    i := 0;
    while !(fs[i].sig == sig && fs[i].env.sell.SellBooked?)
      invariant i < |fs|
      invariant forall j | 0 <= j < i && fs[j].sig == sig :: !fs[j].env.sell.SellBooked?
      invariant exists j :: i <= j < |fs| && fs[j].sig == sig && fs[j].env.sell.SellBooked?
      decreases |fs| - i
    {
      i := i + 1;
    }
  }

  /** A listed position with a booked sell. */
  predicate BooksSell(fs: seq<P.Event>, sig: nat)
    requires AllFlatten(fs)
  {
    exists i :: 0 <= i < |fs| && fs[i].sig == sig && fs[i].env.sell.SellBooked?
  }

  /** What the flattens make of the book: with a booked sell a position is gone, with its row; without
      one it stays. */
  ghost predicate FlattenedAs(s: P.State, t: P.State, fs: seq<P.Event>)
    requires AllFlatten(fs)
  {
    && s.rows <= t.rows
    && (forall sig: nat | sig !in s.open :: sig !in t.open)
    && (forall sig <- s.open | BooksSell(fs, sig) :: sig !in t.open)
    && (forall sig <- s.open | !BooksSell(fs, sig) :: sig in t.open && t.open[sig] == s.open[sig])
    && (forall i | 0 <= i < |fs| && fs[i].sig in s.open && fs[i].env.sell.SellBooked?
                   && (forall j | 0 <= j < i && fs[j].sig == fs[i].sig :: !fs[j].env.sell.SellBooked?) ::
          exists k | |s.rows| <= k < |t.rows| :: FlattenRow(t.rows[k], fs[i].sig, s.open[fs[i].sig], fs[i].env.sell))
  }

  lemma FlattensFlatten(s: P.State, fs: seq<P.Event>, cfg: P.Config)
    requires s.phase.Idle? && AllFlatten(fs)
    ensures FlattenedAs(s, P.Run(s, fs, cfg), fs)
  {
    var t := P.Run(s, fs, cfg);
    forall sig: nat
      ensures s.rows <= t.rows && (sig !in s.open ==> sig !in t.open)
      ensures sig in s.open && BooksSell(fs, sig) ==> sig !in t.open
      ensures sig in s.open && !BooksSell(fs, sig) ==> sig in t.open && t.open[sig] == s.open[sig]
    {
      FlattensOnlyClose(s, fs, cfg, sig);
      if sig in s.open && BooksSell(fs, sig) {
        var i := FirstBooked(fs, sig);
        BookedFlattenCloses(s, fs, cfg, i);
      }
    }
    forall i | 0 <= i < |fs| && fs[i].sig in s.open && fs[i].env.sell.SellBooked?
               && (forall j | 0 <= j < i && fs[j].sig == fs[i].sig :: !fs[j].env.sell.SellBooked?)
      ensures exists k | |s.rows| <= k < |t.rows| :: FlattenRow(t.rows[k], fs[i].sig, s.open[fs[i].sig], fs[i].env.sell)
    {
      BookedFlattenCloses(s, fs, cfg, i);
    }
  }

  /** A short that has a cover on its way, or is gone. */
  predicate Released(s: C.State, ticker: string) {
    ticker in s.book ==> s.book[ticker].exitOrder.Some?
  }

  predicate AllFlattenShorts(fs: seq<C.Event>) {
    forall i | 0 <= i < |fs| :: fs[i].FlattenShort?
  }

  lemma {:induction false} FlattensCover(s: C.State, fs: seq<C.Event>, cfg: C.Config, i: nat)
    requires CS.Inv(s, cfg) && AllFlattenShorts(fs) && i < |fs| && !fs[i].env.submitRaises
    ensures Released(C.Run(s, fs, cfg), fs[i].ticker)
  {
    var n := |fs| - 1;
    var u := C.Run(s, fs[..n], cfg);
    CS.RunKeepsInv(s, fs[..n], cfg);
    CE.FlattenEffect(u, fs[n], cfg);
    if i < n {
      FlattensCover(s, fs[..n], cfg, i);
    }
  }

  lemma {:induction false} EachShortIsFlattened(s: C.State, fs: seq<C.Event>, cfg: C.Config)
    requires CS.Inv(s, cfg) && AllFlattenShorts(fs)
    ensures forall i | 0 <= i < |fs| && !fs[i].env.submitRaises :: Released(C.Run(s, fs, cfg), fs[i].ticker)
  {
    forall i | 0 <= i < |fs| && !fs[i].env.submitRaises ensures Released(C.Run(s, fs, cfg), fs[i].ticker) {
      FlattensCover(s, fs, cfg, i);
    }
  }

  lemma ClosingSteps(s: O.State, a: Answers, cfg: O.Config)
    requires Fits(a, |s.options.queue|, |s.scanner.queue|)
    ensures var u := O.Run(s, Intake(a), cfg);
            O.Run(s, Opening(a), cfg)
            == if AtClose(a)
               then O.State(u.panel, P.Run(u.options, a.flattens, cfg.options), C.Run(u.scanner, a.shortFlattens, cfg.scanner))
               else u
    ensures !Manages(a) ==> TickSteps(a) == Opening(a)
  {
    var u := O.Run(s, Intake(a), cfg);
    if AtClose(a) {
      O.RunConcat(s, Intake(a), Flattens(a), cfg);
      O.RunConcat(u, O.OnShorts(a.shortFlattens), O.OnOptions(a.flattens), cfg);
      O.ShortsRun(u, a.shortFlattens, cfg);
      O.OptionsRun(O.Run(u, O.OnShorts(a.shortFlattens), cfg), a.flattens, cfg);
    } else {
      assert Opening(a) == Intake(a);
    }
  }

  /** What a closing tick makes of the state u after its intake. */
  ghost predicate ClosedAs(u: O.State, t: O.State, a: Answers)
    requires AllFlatten(a.flattens) && AllFlattenShorts(a.shortFlattens)
  {
    && t.panel == u.panel && FlattenedAs(u.options, t.options, a.flattens)
    && (forall i | 0 <= i < |a.shortFlattens| && !a.shortFlattens[i].env.submitRaises ::
          Released(t.scanner, a.shortFlattens[i].ticker))
    && ((forall sig <- u.options.open :: BooksSell(a.flattens, sig)) ==> t.options.open == map[])
  }

  lemma FlattensClose(u: O.State, a: Answers, cfg: O.Config)
    requires u.options.phase.Idle? && CS.Inv(u.scanner, cfg.scanner)
    requires AllFlatten(a.flattens) && AllFlattenShorts(a.shortFlattens)
    ensures var t := O.State(u.panel, P.Run(u.options, a.flattens, cfg.options),
                             C.Run(u.scanner, a.shortFlattens, cfg.scanner));
            ClosedAs(u, t, a)
  {
    var t := P.Run(u.options, a.flattens, cfg.options);
    FlattensFlatten(u.options, a.flattens, cfg.options);
    EachShortIsFlattened(u.scanner, a.shortFlattens, cfg.scanner);
    if forall sig <- u.options.open :: BooksSell(a.flattens, sig) {
      forall sig: nat ensures sig !in t.open {}
    }
  }

  /** Main result: a tick at or after 15:55 sells every position with a booked sell, keeps the others,
      and has a cover on its way for every listed short whose submission is accepted, or has closed it;
      unless the stage raises, that ends the tick. When every open position has a booked sell, none is
      left. */
  lemma ClosingTick(s: O.State, a: Answers, cfg: O.Config)
    requires Ready(s, a, cfg) && AtClose(a)
    ensures ClosedAs(O.Run(s, Intake(a), cfg), O.Run(s, Opening(a), cfg), a)
    ensures !a.flattenRaises ==> ClosedAs(O.Run(s, Intake(a), cfg), O.Run(s, TickSteps(a), cfg), a)
  {
    RunStaysWellKept(s, Intake(a), cfg);
    IntakeStaysIdle(s, a, cfg);
    ClosingSteps(s, a, cfg);
    FlattensClose(O.Run(s, Intake(a), cfg), a, cfg);
  }

  lemma OpeningStaysReady(s: O.State, a: Answers, cfg: O.Config)
    requires Ready(s, a, cfg)
    ensures var u := O.Run(s, Opening(a), cfg); WellKept(u, cfg) && u.options.phase.Idle?
  {
    RunStaysWellKept(s, Opening(a), cfg);
    IntakeStaysIdle(s, a, cfg);
    ClosingSteps(s, a, cfg);
    FlattensOnlyClose(O.Run(s, Intake(a), cfg).options, a.flattens, cfg.options, 0);
  }

  // ---- Managing -------------------------------------------------------------------------------------

  /** Where the managing stages start and end: the rounds on the positions, the visits to the shorts, one
      pulse, the reconciliation. */
  lemma ManagingSteps(s: O.State, a: Answers, cfg: O.Config)
    requires Fits(a, |s.options.queue|, |s.scanner.queue|) && Manages(a)
    ensures var u := O.Run(s, Opening(a), cfg);
            O.Run(s, TickSteps(a), cfg)
            == O.State(K.Next(u.panel, K.Pulse(a.pulse, a.pulseFate), cfg.maxLosses),
                       P.Run(P.Run(u.options, Rounds(a.rounds), cfg.options), a.ghosts, cfg.options),
                       C.Run(u.scanner, a.shorts, cfg.scanner))
  {
    var u := O.Run(s, Opening(a), cfg);
    var rounds, shorts, ghosts := O.OnOptions(Rounds(a.rounds)), O.OnShorts(a.shorts), O.OnOptions(a.ghosts);
    O.RunConcat(s, Opening(a), ManageSteps(a), cfg);
    O.RunConcat(u, rounds + shorts + [Pulse(a)], ghosts, cfg);
    O.RunSnoc(u, rounds + shorts, Pulse(a), cfg);
    O.RunConcat(u, rounds, shorts, cfg);
    RoundsAreUngated(a.rounds);
    O.OptionsRun(u, Rounds(a.rounds), cfg);
    O.ShortsRun(O.Run(u, rounds, cfg), a.shorts, cfg);
    O.OptionsRun(O.Run(u, rounds + shorts + [Pulse(a)], cfg), a.ghosts, cfg);
  }

  /** Without a post or a restart rows are only added and nothing opens. */
  lemma {:induction false} ManagingOnlyCloses(s: P.State, es: seq<P.Event>, cfg: P.Config)
    requires Kept(s) && O.Ungated(es)
    ensures var t := P.Run(s, es, cfg); Kept(t) && s.rows <= t.rows && t.open.Keys <= s.open.Keys
  {
    if es != [] {
      var u, e := P.Run(s, es[..|es| - 1], cfg), es[|es| - 1];
      ManagingOnlyCloses(s, es[..|es| - 1], cfg);
      StepStaysKept(u, e, cfg);
      PRows.StepRows(u, e, cfg);
      PS.OnlyPostsOpen(u, e, cfg);
    }
  }

  lemma MoreOnlyCloses(s: P.State, es: seq<P.Event>, i: nat, cfg: P.Config)
    requires Kept(s) && O.Ungated(es) && i <= |es|
    ensures var u, t := P.Run(s, es[..i], cfg), P.Run(s, es, cfg); u.rows <= t.rows && t.open.Keys <= u.open.Keys
  {
    assert es == es[..i] + es[i..];
    PD.RunConcat(s, es[..i], es[i..], cfg);
    ManagingOnlyCloses(s, es[..i], cfg);
    ManagingOnlyCloses(P.Run(s, es[..i], cfg), es[i..], cfg);
  }

  lemma {:induction false} RoundsEndIdle(s: P.State, rounds: seq<Round>, cfg: P.Config)
    requires s.phase.Idle? && AreRounds(rounds)
    ensures P.Run(s, Rounds(rounds), cfg).phase.Idle?
  {
    if rounds != [] {
      var init, last := rounds[..|rounds| - 1], rounds[|rounds| - 1];
      RoundsEndIdle(s, init, cfg);
      RunThree(s, Rounds(init), last, cfg);
      RoundEndsIdle(P.Run(s, Rounds(init), cfg), last, cfg);
    }
  }

  lemma RoundEndsIdle(u: P.State, round: Round, cfg: P.Config)
    requires u.phase.Idle? && round.read.ReadStop? && round.finish.FinishAdvance?
    ensures P.Step(P.Step(P.Step(u, P.StartAdvance(round.sig), cfg), round.read, cfg), round.finish, cfg).phase.Idle?
  {}

  lemma RunThree(s: P.State, es: seq<P.Event>, round: Round, cfg: P.Config)
    ensures P.Run(s, es + RoundSteps(round), cfg)
            == P.Step(P.Step(P.Step(P.Run(s, es, cfg), P.StartAdvance(round.sig), cfg), round.read, cfg), round.finish, cfg)
  {
    PD.RunThree(s, es, P.StartAdvance(round.sig), round.read, round.finish, cfg);
    assert es + RoundSteps(round) == es + [P.StartAdvance(round.sig)] + [round.read] + [round.finish];
  }

  lemma RoundsUpTo(rounds: seq<Round>, i: nat)
    requires i < |rounds|
    ensures Rounds(rounds[..i + 1]) == Rounds(rounds[..i]) + RoundSteps(rounds[i])
  {
    assert rounds[..i + 1][..i] == rounds[..i];
  }

  lemma {:induction false} RoundsFrom(rounds: seq<Round>, i: nat) returns (rest: seq<P.Event>)
    requires i <= |rounds| && AreRounds(rounds)
    ensures Rounds(rounds) == Rounds(rounds[..i]) + rest && O.Ungated(rest)
    decreases |rounds| - i
  {
    if i == |rounds| {
      assert rounds[..i] == rounds;
      return [];
    }
    rest := RoundsFrom(rounds, i + 1);
    RoundsUpTo(rounds, i);
    rest := RoundSteps(rounds[i]) + rest;
  }

  /** Round i acted as the rounds before it left the book; what it closed and wrote stays to the end t. */
  ghost predicate RoundActed(u: P.State, t: P.State, rounds: seq<Round>, i: nat, cfg: P.Config)
    requires AreRounds(rounds) && i < |rounds|
  {
    var before, after := P.Run(u, Rounds(rounds[..i]), cfg), P.Run(u, Rounds(rounds[..i + 1]), cfg);
    && PE.RoundActs(before, after, rounds[i].sig, rounds[i].read, rounds[i].finish)
    && after.rows <= t.rows && t.open.Keys <= after.open.Keys
  }

  lemma RoundsStayKept(u: P.State, rounds: seq<Round>, cfg: P.Config)
    requires Kept(u) && u.phase.Idle? && AreRounds(rounds)
    ensures var t := P.Run(u, Rounds(rounds), cfg); Kept(t) && t.phase.Idle?
  {
    RoundsAreUngated(rounds);
    ManagingOnlyCloses(u, Rounds(rounds), cfg);
    RoundsEndIdle(u, rounds, cfg);
  }

  lemma RoundInARun(u: P.State, rounds: seq<Round>, i: nat, cfg: P.Config)
    requires Kept(u) && u.phase.Idle? && AreRounds(rounds) && i < |rounds|
    ensures var before, after := P.Run(u, Rounds(rounds[..i]), cfg), P.Run(u, Rounds(rounds[..i + 1]), cfg);
            PE.RoundActs(before, after, rounds[i].sig, rounds[i].read, rounds[i].finish)
  {
    RoundsStayKept(u, rounds[..i], cfg);
    RoundsUpTo(rounds, i);
    RunThree(u, Rounds(rounds[..i]), rounds[i], cfg);
    PE.RoundEffect(P.Run(u, Rounds(rounds[..i]), cfg), rounds[i].sig, rounds[i].read, rounds[i].finish, cfg);
  }

  lemma AfterARound(u: P.State, rounds: seq<Round>, ghosts: seq<P.Event>, i: nat, cfg: P.Config)
    requires Kept(u) && u.phase.Idle? && AreRounds(rounds) && i <= |rounds| && O.Ungated(ghosts)
    ensures var after, t := P.Run(u, Rounds(rounds[..i]), cfg), P.Run(P.Run(u, Rounds(rounds), cfg), ghosts, cfg);
            after.rows <= t.rows && t.open.Keys <= after.open.Keys
  {
    RoundsStayKept(u, rounds[..i], cfg);
    var rest := RoundsFrom(rounds, i);
    PD.RunConcat(u, Rounds(rounds[..i]), rest, cfg);
    ManagingOnlyCloses(P.Run(u, Rounds(rounds[..i]), cfg), rest, cfg);
    ManagingOnlyCloses(P.Run(u, Rounds(rounds), cfg), ghosts, cfg);
  }

  lemma RoundActsInARun(u: P.State, rounds: seq<Round>, ghosts: seq<P.Event>, i: nat, cfg: P.Config)
    requires Kept(u) && u.phase.Idle? && AreRounds(rounds) && i < |rounds| && O.Ungated(ghosts)
    ensures RoundActed(u, P.Run(P.Run(u, Rounds(rounds), cfg), ghosts, cfg), rounds, i, cfg)
  {
    RoundInARun(u, rounds, i, cfg);
    AfterARound(u, rounds, ghosts, i + 1, cfg);
  }

  /** The option book between the opening of a tick and its end. */
  lemma ManagedBook(s: O.State, a: Answers, cfg: O.Config)
    requires Ready(s, a, cfg) && Manages(a)
    ensures var u := O.Run(s, Opening(a), cfg).options;
            && Kept(u) && u.phase.Idle?
            && O.Run(s, TickSteps(a), cfg).options == P.Run(P.Run(u, Rounds(a.rounds), cfg.options), a.ghosts, cfg.options)
  {
    OpeningStaysReady(s, a, cfg);
    ManagingSteps(s, a, cfg);
  }

  /** Main result: in a tick that manages, every listed round acts on the book as the rounds before it left it, with
      its position's rows and closes kept to the end of the tick. */
  lemma RoundOfATick(s: O.State, a: Answers, cfg: O.Config, i: nat)
    requires Ready(s, a, cfg) && Manages(a) && i < |a.rounds|
    ensures RoundActed(O.Run(s, Opening(a), cfg).options, O.Run(s, TickSteps(a), cfg).options, a.rounds, i, cfg.options)
  {
    ManagedBook(s, a, cfg);
    RoundActsInARun(O.Run(s, Opening(a), cfg).options, a.rounds, a.ghosts, i, cfg.options);
  }

  predicate AllVisits(visits: seq<C.Event>) {
    forall i | 0 <= i < |visits| :: visits[i].AdvanceShort?
  }

  /** Visit i acted as the visits before it left the scanner's book. */
  ghost predicate VisitActed(u: C.State, visits: seq<C.Event>, i: nat, cfg: C.Config)
    requires AllVisits(visits) && i < |visits|
  {
    var before, after := C.Run(u, visits[..i], cfg), C.Run(u, visits[..i + 1], cfg);
    && (visits[i].ticker in before.book ==> CE.VisitedAs(before, after, visits[i]))
    && (visits[i].ticker !in before.book ==> after == before)
  }

  lemma VisitInARun(u: C.State, visits: seq<C.Event>, i: nat, cfg: C.Config)
    requires CS.Inv(u, cfg) && AllVisits(visits) && i < |visits|
    ensures VisitActed(u, visits, i, cfg)
  {
    CS.RunKeepsInv(u, visits[..i], cfg);
    assert visits[..i + 1][..i] == visits[..i];
    CE.AdvanceEffect(C.Run(u, visits[..i], cfg), visits[i], cfg);
  }

  /** Main result: every listed short is visited as the visits before it left the book, and the last
      visit leaves it as the tick does. */
  lemma VisitOfATick(s: O.State, a: Answers, cfg: O.Config, i: nat)
    requires Ready(s, a, cfg) && Manages(a) && i < |a.shorts|
    ensures VisitActed(O.Run(s, Opening(a), cfg).scanner, a.shorts, i, cfg.scanner)
    ensures O.Run(s, TickSteps(a), cfg).scanner == C.Run(O.Run(s, Opening(a), cfg).scanner, a.shorts, cfg.scanner)
  {
    OpeningStaysReady(s, a, cfg);
    ManagingSteps(s, a, cfg);
    VisitInARun(O.Run(s, Opening(a), cfg).scanner, a.shorts, i, cfg.scanner);
  }

  predicate AllGhosts(ghosts: seq<P.Event>) {
    forall i | 0 <= i < |ghosts| :: ghosts[i].Reconcile?
  }

  /** Reconciliation i acted as the ones before it left the book u; what it wrote and dropped stays so in t. */
  ghost predicate GhostActed(u: P.State, t: P.State, ghosts: seq<P.Event>, i: nat, cfg: P.Config)
    requires AllGhosts(ghosts) && i < |ghosts|
  {
    var before, after := P.Run(u, ghosts[..i], cfg), P.Run(u, ghosts[..i + 1], cfg);
    && (ghosts[i].sig in before.open ==> PE.ReconciledAs(before, after, ghosts[i]))
    && (ghosts[i].sig !in before.open ==> after == before)
    && after.rows <= t.rows && t.open.Keys <= after.open.Keys
  }

  lemma {:induction false} GhostsEndIdle(s: P.State, ghosts: seq<P.Event>, cfg: P.Config)
    requires s.phase.Idle? && AllGhosts(ghosts)
    ensures P.Run(s, ghosts, cfg).phase.Idle?
  {
    if ghosts != [] {
      GhostsEndIdle(s, ghosts[..|ghosts| - 1], cfg);
    }
  }

  lemma GhostsStayKept(s: P.State, ghosts: seq<P.Event>, cfg: P.Config)
    requires Kept(s) && s.phase.Idle? && AllGhosts(ghosts)
    ensures var t := P.Run(s, ghosts, cfg); Kept(t) && t.phase.Idle? && s.rows <= t.rows && t.open.Keys <= s.open.Keys
  {
    ManagingOnlyCloses(s, ghosts, cfg);
    GhostsEndIdle(s, ghosts, cfg);
  }

  lemma GhostActs(u: P.State, ghosts: seq<P.Event>, i: nat, cfg: P.Config)
    requires Kept(u) && u.phase.Idle? && AllGhosts(ghosts) && i < |ghosts|
    ensures GhostActed(u, P.Run(u, ghosts[..i + 1], cfg), ghosts, i, cfg)
  {
    GhostsStayKept(u, ghosts[..i], cfg);
    assert ghosts[..i + 1][..i] == ghosts[..i];
    PE.ReconcileEffect(P.Run(u, ghosts[..i], cfg), ghosts[i], cfg);
  }

  lemma GhostInARun(u: P.State, ghosts: seq<P.Event>, i: nat, cfg: P.Config)
    requires Kept(u) && u.phase.Idle? && AllGhosts(ghosts) && i < |ghosts|
    ensures GhostActed(u, P.Run(u, ghosts, cfg), ghosts, i, cfg)
  {
    GhostActs(u, ghosts, i, cfg);
    MoreOnlyCloses(u, ghosts, i + 1, cfg);
  }

  /** Main result: every position the broker lost is reconciled after the rounds. */
  lemma GhostOfATick(s: O.State, a: Answers, cfg: O.Config, i: nat)
    requires Ready(s, a, cfg) && Manages(a) && i < |a.ghosts|
    ensures var managed := P.Run(O.Run(s, Opening(a), cfg).options, Rounds(a.rounds), cfg.options);
            GhostActed(managed, O.Run(s, TickSteps(a), cfg).options, a.ghosts, i, cfg.options)
  {
    var u := O.Run(s, Opening(a), cfg).options;
    ManagedBook(s, a, cfg);
    RoundsStayKept(u, a.rounds, cfg.options);
    GhostInARun(P.Run(u, Rounds(a.rounds), cfg.options), a.ghosts, i, cfg.options);
  }

  /** Main result: the pulse's verdict is what the tick leaves on the panel; nothing else after the
      intake changes it. */
  lemma PulseOfATick(s: O.State, a: Answers, cfg: O.Config)
    requires Fits(a, |s.options.queue|, |s.scanner.queue|) && Manages(a)
    ensures var stored := a.pulseFate.Completes? || a.pulseFate.EventWriteRaises?;
            EvaluatedAs(O.Run(s, Intake(a), cfg).panel, O.Run(s, TickSteps(a), cfg).panel, a.pulse, a.pulseFate, stored,
                        cfg.maxLosses)
  {
    ClosingSteps(s, a, cfg);
    ManagingSteps(s, a, cfg);
    K.EvaluationInRawTerms(O.Run(s, Intake(a), cfg).panel, K.Pulse(a.pulse, a.pulseFate), cfg.maxLosses);
  }
}
