/** The tick of main.py over the two desks and the switch board, in its stage order. */
module TickLoop {
  import opened Prelude
  import R = RiskManager
  import K = KillSwitches
  import P = PositionBook
  import PS = PositionSafety
  import PD = PositionDesk
  import C = ScannerBook
  import CO = ScannerOrders
  import CD = EquityDesk
  import O = Orchestration
  import T = Ticks

  class Bot {
    const options: PD.Desk
    const equity: CD.Desk
    const board: K.SwitchBoard

    constructor (options: PD.Desk, equity: CD.Desk, board: K.SwitchBoard)
      requires options.Valid() && options.phase == P.Idle && equity.Valid()
      ensures Valid() && this.options == options && this.equity == equity && this.board == board
    {
      this.options, this.equity, this.board := options, equity, board;
    }

    ghost function View(): O.State
      reads this, options, equity, board
    {
      O.State(board.View(), options.View(), equity.View())
    }

    ghost function Cfg(): O.Config {
      O.Config(options.cfg, equity.cfg, board.maxLosses)
    }

    /** Both desks are valid and the tick thread is between ticks. */
    ghost predicate Valid()
      reads this, options, equity, board
    {
      options.Valid() && options.phase == P.Idle && equity.Valid()
    }

    // ---- The intake ---------------------------------------------------------------------------------

    /** One post: a validated one goes through the risk check, whose verdict the desk sees. */
    method HandleIncoming(incoming: T.Incoming)
      requires Valid() && incoming.post.Post?
      modifies options`signals, options`positions, options`orders, board
      ensures Valid() && View() == O.Step(old(View()), O.Arrive(incoming.post, incoming.obs, incoming.fate), Cfg())
    {
      var post := incoming.post;
      board.HearPost(post.receivedAt);
      if post.accepted {
        var passed := board.CheckPost(incoming.obs, incoming.fate);
        post := post.(accepted := passed);
      }
      options.HandlePost(post);
    }

    /** _drain_post_queue. */
    method DrainPosts(posts: seq<T.Incoming>)
      requires Valid() && T.AllPosts(posts)
      modifies options`signals, options`positions, options`orders, board
      ensures Valid() && View() == O.Run(old(View()), T.Arrivals(posts), Cfg())
    {
      for i := 0 to |posts|
        invariant Valid() && View() == O.Run(old(View()), T.Arrivals(posts[..i]), Cfg())
      {
        T.ArrivalsUpTo(old(View()), posts, i, Cfg());
        HandleIncoming(posts[i]);
      }
      assert posts[..|posts|] == posts;
    }

    /** _drain_manual_close_queue. */
    method DrainRequests(requests: seq<P.Event>)
      requires Valid() && |requests| == |options.queue| && forall i | 0 <= i < |requests| :: requests[i].DrainRequest?
      modifies options`positions, options`orders, options`queue
      ensures Valid() && View() == O.Run(old(View()), O.OnOptions(requests), Cfg()) && options.queue == []
    {
      O.OptionsRun(View(), requests, Cfg());
      options.DrainManualCloseQueue(requests);
    }

    /** Polls, ghosts or flattens of the options book. */
    method SweepOptions(sweep: seq<P.Event>)
      requires Valid()
      requires forall i | 0 <= i < |sweep| :: sweep[i].PollManual? || sweep[i].Reconcile? || sweep[i].Flatten?
      modifies options`rows, options`positions, options`orders
      ensures Valid() && View() == O.Run(old(View()), O.OnOptions(sweep), Cfg())
    {
      O.OptionsRun(View(), sweep, Cfg());
      options.SweepPositions(sweep);
    }

    /** One scanner signal under the board's active switches. */
    method HandleSignal(signal: C.Event)
      requires Valid() && signal.Handle? && equity.queue != []
      modifies equity`queue, equity`orders, equity`rows, equity`book
      ensures Valid() && View() == O.Step(old(View()), O.Scanner(signal), Cfg())
      ensures equity.queue == old(equity.queue)[1..]
    {
      equity.HandleScannerSignal(signal.(active := board.active));
    }

    /** _drain_scanner_signal_queue. */
    method DrainSignals(signals: seq<C.Event>)
      requires Valid() && |signals| == |equity.queue| && forall i | 0 <= i < |signals| :: signals[i].Handle?
      modifies equity`queue, equity`orders, equity`rows, equity`book
      ensures Valid() && View() == O.Run(old(View()), O.OnShorts(signals), Cfg()) && equity.queue == []
    {
      for i := 0 to |signals|
        invariant Valid() && View() == O.Run(old(View()), O.OnShorts(signals[..i]), Cfg())
        invariant |equity.queue| == |signals| - i
      {
        O.ShortsUpTo(old(View()), signals, i, Cfg());
        HandleSignal(signals[i]);
      }
      assert signals[..|signals|] == signals;
    }

    /** The first stages of a tick: posts, manual closes, their polls, scanner signals. */
    method Intake(a: T.Answers)
      requires Valid() && T.Fits(a, |options.queue|, |equity.queue|)
      modifies options, equity`queue, equity`orders, equity`rows, equity`book, board
      ensures Valid() && View() == O.Run(old(View()), T.Intake(a), Cfg())
      ensures options.queue == [] && equity.queue == []
    {
      ghost var posts, requests := T.Arrivals(a.posts), O.OnOptions(a.requests);
      ghost var polls, signals := O.OnOptions(a.polls), O.OnShorts(a.signals);
      DrainPosts(a.posts);
      O.RunConcat(old(View()), posts, requests, Cfg());
      DrainRequests(a.requests);
      O.RunConcat(old(View()), posts + requests, polls, Cfg());
      SweepOptions(a.polls);
      O.RunConcat(old(View()), posts + requests + polls, signals, Cfg());
      DrainSignals(a.signals);
    }

    // ---- The later stages ---------------------------------------------------------------------------

    /** A pass over the shorts. */
    method SweepShorts(sweep: seq<C.Event>)
      requires Valid() && forall i | 0 <= i < |sweep| :: sweep[i].AdvanceShort? || sweep[i].FlattenShort?
      modifies equity`orders, equity`rows, equity`book
      ensures Valid() && View() == O.Run(old(View()), O.OnShorts(sweep), Cfg())
    {
      O.ShortsRun(View(), sweep, Cfg());
      equity.AdvanceEquityPositions(sweep);
    }

    /** The 15:55 stage: the shorts, then the positions. */
    method FlattenAll(a: T.Answers)
      requires Valid() && T.AllFlatten(a.flattens) && T.AllFlattenShorts(a.shortFlattens)
      modifies options`rows, options`positions, options`orders
      modifies equity`orders, equity`rows, equity`book
      ensures Valid() && View() == O.Run(old(View()), T.Flattens(a), Cfg())
    {
      O.RunConcat(View(), O.OnShorts(a.shortFlattens), O.OnOptions(a.flattens), Cfg());
      SweepShorts(a.shortFlattens);
      SweepOptions(a.flattens);
    }

    /** One round, as the continuation of a run. */
    method Advance(round: T.Round, ghost start: P.State, ghost past: seq<P.Event>)
      requires Valid() && round.read.ReadStop? && round.finish.FinishAdvance?
      requires options.View() == P.Run(start, past, options.cfg)
      modifies options`phase, options`rows, options`positions, options`orders
      ensures Valid() && options.View() == P.Run(start, past + T.RoundSteps(round), options.cfg)
    {
      ghost var trace := options.AdvancePosition(round.sig, round.read, round.finish, start, past);
      assert trace == past + T.RoundSteps(round);
    }

    /** The per-position rounds of the advance stage. */
    method AdvanceAll(rounds: seq<T.Round>)
      requires Valid() && T.AreRounds(rounds)
      modifies options`phase, options`rows, options`positions, options`orders
      ensures Valid() && View() == O.Run(old(View()), O.OnOptions(T.Rounds(rounds)), Cfg())
    {
      ghost var start := options.View();
      for i := 0 to |rounds|
        invariant Valid() && options.View() == P.Run(start, T.Rounds(rounds[..i]), options.cfg)
      {
        T.RoundsUpTo(rounds, i);
        Advance(rounds[i], start, T.Rounds(rounds[..i]));
      }
      assert rounds[..|rounds|] == rounds;
      T.RoundsAreUngated(rounds);
      O.OptionsRun(old(View()), T.Rounds(rounds), Cfg());
    }

    /** The managing stages: advances, the risk pulse, the reconciliation. */
    method ManageAll(a: T.Answers)
      requires Valid() && T.AreRounds(a.rounds) && T.AllVisits(a.shorts) && T.AllGhosts(a.ghosts)
      modifies options`phase, options`rows, options`positions, options`orders
      modifies equity`orders, equity`rows, equity`book, board
      ensures Valid() && View() == O.Run(old(View()), T.ManageSteps(a), Cfg())
    {
      ghost var rounds, shorts := O.OnOptions(T.Rounds(a.rounds)), O.OnShorts(a.shorts);
      AdvanceAll(a.rounds);
      O.RunConcat(old(View()), rounds, shorts, Cfg());
      SweepShorts(a.shorts);
      O.RunSnoc(old(View()), rounds + shorts, T.Pulse(a), Cfg());
      var _ := board.RiskPulse(a.pulse, a.pulseFate);
      O.RunConcat(old(View()), rounds + shorts + [T.Pulse(a)], O.OnOptions(a.ghosts), Cfg());
      SweepOptions(a.ghosts);
    }

    /** The stages every tick reaches; it goes on to manage unless the flattens have returned. */
    method Open(a: T.Answers) returns (manages: bool)
      requires Valid() && T.Fits(a, |options.queue|, |equity.queue|)
      modifies options, equity`queue, equity`orders, equity`rows, equity`book, board
      ensures Valid() && View() == O.Run(old(View()), T.Opening(a), Cfg())
      ensures options.queue == [] && equity.queue == [] && manages == T.Manages(a)
    {
      Intake(a);
      if a.now.etTime < At(15, 55) {
        assert T.Opening(a) == T.Intake(a);
        return true;
      }
      O.RunConcat(old(View()), T.Intake(a), T.Flattens(a), Cfg());
      FlattenAll(a);
      return a.flattenRaises;
    }

    /** tick, stage by stage. */
    method TickSteps(a: T.Answers)
      requires Valid() && T.Fits(a, |options.queue|, |equity.queue|)
      modifies options, equity`queue, equity`orders, equity`rows, equity`book, board
      ensures Valid() && View() == O.Run(old(View()), T.TickSteps(a), Cfg())
      ensures options.queue == [] && equity.queue == []
    {
      var manages := Open(a);
      T.OpenThenManage(old(View()), a, Cfg());
      if manages {
        ManageAll(a);
      }
    }

    /** The tick for its callers: whatever the outside answers, it makes exactly the steps of a tick on
        the books and the switches, so that module Ticks says what has become of every post, request,
        signal, position and short. The trades table keeps one row per signal, no signal has two
        requests on their way, the scanner book stays within its cap, each short has at most one
        cover since the process started, and once daily_loss is on neither book enters anything. */
    method Tick(a: T.Answers)
      requires Valid() && T.Fits(a, |options.queue|, |equity.queue|)
      modifies options, equity`queue, equity`orders, equity`rows, equity`book, board
      ensures Valid() && options.queue == [] && equity.queue == []
      ensures View() == O.Run(old(View()), T.TickSteps(a), Cfg())
      ensures T.Ready(old(View()), a, Cfg()) && T.AtClose(a) && !a.flattenRaises ==>
                T.ClosedAs(O.Run(old(View()), T.Intake(a), Cfg()), View(), a)
      ensures forall i, j | 0 <= i < j < |options.rows| :: options.rows[i].signal != options.rows[j].signal
      ensures forall sig: nat :: PS.Pending(options.View(), sig) <= 1
      ensures |equity.book| <= equity.cfg.maxConcurrent
      ensures forall i, j, k | equity.base <= i < j && CO.Is(equity.View(), i, C.Cover, k) ::
                !CO.Is(equity.View(), j, C.Cover, k)
      ensures R.DailyLoss in old(board.active) ==>
                && R.DailyLoss in board.active
                && O.EntersNothing(old(View()), View())
    {
      ghost var before := View();
      TickSteps(a);
      if T.Ready(before, a, Cfg()) && T.AtClose(a) {
        T.ClosingTick(before, a, Cfg());
      }
      if R.DailyLoss in before.panel.active {
        T.TicksNeverCrash(a);
        O.NoEntryInEitherBook(before, T.TickSteps(a), Cfg());
      }
    }
  }
}
