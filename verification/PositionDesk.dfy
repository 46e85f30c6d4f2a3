/** The options book as the object main.py updates in place. Each method that main.py's tick, the
    API or the startup calls makes steps of the specification machine and keeps the desk valid:
    the invariants of PositionSafety, PositionStops and PositionRows hold between calls. */
module PositionDesk {
  import opened Prelude
  import opened PositionBook
  import opened PositionSafety
  import PositionStops
  import PositionRows

  /** What holds of every reachable book. */
  ghost predicate Sound(s: State) {
    Inv(s) && Requests(s) && PositionStops.StopsKnown(s) && PositionRows.Truthful(s)
  }

  lemma StepIsSound(s: State, e: Event, cfg: Config)
    requires Sound(s)
    ensures Sound(Step(s, e, cfg))
  {
    StepKeepsInv(s, e, cfg);
    StepKeepsRequests(s, e, cfg);
    PositionRows.StepKeepsTruth(s, e, cfg);
    if e.Restart? {
      PositionStops.AdoptionsKnowStops(Crashed(s), e.adoptions, cfg);
    } else {
      PositionStops.StepProtects(s, e, cfg);
    }
  }

  lemma {:induction false} RunIsSound(s: State, es: seq<Event>, cfg: Config)
    requires Sound(s)
    ensures Sound(Run(s, es, cfg))
  {
    if es != [] {
      RunIsSound(s, es[..|es| - 1], cfg);
      StepIsSound(Run(s, es[..|es| - 1], cfg), es[|es| - 1], cfg);
    }
  }

  lemma RunOneMore(s: State, es: seq<Event>, i: nat, cfg: Config)
    requires i < |es|
    ensures Run(s, es[..i + 1], cfg) == Step(Run(s, es[..i], cfg), es[i], cfg)
  {
    assert es[..i + 1][..i] == es[..i];
  }

  lemma RunSnoc(s: State, es: seq<Event>, e: Event, cfg: Config)
    ensures Run(s, es + [e], cfg) == Step(Run(s, es, cfg), e, cfg)
  {
    assert (es + [e])[..|es|] == es;
  }

  lemma RunThree(s: State, es: seq<Event>, first: Event, second: Event, third: Event, cfg: Config)
    ensures Run(s, es + [first] + [second] + [third], cfg)
            == Step(Step(Step(Run(s, es, cfg), first, cfg), second, cfg), third, cfg)
  {
    RunSnoc(s, es, first, cfg);
    RunSnoc(s, es + [first], second, cfg);
    RunSnoc(s, es + [first] + [second], third, cfg);
  }

  lemma {:induction false} RunConcat(s: State, es: seq<Event>, more: seq<Event>, cfg: Config)
    ensures Run(s, es + more, cfg) == Run(Run(s, es, cfg), more, cfg)
  {
    if more == [] {
      assert es + more == es;
    } else {
      RunConcat(s, es, more[..|more| - 1], cfg);
      RunSnoc(s, es + more[..|more| - 1], more[|more| - 1], cfg);
      assert es + more == es + more[..|more| - 1] + [more[|more| - 1]];
    }
  }

  class Desk {
    var signals: seq<Signal>
    var positions: map<nat, Record>
    var rows: seq<Row>
    var orders: seq<Order>
    var puts: multiset<nat>
    var queue: seq<nat>
    var phase: Phase
    const cfg: Config

    constructor (cfg: Config)
      ensures Valid() && View() == EMPTY && this.cfg == cfg
    {
      signals, positions, rows, orders, puts, queue, phase := [], map[], [], [], multiset{}, [], Idle;
      this.cfg := cfg;
    }

    ghost function View(): State
      reads this
    {
      State(signals, positions, rows, orders, puts, queue, phase)
    }

    ghost predicate Valid()
      reads this
    {
      Sound(View())
    }

    // ---- Executor ---------------------------------------------------------------------

    method Submit(order: Order) returns (id: nat)
      modifies this`orders
      ensures orders == old(orders) + [order] && id == |old(orders)|
    {
      id := |orders|;
      orders := orders + [order];
    }

    method CancelOrder(id: nat, takes: bool)
      modifies this`orders
      ensures orders == Cancelled(old(orders), Some(id), takes)
    {
      if id < |orders| && orders[id].status == Live && takes {
        orders := orders[id := orders[id].(status := Dead)];
      }
    }

    /** modify_stop: an atomic replace, or else cancel and submit. */
    method ModifyStop(sig: nat, newStop: real, fate: ModifyFate) returns (raised: bool)
      requires sig in positions && positions[sig].stopOrder.Some?
      modifies this`orders, this`positions
      ensures View() == Restopped(old(View()), sig, newStop, fate)
      ensures !raised && fate.writeRaises <==> CutShort(old(View()), sig, fate)
    {
      var record := positions[sig];
      var id := record.stopOrder.value;
      if fate.swaps && id < |orders| && orders[id].status == Live {
        orders := orders[id := orders[id].(status := Dead)];
      } else {
        CancelOrder(id, fate.cancelTakes);
        if fate.submitRaises {
          positions := positions[sig := record];
          return true;
        }
      }
      var stop := Submit(Order(sig, StopSell, record.qty, Some(newStop), Live));
      positions := positions[sig := record.(stopOrder := Some(stop))];
      return false;
    }

    // ---- Posts ----------------------------------------------------------------------------

    method HandlePost(e: Event)
      requires Valid() && e.Post?
      modifies this`signals, this`positions, this`orders
      ensures Valid() && View() == Step(old(View()), e, cfg)
      ensures |positions| <= MaxInt(|old(positions)|, cfg.maxConcurrent)
    {
      StepIsSound(View(), e, cfg);
      StepKeepsCap(View(), e, cfg);
      if phase != Idle {
        return;
      }
      var sig := |signals|;
      signals := signals + [Signal(e.contract, e.receivedAt, false)];
      if !e.accepted || |positions| >= cfg.maxConcurrent || e.ask.None? {
        return;
      }
      var qty := ComputeQty(e.ask.value, cfg.spendCap, cfg.maxQty);
      if qty < 1 {
        return;
      }
      EnterPosition(sig, e, qty);
    }

    method EnterPosition(sig: nat, e: Event, qty: int)
      requires e.Post? && sig < |signals|
      modifies this`signals, this`positions, this`orders
      ensures View() == Enter(old(View()), sig, e, qty, cfg)
    {
      match e.fate
      case BuyRejected =>
      case BuyAbandoned =>
        var _ := Submit(Order(sig, EntryBuy, qty, None, Live));
      case BuyUnfilled(takes) =>
        var entry := Submit(Order(sig, EntryBuy, qty, None, Live));
        CancelOrder(entry, takes);
      case BoughtOnly(price) =>
        var _ := Submit(Order(sig, EntryBuy, qty, None, Filled(price)));
      case BoughtWithStop(price) =>
        var _ := Submit(Order(sig, EntryBuy, qty, None, Filled(price)));
        var _ := Submit(Order(sig, StopSell, qty, Some(InitialStop(price, cfg)), Live));
      case Opened(price, marked) =>
        var _ := Submit(Order(sig, EntryBuy, qty, None, Filled(price)));
        var stop := Submit(Order(sig, StopSell, qty, Some(InitialStop(price, cfg)), Live));
        var position := S.OpenPosition(price, qty, e.now.utc, e.contract.expiration, cfg.stopLossPct);
        if position.Ok? {
          positions := positions[sig := Record(e.contract, qty, price, position.value, Some(stop), false, None)];
          signals := signals[sig := signals[sig].(taken := marked)];
        }
    }

    // ---- Closes ---------------------------------------------------------------------------

    /** _record_external_close. */
    method RecordExternalClose(sig: nat, price: real, reason: Reason, reply: JournalReply)
      requires sig in positions
      modifies this`rows, this`positions
      ensures View() == ExternallyClosed(old(View()), sig, price, reason, reply)
    {
      var record := positions[sig];
      var alreadyRecorded := true;
      if !reply.CheckRaises? {
        alreadyRecorded := HasRow(rows, sig);
      }
      if !alreadyRecorded && !reply.TradeRaises? {
        rows := rows + [Row(sig, record.entryPrice, price, record.qty, reason)];
      }
      positions := positions - {sig};
    }

    /** _close_position. */
    method ClosePosition(sig: nat, reason: S.ExitReason, nominal: real, env: CloseEnv)
      requires sig in positions
      modifies this`rows, this`positions, this`orders
      ensures View() == Closed(old(View()), sig, reason, nominal, env)
    {
      var record := positions[sig];
      if record.stopOrder.Some? {
        CancelOrder(record.stopOrder.value, env.cancelTakes);
      }
      if env.sell.SellRejected? {
        return;
      }
      var fill := env.sell.fill;
      var _ := Submit(SellOrder(sig, record.qty, fill));
      if env.sell.SellAbandoned? {
        return;
      }
      var exitPrice := if fill.Some? then fill.value else nominal;
      rows := rows + [Row(sig, record.entryPrice, exitPrice, record.qty, Exit(reason))];
      positions := positions - {sig};
    }

    // ---- Manual close -----------------------------------------------------------------------

    /** request_manual_close, under the lock. */
    method FlagManualClose(sig: nat) returns (flagged: bool)
      requires Valid()
      modifies this`positions, this`puts
      ensures Valid() && View() == Step(old(View()), ApiFlag(sig), cfg)
      ensures flagged <==> sig in old(positions) && !old(positions)[sig].closing
      ensures flagged ==> Pending(View(), sig) == 1
    {
      StepIsSound(View(), ApiFlag(sig), cfg);
      if sig !in positions || positions[sig].closing {
        return false;
      }
      assert positions[sig].manualOrder.None?;
      positions := positions[sig := positions[sig].(closing := true)];
      puts := puts + multiset{sig};
      assert Flagged(View(), sig);
      return true;
    }

    /** request_manual_close, after the lock: the put. */
    method EnqueueManualClose(sig: nat)
      requires Valid()
      modifies this`puts, this`queue
      ensures Valid() && View() == Step(old(View()), ApiPut(sig), cfg)
      ensures forall k: nat :: Pending(View(), k) == Pending(old(View()), k)
      ensures puts[sig] == 0
    {
      StepIsSound(View(), ApiPut(sig), cfg);
      PutKeepsRequests(View(), sig);
      if sig in puts {
        puts := puts - multiset{sig};
        queue := queue + [sig];
      }
    }

    /** _handle_manual_close with its caller's rollback. */
    method HandleManualClose(sig: nat, takes: bool, manual: ManualFate)
      requires sig in positions
      modifies this`positions, this`orders
      ensures View() == Requested(old(View()), sig, takes, manual)
    {
      var record := positions[sig];
      if record.stopOrder.Some? {
        CancelOrder(record.stopOrder.value, takes);
        record := record.(stopOrder := None);
      }
      if !manual.ManualRejected? {
        var id := Submit(Order(sig, ManualSell, record.qty, None, Live));
        record := record.(manualOrder := Some(id));
      }
      if !manual.ManualSent? {
        record := record.(closing := false, manualOrder := None);
      }
      positions := positions[sig := record];
    }

    /** _drain_manual_close_queue: one fate per queued request. */
    method DrainManualCloseQueue(fates: seq<Event>)
      requires Valid()
      requires phase == Idle && |fates| == |queue| && forall i | 0 <= i < |fates| :: fates[i].DrainRequest?
      modifies this`positions, this`orders, this`queue
      ensures Valid() && View() == Run(old(View()), fates, cfg)
      ensures queue == []
    {
      RunIsSound(View(), fates, cfg);
      var i := 0;
      while queue != []
        invariant 0 <= i <= |fates| && |queue| == |fates| - i
        invariant View() == Run(old(View()), fates[..i], cfg)
      {
        RunOneMore(old(View()), fates, i, cfg);
        ghost var before := View();
        var sig := queue[0];
        queue := queue[1..];
        if sig in positions {
          HandleManualClose(sig, fates[i].cancelTakes, fates[i].manual);
        }
        assert View() == Drained(before, fates[i]);
        i := i + 1;
      }
      assert fates[..i] == fates;
    }

    method PollManualClose(e: Event)
      requires Valid() && e.PollManual? && phase == Idle
      modifies this`rows, this`positions
      ensures Valid() && View() == Step(old(View()), e, cfg)
    {
      StepIsSound(View(), e, cfg);
      if e.sig !in positions || !positions[e.sig].closing || e.readRaises {
        return;
      }
      var price := FillPrice(orders, positions[e.sig].manualOrder);
      if price.Some? {
        RecordExternalClose(e.sig, price.value, ManualClose, e.journal);
      }
    }

    /** One pass of _check_manual_close_fills, _reconcile_positions or _flatten_at_close over the
        positions it lists. */
    method SweepPositions(steps: seq<Event>)
      requires Valid() && phase == Idle
      requires forall i | 0 <= i < |steps| :: steps[i].PollManual? || steps[i].Reconcile? || steps[i].Flatten?
      modifies this`rows, this`positions, this`orders
      ensures Valid() && View() == Run(old(View()), steps, cfg)
    {
      for i := 0 to |steps|
        invariant Valid()
        invariant View() == Run(old(View()), steps[..i], cfg)
      {
        RunOneMore(old(View()), steps, i, cfg);
        match steps[i] {
          case PollManual(_, _, _) => PollManualClose(steps[i]);
          case Reconcile(_, _, _) => ReconcileGhost(steps[i]);
          case Flatten(_, _) => FlattenPosition(steps[i]);
        }
      }
      assert steps[..|steps|] == steps;
    }

    method FlattenPosition(e: Event)
      requires Valid() && e.Flatten? && phase == Idle
      modifies this`rows, this`positions, this`orders
      ensures Valid() && View() == Step(old(View()), e, cfg)
    {
      StepIsSound(View(), e, cfg);
      if e.sig in positions {
        ClosePosition(e.sig, S.TimeStop1555, positions[e.sig].entryPrice, e.env);
      }
    }

    method ReconcileGhost(e: Event)
      requires Valid() && e.Reconcile? && phase == Idle
      modifies this`rows, this`positions
      ensures Valid() && View() == Step(old(View()), e, cfg)
    {
      StepIsSound(View(), e, cfg);
      if e.sig !in positions {
        return;
      }
      var record := positions[e.sig];
      if record.closing && record.manualOrder.Some? {
        var price := FillPrice(orders, record.manualOrder);
        if !e.readRaises && price.Some? {
          RecordExternalClose(e.sig, price.value, ManualClose, e.journal);
        }
        return;
      }
      var exitPrice, reason := record.entryPrice, ExternalClose;
      var price := FillPrice(orders, record.stopOrder);
      if !e.readRaises && price.Some? {
        exitPrice, reason := price.value, Exit(S.StopLoss);
      }
      RecordExternalClose(e.sig, exitPrice, reason, e.journal);
    }

    // ---- Advancing one position ----------------------------------------------------------------

    /** _advance_position up to the closing check. */
    method BeginAdvance(sig: nat)
      requires Valid() && phase == Idle
      modifies this`phase
      ensures Valid() && View() == Step(old(View()), StartAdvance(sig), cfg)
      ensures phase == Idle || (phase == Checked(sig) && sig in positions && positions[sig].manualOrder.None?
                                && Pending(View(), sig) == 0)
    {
      StepIsSound(View(), StartAdvance(sig), cfg);
      assert sig in positions && !positions[sig].closing ==> !Flagged(View(), sig) && Pending(View(), sig) != 1;
      if phase == Idle && sig in positions && !positions[sig].closing {
        phase := Checked(sig);
      }
    }

    /** The stop-order read of _advance_position. */
    method CheckStop(e: Event)
      requires Valid() && e.ReadStop?
      modifies this`phase, this`rows, this`positions
      ensures Valid() && View() == Step(old(View()), e, cfg)
      ensures old(phase).Checked? ==> !phase.Checked?
      ensures !old(phase).Checked? ==> phase == old(phase)
    {
      StepIsSound(View(), e, cfg);
      if !phase.Checked? || phase.signal !in positions {
        return;
      }
      var sig := phase.signal;
      var price := FillPrice(orders, positions[sig].stopOrder);
      if !e.readRaises && price.Some? {
        RecordExternalClose(sig, price.value, Exit(S.StopLoss), e.journal);
        phase := Idle;
      } else {
        phase := Quoted(sig);
      }
    }

    /** _advance_position from the quote on. */
    method EndAdvance(e: Event)
      requires Valid() && e.FinishAdvance?
      modifies this`phase, this`rows, this`positions, this`orders
      ensures Valid() && View() == Step(old(View()), e, cfg)
      ensures phase == if old(phase).Quoted? then Idle else old(phase)
    {
      StepIsSound(View(), e, cfg);
      if !phase.Quoted? || phase.signal !in positions {
        return;
      }
      Manage(phase.signal, e);
      phase := Idle;
    }

    method Manage(sig: nat, e: Event)
      requires e.FinishAdvance? && sig in positions
      modifies this`rows, this`positions, this`orders
      ensures View() == Managed(old(View()), sig, e)
    {
      var record := positions[sig];
      if e.quote.None? || record.entryPrice == 0.0 {
        return;
      }
      var currentPrice := e.quote.value;
      var evaluation := S.Evaluate(record.position, currentPrice, e.now);
      if evaluation.Err? {
        return;
      }
      var newStop := evaluation.value.position.stopPrice;
      positions := positions[sig := record.(position := evaluation.value.position)];
      var prior: Option<real> := None;
      if !e.readRaises {
        prior := StopOnBook(orders, record.stopOrder);
      }
      if prior.Some? && newStop > prior.value {
        var bump := newStop - prior.value;
        if bump >= record.entryPrice * MIN_STOP_BUMP_FRACTION && newStop < currentPrice {
          var raised := ModifyStop(sig, newStop, e.push);
          if !raised && e.push.writeRaises {
            return;
          }
        }
      }
      if evaluation.value.exit.Some? {
        ClosePosition(sig, evaluation.value.exit.value.reason, currentPrice, e.env);
      }
    }

    /** One round of _advance_position that nothing interrupts, as the continuation of a run. */
    method AdvancePosition(sig: nat, read: Event, finish: Event, ghost start: State, ghost past: seq<Event>)
      returns (ghost trace: seq<Event>)
      requires Valid() && phase == Idle && read.ReadStop? && finish.FinishAdvance?
      requires View() == Run(start, past, cfg)
      modifies this`phase, this`rows, this`positions, this`orders
      ensures Valid() && phase == Idle
      ensures trace == past + [StartAdvance(sig)] + [read] + [finish] && View() == Run(start, trace, cfg)
    {
      trace := past + [StartAdvance(sig)];
      RunSnoc(start, past, StartAdvance(sig), cfg);
      BeginAdvance(sig);
      RunSnoc(start, trace, read, cfg);
      trace := trace + [read];
      CheckStop(read);
      RunSnoc(start, trace, finish, cfg);
      trace := trace + [finish];
      EndAdvance(finish);
    }

    // ---- Startup -----------------------------------------------------------------------------------

    /** A new process: memory is empty, then _reconcile_on_startup adopts. */
    method ReconcileOnStartup(adoptions: seq<Adoption>)
      requires Valid()
      modifies this
      ensures Valid() && View() == Step(old(View()), Restart(adoptions), cfg)
    {
      StepIsSound(View(), Restart(adoptions), cfg);
      positions, puts, queue, phase := map[], multiset{}, [], Idle;
      ghost var crashed := View();
      for i := 0 to |adoptions|
        invariant View() == AdoptedAll(crashed, adoptions[..i], cfg)
      {
        assert adoptions[..i + 1][..i] == adoptions[..i];
        AdoptPosition(adoptions[i]);
      }
      assert adoptions[..|adoptions|] == adoptions;
    }

    /** The matching query of _adopt_position: newest taken signal for the contract without a row. */
    method FindTakenSignal(contract: Contract) returns (sig: Option<nat>)
      ensures sig == LatestTaken(View(), contract, |signals|)
    {
      var n := |signals|;
      while n > 0
        invariant 0 <= n <= |signals|
        invariant LatestTaken(View(), contract, |signals|) == LatestTaken(View(), contract, n)
      {
        n := n - 1;
        if signals[n].taken && signals[n].contract == contract && !HasRow(rows, n) {
          return Some(n);
        }
      }
      return None;
    }

    method AdoptPosition(a: Adoption)
      modifies this`positions
      ensures View() == Adopted(old(View()), a, cfg)
    {
      var found := FindTakenSignal(a.contract);
      if found.None? {
        return;
      }
      var sig := found.value;
      var stop: Option<nat> := None;
      if a.stop.Some? {
        var id := a.stop.value;
        if id < |orders| && orders[id].kind.StopSell? && orders[id].status == Live
           && orders[id].owner < |signals| && signals[orders[id].owner].contract == a.contract {
          stop := Some(id);
        }
      }
      var stopPrice := InitialStop(a.entryPrice, cfg);
      var onBook := StopOnBook(orders, stop);
      if !a.readRaises && onBook.Some? {
        stopPrice := onBook.value;
      }
      var position := S.Position(a.entryPrice, a.qty, signals[sig].receivedAt, a.contract.expiration,
                                 cfg.stopLossPct, stopPrice, 0.0, 0);
      positions := positions[sig := Record(a.contract, a.qty, a.entryPrice, position, stop, false, None)];
    }
  }
}
