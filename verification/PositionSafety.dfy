/** The trades table over all runs of the options book: at most one row per signal, exactly one
    per closed position while the journal answers, and at most one pending close request. */
module PositionSafety {
  import opened Prelude
  import opened PositionBook

  // ---- At most one trades row --------------------------------------------------------

  /** A signal with a trades row is not open; rows carry distinct, issued signals; the tick
      thread is only ever inside an open position. */
  ghost predicate Inv(s: State) {
    && (forall k <- s.open :: k < |s.signals|)
    && (forall i | 0 <= i < |s.rows| :: s.rows[i].signal < |s.signals| && s.rows[i].signal !in s.open)
    && (forall i, j | 0 <= i < j < |s.rows| :: s.rows[i].signal != s.rows[j].signal)
    && (!s.phase.Idle? ==> s.phase.signal in s.open)
  }

  lemma PostKeepsInv(s: State, e: Event, cfg: Config)
    requires Inv(s) && s.phase.Idle? && e.Post?
    ensures Inv(HandlePost(s, e, cfg))
  {}

  lemma ExternallyClosedKeepsInv(s: State, sig: nat, price: real, reason: Reason, reply: JournalReply)
    requires Inv(s) && sig in s.open
    ensures Inv(ExternallyClosed(s, sig, price, reason, reply).(phase := Idle))
    ensures s.phase.Idle? ==> Inv(ExternallyClosed(s, sig, price, reason, reply))
  {}

  lemma ClosedKeepsInv(s: State, sig: nat, reason: S.ExitReason, nominal: real, env: CloseEnv)
    requires Inv(s) && sig in s.open
    ensures Inv(Closed(s, sig, reason, nominal, env).(phase := Idle))
  {}

  /** Same keys, tables and phase; the records and orders may differ. */
  ghost predicate SameBooks(s: State, t: State) {
    t.open.Keys == s.open.Keys && t.rows == s.rows && |t.signals| == |s.signals| && t.phase == s.phase
  }

  lemma SameBooksKeepInv(s: State, t: State)
    requires Inv(s) && SameBooks(s, t)
    ensures Inv(t)
  {
    forall k ensures k in t.open <==> k in s.open {
      assert k in t.open.Keys <==> k in s.open.Keys;
    }
  }

  lemma RequestingKeepsInv(s: State, e: Event)
    requires Inv(s) && (e.ApiFlag? || e.ApiPut?)
    ensures Inv(Requesting(s, e))
  {
    SameBooksKeepInv(s, Requesting(s, e));
  }

  lemma DrainedKeepsInv(s: State, e: Event)
    requires Inv(s) && e.DrainRequest?
    ensures Inv(Drained(s, e))
  {
    SameBooksKeepInv(s, Drained(s, e));
  }

  lemma PolledKeepsInv(s: State, e: Event)
    requires Inv(s) && e.PollManual?
    ensures Inv(Polled(s, e))
  {
    if s.phase.Idle? && e.sig in s.open {
      var price := FillPrice(s.orders, s.open[e.sig].manualOrder);
      if price.Some? {
        ExternallyClosedKeepsInv(s, e.sig, price.value, ManualClose, e.journal);
      }
    }
  }

  lemma ReconciledKeepsInv(s: State, e: Event)
    requires Inv(s) && e.Reconcile?
    ensures Inv(Reconciled(s, e))
  {
    if s.phase.Idle? && e.sig in s.open {
      var r := s.open[e.sig];
      var manual, stop := FillPrice(s.orders, r.manualOrder), FillPrice(s.orders, r.stopOrder);
      if manual.Some? {
        ExternallyClosedKeepsInv(s, e.sig, manual.value, ManualClose, e.journal);
      }
      if stop.Some? {
        ExternallyClosedKeepsInv(s, e.sig, stop.value, Exit(S.StopLoss), e.journal);
      }
      ExternallyClosedKeepsInv(s, e.sig, r.entryPrice, ExternalClose, e.journal);
    }
  }

  /** At most the pointed-to stop is cleared and one new stop appended. */
  ghost predicate MovesStop(s: State, t: State) {
    && |s.orders| <= |t.orders| <= |s.orders| + 1
    && (forall i | 0 <= i < |s.orders| ::
          t.orders[i] == s.orders[i] || (s.orders[i].status == Live && t.orders[i] == s.orders[i].(status := Dead)))
    && (forall i | |s.orders| <= i < |t.orders| :: t.orders[i].kind.StopSell?)
  }

  /** An advance retracks its record; what follows is at most a close. */
  lemma PushedShape(s: State, sig: nat, e: Event)
    requires e.FinishAdvance? && sig in s.open && Verdict(s.open[sig], e).Ok?
    ensures var mid := Pushed(s, sig, e);
            && SameBooks(s, mid) && MovesStop(s, mid) && sig in mid.open
            && mid == s.(orders := mid.orders, open := s.open[sig := mid.open[sig]])
            && SameButStop(s.open[sig], mid.open[sig])
  {
    var evaluated := Evaluated(s, sig, Verdict(s.open[sig], e).value.position);
    if PushesStop(s, sig, e) {
      RestoppedShape(evaluated, sig, evaluated.open[sig].position.stopPrice, e.push);
    }
  }

  /** Only the position and the pointed-to stop may differ. */
  ghost predicate SameButStop(a: Record, b: Record) {
    b == a.(position := b.position, stopOrder := b.stopOrder)
  }

  lemma RestoppedShape(s: State, sig: nat, newStop: real, fate: ModifyFate)
    requires sig in s.open && s.open[sig].stopOrder.Some?
    ensures var t := Restopped(s, sig, newStop, fate);
            && t.open.Keys == s.open.Keys && MovesStop(s, t) && SameButStop(s.open[sig], t.open[sig])
            && t == s.(orders := t.orders, open := s.open[sig := t.open[sig]])
  {
    var t := Restopped(s, sig, newStop, fate);
    assert s.open[sig := s.open[sig]] == s.open;
  }

  /** Managed is either a retracking of the record or that followed by a close. */
  lemma ManagedShape(s: State, sig: nat, e: Event) returns (mid: State)
    requires e.FinishAdvance? && sig in s.open
    ensures SameBooks(s, mid) && MovesStop(s, mid) && sig in mid.open
    ensures mid == s.(orders := mid.orders, open := s.open[sig := mid.open[sig]])
    ensures SameButStop(s.open[sig], mid.open[sig])
    ensures Managed(s, sig, e) == mid || (e.quote.Some? && exists reason ::
              Managed(s, sig, e) == Closed(mid, sig, reason, e.quote.value, e.env))
  {
    mid := s;
    assert s.open[sig := s.open[sig]] == s.open;
    if Verdict(s.open[sig], e).Ok? {
      PushedShape(s, sig, e);
      mid := Pushed(s, sig, e);
    }
  }

  lemma AdvancedKeepsInv(s: State, e: Event)
    requires Inv(s) && (e.StartAdvance? || e.ReadStop? || e.FinishAdvance?)
    ensures Inv(Advanced(s, e))
  {
    match e
    case StartAdvance(_) =>
    case ReadStop(_, journal) =>
      if s.phase.Checked? {
        var sig := s.phase.signal;
        var price := FillPrice(s.orders, s.open[sig].stopOrder);
        if price.Some? {
          ExternallyClosedKeepsInv(s, sig, price.value, Exit(S.StopLoss), journal);
        }
      }
    case FinishAdvance(quote, _, _, _, env) =>
      if s.phase.Quoted? {
        var sig := s.phase.signal;
        var mid := ManagedShape(s, sig, e);
        SameBooksKeepInv(s, mid);
        if Managed(s, sig, e) != mid {
          var reason :| Managed(s, sig, e) == Closed(mid, sig, reason, quote.value, env);
          ClosedKeepsInv(mid, sig, reason, quote.value, env);
        }
      }
  }

  lemma {:induction false} AdoptedAllKeepsInv(s: State, adoptions: seq<Adoption>, cfg: Config)
    requires Inv(s) && s.phase.Idle?
    ensures Inv(AdoptedAll(s, adoptions, cfg)) && AdoptedAll(s, adoptions, cfg).phase.Idle?
    ensures AdoptedAll(s, adoptions, cfg).rows == s.rows
  {
    if adoptions != [] {
      AdoptedAllKeepsInv(s, adoptions[..|adoptions| - 1], cfg);
      AdoptedKeepsInv(AdoptedAll(s, adoptions[..|adoptions| - 1], cfg), adoptions[|adoptions| - 1], cfg);
    }
  }

  lemma AdoptedKeepsInv(s: State, a: Adoption, cfg: Config)
    requires Inv(s) && s.phase.Idle?
    ensures Inv(Adopted(s, a, cfg))
  {
    var origin := LatestTaken(s, a.contract, |s.signals|);
    if origin.Some? {
      assert !HasRow(s.rows, origin.value);
    }
  }

  /** Every step keeps the invariant: any call may raise, the process may restart. */
  lemma StepKeepsInv(s: State, e: Event, cfg: Config)
    requires Inv(s)
    ensures Inv(Step(s, e, cfg))
  {
    match e
    case Post(_, _, _, _, _, _) =>
      if s.phase.Idle? {
        PostKeepsInv(s, e, cfg);
      }
    case ApiFlag(_) => RequestingKeepsInv(s, e);
    case ApiPut(_) => RequestingKeepsInv(s, e);
    case DrainRequest(_, _) => DrainedKeepsInv(s, e);
    case PollManual(_, _, _) => PolledKeepsInv(s, e);
    case StartAdvance(_) => AdvancedKeepsInv(s, e);
    case ReadStop(_, _) => AdvancedKeepsInv(s, e);
    case FinishAdvance(_, _, _, _, _) => AdvancedKeepsInv(s, e);
    case Reconcile(_, _, _) => ReconciledKeepsInv(s, e);
    case Flatten(sig, env) =>
      if s.phase.Idle? && sig in s.open {
        ClosedKeepsInv(s, sig, S.TimeStop1555, s.open[sig].entryPrice, env);
        assert Closed(s, sig, S.TimeStop1555, s.open[sig].entryPrice, env).phase == Idle;
      }
    case BrokerFills(id, price) => SameBooksKeepInv(s, Broker(s, id, Filled(price)));
    case BrokerKills(id) => SameBooksKeepInv(s, Broker(s, id, Dead));
    case Restart(adoptions) => AdoptedAllKeepsInv(Crashed(s), adoptions, cfg);
  }

  lemma {:induction false} RunKeepsInv(s: State, es: seq<Event>, cfg: Config)
    requires Inv(s)
    ensures Inv(Run(s, es, cfg))
  {
    if es != [] {
      RunKeepsInv(s, es[..|es| - 1], cfg);
      StepKeepsInv(Run(s, es[..|es| - 1], cfg), es[|es| - 1], cfg);
    }
  }

  /** Main result: although the table has no unique key, over every run, with any broker or
      database call raising and restarts at any point, no signal gets two trades rows. */
  lemma AtMostOneRowPerSignal(es: seq<Event>, cfg: Config, i: nat, j: nat)
    requires i < j < |Run(EMPTY, es, cfg).rows|
    ensures Run(EMPTY, es, cfg).rows[i].signal != Run(EMPTY, es, cfg).rows[j].signal
  {
    RunKeepsInv(EMPTY, es, cfg);
  }

  // ---- The concurrent-positions cap -------------------------------------------------------

  lemma SubsetIsSmaller(a: set<nat>, b: set<nat>)
    requires a <= b
    ensures |a| <= |b|
  {
    assert b == a + (b - a);
  }

  /** Only a post opens a position, and only below the cap. */
  lemma StepKeepsCap(s: State, e: Event, cfg: Config)
    requires Inv(s) && !e.Restart?
    ensures |Step(s, e, cfg).open| <= MaxInt(|s.open|, cfg.maxConcurrent)
  {
    var t := Step(s, e, cfg);
    if e.Post? {
      assert t.open.Keys <= s.open.Keys + {|s.signals|};
      SubsetIsSmaller(t.open.Keys, s.open.Keys + {|s.signals|});
    } else {
      OnlyPostsOpen(s, e, cfg);
      SubsetIsSmaller(t.open.Keys, s.open.Keys);
    }
  }

  lemma OnlyPostsOpen(s: State, e: Event, cfg: Config)
    requires Inv(s) && !e.Restart? && !e.Post?
    ensures Step(s, e, cfg).open.Keys <= s.open.Keys
  {
    if e.FinishAdvance? && s.phase.Quoted? {
      var mid := ManagedShape(s, s.phase.signal, e);
      assert Managed(s, s.phase.signal, e).open.Keys <= mid.open.Keys;
    }
  }

  /** While a process lives the options book never grows beyond the cap. */
  lemma {:induction false} BookStaysWithinCap(s: State, es: seq<Event>, cfg: Config)
    requires Inv(s) && |s.open| <= cfg.maxConcurrent
    requires forall i | 0 <= i < |es| :: !es[i].Restart?
    ensures |Run(s, es, cfg).open| <= cfg.maxConcurrent
  {
    if es != [] {
      BookStaysWithinCap(s, es[..|es| - 1], cfg);
      RunKeepsInv(s, es[..|es| - 1], cfg);
      StepKeepsCap(Run(s, es[..|es| - 1], cfg), es[|es| - 1], cfg);
    }
  }

  // ---- Exactly one row while the journal answers ---------------------------------------

  ghost predicate IsRowOf(row: Row, sig: nat, entry: real, qty: int) {
    row.signal == sig && row.entryPrice == entry && row.qty == qty
  }

  /** The position is open with this entry and size, or its row says so. */
  ghost predicate Accounted(s: State, sig: nat, entry: real, qty: int) {
    || (sig in s.open && s.open[sig].entryPrice == entry && s.open[sig].qty == qty)
    || exists i | 0 <= i < |s.rows| :: IsRowOf(s.rows[i], sig, entry, qty)
  }

  /** The journal answers every external close, and the process lives on. */
  predicate Answered(e: Event) {
    match e
    case PollManual(_, _, journal) => journal.Written?
    case ReadStop(_, journal) => journal.Written?
    case Reconcile(_, _, journal) => journal.Written?
    case Restart(_) => false
    case _ => true
  }

  lemma NoRowWhileOpen(s: State, sig: nat)
    requires Inv(s) && sig in s.open
    ensures !HasRow(s.rows, sig)
  {}

  /** Exactly when an external close leaves a row: the journal must take both calls. In the
      other cases the position is forgotten without one. */
  lemma ExternalCloseIsBookedIff(s: State, sig: nat, price: real, reason: Reason, reply: JournalReply)
    requires Inv(s) && sig in s.open
    ensures var t := ExternallyClosed(s, sig, price, reason, reply);
            sig !in t.open && (HasRow(t.rows, sig) <==> reply.Written?)
  {
    NoRowWhileOpen(s, sig);
    var t := ExternallyClosed(s, sig, price, reason, reply);
    if reply.Written? {
      assert t.rows[|s.rows|].signal == sig;
    }
  }

  lemma RowsStay(s: State, t: State, sig: nat, entry: real, qty: int)
    requires Accounted(s, sig, entry, qty) && s.rows <= t.rows
    requires sig in s.open ==> sig in t.open && t.open[sig].entryPrice == s.open[sig].entryPrice && t.open[sig].qty == s.open[sig].qty
    ensures Accounted(t, sig, entry, qty)
  {
    if !(sig in s.open && s.open[sig].entryPrice == entry && s.open[sig].qty == qty) {
      var i :| 0 <= i < |s.rows| && IsRowOf(s.rows[i], sig, entry, qty);
      assert t.rows[i] == s.rows[i];
    }
  }

  lemma ExternallyClosedAccounts(
    s: State, at: nat, price: real, reason: Reason, reply: JournalReply, sig: nat, entry: real, qty: int)
    requires Inv(s) && at in s.open && reply.Written? && Accounted(s, sig, entry, qty)
    ensures Accounted(ExternallyClosed(s, at, price, reason, reply), sig, entry, qty)
  {
    var t := ExternallyClosed(s, at, price, reason, reply);
    NoRowWhileOpen(s, at);
    if sig == at {
      assert IsRowOf(t.rows[|s.rows|], sig, entry, qty);
    } else {
      RowsStay(s, t, sig, entry, qty);
    }
  }

  lemma ClosedAccounts(
    s: State, at: nat, reason: S.ExitReason, nominal: real, env: CloseEnv, sig: nat, entry: real, qty: int)
    requires Inv(s) && at in s.open && Accounted(s, sig, entry, qty)
    ensures Accounted(Closed(s, at, reason, nominal, env), sig, entry, qty)
  {
    var t := Closed(s, at, reason, nominal, env);
    NoRowWhileOpen(s, at);
    if sig == at && env.sell.SellBooked? {
      assert IsRowOf(t.rows[|s.rows|], sig, entry, qty);
    } else {
      RowsStay(s, t, sig, entry, qty);
    }
  }

  lemma PolledOrReconciledAccounts(s: State, e: Event, sig: nat, entry: real, qty: int)
    requires Inv(s) && (e.PollManual? || e.Reconcile?) && Answered(e) && Accounted(s, sig, entry, qty)
    ensures Accounted(if e.PollManual? then Polled(s, e) else Reconciled(s, e), sig, entry, qty)
  {
    if e.sig in s.open {
      var r := s.open[e.sig];
      var manual, stop := FillPrice(s.orders, r.manualOrder), FillPrice(s.orders, r.stopOrder);
      if manual.Some? {
        ExternallyClosedAccounts(s, e.sig, manual.value, ManualClose, e.journal, sig, entry, qty);
      }
      if stop.Some? {
        ExternallyClosedAccounts(s, e.sig, stop.value, Exit(S.StopLoss), e.journal, sig, entry, qty);
      }
      ExternallyClosedAccounts(s, e.sig, r.entryPrice, ExternalClose, e.journal, sig, entry, qty);
    }
  }

  lemma AdvancedAccounts(s: State, e: Event, sig: nat, entry: real, qty: int)
    requires Inv(s) && (e.ReadStop? || e.FinishAdvance?) && Answered(e) && Accounted(s, sig, entry, qty)
    ensures Accounted(Advanced(s, e), sig, entry, qty)
  {
    if e.ReadStop? && s.phase.Checked? {
      var at := s.phase.signal;
      var price := FillPrice(s.orders, s.open[at].stopOrder);
      if price.Some? {
        ExternallyClosedAccounts(s, at, price.value, Exit(S.StopLoss), e.journal, sig, entry, qty);
      }
    }
    if e.FinishAdvance? && s.phase.Quoted? {
      var at := s.phase.signal;
      var mid := ManagedShape(s, at, e);
      SameBooksKeepInv(s, mid);
      RowsStay(s, mid, sig, entry, qty);
      if Managed(s, at, e) != mid {
        var reason :| Managed(s, at, e) == Closed(mid, at, reason, e.quote.value, e.env);
        ClosedAccounts(mid, at, reason, e.quote.value, e.env, sig, entry, qty);
      }
    }
  }

  lemma StepAccounts(s: State, e: Event, cfg: Config, sig: nat, entry: real, qty: int)
    requires Inv(s) && Answered(e) && Accounted(s, sig, entry, qty)
    ensures Accounted(Step(s, e, cfg), sig, entry, qty)
  {
    match e
    case PollManual(_, _, _) => PolledOrReconciledAccounts(s, e, sig, entry, qty);
    case Reconcile(_, _, _) => PolledOrReconciledAccounts(s, e, sig, entry, qty);
    case ReadStop(_, _) => AdvancedAccounts(s, e, sig, entry, qty);
    case FinishAdvance(_, _, _, _, _) => AdvancedAccounts(s, e, sig, entry, qty);
    case Flatten(at, env) =>
      if s.phase.Idle? && at in s.open {
        ClosedAccounts(s, at, S.TimeStop1555, s.open[at].entryPrice, env, sig, entry, qty);
      }
    case DrainRequest(_, _) => RowsStay(s, Drained(s, e), sig, entry, qty);
    case _ => RowsStay(s, Step(s, e, cfg), sig, entry, qty);
  }

  lemma {:induction false} RunAccounts(s: State, es: seq<Event>, cfg: Config, sig: nat, entry: real, qty: int)
    requires Inv(s) && Accounted(s, sig, entry, qty) && forall i | 0 <= i < |es| :: Answered(es[i])
    ensures Accounted(Run(s, es, cfg), sig, entry, qty)
  {
    if es != [] {
      RunAccounts(s, es[..|es| - 1], cfg, sig, entry, qty);
      RunKeepsInv(s, es[..|es| - 1], cfg);
      StepAccounts(Run(s, es[..|es| - 1], cfg), es[|es| - 1], cfg, sig, entry, qty);
    }
  }

  /** Either open and unbooked, or closed with exactly one row, which tells entry and size. */
  ghost predicate OpenOrBooked(s: State, sig: nat, entry: real, qty: int) {
    && (sig in s.open <==> !HasRow(s.rows, sig))
    && (HasRow(s.rows, sig) ==>
          exists i | 0 <= i < |s.rows| :: IsRowOf(s.rows[i], sig, entry, qty) && OnlyRow(s.rows, i, sig))
  }

  ghost predicate OnlyRow(rows: seq<Row>, i: int, sig: nat) {
    forall j | 0 <= j < |rows| && j != i :: rows[j].signal != sig
  }

  /** Main result: while the process lives and the journal answers external closes, a position
      that is open after some run is later either still open and unbooked, or closed with
      exactly one row, which carries its entry price and size. Broker calls and the close path
      may fail in any way. */
  lemma OpenOrBookedOnce(past: seq<Event>, es: seq<Event>, cfg: Config, sig: nat)
    requires forall i | 0 <= i < |es| :: Answered(es[i])
    ensures var s := Run(EMPTY, past, cfg);
            sig in s.open ==> OpenOrBooked(Run(s, es, cfg), sig, s.open[sig].entryPrice, s.open[sig].qty)
  {
    var s := Run(EMPTY, past, cfg);
    if sig in s.open {
      var r, t := s.open[sig], Run(s, es, cfg);
      RunKeepsInv(EMPTY, past, cfg);
      RunKeepsInv(s, es, cfg);
      RunAccounts(s, es, cfg, sig, r.entryPrice, r.qty);
      if sig in t.open {
        NoRowWhileOpen(t, sig);
      } else {
        var i :| 0 <= i < |t.rows| && IsRowOf(t.rows[i], sig, r.entryPrice, r.qty);
        assert OnlyRow(t.rows, i, sig);
      }
    }
  }

  // ---- At most one pending request ---------------------------------------------------------

  /** Close requests on their way: flagged but not yet queued, or queued. */
  function Pending(s: State, sig: nat): nat {
    s.puts[sig] + multiset(s.queue)[sig]
  }

  ghost predicate Flagged(s: State, sig: nat)
    requires sig in s.open
  {
    s.open[sig].closing && s.open[sig].manualOrder.None?
  }

  /** At most one request per signal; an open position waits for a request exactly when it is
      flagged without a sell. */
  ghost predicate Requests(s: State) {
    && (forall sig: nat :: Pending(s, sig) <= 1)
    && (forall sig: nat :: Pending(s, sig) == 1 ==> sig < |s.signals|)
    && (forall sig <- s.open :: Pending(s, sig) == 1 <==> Flagged(s, sig))
    && (forall sig <- s.open :: s.open[sig].manualOrder.Some? ==> s.open[sig].closing)
    && Attended(s)
  }

  /** The position the tick thread is inside has no manual sell. */
  ghost predicate Attended(s: State) {
    !s.phase.Idle? && s.phase.signal in s.open ==> s.open[s.phase.signal].manualOrder.None?
  }

  /** Positions may disappear or be re-tracked, but no flag, sell or request changes. */
  ghost predicate SameRequests(s: State, t: State) {
    && t.puts == s.puts && t.queue == s.queue && |s.signals| <= |t.signals|
    && (forall k <- t.open :: k in s.open || (|s.signals| <= k && !t.open[k].closing && t.open[k].manualOrder.None?))
    && (forall k <- t.open :: k in s.open ==>
          t.open[k].closing == s.open[k].closing && t.open[k].manualOrder == s.open[k].manualOrder)
    && (!t.phase.Idle? ==> !s.phase.Idle? && t.phase.signal == s.phase.signal)
  }

  lemma SameRequestsKeepRequests(s: State, t: State)
    requires Requests(s) && SameRequests(s, t)
    ensures Requests(t)
  {
    forall sig: nat ensures Pending(t, sig) == Pending(s, sig) {}
    forall k <- t.open ensures Pending(t, k) == 1 <==> Flagged(t, k) {
      if k !in s.open {
        assert Pending(s, k) == 1 ==> k < |s.signals|;
      }
    }
  }

  lemma FlagKeepsRequests(s: State, sig: nat)
    requires Inv(s) && Requests(s) && sig in s.open && !s.open[sig].closing
    ensures Requests(Requesting(s, ApiFlag(sig)))
  {
    var t := Requesting(s, ApiFlag(sig));
    assert !Flagged(s, sig);
    forall k: nat ensures Pending(t, k) == Pending(s, k) + if k == sig then 1 else 0 {}
    forall k <- t.open ensures Pending(t, k) == 1 <==> Flagged(t, k) {
      assert k in s.open;
      assert k != sig ==> (Flagged(t, k) <==> Flagged(s, k));
    }
  }

  /** Moving a request from its API thread to the queue neither loses nor duplicates it. */
  lemma PutKeepsRequests(s: State, sig: nat)
    requires Requests(s)
    ensures Requests(Requesting(s, ApiPut(sig)))
    ensures forall k: nat :: Pending(Requesting(s, ApiPut(sig)), k) == Pending(s, k)
    ensures Requesting(s, ApiPut(sig)).puts[sig] == 0
  {
    assert Pending(s, sig) <= 1;
    var t := Requesting(s, ApiPut(sig));
    forall k: nat ensures Pending(t, k) == Pending(s, k) {
      assert multiset(s.queue + [sig])[k] == multiset(s.queue)[k] + multiset{sig}[k];
    }
    forall k <- t.open ensures Pending(t, k) == 1 <==> Flagged(t, k) {
      assert Flagged(t, k) <==> Flagged(s, k);
    }
  }

  lemma PopDropsOnePending(s: State, k: nat)
    requires s.queue != []
    ensures Pending(s.(queue := s.queue[1..]), k) == Pending(s, k) - if k == s.queue[0] then 1 else 0
  {
    assert s.queue == [s.queue[0]] + s.queue[1..];
    assert multiset(s.queue)[k] == multiset{s.queue[0]}[k] + multiset(s.queue[1..])[k];
  }

  /** What handling the oldest request does to the record it names. */
  lemma RequestedSettles(s: State, sig: nat, takes: bool, manual: ManualFate)
    requires sig in s.open && s.open[sig].closing
    ensures var t := Requested(s, sig, takes, manual);
            && t == s.(orders := t.orders, open := s.open[sig := t.open[sig]])
            && (t.open[sig].manualOrder.Some? <==> t.open[sig].closing)
  {}

  lemma DrainKeepsRequests(s: State, e: Event)
    requires Inv(s) && Requests(s) && e.DrainRequest?
    ensures Requests(Drained(s, e))
  {
    var t := Drained(s, e);
    if s.phase.Idle? && s.queue != [] {
      var sig, popped := s.queue[0], s.(queue := s.queue[1..]);
      forall k: nat ensures Pending(t, k) == Pending(s, k) - if k == sig then 1 else 0 {
        PopDropsOnePending(s, k);
      }
      assert Pending(s, sig) == 1 && Pending(t, sig) == 0;
      if sig in s.open {
        assert Flagged(s, sig);
        RequestedSettles(popped, sig, e.cancelTakes, e.manual);
      }
      forall k <- t.open ensures Pending(t, k) == 1 <==> Flagged(t, k) {
        assert Pending(s, k) == 1 <==> Flagged(s, k);
      }
    }
  }

  lemma StartKeepsRequests(s: State, sig: nat)
    requires Inv(s) && Requests(s) && sig in s.open && !s.open[sig].closing
    ensures Requests(s.(phase := Checked(sig)))
  {
    forall k: nat ensures Pending(s.(phase := Checked(sig)), k) == Pending(s, k) {}
  }

  lemma ManagedKeepsRequests(s: State, sig: nat, e: Event)
    requires Inv(s) && Requests(s) && e.FinishAdvance? && sig in s.open
    ensures Requests(Managed(s, sig, e).(phase := Idle))
  {
    var mid := ManagedShape(s, sig, e);
    SameRequestsKeepRequests(s, Managed(s, sig, e).(phase := Idle));
  }

  lemma AdvancedKeepsRequests(s: State, e: Event)
    requires Inv(s) && Requests(s) && (e.StartAdvance? || e.ReadStop? || e.FinishAdvance?)
    ensures Requests(Advanced(s, e))
  {
    match e
    case StartAdvance(sig) =>
      if sig in s.open && !s.open[sig].closing {
        StartKeepsRequests(s, sig);
      }
    case ReadStop(_, _) => SameRequestsKeepRequests(s, Advanced(s, e));
    case FinishAdvance(_, _, _, _, _) =>
      if s.phase.Quoted? {
        ManagedKeepsRequests(s, s.phase.signal, e);
      }
  }

  lemma {:induction false} AdoptionsRequestNothing(s: State, adoptions: seq<Adoption>, cfg: Config)
    requires s.puts == multiset{} && s.queue == []
    requires forall k <- s.open :: !s.open[k].closing && s.open[k].manualOrder.None?
    ensures var t := AdoptedAll(s, adoptions, cfg);
            && t.puts == multiset{} && t.queue == [] && t.phase == s.phase
            && forall k <- t.open :: !t.open[k].closing && t.open[k].manualOrder.None?
  {
    if adoptions != [] {
      AdoptionsRequestNothing(s, adoptions[..|adoptions| - 1], cfg);
    }
  }

  lemma PostKeepsRequests(s: State, e: Event, cfg: Config)
    requires Inv(s) && Requests(s) && e.Post?
    ensures Requests(HandlePost(s, e, cfg))
  {
    SameRequestsKeepRequests(s, HandlePost(s, e, cfg));
  }

  lemma ClosingKeepsRequests(s: State, e: Event)
    requires Requests(s) && (e.PollManual? || e.Reconcile?)
    ensures Requests(if e.PollManual? then Polled(s, e) else Reconciled(s, e))
  {
    SameRequestsKeepRequests(s, if e.PollManual? then Polled(s, e) else Reconciled(s, e));
  }

  lemma RestartKeepsRequests(s: State, adoptions: seq<Adoption>, cfg: Config)
    ensures Requests(AdoptedAll(Crashed(s), adoptions, cfg))
  {
    AdoptionsRequestNothing(Crashed(s), adoptions, cfg);
    forall k: nat ensures Pending(AdoptedAll(Crashed(s), adoptions, cfg), k) == 0 {}
  }

  lemma FlattenKeepsRequests(s: State, e: Event, cfg: Config)
    requires Inv(s) && Requests(s) && e.Flatten?
    ensures Requests(Step(s, e, cfg))
  {
    SameRequestsKeepRequests(s, Step(s, e, cfg));
  }

  lemma BrokerKeepsRequests(s: State, id: nat, status: Status)
    requires Requests(s)
    ensures Requests(Broker(s, id, status))
  {
    SameRequestsKeepRequests(s, Broker(s, id, status));
  }

  lemma StepKeepsRequests(s: State, e: Event, cfg: Config)
    requires Inv(s) && Requests(s)
    ensures Requests(Step(s, e, cfg))
  {
    match e
    case Post(_, _, _, _, _, _) => PostKeepsRequests(s, e, cfg);
    case ApiFlag(sig) =>
      if sig in s.open && !s.open[sig].closing {
        FlagKeepsRequests(s, sig);
      }
    case ApiPut(sig) => PutKeepsRequests(s, sig);
    case DrainRequest(_, _) => DrainKeepsRequests(s, e);
    case PollManual(_, _, _) => ClosingKeepsRequests(s, e);
    case StartAdvance(_) => AdvancedKeepsRequests(s, e);
    case ReadStop(_, _) => AdvancedKeepsRequests(s, e);
    case FinishAdvance(_, _, _, _, _) => AdvancedKeepsRequests(s, e);
    case Reconcile(_, _, _) => ClosingKeepsRequests(s, e);
    case Flatten(_, _) => FlattenKeepsRequests(s, e, cfg);
    case BrokerFills(id, price) => BrokerKeepsRequests(s, id, Filled(price));
    case BrokerKills(id) => BrokerKeepsRequests(s, id, Dead);
    case Restart(adoptions) => RestartKeepsRequests(s, adoptions, cfg);
  }

  lemma {:induction false} RunKeepsRequests(s: State, es: seq<Event>, cfg: Config)
    requires Inv(s) && Requests(s)
    ensures Inv(Run(s, es, cfg)) && Requests(Run(s, es, cfg))
  {
    if es != [] {
      var init := Run(s, es[..|es| - 1], cfg);
      RunKeepsRequests(s, es[..|es| - 1], cfg);
      StepKeepsInv(init, es[|es| - 1], cfg);
      StepKeepsRequests(init, es[|es| - 1], cfg);
    }
  }

  /** Main result: for every interleaving of "Sell now" with the tick thread, under any failure
      and across restarts, a signal never has two requests on their way, and an open position
      that is flagged but has no sell order always still has its request on the way. */
  lemma AtMostOnePendingRequest(es: seq<Event>, cfg: Config, sig: nat)
    ensures var s := Run(EMPTY, es, cfg);
            && Pending(s, sig) <= 1
            && (sig in s.open ==> (Pending(s, sig) == 1 <==> s.open[sig].closing && s.open[sig].manualOrder.None?))
  {
    RunKeepsRequests(EMPTY, es, cfg);
    var s := Run(EMPTY, es, cfg);
    if sig in s.open {
      assert Pending(s, sig) == 1 <==> Flagged(s, sig);
    }
  }
}
