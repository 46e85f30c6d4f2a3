/** Stops and covers of the scanner book: exactly which steps keep every stop that is not dead in
    sight of its record and apart from a cover. */
module ScannerStops {
  import opened Prelude
  import opened ScannerBook
  import opened ScannerSafety
  import opened ScannerOrders

  /** The key's short sale filled for exactly this many shares. */
  ghost predicate SoldAs(s: State, base: nat, k: Key, qty: int) {
    qty > 0 && exists j | base <= j :: Is(s, j, ShortSell, k) && s.orders[j].status.Filled? && s.orders[j].qty == qty
  }

  ghost predicate StopsDead(s: State, base: nat, k: Key) {
    forall j | base <= j :: Is(s, j, StopBuy, k) ==> s.orders[j].status == Dead
  }

  /** Counting from order base on: one stop per key, dead once the key has a cover, and every
      record points at its stop until it is dead; orders are for the shares sold. */
  ghost predicate Stops(s: State, base: nat) {
    && (forall i, j, k | base <= i < j && Is(s, i, StopBuy, k) :: !Is(s, j, StopBuy, k))
    && (forall i, k | base <= i && Is(s, i, Cover, k) :: StopsDead(s, base, k))
    && (forall t <- s.book :: StopOf(s, base, t))
    && (forall i | base <= i < |s.orders| && !s.orders[i].kind.ShortSell? ::
          SoldAs(s, base, s.orders[i].key, s.orders[i].qty))
    && (forall i | base <= i < |s.orders| :: s.orders[i].qty > 0)
  }

  ghost predicate StopOf(s: State, base: nat, t: string)
    requires t in s.book
  {
    var r := s.book[t];
    && SoldAs(s, base, r.key, r.qty)
    && if r.stopOrder.Some? then r.stopOrder.value >= base && Is(s, r.stopOrder.value, StopBuy, r.key) && r.exitOrder.None?
       else StopsDead(s, base, r.key)
  }

  /** Orders keep their identity, filled and dead ones their status, and none is added. */
  ghost predicate Settling(s: State, t: State) {
    && |t.orders| == |s.orders|
    && (forall i | 0 <= i < |s.orders| ::
          && t.orders[i] == s.orders[i].(status := t.orders[i].status)
          && (s.orders[i].status != Live ==> t.orders[i].status == s.orders[i].status))
  }

  lemma SettlingKeepsFacts(s: State, t: State, base: nat)
    requires Settling(s, t)
    ensures forall i, kind, k :: Is(t, i, kind, k) <==> Is(s, i, kind, k)
    ensures forall k, qty :: SoldAs(s, base, k, qty) ==> SoldAs(t, base, k, qty)
    ensures forall k :: StopsDead(s, base, k) ==> StopsDead(t, base, k)
  {
    forall k, qty | SoldAs(s, base, k, qty) ensures SoldAs(t, base, k, qty) {
      var j :| base <= j && Is(s, j, ShortSell, k) && s.orders[j].status.Filled? && s.orders[j].qty == qty;
      assert Is(t, j, ShortSell, k);
    }
  }

  lemma SettlingKeepsStops(s: State, t: State, base: nat)
    requires Stops(s, base) && Settling(s, t)
    requires t.book.Keys <= s.book.Keys && forall u <- t.book :: t.book[u] == s.book[u]
    ensures Stops(t, base)
  {
    SettlingKeepsFacts(s, t, base);
    forall u <- t.book ensures StopOf(t, base, u) {
      assert StopOf(s, base, u);
    }
    forall i | base <= i < |t.orders| && !t.orders[i].kind.ShortSell?
      ensures SoldAs(t, base, t.orders[i].key, t.orders[i].qty)
    {
      assert SoldAs(s, base, s.orders[i].key, s.orders[i].qty);
    }
  }

  lemma BookedKeepsStops(s: State, ticker: string, price: real, reason: Reason, order: nat, raises: bool, base: nat)
    requires Stops(s, base) && ticker in s.book
    ensures Stops(Booked(s, ticker, price, reason, order, raises), base)
  {
    SettlingKeepsStops(s, Booked(s, ticker, price, reason, order, raises), base);
  }

  /** A cancel request leaves nothing of the stop: there is none, it is dead already, or it is
      live and the cancel takes effect. */
  predicate Clears(orders: seq<Order>, id: Option<nat>, takes: bool) {
    id.None? || id.value >= |orders| || orders[id.value].status == Dead
    || (orders[id.value].status == Live && takes)
  }

  /** Cancelling the stop effectively leaves no stop of the key alive. */
  lemma UnprotectKillsStops(s: State, ticker: string, takes: bool, base: nat)
    requires Stops(s, base) && ticker in s.book && Clears(s.orders, s.book[ticker].stopOrder, takes)
    ensures StopsDead(Unprotect(s, ticker, takes), base, s.book[ticker].key)
  {
    var t, r := Unprotect(s, ticker, takes), s.book[ticker];
    assert StopOf(s, base, ticker);
    forall j | base <= j && Is(t, j, StopBuy, r.key) ensures t.orders[j].status == Dead {
      assert Is(s, j, StopBuy, r.key);
      assert r.stopOrder.Some? ==> Is(s, r.stopOrder.value, StopBuy, r.key);
    }
  }

  /** A record may forget a stop once no stop of its key is alive. */
  lemma ForgettingKeepsStops(s: State, t: State, ticker: string, base: nat)
    requires Stops(s, base) && ticker in s.book && StopsDead(s, base, s.book[ticker].key)
    requires t == s.(book := s.book[ticker := s.book[ticker].(stopOrder := None)])
    ensures Stops(t, base)
  {
    SettlingKeepsFacts(s, t, base);
    forall u <- t.book ensures StopOf(t, base, u) {
      assert StopOf(s, base, u);
    }
  }

  lemma UnprotectKeepsStops(s: State, ticker: string, takes: bool, base: nat)
    requires Stops(s, base) && ticker in s.book && Clears(s.orders, s.book[ticker].stopOrder, takes)
    ensures Stops(Unprotect(s, ticker, takes), base)
  {
    var t := Unprotect(s, ticker, takes);
    var cancelled := s.(orders := t.orders);
    UnprotectKillsStops(s, ticker, takes, base);
    SettlingKeepsStops(s, cancelled, base);
    assert StopsDead(cancelled, base, s.book[ticker].key);
    ForgettingKeepsStops(cancelled, t, ticker, base);
  }

  /** Orders appended for one key leave every other key's facts alone. */
  lemma AppendKeepsFacts(s: State, t: State, base: nat)
    requires |s.orders| <= |t.orders| && t.orders[..|s.orders|] == s.orders
    ensures forall i, kind, k | i < |s.orders| :: Is(t, i, kind, k) <==> Is(s, i, kind, k)
    ensures forall k, qty :: SoldAs(s, base, k, qty) ==> SoldAs(t, base, k, qty)
  {
    forall i | 0 <= i < |s.orders| ensures t.orders[i] == s.orders[i] {
      assert t.orders[i] == t.orders[..|s.orders|][i];
    }
    forall k, qty | SoldAs(s, base, k, qty) ensures SoldAs(t, base, k, qty) {
      var j :| base <= j && Is(s, j, ShortSell, k) && s.orders[j].status.Filled? && s.orders[j].qty == qty;
      assert Is(t, j, ShortSell, k);
    }
  }

  lemma SendCoverKeepsStops(s: State, ticker: string, reason: Reason, fill: FillReply, base: nat)
    requires Stops(s, base) && ticker in s.book && s.book[ticker].stopOrder.None?
    ensures Stops(SendCover(s, ticker, reason, fill), base)
  {
    var t := SendCover(s, ticker, reason, fill);
    var r := s.book[ticker];
    assert StopOf(s, base, ticker);
    assert t.orders[..|s.orders|] == s.orders;
    AppendKeepsFacts(s, t, base);
    forall i, k ensures Is(t, i, StopBuy, k) <==> Is(s, i, StopBuy, k) {}
    forall k | StopsDead(s, base, k) ensures StopsDead(t, base, k) {}
    forall i, k | base <= i && Is(t, i, Cover, k) ensures StopsDead(t, base, k) {
      if i < |s.orders| {
        assert Is(s, i, Cover, k);
      }
    }
    forall u <- t.book ensures StopOf(t, base, u) {
      assert StopOf(s, base, u);
    }
    forall i | base <= i < |t.orders| && !t.orders[i].kind.ShortSell?
      ensures SoldAs(t, base, t.orders[i].key, t.orders[i].qty)
    {
      if i < |s.orders| {
        assert SoldAs(s, base, s.orders[i].key, s.orders[i].qty);
      }
    }
  }

  lemma CloseKeepsStops(s: State, ticker: string, reason: Reason, env: CloseEnv, base: nat)
    requires Stops(s, base) && ticker in s.book && Clears(s.orders, s.book[ticker].stopOrder, env.cancelTakes)
    ensures Stops(Close(s, ticker, reason, env), base)
  {
    var unprotected := Unprotect(s, ticker, env.cancelTakes);
    UnprotectKeepsStops(s, ticker, env.cancelTakes, base);
    if !env.submitRaises {
      SendCoverKeepsStops(unprotected, ticker, reason, env.fill, base);
      if env.fill.FilledAt? {
        BookedKeepsStops(SendCover(unprotected, ticker, reason, env.fill), ticker, env.fill.price, reason,
                         |s.orders|, env.bookRaises, base);
      }
    }
  }

  /** Closing a short forgets its stop at once: a stop that has filled, or that outlives its
      swallowed cancel, is out of sight from then on. */
  lemma CloseForgetsTheStop(s: State, ticker: string, reason: Reason, env: CloseEnv, base: nat)
    requires Stops(s, base) && base <= |s.orders| && ticker in s.book
    requires !Clears(s.orders, s.book[ticker].stopOrder, env.cancelTakes)
    ensures !Stops(Close(s, ticker, reason, env), base)
  {
    var t, key, id := Close(s, ticker, reason, env), s.book[ticker].key, s.book[ticker].stopOrder.value;
    assert StopOf(s, base, ticker);
    assert Is(t, id, StopBuy, key) && t.orders[id].status != Dead;
    assert !StopsDead(t, base, key);
    if env.submitRaises {
      assert ticker in t.book && !StopOf(t, base, ticker);
    } else {
      assert Is(t, |s.orders|, Cover, key);
    }
  }

  /** Exactly when closing a short, by a tick or by the 15:55 flatten, keeps in sight every stop
      that is not dead: whether or not the cover is accepted, the record forgets its stop. */
  lemma CloseIsOrderlyIff(s: State, ticker: string, reason: Reason, env: CloseEnv, base: nat)
    requires Stops(s, base) && base <= |s.orders| && ticker in s.book
    ensures Stops(Close(s, ticker, reason, env), base) <==> Clears(s.orders, s.book[ticker].stopOrder, env.cancelTakes)
  {
    if Clears(s.orders, s.book[ticker].stopOrder, env.cancelTakes) {
      CloseKeepsStops(s, ticker, reason, env, base);
    } else {
      CloseForgetsTheStop(s, ticker, reason, env, base);
    }
  }

  lemma EntryOrdersKeepStops(s: State, sig: Signal, qty: int, fate: EntryFate, base: nat)
    requires Stops(s, base) && base <= |s.orders| && qty > 0
    requires forall i | 0 <= i < |s.orders| :: s.orders[i].key != sig.key
    ensures Stops(s.(orders := Enter(s, sig, qty, fate).orders), base)
    ensures fate.Entered? ==> SoldAs(s.(orders := Enter(s, sig, qty, fate).orders), base, sig.key, qty)
  {
    var t := s.(orders := Enter(s, sig, qty, fate).orders);
    var n := |s.orders|;
    assert t.orders[..n] == s.orders;
    AppendKeepsFacts(s, t, base);
    if fate.Entered? {
      assert Is(t, n, ShortSell, sig.key);
    }
    forall i, k | Is(t, i, Cover, k) ensures Is(s, i, Cover, k) {}
    forall i, k | Is(t, i, StopBuy, k) && !Is(s, i, StopBuy, k) ensures k == sig.key && i == n + 1 {}
    forall k | k != sig.key && StopsDead(s, base, k) ensures StopsDead(t, base, k) {}
    forall u <- t.book ensures StopOf(t, base, u) {
      assert StopOf(s, base, u);
      var r := s.book[u];
      var j :| base <= j && Is(s, j, ShortSell, r.key) && s.orders[j].status.Filled? && s.orders[j].qty == r.qty;
      assert r.key != sig.key;
    }
    forall i | base <= i < |t.orders| && !t.orders[i].kind.ShortSell?
      ensures SoldAs(t, base, t.orders[i].key, t.orders[i].qty)
    {
      if i < n {
        assert SoldAs(s, base, s.orders[i].key, s.orders[i].qty);
      }
    }
  }

  lemma EnterKeepsStops(s: State, sig: Signal, qty: int, fate: EntryFate, base: nat)
    requires Stops(s, base) && base <= |s.orders| && qty > 0
    requires forall i | 0 <= i < |s.orders| :: s.orders[i].key != sig.key
    ensures Stops(Enter(s, sig, qty, fate), base)
  {
    var t := Enter(s, sig, qty, fate);
    var ordered := s.(orders := t.orders);
    EntryOrdersKeepStops(s, sig, qty, fate, base);
    forall i, kind, k ensures Is(t, i, kind, k) == Is(ordered, i, kind, k) {}
    forall k, q | SoldAs(ordered, base, k, q) ensures SoldAs(t, base, k, q) {
      var j :| base <= j && Is(ordered, j, ShortSell, k) && ordered.orders[j].status.Filled? && ordered.orders[j].qty == q;
      assert Is(t, j, ShortSell, k);
    }
    forall k | StopsDead(ordered, base, k) ensures StopsDead(t, base, k) {}
    forall u <- t.book ensures StopOf(t, base, u) {
      if u != sig.key.ticker || !fate.Entered? || !fate.rowWritten {
        assert StopOf(ordered, base, u);
      } else if !fate.stopAccepted {
        assert StopsDead(t, base, sig.key);
      }
    }
    forall i | base <= i < |t.orders| && !t.orders[i].kind.ShortSell?
      ensures SoldAs(t, base, t.orders[i].key, t.orders[i].qty)
    {
      assert SoldAs(ordered, base, ordered.orders[i].key, ordered.orders[i].qty);
    }
  }

  // ---- Which steps are orderly -----------------------------------------------------------------

  /** The exit a tick decides on after its polls. */
  function DueExit(s: State, e: Event): Option<E.ExitReason>
    requires e.AdvanceShort? && e.ticker in s.book
  {
    var r := s.book[e.ticker];
    if r.exitOrder.Some? || (r.stopOrder.Some? && e.readRaises) || FillPrice(s, r.stopOrder).Some? then None
    else E.EvaluateExit(r.openedAt, r.stopPrice, e.now, if r.stopOrder.None? then e.quote else None)
  }

  /** What a caller can check before the step: whoever closes a short must find its stop absent,
      dead, or live with an effective cancel. */
  predicate Orderly(s: State, e: Event) {
    match e
    case AdvanceShort(ticker, _, _, _, env) =>
      ticker in s.book && DueExit(s, e).Some? ==> Clears(s.orders, s.book[ticker].stopOrder, env.cancelTakes)
    case FlattenShort(ticker, env) =>
      ticker in s.book && s.book[ticker].exitOrder.None? ==> Clears(s.orders, s.book[ticker].stopOrder, env.cancelTakes)
    case Restart(_) => false
    case _ => true
  }

  predicate OrderlyRun(s: State, es: seq<Event>, cfg: Config) {
    es == [] || (OrderlyRun(s, es[..|es| - 1], cfg) && Orderly(Run(s, es[..|es| - 1], cfg), es[|es| - 1]))
  }

  lemma AdvanceIsClose(s: State, e: Event)
    requires e.AdvanceShort? && e.ticker in s.book && DueExit(s, e).Some?
    ensures Advance(s, e) == Close(s, e.ticker, Because(DueExit(s, e).value), e.env)
  {}

  lemma AdvanceIsBooking(s: State, e: Event)
    requires e.AdvanceShort? && e.ticker in s.book && DueExit(s, e).None?
    ensures Settling(s, Advance(s, e)) && Advance(s, e).book.Keys <= s.book.Keys
    ensures forall u <- Advance(s, e).book :: Advance(s, e).book[u] == s.book[u]
  {}

  lemma AdvanceIsOrderlyIff(s: State, e: Event, base: nat)
    requires Stops(s, base) && base <= |s.orders| && e.AdvanceShort?
    ensures Stops(Advance(s, e), base) <==> Orderly(s, e)
  {
    if e.ticker in s.book {
      if DueExit(s, e).Some? {
        AdvanceIsClose(s, e);
        CloseIsOrderlyIff(s, e.ticker, Because(DueExit(s, e).value), e.env, base);
      } else {
        AdvanceIsBooking(s, e);
        SettlingKeepsStops(s, Advance(s, e), base);
      }
    }
  }

  lemma HandleKeepsStops(s: State, e: Event, cfg: Config, base: nat)
    requires Inv(s, cfg) && Stops(s, base) && base <= |s.orders| && e.Handle?
    ensures Stops(HandleSignal(s, e, cfg), base)
  {
    if s.queue != [] {
      var popped, qty := s.(queue := s.queue[1..]), EntryQty(e.reply, cfg);
      PopKeepsInv(s, cfg);
      SettlingKeepsStops(s, popped, base);
      if Gated(s, s.queue[0], e.now, e.active, cfg) && qty > 0 {
        EnterKeepsStops(popped, s.queue[0], qty, e.fate, base);
      }
    }
  }

  lemma BrokerKeepsStops(s: State, id: nat, status: Status, base: nat)
    requires Stops(s, base) && id < |s.orders| && s.orders[id].status == Live
    ensures Stops(s.(orders := s.orders[id := s.orders[id].(status := status)]), base)
  {
    SettlingKeepsStops(s, s.(orders := s.orders[id := s.orders[id].(status := status)]), base);
  }

  /** One step: within a process, under any failure, no stop that is not dead stands beside a cover
      or is forgotten if and only if the step is orderly. */
  lemma StepIsOrderlyIff(s: State, e: Event, cfg: Config, base: nat)
    requires Inv(s, cfg) && Stops(s, base) && base <= |s.orders| && !e.Restart?
    ensures Stops(Step(s, e, cfg), base) <==> Orderly(s, e)
  {
    match e
    case Detect(sig, raises) => SettlingKeepsStops(s, Step(s, e, cfg), base);
    case Enqueue => SettlingKeepsStops(s, Step(s, e, cfg), base);
    case Abandon => SettlingKeepsStops(s, Step(s, e, cfg), base);
    case Handle(_, _, _, _) => HandleKeepsStops(s, e, cfg, base);
    case AdvanceShort(_, _, _, _, _) => AdvanceIsOrderlyIff(s, e, base);
    case FlattenShort(ticker, env) =>
      if ticker in s.book && s.book[ticker].exitOrder.None? {
        CloseIsOrderlyIff(s, ticker, Because(E.EodFailsafe), env, base);
      }
    case BrokerFills(id, price) =>
      if id < |s.orders| && s.orders[id].status == Live {
        BrokerKeepsStops(s, id, Filled(price), base);
      }
    case BrokerKills(id) =>
      if id < |s.orders| && s.orders[id].status == Live {
        BrokerKeepsStops(s, id, Dead, base);
      }
  }

  /** At the end of the run and at every point before it. */
  ghost predicate AlwaysStops(s: State, es: seq<Event>, cfg: Config, base: nat) {
    Stops(Run(s, es, cfg), base) && (es == [] || AlwaysStops(s, es[..|es| - 1], cfg, base))
  }

  /** Whole process runs, flattens included: at no point of the run a stop that is not dead
      stands beside a cover or is forgotten by its record, if and only if every step is orderly. */
  lemma {:induction false} RunIsOrderlyIff(s: State, es: seq<Event>, cfg: Config, base: nat)
    requires Inv(s, cfg) && Covers(s, base) && Stops(s, base) && OneProcess(es)
    ensures AlwaysStops(s, es, cfg, base) <==> OrderlyRun(s, es, cfg)
    ensures Covers(Run(s, es, cfg), base)
  {
    if es != [] {
      var init, last := es[..|es| - 1], es[|es| - 1];
      RunIsOrderlyIff(s, init, cfg, base);
      RunKeepsInv(s, init, cfg);
      StepKeepsCovers(Run(s, init, cfg), last, cfg, base);
      if Stops(Run(s, init, cfg), base) {
        StepIsOrderlyIff(Run(s, init, cfg), last, cfg, base);
      }
    }
  }
}
