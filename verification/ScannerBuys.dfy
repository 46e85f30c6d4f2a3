/** Buy-backs of the scanner book: exactly which steps and runs make two orders that buy back one
    short, a stop and a cover or two covers, both work, and that no other run of a process ever
    buys back more shares than were sold. */
module ScannerBuys {
  import opened Prelude
  import opened ScannerBook
  import opened ScannerSafety
  import opened ScannerOrders
  import opened ScannerStops

  /** A stop or cover of the key that has filled or still can. */
  predicate Buys(s: State, i: int, k: Key) {
    0 <= i < |s.orders| && s.orders[i].key == k && !s.orders[i].kind.ShortSell? && s.orders[i].status != Dead
  }

  /** From order base on, no two orders that buy back one key both work. */
  ghost predicate BuysOnce(s: State, base: nat) {
    forall i, j, k | base <= i && base <= j && Buys(s, i, k) && Buys(s, j, k) :: i == j
  }

  ghost predicate Unbought(s: State, base: nat, k: Key) {
    forall i | base <= i :: !Buys(s, i, k)
  }

  lemma SettlingKeepsOnce(s: State, t: State, base: nat)
    requires BuysOnce(s, base) && Settling(s, t)
    ensures BuysOnce(t, base)
  {
    forall i, k ensures Buys(t, i, k) ==> Buys(s, i, k) {}
  }

  /** One working order that buys is added. */
  lemma AppendIff(s: State, t: State, base: nat, k: Key)
    requires BuysOnce(s, base) && base <= |s.orders|
    requires |t.orders| == |s.orders| + 1 && t.orders[..|s.orders|] == s.orders && Buys(t, |s.orders|, k)
    ensures BuysOnce(t, base) <==> Unbought(s, base, k)
  {
    var n := |s.orders|;
    forall i | 0 <= i < n ensures t.orders[i] == s.orders[i] {
      assert t.orders[..n][i] == s.orders[i];
    }
    forall i, m ensures Buys(t, i, m) <==> Buys(s, i, m) || (i == n && m == k) {}
    if !Unbought(s, base, k) {
      var i :| base <= i && Buys(s, i, k);
      assert Buys(t, i, k) && Buys(t, n, k);
    }
  }

  // ---- Which steps buy once -----------------------------------------------------------------------

  /** An accepted cover must find no other order at work that buys the short back. */
  ghost predicate CloseIsAlone(s: State, ticker: string, env: CloseEnv, base: nat)
    requires ticker in s.book
  {
    !env.submitRaises ==> Unbought(Unprotect(s, ticker, env.cancelTakes), base, s.book[ticker].key)
  }

  /** The same for a row of the startup sweep. */
  ghost predicate RowIsAlone(s: State, i: nat, fate: RowFate, base: nat)
    requires i < |s.rows|
  {
    fate.shortHeld && !fate.submitRaises ==>
      Unbought(s.(orders := Cancelled(s.orders, s.rows[i].stopOrder, fate.cancelTakes)), base, s.rows[i].key)
  }

  ghost predicate SweepIsAlone(s: State, i: nat, fates: seq<RowFate>, base: nat)
    decreases |s.rows| - i
  {
    if i >= |s.rows| then true
    else if s.rows[i].exit.Some? then SweepIsAlone(s, i + 1, fates, base)
    else if i >= |fates| then true
    else
      && RowIsAlone(s, i, fates[i], base)
      && (Dies(fates[i]) || SweepIsAlone(SweepRow(s, i, fates[i]), i + 1, fates, base))
  }

  /** What a new process starts with. */
  function Restarted(s: State): State {
    s.(staged := [], queue := [], book := map[])
  }

  /** What must hold before the step. */
  ghost predicate Alone(s: State, e: Event, base: nat) {
    match e
    case AdvanceShort(ticker, _, _, _, env) =>
      ticker in s.book && DueExit(s, e).Some? ==> CloseIsAlone(s, ticker, env, base)
    case FlattenShort(ticker, env) =>
      ticker in s.book && s.book[ticker].exitOrder.None? ==> CloseIsAlone(s, ticker, env, base)
    case Restart(startup) => startup.Sweep? ==> SweepIsAlone(Restarted(s), 0, startup.fates, base)
    case _ => true
  }

  lemma ClosedBuysOnceIff(s: State, ticker: string, reason: Reason, env: CloseEnv, base: nat)
    requires BuysOnce(s, base) && base <= |s.orders| && ticker in s.book
    ensures BuysOnce(Close(s, ticker, reason, env), base) <==> CloseIsAlone(s, ticker, env, base)
  {
    var unprotected, t := Unprotect(s, ticker, env.cancelTakes), Close(s, ticker, reason, env);
    SettlingKeepsOnce(s, unprotected, base);
    if env.submitRaises {
      assert t == unprotected;
    } else {
      assert t.orders[..|s.orders|] == unprotected.orders;
      AppendIff(unprotected, t, base, s.book[ticker].key);
    }
  }

  lemma AdvanceBuysOnceIff(s: State, e: Event, base: nat)
    requires BuysOnce(s, base) && base <= |s.orders| && e.AdvanceShort?
    ensures BuysOnce(Advance(s, e), base) <==> Alone(s, e, base)
  {
    if e.ticker in s.book {
      if DueExit(s, e).Some? {
        AdvanceIsClose(s, e);
        ClosedBuysOnceIff(s, e.ticker, Because(DueExit(s, e).value), e.env, base);
      } else {
        AdvanceIsBooking(s, e);
        SettlingKeepsOnce(s, Advance(s, e), base);
      }
    }
  }

  lemma HandleBuysOnce(s: State, e: Event, cfg: Config, base: nat)
    requires Inv(s, cfg) && BuysOnce(s, base) && e.Handle?
    ensures BuysOnce(HandleSignal(s, e, cfg), base)
  {
    if s.queue != [] {
      PopKeepsInv(s, cfg);
      var t, key := HandleSignal(s, e, cfg), s.queue[0].key;
      forall i, k | Buys(t, i, k) ensures Buys(s, i, k) || (i == |s.orders| + 1 && k == key) {}
    }
  }

  // ---- The startup sweep -----------------------------------------------------------------------------

  /** A row's stop is an order of the row's key, and rows have distinct keys. */
  ghost predicate Linked(s: State) {
    && (forall i | 0 <= i < |s.rows| && s.rows[i].stopOrder.Some? ::
          var id := s.rows[i].stopOrder.value; id < |s.orders| && s.orders[id].key == s.rows[i].key)
    && (forall i, j | 0 <= i < j < |s.rows| :: s.rows[i].key != s.rows[j].key)
  }

  /** Rows and orders keep their identity; orders may be added. */
  ghost predicate SameLinks(s: State, t: State) {
    && |t.rows| == |s.rows| && |s.orders| <= |t.orders|
    && (forall i | 0 <= i < |s.rows| :: t.rows[i].key == s.rows[i].key && t.rows[i].stopOrder == s.rows[i].stopOrder)
    && (forall i | 0 <= i < |s.orders| :: t.orders[i].key == s.orders[i].key)
  }

  lemma RowBuysOnceIff(s: State, i: nat, fate: RowFate, base: nat)
    requires BuysOnce(s, base) && base <= |s.orders| && i < |s.rows|
    ensures BuysOnce(SweepRow(s, i, fate), base) <==> RowIsAlone(s, i, fate, base)
    ensures SameLinks(s, SweepRow(s, i, fate))
  {
    var t := SweepRow(s, i, fate);
    var unprotected := s.(orders := Cancelled(s.orders, s.rows[i].stopOrder, fate.cancelTakes));
    SettlingKeepsOnce(s, unprotected, base);
    if fate.shortHeld && !fate.submitRaises {
      assert t.orders[..|s.orders|] == unprotected.orders;
      AppendIff(unprotected, t, base, s.rows[i].key);
    } else {
      assert t.orders == unprotected.orders;
      SettlingKeepsOnce(unprotected, t, base);
    }
  }

  /** The cancels of later rows do not touch the orders of an earlier row's key. */
  lemma {:induction false} DoubleStays(s: State, i: nat, fates: seq<RowFate>, k: Key, a: int)
    requires Linked(s) && Buys(s, a, k) && forall j | i <= j < |s.rows| :: s.rows[j].key != k
    ensures Buys(SweepFrom(s, i, fates), a, k)
    decreases |s.rows| - i
  {
    if i < |s.rows| {
      if s.rows[i].exit.Some? {
        DoubleStays(s, i + 1, fates, k, a);
      } else if i < |fates| {
        var t := SweepRow(s, i, fates[i]);
        assert SameLinks(s, t) && Buys(t, a, k);
        if !Dies(fates[i]) {
          DoubleStays(t, i + 1, fates, k, a);
        }
      }
    }
  }

  lemma {:induction false} SweepBuysOnceIff(s: State, i: nat, fates: seq<RowFate>, base: nat)
    requires BuysOnce(s, base) && base <= |s.orders| && Linked(s)
    ensures BuysOnce(SweepFrom(s, i, fates), base) <==> SweepIsAlone(s, i, fates, base)
    decreases |s.rows| - i
  {
    if i < |s.rows| {
      if s.rows[i].exit.Some? {
        SweepBuysOnceIff(s, i + 1, fates, base);
      } else if i < |fates| {
        var t, k := SweepRow(s, i, fates[i]), s.rows[i].key;
        RowBuysOnceIff(s, i, fates[i], base);
        if !Dies(fates[i]) {
          if BuysOnce(t, base) {
            SweepBuysOnceIff(t, i + 1, fates, base);
          } else {
            var a := OtherBuy(s, i, fates[i], base);
            DoubleStays(t, i + 1, fates, k, a);
            DoubleStays(t, i + 1, fates, k, |s.orders|);
          }
        }
      }
    }
  }

  /** What a row's cover finds at work. */
  lemma OtherBuy(s: State, i: nat, fate: RowFate, base: nat) returns (a: int)
    requires BuysOnce(s, base) && base <= |s.orders| && i < |s.rows| && !RowIsAlone(s, i, fate, base)
    ensures var t, k := SweepRow(s, i, fate), s.rows[i].key;
            base <= a < |s.orders| && Buys(t, a, k) && Buys(t, |s.orders|, k)
  {
    var t := SweepRow(s, i, fate);
    var unprotected := s.(orders := Cancelled(s.orders, s.rows[i].stopOrder, fate.cancelTakes));
    a :| base <= a && Buys(unprotected, a, s.rows[i].key);
    assert t.orders[..|s.orders|][a] == unprotected.orders[a];
  }

  lemma {:induction false} SweepKeepsLinks(s: State, i: nat, fates: seq<RowFate>)
    ensures SameLinks(s, SweepFrom(s, i, fates))
    decreases |s.rows| - i
  {
    if i < |s.rows| {
      if s.rows[i].exit.Some? {
        SweepKeepsLinks(s, i + 1, fates);
      } else if i < |fates| && !Dies(fates[i]) {
        SweepKeepsLinks(SweepRow(s, i, fates[i]), i + 1, fates);
      }
    }
  }

  lemma EnterKeepsLinked(s: State, sig: Signal, qty: int, fate: EntryFate)
    requires Linked(s)
    ensures Linked(Enter(s, sig, qty, fate)) && |s.orders| <= |Enter(s, sig, qty, fate).orders|
  {
    assert forall i | 0 <= i < |s.rows| :: s.rows[i].key in RowKeys(s.rows);
  }

  lemma HandleKeepsLinked(s: State, e: Event, cfg: Config)
    requires Linked(s) && e.Handle?
    ensures Linked(HandleSignal(s, e, cfg)) && |s.orders| <= |HandleSignal(s, e, cfg).orders|
  {
    if s.queue != [] {
      EnterKeepsLinked(s.(queue := s.queue[1..]), s.queue[0], EntryQty(e.reply, cfg), e.fate);
    }
  }

  lemma StepKeepsLinked(s: State, e: Event, cfg: Config)
    requires Linked(s)
    ensures Linked(Step(s, e, cfg)) && |s.orders| <= |Step(s, e, cfg).orders|
  {
    match e
    case Handle(_, _, _, _) => HandleKeepsLinked(s, e, cfg);
    case Restart(startup) =>
      if startup.Sweep? {
        SweepKeepsLinks(Restarted(s), 0, startup.fates);
      }
    case AdvanceShort(_, _, _, _, _) => AdvanceKeepsLinks(s, e);
    case FlattenShort(ticker, env) =>
      if ticker in s.book {
        CloseKeepsLinks(s, ticker, Because(E.EodFailsafe), env);
      }
    case _ => assert SameLinks(s, Step(s, e, cfg));
  }

  lemma CloseKeepsLinks(s: State, ticker: string, reason: Reason, env: CloseEnv)
    requires ticker in s.book
    ensures SameLinks(s, Close(s, ticker, reason, env))
  {}

  lemma AdvanceKeepsLinks(s: State, e: Event)
    requires e.AdvanceShort?
    ensures SameLinks(s, Advance(s, e))
  {
    if e.ticker in s.book && DueExit(s, e).Some? {
      AdvanceIsClose(s, e);
      CloseKeepsLinks(s, e.ticker, Because(DueExit(s, e).value), e.env);
    }
  }

  // ---- Every step, every run -------------------------------------------------------------------------

  /** Main result, one step of any kind, restarts included: from a book in which no two orders that
      buy back one short both work, the step leads to another such book if and only if its guard
      holds. */
  lemma StepBuysOnceIff(s: State, e: Event, cfg: Config, base: nat)
    requires Inv(s, cfg) && Linked(s) && BuysOnce(s, base) && base <= |s.orders|
    ensures BuysOnce(Step(s, e, cfg), base) <==> Alone(s, e, base)
  {
    match e
    case Handle(_, _, _, _) => HandleBuysOnce(s, e, cfg, base);
    case AdvanceShort(_, _, _, _, _) => AdvanceBuysOnceIff(s, e, base);
    case FlattenShort(ticker, env) =>
      if ticker in s.book && s.book[ticker].exitOrder.None? {
        ClosedBuysOnceIff(s, ticker, Because(E.EodFailsafe), env, base);
      }
    case Restart(startup) =>
      SettlingKeepsOnce(s, Restarted(s), base);
      if startup.Sweep? {
        SweepBuysOnceIff(Restarted(s), 0, startup.fates, base);
      }
    case _ => SettlingKeepsOnce(s, Step(s, e, cfg), base);
  }

  /** At the end of the run and at every point before it. */
  ghost predicate AlwaysBuysOnce(s: State, es: seq<Event>, cfg: Config, base: nat) {
    BuysOnce(Run(s, es, cfg), base) && (es == [] || AlwaysBuysOnce(s, es[..|es| - 1], cfg, base))
  }

  ghost predicate AloneRun(s: State, es: seq<Event>, cfg: Config, base: nat) {
    es == [] || (AloneRun(s, es[..|es| - 1], cfg, base) && Alone(Run(s, es[..|es| - 1], cfg), es[|es| - 1], base))
  }

  lemma {:induction false} RunKeepsLinked(s: State, es: seq<Event>, cfg: Config)
    requires Linked(s)
    ensures Linked(Run(s, es, cfg)) && |s.orders| <= |Run(s, es, cfg).orders|
  {
    if es != [] {
      RunKeepsLinked(s, es[..|es| - 1], cfg);
      StepKeepsLinked(Run(s, es[..|es| - 1], cfg), es[|es| - 1], cfg);
    }
  }

  /** Main result, whole runs, flattens, restarts and startup sweeps included: no two orders that buy
      back one short ever both work if and only if every step meets its guard. */
  lemma {:induction false} RunBuysOnceIff(s: State, es: seq<Event>, cfg: Config, base: nat)
    requires Inv(s, cfg) && Linked(s) && BuysOnce(s, base) && base <= |s.orders|
    ensures AlwaysBuysOnce(s, es, cfg, base) <==> AloneRun(s, es, cfg, base)
  {
    if es != [] {
      var init := es[..|es| - 1];
      RunBuysOnceIff(s, init, cfg, base);
      RunKeepsInv(s, init, cfg);
      RunKeepsLinked(s, init, cfg);
      if BuysOnce(Run(s, init, cfg), base) {
        StepBuysOnceIff(Run(s, init, cfg), es[|es| - 1], cfg, base);
      }
    }
  }

  // ---- The same guard, read off the record -------------------------------------------------------------

  lemma UnboughtIff(s: State, ticker: string, takes: bool, base: nat)
    requires Stops(s, base) && Covers(s, base) && ticker in s.book && s.book[ticker].exitOrder.None?
    ensures Unbought(Unprotect(s, ticker, takes), base, s.book[ticker].key)
            <==> Clears(s.orders, s.book[ticker].stopOrder, takes)
  {
    var t, r := Unprotect(s, ticker, takes), s.book[ticker];
    assert StopOf(s, base, ticker) && CoverOf(s, base, ticker);
    if Clears(s.orders, r.stopOrder, takes) {
      UnprotectKillsStops(s, ticker, takes, base);
      forall i | base <= i ensures !Buys(t, i, r.key) {
        assert Buys(t, i, r.key) ==> Is(t, i, StopBuy, r.key) || Is(s, i, Cover, r.key);
      }
    } else {
      assert Is(s, r.stopOrder.value, StopBuy, r.key) && Buys(t, r.stopOrder.value, r.key);
    }
  }

  lemma StopsBuyOnce(s: State, base: nat)
    requires Stops(s, base) && Covers(s, base)
    ensures BuysOnce(s, base)
  {
    forall i, j, k | base <= i < j && Buys(s, i, k) ensures !Buys(s, j, k) {
      assert Is(s, i, StopBuy, k) || Is(s, i, Cover, k);
      assert Buys(s, j, k) ==> Is(s, j, StopBuy, k) || Is(s, j, Cover, k);
      assert Is(s, i, Cover, k) || Is(s, j, Cover, k) ==> StopsDead(s, base, k);
    }
  }

  /** Exactly when closing a short, by a tick or by the flatten, makes two orders buy it back: its
      cover is accepted next to a stop that has filled or that outlives the cancel. */
  lemma CloseBuysTwiceIff(s: State, ticker: string, reason: Reason, env: CloseEnv, base: nat)
    requires Stops(s, base) && Covers(s, base) && ticker in s.book && s.book[ticker].exitOrder.None?
    ensures !BuysOnce(Close(s, ticker, reason, env), base) <==>
              !env.submitRaises && !Clears(s.orders, s.book[ticker].stopOrder, env.cancelTakes)
  {
    StopsBuyOnce(s, base);
    ClosedBuysOnceIff(s, ticker, reason, env, base);
    UnboughtIff(s, ticker, env.cancelTakes, base);
  }

  // ---- Shares bought and sold ----------------------------------------------------------------------------

  predicate FilledBuy(o: Order, k: Key) {
    !o.kind.ShortSell? && o.key == k && o.status.Filled?
  }

  predicate FilledSale(o: Order, k: Key) {
    o.kind.ShortSell? && o.key == k && o.status.Filled?
  }

  /** Shares bought (stops and covers) and shares sold for a key, over the filled orders. */
  function Bought(orders: seq<Order>, k: Key): int {
    if orders == [] then 0
    else
      var last := orders[|orders| - 1];
      Bought(orders[..|orders| - 1], k) + if FilledBuy(last, k) then last.qty else 0
  }

  function Sold(orders: seq<Order>, k: Key): int {
    if orders == [] then 0
    else
      var last := orders[|orders| - 1];
      Sold(orders[..|orders| - 1], k) + if FilledSale(last, k) then last.qty else 0
  }

  lemma {:induction false} BoughtAtMostOnce(orders: seq<Order>, k: Key, qty: int)
    requires qty >= 0
    requires forall i, j | 0 <= i < j < |orders| :: !(FilledBuy(orders[i], k) && FilledBuy(orders[j], k))
    requires forall i | 0 <= i < |orders| && FilledBuy(orders[i], k) :: orders[i].qty == qty
    ensures 0 <= Bought(orders, k) <= qty
    ensures (forall i | 0 <= i < |orders| :: !FilledBuy(orders[i], k)) ==> Bought(orders, k) == 0
  {
    if orders != [] {
      BoughtAtMostOnce(orders[..|orders| - 1], k, qty);
    }
  }

  lemma {:induction false} SoldAtLeast(orders: seq<Order>, k: Key, j: int)
    requires 0 <= j < |orders| && FilledSale(orders[j], k)
    requires forall i | 0 <= i < |orders| && FilledSale(orders[i], k) :: orders[i].qty > 0
    ensures Sold(orders, k) >= orders[j].qty
  {
    var n := |orders| - 1;
    if j < n {
      SoldAtLeast(orders[..n], k, j);
    } else {
      SoldIsPositive(orders[..n], k);
    }
  }

  lemma {:induction false} SoldIsPositive(orders: seq<Order>, k: Key)
    requires forall i | 0 <= i < |orders| && FilledSale(orders[i], k) :: orders[i].qty > 0
    ensures Sold(orders, k) >= 0
  {
    if orders != [] {
      SoldIsPositive(orders[..|orders| - 1], k);
    }
  }

  /** From order base on, tracked shorts and orders that buy are for the shares that were sold. */
  ghost predicate Sized(s: State, base: nat) {
    && (forall t <- s.book :: SoldAs(s, base, s.book[t].key, s.book[t].qty))
    && (forall i | base <= i < |s.orders| && !s.orders[i].kind.ShortSell? ::
          SoldAs(s, base, s.orders[i].key, s.orders[i].qty))
    && (forall i | base <= i < |s.orders| :: s.orders[i].qty > 0)
  }

  lemma SettlingKeepsSized(s: State, t: State, base: nat)
    requires Sized(s, base) && Settling(s, t)
    requires forall u <- t.book :: u in s.book && t.book[u].key == s.book[u].key && t.book[u].qty == s.book[u].qty
    ensures Sized(t, base)
  {
    SettlingKeepsFacts(s, t, base);
    forall i | base <= i < |t.orders| && !t.orders[i].kind.ShortSell?
      ensures SoldAs(t, base, t.orders[i].key, t.orders[i].qty)
    {
      assert SoldAs(s, base, s.orders[i].key, s.orders[i].qty);
    }
  }

  lemma SendCoverKeepsSized(s: State, ticker: string, reason: Reason, fill: FillReply, base: nat)
    requires Sized(s, base) && ticker in s.book
    ensures Sized(SendCover(s, ticker, reason, fill), base)
  {
    var t := SendCover(s, ticker, reason, fill);
    assert t.orders[..|s.orders|] == s.orders;
    AppendKeepsFacts(s, t, base);
    assert SoldAs(s, base, s.book[ticker].key, s.book[ticker].qty);
    forall i | base <= i < |t.orders| && !t.orders[i].kind.ShortSell?
      ensures SoldAs(t, base, t.orders[i].key, t.orders[i].qty)
    {
      if i < |s.orders| {
        assert SoldAs(s, base, s.orders[i].key, s.orders[i].qty);
      }
    }
  }

  lemma BookedKeepsSized(s: State, ticker: string, price: real, reason: Reason, order: nat, raises: bool, base: nat)
    requires Sized(s, base) && ticker in s.book
    ensures Sized(Booked(s, ticker, price, reason, order, raises), base)
  {
    SettlingKeepsSized(s, Booked(s, ticker, price, reason, order, raises), base);
  }

  lemma UnprotectKeepsSized(s: State, ticker: string, takes: bool, base: nat)
    requires Sized(s, base) && ticker in s.book
    ensures Sized(Unprotect(s, ticker, takes), base)
  {
    SettlingKeepsSized(s, Unprotect(s, ticker, takes), base);
  }

  lemma CloseKeepsSized(s: State, ticker: string, reason: Reason, env: CloseEnv, base: nat)
    requires Sized(s, base) && ticker in s.book
    ensures Sized(Close(s, ticker, reason, env), base)
  {
    var unprotected := Unprotect(s, ticker, env.cancelTakes);
    UnprotectKeepsSized(s, ticker, env.cancelTakes, base);
    if !env.submitRaises {
      SendCoverKeepsSized(unprotected, ticker, reason, env.fill, base);
      if env.fill.FilledAt? {
        BookedKeepsSized(SendCover(unprotected, ticker, reason, env.fill), ticker, env.fill.price, reason,
                         |s.orders|, env.bookRaises, base);
      }
    }
  }

  lemma EnterKeepsSized(s: State, sig: Signal, qty: int, fate: EntryFate, base: nat)
    requires Sized(s, base) && base <= |s.orders| && qty > 0
    ensures Sized(Enter(s, sig, qty, fate), base)
  {
    var t, n := Enter(s, sig, qty, fate), |s.orders|;
    assert t.orders[..n] == s.orders;
    AppendKeepsFacts(s, t, base);
    if fate.Entered? {
      assert Is(t, n, ShortSell, sig.key);
    }
    forall i | base <= i < |t.orders| && !t.orders[i].kind.ShortSell?
      ensures SoldAs(t, base, t.orders[i].key, t.orders[i].qty)
    {
      if i < n {
        assert SoldAs(s, base, s.orders[i].key, s.orders[i].qty);
      }
    }
  }

  lemma StepKeepsSized(s: State, e: Event, cfg: Config, base: nat)
    requires Sized(s, base) && base <= |s.orders| && !e.Restart?
    ensures Sized(Step(s, e, cfg), base)
  {
    match e
    case Handle(_, _, _, _) =>
      if s.queue != [] {
        var popped := s.(queue := s.queue[1..]);
        SettlingKeepsSized(s, popped, base);
        if Gated(s, s.queue[0], e.now, e.active, cfg) && EntryQty(e.reply, cfg) > 0 {
          EnterKeepsSized(popped, s.queue[0], EntryQty(e.reply, cfg), e.fate, base);
        }
      }
    case AdvanceShort(ticker, _, _, _, env) =>
      if ticker in s.book {
        if DueExit(s, e).Some? {
          AdvanceIsClose(s, e);
          CloseKeepsSized(s, ticker, Because(DueExit(s, e).value), env, base);
        } else {
          AdvanceIsBooking(s, e);
          SettlingKeepsSized(s, Advance(s, e), base);
        }
      }
    case FlattenShort(ticker, env) =>
      if ticker in s.book && s.book[ticker].exitOrder.None? {
        CloseKeepsSized(s, ticker, Because(E.EodFailsafe), env, base);
      }
    case _ => SettlingKeepsSized(s, Step(s, e, cfg), base);
  }

  lemma {:induction false} RunKeepsSized(s: State, es: seq<Event>, cfg: Config, base: nat)
    requires Linked(s) && Sized(s, base) && base <= |s.orders| && OneProcess(es)
    ensures Sized(Run(s, es, cfg), base)
  {
    if es != [] {
      RunKeepsSized(s, es[..|es| - 1], cfg, base);
      RunKeepsLinked(s, es[..|es| - 1], cfg);
      StepKeepsSized(Run(s, es[..|es| - 1], cfg), es[|es| - 1], cfg, base);
    }
  }

  lemma BoughtWithinSold(s: State, base: nat, k: Key)
    requires BuysOnce(s, base) && Sized(s, base) && base <= |s.orders|
    ensures 0 <= Bought(s.orders[base..], k) <= Sold(s.orders[base..], k)
  {
    var sent := s.orders[base..];
    forall i, j | 0 <= i < j < |sent| ensures !(FilledBuy(sent[i], k) && FilledBuy(sent[j], k)) {
      assert FilledBuy(sent[i], k) ==> Buys(s, i + base, k);
      assert FilledBuy(sent[j], k) ==> Buys(s, j + base, k);
    }
    forall i | 0 <= i < |sent| ensures sent[i].qty > 0 {
      assert sent[i] == s.orders[i + base];
    }
    if exists i :: 0 <= i < |sent| && FilledBuy(sent[i], k) {
      var i :| 0 <= i < |sent| && FilledBuy(sent[i], k);
      var j := SaleBehind(s, base, i + base);
      BoughtAtMostOnce(sent, k, sent[i].qty);
      SoldAtLeast(sent, k, j - base);
    } else {
      BoughtAtMostOnce(sent, k, 0);
      SoldIsPositive(sent, k);
    }
  }

  /** The filled short sale that a buy order undoes. */
  lemma SaleBehind(s: State, base: nat, i: nat) returns (j: nat)
    requires Sized(s, base) && base <= i < |s.orders| && !s.orders[i].kind.ShortSell?
    ensures base <= j < |s.orders| && FilledSale(s.orders[j], s.orders[i].key) && s.orders[j].qty == s.orders[i].qty
  {
    var k, qty := s.orders[i].key, s.orders[i].qty;
    assert SoldAs(s, base, k, qty);
    j :| base <= j && Is(s, j, ShortSell, k) && s.orders[j].status.Filled? && s.orders[j].qty == qty;
  }

  /** Main result: in every run of one process whose steps meet their guards, after any past and
      restart, stop fills and covers of a short never buy back more shares than were sold. */
  lemma NeverOverBought(past: seq<Event>, startup: Startup, es: seq<Event>, cfg: Config, k: Key)
    requires OneProcess(es)
    ensures var s := Run(EMPTY, past + [Restart(startup)], cfg);
            var t := Run(s, es, cfg);
            AloneRun(s, es, cfg, |s.orders|) ==>
              |s.orders| <= |t.orders| && 0 <= Bought(t.orders[|s.orders|..], k) <= Sold(t.orders[|s.orders|..], k)
  {
    var begin := past + [Restart(startup)];
    var s := Run(EMPTY, begin, cfg);
    RunKeepsInv(EMPTY, begin, cfg);
    RunKeepsLinked(EMPTY, begin, cfg);
    assert begin[..|begin| - 1] == past;
    RestartEmptiesQueues(Run(EMPTY, past, cfg), startup, cfg);
    RunKeepsLinked(s, es, cfg);
    if AloneRun(s, es, cfg, |s.orders|) {
      RunBuysOnceIff(s, es, cfg, |s.orders|);
      RunKeepsSized(s, es, cfg, |s.orders|);
      BoughtWithinSold(Run(s, es, cfg), |s.orders|, k);
    }
  }

  // ---- Runs that buy too much --------------------------------------------------------------------

  const KEY := Key("failed_breakout", "X", 0)
  const MORNING := Moment(0, 0, 36000)

  /** One share is affordable at 100 and the entry gate is open. */
  predicate Suits(cfg: Config) {
    cfg.armed && cfg.maxConcurrent >= 1 && cfg.minVolumeRatio <= 2.0 && cfg.notional >= 100.0
  }

  function Entering(): Event {
    Handle(MORNING, {}, Price(Some(100.0)), Entered(100.0, 0, true, true))
  }

  lemma OneMore(es: seq<Event>, e: Event, cfg: Config)
    ensures Run(EMPTY, es + [e], cfg) == Step(Run(EMPTY, es, cfg), e, cfg)
  {
    assert (es + [e])[..|es|] == es;
  }

  /** A run from the empty system that leaves one protected short. */
  lemma OneShort(cfg: Config) returns (es: seq<Event>, qty: int)
    requires Suits(cfg)
    ensures qty > 0 && qty == E.SharesForNotional(cfg.notional, 100.0)
    ensures var s := Run(EMPTY, es, cfg);
            && s.recorded == {KEY} && s.staged == [] && s.queue == []
            && s.rows == [Row(KEY, qty, 100.0, Some(1), None)]
            && s.orders == [Order(KEY, ShortSell, qty, Filled(100.0)), Order(KEY, StopBuy, qty, Live)]
            && "X" in s.book && s.book["X"].key == KEY && s.book["X"].qty == qty
            && s.book["X"].stopOrder == Some(1) && s.book["X"].exitOrder.None?
  {
    var sig := Signal(KEY, MORNING, Some(2.0));
    qty := E.SharesForNotional(cfg.notional, 100.0);
    es := [] + [Detect(sig, false)] + [Enqueue] + [Entering()];
    OneMore([], Detect(sig, false), cfg);
    OneMore([] + [Detect(sig, false)], Enqueue, cfg);
    OneMore([] + [Detect(sig, false)] + [Enqueue], Entering(), cfg);
    var queued := EMPTY.(recorded := {KEY}, queue := [sig]);
    assert Run(EMPTY, [] + [Detect(sig, false)] + [Enqueue], cfg) == queued;
    assert Gated(queued, sig, MORNING, {}, cfg);
    assert qty > 0 by {
      assert 100.0 <= cfg.notional;
    }
  }

  /** One sale and two buys of the same size have filled. */
  lemma TwoBuysAgainstOneSale(orders: seq<Order>, qty: int)
    requires qty > 0 && |orders| == 3
    requires FilledSale(orders[0], KEY) && FilledBuy(orders[1], KEY) && FilledBuy(orders[2], KEY)
    requires orders[0].qty == qty && orders[1].qty == qty && orders[2].qty == qty
    ensures Bought(orders, KEY) == 2 * qty && Sold(orders, KEY) == qty
  {
    var two, one := orders[..2], orders[..1];
    assert two[..1] == one && one[..0] == [] && orders[..2][1] == orders[1] && one[0] == orders[0];
    assert Bought(one, KEY) == 0 && Sold(one, KEY) == qty;
    assert Bought(two, KEY) == qty && Sold(two, KEY) == qty;
  }

  /** The flatten does not poll the stop: a short whose stop has just filled is covered again. */
  lemma FlattenCoversAFilledStop(cfg: Config) returns (es: seq<Event>)
    requires Suits(cfg)
    ensures var t := Run(EMPTY, es, cfg); Bought(t.orders, KEY) > Sold(t.orders, KEY)
  {
    var before, qty := OneShort(cfg);
    var flatten := FlattenShort("X", CloseEnv(true, false, FilledAt(102.0), false));
    es := before + [BrokerFills(1, 101.0)] + [flatten];
    OneMore(before, BrokerFills(1, 101.0), cfg);
    OneMore(before + [BrokerFills(1, 101.0)], flatten, cfg);
    TwoBuysAgainstOneSale(Run(EMPTY, es, cfg).orders, qty);
  }

  /** A stop that outlives its swallowed cancel can still fill after the cover has. */
  lemma LostCancelOverBuys(cfg: Config) returns (es: seq<Event>)
    requires Suits(cfg)
    ensures var t := Run(EMPTY, es, cfg); Bought(t.orders, KEY) > Sold(t.orders, KEY)
  {
    var before, qty := OneShort(cfg);
    var flatten := FlattenShort("X", CloseEnv(false, false, FilledAt(99.0), false));
    es := before + [flatten] + [BrokerFills(1, 101.0)];
    OneMore(before, flatten, cfg);
    OneMore(before + [flatten], BrokerFills(1, 101.0), cfg);
    TwoBuysAgainstOneSale(Run(EMPTY, es, cfg).orders, qty);
  }
}
