/** What the scanner book sends to the broker: at most one cover per short in a process, and one
    short sale per event over all of them. */
module ScannerOrders {
  import opened Prelude
  import opened ScannerBook
  import opened ScannerSafety

  ghost predicate Is(s: State, i: int, kind: Kind, k: Key) {
    0 <= i < |s.orders| && s.orders[i].kind == kind && s.orders[i].key == k
  }

  // ---- At most one cover ------------------------------------------------------------

  /** Counting from order base on: a key has at most one cover, a tracked short without an
      exit order has none, and one with an exit order has exactly that one. */
  ghost predicate Covers(s: State, base: nat) {
    && base <= |s.orders|
    && (forall i, j, k | base <= i < j && Is(s, i, Cover, k) :: !Is(s, j, Cover, k))
    && (forall t <- s.book :: CoverOf(s, base, t))
  }

  ghost predicate CoverOf(s: State, base: nat, t: string)
    requires t in s.book
  {
    var r := s.book[t];
    if r.exitOrder.Some? then r.exitOrder.value >= base && Is(s, r.exitOrder.value, Cover, r.key)
    else forall i | base <= i :: !Is(s, i, Cover, r.key)
  }

  /** Statuses may change, records may lose their stop, shorts may be dropped: nothing here
      adds a cover. */
  ghost predicate NoNewCover(s: State, t: State) {
    && |s.orders| <= |t.orders|
    && (forall i, k :: Is(t, i, Cover, k) <==> Is(s, i, Cover, k))
    && t.book.Keys <= s.book.Keys
    && forall u <- t.book :: t.book[u].key == s.book[u].key && t.book[u].exitOrder == s.book[u].exitOrder
  }

  lemma NoNewCoverKeepsCovers(s: State, t: State, base: nat)
    requires Covers(s, base) && NoNewCover(s, t)
    ensures Covers(t, base)
  {
    forall u <- t.book ensures CoverOf(t, base, u) {
      assert CoverOf(s, base, u);
    }
  }

  lemma SendCoverKeepsCovers(s: State, cfg: Config, ticker: string, reason: Reason, fill: FillReply, base: nat)
    requires Inv(s, cfg) && Covers(s, base)
    requires ticker in s.book && s.book[ticker].exitOrder.None?
    ensures Covers(SendCover(s, ticker, reason, fill), base)
  {
    var t := SendCover(s, ticker, reason, fill);
    var key := s.book[ticker].key;
    assert CoverOf(s, base, ticker);
    forall i, k ensures Is(t, i, Cover, k) <==> Is(s, i, Cover, k) || (i == |s.orders| && k == key) {}
    forall u <- t.book ensures CoverOf(t, base, u) {
      assert CoverOf(s, base, u);
      assert Tracks(s, u) && Tracks(s, ticker);
    }
  }

  lemma UnprotectKeepsCovers(s: State, ticker: string, takes: bool, base: nat)
    requires Covers(s, base) && ticker in s.book
    ensures Covers(Unprotect(s, ticker, takes), base)
  {
    NoNewCoverKeepsCovers(s, Unprotect(s, ticker, takes), base);
  }

  lemma BookedKeepsCovers(s: State, ticker: string, price: real, reason: Reason, order: nat, raises: bool, base: nat)
    requires Covers(s, base) && ticker in s.book
    ensures Covers(Booked(s, ticker, price, reason, order, raises), base)
  {
    NoNewCoverKeepsCovers(s, Booked(s, ticker, price, reason, order, raises), base);
  }

  lemma CloseKeepsCovers(s: State, cfg: Config, ticker: string, reason: Reason, env: CloseEnv, base: nat)
    requires Inv(s, cfg) && Covers(s, base)
    requires ticker in s.book && s.book[ticker].exitOrder.None?
    ensures Covers(Close(s, ticker, reason, env), base)
  {
    var unprotected := Unprotect(s, ticker, env.cancelTakes);
    UnprotectKeepsCovers(s, ticker, env.cancelTakes, base);
    UnprotectKeepsInv(s, cfg, ticker, env.cancelTakes);
    if !env.submitRaises {
      SendCoverKeepsCovers(unprotected, cfg, ticker, reason, env.fill, base);
      if env.fill.FilledAt? {
        BookedKeepsCovers(SendCover(unprotected, ticker, reason, env.fill), ticker, env.fill.price, reason,
                          |s.orders|, env.bookRaises, base);
      }
    }
  }

  lemma EnterKeepsCovers(s: State, sig: Signal, qty: int, fate: EntryFate, base: nat)
    requires Covers(s, base)
    requires forall i | 0 <= i < |s.orders| :: s.orders[i].key != sig.key
    ensures Covers(Enter(s, sig, qty, fate), base)
  {
    var t := Enter(s, sig, qty, fate);
    forall i, k ensures Is(t, i, Cover, k) <==> Is(s, i, Cover, k) {}
    forall u <- t.book ensures CoverOf(t, base, u) {
      if u in s.book {
        assert CoverOf(s, base, u);
      }
    }
  }

  lemma HandleKeepsCovers(s: State, e: Event, cfg: Config, base: nat)
    requires Inv(s, cfg) && Covers(s, base) && e.Handle?
    ensures Covers(HandleSignal(s, e, cfg), base)
  {
    if s.queue != [] {
      var popped := s.(queue := s.queue[1..]);
      PopKeepsInv(s, cfg);
      NoNewCoverKeepsCovers(s, popped, base);
      EnterKeepsCovers(popped, s.queue[0], EntryQty(e.reply, cfg), e.fate, base);
    }
  }

  lemma AdvanceKeepsCovers(s: State, e: Event, cfg: Config, base: nat)
    requires Inv(s, cfg) && Covers(s, base) && e.AdvanceShort?
    ensures Covers(Advance(s, e), base)
  {
    if e.ticker in s.book {
      var r := s.book[e.ticker];
      var exit := E.EvaluateExit(r.openedAt, r.stopPrice, e.now, if r.stopOrder.None? then e.quote else None);
      if r.exitOrder.None? && exit.Some? {
        CloseKeepsCovers(s, cfg, e.ticker, Because(exit.value), e.env, base);
      }
      forall price, reason, order: nat {
        BookedKeepsCovers(s, e.ticker, price, reason, order, e.env.bookRaises, base);
      }
    }
  }

  lemma StepKeepsCovers(s: State, e: Event, cfg: Config, base: nat)
    requires Inv(s, cfg) && Covers(s, base) && !e.Restart?
    ensures Covers(Step(s, e, cfg), base)
  {
    match e
    case Handle(_, _, _, _) => HandleKeepsCovers(s, e, cfg, base);
    case AdvanceShort(_, _, _, _, _) => AdvanceKeepsCovers(s, e, cfg, base);
    case FlattenShort(ticker, env) =>
      if ticker in s.book && s.book[ticker].exitOrder.None? {
        CloseKeepsCovers(s, cfg, ticker, Because(E.EodFailsafe), env, base);
      }
    case _ =>
      NoNewCoverKeepsCovers(s, Step(s, e, cfg), base);
  }

  lemma {:induction false} RunKeepsCovers(s: State, es: seq<Event>, cfg: Config, base: nat)
    requires Inv(s, cfg) && Covers(s, base) && OneProcess(es)
    ensures Covers(Run(s, es, cfg), base)
  {
    if es != [] {
      var init := es[..|es| - 1];
      RunKeepsCovers(s, init, cfg, base);
      RunKeepsInv(s, init, cfg);
      StepKeepsCovers(Run(s, init, cfg), es[|es| - 1], cfg, base);
    }
  }

  /** How many covers the broker accepted for a key, from order base on. */
  function CoverCount(orders: seq<Order>, k: Key): nat {
    if orders == [] then 0
    else
      var last := orders[|orders| - 1];
      CoverCount(orders[..|orders| - 1], k) + if last.kind.Cover? && last.key == k then 1 else 0
  }

  lemma {:induction false} AtMostOne(orders: seq<Order>, k: Key)
    requires forall i, j | 0 <= i < j < |orders| ::
               !(orders[i].kind.Cover? && orders[i].key == k && orders[j].kind.Cover? && orders[j].key == k)
    ensures CoverCount(orders, k) <= 1
    ensures (forall i | 0 <= i < |orders| :: !(orders[i].kind.Cover? && orders[i].key == k)) ==> CoverCount(orders, k) == 0
  {
    if orders != [] {
      AtMostOne(orders[..|orders| - 1], k);
    }
  }

  /** Main result: in one process each short gets at most one accepted cover, even when fill
      waits, booking or submission raise and are retried, and across the 15:55 flatten. */
  lemma OneCoverPerShort(past: seq<Event>, startup: Startup, es: seq<Event>, cfg: Config, k: Key)
    requires OneProcess(es)
    ensures var s := Run(EMPTY, past + [Restart(startup)], cfg);
            var t := Run(s, es, cfg);
            |s.orders| <= |t.orders| && CoverCount(t.orders[|s.orders|..], k) <= 1
  {
    var begin := past + [Restart(startup)];
    var s := Run(EMPTY, begin, cfg);
    RunKeepsInv(EMPTY, begin, cfg);
    assert begin[..|begin| - 1] == past;
    RestartEmptiesQueues(Run(EMPTY, past, cfg), startup, cfg);
    assert Covers(s, |s.orders|);
    RunKeepsCovers(s, es, cfg, |s.orders|);
    var t := Run(s, es, cfg);
    var sent := t.orders[|s.orders|..];
    forall i, j | 0 <= i < j < |sent|
      ensures !(sent[i].kind.Cover? && sent[i].key == k && sent[j].kind.Cover? && sent[j].key == k)
    {
      assert Is(t, i + |s.orders|, Cover, k) <==> sent[i].kind.Cover? && sent[i].key == k;
      assert Is(t, j + |s.orders|, Cover, k) <==> sent[j].kind.Cover? && sent[j].key == k;
    }
    AtMostOne(sent, k);
  }

  // ---- At most one entry ------------------------------------------------------------------

  ghost predicate EntriesUnique(s: State) {
    forall i, j, k | 0 <= i < j && Is(s, i, ShortSell, k) :: !Is(s, j, ShortSell, k)
  }

  /** No short sale is added, and existing orders keep their identity. */
  ghost predicate NoNewEntry(s: State, t: State) {
    forall i, k :: Is(t, i, ShortSell, k) <==> Is(s, i, ShortSell, k)
  }

  lemma CloseAddsNoEntry(s: State, ticker: string, reason: Reason, env: CloseEnv)
    requires ticker in s.book
    ensures NoNewEntry(s, Close(s, ticker, reason, env))
  {}

  lemma {:induction false} SweepAddsNoEntry(s: State, i: nat, fates: seq<RowFate>)
    ensures NoNewEntry(s, SweepFrom(s, i, fates))
    decreases |s.rows| - i
  {
    if i < |s.rows| {
      if s.rows[i].exit.Some? {
        SweepAddsNoEntry(s, i + 1, fates);
      } else if i < |fates| {
        assert NoNewEntry(s, SweepRow(s, i, fates[i]));
        if !Dies(fates[i]) {
          SweepAddsNoEntry(SweepRow(s, i, fates[i]), i + 1, fates);
        }
      }
    }
  }

  lemma HandleKeepsEntries(s: State, e: Event, cfg: Config)
    requires Inv(s, cfg) && EntriesUnique(s) && e.Handle?
    ensures EntriesUnique(HandleSignal(s, e, cfg))
  {
    var t := HandleSignal(s, e, cfg);
    if s.queue != [] {
      PopKeepsInv(s, cfg);
      var key := s.queue[0].key;
      forall i, k | Is(t, i, ShortSell, k) && !Is(s, i, ShortSell, k) ensures i == |s.orders| && k == key {}
    }
  }

  lemma AdvanceAddsNoEntry(s: State, e: Event)
    requires e.AdvanceShort?
    ensures NoNewEntry(s, Advance(s, e))
  {
    if e.ticker in s.book {
      var r := s.book[e.ticker];
      var exit := E.EvaluateExit(r.openedAt, r.stopPrice, e.now, if r.stopOrder.None? then e.quote else None);
      if exit.Some? {
        CloseAddsNoEntry(s, e.ticker, Because(exit.value), e.env);
      }
    }
  }

  lemma RestartAddsNoEntry(s: State, startup: Startup, cfg: Config)
    ensures NoNewEntry(s, Step(s, Restart(startup), cfg))
  {
    var restarted := s.(staged := [], queue := [], book := map[]);
    assert NoNewEntry(s, restarted);
    if startup.Sweep? {
      SweepAddsNoEntry(restarted, 0, startup.fates);
    }
  }

  lemma StepKeepsEntries(s: State, e: Event, cfg: Config)
    requires Inv(s, cfg) && EntriesUnique(s)
    ensures EntriesUnique(Step(s, e, cfg))
  {
    match e
    case Handle(_, _, _, _) => HandleKeepsEntries(s, e, cfg);
    case AdvanceShort(_, _, _, _, _) => AdvanceAddsNoEntry(s, e);
    case FlattenShort(ticker, env) =>
      if ticker in s.book {
        CloseAddsNoEntry(s, ticker, Because(E.EodFailsafe), env);
      }
    case Restart(startup) => RestartAddsNoEntry(s, startup, cfg);
    case _ => assert NoNewEntry(s, Step(s, e, cfg));
  }

  lemma {:induction false} RunKeepsEntries(es: seq<Event>, cfg: Config)
    ensures EntriesUnique(Run(EMPTY, es, cfg))
  {
    if es != [] {
      RunKeepsEntries(es[..|es| - 1], cfg);
      RunKeepsInv(EMPTY, es[..|es| - 1], cfg);
      StepKeepsEntries(Run(EMPTY, es[..|es| - 1], cfg), es[|es| - 1], cfg);
    }
  }

  /** Main result: over every run, restarts included, one event never sends two short sales. */
  lemma OneEntryPerEvent(es: seq<Event>, cfg: Config, i: int, j: int)
    requires var orders := Run(EMPTY, es, cfg).orders;
             0 <= i < j < |orders| && orders[i].kind.ShortSell? && orders[j].kind.ShortSell?
    ensures Run(EMPTY, es, cfg).orders[i].key != Run(EMPTY, es, cfg).orders[j].key
  {
    RunKeepsEntries(es, cfg);
    var s := Run(EMPTY, es, cfg);
    assert Is(s, i, ShortSell, s.orders[i].key) && Is(s, j, ShortSell, s.orders[j].key);
  }
}
