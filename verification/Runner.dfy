/**
  The session loop over a ledger and a simulator: open, book, mark, submit. Every
  method does exactly what the run as a function says.
  (src/stock_agent/backtest/runner.py, `_run_isolated`.)
 */
module Runner {
  import opened Common
  import opened Fifo
  import opened Book
  import opened Log
  import opened Ledger
  import opened Calendar
  import opened Rules
  import opened OrderDesk
  import opened Simulator
  import opened Settlement
  import opened Backtest
  import opened Sessions
  import opened RunSpec

  // ---- the derived quantity map ----

  function Get(m: map<Symbol, real>, s: Symbol): real {
    if s in m then m[s] else 0.0
  }

  function LotSum(lots: seq<OpenLot>, s: Symbol): real {
    if lots == [] then 0.0
    else
      var last := lots[|lots| - 1];
      LotSum(lots[..|lots| - 1], s) + if last.symbol == s then last.lot.quantity else 0.0
  }

  lemma {:induction false} LotSumConcat(a: seq<OpenLot>, c: seq<OpenLot>, s: Symbol)
    ensures LotSum(a + c, s) == LotSum(a, s) + LotSum(c, s)
  {
    if c == [] {
      assert a + c == a;
    } else {
      var front := c[..|c| - 1];
      assert (a + c)[..|a + c| - 1] == a + front;
      LotSumConcat(a, front, s);
    }
  }

  lemma {:induction false} LotSumOfHolding(k: Symbol, lots: seq<Lot>, s: Symbol)
    ensures LotSum(TagLots(k, lots), s) == if k == s then Quantity(lots) else 0.0
  {
    if lots == [] {
    } else {
      var head := [OpenLot(k, lots[0])];
      assert TagLots(k, lots) == head + TagLots(k, lots[1..]);
      assert head[..0] == [];
      assert LotSum(head, s) == LotSum(head[..0], s) + if k == s then lots[0].quantity else 0.0;
      LotSumConcat(head, TagLots(k, lots[1..]), s);
      LotSumOfHolding(k, lots[1..], s);
    }
  }

  lemma {:induction false} LotSumFrom(h: Holdings, keys: seq<Symbol>, s: Symbol)
    requires StrictlyAscending(keys) && forall k :: k in keys ==> k in h
    ensures LotSum(OpenLotsFrom(h, keys), s) == if s in keys then Quantity(h[s].lots) else 0.0
  {
    if keys == [] {
    } else {
      var k := keys[0];
      assert k in keys;
      assert s in keys <==> s == k || s in keys[1..];
      assert forall i :: 0 <= i < |keys[1..]| ==> k < keys[1..][i];
      LotSumFrom(h, keys[1..], s);
      LotSumOfHolding(k, h[k].lots, s);
      LotSumConcat(TagLots(k, h[k].lots), OpenLotsFrom(h, keys[1..]), s);
    }
  }

  /** A symbol is held exactly when its quantity is positive. */
  lemma {:induction false} HeldIffPositive(b: Book, s: Symbol)
    requires Sound(b)
    ensures Held(b, s) >= 0.0 && (s in b.holdings <==> Held(b, s) > 0.0)
  {
    if s in b.holdings {
      QuantityNonnegative(b.holdings[s].lots);
    }
  }

  lemma {:induction false} FillMovesHeld(b: Book, date: Date, f: BookedFill, s: Symbol)
    requires Sound(b) && ValidFill(f) && ApplyFill(b, date, f).Ok?
    ensures Held(ApplyFill(b, date, f).value, s) ==
            Held(b, s) + if f.symbol != s then 0.0 else if f.side == Buy then f.quantity else -f.quantity
  {
    if f.symbol == s {
      if f.side == Buy {
        var lot := BoughtLot(date, f);
        QuantityConcat(LotsOf(b, s), [lot]);
        assert [lot][1..] == [];
        assert Quantity([lot]) == lot.quantity + Quantity([]);
      } else {
        ConsumeConserves(LotsOf(b, s), f.quantity);
      }
    }
  }

  /** Total quantity of every symbol among the public lots. */
  method SumLots(lots: seq<OpenLot>, ghost b: Book) returns (quantities: map<Symbol, real>)
    requires Sound(b) && lots == OpenLots(b)
    ensures Shadows(quantities, b)
  {
    hide *;
    quantities := map[];
    NothingSummed();
    assert lots[..0] == [];
    for i := 0 to |lots|
      invariant SumsTo(quantities, lots[..i])
    {
      var open := lots[i];
      AddLot(quantities, lots[..i], open);
      assert lots[..i + 1] == lots[..i] + [open];
      quantities := quantities[open.symbol := Get(quantities, open.symbol) + open.lot.quantity];
    }
    assert lots[..|lots|] == lots;
    SumsToHeld(quantities, b);
  }

  ghost predicate SumsTo(quantities: map<Symbol, real>, lots: seq<OpenLot>) {
    forall s :: Get(quantities, s) == LotSum(lots, s)
  }

  lemma {:induction false} NothingSummed()
    ensures SumsTo(map[], [])
  {}

  lemma {:induction false} AddLot(quantities: map<Symbol, real>, lots: seq<OpenLot>, open: OpenLot)
    requires SumsTo(quantities, lots)
    ensures SumsTo(quantities[open.symbol := Get(quantities, open.symbol) + open.lot.quantity], lots + [open])
  {
    var next := quantities[open.symbol := Get(quantities, open.symbol) + open.lot.quantity];
    assert (lots + [open])[..|lots|] == lots;
    forall s ensures Get(next, s) == LotSum(lots + [open], s) {
      assert Get(quantities, s) == LotSum(lots, s);
    }
  }

  lemma {:induction false} SumsToHeld(quantities: map<Symbol, real>, b: Book)
    requires SumsTo(quantities, OpenLots(b))
    ensures Shadows(quantities, b)
  {
    forall s ensures Get(quantities, s) == Held(b, s) {
      LotSumFrom(b.holdings, Sorted(b.holdings.Keys), s);
    }
  }

  function MoveQuantity(quantities: map<Symbol, real>, x: BookedFill): map<Symbol, real> {
    var now := Get(quantities, x.symbol);
    quantities[x.symbol := if x.side == Buy then now + x.quantity else now - x.quantity]
  }

  /** The quantity map shows what the book holds. */
  ghost predicate Shadows(quantities: map<Symbol, real>, b: Book) {
    forall s :: Get(quantities, s) == Held(b, s)
  }

  /** One more booked fill moves the quantity map as it moves the ledger. */
  lemma {:induction false} QuantityFollows(quantities: map<Symbol, real>, b: Book, date: Date, x: BookedFill)
    requires Sound(b) && ValidFill(x) && ApplyFill(b, date, x).Ok?
    requires Shadows(quantities, b)
    ensures Shadows(MoveQuantity(quantities, x), ApplyFill(b, date, x).value)
  {
    var next := MoveQuantity(quantities, x);
    forall s ensures Get(next, s) == Held(ApplyFill(b, date, x).value, s) {
      FillMovesHeld(b, date, x, s);
      assert Get(quantities, s) == Held(b, s);
    }
  }

  lemma {:induction false} PositiveAreHeld(quantities: map<Symbol, real>, b: Book)
    requires Sound(b) && Shadows(quantities, b)
    ensures (set s | s in quantities && quantities[s] > 0.0) == b.holdings.Keys
  {
    forall s ensures s in quantities && quantities[s] > 0.0 <==> s in b.holdings {
      HeldIffPositive(b, s);
      assert Get(quantities, s) == Held(b, s);
    }
  }

  /** The booked fills, and the symbols held after them, from the public lots alone. */
  method DeriveBatch(lots: seq<OpenLot>, fills: seq<Fill>, date: Date, ghost b: Book)
    returns (booked: seq<BookedFill>, held: seq<Symbol>)
    requires Sound(b) && lots == OpenLots(b)
    requires AllBookable(Bookings(date, fills)) && ApplyFills(b, date, Bookings(date, fills)).Ok?
    ensures booked == Bookings(date, fills)
    ensures held == Sorted(ApplyFills(b, date, booked).value.holdings.Keys)
  {
    var quantities := SumLots(lots, b);
    booked := [];
    ghost var current, all := b, Bookings(date, fills);
    for i := 0 to |fills|
      invariant booked == Bookings(date, fills[..i]) && AllBookable(booked)
      invariant ApplyFills(b, date, booked) == Ok(current) && Sound(current)
      invariant Shadows(quantities, current)
    {
      BookingsNext(date, fills, i);
      BookingsGrow(date, fills, i + 1);
      if fills[i].status == FILLED && fills[i].price.Some? {
        var x := BookingOf(date, fills[i]);
        NextBookingApplies(b, date, booked, x, all);
        QuantityFollows(quantities, current, date, x);
        quantities := MoveQuantity(quantities, x);
        current := ApplyFill(current, date, x).value;
        booked := booked + [x];
      }
    }
    BookingsWhole(date, fills);
    PositiveAreHeld(quantities, current);
    held := Sorted(set s | s in quantities && quantities[s] > 0.0);
  }

  lemma {:induction false} BookingsWhole(date: Date, fills: seq<Fill>)
    ensures Bookings(date, fills[..|fills|]) == Bookings(date, fills)
  {
    assert fills[..|fills|] == fills;
  }

  lemma {:induction false} BookingsNext(date: Date, fills: seq<Fill>, i: nat)
    requires i < |fills|
    ensures Bookings(date, fills[..i + 1]) == Bookings(date, fills[..i]) +
            if fills[i].status == FILLED && fills[i].price.Some? then [BookingOf(date, fills[i])] else []
  {
    assert fills[..i + 1][..i] == fills[..i];
  }

  lemma {:induction false} BookingsGrow(date: Date, fills: seq<Fill>, n: nat)
    requires n <= |fills|
    ensures Bookings(date, fills[..n]) <= Bookings(date, fills)
  {
    if n < |fills| {
      var front := fills[..|fills| - 1];
      BookingsGrow(date, front, n);
      assert front[..n] == fills[..n];
    } else {
      assert fills[..n] == fills;
    }
  }

  lemma {:induction false} NextBookingApplies(b: Book, date: Date, booked: seq<BookedFill>, x: BookedFill, all: seq<BookedFill>)
    requires Sound(b) && AllBookable(all) && ApplyFills(b, date, all).Ok?
    requires booked + [x] <= all && AllBookable(booked) && ApplyFills(b, date, booked).Ok?
    ensures ValidFill(x) && AllBookable(booked + [x]) && ApplyFills(b, date, booked + [x]).Ok?
    ensures ApplyFills(b, date, booked + [x]) == ApplyFill(ApplyFills(b, date, booked).value, date, x)
  {
    var n := |booked|;
    assert all[n] == x && x in all;
    assert all[..n + 1] == booked + [x];
    ApplyFillsAppend(b, date, booked, x);
    if ApplyFills(b, date, all[..n + 1]).Err? {
      FillsErrPropagates(b, date, all, n + 1);
    }
  }

  function SymbolsOf(positions: seq<Position>): (r: seq<Symbol>)
    ensures |r| == |positions| && forall i :: 0 <= i < |r| ==> r[i] == positions[i].symbol
  {
    seq(|positions|, i requires 0 <= i < |positions| => positions[i].symbol)
  }

  lemma {:induction false} PositionSymbols(b: Book)
    requires Sound(b)
    ensures SymbolsOf(Positions(b)) == Sorted(b.holdings.Keys)
  {
  }

  // ---- the ledger of a run ----

  ghost predicate Owns(spec: Spec, ledger: PortfolioLedger)
    reads ledger
  {
    && ledger.Valid() && ledger.account == spec.account && ledger.market == spec.market
    && ledger.events != [] && LogReady(spec, ledger.events)
  }

  ghost function BookIn(ledger: PortfolioLedger): (b: Book)
    requires ledger.events != [] && Replay(ledger.events).Ok?
    reads ledger
    ensures Sound(b)
  {
    Replay(ledger.events).value
  }

  lemma {:induction false} LedgerShowsItsBook(spec: Spec, ledger: PortfolioLedger)
    requires Owns(spec, ledger)
    ensures ledger.cash == Some(BookIn(ledger).cash) && ledger.lots == Some(OpenLots(BookIn(ledger)))
    ensures ledger.positions == Some(Positions(BookIn(ledger)))
  {
    EverythingSurvives(ledger.events);
  }

  /** Append the batch an open produced; it is refused, and the log stays, exactly when an open cannot be recorded. */
  method BookOpenBatch(spec: Spec, s: Session, ledger: PortfolioLedger, fills: seq<Fill>, ghost after: Book)
    returns (ok: bool)
    requires ValidSession(spec, s) && Owns(spec, ledger) && LogBefore(ledger.events, s.date, s.openAt)
    requires BatchReady(spec, s, BookIn(ledger), fills)
    requires ApplyFills(BookIn(ledger), s.date, Bookings(s.date, fills)) == Ok(after)
    modifies ledger
    ensures Owns(spec, ledger)
    ensures ok <==> OpensRecordable(s, after)
    ensures forall i :: 0 <= i < |Sorted(after.holdings.Keys)| ==> Sorted(after.holdings.Keys)[i] in s.opens
    ensures ok ==> ledger.events ==
                   old(ledger.events) + [BatchEvent(spec, s, Bookings(s.date, fills), Sorted(after.holdings.Keys))]
    ensures !ok ==> unchanged(ledger)
  {
    LedgerShowsItsBook(spec, ledger);
    BatchAppends(spec, s, ledger.events, fills, after);
    var booked, held := DeriveBatch(ledger.lots.value, fills, s.date, BookIn(ledger));
    var done := ledger.Append(BatchEvent(spec, s, booked, held));
    ok := done.Ok?;
  }

  /** Mark everything held at the close. */
  method MarkClose(spec: Spec, s: Session, ledger: PortfolioLedger)
    requires ValidSession(spec, s) && Owns(spec, ledger) && LogDuring(ledger.events, s, false)
    requires BookReady(spec, BookIn(ledger), s.date) && BookIn(ledger).holdings.Keys <= s.closes.Keys
    modifies ledger
    ensures Owns(spec, ledger)
    ensures ledger.events == old(ledger.events) + [MarkOf(spec, s, old(ledger.events))]
  {
    LedgerShowsItsBook(spec, ledger);
    MarkAppends(spec, s, ledger.events);
    var held := SymbolsOf(ledger.positions.value);
    PositionSymbols(BookIn(ledger));
    var done := ledger.Append(MarkEvent(spec, s, held));
  }

  // ---- one session on the objects ----

  ghost function StageOf(ledger: PortfolioLedger, sim: ExecutionSimulator): (st: Stage)
    reads ledger, sim
    ensures st.log == ledger.events
  {
    Stage(ledger.events, sim.State())
  }

  /** Ledger and simulator as the i-th open needs them. */
  ghost predicate AtOpen(spec: Spec, i: nat, ledger: PortfolioLedger, sim: ExecutionSimulator)
    requires i < |spec.sessions|
    reads ledger, sim
  {
    Owns(spec, ledger) && sim.Valid() && StageReady(spec, i, StageOf(ledger, sim))
  }

  /** Drain the queue at the i-th open against the ledger's own lots and cash. */
  method DrainOpen(spec: Spec, i: nat, ledger: PortfolioLedger, sim: ExecutionSimulator) returns (fills: seq<Fill>)
    requires ValidSpec(spec) && i < |spec.sessions| && AtOpen(spec, i, ledger, sim)
    modifies sim
    ensures sim.Valid()
    ensures fills == OpenAt(spec, i, old(StageOf(ledger, sim))).fills
    ensures sim.State() == OpenAt(spec, i, old(StageOf(ledger, sim))).desk
  {
    LedgerShowsItsBook(spec, ledger);
    OpenIsReady(spec, i, StageOf(ledger, sim));
    var processed := sim.ProcessSession(OpenFrame(spec, spec.sessions[i], ledger.lots.value, ledger.cash.value));
    fills := processed.value;
  }

  /** Book what filled, if anything did. */
  method BookFilled(spec: Spec, i: nat, ledger: PortfolioLedger, fills: seq<Fill>, ghost st: Stage) returns (ok: bool)
    requires ValidSpec(spec) && i < |spec.sessions| && StageReady(spec, i, st)
    requires Owns(spec, ledger) && ledger.events == st.log && fills == OpenAt(spec, i, st).fills
    modifies ledger
    ensures Owns(spec, ledger)
    ensures ok <==> Recordable(spec.sessions[i], OpenAt(spec, i, st))
    ensures ledger.events == if ok then LogOpened(spec, i, st) else st.log
  {
    hide StageReady, OpenAt, Slice, ValidSession, LogReady, BookReady, LogBefore, LogDuring;
    ghost var s, o := spec.sessions[i], OpenAt(spec, i, st);
    OpenMeaning(spec, i, st);
    StageParts(spec, i, st);
    if exists k :: 0 <= k < |fills| && fills[k].status == FILLED && fills[k].price.Some? {
      SomethingBooked(spec.sessions[i].date, fills);
      ok := BookOpenBatch(spec, spec.sessions[i], ledger, fills, o.book);
    } else {
      NothingBooked(spec.sessions[i].date, fills);
      ok := true;
      assert st.log + [] == st.log;
    }
  }

  lemma {:induction false} StageParts(spec: Spec, i: nat, st: Stage)
    requires i < |spec.sessions| && StageReady(spec, i, st)
    ensures ValidSession(spec, spec.sessions[i])
    ensures Replay(st.log).Ok? && LogBefore(st.log, spec.sessions[i].date, spec.sessions[i].openAt)
  {}

  /** Open, book and mark one session; it stops before the mark exactly when the batch cannot be recorded. */
  method TradeSession(spec: Spec, i: nat, ledger: PortfolioLedger, sim: ExecutionSimulator)
    returns (fills: seq<Fill>, finished: bool)
    requires ValidSpec(spec) && i < |spec.sessions| && AtOpen(spec, i, ledger, sim)
    modifies ledger, sim
    ensures Owns(spec, ledger) && sim.Valid()
    ensures fills == OpenAt(spec, i, old(StageOf(ledger, sim))).fills
    ensures sim.State() == OpenAt(spec, i, old(StageOf(ledger, sim))).desk
    ensures finished <==> Recordable(spec.sessions[i], OpenAt(spec, i, old(StageOf(ledger, sim))))
    ensures ledger.events ==
            if finished then LogClosed(spec, i, old(StageOf(ledger, sim))) else old(ledger.events)
  {
    hide StageReady, OpenAt, Slice, ValidSession, Recordable, LogOpened, SameLots;
    ghost var st := StageOf(ledger, sim);
    fills := DrainOpen(spec, i, ledger, sim);
    finished := BookFilled(spec, i, ledger, fills, st);
    if finished {
      OpenedLogIsReady(spec, i, st);
      StageParts(spec, i, st);
      MarkClose(spec, spec.sessions[i], ledger);
    }
  }

  /** Submit a plan order by order. */
  method SubmitPlan(spec: Spec, date: Date, plan: seq<PlannedOrder>, sim: ExecutionSimulator) returns (subs: seq<Fill>)
    requires sim.Valid() && forall k :: 0 <= k < |plan| ==> plan[k].quantity > 0.0
    modifies sim
    ensures sim.Valid()
    ensures (sim.State(), subs) == SubmitAll(spec, date, old(sim.State()), plan)
  {
    subs := [];
    ghost var start := sim.State();
    assert plan[..0] == [];
    for k := 0 to |plan|
      invariant sim.Valid() && (sim.State(), subs) == SubmitAll(spec, date, start, plan[..k])
    {
      SubmitAllNext(spec, date, start, plan, k);
      var fill := sim.Submit(IntentFor(spec, date, plan[k]), date);
      subs := subs + [fill];
    }
    assert plan[..|plan|] == plan;
  }

  // ---- the whole run ----

  method OpenLedger(spec: Spec) returns (ledger: PortfolioLedger)
    requires ValidSpec(spec)
    ensures fresh(ledger) && Owns(spec, ledger) && ledger.events == StartStage(spec).log
  {
    hide *;
    StartLogReady(spec);
    ledger := new PortfolioLedger(spec.account, spec.market);
    var opening := OpeningEvent(spec, spec.sessions[0].openAt - 1);
    StartLogAccepted(spec, ledger.events, opening);
    var started := ledger.Append(opening);
    OwnsItsLog(spec, ledger, StartStage(spec).log);
  }

  lemma {:induction false} StartLogAccepted(spec: Spec, before: seq<Event>, opening: Event)
    requires spec.sessions != [] && LogReady(spec, StartStage(spec).log) && before == []
    requires opening == OpeningEvent(spec, spec.sessions[0].openAt - 1)
    ensures before + [opening] == StartStage(spec).log && Accepted(spec.account, spec.market, before + [opening])
  {
    hide Accepted, Replay, NoReversals, BatchesSettled, OpeningEvent;
    assert before + [opening] == [opening];
  }

  lemma {:induction false} OwnsItsLog(spec: Spec, ledger: PortfolioLedger, log: seq<Event>)
    requires ledger.Valid() && ledger.account == spec.account && ledger.market == spec.market
    requires ledger.events == log && log != [] && LogReady(spec, log)
    ensures Owns(spec, ledger)
  {
    hide LogReady, PortfolioLedger.Valid;
  }

  /** A run opens with its initial cash just before the first open, on an empty desk. */
  method StartRun(spec: Spec) returns (ledger: PortfolioLedger, sim: ExecutionSimulator)
    requires ValidSpec(spec)
    ensures fresh(ledger) && fresh(sim) && Owns(spec, ledger) && sim.Valid() && StageOf(ledger, sim) == StartStage(spec)
  {
    hide *;
    FirstDeskIsValid(spec);
    ledger := OpenLedger(spec);
    sim := new ExecutionSimulator(map[spec.market := spec.calendar], map[spec.market := spec.bps]);
    StartsThere(spec, ledger, sim);
  }

  lemma {:induction false} FirstDeskIsValid(spec: Spec)
    requires ValidSpec(spec)
    ensures spec.sessions != []
    ensures var d := Desk(map[spec.market := spec.calendar], map[CN := 12.0, US := 5.0] + map[spec.market := spec.bps],
                          [], {}, map[]);
            d == FirstDeskOf(spec) && ValidDesk(d)
  {
    hide ValidSession, Slice, ValidDesk;
    FirstDesk(spec);
  }

  lemma {:induction false} StartsThere(spec: Spec, ledger: PortfolioLedger, sim: ExecutionSimulator)
    requires spec.sessions != [] && ledger.events == StartStage(spec).log && sim.State() == FirstDeskOf(spec)
    ensures StageOf(ledger, sim) == StartStage(spec)
  {
    hide FirstDeskOf, OpeningEvent;
  }

  lemma {:induction false} StartLogReady(spec: Spec)
    requires ValidSpec(spec)
    ensures spec.sessions != [] && StartStage(spec).log != [] && LogReady(spec, StartStage(spec).log)
  {
    hide LogBefore, BookReady, ValidSession, DeskReady, Slice, LogReady;
    StartIsReady(spec);
  }

  /** One session of the loop; nothing when its batch cannot be recorded. */
  method RunSession(spec: Spec, plans: seq<seq<PlannedOrder>>, i: nat, ledger: PortfolioLedger, sim: ExecutionSimulator,
                    ghost results: seq<SessionResult>)
    returns (r: Option<SessionResult>)
    requires ValidSpec(spec) && ValidPlans(spec, plans) && i < |spec.sessions|
    requires Owns(spec, ledger) && sim.Valid() && RunTo(spec, plans, i) == Some(Trace(results, StageOf(ledger, sim)))
    modifies ledger, sim
    ensures Owns(spec, ledger) && sim.Valid()
    ensures r.None? <==> FailsAt(spec, plans, i)
    ensures r.Some? ==> RunTo(spec, plans, i + 1) == Some(Trace(results + [r.value], StageOf(ledger, sim)))
  {
    hide RunTo, FailsAt, StageReady, Slice, ValidSession, OpenAt, LogClosed, SubmitAll, LogReady, SessionAt, ValidPlan,
         Recordable, ValidPlans;
    ghost var st := StageOf(ledger, sim);
    RunStep(spec, plans, i);
    FailsAtIff(spec, plans, i);
    UnrecordableIff(spec, i, Trace(results, st), PlanOf(plans, i));
    SessionParts(spec, i, st, PlanOf(plans, i));
    var fills, finished := TradeSession(spec, i, ledger, sim);
    if !finished {
      return None;
    }
    var subs := SubmitPlan(spec, spec.sessions[i].date, PlanOf(plans, i), sim);
    r := Some(SessionResult(fills, subs));
  }

  /** No session fails. */
  ghost predicate Finishes(spec: Spec, plans: seq<seq<PlannedOrder>>)
    requires ValidSpec(spec) && ValidPlans(spec, plans)
  {
    forall i :: 0 <= i < |spec.sessions| ==> !FailsAt(spec, plans, i)
  }

  /** The results and the log of the run as a function. */
  ghost predicate IsRunOf(spec: Spec, plans: seq<seq<PlannedOrder>>, results: seq<SessionResult>, log: seq<Event>)
    requires ValidSpec(spec) && ValidPlans(spec, plans)
  {
    var t := RunTo(spec, plans, |spec.sessions|);
    t.Some? && t.value.results == results && t.value.stage.log == log
  }

  /** Every plan is submitted and answered one session later, at open prices and proportional fees, and the log holds the executions and nothing else. */
  ghost predicate KeepsItsPromises(spec: Spec, plans: seq<seq<PlannedOrder>>, results: seq<SessionResult>, log: seq<Event>) {
    && spec.sessions != [] && |results| == |spec.sessions|
    && OneSessionLatency(spec, results) && SubmitsPlans(spec, plans, results) && ExecutesAtOpens(spec, results)
    && StandsAtCloses(spec.sessions[|spec.sessions| - 1], log)
    && LogOfRun(spec, results, log) && LogReady(spec, log)
  }

  lemma {:induction false} RunSucceeds(spec: Spec, plans: seq<seq<PlannedOrder>>, results: seq<SessionResult>, st: Stage)
    requires ValidSpec(spec) && ValidPlans(spec, plans)
    requires RunTo(spec, plans, |spec.sessions|) == Some(Trace(results, st))
    ensures Finishes(spec, plans) && IsRunOf(spec, plans, results, st.log) && KeepsItsPromises(spec, plans, results, st.log)
  {
    hide Slice, ValidSession, RunTo, FailsAt, LogReady, LogOfRun, OneSessionLatency, SubmitsPlans, ValidPlans, ExecutesAtOpens, StandsAtCloses;
    RunFailsIff(spec, plans, |spec.sessions|);
    RunAnswers(spec, plans, |spec.sessions|);
    RunExecutesAtOpens(spec, plans, |spec.sessions|);
    RunStandsAtCloses(spec, plans, |spec.sessions|);
    RunWritesItsLog(spec, plans, |spec.sessions|);
    RunLogIsReady(spec, plans, |spec.sessions|);
  }

  lemma {:induction false} RunOnlyFailsHere(spec: Spec, plans: seq<seq<PlannedOrder>>, i: nat)
    requires ValidSpec(spec) && ValidPlans(spec, plans) && FailsAt(spec, plans, i)
    ensures i < |spec.sessions| && !OpensSupported(spec) && !Finishes(spec, plans)
  {
    hide OpensSupported, RunTo, Unrecordable, Slice, ValidSession;
    if OpensSupported(spec) {
      SupportedOpensNeverFail(spec, plans, i);
    }
  }

  /**
    A whole backtest. It carries out the run as a function: it fails exactly at the
    session whose batch cannot be recorded, and otherwise its results and its log are
    those of that run.
   */
  method Run(spec: Spec, plans: seq<seq<PlannedOrder>>)
    returns (r: Result<seq<SessionResult>, nat>, log: seq<Event>)
    requires ValidSpec(spec) && ValidPlans(spec, plans)
    ensures r.Err? ==> FailsAt(spec, plans, r.error)
    ensures r.Ok? <==> Finishes(spec, plans)
    ensures r.Ok? ==> IsRunOf(spec, plans, r.value, log) && KeepsItsPromises(spec, plans, r.value, log)
    ensures OpensSupported(spec) ==> r.Ok?
  {
    hide *;
    log := [];
    var ledger, sim := StartRun(spec);
    var results: seq<SessionResult> := [];
    NothingRun(spec, plans);
    for i := 0 to |spec.sessions|
      invariant fresh(ledger) && fresh(sim) && Owns(spec, ledger) && sim.Valid()
      invariant RunTo(spec, plans, i) == Some(Trace(results, StageOf(ledger, sim)))
    {
      var done := RunSession(spec, plans, i, ledger, sim, results);
      if done.None? {
        RunOnlyFailsHere(spec, plans, i);
        return Err(i), log;
      }
      results := results + [done.value];
    }
    RunSucceeds(spec, plans, results, StageOf(ledger, sim));
    log := ledger.events;
    r := Ok(results);
  }
}
