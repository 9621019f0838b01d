/**
  A whole run that fails: three sessions, two buys, and one price of half a quantum.
  (src/stock_agent/backtest/runner.py, `_run_isolated`.)
 */
module FailingRun {
  import opened Common
  import opened Fifo
  import opened Book
  import opened Log
  import opened Calendar
  import opened Rules
  import opened OrderDesk
  import opened Simulator
  import opened Settlement
  import opened Backtest
  import opened Sessions
  import opened RunSpec

  const BOTH: map<Symbol, real> := map[1 := 1.0, 2 := 1.0]

  function Day(date: Date, opens: map<Symbol, real>): Session {
    Session(date, 10 * date, 10 * date + 5, opens, map[], BOTH)
  }

  /** Two symbols at one, except that the first opens the last session at half a quantum. */
  const SPEC := Spec([], US, 100.0, 0.0, {1, 2}, [Day(1, BOTH), Day(2, BOTH), Day(3, map[1 := 0.5 / GRID, 2 := 1.0])],
                     TradingCalendar(US, [1, 2, 3]))

  /** Buy one share of the first symbol, then one of the second. */
  const PLANS := [[PlannedOrder(1, Buy, 1.0)], [PlannedOrder(2, Buy, 1.0)]]

  lemma {:induction false} WholeIsSupported(n: int)
    requires -1000 <= n <= 1000
    ensures Supported(n as real)
  {
    var m := n * 1000000000000;
    assert n as real * GRID == m as real by { Scaled(n as real, m); }
    assert (m as real).Floor == m;
  }

  lemma {:induction false} Scaled(x: real, m: int)
    requires x.Floor as real == x && m == x.Floor * 1000000000000
    ensures x * GRID == m as real
  {}

  lemma {:induction false} SpecIsValid()
    ensures ValidSpec(SPEC) && ValidPlans(SPEC, PLANS)
  {
    hide Supported;
    HalfQuantumIsUnsupported(0.5 / GRID);
    WholeIsSupported(1);
    WholeIsSupported(100);
    assert Slice(SPEC, 0);
  }

  /** A queued buy of one share at one is one the desk fills, where trading is free of charge. */
  lemma {:induction false} BuyOfOneFills(spec: Spec, i: nat, st: Stage, p: Pending, cash: int)
    requires ValidSpec(spec) && spec.market == US && spec.bps == 0.0 && i < |spec.sessions|
    requires StageReady(spec, i, st) && Replay(st.log).Ok?
    requires st.desk.pending == [p] && p.intent.side == Buy && p.effective == p.intent.quantity == 1.0
    requires p.intent.symbol in spec.sessions[i].opens && spec.sessions[i].opens[p.intent.symbol] == 1.0
    requires 1 <= cash <= 100 && Replay(st.log).value.cash == cash as real
    ensures BuyFills(spec, i, st, p)
  {
    hide Slice, StageReady, ValidSession, Supported, Replay, OpenLots, ValidSpec, Sellable, CashAllows, Fees;
    OpenIsReady(spec, i, st);
    NumbersAreSupported(cash);
    FreeOfCharge();
    CashOfOne(cash, p);
  }

  lemma {:induction false} CashOfOne(cash: int, p: Pending)
    requires 1 <= cash <= 100 && p.intent.side == Buy && p.effective == 1.0
    ensures CashAllows(Some(cash as real), p, 1.0, 0.0)
  {
    hide Supported;
    NumbersAreSupported(cash);
  }

  lemma {:induction false} NumbersAreSupported(cash: int)
    requires 1 <= cash <= 100
    ensures Supported(0.0) && Supported(1.0) && Supported(-1.0) && Supported(cash as real - 1.0)
  {
    hide Supported;
    WholeIsSupported(0);
    WholeIsSupported(1);
    WholeIsSupported(-1);
    WholeIsSupported(cash - 1);
  }

  lemma {:induction false} FreeOfCharge()
    ensures Fees(1.0, 1.0, 0.0) == 0.0
  {
    WholeIsSupported(0);
  }

  lemma {:induction false} OneBuyBooked(b: Book, date: Date, r: Fill)
    requires Sound(b) && r == Filled(r.intent, 1.0, 1.0, 0.0, date) && r.intent.side == Buy
    requires AllBookable(Bookings(date, [r])) && ApplyFills(b, date, Bookings(date, [r])).Ok?
    ensures var after := ApplyFills(b, date, Bookings(date, [r])).value;
            after.cash == b.cash - 1.0 && r.intent.symbol in after.holdings
  {
    assert [r][..0] == [];
    assert Bookings(date, [r]) == [BookingOf(date, r)];
    assert [BookingOf(date, r)][..0] == [];
  }

  /** It leaves one less in cash, and the share in the book. */
  lemma {:induction false} BuyOfOneBooks(i: nat, st: Stage, p: Pending)
    requires ValidSpec(SPEC) && i < 3 && StageReady(SPEC, i, st) && BuyFills(SPEC, i, st, p)
    requires p.effective == 1.0 && SPEC.sessions[i].opens[p.intent.symbol] == 1.0
    ensures Replay(st.log).Ok?
    ensures var o := OpenAt(SPEC, i, st);
            p.intent.symbol in o.book.holdings && o.book.cash == Replay(st.log).value.cash - 1.0
  {
    hide Slice, StageReady, ValidSession, Supported, Replay, OpenAt, ApplyFills, Bookings, BookReady, Answers, DeskOpened,
         Fillable;
    FreeOfCharge();
    BuyIsFilled(SPEC, i, st, p);
    OpenMeaning(SPEC, i, st);
    OneBuyBooked(Replay(st.log).value, SPEC.sessions[i].date, OpenAt(SPEC, i, st).fills[0]);
  }

  /** Nothing pending, nothing filled. */
  lemma {:induction false} QuietOpen(st: Stage)
    requires ValidSpec(SPEC) && StageReady(SPEC, 0, st) && AsQueued(st.desk.pending) == []
    ensures Replay(st.log).Ok?
    ensures var o := OpenAt(SPEC, 0, st); Recordable(SPEC.sessions[0], o) && o.book == Replay(st.log).value
  {
    hide Slice, StageReady, ValidSession, Supported, Replay, OpenAt, BookReady, DeskOpened;
    StageReplays(SPEC, 0, st);
    OpenMeaning(SPEC, 0, st);
    NothingAnswered(SPEC.sessions[0].date, OpenAt(SPEC, 0, st).fills);
    assert Bookings(SPEC.sessions[0].date, []) == [];
  }

  /** `n` sessions in, the order of the plan before is queued, and the ledger shows `cash`. */
  ghost predicate Reached(n: nat, t: Trace, p: Pending, cash: int)
    requires ValidSpec(SPEC) && ValidPlans(SPEC, PLANS) && 1 <= n <= 2
  {
    && RunTo(SPEC, PLANS, n) == Some(t) && TraceReady(SPEC, n, t)
    && t.stage.desk.pending == [p] && p.intent.side == Buy && p.effective == p.intent.quantity == 1.0
    && p.intent.symbol == n
    && Replay(t.stage.log).Ok? && Replay(t.stage.log).value.cash == cash as real
  }

  /** What one recordable session of this run leads to. */
  lemma {:induction false} SessionReaches(n: nat, t: Trace, cash: int) returns (next: Trace, p: Pending)
    requires ValidSpec(SPEC) && ValidPlans(SPEC, PLANS) && n < 2
    requires RunTo(SPEC, PLANS, n) == Some(t) && TraceReady(SPEC, n, t)
    requires Recordable(SPEC.sessions[n], OpenAt(SPEC, n, t.stage)) && OpenAt(SPEC, n, t.stage).book.cash == cash as real
    ensures Reached(n + 1, next, p, cash)
    ensures Replay(next.stage.log).value.holdings.Keys == OpenAt(SPEC, n, t.stage).book.holdings.Keys
  {
    hide *;
    PlansFit(n);
    FailsAtIff(SPEC, PLANS, n);
    UnrecordableIff(SPEC, n, t, PlanOf(PLANS, n));
    next := RunTo(SPEC, PLANS, n + 1).value;
    RunIsReady(SPEC, PLANS, n + 1);
    BooksAgreeOverTheRun(SPEC, PLANS, n);
    LastSessionAnswers(SPEC, PLANS, n + 1);
    p := QueuedAfter(n, next);
    ReadyAt(n, t);
    SameLotsParts(OpenAt(SPEC, n, t.stage).book, Replay(next.stage.log).value);
    IsReached(n + 1, next, p, cash);
  }

  lemma {:induction false} PlansFit(n: nat)
    requires n < 2
    ensures |SPEC.sessions| == 3 && |PLANS| == 2 && PlanOf(PLANS, n) == PLANS[n] && ValidPlan(SPEC, PLANS[n])
  {}

  lemma {:induction false} ReadyAt(n: nat, t: Trace)
    requires TraceReady(SPEC, n, t) && n < |SPEC.sessions|
    ensures StageReady(SPEC, n, t.stage)
  {
    hide StageReady;
  }

  lemma {:induction false} SameLotsParts(b: Book, c: Book)
    requires SameLots(b, c)
    ensures b.cash == c.cash && b.holdings.Keys == c.holdings.Keys
  {}

  lemma {:induction false} IsReached(n: nat, t: Trace, p: Pending, cash: int)
    requires ValidSpec(SPEC) && ValidPlans(SPEC, PLANS) && 1 <= n <= 2 && |SPEC.sessions| == 3
    requires RunTo(SPEC, PLANS, n) == Some(t) && TraceReady(SPEC, n, t)
    requires t.stage.desk.pending == [p] && p.intent.side == Buy && p.effective == p.intent.quantity == 1.0
    requires p.intent.symbol == n && Replay(t.stage.log).Ok? && Replay(t.stage.log).value.cash == cash as real
    ensures Reached(n, t, p, cash)
  {
    hide ValidSpec, ValidPlans, RunTo, TraceReady, Replay;
  }

  lemma {:induction false} QueuedAfter(n: nat, t: Trace) returns (p: Pending)
    requires n < 2 && TraceReady(SPEC, n + 1, t)
    requires Submits(SPEC, SPEC.sessions[n].date, PLANS[n], t.results[n].submissions)
    ensures t.stage.desk.pending == [p] && p.intent.side == Buy && p.effective == p.intent.quantity == 1.0
    ensures p.intent.symbol == n + 1
  {
    hide StageReady, Supported, AnswersOrder, Queued, AsQueued, IntentFor;
    var subs, o := t.results[n].submissions, PLANS[n][0];
    AnsweredOne(SPEC, SPEC.sessions[n].date, o, subs[0]);
    assert subs == [subs[0]];
    p := QueuedOne(t.stage.desk.pending, IntentFor(SPEC, SPEC.sessions[n].date, o), subs);
    IntentParts(SPEC, SPEC.sessions[n].date, o);
  }

  lemma {:induction false} IntentParts(spec: Spec, date: Date, o: PlannedOrder)
    ensures var intent := IntentFor(spec, date, o);
            intent.symbol == o.symbol && intent.side == o.side && intent.quantity == o.quantity
  {}

  lemma {:induction false} AnsweredOne(spec: Spec, date: Date, o: PlannedOrder, fill: Fill)
    requires spec.market == US && o.quantity == 1.0 && AnswersOrder(spec, date, o, fill)
    ensures fill == QueuedFill(IntentFor(spec, date, o), 1.0)
  {
    hide Supported;
    WholeIsSupported(1);
  }

  lemma {:induction false} QueuedOne(pending: seq<Pending>, intent: OrderIntent, subs: seq<Fill>) returns (p: Pending)
    requires subs == [QueuedFill(intent, 1.0)] && AsQueued(pending) == Queued(subs)
    ensures pending == [p] && p.intent == intent && p.effective == 1.0
  {
    assert subs[..0] == [];
    assert Queued(subs) == subs;
    assert AsQueued(pending)[0] == subs[0];
    p := pending[0];
  }

  lemma {:induction false} OpeningCash(log: seq<Event>, cash: real)
    requires |log| == 1 && log[0].body == CashInitialized(cash) && Supported(cash) && cash >= 0.0
    ensures Replay(log).Ok? && Replay(log).value.cash == cash
  {
    assert Replay(log) == Start(log[0]);
  }

  lemma {:induction false} BeforeTheRun() returns (t: Trace)
    requires ValidSpec(SPEC) && ValidPlans(SPEC, PLANS)
    ensures RunTo(SPEC, PLANS, 0) == Some(t) && TraceReady(SPEC, 0, t) && StageReady(SPEC, 0, t.stage)
    ensures AsQueued(t.stage.desk.pending) == []
    ensures Replay(t.stage.log).Ok? && Replay(t.stage.log).value.cash == 100.0
  {
    hide Slice, StageReady, ValidSession, Supported, RunTo, ValidSpec, ValidPlans, Replay;
    t := Trace([], StartStage(SPEC));
    StartIsReady(SPEC);
    NothingRun(SPEC, PLANS);
    WholeIsSupported(100);
    OpeningCash(t.stage.log, 100.0);
  }

  /** The first session fills nothing and queues the first buy. */
  lemma {:induction false} FirstSession() returns (t: Trace, p: Pending)
    requires ValidSpec(SPEC) && ValidPlans(SPEC, PLANS)
    ensures Reached(1, t, p, 100)
  {
    hide Slice, StageReady, ValidSession, Supported, OpenAt, RunTo, Recordable, ValidSpec, ValidPlans, Reached, TraceReady,
         Replay, AsQueued;
    var start := BeforeTheRun();
    QuietOpen(start.stage);
    t, p := SessionReaches(0, start, 100);
  }

  /** The second fills it and queues the second buy. */
  lemma {:induction false} SecondSession(t: Trace, p: Pending) returns (next: Trace, q: Pending)
    requires ValidSpec(SPEC) && ValidPlans(SPEC, PLANS) && Reached(1, t, p, 100)
    ensures Reached(2, next, q, 99) && 1 in Replay(next.stage.log).value.holdings
  {
    hide Slice, StageReady, ValidSession, Supported, OpenAt, RunTo, Recordable, ValidSpec, ValidPlans, Replay, BuyFills;
    BuyOfOneFills(SPEC, 1, t.stage, p, 100);
    BuyOfOneBooks(1, t.stage, p);
    SecondIsRecordable(t.stage);
    next, q := SessionReaches(1, t, 99);
    assert 1 in Replay(next.stage.log).value.holdings.Keys;
  }

  lemma {:induction false} SecondIsRecordable(st: Stage)
    requires ValidSpec(SPEC) && StageReady(SPEC, 1, st)
    ensures Recordable(SPEC.sessions[1], OpenAt(SPEC, 1, st))
  {
    hide Slice, StageReady, ValidSession, Supported, OpenAt, BookReady, Replay, ValidSpec;
    WholeIsSupported(1);
    HeldInUniverse(SPEC, 1, st);
    var o := OpenAt(SPEC, 1, st);
    forall k | k in o.book.holdings ensures k in BOTH && Supported(BOTH[k]) {
      assert k in o.book.holdings.Keys;
    }
  }

  /** In the third the second buy fills too, and the first share cannot be marked: the run fails there. */
  lemma {:induction false} HalfQuantumRunFails()
    ensures ValidSpec(SPEC) && ValidPlans(SPEC, PLANS) && FailsAt(SPEC, PLANS, 2)
  {
    hide Slice, StageReady, ValidSession, Supported, OpenAt, RunTo, ValidSpec, ValidPlans, Replay, BuyFills, FailsAt;
    SpecIsValid();
    var t, p := FirstSession();
    var u, q := SecondSession(t, p);
    BuyOfOneFills(SPEC, 2, u.stage, q, 99);
    HalfQuantumIsUnsupported(0.5 / GRID);
    FilledBuyFailsTheRun(SPEC, PLANS, 2, u, q, 1);
  }
}
