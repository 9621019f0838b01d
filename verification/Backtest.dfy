/**
  A backtest run: what a valid specification is, what holds at every session boundary,
  and why booking a session's fills is accepted.
  (src/stock_agent/backtest/runner.py and models.py.)
 */
module Backtest {
  import opened Common
  import opened Fifo
  import opened Book
  import opened Log
  import opened Calendar
  import opened Rules
  import opened OrderDesk
  import opened Simulator
  import opened Settlement

  datatype Session = Session(date: Date, openAt: Instant, closeAt: Instant, opens: map<Symbol, real>,
                             states: map<Symbol, SessionState>, closes: map<Symbol, real>)

  datatype Spec = Spec(account: Id, market: Market, initialCash: real, bps: real, universe: set<Symbol>,
                       sessions: seq<Session>, calendar: TradingCalendar)

  /** An order the planner made ready: its side is executable and its quantity positive. */
  datatype PlannedOrder = PlannedOrder(symbol: Symbol, side: Side, quantity: real)

  ghost predicate ValidSession(spec: Spec, s: Session) {
    && s.openAt < s.closeAt
    && s.opens.Keys == spec.universe && s.closes.Keys == spec.universe
    && (forall k :: k in spec.universe ==> s.opens[k] > 0.0 && ValidPrice(s.closes[k]))
    && s.states.Keys == if spec.market == CN then spec.universe else {}
  }

  /** The sessions are a contiguous slice of the calendar, in time order. */
  ghost predicate ValidSpec(spec: Spec) {
    && ValidCalendar(spec.calendar) && spec.calendar.market == spec.market
    && spec.initialCash >= 0.0 && Supported(spec.initialCash) && spec.bps >= 0.0
    && |spec.sessions| >= 2
    && (exists start: nat :: Slice(spec, start))
    && (forall i :: 0 <= i < |spec.sessions| ==> ValidSession(spec, spec.sessions[i]))
    && (forall i :: 0 <= i < |spec.sessions| - 1 ==> spec.sessions[i].closeAt < spec.sessions[i + 1].openAt)
  }

  ghost predicate Slice(spec: Spec, start: nat) {
    && start + |spec.sessions| <= |spec.calendar.sessions|
    && forall i :: 0 <= i < |spec.sessions| ==> spec.sessions[i].date == spec.calendar.sessions[start + i]
  }

  /** Orders planned after each session but the last: in the universe, one per symbol. */
  ghost predicate ValidPlans(spec: Spec, plans: seq<seq<PlannedOrder>>) {
    && |plans| == |spec.sessions| - 1
    && forall i :: 0 <= i < |plans| ==> ValidPlan(spec, plans[i])
  }

  ghost predicate ValidPlan(spec: Spec, plan: seq<PlannedOrder>) {
    && (forall k :: 0 <= k < |plan| ==>
          plan[k].symbol in spec.universe && plan[k].side in {Buy, Sell} && plan[k].quantity > 0.0)
    && forall j, k :: 0 <= j < k < |plan| ==> plan[j].symbol != plan[k].symbol
  }

  lemma {:induction false} DatesAscend(spec: Spec, i: nat)
    requires ValidSpec(spec) && i < |spec.sessions|
    ensures spec.sessions[i].date in spec.calendar.sessions
    ensures i + 1 < |spec.sessions| ==>
              && spec.sessions[i].date < spec.sessions[i + 1].date
              && NextSession(spec.calendar, spec.sessions[i].date) == Some(spec.sessions[i + 1].date)
  {
    var start: nat :| Slice(spec, start);
    assert spec.calendar.sessions[start + i] in spec.calendar.sessions;
    if i + 1 < |spec.sessions| {
      NextListedSession(spec.calendar, start + i);
    }
  }

  // ---- a log that only grows, without reversals ----

  lemma {:induction false} EverythingSurvives(log: seq<Event>)
    requires NoReversals(log)
    ensures Survivors(log) == log && ReversalsOk(log)
  {
    assert Targets(log) == {};
    KeepNothingDropped(log);
  }

  /** An ordinary event that may follow a log: same owner, fresh identities, a later time. */
  ghost predicate Follows(account: Id, market: Market, log: seq<Event>, e: Event) {
    && e.account == account && e.market == market && !e.body.Reversed? && !e.body.CashInitialized?
    && (forall i :: 0 <= i < |log| ==> log[i].id != e.id && log[i].at < e.at)
    && Distinct(FillIdsOf(e)) && forall id :: id in FillIdsOf(e) ==> id !in AllFillIds(log)
  }

  lemma {:induction false} FollowingIsConsistent(account: Id, market: Market, log: seq<Event>, e: Event)
    requires Consistent(account, market, log) && NoReversals(log) && Follows(account, market, log, e)
    ensures AllFillIds(log + [e]) == AllFillIds(log) + FillIdsOf(e)
    ensures NoReversals(log + [e])
    ensures Consistent(account, market, log + [e]) <==> WellFormed(e)
  {
    var more := log + [e];
    assert more[..|log|] == log && more[|log|] == e;
    EverythingSurvives(more);
    DistinctConcat(AllFillIds(log), FillIdsOf(e));
    assert OneOpening(more);
    assert DistinctIds(more);
    assert Chronological(more);
    assert WellFormed(e) ==> Owned(account, market, more);
    assert Owned(account, market, more) ==> WellFormed(more[|log|]);
  }

  /** Appending a following event is judged by its own step alone. */
  lemma {:induction false} PlainAppend(account: Id, market: Market, log: seq<Event>, e: Event)
    requires Accepted(account, market, log) && NoReversals(log) && Follows(account, market, log, e)
    ensures NoReversals(log + [e]) && Replay(log).Ok?
    ensures Accepted(account, market, log + [e]) <==> Step(Replay(log).value, e).Ok?
    ensures Step(Replay(log).value, e).Ok? ==> Replay(log + [e]) == Step(Replay(log).value, e)
    ensures AllFillIds(log + [e]) == AllFillIds(log) + FillIdsOf(e)
  {
    FollowingIsConsistent(account, market, log, e);
    EverythingSurvives(log);
    EverythingSurvives(log + [e]);
    ReplayAppend(log, e);
  }

  // ---- booking one open ----

  function MarksAt(prices: map<Symbol, real>, keys: seq<Symbol>): (marks: seq<Mark>)
    requires forall i :: 0 <= i < |keys| ==> keys[i] in prices
    ensures |marks| == |keys| && MarkSymbols(marks) == keys
  {
    seq(|keys|, i requires 0 <= i < |keys| => Mark(keys[i], prices[keys[i]]))
  }

  lemma {:induction false} KeysArePriced(prices: map<Symbol, real>, keys: set<Symbol>)
    requires keys <= prices.Keys
    ensures forall i :: 0 <= i < |Sorted(keys)| ==> Sorted(keys)[i] in prices && Sorted(keys)[i] in keys
  {
    var order := Sorted(keys);
    forall i | 0 <= i < |order| ensures order[i] in prices && order[i] in keys {
      var k := order[i];
      assert k in order;
    }
  }

  lemma {:induction false} MarksAreValidIff(prices: map<Symbol, real>, keys: set<Symbol>)
    requires keys <= prices.Keys
    ensures forall i :: 0 <= i < |Sorted(keys)| ==> Sorted(keys)[i] in prices
    ensures ValidMarks(MarksAt(prices, Sorted(keys))) <==> forall k :: k in keys ==> ValidPrice(prices[k])
  {
    var order := Sorted(keys);
    KeysArePriced(prices, keys);
    var marks := MarksAt(prices, order);
    MarksAscend(prices, order);
    if forall m :: m in marks ==> ValidMark(m) {
      forall k | k in keys ensures ValidPrice(prices[k]) {
        assert k in order;
        var i :| 0 <= i < |order| && order[i] == k;
        var m := marks[i];
        assert m in marks;
      }
    }
    if forall k :: k in keys ==> ValidPrice(prices[k]) {
      forall m | m in marks ensures ValidMark(m) {
        var i :| 0 <= i < |marks| && marks[i] == m;
        assert order[i] in keys;
      }
    }
  }

  lemma {:induction false} MarksAscend(prices: map<Symbol, real>, order: seq<Symbol>)
    requires (forall i :: 0 <= i < |order| ==> order[i] in prices) && StrictlyAscending(order)
    ensures var marks := MarksAt(prices, order);
            forall i, j :: 0 <= i < j < |marks| ==> marks[i].symbol < marks[j].symbol
  {
    var marks := MarksAt(prices, order);
    forall i, j | 0 <= i < j < |marks| ensures marks[i].symbol < marks[j].symbol {
      assert order[i] < order[j];
    }
  }

  function MarkEvent(spec: Spec, s: Session, held: seq<Symbol>): Event
    requires forall i :: 0 <= i < |held| ==> held[i] in s.closes
  {
    Event([s.date, 1], spec.account, spec.market, s.closeAt, PortfolioMarked(s.date, MarksAt(s.closes, held)))
  }

  function BatchEvent(spec: Spec, s: Session, fills: seq<BookedFill>, held: seq<Symbol>): Event
    requires forall i :: 0 <= i < |held| ==> held[i] in s.opens
  {
    Event([s.date, 0], spec.account, spec.market, s.openAt, BatchBooked(s.date, MarksAt(s.opens, held), fills))
  }

  ghost predicate Within(b: Book, universe: set<Symbol>) {
    b.holdings.Keys <= universe
  }

  lemma {:induction false} FillsStayWithin(b: Book, date: Date, fills: seq<BookedFill>, universe: set<Symbol>)
    requires Sound(b) && AllBookable(fills) && ApplyFills(b, date, fills).Ok? && Within(b, universe)
    requires forall i :: 0 <= i < |fills| ==> fills[i].symbol in universe
    ensures Within(ApplyFills(b, date, fills).value, universe)
  {
    if fills == [] {
    } else {
      FillsStayWithin(b, date, fills[..|fills| - 1], universe);
    }
  }

  /**
    A batch of bookable fills with the derived marks is accepted exactly when the open
    price of every symbol then held is one the ledger can record.
   */
  lemma {:induction false} BatchAcceptedIff(spec: Spec, s: Session, b: Book, fills: seq<BookedFill>)
    requires Sound(b) && AllBookable(fills) && fills != [] && Distinct(FillIds(fills))
    requires ApplyFills(b, s.date, fills).Ok?
    requires ApplyFills(b, s.date, fills).value.holdings.Keys <= s.opens.Keys
    requires forall k :: k in s.opens ==> s.opens[k] > 0.0
    ensures var booked := ApplyFills(b, s.date, fills).value;
            && (forall i :: 0 <= i < |Sorted(booked.holdings.Keys)| ==> Sorted(booked.holdings.Keys)[i] in s.opens)
            && var e := BatchEvent(spec, s, fills, Sorted(booked.holdings.Keys));
               && (Step(b, e).Ok? <==> forall k :: k in booked.holdings ==> Supported(s.opens[k]))
               && (Step(b, e).Ok? ==> SameLots(booked, Step(b, e).value))
  {
    hide ApplyFills, SameLots, Sorted;
    var booked := ApplyFills(b, s.date, fills).value;
    var held := booked.holdings.Keys;
    MarksAreValidIff(s.opens, held);
    var e := BatchEvent(spec, s, fills, Sorted(held));
    assert WellFormed(e) <==> ValidMarks(e.body.marks);
    if WellFormed(e) {
      BatchSteps(b, e, booked);
    }
    assert (forall k :: k in held ==> ValidPrice(s.opens[k])) <==> (forall k :: k in held ==> Supported(s.opens[k]));
  }

  lemma {:induction false} BatchSteps(b: Book, e: Event, booked: Book)
    requires Sound(b) && WellFormed(e) && e.body.BatchBooked?
    requires ApplyFills(b, e.body.session, e.body.fills) == Ok(booked)
    requires MarkSymbols(e.body.marks) == Sorted(booked.holdings.Keys)
    ensures Step(b, e).Ok? && SameLots(booked, Step(b, e).value)
  {
    MarksSameLots(booked, e.body.marks);
    var marked := ApplyMarks(booked, e.body.marks);
    assert ApplyBody(b, e.body) == marked;
    PeakSameLots(marked.value);
  }

  lemma {:induction false} PeakSameLots(b: Book)
    ensures SameLots(b, RaisePeak(b))
  {
  }

  lemma {:induction false} MarksSameLots(b: Book, marks: seq<Mark>)
    requires Sound(b) && (forall m :: m in marks ==> ValidMark(m))
    requires MarkSymbols(marks) == Sorted(b.holdings.Keys)
    ensures ApplyMarks(b, marks).Ok? && SameLots(b, ApplyMarks(b, marks).value)
  {
  }

  /** Same cash and the same lots, whatever the marks and the peak. */
  ghost predicate SameLots(b: Book, c: Book) {
    && b.cash == c.cash && b.pnl == c.pnl && b.holdings.Keys == c.holdings.Keys
    && forall s :: LotsOf(b, s) == LotsOf(c, s)
  }

  lemma {:induction false} SameLotsChain(b: Book, c: Book, d: Book)
    requires SameLots(b, c) && SameLots(c, d)
    ensures SameLots(b, d)
  {
    forall s ensures LotsOf(b, s) == LotsOf(d, s) {
      assert LotsOf(b, s) == LotsOf(c, s);
    }
  }

  lemma {:induction false} MarkSteps(b: Book, e: Event)
    requires Sound(b) && WellFormed(e) && e.body.PortfolioMarked?
    requires MarkSymbols(e.body.marks) == Sorted(b.holdings.Keys)
    ensures Step(b, e).Ok? && SameLots(b, Step(b, e).value)
  {
    hide SameLots, RaisePeak, ApplyMarks, MarkSymbols, Sorted;
    MarksSameLots(b, e.body.marks);
    var marked := ApplyMarks(b, e.body.marks);
    assert ApplyBody(b, e.body) == marked;
    PeakSameLots(marked.value);
    SameLotsChain(b, marked.value, RaisePeak(marked.value));
  }

  lemma {:induction false} MarkAccepted(spec: Spec, s: Session, b: Book)
    requires Sound(b) && b.holdings.Keys <= s.closes.Keys
    requires forall k :: k in s.closes ==> ValidPrice(s.closes[k])
    ensures var held := Sorted(b.holdings.Keys);
            && (forall i :: 0 <= i < |held| ==> held[i] in s.closes)
            && Step(b, MarkEvent(spec, s, held)).Ok?
            && SameLots(b, Step(b, MarkEvent(spec, s, held)).value)
  {
    hide SameLots, Sorted, ValidPrice, ApplyBody;
    MarksAreValidIff(s.closes, b.holdings.Keys);
    var e := MarkEvent(spec, s, Sorted(b.holdings.Keys));
    assert WellFormed(e);
    MarkSteps(b, e);
  }
}
