/**
  What holds at every session boundary of a run, and what the open, the booking, the
  close mark and the submissions of one session do to it.
  (src/stock_agent/backtest/runner.py, `_run_isolated`.)
 */
module Sessions {
  import opened Common
  import opened Fifo
  import opened Book
  import opened Log
  import opened Calendar
  import opened Rules
  import opened OrderDesk
  import opened Simulator
  import opened Settlement
  import opened Backtest

  datatype SessionResult = SessionResult(execution: seq<Fill>, submissions: seq<Fill>)

  // ---- session boundaries ----

  /** Identities and times of a log that ends before the open of `date`. */
  ghost predicate LogBefore(log: seq<Event>, date: Date, at: Instant) {
    && (forall i :: 0 <= i < |log| ==> log[i].at < at && (log[i].id == [] || (|log[i].id| == 2 && log[i].id[0] < date)))
    && forall id :: id in AllFillIds(log) ==> |id| >= 1 && id[0] < date
  }

  ghost predicate BookReady(spec: Spec, b: Book, date: Date) {
    Supported(b.cash) && Within(b, spec.universe) && Dated(b, spec.calendar.sessions, date)
  }

  /** Every booked batch of the log sells settled shares only. */
  ghost predicate BatchesSettled(log: seq<Event>) {
    forall i :: 1 <= i < |log| && log[i].body.BatchBooked? ==> BatchSettled(log, i)
  }

  ghost predicate BatchSettled(log: seq<Event>, i: nat)
    requires 1 <= i < |log| && log[i].body.BatchBooked?
  {
    && Replay(log[..i]).Ok?
    && AllBookable(log[i].body.fills)
    && SellsSettled(Replay(log[..i]).value, log[i].body.session, log[i].body.fills)
  }

  ghost predicate LogReady(spec: Spec, log: seq<Event>) {
    && Accepted(spec.account, spec.market, log) && NoReversals(log) && Replay(log).Ok?
    && (spec.market == CN ==> BatchesSettled(log))
  }

  lemma {:induction false} SettledAppendEvent(log: seq<Event>, e: Event)
    requires log != [] && BatchesSettled(log)
    requires e.body.BatchBooked? ==>
               Replay(log).Ok? && AllBookable(e.body.fills) && SellsSettled(Replay(log).value, e.body.session, e.body.fills)
    ensures BatchesSettled(log + [e])
  {
    var more := log + [e];
    forall i | 1 <= i < |more| && more[i].body.BatchBooked? ensures BatchSettled(more, i) {
      if i < |log| {
        assert BatchSettled(log, i);
        assert more[..i] == log[..i];
      } else {
        assert more[..i] == log;
      }
    }
  }

  /** `pending` are the accepted submissions `queued`, in order, due at `date`. */
  ghost predicate Carries(spec: Spec, pending: seq<Pending>, queued: seq<Fill>, date: Date) {
    && |pending| == |queued|
    && forall k :: 0 <= k < |pending| ==>
         && pending[k].intent == queued[k].intent && pending[k].effective == queued[k].requested
         && pending[k].intent.account == spec.account && pending[k].intent.market == spec.market
         && pending[k].intent.symbol in spec.universe && pending[k].eligible == date
  }

  ghost predicate DistinctOrders(pending: seq<Pending>) {
    forall j, k :: 0 <= j < k < |pending| ==> pending[j].intent.orderId != pending[k].intent.orderId
  }

  ghost predicate OrderIdsBefore(used: set<Id>, date: Date) {
    forall id :: id in used ==> |id| == 3 && id[0] < date
  }

  /** Every order queued in one session is answered, in order, by the results of the next open. */
  ghost predicate Answers(date: Date, queued: seq<Fill>, results: seq<Fill>) {
    && |results| == |queued|
    && forall k :: 0 <= k < |results| ==>
         && results[k].intent == queued[k].intent && results[k].requested == queued[k].requested
         && results[k].status != PENDING
         && (results[k].status == FILLED ==> results[k].session == Some(date) && results[k].filled == queued[k].requested)
  }

  function Queued(submissions: seq<Fill>): seq<Fill> {
    if submissions == [] then []
    else
      var r := submissions[|submissions| - 1];
      Queued(submissions[..|submissions| - 1]) + if r.status == PENDING then [r] else []
  }

  // ---- the open ----

  function OpenFrame(spec: Spec, s: Session, lots: seq<OpenLot>, cash: real): Frame {
    Frame(spec.market, s.date, s.opens, s.states, map[spec.account := lots], Some(map[spec.account := cash]))
  }

  lemma {:induction false} EveryOrderEnds(f: Frame, pending: seq<Pending>)
    requires forall i :: 0 <= i < |pending| ==> Ends(f, pending[i])
    ensures Ended(f, pending) == pending && Waits(f, pending) == []
  {
    if pending == [] {
    } else {
      EveryOrderEnds(f, pending[..|pending| - 1]);
    }
  }

  /** A desk ready for the open of `s`: nothing prevents the session, and every order ends there. */
  ghost predicate DeskReady(spec: Spec, d: Desk, date: Date, queued: seq<Fill>) {
    && ValidDesk(d) && d.calendars == map[spec.market := spec.calendar]
    && spec.market in d.costs && d.costs[spec.market] == spec.bps
    && (spec.market in d.processed ==> d.processed[spec.market] < date)
    && Carries(spec, d.pending, queued, date) && DistinctOrders(d.pending) && OrderIdsBefore(d.used, date)
  }

  lemma {:induction false} OpenEndsEveryOrder(spec: Spec, s: Session, d: Desk, b: Book, queued: seq<Fill>)
    requires ValidSession(spec, s) && DeskReady(spec, d, s.date, queued)
    ensures var f := OpenFrame(spec, s, OpenLots(b), b.cash);
            && ValidFrame(f)
            && forall i :: 0 <= i < |d.pending| ==> Ends(f, d.pending[i]) && Covers(f.cash, f, d.pending[i])
  {
    assert spec.market == US ==> s.states == map[];
  }

  lemma {:induction false} OpenIsNotRefused(spec: Spec, s: Session, d: Desk, b: Book, queued: seq<Fill>)
    requires ValidSpec(spec) && ValidSession(spec, s) && s.date in spec.calendar.sessions
    requires DeskReady(spec, d, s.date, queued) && Sound(b) && BookReady(spec, b, s.date)
    ensures Refusal(d, OpenFrame(spec, s, OpenLots(b), b.cash)).None?
  {
    hide Slice, OpenLots, Within, Dated, OrderIdsBefore;
    assert spec.market == US ==> s.states == map[];
  }

  lemma {:induction false} OpenAnswers(date: Date, f: Frame, pending: seq<Pending>, queued: seq<Fill>, fills: seq<Fill>)
    requires |pending| == |queued| == |fills| && f.session == date
    requires forall k :: 0 <= k < |pending| ==>
               pending[k].intent == queued[k].intent && pending[k].effective == queued[k].requested
    requires forall k :: 0 <= k < |pending| ==> Terminates(f, pending[k], fills[k])
    ensures Answers(date, queued, fills)
  {
  }

  /**
    At an open prepared by the run so far nothing is refused, every queued order is
    answered in order, the queue empties, and the two books agree.
   */
  lemma {:induction false} OpenProcesses(spec: Spec, s: Session, d: Desk, b: Book, queued: seq<Fill>)
    requires ValidSpec(spec) && ValidSession(spec, s) && s.date in spec.calendar.sessions
    requires DeskReady(spec, d, s.date, queued) && Sound(b) && BookReady(spec, b, s.date)
    ensures var f := OpenFrame(spec, s, OpenLots(b), b.cash);
            && ValidFrame(f) && Refusal(d, f).None?
            && Answers(s.date, queued, Outcome(d, f).fills) && After(d, f).pending == []
            && BooksAgree(f, RuleOf(d, spec.market), spec.account, Outcome(d, f), b, spec.calendar.sessions)
  {
    hide BooksAgree, Answers, Slice, Drain, Terminates, Sound;
    var f := OpenFrame(spec, s, OpenLots(b), b.cash);
    var rule := RuleOf(d, spec.market);
    OpenEndsEveryOrder(spec, s, d, b, queued);
    OpenIsNotRefused(spec, s, d, b, queued);
    EveryOrderEnds(f, d.pending);
    QueueSplits(f, rule, spec.bps, d.pending);
    OpenAnswers(s.date, f, d.pending, queued, Outcome(d, f).fills);
    DrainAgrees(f, rule, spec.bps, spec.account, d.pending, b, spec.calendar.sessions);
  }

  // ---- fill identities ----

  ghost predicate BooksFill(date: Date, fills: seq<Fill>, x: BookedFill) {
    exists k :: 0 <= k < |fills| && fills[k].price.Some? && x == BookingOf(date, fills[k])
  }

  lemma {:induction false} BookingsComeFromFills(date: Date, fills: seq<Fill>)
    ensures forall i :: 0 <= i < |Bookings(date, fills)| ==> BooksFill(date, fills, Bookings(date, fills)[i])
  {
    if fills == [] {
    } else {
      var front, last := fills[..|fills| - 1], fills[|fills| - 1];
      BookingsComeFromFills(date, front);
      forall x | BooksFill(date, front, x) ensures BooksFill(date, fills, x) {
        var k :| 0 <= k < |front| && front[k].price.Some? && x == BookingOf(date, front[k]);
        assert fills[k] == front[k];
      }
      if last.price.Some? {
        var k := |fills| - 1;
        assert fills[k] == last;
        assert BooksFill(date, fills, BookingOf(date, last));
      }
    }
  }

  lemma {:induction false} BookingIdsDistinct(date: Date, fills: seq<Fill>)
    requires forall j, k :: 0 <= j < k < |fills| ==> fills[j].intent.orderId != fills[k].intent.orderId
    ensures Distinct(FillIds(Bookings(date, fills)))
  {
    if fills == [] {
    } else {
      var front, last := fills[..|fills| - 1], fills[|fills| - 1];
      BookingIdsDistinct(date, front);
      BookingsComeFromFills(date, front);
      var before, all := Bookings(date, front), Bookings(date, fills);
      forall i, j | 0 <= i < j < |all| ensures FillIds(all)[i] != FillIds(all)[j] {
        if j < |before| {
          assert FillIds(before)[i] != FillIds(before)[j];
        } else {
          assert BooksFill(date, front, before[i]);
          var k :| 0 <= k < |front| && front[k].price.Some? && before[i] == BookingOf(date, front[k]);
          assert fills[k].intent.orderId != last.intent.orderId;
          assert all[i].fillId[1..] == front[k].intent.orderId;
          assert all[j].fillId[1..] == last.intent.orderId;
        }
      }
    }
  }

  // ---- booking and marking ----

  /** Identities and times of a log once the session `s` has opened, or closed. */
  ghost predicate LogDuring(log: seq<Event>, s: Session, closed: bool) {
    && (forall i :: 0 <= i < |log| ==>
          && (if closed then log[i].at <= s.closeAt else log[i].at < s.closeAt)
          && (log[i].id == [] || (|log[i].id| == 2 && log[i].id[0] <= s.date))
          && (!closed ==> log[i].id != [s.date, 1]))
    && forall id :: id in AllFillIds(log) ==> |id| >= 1 && id[0] <= s.date
  }

  lemma {:induction false} BatchFollows(spec: Spec, s: Session, log: seq<Event>, fills: seq<Fill>, held: seq<Symbol>)
    requires LogBefore(log, s.date, s.openAt)
    requires forall i :: 0 <= i < |held| ==> held[i] in s.opens
    requires forall j, k :: 0 <= j < k < |fills| ==> fills[j].intent.orderId != fills[k].intent.orderId
    ensures Distinct(FillIds(Bookings(s.date, fills)))
    ensures Follows(spec.account, spec.market, log, BatchEvent(spec, s, Bookings(s.date, fills), held))
    ensures forall id :: id in FillIds(Bookings(s.date, fills)) ==> |id| >= 1 && id[0] == s.date
  {
    var booked := Bookings(s.date, fills);
    BookingIdsDistinct(s.date, fills);
    BookingsComeFromFills(s.date, fills);
    forall id | id in FillIds(booked) ensures |id| >= 1 && id[0] == s.date {
      var i :| 0 <= i < |booked| && FillIds(booked)[i] == id;
      assert BooksFill(s.date, fills, booked[i]);
    }
  }

  /** Fills an open may book: distinct orders inside the universe, bookable as a batch. */
  ghost predicate BatchReady(spec: Spec, s: Session, b: Book, fills: seq<Fill>)
    requires Sound(b)
  {
    var booked := Bookings(s.date, fills);
    && (forall j, k :: 0 <= j < k < |fills| ==> fills[j].intent.orderId != fills[k].intent.orderId)
    && booked != [] && AllBookable(booked) && ApplyFills(b, s.date, booked).Ok?
    && BookReady(spec, ApplyFills(b, s.date, booked).value, s.date)
    && (spec.market == CN ==> SellsSettled(b, s.date, booked))
  }

  /** The open price of everything held is one the ledger can record. */
  ghost predicate OpensRecordable(s: Session, b: Book) {
    forall k :: k in b.holdings ==> k in s.opens && Supported(s.opens[k])
  }

  /** The derived batch steps exactly when the open prices can be recorded, and leaves the booked lots. */
  lemma {:induction false} BatchStepsIff(spec: Spec, s: Session, b: Book, booked: seq<BookedFill>, after: Book)
    requires Sound(b) && AllBookable(booked) && booked != [] && Distinct(FillIds(booked))
    requires ApplyFills(b, s.date, booked) == Ok(after) && after.holdings.Keys <= s.opens.Keys
    requires forall k :: k in s.opens ==> s.opens[k] > 0.0
    ensures forall i :: 0 <= i < |Sorted(after.holdings.Keys)| ==> Sorted(after.holdings.Keys)[i] in s.opens
    ensures Step(b, BatchEvent(spec, s, booked, Sorted(after.holdings.Keys))).Ok? <==> OpensRecordable(s, after)
    ensures Step(b, BatchEvent(spec, s, booked, Sorted(after.holdings.Keys))).Ok? ==>
              SameLots(after, Step(b, BatchEvent(spec, s, booked, Sorted(after.holdings.Keys))).value)
  {
    BatchAcceptedIff(spec, s, b, booked);
  }

  lemma {:induction false} BatchAppends(spec: Spec, s: Session, log: seq<Event>, fills: seq<Fill>, after: Book)
    requires ValidSession(spec, s) && log != [] && LogReady(spec, log) && LogBefore(log, s.date, s.openAt)
    requires BatchReady(spec, s, Replay(log).value, fills)
    requires ApplyFills(Replay(log).value, s.date, Bookings(s.date, fills)) == Ok(after)
    ensures forall i :: 0 <= i < |Sorted(after.holdings.Keys)| ==> Sorted(after.holdings.Keys)[i] in s.opens
    ensures var more := log + [BatchEvent(spec, s, Bookings(s.date, fills), Sorted(after.holdings.Keys))];
            && (Accepted(spec.account, spec.market, more) <==> OpensRecordable(s, after))
            && (Accepted(spec.account, spec.market, more) ==>
                  LogReady(spec, more) && LogDuring(more, s, false) && SameLots(after, Replay(more).value))
  {
    var booked, held := Bookings(s.date, fills), Sorted(after.holdings.Keys);
    KeysArePriced(s.opens, after.holdings.Keys);
    BatchFollows(spec, s, log, fills, held);
    BatchStepsIff(spec, s, Replay(log).value, booked, after);
    var e := BatchEvent(spec, s, booked, held);
    ReadyAppend(spec, log, e);
    DuringAfterBatch(spec, s, log, e);
  }

  /** A ready log stays ready by an event that follows it and steps. */
  lemma {:induction false} ReadyAppend(spec: Spec, log: seq<Event>, e: Event)
    requires log != [] && LogReady(spec, log) && Follows(spec.account, spec.market, log, e)
    requires e.body.BatchBooked? ==> AllBookable(e.body.fills)
    requires e.body.BatchBooked? && spec.market == CN ==> SellsSettled(Replay(log).value, e.body.session, e.body.fills)
    ensures AllFillIds(log + [e]) == AllFillIds(log) + FillIdsOf(e)
    ensures Accepted(spec.account, spec.market, log + [e]) <==> Step(Replay(log).value, e).Ok?
    ensures Step(Replay(log).value, e).Ok? ==>
              LogReady(spec, log + [e]) && Replay(log + [e]) == Step(Replay(log).value, e)
  {
    PlainAppend(spec.account, spec.market, log, e);
    if spec.market == CN {
      SettledAppendEvent(log, e);
    }
  }

  lemma {:induction false} DuringAfterBatch(spec: Spec, s: Session, log: seq<Event>, e: Event)
    requires LogBefore(log, s.date, s.openAt) && s.openAt < s.closeAt
    requires e.id == [s.date, 0] && e.at == s.openAt
    requires AllFillIds(log + [e]) == AllFillIds(log) + FillIdsOf(e)
    requires forall id :: id in FillIdsOf(e) ==> |id| >= 1 && id[0] == s.date
    ensures LogDuring(log + [e], s, false)
  {
  }

  lemma {:induction false} MarkAppends(spec: Spec, s: Session, log: seq<Event>)
    requires ValidSession(spec, s) && log != [] && LogReady(spec, log) && LogDuring(log, s, false)
    requires BookReady(spec, Replay(log).value, s.date)
    ensures var held := Sorted(Replay(log).value.holdings.Keys);
            && (forall i :: 0 <= i < |held| ==> held[i] in s.closes)
            && var more := log + [MarkEvent(spec, s, held)];
               && LogReady(spec, more) && LogDuring(more, s, true)
               && SameLots(Replay(log).value, Replay(more).value)
  {
    var b := Replay(log).value;
    MarkAccepted(spec, s, b);
    var e := MarkEvent(spec, s, Sorted(b.holdings.Keys));
    MarkFollows(spec, s, log, e);
    ReadyAppend(spec, log, e);
    DuringAfterMark(s, log, e);
  }

  lemma {:induction false} MarkFollows(spec: Spec, s: Session, log: seq<Event>, e: Event)
    requires LogDuring(log, s, false) && e.body.PortfolioMarked?
    requires e.id == [s.date, 1] && e.at == s.closeAt && e.account == spec.account && e.market == spec.market
    ensures Follows(spec.account, spec.market, log, e)
  {
    assert FillIdsOf(e) == [];
  }

  lemma {:induction false} DuringAfterMark(s: Session, log: seq<Event>, e: Event)
    requires LogDuring(log, s, false) && e.id == [s.date, 1] && e.at == s.closeAt && FillIdsOf(e) == []
    requires AllFillIds(log + [e]) == AllFillIds(log) + FillIdsOf(e)
    ensures LogDuring(log + [e], s, true)
  {
  }

  lemma {:induction false} BeforeIsDuring(log: seq<Event>, s: Session)
    requires LogBefore(log, s.date, s.openAt) && s.openAt < s.closeAt
    ensures LogDuring(log, s, false)
  {
  }

  lemma {:induction false} SameLotsStayReady(spec: Spec, b: Book, c: Book, date: Date)
    requires SameLots(b, c) && BookReady(spec, b, date)
    ensures BookReady(spec, c, date)
  {
    forall s ensures DatedLots(LotsOf(c, s), spec.calendar.sessions, date) {
      assert DatedLots(LotsOf(b, s), spec.calendar.sessions, date);
      assert LotsOf(b, s) == LotsOf(c, s);
    }
  }

  /** Booking the fills of an open turns `b` into `after`, ready for the rest of the session. */
  ghost predicate BooksTo(spec: Spec, s: Session, b: Book, fills: seq<Fill>, after: Book)
    requires Sound(b)
  {
    var booked := Bookings(s.date, fills);
    && AllBookable(booked) && ApplyFills(b, s.date, booked) == Ok(after)
    && BookReady(spec, after, s.date)
    && (booked != [] ==> BatchReady(spec, s, b, fills))
  }

  /** The running cash a drain leaves to an account. */
  predicate ShowsCash(d: Drained, account: Id, cash: real) {
    d.cash.Some? && account in d.cash.value && d.cash.value[account] == cash
  }

  lemma {:induction false} AgreedBooksTo(spec: Spec, s: Session, f: Frame, rule: Rule, d: Drained, b: Book, after: Book)
    requires ValidRule(rule) && Sound(b) && f.session == s.date && (spec.market == CN ==> rule.China?)
    requires BooksAgree(f, rule, spec.account, d, b, spec.calendar.sessions)
    requires after == ApplyFills(b, s.date, Bookings(s.date, d.fills)).value && Within(after, spec.universe)
    requires forall j, k :: 0 <= j < k < |d.fills| ==> d.fills[j].intent.orderId != d.fills[k].intent.orderId
    ensures BooksTo(spec, s, b, d.fills, after)
    ensures ShowsCash(d, spec.account, after.cash)
  {
  }

  /** After the drain, the booked ledger is ready for the rest of the session and has the desk's cash. */
  lemma {:induction false} OpenedBook(spec: Spec, s: Session, d: Desk, b: Book, queued: seq<Fill>) returns (after: Book)
    requires ValidSpec(spec) && ValidSession(spec, s) && s.date in spec.calendar.sessions
    requires DeskReady(spec, d, s.date, queued) && Sound(b) && BookReady(spec, b, s.date)
    ensures var f := OpenFrame(spec, s, OpenLots(b), b.cash);
            && ValidFrame(f) && Refusal(d, f).None?
            && BooksTo(spec, s, b, Outcome(d, f).fills, after)
            && ShowsCash(Outcome(d, f), spec.account, after.cash)
  {
    OpenProcesses(spec, s, d, b, queued);
    var f := OpenFrame(spec, s, OpenLots(b), b.cash);
    var drained := Outcome(d, f);
    after := ApplyFills(b, s.date, Bookings(s.date, drained.fills)).value;
    BookedStayInUniverse(spec, s, b, drained.fills, queued, d);
    AgreedBooksTo(spec, s, f, RuleOf(d, spec.market), drained, b, after);
  }

  lemma {:induction false} BookedStayInUniverse(spec: Spec, s: Session, b: Book, fills: seq<Fill>, queued: seq<Fill>, d: Desk)
    requires Sound(b) && Within(b, spec.universe) && Answers(s.date, queued, fills)
    requires DeskReady(spec, d, s.date, queued)
    requires AllBookable(Bookings(s.date, fills)) && ApplyFills(b, s.date, Bookings(s.date, fills)).Ok?
    ensures Within(ApplyFills(b, s.date, Bookings(s.date, fills)).value, spec.universe)
    ensures forall j, k :: 0 <= j < k < |fills| ==> fills[j].intent.orderId != fills[k].intent.orderId
  {
    var booked := Bookings(s.date, fills);
    assert forall k :: 0 <= k < |fills| ==> fills[k].intent == d.pending[k].intent;
    BookingsComeFromFills(s.date, fills);
    forall i | 0 <= i < |booked| ensures booked[i].symbol in spec.universe {
      assert BooksFill(s.date, fills, booked[i]);
      var k :| 0 <= k < |fills| && fills[k].price.Some? && booked[i] == BookingOf(s.date, fills[k]);
      assert fills[k].intent == d.pending[k].intent;
    }
    FillsStayWithin(b, s.date, booked, spec.universe);
  }

  lemma {:induction false} SomethingBooked(date: Date, fills: seq<Fill>)
    requires exists k :: 0 <= k < |fills| && fills[k].status == FILLED && fills[k].price.Some?
    ensures Bookings(date, fills) != []
  {
    var k :| 0 <= k < |fills| && fills[k].status == FILLED && fills[k].price.Some?;
    var front := fills[..|fills| - 1];
    if k < |front| {
      assert front[k].status == FILLED && front[k].price.Some?;
      SomethingBooked(date, front);
    }
  }

  lemma {:induction false} NothingBooked(date: Date, fills: seq<Fill>)
    requires forall k :: 0 <= k < |fills| ==> !(fills[k].status == FILLED && fills[k].price.Some?)
    ensures Bookings(date, fills) == []
  {
    if fills == [] {
    } else {
      NothingBooked(date, fills[..|fills| - 1]);
    }
  }

  // ---- submitting the plan of a session ----

  function OrderIdFor(date: Date, o: PlannedOrder): Id {
    [date, o.symbol, if o.side == Buy then 0 else 1]
  }

  function IntentFor(spec: Spec, date: Date, o: PlannedOrder): OrderIntent {
    OrderIntent(OrderIdFor(date, o), spec.account, o.symbol, spec.market, o.side, o.quantity)
  }

  /** A desk that has processed `date`. */
  ghost predicate DeskShape(spec: Spec, d: Desk, date: Date) {
    && ValidDesk(d) && d.calendars == map[spec.market := spec.calendar]
    && spec.market in d.costs && d.costs[spec.market] == spec.bps
    && spec.market in d.processed && d.processed[spec.market] == date
  }

  /** Order identities in use once the first `k` orders of the plan of `date` are submitted. */
  ghost predicate IdsInUse(used: set<Id>, pending: seq<Pending>, date: Date, plan: seq<PlannedOrder>, k: nat)
    requires k <= |plan|
  {
    && (forall id :: id in used ==> |id| == 3 && (id[0] < date || (id[0] == date && SymbolIn(plan, k, id[1]))))
    && (forall j :: 0 <= j < |pending| ==> pending[j].intent.orderId in used)
    && DistinctOrders(pending)
  }

  /** A desk between the open of `date` and the end of its submissions, `k` orders in. */
  ghost predicate DeskFilling(spec: Spec, d: Desk, date: Date, next: Date, plan: seq<PlannedOrder>, k: nat,
                              queued: seq<Fill>)
    requires k <= |plan|
  {
    DeskShape(spec, d, date) && Carries(spec, d.pending, queued, next) && IdsInUse(d.used, d.pending, date, plan, k)
  }

  ghost predicate SymbolIn(plan: seq<PlannedOrder>, k: nat, s: Symbol)
    requires k <= |plan|
  {
    exists j :: 0 <= j < k && plan[j].symbol == s
  }

  lemma {:induction false} NextIdIsFresh(spec: Spec, used: set<Id>, pending: seq<Pending>, date: Date,
                                         plan: seq<PlannedOrder>, k: nat)
    requires ValidPlan(spec, plan) && k < |plan| && IdsInUse(used, pending, date, plan, k)
    ensures OrderIdFor(date, plan[k]) !in used
    ensures IdsInUse(used + {OrderIdFor(date, plan[k])}, pending, date, plan, k + 1)
  {
    assert !SymbolIn(plan, k, plan[k].symbol);
    assert plan[k].symbol == OrderIdFor(date, plan[k])[1];
    assert SymbolIn(plan, k + 1, plan[k].symbol);
    forall s | SymbolIn(plan, k, s) ensures SymbolIn(plan, k + 1, s) {
      var j :| 0 <= j < k && plan[j].symbol == s;
      assert 0 <= j < k + 1 && plan[j].symbol == s;
    }
  }

  /** What one submission does to the desk. */
  lemma {:induction false} SubmitMeaning(spec: Spec, d: Desk, date: Date, next: Date, intent: OrderIntent)
    requires ValidSpec(spec) && DeskShape(spec, d, date) && intent.market == spec.market && intent.quantity > 0.0
    requires NextSession(spec.calendar, date) == Some(next)
    ensures var (after, fill) := Submit(d, intent, date);
            && DeskShape(spec, after, date) && after.used == d.used + {intent.orderId}
            && fill.intent == intent && fill.status != FILLED && fill.requested <= intent.quantity
            && after.pending == d.pending + if fill.status == PENDING then [Pending(intent, fill.requested, next)] else []
  {
    assert d.pending + [] == d.pending;
  }

  lemma {:induction false} SubmitOne(spec: Spec, d: Desk, date: Date, next: Date, plan: seq<PlannedOrder>, k: nat,
                                     subs: seq<Fill>)
    requires ValidSpec(spec) && ValidPlan(spec, plan) && k < |plan|
    requires NextSession(spec.calendar, date) == Some(next)
    requires DeskFilling(spec, d, date, next, plan, k, Queued(subs))
    ensures var (after, fill) := Submit(d, IntentFor(spec, date, plan[k]), date);
            DeskFilling(spec, after, date, next, plan, k + 1, Queued(subs + [fill]))
  {
    var intent := IntentFor(spec, date, plan[k]);
    var (after, fill) := Submit(d, intent, date);
    SubmitMeaning(spec, d, date, next, intent);
    NextIdIsFresh(spec, d.used, d.pending, date, plan, k);
    QueuedAppend(subs, fill);
    if fill.status == PENDING {
      PendingJoins(spec, d, after.used, date, next, plan, k, Queued(subs), fill);
    }
  }

  lemma {:induction false} QueuedAppend(subs: seq<Fill>, fill: Fill)
    ensures Queued(subs + [fill]) == Queued(subs) + if fill.status == PENDING then [fill] else []
  {
    assert (subs + [fill])[..|subs|] == subs;
  }

  lemma {:induction false} PendingJoins(spec: Spec, d: Desk, used: set<Id>, date: Date, next: Date,
                                        plan: seq<PlannedOrder>, k: nat, queued: seq<Fill>, fill: Fill)
    requires ValidPlan(spec, plan) && k < |plan| && fill.intent == IntentFor(spec, date, plan[k])
    requires Carries(spec, d.pending, queued, next) && DistinctOrders(d.pending)
    requires forall j :: 0 <= j < |d.pending| ==> d.pending[j].intent.orderId in d.used
    requires fill.intent.orderId !in d.used && used == d.used + {fill.intent.orderId}
    requires IdsInUse(used, d.pending, date, plan, k + 1)
    ensures var more := d.pending + [Pending(fill.intent, fill.requested, next)];
            Carries(spec, more, queued + [fill], next) && IdsInUse(used, more, date, plan, k + 1)
  {
  }

  // ---- the desk and the log at session boundaries ----

  /** A desk right after the open of `date`: nothing queued, only earlier identities used. */
  ghost predicate DeskOpened(spec: Spec, d: Desk, date: Date) {
    DeskShape(spec, d, date) && d.pending == [] && OrderIdsBefore(d.used, date)
  }

  lemma {:induction false} OpenedDesk(spec: Spec, s: Session, d: Desk, f: Frame, queued: seq<Fill>)
    requires DeskReady(spec, d, s.date, queued) && ValidFrame(f) && Refusal(d, f).None?
    requires f.market == spec.market && f.session == s.date && After(d, f).pending == []
    ensures DeskOpened(spec, After(d, f), s.date)
  {
    hide Outcome, Carries, DistinctOrders;
  }

  lemma {:induction false} OpenedDeskFills(spec: Spec, d: Desk, date: Date, next: Date, plan: seq<PlannedOrder>)
    requires DeskOpened(spec, d, date)
    ensures DeskFilling(spec, d, date, next, plan, 0, [])
  {
  }

  lemma {:induction false} FilledDeskIsReady(spec: Spec, d: Desk, date: Date, next: Date, plan: seq<PlannedOrder>,
                                             queued: seq<Fill>)
    requires DeskFilling(spec, d, date, next, plan, |plan|, queued) && date < next
    ensures DeskReady(spec, d, next, queued)
  {
  }

  function OpeningEvent(spec: Spec, at: Instant): Event {
    Event([], spec.account, spec.market, at, CashInitialized(spec.initialCash))
  }

  lemma {:induction false} OpeningLog(spec: Spec, s: Session)
    requires ValidSpec(spec)
    ensures var log := [OpeningEvent(spec, s.openAt - 1)];
            && LogReady(spec, log) && LogBefore(log, s.date, s.openAt)
            && BookReady(spec, Replay(log).value, s.date)
  {
    var log := [OpeningEvent(spec, s.openAt - 1)];
    assert log[..0] == [] && FillIdsOf(log[0]) == [];
    assert AllFillIds(log) == AllFillIds(log[..0]) + FillIdsOf(log[0]);
    EverythingSurvives(log);
    assert Replay(log) == Start(log[0]);
    var b := Replay(log).value;
    assert b.holdings == map[];
    forall k ensures DatedLots(LotsOf(b, k), spec.calendar.sessions, s.date) {
      assert LotsOf(b, k) == [];
    }
  }

  function FirstDeskOf(spec: Spec): Desk {
    Desk(map[spec.market := spec.calendar], map[CN := 12.0, US := 5.0] + map[spec.market := spec.bps], [], {}, map[])
  }

  lemma {:induction false} FirstDesk(spec: Spec)
    requires ValidSpec(spec)
    ensures ValidDesk(FirstDeskOf(spec)) && DeskReady(spec, FirstDeskOf(spec), spec.sessions[0].date, [])
  {
  }
}
