/**
  A whole run as a function: the log and the desk after every session, and what was
  answered and submitted on the way. Its theorems speak of every valid run.
  (src/stock_agent/backtest/runner.py, `_run_isolated`.)
 */
module RunSpec {
  import opened Common
  import opened Fifo
  import opened Book
  import opened Log
  import opened Calendar
  import opened Rules
  import opened OrderDesk
  import opened Simulator
  import opened Settlement
  import opened Backtest
  import opened Sessions
  import Statement

  /** The ledger's log and the desk between two sessions. */
  datatype Stage = Stage(log: seq<Event>, desk: Desk)

  /** What an open yields: its answers, the desk after it, its running cash, and the book its fills lead to. */
  datatype Opening = Opening(fills: seq<Fill>, desk: Desk, cash: Option<real>, book: Book)

  datatype Trace = Trace(results: seq<SessionResult>, stage: Stage)

  /** Pending orders as the submissions that queued them. */
  function AsQueued(pending: seq<Pending>): (q: seq<Fill>)
    ensures |q| == |pending|
    ensures forall k :: 0 <= k < |q| ==> q[k] == QueuedFill(pending[k].intent, pending[k].effective)
  {
    seq(|pending|, k requires 0 <= k < |pending| => QueuedFill(pending[k].intent, pending[k].effective))
  }

  function QueuedFill(intent: OrderIntent, q: real): Fill {
    Fill(PENDING, intent, q, 0.0, None, 0.0, None, None)
  }

  ghost predicate LogAt(spec: Spec, s: Session, log: seq<Event>) {
    log != [] && LogReady(spec, log) && LogBefore(log, s.date, s.openAt) && BookReady(spec, Replay(log).value, s.date)
  }

  /** Log and desk as the open of the i-th session needs them. */
  ghost predicate StageReady(spec: Spec, i: nat, st: Stage)
    requires i < |spec.sessions|
  {
    var s := spec.sessions[i];
    && ValidSession(spec, s) && s.date in spec.calendar.sessions
    && LogAt(spec, s, st.log) && DeskReady(spec, st.desk, s.date, AsQueued(st.desk.pending))
  }

  // ---- one session ----

  /** The frame of the i-th open: the ledger's own lots and cash. */
  ghost function FrameAt(spec: Spec, i: nat, st: Stage): Frame
    requires i < |spec.sessions| && Replay(st.log).Ok?
  {
    var b := Replay(st.log).value;
    OpenFrame(spec, spec.sessions[i], OpenLots(b), b.cash)
  }

  lemma {:induction false} OpenIsReady(spec: Spec, i: nat, st: Stage)
    requires ValidSpec(spec) && i < |spec.sessions| && StageReady(spec, i, st)
    ensures Replay(st.log).Ok? && ValidDesk(st.desk)
    ensures var f := FrameAt(spec, i, st);
            && ValidFrame(f) && Refusal(st.desk, f).None?
            && var booked := Bookings(spec.sessions[i].date, Outcome(st.desk, f).fills);
               AllBookable(booked) && ApplyFills(Replay(st.log).value, spec.sessions[i].date, booked).Ok?
  {
    var s, b := spec.sessions[i], Replay(st.log).value;
    var after := OpenedBook(spec, s, st.desk, b, AsQueued(st.desk.pending));
  }

  function CashOf(d: Drained, account: Id): Option<real> {
    if d.cash.Some? && account in d.cash.value then Some(d.cash.value[account]) else None
  }

  ghost function OpenAt(spec: Spec, i: nat, st: Stage): Opening
    requires ValidSpec(spec) && i < |spec.sessions| && StageReady(spec, i, st)
  {
    OpenIsReady(spec, i, st);
    var s, b, f := spec.sessions[i], Replay(st.log).value, FrameAt(spec, i, st);
    var d := Outcome(st.desk, f);
    Opening(d.fills, After(st.desk, f), CashOf(d, spec.account), ApplyFills(b, s.date, Bookings(s.date, d.fills)).value)
  }

  /** Nothing filled, or the open price of everything then held is one the ledger can record. */
  ghost predicate Recordable(s: Session, o: Opening) {
    Bookings(s.date, o.fills) == [] || OpensRecordable(s, o.book)
  }

  lemma {:induction false} RecordableKeys(s: Session, b: Book)
    requires OpensRecordable(s, b)
    ensures b.holdings.Keys <= s.opens.Keys
  {
    forall k | k in b.holdings.Keys ensures k in s.opens.Keys {
      assert k in b.holdings;
    }
  }

  /** The fills of an open as one batch event, if anything filled. */
  ghost function BatchOf(spec: Spec, s: Session, o: Opening): seq<Event>
    requires Recordable(s, o)
  {
    if Bookings(s.date, o.fills) == [] then []
    else
      RecordableKeys(s, o.book);
      KeysArePriced(s.opens, o.book.holdings.Keys);
      [BatchEvent(spec, s, Bookings(s.date, o.fills), Sorted(o.book.holdings.Keys))]
  }

  /** The close mark of everything the log holds. */
  ghost function MarkOf(spec: Spec, s: Session, log: seq<Event>): Event
    requires Replay(log).Ok? && Replay(log).value.holdings.Keys <= s.closes.Keys
  {
    KeysArePriced(s.closes, Replay(log).value.holdings.Keys);
    MarkEvent(spec, s, Sorted(Replay(log).value.holdings.Keys))
  }

  /** Submitting a plan order by order. */
  function SubmitAll(spec: Spec, date: Date, d: Desk, plan: seq<PlannedOrder>): (r: (Desk, seq<Fill>))
    requires ValidDesk(d) && forall k :: 0 <= k < |plan| ==> plan[k].quantity > 0.0
    ensures ValidDesk(r.0) && |r.1| == |plan|
  {
    if plan == [] then (d, [])
    else
      var n := |plan| - 1;
      var (before, subs) := SubmitAll(spec, date, d, plan[..n]);
      var (after, fill) := Submit(before, IntentFor(spec, date, plan[n]), date);
      (after, subs + [fill])
  }

  /** What an open means: everything queued is answered, and the two books agree. */
  lemma {:induction false} OpenMeaning(spec: Spec, i: nat, st: Stage)
    requires ValidSpec(spec) && i < |spec.sessions| && StageReady(spec, i, st)
    ensures var (s, o) := (spec.sessions[i], OpenAt(spec, i, st));
            && Answers(s.date, AsQueued(st.desk.pending), o.fills)
            && DeskOpened(spec, o.desk, s.date)
            && BooksTo(spec, s, Replay(st.log).value, o.fills, o.book)
            && o.cash == Some(o.book.cash)
  {
    hide Answers, BooksTo, DeskOpened, BooksAgree, Drain, LogReady, LogBefore, Slice, Carries, ValidSession;
    OpenIsReady(spec, i, st);
    var s, b, queued := spec.sessions[i], Replay(st.log).value, AsQueued(st.desk.pending);
    OpenProcesses(spec, s, st.desk, b, queued);
    var after := OpenedBook(spec, s, st.desk, b, queued);
    DeskAfterOpen(spec, i, st);
  }

  lemma {:induction false} DeskAfterOpen(spec: Spec, i: nat, st: Stage)
    requires ValidSpec(spec) && i < |spec.sessions| && StageReady(spec, i, st)
    ensures DeskOpened(spec, OpenAt(spec, i, st).desk, spec.sessions[i].date)
  {
    hide DeskOpened, DeskReady, Drain, Slice, ValidSession, Bookings, ApplyFills, ValidDesk, LogReady, LogBefore, BookReady, BooksAgree, Answers;
    var s, queued := spec.sessions[i], AsQueued(st.desk.pending);
    OpenIsReady(spec, i, st);
    OpenProcesses(spec, s, st.desk, Replay(st.log).value, queued);
    OpenedDesk(spec, s, st.desk, FrameAt(spec, i, st), queued);
  }

  /** The log right after the open. */
  ghost function LogOpened(spec: Spec, i: nat, st: Stage): seq<Event>
    requires ValidSpec(spec) && i < |spec.sessions| && StageReady(spec, i, st)
    requires Recordable(spec.sessions[i], OpenAt(spec, i, st))
  {
    st.log + BatchOf(spec, spec.sessions[i], OpenAt(spec, i, st))
  }

  /** After booking, the log is ready for the close and holds exactly what the open led to. */
  lemma {:induction false} OpenedLogIsReady(spec: Spec, i: nat, st: Stage)
    requires ValidSpec(spec) && i < |spec.sessions| && StageReady(spec, i, st)
    requires Recordable(spec.sessions[i], OpenAt(spec, i, st))
    ensures var (s, log) := (spec.sessions[i], LogOpened(spec, i, st));
            && log != [] && LogReady(spec, log) && LogDuring(log, s, false)
            && SameLots(OpenAt(spec, i, st).book, Replay(log).value)
            && BookReady(spec, Replay(log).value, s.date)
            && Replay(log).value.holdings.Keys <= s.closes.Keys
  {
    var s, o := spec.sessions[i], OpenAt(spec, i, st);
    var booked := Bookings(s.date, o.fills);
    OpenMeaning(spec, i, st);
    if booked == [] {
      assert LogOpened(spec, i, st) == st.log;
      BeforeIsDuring(st.log, s);
      assert ApplyFills(Replay(st.log).value, s.date, []) == Ok(Replay(st.log).value);
    } else {
      BatchAppends(spec, s, st.log, o.fills, o.book);
      var log := LogOpened(spec, i, st);
      SameLotsStayReady(spec, o.book, Replay(log).value, s.date);
    }
  }

  /** The log after the close. */
  ghost function LogClosed(spec: Spec, i: nat, st: Stage): seq<Event>
    requires ValidSpec(spec) && i < |spec.sessions| && StageReady(spec, i, st)
    requires Recordable(spec.sessions[i], OpenAt(spec, i, st))
  {
    OpenedLogIsReady(spec, i, st);
    LogOpened(spec, i, st) + [MarkOf(spec, spec.sessions[i], LogOpened(spec, i, st))]
  }

  lemma {:induction false} ClosedLogIsReady(spec: Spec, i: nat, st: Stage)
    requires ValidSpec(spec) && i < |spec.sessions| && StageReady(spec, i, st)
    requires Recordable(spec.sessions[i], OpenAt(spec, i, st))
    ensures var (s, log) := (spec.sessions[i], LogClosed(spec, i, st));
            && log != [] && LogReady(spec, log) && LogDuring(log, s, true) && BookReady(spec, Replay(log).value, s.date)
            && SameLots(OpenAt(spec, i, st).book, Replay(log).value)
  {
    var s, log := spec.sessions[i], LogOpened(spec, i, st);
    OpenedLogIsReady(spec, i, st);
    MarkAppends(spec, s, log);
    SameLotsStayReady(spec, Replay(log).value, Replay(LogClosed(spec, i, st)).value, s.date);
  }

  /** One session: open, book, mark, submit; nothing if the batch cannot be recorded. */
  ghost function SessionAt(spec: Spec, i: nat, st: Stage, plan: seq<PlannedOrder>): Option<(SessionResult, Stage)>
    requires ValidSpec(spec) && i < |spec.sessions| && StageReady(spec, i, st) && ValidPlan(spec, plan)
  {
    var o := OpenAt(spec, i, st);
    OpenMeaning(spec, i, st);
    if !Recordable(spec.sessions[i], o) then None
    else
      var (desk, subs) := SubmitAll(spec, spec.sessions[i].date, o.desk, plan);
      Some((SessionResult(o.fills, subs), Stage(LogClosed(spec, i, st), desk)))
  }

  // ---- what becomes of a plan ----

  function RuleFor(spec: Spec): Rule {
    if spec.market == CN then China(spec.calendar) else UnitedStates
  }

  /** The desk's own answer to a planned order: queued at its normalized quantity, or refused at once. */
  ghost predicate AnswersOrder(spec: Spec, date: Date, o: PlannedOrder, fill: Fill)
    requires o.quantity > 0.0
  {
    var intent, q := IntentFor(spec, date, o), NormalizeQuantity(RuleFor(spec), o.side, o.quantity);
    if Supported(o.quantity) && Supported(q) && q > 0.0 then fill == QueuedFill(intent, q)
    else fill.reason.Some? && fill == Rejected(intent, o.quantity, fill.reason.value)
  }

  /** Every order of the plan has its own answer, in plan order. */
  ghost predicate AnswersPlan(spec: Spec, date: Date, plan: seq<PlannedOrder>, subs: seq<Fill>) {
    && |subs| == |plan|
    && forall k :: 0 <= k < |plan| ==> plan[k].quantity > 0.0 && AnswersOrder(spec, date, plan[k], subs[k])
  }

  lemma {:induction false} FreshOrderIsAnswered(spec: Spec, d: Desk, date: Date, next: Date, o: PlannedOrder)
    requires ValidSpec(spec) && DeskShape(spec, d, date) && OrderIdFor(date, o) !in d.used
    requires date in spec.calendar.sessions && NextSession(spec.calendar, date) == Some(next)
    requires o.quantity > 0.0 && o.side in {Buy, Sell}
    ensures AnswersOrder(spec, date, o, Submit(d, IntentFor(spec, date, o), date).1)
  {
    hide Supported, Slice;
    assert IsSession(spec.calendar, date);
  }

  /** `k` orders into the plan: the desk, and the answers given so far. */
  ghost predicate Filling(spec: Spec, date: Date, next: Date, plan: seq<PlannedOrder>, k: nat, d: Desk, subs: seq<Fill>)
    requires k <= |plan|
  {
    && DeskFilling(spec, d, date, next, plan, k, Queued(subs))
    && AsQueued(d.pending) == Queued(subs) && AnswersPlan(spec, date, plan[..k], subs)
  }

  lemma {:induction false} PlanIsAnswered(spec: Spec, date: Date, next: Date, d: Desk, plan: seq<PlannedOrder>, k: nat)
    requires ValidSpec(spec) && ValidPlan(spec, plan) && k <= |plan| && ValidDesk(d)
    requires date in spec.calendar.sessions && NextSession(spec.calendar, date) == Some(next)
    requires DeskOpened(spec, d, date)
    ensures var (after, subs) := SubmitAll(spec, date, d, plan[..k]);
            Filling(spec, date, next, plan, k, after, subs)
  {
    hide Filling, NextSession, DeskOpened, Slice;
    if k == 0 {
      NothingFilled(spec, date, next, d, plan);
    } else {
      PlanIsAnswered(spec, date, next, d, plan, k - 1);
      var (before, subs) := SubmitAll(spec, date, d, plan[..k - 1]);
      FillingNext(spec, date, next, plan, k - 1, before, subs);
      SubmitAllNext(spec, date, d, plan, k - 1);
    }
  }

  lemma {:induction false} NothingFilled(spec: Spec, date: Date, next: Date, d: Desk, plan: seq<PlannedOrder>)
    requires DeskOpened(spec, d, date)
    ensures plan[..0] == [] && Filling(spec, date, next, plan, 0, d, [])
  {
    OpenedDeskFills(spec, d, date, next, plan);
  }

  lemma {:induction false} SubmitAllNext(spec: Spec, date: Date, d: Desk, plan: seq<PlannedOrder>, k: nat)
    requires ValidDesk(d) && k < |plan| && forall j :: 0 <= j < |plan| ==> plan[j].quantity > 0.0
    ensures var (before, subs) := SubmitAll(spec, date, d, plan[..k]);
            var (after, fill) := Submit(before, IntentFor(spec, date, plan[k]), date);
            SubmitAll(spec, date, d, plan[..k + 1]) == (after, subs + [fill])
  {
    hide Submit;
    assert plan[..k + 1][..k] == plan[..k] && plan[..k + 1][k] == plan[k];
  }

  lemma {:induction false} FillingNext(spec: Spec, date: Date, next: Date, plan: seq<PlannedOrder>, k: nat,
                                       before: Desk, subs: seq<Fill>)
    requires ValidSpec(spec) && ValidPlan(spec, plan) && k < |plan|
    requires date in spec.calendar.sessions && NextSession(spec.calendar, date) == Some(next)
    requires Filling(spec, date, next, plan, k, before, subs)
    ensures ValidDesk(before)
    ensures var (after, fill) := Submit(before, IntentFor(spec, date, plan[k]), date);
            Filling(spec, date, next, plan, k + 1, after, subs + [fill])
  {
    hide AnswersOrder, Slice, IsSession, Carries, Supported, Admit, NextSession, ValidPending;
    var intent := IntentFor(spec, date, plan[k]);
    var (after, fill) := Submit(before, intent, date);
    SubmitOne(spec, before, date, next, plan, k, subs);
    NextIdIsFresh(spec, before.used, before.pending, date, plan, k);
    FreshOrderIsAnswered(spec, before, date, next, plan[k]);
    SubmitMeaning(spec, before, date, next, intent);
    QueuedAppend(subs, fill);
    PendingAnswer(spec, date, plan[k], fill);
    QueueGrows(before.pending, intent, fill, next);
    MoreAnswers(spec, date, plan, k, subs, fill);
  }

  lemma {:induction false} PendingAnswer(spec: Spec, date: Date, o: PlannedOrder, fill: Fill)
    requires o.quantity > 0.0 && AnswersOrder(spec, date, o, fill)
    ensures fill.status == PENDING ==> fill == QueuedFill(IntentFor(spec, date, o), fill.requested)
  {}

  /**
    A submission in its own fields: the planned order for the account and market of the
    run, refused at once for its quantity, or queued in whole board lots where those apply.
   */
  ghost predicate AnsweredAs(spec: Spec, o: PlannedOrder, fill: Fill) {
    && fill.intent.account == spec.account && fill.intent.market == spec.market
    && fill.intent.symbol == o.symbol && fill.intent.side == o.side && fill.intent.quantity == o.quantity
    && fill.filled == 0.0 && fill.price.None? && fill.fees == 0.0 && fill.session.None?
    && var whole := spec.market == CN && o.side == Buy;
       if !Supported(o.quantity) || (whole && o.quantity < 100.0)
       then fill.status == REJECTED && fill.requested == o.quantity && fill.reason.Some?
       else
         && fill.status == PENDING && fill.reason.None?
         && if whole
            then (fill.requested / 100.0).Floor as real * 100.0 == fill.requested <= o.quantity < fill.requested + 100.0
            else fill.requested == o.quantity
  }

  /** What the desk's answers to a valid plan say, order by order. */
  lemma {:induction false} AnswersSay(spec: Spec, date: Date, plan: seq<PlannedOrder>, subs: seq<Fill>)
    requires ValidPlan(spec, plan) && AnswersPlan(spec, date, plan, subs)
    ensures |subs| == |plan| && forall k :: 0 <= k < |plan| ==> AnsweredAs(spec, plan[k], subs[k])
  {
    hide Supported;
    forall k | 0 <= k < |plan| ensures AnsweredAs(spec, plan[k], subs[k]) {
      var o := plan[k];
      var q := NormalizeQuantity(RuleFor(spec), o.side, o.quantity);
      if Supported(o.quantity) && spec.market == CN && o.side == Buy {
        WholeLotsAreSupported(o.quantity, q);
      }
    }
  }

  lemma {:induction false} MoreAnswers(spec: Spec, date: Date, plan: seq<PlannedOrder>, k: nat, subs: seq<Fill>, fill: Fill)
    requires k < |plan| && plan[k].quantity > 0.0
    requires AnswersPlan(spec, date, plan[..k], subs) && AnswersOrder(spec, date, plan[k], fill)
    ensures AnswersPlan(spec, date, plan[..k + 1], subs + [fill])
  {
    hide AnswersOrder;
    assert plan[..k + 1] == plan[..k] + [plan[k]];
  }

  lemma {:induction false} QueueGrows(pending: seq<Pending>, intent: OrderIntent, fill: Fill, next: Date)
    requires fill.status == PENDING ==> fill == QueuedFill(intent, fill.requested)
    ensures AsQueued(pending + if fill.status == PENDING then [Pending(intent, fill.requested, next)] else [])
            == AsQueued(pending) + if fill.status == PENDING then [fill] else []
  {
    if fill.status != PENDING {
      assert pending + [] == pending;
    }
  }

  // ---- from session to session ----

  lemma {:induction false} NextSessionFollows(spec: Spec, i: nat)
    requires ValidSpec(spec) && i < |spec.sessions|
    ensures ValidSession(spec, spec.sessions[i]) && spec.sessions[i].date in spec.calendar.sessions
    ensures i + 1 < |spec.sessions| ==>
              && spec.sessions[i].date < spec.sessions[i + 1].date && spec.sessions[i].closeAt < spec.sessions[i + 1].openAt
              && NextSession(spec.calendar, spec.sessions[i].date) == Some(spec.sessions[i + 1].date)
  {
    DatesAscend(spec, i);
  }

  lemma {:induction false} ClosedLogReachesNext(spec: Spec, s: Session, t: Session, log: seq<Event>)
    requires log != [] && LogReady(spec, log) && LogDuring(log, s, true) && BookReady(spec, Replay(log).value, s.date)
    requires s.date < t.date && s.closeAt < t.openAt
    ensures LogAt(spec, t, log)
  {
    hide Accepted, Replay;
    var b := Replay(log).value;
    forall k ensures DatedLots(LotsOf(b, k), spec.calendar.sessions, t.date) {
      assert DatedLots(LotsOf(b, k), spec.calendar.sessions, s.date);
    }
  }

  /** What one recordable session leaves: answers, submissions that answer the plan, and a stage ready for the next open. */
  lemma {:induction false} SessionMeaning(spec: Spec, i: nat, st: Stage, plan: seq<PlannedOrder>)
    requires ValidSpec(spec) && i < |spec.sessions| && StageReady(spec, i, st) && ValidPlan(spec, plan)
    requires i + 1 < |spec.sessions| && SessionAt(spec, i, st, plan).Some?
    ensures var (r, after) := SessionAt(spec, i, st, plan).value;
            && StageReady(spec, i + 1, after)
            && AsQueued(after.desk.pending) == Queued(r.submissions)
            && AnswersPlan(spec, spec.sessions[i].date, plan, r.submissions)
  {
    hide LogReady, LogDuring, BookReady, LogBefore, DeskFilling, DeskOpened, SameLots, AnswersPlan, DeskReady, Slice, ValidPlan, ValidSession, Recordable, OpenAt, LogClosed, SubmitAll;
    var s, t, o := spec.sessions[i], spec.sessions[i + 1], OpenAt(spec, i, st);
    NextSessionFollows(spec, i);
    NextSessionFollows(spec, i + 1);
    SessionParts(spec, i, st, plan);
    OpenMeaning(spec, i, st);
    ClosedLogIsReady(spec, i, st);
    ClosedLogReachesNext(spec, s, t, LogClosed(spec, i, st));
    PlanIsAnswered(spec, s.date, t.date, o.desk, plan, |plan|);
    assert plan[..|plan|] == plan;
    FilledDeskIsReady(spec, SubmitAll(spec, s.date, o.desk, plan).0, s.date, t.date, plan,
                      Queued(SubmitAll(spec, s.date, o.desk, plan).1));
  }

  lemma {:induction false} SessionParts(spec: Spec, i: nat, st: Stage, plan: seq<PlannedOrder>)
    requires ValidSpec(spec) && i < |spec.sessions| && StageReady(spec, i, st) && ValidPlan(spec, plan)
    ensures SessionAt(spec, i, st, plan).Some? <==> Recordable(spec.sessions[i], OpenAt(spec, i, st))
    ensures ValidDesk(OpenAt(spec, i, st).desk) && forall k :: 0 <= k < |plan| ==> plan[k].quantity > 0.0
    ensures SessionAt(spec, i, st, plan).Some? ==>
              var (desk, subs) := SubmitAll(spec, spec.sessions[i].date, OpenAt(spec, i, st).desk, plan);
              SessionAt(spec, i, st, plan).value ==
              (SessionResult(OpenAt(spec, i, st).fills, subs), Stage(LogClosed(spec, i, st), desk))
  {
    hide OpenAt, LogClosed, SubmitAll, Recordable, StageReady, Slice;
    OpenMeaning(spec, i, st);
  }

  // ---- the whole run ----

  function StartStage(spec: Spec): Stage
    requires spec.sessions != []
  {
    Stage([OpeningEvent(spec, spec.sessions[0].openAt - 1)], FirstDeskOf(spec))
  }

  lemma {:induction false} StartIsReady(spec: Spec)
    requires ValidSpec(spec)
    ensures spec.sessions != [] && StageReady(spec, 0, StartStage(spec)) && AsQueued(StartStage(spec).desk.pending) == []
  {
    hide LogReady, LogBefore, BookReady, ValidSession, DeskReady, Slice, Replay;
    NextSessionFollows(spec, 0);
    OpeningLog(spec, spec.sessions[0]);
    FirstDesk(spec);
  }

  /** The orders planned after a session; none after the last. */
  function PlanOf(plans: seq<seq<PlannedOrder>>, i: nat): seq<PlannedOrder> {
    if i < |plans| then plans[i] else []
  }

  lemma {:induction false} PlanOfIsValid(spec: Spec, plans: seq<seq<PlannedOrder>>, i: nat)
    requires ValidPlans(spec, plans)
    ensures ValidPlan(spec, PlanOf(plans, i))
  {}

  /** What a trace of `n` sessions needs so that the next can open. */
  ghost predicate TraceReady(spec: Spec, n: nat, t: Trace) {
    && |t.results| == n
    && (n < |spec.sessions| ==>
          && StageReady(spec, n, t.stage)
          && AsQueued(t.stage.desk.pending) == if n == 0 then [] else Queued(t.results[n - 1].submissions))
  }

  ghost function StartTrace(spec: Spec): (t: Trace)
    requires ValidSpec(spec)
    ensures TraceReady(spec, 0, t)
  {
    StartIsReady(spec);
    Trace([], StartStage(spec))
  }

  /** A trace by one more session, if it can open and be recorded. */
  ghost function Extend(spec: Spec, i: nat, t: Trace, plan: seq<PlannedOrder>): (r: Option<Trace>)
    requires ValidSpec(spec) && i < |spec.sessions| && ValidPlan(spec, plan)
  {
    if !TraceReady(spec, i, t) then None
    else match SessionAt(spec, i, t.stage, plan)
      case None => None
      case Some((done, after)) => Some(Trace(t.results + [done], after))
  }

  /** The first `n` sessions; nothing once a session could not be recorded. */
  ghost function RunTo(spec: Spec, plans: seq<seq<PlannedOrder>>, n: nat): (t: Option<Trace>)
    requires ValidSpec(spec) && ValidPlans(spec, plans) && n <= |spec.sessions|
  {
    hide *;
    if n == 0 then Some(StartTrace(spec))
    else match RunTo(spec, plans, n - 1)
      case None => None
      case Some(before) =>
        PlanOfIsValid(spec, plans, n - 1);
        Extend(spec, n - 1, before, PlanOf(plans, n - 1))
  }

  /** Every session reached can open. */
  lemma {:induction false} RunIsReady(spec: Spec, plans: seq<seq<PlannedOrder>>, n: nat)
    requires ValidSpec(spec) && ValidPlans(spec, plans) && n <= |spec.sessions| && RunTo(spec, plans, n).Some?
    ensures TraceReady(spec, n, RunTo(spec, plans, n).value)
  {
    hide StageReady, SessionAt, ValidSession, Slice, ValidPlan, Extend, TraceReady;
    if n > 0 {
      PlanOfIsValid(spec, plans, n - 1);
      RunIsReady(spec, plans, n - 1);
      ExtendIsReady(spec, n - 1, RunTo(spec, plans, n - 1).value, PlanOf(plans, n - 1));
    }
  }

  lemma {:induction false} ExtendIsReady(spec: Spec, i: nat, t: Trace, plan: seq<PlannedOrder>)
    requires ValidSpec(spec) && i < |spec.sessions| && ValidPlan(spec, plan) && Extend(spec, i, t, plan).Some?
    ensures TraceReady(spec, i + 1, Extend(spec, i, t, plan).value)
  {
    hide StageReady, SessionAt, ValidSession, Slice, ValidPlan;
    SessionExtends(spec, i, t, plan);
  }

  lemma {:induction false} SessionExtends(spec: Spec, i: nat, t: Trace, plan: seq<PlannedOrder>)
    requires ValidSpec(spec) && i < |spec.sessions| && TraceReady(spec, i, t) && ValidPlan(spec, plan)
    ensures SessionAt(spec, i, t.stage, plan).Some? ==>
              var (r, after) := SessionAt(spec, i, t.stage, plan).value;
              TraceReady(spec, i + 1, Trace(t.results + [r], after))
  {
    hide SessionAt, StageReady;
    if i + 1 < |spec.sessions| && SessionAt(spec, i, t.stage, plan).Some? {
      SessionMeaning(spec, i, t.stage, plan);
    }
  }

  lemma {:induction false} RunStep(spec: Spec, plans: seq<seq<PlannedOrder>>, n: nat)
    requires ValidSpec(spec) && ValidPlans(spec, plans) && n < |spec.sessions| && RunTo(spec, plans, n).Some?
    ensures TraceReady(spec, n, RunTo(spec, plans, n).value) && ValidPlan(spec, PlanOf(plans, n))
    ensures var t := RunTo(spec, plans, n).value;
            RunTo(spec, plans, n + 1) == Extend(spec, n, t, PlanOf(plans, n))
  {
    hide SessionAt, StageReady, Extend, TraceReady, Slice, ValidSession;
    PlanOfIsValid(spec, plans, n);
    RunIsReady(spec, plans, n);
  }

  /** Before the last session there were the others. */
  lemma {:induction false} RunBefore(spec: Spec, plans: seq<seq<PlannedOrder>>, n: nat)
    requires ValidSpec(spec) && ValidPlans(spec, plans) && 0 < n <= |spec.sessions| && RunTo(spec, plans, n).Some?
    ensures RunTo(spec, plans, n - 1).Some?
    ensures |RunTo(spec, plans, n - 1).value.results| == n - 1 && |RunTo(spec, plans, n).value.results| == n
    ensures RunTo(spec, plans, n).value.results[..n - 1] == RunTo(spec, plans, n - 1).value.results
  {
    hide SessionAt, StageReady, Slice, ValidSession;
    PlanOfIsValid(spec, plans, n - 1);
    RunIsReady(spec, plans, n - 1);
    assert RunTo(spec, plans, n) == Extend(spec, n - 1, RunTo(spec, plans, n - 1).value, PlanOf(plans, n - 1));
  }

  lemma {:induction false} RunPrefix(spec: Spec, plans: seq<seq<PlannedOrder>>, m: nat, n: nat)
    requires ValidSpec(spec) && ValidPlans(spec, plans) && m <= n <= |spec.sessions| && RunTo(spec, plans, n).Some?
    ensures RunTo(spec, plans, m).Some?
    ensures |RunTo(spec, plans, m).value.results| == m && |RunTo(spec, plans, n).value.results| == n
    ensures RunTo(spec, plans, n).value.results[..m] == RunTo(spec, plans, m).value.results
    decreases n
  {
    hide *;
    TraceLength(spec, plans, n);
    if m < n {
      RunBefore(spec, plans, n);
      RunPrefix(spec, plans, m, n - 1);
      var r, q := RunTo(spec, plans, n).value.results, RunTo(spec, plans, n - 1).value.results;
      assert r[..n - 1][..m] == r[..m];
    } else {
      assert RunTo(spec, plans, n).value.results[..n] == RunTo(spec, plans, n).value.results;
    }
  }

  lemma {:induction false} TraceLength(spec: Spec, plans: seq<seq<PlannedOrder>>, n: nat)
    requires ValidSpec(spec) && ValidPlans(spec, plans) && n <= |spec.sessions| && RunTo(spec, plans, n).Some?
    ensures |RunTo(spec, plans, n).value.results| == n
  {
    hide RunTo, StageReady, Slice, ValidSession;
    RunIsReady(spec, plans, n);
  }

  // ---- when a run fails ----

  /** Something fills at the open of session `i`, and a symbol then held has an open the ledger cannot record. */
  ghost predicate Unrecordable(spec: Spec, i: nat, t: Trace)
    requires ValidSpec(spec) && i < |spec.sessions|
  {
    && TraceReady(spec, i, t)
    && var (s, o) := (spec.sessions[i], OpenAt(spec, i, t.stage));
       Bookings(s.date, o.fills) != [] && exists k :: k in o.book.holdings && !(k in s.opens && Supported(s.opens[k]))
  }

  /** Session `i` is reached and cannot be recorded. */
  ghost predicate FailsAt(spec: Spec, plans: seq<seq<PlannedOrder>>, i: nat)
    requires ValidSpec(spec) && ValidPlans(spec, plans)
  {
    i < |spec.sessions| && RunTo(spec, plans, i).Some? && Unrecordable(spec, i, RunTo(spec, plans, i).value)
  }

  lemma {:induction false} UnrecordableIff(spec: Spec, i: nat, t: Trace, plan: seq<PlannedOrder>)
    requires ValidSpec(spec) && i < |spec.sessions| && TraceReady(spec, i, t) && ValidPlan(spec, plan)
    ensures Unrecordable(spec, i, t) <==> Extend(spec, i, t, plan).None?
    ensures Unrecordable(spec, i, t) <==> !Recordable(spec.sessions[i], OpenAt(spec, i, t.stage))
  {
    hide OpenAt, SessionAt, StageReady, Slice, ValidSession, ValidPlan;
    SessionParts(spec, i, t.stage, plan);
  }

  lemma {:induction false} FailsAtIff(spec: Spec, plans: seq<seq<PlannedOrder>>, i: nat)
    requires ValidSpec(spec) && ValidPlans(spec, plans) && i < |spec.sessions| && RunTo(spec, plans, i).Some?
    ensures FailsAt(spec, plans, i) <==> RunTo(spec, plans, i + 1).None?
    ensures FailsAt(spec, plans, i) <==> Unrecordable(spec, i, RunTo(spec, plans, i).value)
  {
    hide RunTo, Unrecordable, Extend, TraceReady, Slice, ValidSession;
    RunStep(spec, plans, i);
    UnrecordableIff(spec, i, RunTo(spec, plans, i).value, PlanOf(plans, i));
  }

  /** A run ends early exactly when some session fails. */
  lemma {:induction false} RunFailsIff(spec: Spec, plans: seq<seq<PlannedOrder>>, n: nat)
    requires ValidSpec(spec) && ValidPlans(spec, plans) && n <= |spec.sessions|
    ensures RunTo(spec, plans, n).None? <==> exists i :: 0 <= i < n && FailsAt(spec, plans, i)
  {
    hide FailsAt, Extend, TraceReady, Slice, ValidSession;
    if n > 0 {
      RunFailsIff(spec, plans, n - 1);
      if RunTo(spec, plans, n - 1).Some? {
        FailsAtIff(spec, plans, n - 1);
      } else {
        NotReached(spec, plans, n - 1);
      }
    }
  }

  /** And then at one session only. */
  lemma {:induction false} OneFailure(spec: Spec, plans: seq<seq<PlannedOrder>>, i: nat, j: nat)
    requires ValidSpec(spec) && ValidPlans(spec, plans) && FailsAt(spec, plans, i) && FailsAt(spec, plans, j)
    ensures i == j
  {
    hide *;
    FailureEndsTheRun(spec, plans, i);
    FailureEndsTheRun(spec, plans, j);
    if i < j {
      RunPrefix(spec, plans, i + 1, j);
    } else if j < i {
      RunPrefix(spec, plans, j + 1, i);
    }
  }

  lemma {:induction false} FailureEndsTheRun(spec: Spec, plans: seq<seq<PlannedOrder>>, i: nat)
    requires ValidSpec(spec) && ValidPlans(spec, plans) && FailsAt(spec, plans, i)
    ensures i < |spec.sessions| && RunTo(spec, plans, i).Some? && RunTo(spec, plans, i + 1).None?
  {
    FailsAtReached(spec, plans, i);
    hide *;
    FailsAtIff(spec, plans, i);
  }

  lemma {:induction false} FailsAtReached(spec: Spec, plans: seq<seq<PlannedOrder>>, i: nat)
    requires ValidSpec(spec) && ValidPlans(spec, plans) && FailsAt(spec, plans, i)
    ensures i < |spec.sessions| && RunTo(spec, plans, i).Some?
  {}

  lemma {:induction false} NotReached(spec: Spec, plans: seq<seq<PlannedOrder>>, i: nat)
    requires ValidSpec(spec) && ValidPlans(spec, plans) && i < |spec.sessions| && RunTo(spec, plans, i).None?
    ensures !FailsAt(spec, plans, i) && RunTo(spec, plans, i + 1).None?
  {}

  /** A single buy is queued, and it fills at the i-th open by the desk's own test. */
  ghost predicate BuyFills(spec: Spec, i: nat, st: Stage, p: Pending)
    requires ValidSpec(spec) && i < |spec.sessions|
  {
    && st.desk.pending == [p] && p.intent.side == Buy && ValidPending(p)
    && Replay(st.log).Ok? && ValidRule(RuleFor(spec)) && ValidFrame(FrameAt(spec, i, st))
    && p.intent.symbol in spec.sessions[i].opens
    && Fillable(FrameAt(spec, i, st), RuleFor(spec), spec.bps, p, Some(Replay(st.log).value.cash), 0.0)
  }

  lemma {:induction false} AloneFills(f: Frame, rule: Rule, bps: real, p: Pending)
    requires RuleFits(f, rule) && ValidFrame(f) && ValidPending(p) && bps >= 0.0 && Ends(f, p) && p.intent.side == Buy
    requires f.cash.Some? && p.intent.account in f.cash.value
    requires Fillable(f, rule, bps, p, Some(f.cash.value[p.intent.account]), 0.0)
    ensures Covers(f.cash, f, [p][0])
    ensures var fills := Drain(f, rule, bps, [p]).fills;
            fills == [Filled(p.intent, p.effective, f.opens[p.intent.symbol], Fees(p.effective, f.opens[p.intent.symbol], bps), f.session)]
  {
    hide Sellable, Fees, Supported, Gate;
    var none := Drained([], [], map[], f.cash);
    assert [p][..0] == [] && Drain(f, rule, bps, []) == none;
    assert Drain(f, rule, bps, [p]) == DrainOne(f, rule, bps, none, p);
    assert DeskSold([], p.intent.account, p.intent.symbol) == 0.0;
    GatePassesIff(f, rule, none, p);
    LastOrderFills(f, rule, bps, none, p);
    OneOrderEndsOrWaits(f, rule, bps, none, p);
  }

  lemma {:induction false} DeskRules(spec: Spec, i: nat, st: Stage, p: Pending)
    requires ValidSpec(spec) && i < |spec.sessions| && StageReady(spec, i, st) && BuyFills(spec, i, st, p)
    ensures spec.market in st.desk.calendars && RuleOf(st.desk, spec.market) == RuleFor(spec)
    ensures spec.market in st.desk.costs && st.desk.costs[spec.market] == spec.bps
    ensures Ends(FrameAt(spec, i, st), p) && p.intent.account == spec.account
    ensures RuleFits(FrameAt(spec, i, st), RuleFor(spec))
  {
    hide Fillable, Slice, Replay, LogReady, LogBefore, BookReady, OrderIdsBefore;
    assert st.desk.pending[0] == p;
    OpenEndsEveryOrder(spec, spec.sessions[i], st.desk, Replay(st.log).value, AsQueued(st.desk.pending));
  }

  lemma {:induction false} BuyIsFilled(spec: Spec, i: nat, st: Stage, p: Pending)
    requires ValidSpec(spec) && i < |spec.sessions| && StageReady(spec, i, st) && BuyFills(spec, i, st, p)
    ensures var price := spec.sessions[i].opens[p.intent.symbol];
            && price >= 0.0
            && OpenAt(spec, i, st).fills ==
               [Filled(p.intent, p.effective, price, Fees(p.effective, price, spec.bps), spec.sessions[i].date)]
  {
    hide Fillable, Slice, Replay, StageReady, ValidSession, Bookings, ApplyFills, Drain, DrainOne, OpenLots, Refusal;
    OpenIsReady(spec, i, st);
    DeskRules(spec, i, st, p);
    AloneFills(FrameAt(spec, i, st), RuleFor(spec), spec.bps, p);
  }

  lemma {:induction false} OneBuyKeepsHoldings(b: Book, date: Date, r: Fill, k: Symbol)
    requires Sound(b) && r.status == FILLED && r.price.Some? && r.intent.side == Buy && k in b.holdings
    requires AllBookable(Bookings(date, [r])) && ApplyFills(b, date, Bookings(date, [r])).Ok?
    ensures Bookings(date, [r]) != [] && k in ApplyFills(b, date, Bookings(date, [r])).value.holdings
  {
    assert [r][..0] == [];
    assert Bookings(date, [r]) == [BookingOf(date, r)];
    assert [BookingOf(date, r)][..0] == [];
  }

  /**
    The failure is one a run reaches. Let a buy be queued for the next open, and let the
    desk fill it by its own test there; if any symbol already held opens at a price the
    ledger cannot record, the batch is refused and the run ends at that session.
   */
  lemma {:induction false} FilledBuyFailsTheRun(spec: Spec, plans: seq<seq<PlannedOrder>>, i: nat, t: Trace, p: Pending,
                                                k: Symbol)
    requires ValidSpec(spec) && ValidPlans(spec, plans) && i < |spec.sessions|
    requires RunTo(spec, plans, i) == Some(t) && BuyFills(spec, i, t.stage, p)
    requires k in Replay(t.stage.log).value.holdings && k in spec.sessions[i].opens && !Supported(spec.sessions[i].opens[k])
    ensures FailsAt(spec, plans, i)
    ensures TraceReady(spec, i, t) && !Recordable(spec.sessions[i], OpenAt(spec, i, t.stage))
  {
    hide StageReady, Slice, ValidSession, RunTo, OpenAt, Supported, Fillable, Fees, BookReady, ApplyFills, Bookings, Answers,
         DeskOpened;
    RunIsReady(spec, plans, i);
    StageReplays(spec, i, t.stage);
    var s, o := spec.sessions[i], OpenAt(spec, i, t.stage);
    BuyIsFilled(spec, i, t.stage, p);
    OpenMeaning(spec, i, t.stage);
    OneBuyKeepsHoldings(Replay(t.stage.log).value, s.date, o.fills[0], k);
  }

  /** Half a quantum is such a price: positive, as a session requires, and not on the ledger's grid. */
  lemma {:induction false} HalfQuantumIsUnsupported(price: real)
    requires price == 0.5 / GRID
    ensures price > 0.0 && !Supported(price)
  {
    assert 0.5 / GRID * GRID == 0.5 && (0.5 as real).Floor == 0;
  }

  ghost predicate OpensSupported(spec: Spec) {
    forall i, k :: 0 <= i < |spec.sessions| && k in spec.sessions[i].opens ==> Supported(spec.sessions[i].opens[k])
  }

  /** A run whose open prices can all be recorded fails nowhere. */
  lemma {:induction false} SupportedOpensNeverFail(spec: Spec, plans: seq<seq<PlannedOrder>>, i: nat)
    requires ValidSpec(spec) && ValidPlans(spec, plans) && OpensSupported(spec)
    ensures !FailsAt(spec, plans, i)
  {
    hide RunTo, ValidPlans, Slice;
    if FailsAt(spec, plans, i) {
      SupportedOpensRecord(spec, i, RunTo(spec, plans, i).value);
    }
  }

  lemma {:induction false} SupportedOpensRecord(spec: Spec, i: nat, t: Trace)
    requires ValidSpec(spec) && i < |spec.sessions| && OpensSupported(spec)
    ensures !Unrecordable(spec, i, t)
  {
    hide OpenAt, StageReady, Slice, Supported, ValidSession;
    if TraceReady(spec, i, t) {
      HeldInUniverse(spec, i, t.stage);
      UnrecordableSymbol(spec, i, t);
    }
  }

  lemma {:induction false} HeldInUniverse(spec: Spec, i: nat, st: Stage)
    requires ValidSpec(spec) && i < |spec.sessions| && StageReady(spec, i, st)
    ensures OpenAt(spec, i, st).book.holdings.Keys <= spec.sessions[i].opens.Keys
  {
    hide OpenAt, StageReady, Slice;
    OpenMeaning(spec, i, st);
    NextSessionFollows(spec, i);
  }

  lemma {:induction false} UnrecordableSymbol(spec: Spec, i: nat, t: Trace)
    requires ValidSpec(spec) && i < |spec.sessions| && OpensSupported(spec) && TraceReady(spec, i, t)
    requires OpenAt(spec, i, t.stage).book.holdings.Keys <= spec.sessions[i].opens.Keys
    ensures !Unrecordable(spec, i, t)
  {
    hide OpenAt, StageReady, Slice, Supported, ValidSession;
    var s, o := spec.sessions[i], OpenAt(spec, i, t.stage);
    forall k | k in o.book.holdings ensures k in s.opens && Supported(s.opens[k]) {
      assert k in o.book.holdings.Keys;
      assert k in spec.sessions[i].opens;
    }
  }

  // ---- what a run does ----

  /** Each session answers, in order, exactly the orders the previous one queued. */
  ghost predicate OneSessionLatency(spec: Spec, results: seq<SessionResult>)
    requires |results| <= |spec.sessions|
  {
    && (results != [] ==> results[0].execution == [])
    && forall i :: 0 <= i < |results| - 1 ==>
         Answers(spec.sessions[i + 1].date, Queued(results[i].submissions), results[i + 1].execution)
  }

  /** A plan submitted whole: the desk's own answers, which say of each order what became of it. */
  ghost predicate Submits(spec: Spec, date: Date, plan: seq<PlannedOrder>, subs: seq<Fill>) {
    && AnswersPlan(spec, date, plan, subs)
    && forall k :: 0 <= k < |plan| ==> AnsweredAs(spec, plan[k], subs[k])
  }

  /** Each session submits exactly its plan, order by order; the last submits nothing. */
  ghost predicate SubmitsPlans(spec: Spec, plans: seq<seq<PlannedOrder>>, results: seq<SessionResult>)
    requires |results| <= |spec.sessions|
  {
    forall i :: 0 <= i < |results| ==> Submits(spec, spec.sessions[i].date, PlanOf(plans, i), results[i].submissions)
  }

  lemma {:induction false} SubmissionsAnswer(spec: Spec, i: nat, st: Stage, plan: seq<PlannedOrder>)
    requires ValidSpec(spec) && i < |spec.sessions| && StageReady(spec, i, st) && ValidPlan(spec, plan)
    requires i + 1 == |spec.sessions| ==> plan == []
    requires SessionAt(spec, i, st, plan).Some?
    ensures Submits(spec, spec.sessions[i].date, plan, SessionAt(spec, i, st, plan).value.0.submissions)
    ensures Answers(spec.sessions[i].date, AsQueued(st.desk.pending), SessionAt(spec, i, st, plan).value.0.execution)
  {
    hide SessionAt, OpenAt, StageReady, Slice, AnswersPlan, Answers, AnsweredAs, LogClosed, SubmitAll;
    OpenMeaning(spec, i, st);
    SessionParts(spec, i, st, plan);
    if i + 1 < |spec.sessions| {
      SessionMeaning(spec, i, st, plan);
    } else {
      NothingSubmitted(spec, spec.sessions[i].date, OpenAt(spec, i, st).desk);
    }
    AnswersSay(spec, spec.sessions[i].date, plan, SessionAt(spec, i, st, plan).value.0.submissions);
  }

  lemma {:induction false} NothingSubmitted(spec: Spec, date: Date, d: Desk)
    requires ValidDesk(d)
    ensures AnswersPlan(spec, date, [], SubmitAll(spec, date, d, []).1)
  {}

  /** Over every run: each plan is submitted whole, and each queued order is answered at the very next open. */
  lemma {:induction false} RunAnswers(spec: Spec, plans: seq<seq<PlannedOrder>>, n: nat)
    requires ValidSpec(spec) && ValidPlans(spec, plans) && n <= |spec.sessions| && RunTo(spec, plans, n).Some?
    ensures var results := RunTo(spec, plans, n).value.results;
            && |results| == n && OneSessionLatency(spec, results) && SubmitsPlans(spec, plans, results)
  {
    hide SessionAt, StageReady, Slice, ValidSession, Submits, AnswersPlan, Answers, RunTo, Extend, Queued;
    TraceLength(spec, plans, n);
    if n > 0 {
      RunBefore(spec, plans, n);
      RunAnswers(spec, plans, n - 1);
      LastSessionAnswers(spec, plans, n);
      NothingAnswered(spec.sessions[n - 1].date, RunTo(spec, plans, n).value.results[n - 1].execution);
      LatencyGrows(spec, RunTo(spec, plans, n).value.results);
    }
  }

  lemma {:induction false} NothingAnswered(date: Date, fills: seq<Fill>)
    ensures Answers(date, [], fills) ==> fills == []
  {}

  lemma {:induction false} LatencyGrows(spec: Spec, results: seq<SessionResult>)
    requires 0 < |results| <= |spec.sessions| && OneSessionLatency(spec, results[..|results| - 1])
    requires |results| == 1 ==> results[0].execution == []
    requires |results| > 1 ==> Answers(spec.sessions[|results| - 1].date, Queued(results[|results| - 2].submissions),
                                       results[|results| - 1].execution)
    ensures OneSessionLatency(spec, results)
  {
    hide Answers, Queued;
    var front := results[..|results| - 1];
    assert front != [] ==> front[0] == results[0];
    forall i | 0 <= i < |results| - 1
      ensures Answers(spec.sessions[i + 1].date, Queued(results[i].submissions), results[i + 1].execution)
    {
      if i < |front| - 1 {
        assert front[i] == results[i] && front[i + 1] == results[i + 1];
      }
    }
  }

  lemma {:induction false} LastSessionAnswers(spec: Spec, plans: seq<seq<PlannedOrder>>, n: nat)
    requires ValidSpec(spec) && ValidPlans(spec, plans) && 0 < n <= |spec.sessions| && RunTo(spec, plans, n).Some?
    ensures |RunTo(spec, plans, n).value.results| == n
    ensures var (r, s) := (RunTo(spec, plans, n).value.results, spec.sessions[n - 1]);
            && Submits(spec, s.date, PlanOf(plans, n - 1), r[n - 1].submissions)
            && Answers(s.date, if n == 1 then [] else Queued(r[n - 2].submissions), r[n - 1].execution)
  {
    hide SessionAt, StageReady, Slice, ValidSession, Submits, Answers, RunTo, Queued;
    RunBefore(spec, plans, n);
    RunStep(spec, plans, n - 1);
    var t := RunTo(spec, plans, n - 1).value;
    SubmissionsAnswer(spec, n - 1, t.stage, PlanOf(plans, n - 1));
  }

  // ---- at what price and fee ----

  /** Every fill is priced at its symbol's open and charged at the rate of the run; every other answer moves nothing. */
  ghost predicate ExecutedAt(spec: Spec, s: Session, fills: seq<Fill>) {
    && AllCharged(fills, spec.bps)
    && forall k :: 0 <= k < |fills| ==>
         if fills[k].status == FILLED
         then fills[k].intent.symbol in s.opens && fills[k].price == Some(s.opens[fills[k].intent.symbol])
         else fills[k].filled == 0.0 && fills[k].price.None? && fills[k].reason.Some?
  }

  lemma {:induction false} OpenExecutes(spec: Spec, i: nat, st: Stage)
    requires ValidSpec(spec) && i < |spec.sessions| && StageReady(spec, i, st)
    ensures ExecutedAt(spec, spec.sessions[i], OpenAt(spec, i, st).fills)
  {
    hide Slice, Replay, LogReady, LogBefore, BookReady, Drain, AllCharged, Bookings, ApplyFills, OpenLots, ValidSession;
    OpenIsReady(spec, i, st);
    var f := FrameAt(spec, i, st);
    OpenEndsEveryOrder(spec, spec.sessions[i], st.desk, Replay(st.log).value, AsQueued(st.desk.pending));
    FillsAreCharged(f, RuleOf(st.desk, spec.market), spec.bps, st.desk.pending);
    QueueSplits(f, RuleOf(st.desk, spec.market), spec.bps, st.desk.pending);
  }

  ghost predicate ExecutesAtOpens(spec: Spec, results: seq<SessionResult>)
    requires |results| <= |spec.sessions|
  {
    forall i :: 0 <= i < |results| ==> ExecutedAt(spec, spec.sessions[i], results[i].execution)
  }

  /** Over every run each fill has the open price of its session and the proportional fee, sells as well as buys. */
  lemma {:induction false} RunExecutesAtOpens(spec: Spec, plans: seq<seq<PlannedOrder>>, n: nat)
    requires ValidSpec(spec) && ValidPlans(spec, plans) && n <= |spec.sessions| && RunTo(spec, plans, n).Some?
    ensures |RunTo(spec, plans, n).value.results| == n && ExecutesAtOpens(spec, RunTo(spec, plans, n).value.results)
  {
    hide SessionAt, StageReady, Slice, ValidSession, RunTo, OpenAt, LogClosed, Recordable, ExecutedAt;
    TraceLength(spec, plans, n);
    if n > 0 {
      RunBefore(spec, plans, n);
      RunExecutesAtOpens(spec, plans, n - 1);
      RunStep(spec, plans, n - 1);
      var t := RunTo(spec, plans, n - 1).value;
      SessionParts(spec, n - 1, t.stage, PlanOf(plans, n - 1));
      OpenExecutes(spec, n - 1, t.stage);
      var results, front := RunTo(spec, plans, n).value.results, t.results;
      forall i | 0 <= i < n ensures ExecutedAt(spec, spec.sessions[i], results[i].execution) {
        if i < n - 1 {
          assert results[..n - 1][i] == results[i];
        }
      }
    }
  }

  // ---- at what price the holdings stand ----

  /** Everything the log holds stands at its close price, and the net value is counted with those. */
  ghost predicate StandsAtCloses(s: Session, log: seq<Event>) {
    && Replay(log).Ok?
    && forall k :: k in Replay(log).value.holdings ==> k in s.closes && Replay(log).value.holdings[k].mark == s.closes[k]
  }

  lemma {:induction false} LastMarkOf(prices: map<Symbol, real>, keys: seq<Symbol>, k: Symbol)
    requires (forall i :: 0 <= i < |keys| ==> keys[i] in prices) && k in keys
    ensures Statement.MarkIn(MarksAt(prices, keys), k) == Some(prices[k])
  {
    var n := |keys| - 1;
    var marks := MarksAt(prices, keys);
    assert marks[..n] == MarksAt(prices, keys[..n]);
    if keys[n] != k {
      assert k in keys[..n];
      LastMarkOf(prices, keys[..n], k);
    }
  }

  lemma {:induction false} ClosePriceIsLast(spec: Spec, s: Session, log: seq<Event>, held: seq<Symbol>, k: Symbol)
    requires (forall i :: 0 <= i < |held| ==> held[i] in s.closes) && k in held
    ensures Statement.LastPrice(log + [MarkEvent(spec, s, held)], k) == Some(s.closes[k])
  {
    LastMarkOf(s.closes, held, k);
    var more := log + [MarkEvent(spec, s, held)];
    assert more[|more| - 1] == MarkEvent(spec, s, held);
  }

  lemma {:induction false} MarkedLog(spec: Spec, s: Session, log: seq<Event>, held: seq<Symbol>)
    requires (forall i :: 0 <= i < |held| ==> held[i] in s.closes) && Replay(log).Ok?
    requires held == Sorted(Replay(log).value.holdings.Keys)
    requires Replay(log + [MarkEvent(spec, s, held)]).Ok?
    requires SameLots(Replay(log).value, Replay(log + [MarkEvent(spec, s, held)]).value)
    ensures StandsAtCloses(s, log + [MarkEvent(spec, s, held)])
  {
    hide Replay, MarkEvent;
    var more := log + [MarkEvent(spec, s, held)];
    forall k | k in Replay(more).value.holdings ensures k in s.closes && Replay(more).value.holdings[k].mark == s.closes[k] {
      assert k in Replay(log).value.holdings;
      assert k in held;
      ClosePriceIsLast(spec, s, log, held, k);
      Statement.MarksAreLastPrices(more, k);
    }
  }

  lemma {:induction false} CloseMarks(spec: Spec, i: nat, st: Stage)
    requires ValidSpec(spec) && i < |spec.sessions| && StageReady(spec, i, st)
    requires Recordable(spec.sessions[i], OpenAt(spec, i, st))
    ensures StandsAtCloses(spec.sessions[i], LogClosed(spec, i, st))
  {
    hide Replay, MarkEvent, StageReady, Slice, ValidSession, Recordable, SameLots, StandsAtCloses, LogReady, LogDuring, BookReady, OpenAt, LogOpened;
    var s, log := spec.sessions[i], LogOpened(spec, i, st);
    OpenedLogIsReady(spec, i, st);
    assert Replay(log).Ok? by { assert LogReady(spec, log); }
    assert ValidSession(spec, s);
    MarkAppends(spec, s, log);
    MarkedLog(spec, s, log, Sorted(Replay(log).value.holdings.Keys));
  }

  /** After every session of a run the ledger holds everything at that session's close. */
  lemma {:induction false} RunStandsAtCloses(spec: Spec, plans: seq<seq<PlannedOrder>>, n: nat)
    requires ValidSpec(spec) && ValidPlans(spec, plans) && 0 < n <= |spec.sessions| && RunTo(spec, plans, n).Some?
    ensures StandsAtCloses(spec.sessions[n - 1], RunTo(spec, plans, n).value.stage.log)
  {
    hide SessionAt, StageReady, Slice, ValidSession, RunTo, OpenAt, LogClosed, Recordable, StandsAtCloses;
    RunBefore(spec, plans, n);
    RunStep(spec, plans, n - 1);
    var t := RunTo(spec, plans, n - 1).value;
    SessionParts(spec, n - 1, t.stage, PlanOf(plans, n - 1));
    CloseMarks(spec, n - 1, t.stage);
  }

  // ---- what a run writes ----

  /** `e` books the fills of an open as one batch, with the marks of everything held after them. */
  ghost predicate IsBatchOf(spec: Spec, s: Session, log: seq<Event>, fills: seq<Fill>, e: Event) {
    var booked := Bookings(s.date, fills);
    && Replay(log).Ok? && AllBookable(booked) && ApplyFills(Replay(log).value, s.date, booked).Ok?
    && var held := Sorted(ApplyFills(Replay(log).value, s.date, booked).value.holdings.Keys);
       (forall k :: 0 <= k < |held| ==> held[k] in s.opens) && e == BatchEvent(spec, s, booked, held)
  }

  /** `e` marks everything the log holds at the close. */
  ghost predicate IsMarkOf(spec: Spec, s: Session, log: seq<Event>, e: Event) {
    && Replay(log).Ok?
    && var held := Sorted(Replay(log).value.holdings.Keys);
       (forall k :: 0 <= k < |held| ==> held[k] in s.closes) && e == MarkEvent(spec, s, held)
  }

  function EventsOf(date: Date, fills: seq<Fill>): nat {
    if Bookings(date, fills) == [] then 1 else 2
  }

  /** A session writes one batch if anything filled, then one close mark, and nothing else. */
  ghost predicate SessionWrites(spec: Spec, s: Session, before: seq<Event>, fills: seq<Fill>, after: seq<Event>) {
    && |after| == |before| + EventsOf(s.date, fills) && after[..|before|] == before
    && (Bookings(s.date, fills) != [] ==> IsBatchOf(spec, s, before, fills, after[|before|]))
    && IsMarkOf(spec, s, after[..|after| - 1], after[|after| - 1])
  }

  /** The log is the opening cash followed by what each session's executions write. */
  ghost predicate LogOfRun(spec: Spec, results: seq<SessionResult>, log: seq<Event>)
    requires spec.sessions != [] && |results| <= |spec.sessions|
  {
    if results == [] then log == [OpeningEvent(spec, spec.sessions[0].openAt - 1)]
    else
      var n := |results| - 1;
      var s := spec.sessions[n];
      var m := |log| - EventsOf(s.date, results[n].execution);
      m >= 0 && LogOfRun(spec, results[..n], log[..m]) && SessionWrites(spec, s, log[..m], results[n].execution, log)
  }

  lemma {:induction false} SessionWritesItsLog(spec: Spec, i: nat, st: Stage)
    requires ValidSpec(spec) && i < |spec.sessions| && StageReady(spec, i, st)
    requires Recordable(spec.sessions[i], OpenAt(spec, i, st))
    ensures SessionWrites(spec, spec.sessions[i], st.log, OpenAt(spec, i, st).fills, LogClosed(spec, i, st))
  {
    hide StageReady, Slice, ValidSession, BooksTo, Recordable, OpenAt, LogReady, LogDuring, SameLots, BookReady, IsBatchOf, IsMarkOf, LogOpened, LogClosed;
    var s, o, log := spec.sessions[i], OpenAt(spec, i, st), LogOpened(spec, i, st);
    OpenedLogIsReady(spec, i, st);
    BatchIsWritten(spec, i, st);
    MarkIsWritten(spec, i, st);
    var after := LogClosed(spec, i, st);
    assert after[..|after| - 1] == log;
    assert after[..|st.log|] == log[..|st.log|] == st.log;
  }

  lemma {:induction false} BatchIsWritten(spec: Spec, i: nat, st: Stage)
    requires ValidSpec(spec) && i < |spec.sessions| && StageReady(spec, i, st)
    requires Recordable(spec.sessions[i], OpenAt(spec, i, st))
    ensures var (s, o, log) := (spec.sessions[i], OpenAt(spec, i, st), LogOpened(spec, i, st));
            && |log| == |st.log| + EventsOf(s.date, o.fills) - 1 && log[..|st.log|] == st.log
            && (Bookings(s.date, o.fills) != [] ==> IsBatchOf(spec, s, st.log, o.fills, log[|st.log|]))
  {
    hide StageReady, Slice, ValidSession, LogReady, LogDuring, BookReady, OpenAt, BatchReady;
    OpenMeaning(spec, i, st);
    StageReplays(spec, i, st);
  }

  lemma {:induction false} StageReplays(spec: Spec, i: nat, st: Stage)
    requires i < |spec.sessions| && StageReady(spec, i, st)
    ensures Replay(st.log).Ok?
  {}

  lemma {:induction false} MarkIsWritten(spec: Spec, i: nat, st: Stage)
    requires ValidSpec(spec) && i < |spec.sessions| && StageReady(spec, i, st)
    requires Recordable(spec.sessions[i], OpenAt(spec, i, st))
    ensures var (log, after) := (LogOpened(spec, i, st), LogClosed(spec, i, st));
            after == log + [after[|log|]] && IsMarkOf(spec, spec.sessions[i], log, after[|log|])
  {
    hide StageReady, Slice, ValidSession, Recordable, OpenAt, LogDuring, SameLots, BookReady, LogOpened;
    OpenedLogIsReady(spec, i, st);
  }

  /** Over every run, the log is determined by the executions. */
  lemma {:induction false} RunWritesItsLog(spec: Spec, plans: seq<seq<PlannedOrder>>, n: nat)
    requires ValidSpec(spec) && ValidPlans(spec, plans) && n <= |spec.sessions| && RunTo(spec, plans, n).Some?
    ensures |RunTo(spec, plans, n).value.results| == n
    ensures LogOfRun(spec, RunTo(spec, plans, n).value.results, RunTo(spec, plans, n).value.stage.log)
  {
    hide SessionAt, StageReady, Slice, ValidSession, RunTo, SessionWrites;
    TraceLength(spec, plans, n);
    if n > 0 {
      RunBefore(spec, plans, n);
      RunWritesItsLog(spec, plans, n - 1);
      LastSessionWrites(spec, plans, n);
      LogGrows(spec, RunTo(spec, plans, n).value.results, RunTo(spec, plans, n - 1).value.stage.log,
               RunTo(spec, plans, n).value.stage.log);
    } else {
      NothingRun(spec, plans);
    }
  }

  lemma {:induction false} NothingRun(spec: Spec, plans: seq<seq<PlannedOrder>>)
    requires ValidSpec(spec) && ValidPlans(spec, plans)
    ensures RunTo(spec, plans, 0) == Some(Trace([], StartStage(spec)))
  {}

  lemma {:induction false} LogGrows(spec: Spec, results: seq<SessionResult>, before: seq<Event>, after: seq<Event>)
    requires 0 < |results| <= |spec.sessions| && LogOfRun(spec, results[..|results| - 1], before)
    requires SessionWrites(spec, spec.sessions[|results| - 1], before, results[|results| - 1].execution, after)
    ensures LogOfRun(spec, results, after)
  {
    hide IsBatchOf, IsMarkOf;
  }

  lemma {:induction false} LastSessionWrites(spec: Spec, plans: seq<seq<PlannedOrder>>, n: nat)
    requires ValidSpec(spec) && ValidPlans(spec, plans) && 0 < n <= |spec.sessions| && RunTo(spec, plans, n).Some?
    ensures RunTo(spec, plans, n - 1).Some? && |RunTo(spec, plans, n).value.results| == n
    ensures SessionWrites(spec, spec.sessions[n - 1], RunTo(spec, plans, n - 1).value.stage.log,
                          RunTo(spec, plans, n).value.results[n - 1].execution, RunTo(spec, plans, n).value.stage.log)
  {
    hide SessionAt, StageReady, Slice, ValidSession, RunTo, SessionWrites, OpenAt, LogClosed, Recordable;
    RunBefore(spec, plans, n);
    RunStep(spec, plans, n - 1);
    var t := RunTo(spec, plans, n - 1).value;
    SessionParts(spec, n - 1, t.stage, PlanOf(plans, n - 1));
    SessionWritesItsLog(spec, n - 1, t.stage);
  }

  // ---- the two books over a run ----

  /**
    In every session a run reaches and records, the desk's running cash is the cash of
    the ledger after booking, and the close leaves that cash and every lot as booked.
   */
  lemma {:induction false} BooksAgreeOverTheRun(spec: Spec, plans: seq<seq<PlannedOrder>>, i: nat)
    requires ValidSpec(spec) && ValidPlans(spec, plans) && i < |spec.sessions| && RunTo(spec, plans, i + 1).Some?
    ensures RunTo(spec, plans, i).Some? && TraceReady(spec, i, RunTo(spec, plans, i).value)
    ensures var (o, log) := (OpenAt(spec, i, RunTo(spec, plans, i).value.stage), RunTo(spec, plans, i + 1).value.stage.log);
            Replay(log).Ok? && o.cash == Some(Replay(log).value.cash) && SameLots(o.book, Replay(log).value)
  {
    hide SessionAt, StageReady, Slice, ValidSession, RunTo, OpenAt, LogClosed, Recordable, BooksTo, LogDuring;
    RunBefore(spec, plans, i + 1);
    RunStep(spec, plans, i);
    var t := RunTo(spec, plans, i).value;
    SessionParts(spec, i, t.stage, PlanOf(plans, i));
    OpenMeaning(spec, i, t.stage);
    ClosedLogIsReady(spec, i, t.stage);
  }

  /** The log a run leaves is one the ledger accepts, with settled sells only in China. */
  lemma {:induction false} RunLogIsReady(spec: Spec, plans: seq<seq<PlannedOrder>>, n: nat)
    requires ValidSpec(spec) && ValidPlans(spec, plans) && 0 < n <= |spec.sessions| && RunTo(spec, plans, n).Some?
    ensures var log := RunTo(spec, plans, n).value.stage.log;
            log != [] && LogReady(spec, log) && BookReady(spec, Replay(log).value, spec.sessions[n - 1].date)
  {
    hide SessionAt, StageReady, Slice, ValidSession, RunTo, OpenAt, LogClosed, Recordable, LogDuring, SameLots;
    RunBefore(spec, plans, n);
    RunStep(spec, plans, n - 1);
    var t := RunTo(spec, plans, n - 1).value;
    SessionParts(spec, n - 1, t.stage, PlanOf(plans, n - 1));
    ClosedLogIsReady(spec, n - 1, t.stage);
  }
}
