/**
  Accepting orders and draining the pending queue at a session's open, against
  running cash per account and running sellable quantity per holding.
  (src/stock_agent/execution/simulator.py.)
 */
module OrderDesk {
  import opened Common
  import opened Fifo
  import opened Book
  import opened Calendar
  import opened Rules

  datatype OrderIntent = OrderIntent(orderId: Id, account: Id, symbol: Symbol, market: Market,
                                     side: Side, quantity: real)

  datatype Pending = Pending(intent: OrderIntent, effective: real, eligible: Date)

  datatype Status = PENDING | FILLED | REJECTED

  datatype Fill = Fill(status: Status, intent: OrderIntent, requested: real, filled: real,
                       price: Option<real>, fees: real, session: Option<Date>, reason: Option<Reason>)

  datatype Desk = Desk(calendars: map<Market, TradingCalendar>, costs: map<Market, real>,
                       pending: seq<Pending>, used: set<Id>, processed: map<Market, Date>)

  /** What one market offers at one open. */
  datatype Frame = Frame(market: Market, session: Date, opens: map<Symbol, real>,
                         states: map<Symbol, SessionState>, lots: map<Id, seq<OpenLot>>,
                         cash: Option<map<Id, real>>)

  datatype DeskError =
    | NoCalendar
    | NoSession
    | StatesForUS
    | BadCash
    | MissingAccount
    | Backward

  ghost predicate ValidDesk(d: Desk) {
    && (forall m :: m in d.calendars ==> ValidCalendar(d.calendars[m]) && d.calendars[m].market == m)
    && (forall m :: m in d.costs ==> d.costs[m] >= 0.0)
    && CN in d.costs && US in d.costs
    && (forall i :: 0 <= i < |d.pending| ==> ValidPending(d.pending[i]))
  }

  predicate ValidPending(p: Pending) {
    p.intent.side in {Buy, Sell} && Supported(p.effective) && 0.0 < p.effective <= p.intent.quantity
  }

  function RuleOf(d: Desk, market: Market): (rule: Rule)
    requires ValidDesk(d) && market in d.calendars
    ensures ValidRule(rule)
  {
    if market == CN then China(d.calendars[market]) else UnitedStates
  }

  function Rejected(intent: OrderIntent, requested: real, reason: Reason): Fill {
    Fill(REJECTED, intent, requested, 0.0, None, 0.0, None, Some(reason))
  }

  function Filled(intent: OrderIntent, q: real, price: real, fees: real, session: Date): Fill {
    Fill(FILLED, intent, q, q, Some(price), fees, Some(session), None)
  }

  // ---- submitting ----

  /** The reason an order is refused at submission, or the pending order it becomes. */
  function Admit(d: Desk, intent: OrderIntent, decision: Date): (r: Result<Pending, Reason>)
    requires ValidDesk(d) && intent.quantity > 0.0
    ensures r.Ok? ==> ValidPending(r.value)
  {
    if intent.orderId in d.used then Err(DuplicateOrder)
    else if !Supported(intent.quantity) then Err(QuantityUnsupported)
    else if intent.market in d.processed && decision < d.processed[intent.market] then Err(Backdated)
    else if intent.side !in {Buy, Sell} then Err(SideNotExecutable)
    else if intent.market !in d.calendars then Err(MissingCalendar)
    else if !IsSession(d.calendars[intent.market], decision) then Err(NotASession)
    else match NextSession(d.calendars[intent.market], decision)
      case None => Err(NoFutureSession)
      case Some(eligible) =>
        var effective := NormalizeQuantity(RuleOf(d, intent.market), intent.side, intent.quantity);
        if !Supported(effective) then Err(RuleRejected)
        else if effective <= 0.0 then Err(BelowBoardLot)
        else Ok(Pending(intent, effective, eligible))
  }

  function Submit(d: Desk, intent: OrderIntent, decision: Date): (r: (Desk, Fill))
    requires ValidDesk(d) && intent.quantity > 0.0
    ensures ValidDesk(r.0)
  {
    var marked := d.(used := d.used + {intent.orderId});
    match Admit(d, intent, decision)
    case Err(reason) => (marked, Rejected(intent, intent.quantity, reason))
    case Ok(p) =>
      (marked.(pending := d.pending + [p]), Fill(PENDING, intent, p.effective, 0.0, None, 0.0, None, None))
  }

  // ---- draining the queue ----

  /** Results so far, the orders still waiting, and the two running books. */
  datatype Drained = Drained(fills: seq<Fill>, waiting: seq<Pending>,
                             sellable: map<(Id, Symbol), real>, cash: Option<map<Id, real>>)

  function Fees(q: real, price: real, bps: real): (fees: real)
    requires q >= 0.0 && price >= 0.0 && bps >= 0.0
    ensures fees >= 0.0
  {
    assert q * price >= 0.0;
    assert q * price * bps >= 0.0;
    Quantize12(q * price * bps / 10000.0)
  }

  /** Whether an order comes to an end at this open, whatever the books say. */
  predicate Ends(f: Frame, p: Pending) {
    && p.intent.market == f.market && p.eligible <= f.session
    && p.intent.symbol in f.opens
    && (f.market == CN ==> p.intent.symbol in f.states)
  }

  function LotsFor(f: Frame, account: Id): seq<OpenLot> {
    if account in f.lots then f.lots[account] else []
  }

  function StateFor(f: Frame, s: Symbol): Option<SessionState> {
    if s in f.states then Some(f.states[s]) else None
  }

  ghost predicate ValidFrame(f: Frame) {
    forall s :: s in f.opens ==> f.opens[s] > 0.0
  }

  /** The block on an order and the running sellable quantities after looking it up. */
  function Gate(f: Frame, rule: Rule, sellable: map<(Id, Symbol), real>, p: Pending)
    : (r: (Option<Reason>, map<(Id, Symbol), real>))
    requires ValidRule(rule)
  {
    var o := p.intent;
    var lots := LotsFor(f, o.account);
    match ExecutionBlock(rule, o.side, o.symbol, f.session, p.effective, StateFor(f, o.symbol), lots)
    case Raised => (Some(RuleRejected), sellable)
    case Answered(Some(reason)) => (Some(reason), sellable)
    case Answered(None) =>
      if o.side != Sell then (None, sellable)
      else
        var key := (o.account, o.symbol);
        var answer := if key in sellable then Answered(sellable[key])
                      else Sellable(rule, o.symbol, f.session, lots);
        match answer
        case Raised => (Some(RuleRejected), sellable)
        case Answered(available) =>
          (if p.effective > available then Some(SellableExceeded) else None, sellable[key := available])
  }

  /** The account's cash after the order, or the reason it cannot settle. */
  function Settle(cash: real, side: Side, q: real, price: real, fees: real): Result<real, Reason> {
    var change := if side == Sell then q * price - fees else q * price + fees;
    if !Supported(change) then Err(CashUnsupported)
    else if side == Sell && change < 0.0 then Err(FeesExceedProceeds)
    else if side != Sell && change > cash then Err(CashShort)
    else
      var after := if side == Sell then cash + change else cash - change;
      if Supported(after) then Ok(after) else Err(CashUnsupported)
  }

  ghost predicate Covers(cash: Option<map<Id, real>>, f: Frame, p: Pending) {
    cash.Some? && Ends(f, p) ==> p.intent.account in cash.value
  }

  /** Price, fees and the account's cash after execution. */
  datatype Execution = Execution(price: real, fees: real, cash: Option<real>)

  /** How an order that ends at this open ends. */
  function Decide(f: Frame, bps: real, blocked: Option<Reason>, cash: Option<real>, p: Pending)
    : (r: Result<Execution, Reason>)
    requires ValidFrame(f) && ValidPending(p) && bps >= 0.0 && p.intent.symbol in f.opens
    ensures r.Ok? ==>
              && blocked.None?
              && r.value.price == f.opens[p.intent.symbol] && Supported(r.value.price)
              && r.value.fees >= 0.0 && Supported(r.value.fees)
              && r.value.cash.Some? == cash.Some?
    ensures r.Ok? && cash.Some? ==>
              Settle(cash.value, p.intent.side, p.effective, r.value.price, r.value.fees) == Ok(r.value.cash.value)
  {
    if blocked.Some? then Err(blocked.value)
    else
      var price := f.opens[p.intent.symbol];
      if !Supported(price) then Err(OpenUnsupported)
      else
        var fees := Fees(p.effective, price, bps);
        if !Supported(fees) then Err(FeeUnsupported)
        else if cash.None? then Ok(Execution(price, fees, None))
        else match Settle(cash.value, p.intent.side, p.effective, price, fees)
          case Err(reason) => Err(reason)
          case Ok(left) => Ok(Execution(price, fees, Some(left)))
  }

  function DrainOne(f: Frame, rule: Rule, bps: real, before: Drained, p: Pending): (after: Drained)
    requires ValidRule(rule) && ValidFrame(f) && ValidPending(p) && bps >= 0.0
    requires Covers(before.cash, f, p)
    ensures before.cash.Some? == after.cash.Some?
    ensures before.cash.Some? ==> after.cash.value.Keys == before.cash.value.Keys
  {
    if !Ends(f, p) then before.(waiting := before.waiting + [p])
    else
      var (blocked, sellable) := Gate(f, rule, before.sellable, p);
      var cash := if before.cash.Some? then Some(before.cash.value[p.intent.account]) else None;
      Record(before.(sellable := sellable), f, p, Decide(f, bps, blocked, cash, p))
  }

  /** Write the result of one order into the running books. */
  function Record(before: Drained, f: Frame, p: Pending, decided: Result<Execution, Reason>): (after: Drained)
    requires decided.Ok? ==> decided.value.cash.Some? == before.cash.Some?
  {
    var key := (p.intent.account, p.intent.symbol);
    match decided
    case Err(reason) => before.(fills := before.fills + [Rejected(p.intent, p.effective, reason)])
    case Ok(e) =>
      Drained(before.fills + [Filled(p.intent, p.effective, e.price, e.fees, f.session)],
              before.waiting,
              if p.intent.side == Sell && key in before.sellable
              then before.sellable[key := before.sellable[key] - p.effective] else before.sellable,
              if before.cash.Some? then Some(before.cash.value[p.intent.account := e.cash.value]) else None)
  }

  function Drain(f: Frame, rule: Rule, bps: real, pending: seq<Pending>): (r: Drained)
    requires ValidRule(rule) && ValidFrame(f) && bps >= 0.0
    requires forall i :: 0 <= i < |pending| ==> ValidPending(pending[i]) && Covers(f.cash, f, pending[i])
    ensures f.cash.Some? == r.cash.Some?
    ensures f.cash.Some? ==> r.cash.value.Keys == f.cash.value.Keys
  {
    if pending == [] then Drained([], [], map[], f.cash)
    else
      var front, p := pending[..|pending| - 1], pending[|pending| - 1];
      assert Covers(f.cash, f, p);
      DrainOne(f, rule, bps, Drain(f, rule, bps, front), p)
  }

  /** The reason a session cannot be processed at all. */
  function Refusal(d: Desk, f: Frame): (r: Option<DeskError>)
    requires ValidDesk(d)
  {
    if f.market !in d.calendars then Some(NoCalendar)
    else if !IsSession(d.calendars[f.market], f.session) then Some(NoSession)
    else if f.market != CN && f.states != map[] then Some(StatesForUS)
    else if f.cash.Some? && !(forall a :: a in f.cash.value ==> f.cash.value[a] >= 0.0 && Supported(f.cash.value[a]))
    then Some(BadCash)
    else if f.cash.Some? && !(forall i :: 0 <= i < |d.pending| ==>
                                (d.pending[i].intent.market == f.market && d.pending[i].eligible <= f.session
                                 ==> d.pending[i].intent.account in f.cash.value))
    then Some(MissingAccount)
    else if f.market in d.processed && f.session < d.processed[f.market] then Some(Backward)
    else None
  }

  function Outcome(d: Desk, f: Frame): (r: Drained)
    requires ValidDesk(d) && ValidFrame(f) && Refusal(d, f).None?
  {
    Drain(f, RuleOf(d, f.market), d.costs[f.market], d.pending)
  }

  function After(d: Desk, f: Frame): (r: Desk)
    requires ValidDesk(d) && ValidFrame(f) && Refusal(d, f).None?
  {
    d.(pending := Outcome(d, f).waiting,
       processed := if f.market in d.processed && d.processed[f.market] >= f.session then d.processed
                    else d.processed[f.market := f.session])
  }

  // ---- what is admitted and what is refused ----

  /** What keeps an order out of the queue, reason by reason, in the order they are looked for. */
  ghost predicate KeptOut(d: Desk, intent: OrderIntent, decision: Date, reason: Reason) {
    match reason
    case DuplicateOrder => intent.orderId in d.used
    case QuantityUnsupported => !Supported(intent.quantity)
    case Backdated => intent.market in d.processed && decision < d.processed[intent.market]
    case SideNotExecutable => intent.side != Buy && intent.side != Sell
    case MissingCalendar => intent.market !in d.calendars
    case NotASession => intent.market in d.calendars && decision !in d.calendars[intent.market].sessions
    case NoFutureSession =>
      intent.market in d.calendars && forall s :: s in d.calendars[intent.market].sessions ==> s <= decision
    case BelowBoardLot => intent.market == CN && intent.side == Buy && intent.quantity < 100.0
    case _ => false
  }

  function Turn(reason: Reason): nat {
    match reason
    case DuplicateOrder => 0
    case QuantityUnsupported => 1
    case Backdated => 2
    case SideNotExecutable => 3
    case MissingCalendar => 4
    case NotASession => 5
    case NoFutureSession => 6
    case BelowBoardLot => 7
    case _ => 8
  }

  /** The order as it waits: at the next listed session, in whole board lots where those apply. */
  ghost predicate Waiting(d: Desk, intent: OrderIntent, decision: Date, p: Pending) {
    && p.intent == intent
    && (intent.market in d.calendars ==>
          var sessions := d.calendars[intent.market].sessions;
          && p.eligible in sessions && decision < p.eligible
          && forall s :: s in sessions && decision < s ==> p.eligible <= s)
    && if intent.market == CN && intent.side == Buy
       then (p.effective / 100.0).Floor as real * 100.0 == p.effective && p.effective <= intent.quantity < p.effective + 100.0
       else p.effective == intent.quantity
  }

  lemma {:induction false} WholeLotsAreSupported(q: real, effective: real)
    requires Supported(q) && 0.0 <= effective <= q && (effective / 100.0).Floor as real * 100.0 == effective
    ensures Supported(effective)
    ensures effective <= 0.0 && q - effective < 100.0 ==> q < 100.0
    ensures q < 100.0 ==> effective <= 0.0
  {
    var lots := (effective / 100.0).Floor;
    assert lots >= 0;
    assert effective * GRID == (lots * 100 * 1_000_000_000_000) as real;
  }

  /**
    An order is queued exactly when nothing keeps it out; otherwise it is rejected for the
    first reason that does. Built-in rules never make a supported quantity unsupported.
   */
  lemma {:induction false} AdmittedExactlyWhen(d: Desk, intent: OrderIntent, decision: Date)
    requires ValidDesk(d) && intent.quantity > 0.0
    ensures var r := Admit(d, intent, decision);
            && (r.Ok? <==> forall reason :: !KeptOut(d, intent, decision, reason))
            && (r.Ok? ==> Waiting(d, intent, decision, r.value))
            && (r.Err? ==>
                  && KeptOut(d, intent, decision, r.error)
                  && forall other :: KeptOut(d, intent, decision, other) ==> Turn(r.error) <= Turn(other))
  {
    hide Supported, ValidPending, IsSession, NextSession, NormalizeQuantity;
    var r := Admit(d, intent, decision);
    if Supported(intent.quantity) && intent.market in d.calendars && intent.side in {Buy, Sell} {
      var effective := NormalizeQuantity(RuleOf(d, intent.market), intent.side, intent.quantity);
      if intent.market == CN && intent.side == Buy {
        WholeLotsAreSupported(intent.quantity, effective);
      }
    }
    forall reason | KeptOut(d, intent, decision, reason) ensures r.Err? && Turn(r.error) <= Turn(reason) {
    }
  }

  /** Submitting uses up the order id; only an admitted order joins the queue, at its end. */
  lemma {:induction false} SubmittedAs(d: Desk, intent: OrderIntent, decision: Date)
    requires ValidDesk(d) && intent.quantity > 0.0
    ensures var (after, fill) := Submit(d, intent, decision);
            && after.calendars == d.calendars && after.costs == d.costs && after.processed == d.processed
            && after.used == d.used + {intent.orderId}
            && fill.intent == intent && fill.filled == 0.0 && fill.price.None? && fill.fees == 0.0 && fill.session.None?
            && match fill.status
               case PENDING =>
                 && after.pending == d.pending + [Pending(intent, fill.requested, after.pending[|d.pending|].eligible)]
                 && Waiting(d, intent, decision, after.pending[|d.pending|]) && fill.reason.None?
               case REJECTED =>
                 && after.pending == d.pending && fill.requested == intent.quantity
                 && fill.reason.Some? && KeptOut(d, intent, decision, fill.reason.value)
               case FILLED => false
  {
    AdmittedExactlyWhen(d, intent, decision);
  }

  /** What stops a whole session, fault by fault, in the order they are looked for. */
  ghost predicate Stops(d: Desk, f: Frame, e: DeskError) {
    match e
    case NoCalendar => f.market !in d.calendars
    case NoSession => f.market in d.calendars && f.session !in d.calendars[f.market].sessions
    case StatesForUS => f.market == US && f.states != map[]
    case BadCash => f.cash.Some? && exists a :: a in f.cash.value && (f.cash.value[a] < 0.0 || !Supported(f.cash.value[a]))
    case MissingAccount =>
      f.cash.Some? && exists p :: p in d.pending && p.intent.market == f.market && p.eligible <= f.session
                                  && p.intent.account !in f.cash.value
    case Backward => f.market in d.processed && f.session < d.processed[f.market]
  }

  function TurnOf(e: DeskError): nat {
    match e
    case NoCalendar => 0
    case NoSession => 1
    case StatesForUS => 2
    case BadCash => 3
    case MissingAccount => 4
    case Backward => 5
  }

  /** A session is processed exactly when nothing stops it; otherwise the first fault is raised. */
  lemma {:induction false} RefusedExactlyWhen(d: Desk, f: Frame)
    requires ValidDesk(d)
    ensures var r := Refusal(d, f);
            && (r.None? <==> forall e :: !Stops(d, f, e))
            && (r.Some? ==>
                  Stops(d, f, r.value) && forall other :: Stops(d, f, other) ==> TurnOf(r.value) <= TurnOf(other))
  {
    hide Supported;
    var r := Refusal(d, f);
    forall e | Stops(d, f, e) ensures r.Some? && TurnOf(r.value) <= TurnOf(e) {
    }
    if f.cash.Some? {
      if i :| 0 <= i < |d.pending| && d.pending[i].intent.market == f.market && d.pending[i].eligible <= f.session
              && d.pending[i].intent.account !in f.cash.value {
        assert d.pending[i] in d.pending;
      }
    }
    assert r.Some? ==> Stops(d, f, r.value);
  }
}
