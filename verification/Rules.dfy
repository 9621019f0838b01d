/**
  The two built-in market rule sets: board lots, price limits, suspension and the
  settlement rule that makes China sells T+1.
  (src/stock_agent/execution/rules.py and cn_rules.py.)
 */
module Rules {
  import opened Common
  import opened Fifo
  import opened Book
  import opened Calendar

  datatype PriceLimit = Unlimited | LimitUp | LimitDown

  datatype SessionState = SessionState(suspended: bool, limit: PriceLimit)

  datatype Rule = China(calendar: TradingCalendar) | UnitedStates

  datatype Reason =
    | DuplicateOrder
    | QuantityUnsupported
    | Backdated
    | SideNotExecutable
    | MissingCalendar
    | NotASession
    | NoFutureSession
    | BelowBoardLot
    | RuleRejected
    | Suspended
    | BuyAtLimitUp
    | SellAtLimitDown
    | NotSettled
    | ShortSale
    | SellableExceeded
    | OpenUnsupported
    | FeeUnsupported
    | FeesExceedProceeds
    | CashShort
    | CashUnsupported

  /** A rule answers, or raises on input it refuses. */
  datatype Answer<+T> = Answered(value: T) | Raised

  ghost predicate ValidRule(rule: Rule) {
    rule.China? ==> ValidCalendar(rule.calendar)
  }

  const BOARD_LOT := 100

  /** Buys on the China market are cut down to whole board lots. */
  function NormalizeQuantity(rule: Rule, side: Side, quantity: real): (q: real)
    requires quantity > 0.0
    ensures 0.0 <= q <= quantity
    ensures !(rule.China? && side == Buy) ==> q == quantity
    ensures rule.China? && side == Buy ==>
              quantity - q < 100.0 && (q / 100.0).Floor as real * 100.0 == q
  {
    if rule.China? && side == Buy then
      var lots := (quantity / 100.0).Floor;
      assert lots as real * 100.0 == (lots * BOARD_LOT) as real;
      assert ((lots * BOARD_LOT) as real / 100.0) == lots as real;
      (lots * BOARD_LOT) as real
    else quantity
  }

  /** A lot may be sold from the first session after the one it was acquired in. */
  function CanSellT1(calendar: TradingCalendar, acquired: Date, session: Date): (r: Answer<bool>)
    requires ValidCalendar(calendar)
    ensures r.Answered? <==> acquired in calendar.sessions && session in calendar.sessions
    ensures r.Answered? ==> (r.value <==> acquired < session)
  {
    if !IsSession(calendar, acquired) || !IsSession(calendar, session) then Raised
    else
      match NextSession(calendar, acquired)
      case None => Answered(false)
      case Some(first) => Answered(session >= first)
  }

  /** Whether one lot counts as sellable on `session`. */
  function Counts(rule: Rule, symbol: Symbol, session: Date, open: OpenLot): Answer<bool>
    requires ValidRule(rule)
  {
    if open.symbol != symbol then Answered(false)
    else match rule
      case UnitedStates => Answered(true)
      case China(calendar) => CanSellT1(calendar, open.lot.acquired, session)
  }

  /** Total quantity of the lots that may be sold; raises if any lot does. */
  function Sellable(rule: Rule, symbol: Symbol, session: Date, lots: seq<OpenLot>): Answer<real>
    requires ValidRule(rule)
  {
    if lots == [] then Answered(0.0)
    else match (Counts(rule, symbol, session, lots[0]), Sellable(rule, symbol, session, lots[1..]))
      case (Answered(counts), Answered(rest)) => Answered((if counts then lots[0].lot.quantity else 0.0) + rest)
      case _ => Raised
  }

  /** Price limits and suspension. */
  function StateBlock(side: Side, state: SessionState): Option<Reason> {
    if state.suspended then Some(Suspended)
    else if side == Buy && state.limit == LimitUp then Some(BuyAtLimitUp)
    else if side == Sell && state.limit == LimitDown then Some(SellAtLimitDown)
    else None
  }

  function SellBlock(rule: Rule, side: Side, symbol: Symbol, session: Date, quantity: real, lots: seq<OpenLot>)
    : Answer<Option<Reason>>
    requires ValidRule(rule)
  {
    if side != Sell then Answered(None)
    else match Sellable(rule, symbol, session, lots)
      case Raised => Raised
      case Answered(available) =>
        Answered(if available < quantity then Some(if rule.China? then NotSettled else ShortSale) else None)
  }

  /** Why an order may not execute in this session, if anything blocks it. */
  function ExecutionBlock(rule: Rule, side: Side, symbol: Symbol, session: Date, quantity: real,
                          state: Option<SessionState>, lots: seq<OpenLot>): Answer<Option<Reason>>
    requires ValidRule(rule)
  {
    match rule
    case UnitedStates =>
      if state.Some? then Raised else SellBlock(rule, side, symbol, session, quantity, lots)
    case China(calendar) =>
      if !IsSession(calendar, session) || state.None? then Raised
      else
        var blocked := StateBlock(side, state.value);
        if blocked.Some? then Answered(blocked)
        else SellBlock(rule, side, symbol, session, quantity, lots)
  }
}
