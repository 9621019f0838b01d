/**
  The meaning of a ledger log: replaying its surviving events, one by one, over
  cash, realized profit, peak value and FIFO holdings.
  (src/stock_agent/account/ledger.py, `_replay` and the `_apply_*` helpers.)
 */
module Book {
  import opened Common
  import opened Fifo

  datatype Holding = Holding(lots: seq<Lot>, mark: real)

  type Holdings = map<Symbol, Holding>

  datatype Mark = Mark(symbol: Symbol, price: real)

  datatype BookedFill = BookedFill(fillId: Id, symbol: Symbol, side: Side,
                                   quantity: real, price: real, fees: real)

  datatype Body =
    | CashInitialized(amount: real)
    | BuyFilled(session: Date, buy: BookedFill)
    | SellFilled(session: Date, sell: BookedFill)
    | CashAdjusted(adjustment: real)
    | PositionMarked(session: Date, mark: Mark)
    | BatchBooked(session: Date, marks: seq<Mark>, fills: seq<BookedFill>)
    | PortfolioMarked(session: Date, marks: seq<Mark>)
    | Reversed(target: Id)

  datatype Event = Event(id: Id, account: Id, market: Market, at: Instant, body: Body)

  datatype Fault =
    | Malformed
    | NotInitialized
    | InsufficientCash
    | OverSold
    | NegativeProceeds
    | NegativeAdjustment
    | UnknownPosition
    | IncompleteMarks
    | NotReplayable

  datatype Book = Book(cash: real, pnl: real, peak: real, holdings: Holdings)

  datatype Position = Position(symbol: Symbol, quantity: real, averageCost: real, marketValue: real)

  datatype OpenLot = OpenLot(symbol: Symbol, lot: Lot)

  // ---- what the event models accept ----

  predicate ValidPrice(x: real) { Supported(x) && x > 0.0 }

  predicate ValidMark(m: Mark) { ValidPrice(m.price) }

  predicate ValidFill(f: BookedFill) {
    && f.side in {Buy, Sell}
    && Supported(f.quantity) && f.quantity > 0.0
    && ValidPrice(f.price)
    && Supported(f.fees) && f.fees >= 0.0
  }

  function MarkSymbols(marks: seq<Mark>): (r: seq<Symbol>)
    ensures |r| == |marks|
    ensures forall i :: 0 <= i < |marks| ==> r[i] == marks[i].symbol
  {
    seq(|marks|, i requires 0 <= i < |marks| => marks[i].symbol)
  }

  function FillIds(fills: seq<BookedFill>): (r: seq<Id>)
    ensures |r| == |fills|
    ensures forall i :: 0 <= i < |fills| ==> r[i] == fills[i].fillId
  {
    seq(|fills|, i requires 0 <= i < |fills| => fills[i].fillId)
  }

  predicate ValidMarks(marks: seq<Mark>) {
    && (forall m :: m in marks ==> ValidMark(m))
    && forall i, j :: 0 <= i < j < |marks| ==> marks[i].symbol < marks[j].symbol
  }

  predicate ValidBody(body: Body) {
    match body
    case CashInitialized(amount) => Supported(amount) && amount >= 0.0
    case BuyFilled(_, f) => ValidFill(f) && f.side == Buy
    case SellFilled(_, f) => ValidFill(f) && f.side == Sell
    case CashAdjusted(amount) => Supported(amount) && amount != 0.0
    case PositionMarked(_, m) => ValidMark(m)
    case BatchBooked(_, marks, fills) =>
      && ValidMarks(marks) && fills != [] && Distinct(FillIds(fills))
      && forall f :: f in fills ==> ValidFill(f)
    case PortfolioMarked(_, marks) => ValidMarks(marks)
    case Reversed(_) => true
  }

  predicate WellFormed(e: Event) {
    ValidBody(e.body) && (e.body.Reversed? ==> e.body.target != e.id)
  }

  // ---- valuation ----

  /** Holdings carry only positive lots; an emptied holding is removed. */
  predicate Sound(b: Book) {
    && b.cash >= 0.0
    && forall s :: s in b.holdings ==>
         b.holdings[s].lots != [] && Positive(b.holdings[s].lots) && b.holdings[s].mark > 0.0
  }

  function LotsOf(b: Book, s: Symbol): seq<Lot> {
    if s in b.holdings then b.holdings[s].lots else []
  }

  function Held(b: Book, s: Symbol): real {
    Quantity(LotsOf(b, s))
  }

  function ValueOf(h: Holdings, keys: seq<Symbol>): real
    requires forall s :: s in keys ==> s in h
  {
    if keys == [] then 0.0
    else
      var k := keys[0];
      assert k in keys;
      Quantity(h[k].lots) * h[k].mark + ValueOf(h, keys[1..])
  }

  function Nav(b: Book): real {
    b.cash + ValueOf(b.holdings, Sorted(b.holdings.Keys))
  }

  function PositionOf(s: Symbol, h: Holding): Position
    requires h.lots != [] && Positive(h.lots)
  {
    QuantityNonnegative(h.lots);
    Position(s, Quantity(h.lots), Cost(h.lots) / Quantity(h.lots), Quantity(h.lots) * h.mark)
  }

  function Positions(b: Book): (r: seq<Position>)
    requires Sound(b)
  {
    var keys := Sorted(b.holdings.Keys);
    seq(|keys|, i requires 0 <= i < |keys| => assert keys[i] in keys; PositionOf(keys[i], b.holdings[keys[i]]))
  }

  function TagLots(s: Symbol, lots: seq<Lot>): seq<OpenLot> {
    seq(|lots|, i requires 0 <= i < |lots| => OpenLot(s, lots[i]))
  }

  function OpenLotsFrom(h: Holdings, keys: seq<Symbol>): seq<OpenLot>
    requires forall s :: s in keys ==> s in h
  {
    if keys == [] then []
    else
      var k := keys[0];
      assert k in keys;
      TagLots(k, h[k].lots) + OpenLotsFrom(h, keys[1..])
  }

  /** The public lots: symbol order, FIFO order inside a symbol. */
  function OpenLots(b: Book): seq<OpenLot> {
    OpenLotsFrom(b.holdings, Sorted(b.holdings.Keys))
  }

  // ---- replay ----

  function BuyCost(f: BookedFill): real { f.quantity * f.price + f.fees }

  function Proceeds(f: BookedFill): real { f.quantity * f.price - f.fees }

  function BoughtLot(session: Date, f: BookedFill): Lot { Lot(session, f.quantity, BuyCost(f)) }

  function ApplyBuy(b: Book, session: Date, f: BookedFill): (r: Result<Book, Fault>)
    requires Sound(b) && ValidFill(f)
    ensures r.Ok? ==> Sound(r.value)
  {
    BuyCostPositive(f);
    if BuyCost(f) > b.cash then Err(InsufficientCash)
    else
      var lots := LotsOf(b, f.symbol) + [BoughtLot(session, f)];
      Ok(b.(cash := b.cash - BuyCost(f), holdings := b.holdings[f.symbol := Holding(lots, f.price)]))
  }

  lemma {:induction false} BuyCostPositive(f: BookedFill)
    requires ValidFill(f)
    ensures BuyCost(f) > 0.0
  {
    assert f.quantity * f.price > 0.0;
  }

  /** Put back what is left of a holding after a sell; an empty one disappears. */
  function Shrink(h: Holdings, s: Symbol, rest: seq<Lot>, price: real): Holdings {
    if rest == [] then h - {s} else h[s := Holding(rest, price)]
  }

  function ApplySell(b: Book, f: BookedFill): (r: Result<Book, Fault>)
    requires Sound(b) && ValidFill(f)
    ensures r.Ok? ==> Sound(r.value)
  {
    if f.symbol !in b.holdings || f.quantity > Held(b, f.symbol) then Err(OverSold)
    else if Proceeds(f) < 0.0 then Err(NegativeProceeds)
    else
      var lots := b.holdings[f.symbol].lots;
      ConsumeConserves(lots, f.quantity);
      Ok(b.(cash := b.cash + Proceeds(f),
            pnl := b.pnl + (Proceeds(f) - ConsumedCost(lots, f.quantity)),
            holdings := Shrink(b.holdings, f.symbol, Consume(lots, f.quantity), f.price)))
  }

  function ApplyFill(b: Book, session: Date, f: BookedFill): (r: Result<Book, Fault>)
    requires Sound(b) && ValidFill(f)
    ensures r.Ok? ==> Sound(r.value)
  {
    if f.side == Buy then ApplyBuy(b, session, f) else ApplySell(b, f)
  }

  function ApplyFills(b: Book, session: Date, fills: seq<BookedFill>): (r: Result<Book, Fault>)
    requires Sound(b) && forall f :: f in fills ==> ValidFill(f)
    ensures r.Ok? ==> Sound(r.value)
  {
    if fills == [] then Ok(b)
    else
      var before := ApplyFills(b, session, fills[..|fills| - 1]);
      if before.Err? then before else ApplyFill(before.value, session, fills[|fills| - 1])
  }

  function Remark(h: Holdings, marks: seq<Mark>): (r: Holdings)
    requires forall m :: m in marks ==> m.symbol in h
    ensures r.Keys == h.Keys
    ensures forall s :: s in h ==> r[s].lots == h[s].lots
    ensures (forall s :: s in h ==> h[s].mark > 0.0) && (forall m :: m in marks ==> ValidMark(m))
            ==> forall s :: s in h ==> r[s].mark > 0.0
  {
    if marks == [] then h
    else
      assert forall m :: m in marks[..|marks| - 1] ==> m in marks;
      var before := Remark(h, marks[..|marks| - 1]);
      var m := marks[|marks| - 1];
      assert m in marks;
      before[m.symbol := before[m.symbol].(mark := m.price)]
  }

  /** A complete mark set names exactly the held symbols, in order. */
  function ApplyMarks(b: Book, marks: seq<Mark>): (r: Result<Book, Fault>)
    requires Sound(b) && forall m :: m in marks ==> ValidMark(m)
    ensures r.Ok? ==> Sound(r.value)
  {
    if MarkSymbols(marks) != Sorted(b.holdings.Keys) then Err(IncompleteMarks)
    else
      MarkedAreHeld(b, marks);
      Ok(b.(holdings := Remark(b.holdings, marks)))
  }

  lemma {:induction false} MarkedAreHeld(b: Book, marks: seq<Mark>)
    requires MarkSymbols(marks) == Sorted(b.holdings.Keys)
    ensures forall m :: m in marks ==> m.symbol in b.holdings
  {
    forall m | m in marks ensures m.symbol in b.holdings {
      var i :| 0 <= i < |marks| && marks[i] == m;
      assert MarkSymbols(marks)[i] in MarkSymbols(marks);
    }
  }

  function ApplyBody(b: Book, body: Body): (r: Result<Book, Fault>)
    requires Sound(b) && ValidBody(body)
    ensures r.Ok? ==> Sound(r.value)
  {
    match body
    case CashInitialized(amount) => Ok(b.(cash := amount, peak := amount))
    case BuyFilled(session, f) => ApplyBuy(b, session, f)
    case SellFilled(_, f) => ApplySell(b, f)
    case CashAdjusted(amount) =>
      if b.cash + amount < 0.0 then Err(NegativeAdjustment) else Ok(b.(cash := b.cash + amount))
    case PositionMarked(_, m) =>
      if m.symbol !in b.holdings then Err(UnknownPosition)
      else Ok(b.(holdings := b.holdings[m.symbol := b.holdings[m.symbol].(mark := m.price)]))
    case BatchBooked(session, marks, fills) =>
      var filled := ApplyFills(b, session, fills);
      if filled.Err? then filled else ApplyMarks(filled.value, marks)
    case PortfolioMarked(_, marks) => ApplyMarks(b, marks)
    case Reversed(_) => Err(NotReplayable)
  }

  function RaisePeak(b: Book): Book {
    b.(peak := if Nav(b) > b.peak then Nav(b) else b.peak)
  }

  function Step(b: Book, e: Event): (r: Result<Book, Fault>)
    requires Sound(b)
    ensures r.Ok? ==> Sound(r.value)
  {
    if !WellFormed(e) then Err(Malformed)
    else
      var applied := ApplyBody(b, e.body);
      if applied.Err? then applied else Ok(RaisePeak(applied.value))
  }

  function Start(e: Event): (r: Result<Book, Fault>)
    ensures r.Ok? ==> Sound(r.value)
  {
    if !WellFormed(e) then Err(Malformed)
    else if !e.body.CashInitialized? then Err(NotInitialized)
    else Ok(RaisePeak(Book(e.body.amount, 0.0, e.body.amount, map[])))
  }

  function Replay(events: seq<Event>): (r: Result<Book, Fault>)
    ensures r.Ok? ==> Sound(r.value)
  {
    if events == [] then Err(NotInitialized)
    else if |events| == 1 then Start(events[0])
    else
      var before := Replay(events[..|events| - 1]);
      if before.Err? then before else Step(before.value, events[|events| - 1])
  }

  lemma {:induction false} ReplayAppend(events: seq<Event>, e: Event)
    requires events != []
    ensures Replay(events + [e]) ==
            if Replay(events).Err? then Replay(events) else Step(Replay(events).value, e)
  {
    assert (events + [e])[..|events|] == events;
  }

  lemma {:induction false} ApplyFillsAppend(b: Book, session: Date, fills: seq<BookedFill>, f: BookedFill)
    requires Sound(b) && ValidFill(f) && forall g :: g in fills ==> ValidFill(g)
    ensures forall g :: g in fills + [f] ==> ValidFill(g)
    ensures ApplyFills(b, session, fills + [f]) ==
            var before := ApplyFills(b, session, fills);
            if before.Err? then before else ApplyFill(before.value, session, f)
  {
    assert (fills + [f])[..|fills|] == fills;
  }
}
