/**
  What an accepted log says, read straight off its events: cash, shares, last prices,
  net value and peak by scanning, with no book in between. The ledger's views are
  exactly that. (src/stock_agent/account/ledger.py, `_replay` and `_public_positions`.)
 */
module Statement {
  import opened Common
  import opened Fifo
  import opened Book
  import opened Log
  import opened Accounting
  import opened Ledger

  // ---- reading a log ----

  /** The price a set of marks gives to a symbol. */
  function MarkIn(marks: seq<Mark>, s: Symbol): Option<real> {
    if marks == [] then None
    else
      var last := marks[|marks| - 1];
      if last.symbol == s then Some(last.price) else MarkIn(marks[..|marks| - 1], s)
  }

  /** The price an event gives to a symbol, if it names it. A batch prices by its marks alone. */
  function PriceIn(body: Body, s: Symbol): Option<real> {
    match body
    case BuyFilled(_, f) => if f.symbol == s then Some(f.price) else None
    case SellFilled(_, f) => if f.symbol == s then Some(f.price) else None
    case PositionMarked(_, m) => if m.symbol == s then Some(m.price) else None
    case BatchBooked(_, marks, _) => MarkIn(marks, s)
    case PortfolioMarked(_, marks) => MarkIn(marks, s)
    case _ => None
  }

  /** The price of the last event that names the symbol. */
  function LastPrice(events: seq<Event>, s: Symbol): Option<real> {
    if events == [] then None
    else
      var p := PriceIn(events[|events| - 1].body, s);
      if p.Some? then p else LastPrice(events[..|events| - 1], s)
  }

  /** Money a fill brings in; negative for a buy. */
  function FillFlow(f: BookedFill): real {
    if f.side == Buy then -(f.quantity * f.price) - f.fees else f.quantity * f.price - f.fees
  }

  function FillsFlow(fills: seq<BookedFill>): real {
    if fills == [] then 0.0 else FillsFlow(fills[..|fills| - 1]) + FillFlow(fills[|fills| - 1])
  }

  function FlowIn(body: Body): real {
    match body
    case CashInitialized(amount) => amount
    case CashAdjusted(amount) => amount
    case BuyFilled(_, f) => FillFlow(f)
    case SellFilled(_, f) => FillFlow(f)
    case BatchBooked(_, _, fills) => FillsFlow(fills)
    case _ => 0.0
  }

  /** All money in less all money out. */
  function CashFlow(events: seq<Event>): real {
    if events == [] then 0.0 else CashFlow(events[..|events| - 1]) + FlowIn(events[|events| - 1].body)
  }

  function Shares(events: seq<Event>, s: Symbol): real {
    Quantity(AllBought(events, s)) - AllSold(events, s)
  }

  function SymbolsIn(body: Body): set<Symbol> {
    match body
    case BuyFilled(_, f) => {f.symbol}
    case BatchBooked(_, _, fills) => set i | 0 <= i < |fills| :: fills[i].symbol
    case _ => {}
  }

  function EverBought(events: seq<Event>): set<Symbol> {
    if events == [] then {} else EverBought(events[..|events| - 1]) + SymbolsIn(events[|events| - 1].body)
  }

  function HeldBy(events: seq<Event>): set<Symbol> {
    set s | s in EverBought(events) && Shares(events, s) > 0.0
  }

  /** Shares at the last price. */
  function Worth(events: seq<Event>, s: Symbol): real {
    match LastPrice(events, s) case Some(price) => Shares(events, s) * price case None => 0.0
  }

  function WorthOver(events: seq<Event>, keys: set<Symbol>): real
    decreases |keys|
  {
    if keys == {} then 0.0
    else
      var k := Least(keys);
      Worth(events, k) + WorthOver(events, keys - {k})
  }

  /** Cash and everything held at its last price. */
  function NetValue(events: seq<Event>): real {
    CashFlow(events) + WorthOver(events, HeldBy(events))
  }

  /** The highest net value after any event. */
  function Highest(events: seq<Event>): real {
    if |events| <= 1 then NetValue(events)
    else
      var before := Highest(events[..|events| - 1]);
      if NetValue(events) > before then NetValue(events) else before
  }

  // ---- the last price is the mark ----

  lemma {:induction false} RemarkSets(h: Holdings, marks: seq<Mark>, s: Symbol)
    requires (forall m :: m in marks ==> m.symbol in h) && s in h
    ensures Remark(h, marks)[s].mark == match MarkIn(marks, s) case Some(price) => price case None => h[s].mark
  {
    if marks == [] {
    } else {
      assert forall m :: m in marks[..|marks| - 1] ==> m in marks;
      assert marks[|marks| - 1] in marks;
      RemarkSets(h, marks[..|marks| - 1], s);
    }
  }

  lemma {:induction false} MarkedHasPrice(marks: seq<Mark>, s: Symbol)
    ensures s in MarkSymbols(marks) <==> MarkIn(marks, s).Some?
  {
    if marks == [] {
    } else {
      var front, n := marks[..|marks| - 1], |marks| - 1;
      MarkedHasPrice(front, s);
      assert MarkSymbols(marks) == MarkSymbols(front) + [marks[n].symbol];
    }
  }

  lemma {:induction false} CompleteMarks(b: Book, marks: seq<Mark>, s: Symbol)
    requires Sound(b) && (forall m :: m in marks ==> ValidMark(m)) && ApplyMarks(b, marks).Ok?
    ensures var after := ApplyMarks(b, marks).value;
            && (s in after.holdings <==> s in b.holdings)
            && (s in after.holdings ==> MarkIn(marks, s) == Some(after.holdings[s].mark))
  {
    MarkedAreHeld(b, marks);
    MarkedHasPrice(marks, s);
    if s in b.holdings {
      RemarkSets(b.holdings, marks, s);
      assert s in Sorted(b.holdings.Keys);
    }
  }

  lemma {:induction false} BodySetsMark(b: Book, body: Body, s: Symbol)
    requires Sound(b) && ValidBody(body) && ApplyBody(b, body).Ok?
    ensures var after := ApplyBody(b, body).value;
            s in after.holdings ==>
              match PriceIn(body, s)
              case Some(price) => after.holdings[s].mark == price
              case None => s in b.holdings && after.holdings[s].mark == b.holdings[s].mark
  {
    match body
    case BatchBooked(session, marks, fills) =>
      CompleteMarks(ApplyFills(b, session, fills).value, marks, s);
    case PortfolioMarked(_, marks) =>
      CompleteMarks(b, marks, s);
    case _ =>
  }

  lemma {:induction false} StepSetsMark(b: Book, e: Event, s: Symbol)
    requires Sound(b) && Step(b, e).Ok?
    ensures var after := Step(b, e).value;
            s in after.holdings ==>
              match PriceIn(e.body, s)
              case Some(price) => after.holdings[s].mark == price
              case None => s in b.holdings && after.holdings[s].mark == b.holdings[s].mark
  {
    hide ApplyBody, ValidBody, Nav;
    BodySetsMark(b, e.body, s);
  }

  /** Over every replayed log a held symbol is marked at the price of the last event that names it. */
  lemma {:induction false} MarksAreLastPrices(events: seq<Event>, s: Symbol)
    requires Replay(events).Ok? && s in Replay(events).value.holdings
    ensures LastPrice(events, s) == Some(Replay(events).value.holdings[s].mark)
  {
    hide Step, PriceIn;
    if |events| == 1 {
      NothingHeldAtFirst(events);
    } else {
      var front, last := events[..|events| - 1], events[|events| - 1];
      StepSetsMark(Replay(front).value, last, s);
      if PriceIn(last.body, s).None? {
        MarksAreLastPrices(front, s);
      }
    }
  }

  lemma {:induction false} NothingHeldAtFirst(events: seq<Event>)
    requires |events| == 1 && Replay(events).Ok?
    ensures Replay(events).value.holdings == map[] && events[0].body.CashInitialized?
    ensures Replay(events).value.cash == events[0].body.amount == Replay(events).value.peak
  {
    assert Sorted({}) == [];
  }

  // ---- cash is the flow of money ----

  lemma {:induction false} FillMovesCash(b: Book, session: Date, f: BookedFill)
    requires Sound(b) && ValidFill(f) && ApplyFill(b, session, f).Ok?
    ensures ApplyFill(b, session, f).value.cash == b.cash + FillFlow(f)
  {}

  lemma {:induction false} FillsMoveCash(b: Book, session: Date, fills: seq<BookedFill>)
    requires Sound(b) && (forall f :: f in fills ==> ValidFill(f)) && ApplyFills(b, session, fills).Ok?
    ensures ApplyFills(b, session, fills).value.cash == b.cash + FillsFlow(fills)
  {
    hide ApplyFill, FillFlow, Sound, ValidFill;
    if fills == [] {
    } else {
      LastFill(b, session, fills);
      FillsMoveCash(b, session, fills[..|fills| - 1]);
      FillMovesCash(ApplyFills(b, session, fills[..|fills| - 1]).value, session, fills[|fills| - 1]);
    }
  }

  lemma {:induction false} MarksMoveNoCash(b: Book, marks: seq<Mark>)
    requires Sound(b) && (forall m :: m in marks ==> ValidMark(m)) && ApplyMarks(b, marks).Ok?
    ensures ApplyMarks(b, marks).value.cash == b.cash
  {}

  lemma {:induction false} BodyMovesCash(b: Book, body: Body)
    requires Sound(b) && ValidBody(body) && ApplyBody(b, body).Ok? && !body.CashInitialized?
    ensures ApplyBody(b, body).value.cash == b.cash + FlowIn(body)
  {
    hide ApplyFills, ApplyMarks, FillFlow, FillsFlow, Sound, ApplyBuy, ApplySell;
    BodyAsFill(b, body, 0);
    match body
    case BuyFilled(session, f) => FillMovesCash(b, session, f);
    case SellFilled(session, f) => FillMovesCash(b, session, f);
    case BatchBooked(session, marks, fills) =>
      FillsMoveCash(b, session, fills);
      MarksMoveNoCash(ApplyFills(b, session, fills).value, marks);
    case PortfolioMarked(_, marks) => MarksMoveNoCash(b, marks);
    case _ =>
  }

  lemma {:induction false} StepMovesCash(b: Book, e: Event)
    requires Sound(b) && Step(b, e).Ok? && !e.body.CashInitialized?
    ensures Step(b, e).value.cash == b.cash + FlowIn(e.body)
  {
    hide ApplyBody, FlowIn, Nav, Sound, ValidBody;
    BodyMovesCash(b, e.body);
  }

  lemma {:induction false} CashIsTheFlow(events: seq<Event>)
    requires Replay(events).Ok? && OpensOnce(events)
    ensures Replay(events).value.cash == CashFlow(events)
  {
    hide Step, FlowIn;
    var front, last := events[..|events| - 1], events[|events| - 1];
    if |events| == 1 {
      NothingHeldAtFirst(events);
      FirstFlow(events);
    } else {
      CashIsTheFlow(front);
      StepMovesCash(Replay(front).value, last);
    }
  }

  lemma {:induction false} FirstFlow(events: seq<Event>)
    requires |events| == 1 && events[0].body.CashInitialized?
    ensures CashFlow(events) == events[0].body.amount
  {
    assert CashFlow(events[..0]) == 0.0;
  }

  // ---- what is held ----

  lemma {:induction false} BoughtInFills(session: Date, fills: seq<BookedFill>, s: Symbol)
    ensures Bought(session, fills, s) != [] ==> exists i :: 0 <= i < |fills| && fills[i].symbol == s
  {
    if fills == [] {
    } else {
      var front := fills[..|fills| - 1];
      BoughtInFills(session, front, s);
      if i :| 0 <= i < |front| && front[i].symbol == s {
        assert fills[i].symbol == s;
      }
    }
  }

  lemma {:induction false} OnlyBoughtIsEver(events: seq<Event>, s: Symbol)
    ensures AllBought(events, s) != [] ==> s in EverBought(events)
  {
    if events == [] {
    } else {
      var body := events[|events| - 1].body;
      OnlyBoughtIsEver(events[..|events| - 1], s);
      if body.BatchBooked? {
        BoughtInFills(body.session, body.fills, s);
      }
    }
  }

  lemma {:induction false} SellsAreNonnegative(events: seq<Event>, s: Symbol)
    requires Replay(events).Ok?
    ensures AllSold(events, s) >= 0.0
  {
    hide Replay;
    LotsAreTheUnsoldBuys(events, s);
  }

  /** A symbol is in the book exactly when more of it was bought than sold. */
  lemma {:induction false} HeldExactly(events: seq<Event>)
    requires Replay(events).Ok?
    ensures Replay(events).value.holdings.Keys == HeldBy(events)
  {
    hide Replay, AllBought, AllSold, EverBought;
    var b := Replay(events).value;
    forall s ensures s in b.holdings.Keys <==> s in HeldBy(events) {
      SharesAreConserved(events, s);
      SellsAreNonnegative(events, s);
      OnlyBoughtIsEver(events, s);
      if s in b.holdings {
        QuantityNonnegative(b.holdings[s].lots);
      }
      assert AllBought(events, s) == [] ==> Quantity(AllBought(events, s)) == 0.0;
    }
  }

  // ---- net value and peak ----

  lemma {:induction false} SharesRead(events: seq<Event>, s: Symbol)
    requires Replay(events).Ok? && s in Replay(events).value.holdings
    ensures Quantity(Replay(events).value.holdings[s].lots) == Shares(events, s)
  {
    hide Replay;
    SharesAreConserved(events, s);
  }

  lemma {:induction false} HoldingIsWorth(events: seq<Event>, s: Symbol)
    requires Replay(events).Ok? && s in Replay(events).value.holdings
    ensures var h := Replay(events).value.holdings[s]; Quantity(h.lots) * h.mark == Worth(events, s)
  {
    hide Replay, Shares, LastPrice;
    MarksAreLastPrices(events, s);
    SharesRead(events, s);
  }

  lemma {:induction false} ValueIsWorth(events: seq<Event>, h: Holdings, keys: set<Symbol>)
    requires forall k :: k in keys ==> k in h && Quantity(h[k].lots) * h[k].mark == Worth(events, k)
    ensures forall s :: s in Sorted(keys) ==> s in h
    ensures ValueOf(h, Sorted(keys)) == WorthOver(events, keys)
    decreases |keys|
  {
    hide *;
    KeysOf(keys);
    if keys == {} {
      NoValue(h);
      NoWorth(events);
    } else {
      var k := Least(keys);
      ValueIsWorth(events, h, keys - {k});
      SortedHead(keys);
      ValueOfHead(h, Sorted(keys));
      WorthOverHead(events, keys);
    }
  }

  lemma {:induction false} NoWorth(events: seq<Event>)
    ensures WorthOver(events, {}) == 0.0
  {}

  lemma {:induction false} WorthOverHead(events: seq<Event>, keys: set<Symbol>)
    requires keys != {}
    ensures WorthOver(events, keys) == Worth(events, Least(keys)) + WorthOver(events, keys - {Least(keys)})
  {
    hide Worth;
  }

  lemma {:induction false} NoValue(h: Holdings)
    ensures Sorted({}) == [] && ValueOf(h, []) == 0.0
  {}

  lemma {:induction false} SortedHead(keys: set<Symbol>)
    requires keys != {}
    ensures Sorted(keys) != [] && Sorted(keys)[0] == Least(keys) && Sorted(keys)[1..] == Sorted(keys - {Least(keys)})
  {}

  lemma {:induction false} ValueOfHead(h: Holdings, keys: seq<Symbol>)
    requires keys != [] && forall s :: s in keys ==> s in h
    ensures keys[0] in h && forall s :: s in keys[1..] ==> s in h
    ensures ValueOf(h, keys) == Quantity(h[keys[0]].lots) * h[keys[0]].mark + ValueOf(h, keys[1..])
  {
    var k := keys[0];
    assert k in keys;
    assert k in h;
  }

  /** The book's net value is cash and shares at last prices, scanned. */
  lemma {:induction false} NavIsNetValue(events: seq<Event>)
    requires Replay(events).Ok? && OpensOnce(events)
    ensures Nav(Replay(events).value) == NetValue(events)
  {
    hide Replay, CashFlow, WorthOver, ValueOf, Worth, HeldBy, Quantity;
    CashIsTheFlow(events);
    HeldExactly(events);
    var h := Replay(events).value.holdings;
    forall k | k in HeldBy(events) ensures k in h && Quantity(h[k].lots) * h[k].mark == Worth(events, k) {
      assert k in h.Keys;
      HoldingIsWorth(events, k);
    }
    ValueIsWorth(events, h, HeldBy(events));
  }

  lemma {:induction false} PeakOfStep(b: Book, e: Event)
    requires Sound(b) && Step(b, e).Ok? && !e.body.CashInitialized?
    ensures var after := Step(b, e).value; after.peak == if Nav(after) > b.peak then Nav(after) else b.peak
  {
    PeakGrows(b, e);
    PeakOfBody(b, e.body);
  }

  lemma {:induction false} PeakOfBody(b: Book, body: Body)
    requires Sound(b) && ValidBody(body) && ApplyBody(b, body).Ok? && !body.CashInitialized?
    ensures ApplyBody(b, body).value.peak == b.peak
  {
    if body.BatchBooked? {
      FillsKeepPeak(b, body.session, body.fills);
    }
  }

  /** The recorded peak is the highest net value after any event, scanned. */
  lemma {:induction false} PeakIsHighest(events: seq<Event>)
    requires Replay(events).Ok? && OneOpening(events)
    ensures Replay(events).value.peak == Highest(events)
  {
    hide Step, Nav, NetValue;
    NavIsNetValue(events);
    if |events| == 1 {
      NothingHeldAtFirst(events);
      FirstNav(events);
    } else {
      var front, last := events[..|events| - 1], events[|events| - 1];
      PeakIsHighest(front);
      PeakOfStep(Replay(front).value, last);
    }
  }

  lemma {:induction false} FirstNav(events: seq<Event>)
    requires |events| == 1 && Replay(events).Ok?
    ensures Nav(Replay(events).value) == Replay(events).value.peak
  {
    NothingHeldAtFirst(events);
    assert Sorted({}) == [];
  }

  // ---- the ledger's views ----

  /** One public position of a log: its shares, their average cost, their worth. */
  ghost predicate PositionOfLog(events: seq<Event>, p: Position) {
    && p.quantity == Shares(events, p.symbol) && p.quantity > 0.0
    && Remainder(AllBought(events, p.symbol), AllSold(events, p.symbol)).Some?
    && p.averageCost * p.quantity == Cost(Remainder(AllBought(events, p.symbol), AllSold(events, p.symbol)).value)
    && LastPrice(events, p.symbol).Some? && p.marketValue == p.quantity * LastPrice(events, p.symbol).value
  }

  /** The public positions of a log: one for each symbol held, in symbol order. */
  ghost predicate PositionsOfLog(events: seq<Event>, positions: seq<Position>) {
    && (forall i, j :: 0 <= i < j < |positions| ==> positions[i].symbol < positions[j].symbol)
    && (forall s :: s in HeldBy(events) <==> exists i :: 0 <= i < |positions| && positions[i].symbol == s)
    && forall i :: 0 <= i < |positions| ==> PositionOfLog(events, positions[i])
  }

  function SumOfValues(positions: seq<Position>): real {
    if positions == [] then 0.0 else positions[0].marketValue + SumOfValues(positions[1..])
  }

  lemma {:induction false} PositionMeaning(events: seq<Event>, s: Symbol)
    requires Replay(events).Ok? && s in Replay(events).value.holdings
    ensures var h := Replay(events).value.holdings[s];
            h.lots != [] && Positive(h.lots) && PositionOfLog(events, PositionOf(s, h))
  {
    hide Replay, LastPrice, Remainder, AllBought, AllSold;
    var h := Replay(events).value.holdings[s];
    QuantityNonnegative(h.lots);
    SharesRead(events, s);
    LotsAreTheUnsoldBuys(events, s);
    MarksAreLastPrices(events, s);
    var p := PositionOf(s, h);
    assert p.averageCost * p.quantity == Cost(h.lots);
  }

  lemma {:induction false} PositionsNames(b: Book)
    requires Sound(b)
    ensures |Positions(b)| == |Sorted(b.holdings.Keys)|
    ensures forall i :: 0 <= i < |Positions(b)| ==>
              var s := Sorted(b.holdings.Keys)[i];
              && s in b.holdings && b.holdings[s].lots != [] && Positive(b.holdings[s].lots)
              && Positions(b)[i] == PositionOf(s, b.holdings[s]) && Positions(b)[i].symbol == s
  {
    hide Positive;
    var keys := Sorted(b.holdings.Keys);
    forall i | 0 <= i < |keys| ensures keys[i] in b.holdings {
      assert keys[i] in keys;
    }
  }

  lemma {:induction false} PositionsMeaning(events: seq<Event>)
    requires Replay(events).Ok?
    ensures PositionsOfLog(events, Positions(Replay(events).value))
  {
    hide *;
    var b := Replay(events).value;
    var keys, positions := Sorted(b.holdings.Keys), Positions(b);
    HeldExactly(events);
    PositionsNames(b);
    forall i | 0 <= i < |positions| ensures PositionOfLog(events, positions[i]) {
      PositionMeaning(events, keys[i]);
    }
    KeysOf(b.holdings.Keys);
    NamedInOrder(events, keys, positions);
  }

  lemma {:induction false} KeysOf(keys: set<Symbol>)
    ensures StrictlyAscending(Sorted(keys)) && forall s :: s in Sorted(keys) <==> s in keys
  {}

  lemma {:induction false} NamedInOrder(events: seq<Event>, keys: seq<Symbol>, positions: seq<Position>)
    requires |positions| == |keys| && StrictlyAscending(keys) && forall s :: s in keys <==> s in HeldBy(events)
    requires forall i :: 0 <= i < |keys| ==> positions[i].symbol == keys[i] && PositionOfLog(events, positions[i])
    ensures PositionsOfLog(events, positions)
  {
    hide PositionOfLog, HeldBy;
    NamedExactly(keys, positions, HeldBy(events));
  }

  lemma {:induction false} NamedExactly(keys: seq<Symbol>, positions: seq<Position>, held: set<Symbol>)
    requires |positions| == |keys| && (forall i :: 0 <= i < |keys| ==> positions[i].symbol == keys[i])
    requires forall s :: s in keys <==> s in held
    ensures forall s :: s in held <==> exists i :: 0 <= i < |positions| && positions[i].symbol == s
  {
    forall s | s in held ensures exists i :: 0 <= i < |positions| && positions[i].symbol == s {
      assert s in keys;
      var i :| 0 <= i < |keys| && keys[i] == s;
      assert positions[i].symbol == s;
    }
  }

  lemma {:induction false} ValuesAddUp(h: Holdings, keys: seq<Symbol>, positions: seq<Position>)
    requires |positions| == |keys| && (forall s :: s in keys ==> s in h)
    requires forall i :: 0 <= i < |keys| ==> keys[i] in h && positions[i].marketValue == Quantity(h[keys[i]].lots) * h[keys[i]].mark
    ensures SumOfValues(positions) == ValueOf(h, keys)
  {
    if keys == [] {
    } else {
      assert keys[0] in keys;
      forall i | 0 <= i < |keys[1..]|
        ensures positions[1..][i].marketValue == Quantity(h[keys[1..][i]].lots) * h[keys[1..][i]].mark
      {
        assert keys[1..][i] == keys[i + 1] && positions[1..][i] == positions[i + 1];
      }
      ValuesAddUp(h, keys[1..], positions[1..]);
    }
  }

  lemma {:induction false} PositionsAddUp(b: Book)
    requires Sound(b)
    ensures Nav(b) == b.cash + SumOfValues(Positions(b))
  {
    hide Quantity, Cost, Sorted, ValueOf, SumOfValues;
    var keys := Sorted(b.holdings.Keys);
    forall i | 0 <= i < |keys| ensures keys[i] in b.holdings {
      assert keys[i] in keys;
    }
    ValuesAddUp(b.holdings, keys, Positions(b));
  }

  /** A snapshot of a log: everything in it is read off the events. */
  ghost predicate SnapshotOfLog(events: seq<Event>, t: Instant, sn: Snapshot) {
    && sn.asOf == t && sn.cash == CashFlow(events)
    && sn.nav == sn.cash + SumOfValues(sn.positions) == NetValue(events) && sn.peak == Highest(events)
    && PositionsOfLog(events, sn.positions)
  }

  lemma {:induction false} SnapshotMeaning(events: seq<Event>, t: Instant)
    requires Replay(events).Ok? && OneOpening(events)
    ensures SnapshotOfLog(events, t, SnapshotOf(Replay(events).value, t))
  {
    hide Replay, Nav, Positions, PositionsOfLog, CashFlow, NetValue, Highest, SumOfValues;
    CashIsTheFlow(events);
    NavIsNetValue(events);
    PeakIsHighest(events);
    PositionsMeaning(events);
    PositionsAddUp(Replay(events).value);
  }

  /** Every snapshot of an accepted log, of any instant, is the one its surviving events up to then spell out. */
  lemma {:induction false} SnapshotsAreStatements(account: Id, market: Market, events: seq<Event>, t: Instant)
    requires Accepted(account, market, events) && SnapshotAt(events, t).Ok?
    ensures SnapshotOfLog(Survivors(UpTo(events, t)), t, SnapshotAt(events, t).value)
  {
    hide SnapshotOfLog, Replay, Owned, SnapshotOf;
    var n := UpToIsPrefix(events, t);
    CutOpens(account, market, events, n);
    SnapshotMeaning(Survivors(UpTo(events, t)), t);
  }

  lemma {:induction false} CutOpens(account: Id, market: Market, events: seq<Event>, n: nat)
    requires Accepted(account, market, events) && n <= |events|
    ensures n > 0 ==> OneOpening(Survivors(events[..n]))
  {
    hide Owned, AllFillIds, Replay;
    if n > 0 {
      PrefixConsistent(account, market, events, n);
      OpeningIsNeverATarget(events[..n]);
      KeepOpening(events[..n], Targets(events[..n]));
    }
  }

  // ---- the public lots ----

  /** The lots of one symbol among the public lots, in order. */
  function TaggedWith(lots: seq<OpenLot>, s: Symbol): seq<Lot> {
    if lots == [] then []
    else (if lots[0].symbol == s then [lots[0].lot] else []) + TaggedWith(lots[1..], s)
  }

  lemma {:induction false} TaggedConcat(a: seq<OpenLot>, b: seq<OpenLot>, s: Symbol)
    ensures TaggedWith(a + b, s) == TaggedWith(a, s) + TaggedWith(b, s)
  {
    if a == [] {
      assert a + b == b;
    } else {
      assert (a + b)[1..] == a[1..] + b;
      TaggedConcat(a[1..], b, s);
    }
  }

  lemma {:induction false} TaggedLots(k: Symbol, lots: seq<Lot>, s: Symbol)
    ensures TaggedWith(TagLots(k, lots), s) == if k == s then lots else []
  {
    if lots == [] {
    } else {
      assert TagLots(k, lots)[1..] == TagLots(k, lots[1..]);
      TaggedLots(k, lots[1..], s);
    }
  }

  lemma {:induction false} OpenLotsTagged(h: Holdings, keys: seq<Symbol>, s: Symbol)
    requires (forall k :: k in keys ==> k in h) && StrictlyAscending(keys)
    ensures TaggedWith(OpenLotsFrom(h, keys), s) == if s in keys then h[s].lots else []
  {
    if keys == [] {
    } else {
      var k := keys[0];
      assert k in keys;
      assert s in keys <==> s == k || s in keys[1..];
      assert forall i :: 0 <= i < |keys[1..]| ==> k < keys[1..][i];
      OpenLotsTagged(h, keys[1..], s);
      TaggedLots(k, h[k].lots, s);
      TaggedConcat(TagLots(k, h[k].lots), OpenLotsFrom(h, keys[1..]), s);
    }
  }

  predicate SymbolOrder(lots: seq<OpenLot>) {
    forall i, j :: 0 <= i < j < |lots| ==> lots[i].symbol <= lots[j].symbol
  }

  lemma {:induction false} OpenLotsOrdered(h: Holdings, keys: seq<Symbol>)
    requires (forall k :: k in keys ==> k in h) && StrictlyAscending(keys)
    ensures SymbolOrder(OpenLotsFrom(h, keys))
    ensures forall i :: 0 <= i < |OpenLotsFrom(h, keys)| ==> OpenLotsFrom(h, keys)[i].symbol in keys
  {
    if keys == [] {
    } else {
      assert keys[0] in keys;
      OpenLotsOrdered(h, keys[1..]);
      var rest := OpenLotsFrom(h, keys[1..]);
      forall i | 0 <= i < |rest| ensures keys[0] <= rest[i].symbol && rest[i].symbol in keys {
        assert rest[i].symbol in keys[1..];
      }
    }
  }

  /** The public lots list each symbol's unsold buys in FIFO order, symbol by symbol. */
  lemma {:induction false} LotsView(events: seq<Event>, s: Symbol)
    requires Replay(events).Ok?
    ensures var lots := OpenLots(Replay(events).value);
            && SymbolOrder(lots)
            && Remainder(AllBought(events, s), AllSold(events, s)) == Some(TaggedWith(lots, s))
  {
    hide Replay, Remainder, AllBought, AllSold;
    var b := Replay(events).value;
    LotsAreTheUnsoldBuys(events, s);
    OpenLotsTagged(b.holdings, Sorted(b.holdings.Keys), s);
    OpenLotsOrdered(b.holdings, Sorted(b.holdings.Keys));
  }

  function LotsCost(lots: seq<OpenLot>): real {
    if lots == [] then 0.0 else lots[0].lot.cost + LotsCost(lots[1..])
  }

  lemma {:induction false} LotsCostConcat(a: seq<OpenLot>, b: seq<OpenLot>)
    ensures LotsCost(a + b) == LotsCost(a) + LotsCost(b)
  {
    if a == [] {
      assert a + b == b;
    } else {
      assert (a + b)[1..] == a[1..] + b;
      LotsCostConcat(a[1..], b);
    }
  }

  lemma {:induction false} TaggedCost(k: Symbol, lots: seq<Lot>)
    ensures LotsCost(TagLots(k, lots)) == Cost(lots)
  {
    if lots == [] {
    } else {
      assert TagLots(k, lots)[1..] == TagLots(k, lots[1..]);
      TaggedCost(k, lots[1..]);
    }
  }

  lemma {:induction false} OpenLotsCost(h: Holdings, keys: set<Symbol>)
    requires keys <= h.Keys
    ensures forall s :: s in Sorted(keys) ==> s in h
    ensures LotsCost(OpenLotsFrom(h, Sorted(keys))) == CostOver(h, keys)
    decreases |keys|
  {
    hide *;
    KeysOf(keys);
    if keys == {} {
      NoCost(h);
    } else {
      var k := Least(keys);
      OpenLotsCost(h, keys - {k});
      SortedHead(keys);
      OpenLotsHead(h, Sorted(keys));
      CostOverHead(h, keys);
      TaggedCost(k, h[k].lots);
      LotsCostConcat(TagLots(k, h[k].lots), OpenLotsFrom(h, Sorted(keys - {k})));
    }
  }

  lemma {:induction false} NoCost(h: Holdings)
    ensures Sorted({}) == [] && LotsCost(OpenLotsFrom(h, [])) == 0.0 && CostOver(h, {}) == 0.0
  {}

  lemma {:induction false} OpenLotsHead(h: Holdings, keys: seq<Symbol>)
    requires keys != [] && forall s :: s in keys ==> s in h
    ensures keys[0] in h && forall s :: s in keys[1..] ==> s in h
    ensures OpenLotsFrom(h, keys) == TagLots(keys[0], h[keys[0]].lots) + OpenLotsFrom(h, keys[1..])
  {
    var k := keys[0];
    assert k in keys;
    assert k in h;
  }

  lemma {:induction false} CostOverHead(h: Holdings, keys: set<Symbol>)
    requires keys != {} && keys <= h.Keys
    ensures Least(keys) in h && CostOver(h, keys) == Cost(h[Least(keys)].lots) + CostOver(h, keys - {Least(keys)})
  {}

  /** Realized profit is what the money shows: cash and the cost of the open lots, less what was paid in. */
  lemma {:induction false} ProfitIsTheRest(events: seq<Event>)
    requires Replay(events).Ok? && OpensOnce(events)
    ensures var b := Replay(events).value; b.pnl == CashFlow(events) + LotsCost(OpenLots(b)) - Deposits(events)
  {
    hide Replay, LotsCost, Deposits, CashFlow, CostOver;
    var b := Replay(events).value;
    CashIsTheFlow(events);
    AccountingIdentity(events);
    OpenLotsCost(b.holdings, b.holdings.Keys);
  }

  /** The public lots of a log: each symbol's unsold buys in FIFO order, symbol by symbol. */
  ghost predicate LotsOfLog(events: seq<Event>, lots: seq<OpenLot>) {
    && SymbolOrder(lots)
    && forall s :: Remainder(AllBought(events, s), AllSold(events, s)) == Some(TaggedWith(lots, s))
  }

  lemma {:induction false} LotsMeaning(events: seq<Event>)
    requires Replay(events).Ok?
    ensures LotsOfLog(events, OpenLots(Replay(events).value))
  {
    hide Replay, SymbolOrder, Remainder, AllBought, AllSold, OpenLots, TaggedWith;
    LotsView(events, 0);
    forall s ensures Remainder(AllBought(events, s), AllSold(events, s)) == Some(TaggedWith(OpenLots(Replay(events).value), s)) {
      LotsView(events, s);
    }
  }

  /** Everything a ledger shows is read off the surviving events of its log. */
  lemma {:induction false} LedgerIsAStatement(l: PortfolioLedger)
    requires l.Valid() && l.events != []
    ensures var seen := Survivors(l.events);
            && l.cash == Some(CashFlow(seen))
            && l.positions.Some? && PositionsOfLog(seen, l.positions.value)
            && l.lots.Some? && LotsOfLog(seen, l.lots.value)
            && l.realizedPnl == Some(Quantize12(CashFlow(seen) + LotsCost(l.lots.value) - Deposits(seen)))
            && l.snapshot.Some? && SnapshotOfLog(seen, l.events[|l.events| - 1].at, l.snapshot.value)
  {
    hide Replay, CashFlow, PositionsOfLog, LotsOfLog, SnapshotOfLog, Quantize12, LotsCost, Deposits, Owned, Survivors,
         SnapshotOf, Positions, OpenLots;
    var seen := Survivors(l.events);
    LogOpens(l.account, l.market, l.events);
    CashIsTheFlow(seen);
    PositionsMeaning(seen);
    LotsMeaning(seen);
    ProfitIsTheRest(seen);
    SnapshotMeaning(seen, l.events[|l.events| - 1].at);
  }

  lemma {:induction false} LogOpens(account: Id, market: Market, events: seq<Event>)
    requires Accepted(account, market, events)
    ensures OneOpening(Survivors(events)) && OpensOnce(Survivors(events))
  {
    hide Owned, AllFillIds, Replay;
    OpeningIsNeverATarget(events);
    KeepOpening(events, Targets(events));
  }

  // ---- which events a log takes ----

  /** Net shares of a symbol that a run of fills brings in. */
  function Net(fills: seq<BookedFill>, s: Symbol): real {
    if fills == [] then 0.0
    else
      var f := fills[|fills| - 1];
      Net(fills[..|fills| - 1], s) + if f.symbol != s then 0.0 else if f.side == Buy then f.quantity else -f.quantity
  }

  /** A buy the cash pays for; a sell of shares held that pays its own fees. */
  predicate Settles(f: BookedFill, cash: real, shares: real) {
    if f.side == Buy then f.quantity * f.price + f.fees <= cash else f.quantity <= shares && f.fees <= f.quantity * f.price
  }

  /** Every fill settles against the cash and the shares the fills before it leave. */
  ghost predicate AllSettle(events: seq<Event>, fills: seq<BookedFill>) {
    forall i :: 0 <= i < |fills| ==> SettlesAt(events, fills, i)
  }

  ghost predicate SettlesAt(events: seq<Event>, fills: seq<BookedFill>, i: nat)
    requires i < |fills|
  {
    var f := fills[i];
    Settles(f, CashFlow(events) + FillsFlow(fills[..i]), Shares(events, f.symbol) + Net(fills[..i], f.symbol))
  }

  /** Marks for exactly the symbols held, in order. */
  predicate Complete(marks: seq<Mark>, held: set<Symbol>) {
    MarkSymbols(marks) == Sorted(held)
  }

  /** What a log asks of its next event. */
  ghost predicate Takes(events: seq<Event>, e: Event) {
    match e.body
    case CashInitialized(_) => false
    case BuyFilled(_, f) => Settles(f, CashFlow(events), Shares(events, f.symbol))
    case SellFilled(_, f) => Settles(f, CashFlow(events), Shares(events, f.symbol))
    case CashAdjusted(amount) => CashFlow(events) + amount >= 0.0
    case PositionMarked(_, m) => m.symbol in HeldBy(events)
    case BatchBooked(_, marks, fills) => AllSettle(events, fills) && Complete(marks, HeldBy(events + [e]))
    case PortfolioMarked(_, marks) => Complete(marks, HeldBy(events))
    case Reversed(_) => false
  }

  lemma {:induction false} FillTakenIff(b: Book, session: Date, f: BookedFill)
    requires Sound(b) && ValidFill(f)
    ensures ApplyFill(b, session, f).Ok? <==> Settles(f, b.cash, Held(b, f.symbol))
    ensures ApplyFill(b, session, f).Ok? ==>
              forall s :: Held(ApplyFill(b, session, f).value, s) == Held(b, s) + Net([f], s)
  {
    assert [f][..0] == [] && forall s :: Net([], s) == 0.0;
    if ApplyFill(b, session, f).Ok? {
      forall s ensures Held(ApplyFill(b, session, f).value, s) == Held(b, s) + Net([f], s) {
        FillMovesShares(b, session, f, s);
      }
    }
  }

  lemma {:induction false} FillMovesShares(b: Book, session: Date, f: BookedFill, s: Symbol)
    requires Sound(b) && ValidFill(f) && ApplyFill(b, session, f).Ok?
    ensures Held(ApplyFill(b, session, f).value, s) ==
            Held(b, s) + if f.symbol != s then 0.0 else if f.side == Buy then f.quantity else -f.quantity
  {
    FillMovesLots(b, session, f, s);
    if f.symbol == s && f.side == Buy {
      QuantityConcat(LotsOf(b, s), [BoughtLot(session, f)]);
      assert [BoughtLot(session, f)][1..] == [];
    } else if f.symbol == s {
      ConsumeConserves(LotsOf(b, s), f.quantity);
    }
  }

  /** A run of fills is taken exactly when each settles after the ones before it. */
  lemma {:induction false} FillsTakenIff(b: Book, session: Date, fills: seq<BookedFill>)
    requires Sound(b) && forall f :: f in fills ==> ValidFill(f)
    ensures ApplyFills(b, session, fills).Ok? <==>
            forall i :: 0 <= i < |fills| ==> SettlesOn(b, fills, i)
    ensures ApplyFills(b, session, fills).Ok? ==>
              forall s :: Held(ApplyFills(b, session, fills).value, s) == Held(b, s) + Net(fills, s)
  {
    hide ApplyFill, Settles, Held, Sound, ValidFill, FillFlow;
    if fills == [] {
    } else {
      var n := |fills| - 1;
      var front, f := fills[..n], fills[n];
      assert f in fills && forall g :: g in front ==> g in fills;
      FillsTakenIff(b, session, front);
      assert forall i :: 0 <= i < n ==> (SettlesOn(b, front, i) <==> SettlesOn(b, fills, i)) by {
        forall i | 0 <= i < n ensures SettlesOn(b, front, i) <==> SettlesOn(b, fills, i) {
          assert front[..i] == fills[..i];
        }
      }
      if ApplyFills(b, session, front).Ok? {
        var mid := ApplyFills(b, session, front).value;
        FillsMoveCash(b, session, front);
        FillTakenIff(mid, session, f);
        assert Held(mid, f.symbol) == Held(b, f.symbol) + Net(front, f.symbol);
        assert SettlesOn(b, fills, n) <==> ApplyFill(mid, session, f).Ok?;
        forall s ensures Net([f], s) + Net(front, s) == Net(fills, s) {
          NetOfOne(f, s);
        }
      }
    }
  }

  ghost predicate SettlesOn(b: Book, fills: seq<BookedFill>, i: nat)
    requires i < |fills|
  {
    var f := fills[i];
    Settles(f, b.cash + FillsFlow(fills[..i]), Held(b, f.symbol) + Net(fills[..i], f.symbol))
  }

  lemma {:induction false} NetOfOne(f: BookedFill, s: Symbol)
    ensures Net([f], s) == if f.symbol != s then 0.0 else if f.side == Buy then f.quantity else -f.quantity
  {
    assert [f][..0] == [] && Net([], s) == 0.0;
  }

  lemma {:induction false} NetIsBoughtLessSold(session: Date, fills: seq<BookedFill>, s: Symbol)
    requires forall f :: f in fills ==> ValidFill(f)
    ensures Quantity(Bought(session, fills, s)) - Sold(fills, s) == Net(fills, s)
    ensures Sold(fills, s) >= 0.0
  {
    if fills == [] {
    } else {
      var n := |fills| - 1;
      var front, f := fills[..n], fills[n];
      assert f in fills && forall g :: g in front ==> g in fills;
      NetIsBoughtLessSold(session, front, s);
      QuantityConcat(Bought(session, front, s), BoughtIn(session, f, s));
      assert [BoughtLot(session, f)][1..] == [];
    }
  }

  /** The symbols a book holds are those of which shares are left. */
  lemma {:induction false} HeldWhenPositive(b: Book, s: Symbol)
    requires Sound(b)
    ensures s in b.holdings <==> Held(b, s) > 0.0
  {
    if s in b.holdings {
      QuantityNonnegative(b.holdings[s].lots);
    }
  }

  lemma {:induction false} SharesAfterBatch(events: seq<Event>, e: Event, s: Symbol)
    requires Replay(events).Ok? && e.body.BatchBooked? && WellFormed(e)
    ensures Shares(events + [e], s) == Shares(events, s) + Net(e.body.fills, s)
    ensures s in HeldBy(events + [e]) <==> Shares(events, s) + Net(e.body.fills, s) > 0.0
  {
    hide Replay, EverBought, ValidFill;
    var more, session, fills := events + [e], e.body.session, e.body.fills;
    assert more[..|more| - 1] == events;
    NetIsBoughtLessSold(session, fills, s);
    QuantityConcat(AllBought(events, s), Bought(session, fills, s));
    SellsAreNonnegative(events, s);
    OnlyBoughtIsEver(more, s);
    assert AllBought(more, s) == [] ==> Quantity(AllBought(more, s)) == 0.0;
  }

  lemma {:induction false} BatchTakenIff(events: seq<Event>, e: Event)
    requires Replay(events).Ok? && OpensOnce(events) && e.body.BatchBooked? && WellFormed(e)
    ensures ApplyBody(Replay(events).value, e.body).Ok? <==> Takes(events, e)
  {
    hide Replay, Settles, ValidFill, Shares, CashFlow, HeldBy, ApplyFills, Net, Sorted, MarkSymbols;
    var b, session, fills := Replay(events).value, e.body.session, e.body.fills;
    CashIsTheFlow(events);
    FillsTakenIff(b, session, fills);
    forall s ensures Held(b, s) == Shares(events, s) { HeldIsShares(events, s); }
    assert forall i :: 0 <= i < |fills| ==> (SettlesOn(b, fills, i) <==> SettlesAt(events, fills, i));
    if ApplyFills(b, session, fills).Ok? {
      var filled := ApplyFills(b, session, fills).value;
      forall s ensures s in filled.holdings.Keys <==> s in HeldBy(events + [e]) {
        HeldWhenPositive(filled, s);
        SharesAfterBatch(events, e, s);
      }
      assert filled.holdings.Keys == HeldBy(events + [e]);
    }
  }

  lemma {:induction false} HeldIsShares(events: seq<Event>, s: Symbol)
    requires Replay(events).Ok?
    ensures Held(Replay(events).value, s) == Shares(events, s)
  {
    hide Replay;
    SharesAreConserved(events, s);
  }

  lemma {:induction false} BodyTakenIff(events: seq<Event>, e: Event)
    requires Replay(events).Ok? && OpensOnce(events) && WellFormed(e) && !e.body.CashInitialized?
    ensures ApplyBody(Replay(events).value, e.body).Ok? <==> Takes(events, e)
  {
    hide Replay, ApplyFills, Settles, Shares, CashFlow, HeldBy, ApplyFill, ApplyBuy, ApplySell, Held, Sorted, MarkSymbols;
    var b := Replay(events).value;
    CashIsTheFlow(events);
    HeldExactly(events);
    BodyAsFill(b, e.body, 0);
    match e.body
    case BatchBooked(_, _, _) => BatchTakenIff(events, e);
    case BuyFilled(session, f) =>
      FillTakenIff(b, session, f);
      HeldIsShares(events, f.symbol);
    case SellFilled(session, f) =>
      FillTakenIff(b, session, f);
      HeldIsShares(events, f.symbol);
    case PositionMarked(_, m) => assert m.symbol in b.holdings <==> m.symbol in b.holdings.Keys;
    case _ =>
  }

  /** A replayed log takes a well-formed next event exactly when its own events allow it. */
  lemma {:induction false} TakenIff(events: seq<Event>, e: Event)
    requires Replay(events).Ok? && OpensOnce(events) && WellFormed(e) && !e.body.CashInitialized?
    ensures Replay(events + [e]).Ok? <==> Takes(events, e)
  {
    hide Takes, ApplyBody, Replay, WellFormed, RaisePeak;
    assert events != [] by { ReplayedIsNonempty(events); }
    ReplayAppend(events, e);
    BodyTakenIff(events, e);
  }
}
