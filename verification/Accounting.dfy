/**
  What a replayed book means: the cost of every open lot is accounted for, and the
  lots of a symbol are exactly what its buys leave once the total sold is removed
  from the front.
 */
module Accounting {
  import opened Common
  import opened Fifo
  import opened Book

  // ---- conservation of cost ----

  function CostOver(h: Holdings, keys: set<Symbol>): real
    requires keys <= h.Keys
    decreases |keys|
  {
    if keys == {} then 0.0
    else
      var k := Least(keys);
      Cost(h[k].lots) + CostOver(h, keys - {k})
  }

  /** The cost basis of everything held. */
  function CostTotal(h: Holdings): real {
    CostOver(h, h.Keys)
  }

  lemma {:induction false} CostOverPick(h: Holdings, keys: set<Symbol>, k: Symbol)
    requires keys <= h.Keys && k in keys
    ensures CostOver(h, keys) == Cost(h[k].lots) + CostOver(h, keys - {k})
    decreases |keys|
  {
    var m := Least(keys);
    if m != k {
      CostOverPick(h, keys - {m}, k);
      CostOverPick(h, keys - {k}, m);
      assert keys - {m} - {k} == keys - {k} - {m};
    }
  }

  lemma {:induction false} CostOverAgrees(h: Holdings, g: Holdings, keys: set<Symbol>)
    requires keys <= h.Keys && keys <= g.Keys
    requires forall s :: s in keys ==> h[s].lots == g[s].lots
    ensures CostOver(h, keys) == CostOver(g, keys)
    decreases |keys|
  {
    if keys != {} {
      CostOverAgrees(h, g, keys - {Least(keys)});
    }
  }

  /** Changing one symbol's lots moves the total by exactly the change in their cost. */
  lemma {:induction false} CostTotalChange(h: Holdings, g: Holdings, s: Symbol, before: real, after: real)
    requires forall k :: k != s ==> (k in h <==> k in g)
    requires forall k :: k != s && k in h ==> h[k].lots == g[k].lots
    requires before == if s in h then Cost(h[s].lots) else 0.0
    requires after == if s in g then Cost(g[s].lots) else 0.0
    ensures CostTotal(g) == CostTotal(h) - before + after
  {
    var rest := h.Keys - {s};
    forall k ensures k in rest <==> k in g.Keys - {s} {
      assert k != s ==> (k in h <==> k in g);
    }
    assert rest == g.Keys - {s};
    CostOverAgrees(h, g, rest);
    if s in h { CostOverPick(h, h.Keys, s); } else { assert h.Keys == rest; }
    if s in g { CostOverPick(g, g.Keys, s); } else { assert g.Keys == rest; }
  }

  /** Cash plus open cost, less the profit already realized. */
  function Balance(b: Book): real {
    b.cash + CostTotal(b.holdings) - b.pnl
  }

  lemma {:induction false} FillKeepsBalance(b: Book, session: Date, f: BookedFill)
    requires Sound(b) && ValidFill(f) && ApplyFill(b, session, f).Ok?
    ensures Balance(ApplyFill(b, session, f).value) == Balance(b)
  {
    var after := ApplyFill(b, session, f).value;
    var lots := LotsOf(b, f.symbol);
    if f.side == Buy {
      var lot := BoughtLot(session, f);
      QuantityConcat(lots, [lot]);
      assert [lot][1..] == [];
      assert Cost([lot]) == lot.cost + Cost([]);
      CostTotalChange(b.holdings, after.holdings, f.symbol, Cost(lots), Cost(lots) + lot.cost);
    } else {
      ConsumeConserves(lots, f.quantity);
      CostTotalChange(b.holdings, after.holdings, f.symbol, Cost(lots), Cost(Consume(lots, f.quantity)));
    }
  }

  lemma {:induction false} FillsKeepBalance(b: Book, session: Date, fills: seq<BookedFill>)
    requires Sound(b) && (forall f :: f in fills ==> ValidFill(f)) && ApplyFills(b, session, fills).Ok?
    ensures Balance(ApplyFills(b, session, fills).value) == Balance(b)
  {
    if fills == [] {
    } else {
      var front, f := fills[..|fills| - 1], fills[|fills| - 1];
      FillsKeepBalance(b, session, front);
      assert f in fills;
      FillKeepsBalance(ApplyFills(b, session, front).value, session, f);
    }
  }

  lemma {:induction false} SameLotsSameCost(h: Holdings, g: Holdings)
    requires h.Keys == g.Keys && forall s :: s in h ==> h[s].lots == g[s].lots
    ensures CostTotal(h) == CostTotal(g)
  {
    CostOverAgrees(h, g, h.Keys);
  }

  /** What an event pays in from outside. */
  function Paid(body: Body): real {
    match body
    case CashInitialized(amount) => amount
    case CashAdjusted(amount) => amount
    case _ => 0.0
  }

  function Deposits(events: seq<Event>): real {
    if events == [] then 0.0
    else Deposits(events[..|events| - 1]) + Paid(events[|events| - 1].body)
  }

  lemma {:induction false} BodyBalance(b: Book, body: Body)
    requires Sound(b) && ValidBody(body) && ApplyBody(b, body).Ok? && !body.CashInitialized?
    ensures Balance(ApplyBody(b, body).value) == Balance(b) + Paid(body)
  {
    match body
    case BuyFilled(session, f) => FillKeepsBalance(b, session, f);
    case SellFilled(session, f) => FillKeepsBalance(b, session, f);
    case BatchBooked(session, marks, fills) =>
      FillsKeepBalance(b, session, fills);
      var filled := ApplyFills(b, session, fills).value;
      SameLotsSameCost(filled.holdings, ApplyMarks(filled, marks).value.holdings);
    case PortfolioMarked(_, marks) =>
      SameLotsSameCost(b.holdings, ApplyMarks(b, marks).value.holdings);
    case PositionMarked(_, _) =>
      SameLotsSameCost(b.holdings, ApplyBody(b, body).value.holdings);
    case _ =>
  }

  lemma {:induction false} StepBalance(b: Book, e: Event)
    requires Sound(b) && Step(b, e).Ok? && !e.body.CashInitialized?
    ensures Balance(Step(b, e).value) == Balance(b) + Paid(e.body)
  {
    BodyBalance(b, e.body);
    assert Step(b, e).value.holdings == ApplyBody(b, e.body).value.holdings;
  }

  ghost predicate OpensOnce(events: seq<Event>) {
    forall i :: 1 <= i < |events| ==> !events[i].body.CashInitialized?
  }

  /**
    The accounting identity: after any replayed log, cash plus the cost basis of the
    open lots is what was paid in plus the realized profit; cash is never negative
    and every open lot is positive.
   */
  lemma {:induction false} AccountingIdentity(events: seq<Event>)
    requires Replay(events).Ok? && OpensOnce(events)
    ensures var b := Replay(events).value;
            && b.cash + CostTotal(b.holdings) == Deposits(events) + b.pnl
            && b.cash >= 0.0
            && forall s :: s in b.holdings ==> Positive(b.holdings[s].lots)
  {
    var front, last := events[..|events| - 1], events[|events| - 1];
    if |events| == 1 {
      assert Deposits(front) == 0.0;
    } else {
      AccountingIdentity(front);
      StepBalance(Replay(front).value, last);
    }
  }

  // ---- FIFO against an independent definition ----

  function BoughtIn(session: Date, f: BookedFill, s: Symbol): seq<Lot> {
    if f.symbol == s && f.side == Buy then [BoughtLot(session, f)] else []
  }

  function SoldIn(f: BookedFill, s: Symbol): real {
    if f.symbol == s && f.side != Buy then f.quantity else 0.0
  }

  /** The lots of `s` bought by a batch of fills, oldest first. */
  function Bought(session: Date, fills: seq<BookedFill>, s: Symbol): seq<Lot> {
    if fills == [] then []
    else Bought(session, fills[..|fills| - 1], s) + BoughtIn(session, fills[|fills| - 1], s)
  }

  function Sold(fills: seq<BookedFill>, s: Symbol): real {
    if fills == [] then 0.0 else Sold(fills[..|fills| - 1], s) + SoldIn(fills[|fills| - 1], s)
  }

  function BoughtBy(body: Body, s: Symbol): seq<Lot> {
    match body
    case BuyFilled(session, f) => BoughtIn(session, f, s)
    case BatchBooked(session, _, fills) => Bought(session, fills, s)
    case _ => []
  }

  function SoldBy(body: Body, s: Symbol): real {
    match body
    case SellFilled(_, f) => SoldIn(f, s)
    case BatchBooked(_, _, fills) => Sold(fills, s)
    case _ => 0.0
  }

  /** Every lot of `s` a log ever bought, oldest first. */
  function AllBought(events: seq<Event>, s: Symbol): seq<Lot> {
    if events == [] then []
    else AllBought(events[..|events| - 1], s) + BoughtBy(events[|events| - 1].body, s)
  }

  function AllSold(events: seq<Event>, s: Symbol): real {
    if events == [] then 0.0
    else AllSold(events[..|events| - 1], s) + SoldBy(events[|events| - 1].body, s)
  }

  /** What `bought` leaves once `sold` is taken from its front, if that much was bought. */
  ghost function Remainder(bought: seq<Lot>, sold: real): Option<seq<Lot>> {
    if Positive(bought) && 0.0 <= sold <= Quantity(bought) then Some(Consume(bought, sold)) else None
  }

  lemma {:induction false} BuyKeepsRemainder(lots: seq<Lot>, bought: seq<Lot>, sold: real, lot: Lot)
    requires Remainder(bought, sold) == Some(lots) && lot.quantity > 0.0 && lot.cost > 0.0
    ensures Remainder(bought + [lot], sold) == Some(lots + [lot])
  {
    QuantityConcat(bought, [lot]);
    QuantityNonnegative([lot]);
    ConsumeBeforeAppend(bought, lot, sold);
  }

  lemma {:induction false} SellKeepsRemainder(lots: seq<Lot>, bought: seq<Lot>, sold: real, q: real)
    requires Remainder(bought, sold) == Some(lots) && 0.0 <= q <= Quantity(lots)
    ensures Positive(lots) && Remainder(bought, sold + q) == Some(Consume(lots, q))
  {
    ConsumeConserves(bought, sold);
    ConsumeTwice(bought, sold, q);
  }

  /** What one fill does to the lots of one symbol. */
  function LotsAfter(lots: seq<Lot>, session: Date, f: BookedFill, s: Symbol): seq<Lot>
    requires Positive(lots)
  {
    if f.symbol != s then lots
    else if f.side == Buy then lots + [BoughtLot(session, f)]
    else Consume(lots, f.quantity)
  }

  lemma {:induction false} FillMovesLots(b: Book, session: Date, f: BookedFill, s: Symbol)
    requires Sound(b) && ValidFill(f) && ApplyFill(b, session, f).Ok?
    ensures Positive(LotsOf(b, s))
    ensures LotsOf(ApplyFill(b, session, f).value, s) == LotsAfter(LotsOf(b, s), session, f, s)
    ensures f.symbol == s && f.side != Buy ==> f.quantity <= Quantity(LotsOf(b, s))
  {
  }

  lemma {:induction false} LotsAfterKeepsRemainder(lots: seq<Lot>, session: Date, f: BookedFill, s: Symbol,
                                bought: seq<Lot>, sold: real)
    requires Positive(lots) && ValidFill(f) && Remainder(bought, sold) == Some(lots)
    requires f.symbol == s && f.side != Buy ==> f.quantity <= Quantity(lots)
    ensures Remainder(bought + BoughtIn(session, f, s), sold + SoldIn(f, s)) ==
            Some(LotsAfter(lots, session, f, s))
  {
    if f.symbol == s && f.side == Buy {
      BuyCostPositive(f);
      BuyKeepsRemainder(lots, bought, sold, BoughtLot(session, f));
    } else {
      assert bought + BoughtIn(session, f, s) == bought;
      if f.symbol == s {
        SellKeepsRemainder(lots, bought, sold, f.quantity);
      }
    }
  }

  /** One more fill of a batch, on the definition's side alone. */
  lemma {:induction false} NextFillKeepsRemainder(lots: seq<Lot>, session: Date, fills: seq<BookedFill>, s: Symbol,
                                                  bought: seq<Lot>, sold: real)
    requires fills != [] && Positive(lots) && ValidFill(fills[|fills| - 1])
    requires var front := fills[..|fills| - 1];
             Remainder(bought + Bought(session, front, s), sold + Sold(front, s)) == Some(lots)
    requires var f := fills[|fills| - 1]; f.symbol == s && f.side != Buy ==> f.quantity <= Quantity(lots)
    ensures Remainder(bought + Bought(session, fills, s), sold + Sold(fills, s)) ==
            Some(LotsAfter(lots, session, fills[|fills| - 1], s))
  {
    hide Remainder, LotsAfter, BoughtIn, SoldIn, Positive, ValidFill;
    var front, f := fills[..|fills| - 1], fills[|fills| - 1];
    LotsAfterKeepsRemainder(lots, session, f, s, bought + Bought(session, front, s), sold + Sold(front, s));
    assert bought + Bought(session, front, s) + BoughtIn(session, f, s) == bought + Bought(session, fills, s);
    assert sold + Sold(front, s) + SoldIn(f, s) == sold + Sold(fills, s);
  }

  lemma {:induction false} LastFill(b: Book, session: Date, fills: seq<BookedFill>)
    requires Sound(b) && fills != [] && (forall f :: f in fills ==> ValidFill(f)) && ApplyFills(b, session, fills).Ok?
    ensures var front, f := fills[..|fills| - 1], fills[|fills| - 1];
            && (forall g :: g in front ==> ValidFill(g)) && ValidFill(f)
            && ApplyFills(b, session, front).Ok?
            && ApplyFill(ApplyFills(b, session, front).value, session, f) == ApplyFills(b, session, fills)
  {
    assert fills[|fills| - 1] in fills;
  }

  lemma {:induction false} NoFillsKeepRemainder(b: Book, session: Date, s: Symbol, bought: seq<Lot>, sold: real)
    requires Sound(b)
    ensures bought + Bought(session, [], s) == bought && sold + Sold([], s) == sold && ApplyFills(b, session, []) == Ok(b)
  {}

  lemma {:induction false} FillsKeepRemainder(b: Book, session: Date, fills: seq<BookedFill>, s: Symbol,
                                              bought: seq<Lot>, sold: real)
    requires Sound(b) && (forall f :: f in fills ==> ValidFill(f)) && ApplyFills(b, session, fills).Ok?
    requires Remainder(bought, sold) == Some(LotsOf(b, s))
    ensures Remainder(bought + Bought(session, fills, s), sold + Sold(fills, s)) ==
            Some(LotsOf(ApplyFills(b, session, fills).value, s))
  {
    hide *;
    if fills == [] {
      NoFillsKeepRemainder(b, session, s, bought, sold);
    } else {
      var front, f := fills[..|fills| - 1], fills[|fills| - 1];
      LastFill(b, session, fills);
      FillsKeepRemainder(b, session, front, s, bought, sold);
      var mid := ApplyFills(b, session, front).value;
      FillMovesLots(mid, session, f, s);
      NextFillKeepsRemainder(LotsOf(mid, s), session, fills, s, bought, sold);
    }
  }

  lemma {:induction false} MarksMoveNoLots(b: Book, marks: seq<Mark>, s: Symbol)
    requires Sound(b) && (forall m :: m in marks ==> ValidMark(m)) && ApplyMarks(b, marks).Ok?
    ensures LotsOf(ApplyMarks(b, marks).value, s) == LotsOf(b, s)
  {
  }

  lemma {:induction false} FillBodyKeepsRemainder(b: Book, session: Date, f: BookedFill, s: Symbol, bought: seq<Lot>, sold: real)
    requires Sound(b) && ValidFill(f) && ApplyFill(b, session, f).Ok?
    requires Remainder(bought, sold) == Some(LotsOf(b, s))
    ensures Remainder(bought + BoughtIn(session, f, s), sold + SoldIn(f, s)) ==
            Some(LotsOf(ApplyFill(b, session, f).value, s))
  {
    FillMovesLots(b, session, f, s);
    LotsAfterKeepsRemainder(LotsOf(b, s), session, f, s, bought, sold);
  }

  lemma {:induction false} BatchKeepsRemainder(b: Book, body: Body, s: Symbol, bought: seq<Lot>, sold: real)
    requires body.BatchBooked? && Sound(b) && ValidBody(body) && ApplyBody(b, body).Ok?
    requires Remainder(bought, sold) == Some(LotsOf(b, s))
    ensures Remainder(bought + BoughtBy(body, s), sold + SoldBy(body, s)) ==
            Some(LotsOf(ApplyBody(b, body).value, s))
  {
    hide Remainder, LotsOf, ApplyFills, ApplyMarks, Bought, Sold, Sound;
    FillsKeepRemainder(b, body.session, body.fills, s, bought, sold);
    MarksMoveNoLots(ApplyFills(b, body.session, body.fills).value, body.marks, s);
  }

  /** Bodies other than fills leave every lot alone. */
  lemma {:induction false} OtherBodyMovesNoLots(b: Book, body: Body, s: Symbol)
    requires !body.BatchBooked? && !body.BuyFilled? && !body.SellFilled?
    requires Sound(b) && ValidBody(body) && ApplyBody(b, body).Ok?
    ensures LotsOf(ApplyBody(b, body).value, s) == LotsOf(b, s)
  {
    if body.PortfolioMarked? {
      MarksMoveNoLots(b, body.marks, s);
    }
  }

  lemma {:induction false} BodyAsFill(b: Book, body: Body, s: Symbol)
    requires Sound(b) && ValidBody(body)
    ensures body.BuyFilled? ==>
              && ValidFill(body.buy) && ApplyBody(b, body) == ApplyFill(b, body.session, body.buy)
              && BoughtBy(body, s) == BoughtIn(body.session, body.buy, s) && SoldBy(body, s) == SoldIn(body.buy, s)
    ensures body.SellFilled? ==>
              && ValidFill(body.sell) && ApplyBody(b, body) == ApplyFill(b, body.session, body.sell)
              && BoughtBy(body, s) == BoughtIn(body.session, body.sell, s) && SoldBy(body, s) == SoldIn(body.sell, s)
    ensures !body.BuyFilled? && !body.SellFilled? && !body.BatchBooked? ==> BoughtBy(body, s) == [] && SoldBy(body, s) == 0.0
  {}

  lemma {:induction false} BodyKeepsRemainder(b: Book, body: Body, s: Symbol, bought: seq<Lot>, sold: real)
    requires Sound(b) && ValidBody(body) && ApplyBody(b, body).Ok?
    requires Remainder(bought, sold) == Some(LotsOf(b, s))
    ensures Remainder(bought + BoughtBy(body, s), sold + SoldBy(body, s)) ==
            Some(LotsOf(ApplyBody(b, body).value, s))
  {
    hide *;
    BodyAsFill(b, body, s);
    if body.BatchBooked? {
      BatchKeepsRemainder(b, body, s, bought, sold);
    } else if body.BuyFilled? {
      FillBodyKeepsRemainder(b, body.session, body.buy, s, bought, sold);
    } else if body.SellFilled? {
      FillBodyKeepsRemainder(b, body.session, body.sell, s, bought, sold);
    } else {
      OtherBodyMovesNoLots(b, body, s);
      assert bought + BoughtBy(body, s) == bought && sold + SoldBy(body, s) == sold;
    }
  }

  lemma {:induction false} StepKeepsRemainder(b: Book, e: Event, s: Symbol, bought: seq<Lot>, sold: real)
    requires Sound(b) && Step(b, e).Ok?
    requires Remainder(bought, sold) == Some(LotsOf(b, s))
    ensures Remainder(bought + BoughtBy(e.body, s), sold + SoldBy(e.body, s)) == Some(LotsOf(Step(b, e).value, s))
  {
    BodyKeepsRemainder(b, e.body, s, bought, sold);
    var applied := ApplyBody(b, e.body).value;
    assert LotsOf(RaisePeak(applied), s) == LotsOf(applied, s);
  }

  lemma {:induction false} NothingBeforeTheFirstBuy(events: seq<Event>, s: Symbol)
    requires |events| == 1 && Replay(events).Ok?
    ensures AllBought(events, s) == [] && AllSold(events, s) == 0.0 && LotsOf(Replay(events).value, s) == []
    ensures Remainder([], 0.0) == Some([])
  {
    var front := events[..0];
    assert AllBought(front, s) == [] && AllSold(front, s) == 0.0;
  }

  /**
    FIFO is independent of how sells were cut or interleaved with buys: the open lots
    of a symbol, cost bases included, are its buys with the total sold removed once
    from the front.
   */
  lemma {:induction false} LotsAreTheUnsoldBuys(events: seq<Event>, s: Symbol)
    requires Replay(events).Ok?
    ensures Remainder(AllBought(events, s), AllSold(events, s)) == Some(LotsOf(Replay(events).value, s))
  {
    hide *;
    ReplayedIsNonempty(events);
    if |events| == 1 {
      NothingBeforeTheFirstBuy(events, s);
    } else {
      var front, last := events[..|events| - 1], events[|events| - 1];
      LastEvent(events, s);
      LotsAreTheUnsoldBuys(front, s);
      StepKeepsRemainder(Replay(front).value, last, s, AllBought(front, s), AllSold(front, s));
    }
  }

  lemma {:induction false} ReplayedIsNonempty(events: seq<Event>)
    requires Replay(events).Ok?
    ensures events != []
  {}

  lemma {:induction false} LastEvent(events: seq<Event>, s: Symbol)
    requires |events| > 1 && Replay(events).Ok?
    ensures var front, last := events[..|events| - 1], events[|events| - 1];
            && Replay(front).Ok? && Step(Replay(front).value, last) == Replay(events)
            && AllBought(front, s) + BoughtBy(last.body, s) == AllBought(events, s)
            && AllSold(front, s) + SoldBy(last.body, s) == AllSold(events, s)
  {
  }

  /** Shares are conserved: what is held of a symbol is what was bought less what was sold. */
  lemma {:induction false} SharesAreConserved(events: seq<Event>, s: Symbol)
    requires Replay(events).Ok?
    ensures Held(Replay(events).value, s) == Quantity(AllBought(events, s)) - AllSold(events, s)
  {
    LotsAreTheUnsoldBuys(events, s);
    ConsumeConserves(AllBought(events, s), AllSold(events, s));
  }
}
