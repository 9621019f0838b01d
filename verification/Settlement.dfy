/**
  The simulator's books against the ledger's: filled results, booked in order into the
  ledger whose lots and cash the simulator was given, are always accepted and leave
  the same cash and the same shares; on the China market every share they sell was
  acquired in an earlier session.
  (src/stock_agent/backtest/runner.py, execution/rules.py, account/ledger.py.)
 */
module Settlement {
  import opened Common
  import opened Fifo
  import opened Book
  import opened Calendar
  import opened Rules
  import opened OrderDesk
  import opened Simulator

  // ---- settled shares at the front of a holding ----

  /** Quantity acquired strictly before `date`. */
  function Settled(lots: seq<Lot>, date: Date): real {
    if lots == [] then 0.0
    else (if lots[0].acquired < date then lots[0].quantity else 0.0) + Settled(lots[1..], date)
  }

  ghost predicate InOrder(lots: seq<Lot>) {
    forall i, j :: 0 <= i < j < |lots| ==> lots[i].acquired <= lots[j].acquired
  }

  ghost predicate AllBefore(lots: seq<Lot>, date: Date) {
    forall i :: 0 <= i < |lots| ==> lots[i].acquired < date
  }

  lemma {:induction false} NothingSettled(lots: seq<Lot>, date: Date)
    requires forall i :: 0 <= i < |lots| ==> date <= lots[i].acquired
    ensures Settled(lots, date) == 0.0
  {
    if lots == [] {
    } else {
      NothingSettled(lots[1..], date);
    }
  }

  lemma {:induction false} SettledIsPartOfQuantity(lots: seq<Lot>, date: Date)
    requires Positive(lots)
    ensures 0.0 <= Settled(lots, date) <= Quantity(lots)
  {
    if lots == [] {
    } else {
      SettledIsPartOfQuantity(lots[1..], date);
    }
  }

  lemma {:induction false} SettledAppend(lots: seq<Lot>, lot: Lot, date: Date)
    ensures Settled(lots + [lot], date) == Settled(lots, date) + if lot.acquired < date then lot.quantity else 0.0
  {
    if lots == [] {
      assert [] + [lot] == [lot];
      assert Settled([lot], date) == (if lot.acquired < date then lot.quantity else 0.0) + Settled([], date);
    } else {
      assert (lots + [lot])[1..] == lots[1..] + [lot];
      SettledAppend(lots[1..], lot, date);
    }
  }

  /**
    Settled lots are a prefix of a holding in acquisition order, so taking no more than
    the settled quantity takes settled shares only.
   */
  lemma {:induction false} SettledComesFirst(lots: seq<Lot>, q: real, date: Date)
    requires Positive(lots) && InOrder(lots) && 0.0 <= q <= Settled(lots, date)
    ensures AllBefore(Taken(lots, q), date)
    ensures Positive(Consume(lots, q)) && InOrder(Consume(lots, q))
    ensures Settled(Consume(lots, q), date) == Settled(lots, date) - q
    decreases |lots|
  {
    SettledIsPartOfQuantity(lots, date);
    ConsumeConserves(lots, q);
    if q > 0.0 && lots != [] {
      if lots[0].acquired >= date {
        NothingSettled(lots, date);
        assert false;
      }
      if lots[0].quantity <= q {
        SettledComesFirst(lots[1..], q - lots[0].quantity, date);
      } else {
        var rest := [Split(lots[0], q)] + lots[1..];
        assert rest[1..] == lots[1..];
        assert InOrder(rest);
      }
    }
  }

  lemma {:induction false} ConsumeKeepsDates(lots: seq<Lot>, q: real)
    requires Positive(lots) && InOrder(lots)
    ensures InOrder(Consume(lots, q))
    ensures forall i :: 0 <= i < |Consume(lots, q)| ==>
              exists j :: 0 <= j < |lots| && lots[j].acquired == Consume(lots, q)[i].acquired
    decreases |lots|
  {
    var rest := Consume(lots, q);
    if q <= 0.0 || lots == [] {
      assert rest == lots;
    } else if lots[0].quantity <= q {
      ConsumeKeepsDates(lots[1..], q - lots[0].quantity);
      forall i | 0 <= i < |rest| ensures exists j :: 0 <= j < |lots| && lots[j].acquired == rest[i].acquired {
        var j :| 0 <= j < |lots[1..]| && lots[1..][j].acquired == rest[i].acquired;
        assert lots[j + 1].acquired == rest[i].acquired;
      }
    } else {
      forall i | 0 <= i < |rest| ensures lots[i].acquired == rest[i].acquired {
      }
    }
  }

  // ---- what the rules see in the ledger's own lots ----

  /** The shares a rule lets a holding sell. */
  function Free(rule: Rule, lots: seq<Lot>, date: Date): real {
    match rule
    case UnitedStates => Quantity(lots)
    case China(_) => Settled(lots, date)
  }

  ghost predicate AcquiredIn(lots: seq<Lot>, sessions: seq<Date>) {
    forall i :: 0 <= i < |lots| ==> lots[i].acquired in sessions
  }

  ghost predicate Listed(rule: Rule, lots: seq<Lot>, date: Date) {
    rule.China? ==> date in rule.calendar.sessions && AcquiredIn(lots, rule.calendar.sessions)
  }

  lemma {:induction false} SellableConcat(rule: Rule, s: Symbol, date: Date, a: seq<OpenLot>, b: seq<OpenLot>)
    requires ValidRule(rule)
    requires Sellable(rule, s, date, a).Answered? && Sellable(rule, s, date, b).Answered?
    ensures Sellable(rule, s, date, a + b) ==
            Answered(Sellable(rule, s, date, a).value + Sellable(rule, s, date, b).value)
  {
    if a == [] {
      assert a + b == b;
    } else {
      assert (a + b)[1..] == a[1..] + b;
      SellableConcat(rule, s, date, a[1..], b);
    }
  }

  lemma {:induction false} SellableOfOneHolding(rule: Rule, s: Symbol, date: Date, k: Symbol, lots: seq<Lot>)
    requires ValidRule(rule) && Listed(rule, lots, date)
    ensures Sellable(rule, s, date, TagLots(k, lots)) == Answered(if k == s then Free(rule, lots, date) else 0.0)
  {
    if lots == [] {
    } else {
      assert TagLots(k, lots)[1..] == TagLots(k, lots[1..]);
      assert lots[0].acquired == lots[0].acquired;
      SellableOfOneHolding(rule, s, date, k, lots[1..]);
    }
  }

  lemma {:induction false} SellableFrom(rule: Rule, s: Symbol, date: Date, h: Holdings, keys: seq<Symbol>)
    requires ValidRule(rule) && StrictlyAscending(keys)
    requires forall k :: k in keys ==> k in h && Listed(rule, h[k].lots, date)
    ensures Sellable(rule, s, date, OpenLotsFrom(h, keys)) ==
            Answered(if s in keys then Free(rule, h[s].lots, date) else 0.0)
  {
    if keys == [] {
    } else {
      var k := keys[0];
      assert k in keys;
      assert s in keys <==> s == k || s in keys[1..];
      SellableFrom(rule, s, date, h, keys[1..]);
      SellableOfOneHolding(rule, s, date, k, h[k].lots);
      SellableConcat(rule, s, date, TagLots(k, h[k].lots), OpenLotsFrom(h, keys[1..]));
      assert forall i :: 0 <= i < |keys[1..]| ==> k < keys[1..][i];
    }
  }

  /** Lots in acquisition order, each acquired in a session no later than `limit`. */
  ghost predicate Dated(b: Book, sessions: seq<Date>, limit: Date) {
    forall s :: DatedLots(LotsOf(b, s), sessions, limit)
  }

  ghost predicate DatedLots(lots: seq<Lot>, sessions: seq<Date>, limit: Date) {
    && InOrder(lots) && AcquiredIn(lots, sessions)
    && forall i :: 0 <= i < |lots| ==> lots[i].acquired <= limit
  }

  /** Given the ledger's own lots, the rules answer with exactly its free shares. */
  lemma {:induction false} SellableIsFree(rule: Rule, s: Symbol, date: Date, b: Book, sessions: seq<Date>, limit: Date)
    requires ValidRule(rule) && Dated(b, sessions, limit)
    requires rule.China? ==> rule.calendar.sessions == sessions && date in sessions
    ensures Sellable(rule, s, date, OpenLots(b)) == Answered(Free(rule, LotsOf(b, s), date))
  {
    forall k | k in b.holdings ensures Listed(rule, b.holdings[k].lots, date) {
      assert DatedLots(LotsOf(b, k), sessions, limit);
    }
    SellableFrom(rule, s, date, b.holdings, Sorted(b.holdings.Keys));
  }

  // ---- the two books, order by order ----

  function BookingOf(date: Date, r: Fill): BookedFill
    requires r.price.Some?
  {
    BookedFill([date] + r.intent.orderId, r.intent.symbol, r.intent.side, r.filled, r.price.value, r.fees)
  }

  /** The filled results, as the ledger books them. */
  function Bookings(date: Date, fills: seq<Fill>): seq<BookedFill> {
    if fills == [] then []
    else
      var r := fills[|fills| - 1];
      Bookings(date, fills[..|fills| - 1]) + if r.status == FILLED && r.price.Some? then [BookingOf(date, r)] else []
  }

  /** Both books show the same cash, and the ledger has free what the simulator may still sell. */
  ghost predicate Agree(f: Frame, rule: Rule, account: Id, d: Drained, b: Book)
    requires ValidRule(rule)
  {
    && Sound(b) && Supported(b.cash)
    && d.cash.Some? && account in d.cash.value && d.cash.value[account] == b.cash
    && forall s :: FreeCovers(f, rule, account, d.fills, s, LotsOf(b, s))
  }

  ghost predicate FreeCovers(f: Frame, rule: Rule, account: Id, fills: seq<Fill>, s: Symbol, lots: seq<Lot>)
    requires ValidRule(rule)
  {
    var limit := Sellable(rule, s, f.session, LotsFor(f, account));
    limit.Answered? && limit.value <= Free(rule, lots, f.session) + DeskSold(fills, account, s)
  }

  /** Every sell of the batch takes only shares acquired in an earlier session. */
  ghost predicate SellsSettled(b: Book, date: Date, fills: seq<BookedFill>)
    requires Sound(b) && forall f :: f in fills ==> ValidFill(f)
  {
    forall k :: 0 <= k < |fills| && fills[k].side == Sell ==> SellSettled(b, date, fills, k)
  }

  ghost predicate SellSettled(b: Book, date: Date, fills: seq<BookedFill>, k: nat)
    requires Sound(b) && (forall f :: f in fills ==> ValidFill(f)) && k < |fills|
  {
    && ApplyFills(b, date, fills[..k]).Ok?
    && AllBefore(Taken(LotsOf(ApplyFills(b, date, fills[..k]).value, fills[k].symbol), fills[k].quantity), date)
  }

  lemma {:induction false} FilledIsBookable(f: Frame, p: Pending, r: Fill)
    requires ValidFrame(f) && ValidPending(p) && Terminates(f, p, r) && r.status == FILLED
    ensures ValidFill(BookingOf(f.session, r))
  {
  }

  /** A sell leaves exactly the free shares less what it took. */
  lemma {:induction false} SellUsesFreeShares(rule: Rule, lots: seq<Lot>, q: real, date: Date)
    requires Positive(lots) && InOrder(lots) && 0.0 <= q <= Free(rule, lots, date)
    ensures q <= Quantity(lots)
    ensures Free(rule, Consume(lots, q), date) == Free(rule, lots, date) - q
    ensures rule.China? ==> AllBefore(Taken(lots, q), date)
  {
    SettledIsPartOfQuantity(lots, date);
    ConsumeConserves(lots, q);
    if rule.China? {
      SettledComesFirst(lots, q, date);
    }
  }

  /** A buy at `date` frees nothing on the China market and all of itself on the other. */
  lemma {:induction false} BuyFreesAtMostItself(rule: Rule, lots: seq<Lot>, lot: Lot, date: Date)
    requires lot.acquired == date && lot.quantity > 0.0
    ensures Free(rule, lots + [lot], date) ==
            Free(rule, lots, date) + if rule.China? then 0.0 else lot.quantity
  {
    SettledAppend(lots, lot, date);
    QuantityConcat(lots, [lot]);
    assert [lot][1..] == [];
    assert Quantity([lot]) == lot.quantity + Quantity([]);
  }

  ghost predicate Settles(cash: real, left: real, side: Side, q: real, price: real, fees: real) {
    left >= 0.0 && Supported(left) && left == cash + Change(side, q, price, fees)
  }

  lemma {:induction false} BuyBooked(f: Frame, rule: Rule, account: Id, b: Book, r: Fill, left: real, sessions: seq<Date>)
    requires ValidRule(rule) && Sound(b) && Dated(b, sessions, f.session) && f.session in sessions
    requires r.price.Some? && r.intent.side == Buy && ValidFill(BookingOf(f.session, r))
    requires Settles(b.cash, left, Buy, r.filled, r.price.value, r.fees)
    ensures var booked := ApplyFill(b, f.session, BookingOf(f.session, r));
            && booked.Ok? && booked.value.cash == left
            && Dated(booked.value, sessions, f.session)
            && forall s :: Free(rule, LotsOf(b, s), f.session) <= Free(rule, LotsOf(booked.value, s), f.session)
  {
    hide Free, Sound, ValidRule;
    var fill := BookingOf(f.session, r);
    var after := ApplyFill(b, f.session, fill).value;
    assert BuyCost(fill) == r.filled * r.price.value + r.fees;
    var lots, lot := LotsOf(b, r.intent.symbol), BoughtLot(f.session, fill);
    BuyFreesAtMostItself(rule, lots, lot, f.session);
    forall s
      ensures DatedLots(LotsOf(after, s), sessions, f.session)
      ensures Free(rule, LotsOf(b, s), f.session) <= Free(rule, LotsOf(after, s), f.session)
    {
      assert DatedLots(LotsOf(b, s), sessions, f.session);
      assert LotsOf(after, s) == if s == r.intent.symbol then lots + [lot] else LotsOf(b, s);
    }
  }

  lemma {:induction false} SellApplies(b: Book, date: Date, fill: BookedFill)
    requires Sound(b) && ValidFill(fill) && fill.side == Sell
    requires fill.quantity <= Held(b, fill.symbol) && Proceeds(fill) >= 0.0
    ensures var booked := ApplyFill(b, date, fill);
            && booked.Ok? && booked.value.cash == b.cash + Proceeds(fill)
            && forall s :: LotsOf(booked.value, s) ==
                           if s == fill.symbol && Positive(LotsOf(b, s)) then Consume(LotsOf(b, s), fill.quantity)
                           else LotsOf(b, s)
  {
    assert fill.symbol !in b.holdings ==> Held(b, fill.symbol) == 0.0;
  }

  lemma {:induction false} SellBooked(f: Frame, rule: Rule, account: Id, b: Book, r: Fill, left: real, sessions: seq<Date>)
    requires ValidRule(rule) && Sound(b) && Dated(b, sessions, f.session)
    requires r.price.Some? && r.intent.side == Sell && ValidFill(BookingOf(f.session, r))
    requires r.filled <= Free(rule, LotsOf(b, r.intent.symbol), f.session)
    requires Settles(b.cash, left, Sell, r.filled, r.price.value, r.fees)
    requires Change(Sell, r.filled, r.price.value, r.fees) >= 0.0
    ensures var booked := ApplyFill(b, f.session, BookingOf(f.session, r));
            && booked.Ok? && booked.value.cash == left
            && Dated(booked.value, sessions, f.session)
            && forall s :: Free(rule, LotsOf(booked.value, s), f.session) ==
                           Free(rule, LotsOf(b, s), f.session) - if s == r.intent.symbol then r.filled else 0.0
    ensures rule.China? ==> AllBefore(Taken(LotsOf(b, r.intent.symbol), r.filled), f.session)
  {
    hide Free, Consume, ValidRule;
    var fill, symbol := BookingOf(f.session, r), r.intent.symbol;
    var lots := LotsOf(b, symbol);
    assert DatedLots(lots, sessions, f.session);
    SellUsesFreeShares(rule, lots, r.filled, f.session);
    ConsumeKeepsDates(lots, r.filled);
    assert Proceeds(fill) == Change(Sell, r.filled, r.price.value, r.fees);
    SellApplies(b, f.session, fill);
    SellShrinks(rule, b, ApplyFill(b, f.session, fill).value, symbol, r.filled, f.session, sessions);
  }

  lemma {:induction false} SellShrinks(rule: Rule, b: Book, after: Book, symbol: Symbol, q: real, date: Date, sessions: seq<Date>)
    requires Positive(LotsOf(b, symbol)) && Dated(b, sessions, date) && 0.0 <= q <= Free(rule, LotsOf(b, symbol), date)
    requires forall s :: LotsOf(after, s) ==
                         if s == symbol && Positive(LotsOf(b, s)) then Consume(LotsOf(b, s), q) else LotsOf(b, s)
    ensures Dated(after, sessions, date)
    ensures forall s :: Free(rule, LotsOf(after, s), date) ==
                        Free(rule, LotsOf(b, s), date) - if s == symbol then q else 0.0
  {
    var lots := LotsOf(b, symbol);
    assert DatedLots(lots, sessions, date);
    SellUsesFreeShares(rule, lots, q, date);
    DatesSurviveConsume(lots, q, sessions, date);
    forall s
      ensures DatedLots(LotsOf(after, s), sessions, date)
      ensures Free(rule, LotsOf(after, s), date) == Free(rule, LotsOf(b, s), date) - if s == symbol then q else 0.0
    {
      assert DatedLots(LotsOf(b, s), sessions, date);
    }
  }

  lemma {:induction false} DatesSurviveConsume(lots: seq<Lot>, q: real, sessions: seq<Date>, limit: Date)
    requires Positive(lots) && DatedLots(lots, sessions, limit)
    ensures DatedLots(Consume(lots, q), sessions, limit)
  {
    ConsumeKeepsDates(lots, q);
    var rest := Consume(lots, q);
    forall i | 0 <= i < |rest| ensures rest[i].acquired in sessions && rest[i].acquired <= limit {
      var j :| 0 <= j < |lots| && lots[j].acquired == rest[i].acquired;
    }
  }

  /** The result of one order, booked into the ledger if it filled. */
  function BookOne(b: Book, date: Date, r: Fill): (x: Result<Book, Fault>)
    requires Sound(b)
    ensures x.Ok? ==> Sound(x.value)
  {
    if r.status != FILLED || r.price.None? then Ok(b)
    else if !ValidFill(BookingOf(date, r)) then Err(Malformed)
    else ApplyFill(b, date, BookingOf(date, r))
  }

  lemma {:induction false} DecisionSettles(f: Frame, bps: real, blocked: Option<Reason>, cash: real, p: Pending)
    requires ValidFrame(f) && ValidPending(p) && bps >= 0.0 && p.intent.symbol in f.opens && cash >= 0.0
    requires Decide(f, bps, blocked, Some(cash), p).Ok?
    ensures var e := Decide(f, bps, blocked, Some(cash), p).value;
            && e.cash.Some? && Settles(cash, e.cash.value, p.intent.side, p.effective, e.price, e.fees)
            && (p.intent.side == Sell ==> Change(Sell, p.effective, e.price, e.fees) >= 0.0)
  {
    var e := Decide(f, bps, blocked, Some(cash), p).value;
    SettleMeaning(cash, p.intent.side, p.effective, e.price, e.fees);
  }

  lemma {:induction false} PassedSellFits(f: Frame, rule: Rule, account: Id, before: Drained, p: Pending, lots: seq<Lot>)
    requires ValidRule(rule) && p.intent.account == account && p.intent.side == Sell
    requires Gate(f, rule, before.sellable, p).0.None?
    requires SellableTracks(f, rule, before, account, p.intent.symbol)
    requires FreeCovers(f, rule, account, before.fills, p.intent.symbol, lots)
    ensures p.effective <= Free(rule, lots, f.session)
  {
    GateMeaning(f, rule, before.sellable, p);
  }

  lemma {:induction false} OneOrderAgrees(f: Frame, rule: Rule, bps: real, account: Id, before: Drained, p: Pending,
                       b: Book, sessions: seq<Date>)
    requires ValidRule(rule) && ValidFrame(f) && ValidPending(p) && bps >= 0.0 && Covers(before.cash, f, p)
    requires Ends(f, p) && p.intent.account == account
    requires Agree(f, rule, account, before, b) && SellableTracks(f, rule, before, account, p.intent.symbol)
    requires Dated(b, sessions, f.session) && f.session in sessions
    ensures var after := DrainOne(f, rule, bps, before, p);
            && |after.fills| == |before.fills| + 1 && after.fills[..|before.fills|] == before.fills
            && Terminates(f, p, after.fills[|before.fills|])
            && var r := after.fills[|before.fills|];
               var booked := BookOne(b, f.session, r);
               && booked.Ok?
               && Agree(f, rule, account, after, booked.value)
               && Dated(booked.value, sessions, f.session)
               && (rule.China? && r.status == FILLED && r.intent.side == Sell ==>
                     AllBefore(Taken(LotsOf(b, r.intent.symbol), r.filled), f.session))
  {
    var (blocked, sellable) := Gate(f, rule, before.sellable, p);
    var cash := before.cash.value[account];
    var decided := Decide(f, bps, blocked, Some(cash), p);
    var after := DrainOne(f, rule, bps, before, p);
    OneOrderEndsOrWaits(f, rule, bps, before, p);
    var r := after.fills[|before.fills|];
    assert after.fills == before.fills + [r];
    forall s ensures DeskSold(after.fills, account, s) == DeskSold(before.fills, account, s) + FillSold(r, account, s) {
      SoldAppend(before.fills, r, account, s);
    }
    if decided.Ok? {
      DecisionSettles(f, bps, blocked, cash, p);
      FilledIsBookable(f, p, r);
      var e := decided.value;
      var left := e.cash.value;
      assert r == Filled(p.intent, p.effective, e.price, e.fees, f.session);
      assert Settles(b.cash, left, r.intent.side, r.filled, r.price.value, r.fees);
      if p.intent.side == Sell {
        PassedSellFits(f, rule, account, before, p, LotsOf(b, p.intent.symbol));
        SellBooked(f, rule, account, b, r, left, sessions);
      } else {
        BuyBooked(f, rule, account, b, r, left, sessions);
      }
      CoversAfter(f, rule, account, before.fills, r, b, BookOne(b, f.session, r).value);
    } else {
      CoversAfter(f, rule, account, before.fills, r, b, b);
    }
  }

  lemma {:induction false} CoversAfter(f: Frame, rule: Rule, account: Id, fills: seq<Fill>, r: Fill, b: Book, after: Book)
    requires ValidRule(rule)
    requires forall s :: FreeCovers(f, rule, account, fills, s, LotsOf(b, s))
    requires forall s :: Free(rule, LotsOf(b, s), f.session) - FillSold(r, account, s)
                         <= Free(rule, LotsOf(after, s), f.session)
    ensures forall s :: FreeCovers(f, rule, account, fills + [r], s, LotsOf(after, s))
  {
    forall s ensures FreeCovers(f, rule, account, fills + [r], s, LotsOf(after, s)) {
      assert FreeCovers(f, rule, account, fills, s, LotsOf(b, s));
      SoldAppend(fills, r, account, s);
    }
  }

  ghost predicate AllBookable(fills: seq<BookedFill>) {
    forall f :: f in fills ==> ValidFill(f)
  }

  lemma {:induction false} SellsSettledAppend(b: Book, date: Date, fills: seq<BookedFill>, x: BookedFill)
    requires Sound(b) && AllBookable(fills) && ValidFill(x) && SellsSettled(b, date, fills)
    requires ApplyFills(b, date, fills).Ok?
    requires x.side == Sell ==> AllBefore(Taken(LotsOf(ApplyFills(b, date, fills).value, x.symbol), x.quantity), date)
    ensures AllBookable(fills + [x]) && SellsSettled(b, date, fills + [x])
  {
    var more := fills + [x];
    forall k | 0 <= k < |more| && more[k].side == Sell ensures SellSettled(b, date, more, k) {
      if k < |fills| {
        assert SellSettled(b, date, fills, k);
        assert more[..k] == fills[..k];
      } else {
        assert more[..k] == fills;
      }
    }
  }

  /** The running books and the booked ledger after the queue is drained. */
  ghost predicate BooksAgree(f: Frame, rule: Rule, account: Id, d: Drained, b: Book, sessions: seq<Date>)
    requires ValidRule(rule) && Sound(b)
  {
    var fills := Bookings(f.session, d.fills);
    && AllBookable(fills)
    && ApplyFills(b, f.session, fills).Ok?
    && Agree(f, rule, account, d, ApplyFills(b, f.session, fills).value)
    && Dated(ApplyFills(b, f.session, fills).value, sessions, f.session)
    && (rule.China? ==> SellsSettled(b, f.session, fills))
  }

  lemma {:induction false} OneMoreBooking(f: Frame, rule: Rule, bps: real, account: Id, before: Drained, p: Pending,
                       b: Book, sessions: seq<Date>)
    requires ValidRule(rule) && ValidFrame(f) && ValidPending(p) && bps >= 0.0 && Covers(before.cash, f, p)
    requires Ends(f, p) && p.intent.account == account && f.session in sessions && Sound(b)
    requires SellableTracks(f, rule, before, account, p.intent.symbol)
    requires BooksAgree(f, rule, account, before, b, sessions)
    ensures BooksAgree(f, rule, account, DrainOne(f, rule, bps, before, p), b, sessions)
  {
    var fills := Bookings(f.session, before.fills);
    var mid := ApplyFills(b, f.session, fills).value;
    OneOrderAgrees(f, rule, bps, account, before, p, mid, sessions);
    var after := DrainOne(f, rule, bps, before, p);
    var r := after.fills[|before.fills|];
    assert after.fills[..|after.fills| - 1] == before.fills;
    if r.status == FILLED {
      var x := BookingOf(f.session, r);
      assert Bookings(f.session, after.fills) == fills + [x];
      ApplyFillsAppend(b, f.session, fills, x);
      if rule.China? {
        SellsSettledAppend(b, f.session, fills, x);
      }
    } else {
      assert Bookings(f.session, after.fills) == fills;
    }
  }

  /**
    The two books agree: whatever the queue, the filled results are a batch the ledger
    can book, its cash is then the simulator's running cash, and on the China market
    every share sold was acquired in an earlier session.
   */
  lemma {:induction false} DrainAgrees(f: Frame, rule: Rule, bps: real, account: Id, pending: seq<Pending>,
                                       b: Book, sessions: seq<Date>)
    requires Ready(f, rule, bps, pending) && Sound(b) && Supported(b.cash)
    requires forall i :: 0 <= i < |pending| ==> Ends(f, pending[i]) && pending[i].intent.account == account
    requires f.cash.Some? && account in f.cash.value && f.cash.value[account] == b.cash
    requires LotsFor(f, account) == OpenLots(b) && Dated(b, sessions, f.session) && f.session in sessions
    requires rule.China? ==> rule.calendar.sessions == sessions
    ensures BooksAgree(f, rule, account, Drain(f, rule, bps, pending), b, sessions)
  {
    if pending == [] {
      forall s ensures FreeCovers(f, rule, account, [], s, LotsOf(b, s)) {
        SellableIsFree(rule, s, f.session, b, sessions, f.session);
      }
    } else {
      var front, p := pending[..|pending| - 1], pending[|pending| - 1];
      assert Covers(f.cash, f, p);
      DrainAgrees(f, rule, bps, account, front, b, sessions);
      OpenLotsArePositive(b);
      SellsStayWithinSellable(f, rule, bps, front, account, p.intent.symbol);
      OneMoreBooking(f, rule, bps, account, Drain(f, rule, bps, front), p, b, sessions);
    }
  }

  lemma {:induction false} OpenLotsFromArePositive(h: Holdings, keys: seq<Symbol>)
    requires forall k :: k in keys ==> k in h && Positive(h[k].lots)
    ensures forall i :: 0 <= i < |OpenLotsFrom(h, keys)| ==> OpenLotsFrom(h, keys)[i].lot.quantity > 0.0
  {
    if keys == [] {
    } else {
      var k := keys[0];
      assert k in keys;
      OpenLotsFromArePositive(h, keys[1..]);
    }
  }

  lemma {:induction false} OpenLotsArePositive(b: Book)
    requires Sound(b)
    ensures forall i :: 0 <= i < |OpenLots(b)| ==> OpenLots(b)[i].lot.quantity > 0.0
  {
    OpenLotsFromArePositive(b.holdings, Sorted(b.holdings.Keys));
  }
}
