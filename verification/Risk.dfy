/**
  The risk engine: every intent of a batch is judged against the portfolio and against
  what the batch has already reserved. Divisions round in the safe direction; the model
  holds for every such rounding. (src/stock_agent/risk/engine.py.)
 */
module Risk {
  import opened Common
  import opened Book

  type Sector = int

  datatype Intent = Intent(symbol: Symbol, market: Market, side: Side, target: real)

  datatype Portfolio = Portfolio(market: Market, cash: real, nav: real, peak: real, positions: seq<Position>)

  datatype Context = Context(portfolio: Portfolio, sectors: map<Symbol, Sector>, dayStartCash: real, committed: real)

  datatype Rule =
    | MarketMismatch
    | ZeroNavBuyBlock
    | DrawdownBuyBlock15
    | DrawdownReduction20
    | MissingMetadata
    | HoldingCountMax10
    | SingleStockMax15
    | SectorMax30
    | DailyNewPositionCashMax30

  datatype Verdict = Approved | Clamped | Refused

  datatype Decision = Decision(intent: Intent, verdict: Verdict, target: Option<real>, rules: seq<Rule>, reduction: bool)

  /** How one intent's divisions round: never up when capping, never down when weighing. */
  datatype Rounding = Rounding(down: (real, real) -> real, up: (real, real) -> real)

  ghost predicate Directed(r: Rounding) {
    && (forall n: real, d: real :: n >= 0.0 && d > 0.0 ==> 0.0 <= r.down(n, d) && r.down(n, d) * d <= n)
    && (forall n: real, d: real :: n >= 0.0 && d > 0.0 ==> n <= r.up(n, d) * d)
  }

  const STOCK_LIMIT := 0.15
  const SECTOR_LIMIT := 0.30
  const DAILY_CASH_LIMIT := 0.30
  const MAX_HOLDINGS := 10

  function SymbolSet(positions: seq<Position>): set<Symbol> {
    set i | 0 <= i < |positions| :: positions[i].symbol
  }

  function TotalValue(positions: seq<Position>): real {
    if positions == [] then 0.0
    else TotalValue(positions[..|positions| - 1]) + positions[|positions| - 1].marketValue
  }

  ghost predicate ValidPortfolio(p: Portfolio) {
    && p.cash >= 0.0 && p.nav == p.cash + TotalValue(p.positions) && p.nav <= p.peak
    && (forall i :: 0 <= i < |p.positions| ==>
          p.positions[i].quantity > 0.0 && p.positions[i].marketValue >= 0.0)
    && forall i, j :: 0 <= i < j < |p.positions| ==> p.positions[i].symbol != p.positions[j].symbol
  }

  ghost predicate ValidContext(c: Context) {
    ValidPortfolio(c.portfolio) && c.dayStartCash >= 0.0 && c.committed >= 0.0
  }

  ghost predicate ValidIntent(i: Intent) {
    0.0 <= i.target <= 1.0 && (i.side == Sell ==> i.target == 0.0)
  }

  // ---- drawdown ----

  predicate AtFifteen(p: Portfolio) {
    p.peak != 0.0 && (p.peak - p.nav) * 20.0 >= p.peak * 3.0
  }

  predicate AtTwenty(p: Portfolio) {
    p.peak != 0.0 && (p.peak - p.nav) * 5.0 >= p.peak
  }

  // ---- exposure of one buy ----

  /** Market value of the positions of `sector` outside `skip`. */
  function SectorValue(positions: seq<Position>, sectors: map<Symbol, Sector>, sector: Sector, skip: set<Symbol>): real {
    if positions == [] then 0.0
    else
      var p := positions[|positions| - 1];
      SectorValue(positions[..|positions| - 1], sectors, sector, skip) +
      if p.symbol !in skip && p.symbol in sectors && sectors[p.symbol] == sector then p.marketValue else 0.0
  }

  /** Weight reserved in `sector` by the symbols of `keys`. */
  function ReservedWeight(reserved: map<Symbol, real>, sectors: map<Symbol, Sector>, sector: Sector,
                          keys: set<Symbol>): real
    requires keys <= reserved.Keys
    decreases |keys|
  {
    if keys == {} then 0.0
    else
      var k := Least(keys);
      ReservedWeight(reserved, sectors, sector, keys - {k}) +
      if k in sectors && sectors[k] == sector then reserved[k] else 0.0
  }

  function SectorRoom(i: Intent, c: Context, reserved: map<Symbol, real>, r: Rounding): real
    requires i.symbol in c.sectors
  {
    var sector := c.sectors[i.symbol];
    var value := SectorValue(c.portfolio.positions, c.sectors, sector, reserved.Keys + {i.symbol});
    var held := if value == 0.0 then 0.0 else r.up(value, c.portfolio.nav);
    SECTOR_LIMIT - (held + ReservedWeight(reserved, c.sectors, sector, reserved.Keys - {i.symbol}))
  }

  function Max(x: real, y: real): real { if x < y then y else x }

  /** What is left today for positions not held at the start of the batch. */
  function NewPositionRoom(c: Context, committed: real): real {
    Max(0.0, c.dayStartCash * DAILY_CASH_LIMIT - committed)
  }

  function RatioDown(n: real, d: real, r: Rounding): real {
    if n <= 0.0 then 0.0 else r.down(n, d)
  }

  function Notional(weight: real, nav: real): real { weight * nav }

  /** The three caps in the order the engine applies them, with the rules that bound. */
  function CapStock(target: real): (real, seq<Rule>) {
    if target > STOCK_LIMIT then (STOCK_LIMIT, [SingleStockMax15]) else (target, [])
  }

  function CapSector(target: real, room: real): (real, seq<Rule>) {
    if room < target then (Max(0.0, room), [SectorMax30]) else (target, [])
  }

  function CapDaily(target: real, isNew: bool, room: real, nav: real, r: Rounding): (real, seq<Rule>) {
    if isNew && room < Notional(target, nav) then (RatioDown(room, nav, r), [DailyNewPositionCashMax30]) else (target, [])
  }

  function Caps(target: real, sectorRoom: real, isNew: bool, room: real, nav: real, r: Rounding): (real, seq<Rule>) {
    var (stock, stockRules) := CapStock(target);
    var (sector, sectorRules) := CapSector(stock, sectorRoom);
    var (daily, dailyRules) := CapDaily(sector, isNew, room, nav, r);
    (daily, stockRules + sectorRules + dailyRules)
  }

  function EvaluateBuy(i: Intent, c: Context, reserved: map<Symbol, real>, committed: real, r: Rounding): (d: Decision)
    ensures d.intent == i
  {
    var held := SymbolSet(c.portfolio.positions);
    if !(held + {i.symbol} <= c.sectors.Keys) then Decision(i, Refused, None, [MissingMetadata], false)
    else if i.symbol !in held + reserved.Keys && |held + reserved.Keys| >= MAX_HOLDINGS then
      Decision(i, Refused, None, [HoldingCountMax10], false)
    else
      var (daily, rules) := Caps(i.target, SectorRoom(i, c, reserved, r), i.symbol !in held,
                                 NewPositionRoom(c, committed), c.portfolio.nav, r);
      if daily == 0.0 then Decision(i, Refused, None, rules, false)
      else Decision(i, if rules == [] then Approved else Clamped, Some(daily), rules, false)
  }

  function Evaluate(i: Intent, c: Context, reserved: map<Symbol, real>, committed: real, r: Rounding): (d: Decision)
    ensures d.intent == i
  {
    var p := c.portfolio;
    var reduction := AtTwenty(p);
    var rules := if reduction then [DrawdownReduction20] else [];
    if i.market != p.market then Decision(i, Refused, None, [MarketMismatch], false)
    else if i.side == Buy && AtFifteen(p) then Decision(i, Refused, None, rules + [DrawdownBuyBlock15], reduction)
    else if i.side == Buy && p.nav == 0.0 then Decision(i, Refused, None, [ZeroNavBuyBlock], false)
    else if i.side == Buy then EvaluateBuy(i, c, reserved, committed, r)
    else Decision(i, Approved, Some(i.target), rules, reduction)
  }

  // ---- the batch ----

  datatype Batch = Batch(decisions: seq<Decision>, reserved: map<Symbol, real>, committed: real)

  predicate Reserves(d: Decision) {
    d.intent.side == Buy && d.verdict != Refused && d.target.Some? && d.target.value > 0.0
  }

  function Extend(b: Batch, d: Decision, c: Context): Batch {
    if !Reserves(d) then b.(decisions := b.decisions + [d])
    else
      Batch(b.decisions + [d], b.reserved[d.intent.symbol := d.target.value],
            if d.intent.symbol in SymbolSet(c.portfolio.positions) then b.committed
            else b.committed + Notional(d.target.value, c.portfolio.nav))
  }

  function EvaluateMany(intents: seq<Intent>, c: Context, roundings: seq<Rounding>): (b: Batch)
    requires |intents| == |roundings|
    ensures |b.decisions| == |intents|
  {
    if intents == [] then Batch([], map[], c.committed)
    else
      var n := |intents| - 1;
      var before := EvaluateMany(intents[..n], c, roundings[..n]);
      Extend(before, Evaluate(intents[n], c, before.reserved, before.committed, roundings[n]), c)
  }

  method EvaluateBatch(intents: seq<Intent>, c: Context, roundings: seq<Rounding>) returns (r: Option<Batch>)
    requires |intents| == |roundings|
    ensures r.Some? <==> forall i, j :: 0 <= i < j < |intents| ==> intents[i].symbol != intents[j].symbol
    ensures r.Some? ==> r.value == EvaluateMany(intents, c, roundings)
  {
    if !(forall i, j :: 0 <= i < j < |intents| ==> intents[i].symbol != intents[j].symbol) {
      return None;
    }
    var b := Batch([], map[], c.committed);
    for n := 0 to |intents|
      invariant b == EvaluateMany(intents[..n], c, roundings[..n])
    {
      assert intents[..n + 1][..n] == intents[..n] && roundings[..n + 1][..n] == roundings[..n];
      b := Extend(b, Evaluate(intents[n], c, b.reserved, b.committed, roundings[n]), c);
    }
    assert intents[..|intents|] == intents && roundings[..|intents|] == roundings;
    r := Some(b);
  }

  // ---- what every batch keeps ----

  /** Weight of a sector once the batch's targets replace the current weights of their symbols. */
  function ProjectedWeight(c: Context, reserved: map<Symbol, real>, sector: Sector): real
    requires c.portfolio.nav != 0.0
  {
    ReservedWeight(reserved, c.sectors, sector, reserved.Keys)
    + SectorValue(c.portfolio.positions, c.sectors, sector, reserved.Keys) / c.portfolio.nav
  }

  ghost predicate SectorReserved(c: Context, reserved: map<Symbol, real>, sector: Sector) {
    exists k :: k in reserved && k in c.sectors && c.sectors[k] == sector
  }

  ghost predicate SectorsWithinLimit(c: Context, reserved: map<Symbol, real>) {
    reserved != map[] ==>
      && c.portfolio.nav > 0.0
      && forall sector :: SectorReserved(c, reserved, sector) ==> ProjectedWeight(c, reserved, sector) <= SECTOR_LIMIT
  }

  /** The holdings the account would have if every reserved target were filled. */
  function ProjectedHoldings(c: Context, reserved: map<Symbol, real>): set<Symbol> {
    SymbolSet(c.portfolio.positions) + reserved.Keys
  }

  ghost predicate WithinLimits(c: Context, b: Batch) {
    LimitsHold(c, b.reserved, b.committed)
  }

  ghost predicate LimitsHold(c: Context, reserved: map<Symbol, real>, committed: real) {
    && reserved.Keys <= c.sectors.Keys
    && (forall k :: k in reserved ==> 0.0 < reserved[k] <= STOCK_LIMIT)
    && SectorsWithinLimit(c, reserved)
    && |ProjectedHoldings(c, reserved)| <= (if |SymbolSet(c.portfolio.positions)| > MAX_HOLDINGS
                                            then |SymbolSet(c.portfolio.positions)| else MAX_HOLDINGS)
    && committed <= Max(c.committed, c.dayStartCash * DAILY_CASH_LIMIT)
  }

  lemma {:induction false} SectorValueNonnegative(positions: seq<Position>, sectors: map<Symbol, Sector>,
                                                  sector: Sector, skip: set<Symbol>)
    requires forall i :: 0 <= i < |positions| ==> positions[i].marketValue >= 0.0
    ensures SectorValue(positions, sectors, sector, skip) >= 0.0
  {
    if positions == [] {
    } else {
      SectorValueNonnegative(positions[..|positions| - 1], sectors, sector, skip);
    }
  }

  /** Skipping a symbol of another sector changes nothing. */
  lemma {:induction false} SkipOtherSector(positions: seq<Position>, sectors: map<Symbol, Sector>, sector: Sector,
                                           skip: set<Symbol>, x: Symbol)
    requires x in sectors && sectors[x] != sector
    ensures SectorValue(positions, sectors, sector, skip + {x}) == SectorValue(positions, sectors, sector, skip)
  {
    if positions == [] {
    } else {
      SkipOtherSector(positions[..|positions| - 1], sectors, sector, skip, x);
    }
  }

  function Contribution(reserved: map<Symbol, real>, sectors: map<Symbol, Sector>, sector: Sector, k: Symbol): real
    requires k in reserved
  {
    if k in sectors && sectors[k] == sector then reserved[k] else 0.0
  }

  lemma {:induction false} ReservedPick(reserved: map<Symbol, real>, sectors: map<Symbol, Sector>, sector: Sector,
                                        keys: set<Symbol>, k: Symbol)
    requires keys <= reserved.Keys && k in keys
    ensures ReservedWeight(reserved, sectors, sector, keys) ==
            ReservedWeight(reserved, sectors, sector, keys - {k}) + Contribution(reserved, sectors, sector, k)
    decreases |keys|
  {
    var m := Least(keys);
    if m != k {
      ReservedPick(reserved, sectors, sector, keys - {m}, k);
      ReservedPick(reserved, sectors, sector, keys - {k}, m);
      assert keys - {m} - {k} == keys - {k} - {m};
    }
  }

  lemma {:induction false} ReservedAgrees(a: map<Symbol, real>, b: map<Symbol, real>, sectors: map<Symbol, Sector>,
                                          sector: Sector, keys: set<Symbol>)
    requires keys <= a.Keys && keys <= b.Keys && forall k :: k in keys ==> a[k] == b[k]
    ensures ReservedWeight(a, sectors, sector, keys) == ReservedWeight(b, sectors, sector, keys)
    decreases |keys|
  {
    if keys != {} {
      ReservedAgrees(a, b, sectors, sector, keys - {Least(keys)});
    }
  }

  /** Reserving a target adds it to its own sector, in place of what it reserved before. */
  lemma {:induction false} ReservedInsert(reserved: map<Symbol, real>, sectors: map<Symbol, Sector>, sector: Sector,
                                          x: Symbol, w: real)
    ensures var more := reserved[x := w];
            ReservedWeight(more, sectors, sector, more.Keys) ==
            ReservedWeight(reserved, sectors, sector, reserved.Keys - {x}) + Contribution(more, sectors, sector, x)
  {
    var more := reserved[x := w];
    ReservedPick(more, sectors, sector, more.Keys, x);
    assert more.Keys - {x} == reserved.Keys - {x};
    ReservedAgrees(more, reserved, sectors, sector, reserved.Keys - {x});
  }

  /** What a positive capped target respects. */
  lemma {:induction false} CapsFit(target: real, sectorRoom: real, isNew: bool, room: real, nav: real, r: Rounding)
    requires room >= 0.0 && nav > 0.0 && target >= 0.0 && Directed(r)
    ensures var t := Caps(target, sectorRoom, isNew, room, nav, r).0;
            && 0.0 <= t <= target && t <= STOCK_LIMIT && t <= Max(0.0, sectorRoom)
            && (isNew ==> Notional(t, nav) <= room)
  {
    var sector := CapSector(CapStock(target).0, sectorRoom).0;
    if isNew && room < sector * nav {
      var t := RatioDown(room, nav, r);
      RatioFits(room, nav, r);
      RatioBelow(t, sector, room, nav);
    }
  }

  /** An approved buy fits every cap, whichever way its divisions rounded. */
  lemma {:induction false} ApprovedBuyFits(i: Intent, c: Context, reserved: map<Symbol, real>, committed: real, r: Rounding)
    requires ValidIntent(i) && Directed(r) && c.portfolio.nav > 0.0
    requires EvaluateBuy(i, c, reserved, committed, r).target.Some?
    ensures var t := EvaluateBuy(i, c, reserved, committed, r).target.value;
            && i.symbol in c.sectors && 0.0 < t <= i.target && t <= STOCK_LIMIT
            && t <= SectorRoom(i, c, reserved, r)
            && (i.symbol !in SymbolSet(c.portfolio.positions) ==> Notional(t, c.portfolio.nav) <= NewPositionRoom(c, committed))
  {
    assert i.symbol in SymbolSet(c.portfolio.positions) + {i.symbol};
    var isNew, nav := i.symbol !in SymbolSet(c.portfolio.positions), c.portfolio.nav;
    var sectorRoom, room := SectorRoom(i, c, reserved, r), NewPositionRoom(c, committed);
    var t := Caps(i.target, sectorRoom, isNew, room, nav, r).0;
    CapsFit(i.target, sectorRoom, isNew, room, nav, r);
    assert EvaluateBuy(i, c, reserved, committed, r).target == Some(t);
  }

  lemma {:induction false} RatioFits(n: real, d: real, r: Rounding)
    requires n >= 0.0 && d > 0.0 && Directed(r)
    ensures 0.0 <= RatioDown(n, d, r) && RatioDown(n, d, r) * d <= n
  {
    if n > 0.0 {
      assert 0.0 <= r.down(n, d) && r.down(n, d) * d <= n;
    }
  }

  lemma {:induction false} RatioBelow(q: real, t: real, n: real, d: real)
    requires d > 0.0 && q * d <= n < t * d
    ensures q < t
  {
    assert (t - q) * d > 0.0;
  }

  /** The sector of an approved buy stays within its limit, exactly valued. */
  lemma {:induction false} OwnSectorFits(i: Intent, c: Context, reserved: map<Symbol, real>, r: Rounding, t: real)
    requires ValidContext(c) && Directed(r) && c.portfolio.nav > 0.0 && i.symbol in c.sectors
    requires t <= SectorRoom(i, c, reserved, r)
    ensures ProjectedWeight(c, reserved[i.symbol := t], c.sectors[i.symbol]) <= SECTOR_LIMIT
  {
    var sector, nav := c.sectors[i.symbol], c.portfolio.nav;
    var more := reserved[i.symbol := t];
    assert more.Keys == reserved.Keys + {i.symbol};
    var value := SectorValue(c.portfolio.positions, c.sectors, sector, more.Keys);
    SectorValueNonnegative(c.portfolio.positions, c.sectors, sector, more.Keys);
    ReservedInsert(reserved, c.sectors, sector, i.symbol, t);
    var up := if value == 0.0 then 0.0 else r.up(value, nav);
    assert value <= up * nav;
    QuotientBound(value, up, nav);
  }

  lemma {:induction false} QuotientBound(n: real, q: real, d: real)
    requires d > 0.0 && n <= q * d
    ensures n / d <= q
  {
    assert (n / d) * d == n;
    assert (q - n / d) * d >= 0.0;
  }

  lemma {:induction false} OtherSectorsUnmoved(c: Context, reserved: map<Symbol, real>, x: Symbol, t: real, sector: Sector)
    requires c.portfolio.nav != 0.0 && x !in reserved && x in c.sectors && c.sectors[x] != sector
    ensures ProjectedWeight(c, reserved[x := t], sector) == ProjectedWeight(c, reserved, sector)
    ensures SectorReserved(c, reserved[x := t], sector) <==> SectorReserved(c, reserved, sector)
  {
    var more := reserved[x := t];
    ReservedInsert(reserved, c.sectors, sector, x, t);
    assert reserved.Keys - {x} == reserved.Keys && more.Keys == reserved.Keys + {x};
    SkipOtherSector(c.portfolio.positions, c.sectors, sector, reserved.Keys, x);
    if SectorReserved(c, reserved, sector) {
      var k :| k in reserved && k in c.sectors && c.sectors[k] == sector;
      assert k in more;
    }
    if SectorReserved(c, more, sector) {
      var k :| k in more && k in c.sectors && c.sectors[k] == sector;
      assert k in reserved;
    }
  }

  lemma {:induction false} ReserveKeepsSectors(i: Intent, c: Context, reserved: map<Symbol, real>, r: Rounding, t: real)
    requires ValidContext(c) && Directed(r) && c.portfolio.nav > 0.0 && i.symbol in c.sectors && i.symbol !in reserved
    requires t <= SectorRoom(i, c, reserved, r) && SectorsWithinLimit(c, reserved)
    ensures SectorsWithinLimit(c, reserved[i.symbol := t])
  {
    var more := reserved[i.symbol := t];
    OwnSectorFits(i, c, reserved, r, t);
    forall sector | SectorReserved(c, more, sector) ensures ProjectedWeight(c, more, sector) <= SECTOR_LIMIT {
      if sector != c.sectors[i.symbol] {
        OtherSectorsUnmoved(c, reserved, i.symbol, t, sector);
        var k :| k in reserved && k in c.sectors && c.sectors[k] == sector;
      }
    }
  }

  /** Reserving a weight that fits the caps keeps the limits. */
  lemma {:induction false} ReservingKeepsLimits(x: Symbol, c: Context, b: Batch, t: real, notional: real)
    requires WithinLimits(c, b) && x in c.sectors && 0.0 < t <= STOCK_LIMIT
    requires SectorsWithinLimit(c, b.reserved[x := t])
    requires x in ProjectedHoldings(c, b.reserved) || |ProjectedHoldings(c, b.reserved)| < MAX_HOLDINGS
    requires notional == 0.0 || notional <= NewPositionRoom(c, b.committed)
    ensures WithinLimits(c, Batch(b.decisions, b.reserved[x := t], b.committed + notional))
  {
    HoldingsGrow(x, c, b, t);
  }

  /** What the engine has checked of a buy that reserves a weight. */
  lemma {:induction false} ReservedBuyPassed(i: Intent, c: Context, reserved: map<Symbol, real>, committed: real, r: Rounding)
    requires ValidContext(c) && Reserves(Evaluate(i, c, reserved, committed, r))
    ensures c.portfolio.nav > 0.0
    ensures Evaluate(i, c, reserved, committed, r) == EvaluateBuy(i, c, reserved, committed, r)
    ensures i.symbol in ProjectedHoldings(c, reserved) || |ProjectedHoldings(c, reserved)| < MAX_HOLDINGS
  {
    TotalValueNonnegative(c.portfolio.positions);
  }

  lemma {:induction false} LimitsGiveSectors(c: Context, b: Batch)
    requires WithinLimits(c, b)
    ensures SectorsWithinLimit(c, b.reserved)
  {}

  lemma {:induction false} OneIntentKeepsLimits(i: Intent, c: Context, b: Batch, r: Rounding)
    requires ValidContext(c) && ValidIntent(i) && Directed(r) && WithinLimits(c, b) && i.symbol !in b.reserved
    ensures WithinLimits(c, Extend(b, Evaluate(i, c, b.reserved, b.committed, r), c))
  {
    hide Evaluate, EvaluateBuy, LimitsHold, SectorsWithinLimit, SectorRoom, Directed, NewPositionRoom, ProjectedHoldings;
    var d := Evaluate(i, c, b.reserved, b.committed, r);
    if Reserves(d) {
      ReservedBuyPassed(i, c, b.reserved, b.committed, r);
      ApprovedBuyFits(i, c, b.reserved, b.committed, r);
      var t := d.target.value;
      LimitsGiveSectors(c, b);
      ReserveKeepsSectors(i, c, b.reserved, r, t);
      var notional := if i.symbol in SymbolSet(c.portfolio.positions) then 0.0 else Notional(t, c.portfolio.nav);
      ReservingKeepsLimits(i.symbol, c, b, t, notional);
      assert Extend(b, d, c) == Batch(b.decisions + [d], b.reserved[i.symbol := t], b.committed + notional);
    }
  }

  lemma {:induction false} TotalValueNonnegative(positions: seq<Position>)
    requires forall i :: 0 <= i < |positions| ==> positions[i].marketValue >= 0.0
    ensures TotalValue(positions) >= 0.0
  {
    if positions == [] {
    } else {
      TotalValueNonnegative(positions[..|positions| - 1]);
    }
  }

  lemma {:induction false} HoldingsGrow(x: Symbol, c: Context, b: Batch, t: real)
    requires x in ProjectedHoldings(c, b.reserved) || |ProjectedHoldings(c, b.reserved)| < MAX_HOLDINGS
    ensures var held := ProjectedHoldings(c, b.reserved);
            var more := ProjectedHoldings(c, b.reserved[x := t]);
            |more| <= |held| || |more| <= MAX_HOLDINGS
  {
    var held, more := ProjectedHoldings(c, b.reserved), ProjectedHoldings(c, b.reserved[x := t]);
    assert more == held + {x};
    if x in held {
      assert more == held;
    }
  }

  /** Each decision answers its own intent; an approved buy never exceeds its request or the stock limit. */
  ghost predicate DecisionFits(i: Intent, d: Decision) {
    && d.intent == i
    && (d.target.Some? <==> d.verdict != Refused)
    && (i.side == Buy && d.target.Some? ==> 0.0 < d.target.value <= i.target && d.target.value <= STOCK_LIMIT)
    && (i.side != Buy && d.target.Some? ==> d.target.value == i.target)
  }

  /** `reserved` holds exactly the approved buys of the decisions. */
  ghost predicate ReservesExactly(decisions: seq<Decision>, reserved: map<Symbol, real>) {
    && (forall n :: 0 <= n < |decisions| && Reserves(decisions[n]) ==>
          decisions[n].intent.symbol in reserved
          && reserved[decisions[n].intent.symbol] == decisions[n].target.value)
    && forall k :: k in reserved ==> ReservedBy(decisions, k)
  }

  ghost predicate ReservedBy(decisions: seq<Decision>, k: Symbol) {
    exists n :: 0 <= n < |decisions| && Reserves(decisions[n]) && decisions[n].intent.symbol == k
  }

  /** Notional of the approved buys in symbols not held at the start. */
  function NewNotional(decisions: seq<Decision>, c: Context): real {
    if decisions == [] then 0.0
    else
      var d := decisions[|decisions| - 1];
      NewNotional(decisions[..|decisions| - 1], c) +
      if Reserves(d) && d.intent.symbol !in SymbolSet(c.portfolio.positions) then Notional(d.target.value, c.portfolio.nav) else 0.0
  }

  ghost predicate DistinctSymbols(intents: seq<Intent>) {
    forall i, j :: 0 <= i < j < |intents| ==> intents[i].symbol != intents[j].symbol
  }

  lemma {:induction false} OneDecisionFits(i: Intent, c: Context, b: Batch, r: Rounding)
    requires ValidContext(c) && ValidIntent(i) && Directed(r)
    ensures DecisionFits(i, Evaluate(i, c, b.reserved, b.committed, r))
  {
    hide SectorRoom, NewPositionRoom, Caps, Directed, AtTwenty, AtFifteen, SymbolSet;
    var d := Evaluate(i, c, b.reserved, b.committed, r);
    if i.side == Buy && d.target.Some? {
      TotalValueNonnegative(c.portfolio.positions);
      ApprovedBuyFits(i, c, b.reserved, b.committed, r);
    }
  }

  lemma {:induction false} ExtendReservesExactly(b: Batch, d: Decision, c: Context)
    requires ReservesExactly(b.decisions, b.reserved) && !ReservedBy(b.decisions, d.intent.symbol)
    requires b.committed == c.committed + NewNotional(b.decisions, c)
    ensures var after := Extend(b, d, c);
            && ReservesExactly(after.decisions, after.reserved)
            && after.committed == c.committed + NewNotional(after.decisions, c)
            && after.decisions == b.decisions + [d]
  {
    var after := Extend(b, d, c);
    assert after.decisions == b.decisions + [d];
    assert after.decisions[..|b.decisions|] == b.decisions;
    forall k | k in after.reserved ensures ReservedBy(after.decisions, k) {
      if k in b.reserved && !(Reserves(d) && k == d.intent.symbol) {
        assert ReservedBy(b.decisions, k);
        var n :| 0 <= n < |b.decisions| && Reserves(b.decisions[n]) && b.decisions[n].intent.symbol == k;
        assert after.decisions[n] == b.decisions[n];
      } else {
        assert after.decisions[|b.decisions|] == d;
      }
    }
    forall n | 0 <= n < |b.decisions| && Reserves(b.decisions[n])
      ensures b.decisions[n].intent.symbol != d.intent.symbol
    {
      assert ReservedBy(b.decisions, b.decisions[n].intent.symbol);
    }
  }

  /** Each intent gets its own decision. */
  lemma {:induction false} EveryDecisionFits(intents: seq<Intent>, c: Context, roundings: seq<Rounding>)
    requires ValidContext(c) && |intents| == |roundings|
    requires forall n :: 0 <= n < |intents| ==> ValidIntent(intents[n]) && Directed(roundings[n])
    ensures forall n :: 0 <= n < |intents| ==> DecisionFits(intents[n], EvaluateMany(intents, c, roundings).decisions[n])
  {
    if intents == [] {
    } else {
      var n := |intents| - 1;
      EveryDecisionFits(intents[..n], c, roundings[..n]);
      var before := EvaluateMany(intents[..n], c, roundings[..n]);
      OneDecisionFits(intents[n], c, before, roundings[n]);
    }
  }

  lemma {:induction false} LastNotReserved(intents: seq<Intent>, decisions: seq<Decision>)
    requires |intents| == |decisions| + 1 && DistinctSymbols(intents)
    requires forall n :: 0 <= n < |decisions| ==> decisions[n].intent == intents[n]
    ensures !ReservedBy(decisions, intents[|decisions|].symbol)
  {}

  /** The running totals are exactly those of the decisions made. */
  lemma {:induction false} TotalsFollowDecisions(intents: seq<Intent>, c: Context, roundings: seq<Rounding>)
    requires |intents| == |roundings| && DistinctSymbols(intents)
    ensures var b := EvaluateMany(intents, c, roundings);
            && ReservesExactly(b.decisions, b.reserved)
            && b.committed == c.committed + NewNotional(b.decisions, c)
            && forall n :: 0 <= n < |intents| ==> b.decisions[n].intent == intents[n]
  {
    hide Evaluate, Extend, ReservesExactly, ReservedBy, NewNotional;
    if intents == [] {
      NothingDecided(c);
    } else {
      var n := |intents| - 1;
      TotalsFollowDecisions(intents[..n], c, roundings[..n]);
      var before := EvaluateMany(intents[..n], c, roundings[..n]);
      assert forall k :: 0 <= k < n ==> intents[..n][k] == intents[k];
      LastNotReserved(intents, before.decisions);
      ExtendReservesExactly(before, Evaluate(intents[n], c, before.reserved, before.committed, roundings[n]), c);
    }
  }

  lemma {:induction false} NothingDecided(c: Context)
    ensures ReservesExactly([], map[]) && NewNotional([], c) == 0.0
  {}

  /**
    The batch invariant: on any intents, under any safe rounding, approved buys keep
    every stock, sector, holding-count and daily cash limit together.
   */
  lemma {:induction false} BatchKeepsLimits(intents: seq<Intent>, c: Context, roundings: seq<Rounding>)
    requires ValidContext(c) && |intents| == |roundings| && DistinctSymbols(intents)
    requires forall n :: 0 <= n < |intents| ==> ValidIntent(intents[n]) && Directed(roundings[n])
    ensures WithinLimits(c, EvaluateMany(intents, c, roundings))
  {
    hide LimitsHold, Evaluate, Directed, ValidContext;
    if intents == [] {
      EmptyBatchKeepsLimits(c);
    } else {
      var n := |intents| - 1;
      BatchKeepsLimits(intents[..n], c, roundings[..n]);
      TotalsFollowDecisions(intents[..n], c, roundings[..n]);
      var before := EvaluateMany(intents[..n], c, roundings[..n]);
      assert forall k :: 0 <= k < n ==> intents[..n][k] == intents[k];
      LastNotReserved(intents, before.decisions);
      OneIntentKeepsLimits(intents[n], c, before, roundings[n]);
    }
  }

  lemma {:induction false} EmptyBatchKeepsLimits(c: Context)
    ensures WithinLimits(c, Batch([], map[], c.committed))
  {
    var none: map<Symbol, real> := map[];
    assert ProjectedHoldings(c, none) == SymbolSet(c.portfolio.positions);
  }

  // ---- nothing is cut that fits ----

  function Min(x: real, y: real): real { if x < y then x else y }

  /** The capped target is the least of request, stock limit and sector room, unless the cash of the day binds. */
  lemma {:induction false} CapsAreTight(target: real, sectorRoom: real, isNew: bool, room: real, nav: real, r: Rounding)
    requires room >= 0.0 && nav > 0.0 && target >= 0.0 && Directed(r)
    ensures var least := Min(Min(target, STOCK_LIMIT), Max(0.0, sectorRoom));
            Caps(target, sectorRoom, isNew, room, nav, r).0 ==
            if isNew && room < Notional(least, nav) then RatioDown(room, nav, r) else least
    ensures Caps(target, sectorRoom, isNew, room, nav, r).1 == [] <==>
            target <= STOCK_LIMIT && target <= sectorRoom && (isNew ==> Notional(target, nav) <= room)
  {
    hide Directed, Notional;
  }

  /** What a buy must meet to be approved as requested. */
  ghost predicate Fits(i: Intent, c: Context, reserved: map<Symbol, real>, committed: real, r: Rounding) {
    var p := c.portfolio;
    var held := SymbolSet(p.positions);
    && i.market == p.market && !AtFifteen(p) && p.nav != 0.0
    && held + {i.symbol} <= c.sectors.Keys
    && (i.symbol in held + reserved.Keys || |held + reserved.Keys| < MAX_HOLDINGS)
    && 0.0 < i.target <= STOCK_LIMIT
    && i.symbol in c.sectors && i.target <= SectorRoom(i, c, reserved, r)
    && (i.symbol !in held ==> Notional(i.target, p.nav) <= NewPositionRoom(c, committed))
  }

  /** A buy is approved exactly as requested when, and only when, it fits every limit. */
  lemma {:induction false} ApprovedIffFits(i: Intent, c: Context, reserved: map<Symbol, real>, committed: real, r: Rounding)
    requires ValidContext(c) && ValidIntent(i) && Directed(r) && i.side == Buy
    ensures Evaluate(i, c, reserved, committed, r) == Decision(i, Approved, Some(i.target), [], false) <==>
            Fits(i, c, reserved, committed, r)
    ensures Evaluate(i, c, reserved, committed, r).verdict == Approved <==> Fits(i, c, reserved, committed, r)
  {
    hide Directed, Notional, SectorRoom, NewPositionRoom, Caps, SymbolSet, AtTwenty, AtFifteen, TotalValue;
    var p := c.portfolio;
    var held := SymbolSet(p.positions);
    assert i.symbol in held + {i.symbol};
    TotalValueNonnegative(p.positions);
    if p.nav != 0.0 && held + {i.symbol} <= c.sectors.Keys {
      RoomNonnegative(c, committed);
      var sectorRoom, room := SectorRoom(i, c, reserved, r), NewPositionRoom(c, committed);
      CapsAreTight(i.target, sectorRoom, i.symbol !in held, room, p.nav, r);
    }
  }

  lemma {:induction false} RoomNonnegative(c: Context, committed: real)
    ensures NewPositionRoom(c, committed) >= 0.0
  {}

  // ---- exactly what is decided ----

  /** The two drawdown thresholds are fifteen and twenty percent of the peak. */
  lemma {:induction false} DrawdownThresholds(p: Portfolio)
    requires p.peak >= 0.0
    ensures AtFifteen(p) <==> p.peak > 0.0 && (p.peak - p.nav) / p.peak >= 0.15
    ensures AtTwenty(p) <==> p.peak > 0.0 && (p.peak - p.nav) / p.peak >= 0.20
  {
    if p.peak > 0.0 {
      Threshold(p.peak - p.nav, p.peak, 0.15);
      Threshold(p.peak - p.nav, p.peak, 0.20);
    }
  }

  lemma {:induction false} Threshold(loss: real, peak: real, limit: real)
    requires peak > 0.0
    ensures loss / peak >= limit <==> loss >= limit * peak
  {
    var ratio := loss / peak;
    assert ratio * peak == loss;
    Scales(ratio, limit, peak);
  }

  lemma {:induction false} Scales(x: real, y: real, d: real)
    requires d > 0.0
    ensures x >= y <==> x * d >= y * d
  {
    assert (x - y) * d == x * d - y * d;
  }

  /** The largest target all limits leave: request, stock limit, sector room, cash of the day. */
  function Capped(i: Intent, c: Context, reserved: map<Symbol, real>, committed: real, r: Rounding): real
    requires i.symbol in c.sectors
  {
    var least := Min(Min(i.target, STOCK_LIMIT), Max(0.0, SectorRoom(i, c, reserved, r)));
    var room := NewPositionRoom(c, committed);
    if i.symbol !in SymbolSet(c.portfolio.positions) && room < Notional(least, c.portfolio.nav)
    then (if room > 0.0 then r.down(room, c.portfolio.nav) else 0.0) else least
  }

  /** A buy gets as far as the caps: market, drawdown, net value, sectors and holding count all pass. */
  predicate ReachesCaps(i: Intent, c: Context, reserved: map<Symbol, real>) {
    var held := SymbolSet(c.portfolio.positions);
    && i.side == Buy && i.market == c.portfolio.market && !AtFifteen(c.portfolio) && c.portfolio.nav != 0.0
    && held + {i.symbol} <= c.sectors.Keys
    && (i.symbol in held + reserved.Keys || |held + reserved.Keys| < MAX_HOLDINGS)
  }

  /** When each rule speaks to an intent. */
  predicate Speaks(rule: Rule, i: Intent, c: Context, reserved: map<Symbol, real>, committed: real, r: Rounding) {
    var p := c.portfolio;
    var held := SymbolSet(p.positions);
    var home := i.market == p.market;
    var open := home && i.side == Buy && !AtFifteen(p);
    match rule
    case MarketMismatch => !home
    case DrawdownReduction20 => home && AtTwenty(p)
    case DrawdownBuyBlock15 => home && i.side == Buy && AtFifteen(p)
    case ZeroNavBuyBlock => open && p.nav == 0.0
    case MissingMetadata => open && p.nav != 0.0 && !(held + {i.symbol} <= c.sectors.Keys)
    case HoldingCountMax10 =>
      && open && p.nav != 0.0 && held + {i.symbol} <= c.sectors.Keys
      && i.symbol !in held + reserved.Keys && |held + reserved.Keys| >= MAX_HOLDINGS
    case SingleStockMax15 => ReachesCaps(i, c, reserved) && i.target > STOCK_LIMIT
    case SectorMax30 =>
      ReachesCaps(i, c, reserved) && i.symbol in c.sectors && SectorRoom(i, c, reserved, r) < Min(i.target, STOCK_LIMIT)
    case DailyNewPositionCashMax30 =>
      && ReachesCaps(i, c, reserved) && i.symbol in c.sectors && i.symbol !in held
      && NewPositionRoom(c, committed) <
         Notional(Min(Min(i.target, STOCK_LIMIT), Max(0.0, SectorRoom(i, c, reserved, r))), p.nav)
  }

  /** The answer an intent must get: exactly when it is refused, at what target it is approved, and every rule that speaks. */
  ghost predicate RightDecision(i: Intent, c: Context, reserved: map<Symbol, real>, committed: real, r: Rounding, d: Decision) {
    && d.intent == i
    && (d.target.None? <==> d.verdict == Refused)
    && (forall rule :: rule in d.rules <==> Speaks(rule, i, c, reserved, committed, r))
    && (i.market == c.portfolio.market ==> d.reduction == AtTwenty(c.portfolio))
    && if i.side != Buy then
         && (d.verdict == Refused <==> i.market != c.portfolio.market)
         && (d.verdict != Refused ==> d.verdict == Approved && d.target == Some(i.target))
       else
         && (d.verdict != Refused <==>
               ReachesCaps(i, c, reserved) && i.symbol in c.sectors && Capped(i, c, reserved, committed, r) > 0.0)
         && (d.verdict != Refused ==>
               && d.target == Some(Capped(i, c, reserved, committed, r))
               && (d.verdict == Approved <==> d.target == Some(i.target)))
  }

  lemma {:induction false} OtherIntentsAreRight(i: Intent, c: Context, reserved: map<Symbol, real>, committed: real, r: Rounding)
    requires ValidContext(c) && i.side != Buy
    ensures RightDecision(i, c, reserved, committed, r, Evaluate(i, c, reserved, committed, r))
  {
    hide SectorRoom, NewPositionRoom, SymbolSet, AtTwenty, AtFifteen, TotalValue;
  }

  lemma {:induction false} TwentyIsFifteen(p: Portfolio)
    requires p.nav <= p.peak
    ensures AtTwenty(p) ==> AtFifteen(p)
  {}

  lemma {:induction false} BlockedRules(i: Intent, c: Context, reserved: map<Symbol, real>, committed: real, r: Rounding, rule: Rule)
    requires c.portfolio.nav <= c.portfolio.peak && i.side == Buy && !ReachesCaps(i, c, reserved)
    ensures rule in Evaluate(i, c, reserved, committed, r).rules <==> Speaks(rule, i, c, reserved, committed, r)
  {
    hide SectorRoom, NewPositionRoom, SymbolSet, AtTwenty, AtFifteen, Caps, Notional;
    TwentyIsFifteen(c.portfolio);
  }

  lemma {:induction false} BlockedBuysAreRight(i: Intent, c: Context, reserved: map<Symbol, real>, committed: real, r: Rounding)
    requires ValidContext(c) && i.side == Buy && !ReachesCaps(i, c, reserved)
    ensures RightDecision(i, c, reserved, committed, r, Evaluate(i, c, reserved, committed, r))
  {
    hide SectorRoom, NewPositionRoom, SymbolSet, TotalValue, Capped, Speaks, AtTwenty, AtFifteen, Caps;
    TwentyIsFifteen(c.portfolio);
    forall rule ensures rule in Evaluate(i, c, reserved, committed, r).rules <==> Speaks(rule, i, c, reserved, committed, r) {
      BlockedRules(i, c, reserved, committed, r, rule);
    }
  }

  /** The rules the caps name are those that bind. */
  lemma {:induction false} CapRules(target: real, sectorRoom: real, isNew: bool, room: real, nav: real, r: Rounding, rule: Rule)
    ensures rule in Caps(target, sectorRoom, isNew, room, nav, r).1 <==>
            || (rule == SingleStockMax15 && target > STOCK_LIMIT)
            || (rule == SectorMax30 && sectorRoom < Min(target, STOCK_LIMIT))
            || (rule == DailyNewPositionCashMax30 && isNew
                && room < Notional(CapSector(CapStock(target).0, sectorRoom).0, nav))
  {
    hide Notional, RatioDown;
  }

  lemma {:induction false} CapSectorIsLeast(target: real, sectorRoom: real)
    requires target >= 0.0
    ensures CapSector(CapStock(target).0, sectorRoom).0 == Min(Min(target, STOCK_LIMIT), Max(0.0, sectorRoom))
  {}

  lemma {:induction false} CappedRules(i: Intent, c: Context, reserved: map<Symbol, real>, committed: real, r: Rounding)
    requires ValidIntent(i) && ReachesCaps(i, c, reserved) && ValidContext(c)
    ensures forall rule :: rule in Evaluate(i, c, reserved, committed, r).rules <==> Speaks(rule, i, c, reserved, committed, r)
  {
    hide SectorRoom, NewPositionRoom, SymbolSet, TotalValue, Notional, Caps, CapStock, CapSector;
    var p := c.portfolio;
    var sectorRoom, room := SectorRoom(i, c, reserved, r), NewPositionRoom(c, committed);
    var isNew := i.symbol !in SymbolSet(p.positions);
    assert i.symbol in SymbolSet(p.positions) + {i.symbol};
    CapSectorIsLeast(i.target, sectorRoom);
    assert !AtTwenty(p);
    var d := Evaluate(i, c, reserved, committed, r);
    assert d.rules == Caps(i.target, sectorRoom, isNew, room, p.nav, r).1;
    forall rule ensures rule in d.rules <==> Speaks(rule, i, c, reserved, committed, r) {
      CapRules(i.target, sectorRoom, isNew, room, p.nav, r, rule);
    }
  }

  lemma {:induction false} RatioIs(n: real, d: real, r: Rounding)
    ensures RatioDown(n, d, r) == if n > 0.0 then r.down(n, d) else 0.0
  {}

  lemma {:induction false} CappedTarget(i: Intent, c: Context, reserved: map<Symbol, real>, committed: real, r: Rounding)
    requires ValidContext(c) && ValidIntent(i) && Directed(r) && ReachesCaps(i, c, reserved)
    ensures i.symbol in c.sectors && Capped(i, c, reserved, committed, r) >= 0.0
    ensures var d, capped := Evaluate(i, c, reserved, committed, r), Capped(i, c, reserved, committed, r);
            && d.reduction == false && d.intent == i
            && (d.verdict == Refused <==> capped == 0.0) && (d.target.None? <==> d.verdict == Refused)
            && (d.target.Some? ==> d.target.value == capped && (d.verdict == Approved <==> capped == i.target))
  {
    hide SectorRoom, NewPositionRoom, SymbolSet, TotalValue, Directed, Notional, Caps, RatioDown;
    var p := c.portfolio;
    assert i.symbol in SymbolSet(p.positions) + {i.symbol};
    TotalValueNonnegative(p.positions);
    RoomNonnegative(c, committed);
    var sectorRoom, room := SectorRoom(i, c, reserved, r), NewPositionRoom(c, committed);
    var isNew := i.symbol !in SymbolSet(p.positions);
    CapsAreTight(i.target, sectorRoom, isNew, room, p.nav, r);
    CapsFit(i.target, sectorRoom, isNew, room, p.nav, r);
    RatioIs(room, p.nav, r);
    NothingCutIsWhole(i.target, sectorRoom, isNew, room, p.nav, r);
  }

  /** What the caps leave whole, no rule was named for. */
  lemma {:induction false} NothingCutIsWhole(target: real, sectorRoom: real, isNew: bool, room: real, nav: real, r: Rounding)
    requires room >= 0.0 && nav > 0.0 && target >= 0.0 && Directed(r)
    ensures Caps(target, sectorRoom, isNew, room, nav, r).0 == target && target > 0.0 <==>
            Caps(target, sectorRoom, isNew, room, nav, r).1 == [] && target > 0.0
  {
    var sector := CapSector(CapStock(target).0, sectorRoom).0;
    if isNew && room < Notional(sector, nav) {
      RatioFits(room, nav, r);
      RatioStrict(RatioDown(room, nav, r), sector, room, nav);
    }
  }

  lemma {:induction false} RatioStrict(t: real, sector: real, room: real, nav: real)
    requires nav > 0.0 && Notional(t, nav) <= room < Notional(sector, nav)
    ensures t < sector
  {}

  lemma {:induction false} CappedBuysAreRight(i: Intent, c: Context, reserved: map<Symbol, real>, committed: real, r: Rounding)
    requires ValidContext(c) && ValidIntent(i) && Directed(r) && ReachesCaps(i, c, reserved)
    ensures RightDecision(i, c, reserved, committed, r, Evaluate(i, c, reserved, committed, r))
  {
    hide Evaluate, Speaks, Capped, SymbolSet, TotalValue, Directed;
    CappedRules(i, c, reserved, committed, r);
    CappedTarget(i, c, reserved, committed, r);
    assert !AtTwenty(c.portfolio);
  }

  /** One intent, judged against what is held and what is reserved. */
  lemma {:induction false} DecisionIsRight(i: Intent, c: Context, reserved: map<Symbol, real>, committed: real, r: Rounding)
    requires ValidContext(c) && ValidIntent(i) && Directed(r)
    ensures RightDecision(i, c, reserved, committed, r, Evaluate(i, c, reserved, committed, r))
  {
    hide *;
    if i.side != Buy {
      OtherIntentsAreRight(i, c, reserved, committed, r);
    } else if ReachesCaps(i, c, reserved) {
      CappedBuysAreRight(i, c, reserved, committed, r);
    } else {
      BlockedBuysAreRight(i, c, reserved, committed, r);
    }
  }

  /** Every intent of a batch gets the right answer, given what the intents before it reserved. */
  lemma {:induction false} EveryDecisionIsRight(intents: seq<Intent>, c: Context, roundings: seq<Rounding>, n: nat)
    requires ValidContext(c) && |intents| == |roundings| && n < |intents|
    requires forall k :: 0 <= k < |intents| ==> ValidIntent(intents[k]) && Directed(roundings[k])
    ensures var before := EvaluateMany(intents[..n], c, roundings[..n]);
            RightDecision(intents[n], c, before.reserved, before.committed, roundings[n],
                          EvaluateMany(intents, c, roundings).decisions[n])
    decreases |intents|
  {
    hide RightDecision, Evaluate, ValidContext, Directed;
    var m := |intents| - 1;
    if n < m {
      EveryDecisionIsRight(intents[..m], c, roundings[..m], n);
      assert intents[..m][..n] == intents[..n] && roundings[..m][..n] == roundings[..n];
    } else {
      var before := EvaluateMany(intents[..m], c, roundings[..m]);
      DecisionIsRight(intents[m], c, before.reserved, before.committed, roundings[m]);
    }
  }

  // ---- what is left of the limits ----

  function Total(values: seq<real>): real {
    if values == [] then 0.0 else values[0] + Total(values[1..])
  }

  lemma {:induction false} TotalOfMore(values: seq<real>, x: real)
    ensures Total(values + [x]) == Total(values) + x
  {
    if values == [] {
      assert Total([x]) == x + Total([]);
    } else {
      TotalOfMore(values[1..], x);
      assert (values + [x])[1..] == values[1..] + [x];
    }
  }

  predicate InSector(sectors: map<Symbol, Sector>, sector: Sector, s: Symbol) {
    s in sectors && sectors[s] == sector
  }

  /** What each position counts towards a sector: its value, unless its symbol has been or is being bought. */
  function Counted(positions: seq<Position>, sectors: map<Symbol, Sector>, sector: Sector, bought: set<Symbol>): seq<real> {
    seq(|positions|, k requires 0 <= k < |positions| =>
      if InSector(sectors, sector, positions[k].symbol) && positions[k].symbol !in bought then positions[k].marketValue else 0.0)
  }

  /** What each decision adds to a sector: the target of an approved buy of another symbol. */
  function BoughtIn(decisions: seq<Decision>, sectors: map<Symbol, Sector>, sector: Sector, x: Symbol): seq<real> {
    seq(|decisions|, k requires 0 <= k < |decisions| =>
      var d := decisions[k];
      if Reserves(d) && d.intent.symbol != x && InSector(sectors, sector, d.intent.symbol) then d.target.value else 0.0)
  }

  /** What each decision spends on a symbol not held at the start. */
  function SpentOnNew(decisions: seq<Decision>, p: Portfolio): seq<real> {
    seq(|decisions|, k requires 0 <= k < |decisions| => SpentBy(decisions[k], p))
  }

  function SpentBy(d: Decision, p: Portfolio): real {
    if Reserves(d) && d.intent.symbol !in SymbolSet(p.positions) then d.target.value * p.nav else 0.0
  }

  function BoughtSymbols(decisions: seq<Decision>): set<Symbol> {
    set k | 0 <= k < |decisions| && Reserves(decisions[k]) :: decisions[k].intent.symbol
  }

  /** Thirty percent, less what the sector holds apart from this symbol and the bought ones, rounded up, less what was bought in it. */
  function SectorLeft(i: Intent, c: Context, decisions: seq<Decision>, r: Rounding): real
    requires i.symbol in c.sectors
  {
    var sector := c.sectors[i.symbol];
    var held := Total(Counted(c.portfolio.positions, c.sectors, sector, BoughtSymbols(decisions) + {i.symbol}));
    0.30 - ((if held == 0.0 then 0.0 else r.up(held, c.portfolio.nav)) + Total(BoughtIn(decisions, c.sectors, sector, i.symbol)))
  }

  /** Thirty percent of the day's starting cash, less what was committed before and since; never negative. */
  function CashLeft(c: Context, decisions: seq<Decision>): real {
    var left := 0.30 * c.dayStartCash - (c.committed + Total(SpentOnNew(decisions, c.portfolio)));
    if left < 0.0 then 0.0 else left
  }

  lemma {:induction false} SectorIsCounted(positions: seq<Position>, sectors: map<Symbol, Sector>, sector: Sector, skip: set<Symbol>)
    ensures SectorValue(positions, sectors, sector, skip) == Total(Counted(positions, sectors, sector, skip))
  {
    if positions == [] {
    } else {
      var n := |positions| - 1;
      SectorIsCounted(positions[..n], sectors, sector, skip);
      var values := Counted(positions, sectors, sector, skip);
      assert values == Counted(positions[..n], sectors, sector, skip) + [values[n]];
      TotalOfMore(Counted(positions[..n], sectors, sector, skip), values[n]);
    }
  }

  lemma {:induction false} NotionalIsSpent(decisions: seq<Decision>, c: Context)
    ensures NewNotional(decisions, c) == Total(SpentOnNew(decisions, c.portfolio))
  {
    if decisions == [] {
    } else {
      var n := |decisions| - 1;
      NotionalIsSpent(decisions[..n], c);
      var values := SpentOnNew(decisions, c.portfolio);
      assert values == SpentOnNew(decisions[..n], c.portfolio) + [values[n]];
      TotalOfMore(SpentOnNew(decisions[..n], c.portfolio), values[n]);
    }
  }

  lemma {:induction false} ReservesFront(decisions: seq<Decision>, reserved: map<Symbol, real>)
    requires decisions != [] && ReservesExactly(decisions, reserved)
    requires forall j, k :: 0 <= j < k < |decisions| ==> decisions[j].intent.symbol != decisions[k].intent.symbol
    ensures var d := decisions[|decisions| - 1];
            ReservesExactly(decisions[..|decisions| - 1], if Reserves(d) then reserved - {d.intent.symbol} else reserved)
  {
    var n := |decisions| - 1;
    var front, d := decisions[..n], decisions[n];
    var before := if Reserves(d) then reserved - {d.intent.symbol} else reserved;
    forall k | k in before ensures ReservedBy(front, k) {
      assert ReservedBy(decisions, k);
      var m :| 0 <= m < |decisions| && Reserves(decisions[m]) && decisions[m].intent.symbol == k;
      assert m < n;
      assert front[m] == decisions[m];
    }
  }

  lemma {:induction false} ReservedIsBought(decisions: seq<Decision>, reserved: map<Symbol, real>, sectors: map<Symbol, Sector>,
                                            sector: Sector, x: Symbol)
    requires ReservesExactly(decisions, reserved)
    requires forall j, k :: 0 <= j < k < |decisions| ==> decisions[j].intent.symbol != decisions[k].intent.symbol
    ensures ReservedWeight(reserved, sectors, sector, reserved.Keys - {x}) == Total(BoughtIn(decisions, sectors, sector, x))
  {
    if decisions == [] {
      NothingReserved(reserved, sectors, sector, x);
    } else {
      var n := |decisions| - 1;
      var front, d := decisions[..n], decisions[n];
      var before := if Reserves(d) then reserved - {d.intent.symbol} else reserved;
      ReservesFront(decisions, reserved);
      ReservedIsBought(front, before, sectors, sector, x);
      var values := BoughtIn(decisions, sectors, sector, x);
      assert values == BoughtIn(front, sectors, sector, x) + [values[n]];
      TotalOfMore(BoughtIn(front, sectors, sector, x), values[n]);
      if Reserves(d) {
        LastReserved(reserved, before, sectors, sector, x, d.intent.symbol);
      }
    }
  }

  lemma {:induction false} NothingReserved(reserved: map<Symbol, real>, sectors: map<Symbol, Sector>, sector: Sector, x: Symbol)
    requires ReservesExactly([], reserved)
    ensures reserved.Keys - {x} == {} && ReservedWeight(reserved, sectors, sector, reserved.Keys - {x}) == 0.0
  {
    assert forall k :: k in reserved ==> ReservedBy([], k);
    assert forall k :: k !in reserved;
  }

  lemma {:induction false} LastReserved(reserved: map<Symbol, real>, before: map<Symbol, real>, sectors: map<Symbol, Sector>,
                                        sector: Sector, x: Symbol, s: Symbol)
    requires s in reserved && before == reserved - {s}
    ensures ReservedWeight(reserved, sectors, sector, reserved.Keys - {x}) ==
            ReservedWeight(before, sectors, sector, before.Keys - {x})
            + if s != x && InSector(sectors, sector, s) then reserved[s] else 0.0
  {
    if s == x {
      assert before.Keys - {x} == reserved.Keys - {x};
      ReservedAgrees(reserved, before, sectors, sector, before.Keys - {x});
    } else {
      ReservedPick(reserved, sectors, sector, reserved.Keys - {x}, s);
      assert before.Keys - {x} == reserved.Keys - {x} - {s};
      ReservedAgrees(reserved, before, sectors, sector, before.Keys - {x});
    }
  }

  lemma {:induction false} SectorRoomIsLeft(i: Intent, c: Context, decisions: seq<Decision>, reserved: map<Symbol, real>, r: Rounding)
    requires i.symbol in c.sectors && ReservesExactly(decisions, reserved)
    requires forall j, k :: 0 <= j < k < |decisions| ==> decisions[j].intent.symbol != decisions[k].intent.symbol
    ensures SectorRoom(i, c, reserved, r) == SectorLeft(i, c, decisions, r)
  {
    hide SectorValue, ReservedWeight, Counted, BoughtIn, ReservesExactly, BoughtSymbols, Total;
    ReservedNames(decisions, reserved);
    SectorIsCounted(c.portfolio.positions, c.sectors, c.sectors[i.symbol], reserved.Keys + {i.symbol});
    ReservedIsBought(decisions, reserved, c.sectors, c.sectors[i.symbol], i.symbol);
  }

  lemma {:induction false} CashIsLeft(c: Context, decisions: seq<Decision>, committed: real)
    requires committed == c.committed + NewNotional(decisions, c)
    ensures NewPositionRoom(c, committed) == CashLeft(c, decisions)
  {
    hide NewNotional, SpentOnNew, Total;
    NotionalIsSpent(decisions, c);
  }

  /** At every intent of a batch, the room of its sector and the cash for new positions are what the decisions before it left. */
  lemma {:induction false} RoomsAreWhatIsLeft(intents: seq<Intent>, c: Context, roundings: seq<Rounding>, n: nat)
    requires |intents| == |roundings| && DistinctSymbols(intents) && n < |intents|
    ensures var before := EvaluateMany(intents[..n], c, roundings[..n]);
            && before.reserved.Keys == BoughtSymbols(before.decisions)
            && NewPositionRoom(c, before.committed) == CashLeft(c, before.decisions)
            && (intents[n].symbol in c.sectors ==>
                  SectorRoom(intents[n], c, before.reserved, roundings[n]) == SectorLeft(intents[n], c, before.decisions, roundings[n]))
  {
    hide EvaluateMany, SectorRoom, SectorLeft, NewPositionRoom, CashLeft, NewNotional, ReservesExactly, BoughtSymbols;
    var front := intents[..n];
    assert forall k :: 0 <= k < n ==> front[k] == intents[k];
    TotalsFollowDecisions(front, c, roundings[..n]);
    var before := EvaluateMany(front, c, roundings[..n]);
    assert |before.decisions| == n;
    CashIsLeft(c, before.decisions, before.committed);
    ReservedNames(before.decisions, before.reserved);
    if intents[n].symbol in c.sectors {
      SectorRoomIsLeft(intents[n], c, before.decisions, before.reserved, roundings[n]);
    }
  }

  lemma {:induction false} ReservedNames(decisions: seq<Decision>, reserved: map<Symbol, real>)
    requires ReservesExactly(decisions, reserved)
    ensures reserved.Keys == BoughtSymbols(decisions)
  {
    forall k | k in reserved ensures k in BoughtSymbols(decisions) {
      assert ReservedBy(decisions, k);
      var m :| 0 <= m < |decisions| && Reserves(decisions[m]) && decisions[m].intent.symbol == k;
      assert k in BoughtSymbols(decisions);
    }
  }
}
