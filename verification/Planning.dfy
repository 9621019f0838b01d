/**
  Turning risk decisions into orders: quantities are divided out at a working precision,
  rounded down, and floored to twelve places; in a deep drawdown every holding is cut.
  (src/stock_agent/backtest/planning.py.)
 */
module Planning {
  import opened Common
  import opened Book
  import opened Risk
  import Backtest
  import OrderDesk

  type PlannedOrder = Backtest.PlannedOrder

  datatype PlanStatus = Ready | Submitted | Skipped | Stopped

  datatype Source = FromStrategy | FromReduction

  datatype Reason =
    | RiskRefused
    | NoTarget
    | HoldHasNoOrder
    | SellTargetNotZero
    | NothingHeld
    | OutOfRange
    | NoDelta
    | BuyNeedsIncrease
    | ReduceNeedsDecrease
    | ArithmeticFailed
    | FloorsToZero

  datatype Plan = Plan(status: PlanStatus, source: Source, symbol: Symbol, target: real, raw: Option<real>,
                       effective: Option<real>, order: Option<PlannedOrder>, reason: Option<Reason>)

  datatype PlanFault = ForeignMarket | ReductionMismatch | RepeatedSymbol | MissingClose

  // ---- rounding ----

  /** Multiples of the quantity quantum. */
  function Tick(n: int): real { n as real / GRID }

  function Floor12(x: real): (r: real)
    ensures r <= x < r + Tick(1)
    ensures OnGrid(r)
  {
    var n := (x * GRID).Floor;
    TickOnGrid(n);
    Tick(n)
  }

  lemma {:induction false} TickOnGrid(n: int)
    ensures OnGrid(Tick(n))
  {
    assert Tick(n) * GRID == n as real;
    assert (n as real).Floor == n;
  }

  type Truncation = real -> real

  /** Rounding down at the working precision, which holds every supported quantity exactly. */
  ghost predicate RoundsDown(t: Truncation) {
    && (forall x: real :: x >= 0.0 ==> 0.0 <= t(x) <= x)
    && (forall x: real, n: nat :: Tick(n) <= x && Tick(n) <= MAX_MAGNITUDE ==> Tick(n) <= t(x))
  }

  const MAX_TICKS: nat := 100000000000000000000000000000000000000

  lemma {:induction false} FloorBetween(y: real, x: real)
    requires Floor12(x) <= y <= x
    ensures Floor12(y) == Floor12(x)
  {
    var n := (x * GRID).Floor;
    assert y * GRID <= x * GRID && n as real <= y * GRID;
    assert (y * GRID).Floor == n;
  }

  /** Truncating to a finer grid first never changes the floor, nor which side of the cap it is on. */
  lemma {:induction false} FloorAfterTruncation(x: real, t: Truncation)
    requires RoundsDown(t) && x >= 0.0
    ensures t(x) >= MAX_MAGNITUDE <==> x >= MAX_MAGNITUDE
    ensures x < MAX_MAGNITUDE ==> Floor12(t(x)) == Floor12(x)
  {
    assert Tick(MAX_TICKS) == MAX_MAGNITUDE;
    var n: nat := (x * GRID).Floor;
    assert Tick(n) == Floor12(x);
    if x < MAX_MAGNITUDE {
      FloorBetween(t(x), x);
    }
  }

  lemma {:induction false} HalfAfterTruncation(x: real, t: Truncation)
    requires RoundsDown(t) && 0.0 <= x <= 1.0
    ensures Floor12(t(t(x) / 2.0)) == Floor12(x / 2.0)
  {
    var n: nat := (x / 2.0 * GRID).Floor;
    assert Tick(n) == Floor12(x / 2.0);
    assert Tick(2 * n) == 2.0 * Tick(n);
    assert Tick(2 * n) <= t(x);
    FloorBetween(t(t(x) / 2.0), x / 2.0);
  }

  // ---- one plan ----

  function NoOrder(status: PlanStatus, source: Source, symbol: Symbol, target: real, raw: Option<real>, reason: Reason): Plan {
    Plan(status, source, symbol, target, raw, None, None, Some(reason))
  }

  function ReadyPlan(source: Source, symbol: Symbol, target: real, side: Side, raw: real, quantity: real): Plan {
    Plan(Ready, source, symbol, target, Some(raw), None, Some(Backtest.PlannedOrder(symbol, side, quantity)), None)
  }

  /** Trade `amount` of money at the close. */
  function Sized(source: Source, symbol: Symbol, target: real, failTarget: real, side: Side, amount: real, close: real,
                 t: Truncation): Plan
    requires close > 0.0
  {
    var raw := t(amount / close);
    if raw >= MAX_MAGNITUDE then NoOrder(Stopped, source, symbol, failTarget, None, ArithmeticFailed)
    else
      var quantity := Floor12(raw);
      if quantity == 0.0 then NoOrder(Skipped, source, symbol, target, Some(raw), FloorsToZero)
      else ReadyPlan(source, symbol, target, side, raw, quantity)
  }

  function SellPlan(symbol: Symbol, target: real, position: Option<Position>): Plan {
    if target != 0.0 then NoOrder(Stopped, FromStrategy, symbol, target, None, SellTargetNotZero)
    else match position
      case None => NoOrder(Skipped, FromStrategy, symbol, target, Some(0.0), NothingHeld)
      case Some(held) =>
        if held.quantity <= 0.0 || held.quantity >= MAX_MAGNITUDE then
          NoOrder(Stopped, FromStrategy, symbol, target, Some(held.quantity), OutOfRange)
        else ReadyPlan(FromStrategy, symbol, target, Sell, held.quantity, held.quantity)
  }

  function DeltaPlan(symbol: Symbol, buying: bool, target: real, nav: real, close: real, position: Option<Position>,
                     t: Truncation): Plan
    requires close > 0.0
  {
    var current := if position.Some? then position.value.marketValue else 0.0;
    var delta := Notional(target, nav) - current;
    if delta == 0.0 then NoOrder(Skipped, FromStrategy, symbol, target, Some(0.0), NoDelta)
    else if buying && delta < 0.0 then NoOrder(Stopped, FromStrategy, symbol, target, None, BuyNeedsIncrease)
    else if !buying && delta > 0.0 then NoOrder(Stopped, FromStrategy, symbol, target, None, ReduceNeedsDecrease)
    else Sized(FromStrategy, symbol, target, target, if buying then Buy else Sell,
               if delta < 0.0 then -delta else delta, close, t)
  }

  function StrategyPlan(d: Decision, nav: real, close: real, position: Option<Position>, t: Truncation): Plan
    requires close > 0.0
  {
    var i := d.intent;
    if d.verdict == Refused then NoOrder(Stopped, FromStrategy, i.symbol, i.target, None, RiskRefused)
    else match d.target
      case None => NoOrder(Stopped, FromStrategy, i.symbol, i.target, None, NoTarget)
      case Some(target) =>
        match i.side
        case Hold => NoOrder(Skipped, FromStrategy, i.symbol, target, None, HoldHasNoOrder)
        case Sell => SellPlan(i.symbol, target, position)
        case Buy => DeltaPlan(i.symbol, true, target, nav, close, position, t)
        case Reduce => DeltaPlan(i.symbol, false, target, nav, close, position, t)
  }

  function HalfWeight(value: real, nav: real, t: Truncation): real {
    if nav == 0.0 then 0.0 else Floor12(t(t(value / nav) / 2.0))
  }

  function ReductionTarget(held: Position, nav: real, d: Option<Decision>, t: Truncation): real {
    var half := HalfWeight(held.marketValue, nav, t);
    var approved := if d.Some? && d.value.verdict != Refused then d.value.target else None;
    if approved.Some? && approved.value < half then approved.value else half
  }

  function ReductionPlan(held: Position, nav: real, close: real, d: Option<Decision>, t: Truncation): Plan
    requires close > 0.0
  {
    var target := ReductionTarget(held, nav, d, t);
    var delta := held.marketValue - Notional(target, nav);
    if delta <= 0.0 then NoOrder(Skipped, FromReduction, held.symbol, target, Some(0.0), NoDelta)
    else Sized(FromReduction, held.symbol, target, 0.0, Sell, delta, close, t)
  }

  // ---- the plans of a session ----

  function Find(positions: seq<Position>, symbol: Symbol): (r: Option<Position>)
    ensures r.Some? <==> symbol in SymbolSet(positions)
    ensures r.Some? ==> r.value in positions && r.value.symbol == symbol
  {
    if positions == [] then None
    else
      var n := |positions| - 1;
      var last := positions[n];
      SymbolSetGrows(positions);
      if last.symbol == symbol then Some(last) else Find(positions[..n], symbol)
  }

  lemma {:induction false} SymbolSetGrows(positions: seq<Position>)
    requires positions != []
    ensures SymbolSet(positions) ==
            SymbolSet(positions[..|positions| - 1]) + {positions[|positions| - 1].symbol}
  {
    var n := |positions| - 1;
    var front := positions[..n];
    forall s | s in SymbolSet(positions) ensures s in SymbolSet(front) + {positions[n].symbol} {
      var i :| 0 <= i < |positions| && positions[i].symbol == s;
      if i < n {
        assert front[i].symbol == s;
      }
    }
    forall s | s in SymbolSet(front) ensures s in SymbolSet(positions) {
      var i :| 0 <= i < |front| && front[i].symbol == s;
      assert positions[i].symbol == s;
    }
  }

  function DecidedSymbols(decisions: seq<Decision>): (r: seq<Symbol>)
    ensures |r| == |decisions|
    ensures forall k :: 0 <= k < |r| ==> r[k] == decisions[k].intent.symbol
  {
    seq(|decisions|, k requires 0 <= k < |decisions| => decisions[k].intent.symbol)
  }

  function DecidedSet(decisions: seq<Decision>): set<Symbol> {
    set k | 0 <= k < |decisions| :: decisions[k].intent.symbol
  }

  function PlanSymbols(plans: seq<Plan>): (r: seq<Symbol>)
    ensures |r| == |plans|
    ensures forall k :: 0 <= k < |r| ==> r[k] == plans[k].symbol
  {
    seq(|plans|, k requires 0 <= k < |plans| => plans[k].symbol)
  }

  predicate Priced(symbols: set<Symbol>, closes: map<Symbol, real>) {
    forall s :: s in symbols ==> s in closes && closes[s] > 0.0
  }

  function PlanFor(d: Decision, p: Portfolio, closes: map<Symbol, real>, reducing: bool, t: Truncation): (plan: Plan)
    requires d.intent.symbol in closes && closes[d.intent.symbol] > 0.0
    ensures plan.symbol == d.intent.symbol
  {
    var close := closes[d.intent.symbol];
    var held := Find(p.positions, d.intent.symbol);
    if reducing && held.Some? then ReductionPlan(held.value, p.nav, close, Some(d), t)
    else StrategyPlan(d, p.nav, close, held, t)
  }

  predicate DecisionsPriced(decisions: seq<Decision>, closes: map<Symbol, real>) {
    forall k :: 0 <= k < |decisions| ==>
      decisions[k].intent.symbol in closes && closes[decisions[k].intent.symbol] > 0.0
  }

  ghost predicate TargetsNonnegative(decisions: seq<Decision>) {
    forall k :: 0 <= k < |decisions| ==> decisions[k].target.Some? ==> decisions[k].target.value >= 0.0
  }

  function PlansFor(decisions: seq<Decision>, p: Portfolio, closes: map<Symbol, real>, reducing: bool, t: Truncation)
    : (plans: seq<Plan>)
    requires DecisionsPriced(decisions, closes)
    ensures |plans| == |decisions|
    ensures forall k :: 0 <= k < |plans| ==> plans[k] == PlanFor(decisions[k], p, closes, reducing, t)
  {
    seq(|decisions|, k requires 0 <= k < |decisions| => PlanFor(decisions[k], p, closes, reducing, t))
  }

  function CutFor(symbol: Symbol, p: Portfolio, closes: map<Symbol, real>, t: Truncation): (plan: Plan)
    requires symbol in closes && closes[symbol] > 0.0 && symbol in SymbolSet(p.positions)
    ensures plan.symbol == symbol
  {
    ReductionPlan(Find(p.positions, symbol).value, p.nav, closes[symbol], None, t)
  }

  function CutsFor(symbols: seq<Symbol>, p: Portfolio, closes: map<Symbol, real>, t: Truncation): (plans: seq<Plan>)
    requires forall s :: s in symbols ==> s in closes && closes[s] > 0.0 && s in SymbolSet(p.positions)
    ensures |plans| == |symbols|
    ensures forall k :: 0 <= k < |plans| ==> plans[k] == CutFor(symbols[k], p, closes, t)
  {
    seq(|symbols|, k requires 0 <= k < |symbols| => CutFor(symbols[k], p, closes, t))
  }

  /** Holdings no decision speaks of, in symbol order. */
  function Undecided(decisions: seq<Decision>, p: Portfolio): seq<Symbol> {
    Sorted(SymbolSet(p.positions) - DecidedSet(decisions))
  }

  function FirstMismatch(decisions: seq<Decision>, market: Market, reducing: bool): Option<PlanFault> {
    if decisions == [] then None
    else if decisions[0].intent.market != market then Some(ForeignMarket)
    else if decisions[0].reduction != reducing then Some(ReductionMismatch)
    else FirstMismatch(decisions[1..], market, reducing)
  }

  function AllPlans(decisions: seq<Decision>, p: Portfolio, closes: map<Symbol, real>, reducing: bool, t: Truncation)
    : seq<Plan>
    requires Priced(DecidedSet(decisions) + SymbolSet(p.positions), closes)
  {
    Mentions(decisions, p);
    PlansFor(decisions, p, closes, reducing, t)
    + if reducing then CutsFor(Undecided(decisions, p), p, closes, t) else []
  }

  lemma {:induction false} Mentions(decisions: seq<Decision>, p: Portfolio)
    ensures forall k :: 0 <= k < |decisions| ==>
              decisions[k].intent.symbol in DecidedSet(decisions) + SymbolSet(p.positions)
    ensures forall s :: s in Undecided(decisions, p) ==> s in SymbolSet(p.positions) && s !in DecidedSet(decisions)
  {
    forall k | 0 <= k < |decisions| ensures decisions[k].intent.symbol in DecidedSet(decisions) {}
  }

  /** What planning promises, or why it refuses. */
  function PlanOrders(decisions: seq<Decision>, p: Portfolio, closes: map<Symbol, real>, reducing: bool, t: Truncation)
    : Result<seq<Plan>, PlanFault>
    requires forall s :: s in closes ==> closes[s] > 0.0
  {
    var fault := FirstMismatch(decisions, p.market, reducing);
    if fault.Some? then Err(fault.value)
    else if !Distinct(DecidedSymbols(decisions)) then Err(RepeatedSymbol)
    else if !(DecidedSet(decisions) + SymbolSet(p.positions) <= closes.Keys) then Err(MissingClose)
    else Ok(AllPlans(decisions, p, closes, reducing, t))
  }

  // ---- what one plan promises ----

  function Traded(plan: Plan): real {
    if plan.order.Some? then plan.order.value.quantity else 0.0
  }

  /** The planned quantity is the exact quotient cut to twelve places, whatever the working precision. */
  lemma {:induction false} SizedQuantity(source: Source, symbol: Symbol, target: real, failTarget: real, side: Side,
                                         amount: real, close: real, t: Truncation)
    requires amount > 0.0 && close > 0.0 && RoundsDown(t)
    ensures var plan := Sized(source, symbol, target, failTarget, side, amount, close, t);
            && plan.symbol == symbol
            && (plan.reason == Some(ArithmeticFailed) <==> amount / close >= MAX_MAGNITUDE)
            && (plan.reason != Some(ArithmeticFailed) ==> Traded(plan) == Floor12(amount / close))
            && (plan.order.Some? ==>
                  plan.order.value == Backtest.PlannedOrder(symbol, side, Traded(plan))
                  && Traded(plan) > 0.0 && Supported(Traded(plan)))
  {
    var x := amount / close;
    FloorAfterTruncation(x, t);
    FloorNonnegative(t(x));
  }

  lemma {:induction false} FloorNonnegative(x: real)
    requires x >= 0.0
    ensures Floor12(x) >= 0.0
  {}

  lemma {:induction false} FloorValue(amount: real, close: real)
    requires amount >= 0.0 && close > 0.0
    ensures var q := Floor12(amount / close);
            Notional(q, close) <= amount < Notional(q, close) + Notional(Tick(1), close)
  {
    var x, q, tick := amount / close, Floor12(amount / close), Tick(1);
    assert x * close == amount;
    Spread(q, x, tick, amount, close);
  }

  lemma {:induction false} Spread(q: real, x: real, tick: real, amount: real, close: real)
    requires x * close == amount && q <= x < q + tick && close > 0.0
    ensures Notional(q, close) <= amount < Notional(q, close) + Notional(tick, close)
  {
    assert (x - q) * close >= 0.0;
    assert (q + tick - x) * close > 0.0;
  }

  lemma {:induction false} HalfWeightBound(value: real, nav: real, t: Truncation)
    requires RoundsDown(t) && 0.0 <= value <= nav
    ensures 0.0 <= HalfWeight(value, nav, t) && Notional(HalfWeight(value, nav, t), nav) <= value / 2.0
  {
    if nav != 0.0 {
      var x := value / nav;
      WeightOf(value, nav);
      HalfAfterTruncation(x, t);
      FloorNonnegative(x / 2.0);
      HalfOf(x, Floor12(x / 2.0), nav, value);
    }
  }

  lemma {:induction false} WeightOf(value: real, nav: real)
    requires 0.0 <= value <= nav && nav > 0.0
    ensures 0.0 <= value / nav <= 1.0 && Notional(value / nav, nav) == value
  {
    assert (value / nav) * nav == value;
    QuotientBound(value, 1.0, nav);
  }

  lemma {:induction false} HalfOf(x: real, half: real, nav: real, value: real)
    requires Notional(x, nav) == value && half <= x / 2.0 && nav >= 0.0
    ensures Notional(half, nav) <= value / 2.0
  {
    var rest := x - half - half;
    assert rest >= 0.0 && rest * nav >= 0.0;
    assert rest * nav == x * nav - half * nav - half * nav;
  }

  /** A holding's cut: what is left, valued at the close, is at most half of it and one quantum. */
  lemma {:induction false} CutHalves(held: Position, nav: real, close: real, d: Option<Decision>, t: Truncation)
    requires RoundsDown(t) && 0.0 <= held.marketValue <= nav && close > 0.0
    requires d.Some? && d.value.target.Some? ==> d.value.target.value >= 0.0
    ensures var plan := ReductionPlan(held, nav, close, d, t);
            && (plan.order.Some? ==> plan.order.value == Backtest.PlannedOrder(held.symbol, Sell, Traded(plan))
                                     && Supported(Traded(plan)) && Traded(plan) > 0.0)
            && (plan.reason != Some(ArithmeticFailed) ==>
                  held.marketValue - Notional(Traded(plan), close)
                  <= held.marketValue / 2.0 + Notional(Tick(1), close))
  {
    hide RoundsDown, HalfWeight, Sized, Floor12;
    var target := ReductionTarget(held, nav, d, t);
    HalfWeightBound(held.marketValue, nav, t);
    TargetBelowHalf(target, HalfWeight(held.marketValue, nav, t), nav);
    var delta := held.marketValue - Notional(target, nav);
    if delta > 0.0 {
      SizedQuantity(FromReduction, held.symbol, target, 0.0, Sell, delta, close, t);
      FloorValue(delta, close);
    } else {
      assert Notional(0.0, close) == 0.0;
      assert Notional(Tick(1), close) >= 0.0;
    }
  }

  lemma {:induction false} TargetBelowHalf(target: real, half: real, nav: real)
    requires 0.0 <= target <= half && nav >= 0.0
    ensures 0.0 <= Notional(target, nav) <= Notional(half, nav)
  {}

  /** With the holding marked at the close, the cut never sells more than is held, and a supported holding is never skipped. */
  lemma {:induction false} CutWithinHolding(held: Position, nav: real, close: real, d: Option<Decision>, t: Truncation)
    requires RoundsDown(t) && 0.0 <= held.marketValue <= nav && close > 0.0
    requires d.Some? && d.value.target.Some? ==> d.value.target.value >= 0.0
    requires held.marketValue == Notional(held.quantity, close)
    ensures var plan := ReductionPlan(held, nav, close, d, t);
            && Traded(plan) <= held.quantity
            && (held.quantity < MAX_MAGNITUDE ==> plan.reason != Some(ArithmeticFailed))
  {
    hide Notional, RoundsDown, HalfWeight, Sized, Floor12;
    var target := ReductionTarget(held, nav, d, t);
    HalfWeightBound(held.marketValue, nav, t);
    TargetBelowHalf(target, HalfWeight(held.marketValue, nav, t), nav);
    var delta := held.marketValue - Notional(target, nav);
    SharesBelow(held.quantity, close);
    if delta > 0.0 {
      SizedQuantity(FromReduction, held.symbol, target, 0.0, Sell, delta, close, t);
      SharesWorth(delta, held.quantity, close);
    }
  }

  lemma {:induction false} SharesBelow(quantity: real, close: real)
    requires close > 0.0 && Notional(quantity, close) >= 0.0
    ensures quantity >= 0.0
  {}

  lemma {:induction false} SharesWorth(amount: real, quantity: real, close: real)
    requires close > 0.0 && amount <= Notional(quantity, close)
    ensures amount / close <= quantity
  {
    QuotientBound(amount, quantity, close);
  }

  // ---- risk and planning together ----

  /** Every decision carries the same answer to whether the portfolio must be cut. */
  lemma {:induction false} ReductionsAgree(i: Intent, c: Context, reserved: map<Symbol, real>, committed: real, r: Rounding)
    requires ValidContext(c)
    ensures var d := Evaluate(i, c, reserved, committed, r);
            && (i.market == c.portfolio.market ==> d.reduction == AtTwenty(c.portfolio))
            && (AtTwenty(c.portfolio) && i.side == Buy ==> d.verdict == Refused)
  {
    var p := c.portfolio;
    TotalValueNonnegative(p.positions);
    if AtTwenty(p) {
      DeeperDrawdown(p);
    }
  }

  lemma {:induction false} DeeperDrawdown(p: Portfolio)
    requires AtTwenty(p) && p.nav <= p.peak
    ensures AtFifteen(p)
  {}

  ghost predicate SameMarket(intents: seq<Intent>, market: Market) {
    forall n :: 0 <= n < |intents| ==> intents[n].market == market
  }

  lemma {:induction false} DecisionsAgree(intents: seq<Intent>, c: Context, roundings: seq<Rounding>)
    requires ValidContext(c) && |intents| == |roundings|
    ensures var b := EvaluateMany(intents, c, roundings);
            forall n :: 0 <= n < |intents| ==>
              && b.decisions[n].intent == intents[n]
              && (intents[n].market == c.portfolio.market ==> b.decisions[n].reduction == AtTwenty(c.portfolio))
              && (AtTwenty(c.portfolio) && intents[n].side == Buy ==> b.decisions[n].verdict == Refused)
  {
    if intents == [] {
    } else {
      var n := |intents| - 1;
      DecisionsAgree(intents[..n], c, roundings[..n]);
      var before := EvaluateMany(intents[..n], c, roundings[..n]);
      ReductionsAgree(intents[n], c, before.reserved, before.committed, roundings[n]);
    }
  }

  lemma {:induction false} MismatchExactly(decisions: seq<Decision>, market: Market, reducing: bool)
    ensures FirstMismatch(decisions, market, reducing).None? <==>
            forall n :: 0 <= n < |decisions| ==>
              decisions[n].intent.market == market && decisions[n].reduction == reducing
  {
    if decisions == [] {
    } else {
      MismatchExactly(decisions[1..], market, reducing);
      if FirstMismatch(decisions, market, reducing).None? {
        forall n | 0 <= n < |decisions|
          ensures decisions[n].intent.market == market && decisions[n].reduction == reducing
        {
          if n > 0 {
            assert decisions[n] == decisions[1..][n - 1];
          }
        }
      }
    }
  }

  /** Planning the engine's own decisions succeeds exactly when markets match and every close is known. */
  lemma {:induction false} PlanningSucceedsIff(intents: seq<Intent>, c: Context, roundings: seq<Rounding>,
                                               closes: map<Symbol, real>, t: Truncation)
    requires ValidContext(c) && |intents| == |roundings| && DistinctSymbols(intents)
    requires forall s :: s in closes ==> closes[s] > 0.0
    ensures var decisions := EvaluateMany(intents, c, roundings).decisions;
            PlanOrders(decisions, c.portfolio, closes, AtTwenty(c.portfolio), t).Ok? <==>
            SameMarket(intents, c.portfolio.market)
            && DecidedSet(decisions) + SymbolSet(c.portfolio.positions) <= closes.Keys
  {
    var decisions := EvaluateMany(intents, c, roundings).decisions;
    DecisionsAgree(intents, c, roundings);
    MismatchExactly(decisions, c.portfolio.market, AtTwenty(c.portfolio));
    if SameMarket(intents, c.portfolio.market) {
      assert FirstMismatch(decisions, c.portfolio.market, AtTwenty(c.portfolio)).None?;
    } else {
      var n :| 0 <= n < |intents| && intents[n].market != c.portfolio.market;
      assert decisions[n].intent == intents[n];
    }
  }

  /** In a drawdown plan each symbol decided on or held has exactly one plan. */
  lemma {:induction false} OnePlanPerSymbol(decisions: seq<Decision>, p: Portfolio, closes: map<Symbol, real>, t: Truncation)
    requires Priced(DecidedSet(decisions) + SymbolSet(p.positions), closes) && Distinct(DecidedSymbols(decisions))
    ensures var symbols := PlanSymbols(AllPlans(decisions, p, closes, true, t));
            && symbols == DecidedSymbols(decisions) + Undecided(decisions, p)
            && Distinct(symbols)
            && forall s :: s in symbols <==> s in DecidedSet(decisions) + SymbolSet(p.positions)
  {
    Mentions(decisions, p);
    var symbols := PlanSymbols(AllPlans(decisions, p, closes, true, t));
    assert symbols == DecidedSymbols(decisions) + Undecided(decisions, p);
    DecidedMembers(decisions);
    DistinctConcat(DecidedSymbols(decisions), Undecided(decisions, p));
  }

  lemma {:induction false} DecidedMembers(decisions: seq<Decision>)
    ensures forall s :: s in DecidedSymbols(decisions) <==> s in DecidedSet(decisions)
  {
    var r := DecidedSymbols(decisions);
    forall s | s in DecidedSet(decisions) ensures s in r {
      var k :| 0 <= k < |decisions| && decisions[k].intent.symbol == s;
      assert r[k] == s;
    }
  }

  lemma {:induction false} PositionWithinTotal(positions: seq<Position>, held: Position)
    requires held in positions
    requires forall i :: 0 <= i < |positions| ==> positions[i].marketValue >= 0.0
    ensures 0.0 <= held.marketValue <= TotalValue(positions)
  {
    var n := |positions| - 1;
    TotalValueNonnegative(positions[..n]);
    if held != positions[n] {
      PositionWithinTotal(positions[..n], held);
    }
  }

  lemma {:induction false} SamePosition(positions: seq<Position>, held: Position)
    requires held in positions
    requires forall i, j :: 0 <= i < j < |positions| ==> positions[i].symbol != positions[j].symbol
    ensures Find(positions, held.symbol) == Some(held)
  {
    var i :| 0 <= i < |positions| && positions[i] == held;
    assert held.symbol in SymbolSet(positions);
    var found := Find(positions, held.symbol).value;
    var j :| 0 <= j < |positions| && positions[j] == found;
    assert i == j;
  }

  lemma {:induction false} FindIsUnique(positions: seq<Position>, symbol: Symbol)
    requires forall i, j :: 0 <= i < j < |positions| ==> positions[i].symbol != positions[j].symbol
    ensures forall held :: held in positions && held.symbol == symbol ==> Find(positions, symbol) == Some(held)
  {
    forall held | held in positions && held.symbol == symbol ensures Find(positions, symbol) == Some(held) {
      SamePosition(positions, held);
    }
  }

  /** What a drawdown plan promises of one holding. */
  ghost predicate Halved(held: Position, plan: Plan, close: real) {
    && plan.symbol == held.symbol && plan.source == FromReduction
    && (plan.reason != Some(ArithmeticFailed) ==>
          held.marketValue - Notional(Traded(plan), close) <= held.marketValue / 2.0 + Notional(Tick(1), close))
    && (held.marketValue == Notional(held.quantity, close) ==>
          Traded(plan) <= held.quantity && (held.quantity < MAX_MAGNITUDE ==> plan.reason != Some(ArithmeticFailed)))
  }

  ghost predicate NeverBuys(plan: Plan) {
    plan.order.Some? ==> plan.order.value.side == Sell && Traded(plan) > 0.0
  }

  lemma {:induction false} CutPromises(held: Position, p: Portfolio, close: real, d: Option<Decision>, t: Truncation)
    requires ValidPortfolio(p) && held in p.positions && RoundsDown(t) && close > 0.0
    requires d.Some? && d.value.target.Some? ==> d.value.target.value >= 0.0
    ensures var plan := ReductionPlan(held, p.nav, close, d, t); Halved(held, plan, close) && NeverBuys(plan)
  {
    PositionWithinTotal(p.positions, held);
    CutHalves(held, p.nav, close, d, t);
    if held.marketValue == Notional(held.quantity, close) {
      CutWithinHolding(held, p.nav, close, d, t);
    }
  }

  /** In a drawdown, a symbol that is not held is never ordered. */
  lemma {:induction false} NothingNew(d: Decision, nav: real, close: real, t: Truncation)
    requires close > 0.0 && nav >= 0.0
    requires d.intent.side == Buy ==> d.verdict == Refused
    requires d.target.Some? ==> d.target.value >= 0.0
    ensures StrategyPlan(d, nav, close, None, t).order.None?
  {
    if d.target.Some? {
      assert Notional(d.target.value, nav) >= 0.0;
    }
  }

  /** Every plan of a drawdown keeps the promises. */
  ghost predicate DrawdownPlan(p: Portfolio, closes: map<Symbol, real>, plan: Plan) {
    && NeverBuys(plan)
    && plan.symbol in closes
    && forall held :: held in p.positions && held.symbol == plan.symbol ==> Halved(held, plan, closes[plan.symbol])
  }

  lemma {:induction false} DecisionPlanPromises(d: Decision, p: Portfolio, closes: map<Symbol, real>, t: Truncation)
    requires ValidPortfolio(p) && RoundsDown(t) && d.intent.symbol in closes && closes[d.intent.symbol] > 0.0
    requires d.intent.side == Buy ==> d.verdict == Refused
    requires d.target.Some? ==> d.target.value >= 0.0
    ensures DrawdownPlan(p, closes, PlanFor(d, p, closes, true, t))
  {
    var close := closes[d.intent.symbol];
    TotalValueNonnegative(p.positions);
    FindIsUnique(p.positions, d.intent.symbol);
    match Find(p.positions, d.intent.symbol)
    case Some(held) =>
      CutPromises(held, p, close, Some(d), t);
    case None =>
      NothingNew(d, p.nav, close, t);
  }

  lemma {:induction false} CutForPromises(symbol: Symbol, p: Portfolio, closes: map<Symbol, real>, t: Truncation)
    requires ValidPortfolio(p) && RoundsDown(t) && symbol in closes && closes[symbol] > 0.0
    requires symbol in SymbolSet(p.positions)
    ensures DrawdownPlan(p, closes, CutFor(symbol, p, closes, t))
  {
    var held := Find(p.positions, symbol).value;
    CutPromises(held, p, closes[symbol], None, t);
    FindIsUnique(p.positions, symbol);
  }

  function IntentSymbols(intents: seq<Intent>): set<Symbol> {
    set n | 0 <= n < |intents| :: intents[n].symbol
  }

  lemma {:induction false} DecidedOnIntents(intents: seq<Intent>, c: Context, roundings: seq<Rounding>)
    requires |intents| == |roundings| && DistinctSymbols(intents)
    ensures var decisions := EvaluateMany(intents, c, roundings).decisions;
            DecidedSet(decisions) == IntentSymbols(intents) && Distinct(DecidedSymbols(decisions))
  {
    var decisions := EvaluateMany(intents, c, roundings).decisions;
    TotalsFollowDecisions(intents, c, roundings);
    forall n | 0 <= n < |intents|
      ensures intents[n].symbol in DecidedSet(decisions) && decisions[n].intent.symbol in IntentSymbols(intents)
    {
      assert decisions[n].intent == intents[n];
    }
  }

  ghost predicate AllDrawdownPlans(p: Portfolio, closes: map<Symbol, real>, plans: seq<Plan>) {
    forall k :: 0 <= k < |plans| ==> DrawdownPlan(p, closes, plans[k])
  }

  ghost predicate BuysRefused(decisions: seq<Decision>) {
    forall n :: 0 <= n < |decisions| ==> decisions[n].intent.side == Buy ==> decisions[n].verdict == Refused
  }

  lemma {:induction false} PlansPromise(decisions: seq<Decision>, p: Portfolio, closes: map<Symbol, real>, t: Truncation)
    requires ValidPortfolio(p) && RoundsDown(t) && DecisionsPriced(decisions, closes)
    requires BuysRefused(decisions) && TargetsNonnegative(decisions)
    ensures AllDrawdownPlans(p, closes, PlansFor(decisions, p, closes, true, t))
  {
    forall k | 0 <= k < |decisions| ensures DrawdownPlan(p, closes, PlanFor(decisions[k], p, closes, true, t)) {
      DecisionPlanPromises(decisions[k], p, closes, t);
    }
  }

  lemma {:induction false} CutsPromise(symbols: seq<Symbol>, p: Portfolio, closes: map<Symbol, real>, t: Truncation)
    requires ValidPortfolio(p) && RoundsDown(t)
    requires forall s :: s in symbols ==> s in closes && closes[s] > 0.0 && s in SymbolSet(p.positions)
    ensures AllDrawdownPlans(p, closes, CutsFor(symbols, p, closes, t))
  {
    forall k | 0 <= k < |symbols| ensures DrawdownPlan(p, closes, CutFor(symbols[k], p, closes, t)) {
      CutForPromises(symbols[k], p, closes, t);
    }
  }

  lemma {:induction false} EveryPlanPromises(decisions: seq<Decision>, p: Portfolio, closes: map<Symbol, real>, t: Truncation)
    requires ValidPortfolio(p) && RoundsDown(t)
    requires Priced(DecidedSet(decisions) + SymbolSet(p.positions), closes)
    requires BuysRefused(decisions) && TargetsNonnegative(decisions)
    ensures AllDrawdownPlans(p, closes, AllPlans(decisions, p, closes, true, t))
  {
    hide DrawdownPlan;
    Mentions(decisions, p);
    PlansPromise(decisions, p, closes, t);
    CutsPromise(Undecided(decisions, p), p, closes, t);
  }

  /**
    Risk and planning composed: at a drawdown of twenty percent or more, whatever the
    strategy asked for, every symbol asked for or held gets exactly one plan, nothing is
    bought, and each holding is cut to half of its value or less, up to one quantum.
   */
  lemma {:induction false} DrawdownHalvesEveryHolding(intents: seq<Intent>, c: Context, roundings: seq<Rounding>,
                                                      closes: map<Symbol, real>, t: Truncation)
    requires ValidContext(c) && |intents| == |roundings| && DistinctSymbols(intents) && RoundsDown(t)
    requires forall n :: 0 <= n < |intents| ==> ValidIntent(intents[n]) && Directed(roundings[n])
    requires SameMarket(intents, c.portfolio.market) && AtTwenty(c.portfolio)
    requires forall s :: s in closes ==> closes[s] > 0.0
    requires IntentSymbols(intents) + SymbolSet(c.portfolio.positions) <= closes.Keys
    ensures var r := PlanOrders(EvaluateMany(intents, c, roundings).decisions, c.portfolio, closes, true, t);
            && r.Ok?
            && Distinct(PlanSymbols(r.value))
            && (forall s :: s in PlanSymbols(r.value) <==> s in IntentSymbols(intents) + SymbolSet(c.portfolio.positions))
            && AllDrawdownPlans(c.portfolio, closes, r.value)
  {
    var decisions := EvaluateMany(intents, c, roundings).decisions;
    DecidedOnIntents(intents, c, roundings);
    PlanningSucceedsIff(intents, c, roundings, closes, t);
    OnePlanPerSymbol(decisions, c.portfolio, closes, t);
    DrawdownDecisions(intents, c, roundings);
    EveryPlanPromises(decisions, c.portfolio, closes, t);
  }

  lemma {:induction false} DrawdownDecisions(intents: seq<Intent>, c: Context, roundings: seq<Rounding>)
    requires ValidContext(c) && |intents| == |roundings| && AtTwenty(c.portfolio)
    requires forall n :: 0 <= n < |intents| ==> ValidIntent(intents[n]) && Directed(roundings[n])
    ensures var decisions := EvaluateMany(intents, c, roundings).decisions;
            BuysRefused(decisions) && TargetsNonnegative(decisions)
  {
    var decisions := EvaluateMany(intents, c, roundings).decisions;
    DecisionsAgree(intents, c, roundings);
    EveryDecisionFits(intents, c, roundings);
    forall n | 0 <= n < |decisions|
      ensures decisions[n].intent.side == Buy ==> decisions[n].verdict == Refused
      ensures decisions[n].target.Some? ==> decisions[n].target.value >= 0.0
    {
      assert decisions[n].intent == intents[n] && DecisionFits(intents[n], decisions[n]);
    }
  }

  method MakePlans(decisions: seq<Decision>, p: Portfolio, closes: map<Symbol, real>, reducing: bool, t: Truncation)
    returns (r: Result<seq<Plan>, PlanFault>)
    requires forall s :: s in closes ==> closes[s] > 0.0
    ensures r == PlanOrders(decisions, p, closes, reducing, t)
  {
    for k := 0 to |decisions|
      invariant FirstMismatch(decisions, p.market, reducing) == FirstMismatch(decisions[k..], p.market, reducing)
    {
      var d := decisions[k];
      assert decisions[k..][0] == d && decisions[k..][1..] == decisions[k + 1..];
      if d.intent.market != p.market {
        return Err(ForeignMarket);
      }
      if d.reduction != reducing {
        return Err(ReductionMismatch);
      }
    }
    if !Distinct(DecidedSymbols(decisions)) {
      return Err(RepeatedSymbol);
    }
    if !(DecidedSet(decisions) + SymbolSet(p.positions) <= closes.Keys) {
      return Err(MissingClose);
    }
    var plans := DrawUp(decisions, p, closes, reducing, t);
    r := Ok(plans);
  }

  method PlanOne(d: Decision, p: Portfolio, closes: map<Symbol, real>, reducing: bool, t: Truncation) returns (plan: Plan)
    requires d.intent.symbol in closes && closes[d.intent.symbol] > 0.0
    ensures plan == PlanFor(d, p, closes, reducing, t)
  {
    var held := Find(p.positions, d.intent.symbol);
    if reducing && held.Some? {
      plan := ReductionPlan(held.value, p.nav, closes[d.intent.symbol], Some(d), t);
    } else {
      plan := StrategyPlan(d, p.nav, closes[d.intent.symbol], held, t);
    }
  }

  /** The plans of the decisions, and the holdings they speak of. */
  method PlanEach(decisions: seq<Decision>, p: Portfolio, closes: map<Symbol, real>, reducing: bool, t: Truncation)
    returns (plans: seq<Plan>, planned: set<Symbol>)
    requires DecisionsPriced(decisions, closes)
    ensures plans == PlansFor(decisions, p, closes, reducing, t)
    ensures planned == DecidedSet(decisions) * SymbolSet(p.positions)
  {
    hide PlanFor, DecidedSet, SymbolSet;
    plans, planned := [], {};
    NothingDecided();
    ghost var all := PlansFor(decisions, p, closes, reducing, t);
    for k := 0 to |decisions|
      invariant plans == all[..k]
      invariant planned == DecidedSet(decisions[..k]) * SymbolSet(p.positions)
    {
      var d := decisions[k];
      DecidedGrows(decisions, k);
      var plan := PlanOne(d, p, closes, reducing, t);
      assert plan == all[k];
      plans := plans + [plan];
      if d.intent.symbol in SymbolSet(p.positions) {
        planned := planned + {d.intent.symbol};
      }
    }
    assert decisions[..|decisions|] == decisions;
  }

  lemma {:induction false} NothingDecided()
    ensures DecidedSet([]) == {}
  {}

  method DrawUp(decisions: seq<Decision>, p: Portfolio, closes: map<Symbol, real>, reducing: bool, t: Truncation)
    returns (plans: seq<Plan>)
    requires Priced(DecidedSet(decisions) + SymbolSet(p.positions), closes)
    ensures plans == AllPlans(decisions, p, closes, reducing, t)
  {
    Mentions(decisions, p);
    var planned;
    plans, planned := PlanEach(decisions, p, closes, reducing, t);
    if reducing {
      var symbols := Sorted(SymbolSet(p.positions) - planned);
      assert SymbolSet(p.positions) - planned == SymbolSet(p.positions) - DecidedSet(decisions);
      var cuts := CutAll(symbols, p, closes, t);
      plans := plans + cuts;
    }
  }

  method CutAll(symbols: seq<Symbol>, p: Portfolio, closes: map<Symbol, real>, t: Truncation) returns (plans: seq<Plan>)
    requires forall s :: s in symbols ==> s in closes && closes[s] > 0.0 && s in SymbolSet(p.positions)
    ensures plans == CutsFor(symbols, p, closes, t)
  {
    plans := [];
    for k := 0 to |symbols|
      invariant plans == CutsFor(symbols, p, closes, t)[..k]
    {
      var symbol := symbols[k];
      plans := plans + [ReductionPlan(Find(p.positions, symbol).value, p.nav, closes[symbol], None, t)];
    }
  }

  lemma {:induction false} DecidedGrows(decisions: seq<Decision>, k: nat)
    requires k < |decisions|
    ensures DecidedSet(decisions[..k + 1]) == DecidedSet(decisions[..k]) + {decisions[k].intent.symbol}
  {
    var more, front := decisions[..k + 1], decisions[..k];
    assert more[k] == decisions[k];
    forall s | s in DecidedSet(more) ensures s in DecidedSet(front) + {decisions[k].intent.symbol} {
      var j :| 0 <= j < |more| && more[j].intent.symbol == s;
      if j < k {
        assert front[j].intent.symbol == s;
      }
    }
    forall s | s in DecidedSet(front) ensures s in DecidedSet(more) {
      var j :| 0 <= j < |front| && front[j].intent.symbol == s;
      assert more[j].intent.symbol == s;
    }
  }

  // ---- what planned buys cost ----

  /** A planned buy brings the holding, valued at the close, up to its target and never past it. */
  lemma {:induction false} BuyReachesTarget(d: Decision, nav: real, close: real, position: Option<Position>, t: Truncation)
    requires RoundsDown(t) && close > 0.0
    requires position.Some? ==> position.value.marketValue >= 0.0
    ensures var plan := StrategyPlan(d, nav, close, position, t);
            var current := if position.Some? then position.value.marketValue else 0.0;
            plan.order.Some? && plan.order.value.side == Buy ==>
              && d.intent.side == Buy && d.target.Some?
              && current + Notional(Traded(plan), close) <= Notional(d.target.value, nav)
                 < current + Notional(Traded(plan), close) + Notional(Tick(1), close)
  {
    var plan := StrategyPlan(d, nav, close, position, t);
    var current := if position.Some? then position.value.marketValue else 0.0;
    if plan.order.Some? && plan.order.value.side == Buy {
      var target := d.target.value;
      var delta := Notional(target, nav) - current;
      if delta > 0.0 {
        SizedQuantity(FromStrategy, d.intent.symbol, target, target, Buy, delta, close, t);
        FloorValue(delta, close);
      }
    }
  }

  /** A planned reduction brings the holding down to within one quantum of its target and never below it. */
  lemma {:induction false} ReduceReachesTarget(d: Decision, nav: real, close: real, position: Option<Position>, t: Truncation)
    requires RoundsDown(t) && close > 0.0 && d.intent.side == Reduce
    ensures var plan := StrategyPlan(d, nav, close, position, t);
            var current := if position.Some? then position.value.marketValue else 0.0;
            plan.order.Some? ==>
              && plan.order.value.side == Sell && d.target.Some?
              && current - Notional(Traded(plan), close) - Notional(Tick(1), close) < Notional(d.target.value, nav)
                 <= current - Notional(Traded(plan), close)
  {
    var plan := StrategyPlan(d, nav, close, position, t);
    if plan.order.Some? {
      var current := if position.Some? then position.value.marketValue else 0.0;
      var target := d.target.value;
      var amount := current - Notional(target, nav);
      if amount > 0.0 {
        SizedQuantity(FromStrategy, d.intent.symbol, target, target, Sell, amount, close, t);
        FloorValue(amount, close);
      }
    }
  }

  /** An approved sell closes the whole holding, exactly when there is one of supported size. */
  lemma {:induction false} SellClosesHolding(d: Decision, nav: real, close: real, position: Option<Position>, t: Truncation)
    requires close > 0.0 && d.intent.side == Sell && d.verdict != Refused && d.target == Some(0.0)
    ensures var plan := StrategyPlan(d, nav, close, position, t);
            && (plan.order.Some? <==> position.Some? && 0.0 < position.value.quantity < MAX_MAGNITUDE)
            && (plan.order.Some? ==>
                  plan.order.value == Backtest.PlannedOrder(d.intent.symbol, Sell, position.value.quantity))
  {
  }

  /** Money, at the close, of the planned buys in symbols outside `held`. */
  function NewBuyCost(plans: seq<Plan>, held: set<Symbol>, closes: map<Symbol, real>): real
    requires forall k :: 0 <= k < |plans| ==> plans[k].symbol in closes
  {
    if plans == [] then 0.0
    else NewBuyCost(plans[..|plans| - 1], held, closes) + CostOf(plans[|plans| - 1], held, closes)
  }

  function CostOf(plan: Plan, held: set<Symbol>, closes: map<Symbol, real>): real
    requires plan.symbol in closes
  {
    if plan.order.Some? && plan.order.value.side == Buy && plan.symbol !in held
    then Notional(Traded(plan), closes[plan.symbol]) else 0.0
  }

  function NotionalOf(d: Decision, c: Context): real {
    if Reserves(d) && d.intent.symbol !in SymbolSet(c.portfolio.positions) then Notional(d.target.value, c.portfolio.nav) else 0.0
  }

  lemma {:induction false} CostWithinNotional(d: Decision, c: Context, closes: map<Symbol, real>, reducing: bool, t: Truncation)
    requires ValidContext(c) && RoundsDown(t) && d.intent.symbol in closes && closes[d.intent.symbol] > 0.0
    requires d.target.Some? ==> d.target.value >= 0.0
    ensures CostOf(PlanFor(d, c.portfolio, closes, reducing, t), SymbolSet(c.portfolio.positions), closes) <= NotionalOf(d, c)
  {
    var p, close := c.portfolio, closes[d.intent.symbol];
    TotalValueNonnegative(p.positions);
    if d.intent.symbol !in SymbolSet(p.positions) {
      BuyReachesTarget(d, p.nav, close, None, t);
      if !Reserves(d) {
        NothingForNothing(d, p.nav, close, t);
      }
    }
  }

  lemma {:induction false} NothingForNothing(d: Decision, nav: real, close: real, t: Truncation)
    requires close > 0.0 && !Reserves(d)
    requires d.target.Some? ==> d.target.value >= 0.0
    ensures var plan := StrategyPlan(d, nav, close, None, t);
            !(plan.order.Some? && plan.order.value.side == Buy)
  {
    assert Notional(0.0, nav) == 0.0;
  }

  lemma {:induction false} CostsWithinNotional(decisions: seq<Decision>, c: Context, closes: map<Symbol, real>,
                                               reducing: bool, t: Truncation)
    requires ValidContext(c) && RoundsDown(t)
    requires DecisionsPriced(decisions, closes) && TargetsNonnegative(decisions)
    ensures NewBuyCost(PlansFor(decisions, c.portfolio, closes, reducing, t), SymbolSet(c.portfolio.positions), closes)
            <= NewNotional(decisions, c)
  {
    if decisions == [] {
    } else {
      var n := |decisions| - 1;
      CostsWithinNotional(decisions[..n], c, closes, reducing, t);
      CostWithinNotional(decisions[n], c, closes, reducing, t);
      LastCost(decisions, c, closes, reducing, t);
    }
  }

  lemma {:induction false} LastCost(decisions: seq<Decision>, c: Context, closes: map<Symbol, real>, reducing: bool, t: Truncation)
    requires decisions != [] && DecisionsPriced(decisions, closes)
    ensures var n, held := |decisions| - 1, SymbolSet(c.portfolio.positions);
            && NewBuyCost(PlansFor(decisions, c.portfolio, closes, reducing, t), held, closes) ==
               NewBuyCost(PlansFor(decisions[..n], c.portfolio, closes, reducing, t), held, closes)
               + CostOf(PlanFor(decisions[n], c.portfolio, closes, reducing, t), held, closes)
            && NewNotional(decisions, c) == NewNotional(decisions[..n], c) + NotionalOf(decisions[n], c)
  {
    hide PlanFor;
    var n := |decisions| - 1;
    var plans := PlansFor(decisions, c.portfolio, closes, reducing, t);
    assert plans[..n] == PlansFor(decisions[..n], c.portfolio, closes, reducing, t);
  }

  /**
    The daily cash rule survives planning: without a drawdown, the new positions a
    session plans to buy cost, at the close, no more than what was left of the budget.
   */
  lemma {:induction false} PlannedBuysWithinDailyCash(intents: seq<Intent>, c: Context, roundings: seq<Rounding>,
                                                      closes: map<Symbol, real>, t: Truncation)
    requires ValidContext(c) && |intents| == |roundings| && DistinctSymbols(intents) && RoundsDown(t)
    requires forall n :: 0 <= n < |intents| ==> ValidIntent(intents[n]) && Directed(roundings[n])
    requires forall s :: s in closes ==> closes[s] > 0.0
    requires SameMarket(intents, c.portfolio.market) && !AtTwenty(c.portfolio)
    requires IntentSymbols(intents) + SymbolSet(c.portfolio.positions) <= closes.Keys
    ensures var r := PlanOrders(EvaluateMany(intents, c, roundings).decisions, c.portfolio, closes, false, t);
            && r.Ok?
            && (forall k :: 0 <= k < |r.value| ==> r.value[k].symbol in closes)
            && NewBuyCost(r.value, SymbolSet(c.portfolio.positions), closes) <= NewPositionRoom(c, c.committed)
  {
    hide *;
    var decisions := EvaluateMany(intents, c, roundings).decisions;
    DecidedOnIntents(intents, c, roundings);
    PlanningSucceedsIff(intents, c, roundings, closes, t);
    DecisionsAreUsable(intents, c, roundings, closes);
    CostsWithinNotional(decisions, c, closes, false, t);
    NotionalWithinRoom(intents, c, roundings);
    WithoutReduction(decisions, c.portfolio, closes, t);
  }

  lemma {:induction false} DecisionsAreUsable(intents: seq<Intent>, c: Context, roundings: seq<Rounding>, closes: map<Symbol, real>)
    requires ValidContext(c) && |intents| == |roundings| && DistinctSymbols(intents)
    requires forall n :: 0 <= n < |intents| ==> ValidIntent(intents[n]) && Directed(roundings[n])
    requires forall s :: s in closes ==> closes[s] > 0.0
    requires IntentSymbols(intents) <= closes.Keys
    ensures var decisions := EvaluateMany(intents, c, roundings).decisions;
            DecisionsPriced(decisions, closes) && TargetsNonnegative(decisions)
  {
    var decisions := EvaluateMany(intents, c, roundings).decisions;
    EveryDecisionFits(intents, c, roundings);
    forall n | 0 <= n < |intents|
      ensures decisions[n].intent.symbol in closes && closes[decisions[n].intent.symbol] > 0.0
      ensures decisions[n].target.Some? ==> decisions[n].target.value >= 0.0
    {
      assert DecisionFits(intents[n], decisions[n]) && intents[n].symbol in IntentSymbols(intents);
    }
  }

  lemma {:induction false} NotionalWithinRoom(intents: seq<Intent>, c: Context, roundings: seq<Rounding>)
    requires ValidContext(c) && |intents| == |roundings| && DistinctSymbols(intents)
    requires forall n :: 0 <= n < |intents| ==> ValidIntent(intents[n]) && Directed(roundings[n])
    ensures NewNotional(EvaluateMany(intents, c, roundings).decisions, c) <= NewPositionRoom(c, c.committed)
  {
    TotalsFollowDecisions(intents, c, roundings);
    BatchKeepsLimits(intents, c, roundings);
  }

  /** Without a reduction the plans are one per decision. */
  lemma {:induction false} WithoutReduction(decisions: seq<Decision>, p: Portfolio, closes: map<Symbol, real>, t: Truncation)
    requires (forall s :: s in closes ==> closes[s] > 0.0) && PlanOrders(decisions, p, closes, false, t).Ok?
    requires DecisionsPriced(decisions, closes)
    ensures var plans := PlanOrders(decisions, p, closes, false, t).value;
            plans == PlansFor(decisions, p, closes, false, t) && forall k :: 0 <= k < |plans| ==> plans[k].symbol in closes
  {
    hide PlanFor;
    assert PlansFor(decisions, p, closes, false, t) + [] == PlansFor(decisions, p, closes, false, t);
  }

  // ---- exactly which order is planned ----

  /** Shares for an amount of money at the close: its quotient floored, if that is something and in range. */
  function SharesFor(amount: real, close: real): Option<real>
    requires close > 0.0
  {
    if amount > 0.0 && amount / close < MAX_MAGNITUDE && Floor12(amount / close) > 0.0 then Some(Floor12(amount / close))
    else None
  }

  function OrderOf(symbol: Symbol, side: Side, quantity: Option<real>): Option<PlannedOrder> {
    match quantity case Some(q) => Some(Backtest.PlannedOrder(symbol, side, q)) case None => None
  }

  function ValueOfHolding(position: Option<Position>): real {
    if position.Some? then position.value.marketValue else 0.0
  }

  /** The order a decision calls for, in exact arithmetic. */
  function CalledFor(d: Decision, nav: real, close: real, position: Option<Position>): Option<PlannedOrder>
    requires close > 0.0
  {
    var i := d.intent;
    if d.verdict == Refused || d.target.None? || i.side == Hold then None
    else if i.side == Sell then
      (if d.target.value == 0.0 && position.Some? && 0.0 < position.value.quantity < MAX_MAGNITUDE
       then Some(Backtest.PlannedOrder(i.symbol, Sell, position.value.quantity)) else None)
    else if i.side == Buy then
      OrderOf(i.symbol, Buy, SharesFor(Notional(d.target.value, nav) - ValueOfHolding(position), close))
    else
      OrderOf(i.symbol, Sell, SharesFor(ValueOfHolding(position) - Notional(d.target.value, nav), close))
  }

  /** What each reason for having no order says, and whether the plan is stopped or merely skipped. */
  predicate Explains(reason: Reason, status: PlanStatus, d: Decision, nav: real, close: real, position: Option<Position>)
    requires close > 0.0
  {
    var side := d.intent.side;
    var live := d.verdict != Refused && d.target.Some?;
    var gap := if d.target.Some? then Notional(d.target.value, nav) - ValueOfHolding(position) else 0.0;
    var toTrade := if side == Buy then gap else -gap;
    match reason
    case RiskRefused => status == Stopped && d.verdict == Refused
    case NoTarget => status == Stopped && d.verdict != Refused && d.target.None?
    case HoldHasNoOrder => status == Skipped && live && side == Hold
    case SellTargetNotZero => status == Stopped && live && side == Sell && d.target.value != 0.0
    case NothingHeld => status == Skipped && live && side == Sell && d.target.value == 0.0 && position.None?
    case OutOfRange =>
      && status == Stopped && live && side == Sell && d.target.value == 0.0
      && position.Some? && !(0.0 < position.value.quantity < MAX_MAGNITUDE)
    case NoDelta => status == Skipped && live && side in {Buy, Reduce} && gap == 0.0
    case BuyNeedsIncrease => status == Stopped && live && side == Buy && gap < 0.0
    case ReduceNeedsDecrease => status == Stopped && live && side == Reduce && gap > 0.0
    case ArithmeticFailed => status == Stopped && live && side in {Buy, Reduce} && toTrade > 0.0 && toTrade / close >= MAX_MAGNITUDE
    case FloorsToZero =>
      && status == Skipped && live && side in {Buy, Reduce} && toTrade > 0.0
      && toTrade / close < MAX_MAGNITUDE && Floor12(toTrade / close) == 0.0
  }

  /** The quantity shown before the floor: at most the exact quotient, and flooring to the same. */
  predicate Truncated(raw: Option<real>, amount: real, close: real)
    requires close > 0.0
  {
    raw.Some? && 0.0 <= raw.value <= amount / close && Floor12(raw.value) == Floor12(amount / close)
  }

  /** The raw quantity a plan shows. */
  ghost predicate RawFor(d: Decision, nav: real, close: real, position: Option<Position>, plan: Plan)
    requires close > 0.0 && d.target.Some?
  {
    var gap := Notional(d.target.value, nav) - ValueOfHolding(position);
    var toTrade := if d.intent.side == Buy then gap else -gap;
    match plan.reason
    case None =>
      if d.intent.side == Sell then position.Some? && plan.raw == Some(position.value.quantity)
      else Truncated(plan.raw, toTrade, close)
    case Some(FloorsToZero) => Truncated(plan.raw, toTrade, close)
    case Some(OutOfRange) => position.Some? && plan.raw == Some(position.value.quantity)
    case Some(reason) => plan.raw == if reason in {NothingHeld, NoDelta} then Some(0.0) else None
  }

  /** The plan of a decision: exactly the order called for, or why there is none. */
  ghost predicate RightPlan(d: Decision, nav: real, close: real, position: Option<Position>, plan: Plan)
    requires close > 0.0
  {
    && plan.source == FromStrategy && plan.symbol == d.intent.symbol
    && plan.target == (if d.verdict != Refused && d.target.Some? then d.target.value else d.intent.target)
    && plan.effective.None? && plan.order == CalledFor(d, nav, close, position)
    && (if d.target.Some? then RawFor(d, nav, close, position, plan) else plan.raw.None?)
    && (plan.order.Some? ==> plan.status == Ready && plan.reason.None?)
    && (plan.order.None? ==> plan.reason.Some? && Explains(plan.reason.value, plan.status, d, nav, close, position))
  }

  lemma {:induction false} SizedIsRight(source: Source, symbol: Symbol, target: real, failTarget: real, side: Side,
                                        amount: real, close: real, t: Truncation)
    requires amount > 0.0 && close > 0.0 && RoundsDown(t)
    ensures var plan := Sized(source, symbol, target, failTarget, side, amount, close, t);
            && plan.source == source && plan.symbol == symbol && plan.effective.None?
            && plan.order == OrderOf(symbol, side, SharesFor(amount, close))
            && (plan.reason == Some(ArithmeticFailed) ==> plan.raw.None?)
            && (plan.reason != Some(ArithmeticFailed) ==> Truncated(plan.raw, amount, close))
            && (plan.order.Some? ==> plan.status == Ready && plan.reason.None? && plan.target == target)
            && (plan.order.None? ==>
                  if amount / close >= MAX_MAGNITUDE
                  then plan.status == Stopped && plan.reason == Some(ArithmeticFailed) && plan.target == failTarget
                  else plan.status == Skipped && plan.reason == Some(FloorsToZero) && Floor12(amount / close) == 0.0
                       && plan.target == target)
  {
    hide RoundsDown, Floor12;
    FloorAfterTruncation(amount / close, t);
    FloorNonnegative(amount / close);
    Truncates(t, amount / close);
    FloorNonnegative(t(amount / close));
  }

  lemma {:induction false} Truncates(t: Truncation, x: real)
    requires RoundsDown(t) && x >= 0.0
    ensures 0.0 <= t(x) <= x
  {}

  lemma {:induction false} StrategyIsRight(d: Decision, nav: real, close: real, position: Option<Position>, t: Truncation)
    requires close > 0.0 && RoundsDown(t)
    ensures RightPlan(d, nav, close, position, StrategyPlan(d, nav, close, position, t))
  {
    hide RoundsDown, Floor12, Notional, Sized, SharesFor, Truncated;
    if d.verdict != Refused && d.target.Some? && d.intent.side in {Buy, Reduce} {
      DeltaIsRight(d, nav, close, position, t);
    }
  }

  lemma {:induction false} DeltaIsRight(d: Decision, nav: real, close: real, position: Option<Position>, t: Truncation)
    requires close > 0.0 && RoundsDown(t) && d.verdict != Refused && d.target.Some? && d.intent.side in {Buy, Reduce}
    ensures RightPlan(d, nav, close, position,
                      DeltaPlan(d.intent.symbol, d.intent.side == Buy, d.target.value, nav, close, position, t))
  {
    hide RoundsDown, Floor12, Notional, Sized, Truncated;
    var target := d.target.value;
    var gap := Notional(target, nav) - ValueOfHolding(position);
    var toTrade := if d.intent.side == Buy then gap else -gap;
    if toTrade > 0.0 {
      SizedIsRight(FromStrategy, d.intent.symbol, target, target, if d.intent.side == Buy then Buy else Sell, toTrade, close, t);
    }
  }

  // ---- exactly what a drawdown cuts ----

  /** The target of a cut: half the weight, floored, or the approved target if that is lower. */
  function CutTo(held: Position, nav: real, d: Option<Decision>): real {
    var half := if nav == 0.0 then 0.0 else Floor12(held.marketValue / nav / 2.0);
    if d.Some? && d.value.verdict != Refused && d.value.target.Some? && d.value.target.value < half
    then d.value.target.value else half
  }

  /** The cut of one holding: exactly the shares down to its target, or why there are none. */
  ghost predicate RightCut(held: Position, nav: real, close: real, d: Option<Decision>, plan: Plan)
    requires close > 0.0
  {
    var excess := held.marketValue - Notional(CutTo(held, nav, d), nav);
    && plan.source == FromReduction && plan.symbol == held.symbol && plan.effective.None?
    && plan.order == OrderOf(held.symbol, Sell, SharesFor(excess, close))
    && plan.target == (if plan.reason == Some(ArithmeticFailed) then 0.0 else CutTo(held, nav, d))
    && (match plan.reason
        case Some(NoDelta) => plan.raw == Some(0.0)
        case Some(ArithmeticFailed) => plan.raw.None?
        case _ => Truncated(plan.raw, excess, close))
    && (plan.order.Some? ==> plan.status == Ready && plan.reason.None?)
    && (plan.order.None? ==>
          plan.reason == Some(if excess <= 0.0 then NoDelta
                              else if excess / close >= MAX_MAGNITUDE then ArithmeticFailed else FloorsToZero)
          && plan.status == if plan.reason == Some(ArithmeticFailed) then Stopped else Skipped)
  }

  lemma {:induction false} CutIsRight(held: Position, nav: real, close: real, d: Option<Decision>, t: Truncation)
    requires close > 0.0 && RoundsDown(t) && 0.0 <= held.marketValue <= nav
    ensures RightCut(held, nav, close, d, ReductionPlan(held, nav, close, d, t))
  {
    hide RoundsDown, Floor12, Notional, Sized, HalfWeight, Truncated;
    HalfIsExact(held.marketValue, nav, t);
    var target := ReductionTarget(held, nav, d, t);
    assert target == CutTo(held, nav, d);
    var excess := held.marketValue - Notional(target, nav);
    if excess > 0.0 {
      SizedIsRight(FromReduction, held.symbol, target, 0.0, Sell, excess, close, t);
    }
  }

  lemma {:induction false} HalfIsExact(value: real, nav: real, t: Truncation)
    requires RoundsDown(t) && 0.0 <= value <= nav
    ensures HalfWeight(value, nav, t) == if nav == 0.0 then 0.0 else Floor12(value / nav / 2.0)
  {
    hide RoundsDown, Floor12;
    if nav > 0.0 {
      WeightOf(value, nav);
      HalfAfterTruncation(value / nav, t);
    }
  }

  // ---- exactly what a session plans ----

  /** The plan of the k-th decision of a round. */
  ghost predicate RightFor(d: Decision, p: Portfolio, closes: map<Symbol, real>, reducing: bool, plan: Plan)
    requires d.intent.symbol in closes && closes[d.intent.symbol] > 0.0
  {
    var close, held := closes[d.intent.symbol], Find(p.positions, d.intent.symbol);
    if reducing && held.Some? then RightCut(held.value, p.nav, close, Some(d), plan)
    else RightPlan(d, p.nav, close, held, plan)
  }

  /** All plans of a round: one for each decision, in order, and in a drawdown a cut of every other holding. */
  ghost predicate RightPlans(decisions: seq<Decision>, p: Portfolio, closes: map<Symbol, real>, reducing: bool,
                             plans: seq<Plan>)
    requires Priced(DecidedSet(decisions) + SymbolSet(p.positions), closes)
  {
    var rest := if reducing then Undecided(decisions, p) else [];
    Mentions(decisions, p);
    && |plans| == |decisions| + |rest|
    && (forall k :: 0 <= k < |decisions| ==> RightFor(decisions[k], p, closes, reducing, plans[k]))
    && forall k :: 0 <= k < |rest| ==> RightRest(rest[k], p, closes, plans[|decisions| + k])
  }

  ghost predicate RightRest(s: Symbol, p: Portfolio, closes: map<Symbol, real>, plan: Plan) {
    s in closes && closes[s] > 0.0 && s in SymbolSet(p.positions)
    && RightCut(Find(p.positions, s).value, p.nav, closes[s], None, plan)
  }

  lemma {:induction false} PlanForIsRight(d: Decision, p: Portfolio, closes: map<Symbol, real>, reducing: bool, t: Truncation)
    requires ValidPortfolio(p) && RoundsDown(t) && d.intent.symbol in closes && closes[d.intent.symbol] > 0.0
    ensures RightFor(d, p, closes, reducing, PlanFor(d, p, closes, reducing, t))
  {
    hide RightCut, RightPlan, ReductionPlan, StrategyPlan, RoundsDown;
    var close, held := closes[d.intent.symbol], Find(p.positions, d.intent.symbol);
    if reducing && held.Some? {
      PositionWithinTotal(p.positions, held.value);
      CutIsRight(held.value, p.nav, close, Some(d), t);
    } else {
      StrategyIsRight(d, p.nav, close, held, t);
    }
  }

  lemma {:induction false} RestIsRight(s: Symbol, p: Portfolio, closes: map<Symbol, real>, t: Truncation)
    requires ValidPortfolio(p) && RoundsDown(t) && s in closes && closes[s] > 0.0 && s in SymbolSet(p.positions)
    ensures RightRest(s, p, closes, CutFor(s, p, closes, t))
  {
    hide RightCut, ReductionPlan, RoundsDown;
    var held := Find(p.positions, s).value;
    PositionWithinTotal(p.positions, held);
    CutIsRight(held, p.nav, closes[s], None, t);
  }

  /** A planning round plans exactly the orders its decisions and its drawdown call for. */
  lemma {:induction false} PlansAreRight(decisions: seq<Decision>, p: Portfolio, closes: map<Symbol, real>,
                                         reducing: bool, t: Truncation)
    requires ValidPortfolio(p) && RoundsDown(t) && forall s :: s in closes ==> closes[s] > 0.0
    requires PlanOrders(decisions, p, closes, reducing, t).Ok?
    ensures Priced(DecidedSet(decisions) + SymbolSet(p.positions), closes)
    ensures RightPlans(decisions, p, closes, reducing, PlanOrders(decisions, p, closes, reducing, t).value)
  {
    hide RightFor, RightRest, PlanFor, CutFor, RoundsDown, ValidPortfolio, DecidedSet, SymbolSet, Undecided;
    Mentions(decisions, p);
    forall k | 0 <= k < |decisions|
      ensures RightFor(decisions[k], p, closes, reducing, PlanFor(decisions[k], p, closes, reducing, t))
    {
      PlanForIsRight(decisions[k], p, closes, reducing, t);
    }
    var rest := if reducing then Undecided(decisions, p) else [];
    forall k | 0 <= k < |rest| ensures RightRest(rest[k], p, closes, CutFor(rest[k], p, closes, t)) {
      RestIsRight(rest[k], p, closes, t);
    }
  }

  /** An approved intent outside a drawdown: a sell closes, a hold does nothing, and nothing else ever sells a hold or buys a sell. */
  lemma {:induction false} SidesFollowIntents(d: Decision, nav: real, close: real, position: Option<Position>)
    requires close > 0.0
    ensures var order := CalledFor(d, nav, close, position);
            && (order.Some? ==> d.verdict != Refused && order.value.symbol == d.intent.symbol && order.value.quantity > 0.0)
            && (order.Some? && order.value.side == Buy ==> d.intent.side == Buy)
            && (order.Some? && order.value.side != Buy ==> order.value.side == Sell && d.intent.side in {Sell, Reduce})
            && (d.intent.side == Hold ==> order.None?)
  {}

  /**
    Risk and planning composed: outside a drawdown of twenty percent, an intent to sell a
    held symbol of supported size ends in a ready order for the whole holding.
   */
  lemma {:induction false} SellIntentCloses(intents: seq<Intent>, c: Context, roundings: seq<Rounding>,
                                            closes: map<Symbol, real>, t: Truncation, n: nat, held: Position)
    requires ValidContext(c) && |intents| == |roundings| && DistinctSymbols(intents) && RoundsDown(t)
    requires forall k :: 0 <= k < |intents| ==> ValidIntent(intents[k]) && Directed(roundings[k])
    requires forall s :: s in closes ==> closes[s] > 0.0
    requires SameMarket(intents, c.portfolio.market) && !AtTwenty(c.portfolio)
    requires IntentSymbols(intents) + SymbolSet(c.portfolio.positions) <= closes.Keys
    requires n < |intents| && intents[n].side == Sell && held in c.portfolio.positions && held.symbol == intents[n].symbol
    requires held.quantity < MAX_MAGNITUDE
    ensures var r := PlanOrders(EvaluateMany(intents, c, roundings).decisions, c.portfolio, closes, false, t);
            && r.Ok? && |r.value| == |intents| && r.value[n].status == Ready
            && r.value[n].order == Some(Backtest.PlannedOrder(held.symbol, Sell, held.quantity))
            && Backtest.PlannedOrder(held.symbol, Sell, held.quantity) in ReadyOrders(r.value)
  {
    hide Directed, RoundsDown, RightFor, RightDecision, DecidedSet, IntentSymbols, EvaluateMany, ReadyOrders, SymbolSet, AtTwenty;
    var decisions := EvaluateMany(intents, c, roundings).decisions;
    DecidedOnIntents(intents, c, roundings);
    PlanningSucceedsIff(intents, c, roundings, closes, t);
    PlansAreRight(decisions, c.portfolio, closes, false, t);
    SellIsApproved(intents, c, roundings, n);
    var plans := PlanOrders(decisions, c.portfolio, closes, false, t).value;
    Mentions(decisions, c.portfolio);
    assert decisions[n].intent.symbol in DecidedSet(decisions) + SymbolSet(c.portfolio.positions);
    SellIsPlanned(decisions[n], c.portfolio, closes, held, plans[n]);
    ReadyOrdersHold(plans, n);
  }

  lemma {:induction false} SellIsApproved(intents: seq<Intent>, c: Context, roundings: seq<Rounding>, n: nat)
    requires ValidContext(c) && |intents| == |roundings| && n < |intents|
    requires forall k :: 0 <= k < |intents| ==> ValidIntent(intents[k]) && Directed(roundings[k])
    requires intents[n].side == Sell && intents[n].market == c.portfolio.market
    ensures var d := EvaluateMany(intents, c, roundings).decisions[n];
            d.intent == intents[n] && d.verdict == Approved && d.target == Some(0.0)
  {
    hide EvaluateMany, Directed, Speaks, ValidContext;
    EveryDecisionIsRight(intents, c, roundings, n);
  }

  lemma {:induction false} SellIsPlanned(d: Decision, p: Portfolio, closes: map<Symbol, real>, held: Position, plan: Plan)
    requires ValidPortfolio(p) && held in p.positions && held.symbol == d.intent.symbol && held.quantity < MAX_MAGNITUDE
    requires d.intent.symbol in closes && closes[d.intent.symbol] > 0.0
    requires d.intent.side == Sell && d.verdict == Approved && d.target == Some(0.0)
    requires RightFor(d, p, closes, false, plan)
    ensures plan.order == Some(Backtest.PlannedOrder(held.symbol, Sell, held.quantity)) && plan.status == Ready
  {
    hide TotalValue;
    SamePosition(p.positions, held);
  }

  lemma {:induction false} ReadyOrdersHold(plans: seq<Plan>, k: nat)
    requires k < |plans| && plans[k].status == Ready && plans[k].order.Some?
    ensures plans[k].order.value in ReadyOrders(plans)
    decreases |plans|
  {
    var n := |plans| - 1;
    if k < n {
      ReadyOrdersHold(plans[..n], k);
    }
  }

  // ---- handing orders to the desk ----

  function ReadyOrders(plans: seq<Plan>): seq<PlannedOrder> {
    if plans == [] then []
    else
      var last := plans[|plans| - 1];
      ReadyOrders(plans[..|plans| - 1]) +
      if last.status == Ready && last.order.Some? then [last.order.value] else []
  }

  /** A plan whose order, if any, is for its own symbol, executable and positive. */
  predicate Executable(plan: Plan) {
    && (plan.status == Ready <==> plan.order.Some?)
    && (plan.order.Some? ==>
          && plan.order.value.symbol == plan.symbol
          && plan.order.value.side in {Buy, Sell} && plan.order.value.quantity > 0.0)
  }

  lemma {:induction false} SizedExecutable(source: Source, symbol: Symbol, target: real, failTarget: real, side: Side,
                                           amount: real, close: real, t: Truncation)
    requires amount > 0.0 && close > 0.0 && RoundsDown(t) && side in {Buy, Sell}
    ensures Executable(Sized(source, symbol, target, failTarget, side, amount, close, t))
  {
    SizedQuantity(source, symbol, target, failTarget, side, amount, close, t);
  }

  lemma {:induction false} DeltaExecutable(symbol: Symbol, buying: bool, target: real, nav: real, close: real,
                                           position: Option<Position>, t: Truncation)
    requires close > 0.0 && RoundsDown(t)
    ensures Executable(DeltaPlan(symbol, buying, target, nav, close, position, t))
  {
    var current := if position.Some? then position.value.marketValue else 0.0;
    var delta := Notional(target, nav) - current;
    if delta != 0.0 {
      SizedExecutable(FromStrategy, symbol, target, target, if buying then Buy else Sell,
                      if delta < 0.0 then -delta else delta, close, t);
    }
  }

  lemma {:induction false} StrategyExecutable(d: Decision, nav: real, close: real, held: Option<Position>, t: Truncation)
    requires RoundsDown(t) && close > 0.0
    ensures Executable(StrategyPlan(d, nav, close, held, t))
  {
    hide DeltaPlan;
    if d.target.Some? {
      DeltaExecutable(d.intent.symbol, true, d.target.value, nav, close, held, t);
      DeltaExecutable(d.intent.symbol, false, d.target.value, nav, close, held, t);
    }
  }

  lemma {:induction false} PlanExecutable(d: Decision, p: Portfolio, closes: map<Symbol, real>, reducing: bool, t: Truncation)
    requires RoundsDown(t) && d.intent.symbol in closes && closes[d.intent.symbol] > 0.0
    ensures Executable(PlanFor(d, p, closes, reducing, t))
  {
    hide StrategyPlan, ReductionPlan;
    var close, held := closes[d.intent.symbol], Find(p.positions, d.intent.symbol);
    if reducing && held.Some? {
      CutExecutable(held.value, p.nav, close, Some(d), t);
    }
    StrategyExecutable(d, p.nav, close, held, t);
  }

  lemma {:induction false} CutExecutable(held: Position, nav: real, close: real, d: Option<Decision>, t: Truncation)
    requires close > 0.0 && RoundsDown(t)
    ensures Executable(ReductionPlan(held, nav, close, d, t))
  {
    var target := ReductionTarget(held, nav, d, t);
    var delta := held.marketValue - Notional(target, nav);
    if delta > 0.0 {
      SizedExecutable(FromReduction, held.symbol, target, 0.0, Sell, delta, close, t);
    }
  }

  lemma {:induction false} PlansExecutable(decisions: seq<Decision>, p: Portfolio, closes: map<Symbol, real>,
                                           reducing: bool, t: Truncation)
    requires RoundsDown(t)
    requires DecisionsPriced(decisions, closes)
    ensures forall plan :: plan in PlansFor(decisions, p, closes, reducing, t) ==> Executable(plan)
  {
    forall k | 0 <= k < |decisions| ensures Executable(PlanFor(decisions[k], p, closes, reducing, t)) {
      PlanExecutable(decisions[k], p, closes, reducing, t);
    }
  }

  lemma {:induction false} CutsExecutable(symbols: seq<Symbol>, p: Portfolio, closes: map<Symbol, real>, t: Truncation)
    requires RoundsDown(t)
    requires forall s :: s in symbols ==> s in closes && closes[s] > 0.0 && s in SymbolSet(p.positions)
    ensures forall plan :: plan in CutsFor(symbols, p, closes, t) ==> Executable(plan)
  {
    forall k | 0 <= k < |symbols| ensures Executable(CutFor(symbols[k], p, closes, t)) {
      var s := symbols[k];
      CutExecutable(Find(p.positions, s).value, p.nav, closes[s], None, t);
    }
  }

  lemma {:induction false} AllExecutable(decisions: seq<Decision>, p: Portfolio, closes: map<Symbol, real>,
                                         reducing: bool, t: Truncation)
    requires RoundsDown(t) && Priced(DecidedSet(decisions) + SymbolSet(p.positions), closes)
    ensures forall plan :: plan in AllPlans(decisions, p, closes, reducing, t) ==> Executable(plan)
  {
    Mentions(decisions, p);
    PlansExecutable(decisions, p, closes, reducing, t);
    CutsExecutable(Undecided(decisions, p), p, closes, t);
  }

  lemma {:induction false} AllDistinct(decisions: seq<Decision>, p: Portfolio, closes: map<Symbol, real>,
                                       reducing: bool, t: Truncation)
    requires Priced(DecidedSet(decisions) + SymbolSet(p.positions), closes) && Distinct(DecidedSymbols(decisions))
    ensures Distinct(PlanSymbols(AllPlans(decisions, p, closes, reducing, t)))
  {
    Mentions(decisions, p);
    if reducing {
      OnePlanPerSymbol(decisions, p, closes, t);
    } else {
      assert PlanSymbols(AllPlans(decisions, p, closes, reducing, t)) == DecidedSymbols(decisions);
    }
  }

  lemma {:induction false} ReadyOrdersComeFromPlans(plans: seq<Plan>)
    requires (forall plan :: plan in plans ==> Executable(plan)) && Distinct(PlanSymbols(plans))
    ensures forall j, k :: 0 <= j < k < |ReadyOrders(plans)| ==> ReadyOrders(plans)[j].symbol != ReadyOrders(plans)[k].symbol
    ensures forall j :: 0 <= j < |ReadyOrders(plans)| ==>
              && ReadyOrders(plans)[j].symbol in PlanSymbols(plans)
              && ReadyOrders(plans)[j].side in {Buy, Sell} && ReadyOrders(plans)[j].quantity > 0.0
  {
    if plans == [] {
    } else {
      var n := |plans| - 1;
      var front := plans[..n];
      assert plans[n] in plans;
      assert PlanSymbols(front) == PlanSymbols(plans)[..n];
      assert PlanSymbols(plans)[n] == plans[n].symbol;
      ReadyOrdersComeFromPlans(front);
    }
  }

  /** The ready orders of any planning round are a plan the session loop accepts. */
  lemma {:induction false} PlannedOrdersAreValid(decisions: seq<Decision>, p: Portfolio, closes: map<Symbol, real>,
                                                 reducing: bool, t: Truncation, spec: Backtest.Spec)
    requires RoundsDown(t) && forall s :: s in closes ==> closes[s] > 0.0
    requires PlanOrders(decisions, p, closes, reducing, t).Ok?
    requires DecidedSet(decisions) + SymbolSet(p.positions) <= spec.universe
    ensures Backtest.ValidPlan(spec, ReadyOrders(PlanOrders(decisions, p, closes, reducing, t).value))
  {
    var plans := AllPlans(decisions, p, closes, reducing, t);
    AllExecutable(decisions, p, closes, reducing, t);
    AllDistinct(decisions, p, closes, reducing, t);
    ReadyOrdersComeFromPlans(plans);
    PlansStayInUniverse(decisions, p, closes, reducing, t);
  }

  lemma {:induction false} PlansStayInUniverse(decisions: seq<Decision>, p: Portfolio, closes: map<Symbol, real>,
                                               reducing: bool, t: Truncation)
    requires Priced(DecidedSet(decisions) + SymbolSet(p.positions), closes)
    ensures forall s :: s in PlanSymbols(AllPlans(decisions, p, closes, reducing, t)) ==>
              s in DecidedSet(decisions) + SymbolSet(p.positions)
  {
    Mentions(decisions, p);
    var plans, rest := AllPlans(decisions, p, closes, reducing, t), Undecided(decisions, p);
    forall k | 0 <= k < |plans| ensures plans[k].symbol in DecidedSet(decisions) + SymbolSet(p.positions) {
      if k >= |decisions| {
        assert rest[k - |decisions|] in rest;
      }
    }
  }

  /** Recording what the desk answered to a ready plan. */
  function RecordSubmission(plan: Plan, intent: OrderDesk.OrderIntent, answer: OrderDesk.Fill): Option<Plan> {
    if plan.status != Ready || plan.order.None? || answer.requested > plan.order.value.quantity || answer.intent != intent
    then None
    else Some(plan.(status := Submitted, effective := Some(answer.requested)))
  }

  /** Whatever the desk answers, the answer can be recorded: it never increases the order. */
  lemma {:induction false} SubmissionsCanBeRecorded(plan: Plan, d: OrderDesk.Desk, intent: OrderDesk.OrderIntent, session: Date)
    requires OrderDesk.ValidDesk(d) && Executable(plan) && plan.status == Ready
    requires intent.quantity == plan.order.value.quantity
    ensures var answer := OrderDesk.Submit(d, intent, session).1;
            && RecordSubmission(plan, intent, answer) ==
               Some(plan.(status := Submitted, effective := Some(answer.requested)))
            && 0.0 < answer.requested <= plan.order.value.quantity
            && (answer.status == OrderDesk.PENDING || answer.requested == plan.order.value.quantity)
  {
    var answer := OrderDesk.Submit(d, intent, session).1;
    match OrderDesk.Admit(d, intent, session)
    case Ok(pending) =>
      assert OrderDesk.ValidPending(pending);
    case Err(_) =>
  }
}
