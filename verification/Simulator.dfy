/**
  The simulator object, and what one drain of its queue keeps: the queue, the cash of
  every account, and the shares each account may sell.
  (src/stock_agent/execution/simulator.py, `ExecutionSimulator`.)
 */
module Simulator {
  import opened Common
  import opened Fifo
  import opened Book
  import opened Calendar
  import opened Rules
  import opened OrderDesk

  // ---- the queue splits into results and an untouched remainder ----

  function Ended(f: Frame, pending: seq<Pending>): seq<Pending> {
    if pending == [] then []
    else
      var p := pending[|pending| - 1];
      Ended(f, pending[..|pending| - 1]) + if Ends(f, p) then [p] else []
  }

  function Waits(f: Frame, pending: seq<Pending>): seq<Pending> {
    if pending == [] then []
    else
      var p := pending[|pending| - 1];
      Waits(f, pending[..|pending| - 1]) + if Ends(f, p) then [] else [p]
  }

  /** A result that ends the order `p` at the open of `f`. */
  predicate Terminates(f: Frame, p: Pending, r: Fill) {
    && r.intent == p.intent && r.requested == p.effective
    && match r.status
       case PENDING => false
       case REJECTED => r.filled == 0.0 && r.price.None? && r.fees == 0.0 && r.session.None? && r.reason.Some?
       case FILLED =>
         && r.filled == p.effective && r.session == Some(f.session) && r.reason.None?
         && p.intent.symbol in f.opens && r.price == Some(f.opens[p.intent.symbol])
         && Supported(f.opens[p.intent.symbol]) && Supported(r.fees) && r.fees >= 0.0
  }

  ghost predicate Ready(f: Frame, rule: Rule, bps: real, pending: seq<Pending>) {
    && ValidRule(rule) && ValidFrame(f) && bps >= 0.0
    && forall i :: 0 <= i < |pending| ==> ValidPending(pending[i]) && Covers(f.cash, f, pending[i])
  }

  lemma {:induction false} OneOrderEndsOrWaits(f: Frame, rule: Rule, bps: real, before: Drained, p: Pending)
    requires ValidRule(rule) && ValidFrame(f) && ValidPending(p) && bps >= 0.0 && Covers(before.cash, f, p)
    ensures var after := DrainOne(f, rule, bps, before, p);
            if Ends(f, p) then
              && after.waiting == before.waiting
              && |after.fills| == |before.fills| + 1 && after.fills[..|before.fills|] == before.fills
              && Terminates(f, p, after.fills[|before.fills|])
            else
              after == before.(waiting := before.waiting + [p])
  {
  }

  /**
    Draining splits the queue in order: every order that ends gets exactly one
    terminal result, and the others wait unchanged.
   */
  lemma {:induction false} QueueSplits(f: Frame, rule: Rule, bps: real, pending: seq<Pending>)
    requires Ready(f, rule, bps, pending)
    ensures var r := Drain(f, rule, bps, pending);
            && r.waiting == Waits(f, pending)
            && |r.fills| == |Ended(f, pending)|
            && forall i :: 0 <= i < |r.fills| ==> Terminates(f, Ended(f, pending)[i], r.fills[i])
  {
    if pending == [] {
    } else {
      var front, p := pending[..|pending| - 1], pending[|pending| - 1];
      assert Covers(f.cash, f, p);
      QueueSplits(f, rule, bps, front);
      OneOrderEndsOrWaits(f, rule, bps, Drain(f, rule, bps, front), p);
    }
  }

  // ---- cash ----

  function Movement(r: Fill, account: Id): real {
    if r.status != FILLED || r.intent.account != account || r.price.None? then 0.0
    else Change(r.intent.side, r.filled, r.price.value, r.fees)
  }

  function Change(side: Side, q: real, price: real, fees: real): real {
    if side == Sell then q * price - fees else -(q * price + fees)
  }

  /** Sell proceeds less buy costs of the filled results of one account. */
  function Net(fills: seq<Fill>, account: Id): real {
    if fills == [] then 0.0
    else Net(fills[..|fills| - 1], account) + Movement(fills[|fills| - 1], account)
  }

  lemma {:induction false} NetAppend(fills: seq<Fill>, r: Fill, account: Id)
    ensures Net(fills + [r], account) == Net(fills, account) + Movement(r, account)
  {
    assert (fills + [r])[..|fills|] == fills;
  }

  ghost predicate Solvent(cash: map<Id, real>) {
    forall a :: a in cash ==> cash[a] >= 0.0 && Supported(cash[a])
  }

  lemma {:induction false} SettleMeaning(cash: real, side: Side, q: real, price: real, fees: real)
    requires cash >= 0.0 && Settle(cash, side, q, price, fees).Ok?
    ensures var left := Settle(cash, side, q, price, fees).value;
            && left >= 0.0 && Supported(left)
            && left == cash + Change(side, q, price, fees)
  {
  }

  lemma {:induction false} RecordMovesCash(f: Frame, before: Drained, p: Pending, decided: Result<Execution, Reason>, account: Id)
    requires before.cash.Some? && account in before.cash.value && p.intent.account in before.cash.value
    requires Solvent(before.cash.value)
    requires decided.Ok? ==>
               && decided.value.cash.Some?
               && decided.value.cash.value >= 0.0 && Supported(decided.value.cash.value)
               && decided.value.cash.value == before.cash.value[p.intent.account]
                    + Change(p.intent.side, p.effective, decided.value.price, decided.value.fees)
    ensures var after := Record(before, f, p, decided);
            && after.cash.Some? && Solvent(after.cash.value) && account in after.cash.value
            && after.cash.value[account] - Net(after.fills, account)
               == before.cash.value[account] - Net(before.fills, account)
  {
    var after := Record(before, f, p, decided);
    var r := after.fills[|before.fills|];
    NetAppend(before.fills, r, account);
  }

  lemma {:induction false} OneOrderMovesCash(f: Frame, rule: Rule, bps: real, before: Drained, p: Pending, account: Id)
    requires ValidRule(rule) && ValidFrame(f) && ValidPending(p) && bps >= 0.0 && Covers(before.cash, f, p)
    requires before.cash.Some? && Solvent(before.cash.value) && account in before.cash.value
    ensures var after := DrainOne(f, rule, bps, before, p);
            && Solvent(after.cash.value)
            && after.cash.value[account] - Net(after.fills, account)
               == before.cash.value[account] - Net(before.fills, account)
  {
    if Ends(f, p) {
      var (blocked, sellable) := Gate(f, rule, before.sellable, p);
      var cash := before.cash.value[p.intent.account];
      var decided := Decide(f, bps, blocked, Some(cash), p);
      if decided.Ok? {
        SettleMeaning(cash, p.intent.side, p.effective, decided.value.price, decided.value.fees);
      }
      RecordMovesCash(f, before.(sellable := sellable), p, decided, account);
    }
  }

  /** Running cash is the starting cash plus the net of the fills, and never negative. */
  lemma {:induction false} CashIsConserved(f: Frame, rule: Rule, bps: real, pending: seq<Pending>, account: Id)
    requires Ready(f, rule, bps, pending)
    requires f.cash.Some? && Solvent(f.cash.value) && account in f.cash.value
    ensures var r := Drain(f, rule, bps, pending);
            && Solvent(r.cash.value)
            && r.cash.value[account] == f.cash.value[account] + Net(r.fills, account)
  {
    if pending == [] {
    } else {
      var front, p := pending[..|pending| - 1], pending[|pending| - 1];
      assert Covers(f.cash, f, p);
      CashIsConserved(f, rule, bps, front, account);
      OneOrderMovesCash(f, rule, bps, Drain(f, rule, bps, front), p, account);
    }
  }

  // ---- shares ----

  function FillSold(r: Fill, account: Id, s: Symbol): real {
    if r.status == FILLED && r.intent.side == Sell && r.intent.account == account && r.intent.symbol == s
    then r.filled else 0.0
  }

  function DeskSold(fills: seq<Fill>, account: Id, s: Symbol): real {
    if fills == [] then 0.0
    else DeskSold(fills[..|fills| - 1], account, s) + FillSold(fills[|fills| - 1], account, s)
  }

  lemma {:induction false} SoldAppend(fills: seq<Fill>, r: Fill, account: Id, s: Symbol)
    ensures DeskSold(fills + [r], account, s) == DeskSold(fills, account, s) + FillSold(r, account, s)
  {
    assert (fills + [r])[..|fills|] == fills;
  }

  lemma {:induction false} SellableNonnegative(rule: Rule, s: Symbol, session: Date, lots: seq<OpenLot>)
    requires ValidRule(rule) && Sellable(rule, s, session, lots).Answered?
    requires forall i :: 0 <= i < |lots| ==> lots[i].lot.quantity >= 0.0
    ensures Sellable(rule, s, session, lots).value >= 0.0
  {
    if lots == [] {
    } else {
      SellableNonnegative(rule, s, session, lots[1..]);
    }
  }

  /** The running sellable quantity is what the lots allow less what already filled. */
  ghost predicate SellableTracks(f: Frame, rule: Rule, r: Drained, account: Id, s: Symbol)
    requires ValidRule(rule)
  {
    var limit := Sellable(rule, s, f.session, LotsFor(f, account));
    if (account, s) in r.sellable then
      && limit.Answered?
      && r.sellable[(account, s)] >= 0.0
      && r.sellable[(account, s)] + DeskSold(r.fills, account, s) == limit.value
    else
      DeskSold(r.fills, account, s) == 0.0
  }

  /** A sell that passes the gate fits the running sellable quantity, known from then on. */
  lemma {:induction false} GateMeaning(f: Frame, rule: Rule, sellable: map<(Id, Symbol), real>, p: Pending)
    requires ValidRule(rule)
    ensures var (blocked, after) := Gate(f, rule, sellable, p);
            var key := (p.intent.account, p.intent.symbol);
            && (forall k :: k != key ==> (k in after <==> k in sellable) && (k in sellable ==> after[k] == sellable[k]))
            && (key in sellable ==> key in after && after[key] == sellable[key])
            && (key !in sellable && key in after ==>
                  Sellable(rule, p.intent.symbol, f.session, LotsFor(f, p.intent.account)) == Answered(after[key]))
            && (blocked.None? && p.intent.side == Sell ==> key in after && p.effective <= after[key])
  {
  }

  lemma {:induction false} OneOrderTracksSellable(f: Frame, rule: Rule, bps: real, before: Drained, p: Pending,
                               account: Id, s: Symbol)
    requires ValidRule(rule) && ValidFrame(f) && ValidPending(p) && bps >= 0.0 && Covers(before.cash, f, p)
    requires forall i :: 0 <= i < |LotsFor(f, account)| ==> LotsFor(f, account)[i].lot.quantity >= 0.0
    requires SellableTracks(f, rule, before, account, s)
    ensures SellableTracks(f, rule, DrainOne(f, rule, bps, before, p), account, s)
  {
    if Sellable(rule, s, f.session, LotsFor(f, account)).Answered? {
      SellableNonnegative(rule, s, f.session, LotsFor(f, account));
    }
    if Ends(f, p) {
      var (blocked, sellable) := Gate(f, rule, before.sellable, p);
      GateMeaning(f, rule, before.sellable, p);
      var looked := before.(sellable := sellable);
      assert SellableTracks(f, rule, looked, account, s);
      var cash := if before.cash.Some? then Some(before.cash.value[p.intent.account]) else None;
      var decided := Decide(f, bps, blocked, cash, p);
      RecordTracksSellable(f, rule, looked, p, decided, account, s);
    }
  }

  lemma {:induction false} RecordTracksSellable(f: Frame, rule: Rule, before: Drained, p: Pending,
                             decided: Result<Execution, Reason>, account: Id, s: Symbol)
    requires ValidRule(rule) && ValidPending(p) && SellableTracks(f, rule, before, account, s)
    requires decided.Ok? ==> decided.value.cash.Some? == before.cash.Some?
    requires var key := (p.intent.account, p.intent.symbol);
             decided.Ok? && p.intent.side == Sell ==> key in before.sellable && p.effective <= before.sellable[key]
    ensures SellableTracks(f, rule, Record(before, f, p, decided), account, s)
  {
    var after := Record(before, f, p, decided);
    SoldAppend(before.fills, after.fills[|before.fills|], account, s);
  }

  /**
    Filled sells of one account and symbol never exceed the sellable quantity of the
    lots supplied; without such a quantity nothing is sold.
   */
  lemma {:induction false} SellsStayWithinSellable(f: Frame, rule: Rule, bps: real, pending: seq<Pending>,
                                                   account: Id, s: Symbol)
    requires Ready(f, rule, bps, pending)
    requires forall i :: 0 <= i < |LotsFor(f, account)| ==> LotsFor(f, account)[i].lot.quantity >= 0.0
    ensures SellableTracks(f, rule, Drain(f, rule, bps, pending), account, s)
    ensures var limit := Sellable(rule, s, f.session, LotsFor(f, account));
            DeskSold(Drain(f, rule, bps, pending).fills, account, s) <= if limit.Answered? then limit.value else 0.0
  {
    if Sellable(rule, s, f.session, LotsFor(f, account)).Answered? {
      SellableNonnegative(rule, s, f.session, LotsFor(f, account));
    }
    if pending == [] {
    } else {
      var front, p := pending[..|pending| - 1], pending[|pending| - 1];
      assert Covers(f.cash, f, p);
      SellsStayWithinSellable(f, rule, bps, front, account, s);
      OneOrderTracksSellable(f, rule, bps, Drain(f, rule, bps, front), p, account, s);
    }
  }

  // ---- exactly when an order fills ----

  /** The market lets the order trade at this open, whatever the books say. */
  predicate Tradable(f: Frame, rule: Rule, side: Side, s: Symbol) {
    rule.China? ==>
      && f.session in rule.calendar.sessions && s in f.states && !f.states[s].suspended
      && !(side == Buy && f.states[s].limit == LimitUp) && !(side == Sell && f.states[s].limit == LimitDown)
  }

  /** A sell fits what the lots allow less what the session already sold. */
  predicate SharesAllow(f: Frame, rule: Rule, p: Pending, sold: real)
    requires ValidRule(rule)
  {
    p.intent.side == Sell ==>
      var limit := Sellable(rule, p.intent.symbol, f.session, LotsFor(f, p.intent.account));
      limit.Answered? && sold + p.effective <= limit.value
  }

  /** The cash after the order is one the kernel can represent, and not negative. */
  predicate CashAllows(cash: Option<real>, p: Pending, price: real, fees: real) {
    cash.Some? ==>
      var change := Change(p.intent.side, p.effective, price, fees);
      && Supported(change) && Supported(cash.value + change)
      && if p.intent.side == Sell then change >= 0.0 else cash.value + change >= 0.0
  }

  predicate Fillable(f: Frame, rule: Rule, bps: real, p: Pending, cash: Option<real>, sold: real)
    requires ValidRule(rule) && ValidFrame(f) && ValidPending(p) && bps >= 0.0 && p.intent.symbol in f.opens
  {
    var price := f.opens[p.intent.symbol];
    var fees := Fees(p.effective, price, bps);
    && Tradable(f, rule, p.intent.side, p.intent.symbol) && SharesAllow(f, rule, p, sold)
    && Supported(price) && Supported(fees) && CashAllows(cash, p, price, fees)
  }

  ghost predicate RuleFits(f: Frame, rule: Rule) {
    ValidRule(rule) && (rule.China? <==> f.market == CN) && (f.market == US ==> f.states == map[])
  }

  lemma {:induction false} NegatedSupported(x: real)
    ensures Supported(-x) <==> Supported(x)
  {
    if OnGrid(x) {
      NegatedGrid(x);
    }
    if OnGrid(-x) {
      NegatedGrid(-x);
    }
  }

  lemma {:induction false} NegatedGrid(x: real)
    requires OnGrid(x)
    ensures OnGrid(-x)
  {
    var n := (x * GRID).Floor;
    assert (-x) * GRID == (-n) as real;
  }

  lemma {:induction false} SettlesIff(cash: real, p: Pending, price: real, fees: real)
    requires ValidPending(p)
    ensures Settle(cash, p.intent.side, p.effective, price, fees).Ok? <==> CashAllows(Some(cash), p, price, fees)
  {
    var change := Change(p.intent.side, p.effective, price, fees);
    NegatedSupported(change);
  }

  /** The gate lets an order through exactly when the market and the shares allow it. */
  lemma {:induction false} GatePassesIff(f: Frame, rule: Rule, before: Drained, p: Pending)
    requires RuleFits(f, rule) && ValidFrame(f) && ValidPending(p) && Ends(f, p)
    requires SellableTracks(f, rule, before, p.intent.account, p.intent.symbol)
    requires DeskSold(before.fills, p.intent.account, p.intent.symbol) >= 0.0
    ensures Gate(f, rule, before.sellable, p).0.None? <==>
            && Tradable(f, rule, p.intent.side, p.intent.symbol)
            && SharesAllow(f, rule, p, DeskSold(before.fills, p.intent.account, p.intent.symbol))
  {
  }

  predicate NoNegativeFill(fills: seq<Fill>) {
    forall i :: 0 <= i < |fills| ==> fills[i].filled >= 0.0
  }

  lemma {:induction false} SoldNonnegative(fills: seq<Fill>, account: Id, s: Symbol)
    requires NoNegativeFill(fills)
    ensures DeskSold(fills, account, s) >= 0.0
  {
    if fills == [] {
    } else {
      SoldNonnegative(fills[..|fills| - 1], account, s);
    }
  }

  lemma {:induction false} FillsNonnegative(f: Frame, rule: Rule, bps: real, pending: seq<Pending>)
    requires Ready(f, rule, bps, pending)
    ensures NoNegativeFill(Drain(f, rule, bps, pending).fills)
  {
    QueueSplits(f, rule, bps, pending);
    EndedArePending(f, pending);
    var fills, ended := Drain(f, rule, bps, pending).fills, Ended(f, pending);
    forall i | 0 <= i < |fills| ensures fills[i].filled >= 0.0 {
      assert Terminates(f, ended[i], fills[i]) && ValidPending(ended[i]);
    }
  }

  lemma {:induction false} EndedArePending(f: Frame, pending: seq<Pending>)
    requires forall i :: 0 <= i < |pending| ==> ValidPending(pending[i])
    ensures forall i :: 0 <= i < |Ended(f, pending)| ==> ValidPending(Ended(f, pending)[i])
  {
    if pending == [] {
    } else {
      EndedArePending(f, pending[..|pending| - 1]);
    }
  }

  /**
    An order that ends at this open is filled exactly when the market lets it trade, a
    sell fits what its lots allow less what was already sold, and price, fees and the
    cash left by the orders before it can be recorded.
   */
  lemma {:induction false} FilledExactlyWhen(f: Frame, rule: Rule, bps: real, pending: seq<Pending>, p: Pending)
    requires RuleFits(f, rule) && Ready(f, rule, bps, pending + [p]) && Ends(f, p)
    requires forall i :: 0 <= i < |LotsFor(f, p.intent.account)| ==> LotsFor(f, p.intent.account)[i].lot.quantity >= 0.0
    ensures Ready(f, rule, bps, pending) && ValidPending(p)
    ensures var before := Drain(f, rule, bps, pending);
            var after := Drain(f, rule, bps, pending + [p]);
            var cash := if before.cash.Some? then Some(before.cash.value[p.intent.account]) else None;
            && (f.cash.Some? ==> p.intent.account in before.cash.value)
            && |after.fills| == |before.fills| + 1 && after.fills[..|before.fills|] == before.fills
            && (after.fills[|before.fills|].status == FILLED <==>
                  Fillable(f, rule, bps, p, cash, DeskSold(before.fills, p.intent.account, p.intent.symbol)))
  {
    hide Sellable, Supported, Fees, NoNegativeFill;
    var more := pending + [p];
    assert more[|pending|] == p && more[..|pending|] == pending;
    assert forall i :: 0 <= i < |pending| ==> more[i] == pending[i];
    var before := Drain(f, rule, bps, pending);
    FillsNonnegative(f, rule, bps, pending);
    SoldNonnegative(before.fills, p.intent.account, p.intent.symbol);
    SellsStayWithinSellable(f, rule, bps, pending, p.intent.account, p.intent.symbol);
    GatePassesIff(f, rule, before, p);
    LastOrderFills(f, rule, bps, before, p);
    assert Drain(f, rule, bps, more) == DrainOne(f, rule, bps, before, p);
  }

  lemma {:induction false} LastOrderFills(f: Frame, rule: Rule, bps: real, before: Drained, p: Pending)
    requires ValidRule(rule) && ValidFrame(f) && ValidPending(p) && bps >= 0.0 && Ends(f, p) && Covers(before.cash, f, p)
    ensures var after := DrainOne(f, rule, bps, before, p);
            var price := f.opens[p.intent.symbol];
            var fees := Fees(p.effective, price, bps);
            var cash := if before.cash.Some? then Some(before.cash.value[p.intent.account]) else None;
            && |after.fills| == |before.fills| + 1 && after.fills[..|before.fills|] == before.fills
            && (after.fills[|before.fills|].status == FILLED <==>
                  && Gate(f, rule, before.sellable, p).0.None?
                  && Supported(price) && Supported(fees) && CashAllows(cash, p, price, fees))
  {
    hide Gate, Fees, Supported, Sellable;
    if before.cash.Some? {
      var price := f.opens[p.intent.symbol];
      SettlesIff(before.cash.value[p.intent.account], p, price, Fees(p.effective, price, bps));
    }
  }

  /** The fee recorded is the exact proportional fee to the nearest quantum, half to even. */
  predicate FairFee(q: real, price: real, bps: real, fees: real) {
    OnGrid(fees) && NearestEven(q * price * bps / 10000.0 * GRID, (fees * GRID).Floor)
  }

  lemma {:induction false} FeesAreNearest(q: real, price: real, bps: real)
    requires q >= 0.0 && price >= 0.0 && bps >= 0.0
    ensures FairFee(q, price, bps, Fees(q, price, bps))
    ensures var exact := q * price * bps / 10000.0;
            (exact - Fees(q, price, bps)) * GRID <= 0.5 && (Fees(q, price, bps) - exact) * GRID <= 0.5
  {
    var exact := q * price * bps / 10000.0;
    NearestQuantum(exact);
  }

  lemma {:induction false} NearestQuantum(x: real)
    ensures (x - Quantize12(x)) * GRID <= 0.5 && (Quantize12(x) - x) * GRID <= 0.5
  {
    var n := RoundHalfEven(x * GRID);
    assert Quantize12(x) * GRID == n as real;
  }

  /** A filled result is charged at the rate; nothing else is charged at all. */
  predicate Charged(r: Fill, bps: real) {
    if r.status == FILLED then r.price.Some? && FairFee(r.filled, r.price.value, bps, r.fees) else r.fees == 0.0
  }

  predicate AllCharged(fills: seq<Fill>, bps: real) {
    forall i :: 0 <= i < |fills| ==> Charged(fills[i], bps)
  }

  lemma {:induction false} OneOrderIsCharged(f: Frame, rule: Rule, bps: real, before: Drained, p: Pending)
    requires ValidRule(rule) && ValidFrame(f) && ValidPending(p) && bps >= 0.0 && Covers(before.cash, f, p)
    ensures var after := DrainOne(f, rule, bps, before, p);
            AllCharged(before.fills, bps) ==> AllCharged(after.fills, bps)
  {
    hide Gate, FairFee, Supported;
    if Ends(f, p) {
      FeesAreNearest(p.effective, f.opens[p.intent.symbol], bps);
    }
  }

  /** Every result of a drain, sells and buys alike, carries the fee of its own quantity and price. */
  lemma {:induction false} FillsAreCharged(f: Frame, rule: Rule, bps: real, pending: seq<Pending>)
    requires Ready(f, rule, bps, pending)
    ensures AllCharged(Drain(f, rule, bps, pending).fills, bps)
  {
    hide DrainOne;
    if pending == [] {
    } else {
      var front, p := pending[..|pending| - 1], pending[|pending| - 1];
      assert Covers(f.cash, f, p);
      FillsAreCharged(f, rule, bps, front);
      OneOrderIsCharged(f, rule, bps, Drain(f, rule, bps, front), p);
    }
  }

  /** So the fee is determined. */
  lemma {:induction false} FairFeeIsUnique(q: real, price: real, bps: real, a: real, b: real)
    requires FairFee(q, price, bps, a) && FairFee(q, price, bps, b)
    ensures a == b
  {
    hide OnGrid, NearestEven;
    NearestOnGridIsUnique(q * price * bps / 10000.0 * GRID, a, b);
  }

  lemma {:induction false} NearestOnGridIsUnique(x: real, a: real, b: real)
    requires OnGrid(a) && OnGrid(b) && NearestEven(x, (a * GRID).Floor) && NearestEven(x, (b * GRID).Floor)
    ensures a == b
  {
    var m, n := (a * GRID).Floor, (b * GRID).Floor;
    assert m == n;
    assert a * GRID == b * GRID;
  }

  // ---- why an order is rejected ----

  /** The shares the lots allow to be sold, if the market's rule can tell. */
  function Limit(f: Frame, rule: Rule, p: Pending): Answer<real>
    requires ValidRule(rule)
  {
    Sellable(rule, p.intent.symbol, f.session, LotsFor(f, p.intent.account))
  }

  /** What each reason says of an order that ended without a fill. The reasons exclude one another. */
  predicate Blames(f: Frame, rule: Rule, bps: real, p: Pending, cash: Option<real>, sold: real, reason: Reason)
    requires ValidRule(rule) && ValidFrame(f) && ValidPending(p) && bps >= 0.0 && p.intent.symbol in f.opens
  {
    var (s, side, price) := (p.intent.symbol, p.intent.side, f.opens[p.intent.symbol]);
    var fees := Fees(p.effective, price, bps);
    var change := Change(side, p.effective, price, fees);
    var free := Tradable(f, rule, side, s) && SharesAllow(f, rule, p, sold);
    var priced := free && Supported(price) && Supported(fees) && cash.Some?;
    match reason
    case Suspended => rule.China? && f.session in rule.calendar.sessions && s in f.states && f.states[s].suspended
    case BuyAtLimitUp =>
      && rule.China? && f.session in rule.calendar.sessions && s in f.states && !f.states[s].suspended
      && side == Buy && f.states[s].limit == LimitUp
    case SellAtLimitDown =>
      && rule.China? && f.session in rule.calendar.sessions && s in f.states && !f.states[s].suspended
      && side == Sell && f.states[s].limit == LimitDown
    case NotSettled =>
      && rule.China? && Tradable(f, rule, side, s) && side == Sell
      && Limit(f, rule, p).Answered? && Limit(f, rule, p).value < p.effective
    case ShortSale =>
      rule.UnitedStates? && side == Sell && Limit(f, rule, p).Answered? && Limit(f, rule, p).value < p.effective
    case SellableExceeded =>
      && Tradable(f, rule, side, s) && side == Sell
      && Limit(f, rule, p).Answered? && p.effective <= Limit(f, rule, p).value < sold + p.effective
    case RuleRejected =>
      || (rule.China? && !(f.session in rule.calendar.sessions && s in f.states))
      || (Tradable(f, rule, side, s) && side == Sell && Limit(f, rule, p).Raised?)
    case OpenUnsupported => free && !Supported(price)
    case FeeUnsupported => free && Supported(price) && !Supported(fees)
    case FeesExceedProceeds => priced && side == Sell && Supported(change) && change < 0.0
    case CashShort => priced && side == Buy && Supported(change) && cash.value + change < 0.0
    case CashUnsupported =>
      && priced
      && (!Supported(change)
          || ((if side == Sell then change >= 0.0 else cash.value + change >= 0.0) && !Supported(cash.value + change)))
    case _ => false
  }

  /** What blocks an order at the gate, in the terms of the market and the lots. */
  lemma {:induction false} GateBlames(f: Frame, rule: Rule, bps: real, before: Drained, p: Pending, cash: Option<real>)
    requires RuleFits(f, rule) && ValidFrame(f) && ValidPending(p) && bps >= 0.0 && Ends(f, p)
    requires SellableTracks(f, rule, before, p.intent.account, p.intent.symbol)
    requires DeskSold(before.fills, p.intent.account, p.intent.symbol) >= 0.0
    ensures var blocked := Gate(f, rule, before.sellable, p).0;
            blocked.Some? ==>
              Blames(f, rule, bps, p, cash, DeskSold(before.fills, p.intent.account, p.intent.symbol), blocked.value)
  {
    hide Sellable, Fees, Supported, Change;
  }

  lemma {:induction false} DecideBlames(f: Frame, rule: Rule, bps: real, p: Pending, cash: Option<real>, sold: real)
    requires ValidRule(rule) && ValidFrame(f) && ValidPending(p) && bps >= 0.0 && p.intent.symbol in f.opens
    requires Tradable(f, rule, p.intent.side, p.intent.symbol) && SharesAllow(f, rule, p, sold)
    ensures var decided := Decide(f, bps, None, cash, p);
            decided.Err? ==> Blames(f, rule, bps, p, cash, sold, decided.error)
  {
    hide Sellable, Fees, Supported, Tradable, SharesAllow;
    if cash.Some? {
      var price := f.opens[p.intent.symbol];
      NegatedSupported(Change(p.intent.side, p.effective, price, Fees(p.effective, price, bps)));
    }
  }

  /**
    The last order of any queue, if it ends without a fill, is rejected for a reason that
    is true of it, given the cash and the sells the orders before it left.
   */
  lemma {:induction false} RejectedForItsReason(f: Frame, rule: Rule, bps: real, pending: seq<Pending>, p: Pending)
    requires RuleFits(f, rule) && Ready(f, rule, bps, pending + [p]) && Ends(f, p)
    requires forall i :: 0 <= i < |LotsFor(f, p.intent.account)| ==> LotsFor(f, p.intent.account)[i].lot.quantity >= 0.0
    ensures Ready(f, rule, bps, pending) && ValidPending(p)
    ensures var before := Drain(f, rule, bps, pending);
            var after := Drain(f, rule, bps, pending + [p]);
            var cash := if before.cash.Some? then Some(before.cash.value[p.intent.account]) else None;
            && (f.cash.Some? ==> p.intent.account in before.cash.value)
            && |after.fills| == |before.fills| + 1
            && (after.fills[|before.fills|].status != FILLED ==>
                  && after.fills[|before.fills|].reason.Some?
                  && Blames(f, rule, bps, p, cash, DeskSold(before.fills, p.intent.account, p.intent.symbol),
                            after.fills[|before.fills|].reason.value))
  {
    hide Sellable, Supported, Fees, NoNegativeFill, Blames, Gate, Decide, Tradable, SharesAllow;
    var more := pending + [p];
    assert more[|pending|] == p && more[..|pending|] == pending;
    assert forall i :: 0 <= i < |pending| ==> more[i] == pending[i];
    var before := Drain(f, rule, bps, pending);
    var sold := DeskSold(before.fills, p.intent.account, p.intent.symbol);
    var cash := if before.cash.Some? then Some(before.cash.value[p.intent.account]) else None;
    FillsNonnegative(f, rule, bps, pending);
    SoldNonnegative(before.fills, p.intent.account, p.intent.symbol);
    SellsStayWithinSellable(f, rule, bps, pending, p.intent.account, p.intent.symbol);
    GatePassesIff(f, rule, before, p);
    GateBlames(f, rule, bps, before, p, cash);
    assert Drain(f, rule, bps, more) == DrainOne(f, rule, bps, before, p);
    OneOrderRejected(f, rule, bps, before, p, cash, sold);
  }

  lemma {:induction false} OneOrderRejected(f: Frame, rule: Rule, bps: real, before: Drained, p: Pending,
                                            cash: Option<real>, sold: real)
    requires ValidRule(rule) && ValidFrame(f) && ValidPending(p) && bps >= 0.0 && Ends(f, p) && Covers(before.cash, f, p)
    requires cash == if before.cash.Some? then Some(before.cash.value[p.intent.account]) else None
    requires var blocked := Gate(f, rule, before.sellable, p).0;
             if blocked.Some? then Blames(f, rule, bps, p, cash, sold, blocked.value)
             else Tradable(f, rule, p.intent.side, p.intent.symbol) && SharesAllow(f, rule, p, sold)
    ensures var r := DrainOne(f, rule, bps, before, p).fills[|before.fills|];
            r.status != FILLED ==> r.reason.Some? && Blames(f, rule, bps, p, cash, sold, r.reason.value)
  {
    hide Sellable, Supported, Fees, Blames, Gate, Tradable, SharesAllow;
    var blocked := Gate(f, rule, before.sellable, p).0;
    if blocked.None? {
      DecideBlames(f, rule, bps, p, cash, sold);
    } else {
      assert Decide(f, bps, blocked, cash, p) == Err(blocked.value);
    }
  }

  // ---- the object ----

  class ExecutionSimulator {
    const calendars: map<Market, TradingCalendar>
    const costs: map<Market, real>
    var pending: seq<Pending>
    var used: set<Id>
    var processed: map<Market, Date>

    ghost function State(): Desk
      reads this
    {
      Desk(calendars, costs, pending, used, processed)
    }

    ghost predicate Valid()
      reads this
    {
      ValidDesk(State())
    }

    constructor (calendars: map<Market, TradingCalendar>, costs: map<Market, real>)
      requires ValidDesk(Desk(calendars, map[CN := 12.0, US := 5.0] + costs, [], {}, map[]))
      ensures Valid() && State() == Desk(calendars, map[CN := 12.0, US := 5.0] + costs, [], {}, map[])
    {
      this.calendars := calendars;
      this.costs := map[CN := 12.0, US := 5.0] + costs;
      pending, used, processed := [], {}, map[];
    }

    method Submit(intent: OrderIntent, decision: Date) returns (fill: Fill)
      requires Valid() && intent.quantity > 0.0
      modifies this
      ensures Valid()
      ensures (State(), fill) == OrderDesk.Submit(old(State()), intent, decision)
    {
      hide Supported, IsSession, NextSession, NormalizeQuantity, ValidPending;
      if intent.orderId in used {
        used := used + {intent.orderId};
        return Rejected(intent, intent.quantity, DuplicateOrder);
      }
      var admitted := Admit(Desk(calendars, costs, pending, used, processed), intent, decision);
      used := used + {intent.orderId};
      if admitted.Err? {
        return Rejected(intent, intent.quantity, admitted.error);
      }
      pending := pending + [admitted.value];
      fill := Fill(PENDING, intent, admitted.value.effective, 0.0, None, 0.0, None, None);
    }

    /** Drain the queue at one open; a refused session changes nothing. */
    method ProcessSession(f: Frame) returns (r: Result<seq<Fill>, DeskError>)
      requires Valid() && ValidFrame(f)
      modifies this
      ensures Valid()
      ensures if r.Err? then old(Refusal(State(), f)) == Some(r.error) else old(Refusal(State(), f)).None?
      ensures r.Err? ==> unchanged(this)
      ensures r.Ok? ==> r.value == Outcome(old(State()), f).fills && State() == After(old(State()), f)
      ensures r.Ok? ==> AllCharged(r.value, costs[f.market])
    {
      hide DrainOne, AllCharged;
      var refusal := Refusal(Desk(calendars, costs, pending, used, processed), f);
      if refusal.Some? {
        return Err(refusal.value);
      }
      ghost var start := State();
      var rule := if f.market == CN then China(calendars[f.market]) else UnitedStates;
      var bps := costs[f.market];
      var drained := Drained([], [], map[], f.cash);
      assert Ready(f, rule, bps, pending);
      for i := 0 to |pending|
        invariant State() == start
        invariant Ready(f, rule, bps, pending[..i])
        invariant drained == Drain(f, rule, bps, pending[..i])
      {
        assert Covers(f.cash, f, pending[i]);
        assert pending[..i + 1][..i] == pending[..i];
        drained := DrainOne(f, rule, bps, drained, pending[i]);
      }
      assert pending[..|pending|] == pending;
      pending := drained.waiting;
      if f.market !in processed || processed[f.market] < f.session {
        processed := processed[f.market := f.session];
      }
      QueueSplits(f, rule, bps, start.pending);
      FillsAreCharged(f, rule, bps, start.pending);
      KeptWasPending(f, start.pending);
      r := Ok(drained.fills);
    }
  }

  lemma {:induction false} KeptWasPending(f: Frame, pending: seq<Pending>)
    requires forall i :: 0 <= i < |pending| ==> ValidPending(pending[i])
    ensures forall i :: 0 <= i < |Waits(f, pending)| ==> ValidPending(Waits(f, pending)[i])
  {
    if pending == [] {
    } else {
      KeptWasPending(f, pending[..|pending| - 1]);
    }
  }
}
