/**
  The ledger object: it keeps its log and the views of it, and recomputes every view
  by replaying the surviving events of the candidate log on each append.
  (src/stock_agent/account/ledger.py, `PortfolioLedger`.)
 */
module Ledger {
  import opened Common
  import opened Fifo
  import opened Book
  import opened Log

  /** Take `quantity` from the front of a lot list, splitting the last lot touched. */
  method SellLots(held: seq<Lot>, quantity: real) returns (lots: seq<Lot>, costOut: real)
    requires Positive(held) && 0.0 < quantity <= Quantity(held)
    ensures lots == Consume(held, quantity)
    ensures costOut == ConsumedCost(held, quantity)
  {
    lots, costOut := held, 0.0;
    var remaining := quantity;
    while remaining > 0.0
      invariant Positive(lots) && 0.0 <= remaining <= Quantity(lots)
      invariant Consume(lots, remaining) == Consume(held, quantity)
      invariant costOut + ConsumedCost(lots, remaining) == ConsumedCost(held, quantity)
      decreases |lots|, remaining > 0.0
    {
      var lot := lots[0];
      var take := if remaining < lot.quantity then remaining else lot.quantity;
      if take == lot.quantity {
        costOut := costOut + lot.cost;
        lots := lots[1..];
      } else {
        SplitStaysPositive(lot, take);
        costOut := costOut + Share(lot, take);
        lots := [Split(lot, take)] + lots[1..];
        QuantityNonnegative(lots);
      }
      remaining := remaining - take;
    }
  }

  method BookFill(b: Book, session: Date, f: BookedFill) returns (r: Result<Book, Fault>)
    requires Sound(b) && ValidFill(f)
    ensures r == ApplyFill(b, session, f)
  {
    if f.side == Buy {
      return ApplyBuy(b, session, f);
    }
    if f.symbol !in b.holdings || f.quantity > Held(b, f.symbol) {
      return Err(OverSold);
    }
    var proceeds := f.quantity * f.price - f.fees;
    if proceeds < 0.0 {
      return Err(NegativeProceeds);
    }
    var rest, costOut := SellLots(b.holdings[f.symbol].lots, f.quantity);
    var holdings := b.holdings;
    if rest == [] {
      holdings := holdings - {f.symbol};
    } else {
      holdings := holdings[f.symbol := Holding(rest, f.price)];
    }
    assert holdings == Shrink(b.holdings, f.symbol, rest, f.price);
    assert rest == Consume(LotsOf(b, f.symbol), f.quantity);
    r := Ok(b.(cash := b.cash + proceeds, pnl := b.pnl + (proceeds - costOut), holdings := holdings));
    assert proceeds == Proceeds(f);
    assert r == ApplySell(b, f);
  }

  lemma {:induction false} FillsErrPropagates(b: Book, session: Date, fills: seq<BookedFill>, n: nat)
    requires Sound(b) && (forall f :: f in fills ==> ValidFill(f)) && n <= |fills|
    requires ApplyFills(b, session, fills[..n]).Err?
    ensures ApplyFills(b, session, fills) == ApplyFills(b, session, fills[..n])
  {
    if n < |fills| {
      var front := fills[..|fills| - 1];
      assert front[..n] == fills[..n];
      FillsErrPropagates(b, session, front, n);
    } else {
      assert fills[..n] == fills;
    }
  }

  method BookFills(b: Book, session: Date, fills: seq<BookedFill>) returns (r: Result<Book, Fault>)
    requires Sound(b) && forall f :: f in fills ==> ValidFill(f)
    ensures r == ApplyFills(b, session, fills)
  {
    var current := b;
    for i := 0 to |fills|
      invariant forall f :: f in fills[..i] ==> ValidFill(f)
      invariant ApplyFills(b, session, fills[..i]) == Ok(current)
    {
      var f := fills[i];
      assert f in fills && fills[..i + 1] == fills[..i] + [f];
      ApplyFillsAppend(b, session, fills[..i], f);
      var next := BookFill(current, session, f);
      if next.Err? {
        FillsErrPropagates(b, session, fills, i + 1);
        return next;
      }
      current := next.value;
    }
    assert fills[..|fills|] == fills;
    r := Ok(current);
  }

  lemma {:induction false} ReplayErrPropagates(events: seq<Event>, n: nat)
    requires 1 <= n <= |events| && Replay(events[..n]).Err?
    ensures Replay(events) == Replay(events[..n])
  {
    if n < |events| {
      var front := events[..|events| - 1];
      assert front[..n] == events[..n];
      ReplayErrPropagates(front, n);
    } else {
      assert events[..n] == events;
    }
  }

  method ReplayOne(b: Book, e: Event) returns (r: Result<Book, Fault>)
    requires Sound(b)
    ensures r == Step(b, e)
  {
    if !WellFormed(e) {
      return Err(Malformed);
    }
    if e.body.BatchBooked? {
      var filled := BookFills(b, e.body.session, e.body.fills);
      r := if filled.Err? then filled else ApplyMarks(filled.value, e.body.marks);
    } else if e.body.SellFilled? {
      r := BookFill(b, e.body.session, e.body.sell);
    } else {
      r := ApplyBody(b, e.body);
    }
    if r.Ok? {
      r := Ok(RaisePeak(r.value));
    }
  }

  method ReplayEvents(events: seq<Event>) returns (r: Result<Book, Fault>)
    ensures r == Replay(events)
  {
    if events == [] {
      return Err(NotInitialized);
    }
    r := Start(events[0]);
    assert events[..1] == [events[0]];
    var i := 1;
    while i < |events| && r.Ok?
      invariant 1 <= i <= |events|
      invariant r == Replay(events[..i])
    {
      assert events[..i + 1] == events[..i] + [events[i]];
      ReplayAppend(events[..i], events[i]);
      r := ReplayOne(r.value, events[i]);
      i := i + 1;
    }
    if r.Err? {
      ReplayErrPropagates(events, i);
    } else {
      assert events[..i] == events;
    }
  }

  lemma {:induction false} KeepTwice(events: seq<Event>, dropped: set<Id>)
    ensures Keep(Keep(events, {}), dropped) == Keep(events, dropped)
  {
    if events == [] {
    } else {
      var front, e := events[..|events| - 1], events[|events| - 1];
      KeepTwice(front, dropped);
      if !e.body.Reversed? {
        KeepConcat(Keep(front, {}), [e], dropped);
        assert [e][..0] == [];
        assert Keep(events, {}) == Keep(front, {}) + [e];
      } else {
        assert Keep(events, {}) == Keep(front, {});
      }
    }
  }

  /** What the lookup table and the set of reversed identities say about the i-th event. */
  ghost predicate Tracks(events: seq<Event>, i: nat, byId: map<Id, Event>, reversed: set<Id>)
    requires i <= |events|
  {
    && (forall j :: 0 <= j < i ==> events[j].id in byId && byId[events[j].id] == events[j])
    && (forall id :: id in byId ==> exists j :: 0 <= j < i && events[j].id == id)
    && reversed == Targets(events[..i])
  }

  lemma {:induction false} NothingTracked(events: seq<Event>)
    ensures Tracks(events, 0, map[], {}) && Keep(events[..0], {}) == []
  {}

  lemma {:induction false} AllTracked(events: seq<Event>, byId: map<Id, Event>, reversed: set<Id>)
    requires Tracks(events, |events|, byId, reversed)
    ensures reversed == Targets(events)
  {
    assert events[..|events|] == events;
  }

  lemma {:induction false} TrackedReversal(events: seq<Event>, i: nat, byId: map<Id, Event>, reversed: set<Id>)
    requires i < |events| && events[i].body.Reversed? && Tracks(events, i, byId, reversed)
    ensures var target := events[i].body.target;
            ReversalOk(events, i) <==>
              target in byId && !byId[target].body.CashInitialized? && !byId[target].body.Reversed?
              && target !in reversed
  {
    var target, past := events[i].body.target, events[..i];
    if target in byId {
      var j :| 0 <= j < i && events[j].id == target;
      assert byId[events[j].id] == events[j];
    }
    if target in reversed {
      var k :| 0 <= k < i && past[k].body.Reversed? && past[k].body.target == target;
      assert events[k].body.target == target;
    } else {
      forall k | 0 <= k < i && events[k].body.Reversed? ensures events[k].body.target != target {
        assert past[k].body.target in Targets(past);
      }
    }
  }

  lemma {:induction false} TrackNext(events: seq<Event>, i: nat, byId: map<Id, Event>, reversed: set<Id>)
    requires i < |events| && DistinctIds(events) && Tracks(events, i, byId, reversed)
    ensures Tracks(events, i + 1, byId[events[i].id := events[i]],
                   reversed + if events[i].body.Reversed? then {events[i].body.target} else {})
  {
    TargetsGrow(events, i);
    var next := byId[events[i].id := events[i]];
    forall id | id in next ensures exists j :: 0 <= j < i + 1 && events[j].id == id {
      if id in byId {
        var j :| 0 <= j < i && events[j].id == id;
        assert 0 <= j < i + 1 && events[j].id == id;
      } else {
        assert 0 <= i < i + 1 && events[i].id == id;
      }
    }
  }

  lemma {:induction false} KeepNext(events: seq<Event>, i: nat)
    requires i < |events|
    ensures Keep(events[..i + 1], {}) ==
            Keep(events[..i], {}) + if events[i].body.Reversed? then [] else [events[i]]
  {
    assert events[..i + 1][..i] == events[..i];
  }

  /** The surviving events, or the first rule a reversal breaks. */
  method ActiveEvents(events: seq<Event>) returns (r: Result<seq<Event>, Fault>)
    requires DistinctIds(events)
    ensures r.Ok? <==> ReversalsOk(events)
    ensures r.Ok? ==> r.value == Survivors(events)
  {
    hide Tracks, ReversalOk, Keep, Targets, DistinctIds;
    var byId: map<Id, Event> := map[];
    var reversed: set<Id> := {};
    var ordinary: seq<Event> := [];
    NothingTracked(events);
    for i := 0 to |events|
      invariant Tracks(events, i, byId, reversed)
      invariant ordinary == Keep(events[..i], {})
      invariant forall j :: 0 <= j < i && events[j].body.Reversed? ==> ReversalOk(events, j)
    {
      var e := events[i];
      KeepNext(events, i);
      TrackNext(events, i, byId, reversed);
      if e.body.Reversed? {
        TrackedReversal(events, i, byId, reversed);
        var target := e.body.target;
        if target !in byId || byId[target].body.CashInitialized? || byId[target].body.Reversed? || target in reversed {
          return Err(NotReplayable);
        }
        reversed := reversed + {target};
        assert ordinary + [] == ordinary;
      } else {
        ordinary := ordinary + [e];
      }
      assert reversed + {} == reversed;
      byId := byId[e.id := e];
    }
    assert events[..|events|] == events;
    AllTracked(events, byId, reversed);
    KeepTwice(events, reversed);
    r := Ok(Keep(ordinary, reversed));
  }

  /** Every test a candidate log must pass, ending with its replay. */
  method Judge(account: Id, market: Market, candidate: seq<Event>) returns (r: Result<Book, Fault>)
    ensures r.Ok? <==> Accepted(account, market, candidate)
    ensures r.Ok? ==> r == Replay(Survivors(candidate))
  {
    if !(Owned(account, market, candidate) && OneOpening(candidate) && DistinctIds(candidate)
         && Chronological(candidate) && Distinct(AllFillIds(candidate))) {
      return Err(Malformed);
    }
    var active := ActiveEvents(candidate);
    if active.Err? {
      return Err(active.error);
    }
    r := ReplayEvents(active.value);
  }

  lemma {:induction false} TargetsGrow(events: seq<Event>, i: nat)
    requires i < |events|
    ensures Targets(events[..i + 1]) ==
            Targets(events[..i]) + if events[i].body.Reversed? then {events[i].body.target} else {}
  {
    var small, big := events[..i], events[..i + 1];
    forall id | id in Targets(small) ensures id in Targets(big) {
      var k :| 0 <= k < i && small[k].body.Reversed? && small[k].body.target == id;
      assert big[k].body.target == id;
    }
    if events[i].body.Reversed? {
      assert big[i].body.target in Targets(big);
    }
    forall id | id in Targets(big)
      ensures id in Targets(small) || (events[i].body.Reversed? && id == events[i].body.target)
    {
      var k :| 0 <= k < i + 1 && big[k].body.Reversed? && big[k].body.target == id;
      if k < i {
        assert small[k].body.target == id;
      }
    }
  }

  class PortfolioLedger {
    const account: Id
    const market: Market
    var events: seq<Event>
    var cash: Option<real>
    var realizedPnl: Option<real>
    var positions: Option<seq<Position>>
    var lots: Option<seq<OpenLot>>
    var snapshot: Option<Snapshot>

    /** The log is acceptable and every view is the one its survivors replay to. */
    ghost predicate Valid()
      reads this
    {
      if events == [] then
        cash.None? && realizedPnl.None? && positions.None? && lots.None? && snapshot.None?
      else
        Accepted(account, market, events) && Shows(Current(), events[|events| - 1].at)
    }

    ghost function Current(): (b: Book)
      requires Accepted(account, market, events)
      reads this
      ensures Sound(b)
    {
      Replay(Survivors(events)).value
    }

    ghost predicate Shows(b: Book, asOf: Instant)
      requires Sound(b)
      reads this
    {
      && cash == Some(b.cash)
      && realizedPnl == Some(Quantize12(b.pnl))
      && positions == Some(Positions(b))
      && lots == Some(OpenLots(b))
      && snapshot == Some(SnapshotOf(b, asOf))
    }

    constructor (account: Id, market: Market)
      ensures Valid() && events == []
      ensures this.account == account && this.market == market
    {
      this.account, this.market := account, market;
      events := [];
      cash, realizedPnl, positions, lots, snapshot := None, None, None, None, None;
    }

    /** Commit a batch as a whole: only the final log is judged, and a refusal changes nothing. */
    method AppendMany(more: seq<Event>) returns (r: Result<(), Fault>)
      requires Valid()
      modifies this
      ensures Valid()
      ensures r.Ok? <==> more == [] || Accepted(account, market, old(events) + more)
      ensures r.Ok? ==> events == old(events) + more
      ensures r.Err? ==> unchanged(this)
      ensures r.Ok? && more != [] ==> snapshot == Some(SnapshotOf(Current(), more[|more| - 1].at))
    {
      if more == [] {
        assert events + more == events;
        return Ok(());
      }
      var candidate := events + more;
      var judged := Judge(account, market, candidate);
      if judged.Err? {
        return Err(judged.error);
      }
      Publish(candidate, judged.value);
      r := Ok(());
    }

    method Publish(log: seq<Event>, b: Book)
      requires Accepted(account, market, log) && Replay(Survivors(log)) == Ok(b)
      modifies this
      ensures Valid() && events == log
      ensures Shows(b, log[|log| - 1].at)
    {
      events := log;
      cash := Some(b.cash);
      realizedPnl := Some(Quantize12(b.pnl));
      positions := Some(Positions(b));
      lots := Some(OpenLots(b));
      snapshot := Some(SnapshotOf(b, log[|log| - 1].at));
    }

    method Append(e: Event) returns (r: Result<(), Fault>)
      requires Valid()
      modifies this
      ensures Valid()
      ensures r.Ok? <==> Accepted(account, market, old(events) + [e])
      ensures r.Ok? ==> events == old(events) + [e]
      ensures r.Err? ==> unchanged(this)
    {
      r := AppendMany([e]);
    }

    /** The portfolio as it stood at `t`, recomputed from the events at or before `t`. */
    method SnapshotAsOf(t: Instant) returns (r: Result<Snapshot, Fault>)
      requires Valid()
      ensures r.Ok? <==> SnapshotAt(events, t).Ok?
      ensures r.Ok? ==> r == SnapshotAt(events, t)
    {
      var prefix := UpTo(events, t);
      if prefix == [] {
        return Err(NotInitialized);
      }
      ghost var n := UpToIsPrefix(events, t);
      var active := ActiveEvents(prefix);
      if active.Err? {
        return Err(active.error);
      }
      var replayed := ReplayEvents(active.value);
      if replayed.Err? {
        return Err(replayed.error);
      }
      r := Ok(SnapshotOf(replayed.value, t));
    }

    /** Replaying a persisted log gives the ledger that wrote it. */
    static method Rebuild(account: Id, market: Market, log: seq<Event>)
      returns (r: Result<PortfolioLedger, Fault>)
      ensures r.Ok? <==> log == [] || Accepted(account, market, log)
      ensures r.Ok? ==> fresh(r.value) && r.value.Valid() && r.value.events == log
      ensures r.Ok? ==> r.value.account == account && r.value.market == market
    {
      var ledger := new PortfolioLedger(account, market);
      var done := ledger.AppendMany(log);
      assert [] + log == log;
      r := if done.Ok? then Ok(ledger) else Err(done.error);
    }
  }

  /** A ledger rebuilt from the survivors shows everything the original shows, but its instant. */
  lemma {:induction false} ErasureShowsTheSame(original: PortfolioLedger, rebuilt: PortfolioLedger)
    requires original.Valid() && original.events != []
    requires rebuilt.Valid() && rebuilt.events == Survivors(original.events)
    requires rebuilt.account == original.account && rebuilt.market == original.market
    ensures rebuilt.events != []
    ensures rebuilt.cash == original.cash && rebuilt.realizedPnl == original.realizedPnl
    ensures rebuilt.positions == original.positions && rebuilt.lots == original.lots
    ensures rebuilt.snapshot.Some? && original.snapshot.Some?
    ensures rebuilt.snapshot.value == original.snapshot.value.(asOf := rebuilt.snapshot.value.asOf)
  {
    ReversalIsErasure(original.account, original.market, original.events);
  }
}
