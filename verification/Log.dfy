/**
  The append-only log: which logs a ledger accepts, which events survive their
  reversals, and what a snapshot of the past sees.
  (src/stock_agent/account/ledger.py, `_commit_candidates`, `_active_events`, `snapshot`.)
 */
module Log {
  import opened Common
  import opened Fifo
  import opened Book

  datatype Snapshot = Snapshot(cash: real, nav: real, peak: real, positions: seq<Position>, asOf: Instant)

  function Targets(events: seq<Event>): set<Id> {
    set i | 0 <= i < |events| && events[i].body.Reversed? :: events[i].body.target
  }

  /** Ordinary events whose identity is not in `dropped`, in log order. */
  function Keep(events: seq<Event>, dropped: set<Id>): seq<Event> {
    if events == [] then []
    else
      var e := events[|events| - 1];
      Keep(events[..|events| - 1], dropped) +
      if e.body.Reversed? || e.id in dropped then [] else [e]
  }

  function Survivors(events: seq<Event>): seq<Event> {
    Keep(events, Targets(events))
  }

  /** A reversal names an earlier ordinary event that nothing reversed before. */
  predicate ReversalOk(events: seq<Event>, i: nat)
    requires i < |events| && events[i].body.Reversed?
  {
    var target := events[i].body.target;
    && (exists j :: 0 <= j < i && events[j].id == target
                    && !events[j].body.CashInitialized? && !events[j].body.Reversed?)
    && (forall k :: 0 <= k < i && events[k].body.Reversed? ==> events[k].body.target != target)
  }

  predicate ReversalsOk(events: seq<Event>) {
    forall i :: 0 <= i < |events| && events[i].body.Reversed? ==> ReversalOk(events, i)
  }

  function FillIdsOf(e: Event): seq<Id> {
    if e.body.BatchBooked? then FillIds(e.body.fills) else []
  }

  function AllFillIds(events: seq<Event>): seq<Id> {
    if events == [] then []
    else AllFillIds(events[..|events| - 1]) + FillIdsOf(events[|events| - 1])
  }

  predicate DistinctIds(events: seq<Event>) {
    forall i, j :: 0 <= i < j < |events| ==> events[i].id != events[j].id
  }

  predicate Chronological(events: seq<Event>) {
    forall i, j :: 0 <= i < j < |events| ==> events[i].at < events[j].at
  }

  predicate OneOpening(events: seq<Event>) {
    && events != [] && events[0].body.CashInitialized?
    && forall i :: 1 <= i < |events| ==> !events[i].body.CashInitialized?
  }

  predicate Owned(account: Id, market: Market, events: seq<Event>) {
    forall i :: 0 <= i < |events| ==>
      WellFormed(events[i]) && events[i].account == account && events[i].market == market
  }

  /** Every test a candidate log passes except its replay. */
  predicate Consistent(account: Id, market: Market, events: seq<Event>) {
    && Owned(account, market, events)
    && OneOpening(events)
    && DistinctIds(events)
    && Chronological(events)
    && Distinct(AllFillIds(events))
    && ReversalsOk(events)
  }

  predicate Accepted(account: Id, market: Market, events: seq<Event>) {
    Consistent(account, market, events) && Replay(Survivors(events)).Ok?
  }

  // ---- snapshots ----

  function SnapshotOf(b: Book, asOf: Instant): Snapshot
    requires Sound(b)
  {
    Snapshot(b.cash, Nav(b), b.peak, Positions(b), asOf)
  }

  function UpTo(events: seq<Event>, t: Instant): seq<Event> {
    if events == [] then []
    else
      var e := events[|events| - 1];
      UpTo(events[..|events| - 1], t) + if e.at <= t then [e] else []
  }

  ghost function SnapshotAt(events: seq<Event>, t: Instant): Result<Snapshot, Fault> {
    var seen := UpTo(events, t);
    if seen == [] then Err(NotInitialized)
    else if !ReversalsOk(seen) then Err(NotReplayable)
    else match Replay(Survivors(seen))
      case Err(fault) => Err(fault)
      case Ok(b) => Ok(SnapshotOf(b, t))
  }

  // ---- filtering keeps what acceptance asks ----

  /** `e` is an ordinary, undropped event of the log. */
  ghost predicate Survives(events: seq<Event>, dropped: set<Id>, e: Event) {
    && (exists j :: 0 <= j < |events| && events[j] == e)
    && !e.body.Reversed? && e.id !in dropped
  }

  lemma {:induction false} KeptComesFromLog(events: seq<Event>, dropped: set<Id>)
    ensures forall i :: 0 <= i < |Keep(events, dropped)| ==> Survives(events, dropped, Keep(events, dropped)[i])
  {
    if events == [] {
    } else {
      var front, last := events[..|events| - 1], |events| - 1;
      KeptComesFromLog(front, dropped);
      forall e | Survives(front, dropped, e) ensures Survives(events, dropped, e) {
        var j :| 0 <= j < |front| && front[j] == e;
        assert events[j] == e;
      }
      assert events[last] == events[|events| - 1];
    }
  }

  lemma {:induction false} KeepOrdered(events: seq<Event>, dropped: set<Id>)
    requires Chronological(events) && DistinctIds(events)
    ensures Chronological(Keep(events, dropped)) && DistinctIds(Keep(events, dropped))
  {
    if events == [] {
    } else {
      var front := events[..|events| - 1];
      KeepOrdered(front, dropped);
      KeptComesFromLog(front, dropped);
    }
  }

  lemma {:induction false} KeepOpening(events: seq<Event>, dropped: set<Id>)
    requires OneOpening(events) && events[0].id !in dropped
    ensures OneOpening(Keep(events, dropped)) && Keep(events, dropped)[0] == events[0]
  {
    var front := events[..|events| - 1];
    if |events| == 1 {
      assert Keep(front, dropped) == [];
    } else {
      KeepOpening(front, dropped);
    }
  }

  lemma {:induction false} KeepFillIds(events: seq<Event>, dropped: set<Id>)
    requires Distinct(AllFillIds(events))
    ensures Distinct(AllFillIds(Keep(events, dropped)))
    ensures forall id :: id in AllFillIds(Keep(events, dropped)) ==> id in AllFillIds(events)
  {
    if events == [] {
    } else {
      var front, e := events[..|events| - 1], events[|events| - 1];
      DistinctParts(AllFillIds(front), FillIdsOf(e));
      KeepFillIds(front, dropped);
      if !e.body.Reversed? && e.id !in dropped {
        assert (Keep(front, dropped) + [e])[..|Keep(front, dropped)|] == Keep(front, dropped);
        DistinctConcat(AllFillIds(Keep(front, dropped)), FillIdsOf(e));
      } else {
        assert Keep(events, dropped) == Keep(front, dropped);
      }
    }
  }

  lemma {:induction false} KeepNothingDropped(events: seq<Event>)
    requires forall i :: 0 <= i < |events| ==> !events[i].body.Reversed?
    ensures Keep(events, {}) == events
  {
    if events == [] {
    } else {
      var front, e := events[..|events| - 1], events[|events| - 1];
      KeepNothingDropped(front);
      assert Keep(events, {}) == Keep(front, {}) + [e];
      assert front + [e] == events;
    }
  }

  lemma {:induction false} OpeningIsNeverATarget(events: seq<Event>)
    requires ReversalsOk(events) && DistinctIds(events) && OneOpening(events)
    ensures events[0].id !in Targets(events)
  {
    forall i | 0 <= i < |events| && events[i].body.Reversed? ensures events[i].body.target != events[0].id {
      assert ReversalOk(events, i);
    }
  }

  /**
    Reversal equals never happened: the surviving events alone are a log the
    ledger accepts, and it replays to the same book.
   */
  lemma {:induction false} ReversalIsErasure(account: Id, market: Market, events: seq<Event>)
    requires Accepted(account, market, events)
    ensures Accepted(account, market, Survivors(events))
    ensures Survivors(Survivors(events)) == Survivors(events)
    ensures Replay(Survivors(Survivors(events))) == Replay(Survivors(events))
  {
    var kept := Survivors(events);
    OpeningIsNeverATarget(events);
    KeptComesFromLog(events, Targets(events));
    KeepOrdered(events, Targets(events));
    KeepOpening(events, Targets(events));
    KeepFillIds(events, Targets(events));
    assert Targets(kept) == {};
    KeepNothingDropped(kept);
  }

  // ---- prefixes and time travel ----

  lemma {:induction false} UpToIsPrefix(events: seq<Event>, t: Instant) returns (n: nat)
    requires Chronological(events)
    ensures n <= |events| && UpTo(events, t) == events[..n]
    ensures forall i :: 0 <= i < n ==> events[i].at <= t
    ensures forall i :: n <= i < |events| ==> t < events[i].at
  {
    if events == [] {
      n := 0;
    } else {
      var front := events[..|events| - 1];
      n := UpToIsPrefix(front, t);
      assert forall i :: 0 <= i < |front| ==> events[i] == front[i];
      var m := n;
      if events[|events| - 1].at <= t {
        m := n + 1;
      }
      OneMoreUpTo(events, t, n);
      n := m;
    }
  }

  /** The cut of a log, given the cut of all but its last event. */
  lemma {:induction false} OneMoreUpTo(events: seq<Event>, t: Instant, n: nat)
    requires Chronological(events) && events != [] && n < |events|
    requires UpTo(events[..|events| - 1], t) == events[..|events| - 1][..n]
    requires forall i :: 0 <= i < n ==> events[i].at <= t
    requires forall i :: n <= i < |events| - 1 ==> t < events[i].at
    ensures var m := if events[|events| - 1].at <= t then n + 1 else n;
            && UpTo(events, t) == events[..m]
            && (forall i :: 0 <= i < m ==> events[i].at <= t)
            && forall i :: m <= i < |events| ==> t < events[i].at
  {
    var front := events[..|events| - 1];
    assert front[..n] == events[..n];
    if events[|events| - 1].at <= t {
      EarlierThanLast(events, t, n);
      assert events[..n + 1] == events;
    }
  }

  lemma {:induction false} EarlierThanLast(events: seq<Event>, t: Instant, n: nat)
    requires Chronological(events) && events != [] && n < |events|
    requires events[|events| - 1].at <= t
    requires forall i :: n <= i < |events| - 1 ==> t < events[i].at
    ensures n == |events| - 1
  {
    assert events[n].at <= events[|events| - 1].at;
  }

  lemma {:induction false} UpToIgnoresTheFuture(events: seq<Event>, later: seq<Event>, t: Instant)
    requires forall i :: 0 <= i < |later| ==> t < later[i].at
    ensures UpTo(events + later, t) == UpTo(events, t)
  {
    if later == [] {
      assert events + later == events;
    } else {
      var front := later[..|later| - 1];
      assert (events + later)[..|events + later| - 1] == events + front;
      assert (events + later)[|events + later| - 1] == later[|later| - 1];
      UpToIgnoresTheFuture(events, front, t);
    }
  }

  /** No event appended after `t` changes the snapshot at `t`. */
  lemma {:induction false} PastIsFixed(events: seq<Event>, later: seq<Event>, t: Instant)
    requires forall i :: 0 <= i < |later| ==> t < later[i].at
    ensures SnapshotAt(events + later, t) == SnapshotAt(events, t)
  {
    UpToIgnoresTheFuture(events, later, t);
  }

  /** At the last event's own time the past view is the current view. */
  lemma {:induction false} PresentIsTheLastPast(account: Id, market: Market, events: seq<Event>)
    requires Accepted(account, market, events)
    ensures var last := events[|events| - 1].at;
            SnapshotAt(events, last) == Ok(SnapshotOf(Replay(Survivors(events)).value, last))
  {
    var last := events[|events| - 1].at;
    var n := UpToIsPrefix(events, last);
    assert events[..n] == events;
  }

  lemma {:induction false} PrefixReversalsOk(events: seq<Event>, n: nat)
    requires ReversalsOk(events) && n <= |events|
    ensures ReversalsOk(events[..n])
  {
    forall i | 0 <= i < n && events[i].body.Reversed? ensures ReversalOk(events[..n], i) {
      assert ReversalOk(events, i);
      var j :| 0 <= j < i && events[j].id == events[i].body.target
               && !events[j].body.CashInitialized? && !events[j].body.Reversed?;
      assert events[..n][j].id == events[..n][i].body.target;
    }
  }

  lemma {:induction false} PrefixFillIds(events: seq<Event>, n: nat)
    requires n <= |events| && Distinct(AllFillIds(events))
    ensures Distinct(AllFillIds(events[..n]))
    decreases |events|
  {
    if n == |events| {
      assert events[..n] == events;
    } else {
      var front := events[..|events| - 1];
      DistinctParts(AllFillIds(front), FillIdsOf(events[|events| - 1]));
      PrefixFillIds(front, n);
      assert front[..n] == events[..n];
    }
  }

  /** A prefix of a log passes every test the log passes, its replay aside. */
  lemma {:induction false} PrefixConsistent(account: Id, market: Market, events: seq<Event>, n: nat)
    requires Consistent(account, market, events) && 1 <= n <= |events|
    ensures Consistent(account, market, events[..n])
  {
    hide WellFormed, ReversalOk;
    PrefixFillIds(events, n);
    PrefixReversalsOk(events, n);
  }

  lemma {:induction false} SnapshotCutsAtTime(account: Id, market: Market, events: seq<Event>, t: Instant, n: nat)
    requires Accepted(account, market, events) && 1 <= n <= |events|
    requires events[n - 1].at <= t && (n < |events| ==> t < events[n].at)
    ensures SnapshotAt(events, t).Ok? == Replay(Survivors(events[..n])).Ok?
  {
    var k := UpToIsPrefix(events, t);
    assert k == n;
    PrefixReversalsOk(events, n);
  }

  /** A snapshot succeeds at every instant since the opening. */
  ghost predicate PastReadable(events: seq<Event>)
    requires events != []
  {
    forall t :: events[0].at <= t ==> SnapshotAt(events, t).Ok?
  }

  /** Every prefix is itself a log the ledger accepts. */
  ghost predicate PrefixesAccepted(account: Id, market: Market, events: seq<Event>) {
    forall n :: 1 <= n <= |events| ==> Accepted(account, market, events[..n])
  }

  /** The past of an accepted log is readable exactly when it could have been appended event by event. */
  lemma {:induction false} ReadableIffOneByOne(account: Id, market: Market, events: seq<Event>)
    requires Accepted(account, market, events)
    ensures PastReadable(events) <==> PrefixesAccepted(account, market, events)
  {
    hide Consistent, Replay;
    ConsistentParts(account, market, events);
    forall n | 1 <= n <= |events|
      ensures events[0].at <= events[n - 1].at
      ensures SnapshotAt(events, events[n - 1].at).Ok? <==> Accepted(account, market, events[..n])
    {
      SnapshotCutsAtTime(account, market, events, events[n - 1].at, n);
      PrefixConsistent(account, market, events, n);
    }
    forall t | events[0].at <= t && PrefixesAccepted(account, market, events) ensures SnapshotAt(events, t).Ok? {
      var n := UpToIsPrefix(events, t);
      SnapshotCutsAtTime(account, market, events, t, n);
      assert Accepted(account, market, events[..n]);
    }
  }

  lemma {:induction false} ConsistentParts(account: Id, market: Market, events: seq<Event>)
    requires Consistent(account, market, events)
    ensures events != [] && Chronological(events)
  {}

  /** Each event of a batch would be accepted if it were appended by itself. */
  ghost predicate AcceptedOneByOne(account: Id, market: Market, before: seq<Event>, more: seq<Event>) {
    forall k :: 1 <= k <= |more| ==> Accepted(account, market, before + more[..k])
  }

  /**
    Exactly when an accepted batch leaves the past readable: it was readable before, and
    the events would be accepted one at a time. The judgment of the whole batch alone
    does not give that.
   */
  lemma {:induction false} BatchKeepsThePast(account: Id, market: Market, before: seq<Event>, more: seq<Event>)
    requires Accepted(account, market, before) && Accepted(account, market, before + more)
    ensures before != []
    ensures PastReadable(before + more) <==> PastReadable(before) && AcceptedOneByOne(account, market, before, more)
  {
    hide Accepted, PastReadable;
    AcceptedIsNonempty(account, market, before);
    ReadableIffOneByOne(account, market, before);
    ReadableIffOneByOne(account, market, before + more);
    forall n | 1 <= n <= |before| ensures (before + more)[..n] == before[..n] {}
    forall k | 1 <= k <= |more| ensures (before + more)[..|before| + k] == before + more[..k] {}
    if PrefixesAccepted(account, market, before + more) {
      forall k | 1 <= k <= |more| ensures Accepted(account, market, before + more[..k]) {
        assert Accepted(account, market, (before + more)[..|before| + k]);
      }
      forall n | 1 <= n <= |before| ensures Accepted(account, market, before[..n]) {
        assert Accepted(account, market, (before + more)[..n]);
      }
    }
    if PrefixesAccepted(account, market, before) && AcceptedOneByOne(account, market, before, more) {
      forall n | 1 <= n <= |before + more| ensures Accepted(account, market, (before + more)[..n]) {
        if n > |before| {
          assert Accepted(account, market, before + more[..n - |before|]);
        }
      }
    }
  }

  lemma {:induction false} AcceptedIsNonempty(account: Id, market: Market, events: seq<Event>)
    requires Accepted(account, market, events)
    ensures events != []
  {}

  /** No event of the log reverses another. */
  predicate NoReversals(events: seq<Event>) {
    forall i :: 0 <= i < |events| ==> !events[i].body.Reversed?
  }

  lemma {:induction false} KeepConcat(a: seq<Event>, b: seq<Event>, dropped: set<Id>)
    ensures Keep(a + b, dropped) == Keep(a, dropped) + Keep(b, dropped)
  {
    if b == [] {
      assert a + b == a;
    } else {
      var front := b[..|b| - 1];
      assert (a + b)[..|a + b| - 1] == a + front;
      KeepConcat(a, front, dropped);
    }
  }

  lemma {:induction false} SameTargets(before: seq<Event>, more: seq<Event>, k: nat)
    requires k <= |more| && NoReversals(more)
    ensures Targets(before + more[..k]) == Targets(before + more)
  {
    var cut, whole := before + more[..k], before + more;
    forall x | x in Targets(whole) ensures x in Targets(cut) {
      var i :| 0 <= i < |whole| && whole[i].body.Reversed? && whole[i].body.target == x;
      assert cut[i] == whole[i];
    }
    forall x | x in Targets(cut) ensures x in Targets(whole) {
      var i :| 0 <= i < |cut| && cut[i].body.Reversed? && cut[i].body.target == x;
      assert whole[i] == cut[i];
    }
  }

  /** A batch that reverses nothing, or that is a single event, never breaks a readable past. */
  lemma {:induction false} PlainBatchKeepsThePast(account: Id, market: Market, before: seq<Event>, more: seq<Event>)
    requires Accepted(account, market, before) && Accepted(account, market, before + more)
    requires NoReversals(more) || |more| == 1
    ensures AcceptedOneByOne(account, market, before, more)
  {
    hide Consistent, Replay, Keep, Targets;
    AcceptedIsNonempty(account, market, before);
    forall k | 1 <= k <= |more| ensures Accepted(account, market, before + more[..k]) {
      if |more| == 1 {
        assert more[..k] == more;
      } else {
        PlainPrefixReplays(account, market, before, more, k);
        assert (before + more)[..|before| + k] == before + more[..k];
        PrefixConsistent(account, market, before + more, |before| + k);
      }
    }
  }

  lemma {:induction false} PlainPrefixReplays(account: Id, market: Market, before: seq<Event>, more: seq<Event>, k: nat)
    requires Accepted(account, market, before + more) && NoReversals(more) && before != [] && k <= |more|
    ensures Replay(Survivors(before + more[..k])).Ok?
  {
    hide Consistent, Replay, Keep, Targets;
    var whole, cut := Survivors(before + more), Survivors(before + more[..k]);
    SameTargets(before, more, k);
    KeepConcat(before + more[..k], more[k..], Targets(before + more));
    assert before + more[..k] + more[k..] == before + more;
    assert whole[..|cut|] == cut;
    SurvivorsStart(account, market, before, more, k);
    ReplayOfPrefix(whole, |cut|);
  }

  /** The opening survives in every cut. */
  lemma {:induction false} SurvivorsStart(account: Id, market: Market, before: seq<Event>, more: seq<Event>, k: nat)
    requires Accepted(account, market, before + more) && before != [] && k <= |more|
    ensures Survivors(before + more[..k]) != []
  {
    hide Replay, Owned, AllFillIds;
    var cut := before + more[..k];
    assert (before + more)[..|cut|] == cut;
    PrefixConsistent(account, market, before + more, |cut|);
    OpeningIsNeverATarget(cut);
    KeepOpening(cut, Targets(cut));
  }

  lemma {:induction false} ReplayOfPrefix(events: seq<Event>, n: nat)
    requires Replay(events).Ok? && 1 <= n <= |events|
    ensures Replay(events[..n]).Ok?
  {
    if n < |events| {
      ReplayOfPrefix(events[..|events| - 1], n);
      assert events[..|events| - 1][..n] == events[..n];
    } else {
      assert events[..n] == events;
    }
  }

  lemma {:induction false} FillsKeepPeak(b: Book, session: Date, fills: seq<BookedFill>)
    requires Sound(b) && (forall f :: f in fills ==> ValidFill(f)) && ApplyFills(b, session, fills).Ok?
    ensures ApplyFills(b, session, fills).value.peak == b.peak
  {
    if fills == [] {
    } else {
      FillsKeepPeak(b, session, fills[..|fills| - 1]);
    }
  }

  lemma {:induction false} PeakGrows(b: Book, e: Event)
    requires Sound(b) && Step(b, e).Ok? && !e.body.CashInitialized?
    ensures var after := Step(b, e).value;
            && b.peak <= after.peak && Nav(after) <= after.peak
            && (after.peak == b.peak || after.peak == Nav(after))
  {
    if e.body.BatchBooked? {
      FillsKeepPeak(b, e.body.session, e.body.fills);
    }
  }

  /** The net value right after the n-th event. */
  function NavAfter(events: seq<Event>, n: nat): real
    requires 1 <= n <= |events| && Replay(events[..n]).Ok?
  {
    Nav(Replay(events[..n]).value)
  }

  lemma {:induction false} PeakBoundsEveryNav(events: seq<Event>, n: nat)
    requires Replay(events).Ok? && OneOpening(events) && 1 <= n <= |events|
    ensures Replay(events[..n]).Ok? && NavAfter(events, n) <= Replay(events).value.peak
  {
    if n == |events| {
      assert events[..n] == events;
      if n > 1 {
        PeakGrows(Replay(events[..n - 1]).value, events[n - 1]);
      }
    } else {
      var front := events[..|events| - 1];
      assert front[..n] == events[..n];
      PeakBoundsEveryNav(front, n);
      PeakGrows(Replay(front).value, events[|events| - 1]);
    }
  }

  lemma {:induction false} PeakIsReached(events: seq<Event>) returns (n: nat)
    requires Replay(events).Ok? && OneOpening(events)
    ensures 1 <= n <= |events| && Replay(events[..n]).Ok?
    ensures NavAfter(events, n) == Replay(events).value.peak
  {
    n := |events|;
    assert events[..n] == events;
    if n > 1 {
      var front := events[..n - 1];
      PeakGrows(Replay(front).value, events[n - 1]);
      if Replay(events).value.peak == Replay(front).value.peak {
        n := PeakIsReached(front);
        assert front[..n] == events[..n];
      }
    }
  }

  /** The recorded peak is the greatest net value reached after any surviving event. */
  lemma {:induction false} PeakIsTheMaximum(events: seq<Event>)
    requires Replay(events).Ok? && OneOpening(events)
    ensures forall n :: 1 <= n <= |events| ==>
              Replay(events[..n]).Ok? && NavAfter(events, n) <= Replay(events).value.peak
    ensures exists n :: 1 <= n <= |events| && Replay(events[..n]).Ok?
                        && NavAfter(events, n) == Replay(events).value.peak
  {
    forall n | 1 <= n <= |events|
      ensures Replay(events[..n]).Ok? && NavAfter(events, n) <= Replay(events).value.peak
    {
      PeakBoundsEveryNav(events, n);
    }
    var n := PeakIsReached(events);
  }

  /** Cash, a sale of shares never bought, and the reversal of that sale, appended together. */
  function RetractedSale(account: Id, market: Market, at: Instant, sale: BookedFill): seq<Event> {
    [Event([1], account, market, at, CashInitialized(0.0)),
     Event([2], account, market, at + 1, SellFilled(0, sale)),
     Event([3], account, market, at + 2, Reversed([2]))]
  }

  lemma {:induction false} RetractedSaleIsConsistent(account: Id, market: Market, at: Instant, sale: BookedFill)
    requires ValidFill(sale) && sale.side == Sell
    ensures Consistent(account, market, RetractedSale(account, market, at, sale))
  {
    hide Supported;
    var log := RetractedSale(account, market, at, sale);
    ZeroIsSupported();
    assert log[..2] == [log[0], log[1]] && log[..2][..1] == [log[0]] && [log[0]][..0] == [];
    assert AllFillIds([]) == [] && AllFillIds([log[0]]) == [] && AllFillIds(log[..2]) == [] && AllFillIds(log) == [];
    assert log[1].id == log[2].body.target;
    assert ReversalOk(log, 2);
  }

  lemma {:induction false} RetractedSaleVanishes(account: Id, market: Market, at: Instant, sale: BookedFill)
    ensures var log := RetractedSale(account, market, at, sale); Survivors(log) == [log[0]]
  {
    var log := RetractedSale(account, market, at, sale);
    var one, two := [log[0]], [log[0], log[1]];
    assert log[..2] == two && two[..1] == one && one[..0] == [];
    assert log[2].body.target in Targets(log);
    assert Targets(log) == {[2]};
    assert Keep([], {[2]}) == [] && Keep(one, {[2]}) == one && Keep(two, {[2]}) == one;
  }

  lemma {:induction false} RetractedSaleSeen(account: Id, market: Market, at: Instant, sale: BookedFill)
    ensures var log := RetractedSale(account, market, at, sale); UpTo(log, at + 1) == [log[0], log[1]]
  {
    var log := RetractedSale(account, market, at, sale);
    var one, two := [log[0]], [log[0], log[1]];
    assert log[..2] == two && two[..1] == one && one[..0] == [];
    assert UpTo([], at + 1) == [] && UpTo(one, at + 1) == one && UpTo(two, at + 1) == two;
  }

  lemma {:induction false} OpeningReplays(e: Event)
    requires e.body == CashInitialized(0.0)
    ensures Replay([e]) == Ok(Book(0.0, 0.0, 0.0, map[]))
  {
    ZeroIsSupported();
    assert Nav(Book(0.0, 0.0, 0.0, map[])) == 0.0;
  }

  lemma {:induction false} SaleOfNothingFails(first: Event, second: Event, sale: BookedFill, session: Date)
    requires first.body == CashInitialized(0.0) && second.body == SellFilled(session, sale)
    requires ValidFill(sale) && sale.side == Sell
    ensures Replay([first, second]).Err?
  {
    hide Replay, ValidFill, Supported, Nav, ValueOf;
    OpeningReplays(first);
    ReplayAppend([first], second);
    assert [first] + [second] == [first, second];
  }

  /**
    A batch of events is judged by its outcome alone: this log is accepted, yet a
    snapshot taken between the sale and its reversal cannot be replayed.
   */
  lemma {:induction false} AcceptedWithBrokenPast(account: Id, market: Market, at: Instant, sale: BookedFill)
    requires ValidFill(sale) && sale.side == Sell
    ensures var log := RetractedSale(account, market, at, sale);
            Accepted(account, market, log) && SnapshotAt(log, at + 1).Err?
  {
    hide Consistent, Replay, UpTo, ValidFill;
    var log := RetractedSale(account, market, at, sale);
    RetractedSaleIsConsistent(account, market, at, sale);
    RetractedSaleVanishes(account, market, at, sale);
    OpeningReplays(log[0]);
    RetractedSaleSeen(account, market, at, sale);
    KeepNothingDropped([log[0], log[1]]);
    assert Targets([log[0], log[1]]) == {};
    SaleOfNothingFails(log[0], log[1], sale, 0);
  }

  lemma {:induction false} ZeroIsSupported()
    ensures Supported(0.0)
  {
    assert (0.0 * GRID).Floor == 0;
  }
}
