/**
  What a refresh reports, told from the replies alone: the outcome of every symbol, and
  the attempts left on record, are those of what the provider answered for it.
  (src/stock_agent/runtime/market_data.py.)
 */
module BudgetReport {
  import opened Common
  import opened ProviderBudget

  /** The replies to the attempts at one item, in order. */
  function RepliesTo(tries: seq<Try>, item: Item): seq<Reply> {
    if tries == [] then []
    else
      var last := tries[|tries| - 1];
      RepliesTo(tries[..|tries| - 1], item) + if last.item == item then [last.reply] else []
  }

  /** The replies an item got since the first `base` attempts. */
  function Heard(base: nat, st: Store, item: Item): seq<Reply>
    requires base <= |st.tries|
  {
    RepliesTo(st.tries[base..], item)
  }

  /** The status a reply goes on record under. */
  ghost predicate Says(status: Status, reply: Reply) {
    match status
    case Success => reply == Fetched
    case Throttled => reply == Throttling
    case RetryableFailure => reply == RetryableError
    case PermanentFailure => reply == PermanentError || reply == Refused
    case _ => false
  }

  /** One reply, or a passing error and one more. */
  ghost predicate EndsWith(heard: seq<Reply>, number: nat, status: Status) {
    match number
    case 1 => |heard| == 1 && Says(status, heard[0])
    case 2 => |heard| == 2 && heard[0] == RetryableError && Says(status, heard[1])
    case _ => false
  }

  /**
    What an outcome says of the replies the item got in this refresh, of the day's budget
    after it, and of whether the item was complete (`done`) before it.
   */
  ghost predicate Told(o: Outcome, heard: seq<Reply>, b: Budget, done: bool) {
    match o.status
    case AlreadyCompleted => o.number == 0 && heard == [] && done
    case CircuitOpen => o.number == 0 && (heard == [] || heard == [RetryableError]) && b.circuitOpen
    case BudgetExhausted =>
      if o.number == 1 then heard == [] && b.normalLimit <= b.normalSpent && !done
      else o.number == 2 && heard == [RetryableError] && b.recoveryLimit <= b.recoverySpent
    case _ => EndsWith(heard, o.number, o.status) && !done && (o.status == Throttled ==> b.circuitOpen)
  }

  /** The record of the item holds each of these replies under its number. */
  ghost predicate OnRecord(attempts: Attempts, item: Item, heard: seq<Reply>) {
    && |heard| <= 2
    && (|heard| >= 1 ==> item in attempts && 1 in attempts[item] && Says(attempts[item][1], heard[0]))
    && (|heard| >= 2 ==> 2 in attempts[item] && Says(attempts[item][2], heard[1]))
  }

  /** A day's budget only fills up. */
  ghost predicate FillsUp(before: Budget, after: Budget) {
    && after.normalLimit == before.normalLimit && after.recoveryLimit == before.recoveryLimit
    && before.normalSpent <= after.normalSpent && before.recoverySpent <= after.recoverySpent
    && (before.circuitOpen ==> after.circuitOpen)
  }

  lemma {:induction false} ToldStays(o: Outcome, heard: seq<Reply>, before: Budget, after: Budget, done: bool)
    requires Told(o, heard, before, done) && FillsUp(before, after)
    ensures Told(o, heard, after, done)
  {}

  /** What stands in front of a fetch: construction first, then every close of the schedule, by the clock of the refresh. */
  lemma {:induction false} GuardIs(job: Job, reply: Reply)
    ensures Fate(job, reply) ==
            if reply == NotBuilt then NotBuilt
            else if exists close :: close in job.closes && job.now < close then Refused
            else reply
  {
    if exists k :: 0 <= k < |job.closes| && job.closes[k] > job.now {
      var k :| 0 <= k < |job.closes| && job.closes[k] > job.now;
      assert job.closes[k] in job.closes;
    }
  }

  // ---- one visit ----

  lemma {:induction false} HeardGrows(base: nat, before: Store, after: Store, t: Try, item: Item)
    requires base <= |before.tries| && after.tries == before.tries + [t]
    ensures Heard(base, after, item) == Heard(base, before, item) + if t.item == item then [t.reply] else []
  {
    var tries := after.tries[base..];
    assert tries[..|tries| - 1] == before.tries[base..];
  }

  /** A visit leaves the other symbols as they were. */
  lemma {:induction false} VisitLeaves(base: nat, p: Progress, job: Job, x: Symbol, kind: Kind, replies: nat -> Reply, y: Symbol)
    requires KeyOf(job) in p.store.budgets && base <= |p.store.tries| && y != x
    ensures var (r, item) := (Visit(p, job, x, kind, replies), ItemOf(job, y));
            && base <= |r.store.tries|
            && FillsUp(p.store.budgets[KeyOf(job)], r.store.budgets[KeyOf(job)])
            && Heard(base, r.store, item) == Heard(base, p.store, item)
            && (item in r.store.attempts <==> item in p.store.attempts)
            && (item in r.store.attempts ==> r.store.attempts[item] == p.store.attempts[item])
            && (y in r.results <==> y in p.results) && (y in r.results ==> r.results[y] == p.results[y])
  {
    hide Completed, Heard;
    var r := Visit(p, job, x, kind, replies);
    if |r.store.tries| > |p.store.tries| {
      var t := r.store.tries[|p.store.tries|];
      assert t.item == ItemOf(job, x);
      HeardGrows(base, p.store, r.store, t, ItemOf(job, y));
    } else {
      assert r.store.tries == p.store.tries;
      SameHeard(base, p.store, r.store, ItemOf(job, y));
    }
  }

  lemma {:induction false} SameHeard(base: nat, before: Store, after: Store, item: Item)
    requires base <= |before.tries| && after.tries == before.tries
    ensures Heard(base, after, item) == Heard(base, before, item)
  {}

  /** What a visited symbol had before: nothing in the normal pass, a passing error in the recovery pass. */
  ghost predicate Unvisited(heard: seq<Reply>, kind: Kind) {
    heard == if kind == Normal then [] else [RetryableError]
  }

  /** The outcome a visit gives a symbol tells what happened to it. */
  lemma {:induction false} VisitTells(base: nat, done: bool, p: Progress, job: Job, x: Symbol, kind: Kind, replies: nat -> Reply)
    requires KeyOf(job) in p.store.budgets && base <= |p.store.tries|
    requires Unvisited(Heard(base, p.store, ItemOf(job, x)), kind) && OnRecord(p.store.attempts, ItemOf(job, x), Heard(base, p.store, ItemOf(job, x)))
    requires if kind == Normal then done <==> Completed(p.store.attempts, ItemOf(job, x)) else !done
    requires !Visit(p, job, x, kind, replies).broken
    ensures var (r, item) := (Visit(p, job, x, kind, replies), ItemOf(job, x));
            && base <= |r.store.tries| && x in r.results
            && Told(r.results[x], Heard(base, r.store, item), r.store.budgets[KeyOf(job)], done)
            && OnRecord(r.store.attempts, item, Heard(base, r.store, item))
            && r.retryable == p.retryable + (if kind == Normal && r.results[x].status == RetryableFailure then [x] else [])
            && (kind == Normal ==> r.results[x].number <= 1)
  {
    hide Completed, Heard, OnRecord, Told;
    var (r, item) := (Visit(p, job, x, kind, replies), ItemOf(job, x));
    var heard := Heard(base, p.store, item);
    if |r.store.tries| > |p.store.tries| {
      var t := r.store.tries[|p.store.tries|];
      HeardGrows(base, p.store, r.store, t, item);
      TriedTells(p.store, job, x, kind, t.reply, heard, done);
    } else {
      SameHeard(base, p.store, r.store, item);
      NotTriedTells(p, job, x, kind, replies, heard, done);
    }
  }

  /** A granted attempt whose error did not leave the refresh. */
  lemma {:induction false} TriedTells(s: Store, job: Job, x: Symbol, kind: Kind, reply: Reply, heard: seq<Reply>, done: bool)
    requires KeyOf(job) in s.budgets && reply != Broke && reply != NotBuilt && !done
    requires ClaimBudget(s.budgets[KeyOf(job)], kind).1 == Granted
    requires Unvisited(heard, kind) && OnRecord(s.attempts, ItemOf(job, x), heard)
    ensures var (after, o) := Tried(s, job, x, kind, ClaimBudget(s.budgets[KeyOf(job)], kind).0, reply);
            && o.Some? && Told(o.value, heard + [reply], after.budgets[KeyOf(job)], done)
            && OnRecord(after.attempts, ItemOf(job, x), heard + [reply])
            && (kind == Normal ==> o.value.number == 1)
  {
  }

  lemma {:induction false} NotTriedTells(p: Progress, job: Job, x: Symbol, kind: Kind, replies: nat -> Reply,
                                         heard: seq<Reply>, done: bool)
    requires KeyOf(job) in p.store.budgets && !Visit(p, job, x, kind, replies).broken
    requires Unvisited(heard, kind) && OnRecord(p.store.attempts, ItemOf(job, x), heard)
    requires if kind == Normal then done <==> Completed(p.store.attempts, ItemOf(job, x)) else !done
    requires |Visit(p, job, x, kind, replies).store.tries| == |p.store.tries|
    ensures var r := Visit(p, job, x, kind, replies);
            && x in r.results && Told(r.results[x], heard, r.store.budgets[KeyOf(job)], done)
            && OnRecord(r.store.attempts, ItemOf(job, x), heard)
            && r.results[x].status in {AlreadyCompleted, CircuitOpen, BudgetExhausted}
            && r.retryable == p.retryable && (kind == Normal ==> r.results[x].number <= 1)
  {
    hide Completed, OnRecord;
  }

  // ---- the two passes ----

  /** Everything visited so far is told and on record; nothing else has been touched. */
  ghost predicate NormalTold(s: Store, p: Progress, job: Job, order: seq<Symbol>, k: nat)
    requires k <= |order|
  {
    && !p.broken && KeyOf(job) in p.store.budgets && |s.tries| <= |p.store.tries|
    && (forall i :: 0 <= i < k ==> SymbolTold(s, p, job, order[i]) && p.results[order[i]].number <= 1)
    && (forall i :: k <= i < |order| ==> Untouched(s, p, job, order[i]))
    && (forall i :: 0 <= i < k ==>
          (order[i] in p.retryable <==> p.results[order[i]].status == RetryableFailure))
    && (forall j :: 0 <= j < |p.retryable| ==> p.retryable[j] in order[..k])
    && Distinct(p.retryable)
  }

  ghost predicate SymbolTold(s: Store, p: Progress, job: Job, x: Symbol)
  {
    var item := ItemOf(job, x);
    && KeyOf(job) in p.store.budgets && |s.tries| <= |p.store.tries| && x in p.results
    && Told(p.results[x], Heard(|s.tries|, p.store, item), p.store.budgets[KeyOf(job)], Completed(s.attempts, item))
    && OnRecord(p.store.attempts, item, Heard(|s.tries|, p.store, item))
  }

  ghost predicate Untouched(s: Store, p: Progress, job: Job, x: Symbol) {
    var item := ItemOf(job, x);
    && |s.tries| <= |p.store.tries| && Heard(|s.tries|, p.store, item) == []
    && (item in p.store.attempts <==> item in s.attempts)
    && (item in s.attempts ==> p.store.attempts[item] == s.attempts[item])
  }

  lemma {:induction false} VisitKeepsKey(p: Progress, job: Job, x: Symbol, kind: Kind, replies: nat -> Reply)
    requires KeyOf(job) in p.store.budgets
    ensures KeyOf(job) in Visit(p, job, x, kind, replies).store.budgets
    ensures p.broken ==> Visit(p, job, x, kind, replies).broken
  {
    hide Completed, Put, ClaimBudget;
  }

  lemma {:induction false} RecordStays(before: Attempts, after: Attempts, item: Item, heard: seq<Reply>)
    requires OnRecord(before, item, heard) && (item in before ==> item in after && after[item] == before[item])
    ensures OnRecord(after, item, heard)
  {}

  lemma {:induction false} OthersStayTold(s: Store, p: Progress, job: Job, x: Symbol, kind: Kind, replies: nat -> Reply, y: Symbol)
    requires KeyOf(job) in p.store.budgets && |s.tries| <= |p.store.tries| && y != x
    ensures SymbolTold(s, p, job, y) ==>
              var r := Visit(p, job, x, kind, replies);
              SymbolTold(s, r, job, y) && y in p.results && y in r.results && r.results[y] == p.results[y]
    ensures Untouched(s, p, job, y) ==> Untouched(s, Visit(p, job, x, kind, replies), job, y)
  {
    hide Visit, Heard, Completed, Told, FillsUp, OnRecord;
    VisitKeepsKey(p, job, x, kind, replies);
    VisitLeaves(|s.tries|, p, job, x, kind, replies, y);
    var item := ItemOf(job, y);
    if SymbolTold(s, p, job, y) {
      RecordStays(p.store.attempts, Visit(p, job, x, kind, replies).store.attempts, item, Heard(|s.tries|, p.store, item));
      ToldStays(p.results[y], Heard(|s.tries|, p.store, item), p.store.budgets[KeyOf(job)],
                Visit(p, job, x, kind, replies).store.budgets[KeyOf(job)], Completed(s.attempts, item));
    }
  }

  lemma {:induction false} NextIsTold(s: Store, p: Progress, job: Job, x: Symbol, replies: nat -> Reply)
    requires KeyOf(job) in p.store.budgets && Untouched(s, p, job, x) && !Visit(p, job, x, Normal, replies).broken
    ensures var r := Visit(p, job, x, Normal, replies);
            && |s.tries| <= |r.store.tries| && SymbolTold(s, r, job, x) && r.results[x].number <= 1
            && r.retryable == p.retryable + if r.results[x].status == RetryableFailure then [x] else []
  {
    hide Visit, Heard, Told;
    var item := ItemOf(job, x);
    VisitKeepsKey(p, job, x, Normal, replies);
    assert Completed(s.attempts, item) <==> Completed(p.store.attempts, item);
    VisitTells(|s.tries|, Completed(s.attempts, item), p, job, x, Normal, replies);
  }

  lemma {:induction false} NormalStep(s: Store, p: Progress, job: Job, order: seq<Symbol>, k: nat, replies: nat -> Reply)
    requires k < |order| && Distinct(order) && NormalTold(s, p, job, order, k)
    requires !Visit(p, job, order[k], Normal, replies).broken
    ensures NormalTold(s, Visit(p, job, order[k], Normal, replies), job, order, k + 1)
  {
    hide Visit, SymbolTold, Untouched;
    var x, r := order[k], Visit(p, job, order[k], Normal, replies);
    NextIsTold(s, p, job, x, replies);
    VisitKeepsKey(p, job, x, Normal, replies);
    forall i | 0 <= i < |order| && i != k
      ensures SymbolTold(s, p, job, order[i]) ==>
                && SymbolTold(s, r, job, order[i]) && order[i] in p.results && order[i] in r.results
                && r.results[order[i]] == p.results[order[i]]
      ensures Untouched(s, p, job, order[i]) ==> Untouched(s, r, job, order[i])
    {
      OthersStayTold(s, p, job, x, Normal, replies, order[i]);
    }
    assert x !in order[..k];
    assert forall j :: 0 <= j < |p.retryable| ==> p.retryable[j] in order[..k + 1] by {
      assert forall y :: y in order[..k] ==> y in order[..k + 1];
    }
    assert x in order[..k + 1] by { assert order[..k + 1][k] == x; }
  }

  lemma {:induction false} NormalPassTells(s: Store, start: Progress, job: Job, order: seq<Symbol>, k: nat, replies: nat -> Reply)
    requires k <= |order| && Distinct(order) && NormalTold(s, start, job, order, 0) && start.retryable == []
    requires !Pass(start, job, order[..k], Normal, replies).broken
    ensures NormalTold(s, Pass(start, job, order[..k], Normal, replies), job, order, k)
  {
    hide Visit, NormalTold;
    if k == 0 {
      PassOfNone(start, job, Normal, replies);
      assert order[..0] == [];
    } else {
      ToldQueue(s, start, job, order, 0);
      PassNext(start, job, order, Normal, replies, k - 1);
      var before := Pass(start, job, order[..k - 1], Normal, replies);
      VisitKeepsKey(before, job, order[k - 1], Normal, replies);
      NormalPassTells(s, start, job, order, k - 1, replies);
      NormalStep(s, before, job, order, k - 1, replies);
    }
  }

  /** Every symbol is told, and those still queued for recovery have had one passing error. */
  ghost predicate RecoveryTold(s: Store, p: Progress, job: Job, order: seq<Symbol>, queue: seq<Symbol>, m: nat) {
    && !p.broken && KeyOf(job) in p.store.budgets && |s.tries| <= |p.store.tries|
    && (forall i :: 0 <= i < |order| ==> SymbolTold(s, p, job, order[i]))
    && forall j :: m <= j < |queue| ==> Waits(s, p, job, queue[j])
  }

  ghost predicate Waits(s: Store, p: Progress, job: Job, x: Symbol)
    requires |s.tries| <= |p.store.tries|
  {
    && SymbolTold(s, p, job, x)
    && Heard(|s.tries|, p.store, ItemOf(job, x)) == [RetryableError] && !Completed(s.attempts, ItemOf(job, x))
  }

  lemma {:induction false} RecoveryStarts(s: Store, p: Progress, job: Job, order: seq<Symbol>)
    requires NormalTold(s, p, job, order, |order|)
    ensures RecoveryTold(s, p, job, order, p.retryable, 0)
  {
    hide Heard, Completed, OnRecord;
    forall j | 0 <= j < |p.retryable| ensures Waits(s, p, job, p.retryable[j]) {
      assert p.retryable[j] in order[..|order|];
      var i :| 0 <= i < |order| && order[i] == p.retryable[j];
      assert SymbolTold(s, p, job, order[i]) && p.results[order[i]].number <= 1;
      assert order[i] in p.retryable && p.results[order[i]].status == RetryableFailure;
    }
  }

  lemma {:induction false} RecoveryStep(s: Store, p: Progress, job: Job, order: seq<Symbol>, queue: seq<Symbol>, m: nat,
                                        replies: nat -> Reply)
    requires m < |queue| && Distinct(queue) && RecoveryTold(s, p, job, order, queue, m)
    requires !Visit(p, job, queue[m], Recovery, replies).broken
    ensures RecoveryTold(s, Visit(p, job, queue[m], Recovery, replies), job, order, queue, m + 1)
  {
    hide Visit, SymbolTold, Heard, Completed;
    var x, r := queue[m], Visit(p, job, queue[m], Recovery, replies);
    assert Waits(s, p, job, x);
    RecoveredIsTold(s, p, job, x, replies);
    VisitKeepsKey(p, job, x, Recovery, replies);
    forall i | 0 <= i < |order| ensures SymbolTold(s, r, job, order[i]) {
      if order[i] != x {
        OthersStayTold(s, p, job, x, Recovery, replies, order[i]);
      }
    }
    forall j | m + 1 <= j < |queue| ensures Waits(s, r, job, queue[j]) {
      assert Waits(s, p, job, queue[j]) && queue[j] != x;
      OthersStayTold(s, p, job, x, Recovery, replies, queue[j]);
      VisitLeaves(|s.tries|, p, job, x, Recovery, replies, queue[j]);
    }
  }

  lemma {:induction false} RecoveredIsTold(s: Store, p: Progress, job: Job, x: Symbol, replies: nat -> Reply)
    requires KeyOf(job) in p.store.budgets && |s.tries| <= |p.store.tries| && Waits(s, p, job, x)
    requires !Visit(p, job, x, Recovery, replies).broken
    ensures |s.tries| <= |Visit(p, job, x, Recovery, replies).store.tries|
    ensures SymbolTold(s, Visit(p, job, x, Recovery, replies), job, x)
  {
    hide Visit, Heard, Told, Completed, OnRecord;
    VisitKeepsKey(p, job, x, Recovery, replies);
    VisitTells(|s.tries|, false, p, job, x, Recovery, replies);
  }

  lemma {:induction false} RecoveryPassTells(s: Store, start: Progress, job: Job, order: seq<Symbol>, queue: seq<Symbol>, m: nat,
                                             replies: nat -> Reply)
    requires m <= |queue| && Distinct(queue) && RecoveryTold(s, start, job, order, queue, 0)
    requires KeyOf(job) in start.store.budgets && !Pass(start, job, queue[..m], Recovery, replies).broken
    ensures RecoveryTold(s, Pass(start, job, queue[..m], Recovery, replies), job, order, queue, m)
  {
    hide Visit, RecoveryTold;
    if m == 0 {
      PassOfNone(start, job, Recovery, replies);
      assert queue[..0] == [];
    } else {
      PassNext(start, job, queue, Recovery, replies, m - 1);
      var before := Pass(start, job, queue[..m - 1], Recovery, replies);
      VisitKeepsKey(before, job, queue[m - 1], Recovery, replies);
      RecoveryPassTells(s, start, job, order, queue, m - 1, replies);
      RecoveryStep(s, before, job, order, queue, m - 1, replies);
    }
  }

  // ---- the refresh ----

  lemma {:induction false} StartIsTold(s: Store, job: Job, order: seq<Symbol>)
    ensures var start := Progress(EnsureBudget(s, job), map[], [], 0, false); NormalTold(s, start, job, order, 0)
  {
    var start := Progress(EnsureBudget(s, job), map[], [], 0, false);
    assert start.store.tries[|s.tries|..] == [];
  }

  /**
    A refresh of distinct symbols that ends without an error of its own reports exactly one
    outcome per symbol, and each outcome tells what happened: the replies the symbol got, the
    limit or circuit that kept it from being asked, or that it was complete before.
   */
  lemma {:induction false} ReportIsTrue(s: Store, job: Job, symbols: seq<Symbol>, replies: nat -> Reply)
    requires Distinct(symbols) && !Refresh(s, job, symbols, replies).broken
    ensures var r := Refresh(s, job, symbols, replies);
            forall x :: x in symbols ==> SymbolTold(s, r, job, x)
  {
    hide Pass, NormalTold, RecoveryTold, SymbolTold, EnsureBudget;
    var start, order := Progress(EnsureBudget(s, job), map[], [], 0, false), Ascending(symbols);
    AscendingPermutes(symbols);
    DistinctByCount(symbols);
    DistinctByCount(order);
    StartIsTold(s, job, order);
    assert order[..|order|] == order;
    KeyEnsured(s, job);
    var normal := Pass(start, job, order, Normal, replies);
    NeverMends(normal, job, normal.retryable, Recovery, replies);
    NormalPassTells(s, start, job, order, |order|, replies);
    RecoveryStarts(s, normal, job, order);
    assert normal.retryable[..|normal.retryable|] == normal.retryable;
    ToldQueue(s, normal, job, order, |order|);
    RecoveryPassTells(s, normal, job, order, normal.retryable, |normal.retryable|, replies);
    var r := Pass(normal, job, normal.retryable, Recovery, replies);
    forall x | x in symbols ensures SymbolTold(s, r, job, x) {
      assert x in multiset(symbols) && x in multiset(order) && x in order;
      assert RecoveryTold(s, r, job, order, normal.retryable, |normal.retryable|);
      var i :| 0 <= i < |order| && order[i] == x;
      AllTold(s, r, job, order, normal.retryable, i);
    }
  }

  lemma {:induction false} AllTold(s: Store, p: Progress, job: Job, order: seq<Symbol>, queue: seq<Symbol>, i: nat)
    requires RecoveryTold(s, p, job, order, queue, |queue|) && i < |order|
    ensures SymbolTold(s, p, job, order[i])
  {}

  lemma {:induction false} ToldQueue(s: Store, p: Progress, job: Job, order: seq<Symbol>, k: nat)
    requires k <= |order| && NormalTold(s, p, job, order, k)
    ensures KeyOf(job) in p.store.budgets && Distinct(p.retryable)
  {}

  lemma {:induction false} KeyEnsured(s: Store, job: Job)
    ensures KeyOf(job) in EnsureBudget(s, job).budgets
  {}

  lemma {:induction false} NeverMends(p: Progress, job: Job, symbols: seq<Symbol>, kind: Kind, replies: nat -> Reply)
    requires KeyOf(job) in p.store.budgets
    ensures p.broken ==> Pass(p, job, symbols, kind, replies).broken
  {
    BrokenStays(p, job, symbols, kind, replies);
  }

  // ---- who is asked, in what order, and who pays ----

  predicate Rising(s: seq<Symbol>) {
    forall i, j :: 0 <= i < j < |s| ==> s[i] < s[j]
  }

  /** The attempts from `base` on are for these symbols, in rising order. */
  ghost predicate AsksRising(tries: seq<Try>, base: nat, job: Job, among: seq<Symbol>)
    requires base <= |tries|
  {
    && (forall k :: base <= k < |tries| ==> tries[k].item.symbol in among && tries[k].item == ItemOf(job, tries[k].item.symbol))
    && forall j, k :: base <= j < k < |tries| ==> tries[j].item.symbol < tries[k].item.symbol
  }

  /** Each attempt of a pass is charged to the limit of that pass, and to nothing else. */
  ghost predicate ChargedTo(kind: Kind, before: Budget, after: Budget, attempts: nat) {
    && after.normalLimit == before.normalLimit && after.recoveryLimit == before.recoveryLimit
    && after.normalSpent == before.normalSpent + (if kind == Normal then attempts else 0)
    && after.recoverySpent == before.recoverySpent + (if kind == Recovery then attempts else 0)
  }

  ghost predicate PassOrderly(p: Progress, r: Progress, job: Job, symbols: seq<Symbol>, kind: Kind) {
    && KeyOf(job) in p.store.budgets && KeyOf(job) in r.store.budgets
    && |p.store.tries| <= |r.store.tries| && r.store.tries[..|p.store.tries|] == p.store.tries
    && AsksRising(r.store.tries, |p.store.tries|, job, symbols)
    && ChargedTo(kind, p.store.budgets[KeyOf(job)], r.store.budgets[KeyOf(job)], |r.store.tries| - |p.store.tries|)
    && (forall key :: key != KeyOf(job) ==> (key in r.store.budgets <==> key in p.store.budgets))
    && (forall key :: key != KeyOf(job) && key in p.store.budgets ==> r.store.budgets[key] == p.store.budgets[key])
  }

  lemma {:induction false} VisitIsOrderly(p: Progress, job: Job, x: Symbol, kind: Kind, replies: nat -> Reply)
    requires KeyOf(job) in p.store.budgets
    ensures PassOrderly(p, Visit(p, job, x, kind, replies), job, [x], kind)
    ensures |Visit(p, job, x, kind, replies).store.tries| <= |p.store.tries| + 1
  {
    hide Completed, Put, StatusOf, Fate;
    assert [x][0] == x;
  }

  lemma {:induction false} OrderlyThen(p: Progress, q: Progress, r: Progress, job: Job, front: seq<Symbol>, x: Symbol, kind: Kind)
    requires PassOrderly(p, q, job, front, kind) && PassOrderly(q, r, job, [x], kind)
    requires |r.store.tries| <= |q.store.tries| + 1
    requires forall y :: y in front ==> y < x
    ensures PassOrderly(p, r, job, front + [x], kind)
  {
    hide ItemOf, KeyOf;
    PrefixOfPrefix(p.store.tries, q.store.tries, r.store.tries);
    var m, tries := |q.store.tries|, r.store.tries;
    forall k | |p.store.tries| <= k < |tries|
      ensures tries[k].item.symbol in front + [x] && tries[k].item == ItemOf(job, tries[k].item.symbol)
      ensures k < m ==> tries[k].item.symbol in front
      ensures k == m ==> tries[k].item.symbol == x
    {
      if k < m {
        assert tries[..m][k] == q.store.tries[k];
      }
    }
    forall j, k | |p.store.tries| <= j < k < |tries| ensures tries[j].item.symbol < tries[k].item.symbol {
      if k < m {
        assert tries[..m][j] == q.store.tries[j] && tries[..m][k] == q.store.tries[k];
      }
    }
  }

  lemma {:induction false} PassIsOrderly(p: Progress, job: Job, symbols: seq<Symbol>, kind: Kind, replies: nat -> Reply)
    requires KeyOf(job) in p.store.budgets && Rising(symbols)
    ensures PassOrderly(p, Pass(p, job, symbols, kind, replies), job, symbols, kind)
  {
    hide Visit, PassOrderly;
    if symbols == [] {
      NoneAsked(p, job, kind);
    } else {
      var n := |symbols| - 1;
      PassIsOrderly(p, job, symbols[..n], kind, replies);
      var before := Pass(p, job, symbols[..n], kind, replies);
      VisitIsOrderly(before, job, symbols[n], kind, replies);
      OrderlyThen(p, before, Visit(before, job, symbols[n], kind, replies), job, symbols[..n], symbols[n], kind);
      assert symbols[..n] + [symbols[n]] == symbols;
    }
  }

  lemma {:induction false} NoneAsked(p: Progress, job: Job, kind: Kind)
    requires KeyOf(job) in p.store.budgets
    ensures PassOrderly(p, p, job, [], kind)
  {}

  lemma {:induction false} VisitQueues(p: Progress, job: Job, x: Symbol, replies: nat -> Reply)
    requires KeyOf(job) in p.store.budgets
    ensures var r := Visit(p, job, x, Normal, replies); r.retryable == p.retryable || r.retryable == p.retryable + [x]
  {
    hide Completed, Attempt;
  }

  lemma {:induction false} QueueRises(p: Progress, job: Job, symbols: seq<Symbol>, replies: nat -> Reply)
    requires KeyOf(job) in p.store.budgets && Rising(symbols) && p.retryable == []
    ensures var queue := Pass(p, job, symbols, Normal, replies).retryable;
            Rising(queue) && forall x :: x in queue ==> x in symbols
  {
    hide Visit;
    if symbols == [] {
    } else {
      var n := |symbols| - 1;
      QueueRises(p, job, symbols[..n], replies);
      var before := Pass(p, job, symbols[..n], Normal, replies);
      VisitQueues(before, job, symbols[n], replies);
      QueueGrows(before.retryable, symbols);
    }
  }

  lemma {:induction false} QueueGrows(queue: seq<Symbol>, symbols: seq<Symbol>)
    requires symbols != [] && Rising(symbols) && Rising(queue)
    requires forall x :: x in queue ==> x in symbols[..|symbols| - 1]
    ensures Rising(queue + [symbols[|symbols| - 1]])
    ensures forall x :: x in queue + [symbols[|symbols| - 1]] ==> x in symbols
  {
    var n := |symbols| - 1;
    forall i | 0 <= i < |queue| ensures queue[i] < symbols[n] && queue[i] in symbols {
      assert queue[i] in queue && queue[i] in symbols[..n];
    }
  }

  lemma {:induction false} OrderRises(symbols: seq<Symbol>)
    requires Distinct(symbols)
    ensures Rising(Ascending(symbols))
    ensures forall x :: x in Ascending(symbols) <==> x in symbols
  {
    var order := Ascending(symbols);
    AscendingSorts(symbols);
    AscendingPermutes(symbols);
    DistinctByCount(symbols);
    DistinctByCount(order);
    forall x ensures x in order <==> x in symbols {
      assert x in order <==> x in multiset(order);
      assert x in symbols <==> x in multiset(symbols);
    }
  }

  /** What a refresh did up to its `m`-th attempt was one pass, and what it did after it the other. */
  ghost predicate TwoPasses(before: Budget, start: nat, m: nat, r: Progress, job: Job, symbols: seq<Symbol>) {
    && KeyOf(job) in r.store.budgets && start <= m <= |r.store.tries|
    && AsksRising(r.store.tries[..m], start, job, symbols) && AsksRising(r.store.tries, m, job, symbols)
    && var after := r.store.budgets[KeyOf(job)];
       && after.normalSpent == before.normalSpent + m - start
       && after.recoverySpent == before.recoverySpent + |r.store.tries| - m
  }

  /**
    A refresh of distinct symbols makes its attempts in two runs, each in rising order of
    the symbols given; the first is charged to the normal limit, the second to the recovery
    limit, one claim for every attempt, and no other day is charged anything.
   */
  lemma {:induction false} RefreshIsOrderly(s: Store, job: Job, symbols: seq<Symbol>, replies: nat -> Reply) returns (m: nat)
    requires Distinct(symbols)
    ensures KeyOf(job) in EnsureBudget(s, job).budgets
    ensures var r := Refresh(s, job, symbols, replies);
            && TwoPasses(EnsureBudget(s, job).budgets[KeyOf(job)], |s.tries|, m, r, job, symbols)
            && |s.tries| <= |r.store.tries| && r.store.tries[..|s.tries|] == s.tries
            && (forall key :: key != KeyOf(job) ==> (key in r.store.budgets <==> key in s.budgets))
            && (forall key :: key != KeyOf(job) && key in s.budgets ==> r.store.budgets[key] == s.budgets[key])
  {
    hide Pass, AsksRising;
    KeyEnsured(s, job);
    OrderRises(symbols);
    var start, order := Progress(EnsureBudget(s, job), map[], [], 0, false), Ascending(symbols);
    var normal := Pass(start, job, order, Normal, replies);
    PassIsOrderly(start, job, order, Normal, replies);
    QueueRises(start, job, order, replies);
    PassIsOrderly(normal, job, normal.retryable, Recovery, replies);
    m := |normal.store.tries|;
    var r := Refresh(s, job, symbols, replies);
    assert r.store.tries[..m] == normal.store.tries;
    PrefixOfPrefix(s.tries, normal.store.tries, r.store.tries);
    AmongMore(normal.store.tries, |s.tries|, job, order, symbols);
    AmongMore(r.store.tries, m, job, normal.retryable, symbols);
  }

  lemma {:induction false} AmongMore(tries: seq<Try>, base: nat, job: Job, some: seq<Symbol>, all: seq<Symbol>)
    requires base <= |tries| && AsksRising(tries, base, job, some) && forall x :: x in some ==> x in all
    ensures AsksRising(tries, base, job, all)
  {}
}
