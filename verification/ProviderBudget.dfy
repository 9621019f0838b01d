/**
  Refreshing market data under a durable daily budget: a normal pass over the symbols,
  then a recovery pass over what failed for a passing reason.
  (src/stock_agent/runtime/market_data.py and the budget tables of runtime/store.py.)
 */
module ProviderBudget {
  import opened Common

  datatype Kind = Normal | Recovery

  /**
    How a granted attempt ends. Two ends come before the provider is asked for anything:
    `NotBuilt`, when the provider, the ingestor or the request cannot be constructed, and
    `Refused`, when the ingestion turns the attempt down. `Broke` is any other error the
    refresh does not handle.
   */
  datatype Reply = NotBuilt | Refused | Fetched | Throttling | RetryableError | PermanentError | Broke

  datatype Status =
    | Success
    | Throttled
    | RetryableFailure
    | PermanentFailure
    | BudgetExhausted
    | CircuitOpen
    | AlreadyCompleted

  datatype Item = Item(provider: int, market: Market, symbol: Symbol, session: Date)

  datatype DayKey = DayKey(provider: int, day: Date)

  datatype Budget = Budget(normalLimit: nat, recoveryLimit: nat, normalSpent: nat, recoverySpent: nat, circuitOpen: bool)

  datatype Try = Try(item: Item, day: Date, reply: Reply)

  type Attempts = map<Item, map<nat, Status>>

  /** The tables, and in order every attempt that was granted a claim. */
  datatype Store = Store(budgets: map<DayKey, Budget>, attempts: Attempts, tries: seq<Try>)

  /** What one refresh is for, when it is made, and the closes of its schedule. */
  datatype Job = Job(provider: int, market: Market, session: Date, day: Date, now: Instant, closes: seq<Instant>,
                     normalLimit: nat, recoveryLimit: nat)

  /** No session of the schedule is still open; the guard in front of every fetch. */
  predicate SessionsOver(job: Job) {
    forall k :: 0 <= k < |job.closes| ==> job.closes[k] <= job.now
  }

  /** How an attempt of this refresh ends, given how it would end behind the guard. */
  function Fate(job: Job, reply: Reply): Reply {
    if reply == NotBuilt || SessionsOver(job) then reply else Refused
  }

  /** The attempt got as far as asking the provider. */
  predicate Asked(t: Try) {
    t.reply != NotBuilt && t.reply != Refused
  }

  datatype Outcome = Outcome(status: Status, number: nat)

  datatype Claim = Granted | Exhausted | Open

  function KeyOf(job: Job): DayKey { DayKey(job.provider, job.day) }

  function ItemOf(job: Job, symbol: Symbol): Item { Item(job.provider, job.market, symbol, job.session) }

  predicate Completed(attempts: Attempts, item: Item) {
    item in attempts && exists n :: n in attempts[item] && attempts[item][n] == Success
  }

  function EnsureBudget(s: Store, job: Job): Store {
    if KeyOf(job) in s.budgets then s
    else s.(budgets := s.budgets[KeyOf(job) := Budget(job.normalLimit, job.recoveryLimit, 0, 0, false)])
  }

  function ClaimBudget(b: Budget, kind: Kind): (Budget, Claim) {
    if b.circuitOpen then (b, Open)
    else if kind == Normal then
      (if b.normalSpent >= b.normalLimit then (b, Exhausted) else (b.(normalSpent := b.normalSpent + 1), Granted))
    else
      (if b.recoverySpent >= b.recoveryLimit then (b, Exhausted) else (b.(recoverySpent := b.recoverySpent + 1), Granted))
  }

  function Put(attempts: Attempts, item: Item, number: nat, status: Status): Attempts {
    attempts[item := (if item in attempts then attempts[item] else map[])[number := status]]
  }

  function StatusOf(reply: Reply): Status {
    match reply
    case NotBuilt => PermanentFailure
    case Refused => PermanentFailure
    case Fetched => Success
    case Throttling => Throttled
    case RetryableError => RetryableFailure
    case PermanentError => PermanentFailure
    case Broke => PermanentFailure
  }

  function NumberOf(kind: Kind): nat { if kind == Normal then 1 else 2 }

  /** What a granted claim leads to: the attempt, the circuit, the record. */
  function Tried(s: Store, job: Job, symbol: Symbol, kind: Kind, b: Budget, reply: Reply): (Store, Option<Outcome>) {
    var item := ItemOf(job, symbol);
    var after := Store(s.budgets[KeyOf(job) := b.(circuitOpen := reply == Throttling)], s.attempts,
                       s.tries + [Try(item, job.day, reply)]);
    if reply == Broke || reply == NotBuilt then (after, None)
    else (after.(attempts := Put(s.attempts, item, NumberOf(kind), StatusOf(reply))),
          Some(Outcome(StatusOf(reply), NumberOf(kind))))
  }

  /** One attempt; the replies answer the granted attempts in the order they are made. */
  function Attempt(s: Store, job: Job, symbol: Symbol, kind: Kind, replies: nat -> Reply): (Store, Option<Outcome>)
    requires KeyOf(job) in s.budgets
  {
    var (b, claim) := ClaimBudget(s.budgets[KeyOf(job)], kind);
    match claim
    case Exhausted => (s, Some(Outcome(BudgetExhausted, NumberOf(kind))))
    case Open => (s, Some(Outcome(CircuitOpen, 0)))
    case Granted => Tried(s, job, symbol, kind, b, Fate(job, replies(|s.tries|)))
  }

  /** A refresh under way, with the provider calls it will report; `broken` once an error has left it. */
  datatype Progress = Progress(store: Store, results: map<Symbol, Outcome>, retryable: seq<Symbol>, calls: nat, broken: bool)

  function Visit(p: Progress, job: Job, symbol: Symbol, kind: Kind, replies: nat -> Reply): Progress
    requires KeyOf(job) in p.store.budgets
  {
    if p.broken then p
    else if p.store.budgets[KeyOf(job)].circuitOpen then p.(results := p.results[symbol := Outcome(CircuitOpen, 0)])
    else if kind == Normal && Completed(p.store.attempts, ItemOf(job, symbol)) then
      p.(results := p.results[symbol := Outcome(AlreadyCompleted, 0)])
    else
      var (after, outcome) := Attempt(p.store, job, symbol, kind, replies);
      match outcome
      case None => p.(store := after, broken := true)
      case Some(o) =>
        Progress(after, p.results[symbol := o],
                 if kind == Normal && o.status == RetryableFailure then p.retryable + [symbol] else p.retryable,
                 p.calls + (|after.tries| - |p.store.tries|), false)
  }

  function Pass(p: Progress, job: Job, symbols: seq<Symbol>, kind: Kind, replies: nat -> Reply): (r: Progress)
    requires KeyOf(job) in p.store.budgets
    ensures KeyOf(job) in r.store.budgets
  {
    if symbols == [] then p
    else
      var before := Pass(p, job, symbols[..|symbols| - 1], kind, replies);
      Visit(before, job, symbols[|symbols| - 1], kind, replies)
  }

  /** Insertion into an ascending sequence, and sorting that keeps repeats. */
  function Insert(x: int, s: seq<int>): seq<int> {
    if s == [] || x <= s[0] then [x] + s else [s[0]] + Insert(x, s[1..])
  }

  function Ascending(s: seq<int>): seq<int> {
    if s == [] then [] else Insert(s[|s| - 1], Ascending(s[..|s| - 1]))
  }

  function Refresh(s: Store, job: Job, symbols: seq<Symbol>, replies: nat -> Reply): Progress {
    var start := Progress(EnsureBudget(s, job), map[], [], 0, false);
    var normal := Pass(start, job, Ascending(symbols), Normal, replies);
    Pass(normal, job, normal.retryable, Recovery, replies)
  }

  // ---- what holds in every store ----

  function TryKey(t: Try): DayKey { DayKey(t.item.provider, t.day) }

  function TryCount(tries: seq<Try>, key: DayKey): nat {
    if tries == [] then 0
    else TryCount(tries[..|tries| - 1], key) + if TryKey(tries[|tries| - 1]) == key then 1 else 0
  }

  /** The calls a provider received on a day. */
  function CallCount(tries: seq<Try>, key: DayKey): nat {
    if tries == [] then 0
    else
      var last := tries[|tries| - 1];
      CallCount(tries[..|tries| - 1], key) + if TryKey(last) == key && Asked(last) then 1 else 0
  }

  /** Every attempt was paid for, within the limits. */
  ghost predicate Paid(s: Store) {
    forall key :: PaidFor(s, key)
  }

  ghost predicate PaidFor(s: Store, key: DayKey) {
    if key in s.budgets then
      var b := s.budgets[key];
      && TryCount(s.tries, key) == b.normalSpent + b.recoverySpent
      && b.normalSpent <= b.normalLimit && b.recoverySpent <= b.recoveryLimit
    else TryCount(s.tries, key) == 0
  }

  /** A throttled call opened its circuit and was the last of its day. */
  ghost predicate ThrottleFinal(s: Store) {
    && (forall i :: 0 <= i < |s.tries| && s.tries[i].reply == Throttling ==>
          TryKey(s.tries[i]) in s.budgets && s.budgets[TryKey(s.tries[i])].circuitOpen)
    && forall i, j :: 0 <= i < j < |s.tries| && s.tries[i].reply == Throttling ==> TryKey(s.tries[j]) != TryKey(s.tries[i])
  }

  /** A successful fetch is on record, and was the last of its item. */
  ghost predicate FetchFinal(s: Store) {
    && (forall i :: 0 <= i < |s.tries| && s.tries[i].reply == Fetched ==> Completed(s.attempts, s.tries[i].item))
    && (forall item :: Completed(s.attempts, item) ==> WasFetched(s.tries, item))
    && forall i, j :: 0 <= i < j < |s.tries| && s.tries[i].reply == Fetched ==> s.tries[j].item != s.tries[i].item
  }

  ghost predicate WasFetched(tries: seq<Try>, item: Item) {
    exists i :: 0 <= i < |tries| && tries[i].reply == Fetched && tries[i].item == item
  }

  ghost predicate StoreOk(s: Store) {
    Paid(s) && ThrottleFinal(s) && FetchFinal(s)
  }

  // ---- one attempt ----

  lemma {:induction false} EnsureKeeps(s: Store, job: Job)
    requires StoreOk(s)
    ensures StoreOk(EnsureBudget(s, job)) && KeyOf(job) in EnsureBudget(s, job).budgets
  {
    var after := EnsureBudget(s, job);
    forall key ensures PaidFor(after, key) {
      assert PaidFor(s, key);
    }
  }

  lemma {:induction false} PutCompletes(attempts: Attempts, item: Item, number: nat, status: Status, other: Item)
    ensures other != item ==> (Completed(Put(attempts, item, number, status), other) <==> Completed(attempts, other))
    ensures status == Success ==> Completed(Put(attempts, item, number, status), item)
    ensures status != Success && !Completed(attempts, item) ==> !Completed(Put(attempts, item, number, status), item)
  {
    var after := Put(attempts, item, number, status);
    assert number in after[item] && after[item][number] == status;
    if other != item && other in attempts {
      assert after[other] == attempts[other];
    }
  }

  lemma {:induction false} TriedPaid(s: Store, job: Job, symbol: Symbol, kind: Kind, reply: Reply, key: DayKey)
    requires PaidFor(s, key) && KeyOf(job) in s.budgets && ClaimBudget(s.budgets[KeyOf(job)], kind).1 == Granted
    ensures PaidFor(Tried(s, job, symbol, kind, ClaimBudget(s.budgets[KeyOf(job)], kind).0, reply).0, key)
  {
    var after := Tried(s, job, symbol, kind, ClaimBudget(s.budgets[KeyOf(job)], kind).0, reply).0;
    assert after.tries[..|s.tries|] == s.tries;
  }

  lemma {:induction false} CallThrottleFinal(s: Store, job: Job, symbol: Symbol, kind: Kind, reply: Reply)
    requires ThrottleFinal(s) && KeyOf(job) in s.budgets && !s.budgets[KeyOf(job)].circuitOpen
    ensures ThrottleFinal(Tried(s, job, symbol, kind, ClaimBudget(s.budgets[KeyOf(job)], kind).0, reply).0)
  {
    hide Put, ClaimBudget;
  }

  /** What a call adds to the record and to the history of its item. */
  lemma {:induction false} CallShows(s: Store, job: Job, symbol: Symbol, kind: Kind, b: Budget, reply: Reply, other: Item)
    ensures var (item, after) := (ItemOf(job, symbol), Tried(s, job, symbol, kind, b, reply).0);
            && after.tries == s.tries + [Try(item, job.day, reply)]
            && (other != item ==> (Completed(after.attempts, other) <==> Completed(s.attempts, other)))
            && (reply == Fetched ==> Completed(after.attempts, item))
            && (reply != Fetched && !Completed(s.attempts, item) ==> !Completed(after.attempts, item))
  {
    PutCompletes(s.attempts, ItemOf(job, symbol), NumberOf(kind), StatusOf(reply), other);
  }

  lemma {:induction false} CallFetchFinal(s: Store, job: Job, symbol: Symbol, kind: Kind, b: Budget, reply: Reply)
    requires FetchFinal(s) && !Completed(s.attempts, ItemOf(job, symbol))
    ensures FetchFinal(Tried(s, job, symbol, kind, b, reply).0)
  {
    hide Completed, Tried;
    var item, after := ItemOf(job, symbol), Tried(s, job, symbol, kind, b, reply).0;
    CallShows(s, job, symbol, kind, b, reply, item);
    forall i | 0 <= i < |after.tries| && after.tries[i].reply == Fetched ensures Completed(after.attempts, after.tries[i].item) {
      CallShows(s, job, symbol, kind, b, reply, after.tries[i].item);
    }
    forall other | Completed(after.attempts, other) ensures WasFetched(after.tries, other) {
      CallShows(s, job, symbol, kind, b, reply, other);
      if other == item {
        assert after.tries[|s.tries|].item == item;
      } else {
        var i :| 0 <= i < |s.tries| && s.tries[i].reply == Fetched && s.tries[i].item == other;
        assert after.tries[i] == s.tries[i];
      }
    }
  }

  /** What one visit may change of the other items: nothing. */
  ghost predicate OnlyItem(before: Store, after: Store, item: Item) {
    && (forall other :: other != item ==> (Completed(after.attempts, other) <==> Completed(before.attempts, other)))
    && |before.tries| <= |after.tries| <= |before.tries| + 1
    && after.tries[..|before.tries|] == before.tries
    && (|after.tries| > |before.tries| ==> after.tries[|before.tries|].item == item)
    && after.budgets.Keys == before.budgets.Keys
    && LimitsKept(before.budgets, after.budgets)
  }

  /** A day's limits are set once. */
  ghost predicate LimitsKept(before: map<DayKey, Budget>, after: map<DayKey, Budget>) {
    forall key :: key in before ==>
      key in after && after[key].normalLimit == before[key].normalLimit
      && after[key].recoveryLimit == before[key].recoveryLimit
  }

  lemma {:induction false} AttemptKeeps(s: Store, job: Job, symbol: Symbol, kind: Kind, replies: nat -> Reply)
    requires StoreOk(s) && KeyOf(job) in s.budgets && !Completed(s.attempts, ItemOf(job, symbol))
    ensures var (after, o) := Attempt(s, job, symbol, kind, replies);
            && StoreOk(after) && OnlyItem(s, after, ItemOf(job, symbol))
            && (o.Some? && o.value.status == RetryableFailure ==> !Completed(after.attempts, ItemOf(job, symbol)))
  {
    var item := ItemOf(job, symbol);
    var (b, claim) := ClaimBudget(s.budgets[KeyOf(job)], kind);
    if claim == Granted {
      var reply := Fate(job, replies(|s.tries|));
      var after := Tried(s, job, symbol, kind, b, reply).0;
      forall key ensures PaidFor(after, key) {
        assert PaidFor(s, key);
        TriedPaid(s, job, symbol, kind, reply, key);
      }
      CallThrottleFinal(s, job, symbol, kind, reply);
      CallFetchFinal(s, job, symbol, kind, b, reply);
      forall other | other != item ensures Completed(after.attempts, other) <==> Completed(s.attempts, other) {
        PutCompletes(s.attempts, item, NumberOf(kind), StatusOf(reply), other);
      }
      PutCompletes(s.attempts, item, NumberOf(kind), StatusOf(reply), item);
    }
  }

  // ---- a whole refresh ----

  /** The symbols still to be retried, given the symbols visited so far. */
  ghost predicate RetryOk(p: Progress, job: Job, visited: seq<Symbol>) {
    && Distinct(p.retryable)
    && forall k :: 0 <= k < |p.retryable| ==>
         p.retryable[k] in visited && !Completed(p.store.attempts, ItemOf(job, p.retryable[k]))
  }

  lemma {:induction false} NormalPassKeeps(p: Progress, job: Job, symbols: seq<Symbol>, replies: nat -> Reply)
    requires StoreOk(p.store) && KeyOf(job) in p.store.budgets && Distinct(symbols) && p.retryable == []
    ensures var r := Pass(p, job, symbols, Normal, replies);
            StoreOk(r.store) && RetryOk(r, job, symbols)
  {
    if symbols == [] {
    } else {
      hide Visit, StoreOk, RetryOk;
      var n := |symbols| - 1;
      NormalPassKeeps(p, job, symbols[..n], replies);
      VisitRetries(Pass(p, job, symbols[..n], Normal, replies), job, symbols[..n], symbols[n], replies);
      assert symbols[..n] + [symbols[n]] == symbols;
    }
  }

  lemma {:induction false} VisitRetries(p: Progress, job: Job, visited: seq<Symbol>, symbol: Symbol, replies: nat -> Reply)
    requires StoreOk(p.store) && KeyOf(job) in p.store.budgets && RetryOk(p, job, visited) && symbol !in visited
    ensures var r := Visit(p, job, symbol, Normal, replies); StoreOk(r.store) && RetryOk(r, job, visited + [symbol])
  {
    hide StoreOk, Completed, Put, ClaimBudget;
    if !p.broken && !p.store.budgets[KeyOf(job)].circuitOpen && !Completed(p.store.attempts, ItemOf(job, symbol)) {
      AttemptKeeps(p.store, job, symbol, Normal, replies);
      RetryGrows(p, Visit(p, job, symbol, Normal, replies), job, visited, symbol);
    }
  }

  lemma {:induction false} RetryGrows(before: Progress, after: Progress, job: Job, front: seq<Symbol>, symbol: Symbol)
    requires RetryOk(before, job, front) && symbol !in front
    requires OnlyItem(before.store, after.store, ItemOf(job, symbol))
    requires after.retryable == before.retryable
             || (after.retryable == before.retryable + [symbol] && !Completed(after.store.attempts, ItemOf(job, symbol)))
    ensures RetryOk(after, job, front + [symbol])
  {
    forall k | 0 <= k < |before.retryable|
      ensures ItemOf(job, before.retryable[k]) != ItemOf(job, symbol) && before.retryable[k] != symbol
    {
      assert before.retryable[k] in front;
    }
  }

  /** What a pass leaves alone, and what it counts. */
  ghost predicate PassFrame(p: Progress, r: Progress, job: Job, symbols: seq<Symbol>) {
    && StoreOk(r.store)
    && LimitsKept(p.store.budgets, r.store.budgets) && r.store.budgets.Keys == p.store.budgets.Keys
    && |p.store.tries| <= |r.store.tries| && r.store.tries[..|p.store.tries|] == p.store.tries
    && (forall item :: (forall k :: 0 <= k < |symbols| ==> item != ItemOf(job, symbols[k])) ==>
          (Completed(r.store.attempts, item) <==> Completed(p.store.attempts, item)))
    && (!r.broken ==> r.calls - p.calls == |r.store.tries| - |p.store.tries|)
    && (!p.broken && r.broken ==> r.calls - p.calls + 1 == |r.store.tries| - |p.store.tries|)
  }

  lemma {:induction false} VisitFrame(p: Progress, job: Job, symbol: Symbol, kind: Kind, replies: nat -> Reply)
    requires StoreOk(p.store) && KeyOf(job) in p.store.budgets
    requires kind == Normal || !Completed(p.store.attempts, ItemOf(job, symbol))
    ensures PassFrame(p, Visit(p, job, symbol, kind, replies), job, [symbol])
  {
    var r := Visit(p, job, symbol, kind, replies);
    assert [symbol][0] == symbol;
    if !p.broken && !p.store.budgets[KeyOf(job)].circuitOpen && !Completed(p.store.attempts, ItemOf(job, symbol)) {
      AttemptKeeps(p.store, job, symbol, kind, replies);
    }
  }

  lemma {:induction false} BrokenVisit(p: Progress, job: Job, symbol: Symbol, kind: Kind, replies: nat -> Reply)
    requires KeyOf(job) in p.store.budgets
    ensures p.broken ==> Visit(p, job, symbol, kind, replies) == p
  {}

  lemma {:induction false} FrameStep(p: Progress, q: Progress, r: Progress, job: Job, symbols: seq<Symbol>)
    requires symbols != [] && PassFrame(p, q, job, symbols[..|symbols| - 1]) && PassFrame(q, r, job, [symbols[|symbols| - 1]])
    requires q.broken ==> r == q
    ensures PassFrame(p, r, job, symbols)
  {
    var n := |symbols| - 1;
    forall item | forall k :: 0 <= k < |symbols| ==> item != ItemOf(job, symbols[k])
      ensures Completed(r.store.attempts, item) <==> Completed(p.store.attempts, item)
    {
      assert forall k :: 0 <= k < n ==> item != ItemOf(job, symbols[..n][k]);
      assert forall k :: 0 <= k < 1 ==> item != ItemOf(job, [symbols[n]][k]);
    }
  }

  lemma {:induction false} RecoveryPassKeeps(p: Progress, job: Job, symbols: seq<Symbol>, replies: nat -> Reply)
    requires StoreOk(p.store) && KeyOf(job) in p.store.budgets && Distinct(symbols)
    requires forall k :: 0 <= k < |symbols| ==> !Completed(p.store.attempts, ItemOf(job, symbols[k]))
    ensures PassFrame(p, Pass(p, job, symbols, Recovery, replies), job, symbols)
  {
    hide Visit, StoreOk, Completed;
    if symbols == [] {
    } else {
      var n := |symbols| - 1;
      RecoveryPassKeeps(p, job, symbols[..n], replies);
      var before := Pass(p, job, symbols[..n], Recovery, replies);
      assert forall k :: 0 <= k < n ==> ItemOf(job, symbols[n]) != ItemOf(job, symbols[..n][k]);
      VisitFrame(before, job, symbols[n], Recovery, replies);
      BrokenVisit(before, job, symbols[n], Recovery, replies);
      FrameStep(p, before, Pass(p, job, symbols, Recovery, replies), job, symbols);
    }
  }

  lemma {:induction false} NormalPassFrame(p: Progress, job: Job, symbols: seq<Symbol>, replies: nat -> Reply)
    requires StoreOk(p.store) && KeyOf(job) in p.store.budgets
    ensures PassFrame(p, Pass(p, job, symbols, Normal, replies), job, symbols)
  {
    if symbols == [] {
    } else {
      var n := |symbols| - 1;
      NormalPassFrame(p, job, symbols[..n], replies);
      var before := Pass(p, job, symbols[..n], Normal, replies);
      VisitFrame(before, job, symbols[n], Normal, replies);
      FrameStep(p, before, Pass(p, job, symbols, Normal, replies), job, symbols);
    }
  }

  lemma {:induction false} AscendingPermutes(s: seq<int>)
    ensures multiset(Ascending(s)) == multiset(s)
  {
    if s == [] {
    } else {
      var n := |s| - 1;
      AscendingPermutes(s[..n]);
      InsertAdds(s[n], Ascending(s[..n]));
      assert s == s[..n] + [s[n]];
    }
  }

  lemma {:induction false} InsertAdds(x: int, s: seq<int>)
    ensures multiset(Insert(x, s)) == multiset(s) + multiset{x}
  {
    if s != [] && x > s[0] {
      InsertAdds(x, s[1..]);
      assert s == [s[0]] + s[1..];
    }
  }

  lemma {:induction false} DistinctByCount<T>(s: seq<T>)
    ensures Distinct(s) <==> forall x :: multiset(s)[x] <= 1
  {
    if s == [] {
    } else {
      var n := |s| - 1;
      DistinctByCount(s[..n]);
      assert s == s[..n] + [s[n]];
      assert forall x :: multiset(s)[x] == multiset(s[..n])[x] + if x == s[n] then 1 else 0;
      assert s[n] in s[..n] <==> multiset(s[..n])[s[n]] >= 1;
      if Distinct(s) {
        assert s[n] !in s[..n];
      } else if Distinct(s[..n]) {
        assert s[n] in s[..n];
      }
    }
  }

  /** One refresh of distinct symbols keeps every promise, and reports every attempt it was granted as a call. */
  lemma {:induction false} RefreshKeeps(s: Store, job: Job, symbols: seq<Symbol>, replies: nat -> Reply)
    requires StoreOk(s) && Distinct(symbols)
    ensures var r := Refresh(s, job, symbols, replies);
            && StoreOk(r.store) && LimitsKept(s.budgets, r.store.budgets)
            && KeyOf(job) in r.store.budgets
            && (forall key :: key in r.store.budgets && key !in s.budgets ==>
                  key == KeyOf(job) && r.store.budgets[key].normalLimit == job.normalLimit
                  && r.store.budgets[key].recoveryLimit == job.recoveryLimit)
            && |s.tries| <= |r.store.tries| && r.store.tries[..|s.tries|] == s.tries
            && (!r.broken ==> r.calls == |r.store.tries| - |s.tries|)
  {
    EnsureKeeps(s, job);
    var start := Progress(EnsureBudget(s, job), map[], [], 0, false);
    var order := Ascending(symbols);
    AscendingPermutes(symbols);
    DistinctByCount(symbols);
    DistinctByCount(order);
    PassesKeep(start, job, order, replies);
  }

  lemma {:induction false} PassesKeep(start: Progress, job: Job, order: seq<Symbol>, replies: nat -> Reply)
    requires StoreOk(start.store) && KeyOf(job) in start.store.budgets && Distinct(order)
    requires start.retryable == [] && !start.broken && start.calls == 0
    ensures var normal := Pass(start, job, order, Normal, replies);
            var r := Pass(normal, job, normal.retryable, Recovery, replies);
            && StoreOk(r.store)
            && LimitsKept(start.store.budgets, r.store.budgets) && r.store.budgets.Keys == start.store.budgets.Keys
            && |start.store.tries| <= |r.store.tries| && r.store.tries[..|start.store.tries|] == start.store.tries
            && (!r.broken ==> r.calls == |r.store.tries| - |start.store.tries|)
  {
    NormalPassKeeps(start, job, order, replies);
    NormalPassFrame(start, job, order, replies);
    var normal := Pass(start, job, order, Normal, replies);
    RecoveryPassKeeps(normal, job, normal.retryable, replies);
    BrokenStays(normal, job, normal.retryable, Recovery, replies);
  }

  lemma {:induction false} BrokenStays(p: Progress, job: Job, symbols: seq<Symbol>, kind: Kind, replies: nat -> Reply)
    requires KeyOf(job) in p.store.budgets
    ensures p.broken ==> Pass(p, job, symbols, kind, replies) == p
  {
    if symbols == [] {
    } else {
      BrokenStays(p, job, symbols[..|symbols| - 1], kind, replies);
    }
  }

  // ---- whole histories ----

  datatype Event = Refreshed(job: Job, symbols: seq<Symbol>, replies: nat -> Reply)

  const EMPTY := Store(map[], map[], [])

  function After(events: seq<Event>): Store {
    if events == [] then EMPTY
    else
      var e := events[|events| - 1];
      Refresh(After(events[..|events| - 1]), e.job, e.symbols, e.replies).store
  }

  ghost predicate DistinctEach(events: seq<Event>) {
    forall i :: 0 <= i < |events| ==> Distinct(events[i].symbols)
  }

  lemma {:induction false} AlwaysOk(events: seq<Event>)
    requires DistinctEach(events)
    ensures StoreOk(After(events))
  {
    if events == [] {
    } else {
      var n := |events| - 1;
      AlwaysOk(events[..n]);
      RefreshKeeps(After(events[..n]), events[n].job, events[n].symbols, events[n].replies);
    }
  }

  /** The attempts a refresh adds are of its own day, and end as its guard has it. */
  ghost predicate TriesOf(before: Store, after: Store, job: Job, replies: nat -> Reply) {
    && |before.tries| <= |after.tries| && after.tries[..|before.tries|] == before.tries
    && forall k :: |before.tries| <= k < |after.tries| ==>
         TryKey(after.tries[k]) == KeyOf(job) && after.tries[k].reply == Fate(job, replies(k))
  }

  lemma {:induction false} PassTries(p: Progress, job: Job, symbols: seq<Symbol>, kind: Kind, replies: nat -> Reply)
    requires KeyOf(job) in p.store.budgets
    ensures TriesOf(p.store, Pass(p, job, symbols, kind, replies).store, job, replies)
  {
    hide Visit, Fate;
    if symbols == [] {
    } else {
      var n := |symbols| - 1;
      PassTries(p, job, symbols[..n], kind, replies);
      var before := Pass(p, job, symbols[..n], kind, replies);
      VisitTries(before, job, symbols[n], kind, replies);
      TriesChain(p.store, before.store, Visit(before, job, symbols[n], kind, replies).store, job, replies);
    }
  }

  lemma {:induction false} VisitTries(p: Progress, job: Job, symbol: Symbol, kind: Kind, replies: nat -> Reply)
    requires KeyOf(job) in p.store.budgets
    ensures TriesOf(p.store, Visit(p, job, symbol, kind, replies).store, job, replies)
  {
    hide Completed, Put, ClaimBudget, Fate;
  }

  lemma {:induction false} TriesChain(a: Store, b: Store, c: Store, job: Job, replies: nat -> Reply)
    requires TriesOf(a, b, job, replies) && TriesOf(b, c, job, replies)
    ensures TriesOf(a, c, job, replies)
  {
    hide Fate;
    PrefixOfPrefix(a.tries, b.tries, c.tries);
    forall k | |a.tries| <= k < |c.tries|
      ensures TryKey(c.tries[k]) == KeyOf(job) && c.tries[k].reply == Fate(job, replies(k))
    {
      if k < |b.tries| {
        assert c.tries[..|b.tries|][k] == b.tries[k];
      }
    }
  }

  lemma {:induction false} RefreshTries(s: Store, job: Job, symbols: seq<Symbol>, replies: nat -> Reply)
    ensures TriesOf(s, Refresh(s, job, symbols, replies).store, job, replies)
  {
    hide Pass;
    var start := Progress(EnsureBudget(s, job), map[], [], 0, false);
    var normal := Pass(start, job, Ascending(symbols), Normal, replies);
    PassTries(start, job, Ascending(symbols), Normal, replies);
    PassTries(normal, job, normal.retryable, Recovery, replies);
    TriesChain(start.store, normal.store, Refresh(s, job, symbols, replies).store, job, replies);
  }

  lemma {:induction false} PrefixOfPrefix<T>(a: seq<T>, b: seq<T>, c: seq<T>)
    requires |a| <= |b| <= |c| && b[..|a|] == a && c[..|b|] == b
    ensures c[..|a|] == a
  {
    assert c[..|b|][..|a|] == c[..|a|];
  }

  /** Every attempt of the day reached the provider. */
  ghost predicate AllAsked(tries: seq<Try>, key: DayKey) {
    forall k :: 0 <= k < |tries| && TryKey(tries[k]) == key ==> Asked(tries[k])
  }

  lemma {:induction false} CallsAreTries(tries: seq<Try>, key: DayKey)
    ensures CallCount(tries, key) <= TryCount(tries, key)
    ensures CallCount(tries, key) == TryCount(tries, key) <==> AllAsked(tries, key)
  {
    if tries == [] {
    } else {
      var n := |tries| - 1;
      CallsAreTries(tries[..n], key);
      assert AllAsked(tries, key) <==> AllAsked(tries[..n], key) && (TryKey(tries[n]) == key ==> Asked(tries[n])) by {
        assert forall k :: 0 <= k < n ==> tries[..n][k] == tries[k];
      }
    }
  }

  /**
    Over every history the claims granted for a day stay within both limits and pay for
    every call; they are as many as the calls exactly when every attempt reached the provider.
   */
  lemma {:induction false} CallsArePaidFor(events: seq<Event>, key: DayKey)
    requires DistinctEach(events) && key in After(events).budgets
    ensures var (b, tries) := (After(events).budgets[key], After(events).tries);
            && CallCount(tries, key) <= b.normalSpent + b.recoverySpent
            && (CallCount(tries, key) == b.normalSpent + b.recoverySpent <==> AllAsked(tries, key))
            && b.normalSpent <= b.normalLimit && b.recoverySpent <= b.recoveryLimit
  {
    AlwaysOk(events);
    assert PaidFor(After(events), key);
    CallsAreTries(After(events).tries, key);
  }

  /** Provider, ingestor and request can always be built, and the ingestion has no reason of its own to refuse. */
  ghost predicate Connects(e: Event) {
    forall n: nat :: e.replies(n) != NotBuilt && e.replies(n) != Refused
  }

  /** The i-th refresh was granted a claim. */
  ghost predicate Claims(events: seq<Event>, i: nat)
    requires i < |events|
  {
    |After(events[..i]).tries| < |After(events[..i + 1]).tries|
  }

  /** No refresh of the day claimed anything while a session of its schedule was still open. */
  ghost predicate NoneEarly(events: seq<Event>, key: DayKey) {
    forall i :: 0 <= i < |events| && KeyOf(events[i].job) == key && Claims(events, i) ==> SessionsOver(events[i].job)
  }

  lemma {:induction false} NoneEarlyGrows(events: seq<Event>, key: DayKey)
    requires events != []
    ensures var n := |events| - 1;
            NoneEarly(events, key) <==>
            NoneEarly(events[..n], key) && (KeyOf(events[n].job) == key && Claims(events, n) ==> SessionsOver(events[n].job))
  {
    hide After, SessionsOver;
    var n := |events| - 1;
    forall i | 0 <= i < n ensures events[..n][i] == events[i] && (Claims(events[..n], i) <==> Claims(events, i)) {
      assert events[..n][..i] == events[..i] && events[..n][..i + 1] == events[..i + 1];
    }
  }

  lemma {:induction false} AskedGrows(before: Store, after: Store, e: Event, key: DayKey)
    requires TriesOf(before, after, e.job, e.replies) && Connects(e)
    ensures AllAsked(after.tries, key) <==>
            && AllAsked(before.tries, key)
            && (KeyOf(e.job) == key && |before.tries| < |after.tries| ==> SessionsOver(e.job))
  {
    hide SessionsOver;
    var n := |before.tries|;
    assert forall k :: 0 <= k < n ==> after.tries[k] == after.tries[..n][k];
    forall k | n <= k < |after.tries| ensures Asked(after.tries[k]) <==> SessionsOver(e.job) {
      assert e.replies(k) != NotBuilt;
    }
    if KeyOf(e.job) == key && n < |after.tries| && !SessionsOver(e.job) {
      assert TryKey(after.tries[n]) == key;
    }
  }

  lemma {:induction false} AllAskedIff(events: seq<Event>, key: DayKey)
    requires forall i :: 0 <= i < |events| ==> Connects(events[i])
    ensures AllAsked(After(events).tries, key) <==> NoneEarly(events, key)
  {
    hide Refresh, TriesOf, AllAsked, NoneEarly, SessionsOver, Connects;
    if events == [] {
      NothingTried(events, key);
    } else {
      var n := |events| - 1;
      var before, e := After(events[..n]), events[n];
      AllAskedIff(events[..n], key);
      NoneEarlyGrows(events, key);
      RefreshTries(before, e.job, e.symbols, e.replies);
      AskedGrows(before, After(events), e, key);
      assert events[..n + 1] == events;
    }
  }

  lemma {:induction false} NothingTried(events: seq<Event>, key: DayKey)
    requires events == []
    ensures AllAsked(EMPTY.tries, key) && NoneEarly(events, key)
  {}

  /** So, over a working connection, claims equal calls exactly when no refresh claims before its closes have passed. */
  lemma {:induction false} ClaimsEqualCallsIff(events: seq<Event>, key: DayKey)
    requires DistinctEach(events) && key in After(events).budgets
    requires forall i :: 0 <= i < |events| ==> Connects(events[i])
    ensures var b := After(events).budgets[key];
            CallCount(After(events).tries, key) == b.normalSpent + b.recoverySpent <==> NoneEarly(events, key)
  {
    hide *;
    CallsArePaidFor(events, key);
    AllAskedIff(events, key);
  }

  /** A refresh before its last close spends a claim and reports a call, and calls nobody. */
  lemma {:induction false} EarlyRefreshCallsNobody(job: Job, symbol: Symbol, replies: nat -> Reply)
    requires !SessionsOver(job) && job.normalLimit >= 1 && replies(0) != NotBuilt
    ensures var r := Refresh(EMPTY, job, [symbol], replies);
            && !r.broken && r.calls == 1 && r.store.budgets[KeyOf(job)].normalSpent == 1
            && CallCount(r.store.tries, KeyOf(job)) == 0
  {
    var start := Start(job);
    assert [symbol][..0] == [] && Ascending([symbol]) == [symbol];
    assert Pass(start, job, [], Normal, replies) == start;
    var normal := Pass(start, job, [symbol], Normal, replies);
    assert normal == Visit(start, job, symbol, Normal, replies);
    assert Pass(normal, job, [], Recovery, replies) == normal;
    assert normal.store.tries[..0] == [];
  }

  ghost predicate SameLimits(events: seq<Event>, key: DayKey, normal: nat, recovery: nat) {
    forall i :: 0 <= i < |events| && KeyOf(events[i].job) == key ==>
      events[i].job.normalLimit == normal && events[i].job.recoveryLimit == recovery
  }

  lemma {:induction false} LimitsAreTheProfile(events: seq<Event>, key: DayKey, normal: nat, recovery: nat)
    requires DistinctEach(events) && SameLimits(events, key, normal, recovery)
    ensures key in After(events).budgets ==>
              After(events).budgets[key].normalLimit == normal && After(events).budgets[key].recoveryLimit == recovery
  {
    if events == [] {
    } else {
      var n := |events| - 1;
      LimitsAreTheProfile(events[..n], key, normal, recovery);
      AlwaysOk(events[..n]);
      RefreshKeeps(After(events[..n]), events[n].job, events[n].symbols, events[n].replies);
    }
  }

  /** However often a day is refreshed, its provider is never called more than the profile allows. */
  lemma {:induction false} NeverOverBudget(events: seq<Event>, key: DayKey, normal: nat, recovery: nat)
    requires DistinctEach(events) && SameLimits(events, key, normal, recovery)
    ensures CallCount(After(events).tries, key) <= normal + recovery
  {
    AlwaysOk(events);
    assert PaidFor(After(events), key);
    CallsAreTries(After(events).tries, key);
    LimitsAreTheProfile(events, key, normal, recovery);
  }

  /** No call of a provider day follows its first throttled one. */
  lemma {:induction false} NoCallAfterThrottle(events: seq<Event>, i: nat, j: nat)
    requires DistinctEach(events) && i < j < |After(events).tries|
    requires After(events).tries[i].reply == Throttling
    ensures TryKey(After(events).tries[j]) != TryKey(After(events).tries[i])
  {
    AlwaysOk(events);
  }

  lemma {:induction false} CallsOnlyGrow(events: seq<Event>, i: nat)
    requires DistinctEach(events) && i <= |events|
    ensures |After(events[..i]).tries| <= |After(events).tries|
    ensures After(events).tries[..|After(events[..i]).tries|] == After(events[..i]).tries
    decreases |events|
  {
    hide StoreOk, Refresh, LimitsKept;
    if i == |events| {
      assert events[..i] == events;
    } else {
      var n := |events| - 1;
      assert events[..n][..i] == events[..i];
      CallsOnlyGrow(events[..n], i);
      LastRefreshGrows(events);
      PrefixOfPrefix(After(events[..i]).tries, After(events[..n]).tries, After(events).tries);
    }
  }

  lemma {:induction false} LastRefreshGrows(events: seq<Event>)
    requires events != [] && DistinctEach(events)
    ensures var before := After(events[..|events| - 1]).tries;
            |before| <= |After(events).tries| && After(events).tries[..|before|] == before
  {
    var n := |events| - 1;
    AlwaysOk(events[..n]);
    RefreshKeeps(After(events[..n]), events[n].job, events[n].symbols, events[n].replies);
  }

  /** A symbol on record as fetched for a session is never fetched for it again. */
  lemma {:induction false} NeverRefetched(events: seq<Event>, i: nat, item: Item, j: nat)
    requires DistinctEach(events) && i <= |events| && Completed(After(events[..i]).attempts, item)
    requires |After(events[..i]).tries| <= j < |After(events).tries|
    ensures After(events).tries[j].item != item
  {
    AlwaysOk(events[..i]);
    AlwaysOk(events);
    CallsOnlyGrow(events, i);
    var early, late := After(events[..i]).tries, After(events).tries;
    var k :| 0 <= k < |early| && early[k].reply == Fetched && early[k].item == item;
    assert late[k] == late[..|early|][k];
  }

  // ---- when a repeated symbol is fetched again ----

  /** A refresh of an empty store about to begin. */
  function Start(job: Job): (p: Progress)
    ensures KeyOf(job) in p.store.budgets
  {
    Progress(EnsureBudget(EMPTY, job), map[], [], 0, false)
  }

  ghost predicate InOrder(s: seq<int>) {
    forall i, j :: 0 <= i < j < |s| ==> s[i] <= s[j]
  }

  lemma {:induction false} InsertSorts(x: int, s: seq<int>)
    requires InOrder(s)
    ensures InOrder(Insert(x, s))
  {
    if s != [] && x > s[0] {
      InsertSorts(x, s[1..]);
      InsertAdds(x, s[1..]);
      var rest := Insert(x, s[1..]);
      forall j | 0 <= j < |rest| ensures s[0] <= rest[j] {
        assert rest[j] in multiset(s[1..]) + multiset{x};
        assert rest[j] == x || rest[j] in s[1..];
      }
    }
  }

  lemma {:induction false} AscendingSorts(s: seq<int>)
    ensures InOrder(Ascending(s))
  {
    if s == [] {
    } else {
      AscendingSorts(s[..|s| - 1]);
      InsertSorts(s[|s| - 1], Ascending(s[..|s| - 1]));
    }
  }

  /** The order holds a repeat, and the second of the pair can still be claimed. */
  predicate RepeatsWithin(order: seq<Symbol>, limit: nat) {
    exists k :: 0 <= k < |order| - 1 && RepeatAt(order, k) && k + 2 <= limit
  }

  predicate RepeatAt(order: seq<Symbol>, k: nat)
    requires k + 1 < |order|
  {
    order[k] == order[k + 1]
  }

  lemma {:induction false} NoRepeatIsDistinct(order: seq<Symbol>, limit: nat)
    requires InOrder(order) && limit <= |order| && !RepeatsWithin(order, limit)
    ensures Distinct(order[..limit])
  {
    forall i, j | 0 <= i < j < limit ensures order[i] != order[j] {
      assert !RepeatAt(order, i);
      assert order[i] < order[i + 1] <= order[j];
    }
  }

  lemma {:induction false} PassSplits(p: Progress, job: Job, a: seq<Symbol>, b: seq<Symbol>, kind: Kind, replies: nat -> Reply)
    requires KeyOf(job) in p.store.budgets
    ensures Pass(p, job, a + b, kind, replies) == Pass(Pass(p, job, a, kind, replies), job, b, kind, replies)
  {
    hide Visit;
    if b == [] {
      assert a + b == a;
    } else {
      var n := |b| - 1;
      PassSplits(p, job, a, b[..n], kind, replies);
      assert (a + b)[..|a + b| - 1] == a + b[..n];
    }
  }

  /** Nothing more can be claimed. */
  predicate Over(p: Progress, job: Job, kind: Kind)
    requires KeyOf(job) in p.store.budgets
  {
    var b := p.store.budgets[KeyOf(job)];
    p.broken || b.circuitOpen || (if kind == Normal then b.normalSpent >= b.normalLimit else b.recoverySpent >= b.recoveryLimit)
  }

  lemma {:induction false} OverPass(p: Progress, job: Job, symbols: seq<Symbol>, kind: Kind, replies: nat -> Reply)
    requires KeyOf(job) in p.store.budgets && Over(p, job, kind)
    ensures var r := Pass(p, job, symbols, kind, replies);
            r.store == p.store && r.retryable == p.retryable && r.broken == p.broken
  {
    if symbols == [] {
    } else {
      OverPass(p, job, symbols[..|symbols| - 1], kind, replies);
    }
  }

  ghost predicate NothingDone(s: Store) {
    forall item :: !Completed(s.attempts, item)
  }

  lemma {:induction false} StartOk(job: Job)
    ensures StoreOk(Start(job).store) && NothingDone(Start(job).store)
  {
    forall key ensures PaidFor(Start(job).store, key) {}
  }

  /** Distinct symbols claim one by one until something ends the pass. */
  lemma {:induction false} DistinctClaims(job: Job, order: seq<Symbol>, replies: nat -> Reply)
    requires Distinct(order) && |order| <= job.normalLimit
    ensures var r := Pass(Start(job), job, order, Normal, replies);
            || r.broken || r.store.budgets[KeyOf(job)].circuitOpen
            || (r.store.budgets[KeyOf(job)].normalSpent == |order| && r.store.budgets[KeyOf(job)].normalLimit == job.normalLimit)
  {
    if order == [] {
    } else {
      var n := |order| - 1;
      hide StoreOk, Completed, Put, Fate;
      DistinctClaims(job, order[..n], replies);
      StartOk(job);
      NormalPassFrame(Start(job), job, order[..n], replies);
      assert forall k :: 0 <= k < n ==> ItemOf(job, order[n]) != ItemOf(job, order[..n][k]);
      var before := Pass(Start(job), job, order[..n], Normal, replies);
      assert !Completed(before.store.attempts, ItemOf(job, order[n]));
    }
  }

  /** Without a claimable repeat the normal pass is the pass of distinct symbols. */
  lemma {:induction false} NoRepeatIsFinal(job: Job, symbols: seq<Symbol>, replies: nat -> Reply)
    requires !RepeatsWithin(Ascending(symbols), job.normalLimit)
    ensures FetchFinal(Refresh(EMPTY, job, symbols, replies).store)
  {
    hide FetchFinal, Visit, Ascending, RepeatsWithin, Sorted, Distinct, Completed, LimitsKept, Paid, ThrottleFinal;
    var order := Ascending(symbols);
    var m := if job.normalLimit < |order| then job.normalLimit else |order|;
    AscendingSorts(symbols);
    ShorterRepeats(order, m, job.normalLimit);
    NoRepeatIsDistinct(order, m);
    StartOk(job);
    NormalPassKeeps(Start(job), job, order[..m], replies);
    var q := Pass(Start(job), job, order[..m], Normal, replies);
    PassSplits(Start(job), job, order[..m], order[m..], Normal, replies);
    assert order[..m] + order[m..] == order;
    var normal := Pass(Start(job), job, order, Normal, replies);
    if m < |order| {
      DistinctClaims(job, order[..m], replies);
      OverPass(q, job, order[m..], Normal, replies);
    } else {
      assert order[m..] == [];
    }
    RecoveryPassKeeps(normal, job, normal.retryable, replies);
  }

  lemma {:induction false} ShorterRepeats(order: seq<Symbol>, m: nat, limit: nat)
    requires m <= limit && !RepeatsWithin(order, limit)
    ensures !RepeatsWithin(order, m)
  {}

  /** Without recovery claims only the normal pass attempts anything, and it never attempts what is on record. */
  lemma {:induction false} NoRecoveryIsFinal(job: Job, symbols: seq<Symbol>, replies: nat -> Reply)
    requires job.recoveryLimit == 0
    ensures FetchFinal(Refresh(EMPTY, job, symbols, replies).store)
  {
    hide FetchFinal, Visit, Ascending, Completed, Paid, ThrottleFinal;
    StartOk(job);
    NormalPassFrame(Start(job), job, Ascending(symbols), replies);
    var normal := Pass(Start(job), job, Ascending(symbols), Normal, replies);
    OverPass(normal, job, normal.retryable, Recovery, replies);
  }

  lemma {:induction false} EarlyPassDoesNothing(p: Progress, job: Job, symbols: seq<Symbol>, kind: Kind, replies: nat -> Reply)
    requires KeyOf(job) in p.store.budgets && !SessionsOver(job) && NothingDone(p.store)
    ensures NothingDone(Pass(p, job, symbols, kind, replies).store)
  {
    hide Completed, Put, ClaimBudget, SessionsOver;
    if symbols == [] {
    } else {
      var n := |symbols| - 1;
      EarlyPassDoesNothing(p, job, symbols[..n], kind, replies);
      var before, after := Pass(p, job, symbols[..n], kind, replies), Pass(p, job, symbols, kind, replies);
      forall item ensures !Completed(after.store.attempts, item) {
        assert !Completed(before.store.attempts, item) && !Completed(before.store.attempts, ItemOf(job, symbols[n]));
        PutCompletes(before.store.attempts, ItemOf(job, symbols[n]), NumberOf(kind), PermanentFailure, item);
      }
    }
  }

  lemma {:induction false} EarlyIsFinal(job: Job, symbols: seq<Symbol>, replies: nat -> Reply)
    requires !SessionsOver(job)
    ensures FetchFinal(Refresh(EMPTY, job, symbols, replies).store)
  {
    hide Completed, Visit, Ascending, Paid, ThrottleFinal, SessionsOver;
    StartOk(job);
    EarlyPassDoesNothing(Start(job), job, Ascending(symbols), Normal, replies);
    var normal := Pass(Start(job), job, Ascending(symbols), Normal, replies);
    EarlyPassDoesNothing(normal, job, normal.retryable, Recovery, replies);
    RefreshTries(EMPTY, job, symbols, replies);
  }

  // ---- and the replies that make it so ----

  /** Fails for good everywhere, but for a passing reason at `k` and not at all at `k + 1`. */
  function Awkward(k: nat): nat -> Reply {
    n => if n == k then RetryableError else if n == k + 1 then Fetched else PermanentError
  }

  /** A normal pass that has claimed `n` times and can still recover. */
  ghost predicate Under(p: Progress, job: Job, n: nat) {
    && KeyOf(job) in p.store.budgets && !p.broken && |p.store.tries| == n
    && var b := p.store.budgets[KeyOf(job)];
       !b.circuitOpen && b.normalSpent == n && b.normalLimit == job.normalLimit && b.recoverySpent < b.recoveryLimit
  }

  lemma {:induction false} VisitUnder(p: Progress, job: Job, symbol: Symbol, replies: nat -> Reply, n: nat)
    requires Under(p, job, n) && n < job.normalLimit && SessionsOver(job) && !Completed(p.store.attempts, ItemOf(job, symbol))
    requires replies(n) in {PermanentError, RetryableError, Fetched}
    ensures var r := Visit(p, job, symbol, Normal, replies);
            && Under(r, job, n + 1) && r.store.tries == p.store.tries + [Try(ItemOf(job, symbol), job.day, replies(n))]
            && r.retryable == p.retryable + (if replies(n) == RetryableError then [symbol] else [])
            && (replies(n) != Fetched && NothingDone(p.store) ==> NothingDone(r.store))
  {
    hide Completed, Put, SessionsOver;
    var r := Visit(p, job, symbol, Normal, replies);
    if replies(n) != Fetched && NothingDone(p.store) {
      forall item ensures !Completed(r.store.attempts, item) {
        assert !Completed(p.store.attempts, item);
        PutCompletes(p.store.attempts, ItemOf(job, symbol), 1, StatusOf(replies(n)), item);
      }
    }
  }

  lemma {:induction false} FailingPass(job: Job, symbols: seq<Symbol>, replies: nat -> Reply)
    requires SessionsOver(job) && job.recoveryLimit >= 1 && |symbols| <= job.normalLimit
    requires forall n: nat :: n < |symbols| ==> replies(n) == PermanentError
    ensures var r := Pass(Start(job), job, symbols, Normal, replies);
            Under(r, job, |symbols|) && r.retryable == [] && NothingDone(r.store)
  {
    hide Visit, Completed, SessionsOver;
    if symbols == [] {
      StartOk(job);
    } else {
      var n := |symbols| - 1;
      FailingPass(job, symbols[..n], replies);
      assert replies(n) == PermanentError;
      var before := Pass(Start(job), job, symbols[..n], Normal, replies);
      assert !Completed(before.store.attempts, ItemOf(job, symbols[n]));
      VisitUnder(before, job, symbols[n], replies, n);
    }
  }

  /** Nothing more to retry, and the recovery claims untouched. */
  ghost predicate Quiet(p: Progress, r: Progress, job: Job)
    requires KeyOf(job) in p.store.budgets
  {
    && KeyOf(job) in r.store.budgets && !r.broken && r.retryable == p.retryable
    && |p.store.tries| <= |r.store.tries| && r.store.tries[..|p.store.tries|] == p.store.tries
    && CanRetry(r.store.budgets[KeyOf(job)])
  }

  predicate CanRetry(b: Budget) { !b.circuitOpen && b.recoverySpent < b.recoveryLimit }

  lemma {:induction false} QuietPass(p: Progress, job: Job, symbols: seq<Symbol>, replies: nat -> Reply)
    requires KeyOf(job) in p.store.budgets && !p.broken && SessionsOver(job) && CanRetry(p.store.budgets[KeyOf(job)])
    requires forall n: nat :: n >= |p.store.tries| ==> replies(n) == PermanentError
    ensures Quiet(p, Pass(p, job, symbols, Normal, replies), job)
  {
    hide Completed, Put, SessionsOver;
    if symbols == [] {
    } else {
      QuietPass(p, job, symbols[..|symbols| - 1], replies);
      var before := Pass(p, job, symbols[..|symbols| - 1], Normal, replies);
      assert replies(|before.store.tries|) == PermanentError;
    }
  }

  lemma {:induction false} RetryOfOne(p: Progress, job: Job, symbol: Symbol, replies: nat -> Reply)
    requires KeyOf(job) in p.store.budgets && !p.broken && CanRetry(p.store.budgets[KeyOf(job)])
    ensures var n := |p.store.tries|;
            Pass(p, job, [symbol], Recovery, replies).store.tries ==
            p.store.tries + [Try(ItemOf(job, symbol), job.day, Fate(job, replies(n)))]
  {
    hide Fate;
    assert [symbol][..0] == [];
    assert Pass(p, job, [], Recovery, replies) == p;
  }

  /** The first of a pair is to be retried, and the second has been fetched. */
  lemma {:induction false} PairPass(job: Job, order: seq<Symbol>, k: nat)
    requires SessionsOver(job) && job.recoveryLimit >= 1 && k + 1 < |order| && RepeatAt(order, k) && k + 2 <= job.normalLimit
    ensures var r := Pass(Start(job), job, order[..k + 2], Normal, Awkward(k));
            && Under(r, job, k + 2) && r.retryable == [order[k]]
            && r.store.tries[k + 1] == Try(ItemOf(job, order[k]), job.day, Fetched)
  {
    hide Visit, Pass, Completed, SessionsOver;
    var replies := Awkward(k);
    FailingPass(job, order[..k], replies);
    var p := Pass(Start(job), job, order[..k], Normal, replies);
    PassNext(Start(job), job, order, Normal, replies, k);
    PassNext(Start(job), job, order, Normal, replies, k + 1);
    assert !Completed(p.store.attempts, ItemOf(job, order[k]));
    VisitUnder(p, job, order[k], replies, k);
    var q := Visit(p, job, order[k], Normal, replies);
    assert !Completed(q.store.attempts, ItemOf(job, order[k]));
    VisitUnder(q, job, order[k + 1], replies, k + 1);
  }

  /** With these replies a claimable repeat is fetched again after it succeeded. */
  lemma {:induction false} RepeatIsRefetched(job: Job, symbols: seq<Symbol>, k: nat)
    requires SessionsOver(job) && job.recoveryLimit >= 1 && k + 1 < |Ascending(symbols)|
    requires RepeatAt(Ascending(symbols), k) && k + 2 <= job.normalLimit
    ensures !FetchFinal(Refresh(EMPTY, job, symbols, Awkward(k)).store)
  {
    hide Visit, Pass, Ascending, SessionsOver, Completed;
    var order, replies := Ascending(symbols), Awkward(k);
    PairPass(job, order, k);
    var pair := Pass(Start(job), job, order[..k + 2], Normal, replies);
    PassSplits(Start(job), job, order[..k + 2], order[k + 2..], Normal, replies);
    assert order[..k + 2] + order[k + 2..] == order;
    QuietPass(pair, job, order[k + 2..], replies);
    var normal := Pass(Start(job), job, order, Normal, replies);
    RetryOfOne(normal, job, order[k], replies);
    var tries := Refresh(EMPTY, job, symbols, replies).store.tries;
    assert normal.store.tries[..k + 2][k + 1] == pair.store.tries[k + 1];
    assert tries[k + 1].reply == Fetched && tries[|tries| - 1].item == tries[k + 1].item && k + 1 < |tries| - 1;
  }

  /**
    Exactly when a first refresh can attempt again what it has fetched: its sessions are
    over, it has recovery claims, and a symbol is given twice within the normal claims.
   */
  lemma {:induction false} RefetchesIff(job: Job, symbols: seq<Symbol>)
    ensures (forall replies: nat -> Reply :: FetchFinal(Refresh(EMPTY, job, symbols, replies).store)) <==>
            !(SessionsOver(job) && job.recoveryLimit >= 1 && RepeatsWithin(Ascending(symbols), job.normalLimit))
  {
    hide FetchFinal, Refresh, SessionsOver, Ascending;
    var order := Ascending(symbols);
    if SessionsOver(job) && job.recoveryLimit >= 1 && RepeatsWithin(order, job.normalLimit) {
      var k :| 0 <= k < |order| - 1 && RepeatAt(order, k) && k + 2 <= job.normalLimit;
      RepeatIsRefetched(job, symbols, k);
    } else {
      forall replies: nat -> Reply ensures FetchFinal(Refresh(EMPTY, job, symbols, replies).store) {
        if !SessionsOver(job) {
          EarlyIsFinal(job, symbols, replies);
        } else if job.recoveryLimit == 0 {
          NoRecoveryIsFinal(job, symbols, replies);
        } else {
          NoRepeatIsFinal(job, symbols, replies);
        }
      }
    }
  }

  /** With claims for every symbol and one to recover, nothing is ever refetched exactly when the symbols are distinct. */
  lemma {:induction false} DistinctIffNeverRefetched(job: Job, symbols: seq<Symbol>)
    requires SessionsOver(job) && job.normalLimit >= |symbols| && job.recoveryLimit >= 1
    ensures (forall replies: nat -> Reply :: FetchFinal(Refresh(EMPTY, job, symbols, replies).store)) <==> Distinct(symbols)
  {
    hide FetchFinal, Refresh, SessionsOver, Ascending, RepeatsWithin;
    var order := Ascending(symbols);
    RefetchesIff(job, symbols);
    AscendingPermutes(symbols);
    AscendingSorts(symbols);
    DistinctByCount(symbols);
    DistinctByCount(order);
    assert |order| == |multiset(order)| == |multiset(symbols)| == |symbols|;
    if !RepeatsWithin(order, job.normalLimit) {
      ShorterRepeats(order, |order|, job.normalLimit);
      NoRepeatIsDistinct(order, |order|);
      assert order[..|order|] == order;
    } else {
      RepeatIsNotDistinct(order, job.normalLimit);
    }
  }

  lemma {:induction false} RepeatIsNotDistinct(order: seq<Symbol>, limit: nat)
    requires RepeatsWithin(order, limit)
    ensures !Distinct(order)
  {
    var k :| 0 <= k < |order| - 1 && RepeatAt(order, k) && k + 2 <= limit;
    assert order[k] == order[k + 1];
  }

  // ---- the orchestrator as it runs ----

  lemma {:induction false} PassNext(p: Progress, job: Job, symbols: seq<Symbol>, kind: Kind, replies: nat -> Reply, k: nat)
    requires KeyOf(job) in p.store.budgets && k < |symbols|
    ensures Pass(p, job, symbols[..k + 1], kind, replies) == Visit(Pass(p, job, symbols[..k], kind, replies), job, symbols[k], kind, replies)
  {
    assert symbols[..k + 1][..k] == symbols[..k];
  }

  lemma {:induction false} PassOfNone(p: Progress, job: Job, kind: Kind, replies: nat -> Reply)
    requires KeyOf(job) in p.store.budgets
    ensures Pass(p, job, [], kind, replies) == p
  {}

  lemma {:induction false} PassBroken(p: Progress, job: Job, symbols: seq<Symbol>, kind: Kind, replies: nat -> Reply, k: nat)
    requires KeyOf(job) in p.store.budgets && k <= |symbols| && Pass(p, job, symbols[..k], kind, replies).broken
    ensures Pass(p, job, symbols, kind, replies) == Pass(p, job, symbols[..k], kind, replies)
    decreases |symbols|
  {
    if k == |symbols| {
      assert symbols[..k] == symbols;
    } else {
      var n := |symbols| - 1;
      assert symbols[..n][..k] == symbols[..k];
      PassBroken(p, job, symbols[..n], kind, replies, k);
    }
  }

  lemma {:induction false} VisitResult(p: Progress, job: Job, symbol: Symbol, kind: Kind, replies: nat -> Reply)
    requires KeyOf(job) in p.store.budgets && !Visit(p, job, symbol, kind, replies).broken
    ensures !p.broken && p.results.Keys + {symbol} <= Visit(p, job, symbol, kind, replies).results.Keys
  {
    hide Completed, Attempt;
  }

  /** Every visited symbol has a result. */
  lemma {:induction false} EveryResult(p: Progress, job: Job, symbols: seq<Symbol>, kind: Kind, replies: nat -> Reply)
    requires KeyOf(job) in p.store.budgets && !Pass(p, job, symbols, kind, replies).broken
    ensures !p.broken
    ensures forall k :: 0 <= k < |symbols| ==> symbols[k] in Pass(p, job, symbols, kind, replies).results
    ensures p.results.Keys <= Pass(p, job, symbols, kind, replies).results.Keys
  {
    if symbols == [] {
    } else {
      hide Visit;
      var n := |symbols| - 1;
      VisitResult(Pass(p, job, symbols[..n], kind, replies), job, symbols[n], kind, replies);
      EveryResult(p, job, symbols[..n], kind, replies);
      forall k | 0 <= k < |symbols| ensures symbols[k] in Pass(p, job, symbols, kind, replies).results.Keys {
        if k < n {
          assert symbols[..n][k] in Pass(p, job, symbols[..n], kind, replies).results.Keys;
        }
      }
    }
  }

  datatype Report = Report(results: seq<Outcome>, calls: nat)

  class MarketDataBatchOrchestrator {
    var budgets: map<DayKey, Budget>
    var attempts: Attempts
    var tries: seq<Try>

    constructor ()
      ensures State() == EMPTY
    {
      budgets, attempts, tries := map[], map[], [];
    }

    function State(): Store
      reads this
    {
      Store(budgets, attempts, tries)
    }

    method ClaimProviderBudget(key: DayKey, kind: Kind) returns (claim: Claim)
      requires key in budgets
      modifies this`budgets
      ensures budgets == old(budgets)[key := ClaimBudget(old(budgets)[key], kind).0]
      ensures claim == ClaimBudget(old(budgets)[key], kind).1
    {
      var b := budgets[key];
      if b.circuitOpen {
        assert budgets == budgets[key := b];
        return Open;
      }
      if kind == Normal {
        if b.normalSpent >= b.normalLimit {
          assert budgets == budgets[key := b];
          return Exhausted;
        }
        budgets := budgets[key := b.(normalSpent := b.normalSpent + 1)];
      } else {
        if b.recoverySpent >= b.recoveryLimit {
          assert budgets == budgets[key := b];
          return Exhausted;
        }
        budgets := budgets[key := b.(recoverySpent := b.recoverySpent + 1)];
      }
      return Granted;
    }

    /** One attempt: claim, ask unless turned down first, open the circuit if throttled, record. */
    method AttemptSymbol(job: Job, symbol: Symbol, kind: Kind, replies: nat -> Reply) returns (o: Option<Outcome>)
      requires KeyOf(job) in budgets
      modifies this
      ensures State() == Attempt(old(State()), job, symbol, kind, replies).0
      ensures o == Attempt(old(State()), job, symbol, kind, replies).1
    {
      var key, item := KeyOf(job), ItemOf(job, symbol);
      var claim := ClaimProviderBudget(key, kind);
      if claim == Exhausted {
        assert budgets == old(budgets);
        return Some(Outcome(BudgetExhausted, NumberOf(kind)));
      }
      if claim == Open {
        assert budgets == old(budgets);
        return Some(Outcome(CircuitOpen, 0));
      }
      var reply := Fate(job, replies(|tries|));
      tries := tries + [Try(item, job.day, reply)];
      if reply == Throttling {
        budgets := budgets[key := budgets[key].(circuitOpen := true)];
      }
      assert budgets == old(budgets)[key := ClaimBudget(old(budgets)[key], kind).0.(circuitOpen := reply == Throttling)];
      if reply == Broke || reply == NotBuilt {
        return None;
      }
      attempts := Put(attempts, item, NumberOf(kind), StatusOf(reply));
      return Some(Outcome(StatusOf(reply), NumberOf(kind)));
    }

    /** The normal pass over the symbols in ascending order. */
    method NormalPass(job: Job, order: seq<Symbol>, replies: nat -> Reply)
      returns (results: map<Symbol, Outcome>, retryable: seq<Symbol>, count: nat, broken: bool)
      requires KeyOf(job) in budgets
      modifies this
      ensures Progress(State(), results, retryable, count, broken) ==
              Pass(Progress(old(State()), map[], [], 0, false), job, order, Normal, replies)
    {
      hide Pass, Completed;
      ghost var start := Progress(State(), map[], [], 0, false);
      PassOfNone(start, job, Normal, replies);
      assert order[..0] == [];
      results, retryable, count, broken := map[], [], 0, false;
      for k := 0 to |order|
        invariant KeyOf(job) in budgets
        invariant Progress(State(), results, retryable, count, false) == Pass(start, job, order[..k], Normal, replies)
      {
        var symbol := order[k];
        PassNext(start, job, order, Normal, replies, k);
        if budgets[KeyOf(job)].circuitOpen {
          results := results[symbol := Outcome(CircuitOpen, 0)];
        } else if Completed(attempts, ItemOf(job, symbol)) {
          results := results[symbol := Outcome(AlreadyCompleted, 0)];
        } else {
          var before := |tries|;
          var o := AttemptSymbol(job, symbol, Normal, replies);
          if o.None? {
            PassBroken(start, job, order, Normal, replies, k + 1);
            broken := true;
            return;
          }
          count := count + (|tries| - before);
          results := results[symbol := o.value];
          if o.value.status == RetryableFailure {
            retryable := retryable + [symbol];
          }
        }
      }
      assert order[..|order|] == order;
    }

    /** The recovery pass over what may be retried. */
    method RecoveryPass(job: Job, retryable: seq<Symbol>, replies: nat -> Reply, had: map<Symbol, Outcome>, spent: nat)
      returns (results: map<Symbol, Outcome>, count: nat, broken: bool)
      requires KeyOf(job) in budgets
      modifies this
      ensures Progress(State(), results, retryable, count, broken) ==
              Pass(Progress(old(State()), had, retryable, spent, false), job, retryable, Recovery, replies)
    {
      hide Pass, Completed;
      ghost var start := Progress(State(), had, retryable, spent, false);
      PassOfNone(start, job, Recovery, replies);
      assert retryable[..0] == [];
      results, count, broken := had, spent, false;
      for k := 0 to |retryable|
        invariant KeyOf(job) in budgets
        invariant Progress(State(), results, retryable, count, false) == Pass(start, job, retryable[..k], Recovery, replies)
      {
        var symbol := retryable[k];
        PassNext(start, job, retryable, Recovery, replies, k);
        if budgets[KeyOf(job)].circuitOpen {
          results := results[symbol := Outcome(CircuitOpen, 0)];
        } else {
          var before := |tries|;
          var o := AttemptSymbol(job, symbol, Recovery, replies);
          if o.None? {
            PassBroken(start, job, retryable, Recovery, replies, k + 1);
            broken := true;
            return;
          }
          count := count + (|tries| - before);
          results := results[symbol := o.value];
        }
      }
      assert retryable[..|retryable|] == retryable;
    }

    method RefreshSymbols(job: Job, symbols: seq<Symbol>, replies: nat -> Reply) returns (r: Option<Report>)
      modifies this
      ensures State() == Refresh(old(State()), job, symbols, replies).store
      ensures r.None? <==> Refresh(old(State()), job, symbols, replies).broken
      ensures r.Some? ==> Reports(r.value, Ascending(symbols), Refresh(old(State()), job, symbols, replies))
    {
      if KeyOf(job) !in budgets {
        budgets := budgets[KeyOf(job) := Budget(job.normalLimit, job.recoveryLimit, 0, 0, false)];
      }
      ghost var start := Progress(State(), map[], [], 0, false);
      var order := Ascending(symbols);
      var results, retryable, count, broken := NormalPass(job, order, replies);
      ghost var normal := Pass(start, job, order, Normal, replies);
      if broken {
        BrokenStays(normal, job, normal.retryable, Recovery, replies);
        return None;
      }
      results, count, broken := RecoveryPass(job, retryable, replies, results, count);
      if broken {
        return None;
      }
      EveryResult(start, job, order, Normal, replies);
      EveryResult(normal, job, retryable, Recovery, replies);
      r := Some(Report(seq(|order|, k requires 0 <= k < |order| && order[k] in results => results[order[k]]), count));
    }
  }

  /** The report lists the outcome of every symbol in ascending order, and the attempts as calls. */
  ghost predicate Reports(r: Report, order: seq<Symbol>, p: Progress) {
    && r.calls == p.calls && |r.results| == |order|
    && forall k :: 0 <= k < |order| ==> order[k] in p.results && r.results[k] == p.results[order[k]]
  }
}
