/**
  Claiming a run and moving it through its phases: a lease per attempt, under whatever
  times the callers' clocks show.
  (src/stock_agent/runtime/store.py `claim_run`, `transition_run`; runtime/state.py.)
 */
module Leases {
  import opened Common

  datatype Phase =
    | Discovered
    | SkippedNotSession
    | SkippedTooEarly
    | MissedDecisionDeadline
    | Claimed
    | FailedBeforeDecision
    | DataIncomplete
    | SnapshotFrozen
    | CredentialReady
    | FailedDecisionPreSend
    | SendIntentRecorded
    | NeedsReconciliation
    | DecisionRecorded
    | FailedAfterDecision
    | OrdersPersisted
    | Succeeded

  predicate Terminal(p: Phase) {
    p in {SkippedNotSession, SkippedTooEarly, MissedDecisionDeadline, FailedBeforeDecision, DataIncomplete,
          FailedDecisionPreSend, NeedsReconciliation, FailedAfterDecision, Succeeded}
  }

  function NextPhases(p: Phase): set<Phase> {
    match p
    case Discovered => {SkippedNotSession, SkippedTooEarly, MissedDecisionDeadline, Claimed}
    case Claimed => {FailedBeforeDecision, DataIncomplete, SnapshotFrozen}
    case SnapshotFrozen => {CredentialReady}
    case CredentialReady => {FailedDecisionPreSend, SendIntentRecorded}
    case SendIntentRecorded => {FailedDecisionPreSend, NeedsReconciliation, DecisionRecorded}
    case DecisionRecorded => {FailedAfterDecision, OrdersPersisted}
    case OrdersPersisted => {Succeeded}
    case _ => {}
  }

  predicate Legal(a: Phase, b: Phase) { b in NextPhases(a) }

  /** Business key and configuration; the run identifier covers both. */
  datatype RunId = RunId(key: int, config: int)

  datatype Kind = Primary | Recovery

  datatype AttemptRow = AttemptRow(run: RunId, number: nat, kind: Kind, startedAt: Instant)

  datatype Lease = Lease(attempt: nat, expires: Instant)

  datatype RunRow = RunRow(config: int, phase: Phase)

  /** A lease handed to a caller, and a phase change made: what the callers see of the store. */
  datatype Grant = Grant(run: RunId, number: nat, start: Instant, expires: Instant)

  datatype Move = Move(run: RunId, phase: Phase)

  /** The tables, and in order every lease ever granted and every phase change ever made. */
  datatype Store = Store(runs: map<int, RunRow>, attempts: seq<AttemptRow>, leases: map<RunId, Lease>,
                         grants: seq<Grant>, moves: seq<Move>)

  const EMPTY := Store(map[], [], map[], [], [])

  datatype Fault = BadLease | RunConflict | LeaseHeld | UnknownRun | RunIsTerminal | IllegalTransition

  datatype Claim = Created(number: nat) | Recovered(number: nat) | Resumed

  /** The largest attempt number of a run. */
  function LastNumber(attempts: seq<AttemptRow>, run: RunId): nat {
    if attempts == [] then 0
    else
      var before, last := LastNumber(attempts[..|attempts| - 1], run), attempts[|attempts| - 1];
      if last.run == run && last.number > before then last.number else before
  }

  function GrantLease(s: Store, run: RunId, number: nat, kind: Kind, now: Instant, seconds: int): Store {
    s.(attempts := s.attempts + [AttemptRow(run, number, kind, now)],
       leases := s.leases[run := Lease(number, now + seconds)],
       grants := s.grants + [Grant(run, number, now, now + seconds)])
  }

  function AfterClaim(s: Store, run: RunId, now: Instant, seconds: int): Result<(Store, Claim), Fault> {
    if seconds <= 0 then Err(BadLease)
    else if run.key !in s.runs then
      Ok((GrantLease(s.(runs := s.runs[run.key := RunRow(run.config, Claimed)]), run, 1, Primary, now, seconds), Created(1)))
    else if s.runs[run.key].config != run.config then Err(RunConflict)
    else if Terminal(s.runs[run.key].phase) then Ok((s, Resumed))
    else if run in s.leases && s.leases[run].expires > now then Err(LeaseHeld)
    else
      var number := LastNumber(s.attempts, run) + 1;
      Ok((GrantLease(s, run, number, Recovery, now, seconds), Recovered(number)))
  }

  function AfterTransition(s: Store, run: RunId, to: Phase): Result<Store, Fault> {
    if run.key !in s.runs || s.runs[run.key].config != run.config then Err(UnknownRun)
    else
      var phase := s.runs[run.key].phase;
      if Terminal(phase) then Err(RunIsTerminal)
      else if !Legal(phase, to) then Err(IllegalTransition)
      else
        Ok(s.(runs := s.runs[run.key := RunRow(run.config, to)],
              leases := if Terminal(to) then s.leases - {run} else s.leases,
              moves := s.moves + [Move(run, to)]))
  }

  // ---- phases ----

  /** How far a phase is along; every final phase is at the end. */
  function Rank(p: Phase): nat {
    match p
    case Discovered => 0
    case Claimed => 1
    case SnapshotFrozen => 2
    case CredentialReady => 3
    case SendIntentRecorded => 4
    case DecisionRecorded => 5
    case OrdersPersisted => 6
    case _ => 7
  }

  /** A phase can be left exactly when it is not terminal, and only forwards. */
  lemma {:induction false} TransitionsAdvance(a: Phase, b: Phase)
    ensures Legal(a, b) ==> Rank(a) < Rank(b) && !Terminal(a)
    ensures Terminal(a) <==> NextPhases(a) == {}
    ensures Terminal(a) <==> Rank(a) == 7
  {
    assert a == Discovered ==> Claimed in NextPhases(a);
    assert a == Claimed ==> SnapshotFrozen in NextPhases(a);
    assert a == SnapshotFrozen ==> CredentialReady in NextPhases(a);
    assert a == CredentialReady ==> SendIntentRecorded in NextPhases(a);
    assert a == SendIntentRecorded ==> DecisionRecorded in NextPhases(a);
    assert a == DecisionRecorded ==> OrdersPersisted in NextPhases(a);
    assert a == OrdersPersisted ==> Succeeded in NextPhases(a);
  }

  /** Where each phase can come from. */
  function PhasesBefore(p: Phase): set<Phase> {
    match p
    case Discovered => {}
    case SkippedNotSession => {Discovered}
    case SkippedTooEarly => {Discovered}
    case MissedDecisionDeadline => {Discovered}
    case Claimed => {Discovered}
    case FailedBeforeDecision => {Claimed}
    case DataIncomplete => {Claimed}
    case SnapshotFrozen => {Claimed}
    case CredentialReady => {SnapshotFrozen}
    case FailedDecisionPreSend => {CredentialReady, SendIntentRecorded}
    case SendIntentRecorded => {CredentialReady}
    case NeedsReconciliation => {SendIntentRecorded}
    case DecisionRecorded => {SendIntentRecorded}
    case FailedAfterDecision => {DecisionRecorded}
    case OrdersPersisted => {DecisionRecorded}
    case Succeeded => {OrdersPersisted}
  }

  /** Read forwards or backwards, the transitions are the same. */
  lemma {:induction false} LegalBothWays(a: Phase, b: Phase)
    ensures Legal(a, b) <==> a in PhasesBefore(b)
  {}

  // ---- what holds of every store ----

  function AttemptsOf(attempts: seq<AttemptRow>, run: RunId): seq<AttemptRow> {
    if attempts == [] then []
    else
      var last := attempts[|attempts| - 1];
      AttemptsOf(attempts[..|attempts| - 1], run) + if last.run == run then [last] else []
  }

  function GrantsOf(grants: seq<Grant>, run: RunId): seq<Grant> {
    if grants == [] then []
    else
      var last := grants[|grants| - 1];
      GrantsOf(grants[..|grants| - 1], run) + if last.run == run then [last] else []
  }

  function MovesOf(moves: seq<Move>, run: RunId): seq<Move> {
    if moves == [] then []
    else
      var last := moves[|moves| - 1];
      MovesOf(moves[..|moves| - 1], run) + if last.run == run then [last] else []
  }

  predicate Known(s: Store, run: RunId) {
    run.key in s.runs && s.runs[run.key].config == run.config
  }

  function PhaseOf(s: Store, run: RunId): Phase
    requires Known(s, run)
  {
    s.runs[run.key].phase
  }

  /** Numbered 1..n in order, only the first primary. */
  ghost predicate Numbered(rows: seq<AttemptRow>) {
    forall k :: 0 <= k < |rows| ==> rows[k].number == k + 1 && (rows[k].kind == Primary <==> k == 0)
  }

  /** Each lease begins when its predecessor has run out, and lasts. */
  ghost predicate Disjoint(grants: seq<Grant>) {
    && (forall k :: 0 <= k < |grants| ==> grants[k].start < grants[k].expires)
    && forall j, k :: 0 <= j < k < |grants| ==> grants[j].expires <= grants[k].start
  }

  /** Every change goes further than the one before it, starting beyond the claim. */
  ghost predicate Forward(moves: seq<Move>) {
    && (forall k :: 0 <= k < |moves| ==> Rank(moves[k].phase) > 1)
    && forall j, k :: 0 <= j < k < |moves| ==> Rank(moves[j].phase) < Rank(moves[k].phase)
  }

  /** Everything the store says about one run. */
  datatype View = View(rows: seq<AttemptRow>, last: nat, grants: seq<Grant>, moves: seq<Move>,
                       phase: Option<Phase>, lease: Option<Lease>)

  function ViewOf(s: Store, run: RunId): View {
    View(AttemptsOf(s.attempts, run), LastNumber(s.attempts, run), GrantsOf(s.grants, run), MovesOf(s.moves, run),
         if Known(s, run) then Some(PhaseOf(s, run)) else None,
         if run in s.leases then Some(s.leases[run]) else None)
  }

  ghost predicate Tidy(v: View) {
    && Numbered(v.rows) && v.last == |v.rows| == |v.grants|
    && Disjoint(v.grants) && Forward(v.moves)
    && (v.phase.None? ==> v.rows == [] && v.moves == [] && v.lease.None?)
    && (v.phase.Some? ==>
          && v.rows != []
          && v.phase.value == (if v.moves == [] then Claimed else v.moves[|v.moves| - 1].phase)
          && (v.lease.Some? <==> !Terminal(v.phase.value))
          && (v.lease.Some? ==> v.lease.value == Lease(|v.rows|, v.grants[|v.grants| - 1].expires)))
  }

  ghost predicate StoreOk(s: Store) {
    forall run :: Tidy(ViewOf(s, run))
  }

  // ---- one step seen from one run ----

  lemma {:induction false} LastStep(s: Store, row: AttemptRow, grant: Grant, move: Move, run: RunId)
    ensures AttemptsOf(s.attempts + [row], run) == AttemptsOf(s.attempts, run) + if row.run == run then [row] else []
    ensures LastNumber(s.attempts + [row], run) ==
            if row.run == run && row.number > LastNumber(s.attempts, run) then row.number else LastNumber(s.attempts, run)
    ensures GrantsOf(s.grants + [grant], run) == GrantsOf(s.grants, run) + if grant.run == run then [grant] else []
    ensures MovesOf(s.moves + [move], run) == MovesOf(s.moves, run) + if move.run == run then [move] else []
  {
    assert (s.attempts + [row])[..|s.attempts|] == s.attempts;
    assert (s.grants + [grant])[..|s.grants|] == s.grants;
    assert (s.moves + [move])[..|s.moves|] == s.moves;
  }

  function Granted(v: View, run: RunId, number: nat, kind: Kind, now: Instant, seconds: int): View {
    View(v.rows + [AttemptRow(run, number, kind, now)], if number > v.last then number else v.last,
         v.grants + [Grant(run, number, now, now + seconds)], v.moves,
         v.phase, Some(Lease(number, now + seconds)))
  }

  lemma {:induction false} GrantSeen(s: Store, run: RunId, number: nat, kind: Kind, now: Instant, seconds: int, other: RunId)
    ensures ViewOf(GrantLease(s, run, number, kind, now, seconds), other) ==
            if other == run then Granted(ViewOf(s, run), run, number, kind, now, seconds) else ViewOf(s, other)
  {
    LastStep(s, AttemptRow(run, number, kind, now), Grant(run, number, now, now + seconds), Move(run, Claimed), other);
  }

  lemma {:induction false} RegisterSeen(s: Store, run: RunId, other: RunId)
    requires run.key !in s.runs
    ensures ViewOf(s.(runs := s.runs[run.key := RunRow(run.config, Claimed)]), other) ==
            if other == run then ViewOf(s, run).(phase := Some(Claimed)) else ViewOf(s, other)
  {
  }

  function Moved(v: View, run: RunId, to: Phase): View {
    v.(moves := v.moves + [Move(run, to)], phase := Some(to), lease := if Terminal(to) then None else v.lease)
  }

  lemma {:induction false} MoveSeen(s: Store, run: RunId, to: Phase, other: RunId)
    requires AfterTransition(s, run, to).Ok?
    ensures ViewOf(AfterTransition(s, run, to).value, other) ==
            if other == run then Moved(ViewOf(s, run), run, to) else ViewOf(s, other)
  {
    var after := AfterTransition(s, run, to).value;
    LastStep(s, AttemptRow(run, 0, Primary, 0), Grant(run, 0, 0, 0), Move(run, to), other);
    MoveShows(s, run, to, other);
    assert AttemptsOf(after.attempts, other) == AttemptsOf(s.attempts, other);
    assert LastNumber(after.attempts, other) == LastNumber(s.attempts, other);
    assert GrantsOf(after.grants, other) == GrantsOf(s.grants, other);
  }

  lemma {:induction false} MoveShows(s: Store, run: RunId, to: Phase, other: RunId)
    requires AfterTransition(s, run, to).Ok?
    ensures var after := AfterTransition(s, run, to).value;
            && after.attempts == s.attempts && after.grants == s.grants && after.moves == s.moves + [Move(run, to)]
            && (Known(after, other) <==> Known(s, other))
            && (Known(s, other) ==> PhaseOf(after, other) == if other == run then to else PhaseOf(s, other))
            && (other in after.leases <==> other in s.leases && !(other == run && Terminal(to)))
            && (other in after.leases ==> after.leases[other] == s.leases[other])
  {
  }

  lemma {:induction false} GrantTidy(v: View, run: RunId, now: Instant, seconds: int)
    requires Tidy(v) && seconds > 0 && v.lease.Some? && v.lease.value.expires <= now
    ensures Tidy(Granted(v, run, v.last + 1, Recovery, now, seconds))
  {
    var n := |v.grants|;
    assert forall k :: 0 <= k < n ==> v.grants[k].expires <= v.grants[n - 1].expires;
  }

  lemma {:induction false} FirstTidy(v: View, run: RunId, now: Instant, seconds: int)
    requires Tidy(v) && v.phase.None? && seconds > 0
    ensures Tidy(Granted(v.(phase := Some(Claimed)), run, 1, Primary, now, seconds))
  {}

  lemma {:induction false} MoveTidy(v: View, run: RunId, to: Phase)
    requires Tidy(v) && v.phase.Some? && Legal(v.phase.value, to)
    ensures Tidy(Moved(v, run, to))
  {
    var n := |v.moves|;
    TransitionsAdvance(v.phase.value, to);
    assert forall k :: 0 <= k < n ==> Rank(v.moves[k].phase) <= Rank(v.moves[n - 1].phase);
  }

  lemma {:induction false} ClaimKeepsStore(s: Store, run: RunId, now: Instant, seconds: int)
    requires StoreOk(s)
    ensures AfterClaim(s, run, now, seconds).Ok? ==> StoreOk(AfterClaim(s, run, now, seconds).value.0)
  {
    var r := AfterClaim(s, run, now, seconds);
    if r.Ok? && r.value.1.Created? {
      FirstClaimKeepsStore(s, run, now, seconds);
    } else if r.Ok? && r.value.1.Recovered? {
      assert Tidy(ViewOf(s, run));
      RecoveryKeepsStore(s, run, now, seconds);
    }
  }

  lemma {:induction false} FirstClaimKeepsStore(s: Store, run: RunId, now: Instant, seconds: int)
    requires StoreOk(s) && run.key !in s.runs && seconds > 0
    ensures StoreOk(GrantLease(s.(runs := s.runs[run.key := RunRow(run.config, Claimed)]), run, 1, Primary, now, seconds))
  {
    var registered := s.(runs := s.runs[run.key := RunRow(run.config, Claimed)]);
    var after := GrantLease(registered, run, 1, Primary, now, seconds);
    forall other ensures Tidy(ViewOf(after, other)) {
      assert Tidy(ViewOf(s, other));
      GrantSeen(registered, run, 1, Primary, now, seconds, other);
      RegisterSeen(s, run, other);
      if other == run {
        FirstTidy(ViewOf(s, run), run, now, seconds);
      }
    }
  }

  lemma {:induction false} RecoveryKeepsStore(s: Store, run: RunId, now: Instant, seconds: int)
    requires StoreOk(s) && run in s.leases && s.leases[run].expires <= now && seconds > 0
    ensures StoreOk(GrantLease(s, run, LastNumber(s.attempts, run) + 1, Recovery, now, seconds))
  {
    var after := GrantLease(s, run, LastNumber(s.attempts, run) + 1, Recovery, now, seconds);
    forall other ensures Tidy(ViewOf(after, other)) {
      assert Tidy(ViewOf(s, other));
      GrantSeen(s, run, LastNumber(s.attempts, run) + 1, Recovery, now, seconds, other);
      if other == run {
        GrantTidy(ViewOf(s, run), run, now, seconds);
      }
    }
  }

  lemma {:induction false} TransitionKeepsStore(s: Store, run: RunId, to: Phase)
    requires StoreOk(s)
    ensures AfterTransition(s, run, to).Ok? ==> StoreOk(AfterTransition(s, run, to).value)
  {
    var r := AfterTransition(s, run, to);
    if r.Ok? {
      forall other ensures Tidy(ViewOf(r.value, other)) {
        MoveSeen(s, run, to, other);
        MoveTidy(ViewOf(s, run), run, to);
        assert Tidy(ViewOf(s, other));
      }
    }
  }

  // ---- whole histories ----

  datatype Event = Claiming(run: RunId, now: Instant, seconds: int) | Moving(run: RunId, to: Phase)

  function Step(s: Store, e: Event): Store {
    match e
    case Claiming(run, now, seconds) =>
      (match AfterClaim(s, run, now, seconds) case Ok(r) => r.0 case Err(_) => s)
    case Moving(run, to) =>
      (match AfterTransition(s, run, to) case Ok(after) => after case Err(_) => s)
  }

  function After(events: seq<Event>): Store {
    if events == [] then EMPTY else Step(After(events[..|events| - 1]), events[|events| - 1])
  }

  lemma {:induction false} StepKeepsStore(s: Store, e: Event)
    requires StoreOk(s)
    ensures StoreOk(Step(s, e))
  {
    match e
    case Claiming(run, now, seconds) => ClaimKeepsStore(s, run, now, seconds);
    case Moving(run, to) => TransitionKeepsStore(s, run, to);
  }

  lemma {:induction false} AlwaysOk(events: seq<Event>)
    ensures StoreOk(After(events))
  {
    if events == [] {
      forall run ensures Tidy(ViewOf(EMPTY, run)) {}
    } else {
      AlwaysOk(events[..|events| - 1]);
      StepKeepsStore(After(events[..|events| - 1]), events[|events| - 1]);
    }
  }

  /** At no instant do two grants of one run overlap, whatever clocks the claims were made under. */
  lemma {:induction false} OneOwnerAtATime(events: seq<Event>, run: RunId, t: Instant, j: nat, k: nat)
    requires var grants := GrantsOf(After(events).grants, run);
             && j < |grants| && k < |grants|
             && grants[j].start <= t < grants[j].expires && grants[k].start <= t < grants[k].expires
    ensures j == k
  {
    AlwaysOk(events);
    assert Tidy(ViewOf(After(events), run));
  }

  /** Expiry times strictly increase from one grant to the next. */
  lemma {:induction false} ExpiryIncreases(events: seq<Event>, run: RunId, j: nat, k: nat)
    requires j < k < |GrantsOf(After(events).grants, run)|
    ensures var grants := GrantsOf(After(events).grants, run);
            grants[j].expires <= grants[k].start && grants[j].expires < grants[k].expires
  {
    AlwaysOk(events);
    assert Tidy(ViewOf(After(events), run));
  }

  /** Attempts are numbered 1 to n in the order they were made, and only the first is primary. */
  lemma {:induction false} AttemptsAreNumbered(events: seq<Event>, run: RunId, k: nat)
    requires k < |AttemptsOf(After(events).attempts, run)|
    ensures var row := AttemptsOf(After(events).attempts, run)[k];
            row.number == k + 1 && (row.kind == Primary <==> k == 0)
  {
    AlwaysOk(events);
    assert Tidy(ViewOf(After(events), run));
  }

  lemma {:induction false} ForwardIsShort(moves: seq<Move>)
    requires Forward(moves)
    ensures moves != [] ==> |moves| + 1 <= Rank(moves[|moves| - 1].phase)
  {
    if |moves| > 1 {
      var n := |moves| - 1;
      ForwardIsShort(moves[..n]);
      assert Rank(moves[n - 1].phase) < Rank(moves[n].phase);
    }
  }

  /** A run changes phase at most six times. */
  lemma {:induction false} AtMostSixMoves(events: seq<Event>, run: RunId)
    ensures |MovesOf(After(events).moves, run)| <= 6
  {
    AlwaysOk(events);
    assert Tidy(ViewOf(After(events), run));
    ForwardIsShort(MovesOf(After(events).moves, run));
  }

  predicate Finished(s: Store, run: RunId) {
    Known(s, run) && Terminal(PhaseOf(s, run))
  }

  lemma {:induction false} StepLeavesFinished(s: Store, e: Event, run: RunId)
    requires StoreOk(s) && Finished(s, run)
    ensures ViewOf(Step(s, e), run) == ViewOf(s, run)
  {
    assert Tidy(ViewOf(s, run));
    match e
    case Claiming(other, now, seconds) =>
      var r := AfterClaim(s, other, now, seconds);
      if r.Ok? && r.value.1.Created? {
        GrantSeen(s.(runs := s.runs[other.key := RunRow(other.config, Claimed)]), other, 1, Primary, now, seconds, run);
        RegisterSeen(s, other, run);
      } else if r.Ok? && r.value.1.Recovered? {
        GrantSeen(s, other, LastNumber(s.attempts, other) + 1, Recovery, now, seconds, run);
      }
    case Moving(other, to) =>
      if AfterTransition(s, other, to).Ok? {
        MoveSeen(s, other, to, run);
      }
  }

  /** A finished run has no lease, and nothing later changes it: no attempt, no lease, no phase. */
  lemma {:induction false} FinishedForGood(events: seq<Event>, i: nat, run: RunId)
    requires i <= |events| && Finished(After(events[..i]), run)
    ensures ViewOf(After(events), run) == ViewOf(After(events[..i]), run)
    ensures run !in After(events).leases
    decreases |events|
  {
    AlwaysOk(events[..i]);
    assert Tidy(ViewOf(After(events[..i]), run));
    if i == |events| {
      assert events[..i] == events;
    } else {
      var n := |events| - 1;
      assert events[..n][..i] == events[..i];
      FinishedForGood(events[..n], i, run);
      AlwaysOk(events[..n]);
      StepLeavesFinished(After(events[..n]), events[n], run);
    }
  }

  /** An unfinished run always has a lease, so it can be claimed again exactly when that lease has run out. */
  lemma {:induction false} ClaimableIff(events: seq<Event>, run: RunId, now: Instant, seconds: int)
    requires Known(After(events), run) && !Finished(After(events), run) && seconds > 0
    ensures var s := After(events);
            && run in s.leases
            && (AfterClaim(s, run, now, seconds).Ok? <==> s.leases[run].expires <= now)
  {
    AlwaysOk(events);
    assert Tidy(ViewOf(After(events), run));
  }

  // ---- exactly what a claim and a transition do ----

  /** The run's business key is taken by a run of another configuration. */
  predicate Conflicts(s: Store, run: RunId) {
    run.key in s.runs && s.runs[run.key].config != run.config
  }

  /** What a claim answers, told from the run's own history: its attempts so far and the lease it last got. */
  ghost predicate RightClaim(v: View, conflict: bool, now: Instant, seconds: int, r: Result<Claim, Fault>) {
    if seconds <= 0 then r == Err(BadLease)
    else if conflict then r == Err(RunConflict)
    else if v.phase.None? then r == Ok(Created(1))
    else if Terminal(v.phase.value) then r == Ok(Resumed)
    else if v.grants != [] && now < v.grants[|v.grants| - 1].expires then r == Err(LeaseHeld)
    else r == Ok(Recovered(|v.rows| + 1))
  }

  function AnswerOf(r: Result<(Store, Claim), Fault>): Result<Claim, Fault> {
    match r case Ok(after) => Ok(after.1) case Err(fault) => Err(fault)
  }

  /** The run's history after a claim: one attempt and one lease more if one was granted, from `now` for `seconds`. */
  ghost predicate RightView(v: View, run: RunId, now: Instant, seconds: int, r: Result<Claim, Fault>, after: View) {
    match r
    case Ok(Created(n)) =>
      after == View([AttemptRow(run, 1, Primary, now)], 1, [Grant(run, 1, now, now + seconds)], [],
                    Some(Claimed), Some(Lease(1, now + seconds)))
    case Ok(Recovered(n)) =>
      after == View(v.rows + [AttemptRow(run, n, Recovery, now)], n, v.grants + [Grant(run, n, now, now + seconds)], v.moves,
                    v.phase, Some(Lease(n, now + seconds)))
    case _ => after == v
  }

  lemma {:induction false} ClaimSeen(s: Store, run: RunId, now: Instant, seconds: int, other: RunId)
    requires AfterClaim(s, run, now, seconds).Ok?
    ensures var (after, claim) := AfterClaim(s, run, now, seconds).value;
            ViewOf(after, other) ==
            if other != run || claim.Resumed? then ViewOf(s, other)
            else if claim.Created? then Granted(ViewOf(s, run).(phase := Some(Claimed)), run, 1, Primary, now, seconds)
            else Granted(ViewOf(s, run), run, claim.number, Recovery, now, seconds)
  {
    var claim := AfterClaim(s, run, now, seconds).value.1;
    if claim.Created? {
      var registered := s.(runs := s.runs[run.key := RunRow(run.config, Claimed)]);
      GrantSeen(registered, run, 1, Primary, now, seconds, other);
      RegisterSeen(s, run, other);
    } else if claim.Recovered? {
      GrantSeen(s, run, claim.number, Recovery, now, seconds, other);
    }
  }

  /** After any history, a claim answers and writes exactly this, and touches no other run. */
  lemma {:induction false} ClaimExactly(events: seq<Event>, run: RunId, now: Instant, seconds: int, other: RunId)
    ensures var s := After(events);
            var after := After(events + [Claiming(run, now, seconds)]);
            var r := AnswerOf(AfterClaim(s, run, now, seconds));
            && RightClaim(ViewOf(s, run), Conflicts(s, run), now, seconds, r)
            && RightView(ViewOf(s, run), run, now, seconds, r, ViewOf(after, run))
            && (other != run ==> ViewOf(after, other) == ViewOf(s, other))
  {
    var s := After(events);
    assert (events + [Claiming(run, now, seconds)])[..|events|] == events;
    AlwaysOk(events);
    assert Tidy(ViewOf(s, run));
    if AfterClaim(s, run, now, seconds).Ok? {
      ClaimSeen(s, run, now, seconds, run);
      ClaimSeen(s, run, now, seconds, other);
    }
  }

  /** After any history, a transition succeeds exactly when it is legal from the phase reached, and writes exactly that. */
  lemma {:induction false} TransitionExactly(events: seq<Event>, run: RunId, to: Phase, other: RunId)
    ensures var s := After(events);
            var after := After(events + [Moving(run, to)]);
            var v, w := ViewOf(s, run), ViewOf(after, run);
            && (AfterTransition(s, run, to).Ok? <==> v.phase.Some? && v.phase.value in PhasesBefore(to))
            && (AfterTransition(s, run, to).Err? ==>
                  && w == v
                  && AfterTransition(s, run, to).error ==
                     (if v.phase.None? then UnknownRun else if Terminal(v.phase.value) then RunIsTerminal else IllegalTransition))
            && (AfterTransition(s, run, to).Ok? ==>
                  w == v.(moves := v.moves + [Move(run, to)], phase := Some(to), lease := if Terminal(to) then None else v.lease))
            && (other != run ==> ViewOf(after, other) == ViewOf(s, other))
  {
    hide ViewOf;
    var s := After(events);
    assert (events + [Moving(run, to)])[..|events|] == events;
    ViewPhase(s, run);
    if s.runs.Keys >= {run.key} {
      LegalBothWays(s.runs[run.key].phase, to);
      TransitionsAdvance(s.runs[run.key].phase, to);
    }
    if AfterTransition(s, run, to).Ok? {
      MoveSeen(s, run, to, run);
      MoveSeen(s, run, to, other);
    }
  }

  lemma {:induction false} ViewPhase(s: Store, run: RunId)
    ensures ViewOf(s, run).phase == if Known(s, run) then Some(PhaseOf(s, run)) else None
  {}

  /** Some claim of the history granted `g`, from its instant for its seconds. */
  ghost predicate ClaimedBy(events: seq<Event>, g: Grant) {
    exists i :: 0 <= i < |events| && events[i] == Claiming(g.run, g.start, g.expires - g.start) && g.expires > g.start
  }

  /** Over every history each lease granted runs exactly the seconds its claim asked for, from the claim's own instant. */
  lemma {:induction false} LeasesRunAsAsked(events: seq<Event>, k: nat)
    requires k < |After(events).grants|
    ensures ClaimedBy(events, After(events).grants[k])
    decreases |events|
  {
    if events == [] {
    } else {
      var n := |events| - 1;
      var before, g := After(events[..n]), After(events).grants[k];
      if k < |before.grants| {
        LeasesRunAsAsked(events[..n], k);
        GrantsOnlyGrow(before, events[n], k);
        var i :| 0 <= i < n && events[..n][i] == Claiming(g.run, g.start, g.expires - g.start) && g.expires > g.start;
        assert events[i] == events[..n][i];
      } else {
        NewGrant(before, events[n]);
        assert events[n] == Claiming(g.run, g.start, g.expires - g.start);
      }
    }
  }

  lemma {:induction false} GrantsOnlyGrow(s: Store, e: Event, k: nat)
    requires k < |s.grants|
    ensures k < |Step(s, e).grants| && Step(s, e).grants[k] == s.grants[k]
  {}

  lemma {:induction false} NewGrant(s: Store, e: Event)
    ensures |Step(s, e).grants| <= |s.grants| + 1
    ensures |Step(s, e).grants| > |s.grants| ==>
              var g := Step(s, e).grants[|s.grants|];
              g.expires > g.start && e == Claiming(g.run, g.start, g.expires - g.start)
  {}

  // ---- the store as an object ----

  class RunStore {
    var runs: map<int, RunRow>
    var attempts: seq<AttemptRow>
    var leases: map<RunId, Lease>
    ghost var grants: seq<Grant>
    ghost var moves: seq<Move>

    ghost function State(): Store
      reads this
    {
      Store(runs, attempts, leases, grants, moves)
    }

    constructor ()
      ensures State() == EMPTY
    {
      runs, attempts, leases, grants, moves := map[], [], map[], [], [];
    }

    method NextAttemptNumber(run: RunId) returns (number: nat)
      ensures number == LastNumber(attempts, run) + 1
    {
      var last := 0;
      for k := 0 to |attempts|
        invariant last == LastNumber(attempts[..k], run)
      {
        assert attempts[..k + 1][..k] == attempts[..k];
        if attempts[k].run == run && attempts[k].number > last {
          last := attempts[k].number;
        }
      }
      assert attempts[..|attempts|] == attempts;
      number := last + 1;
    }

    method InsertAttempt(run: RunId, number: nat, kind: Kind, now: Instant, seconds: int)
      modifies this
      ensures State() == GrantLease(old(State()), run, number, kind, now, seconds)
    {
      attempts := attempts + [AttemptRow(run, number, kind, now)];
      leases := leases[run := Lease(number, now + seconds)];
      grants := grants + [Grant(run, number, now, now + seconds)];
    }

    method ClaimRun(run: RunId, now: Instant, seconds: int) returns (r: Result<Claim, Fault>)
      modifies this
      ensures match AfterClaim(old(State()), run, now, seconds)
              case Err(fault) => r == Err(fault) && State() == old(State())
              case Ok(after) => r == Ok(after.1) && State() == after.0
    {
      if seconds <= 0 {
        return Err(BadLease);
      }
      if run.key in runs {
        var known := runs[run.key];
        if known.config != run.config {
          return Err(RunConflict);
        }
        if Terminal(known.phase) {
          return Ok(Resumed);
        }
        if run in leases && leases[run].expires > now {
          return Err(LeaseHeld);
        }
        var number := NextAttemptNumber(run);
        InsertAttempt(run, number, Recovery, now, seconds);
        return Ok(Recovered(number));
      }
      runs := runs[run.key := RunRow(run.config, Claimed)];
      InsertAttempt(run, 1, Primary, now, seconds);
      return Ok(Created(1));
    }

    method TransitionRun(run: RunId, to: Phase) returns (error: Option<Fault>)
      modifies this
      ensures match AfterTransition(old(State()), run, to)
              case Err(fault) => error == Some(fault) && State() == old(State())
              case Ok(after) => error == None && State() == after
    {
      if run.key !in runs || runs[run.key].config != run.config {
        return Some(UnknownRun);
      }
      var phase := runs[run.key].phase;
      if Terminal(phase) {
        return Some(RunIsTerminal);
      }
      if to !in NextPhases(phase) {
        return Some(IllegalTransition);
      }
      runs := runs[run.key := RunRow(run.config, to)];
      if Terminal(to) {
        leases := leases - {run};
      }
      moves := moves + [Move(run, to)];
      return None;
    }
  }
}
