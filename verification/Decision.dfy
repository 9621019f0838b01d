/**
  Crash-safe decisions: two durable stores, one external send, and a process that may
  stop between any two of its durable effects.
  (src/stock_agent/runtime/decision.py and the decision tables of runtime/store.py.)
 */
module Decision {
  import opened Common
  import opened Journal
  import opened Provider

  type RunId = int

  datatype Phase = SendIntentRecorded | DecisionRecorded | NeedsReconciliation | AbandonedNoOrder

  datatype Invocation = Invocation(request: Request, phase: Phase, decision: Option<DecisionId>)

  datatype Note = Note(run: RunId, operator: int, reason: int, request: Request, at: Instant)

  datatype StoreError =
    | FingerprintConflict
    | AlreadyAdvanced
    | NoSendIntent
    | DecisionIdentityConflict
    | CannotRecord
    | UnknownInvocation
    | NotReconcilable
    | WriteFailed

  type Rows = map<RunId, Invocation>

  // ---- the store's four transitions; `fails` stands for a storage error, which rolls back ----

  function MarkSendIntent(rows: Rows, run: RunId, q: Request, fails: bool): Result<Rows, StoreError> {
    if fails then Err(WriteFailed)
    else if run !in rows then Ok(rows[run := Invocation(q, SendIntentRecorded, None)])
    else if rows[run].phase == SendIntentRecorded && rows[run].request == q then Ok(rows)
    else if rows[run].request != q then Err(FingerprintConflict)
    else Err(AlreadyAdvanced)
  }

  function RecordDecision(rows: Rows, run: RunId, id: DecisionId, fails: bool): Result<Rows, StoreError> {
    if fails then Err(WriteFailed)
    else if run !in rows then Err(NoSendIntent)
    else if rows[run].phase == DecisionRecorded then
      (if rows[run].decision == Some(id) then Ok(rows) else Err(DecisionIdentityConflict))
    else if rows[run].phase != SendIntentRecorded then Err(CannotRecord)
    else Ok(rows[run := Invocation(rows[run].request, DecisionRecorded, Some(id))])
  }

  function MarkNeedsReconciliation(rows: Rows, run: RunId, fails: bool): Result<Rows, StoreError> {
    if fails then Err(WriteFailed)
    else if run !in rows then Err(NoSendIntent)
    else if rows[run].phase == SendIntentRecorded then Ok(rows[run := rows[run].(phase := NeedsReconciliation)])
    else Ok(rows)
  }

  function Abandon(rows: Rows, run: RunId, fails: bool): Result<Rows, StoreError> {
    if fails then Err(WriteFailed)
    else if run !in rows then Err(UnknownInvocation)
    else if rows[run].phase != NeedsReconciliation then Err(NotReconcilable)
    else Ok(rows[run := rows[run].(phase := AbandonedNoOrder)])
  }

  // ---- the world a decision runs in ----

  datatype Send = Send(run: RunId, request: Request)

  /** Both stores, and every request ever handed to the transport. */
  datatype World = World(journal: Tables, rows: Rows, notes: seq<Note>, sends: seq<Send>)

  const EMPTY := World(Tables(map[], map[]), map[], [], [])

  /**
    What the surroundings do to one call: which of its reads, writes and constructions
    fail, what others append to the journal while the reply is awaited, the reply, and
    after how many durable effects of its own the process stops, if it does.
   */
  datatype Surroundings = Surroundings(readFails: bool, rowReadFails: bool, credentialFails: bool, transportFails: bool,
                                       markFails: bool, appendFails: bool, rereadFails: bool, reconcileFails: bool,
                                       recordFails: bool, meanwhile: seq<Entry>, reply: Reply, stop: Option<nat>)

  datatype Ask = Ask(run: RunId, request: Request, now: Instant, policy: Policy, env: Surroundings)

  datatype ErrorCode = Credential | Provider(status: Status)

  datatype Outcome =
    | Resumed(record: Record)
    | Decided(record: Record)
    | FailedPreSend(code: ErrorCode)
    | Unresolved
    | Raised
    | Stopped

  predicate Alive(env: Surroundings, effects: nat) {
    env.stop.None? || effects < env.stop.value
  }

  function Return(w: World, env: Surroundings, effects: nat, o: Outcome): (World, Outcome) {
    (w, if Alive(env, effects) then o else Stopped)
  }

  function AttemptId(run: RunId, now: Instant): Id { [run, now] }

  predicate IntentOpen(rows: Rows, run: RunId) {
    run in rows && rows[run].phase == SendIntentRecorded
  }

  /** After a provider error: an open send intent is ambiguous, anything else failed before the send. */
  function Broken(w: World, a: Ask, effects: nat, status: Status): (World, Outcome) {
    if a.env.rereadFails then Return(w, a.env, effects, Raised)
    else if IntentOpen(w.rows, a.run) then Escalate(w, a, effects)
    else Return(w, a.env, effects, FailedPreSend(Provider(status)))
  }

  function Escalate(w: World, a: Ask, effects: nat): (World, Outcome) {
    if !Alive(a.env, effects) then (w, Stopped)
    else match MarkNeedsReconciliation(w.rows, a.run, a.env.reconcileFails)
      case Err(_) => (w, Raised)
      case Ok(rows) => Return(w.(rows := rows), a.env, effects + 1, Unresolved)
  }

  /** File a failed attempt, then report. */
  function Fail(w: World, a: Ask, effects: nat, status: Status): (World, Outcome) {
    match Append(w.journal, FailedAttempt(AttemptId(a.run, a.now), a.request, status, a.now), None, a.env.appendFails)
    case Err(_) => Broken(w, a, effects, AuditPersistence)
    case Ok(journal) =>
      if !Alive(a.env, effects) then (w, Stopped)
      else Broken(w.(journal := journal), a, effects + 1, status)
  }

  /** The reply has arrived. */
  function Settle(w: World, a: Ask, effects: nat): (World, Outcome) {
    match Judge(a.env.reply, a.request, a.policy)
    case Err(status) => Fail(w, a, effects, status)
    case Ok(answer) =>
      var record := SuccessRecord(a.request, answer, a.policy, a.now);
      match Append(w.journal, SuccessAttempt(AttemptId(a.run, a.now), a.request, answer, a.now), Some(record), a.env.appendFails)
      case Err(_) => Broken(w, a, effects, AuditPersistence)
      case Ok(journal) =>
        if !Alive(a.env, effects) then (w, Stopped)
        else Conclude(w.(journal := journal), a, effects + 1, record)
  }

  function Conclude(w: World, a: Ask, effects: nat, record: Record): (World, Outcome) {
    match RecordDecision(w.rows, a.run, record.id, a.env.recordFails)
    case Err(_) => Return(w, a.env, effects, Raised)
    case Ok(rows) =>
      if !Alive(a.env, effects) then (w, Stopped)
      else Return(w.(rows := rows), a.env, effects + 1, Decided(record))
  }

  /** The request is out, and others have used the journal since. */
  function Sent(w: World, a: Ask, rows: Rows): World {
    World(AppendAll(w.journal, a.env.meanwhile), rows, w.notes, w.sends + [Send(a.run, a.request)])
  }

  /** Mark the intent, send, and deal with what comes back. */
  function Invoke(w: World, a: Ask): (World, Outcome) {
    if a.request.policy != a.policy.id then Fail(w, a, 0, IdentityPolicy)
    else match MarkSendIntent(w.rows, a.run, a.request, a.env.markFails)
      case Err(_) => Fail(w, a, 0, AuditPersistence)
      case Ok(rows) =>
        if !Alive(a.env, 0) then (w, Stopped)
        else if !Alive(a.env, 1) then (w.(rows := rows), Stopped)
        else Settle(Sent(w, a, rows), a, 2)
  }

  function RunDecision(w: World, a: Ask): (World, Outcome) {
    if a.env.readFails then Return(w, a.env, 0, Raised)
    else if a.request in w.journal.decisions then Return(w, a.env, 0, Resumed(w.journal.decisions[a.request]))
    else if a.env.rowReadFails then Return(w, a.env, 0, Raised)
    else if IntentOpen(w.rows, a.run) then Escalate(w, a, 0)
    else if a.env.credentialFails then Return(w, a.env, 0, FailedPreSend(Credential))
    else if a.env.transportFails then Return(w, a.env, 0, Raised)
    else Invoke(w, a)
  }

  function ReconcileAbandon(w: World, run: RunId, operator: int, reason: int, now: Instant, fails: bool): World {
    match Abandon(w.rows, run, fails)
    case Err(_) => w
    case Ok(rows) => w.(rows := rows, notes := w.notes + [Note(run, operator, reason, w.rows[run].request, now)])
  }

  // ---- what holds in every world ----

  function SendCount(sends: seq<Send>, run: RunId): nat {
    if sends == [] then 0
    else SendCount(sends[..|sends| - 1], run) + if sends[|sends| - 1].run == run then 1 else 0
  }

  function NoteCount(notes: seq<Note>, run: RunId): nat {
    if notes == [] then 0
    else NoteCount(notes[..|notes| - 1], run) + if notes[|notes| - 1].run == run then 1 else 0
  }

  predicate HasPhase(rows: Rows, run: RunId, phase: Phase) {
    run in rows && rows[run].phase == phase
  }

  /** A run marked decided names a decision the journal holds. */
  ghost predicate RowOk(w: World, run: RunId)
    requires run in w.rows
  {
    w.rows[run].phase == DecisionRecorded ==>
      w.rows[run].decision.Some? && ById(w.journal, w.rows[run].decision.value).Some?
  }

  ghost predicate RowsOk(w: World) {
    forall run :: run in w.rows ==> RowOk(w, run)
  }

  /** No run has sent twice, and none has sent without leaving a mark. */
  ghost predicate SendsOk(w: World) {
    forall run :: SendCount(w.sends, run) <= if run in w.rows then 1 else 0
  }

  /** Exactly the abandoned runs have a note, and each has one. */
  ghost predicate NotesOk(w: World) {
    forall run :: NoteCount(w.notes, run) == if HasPhase(w.rows, run, AbandonedNoOrder) then 1 else 0
  }

  ghost predicate WorldOk(w: World) {
    TablesOk(w.journal) && RowsOk(w) && SendsOk(w) && NotesOk(w)
  }

  /** How a run's mark may move: decided and abandoned are final. */
  predicate Moves(a: Phase, b: Phase) {
    a == b || (a == SendIntentRecorded && b in {DecisionRecorded, NeedsReconciliation, AbandonedNoOrder})
    || (a == NeedsReconciliation && b == AbandonedNoOrder)
  }

  ghost predicate RowsAdvance(before: Rows, after: Rows) {
    forall run :: run in before ==>
      run in after && after[run].request == before[run].request && Moves(before[run].phase, after[run].phase)
  }

  /** No send, no new run, nothing in the journal lost, no run abandoned. */
  ghost predicate Kept(before: World, after: World) {
    && after.sends == before.sends && after.notes == before.notes
    && after.rows.Keys == before.rows.Keys
    && RowsAdvance(before.rows, after.rows)
    && (forall run :: run in before.rows ==>
          (after.rows[run].phase == AbandonedNoOrder <==> before.rows[run].phase == AbandonedNoOrder))
    && Extends(after.journal, before.journal)
    && TablesOk(after.journal) && RowsOk(after)
  }

  lemma {:induction false} RowsStayOk(before: World, after: World)
    requires RowsOk(before) && after.rows == before.rows && Extends(after.journal, before.journal)
    ensures RowsOk(after)
  {
    forall run | run in after.rows ensures RowOk(after, run) {
      assert RowOk(before, run);
    }
  }

  /** Something on the way of the call that nothing catches can fail. */
  predicate Faulty(env: Surroundings) {
    || env.readFails || env.rowReadFails || env.transportFails
    || env.rereadFails || env.reconcileFails || env.recordFails
  }

  lemma {:induction false} EscalateKeeps(w: World, a: Ask, effects: nat)
    requires TablesOk(w.journal) && RowsOk(w) && IntentOpen(w.rows, a.run)
    ensures Kept(w, Escalate(w, a, effects).0)
    ensures Escalate(w, a, effects).1 in {Unresolved, Stopped, Raised}
    ensures Escalate(w, a, effects).1 == Raised ==> a.env.reconcileFails && Escalate(w, a, effects).0 == w
    ensures Escalate(w, a, effects).1 == Unresolved ==> HasPhase(Escalate(w, a, effects).0.rows, a.run, NeedsReconciliation)
  {
    var after := Escalate(w, a, effects).0;
    forall run | run in after.rows ensures RowOk(after, run) {
      assert RowOk(w, run);
    }
  }

  lemma {:induction false} BrokenKeeps(w: World, a: Ask, effects: nat, status: Status)
    requires TablesOk(w.journal) && RowsOk(w)
    ensures Kept(w, Broken(w, a, effects, status).0)
    ensures var o := Broken(w, a, effects, status).1;
            && (o.FailedPreSend? || o in {Unresolved, Stopped, Raised})
            && (o.FailedPreSend? ==> !IntentOpen(w.rows, a.run))
            && (o == Raised ==> Faulty(a.env) && Broken(w, a, effects, status).0.rows == w.rows)
            && (o == Unresolved ==> HasPhase(Broken(w, a, effects, status).0.rows, a.run, NeedsReconciliation))
  {
    if IntentOpen(w.rows, a.run) {
      EscalateKeeps(w, a, effects);
    }
  }

  lemma {:induction false} FailKeeps(w: World, a: Ask, effects: nat, status: Status)
    requires TablesOk(w.journal) && RowsOk(w) && status != Success
    ensures Kept(w, Fail(w, a, effects, status).0)
    ensures var o := Fail(w, a, effects, status).1;
            && (o.FailedPreSend? || o in {Unresolved, Stopped, Raised})
            && (o.FailedPreSend? ==> !IntentOpen(w.rows, a.run))
            && (o == Raised ==> Faulty(a.env) && Fail(w, a, effects, status).0.rows == w.rows)
            && (o == Unresolved ==> HasPhase(Fail(w, a, effects, status).0.rows, a.run, NeedsReconciliation))
  {
    var attempt := FailedAttempt(AttemptId(a.run, a.now), a.request, status, a.now);
    AppendKeepsTables(w.journal, attempt, None, a.env.appendFails);
    AppendExtends(w.journal, attempt, None, a.env.appendFails);
    match Append(w.journal, attempt, None, a.env.appendFails)
    case Err(_) =>
      BrokenKeeps(w, a, effects, AuditPersistence);
    case Ok(journal) =>
      RowsStayOk(w, w.(journal := journal));
      BrokenKeeps(w.(journal := journal), a, effects + 1, status);
  }

  /** The journal holds `record` as the decision for `q`. */
  predicate OnFile(w: World, q: Request, record: Record) {
    ByRequest(w.journal, q) == Some(record)
  }

  lemma {:induction false} ConcludeKeeps(w: World, a: Ask, effects: nat, record: Record)
    requires TablesOk(w.journal) && RowsOk(w) && OnFile(w, a.request, record) && ValidRecord(record)
    requires w.rows.Keys >= {a.run} && w.rows[a.run] == Invocation(a.request, SendIntentRecorded, None)
    ensures var (after, o) := Conclude(w, a, effects, record);
            && Kept(w, after) && o in {Decided(record), Stopped, Raised} && OnFile(after, a.request, record)
            && (o == Raised ==> Faulty(a.env) && after.rows == w.rows)
            && (o.Decided? ==> after.rows[a.run] == Invocation(a.request, DecisionRecorded, Some(record.id)))
  {
    var after := Conclude(w, a, effects, record).0;
    assert ById(w.journal, record.id) == Some(record);
    forall run | run in after.rows ensures RowOk(after, run) {
      assert RowOk(w, run);
    }
  }

  /** What an answered send leads to. */
  ghost predicate Settled(w: World, a: Ask, after: World, o: Outcome) {
    && Kept(w, after)
    && (o.Decided? ==> OnFile(after, a.request, o.record)
                       && a.run in after.rows
                       && after.rows[a.run] == Invocation(a.request, DecisionRecorded, Some(o.record.id)))
    && (o == Unresolved ==> HasPhase(after.rows, a.run, NeedsReconciliation))
    && (o == Raised ==> Faulty(a.env) && after.rows == w.rows)
    && (o.Decided? || o in {Unresolved, Stopped, Raised})
  }

  lemma {:induction false} SettleKeeps(w: World, a: Ask, effects: nat)
    requires TablesOk(w.journal) && RowsOk(w)
    requires w.rows.Keys >= {a.run} && w.rows[a.run] == Invocation(a.request, SendIntentRecorded, None)
    ensures var (after, o) := Settle(w, a, effects); Settled(w, a, after, o)
  {
    match Judge(a.env.reply, a.request, a.policy)
    case Err(status) =>
      FailKeeps(w, a, effects, status);
    case Ok(answer) =>
      var attempt := SuccessAttempt(AttemptId(a.run, a.now), a.request, answer, a.now);
      var record := SuccessRecord(a.request, answer, a.policy, a.now);
      SuccessIsPaired(AttemptId(a.run, a.now), a.request, answer, a.policy, a.now);
      AppendKeepsTables(w.journal, attempt, Some(record), a.env.appendFails);
      AppendExtends(w.journal, attempt, Some(record), a.env.appendFails);
      match Append(w.journal, attempt, Some(record), a.env.appendFails)
      case Err(_) =>
        BrokenKeeps(w, a, effects, AuditPersistence);
      case Ok(journal) =>
        RowsStayOk(w, w.(journal := journal));
        ConcludeKeeps(w.(journal := journal), a, effects + 1, record);
  }

  /** Exactly when a call hands its request to the transport. */
  predicate SendsNow(w: World, a: Ask) {
    && !a.env.readFails && a.request !in w.journal.decisions
    && !a.env.rowReadFails && a.run !in w.rows && !a.env.credentialFails && !a.env.transportFails
    && a.request.policy == a.policy.id
    && !a.env.markFails && Alive(a.env, 1)
  }

  /** The world in which the reply is awaited. */
  function Awaiting(w: World, a: Ask): World {
    Sent(w, a, w.rows[a.run := Invocation(a.request, SendIntentRecorded, None)])
  }

  lemma {:induction false} AwaitingOk(w: World, a: Ask)
    requires WorldOk(w) && ValidEntries(a.env.meanwhile) && a.run !in w.rows
    ensures var sent := Awaiting(w, a);
            && TablesOk(sent.journal) && RowsOk(sent) && SendsOk(sent) && NotesOk(sent)
            && Extends(sent.journal, w.journal) && RowsAdvance(w.rows, sent.rows)
  {
    var sent := Awaiting(w, a);
    AppendAllKeepsTables(w.journal, a.env.meanwhile);
    AppendAllExtends(w.journal, a.env.meanwhile);
    forall run | run in sent.rows ensures RowOk(sent, run) {
      if run != a.run {
        assert RowOk(w, run);
      }
    }
    assert sent.sends[..|w.sends|] == w.sends;
  }

  lemma {:induction false} MarkedOk(w: World, a: Ask)
    requires WorldOk(w) && a.run !in w.rows
    ensures var marked := w.(rows := w.rows[a.run := Invocation(a.request, SendIntentRecorded, None)]);
            WorldOk(marked) && RowsAdvance(w.rows, marked.rows)
  {
    var marked := w.(rows := w.rows[a.run := Invocation(a.request, SendIntentRecorded, None)]);
    forall run | run in marked.rows ensures RowOk(marked, run) {
      if run != a.run {
        assert RowOk(w, run);
      }
    }
  }

  lemma {:induction false} KeptIsOk(before: World, after: World)
    requires SendsOk(before) && NotesOk(before) && Kept(before, after)
    ensures WorldOk(after)
  {
    assert forall run :: run in after.rows <==> run in before.rows;
  }

  lemma {:induction false} InvokeWithoutSend(w: World, a: Ask)
    requires WorldOk(w) && !IntentOpen(w.rows, a.run)
    requires a.request.policy != a.policy.id || a.env.markFails || a.run in w.rows
    ensures var (after, o) := Invoke(w, a);
            && Kept(w, after) && (o.FailedPreSend? || o in {Stopped, Raised})
            && (o == Raised ==> Faulty(a.env) && after.rows == w.rows)
  {
    FailKeeps(w, a, 0, IdentityPolicy);
    FailKeeps(w, a, 0, AuditPersistence);
    KeptNeverOpens(w, a);
  }

  lemma {:induction false} KeptNeverOpens(w: World, a: Ask)
    requires TablesOk(w.journal) && RowsOk(w) && !IntentOpen(w.rows, a.run)
    ensures Fail(w, a, 0, IdentityPolicy).1 != Unresolved && Fail(w, a, 0, AuditPersistence).1 != Unresolved
  {}

  // ---- one call ----

  /** What a raised error leaves: every row as it was, or, once the request is out, this run's send intent open. */
  ghost predicate RaisedLeaves(before: World, a: Ask, after: World) {
    if after.sends == before.sends then after.rows == before.rows
    else
      && after.sends == before.sends + [Send(a.run, a.request)]
      && after.rows == before.rows[a.run := Invocation(a.request, SendIntentRecorded, None)]
  }

  /** What a call may report, and what each report is worth. */
  ghost predicate Honest(before: World, a: Ask, after: World, o: Outcome) {
    && (o.FailedPreSend? ==> after.sends == before.sends)
    && (o.Resumed? ==> after == before && OnFile(after, a.request, o.record))
    && (o.Decided? ==>
          && after.sends == before.sends + [Send(a.run, a.request)]
          && OnFile(after, a.request, o.record)
          && a.run in after.rows
          && after.rows[a.run] == Invocation(a.request, DecisionRecorded, Some(o.record.id)))
    && (o == Unresolved ==> HasPhase(after.rows, a.run, NeedsReconciliation))
    && (o == Raised ==> Faulty(a.env) && RaisedLeaves(before, a, after))
  }

  ghost predicate Progress(before: World, after: World) {
    && WorldOk(after) && RowsAdvance(before.rows, after.rows) && Extends(after.journal, before.journal)
  }

  lemma {:induction false} InvokeIsHonest(w: World, a: Ask)
    requires WorldOk(w) && ValidEntries(a.env.meanwhile) && !IntentOpen(w.rows, a.run)
    ensures var (after, o) := Invoke(w, a); Honest(w, a, after, o) && Progress(w, after)
  {
    if a.request.policy != a.policy.id || a.env.markFails || a.run in w.rows {
      InvokeWithoutSend(w, a);
      KeptIsOk(w, Invoke(w, a).0);
    } else if !Alive(a.env, 1) {
      MarkedOk(w, a);
    } else {
      AwaitingOk(w, a);
      SettleKeeps(Awaiting(w, a), a, 2);
      KeptIsOk(Awaiting(w, a), Settle(Awaiting(w, a), a, 2).0);
    }
  }

  /** Every call keeps the world in order and reports truthfully, wherever it stops. */
  lemma {:induction false} RunDecisionIsHonest(w: World, a: Ask)
    requires WorldOk(w) && ValidEntries(a.env.meanwhile)
    ensures var (after, o) := RunDecision(w, a); Honest(w, a, after, o) && Progress(w, after)
  {
    if !a.env.readFails && a.request !in w.journal.decisions && !a.env.rowReadFails {
      if IntentOpen(w.rows, a.run) {
        EscalateKeeps(w, a, 0);
        KeptIsOk(w, Escalate(w, a, 0).0);
      } else if !a.env.credentialFails && !a.env.transportFails {
        InvokeIsHonest(w, a);
      }
    }
  }

  /** A call sends, and sends once, exactly when it finds nothing recorded and gets its intent on disk. */
  lemma {:induction false} SendsExactlyWhen(w: World, a: Ask)
    requires WorldOk(w) && ValidEntries(a.env.meanwhile)
    ensures RunDecision(w, a).0.sends == if SendsNow(w, a) then w.sends + [Send(a.run, a.request)] else w.sends
  {
    if !a.env.readFails && a.request !in w.journal.decisions && !a.env.rowReadFails {
      if IntentOpen(w.rows, a.run) {
        EscalateKeeps(w, a, 0);
      } else if !a.env.credentialFails && !a.env.transportFails {
        if a.request.policy != a.policy.id || a.env.markFails || a.run in w.rows {
          InvokeWithoutSend(w, a);
        } else if Alive(a.env, 1) {
          AwaitingOk(w, a);
          SettleKeeps(Awaiting(w, a), a, 2);
        }
      }
    }
  }

  lemma {:induction false} AbandonKeeps(w: World, run: RunId, operator: int, reason: int, now: Instant, fails: bool)
    requires WorldOk(w)
    ensures var after := ReconcileAbandon(w, run, operator, reason, now, fails);
            && Progress(w, after) && after.sends == w.sends && after.journal == w.journal
            && (after != w <==> HasPhase(w.rows, run, NeedsReconciliation) && !fails)
            && (after != w ==> HasPhase(after.rows, run, AbandonedNoOrder))
  {
    var after := ReconcileAbandon(w, run, operator, reason, now, fails);
    forall r | r in after.rows ensures RowOk(after, r) {
      assert RowOk(w, r);
    }
    if HasPhase(w.rows, run, NeedsReconciliation) && !fails {
      assert after.notes[..|w.notes|] == w.notes;
      assert after.rows[run].phase != w.rows[run].phase;
    }
  }

  // ---- whole histories ----

  datatype Event =
    | Called(ask: Ask)
    | Abandoned(run: RunId, operator: int, reason: int, now: Instant, fails: bool)
    | Appended(entry: Entry)

  ghost predicate ValidEvent(e: Event) {
    match e
    case Called(ask) => ValidEntries(ask.env.meanwhile)
    case Abandoned(_, _, _, _, _) => true
    case Appended(entry) => ValidEntry(entry)
  }

  ghost predicate ValidHistory(events: seq<Event>) {
    forall i :: 0 <= i < |events| ==> ValidEvent(events[i])
  }

  function Step(w: World, e: Event): (World, Option<Outcome>) {
    match e
    case Called(ask) => (RunDecision(w, ask).0, Some(RunDecision(w, ask).1))
    case Abandoned(run, operator, reason, now, fails) => (ReconcileAbandon(w, run, operator, reason, now, fails), None)
    case Appended(entry) => (w.(journal := AppendAll(w.journal, [entry])), None)
  }

  /** The world after a history, from two empty stores. */
  function After(events: seq<Event>): World {
    if events == [] then EMPTY else Step(After(events[..|events| - 1]), events[|events| - 1]).0
  }

  function OutcomeAt(events: seq<Event>, i: nat): Option<Outcome>
    requires i < |events|
  {
    Step(After(events[..i]), events[i]).1
  }

  lemma {:induction false} StepProgresses(w: World, e: Event)
    requires WorldOk(w) && ValidEvent(e)
    ensures Progress(w, Step(w, e).0)
  {
    match e
    case Called(ask) => RunDecisionIsHonest(w, ask);
    case Abandoned(run, operator, reason, now, fails) => AbandonKeeps(w, run, operator, reason, now, fails);
    case Appended(entry) =>
      AppendAllKeepsTables(w.journal, [entry]);
      AppendAllExtends(w.journal, [entry]);
      RowsStayOk(w, Step(w, e).0);
  }

  lemma {:induction false} AlwaysOk(events: seq<Event>)
    requires ValidHistory(events)
    ensures WorldOk(After(events))
  {
    if events == [] {
    } else {
      var n := |events| - 1;
      AlwaysOk(events[..n]);
      StepProgresses(After(events[..n]), events[n]);
    }
  }

  lemma {:induction false} CountedOnce(sends: seq<Send>, i: nat)
    requires i < |sends|
    ensures SendCount(sends, sends[i].run) >= 1
  {
    if i == |sends| - 1 {
    } else {
      CountedOnce(sends[..|sends| - 1], i);
    }
  }

  lemma {:induction false} CountedTwice(sends: seq<Send>, i: nat, j: nat)
    requires i < j < |sends| && sends[i].run == sends[j].run
    ensures SendCount(sends, sends[i].run) >= 2
  {
    if j == |sends| - 1 {
      CountedOnce(sends[..j], i);
    } else {
      CountedTwice(sends[..|sends| - 1], i, j);
    }
  }

  /** Over every history, with failures and stops anywhere, no run is sent more than once. */
  lemma {:induction false} AtMostOneSend(events: seq<Event>)
    requires ValidHistory(events)
    ensures var sends := After(events).sends;
            forall i, j :: 0 <= i < j < |sends| ==> sends[i].run != sends[j].run
  {
    AlwaysOk(events);
    var sends := After(events).sends;
    forall i, j | 0 <= i < j < |sends| ensures sends[i].run != sends[j].run {
      if sends[i].run == sends[j].run {
        CountedTwice(sends, i, j);
      }
    }
  }

  lemma {:induction false} NotedOnce(notes: seq<Note>, i: nat)
    requires i < |notes|
    ensures NoteCount(notes, notes[i].run) >= 1
  {
    if i == |notes| - 1 {
    } else {
      NotedOnce(notes[..|notes| - 1], i);
    }
  }

  lemma {:induction false} NotedTwice(notes: seq<Note>, i: nat, j: nat)
    requires i < j < |notes| && notes[i].run == notes[j].run
    ensures NoteCount(notes, notes[i].run) >= 2
  {
    if j == |notes| - 1 {
      NotedOnce(notes[..j], i);
    } else {
      NotedTwice(notes[..|notes| - 1], i, j);
    }
  }

  lemma {:induction false} SomeNote(notes: seq<Note>, run: RunId)
    requires NoteCount(notes, run) > 0
    ensures exists i :: 0 <= i < |notes| && notes[i].run == run
  {
    if notes[|notes| - 1].run == run {
    } else {
      SomeNote(notes[..|notes| - 1], run);
    }
  }

  /** Over every history the abandoned runs are exactly those with an operator's note, each with one. */
  lemma {:induction false} OneNotePerAbandonedRun(events: seq<Event>)
    requires ValidHistory(events)
    ensures var w := After(events);
            && (forall i, j :: 0 <= i < j < |w.notes| ==> w.notes[i].run != w.notes[j].run)
            && forall run :: HasPhase(w.rows, run, AbandonedNoOrder) <==>
                               exists i :: 0 <= i < |w.notes| && w.notes[i].run == run
  {
    AlwaysOk(events);
    var w := After(events);
    forall i, j | 0 <= i < j < |w.notes| ensures w.notes[i].run != w.notes[j].run {
      if w.notes[i].run == w.notes[j].run {
        NotedTwice(w.notes, i, j);
      }
    }
    forall run ensures HasPhase(w.rows, run, AbandonedNoOrder) <==> exists i :: 0 <= i < |w.notes| && w.notes[i].run == run {
      assert NoteCount(w.notes, run) == if HasPhase(w.rows, run, AbandonedNoOrder) then 1 else 0;
      if HasPhase(w.rows, run, AbandonedNoOrder) {
        SomeNote(w.notes, run);
      }
      if i :| 0 <= i < |w.notes| && w.notes[i].run == run {
        NotedOnce(w.notes, i);
      }
    }
  }

  /** What another process files between two calls is there for the next one. */
  lemma {:induction false} OthersAreFiled(events: seq<Event>, entry: Entry, record: Record)
    requires entry.decision == Some(record)
    requires Append(After(events).journal, entry.attempt, entry.decision, entry.fails).Ok?
    ensures ByRequest(After(events + [Appended(entry)]).journal, record.request) == Some(record)
  {
    var more := events + [Appended(entry)];
    assert more[..|more| - 1] == events && [entry][..0] == [];
    assert AppendAll(After(events).journal, []) == After(events).journal;
  }

  lemma {:induction false} ProgressIsTransitive(a: World, b: World, c: World)
    requires Progress(a, b) && Progress(b, c)
    ensures Progress(a, c)
  {}

  /** Whatever is on disk after a prefix of a history is still there, as it was, at the end. */
  lemma {:induction false} NothingIsForgotten(events: seq<Event>, i: nat)
    requires ValidHistory(events) && i <= |events|
    ensures Progress(After(events[..i]), After(events))
    decreases |events|
  {
    AlwaysOk(events);
    if i == |events| {
      assert events[..i] == events;
    } else {
      var n := |events| - 1;
      NothingIsForgotten(events[..n], i);
      assert events[..n][..i] == events[..i];
      AlwaysOk(events[..n]);
      StepProgresses(After(events[..n]), events[n]);
      ProgressIsTransitive(After(events[..i]), After(events[..n]), After(events));
    }
  }

  function RecordOf(o: Option<Outcome>): Option<Record> {
    if o.Some? && (o.value.Decided? || o.value.Resumed?) then Some(o.value.record) else None
  }

  lemma {:induction false} ReportedIsOnFile(events: seq<Event>, i: nat)
    requires ValidHistory(events) && i < |events| && events[i].Called? && RecordOf(OutcomeAt(events, i)).Some?
    ensures OnFile(After(events), events[i].ask.request, RecordOf(OutcomeAt(events, i)).value)
  {
    AlwaysOk(events[..i]);
    assert ValidEvent(events[i]);
    RunDecisionIsHonest(After(events[..i]), events[i].ask);
    NothingIsForgotten(events, i + 1);
    assert events[..i + 1][..i] == events[..i];
  }

  /** Two calls that report a decision for the same request report the same one. */
  lemma {:induction false} OneDecisionPerRequest(events: seq<Event>, i: nat, j: nat)
    requires ValidHistory(events) && i < |events| && j < |events| && events[i].Called? && events[j].Called?
    requires events[i].ask.request == events[j].ask.request
    requires RecordOf(OutcomeAt(events, i)).Some? && RecordOf(OutcomeAt(events, j)).Some?
    ensures RecordOf(OutcomeAt(events, i)) == RecordOf(OutcomeAt(events, j))
  {
    ReportedIsOnFile(events, i);
    ReportedIsOnFile(events, j);
  }

  lemma {:induction false} ConcludedRecordFits(w: World, a: Ask, effects: nat)
    requires Settle(w, a, effects).1.Decided?
    ensures var answer := Judge(a.env.reply, a.request, a.policy);
            && answer.Ok?
            && Settle(w, a, effects).1 == Decided(SuccessRecord(a.request, answer.value, a.policy, a.now))
  {}

  /** A decision just made replays under the policy it was made with. */
  lemma {:induction false} DecidedReplays(w: World, a: Ask)
    requires WorldOk(w) && ValidEntries(a.env.meanwhile) && RunDecision(w, a).1.Decided?
    ensures var (after, o) := RunDecision(w, a); Replay(after.journal, a.request, a.policy) == Ok(o.record)
  {
    RunDecisionIsHonest(w, a);
    SendsExactlyWhen(w, a);
    assert RunDecision(w, a).0.sends != w.sends by { assert |w.sends + [Send(a.run, a.request)]| > |w.sends|; }
    ConcludedRecordFits(Awaiting(w, a), a, 2);
  }

  /** Once decided, replaying returns the same record at the end of any history. */
  lemma {:induction false} DecidedReplaysForever(events: seq<Event>, i: nat)
    requires ValidHistory(events) && i < |events| && events[i].Called?
    requires OutcomeAt(events, i).value.Decided?
    ensures Replay(After(events).journal, events[i].ask.request, events[i].ask.policy)
            == Ok(OutcomeAt(events, i).value.record)
  {
    AlwaysOk(events[..i]);
    assert ValidEvent(events[i]);
    DecidedReplays(After(events[..i]), events[i].ask);
    ReportedIsOnFile(events, i);
    ReplayReads(Step(After(events[..i]), events[i]).0.journal, After(events).journal, events[i].ask.request, events[i].ask.policy);
  }

  lemma {:induction false} ReplayReads(s: Tables, t: Tables, q: Request, policy: Policy)
    requires Replay(s, q, policy).Ok? && ByRequest(t, q) == Some(Replay(s, q, policy).value)
    ensures Replay(t, q, policy) == Replay(s, q, policy)
  {}

  // ---- where a decision comes from ----

  /** The journal takes an attempt with its decision: both are new, or the very ones on file. */
  predicate Takes(t: Tables, attempt: Attempt, record: Record) {
    && (ByRequest(t, record.request).None? || ByRequest(t, record.request) == Some(record))
    && (attempt.id !in t.attempts || t.attempts[attempt.id] == attempt)
  }

  /** Calls of different runs, or at different instants, file their attempts apart. */
  lemma {:induction false} AttemptsAreApart(run: RunId, now: Instant, otherRun: RunId, otherNow: Instant)
    ensures AttemptId(run, now) == AttemptId(otherRun, otherNow) <==> run == otherRun && now == otherNow
  {
    assert AttemptId(run, now)[0] == run && AttemptId(run, now)[1] == now;
  }

  /** The record of an answer: the reply's own selections, response and model, and the request's own terms. */
  predicate RecordOfReply(a: Ask, record: Record)
    requires a.env.reply.Replied? && a.env.reply.payload.Fields?
  {
    var (q, reply) := (a.request, a.env.reply);
    && record.request == q && record.selections == reply.payload.selections && record.response == reply.payload.response
    && record.identity == reply.identity && record.revision == reply.revision
    && record.config == q.config && record.policy == q.policy
    && record.template == q.template && record.templateDigest == q.templateDigest
    && record.startedAt == record.endedAt == a.now && record.id == DecisionId(q, record.selections)
  }

  /** A sent request whose answer is acceptable, taken by the journal, and recorded before the process stops. */
  ghost predicate DecidesNow(w: World, a: Ask) {
    && SendsNow(w, a) && Acceptable(a.env.reply, a.request, a.policy)
    && !a.env.appendFails && !a.env.recordFails && Alive(a.env, 4)
    && forall attempt: Attempt, record: Record ::
         attempt.id == AttemptId(a.run, a.now) && IsSuccess(a, attempt, record) ==>
         Takes(AppendAll(w.journal, a.env.meanwhile), attempt, record)
  }

  /** `attempt` and `record` are what a successful answer leaves. */
  predicate IsSuccess(a: Ask, attempt: Attempt, record: Record) {
    && a.env.reply.Replied? && a.env.reply.payload.Fields? && RecordOfReply(a, record)
    && attempt == Attempt(attempt.id, a.request, Success, Some(record.id), record.response, a.now, a.now)
  }

  lemma {:induction false} SuccessIs(a: Ask, attempt: Attempt, record: Record)
    requires Acceptable(a.env.reply, a.request, a.policy) && a.request.policy == a.policy.id
    ensures var answer := Judge(a.env.reply, a.request, a.policy).value;
            attempt.id == AttemptId(a.run, a.now) && IsSuccess(a, attempt, record) <==>
            attempt == SuccessAttempt(AttemptId(a.run, a.now), a.request, answer, a.now)
            && record == SuccessRecord(a.request, answer, a.policy, a.now)
  {}

  /**
    A call reports a decision exactly when it sends, an acceptable reply comes back, and
    nothing fails after it; the decision is then the reply's own.
   */
  lemma {:induction false} DecidedExactlyWhen(w: World, a: Ask)
    requires WorldOk(w) && ValidEntries(a.env.meanwhile)
    ensures var o := RunDecision(w, a).1;
            && (o.Decided? <==> DecidesNow(w, a))
            && (o.Decided? ==>
                  && a.env.reply.Replied? && a.env.reply.payload.Fields? && RecordOfReply(a, o.record))
  {
    hide Judge, Append, WorldOk, SelectionsFit;
    var o := RunDecision(w, a).1;
    if o.Decided? || DecidesNow(w, a) {
      DecidedSends(w, a);
      DecidedSettles(w, a);
    }
  }

  lemma {:induction false} DecidedSends(w: World, a: Ask)
    requires WorldOk(w) && ValidEntries(a.env.meanwhile)
    ensures RunDecision(w, a).1.Decided? ==> SendsNow(w, a)
    ensures SendsNow(w, a) ==> RunDecision(w, a) == Settle(Awaiting(w, a), a, 2)
  {
    hide Judge, Append, SelectionsFit;
    if !SendsNow(w, a) && Looks(w, a) && !IntentOpen(w.rows, a.run) && !a.env.credentialFails && !a.env.transportFails
       && (a.request.policy != a.policy.id || a.env.markFails || a.run in w.rows) {
      InvokeWithoutSend(w, a);
    }
  }

  lemma {:induction false} DecidedSettles(w: World, a: Ask)
    requires WorldOk(w) && ValidEntries(a.env.meanwhile) && SendsNow(w, a)
    ensures var o := Settle(Awaiting(w, a), a, 2).1;
            && (o.Decided? <==> DecidesNow(w, a))
            && (o.Decided? ==>
                  && a.env.reply.Replied? && a.env.reply.payload.Fields? && RecordOfReply(a, o.record))
  {
    hide Append, SelectionsFit;
    var sent, answer := Awaiting(w, a), Judge(a.env.reply, a.request, a.policy);
    AwaitingOk(w, a);
    if answer.Ok? {
      var attempt := SuccessAttempt(AttemptId(a.run, a.now), a.request, answer.value, a.now);
      var record := SuccessRecord(a.request, answer.value, a.policy, a.now);
      SuccessIs(a, attempt, record);
      SuccessIsPaired(AttemptId(a.run, a.now), a.request, answer.value, a.policy, a.now);
      DecisionAcceptedIff(sent.journal, attempt, record);
      AppendFails(sent.journal, attempt, Some(record));
      SuccessIsUnique(w, a, attempt, record);
    }
  }

  lemma {:induction false} AppendFails(t: Tables, attempt: Attempt, d: Option<Record>)
    ensures Append(t, attempt, d, true).Err?
  {}

  lemma {:induction false} SuccessIsUnique(w: World, a: Ask, attempt: Attempt, record: Record)
    requires Acceptable(a.env.reply, a.request, a.policy) && a.request.policy == a.policy.id
    requires attempt.id == AttemptId(a.run, a.now) && IsSuccess(a, attempt, record)
    ensures (forall x: Attempt, y: Record :: x.id == AttemptId(a.run, a.now) && IsSuccess(a, x, y) ==>
               Takes(AppendAll(w.journal, a.env.meanwhile), x, y))
            <==> Takes(AppendAll(w.journal, a.env.meanwhile), attempt, record)
  {
    hide Takes, SelectionsFit;
    forall x: Attempt, y: Record | x.id == AttemptId(a.run, a.now) && IsSuccess(a, x, y)
      ensures x == attempt && y == record
    {
      SuccessIs(a, x, y);
      SuccessIs(a, attempt, record);
    }
  }

  /** An answer that is not acceptable is filed as a failed attempt, under what is wrong with it, and decides nothing. */
  lemma {:induction false} FailureIsFiled(w: World, a: Ask)
    requires WorldOk(w) && ValidEntries(a.env.meanwhile) && SendsNow(w, a)
    requires !Acceptable(a.env.reply, a.request, a.policy) && !a.env.appendFails && Alive(a.env, 2)
    requires AttemptId(a.run, a.now) !in AppendAll(w.journal, a.env.meanwhile).attempts
    ensures var (sent, id) := (AppendAll(w.journal, a.env.meanwhile), AttemptId(a.run, a.now));
            exists status :: FiledUnder(a.env.reply, a.request, a.policy, status)
              && RunDecision(w, a).0.journal ==
                 Tables(sent.attempts[id := Attempt(id, a.request, status, None, None, a.now, a.now)], sent.decisions)
  {
    hide Judge, SelectionsFit;
    DecidedSends(w, a);
    var sent := Awaiting(w, a);
    var status := Judge(a.env.reply, a.request, a.policy).error;
    assert FiledUnder(a.env.reply, a.request, a.policy, status);
  }

  /** A failure before the send names its cause. */
  lemma {:induction false} PreSendCode(w: World, a: Ask)
    requires WorldOk(w) && ValidEntries(a.env.meanwhile) && RunDecision(w, a).1.FailedPreSend?
    ensures var code := RunDecision(w, a).1.code;
            && (code == Credential <==> a.env.credentialFails)
            && (!a.env.credentialFails ==>
                  && (code == Provider(IdentityPolicy) <==> a.request.policy != a.policy.id && FilesFailure(w, a))
                  && (code != Provider(IdentityPolicy) ==> code == Provider(AuditPersistence)))
  {
    hide Judge, SelectionsFit;
    if SendsNow(w, a) {
      AwaitingOk(w, a);
      SettleKeeps(Awaiting(w, a), a, 2);
      DecidedSends(w, a);
    }
  }

  /** The journal takes the failed attempt of this call. */
  predicate FilesFailure(w: World, a: Ask) {
    var id := AttemptId(a.run, a.now);
    && !a.env.appendFails
    && (id in w.journal.attempts ==>
          w.journal.attempts[id] == Attempt(id, a.request, IdentityPolicy, None, None, a.now, a.now))
  }

  // ---- what each transition of the store writes ----

  /** No row but that of `run` is written, and that one is there. */
  ghost predicate OnlyRow(before: Rows, after: Rows, run: RunId) {
    && after.Keys == before.Keys + {run}
    && forall other :: other in before && other != run ==> after[other] == before[other]
  }

  /** A send intent is taken for a new run, or for the same request while its intent is open. */
  lemma {:induction false} IntentTakenIff(rows: Rows, run: RunId, q: Request, fails: bool)
    ensures match MarkSendIntent(rows, run, q, fails)
            case Ok(after) =>
              && !fails && OnlyRow(rows, after, run)
              && after[run] == Invocation(q, SendIntentRecorded, after[run].decision)
              && if run in rows then after == rows else after[run].decision.None?
            case Err(error) =>
              error == if fails then WriteFailed else if run in rows && rows[run].request != q then FingerprintConflict else AlreadyAdvanced
    ensures MarkSendIntent(rows, run, q, fails).Ok? <==>
            !fails && (run in rows ==> rows[run].request == q && rows[run].phase == SendIntentRecorded)
  {
    if run in rows && rows[run].request == q && rows[run].phase == SendIntentRecorded {
      assert rows.Keys + {run} == rows.Keys;
    }
  }

  /** A decision is recorded on an open intent, or is the one already recorded. */
  lemma {:induction false} DecisionTakenIff(rows: Rows, run: RunId, id: DecisionId, fails: bool)
    ensures match RecordDecision(rows, run, id, fails)
            case Ok(after) =>
              && !fails && run in rows && OnlyRow(rows, after, run)
              && if rows[run].phase == DecisionRecorded then after == rows && rows[run].decision == Some(id)
                 else rows[run].phase == SendIntentRecorded && after[run] == Invocation(rows[run].request, DecisionRecorded, Some(id))
            case Err(error) =>
              error == (if fails then WriteFailed
                        else if run !in rows then NoSendIntent
                        else if rows[run].phase == DecisionRecorded then DecisionIdentityConflict else CannotRecord)
    ensures RecordDecision(rows, run, id, fails).Ok? <==>
            && !fails && run in rows
            && (rows[run].phase == SendIntentRecorded || (rows[run].phase == DecisionRecorded && rows[run].decision == Some(id)))
  {
    if run in rows {
      assert rows.Keys + {run} == rows.Keys;
    }
  }

  /** Escalation moves an open intent, leaves every other mark, and needs a mark to be there. */
  lemma {:induction false} EscalationTakenIff(rows: Rows, run: RunId, fails: bool)
    ensures match MarkNeedsReconciliation(rows, run, fails)
            case Ok(after) =>
              && !fails && run in rows && OnlyRow(rows, after, run)
              && after[run] == if rows[run].phase == SendIntentRecorded
                               then Invocation(rows[run].request, NeedsReconciliation, rows[run].decision) else rows[run]
            case Err(error) => (fails || run !in rows) && error == if fails then WriteFailed else NoSendIntent
  {
    if run in rows {
      assert rows.Keys + {run} == rows.Keys;
    }
  }

  /** Abandoning takes a run that needs reconciliation, and no other. */
  lemma {:induction false} AbandonmentTakenIff(rows: Rows, run: RunId, fails: bool)
    ensures match Abandon(rows, run, fails)
            case Ok(after) =>
              && !fails && run in rows && rows[run].phase == NeedsReconciliation && OnlyRow(rows, after, run)
              && after[run] == Invocation(rows[run].request, AbandonedNoOrder, rows[run].decision)
            case Err(error) =>
              && (fails || run !in rows || rows[run].phase != NeedsReconciliation)
              && error == if fails then WriteFailed else if run !in rows then UnknownInvocation else NotReconcilable
  {
    if run in rows {
      assert rows.Keys + {run} == rows.Keys;
    }
  }

  // ---- where a call can stop ----

  /** The same call, with the process stopping after `k` durable effects of its own. */
  function StoppedAfter(a: Ask, k: nat): Ask {
    a.(env := a.env.(stop := Some(k)))
  }

  function Unstopped(a: Ask): Ask {
    a.(env := a.env.(stop := None))
  }

  /** At most one durable effect: one write of a row, one append, or one send with what others append meanwhile. */
  ghost predicate OneEffect(before: World, after: World, a: Ask) {
    || after == before.(rows := after.rows)
    || after == before.(journal := after.journal)
    || after == Sent(before, a, before.rows)
  }

  /** A piece of a call that starts after `done` effects: cut at `k`, at `k + 1`, and not at all. */
  ghost predicate Cut(now: (World, Outcome), next: (World, Outcome), full: (World, Outcome), w: World, a: Ask,
                      done: nat, most: nat, k: nat) {
    && (k <= done ==> now == (w, Stopped))
    && OneEffect(now.0, next.0, a)
    && (!now.1.Stopped? ==> now == full)
    && (k > most ==> !now.1.Stopped?)
    && !full.1.Stopped?
  }

  lemma {:induction false} EscalateIsCut(w: World, a: Ask, done: nat, k: nat)
    ensures Cut(Escalate(w, StoppedAfter(a, k), done), Escalate(w, StoppedAfter(a, k + 1), done), Escalate(w, Unstopped(a), done),
                w, a, done, done + 1, k)
  {
    hide MarkNeedsReconciliation;
  }

  lemma {:induction false} BrokenIsCut(w: World, a: Ask, done: nat, status: Status, k: nat)
    ensures Cut(Broken(w, StoppedAfter(a, k), done, status), Broken(w, StoppedAfter(a, k + 1), done, status),
                Broken(w, Unstopped(a), done, status), w, a, done, done + 1, k)
  {
    hide Escalate;
    EscalateIsCut(w, a, done, k);
  }

  lemma {:induction false} FailIsCut(w: World, a: Ask, done: nat, status: Status, k: nat)
    ensures Cut(Fail(w, StoppedAfter(a, k), done, status), Fail(w, StoppedAfter(a, k + 1), done, status),
                Fail(w, Unstopped(a), done, status), w, a, done, done + 2, k)
  {
    hide Broken, Append, FailedAttempt;
    BrokenIsCut(w, a, done, AuditPersistence, k);
    var filed := Append(w.journal, FailedAttempt(AttemptId(a.run, a.now), a.request, status, a.now), None, a.env.appendFails);
    if filed.Ok? {
      BrokenIsCut(w.(journal := filed.value), a, done + 1, status, k);
      BrokenIsCut(w.(journal := filed.value), a, done + 1, status, k + 1);
    }
  }

  lemma {:induction false} ConcludeIsCut(w: World, a: Ask, done: nat, record: Record, k: nat)
    ensures Cut(Conclude(w, StoppedAfter(a, k), done, record), Conclude(w, StoppedAfter(a, k + 1), done, record),
                Conclude(w, Unstopped(a), done, record), w, a, done, done + 1, k)
  {
    hide RecordDecision;
  }

  /** A piece that is one effect, and then another piece. */
  lemma {:induction false} CutLater(now: (World, Outcome), next: (World, Outcome), full: (World, Outcome), w: World, w1: World,
                                    a: Ask, done: nat, most: nat, k: nat)
    requires Cut(now, next, full, w1, a, done + 1, most, k) && OneEffect(w, w1, a) && done <= most
    requires k <= done ==> next == (w1, Stopped)
    ensures Cut(if k <= done then (w, Stopped) else now, if k + 1 <= done then (w, Stopped) else next, full, w, a, done, most, k)
  {
    hide Sent;
  }

  /** What the journal says to an acceptable answer. */
  function FiledAnswer(w: World, a: Ask): Result<Tables, JournalError>
    requires Judge(a.env.reply, a.request, a.policy).Ok?
  {
    var answer := Judge(a.env.reply, a.request, a.policy).value;
    Append(w.journal, SuccessAttempt(AttemptId(a.run, a.now), a.request, answer, a.now),
           Some(SuccessRecord(a.request, answer, a.policy, a.now)), a.env.appendFails)
  }

  lemma {:induction false} AnsweredGoesOn(w: World, a: Ask, done: nat)
    requires Judge(a.env.reply, a.request, a.policy).Ok?
    ensures var record := SuccessRecord(a.request, Judge(a.env.reply, a.request, a.policy).value, a.policy, a.now);
            Settle(w, a, done) ==
            match FiledAnswer(w, a)
            case Err(_) => Broken(w, a, done, AuditPersistence)
            case Ok(journal) => if Alive(a.env, done) then Conclude(w.(journal := journal), a, done + 1, record) else (w, Stopped)
  {
    hide Broken, Conclude, Judge, Append, SuccessAttempt, SuccessRecord;
  }

  lemma {:induction false} AnsweredIsCut(w: World, a: Ask, done: nat, k: nat)
    requires Judge(a.env.reply, a.request, a.policy).Ok?
    ensures Cut(Settle(w, StoppedAfter(a, k), done), Settle(w, StoppedAfter(a, k + 1), done), Settle(w, Unstopped(a), done),
                w, a, done, done + 2, k)
  {
    hide Broken, Conclude, Judge, FiledAnswer, SuccessRecord, Cut, OneEffect, Settle;
    var record := SuccessRecord(a.request, Judge(a.env.reply, a.request, a.policy).value, a.policy, a.now);
    SameAnswer(w, a, k);
    AnsweredGoesOn(w, StoppedAfter(a, k), done);
    AnsweredGoesOn(w, StoppedAfter(a, k + 1), done);
    AnsweredGoesOn(w, Unstopped(a), done);
    match FiledAnswer(w, a)
    case Ok(journal) =>
      var w1 := w.(journal := journal);
      ConcludeIsCut(w1, a, done + 1, record, k);
      CutAtOnce(w1, a, done + 1, record, k + 1);
      JournalIsOne(w, w1, a);
      CutLater(Conclude(w1, StoppedAfter(a, k), done + 1, record), Conclude(w1, StoppedAfter(a, k + 1), done + 1, record),
               Conclude(w1, Unstopped(a), done + 1, record), w, w1, a, done, done + 2, k);
    case Err(_) =>
      BrokenIsCut(w, a, done, AuditPersistence, k);
      CutSooner(Broken(w, StoppedAfter(a, k), done, AuditPersistence), Broken(w, StoppedAfter(a, k + 1), done, AuditPersistence),
                Broken(w, Unstopped(a), done, AuditPersistence), w, a, done, done + 1, k);
  }

  lemma {:induction false} SameAnswer(w: World, a: Ask, k: nat)
    requires Judge(a.env.reply, a.request, a.policy).Ok?
    ensures FiledAnswer(w, StoppedAfter(a, k)) == FiledAnswer(w, StoppedAfter(a, k + 1)) == FiledAnswer(w, Unstopped(a)) == FiledAnswer(w, a)
  {
    hide Judge, Append, SuccessAttempt, SuccessRecord;
  }

  lemma {:induction false} CutAtOnce(w: World, a: Ask, done: nat, record: Record, k: nat)
    ensures k <= done ==> Conclude(w, StoppedAfter(a, k), done, record) == (w, Stopped)
  {
    hide RecordDecision;
  }

  lemma {:induction false} JournalIsOne(w: World, after: World, a: Ask)
    requires after == w.(journal := after.journal)
    ensures OneEffect(w, after, a)
  {}

  lemma {:induction false} CutSooner(now: (World, Outcome), next: (World, Outcome), full: (World, Outcome), w: World, a: Ask,
                                     done: nat, most: nat, k: nat)
    requires Cut(now, next, full, w, a, done, most, k)
    ensures Cut(now, next, full, w, a, done, most + 1, k)
  {
    hide OneEffect;
  }

  lemma {:induction false} SettleIsCut(w: World, a: Ask, done: nat, k: nat)
    ensures Cut(Settle(w, StoppedAfter(a, k), done), Settle(w, StoppedAfter(a, k + 1), done), Settle(w, Unstopped(a), done),
                w, a, done, done + 2, k)
  {
    hide Fail, Broken, Conclude, Judge, Append, SuccessAttempt, SuccessRecord, Cut;
    match Judge(a.env.reply, a.request, a.policy)
    case Err(status) => FailIsCut(w, a, done, status, k);
    case Ok(_) => AnsweredIsCut(w, a, done, k);
  }

  lemma {:induction false} InvokeIsCut(w: World, a: Ask, k: nat)
    ensures Cut(Invoke(w, StoppedAfter(a, k)), Invoke(w, StoppedAfter(a, k + 1)), Invoke(w, Unstopped(a)), w, a, 0, 4, k)
  {
    hide Fail, Settle, MarkSendIntent, AppendAll;
    FailIsCut(w, a, 0, IdentityPolicy, k);
    FailIsCut(w, a, 0, AuditPersistence, k);
    var marked := MarkSendIntent(w.rows, a.run, a.request, a.env.markFails);
    if marked.Ok? {
      var sent := Sent(w, a, marked.value);
      assert sent == Sent(w.(rows := marked.value), a, marked.value);
      SettleIsCut(sent, a, 2, k);
      SettleIsCut(sent, a, 2, k + 1);
    }
  }

  /**
    Stopping cuts a call off between two of its effects: stopped at once it has done
    nothing, one effect more is one write more, a call not stopped in time ends as it
    would have, and none has more than four effects.
   */
  lemma {:induction false} StopsBetweenEffects(w: World, a: Ask, k: nat)
    ensures RunDecision(w, StoppedAfter(a, 0)) == (w, Stopped)
    ensures Cut(RunDecision(w, StoppedAfter(a, k)), RunDecision(w, StoppedAfter(a, k + 1)), RunDecision(w, Unstopped(a)),
                w, a, 0, 4, k)
  {
    hide Escalate, Invoke;
    EscalateIsCut(w, a, 0, 0);
    EscalateIsCut(w, a, 0, k);
    InvokeIsCut(w, a, 0);
    InvokeIsCut(w, a, k);
  }

  // ---- after a stop ----

  /**
    A run that left a mark is never sent again, whatever fails: it resumes, is escalated
    or is refused, exactly in these cases, and otherwise the call raises.
   */
  lemma {:induction false} MarkedRunNeverSends(w: World, a: Ask)
    requires WorldOk(w) && ValidEntries(a.env.meanwhile) && a.run in w.rows && a.env.stop.None?
    ensures var ((after, o), e) := (RunDecision(w, a), a.env);
            && after.sends == w.sends
            && (o.Resumed? <==> !e.readFails && a.request in w.journal.decisions)
            && (o == Unresolved <==> Looks(w, a) && IntentOpen(w.rows, a.run) && !e.reconcileFails)
            && (o.FailedPreSend? <==> Looks(w, a) && !IntentOpen(w.rows, a.run)
                                      && (e.credentialFails || (!e.transportFails && !e.rereadFails)))
            && (o == Raised <==> !o.Resumed? && o != Unresolved && !o.FailedPreSend?)
  {
    SendsExactlyWhen(w, a);
    RunDecisionIsHonest(w, a);
    if Looks(w, a) && !IntentOpen(w.rows, a.run) && !a.env.credentialFails && !a.env.transportFails {
      InvokeWithoutSend(w, a);
      FailAnswers(w, a, 0, IdentityPolicy);
      FailAnswers(w, a, 0, AuditPersistence);
    }
  }

  /** The call finds no decision and gets to read the run's row. */
  predicate Looks(w: World, a: Ask) {
    !a.env.readFails && a.request !in w.journal.decisions && !a.env.rowReadFails
  }

  lemma {:induction false} FailAnswers(w: World, a: Ask, effects: nat, status: Status)
    requires a.env.stop.None?
    ensures Fail(w, a, effects, status).1 == Raised <==>
            a.env.rereadFails || (IntentOpen(w.rows, a.run) && a.env.reconcileFails)
    ensures Fail(w, a, effects, status).1 != Stopped
  {}

  /** The reply holds a decision, and the journal takes it. */
  predicate Accepted(w: World, a: Ask) {
    var answer := Judge(a.env.reply, a.request, a.policy);
    && answer.Ok?
    && Append(w.journal, SuccessAttempt(AttemptId(a.run, a.now), a.request, answer.value, a.now),
              Some(SuccessRecord(a.request, answer.value, a.policy, a.now)), a.env.appendFails).Ok?
  }

  /** Exactly when a call that is not stopped raises. */
  predicate RaisesNow(w: World, a: Ask) {
    if a.env.readFails then true
    else if a.request in w.journal.decisions then false
    else if a.env.rowReadFails then true
    else if IntentOpen(w.rows, a.run) then a.env.reconcileFails
    else if a.env.credentialFails then false
    else if a.env.transportFails then true
    else if !SendsNow(w, a) then a.env.rereadFails
    else if Accepted(Awaiting(w, a), a) then a.env.recordFails
    else a.env.rereadFails || a.env.reconcileFails
  }

  lemma {:induction false} RaisesExactlyWhen(w: World, a: Ask)
    requires a.env.stop.None?
    ensures RunDecision(w, a).1 == Raised <==> RaisesNow(w, a)
  {
    hide Append, Judge;
    FailAnswers(w, a, 0, IdentityPolicy);
    FailAnswers(w, a, 0, AuditPersistence);
    if a.run !in w.rows {
      SettleRaises(Awaiting(w, a), a);
    }
  }

  lemma {:induction false} SettleRaises(w: World, a: Ask)
    requires a.env.stop.None? && a.run in w.rows && w.rows[a.run] == Invocation(a.request, SendIntentRecorded, None)
    ensures Settle(w, a, 2).1 == Raised <==>
            if Accepted(w, a) then a.env.recordFails else a.env.rereadFails || a.env.reconcileFails
  {
    match Judge(a.env.reply, a.request, a.policy)
    case Err(status) => FailAnswers(w, a, 2, status);
    case Ok(_) =>
  }

  /**
    A stop between storing the decision and marking the run: asking again returns the
    stored record, and leaves the run's own mark at the send intent.
   */
  lemma {:induction false} ResumedLeavesTheIntentOpen(w: World, a: Ask, again: Ask)
    requires WorldOk(w) && ValidEntries(a.env.meanwhile) && SendsNow(w, a)
    requires a.env.meanwhile == [] && !a.env.appendFails && AttemptId(a.run, a.now) !in w.journal.attempts
    requires Judge(a.env.reply, a.request, a.policy).Ok? && a.env.stop == Some(3)
    requires again == a.(env := a.env.(stop := None))
    ensures var (stopped, first) := RunDecision(w, a);
            var (after, second) := RunDecision(stopped, again);
            && first == Stopped && second.Resumed? && after == stopped
            && HasPhase(after.rows, a.run, SendIntentRecorded)
  {
    var answer := Judge(a.env.reply, a.request, a.policy).value;
    var sent := Awaiting(w, a);
    assert sent.journal == w.journal;
    var record := SuccessRecord(a.request, answer, a.policy, a.now);
    SuccessIsPaired(AttemptId(a.run, a.now), a.request, answer, a.policy, a.now);
    assert Append(sent.journal, SuccessAttempt(AttemptId(a.run, a.now), a.request, answer, a.now), Some(record), false).Ok?;
  }

  /** A call that resumes changes nothing: a send intent open before it is open after it, whichever run decided. */
  lemma {:induction false} ResumedKeepsTheRow(w: World, a: Ask)
    requires WorldOk(w) && ValidEntries(a.env.meanwhile) && RunDecision(w, a).1.Resumed?
    ensures RunDecision(w, a).0 == w && OnFile(w, a.request, RunDecision(w, a).1.record)
    ensures HasPhase(RunDecision(w, a).0.rows, a.run, SendIntentRecorded) <==> HasPhase(w.rows, a.run, SendIntentRecorded)
  {
    RunDecisionIsHonest(w, a);
  }

  /** A call moves no other run's mark. */
  lemma {:induction false} OthersStand(w: World, a: Ask, run: RunId)
    requires run != a.run
    ensures var rows := RunDecision(w, a).0.rows;
            (run in rows <==> run in w.rows) && (run in rows ==> rows[run] == w.rows[run])
  {
    hide Append, Judge, AppendAll, SuccessRecord, SuccessAttempt, FailedAttempt, AttemptId;
  }

  /** Every call for the run asks for the same request. */
  ghost predicate AsksOnly(events: seq<Event>, run: RunId, q: Request) {
    forall i :: 0 <= i < |events| && events[i].Called? && events[i].ask.run == run ==> events[i].ask.request == q
  }

  ghost predicate Stuck(w: World, run: RunId, q: Request) {
    HasPhase(w.rows, run, SendIntentRecorded) && q in w.journal.decisions
  }

  /**
    A run stopped after its decision was stored keeps its open send intent for good:
    calls for it only resume, no operator can abandon it, nothing else moves its mark.
   */
  lemma {:induction false} StuckForGood(before: seq<Event>, after: seq<Event>, run: RunId, q: Request)
    requires ValidHistory(before) && ValidHistory(after) && AsksOnly(after, run, q)
    requires Stuck(After(before), run, q)
    ensures Stuck(After(before + after), run, q)
  {
    if after == [] {
      assert before + after == before;
    } else {
      var n := |after| - 1;
      StuckForGood(before, after[..n], run, q);
      assert (before + after)[..|before + after| - 1] == before + after[..n];
      AlwaysOk(before + after[..n]);
      StepProgresses(After(before + after[..n]), after[n]);
      StaysStuck(After(before + after[..n]), after[n], run, q);
    }
  }

  lemma {:induction false} StaysStuck(w: World, e: Event, run: RunId, q: Request)
    requires Stuck(w, run, q) && Progress(w, Step(w, e).0)
    requires e.Called? && e.ask.run == run ==> e.ask.request == q
    ensures Stuck(Step(w, e).0, run, q)
  {
    hide WorldOk, RowsAdvance, AppendAll;
    if e.Called? && e.ask.run != run {
      hide RunDecision;
      OthersStand(w, e.ask, run);
    }
  }
}
