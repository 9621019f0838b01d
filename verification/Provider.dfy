/**
  Asking the model for a decision and recording the answer, and replaying a recorded one.
  (src/stock_agent/strategies/llm_provider.py.)
 */
module Provider {
  import opened Common
  import opened Journal

  datatype Policy = Policy(id: int, identity: int, revision: int)

  /** The payload of a reply once decoded: not of the expected shape, or its fields. */
  datatype Payload = Malformed | Fields(request: Request, selections: seq<Selection>, response: Option<int>)

  /** What the transport does with a request. */
  datatype Reply =
    | TimedOut
    | TransportFailed
    | Replied(identity: int, revision: int, payload: Payload)

  datatype Answer = Answer(selections: seq<Selection>, response: Option<int>)

  predicate SameSymbols(selections: seq<Selection>, q: Request) {
    && |selections| == |q.candidates|
    && forall i :: 0 <= i < |selections| ==> selections[i].symbol == q.candidates[i].symbol
  }

  /** One selection per candidate, in order, with an action the candidate allows. */
  predicate SelectionsFit(selections: seq<Selection>, q: Request) {
    && SameSymbols(selections, q)
    && forall i :: 0 <= i < |selections| ==> selections[i].action in q.candidates[i].actions
  }

  /** What the source asks of a selection, candidate by candidate. */
  ghost predicate Allowed(selections: seq<Selection>, q: Request) {
    && |selections| == |q.candidates|
    && forall i :: 0 <= i < |selections| ==>
         selections[i].symbol == q.candidates[i].symbol && selections[i].action in q.candidates[i].actions
  }

  /** A reply of the very model asked for, to this very request, with one allowed selection per candidate. */
  ghost predicate Acceptable(reply: Reply, q: Request, policy: Policy) {
    && reply.Replied? && reply.identity == policy.identity && reply.revision == policy.revision
    && reply.payload.Fields? && reply.payload.request == q && Allowed(reply.payload.selections, q)
  }

  /** The status an unacceptable reply is filed under: the first thing found wrong with it. */
  ghost predicate FiledUnder(reply: Reply, q: Request, policy: Policy, status: Status) {
    match status
    case Timeout => reply.TimedOut?
    case Transport => reply.TransportFailed?
    case IdentityPolicy => reply.Replied? && (reply.identity != policy.identity || reply.revision != policy.revision)
    case Schema =>
      reply.Replied? && reply.identity == policy.identity && reply.revision == policy.revision && reply.payload.Malformed?
    case Envelope =>
      && reply.Replied? && reply.identity == policy.identity && reply.revision == policy.revision
      && reply.payload.Fields? && !(reply.payload.request == q && Allowed(reply.payload.selections, q))
    case _ => false
  }

  /** The decision contained in a reply, or the status its attempt is filed under. */
  function Judge(reply: Reply, q: Request, policy: Policy): (r: Result<Answer, Status>)
    ensures r.Ok? <==> Acceptable(reply, q, policy)
    ensures r.Ok? ==> r.value == Answer(reply.payload.selections, reply.payload.response)
    ensures r.Err? ==> FiledUnder(reply, q, policy, r.error)
  {
    match reply
    case TimedOut => Err(Timeout)
    case TransportFailed => Err(Transport)
    case Replied(identity, revision, payload) =>
      if identity != policy.identity || revision != policy.revision then Err(IdentityPolicy)
      else match payload
        case Malformed => Err(Schema)
        case Fields(request, selections, response) =>
          if request != q || !SameSymbols(selections, q) then Err(Envelope)
          else if !SelectionsFit(selections, q) then Err(Envelope)
          else Ok(Answer(selections, response))
  }

  function FailedAttempt(id: Id, q: Request, status: Status, now: Instant): Attempt {
    Attempt(id, q, status, None, None, now, now)
  }

  function SuccessRecord(q: Request, answer: Answer, policy: Policy, now: Instant): Record {
    Record(DecisionId(q, answer.selections), q, answer.selections, q.config, q.policy, q.template, q.templateDigest,
           policy.identity, policy.revision, answer.response, now, now)
  }

  function SuccessAttempt(id: Id, q: Request, answer: Answer, now: Instant): Attempt {
    Attempt(id, q, Success, Some(DecisionId(q, answer.selections)), answer.response, now, now)
  }

  lemma {:induction false} SuccessIsPaired(id: Id, q: Request, answer: Answer, policy: Policy, now: Instant)
    ensures ValidAttempt(SuccessAttempt(id, q, answer, now)) && ValidRecord(SuccessRecord(q, answer, policy, now))
    ensures Paired(SuccessAttempt(id, q, answer, now), Some(SuccessRecord(q, answer, policy, now)))
  {}

  /** A record made for this request, under this policy, by the model the policy names. */
  ghost predicate Replayable(record: Record, q: Request, policy: Policy) {
    && record.config == q.config && record.template == q.template && record.templateDigest == q.templateDigest
    && q.policy == policy.id == record.policy
    && record.identity == policy.identity && record.revision == policy.revision
    && Allowed(record.selections, q)
  }

  /** Why a request does not replay: no record or one of another request, another model, or unfit selections. */
  ghost predicate ReplayFails(found: Option<Record>, q: Request, policy: Policy, status: Status) {
    if found.None? then status == Conflict
    else
      var r := found.value;
      var sameRequest := (r.config, r.template, r.templateDigest) == (q.config, q.template, q.templateDigest);
      var sameModel := q.policy == policy.id == r.policy && (r.identity, r.revision) == (policy.identity, policy.revision);
      match status
      case Conflict => !sameRequest
      case IdentityPolicy => sameRequest && !sameModel
      case Envelope => sameRequest && sameModel && !Allowed(r.selections, q)
      case _ => false
  }

  /** Answering from the journal alone, under the same checks the answer passed when it was recorded. */
  function Replay(t: Tables, q: Request, policy: Policy): (r: Result<Record, Status>)
    ensures r.Ok? <==> ByRequest(t, q).Some? && Replayable(ByRequest(t, q).value, q, policy)
    ensures r.Ok? ==> ByRequest(t, q) == Some(r.value)
    ensures r.Err? ==> ReplayFails(ByRequest(t, q), q, policy, r.error)
  {
    match ByRequest(t, q)
    case None => Err(Conflict)
    case Some(record) =>
      if record.config != q.config || record.template != q.template || record.templateDigest != q.templateDigest
      then Err(Conflict)
      else if q.policy != policy.id || record.policy != policy.id
              || record.identity != policy.identity || record.revision != policy.revision
      then Err(IdentityPolicy)
      else if !SelectionsFit(record.selections, q) then Err(Envelope)
      else Ok(record)
  }

  /** Recording one reply: the tables afterwards, and the decision or the failure reported. */
  function Recorded(t: Tables, id: Id, q: Request, policy: Policy, reply: Reply, now: Instant, fails: bool)
    : (r: (Tables, Result<Record, Status>))
  {
    if q.policy != policy.id then FileFailure(t, FailedAttempt(id, q, IdentityPolicy, now), IdentityPolicy, fails)
    else match Judge(reply, q, policy)
      case Err(status) => FileFailure(t, FailedAttempt(id, q, status, now), status, fails)
      case Ok(answer) =>
        var record := SuccessRecord(q, answer, policy, now);
        match Append(t, SuccessAttempt(id, q, answer, now), Some(record), fails)
        case Err(_) => (t, Err(AuditPersistence))
        case Ok(after) => (after, Ok(record))
  }

  function FileFailure(t: Tables, attempt: Attempt, status: Status, fails: bool): (Tables, Result<Record, Status>) {
    match Append(t, attempt, None, fails)
    case Err(_) => (t, Err(AuditPersistence))
    case Ok(after) => (after, Err(status))
  }

  /**
    What recording a reply reports and writes. A decision is reported exactly when the
    policy is the request's, the reply acceptable, and the journal takes it; otherwise the
    fault found first is on file as a failed attempt, or nothing is and the audit failed.
   */
  lemma {:induction false} RecordedExactlyWhen(t: Tables, id: Id, q: Request, policy: Policy, reply: Reply, now: Instant,
                                               fails: bool)
    requires TablesOk(t)
    ensures var (after, r) := Recorded(t, id, q, policy, reply, now, fails);
            match r
            case Ok(record) =>
              && q.policy == policy.id && Acceptable(reply, q, policy) && !fails
              && record.request == q && record.selections == reply.payload.selections && record.response == reply.payload.response
              && record.identity == reply.identity && record.revision == reply.revision
              && after.decisions == t.decisions[q := record] && id in after.attempts
              && after.attempts == t.attempts[id := after.attempts[id]]
              && BelongTogether(after.attempts[id], Some(record)) && (q in t.decisions ==> t.decisions[q] == record)
            case Err(status) =>
              && after.decisions == t.decisions
              && (status != AuditPersistence ==>
                    && (if q.policy != policy.id then status == IdentityPolicy else FiledUnder(reply, q, policy, status))
                    && after.attempts == t.attempts[id := Attempt(id, q, status, None, None, now, now)]
                    && (id in t.attempts ==> after.attempts == t.attempts))
              && (status == AuditPersistence ==>
                    && after == t
                    && (fails || id in t.attempts || q in t.decisions))
  {
    if q.policy == policy.id && Judge(reply, q, policy).Ok? {
      var answer := Judge(reply, q, policy).value;
      SuccessIsPaired(id, q, answer, policy, now);
      AppendedExactlyWhen(t, SuccessAttempt(id, q, answer, now), Some(SuccessRecord(q, answer, policy, now)), fails);
    } else {
      var status := if q.policy != policy.id then IdentityPolicy else Judge(reply, q, policy).error;
      AppendedExactlyWhen(t, FailedAttempt(id, q, status, now), None, fails);
    }
  }

  /** Any later journal: what an arbitrary sequence of appends leaves behind. */
  datatype Entry = Entry(attempt: Attempt, decision: Option<Record>, fails: bool)

  ghost predicate ValidEntry(e: Entry) {
    ValidAttempt(e.attempt) && (e.decision.Some? ==> ValidRecord(e.decision.value))
  }

  ghost predicate ValidEntries(entries: seq<Entry>) {
    forall i :: 0 <= i < |entries| ==> ValidEntry(entries[i])
  }

  function AppendAll(t: Tables, entries: seq<Entry>): Tables {
    if entries == [] then t
    else
      var before, e := AppendAll(t, entries[..|entries| - 1]), entries[|entries| - 1];
      match Append(before, e.attempt, e.decision, e.fails) case Ok(after) => after case Err(_) => before
  }

  lemma {:induction false} AppendAllExtends(t: Tables, entries: seq<Entry>)
    ensures Extends(AppendAll(t, entries), t)
  {
    if entries == [] {
    } else {
      var e := entries[|entries| - 1];
      AppendAllExtends(t, entries[..|entries| - 1]);
      AppendExtends(AppendAll(t, entries[..|entries| - 1]), e.attempt, e.decision, e.fails);
    }
  }

  lemma {:induction false} AppendAllKeepsTables(t: Tables, entries: seq<Entry>)
    requires TablesOk(t) && ValidEntries(entries)
    ensures TablesOk(AppendAll(t, entries))
  {
    if entries == [] {
    } else {
      var n := |entries| - 1;
      var e := entries[n];
      assert ValidEntry(e);
      AppendAllKeepsTables(t, entries[..n]);
      AppendKeepsTables(AppendAll(t, entries[..n]), e.attempt, e.decision, e.fails);
    }
  }

  /** The `i`-th append was accepted and filed `record`. */
  ghost predicate FiledAt(entries: seq<Entry>, i: nat, record: Record)
    requires i < |entries|
  {
    var e := entries[i];
    e.decision == Some(record) && Append(AppendAll(EMPTY_TABLES, entries[..i]), e.attempt, e.decision, e.fails).Ok?
  }

  const EMPTY_TABLES := Tables(map[], map[])

  lemma {:induction false} FoundAfterStep(t: Tables, e: Entry, record: Record)
    requires TablesOk(t)
    ensures ByRequest(AppendAll(t, [e]), record.request) == Some(record) <==>
            || ByRequest(t, record.request) == Some(record)
            || (e.decision == Some(record) && Append(t, e.attempt, e.decision, e.fails).Ok?)
  {
    assert [e][..0] == [];
  }

  lemma {:induction false} FoundEitherWay(t: Tables, record: Record)
    requires TablesOk(t)
    ensures ById(t, record.id) == Some(record) <==> ByRequest(t, record.request) == Some(record)
  {}

  ghost predicate Filed(entries: seq<Entry>, record: Record) {
    exists i :: 0 <= i < |entries| && FiledAt(entries, i, record)
  }

  lemma {:induction false} FiledGrows(entries: seq<Entry>, record: Record)
    requires entries != []
    ensures Filed(entries, record) <==>
            Filed(entries[..|entries| - 1], record) || FiledAt(entries, |entries| - 1, record)
  {
    hide Append, AppendAll;
    var front := entries[..|entries| - 1];
    forall i | 0 <= i < |front| ensures FiledAt(entries, i, record) <==> FiledAt(front, i, record) {
      assert front[..i] == entries[..i];
    }
    if Filed(front, record) {
      var i :| 0 <= i < |front| && FiledAt(front, i, record);
      assert FiledAt(entries, i, record);
    }
  }

  /** Over every history of a journal, both lookups return exactly the decisions some accepted append filed. */
  lemma {:induction false} FoundIffFiled(entries: seq<Entry>, record: Record)
    requires ValidEntries(entries)
    ensures ByRequest(AppendAll(EMPTY_TABLES, entries), record.request) == Some(record) <==> Filed(entries, record)
    ensures ById(AppendAll(EMPTY_TABLES, entries), record.id) == Some(record) <==> Filed(entries, record)
  {
    hide Append, Filed, ValidEntry, ById, TablesOk;
    NothingFiled();
    AppendAllKeepsTables(EMPTY_TABLES, entries);
    FoundEitherWay(AppendAll(EMPTY_TABLES, entries), record);
    if entries == [] {
      assert !Filed(entries, record) by { FiledNowhere(entries, record); }
    } else {
      var n := |entries| - 1;
      FoundIffFiled(entries[..n], record);
      AppendAllKeepsTables(EMPTY_TABLES, entries[..n]);
      FoundAfterStep(AppendAll(EMPTY_TABLES, entries[..n]), entries[n], record);
      FiledGrows(entries, record);
      assert [entries[n]][..0] == [];
    }
  }

  lemma {:induction false} NothingFiled()
    ensures TablesOk(EMPTY_TABLES)
  {}

  lemma {:induction false} FiledNowhere(entries: seq<Entry>, record: Record)
    requires entries == []
    ensures !Filed(entries, record)
  {}

  /** A recorded decision replays as itself, whatever is appended to the journal afterwards. */
  lemma {:induction false} RecordThenReplay(t: Tables, id: Id, q: Request, policy: Policy, reply: Reply, now: Instant,
                                            fails: bool, entries: seq<Entry>)
    requires Recorded(t, id, q, policy, reply, now, fails).1.Ok?
    ensures var (after, r) := Recorded(t, id, q, policy, reply, now, fails);
            Replay(AppendAll(after, entries), q, policy) == r
  {
    var (after, r) := Recorded(t, id, q, policy, reply, now, fails);
    assert ByRequest(after, q) == Some(r.value);
    AppendAllExtends(after, entries);
    assert ByRequest(AppendAll(after, entries), q) == Some(r.value);
  }

  /** Replaying is stable: once a request replays, it replays to the same record for ever. */
  lemma {:induction false} ReplayIsStable(t: Tables, q: Request, policy: Policy, entries: seq<Entry>)
    requires Replay(t, q, policy).Ok?
    ensures Replay(AppendAll(t, entries), q, policy) == Replay(t, q, policy)
  {
    AppendAllExtends(t, entries);
    assert ByRequest(AppendAll(t, entries), q) == ByRequest(t, q);
  }
}
