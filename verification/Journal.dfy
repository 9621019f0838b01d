/**
  The decision contract and its append-only journal: one canonical decision per request,
  written in the same transaction as the attempt that obtained it.
  (src/stock_agent/strategies/llm_contract.py and llm_journal.py.)
 */
module Journal {
  import opened Common

  datatype Candidate = Candidate(symbol: Symbol, actions: set<Side>, content: int)

  /** A request is its own fingerprint: the hash covers every field. */
  datatype Request = Request(config: int, asOf: Instant, policy: int, template: int, templateDigest: int,
                             candidates: seq<Candidate>)

  datatype Selection = Selection(symbol: Symbol, action: Side, content: int)

  /** The digest of a response covers the request and the selections; a decision is named by both. */
  datatype DecisionId = DecisionId(request: Request, selections: seq<Selection>)

  datatype Record = Record(id: DecisionId, request: Request, selections: seq<Selection>, config: int, policy: int,
                           template: int, templateDigest: int, identity: int, revision: int,
                           response: Option<int>, startedAt: Instant, endedAt: Instant)

  datatype Status =
    | Success
    | Timeout
    | Transport
    | Schema
    | Envelope
    | IdentityPolicy
    | Conflict
    | AuditPersistence

  datatype Attempt = Attempt(id: Id, request: Request, status: Status, decision: Option<DecisionId>,
                             response: Option<int>, startedAt: Instant, endedAt: Instant)

  datatype Tables = Tables(attempts: map<Id, Attempt>, decisions: map<Request, Record>)

  datatype JournalError = BadPair | AttemptConflict | DecisionConflict | MissingDecision | PersistenceFailed

  predicate ValidRecord(r: Record) {
    r.id == DecisionId(r.request, r.selections) && r.startedAt <= r.endedAt
  }

  predicate ValidAttempt(a: Attempt) {
    && a.startedAt <= a.endedAt
    && (a.status == Success ==> a.decision.Some? && a.decision.value.request == a.request)
    && (a.status != Success ==> a.decision.None?)
  }

  /** Whether an attempt and the decision handed in with it belong together. */
  predicate Paired(a: Attempt, d: Option<Record>) {
    if a.status != Success then d.None?
    else
      && d.Some? && a.request == d.value.request && a.decision == Some(d.value.id)
      && a.response == d.value.response && a.startedAt == d.value.startedAt && a.endedAt == d.value.endedAt
  }

  /** Every table row is valid, filed under its own key, and every success has its decision. */
  ghost predicate TablesOk(t: Tables) {
    && (forall q :: q in t.decisions ==> ValidRecord(t.decisions[q]) && t.decisions[q].request == q)
    && (forall i :: i in t.attempts ==> AttemptOk(t, i))
  }

  ghost predicate AttemptOk(t: Tables, i: Id)
    requires i in t.attempts
  {
    var a := t.attempts[i];
    && a.id == i && ValidAttempt(a)
    && (a.status == Success ==> a.request in t.decisions && Some(t.decisions[a.request].id) == a.decision)
  }

  function ByRequest(t: Tables, q: Request): Option<Record> {
    if q in t.decisions then Some(t.decisions[q]) else None
  }

  function ById(t: Tables, id: DecisionId): Option<Record> {
    match ByRequest(t, id.request)
    case Some(r) => if r.id == id then Some(r) else None
    case None => None
  }

  /** What one append leaves behind; `fails` stands for a storage error, which rolls back. */
  function Append(t: Tables, a: Attempt, d: Option<Record>, fails: bool): Result<Tables, JournalError> {
    if !Paired(a, d) then Err(BadPair)
    else if fails then Err(PersistenceFailed)
    else if a.id in t.attempts && t.attempts[a.id] != a then Err(AttemptConflict)
    else match d
      case None => Ok(t.(attempts := t.attempts[a.id := a]))
      case Some(record) =>
        var byRequest, byId := ByRequest(t, record.request), ById(t, record.id);
        if (byRequest.Some? && byRequest.value != record) || (byId.Some? && byId.value != record) then Err(DecisionConflict)
        else if a.id in t.attempts && byId.None? then Err(MissingDecision)
        else Ok(Tables(t.attempts[a.id := a], t.decisions[record.request := record]))
  }

  lemma {:induction false} AppendKeepsTables(t: Tables, a: Attempt, d: Option<Record>, fails: bool)
    requires TablesOk(t) && ValidAttempt(a) && (d.Some? ==> ValidRecord(d.value))
    ensures Append(t, a, d, fails).Ok? ==> TablesOk(Append(t, a, d, fails).value)
  {
    var r := Append(t, a, d, fails);
    if r.Ok? {
      forall i | i in r.value.attempts ensures AttemptOk(r.value, i) {
        if i != a.id {
          assert AttemptOk(t, i);
        }
      }
    }
  }

  /** Nothing written is ever changed: later tables answer every question the earlier ones answered. */
  ghost predicate Extends(later: Tables, earlier: Tables) {
    && (forall q :: q in earlier.decisions ==> q in later.decisions && later.decisions[q] == earlier.decisions[q])
    && (forall i :: i in earlier.attempts ==> i in later.attempts && later.attempts[i] == earlier.attempts[i])
  }

  lemma {:induction false} AppendExtends(t: Tables, a: Attempt, d: Option<Record>, fails: bool)
    ensures Append(t, a, d, fails).Ok? ==> Extends(Append(t, a, d, fails).value, t)
  {}

  /** A decision is accepted exactly when it is the request's first or the very same one. */
  lemma {:induction false} DecisionAcceptedIff(t: Tables, a: Attempt, record: Record)
    requires TablesOk(t) && ValidRecord(record) && Paired(a, Some(record))
    ensures Append(t, a, Some(record), false).Ok? <==>
            && (ByRequest(t, record.request).None? || ByRequest(t, record.request) == Some(record))
            && (a.id !in t.attempts || t.attempts[a.id] == a)
  {
    if a.id in t.attempts && t.attempts[a.id] == a {
      assert AttemptOk(t, a.id);
    }
  }

  /** A decision comes with the one attempt that obtained it, and no other attempt brings one. */
  ghost predicate BelongTogether(a: Attempt, d: Option<Record>) {
    match d
    case None => a.status != Success
    case Some(record) =>
      && a.status == Success && a.decision == Some(record.id) && a.request == record.request
      && a.response == record.response && (a.startedAt, a.endedAt) == (record.startedAt, record.endedAt)
  }

  /** Every row of `after` is a row of `before` or the one just written, and no row is missing. */
  ghost predicate Written(before: Tables, after: Tables, a: Attempt, d: Option<Record>) {
    && after.attempts.Keys == before.attempts.Keys + {a.id}
    && (forall i :: i in after.attempts ==> after.attempts[i] == if i == a.id then a else before.attempts[i])
    && match d
       case None => after.decisions == before.decisions
       case Some(record) =>
         && after.decisions.Keys == before.decisions.Keys + {record.request}
         && forall q :: q in after.decisions ==>
              after.decisions[q] == if q == record.request then record else before.decisions[q]
  }

  /** Exactly which appends commit, what each leaves behind, and which error each other one meets. */
  lemma {:induction false} AppendedExactlyWhen(t: Tables, a: Attempt, d: Option<Record>, fails: bool)
    requires TablesOk(t) && ValidAttempt(a) && (d.Some? ==> ValidRecord(d.value))
    ensures Append(t, a, d, fails).Ok? <==>
            && BelongTogether(a, d) && !fails
            && (a.id in t.attempts ==> t.attempts[a.id] == a)
            && (d.Some? && d.value.request in t.decisions ==> t.decisions[d.value.request] == d.value)
    ensures match Append(t, a, d, fails)
            case Ok(after) => Written(t, after, a, d)
            case Err(BadPair) => !BelongTogether(a, d)
            case Err(PersistenceFailed) => BelongTogether(a, d) && fails
            case Err(AttemptConflict) => BelongTogether(a, d) && !fails && a.id in t.attempts && t.attempts[a.id] != a
            case Err(DecisionConflict) =>
              && BelongTogether(a, d) && !fails && (a.id in t.attempts ==> t.attempts[a.id] == a)
              && d.Some? && d.value.request in t.decisions && t.decisions[d.value.request] != d.value
            case Err(MissingDecision) => false
  {
    if a.id in t.attempts {
      assert AttemptOk(t, a.id);
    }
  }

  /** Repeating an accepted append changes nothing. */
  lemma {:induction false} AppendIsIdempotent(t: Tables, a: Attempt, d: Option<Record>)
    requires TablesOk(t) && ValidAttempt(a) && (d.Some? ==> ValidRecord(d.value)) && Append(t, a, d, false).Ok?
    ensures var once := Append(t, a, d, false).value; Append(once, a, d, false) == Ok(once)
  {
    var once := Append(t, a, d, false).value;
    AppendKeepsTables(t, a, d, false);
    assert once.attempts[a.id := a] == once.attempts;
    if d.Some? {
      assert once.decisions[d.value.request := d.value] == once.decisions;
    }
  }

  class LLMDecisionJournal {
    var attempts: map<Id, Attempt>
    var decisions: map<Request, Record>

    ghost function Contents(): Tables
      reads this
    {
      Tables(attempts, decisions)
    }

    constructor ()
      ensures Contents() == Tables(map[], map[])
    {
      attempts, decisions := map[], map[];
    }

    method DecisionByRequestFingerprint(q: Request) returns (r: Option<Record>)
      ensures r == ByRequest(Contents(), q)
    {
      r := if q in decisions then Some(decisions[q]) else None;
    }

    method DecisionById(id: DecisionId) returns (r: Option<Record>)
      requires TablesOk(Contents())
      ensures r == ById(Contents(), id)
    {
      r := None;
      if id.request in decisions && decisions[id.request].id == id {
        r := Some(decisions[id.request]);
      }
    }

    method AppendAttempt(a: Attempt, d: Option<Record>, fails: bool) returns (r: Option<JournalError>)
      requires TablesOk(Contents()) && ValidAttempt(a) && (d.Some? ==> ValidRecord(d.value))
      modifies this
      ensures match Append(old(Contents()), a, d, fails)
              case Err(error) => r == Some(error) && Contents() == old(Contents())
              case Ok(after) => r == None && Contents() == after
      ensures TablesOk(Contents()) && Extends(Contents(), old(Contents()))
    {
      AppendKeepsTables(Contents(), a, d, fails);
      AppendExtends(Contents(), a, d, fails);
      if !Paired(a, d) {
        return Some(BadPair);
      }
      if fails {
        return Some(PersistenceFailed);
      }
      var known := a.id in attempts;
      if known && attempts[a.id] != a {
        return Some(AttemptConflict);
      }
      var byId := None;
      if d.Some? {
        var byRequest := DecisionByRequestFingerprint(d.value.request);
        byId := DecisionById(d.value.id);
        if (byRequest.Some? && byRequest.value != d.value) || (byId.Some? && byId.value != d.value) {
          return Some(DecisionConflict);
        }
        if known && byId.None? {
          return Some(MissingDecision);
        }
      }
      if known {
        assert attempts[a.id := a] == attempts;
      } else {
        attempts := attempts[a.id := a];
      }
      if d.Some? {
        if byId.None? {
          decisions := decisions[d.value.request := d.value];
        } else {
          assert decisions[d.value.request := d.value] == decisions;
        }
      }
      return None;
    }
  }
}
