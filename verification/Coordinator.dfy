/**
  The decision coordinator as it runs: the runtime store, the journal and the transport
  are objects it changes one durable effect at a time.
  (src/stock_agent/runtime/decision.py and runtime/store.py.)
 */
module Coordinator {
  import opened Common
  import opened Journal
  import opened Provider
  import opened Decision

  class RuntimeStore {
    var rows: Rows
    var notes: seq<Note>

    constructor ()
      ensures rows == map[] && notes == []
    {
      rows, notes := map[], [];
    }

    method MarkIntent(run: RunId, q: Request, fails: bool) returns (error: Option<StoreError>)
      modifies this`rows
      ensures match Decision.MarkSendIntent(old(rows), run, q, fails)
              case Err(e) => error == Some(e) && rows == old(rows)
              case Ok(after) => error == None && rows == after
    {
      if fails {
        return Some(WriteFailed);
      }
      if run in rows {
        var known := rows[run];
        if known.phase == SendIntentRecorded && known.request == q {
          return None;
        }
        if known.request != q {
          return Some(FingerprintConflict);
        }
        return Some(AlreadyAdvanced);
      }
      rows := rows[run := Invocation(q, SendIntentRecorded, None)];
      return None;
    }

    method Record(run: RunId, id: DecisionId, fails: bool) returns (error: Option<StoreError>)
      modifies this`rows
      ensures match Decision.RecordDecision(old(rows), run, id, fails)
              case Err(e) => error == Some(e) && rows == old(rows)
              case Ok(after) => error == None && rows == after
    {
      if fails {
        return Some(WriteFailed);
      }
      if run !in rows {
        return Some(NoSendIntent);
      }
      var known := rows[run];
      if known.phase == DecisionRecorded {
        if known.decision == Some(id) {
          return None;
        }
        return Some(DecisionIdentityConflict);
      }
      if known.phase != SendIntentRecorded {
        return Some(CannotRecord);
      }
      rows := rows[run := Invocation(known.request, DecisionRecorded, Some(id))];
      return None;
    }

    method NeedReconciliation(run: RunId, fails: bool) returns (error: Option<StoreError>)
      modifies this`rows
      ensures match Decision.MarkNeedsReconciliation(old(rows), run, fails)
              case Err(e) => error == Some(e) && rows == old(rows)
              case Ok(after) => error == None && rows == after
    {
      if fails {
        return Some(WriteFailed);
      }
      if run !in rows {
        return Some(NoSendIntent);
      }
      if rows[run].phase == SendIntentRecorded {
        rows := rows[run := rows[run].(phase := NeedsReconciliation)];
      }
      return None;
    }

    method AbandonRun(run: RunId, operator: int, reason: int, q: Request, now: Instant, fails: bool)
      returns (error: Option<StoreError>)
      modifies this
      ensures match Decision.Abandon(old(rows), run, fails)
              case Err(e) => error == Some(e) && rows == old(rows) && notes == old(notes)
              case Ok(after) => error == None && rows == after && notes == old(notes) + [Note(run, operator, reason, q, now)]
    {
      if fails {
        return Some(WriteFailed);
      }
      if run !in rows {
        return Some(UnknownInvocation);
      }
      if rows[run].phase != NeedsReconciliation {
        return Some(NotReconcilable);
      }
      notes := notes + [Note(run, operator, reason, q, now)];
      rows := rows[run := rows[run].(phase := AbandonedNoOrder)];
      return None;
    }
  }

  /** The model service: it remembers, for the proof, everything it was ever handed. */
  class ModelTransport {
    ghost var sends: seq<Send>

    constructor ()
      ensures sends == []
    {
      sends := [];
    }

    method Invoke(run: RunId, q: Request, answer: Reply) returns (reply: Reply)
      modifies this
      ensures reply == answer && sends == old(sends) + [Send(run, q)]
    {
      sends := sends + [Send(run, q)];
      reply := answer;
    }
  }

  class DecisionCoordinator {
    const store: RuntimeStore
    const journal: LLMDecisionJournal
    const transport: ModelTransport

    constructor (store: RuntimeStore, journal: LLMDecisionJournal, transport: ModelTransport)
      ensures this.store == store && this.journal == journal && this.transport == transport
    {
      this.store, this.journal, this.transport := store, journal, transport;
    }

    ghost function State(): World
      reads store, journal, transport
    {
      World(journal.Contents(), store.rows, store.notes, transport.sends)
    }

    method Reconcile(a: Ask, effects: nat) returns (o: Outcome)
      modifies store
      ensures State() == Escalate(old(State()), a, effects).0 && o == Escalate(old(State()), a, effects).1
    {
      if !Alive(a.env, effects) {
        return Stopped;
      }
      var error := store.NeedReconciliation(a.run, a.env.reconcileFails);
      if error.Some? {
        return Raised;
      }
      return if Alive(a.env, effects + 1) then Unresolved else Stopped;
    }

    method ProviderFailed(a: Ask, effects: nat, status: Status) returns (o: Outcome)
      modifies store
      ensures State() == Broken(old(State()), a, effects, status).0 && o == Broken(old(State()), a, effects, status).1
    {
      if a.env.rereadFails {
        o := if Alive(a.env, effects) then Raised else Stopped;
      } else if a.run in store.rows && store.rows[a.run].phase == SendIntentRecorded {
        o := Reconcile(a, effects);
      } else {
        o := if Alive(a.env, effects) then FailedPreSend(Provider(status)) else Stopped;
      }
    }

    method FileFailure(a: Ask, effects: nat, status: Status) returns (o: Outcome)
      requires TablesOk(journal.Contents()) && status != Success
      modifies store, journal
      ensures State() == Fail(old(State()), a, effects, status).0 && o == Fail(old(State()), a, effects, status).1
    {
      var attempt := FailedAttempt(AttemptId(a.run, a.now), a.request, status, a.now);
      var permitted := Permits(attempt, None, a.env.appendFails);
      if !permitted {
        o := ProviderFailed(a, effects, AuditPersistence);
        return;
      }
      if !Alive(a.env, effects) {
        return Stopped;
      }
      var error := journal.AppendAttempt(attempt, None, a.env.appendFails);
      o := ProviderFailed(a, effects + 1, status);
    }

    /** Whether the journal would accept an append, without making it. */
    method Permits(attempt: Attempt, d: Option<Record>, fails: bool) returns (ok: bool)
      ensures ok <==> Append(journal.Contents(), attempt, d, fails).Ok?
    {
      ok := Append(Tables(journal.attempts, journal.decisions), attempt, d, fails).Ok?;
    }

    method ReplyArrived(a: Ask, effects: nat, reply: Reply) returns (o: Outcome)
      requires TablesOk(journal.Contents()) && reply == a.env.reply
      modifies store, journal
      ensures State() == Settle(old(State()), a, effects).0 && o == Settle(old(State()), a, effects).1
    {
      match Judge(reply, a.request, a.policy) {
        case Err(status) =>
          o := FileFailure(a, effects, status);
        case Ok(answer) =>
          var attempt := SuccessAttempt(AttemptId(a.run, a.now), a.request, answer, a.now);
          var record := SuccessRecord(a.request, answer, a.policy, a.now);
          SuccessIsPaired(AttemptId(a.run, a.now), a.request, answer, a.policy, a.now);
          var permitted := Permits(attempt, Some(record), a.env.appendFails);
          if !permitted {
            o := ProviderFailed(a, effects, AuditPersistence);
            return;
          }
          if !Alive(a.env, effects) {
            return Stopped;
          }
          var error := journal.AppendAttempt(attempt, Some(record), a.env.appendFails);
          o := Finish(a, effects + 1, record);
      }
    }

    method Finish(a: Ask, effects: nat, record: Record) returns (o: Outcome)
      modifies store
      ensures State() == Conclude(old(State()), a, effects, record).0 && o == Conclude(old(State()), a, effects, record).1
    {
      if !Alive(a.env, effects) {
        return Stopped;
      }
      var error := store.Record(a.run, record.id, a.env.recordFails);
      if error.Some? {
        return Raised;
      }
      o := if Alive(a.env, effects + 1) then Decided(record) else Stopped;
    }

    /** Other processes use the journal. */
    method OthersAppend(entries: seq<Entry>)
      requires TablesOk(journal.Contents()) && ValidEntries(entries)
      modifies journal
      ensures journal.Contents() == AppendAll(old(journal.Contents()), entries) && TablesOk(journal.Contents())
    {
      for i := 0 to |entries|
        invariant journal.Contents() == AppendAll(old(journal.Contents()), entries[..i]) && TablesOk(journal.Contents())
      {
        var e := entries[i];
        assert ValidEntry(e);
        assert entries[..i + 1][..i] == entries[..i];
        var error := journal.AppendAttempt(e.attempt, e.decision, e.fails);
      }
      assert entries[..|entries|] == entries;
    }

    method Decide(a: Ask) returns (o: Outcome)
      requires TablesOk(journal.Contents()) && ValidEntries(a.env.meanwhile)
      modifies store, journal, transport
      ensures State() == Decision.Invoke(old(State()), a).0 && o == Decision.Invoke(old(State()), a).1
    {
      if a.request.policy != a.policy.id {
        o := FileFailure(a, 0, IdentityPolicy);
        return;
      }
      if MarkSendIntent(store.rows, a.run, a.request, a.env.markFails).Ok? && !Alive(a.env, 0) {
        return Stopped;
      }
      var error := store.MarkIntent(a.run, a.request, a.env.markFails);
      if error.Some? {
        o := FileFailure(a, 0, AuditPersistence);
        return;
      }
      if !Alive(a.env, 1) {
        return Stopped;
      }
      var reply := transport.Invoke(a.run, a.request, a.env.reply);
      OthersAppend(a.env.meanwhile);
      o := ReplyArrived(a, 2, reply);
    }

    /** One decision for one run, as specified for every failure and every stop. */
    method RunDecision(a: Ask) returns (o: Outcome)
      requires WorldOk(State()) && ValidEntries(a.env.meanwhile)
      modifies store, journal, transport
      ensures State() == Decision.RunDecision(old(State()), a).0 && o == Decision.RunDecision(old(State()), a).1
      ensures Honest(old(State()), a, State(), o) && Progress(old(State()), State())
      ensures transport.sends == if SendsNow(old(State()), a) then old(transport.sends) + [Send(a.run, a.request)]
                                 else old(transport.sends)
    {
      RunDecisionIsHonest(State(), a);
      SendsExactlyWhen(State(), a);
      if a.env.readFails {
        return if Alive(a.env, 0) then Raised else Stopped;
      }
      var existing := journal.DecisionByRequestFingerprint(a.request);
      if existing.Some? {
        return if Alive(a.env, 0) then Resumed(existing.value) else Stopped;
      }
      if a.env.rowReadFails {
        return if Alive(a.env, 0) then Raised else Stopped;
      }
      if a.run in store.rows && store.rows[a.run].phase == SendIntentRecorded {
        o := Reconcile(a, 0);
        return;
      }
      if a.env.credentialFails {
        return if Alive(a.env, 0) then FailedPreSend(Credential) else Stopped;
      }
      if a.env.transportFails {
        return if Alive(a.env, 0) then Raised else Stopped;
      }
      o := Decide(a);
    }

    method AbandonDecision(run: RunId, operator: int, reason: int, now: Instant, fails: bool)
      modifies store
      ensures State() == ReconcileAbandon(old(State()), run, operator, reason, now, fails)
    {
      if run in store.rows {
        var error := store.AbandonRun(run, operator, reason, store.rows[run].request, now, fails);
      }
    }
  }
}
