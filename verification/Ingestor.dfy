/**
  The point-in-time store and the incremental ingestor as they run.
  (src/stock_agent/data/store.py and data/providers/ingestion.py.)
 */
module Ingestor {
  import opened Common
  import opened PointInTime

  class PointInTimeStore {
    var rows: seq<Row>

    constructor ()
      ensures rows == []
    {
      rows := [];
    }

    /** Insert a batch of revisions in one transaction: every write, or none. */
    method AppendBarRevisions(writes: seq<Row>, strict: bool) returns (r: Result<(seq<RecordId>, seq<RecordId>), Fault>)
      modifies this
      ensures match AppendBatch(old(rows), writes, strict)
              case Err(fault) => r == Err(fault) && rows == old(rows)
              case Ok(a) => r == Ok((a.appended, a.repeated)) && rows == a.rows
    {
      if !DistinctWrites(writes) {
        return Err(BatchConflict);
      }
      if exists k :: 0 <= k < |writes| && !Storable(writes[k].values) {
        return Err(Unstorable);
      }
      var before := rows;
      var appended, repeated := [], [];
      for k := 0 to |writes|
        invariant AppendEach(before, writes[..k], strict) == Ok(Appending(rows, appended, repeated))
      {
        var w := writes[k];
        assert writes[..k + 1][..k] == writes[..k];
        var existing := ByIdentity(rows, w.source, w.id);
        var single := SourcesOf(rows, w.key) <= {w.source};
        if !single || (existing.Some? && existing.value != w) {
          AppendFails(before, writes, strict, k + 1);
          rows := before;
          return Err(BatchConflict);
        }
        if existing.Some? {
          repeated := repeated + [w.id];
        } else {
          var late := strict && ClockConflict(rows, w);
          if late {
            AppendFails(before, writes, strict, k + 1);
            rows := before;
            return Err(Clock);
          }
          rows := rows + [w];
          appended := appended + [w.id];
        }
      }
      assert writes[..|writes|] == writes;
      return Ok((appended, repeated));
    }
  }

  lemma {:induction false} AppendFails(rows: seq<Row>, writes: seq<Row>, strict: bool, k: nat)
    requires k <= |writes| && AppendEach(rows, writes[..k], strict).Err?
    ensures AppendEach(rows, writes, strict) == AppendEach(rows, writes[..k], strict)
    decreases |writes|
  {
    if k == |writes| {
      assert writes[..k] == writes;
    } else {
      var n := |writes| - 1;
      assert writes[..n][..k] == writes[..k];
      AppendFails(rows, writes[..n], strict, k);
    }
  }

  lemma {:induction false} CandidatesFail(rows: seq<Row>, bars: seq<Fetched>, provider: Provider, schedule: Schedule,
                                          now: Instant, tie: Tie, k: nat)
    requires forall i :: 0 <= i < |bars| ==> bars[i].key.session in schedule.closes
    requires k <= |bars| && Candidates(rows, bars[..k], provider, schedule, now, tie).Err?
    ensures Candidates(rows, bars, provider, schedule, now, tie) == Candidates(rows, bars[..k], provider, schedule, now, tie)
    decreases |bars|
  {
    if k == |bars| {
      assert bars[..k] == bars;
    } else {
      var n := |bars| - 1;
      assert bars[..n][..k] == bars[..k];
      CandidatesFail(rows, bars[..n], provider, schedule, now, tie, k);
    }
  }

  class IncrementalBarIngestor {
    const provider: Provider
    const store: PointInTimeStore

    constructor (provider: Provider, store: PointInTimeStore)
      ensures this.provider == provider && this.store == store
    {
      this.provider, this.store := provider, store;
    }

    /** One pass over the fetched bars: what to write, and how many repeat what is known. */
    method Draft(bars: seq<Fetched>, schedule: Schedule, now: Instant, tie: Tie) returns (r: Result<Drafts, Fault>)
      requires forall i :: 0 <= i < |bars| ==> bars[i].key.session in schedule.closes
      ensures r == Candidates(store.rows, bars, provider, schedule, now, tie)
    {
      var writes: seq<Row>, repeated: nat := [], 0;
      for k := 0 to |bars|
        invariant Candidates(store.rows, bars[..k], provider, schedule, now, tie) == Ok(Drafts(writes, repeated))
      {
        var b := bars[k];
        assert bars[..k + 1][..k] == bars[..k];
        var candidate := Candidate(store.rows, b, provider, schedule, now, tie);
        match candidate {
          case Err(fault) =>
            CandidatesFail(store.rows, bars, provider, schedule, now, tie, k + 1);
            return Err(fault);
          case Ok(None) =>
            repeated := repeated + 1;
          case Ok(Some(w)) =>
            writes := writes + [w];
        }
      }
      assert bars[..|bars|] == bars;
      return Ok(Drafts(writes, repeated));
    }

    /** A failed ingestion leaves the store as it was; a successful one appends only revisions that fit. */
    method IngestBars(q: Request, schedule: Schedule, now: Instant, reply: Reply, tie: Tie) returns (r: Result<Report, Fault>)
      requires RowsOk(store.rows)
      modifies store
      ensures store.rows == Ingest(old(store.rows), provider, q, schedule, now, reply, tie).0
      ensures r == Ingest(old(store.rows), provider, q, schedule, now, reply, tie).1
      ensures RowsOk(store.rows)
      ensures r.Err? ==> store.rows == old(store.rows)
      ensures r.Ok? ==> |store.rows| == |old(store.rows)| + |r.value.appended|
                        && store.rows[..|old(store.rows)|] == old(store.rows)
                        && |r.value.appended| + r.value.repeated == |reply.bars|
    {
      ghost var d := IngestOutcome(store.rows, provider, q, schedule, now, reply, tie);
      if schedule.market != q.market || schedule.start != q.start || schedule.end != q.end {
        return Err(ScheduleFault);
      }
      if exists date :: date in schedule.closes && schedule.closes[date] > now {
        return Err(ScheduleFault);
      }
      if reply.FetchFailed? {
        return Err(FetchFault);
      }
      var bars := reply.bars;
      if bars == [] {
        return Err(EmptyReply);
      }
      if !ValidBars(bars) {
        return Err(BadBar);
      }
      if !DistinctKeys(bars) {
        return Err(DuplicateBar);
      }
      if !Ascend(bars) {
        return Err(OutOfOrder);
      }
      var misfit := FirstMisfit(bars, provider, q, schedule);
      if misfit.Some? {
        return Err(misfit.value);
      }
      FitsAll(bars, provider, q, schedule);
      var drafts := Draft(bars, schedule, now, tie);
      r := Commit(bars, drafts);
    }

    method Commit(bars: seq<Fetched>, drafts: Result<Drafts, Fault>) returns (r: Result<Report, Fault>)
      modifies store
      ensures (store.rows, r) == Store(old(store.rows), bars, drafts)
    {
      if drafts.Err? {
        return Err(drafts.error);
      }
      var writes := drafts.value.writes;
      if writes == [] {
        return Ok(Report(|bars|, [], drafts.value.repeated));
      }
      var batch := store.AppendBarRevisions(writes, true);
      if batch.Err? {
        return Err(batch.error);
      }
      if batch.value.1 != [] {
        return Err(InternalContract);
      }
      return Ok(Report(|bars|, batch.value.0, drafts.value.repeated));
    }
  }
}
