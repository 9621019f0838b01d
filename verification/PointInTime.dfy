/**
  Point-in-time bars: an append-only table of revisions, the ingestor that fills it, and
  its two notions of the latest revision, ordered by different clocks.
  (src/stock_agent/data/store.py and data/providers/ingestion.py.)
 */
module PointInTime {
  import opened Common

  type Provider = int

  datatype Key = Key(market: Market, symbol: Symbol, session: Date)

  datatype Values = Values(open: real, high: real, low: real, close: real, volume: real)

  datatype Kind = Baseline | Correction

  /** The fields a record identity is hashed from. */
  datatype RecordId = RecordId(provider: Provider, key: Key, values: Values, native: int, record: int, kind: Kind,
                               availableAt: Instant)

  datatype Row = Row(key: Key, values: Values, availableAt: Instant, ingestedAt: Instant, source: Provider, id: RecordId)

  datatype Fetched = Fetched(key: Key, values: Values, provider: Provider, native: int, record: int)

  datatype Request = Request(market: Market, symbol: Symbol, start: Date, end: Date)

  /** Closing instants of the sessions from `start` to `end`. */
  datatype Schedule = Schedule(market: Market, start: Date, end: Date, closes: map<Date, Instant>)

  datatype Reply = FetchFailed | Bars(bars: seq<Fetched>)

  datatype Fault =
    | ScheduleFault
    | FetchFault
    | EmptyReply
    | BadBar
    | DuplicateBar
    | OutOfOrder
    | Identity
    | OutOfRange
    | OtherSource
    | Clock
    | BatchConflict
    | Unstorable
    | InternalContract

  datatype Report = Report(received: nat, appended: seq<RecordId>, repeated: nat)

  // ---- the two queries ----

  /** How the database orders the text of source and record identity: any order at all. */
  type Tie = Row -> int

  predicate NewerAvailable(a: Row, b: Row, tie: Tie) {
    a.availableAt > b.availableAt
    || (a.availableAt == b.availableAt && (a.ingestedAt > b.ingestedAt || (a.ingestedAt == b.ingestedAt && tie(a) >= tie(b))))
  }

  predicate NewerIngested(a: Row, b: Row, tie: Tie) {
    a.ingestedAt > b.ingestedAt || (a.ingestedAt == b.ingestedAt && tie(a) >= tie(b))
  }

  function LatestAsOf(rows: seq<Row>, key: Key, t: Instant, tie: Tie): Option<Row> {
    if rows == [] then None
    else
      var before, last := LatestAsOf(rows[..|rows| - 1], key, t, tie), rows[|rows| - 1];
      if last.key == key && last.availableAt <= t && (before.None? || NewerAvailable(last, before.value, tie))
      then Some(last) else before
  }

  function LatestObserved(rows: seq<Row>, provider: Provider, key: Key, tie: Tie): Option<Row> {
    if rows == [] then None
    else
      var before, last := LatestObserved(rows[..|rows| - 1], provider, key, tie), rows[|rows| - 1];
      if last.key == key && last.source == provider && (before.None? || NewerIngested(last, before.value, tie))
      then Some(last) else before
  }

  function SourcesOf(rows: seq<Row>, key: Key): set<Provider> {
    set i | 0 <= i < |rows| && rows[i].key == key :: rows[i].source
  }

  // ---- appending a batch ----

  function ByIdentity(rows: seq<Row>, source: Provider, id: RecordId): Option<Row> {
    if rows == [] then None
    else
      var last := rows[|rows| - 1];
      if last.source == source && last.id == id then Some(last) else ByIdentity(rows[..|rows| - 1], source, id)
  }

  datatype Appending = Appending(rows: seq<Row>, appended: seq<RecordId>, repeated: seq<RecordId>)

  /** Some revision of the same stream was ingested no earlier than `w`. */
  predicate ClockConflict(rows: seq<Row>, w: Row) {
    exists i :: 0 <= i < |rows| && rows[i].key == w.key && rows[i].source == w.source && w.ingestedAt <= rows[i].ingestedAt
  }

  /** Insert one revision; `strict` asks for a stream clock that only moves forward. */
  function AppendOne(a: Appending, w: Row, strict: bool): Result<Appending, Fault> {
    if !(SourcesOf(a.rows, w.key) <= {w.source}) then Err(BatchConflict)
    else match ByIdentity(a.rows, w.source, w.id)
      case Some(existing) =>
        if existing == w then Ok(a.(repeated := a.repeated + [w.id])) else Err(BatchConflict)
      case None =>
        if strict && ClockConflict(a.rows, w) then Err(Clock)
        else Ok(a.(rows := a.rows + [w], appended := a.appended + [w.id]))
  }

  function AppendEach(rows: seq<Row>, writes: seq<Row>, strict: bool): Result<Appending, Fault> {
    if writes == [] then Ok(Appending(rows, [], []))
    else match AppendEach(rows, writes[..|writes| - 1], strict)
      case Err(fault) => Err(fault)
      case Ok(a) => AppendOne(a, writes[|writes| - 1], strict)
  }

  predicate DistinctWrites(writes: seq<Row>) {
    forall i, j :: 0 <= i < j < |writes| ==>
      (writes[i].source, writes[i].id) != (writes[j].source, writes[j].id)
      && (writes[i].source, writes[i].key) != (writes[j].source, writes[j].key)
      && writes[i].key != writes[j].key
  }

  /** Numbers the table's decimal columns can hold. */
  predicate Storable(v: Values) {
    Supported(v.open) && Supported(v.high) && Supported(v.low) && Supported(v.close) && Supported(v.volume)
  }

  function AppendBatch(rows: seq<Row>, writes: seq<Row>, strict: bool): Result<Appending, Fault> {
    if !DistinctWrites(writes) then Err(BatchConflict)
    else if exists k :: 0 <= k < |writes| && !Storable(writes[k].values) then Err(Unstorable)
    else AppendEach(rows, writes, strict)
  }

  // ---- what a batch does ----

  /** No two rows share source and record identity. */
  ghost predicate UniqueIds(rows: seq<Row>) {
    forall i, j :: 0 <= i < j < |rows| ==> (rows[i].source, rows[i].id) != (rows[j].source, rows[j].id)
  }

  /** Some row has the identity of `w`. */
  ghost predicate Taken(rows: seq<Row>, w: Row) {
    exists i :: 0 <= i < |rows| && rows[i].source == w.source && rows[i].id == w.id
  }

  /** Some revision of the event of `w` comes from another provider. */
  ghost predicate Contested(rows: seq<Row>, w: Row) {
    exists i :: 0 <= i < |rows| && rows[i].key == w.key && rows[i].source != w.source
  }

  lemma {:induction false} IdentityFound(rows: seq<Row>, w: Row)
    requires UniqueIds(rows)
    ensures ByIdentity(rows, w.source, w.id).Some? <==> Taken(rows, w)
    ensures ByIdentity(rows, w.source, w.id) == Some(w) <==> w in rows
    ensures w in rows ==> Taken(rows, w)
  {
    if rows == [] {
    } else {
      var n := |rows| - 1;
      IdentityFound(rows[..n], w);
      assert rows == rows[..n] + [rows[n]];
      assert Taken(rows, w) <==> Taken(rows[..n], w) || (rows[n].source == w.source && rows[n].id == w.id) by {
        if Taken(rows[..n], w) {
          var i :| 0 <= i < n && rows[..n][i].source == w.source && rows[..n][i].id == w.id;
          assert rows[i].source == w.source && rows[i].id == w.id;
        }
        if Taken(rows, w) {
          var i :| 0 <= i < |rows| && rows[i].source == w.source && rows[i].id == w.id;
          assert i < n ==> rows[..n][i] == rows[i];
        }
      }
      if w in rows[..n] {
        var i :| 0 <= i < n && rows[i] == w;
      }
    }
  }

  /** One write: repeated if the very row is there, appended if its identity is free, refused otherwise. */
  lemma {:induction false} OneWrite(a: Appending, w: Row, strict: bool)
    requires UniqueIds(a.rows)
    ensures var late := exists i :: 0 <= i < |a.rows| && a.rows[i].key == w.key && a.rows[i].source == w.source
                                    && w.ingestedAt <= a.rows[i].ingestedAt;
            match AppendOne(a, w, strict)
            case Ok(after) =>
              && !Contested(a.rows, w)
              && if w in a.rows then after == a.(repeated := a.repeated + [w.id])
                 else !Taken(a.rows, w) && !(strict && late) && after == Appending(a.rows + [w], a.appended + [w.id], a.repeated)
            case Err(BatchConflict) => Contested(a.rows, w) || (Taken(a.rows, w) && w !in a.rows)
            case Err(Clock) => !Contested(a.rows, w) && !Taken(a.rows, w) && strict && late
            case Err(_) => false
  {
    IdentityFound(a.rows, w);
    OneSource(a.rows, w.key, w.source);
  }

  function Unknown(rows: seq<Row>, writes: seq<Row>): seq<Row> {
    if writes == [] then []
    else Unknown(rows, writes[..|writes| - 1]) + if writes[|writes| - 1] in rows then [] else [writes[|writes| - 1]]
  }

  function Known(rows: seq<Row>, writes: seq<Row>): seq<Row> {
    if writes == [] then []
    else Known(rows, writes[..|writes| - 1]) + if writes[|writes| - 1] in rows then [writes[|writes| - 1]] else []
  }

  /** A write the table can take, whatever the other writes of its batch are. */
  ghost predicate Takes(rows: seq<Row>, w: Row, strict: bool) {
    && !Contested(rows, w)
    && (w in rows
        || (!Taken(rows, w)
            && (strict ==> forall i :: 0 <= i < |rows| && rows[i].key == w.key ==> rows[i].ingestedAt < w.ingestedAt)))
  }

  lemma {:induction false} UnknownApart(rows: seq<Row>, writes: seq<Row>, w: Row)
    requires forall k :: 0 <= k < |writes| ==> (writes[k].source, writes[k].id) != (w.source, w.id) && writes[k].key != w.key
    ensures forall k :: 0 <= k < |Unknown(rows, writes)| ==>
              var u := Unknown(rows, writes)[k]; (u.source, u.id) != (w.source, w.id) && u.key != w.key
  {
    if writes == [] {
    } else {
      UnknownApart(rows, writes[..|writes| - 1], w);
    }
  }

  lemma {:induction false} TakesBeside(rows: seq<Row>, more: seq<Row>, w: Row, strict: bool)
    requires forall k :: 0 <= k < |more| ==> (more[k].source, more[k].id) != (w.source, w.id) && more[k].key != w.key
    ensures Takes(rows + more, w, strict) <==> Takes(rows, w, strict)
    ensures w in rows + more <==> w in rows
  {
    forall i | 0 <= i < |rows| ensures (rows + more)[i] == rows[i] {
    }
    assert Taken(rows, w) ==> Taken(rows + more, w) by {
      if Taken(rows, w) {
        var i :| 0 <= i < |rows| && rows[i].source == w.source && rows[i].id == w.id;
        assert (rows + more)[i] == rows[i];
      }
    }
    assert Contested(rows, w) ==> Contested(rows + more, w) by {
      if Contested(rows, w) {
        var i :| 0 <= i < |rows| && rows[i].key == w.key && rows[i].source != w.source;
        assert (rows + more)[i] == rows[i];
      }
    }
  }

  lemma {:induction false} OneWriteTakes(a: Appending, w: Row, strict: bool)
    requires UniqueIds(a.rows)
    ensures AppendOne(a, w, strict).Ok? <==> Takes(a.rows, w, strict)
    ensures AppendOne(a, w, strict).Ok? ==> UniqueIds(AppendOne(a, w, strict).value.rows)
    ensures AppendOne(a, w, strict).Ok? ==>
              AppendOne(a, w, strict).value ==
              if w in a.rows then a.(repeated := a.repeated + [w.id]) else Appending(a.rows + [w], a.appended + [w.id], a.repeated)
  {
    IdentityFound(a.rows, w);
    OneWrite(a, w, strict);
  }

  /**
    A batch in any table with unique identities is taken exactly when its writes are
    distinct, storable, and each could be taken by itself; then the rows it did not know
    are appended in order, and the others reported as repeated.
   */
  lemma {:induction false} BatchTakenIff(rows: seq<Row>, writes: seq<Row>, strict: bool)
    requires UniqueIds(rows)
    ensures AppendBatch(rows, writes, strict).Ok? <==>
            && DistinctWrites(writes)
            && forall k :: 0 <= k < |writes| ==> Storable(writes[k].values) && Takes(rows, writes[k], strict)
    ensures AppendBatch(rows, writes, strict).Ok? ==>
              && UniqueIds(AppendBatch(rows, writes, strict).value.rows)
              && AppendBatch(rows, writes, strict).value ==
                 Appending(rows + Unknown(rows, writes), Ids(Unknown(rows, writes)), Ids(Known(rows, writes)))
    ensures match AppendBatch(rows, writes, strict)
            case Ok(_) => true
            case Err(Unstorable) => DistinctWrites(writes) && exists k :: 0 <= k < |writes| && !Storable(writes[k].values)
            case Err(Clock) => strict
            case Err(BatchConflict) =>
              !DistinctWrites(writes) || exists k :: 0 <= k < |writes| && !Takes(rows, writes[k], strict)
            case Err(_) => false
  {
    hide Takes, UniqueIds, AppendOne;
    if DistinctWrites(writes) {
      EachTakenIff(rows, writes, strict);
      EachFault(rows, writes, strict);
    }
  }

  lemma {:induction false} EachFault(rows: seq<Row>, writes: seq<Row>, strict: bool)
    requires UniqueIds(rows) && DistinctWrites(writes)
    ensures match AppendEach(rows, writes, strict)
            case Ok(_) => true
            case Err(Clock) => strict
            case Err(fault) => fault == BatchConflict
  {
    hide Takes, UniqueIds, AppendOne;
    if writes == [] {
    } else {
      var n := |writes| - 1;
      EachFault(rows, writes[..n], strict);
      EachTakenIff(rows, writes[..n], strict);
      if AppendEach(rows, writes[..n], strict).Ok? {
        OneWrite(AppendEach(rows, writes[..n], strict).value, writes[n], strict);
      }
    }
  }

  lemma {:induction false} EachTakenIff(rows: seq<Row>, writes: seq<Row>, strict: bool)
    requires UniqueIds(rows) && DistinctWrites(writes)
    ensures AppendEach(rows, writes, strict).Ok? <==> forall k :: 0 <= k < |writes| ==> Takes(rows, writes[k], strict)
    ensures AppendEach(rows, writes, strict).Ok? ==>
              && UniqueIds(AppendEach(rows, writes, strict).value.rows)
              && AppendEach(rows, writes, strict).value ==
                 Appending(rows + Unknown(rows, writes), Ids(Unknown(rows, writes)), Ids(Known(rows, writes)))
  {
    hide Takes, UniqueIds, AppendOne;
    if writes == [] {
      assert rows + [] == rows && Ids([]) == [];
    } else {
      var n := |writes| - 1;
      var front, w := writes[..n], writes[n];
      EachTakenIff(rows, front, strict);
      if AppendEach(rows, front, strict).Ok? {
        UnknownApart(rows, front, w);
        TakesBeside(rows, Unknown(rows, front), w, strict);
        OneWriteTakes(AppendEach(rows, front, strict).value, w, strict);
        assert rows + Unknown(rows, front) + [w] == rows + (Unknown(rows, front) + [w]);
        assert Ids(Unknown(rows, front) + [w]) == Ids(Unknown(rows, front)) + [w.id];
        assert Ids(Known(rows, front) + [w]) == Ids(Known(rows, front)) + [w.id];
        assert Unknown(rows, front) + [] == Unknown(rows, front) && Known(rows, front) + [] == Known(rows, front);
      }
    }
  }

  // ---- ingesting ----

  /** What a fetched bar must be before it is looked at. */
  predicate ValidValues(v: Values) {
    && Storable(v) && v.open > 0.0 && v.high > 0.0 && v.low > 0.0 && v.close > 0.0 && v.volume >= 0.0
    && v.low <= v.high && v.low <= v.open <= v.high && v.low <= v.close <= v.high
  }

  predicate ValidBars(bars: seq<Fetched>) {
    forall i :: 0 <= i < |bars| ==> ValidValues(bars[i].values)
  }

  predicate DistinctKeys(bars: seq<Fetched>) {
    forall i, j :: 0 <= i < j < |bars| ==> bars[i].key != bars[j].key
  }

  predicate Ascend(bars: seq<Fetched>) {
    forall i, j :: 0 <= i < j < |bars| ==> bars[i].key.session <= bars[j].key.session
  }

  /** The first bar that does not belong to the request, checked bar by bar. */
  function FirstMisfit(bars: seq<Fetched>, provider: Provider, q: Request, schedule: Schedule): Option<Fault> {
    if bars == [] then None
    else
      var b := bars[0];
      if b.provider != provider || b.key.market != q.market || b.key.symbol != q.symbol then Some(Identity)
      else if !(q.start <= b.key.session <= q.end) then Some(OutOfRange)
      else if b.key.session !in schedule.closes then Some(ScheduleFault)
      else FirstMisfit(bars[1..], provider, q, schedule)
  }

  /** What one fetched bar adds to the table: nothing if it repeats the latest, else a revision. */
  function Candidate(rows: seq<Row>, b: Fetched, provider: Provider, schedule: Schedule, now: Instant, tie: Tie)
    : Result<Option<Row>, Fault>
    requires b.key.session in schedule.closes
  {
    if !(SourcesOf(rows, b.key) <= {provider}) then Err(OtherSource)
    else match LatestObserved(rows, provider, b.key, tie)
      case Some(latest) =>
        if latest.values == b.values then Ok(None)
        else if now <= latest.ingestedAt then Err(Clock)
        else Ok(Some(RevisionOf(b, provider, Correction, now, now)))
      case None =>
        var close := schedule.closes[b.key.session];
        if now < close then Err(Clock) else Ok(Some(RevisionOf(b, provider, Baseline, close, now)))
  }

  function RevisionOf(b: Fetched, provider: Provider, kind: Kind, available: Instant, now: Instant): Row {
    Row(b.key, b.values, available, now, provider, RecordId(provider, b.key, b.values, b.native, b.record, kind, available))
  }

  datatype Drafts = Drafts(writes: seq<Row>, repeated: nat)

  function Candidates(rows: seq<Row>, bars: seq<Fetched>, provider: Provider, schedule: Schedule, now: Instant, tie: Tie)
    : Result<Drafts, Fault>
    requires forall i :: 0 <= i < |bars| ==> bars[i].key.session in schedule.closes
  {
    if bars == [] then Ok(Drafts([], 0))
    else match Candidates(rows, bars[..|bars| - 1], provider, schedule, now, tie)
      case Err(fault) => Err(fault)
      case Ok(d) =>
        match Candidate(rows, bars[|bars| - 1], provider, schedule, now, tie)
        case Err(fault) => Err(fault)
        case Ok(None) => Ok(d.(repeated := d.repeated + 1))
        case Ok(Some(w)) => Ok(d.(writes := d.writes + [w]))
  }

  lemma {:induction false} FitsAll(bars: seq<Fetched>, provider: Provider, q: Request, schedule: Schedule)
    requires FirstMisfit(bars, provider, q, schedule).None?
    ensures forall i :: 0 <= i < |bars| ==> bars[i].key.session in schedule.closes && bars[i].provider == provider
  {
    if bars == [] {
    } else {
      FitsAll(bars[1..], provider, q, schedule);
      forall i | 0 <= i < |bars| ensures bars[i].key.session in schedule.closes && bars[i].provider == provider {
        if i > 0 {
          assert bars[i] == bars[1..][i - 1];
        }
      }
    }
  }

  /** The rows afterwards, and the report or the fault raised. */
  function Ingest(rows: seq<Row>, provider: Provider, q: Request, schedule: Schedule, now: Instant, reply: Reply, tie: Tie)
    : (seq<Row>, Result<Report, Fault>)
  {
    if schedule.market != q.market || schedule.start != q.start || schedule.end != q.end then (rows, Err(ScheduleFault))
    else if exists d :: d in schedule.closes && schedule.closes[d] > now then (rows, Err(ScheduleFault))
    else match reply
      case FetchFailed => (rows, Err(FetchFault))
      case Bars(bars) =>
        if bars == [] then (rows, Err(EmptyReply))
        else if !ValidBars(bars) then (rows, Err(BadBar))
        else if !DistinctKeys(bars) then (rows, Err(DuplicateBar))
        else if !Ascend(bars) then (rows, Err(OutOfOrder))
        else match FirstMisfit(bars, provider, q, schedule)
          case Some(fault) => (rows, Err(fault))
          case None =>
            FitsAll(bars, provider, q, schedule);
            Store(rows, bars, Candidates(rows, bars, provider, schedule, now, tie))
  }

  function Store(rows: seq<Row>, bars: seq<Fetched>, drafts: Result<Drafts, Fault>): (seq<Row>, Result<Report, Fault>) {
    match drafts
    case Err(fault) => (rows, Err(fault))
    case Ok(d) =>
      if d.writes == [] then (rows, Ok(Report(|bars|, [], d.repeated)))
      else match AppendBatch(rows, d.writes, true)
        case Err(fault) => (rows, Err(fault))
        case Ok(a) =>
          if a.repeated != [] then (a.rows, Err(InternalContract))
          else (a.rows, Ok(Report(|bars|, a.appended, d.repeated)))
  }

  // ---- what ingestion keeps ----

  /** One provider per event; both clocks strictly increase along each event's revisions. */
  ghost predicate RowsOk(rows: seq<Row>) {
    && (forall i :: 0 <= i < |rows| ==>
          && rows[i].availableAt <= rows[i].ingestedAt
          && rows[i].id.key == rows[i].key && rows[i].id.availableAt == rows[i].availableAt
          && rows[i].id.provider == rows[i].source && rows[i].id.values == rows[i].values)
    && forall i, j :: 0 <= i < j < |rows| && rows[i].key == rows[j].key ==>
         && rows[i].source == rows[j].source
         && rows[i].availableAt < rows[j].availableAt && rows[i].ingestedAt < rows[j].ingestedAt
  }

  /** The last row of an event that is visible at `t`. */
  function LastBy(rows: seq<Row>, key: Key, t: Instant): Option<Row> {
    if rows == [] then None
    else if rows[|rows| - 1].key == key && rows[|rows| - 1].availableAt <= t then Some(rows[|rows| - 1])
    else LastBy(rows[..|rows| - 1], key, t)
  }

  function LastOf(rows: seq<Row>, key: Key): Option<Row> {
    if rows == [] then None
    else if rows[|rows| - 1].key == key then Some(rows[|rows| - 1])
    else LastOf(rows[..|rows| - 1], key)
  }

  lemma {:induction false} LastByIsARow(rows: seq<Row>, key: Key, t: Instant)
    ensures var r := LastBy(rows, key, t); r.Some? ==> r.value in rows && r.value.key == key && r.value.availableAt <= t
    ensures LastBy(rows, key, t).None? <==> forall i :: 0 <= i < |rows| ==> rows[i].key != key || rows[i].availableAt > t
  {
    if rows == [] {
    } else {
      LastByIsARow(rows[..|rows| - 1], key, t);
      assert forall i :: 0 <= i < |rows| - 1 ==> rows[i] == rows[..|rows| - 1][i];
    }
  }

  lemma {:induction false} LastOfIsARow(rows: seq<Row>, key: Key)
    ensures var r := LastOf(rows, key); r.Some? ==> r.value in rows && r.value.key == key
    ensures LastOf(rows, key).None? <==> forall i :: 0 <= i < |rows| ==> rows[i].key != key
  {
    if rows == [] {
    } else {
      LastOfIsARow(rows[..|rows| - 1], key);
      assert forall i :: 0 <= i < |rows| - 1 ==> rows[i] == rows[..|rows| - 1][i];
    }
  }

  /** At least as late: by availability, then ingestion, then the order of the text. */
  ghost predicate AvailableNoLater(a: Row, b: Row, tie: Tie) {
    || a.availableAt < b.availableAt
    || (a.availableAt == b.availableAt && (a.ingestedAt < b.ingestedAt || (a.ingestedAt == b.ingestedAt && tie(a) <= tie(b))))
  }

  ghost predicate IngestedNoLater(a: Row, b: Row, tie: Tie) {
    a.ingestedAt < b.ingestedAt || (a.ingestedAt == b.ingestedAt && tie(a) <= tie(b))
  }

  /** Of any table, the as-of query returns a latest row of the event among those available by then. */
  lemma {:induction false} AsOfIsTheNewest(rows: seq<Row>, key: Key, t: Instant, tie: Tie)
    ensures match LatestAsOf(rows, key, t, tie)
            case None => forall i :: 0 <= i < |rows| ==> rows[i].key != key || rows[i].availableAt > t
            case Some(r) =>
              && r in rows && r.key == key && r.availableAt <= t
              && forall i :: 0 <= i < |rows| && rows[i].key == key && rows[i].availableAt <= t ==> AvailableNoLater(rows[i], r, tie)
  {
    if rows == [] {
    } else {
      AsOfIsTheNewest(rows[..|rows| - 1], key, t, tie);
      assert forall i :: 0 <= i < |rows| - 1 ==> rows[i] == rows[..|rows| - 1][i];
    }
  }

  /** Of any table, the observed query returns a row of the provider's event ingested latest. */
  lemma {:induction false} ObservedIsTheNewest(rows: seq<Row>, provider: Provider, key: Key, tie: Tie)
    ensures match LatestObserved(rows, provider, key, tie)
            case None => forall i :: 0 <= i < |rows| ==> rows[i].key != key || rows[i].source != provider
            case Some(r) =>
              && r in rows && r.key == key && r.source == provider
              && forall i :: 0 <= i < |rows| && rows[i].key == key && rows[i].source == provider ==> IngestedNoLater(rows[i], r, tie)
  {
    if rows == [] {
    } else {
      ObservedIsTheNewest(rows[..|rows| - 1], provider, key, tie);
      assert forall i :: 0 <= i < |rows| - 1 ==> rows[i] == rows[..|rows| - 1][i];
    }
  }

  /** With increasing clocks, the row ordered latest by availability is the last one written. */
  lemma {:induction false} AsOfIsLastWritten(rows: seq<Row>, key: Key, t: Instant, tie: Tie)
    requires RowsOk(rows)
    ensures LatestAsOf(rows, key, t, tie) == LastBy(rows, key, t)
  {
    if rows == [] {
    } else {
      var n := |rows| - 1;
      AsOfIsLastWritten(rows[..n], key, t, tie);
      LastByIsARow(rows[..n], key, t);
    }
  }

  lemma {:induction false} ObservedIsLastWritten(rows: seq<Row>, provider: Provider, key: Key, tie: Tie)
    requires RowsOk(rows) && SourcesOf(rows, key) <= {provider}
    ensures LatestObserved(rows, provider, key, tie) == LastOf(rows, key)
  {
    if rows == [] {
    } else {
      var n := |rows| - 1;
      SourcesShrink(rows, key);
      ObservedIsLastWritten(rows[..n], provider, key, tie);
      LastOfIsARow(rows[..n], key);
    }
  }

  lemma {:induction false} SourcesShrink(rows: seq<Row>, key: Key)
    requires rows != []
    ensures SourcesOf(rows[..|rows| - 1], key) <= SourcesOf(rows, key)
    ensures rows[|rows| - 1].key == key ==> rows[|rows| - 1].source in SourcesOf(rows, key)
  {
    var front := rows[..|rows| - 1];
    forall s | s in SourcesOf(front, key) ensures s in SourcesOf(rows, key) {
      var i :| 0 <= i < |front| && front[i].key == key && front[i].source == s;
      assert rows[i] == front[i];
    }
  }

  /** The two queries agree from the last ingestion of the event onwards, however text is ordered. */
  lemma {:induction false} LatestQueriesAgree(rows: seq<Row>, provider: Provider, key: Key, t: Instant, asOfTie: Tie, observedTie: Tie)
    requires RowsOk(rows) && SourcesOf(rows, key) <= {provider}
    requires forall i :: 0 <= i < |rows| && rows[i].key == key ==> rows[i].ingestedAt <= t
    ensures LatestAsOf(rows, key, t, asOfTie) == LatestObserved(rows, provider, key, observedTie)
  {
    AsOfIsLastWritten(rows, key, t, asOfTie);
    ObservedIsLastWritten(rows, provider, key, observedTie);
    VisibleAfterIngestion(rows, key, t);
  }

  lemma {:induction false} VisibleAfterIngestion(rows: seq<Row>, key: Key, t: Instant)
    requires RowsOk(rows) && forall i :: 0 <= i < |rows| && rows[i].key == key ==> rows[i].ingestedAt <= t
    ensures LastBy(rows, key, t) == LastOf(rows, key)
  {
    if rows == [] {
    } else {
      VisibleAfterIngestion(rows[..|rows| - 1], key, t);
    }
  }

  // ---- one ingestion ----

  /** A revision that both clocks place after everything known of its event. */
  ghost predicate Fresh(rows: seq<Row>, w: Row) {
    && w.availableAt <= w.ingestedAt
    && w.id.key == w.key && w.id.availableAt == w.availableAt && w.id.provider == w.source && w.id.values == w.values
    && forall i :: 0 <= i < |rows| && rows[i].key == w.key ==>
         rows[i].source == w.source && rows[i].availableAt < w.availableAt && rows[i].ingestedAt < w.ingestedAt
  }

  lemma {:induction false} FreshExtends(rows: seq<Row>, w: Row)
    requires RowsOk(rows) && Fresh(rows, w)
    ensures RowsOk(rows + [w])
  {}

  lemma {:induction false} IdentityIsARow(rows: seq<Row>, source: Provider, id: RecordId)
    ensures var r := ByIdentity(rows, source, id); r.Some? ==> r.value in rows && r.value.source == source && r.value.id == id
  {
    if rows == [] {
    } else {
      IdentityIsARow(rows[..|rows| - 1], source, id);
    }
  }

  /** A fresh revision is always appended: its identity cannot be taken. */
  lemma {:induction false} FreshIsAppended(a: Appending, w: Row)
    requires RowsOk(a.rows) && Fresh(a.rows, w)
    ensures AppendOne(a, w, true) == Ok(Appending(a.rows + [w], a.appended + [w.id], a.repeated))
  {
    forall s | s in SourcesOf(a.rows, w.key) ensures s == w.source {
      var i :| 0 <= i < |a.rows| && a.rows[i].key == w.key && a.rows[i].source == s;
    }
    IdentityIsARow(a.rows, w.source, w.id);
  }

  ghost predicate AllFresh(rows: seq<Row>, writes: seq<Row>) {
    forall k :: 0 <= k < |writes| ==> Fresh(rows, writes[k])
  }

  function Ids(writes: seq<Row>): (r: seq<RecordId>)
    ensures |r| == |writes| && forall k :: 0 <= k < |r| ==> r[k] == writes[k].id
  {
    seq(|writes|, k requires 0 <= k < |writes| => writes[k].id)
  }

  lemma {:induction false} BatchIsAppended(rows: seq<Row>, writes: seq<Row>)
    requires RowsOk(rows) && AllFresh(rows, writes) && DistinctEvents(writes)
    ensures AppendEach(rows, writes, true) == Ok(Appending(rows + writes, Ids(writes), [])) && RowsOk(rows + writes)
  {
    if writes == [] {
      assert rows + writes == rows;
      assert Ids(writes) == [];
    } else {
      var n := |writes| - 1;
      BatchIsAppended(rows, writes[..n]);
      LastIsAppended(rows, writes);
    }
  }

  lemma {:induction false} LastIsAppended(rows: seq<Row>, writes: seq<Row>)
    requires writes != [] && AllFresh(rows, writes) && DistinctEvents(writes)
    requires var front := writes[..|writes| - 1];
             AppendEach(rows, front, true) == Ok(Appending(rows + front, Ids(front), [])) && RowsOk(rows + front)
    ensures AppendEach(rows, writes, true) == Ok(Appending(rows + writes, Ids(writes), [])) && RowsOk(rows + writes)
  {
    hide *;
    var front, w := writes[..|writes| - 1], writes[|writes| - 1];
    LastIsFresh(rows, writes);
    AppendEachLast(rows, writes);
    FreshIsAppended(Appending(rows + front, Ids(front), []), w);
    FreshExtends(rows + front, w);
    assert rows + front + [w] == rows + writes;
    assert Ids(front) + [w.id] == Ids(writes);
  }

  lemma {:induction false} AppendEachLast(rows: seq<Row>, writes: seq<Row>)
    requires writes != [] && AppendEach(rows, writes[..|writes| - 1], true).Ok?
    ensures AppendEach(rows, writes, true) == AppendOne(AppendEach(rows, writes[..|writes| - 1], true).value, writes[|writes| - 1], true)
  {}

  lemma {:induction false} LastIsFresh(rows: seq<Row>, writes: seq<Row>)
    requires writes != [] && AllFresh(rows, writes) && DistinctEvents(writes)
    ensures Fresh(rows + writes[..|writes| - 1], writes[|writes| - 1])
  {
    FreshAfterBatch(rows, writes[..|writes| - 1], writes[|writes| - 1]);
  }

  lemma {:induction false} FreshAfterBatch(rows: seq<Row>, front: seq<Row>, w: Row)
    requires Fresh(rows, w) && forall k :: 0 <= k < |front| ==> front[k].key != w.key
    ensures Fresh(rows + front, w)
  {}

  lemma {:induction false} LastIsNewest(rows: seq<Row>, key: Key)
    requires RowsOk(rows) && LastOf(rows, key).Some?
    ensures forall i :: 0 <= i < |rows| && rows[i].key == key ==>
              rows[i].ingestedAt <= LastOf(rows, key).value.ingestedAt
  {
    var n := |rows| - 1;
    if rows[n].key != key {
      LastIsNewest(rows[..n], key);
    }
  }

  /** What a draft is: a correction at the ingestion time of a known event, or the first baseline at its close. */
  ghost predicate DraftOf(rows: seq<Row>, w: Row, b: Fetched, schedule: Schedule, now: Instant) {
    && Fresh(rows, w) && w.key == b.key && w.values == b.values && w.ingestedAt == now && w.source == b.provider
    && w.id == RecordId(b.provider, b.key, b.values, b.native, b.record,
                        if LastOf(rows, b.key).Some? then Correction else Baseline, w.availableAt)
    && (LastOf(rows, b.key).Some? ==> w.availableAt == now && LastOf(rows, b.key).value.values != b.values)
    && (LastOf(rows, b.key).None? ==> b.key.session in schedule.closes && w.availableAt == schedule.closes[b.key.session])
  }

  lemma {:induction false} CandidateFacts(rows: seq<Row>, b: Fetched, provider: Provider, schedule: Schedule, now: Instant, tie: Tie)
    requires RowsOk(rows) && b.provider == provider
    requires b.key.session in schedule.closes && schedule.closes[b.key.session] <= now
    ensures match Candidate(rows, b, provider, schedule, now, tie)
            case Err(fault) => fault in {OtherSource, Clock}
            case Ok(None) => Repeats(rows, b)
            case Ok(Some(w)) => DraftOf(rows, w, b, schedule, now)
  {
    if SourcesOf(rows, b.key) <= {provider} {
      ObservedIsLastWritten(rows, provider, b.key, tie);
      LastOfIsARow(rows, b.key);
      if LastOf(rows, b.key).Some? {
        LastIsNewest(rows, b.key);
      }
      forall i | 0 <= i < |rows| && rows[i].key == b.key ensures rows[i].source == provider {
        assert rows[i].source in SourcesOf(rows, b.key);
      }
    }
  }

  ghost predicate Drafted(rows: seq<Row>, w: Row, bars: seq<Fetched>, schedule: Schedule, now: Instant) {
    exists i :: 0 <= i < |bars| && DraftOf(rows, w, bars[i], schedule, now)
  }

  /** The bar repeats the last revision of its event, or one of the writes was drafted from it. */
  ghost predicate Covered(rows: seq<Row>, writes: seq<Row>, b: Fetched, schedule: Schedule, now: Instant) {
    Repeats(rows, b) || exists k :: 0 <= k < |writes| && DraftOf(rows, writes[k], b, schedule, now)
  }

  predicate Repeats(rows: seq<Row>, b: Fetched) {
    LastOf(rows, b.key).Some? && LastOf(rows, b.key).value.values == b.values
  }

  ghost predicate DistinctEvents(writes: seq<Row>) {
    forall j, k :: 0 <= j < k < |writes| ==> writes[j].key != writes[k].key
  }

  /** Each draft comes from one of the bars; a bar without a draft repeats what is known. */
  ghost predicate DraftsFrom(rows: seq<Row>, d: Drafts, bars: seq<Fetched>, schedule: Schedule, now: Instant) {
    && |d.writes| + d.repeated == |bars|
    && DistinctEvents(d.writes)
    && (forall k :: 0 <= k < |d.writes| ==> Drafted(rows, d.writes[k], bars, schedule, now))
    && forall i :: 0 <= i < |bars| ==> Covered(rows, d.writes, bars[i], schedule, now)
  }

  lemma {:induction false} CandidatesFacts(rows: seq<Row>, bars: seq<Fetched>, provider: Provider, schedule: Schedule,
                                           now: Instant, tie: Tie)
    requires RowsOk(rows) && DistinctKeys(bars)
    requires forall i :: 0 <= i < |bars| ==>
               && bars[i].provider == provider
               && bars[i].key.session in schedule.closes && schedule.closes[bars[i].key.session] <= now
    ensures match Candidates(rows, bars, provider, schedule, now, tie)
            case Err(fault) => fault in {OtherSource, Clock}
            case Ok(d) => DraftsFrom(rows, d, bars, schedule, now)
  {
    if bars == [] {
    } else {
      var n := |bars| - 1;
      var front, b := bars[..n], bars[n];
      CandidatesFacts(rows, front, provider, schedule, now, tie);
      CandidateFacts(rows, b, provider, schedule, now, tie);
      var before := Candidates(rows, front, provider, schedule, now, tie);
      if before.Ok? && Candidate(rows, b, provider, schedule, now, tie).Ok? {
        assert bars == front + [b];
        match Candidate(rows, b, provider, schedule, now, tie).value
        case None => DraftsRepeat(rows, before.value, front, b, schedule, now);
        case Some(w) => DraftsWrite(rows, before.value, front, b, w, schedule, now);
      }
    }
  }

  lemma {:induction false} DraftedKey(rows: seq<Row>, w: Row, bars: seq<Fetched>, b: Fetched, schedule: Schedule, now: Instant)
    requires Drafted(rows, w, bars, schedule, now) && forall i :: 0 <= i < |bars| ==> bars[i].key != b.key
    ensures w.key != b.key && Drafted(rows, w, bars + [b], schedule, now)
  {
    var i :| 0 <= i < |bars| && DraftOf(rows, w, bars[i], schedule, now);
    assert (bars + [b])[i] == bars[i];
  }

  lemma {:induction false} CoveredWiden(rows: seq<Row>, writes: seq<Row>, w: Row, b: Fetched, schedule: Schedule, now: Instant)
    requires Covered(rows, writes, b, schedule, now)
    ensures Covered(rows, writes + [w], b, schedule, now)
  {
    if !Repeats(rows, b) {
      var k :| 0 <= k < |writes| && DraftOf(rows, writes[k], b, schedule, now);
      assert (writes + [w])[k] == writes[k];
    }
  }

  lemma {:induction false} DraftsRepeat(rows: seq<Row>, d: Drafts, front: seq<Fetched>, b: Fetched, schedule: Schedule, now: Instant)
    requires DraftsFrom(rows, d, front, schedule, now) && forall i :: 0 <= i < |front| ==> front[i].key != b.key
    requires Repeats(rows, b)
    ensures DraftsFrom(rows, d.(repeated := d.repeated + 1), front + [b], schedule, now)
  {
    forall k | 0 <= k < |d.writes| ensures Drafted(rows, d.writes[k], front + [b], schedule, now) {
      DraftedKey(rows, d.writes[k], front, b, schedule, now);
    }
  }

  lemma {:induction false} DraftsWrite(rows: seq<Row>, d: Drafts, front: seq<Fetched>, b: Fetched, w: Row,
                                       schedule: Schedule, now: Instant)
    requires DraftsFrom(rows, d, front, schedule, now) && forall i :: 0 <= i < |front| ==> front[i].key != b.key
    requires DraftOf(rows, w, b, schedule, now)
    ensures DraftsFrom(rows, d.(writes := d.writes + [w]), front + [b], schedule, now)
  {
    var bars, writes := front + [b], d.writes + [w];
    assert bars[|front|] == b && writes[|d.writes|] == w;
    forall k | 0 <= k < |d.writes| ensures Drafted(rows, d.writes[k], bars, schedule, now) && d.writes[k].key != b.key {
      DraftedKey(rows, d.writes[k], front, b, schedule, now);
    }
    forall i | 0 <= i < |front| ensures Covered(rows, writes, front[i], schedule, now) {
      CoveredWiden(rows, d.writes, w, front[i], schedule, now);
    }
  }

  lemma {:induction false} DraftsAreFresh(rows: seq<Row>, d: Drafts, bars: seq<Fetched>, schedule: Schedule, now: Instant)
    requires DraftsFrom(rows, d, bars, schedule, now) && ValidBars(bars)
    ensures AllFresh(rows, d.writes) && DistinctWrites(d.writes)
    ensures forall k :: 0 <= k < |d.writes| ==> Storable(d.writes[k].values)
  {
    forall k | 0 <= k < |d.writes| ensures Fresh(rows, d.writes[k]) && Storable(d.writes[k].values) {
      assert Drafted(rows, d.writes[k], bars, schedule, now);
      var i :| 0 <= i < |bars| && DraftOf(rows, d.writes[k], bars[i], schedule, now);
    }
    forall i, j | 0 <= i < j < |d.writes|
      ensures (d.writes[i].source, d.writes[i].id) != (d.writes[j].source, d.writes[j].id)
      ensures (d.writes[i].source, d.writes[i].key) != (d.writes[j].source, d.writes[j].key)
    {
      assert d.writes[i].key != d.writes[j].key;
      assert Fresh(rows, d.writes[i]) && Fresh(rows, d.writes[j]);
    }
  }

  /** The bars of a reply the checks let through. */
  predicate Admitted(provider: Provider, q: Request, schedule: Schedule, now: Instant, reply: Reply) {
    && schedule.market == q.market && schedule.start == q.start && schedule.end == q.end
    && (forall d :: d in schedule.closes ==> schedule.closes[d] <= now)
    && reply.Bars? && reply.bars != [] && ValidBars(reply.bars) && DistinctKeys(reply.bars) && Ascend(reply.bars)
    && FirstMisfit(reply.bars, provider, q, schedule).None?
  }

  /** All that one ingestion can do: nothing, or append exactly the drafts of its bars. */
  ghost predicate Appends(rows: seq<Row>, after: seq<Row>, d: Drafts, bars: seq<Fetched>, schedule: Schedule, now: Instant) {
    && after == rows + d.writes && DraftsFrom(rows, d, bars, schedule, now) && AllFresh(rows, d.writes) && RowsOk(after)
  }

  /** A bar of the provider for the request's own event, within its range and on a scheduled session. */
  ghost predicate Belongs(b: Fetched, provider: Provider, q: Request, schedule: Schedule) {
    && b.provider == provider && b.key.market == q.market && b.key.symbol == q.symbol
    && q.start <= b.key.session <= q.end && b.key.session in schedule.closes
  }

  /** What is wrong with a bar that does not belong. */
  ghost predicate Misfits(b: Fetched, provider: Provider, q: Request, schedule: Schedule, fault: Fault) {
    match fault
    case Identity => b.provider != provider || b.key.market != q.market || b.key.symbol != q.symbol
    case OutOfRange => b.key.session < q.start || q.end < b.key.session
    case ScheduleFault => b.key.session !in schedule.closes
    case _ => false
  }

  lemma {:induction false} FirstMisfitIs(bars: seq<Fetched>, provider: Provider, q: Request, schedule: Schedule)
    ensures FirstMisfit(bars, provider, q, schedule).None? <==>
            forall i :: 0 <= i < |bars| ==> Belongs(bars[i], provider, q, schedule)
    ensures match FirstMisfit(bars, provider, q, schedule)
            case None => true
            case Some(fault) =>
              exists i :: 0 <= i < |bars| && Misfits(bars[i], provider, q, schedule, fault)
                          && forall j :: 0 <= j < i ==> Belongs(bars[j], provider, q, schedule)
  {
    if bars == [] {
    } else {
      FirstMisfitIs(bars[1..], provider, q, schedule);
      if Belongs(bars[0], provider, q, schedule) {
        assert forall j :: 0 <= j < |bars| - 1 ==> bars[1..][j] == bars[j + 1];
        match FirstMisfit(bars, provider, q, schedule)
        case None =>
          forall i | 0 <= i < |bars| ensures Belongs(bars[i], provider, q, schedule) {
            if i > 0 {
              assert Belongs(bars[1..][i - 1], provider, q, schedule);
            }
          }
        case Some(fault) =>
          var i :| 0 <= i < |bars| - 1 && Misfits(bars[1..][i], provider, q, schedule, fault)
                   && forall j :: 0 <= j < i ==> Belongs(bars[1..][j], provider, q, schedule);
          forall j | 0 <= j < i + 1 ensures Belongs(bars[j], provider, q, schedule) {
            if j > 0 {
              assert Belongs(bars[1..][j - 1], provider, q, schedule);
            }
          }
          assert Misfits(bars[i + 1], provider, q, schedule, fault);
      } else {
        var fault := FirstMisfit(bars, provider, q, schedule).value;
        assert Misfits(bars[0], provider, q, schedule, fault);
      }
    }
  }

  /** Positive prices with the low below and the high above them all, and numbers the table can hold. */
  ghost predicate SoundValues(v: Values) {
    var prices := [v.open, v.high, v.low, v.close];
    && (forall k :: 0 <= k < |prices| ==> 0.0 < prices[k] && v.low <= prices[k] <= v.high && Supported(prices[k]))
    && 0.0 <= v.volume && Supported(v.volume)
  }

  lemma {:induction false} SoundIsValid(v: Values)
    ensures SoundValues(v) <==> ValidValues(v)
  {
    hide Supported;
    var prices := [v.open, v.high, v.low, v.close];
    if SoundValues(v) {
      assert prices[0] == v.open && prices[1] == v.high && prices[2] == v.low && prices[3] == v.close;
    }
  }

  /**
    A request met: the schedule is the request's and all its sessions have closed, and the
    reply holds sound bars that belong to the request, session after session.
   */
  ghost predicate Admissible(provider: Provider, q: Request, schedule: Schedule, now: Instant, reply: Reply) {
    && (schedule.market, schedule.start, schedule.end) == (q.market, q.start, q.end)
    && (forall d :: d in schedule.closes ==> schedule.closes[d] <= now)
    && reply.Bars? && |reply.bars| > 0
    && (forall i :: 0 <= i < |reply.bars| ==> Belongs(reply.bars[i], provider, q, schedule) && SoundValues(reply.bars[i].values))
    && forall i, j :: 0 <= i < j < |reply.bars| ==> reply.bars[i].key.session < reply.bars[j].key.session
  }

  /** The checks let a reply through exactly when it meets the request. */
  lemma {:induction false} AdmittedIff(provider: Provider, q: Request, schedule: Schedule, now: Instant, reply: Reply)
    ensures Admitted(provider, q, schedule, now, reply) <==> Admissible(provider, q, schedule, now, reply)
  {
    hide SoundValues, ValidValues;
    if reply.Bars? {
      var bars := reply.bars;
      FirstMisfitIs(bars, provider, q, schedule);
      forall i | 0 <= i < |bars| ensures SoundValues(bars[i].values) <==> ValidValues(bars[i].values) {
        SoundIsValid(bars[i].values);
      }
      if forall i :: 0 <= i < |bars| ==> Belongs(bars[i], provider, q, schedule) {
        OneStream(bars, provider, q, schedule);
      }
    }
  }

  lemma {:induction false} OneStream(bars: seq<Fetched>, provider: Provider, q: Request, schedule: Schedule)
    requires forall i :: 0 <= i < |bars| ==> Belongs(bars[i], provider, q, schedule)
    ensures DistinctKeys(bars) && Ascend(bars) <==>
            forall i, j :: 0 <= i < j < |bars| ==> bars[i].key.session < bars[j].key.session
  {
    if DistinctKeys(bars) && Ascend(bars) {
      forall i, j | 0 <= i < j < |bars| ensures bars[i].key.session < bars[j].key.session {
        assert bars[i].key != bars[j].key;
        assert Belongs(bars[i], provider, q, schedule) && Belongs(bars[j], provider, q, schedule);
      }
    }
  }

  lemma {:induction false} IngestOutcome(rows: seq<Row>, provider: Provider, q: Request, schedule: Schedule, now: Instant,
                                         reply: Reply, tie: Tie) returns (d: Drafts)
    requires RowsOk(rows)
    ensures var (after, r) := Ingest(rows, provider, q, schedule, now, reply, tie);
            && (r.Err? ==> after == rows && r.error !in {BatchConflict, Unstorable, InternalContract})
            && (r.Ok? ==>
                  && Admitted(provider, q, schedule, now, reply)
                  && Appends(rows, after, d, reply.bars, schedule, now)
                  && r.value == Report(|reply.bars|, Ids(d.writes), d.repeated))
  {
    d := Drafts([], 0);
    if Admitted(provider, q, schedule, now, reply) {
      var bars := reply.bars;
      FitsAll(bars, provider, q, schedule);
      CandidatesFacts(rows, bars, provider, schedule, now, tie);
      match Candidates(rows, bars, provider, schedule, now, tie)
      case Err(_) =>
      case Ok(drafts) =>
        d := drafts;
        DraftsAreFresh(rows, d, bars, schedule, now);
        BatchIsAppended(rows, d.writes);
        assert d.writes == [] ==> rows + d.writes == rows && Ids(d.writes) == [];
    } else {
      NotAdmitted(rows, provider, q, schedule, now, reply, tie);
    }
  }

  lemma {:induction false} NotAdmitted(rows: seq<Row>, provider: Provider, q: Request, schedule: Schedule, now: Instant,
                                       reply: Reply, tie: Tie)
    requires !Admitted(provider, q, schedule, now, reply)
    ensures var (after, r) := Ingest(rows, provider, q, schedule, now, reply, tie);
            after == rows && r.Err? && r.error !in {BatchConflict, Unstorable, InternalContract}
  {
    if reply.Bars? {
      MisfitKinds(reply.bars, provider, q, schedule);
    }
  }

  lemma {:induction false} MisfitKinds(bars: seq<Fetched>, provider: Provider, q: Request, schedule: Schedule)
    ensures FirstMisfit(bars, provider, q, schedule) in {None, Some(Identity), Some(OutOfRange), Some(ScheduleFault)}
  {
    if bars == [] {
    } else {
      MisfitKinds(bars[1..], provider, q, schedule);
    }
  }

  // ---- the past ----

  lemma {:induction false} KeyOfDraft(rows: seq<Row>, d: Drafts, bars: seq<Fetched>, schedule: Schedule, now: Instant, k: nat)
    requires DraftsFrom(rows, d, bars, schedule, now) && k < |d.writes| && LastOf(rows, d.writes[k].key).Some?
    ensures d.writes[k].availableAt == now
  {
    assert Drafted(rows, d.writes[k], bars, schedule, now);
    var i :| 0 <= i < |bars| && DraftOf(rows, d.writes[k], bars[i], schedule, now);
  }

  lemma {:induction false} InvisibleWrites(rows: seq<Row>, writes: seq<Row>, key: Key, t: Instant)
    requires forall k :: 0 <= k < |writes| ==> writes[k].key != key || writes[k].availableAt > t
    ensures LastBy(rows + writes, key, t) == LastBy(rows, key, t)
  {
    if writes == [] {
      assert rows + writes == rows;
    } else {
      var n := |writes| - 1;
      InvisibleWrites(rows, writes[..n], key, t);
      assert (rows + writes)[..|rows + writes| - 1] == rows + writes[..n];
    }
  }

  /** Once an as-of question has an answer, no ingestion made after that instant changes it. */
  lemma {:induction false} AnswersAreFixed(rows: seq<Row>, provider: Provider, q: Request, schedule: Schedule, now: Instant,
                                           reply: Reply, key: Key, t: Instant, tie: Tie)
    requires RowsOk(rows) && t < now && LatestAsOf(rows, key, t, tie).Some?
    ensures var after := Ingest(rows, provider, q, schedule, now, reply, tie).0;
            LatestAsOf(after, key, t, tie) == LatestAsOf(rows, key, t, tie)
  {
    var d := IngestOutcome(rows, provider, q, schedule, now, reply, tie);
    var (after, r) := Ingest(rows, provider, q, schedule, now, reply, tie);
    if r.Ok? {
      AsOfIsLastWritten(rows, key, t, tie);
      AsOfIsLastWritten(after, key, t, tie);
      LastByIsARow(rows, key, t);
      LastOfIsARow(rows, key);
      forall k | 0 <= k < |d.writes| && d.writes[k].key == key ensures d.writes[k].availableAt > t {
        KeyOfDraft(rows, d, reply.bars, schedule, now, k);
      }
      InvisibleWrites(rows, d.writes, key, t);
    }
  }

  /** A bar from the event's own provider, at a time after its last ingestion unless it repeats it. */
  ghost predicate BarFits(rows: seq<Row>, b: Fetched, provider: Provider, now: Instant) {
    && (forall i :: 0 <= i < |rows| && rows[i].key == b.key ==> rows[i].source == provider)
    && (LastOf(rows, b.key).Some? && LastOf(rows, b.key).value.values != b.values ==> LastOf(rows, b.key).value.ingestedAt < now)
  }

  ghost predicate AllFit(rows: seq<Row>, bars: seq<Fetched>, provider: Provider, now: Instant) {
    forall i :: 0 <= i < |bars| ==> BarFits(rows, bars[i], provider, now)
  }

  lemma {:induction false} OneSource(rows: seq<Row>, key: Key, provider: Provider)
    ensures SourcesOf(rows, key) <= {provider} <==>
            forall i :: 0 <= i < |rows| && rows[i].key == key ==> rows[i].source == provider
  {
    forall i | 0 <= i < |rows| && rows[i].key == key ensures rows[i].source in SourcesOf(rows, key) {
    }
  }

  lemma {:induction false} CandidateOkIff(rows: seq<Row>, b: Fetched, provider: Provider, schedule: Schedule, now: Instant,
                                          tie: Tie)
    requires RowsOk(rows) && b.key.session in schedule.closes && schedule.closes[b.key.session] <= now
    ensures Candidate(rows, b, provider, schedule, now, tie).Ok? <==> BarFits(rows, b, provider, now)
  {
    OneSource(rows, b.key, provider);
    if SourcesOf(rows, b.key) <= {provider} {
      ObservedIsLastWritten(rows, provider, b.key, tie);
    }
  }

  lemma {:induction false} CandidatesOkIff(rows: seq<Row>, bars: seq<Fetched>, provider: Provider, schedule: Schedule,
                                           now: Instant, tie: Tie)
    requires RowsOk(rows)
    requires forall i :: 0 <= i < |bars| ==> bars[i].key.session in schedule.closes && schedule.closes[bars[i].key.session] <= now
    ensures Candidates(rows, bars, provider, schedule, now, tie).Ok? <==> AllFit(rows, bars, provider, now)
  {
    hide BarFits, Candidate;
    if bars == [] {
    } else {
      var n := |bars| - 1;
      CandidatesOkIff(rows, bars[..n], provider, schedule, now, tie);
      CandidateOkIff(rows, bars[n], provider, schedule, now, tie);
      assert AllFit(rows, bars, provider, now) <==> AllFit(rows, bars[..n], provider, now) && BarFits(rows, bars[n], provider, now);
    }
  }

  /** An ingestion succeeds exactly when its reply passes the checks and every bar fits the table. */
  lemma {:induction false} IngestSucceedsIff(rows: seq<Row>, provider: Provider, q: Request, schedule: Schedule, now: Instant,
                                             reply: Reply, tie: Tie)
    requires RowsOk(rows)
    ensures Ingest(rows, provider, q, schedule, now, reply, tie).1.Ok? <==>
            Admissible(provider, q, schedule, now, reply) && AllFit(rows, reply.bars, provider, now)
  {
    hide AllFit, Admissible;
    AdmittedIff(provider, q, schedule, now, reply);
    if Admitted(provider, q, schedule, now, reply) {
      var bars := reply.bars;
      FitsAll(bars, provider, q, schedule);
      CandidatesOkIff(rows, bars, provider, schedule, now, tie);
      CandidatesFacts(rows, bars, provider, schedule, now, tie);
      var drafts := Candidates(rows, bars, provider, schedule, now, tie);
      if drafts.Ok? {
        DraftsAreFresh(rows, drafts.value, bars, schedule, now);
        BatchIsAppended(rows, drafts.value.writes);
      }
    } else {
      NotAdmitted(rows, provider, q, schedule, now, reply, tie);
    }
  }

  /** What is true of the table, the request or the reply when an ingestion is refused for `fault`. */
  ghost predicate Refuses(rows: seq<Row>, provider: Provider, q: Request, schedule: Schedule, now: Instant, reply: Reply,
                          fault: Fault) {
    match fault
    case ScheduleFault =>
      || (schedule.market, schedule.start, schedule.end) != (q.market, q.start, q.end)
      || (exists d :: d in schedule.closes && now < schedule.closes[d])
      || (reply.Bars? && exists i :: 0 <= i < |reply.bars| && reply.bars[i].key.session !in schedule.closes)
    case FetchFault => reply.FetchFailed?
    case EmptyReply => reply == Bars([])
    case BadBar => reply.Bars? && exists i :: 0 <= i < |reply.bars| && !SoundValues(reply.bars[i].values)
    case DuplicateBar => reply.Bars? && exists i, j :: 0 <= i < j < |reply.bars| && reply.bars[i].key == reply.bars[j].key
    case OutOfOrder =>
      reply.Bars? && exists i, j :: 0 <= i < j < |reply.bars| && reply.bars[i].key.session > reply.bars[j].key.session
    case Identity | OutOfRange =>
      reply.Bars? && exists i :: 0 <= i < |reply.bars| && Misfits(reply.bars[i], provider, q, schedule, fault)
    case OtherSource =>
      reply.Bars? && exists i :: 0 <= i < |reply.bars| && OtherSourced(rows, reply.bars[i], provider)
    case Clock =>
      reply.Bars? && exists i :: 0 <= i < |reply.bars| && Outrun(rows, reply.bars[i], now)
    case _ => false
  }

  /** Some revision of the bar's event came from another provider. */
  ghost predicate OtherSourced(rows: seq<Row>, b: Fetched, provider: Provider) {
    exists k :: 0 <= k < |rows| && rows[k].key == b.key && rows[k].source != provider
  }

  /** The bar changes an event whose last revision was ingested no earlier than `now`. */
  ghost predicate Outrun(rows: seq<Row>, b: Fetched, now: Instant) {
    && LastOf(rows, b.key).Some? && LastOf(rows, b.key).value.values != b.values
    && now <= LastOf(rows, b.key).value.ingestedAt
  }

  lemma {:induction false} CandidateFault(rows: seq<Row>, b: Fetched, provider: Provider, schedule: Schedule, now: Instant,
                                          tie: Tie)
    requires RowsOk(rows) && b.key.session in schedule.closes && schedule.closes[b.key.session] <= now
    ensures match Candidate(rows, b, provider, schedule, now, tie)
            case Ok(_) => true
            case Err(OtherSource) => OtherSourced(rows, b, provider)
            case Err(Clock) => Outrun(rows, b, now)
            case Err(_) => false
  {
    OneSource(rows, b.key, provider);
    if SourcesOf(rows, b.key) <= {provider} {
      ObservedIsLastWritten(rows, provider, b.key, tie);
    }
  }

  lemma {:induction false} CandidatesFault(rows: seq<Row>, bars: seq<Fetched>, provider: Provider, schedule: Schedule,
                                           now: Instant, tie: Tie)
    requires RowsOk(rows)
    requires forall i :: 0 <= i < |bars| ==> bars[i].key.session in schedule.closes && schedule.closes[bars[i].key.session] <= now
    ensures match Candidates(rows, bars, provider, schedule, now, tie)
            case Ok(_) => true
            case Err(OtherSource) => exists i :: 0 <= i < |bars| && OtherSourced(rows, bars[i], provider)
            case Err(Clock) => exists i :: 0 <= i < |bars| && Outrun(rows, bars[i], now)
            case Err(_) => false
  {
    hide Candidate, OtherSourced, Outrun;
    if bars == [] {
    } else {
      var n := |bars| - 1;
      CandidatesFault(rows, bars[..n], provider, schedule, now, tie);
      CandidateFault(rows, bars[n], provider, schedule, now, tie);
    }
  }

  lemma {:induction false} RefusedAfterChecks(rows: seq<Row>, provider: Provider, q: Request, schedule: Schedule, now: Instant,
                                              reply: Reply, tie: Tie)
    requires RowsOk(rows) && Admitted(provider, q, schedule, now, reply)
    ensures var r := Ingest(rows, provider, q, schedule, now, reply, tie).1;
            r.Err? ==> Refuses(rows, provider, q, schedule, now, reply, r.error)
  {
    hide OtherSourced, Outrun, SoundValues, ValidValues, Candidate, Candidates, DraftsFrom, AppendEach;
    var bars := reply.bars;
    FitsAll(bars, provider, q, schedule);
    CandidatesFault(rows, bars, provider, schedule, now, tie);
    CandidatesFacts(rows, bars, provider, schedule, now, tie);
    var drafts := Candidates(rows, bars, provider, schedule, now, tie);
    if drafts.Ok? {
      DraftsAreFresh(rows, drafts.value, bars, schedule, now);
      assert DistinctEvents(drafts.value.writes) by { assert DraftsFrom(rows, drafts.value, bars, schedule, now); }
      BatchIsAppended(rows, drafts.value.writes);
    }
  }

  /** A refused ingestion is refused for something that is so. */
  lemma {:induction false} RefusedForItsFault(rows: seq<Row>, provider: Provider, q: Request, schedule: Schedule, now: Instant,
                                              reply: Reply, tie: Tie)
    requires RowsOk(rows)
    ensures var r := Ingest(rows, provider, q, schedule, now, reply, tie).1;
            r.Err? ==> Refuses(rows, provider, q, schedule, now, reply, r.error)
  {
    if Admitted(provider, q, schedule, now, reply) {
      RefusedAfterChecks(rows, provider, q, schedule, now, reply, tie);
    } else {
      hide OtherSourced, Outrun, SoundValues, ValidValues, Candidates, Store;
      if reply.Bars? {
        NotAdmittedFault(provider, q, schedule, now, reply.bars);
        FirstMisfitIs(reply.bars, provider, q, schedule);
      }
    }
  }

  lemma {:induction false} NotAdmittedFault(provider: Provider, q: Request, schedule: Schedule, now: Instant, bars: seq<Fetched>)
    ensures !ValidBars(bars) ==> exists i :: 0 <= i < |bars| && !SoundValues(bars[i].values)
  {
    hide SoundValues, ValidValues;
    if !ValidBars(bars) {
      var i :| 0 <= i < |bars| && !ValidValues(bars[i].values);
      SoundIsValid(bars[i].values);
    }
  }

  /**
    A past answer moves exactly when there was none, the event's first baseline comes in
    although its session closed by then, and the ingestion passes its checks.
   */
  lemma {:induction false} PastMovesIff(rows: seq<Row>, provider: Provider, q: Request, schedule: Schedule, now: Instant,
                                        reply: Reply, key: Key, t: Instant, tie: Tie)
    requires RowsOk(rows) && t < now
    ensures var after := Ingest(rows, provider, q, schedule, now, reply, tie).0;
            LatestAsOf(after, key, t, tie) != LatestAsOf(rows, key, t, tie) <==>
            && LastOf(rows, key).None?
            && Admissible(provider, q, schedule, now, reply) && AllFit(rows, reply.bars, provider, now)
            && (exists i :: 0 <= i < |reply.bars| && reply.bars[i].key == key)
            && key.session in schedule.closes && schedule.closes[key.session] <= t
  {
    var d := IngestOutcome(rows, provider, q, schedule, now, reply, tie);
    var (after, r) := Ingest(rows, provider, q, schedule, now, reply, tie);
    IngestSucceedsIff(rows, provider, q, schedule, now, reply, tie);
    if r.Ok? {
      hide Admissible, AllFit;
      AsOfIsLastWritten(rows, key, t, tie);
      AsOfIsLastWritten(after, key, t, tie);
      LastByIsARow(rows, key, t);
      LastByIsARow(after, key, t);
      LastOfIsARow(rows, key);
      if LastOf(rows, key).Some? {
        forall k | 0 <= k < |d.writes| && d.writes[k].key == key ensures d.writes[k].availableAt > t {
          KeyOfDraft(rows, d, reply.bars, schedule, now, k);
        }
        InvisibleWrites(rows, d.writes, key, t);
      } else {
        FirstBaseline(rows, d, reply.bars, schedule, now, key, t);
      }
    }
  }

  /** It happens: into an empty table, a bar fetched late answers a question that had no answer before. */
  lemma {:induction false} LateBaselineMovesThePast(provider: Provider, b: Fetched, close: Instant, t: Instant, now: Instant,
                                                    tie: Tie)
    requires ValidValues(b.values) && b.provider == provider && close <= t < now
    ensures var q := Request(b.key.market, b.key.symbol, b.key.session, b.key.session);
            var schedule := Schedule(q.market, q.start, q.end, map[b.key.session := close]);
            var after := Ingest([], provider, q, schedule, now, Bars([b]), tie).0;
            LatestAsOf([], b.key, t, tie).None? && LatestAsOf(after, b.key, t, tie).Some?
  {
    var q := Request(b.key.market, b.key.symbol, b.key.session, b.key.session);
    var schedule := Schedule(q.market, q.start, q.end, map[b.key.session := close]);
    var bars := [b];
    assert bars[1..] == [] && FirstMisfit(bars[1..], provider, q, schedule).None?;
    assert bars[0].key == b.key;
    PastMovesIff([], provider, q, schedule, now, Bars(bars), b.key, t, tie);
  }

  lemma {:induction false} FirstBaseline(rows: seq<Row>, d: Drafts, bars: seq<Fetched>, schedule: Schedule, now: Instant,
                                         key: Key, t: Instant)
    requires DraftsFrom(rows, d, bars, schedule, now) && LastOf(rows, key).None?
    ensures (exists k :: 0 <= k < |d.writes| && d.writes[k].key == key && d.writes[k].availableAt <= t) <==>
            && (exists i :: 0 <= i < |bars| && bars[i].key == key)
            && key.session in schedule.closes && schedule.closes[key.session] <= t
    ensures LastBy(rows + d.writes, key, t).Some? <==>
            exists k :: 0 <= k < |d.writes| && d.writes[k].key == key && d.writes[k].availableAt <= t
  {
    forall k | 0 <= k < |d.writes| && d.writes[k].key == key
      ensures key.session in schedule.closes && d.writes[k].availableAt == schedule.closes[key.session]
              && exists i :: 0 <= i < |bars| && bars[i].key == key
    {
      assert Drafted(rows, d.writes[k], bars, schedule, now);
      var i :| 0 <= i < |bars| && DraftOf(rows, d.writes[k], bars[i], schedule, now);
    }
    if i :| 0 <= i < |bars| && bars[i].key == key {
      assert Covered(rows, d.writes, bars[i], schedule, now);
      var k :| 0 <= k < |d.writes| && DraftOf(rows, d.writes[k], bars[i], schedule, now);
      assert d.writes[k].key == key;
    }
    LastOfIsARow(rows, key);
    LastByIsARow(rows + d.writes, key, t);
    if k :| 0 <= k < |d.writes| && d.writes[k].key == key && d.writes[k].availableAt <= t {
      assert (rows + d.writes)[|rows| + k] == d.writes[k];
    }
  }

  // ---- ingesting again ----

  lemma {:induction false} LastOfAppended(rows: seq<Row>, writes: seq<Row>, key: Key)
    ensures (forall k :: 0 <= k < |writes| ==> writes[k].key != key) ==> LastOf(rows + writes, key) == LastOf(rows, key)
    ensures forall k :: 0 <= k < |writes| && writes[k].key == key && DistinctEvents(writes) ==>
              LastOf(rows + writes, key) == Some(writes[k])
  {
    if writes == [] {
      assert rows + writes == rows;
    } else {
      var n := |writes| - 1;
      LastOfAppended(rows, writes[..n], key);
      assert (rows + writes)[..|rows + writes| - 1] == rows + writes[..n];
      assert (rows + writes)[|rows + writes| - 1] == writes[n];
      forall k | 0 <= k < |writes| && writes[k].key == key && DistinctEvents(writes)
        ensures LastOf(rows + writes, key) == Some(writes[k])
      {
        if k < n {
          assert writes[..n][k] == writes[k];
        }
      }
    }
  }

  /** After an ingestion every bar it received repeats the last revision of its event. */
  lemma {:induction false} AllRepeat(rows: seq<Row>, d: Drafts, bars: seq<Fetched>, schedule: Schedule, now: Instant, i: nat)
    requires DraftsFrom(rows, d, bars, schedule, now) && DistinctKeys(bars) && i < |bars|
    ensures Repeats(rows + d.writes, bars[i])
  {
    var b := bars[i];
    assert Covered(rows, d.writes, b, schedule, now);
    LastOfAppended(rows, d.writes, b.key);
    if exists k :: 0 <= k < |d.writes| && d.writes[k].key == b.key {
      var k :| 0 <= k < |d.writes| && d.writes[k].key == b.key;
      assert Drafted(rows, d.writes[k], bars, schedule, now);
      var j :| 0 <= j < |bars| && DraftOf(rows, d.writes[k], bars[j], schedule, now);
      assert j == i;
    } else {
      assert Repeats(rows, b);
    }
  }

  lemma {:induction false} RepeatsYieldNothing(rows: seq<Row>, bars: seq<Fetched>, provider: Provider, schedule: Schedule,
                                               now: Instant, tie: Tie)
    requires RowsOk(rows)
    requires forall i :: 0 <= i < |bars| ==>
               bars[i].key.session in schedule.closes && Repeats(rows, bars[i]) && SourcesOf(rows, bars[i].key) <= {provider}
    ensures Candidates(rows, bars, provider, schedule, now, tie) == Ok(Drafts([], |bars|))
  {
    if bars == [] {
    } else {
      var n := |bars| - 1;
      RepeatsYieldNothing(rows, bars[..n], provider, schedule, now, tie);
      ObservedIsLastWritten(rows, provider, bars[n].key, tie);
    }
  }

  lemma {:induction false} CandidateFromOwnSource(rows: seq<Row>, b: Fetched, provider: Provider, schedule: Schedule,
                                                   now: Instant, tie: Tie)
    requires b.key.session in schedule.closes
    ensures var r := Candidate(rows, b, provider, schedule, now, tie);
            r.Ok? ==> SourcesOf(rows, b.key) <= {provider} && (r.value.Some? ==> r.value.value.source == provider)
  {}

  /** Every bar is of the provider alone, and so is every draft. */
  ghost predicate OwnBars(rows: seq<Row>, bars: seq<Fetched>, writes: seq<Row>, provider: Provider) {
    && (forall i :: 0 <= i < |bars| ==> SourcesOf(rows, bars[i].key) <= {provider})
    && forall k :: 0 <= k < |writes| ==> writes[k].source == provider
  }

  lemma {:induction false} OwnBarsGrow(rows: seq<Row>, bars: seq<Fetched>, writes: seq<Row>, provider: Provider, b: Fetched,
                                       w: Option<Row>)
    requires OwnBars(rows, bars, writes, provider) && SourcesOf(rows, b.key) <= {provider}
    requires w.Some? ==> w.value.source == provider
    ensures OwnBars(rows, bars + [b], writes + (if w.Some? then [w.value] else []), provider)
  {
    hide SourcesOf;
  }

  lemma {:induction false} CandidatesFromOwnSource(rows: seq<Row>, bars: seq<Fetched>, provider: Provider, schedule: Schedule,
                                                    now: Instant, tie: Tie)
    requires forall i :: 0 <= i < |bars| ==> bars[i].key.session in schedule.closes
    ensures var r := Candidates(rows, bars, provider, schedule, now, tie); r.Ok? ==> OwnBars(rows, bars, r.value.writes, provider)
  {
    if bars == [] {
    } else {
      hide Candidate, OwnBars, SourcesOf;
      var n := |bars| - 1;
      CandidatesFromOwnSource(rows, bars[..n], provider, schedule, now, tie);
      CandidateFromOwnSource(rows, bars[n], provider, schedule, now, tie);
      if Candidates(rows, bars, provider, schedule, now, tie).Ok? {
        var before := Candidates(rows, bars[..n], provider, schedule, now, tie).value.writes;
        var w := Candidate(rows, bars[n], provider, schedule, now, tie).value;
        OwnBarsGrow(rows, bars[..n], before, provider, bars[n], w);
        assert bars[..n] + [bars[n]] == bars && before + [] == before;
      }
    }
  }

  lemma {:induction false} SourcesAppended(rows: seq<Row>, writes: seq<Row>, key: Key, provider: Provider)
    requires SourcesOf(rows, key) <= {provider} && forall k :: 0 <= k < |writes| ==> writes[k].source == provider
    ensures SourcesOf(rows + writes, key) <= {provider}
  {
    forall s | s in SourcesOf(rows + writes, key) ensures s == provider {
      var i :| 0 <= i < |rows + writes| && (rows + writes)[i].key == key && (rows + writes)[i].source == s;
      if i < |rows| {
        assert rows[i].source in SourcesOf(rows, key);
      }
    }
  }

  /** Ingesting the same reply again, at any admissible time, appends nothing and reports every bar as known. */
  lemma {:induction false} ReingestingIsSilent(rows: seq<Row>, provider: Provider, q: Request, schedule: Schedule, now: Instant,
                                               reply: Reply, again: Instant, tie: Tie, tieAgain: Tie)
    requires RowsOk(rows) && Ingest(rows, provider, q, schedule, now, reply, tie).1.Ok?
    requires forall d :: d in schedule.closes ==> schedule.closes[d] <= again
    ensures var after := Ingest(rows, provider, q, schedule, now, reply, tie).0;
            Ingest(after, provider, q, schedule, again, reply, tieAgain) == (after, Ok(Report(|reply.bars|, [], |reply.bars|)))
  {
    var d := IngestOutcome(rows, provider, q, schedule, now, reply, tie);
    var bars, after := reply.bars, rows + d.writes;
    FitsAll(bars, provider, q, schedule);
    CandidatesFromOwnSource(rows, bars, provider, schedule, now, tie);
    OwnDrafts(rows, provider, q, schedule, now, reply, tie, d);
    forall i | 0 <= i < |bars| ensures Repeats(after, bars[i]) && SourcesOf(after, bars[i].key) <= {provider} {
      AllRepeat(rows, d, bars, schedule, now, i);
      SourcesAppended(rows, d.writes, bars[i].key, provider);
    }
    RepeatsYieldNothing(after, bars, provider, schedule, again, tieAgain);
  }

  lemma {:induction false} OwnDrafts(rows: seq<Row>, provider: Provider, q: Request, schedule: Schedule, now: Instant,
                                     reply: Reply, tie: Tie, d: Drafts)
    requires RowsOk(rows) && Admitted(provider, q, schedule, now, reply)
    requires var (after, r) := Ingest(rows, provider, q, schedule, now, reply, tie);
             r.Ok? && Appends(rows, after, d, reply.bars, schedule, now)
    ensures forall k :: 0 <= k < |d.writes| ==> d.writes[k].source == provider
    ensures forall i :: 0 <= i < |reply.bars| ==> SourcesOf(rows, reply.bars[i].key) <= {provider}
  {
    var bars := reply.bars;
    FitsAll(bars, provider, q, schedule);
    CandidatesFacts(rows, bars, provider, schedule, now, tie);
    CandidatesFromOwnSource(rows, bars, provider, schedule, now, tie);
    var drafts := Candidates(rows, bars, provider, schedule, now, tie);
    DraftsAreFresh(rows, drafts.value, bars, schedule, now);
    BatchIsAppended(rows, drafts.value.writes);
    assert rows + drafts.value.writes == rows + d.writes;
    assert drafts.value.writes == (rows + drafts.value.writes)[|rows|..] == (rows + d.writes)[|rows|..] == d.writes;
  }

  /** Identities are unique wherever both clocks increase along each event. */
  lemma {:induction false} OrderedRowsAreUnique(rows: seq<Row>)
    requires RowsOk(rows)
    ensures UniqueIds(rows)
  {
    forall i, j | 0 <= i < j < |rows| ensures rows[i].id != rows[j].id {
      assert rows[i].key == rows[j].key ==> rows[i].availableAt < rows[j].availableAt;
    }
  }

  // ---- whole histories ----

  datatype Event = Event(provider: Provider, request: Request, schedule: Schedule, now: Instant, reply: Reply)

  function After(events: seq<Event>, tie: Tie): seq<Row> {
    if events == [] then []
    else
      var e := events[|events| - 1];
      Ingest(After(events[..|events| - 1], tie), e.provider, e.request, e.schedule, e.now, e.reply, tie).0
  }

  /** A table filled by ingestors alone, of any providers, under any clocks, is in order. */
  lemma {:induction false} IngestedRowsAreOk(events: seq<Event>, tie: Tie)
    ensures RowsOk(After(events, tie))
  {
    if events == [] {
    } else {
      var n := |events| - 1;
      var e := events[n];
      IngestedRowsAreOk(events[..n], tie);
      var d := IngestOutcome(After(events[..n], tie), e.provider, e.request, e.schedule, e.now, e.reply, tie);
    }
  }

  /** An answer given at `t` stands at the end of any history whose later ingestions happen after `t`. */
  lemma {:induction false} AnswersStand(events: seq<Event>, i: nat, key: Key, t: Instant, tie: Tie)
    requires i <= |events| && LatestAsOf(After(events[..i], tie), key, t, tie).Some?
    requires forall k :: i <= k < |events| ==> events[k].now > t
    ensures LatestAsOf(After(events, tie), key, t, tie) == LatestAsOf(After(events[..i], tie), key, t, tie)
    decreases |events|
  {
    hide *;
    if i == |events| {
      assert events[..i] == events;
    } else {
      var n := |events| - 1;
      assert events[..n][..i] == events[..i];
      AnswersStand(events[..n], i, key, t, tie);
      LastIngestionKeeps(events, key, t, tie);
    }
  }

  lemma {:induction false} LastIngestion(events: seq<Event>, tie: Tie)
    requires events != []
    ensures var e := events[|events| - 1];
            After(events, tie) ==
            Ingest(After(events[..|events| - 1], tie), e.provider, e.request, e.schedule, e.now, e.reply, tie).0
  {}

  lemma {:induction false} LastIngestionKeeps(events: seq<Event>, key: Key, t: Instant, tie: Tie)
    requires events != [] && events[|events| - 1].now > t
    requires LatestAsOf(After(events[..|events| - 1], tie), key, t, tie).Some?
    ensures LatestAsOf(After(events, tie), key, t, tie) == LatestAsOf(After(events[..|events| - 1], tie), key, t, tie)
  {
    hide *;
    var n := |events| - 1;
    var e := events[n];
    LastIngestion(events, tie);
    IngestedRowsAreOk(events[..n], tie);
    AnswersAreFixed(After(events[..n], tie), e.provider, e.request, e.schedule, e.now, e.reply, key, t, tie);
  }
}
