/**
 The Agent's durable detection state: the `DetectionEvent` and `SnapshotOutbox` tables and the JPEG
 spool.  Every repository operation is one transaction; it appears twice, as a function on the table
 (used to state properties) and as the repository method that performs it.
 */
module OutboxTables {
  import opened Common
  import opened BackendLedger

  // The outbox row's terminal states; `Pending` is the only state an operation may leave.
  datatype Delivery = Pending | Delivered | SuppressedByQuota

  datatype EventRow = EventRow(facts: Facts, status: Delivery, deliveredAt: Option<int>, finalizedAt: Option<int>)

  datatype Capture = Captured | CaptureFailed

  datatype Upload = UploadPending | Uploaded | UploadSuppressed

  datatype UploadFailure =
    | Timeout | TransportFailure | ServerFailure | Unauthorized | InvalidResponse | UnexpectedStatus
    | Conflict | LocalFileMissing | LocalFileModified

  datatype SnapshotRow = SnapshotRow(
    capture: Capture,
    upload: Upload,
    alertId: Option<AlertId>,
    sizeBytes: nat,
    sha256: Digest,
    capturedAt: int,
    uploadedAt: Option<int>,
    attempts: nat,
    lastAttemptAt: Option<int>,
    lastError: Option<UploadFailure>)

  type Events = map<EventId, EventRow>
  type Outbox = map<EventId, SnapshotRow>
  type SpoolFiles = map<EventId, Bytes>

  // ---- DetectionEvent transactions -------------------------------------------------------------

  predicate IsPending(events: Events, e: EventId) {
    e in events && events[e].status == Pending
  }

  function MarkDelivered(events: Events, ids: set<EventId>, at: int): Events {
    map e | e in events ::
      if e in ids && IsPending(events, e) then events[e].(status := Delivered, deliveredAt := Some(at)) else events[e]
  }

  function MarkSuppressed(events: Events, ids: set<EventId>, at: int): Events {
    map e | e in events ::
      if e in ids && IsPending(events, e) then events[e].(status := SuppressedByQuota, finalizedAt := Some(at)) else events[e]
  }

  // ---- SnapshotOutbox transactions -------------------------------------------------------------

  datatype CreateError = AlreadyExists | NoParentEvent

  function FreshRow(content: Bytes, at: int): SnapshotRow {
    SnapshotRow(Captured, UploadPending, None, |content|, Sha256(content), at, None, 0, None, None)
  }

  /** The primary key refuses a second row; the foreign key refuses a row without its event. */
  function CreateCaptured(outbox: Outbox, events: Events, e: EventId, content: Bytes, at: int): Result<Outbox, CreateError> {
    if e in outbox then Err(AlreadyExists)
    else if e !in events then Err(NoParentEvent)
    else Ok(outbox[e := FreshRow(content, at)])
  }

  datatype AssociateError = AlertConflict

  /** Write-once: absent row is a no-op, equal id is a no-op, different id is refused. */
  function Associate(outbox: Outbox, e: EventId, a: AlertId): Result<(Outbox, bool), AssociateError> {
    if e !in outbox then Ok((outbox, false))
    else if outbox[e].alertId == Some(a) then Ok((outbox, true))
    else if outbox[e].alertId.Some? then Err(AlertConflict)
    else Ok((outbox[e := outbox[e].(alertId := Some(a))], true))
  }

  predicate UploadReady(outbox: Outbox, e: EventId) {
    && e in outbox
    && outbox[e].capture == Captured
    && outbox[e].upload == UploadPending
    && outbox[e].alertId.Some?
  }

  predicate AwaitsUpload(outbox: Outbox, e: EventId) {
    e in outbox && outbox[e].upload == UploadPending
  }

  function MarkUploaded(outbox: Outbox, e: EventId, at: int): Outbox {
    if AwaitsUpload(outbox, e) then outbox[e := outbox[e].(upload := Uploaded, uploadedAt := Some(at))] else outbox
  }

  function RecordAttemptFailure(outbox: Outbox, e: EventId, at: int, reason: UploadFailure): Outbox {
    if e in outbox then
      outbox[e := outbox[e].(attempts := outbox[e].attempts + 1, lastAttemptAt := Some(at), lastError := Some(reason))]
    else outbox
  }

  function MarkCaptureFailed(outbox: Outbox, e: EventId): Outbox {
    if e in outbox && outbox[e].capture == Captured then outbox[e := outbox[e].(capture := CaptureFailed)] else outbox
  }

  function CancelForQuota(outbox: Outbox, e: EventId): Outbox {
    if AwaitsUpload(outbox, e) then outbox[e := outbox[e].(upload := UploadSuppressed)] else outbox
  }

  // ---- What no operation ever undoes -----------------------------------------------------------

  /** Rows are never lost or overwritten: identity and facts are immutable, terminal states final. */
  ghost predicate EventsEvolve(now: Events, before: Events) {
    forall e :: e in before ==>
      && e in now
      && now[e].facts == before[e].facts
      && (before[e].status != Pending ==> now[e] == before[e])
  }

  ghost predicate RowEvolves(now: SnapshotRow, before: SnapshotRow) {
    && now.sizeBytes == before.sizeBytes
    && now.sha256 == before.sha256
    && now.capturedAt == before.capturedAt
    && (before.alertId.Some? ==> now.alertId == before.alertId)
    && (before.upload != UploadPending ==> now.upload == before.upload && now.uploadedAt == before.uploadedAt)
    && (before.capture == CaptureFailed ==> now.capture == CaptureFailed)
    && before.attempts <= now.attempts
  }

  ghost predicate OutboxEvolves(now: Outbox, before: Outbox) {
    forall e :: e in before ==> e in now && RowEvolves(now[e], before[e])
  }

  /** Every event transaction keeps what is settled; a mark settles exactly the pending rows it names. */
  lemma EventTransactionsEvolve(events: Events, e: EventId, facts: Facts, ids: set<EventId>, at: int)
    ensures e !in events ==> EventsEvolve(events[e := EventRow(facts, Pending, None, None)], events)
    ensures EventsEvolve(MarkDelivered(events, ids, at), events)
    ensures EventsEvolve(MarkSuppressed(events, ids, at), events)
    ensures forall f :: IsPending(MarkDelivered(events, ids, at), f) <==> IsPending(events, f) && f !in ids
    ensures forall f :: IsPending(MarkSuppressed(events, ids, at), f) <==> IsPending(events, f) && f !in ids
    ensures MarkDelivered(MarkDelivered(events, ids, at), ids, at + 1) == MarkDelivered(events, ids, at)
    ensures MarkSuppressed(MarkDelivered(events, ids, at), ids, at) == MarkDelivered(events, ids, at)
  {
  }

  lemma OutboxTransactionsEvolve(outbox: Outbox, events: Events, e: EventId, a: AlertId, content: Bytes, at: int, reason: UploadFailure)
    ensures var r := CreateCaptured(outbox, events, e, content, at); r.Ok? ==> OutboxEvolves(r.value, outbox)
    ensures var r := Associate(outbox, e, a); r.Ok? ==> OutboxEvolves(r.value.0, outbox)
    ensures OutboxEvolves(MarkUploaded(outbox, e, at), outbox)
    ensures OutboxEvolves(RecordAttemptFailure(outbox, e, at, reason), outbox)
    ensures OutboxEvolves(MarkCaptureFailed(outbox, e), outbox)
    ensures OutboxEvolves(CancelForQuota(outbox, e), outbox)
  {
  }

  lemma EvolveTransitive(a: Outbox, b: Outbox, c: Outbox)
    requires OutboxEvolves(b, a) && OutboxEvolves(c, b)
    ensures OutboxEvolves(c, a)
  {
    forall e | e in a
      ensures e in c && RowEvolves(c[e], a[e])
    {
      assert e in b && RowEvolves(b[e], a[e]);
    }
  }

  // ---- Oldest-first selection ------------------------------------------------------------------

  /** `ORDER BY when ASC, EventId ASC`. */
  predicate Before(when: map<EventId, int>, x: EventId, y: EventId)
    requires x in when && y in when
  {
    when[x] < when[y] || (when[x] == when[y] && x < y)
  }

  /** `chosen` is what `ORDER BY … LIMIT limit` returns for the rows whose keys are in `when`. */
  ghost predicate IsOldest(chosen: seq<EventId>, when: map<EventId, int>, limit: nat) {
    && |chosen| == Min(limit, |when|)
    && (forall i :: 0 <= i < |chosen| ==> chosen[i] in when)
    && (forall i, j :: 0 <= i < j < |chosen| ==> Before(when, chosen[i], chosen[j]))
    && (forall i, e :: 0 <= i < |chosen| && e in when && e !in chosen ==> Before(when, chosen[i], e))
  }

  /** Selects the oldest `limit` keys, one minimum at a time. */
  method SelectOldest(when: map<EventId, int>, limit: nat) returns (chosen: seq<EventId>)
    ensures IsOldest(chosen, when, limit)
  {
    chosen := [];
    var rest := when.Keys;
    while |chosen| < limit && rest != {}
      invariant |chosen| <= limit
      invariant rest <= when.Keys
      invariant forall e :: e in when && e !in rest ==> e in chosen
      invariant |rest| + |chosen| == |when.Keys|
      invariant forall i :: 0 <= i < |chosen| ==> chosen[i] in when && chosen[i] !in rest
      invariant forall i, j :: 0 <= i < j < |chosen| ==> Before(when, chosen[i], chosen[j])
      invariant forall i, e :: 0 <= i < |chosen| && e in rest ==> Before(when, chosen[i], e)
      decreases rest
    {
      var least := Least(when, rest);
      chosen := chosen + [least];
      rest := rest - {least};
    }
    assert |when| == |when.Keys|;
  }

  method Least(when: map<EventId, int>, candidates: set<EventId>) returns (least: EventId)
    requires candidates != {} && candidates <= when.Keys
    ensures least in candidates
    ensures forall e :: e in candidates && e != least ==> Before(when, least, e)
  {
    least :| least in candidates;
    var rest := candidates - {least};
    ghost var seen := {least};
    while rest != {}
      invariant seen + rest == candidates && least in seen && seen !! rest
      invariant forall e :: e in seen && e != least ==> Before(when, least, e)
      decreases rest
    {
      var next :| next in rest;
      if Before(when, next, least) {
        least := next;
      }
      rest := rest - {next};
      seen := seen + {next};
    }
  }

  /** Two valid selections that agree so far agree on the next row: each would have to come before the
      other. */
  lemma NextIsSame(a: seq<EventId>, b: seq<EventId>, when: map<EventId, int>, limit: nat, i: nat)
    requires IsOldest(a, when, limit) && IsOldest(b, when, limit)
    requires i < |a| && a[..i] == b[..i]
    ensures a[i] == b[i]
  {
    if a[i] != b[i] {
      ComesBefore(a, b, when, limit, i);
      ComesBefore(b, a, when, limit, i);
    }
  }

  /** The row one selection takes next comes before, or is, the one the other takes. */
  lemma ComesBefore(a: seq<EventId>, b: seq<EventId>, when: map<EventId, int>, limit: nat, i: nat)
    requires IsOldest(a, when, limit) && IsOldest(b, when, limit)
    requires i < |a| && a[..i] == b[..i]
    ensures a[i] == b[i] || Before(when, b[i], a[i])
  {
    if a[i] in b {
      var j :| 0 <= j < |b| && b[j] == a[i];
      assert i <= j;
    }
  }

  /** The selection is determined by the table: two valid results are the same sequence. */
  lemma {:induction false} OldestUnique(a: seq<EventId>, b: seq<EventId>, when: map<EventId, int>, limit: nat)
    requires IsOldest(a, when, limit) && IsOldest(b, when, limit)
    ensures a == b
  {
    var i := 0;
    while i < |a|
      invariant 0 <= i <= |a|
      invariant a[..i] == b[..i]
    {
      NextIsSame(a, b, when, limit, i);
      assert a[..i + 1] == a[..i] + [a[i]];
      assert b[..i + 1] == b[..i] + [b[i]];
      i := i + 1;
    }
    assert a == a[..|a|] && b == b[..|a|];
  }

  function PendingTimes(events: Events): map<EventId, int> {
    map e | e in events && IsPending(events, e) :: events[e].facts.detectedAt
  }

  function ReadyTimes(outbox: Outbox): map<EventId, int> {
    map e | e in outbox && UploadReady(outbox, e) :: outbox[e].capturedAt
  }

  // ---- Repositories ----------------------------------------------------------------------------

  class DetectionEventRepository {
    var rows: Events

    constructor ()
      ensures rows == map[]
    {
      rows := map[];
    }

    method Insert(e: EventId, facts: Facts) returns (inserted: bool)
      modifies this
      ensures inserted == (e !in old(rows))
      ensures rows == if inserted then old(rows)[e := EventRow(facts, Pending, None, None)] else old(rows)
      ensures EventsEvolve(rows, old(rows))
    {
      if e in rows {
        return false;
      }
      rows := rows[e := EventRow(facts, Pending, None, None)];
      return true;
    }

    /** Up to `limit` undelivered events, oldest detection first. */
    method ListPending(limit: nat) returns (ids: seq<EventId>)
      requires 0 < limit
      ensures IsOldest(ids, PendingTimes(rows), limit)
    {
      ids := SelectOldest(PendingTimes(rows), limit);
    }

    method MarkDeliveredMany(ids: set<EventId>, at: int) returns (updated: nat)
      modifies this
      ensures rows == MarkDelivered(old(rows), ids, at)
      ensures updated == |set e | e in ids && IsPending(old(rows), e)|
      ensures EventsEvolve(rows, old(rows))
    {
      var touched := set e | e in ids && IsPending(rows, e);
      rows := MarkDelivered(rows, ids, at);
      updated := |touched|;
    }

    method MarkSuppressedByQuotaMany(ids: set<EventId>, at: int) returns (updated: nat)
      modifies this
      ensures rows == MarkSuppressed(old(rows), ids, at)
      ensures updated == |set e | e in ids && IsPending(old(rows), e)|
      ensures EventsEvolve(rows, old(rows))
    {
      var touched := set e | e in ids && IsPending(rows, e);
      rows := MarkSuppressed(rows, ids, at);
      updated := |touched|;
    }
  }

  class SnapshotOutboxRepository {
    var rows: Outbox
    const events: DetectionEventRepository

    constructor (events: DetectionEventRepository)
      ensures this.events == events && rows == map[]
    {
      this.events := events;
      rows := map[];
    }

    method Create(e: EventId, content: Bytes, at: int) returns (error: Option<CreateError>)
      modifies this
      ensures var r := CreateCaptured(old(rows), events.rows, e, content, at);
              if error.None? then r == Ok(rows) else r == Err(error.value) && rows == old(rows)
      ensures OutboxEvolves(rows, old(rows))
    {
      if e in rows {
        return Some(AlreadyExists);
      }
      if e !in events.rows {
        return Some(NoParentEvent);
      }
      rows := rows[e := FreshRow(content, at)];
      return None;
    }

    method AssociateAlertId(e: EventId, a: AlertId) returns (applied: Result<bool, AssociateError>)
      modifies this
      ensures match Associate(old(rows), e, a)
              case Ok(r) => rows == r.0 && applied == Ok(r.1)
              case Err(c) => rows == old(rows) && applied == Err(c)
      ensures OutboxEvolves(rows, old(rows))
    {
      if e !in rows {
        return Ok(false);
      }
      if rows[e].alertId == Some(a) {
        return Ok(true);
      }
      if rows[e].alertId.Some? {
        return Err(AlertConflict);
      }
      rows := rows[e := rows[e].(alertId := Some(a))];
      return Ok(true);
    }

    /** Up to `limit` upload-ready rows, oldest capture first. */
    method ListUploadReady(limit: nat) returns (ids: seq<EventId>)
      requires 0 < limit
      ensures IsOldest(ids, ReadyTimes(rows), limit)
    {
      ids := SelectOldest(ReadyTimes(rows), limit);
    }

    method MarkRowUploaded(e: EventId, at: int) returns (updated: bool)
      modifies this
      ensures rows == MarkUploaded(old(rows), e, at)
      ensures updated == AwaitsUpload(old(rows), e)
      ensures OutboxEvolves(rows, old(rows))
    {
      updated := AwaitsUpload(rows, e);
      rows := MarkUploaded(rows, e, at);
    }

    method RecordFailure(e: EventId, at: int, reason: UploadFailure)
      modifies this
      ensures rows == RecordAttemptFailure(old(rows), e, at, reason)
      ensures OutboxEvolves(rows, old(rows))
    {
      rows := RecordAttemptFailure(rows, e, at, reason);
    }

    method MarkRowCaptureFailed(e: EventId) returns (updated: bool)
      modifies this
      ensures rows == MarkCaptureFailed(old(rows), e)
      ensures updated == (e in old(rows) && old(rows)[e].capture == Captured)
      ensures OutboxEvolves(rows, old(rows))
    {
      updated := e in rows && rows[e].capture == Captured;
      rows := MarkCaptureFailed(rows, e);
    }

    method Cancel(e: EventId) returns (updated: bool)
      modifies this
      ensures rows == CancelForQuota(old(rows), e)
      ensures updated == AwaitsUpload(old(rows), e)
      ensures OutboxEvolves(rows, old(rows))
    {
      updated := AwaitsUpload(rows, e);
      rows := CancelForQuota(rows, e);
    }
  }

  /** The bounded JPEG directory; a file is named by its event id. */
  class Spool {
    var files: SpoolFiles

    constructor ()
      ensures files == map[]
    {
      files := map[];
    }

    /** Atomic rename over the final name: the old content or the new content, nothing between. */
    method WriteAtomic(e: EventId, content: Bytes)
      modifies this
      ensures files == old(files)[e := content]
    {
      files := files[e := content];
    }

    /** A missing file is not an error. */
    method Unlink(e: EventId)
      modifies this
      ensures files == old(files) - {e}
    {
      files := files - {e};
    }
  }
}
