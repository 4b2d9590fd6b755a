/**
 The outbox and evidence protocol as one transition system: both tables, the spool, the two workers,
 the network and the Backend ledger.  A step is one commit, one file operation, one message, or a
 crash, so a crash can fall between any two of them.  A request that was ever sent may be processed
 at any later time and any number of times; its reply reaches the Agent only while the Agent still
 waits for that request.  `Apply` is total: a step that is not enabled changes nothing.
 */
module OutboxProtocol {
  import opened Common
  import opened BackendLedger
  import opened OutboxTables

  datatype Tables = Tables(events: Events, outbox: Outbox, spool: SpoolFiles)

  datatype Phase =
    | Down
    | Reconciling(known: set<EventId>)
    | Running

  /** The sync worker between two commits. */
  datatype SyncStage =
    | SyncIdle
    | SyncSent(batch: seq<SyncItem>)
    | SyncReplied(outcomes: seq<Outcome>)
    | Associating(pairs: seq<(EventId, AlertId)>, quota: seq<EventId>)
    | Cancelling(quota: seq<EventId>)
    | CancelUnlink(cancelled: EventId, quota: seq<EventId>)

  /** The columns of a listed row that the upload worker acts on; the list may be stale. */
  datatype UploadRecord = UploadRecord(eventId: EventId, alertId: AlertId, sizeBytes: nat, sha256: Digest)

  /** The upload worker between two commits; the head of `records` is the one being uploaded. */
  datatype UploadStage =
    | UploadIdle
    | UploadBatch(records: seq<UploadRecord>)
    | UploadInFlight(request: UploadRequest, records: seq<UploadRecord>)
    | UploadReplied(outcome: UploadOutcome, records: seq<UploadRecord>)
    | UploadUnlink(uploaded: EventId, records: seq<UploadRecord>)

  /** `written` is a history variable, the bytes of the latest capture of each event; no step reads it. */
  datatype State = State(
    t: Tables,
    ledger: Ledger,
    phase: Phase,
    ingest: Option<(EventId, Bytes)>,
    sync: SyncStage,
    upload: UploadStage,
    sentSyncs: set<seq<SyncItem>>,
    sentUploads: set<UploadRequest>,
    written: map<EventId, Bytes>)

  datatype Step =
    | Insert(e: EventId, facts: Facts)
    | CaptureWrite(e: EventId, content: Bytes)
    | CaptureInsert(at: int)
    | SendBatch(ids: seq<EventId>)
    | BackendSync(items: seq<SyncItem>, policy: Policy, delivered: bool)
    | SyncTimeout
    | CommitDelivered(at: int)
    | AssociateNext
    | CommitSuppressed(at: int)
    | CancelNext
    | UnlinkCancelled
    | ListUploads(ids: seq<EventId>)
    | CheckFile(at: int)
    | BackendUpload(req: UploadRequest, env: UploadEnvironment, delivered: bool)
    | UploadTimeout(at: int, reason: UploadFailure)
    | FinishUpload(at: int)
    | UnlinkUploaded
    | Crash
    | Restart
    | ReconcileRow(e: EventId)
    | ReconcileFile(e: EventId)
    | ReconcileDone

  const INITIAL := State(Tables(map[], map[], map[]), EMPTY_LEDGER, Down, None, SyncIdle, UploadIdle, {}, {}, map[])

  // ---- Ingest ----------------------------------------------------------------------------------

  function InsertEvent(s: State, e: EventId, facts: Facts): State {
    if s.phase == Running && e !in s.t.events then
      s.(t := s.t.(events := s.t.events[e := EventRow(facts, Pending, None, None)]))
    else s
  }

  /** The validated JPEG reaches its final name; its row is not inserted yet. */
  function WriteCapture(s: State, e: EventId, content: Bytes): State {
    if s.phase == Running && s.ingest.None? && |content| > 0 then
      s.(t := s.t.(spool := s.t.spool[e := content]), ingest := Some((e, content)), written := s.written[e := content])
    else s
  }

  function InsertCapture(s: State, at: int): State {
    match s.ingest
    case None => s
    case Some((e, content)) =>
      match CreateCaptured(s.t.outbox, s.t.events, e, content, at)
      case Ok(outbox) => s.(t := s.t.(outbox := outbox), ingest := None)
      case Err(_) => s.(ingest := None)
  }

  // ---- Sync worker -----------------------------------------------------------------------------

  function ItemsOf(events: Events, ids: seq<EventId>): (items: seq<SyncItem>)
    requires forall i :: 0 <= i < |ids| ==> ids[i] in events
    ensures |items| == |ids|
    ensures forall i :: 0 <= i < |ids| ==> items[i] == SyncItem(ids[i], events[ids[i]].facts)
  {
    seq(|ids|, i requires 0 <= i < |ids| => SyncItem(ids[i], events[ids[i]].facts))
  }

  ghost predicate Sendable(s: State, ids: seq<EventId>) {
    && s.phase == Running && s.sync.SyncIdle?
    && Distinct(ids)
    && forall i :: 0 <= i < |ids| ==> IsPending(s.t.events, ids[i])
  }

  ghost function Send(s: State, ids: seq<EventId>): State {
    if Sendable(s, ids) then
      var items := ItemsOf(s.t.events, ids);
      s.(sync := SyncSent(items), sentSyncs := s.sentSyncs + {items})
    else s
  }

  function ProcessSync(s: State, items: seq<SyncItem>, policy: Policy, delivered: bool): State {
    if items in s.sentSyncs then
      var (ledger, outcomes) := SyncBatch(s.ledger, items, policy);
      s.(ledger := ledger, sync := if delivered && s.sync == SyncSent(items) then SyncReplied(outcomes) else s.sync)
    else s
  }

  function GiveUpSync(s: State): State {
    if s.sync.SyncSent? then s.(sync := SyncIdle) else s
  }

  /** Events the worker marks delivered. */
  function Acknowledged(outcomes: seq<Outcome>): set<EventId> {
    set i | 0 <= i < |outcomes| && (outcomes[i].Accepted? || outcomes[i].Duplicate?) :: outcomes[i].eventId
  }

  function AlertPairs(outcomes: seq<Outcome>): seq<(EventId, AlertId)> {
    if outcomes == [] then []
    else
      (match outcomes[0]
       case Accepted(e, a) => [(e, a)]
       case Duplicate(e, a) => [(e, a)]
       case _ => []) + AlertPairs(outcomes[1..])
  }

  function QuotaIds(outcomes: seq<Outcome>): seq<EventId> {
    if outcomes == [] then []
    else (if outcomes[0].QuotaExceeded? then [outcomes[0].eventId] else []) + QuotaIds(outcomes[1..])
  }

  function MarkAcknowledged(s: State, at: int): State {
    match s.sync
    case SyncReplied(outcomes) =>
      s.(t := s.t.(events := MarkDelivered(s.t.events, Acknowledged(outcomes), at)),
         sync := Associating(AlertPairs(outcomes), QuotaIds(outcomes)))
    case _ => s
  }

  /** A refused association is logged and swallowed. */
  function AssociateOrKeep(outbox: Outbox, e: EventId, a: AlertId): Outbox {
    match Associate(outbox, e, a)
    case Ok(r) => r.0
    case Err(_) => outbox
  }

  function AssociateOne(s: State): State {
    match s.sync
    case Associating(pairs, quota) =>
      if pairs == [] then s
      else
        s.(t := s.t.(outbox := AssociateOrKeep(s.t.outbox, pairs[0].0, pairs[0].1)),
           sync := Associating(pairs[1..], quota))
    case _ => s
  }

  function MarkQuota(s: State, at: int): State {
    match s.sync
    case Associating(pairs, quota) =>
      if pairs != [] then s
      else s.(t := s.t.(events := MarkSuppressed(s.t.events, Elements(quota), at)), sync := Cancelling(quota))
    case _ => s
  }

  function CancelOne(s: State): State {
    match s.sync
    case Cancelling(quota) =>
      if quota == [] then s.(sync := SyncIdle)
      else
        s.(t := s.t.(outbox := CancelForQuota(s.t.outbox, quota[0])),
           sync := if AwaitsUpload(s.t.outbox, quota[0]) then CancelUnlink(quota[0], quota[1..]) else Cancelling(quota[1..]))
    case _ => s
  }

  function RemoveCancelled(s: State): State {
    match s.sync
    case CancelUnlink(e, quota) => s.(t := s.t.(spool := s.t.spool - {e}), sync := Cancelling(quota))
    case _ => s
  }

  // ---- Upload worker ---------------------------------------------------------------------------

  function RecordOf(outbox: Outbox, e: EventId): UploadRecord
    requires UploadReady(outbox, e)
  {
    UploadRecord(e, outbox[e].alertId.value, outbox[e].sizeBytes, outbox[e].sha256)
  }

  ghost function ListReady(s: State, ids: seq<EventId>): State {
    if s.phase == Running && s.upload.UploadIdle? && forall i :: 0 <= i < |ids| ==> UploadReady(s.t.outbox, ids[i]) then
      s.(upload := UploadBatch(seq(|ids|, i requires 0 <= i < |ids| => RecordOf(s.t.outbox, ids[i]))))
    else s
  }

  function LocalCheck(spool: SpoolFiles, r: UploadRecord): Option<UploadFailure> {
    if r.eventId !in spool then Some(LocalFileMissing)
    else if Sha256(spool[r.eventId]) != r.sha256 || |spool[r.eventId]| != r.sizeBytes then Some(LocalFileModified)
    else None
  }

  /** Verify the local file, then send it; a local problem is recorded and the next row is taken. */
  function CheckAndSend(s: State, at: int): State {
    match s.upload
    case UploadBatch(records) =>
      if records == [] then s.(upload := UploadIdle)
      else
        var r := records[0];
        (match LocalCheck(s.t.spool, r)
         case Some(problem) =>
           s.(t := s.t.(outbox := RecordAttemptFailure(s.t.outbox, r.eventId, at, problem)), upload := UploadBatch(records[1..]))
         case None =>
           if r.eventId !in s.t.spool then s
           else
             var req := UploadRequest(r.alertId, r.eventId, s.t.spool[r.eventId], r.sha256);
             s.(upload := UploadInFlight(req, records), sentUploads := s.sentUploads + {req}))
    case _ => s
  }

  function ProcessUpload(s: State, req: UploadRequest, env: UploadEnvironment, delivered: bool): State {
    if req in s.sentUploads then
      var (ledger, outcome) := UploadSnapshot(s.ledger, req, env);
      s.(ledger := ledger,
         upload := if delivered && s.upload.UploadInFlight? && s.upload.request == req
                   then UploadReplied(outcome, s.upload.records) else s.upload)
    else s
  }

  function FailUpload(s: State, records: seq<UploadRecord>, at: int, reason: UploadFailure): State {
    if records == [] then s
    else s.(t := s.t.(outbox := RecordAttemptFailure(s.t.outbox, records[0].eventId, at, reason)), upload := UploadIdle)
  }

  function GiveUpUpload(s: State, at: int, reason: UploadFailure): State {
    match s.upload
    case UploadInFlight(_, records) => FailUpload(s, records, at, reason)
    case _ => s
  }

  /** Commit first; the file is removed only by a later step. */
  function CommitUpload(s: State, at: int): State {
    match s.upload
    case UploadReplied(outcome, records) =>
      if records == [] then s
      else if outcome.SnapshotAccepted? || outcome.SnapshotDuplicate? then
        s.(t := s.t.(outbox := MarkUploaded(s.t.outbox, records[0].eventId, at)),
           upload := UploadUnlink(records[0].eventId, records[1..]))
      else FailUpload(s, records, at, if outcome.SnapshotConflict? then Conflict else UnexpectedStatus)
    case _ => s
  }

  function RemoveUploaded(s: State): State {
    match s.upload
    case UploadUnlink(e, records) => s.(t := s.t.(spool := s.t.spool - {e}), upload := UploadBatch(records))
    case _ => s
  }

  // ---- Crash and startup reconciliation --------------------------------------------------------

  /** Only the tables, the spool and what is already on the network survive. */
  function Lose(s: State): State {
    s.(phase := Down, ingest := None, sync := SyncIdle, upload := UploadIdle)
  }

  function BeginRestart(s: State): State {
    if s.phase == Down then s.(phase := Reconciling(s.t.outbox.Keys)) else s
  }

  function FailMissing(s: State, e: EventId): State {
    if s.phase.Reconciling? && e in s.phase.known && e !in s.t.spool then
      s.(t := s.t.(outbox := MarkCaptureFailed(s.t.outbox, e)))
    else s
  }

  function RemoveOrphan(s: State, e: EventId): State {
    if s.phase.Reconciling? && e !in s.phase.known then s.(t := s.t.(spool := s.t.spool - {e})) else s
  }

  function FinishRestart(s: State): State {
    if s.phase.Reconciling? then s.(phase := Running) else s
  }

  ghost function Apply(s: State, step: Step): State {
    match step
    case Insert(e, facts) => InsertEvent(s, e, facts)
    case CaptureWrite(e, content) => WriteCapture(s, e, content)
    case CaptureInsert(at) => InsertCapture(s, at)
    case SendBatch(ids) => Send(s, ids)
    case BackendSync(items, policy, delivered) => ProcessSync(s, items, policy, delivered)
    case SyncTimeout => GiveUpSync(s)
    case CommitDelivered(at) => MarkAcknowledged(s, at)
    case AssociateNext => AssociateOne(s)
    case CommitSuppressed(at) => MarkQuota(s, at)
    case CancelNext => CancelOne(s)
    case UnlinkCancelled => RemoveCancelled(s)
    case ListUploads(ids) => ListReady(s, ids)
    case CheckFile(at) => CheckAndSend(s, at)
    case BackendUpload(req, env, delivered) => ProcessUpload(s, req, env, delivered)
    case UploadTimeout(at, reason) => GiveUpUpload(s, at, reason)
    case FinishUpload(at) => CommitUpload(s, at)
    case UnlinkUploaded => RemoveUploaded(s)
    case Crash => Lose(s)
    case Restart => BeginRestart(s)
    case ReconcileRow(e) => FailMissing(s, e)
    case ReconcileFile(e) => RemoveOrphan(s, e)
    case ReconcileDone => FinishRestart(s)
  }

  ghost function Run(s: State, steps: seq<Step>): State
    decreases |steps|
  {
    if steps == [] then s else Run(Apply(s, steps[0]), steps[1..])
  }

  // ---- The inductive invariant -----------------------------------------------------------------

  /** A settled event has the ledger's word for it. */
  ghost predicate EventTrue(row: EventRow, e: EventId, l: Ledger) {
    match row.status
    case Pending => true
    case Delivered => e in l.alerts && l.alerts[e].facts == row.facts
    case SuppressedByQuota => e in l.suppressed
  }

  /** A snapshot row agrees with its event and with the ledger. */
  ghost predicate RowTrue(row: SnapshotRow, event: EventRow, e: EventId, l: Ledger) {
    && row.sizeBytes == |row.sha256.content|
    && (row.alertId.Some? ==> event.status == Delivered && Holds(l, e, row.alertId.value))
    && (row.upload == Uploaded ==>
          row.alertId.Some? && SnapshotHeld(l, e, row.sha256))
    && (row.upload == UploadSuppressed ==> event.status == SuppressedByQuota)
  }

  ghost predicate EventsTruthful(events: Events, l: Ledger) {
    forall e :: e in events ==> EventTrue(events[e], e, l)
  }

  ghost predicate OutboxTruthful(t: Tables, l: Ledger) {
    forall e :: e in t.outbox ==> e in t.events && RowTrue(t.outbox[e], t.events[e], e, l)
  }

  ghost predicate ItemTrue(t: Tables, item: SyncItem) {
    item.eventId in t.events && t.events[item.eventId].facts == item.facts
  }

  ghost predicate OutcomesFor(outcomes: seq<Outcome>, t: Tables, l: Ledger) {
    && (forall i, j :: 0 <= i < j < |outcomes| ==> outcomes[i].eventId != outcomes[j].eventId)
    && (forall i :: 0 <= i < |outcomes| ==>
          && IsPending(t.events, outcomes[i].eventId)
          && Honoured(l, outcomes[i], t.events[outcomes[i].eventId].facts))
  }

  ghost predicate PairsTrue(pairs: seq<(EventId, AlertId)>, t: Tables, l: Ledger) {
    forall i :: 0 <= i < |pairs| ==>
      && pairs[i].0 in t.events && t.events[pairs[i].0].status == Delivered
      && Holds(l, pairs[i].0, pairs[i].1)
  }

  ghost predicate SyncTruthful(stage: SyncStage, t: Tables, l: Ledger) {
    match stage
    case SyncIdle => true
    case SyncSent(batch) =>
      && (forall i, j :: 0 <= i < j < |batch| ==> batch[i].eventId != batch[j].eventId)
      && (forall i :: 0 <= i < |batch| ==> IsPending(t.events, batch[i].eventId) && ItemTrue(t, batch[i]))
    case SyncReplied(outcomes) => OutcomesFor(outcomes, t, l)
    case Associating(pairs, quota) =>
      && PairsTrue(pairs, t, l)
      && (forall q :: q in quota ==> IsPending(t.events, q) && q in l.suppressed)
    case Cancelling(quota) =>
      forall q :: q in quota ==> q in t.events && t.events[q].status == SuppressedByQuota
    case CancelUnlink(e, quota) =>
      && e in t.outbox && t.outbox[e].upload == UploadSuppressed
      && (forall q :: q in quota ==> q in t.events && t.events[q].status == SuppressedByQuota)
  }

  ghost predicate RecordTrue(r: UploadRecord, t: Tables) {
    && r.eventId in t.outbox
    && t.outbox[r.eventId].alertId == Some(r.alertId)
    && t.outbox[r.eventId].sha256 == r.sha256
    && t.outbox[r.eventId].sizeBytes == r.sizeBytes
  }

  ghost predicate RecordsTrue(records: seq<UploadRecord>, t: Tables) {
    forall i :: 0 <= i < |records| ==> RecordTrue(records[i], t)
  }

  ghost predicate UploadTruthful(stage: UploadStage, t: Tables, l: Ledger) {
    match stage
    case UploadIdle => true
    case UploadBatch(records) => RecordsTrue(records, t)
    case UploadInFlight(req, records) =>
      && records != [] && RecordsTrue(records, t)
      && req.eventId == records[0].eventId && req.claimed == records[0].sha256
    case UploadReplied(outcome, records) =>
      && records != [] && RecordsTrue(records, t)
      && (outcome.SnapshotAccepted? || outcome.SnapshotDuplicate? ==>
            SnapshotHeld(l, records[0].eventId, records[0].sha256))
    case UploadUnlink(e, records) =>
      && RecordsTrue(records, t)
      && e in t.outbox && t.outbox[e].upload == Uploaded
  }

  /** A row still to be uploaded has its file, unchanged since the latest capture. */
  ghost predicate FilePresent(row: SnapshotRow, e: EventId, spool: SpoolFiles, written: map<EventId, Bytes>) {
    row.capture == Captured && row.upload == UploadPending ==>
      e in spool && e in written && spool[e] == written[e]
  }

  ghost predicate FilesPresent(s: State) {
    && (forall e :: e in s.t.outbox ==> FilePresent(s.t.outbox[e], e, s.t.spool, s.written))
    && (s.ingest.Some? ==>
          var (e, content) := s.ingest.value;
          && e in s.written && s.written[e] == content
          && (e !in s.t.outbox ==> e in s.t.spool && s.t.spool[e] == content))
  }

  ghost predicate PhaseQuiet(s: State) {
    && (!s.phase.Running? ==> s.ingest.None? && s.sync.SyncIdle? && s.upload.UploadIdle?)
    && (s.phase.Reconciling? ==> s.phase.known == s.t.outbox.Keys)
  }

  ghost predicate ItemsTrue(items: seq<SyncItem>, t: Tables) {
    forall i :: 0 <= i < |items| ==> ItemTrue(t, items[i])
  }

  ghost predicate Inv(s: State) {
    && ValidLedger(s.ledger)
    && EventsTruthful(s.t.events, s.ledger)
    && OutboxTruthful(s.t, s.ledger)
    && SyncTruthful(s.sync, s.t, s.ledger)
    && UploadTruthful(s.upload, s.t, s.ledger)
    && (forall items :: items in s.sentSyncs ==> ItemsTrue(items, s.t))
    && FilesPresent(s)
    && PhaseQuiet(s)
  }

  /** The durable part of the protocol only moves forward. */
  ghost predicate Evolves(now: State, before: State) {
    && EventsEvolve(now.t.events, before.t.events)
    && OutboxEvolves(now.t.outbox, before.t.outbox)
    && Extends(now.ledger, before.ledger)
  }
}
