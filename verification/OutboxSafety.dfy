/** Every step keeps the invariant of the outbox protocol; the safety theorems over whole runs follow. */
module OutboxSafety {
  import opened Common
  import opened BackendLedger
  import opened OutboxTables
  import opened OutboxProtocol

  // ---- Frame lemmas: what a change of one component leaves true --------------------------------

  /** A growing ledger keeps every belief true. */
  lemma BeliefsSurvive(s: State, l: Ledger)
    requires EventsTruthful(s.t.events, s.ledger) && OutboxTruthful(s.t, s.ledger)
    requires SyncTruthful(s.sync, s.t, s.ledger) && UploadTruthful(s.upload, s.t, s.ledger)
    requires Extends(l, s.ledger)
    ensures EventsTruthful(s.t.events, l) && OutboxTruthful(s.t, l)
    ensures SyncTruthful(s.sync, s.t, l) && UploadTruthful(s.upload, s.t, l)
  {
  }

  /** Stale records and sent batches stay true while the tables evolve. */
  lemma MessagesSurvive(s: State, t: Tables)
    requires Inv(s)
    requires EventsEvolve(t.events, s.t.events) && OutboxEvolves(t.outbox, s.t.outbox)
    ensures UploadTruthful(s.upload, t, s.ledger)
    ensures forall items :: items in s.sentSyncs ==> ItemsTrue(items, t)
  {
    forall items | items in s.sentSyncs
      ensures ItemsTrue(items, t)
    {
      assert ItemsTrue(items, s.t);
    }
  }

  function WithRow(s: State, e: EventId, row: SnapshotRow): State {
    s.(t := s.t.(outbox := s.t.outbox[e := row]))
  }

  /** Replacing one row by a truthful successor whose file is present keeps the whole invariant. */
  lemma RowStep(s: State, e: EventId, row: SnapshotRow)
    requires Inv(s) && e in s.t.outbox
    requires RowEvolves(row, s.t.outbox[e])
    requires RowTrue(row, s.t.events[e], e, s.ledger)
    requires FilePresent(row, e, s.t.spool, s.written)
    ensures Inv(WithRow(s, e, row)) && Evolves(WithRow(s, e, row), s)
  {
    var t := s.t.(outbox := s.t.outbox[e := row]);
    MessagesSurvive(s, t);
    assert t.outbox.Keys == s.t.outbox.Keys;
    assert OutboxTruthful(t, s.ledger);
    assert SyncTruthful(s.sync, t, s.ledger);
  }

  /** Removing the file of a row that no longer needs it keeps the invariant. */
  lemma UnlinkStep(s: State, e: EventId)
    requires Inv(s)
    requires s.ingest.Some? && s.ingest.value.0 == e ==> e in s.t.outbox
    requires e in s.t.outbox ==> !(s.t.outbox[e].capture == Captured && s.t.outbox[e].upload == UploadPending)
    ensures Inv(s.(t := s.t.(spool := s.t.spool - {e})))
  {
    MessagesSurvive(s, s.t.(spool := s.t.spool - {e}));
  }

  // ---- One lemma per kind of step --------------------------------------------------------------

  lemma InsertKeeps(s: State, e: EventId, facts: Facts)
    requires Inv(s)
    ensures Inv(InsertEvent(s, e, facts)) && Evolves(InsertEvent(s, e, facts), s)
  {
    MessagesSurvive(s, InsertEvent(s, e, facts).t);
  }

  lemma WriteKeeps(s: State, e: EventId, content: Bytes)
    requires Inv(s)
    ensures Inv(WriteCapture(s, e, content)) && Evolves(WriteCapture(s, e, content), s)
  {
    MessagesSurvive(s, WriteCapture(s, e, content).t);
  }

  lemma InsertCaptureKeeps(s: State, at: int)
    requires Inv(s)
    ensures Inv(InsertCapture(s, at)) && Evolves(InsertCapture(s, at), s)
  {
    if s.ingest.Some? {
      var (e, content) := s.ingest.value;
      var done := InsertCapture(s, at);
      if e !in s.t.outbox && e in s.t.events {
        assert done.t.outbox == s.t.outbox[e := FreshRow(content, at)];
        assert OutboxTruthful(done.t, s.ledger);
        MessagesSurvive(s, done.t);
      } else {
        assert done == s.(ingest := None);
      }
    }
  }

  lemma SendKeeps(s: State, ids: seq<EventId>)
    requires Inv(s)
    ensures Inv(Send(s, ids)) && Evolves(Send(s, ids), s)
    ensures Inv(GiveUpSync(s)) && Evolves(GiveUpSync(s), s)
  {
  }

  lemma ProcessSyncKeeps(s: State, items: seq<SyncItem>, policy: Policy, delivered: bool)
    requires Inv(s)
    ensures Inv(ProcessSync(s, items, policy, delivered)) && Evolves(ProcessSync(s, items, policy, delivered), s)
  {
    if items in s.sentSyncs {
      SyncBatchSound(s.ledger, items, policy);
      BeliefsSurvive(s, SyncBatch(s.ledger, items, policy).0);
    }
  }

  lemma OutcomeLists(outcomes: seq<Outcome>, t: Tables, l: Ledger)
    requires OutcomesFor(outcomes, t, l)
    ensures forall i :: 0 <= i < |AlertPairs(outcomes)| ==>
              && AlertPairs(outcomes)[i].0 in Acknowledged(outcomes)
              && Holds(l, AlertPairs(outcomes)[i].0, AlertPairs(outcomes)[i].1)
    ensures forall q :: q in QuotaIds(outcomes) ==>
              && q !in Acknowledged(outcomes)
              && exists i :: 0 <= i < |outcomes| && outcomes[i] == QuotaExceeded(q)
  {
    AlertPairsListed(outcomes);
    QuotaIdsListed(outcomes);
    forall i: nat | i < |AlertPairs(outcomes)|
      ensures AlertPairs(outcomes)[i].0 in Acknowledged(outcomes) && Holds(l, AlertPairs(outcomes)[i].0, AlertPairs(outcomes)[i].1)
    {
      assert IsPaired(outcomes, AlertPairs(outcomes)[i]);
      var j: nat :| PairAt(outcomes, j, AlertPairs(outcomes)[i]);
      assert outcomes[j].eventId in Acknowledged(outcomes);
      assert Honoured(l, outcomes[j], t.events[outcomes[j].eventId].facts);
    }
  }

  ghost predicate PairAt(outcomes: seq<Outcome>, j: nat, pair: (EventId, AlertId)) {
    j < |outcomes| && (outcomes[j] == Accepted(pair.0, pair.1) || outcomes[j] == Duplicate(pair.0, pair.1))
  }

  ghost predicate IsPaired(outcomes: seq<Outcome>, pair: (EventId, AlertId)) {
    exists j: nat :: PairAt(outcomes, j, pair)
  }

  lemma {:induction false} AlertPairsListed(outcomes: seq<Outcome>)
    ensures forall i :: 0 <= i < |AlertPairs(outcomes)| ==> IsPaired(outcomes, AlertPairs(outcomes)[i])
  {
    if outcomes != [] {
      var rest := outcomes[1..];
      AlertPairsListed(rest);
      var first := |AlertPairs(outcomes)| - |AlertPairs(rest)|;
      forall i | 0 <= i < |AlertPairs(outcomes)|
        ensures IsPaired(outcomes, AlertPairs(outcomes)[i])
      {
        if i < first {
          assert PairAt(outcomes, 0, AlertPairs(outcomes)[i]);
        } else {
          assert IsPaired(rest, AlertPairs(rest)[i - first]);
          var j: nat :| PairAt(rest, j, AlertPairs(rest)[i - first]);
          assert PairAt(outcomes, j + 1, AlertPairs(outcomes)[i]);
        }
      }
    }
  }

  lemma {:induction false} QuotaIdsListed(outcomes: seq<Outcome>)
    ensures forall q :: q in QuotaIds(outcomes) ==> exists i :: 0 <= i < |outcomes| && outcomes[i] == QuotaExceeded(q)
  {
    if outcomes != [] {
      var rest := outcomes[1..];
      QuotaIdsListed(rest);
      forall q | q in QuotaIds(outcomes)
        ensures exists i :: 0 <= i < |outcomes| && outcomes[i] == QuotaExceeded(q)
      {
        if q in QuotaIds(rest) {
          var j :| 0 <= j < |rest| && rest[j] == QuotaExceeded(q);
          assert outcomes[j + 1] == QuotaExceeded(q);
        } else {
          assert outcomes[0] == QuotaExceeded(q);
        }
      }
    }
  }

  lemma AcknowledgeKeeps(s: State, at: int)
    requires Inv(s)
    ensures Inv(MarkAcknowledged(s, at)) && Evolves(MarkAcknowledged(s, at), s)
  {
    if s.sync.SyncReplied? {
      MessagesSurvive(s, MarkAcknowledged(s, at).t);
      OutcomeLists(s.sync.outcomes, s.t, s.ledger);
    }
  }

  lemma QuotaMarkKeeps(s: State, at: int)
    requires Inv(s)
    ensures Inv(MarkQuota(s, at)) && Evolves(MarkQuota(s, at), s)
  {
    if s.sync.Associating? {
      MessagesSurvive(s, MarkQuota(s, at).t);
    }
  }

  lemma AssociateKeeps(s: State)
    requires Inv(s)
    ensures Inv(AssociateOne(s)) && Evolves(AssociateOne(s), s)
  {
    if s.sync.Associating? && s.sync.pairs != [] {
      var (e, a) := s.sync.pairs[0];
      AssociationStep(s, e, a);
      SyncStageStep(s.(t := s.t.(outbox := AssociateOrKeep(s.t.outbox, e, a))), Associating(s.sync.pairs[1..], s.sync.quota));
    }
  }

  /** An association the ledger stands for is made, or was made before, or has no row to go to. */
  lemma AssociationStep(s: State, e: EventId, a: AlertId)
    requires Inv(s) && e in s.t.events && s.t.events[e].status == Delivered && Holds(s.ledger, e, a)
    ensures var linked := s.(t := s.t.(outbox := AssociateOrKeep(s.t.outbox, e, a))); Inv(linked) && Evolves(linked, s)
  {
    var linked := s.(t := s.t.(outbox := AssociateOrKeep(s.t.outbox, e, a)));
    if e in s.t.outbox {
      assert RowTrue(s.t.outbox[e], s.t.events[e], e, s.ledger);
      RowStep(s, e, s.t.outbox[e].(alertId := Some(a)));
      assert linked == WithRow(s, e, s.t.outbox[e].(alertId := Some(a)));
    } else {
      assert linked == s;
    }
  }

  lemma CancelKeeps(s: State)
    requires Inv(s)
    ensures Inv(CancelOne(s)) && Evolves(CancelOne(s), s)
  {
    if s.sync.Cancelling? {
      var quota := s.sync.quota;
      if quota == [] {
        SyncStageStep(s, SyncIdle);
      } else if AwaitsUpload(s.t.outbox, quota[0]) {
        var row := s.t.outbox[quota[0]].(upload := UploadSuppressed);
        RowStep(s, quota[0], row);
        SyncStageStep(WithRow(s, quota[0], row), CancelUnlink(quota[0], quota[1..]));
      } else {
        SyncStageStep(s, Cancelling(quota[1..]));
      }
    }
  }

  lemma UnlinkCancelledKeeps(s: State)
    requires Inv(s)
    ensures Inv(RemoveCancelled(s)) && Evolves(RemoveCancelled(s), s)
  {
    if s.sync.CancelUnlink? {
      UnlinkStep(s, s.sync.cancelled);
    }
  }

  lemma ListKeeps(s: State, ids: seq<EventId>)
    requires Inv(s)
    ensures Inv(ListReady(s, ids)) && Evolves(ListReady(s, ids), s)
  {
  }

  /** Recording a failed attempt touches only the attempt columns. */
  lemma FailureRecorded(s: State, e: EventId, at: int, reason: UploadFailure)
    requires Inv(s)
    ensures var t := s.t.(outbox := RecordAttemptFailure(s.t.outbox, e, at, reason));
            && Inv(s.(t := t)) && Evolves(s.(t := t), s)
  {
    var failed := s.(t := s.t.(outbox := RecordAttemptFailure(s.t.outbox, e, at, reason)));
    if e in s.t.outbox {
      var row := s.t.outbox[e].(attempts := s.t.outbox[e].attempts + 1, lastAttemptAt := Some(at), lastError := Some(reason));
      assert failed == WithRow(s, e, row);
      RowStep(s, e, row);
    } else {
      assert failed == s;
    }
  }

  /** Changing only the sync stage needs only the new stage to be truthful. */
  lemma SyncStageStep(s: State, stage: SyncStage)
    requires Inv(s) && s.phase.Running?
    requires SyncTruthful(stage, s.t, s.ledger)
    ensures Inv(s.(sync := stage)) && Evolves(s.(sync := stage), s)
  {
  }

  /** Changing only the upload stage needs only the new stage to be truthful. */
  lemma UploadStageStep(s: State, stage: UploadStage)
    requires Inv(s) && s.phase.Running?
    requires UploadTruthful(stage, s.t, s.ledger)
    ensures Inv(s.(upload := stage)) && Evolves(s.(upload := stage), s)
  {
  }

  lemma CheckKeeps(s: State, at: int)
    requires Inv(s)
    ensures Inv(CheckAndSend(s, at)) && Evolves(CheckAndSend(s, at), s)
  {
    if s.upload.UploadBatch? {
      var records := s.upload.records;
      if records == [] {
        UploadStageStep(s, UploadIdle);
      } else {
        assert RecordTrue(records[0], s.t);
        var problem := LocalCheck(s.t.spool, records[0]);
        if problem.Some? {
          FailureRecorded(s, records[0].eventId, at, problem.value);
          var failed := s.(t := s.t.(outbox := RecordAttemptFailure(s.t.outbox, records[0].eventId, at, problem.value)));
          assert RecordsTrue(records, failed.t);
          UploadStageStep(failed, UploadBatch(records[1..]));
        } else {
          var req := UploadRequest(records[0].alertId, records[0].eventId, s.t.spool[records[0].eventId], records[0].sha256);
          UploadStageStep(s, UploadInFlight(req, records));
        }
      }
    }
  }

  lemma ProcessUploadKeeps(s: State, req: UploadRequest, env: UploadEnvironment, delivered: bool)
    requires Inv(s)
    ensures Inv(ProcessUpload(s, req, env, delivered)) && Evolves(ProcessUpload(s, req, env, delivered), s)
  {
    if req in s.sentUploads {
      UploadSound(s.ledger, req, env);
      BeliefsSurvive(s, UploadSnapshot(s.ledger, req, env).0);
    }
  }

  lemma GiveUpKeeps(s: State, at: int, reason: UploadFailure)
    requires Inv(s)
    ensures Inv(GiveUpUpload(s, at, reason)) && Evolves(GiveUpUpload(s, at, reason), s)
  {
    if s.upload.UploadInFlight? {
      FailureRecorded(s, s.upload.records[0].eventId, at, reason);
    }
  }

  lemma CommitUploadKeeps(s: State, at: int)
    requires Inv(s)
    ensures Inv(CommitUpload(s, at)) && Evolves(CommitUpload(s, at), s)
  {
    if s.upload.UploadReplied? {
      var (e, records) := (s.upload.records[0].eventId, s.upload.records);
      assert RecordTrue(records[0], s.t);
      if s.upload.outcome.SnapshotAccepted? || s.upload.outcome.SnapshotDuplicate? {
        var marked := s.(t := s.t.(outbox := MarkUploaded(s.t.outbox, e, at)));
        if AwaitsUpload(s.t.outbox, e) {
          RowStep(s, e, s.t.outbox[e].(upload := Uploaded, uploadedAt := Some(at)));
        } else {
          assert marked == s;
        }
        assert RecordsTrue(records, marked.t);
        UploadStageStep(marked, UploadUnlink(e, records[1..]));
      } else {
        var reason := if s.upload.outcome.SnapshotConflict? then Conflict else UnexpectedStatus;
        FailureRecorded(s, e, at, reason);
        UploadStageStep(s.(t := s.t.(outbox := RecordAttemptFailure(s.t.outbox, e, at, reason))), UploadIdle);
      }
    }
  }

  lemma UnlinkUploadedKeeps(s: State)
    requires Inv(s)
    ensures Inv(RemoveUploaded(s)) && Evolves(RemoveUploaded(s), s)
  {
    if s.upload.UploadUnlink? {
      UnlinkStep(s, s.upload.uploaded);
    }
  }

  lemma CrashKeeps(s: State)
    requires Inv(s)
    ensures Inv(Lose(s)) && Evolves(Lose(s), s)
    ensures Inv(BeginRestart(s)) && Evolves(BeginRestart(s), s)
    ensures Inv(FinishRestart(s)) && Evolves(FinishRestart(s), s)
  {
  }

  lemma ReconcileKeeps(s: State, e: EventId)
    requires Inv(s)
    ensures Inv(FailMissing(s, e)) && Evolves(FailMissing(s, e), s)
    ensures Inv(RemoveOrphan(s, e)) && Evolves(RemoveOrphan(s, e), s)
  {
    if s.phase.Reconciling? {
      if e in s.t.outbox && e !in s.t.spool && s.t.outbox[e].capture == Captured {
        RowStep(s, e, s.t.outbox[e].(capture := CaptureFailed));
      }
      if e !in s.phase.known {
        UnlinkStep(s, e);
      }
    }
  }

  // ---- Runs ------------------------------------------------------------------------------------

  predicate IsUploadStep(step: Step) {
    step.ListUploads? || step.CheckFile? || step.BackendUpload? || step.UploadTimeout? || step.FinishUpload? || step.UnlinkUploaded?
  }

  predicate IsSyncStep(step: Step) {
    step.SendBatch? || step.BackendSync? || step.SyncTimeout? || step.CommitDelivered? || step.AssociateNext?
    || step.CommitSuppressed? || step.CancelNext? || step.UnlinkCancelled?
  }

  lemma SyncStepKeeps(s: State, step: Step)
    requires Inv(s) && IsSyncStep(step)
    ensures Inv(Apply(s, step)) && Evolves(Apply(s, step), s)
  {
    match step
    case SendBatch(ids) => SendKeeps(s, ids);
    case BackendSync(items, policy, delivered) => ProcessSyncKeeps(s, items, policy, delivered);
    case SyncTimeout => SendKeeps(s, []);
    case CommitDelivered(at) => AcknowledgeKeeps(s, at);
    case AssociateNext => AssociateKeeps(s);
    case CommitSuppressed(at) => QuotaMarkKeeps(s, at);
    case CancelNext => CancelKeeps(s);
    case UnlinkCancelled => UnlinkCancelledKeeps(s);
    case _ =>
  }

  lemma UploadStepKeeps(s: State, step: Step)
    requires Inv(s) && IsUploadStep(step)
    ensures Inv(Apply(s, step)) && Evolves(Apply(s, step), s)
  {
    match step
    case ListUploads(ids) => ListKeeps(s, ids);
    case CheckFile(at) => CheckKeeps(s, at);
    case BackendUpload(req, env, delivered) => ProcessUploadKeeps(s, req, env, delivered);
    case UploadTimeout(at, reason) => GiveUpKeeps(s, at, reason);
    case FinishUpload(at) => CommitUploadKeeps(s, at);
    case UnlinkUploaded => UnlinkUploadedKeeps(s);
    case _ =>
  }

  lemma LocalStepKeeps(s: State, step: Step)
    requires Inv(s) && !IsSyncStep(step) && !IsUploadStep(step)
    ensures Inv(Apply(s, step)) && Evolves(Apply(s, step), s)
  {
    match step
    case Insert(e, facts) => InsertKeeps(s, e, facts);
    case CaptureWrite(e, content) => WriteKeeps(s, e, content);
    case CaptureInsert(at) => InsertCaptureKeeps(s, at);
    case Crash => CrashKeeps(s);
    case Restart => CrashKeeps(s);
    case ReconcileRow(e) => ReconcileKeeps(s, e);
    case ReconcileFile(e) => ReconcileKeeps(s, e);
    case ReconcileDone => CrashKeeps(s);
    case _ =>
  }

  lemma StepKeeps(s: State, step: Step)
    requires Inv(s)
    ensures Inv(Apply(s, step)) && Evolves(Apply(s, step), s)
  {
    if IsSyncStep(step) {
      SyncStepKeeps(s, step);
    } else if IsUploadStep(step) {
      UploadStepKeeps(s, step);
    } else {
      LocalStepKeeps(s, step);
    }
  }

  lemma EvolvesTransitive(a: State, b: State, c: State)
    requires Evolves(b, a) && Evolves(c, b)
    ensures Evolves(c, a)
  {
    EvolveTransitive(a.t.outbox, b.t.outbox, c.t.outbox);
  }

  lemma {:induction false} RunKeeps(s: State, steps: seq<Step>)
    requires Inv(s)
    ensures Inv(Run(s, steps)) && Evolves(Run(s, steps), s)
    decreases |steps|
  {
    if steps != [] {
      StepKeeps(s, steps[0]);
      RunKeeps(Apply(s, steps[0]), steps[1..]);
      EvolvesTransitive(s, Apply(s, steps[0]), Run(s, steps));
    }
  }
}
