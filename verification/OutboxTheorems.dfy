/** What the outbox protocol guarantees in every reachable state, and the exact limits of it. */
module OutboxTheorems {
  import opened Common
  import opened BackendLedger
  import opened OutboxTables
  import opened OutboxProtocol
  import opened OutboxSafety
  import Jpeg

  lemma ReachableInv(steps: seq<Step>)
    ensures Inv(Run(INITIAL, steps))
  {
    RunKeeps(INITIAL, steps);
  }

  lemma {:induction false} RunAppend(s: State, first: seq<Step>, second: seq<Step>)
    ensures Run(s, first + second) == Run(Run(s, first), second)
    decreases |first|
  {
    if first == [] {
      assert first + second == second;
    } else {
      assert (first + second)[1..] == first[1..] + second;
      RunAppend(Apply(s, first[0]), first[1..], second);
    }
  }

  // ---- Acknowledgement soundness ---------------------------------------------------------------

  /** 'delivered' means the Backend durably holds this very event; 'suppressed_by_quota' means it said so. */
  lemma AcknowledgementSound(steps: seq<Step>, e: EventId)
    ensures var s := Run(INITIAL, steps);
            e in s.t.events ==>
              && (s.t.events[e].status == Delivered ==> e in s.ledger.alerts && s.ledger.alerts[e].facts == s.t.events[e].facts)
              && (s.t.events[e].status == SuppressedByQuota ==> e in s.ledger.suppressed)
  {
    ReachableInv(steps);
    var s := Run(INITIAL, steps);
    if e in s.t.events {
      assert EventTrue(s.t.events[e], e, s.ledger);
    }
  }

  /** No row is ever lost or overwritten, settled rows stay settled, and the Backend forgets nothing. */
  lemma NothingLost(steps: seq<Step>, more: seq<Step>)
    ensures Evolves(Run(INITIAL, steps + more), Run(INITIAL, steps))
  {
    ReachableInv(steps);
    RunAppend(INITIAL, steps, more);
    RunKeeps(Run(INITIAL, steps), more);
  }

  // ---- Quota: suppressed evidence never leaves the device --------------------------------------

  /** The Backend's standing verdict on an event is `quota_exceeded`. */
  ghost predicate QuotaVerdict(l: Ledger, e: EventId) {
    e in l.suppressed && e !in l.alerts
  }

  /** Whatever the order of capture, response and cancel, an event the Backend refused for quota, or
      that the Agent recorded as refused, is neither upload-ready nor uploaded. */
  lemma QuotaNeverUploads(steps: seq<Step>, e: EventId)
    ensures var s := Run(INITIAL, steps);
            QuotaVerdict(s.ledger, e) || (e in s.t.events && s.t.events[e].status == SuppressedByQuota) ==>
              !UploadReady(s.t.outbox, e) && (e in s.t.outbox ==> s.t.outbox[e].upload != Uploaded)
  {
    ReachableInv(steps);
    var s := Run(INITIAL, steps);
    if e in s.t.outbox {
      assert RowTrue(s.t.outbox[e], s.t.events[e], e, s.ledger);
    }
  }

  /** An association never meets a different stored id, so the conflict branch is dead in every run. */
  lemma AssociationNeverConflicts(steps: seq<Step>)
    ensures var s := Run(INITIAL, steps);
            s.sync.Associating? && s.sync.pairs != [] ==>
              Associate(s.t.outbox, s.sync.pairs[0].0, s.sync.pairs[0].1).Ok?
  {
    ReachableInv(steps);
    var s := Run(INITIAL, steps);
    if s.sync.Associating? && s.sync.pairs != [] {
      var e := s.sync.pairs[0].0;
      assert Holds(s.ledger, e, s.sync.pairs[0].1);
      if e in s.t.outbox {
        assert RowTrue(s.t.outbox[e], s.t.events[e], e, s.ledger);
      }
    }
  }

  // ---- Evidence --------------------------------------------------------------------------------

  ghost predicate AwaitingUpload(t: Tables, e: EventId) {
    e in t.outbox && t.outbox[e].capture == Captured && t.outbox[e].upload == UploadPending
  }

  /** The file is there, with the recorded size and digest. */
  ghost predicate FileMatchesRow(t: Tables, e: EventId) {
    && e in t.outbox && e in t.spool
    && Sha256(t.spool[e]) == t.outbox[e].sha256
    && |t.spool[e]| == t.outbox[e].sizeBytes
  }

  /** An uploaded row's digest is the one its alert holds at the Backend. */
  lemma UploadedDigestHeld(steps: seq<Step>, e: EventId)
    ensures var s := Run(INITIAL, steps);
            e in s.t.outbox && s.t.outbox[e].upload == Uploaded ==>
              && s.t.outbox[e].alertId.Some? && Holds(s.ledger, e, s.t.outbox[e].alertId.value)
              && SnapshotHeld(s.ledger, e, s.t.outbox[e].sha256)
  {
    ReachableInv(steps);
    var s := Run(INITIAL, steps);
    if e in s.t.outbox {
      assert RowTrue(s.t.outbox[e], s.t.events[e], e, s.ledger);
    }
  }

  /** A row awaiting upload always has a file, and the file matches the row exactly when the latest
      bytes captured for the event are the recorded ones. */
  lemma EvidenceExact(steps: seq<Step>, e: EventId)
    ensures var s := Run(INITIAL, steps);
            AwaitingUpload(s.t, e) ==>
              && e in s.t.spool && e in s.written
              && (FileMatchesRow(s.t, e) <==> Sha256(s.written[e]) == s.t.outbox[e].sha256)
  {
    ReachableInv(steps);
    var s := Run(INITIAL, steps);
    if AwaitingUpload(s.t, e) {
      assert FilePresent(s.t.outbox[e], e, s.t.spool, s.written);
      assert RowTrue(s.t.outbox[e], s.t.events[e], e, s.ledger);
    }
  }

  /** Every capture of an event carries the same bytes. */
  ghost predicate OneJpegPerEvent(steps: seq<Step>, jpeg: EventId -> Bytes) {
    forall i :: 0 <= i < |steps| && steps[i].CaptureWrite? ==> steps[i].content == jpeg(steps[i].e)
  }

  ghost predicate Faithful(s: State, jpeg: EventId -> Bytes) {
    && (forall e :: e in s.written ==> s.written[e] == jpeg(e))
    && (forall e :: e in s.t.outbox ==> s.t.outbox[e].sha256 == Sha256(jpeg(e)))
    && (forall req :: req in s.sentUploads ==> req.content == jpeg(req.eventId))
    && (forall e :: e in s.ledger.alerts && s.ledger.alerts[e].snapshot.Some? ==>
          s.ledger.alerts[e].snapshot.value.sha256 == Sha256(jpeg(e)))
  }

  predicate TouchesEvidence(step: Step) {
    step.CaptureWrite? || step.CaptureInsert? || step.BackendSync? || step.CheckFile? || step.BackendUpload?
  }

  lemma OtherStepsFaithful(s: State, step: Step, jpeg: EventId -> Bytes)
    requires Faithful(s, jpeg) && !TouchesEvidence(step)
    ensures Faithful(Apply(s, step), jpeg)
  {
    var s' := Apply(s, step);
    assert s'.written == s.written && s'.ledger == s.ledger && s'.sentUploads == s.sentUploads;
    forall e | e in s'.t.outbox
      ensures s'.t.outbox[e].sha256 == Sha256(jpeg(e))
    {
      assert e in s.t.outbox && s'.t.outbox[e].sha256 == s.t.outbox[e].sha256;
    }
  }

  lemma StepFaithful(s: State, step: Step, jpeg: EventId -> Bytes)
    requires Inv(s) && Faithful(s, jpeg)
    requires step.CaptureWrite? ==> step.content == jpeg(step.e)
    ensures Faithful(Apply(s, step), jpeg)
  {
    match step
    case CaptureWrite(e, content) => CaptureFaithful(s, e, content, 0, jpeg);
    case CaptureInsert(at) => CaptureFaithful(s, 0, jpeg(0), at, jpeg);
    case BackendSync(items, policy, delivered) => SyncFaithful(s, items, policy, delivered, jpeg);
    case CheckFile(at) => CheckFaithful(s, at, jpeg);
    case BackendUpload(req, env, delivered) => AttachFaithful(s, req, env, delivered, jpeg);
    case _ => OtherStepsFaithful(s, step, jpeg);
  }

  lemma CaptureFaithful(s: State, e: EventId, content: Bytes, at: int, jpeg: EventId -> Bytes)
    requires Inv(s) && Faithful(s, jpeg) && content == jpeg(e)
    ensures Faithful(WriteCapture(s, e, content), jpeg) && Faithful(InsertCapture(s, at), jpeg)
  {
  }

  lemma SyncFaithful(s: State, items: seq<SyncItem>, policy: Policy, delivered: bool, jpeg: EventId -> Bytes)
    requires Faithful(s, jpeg)
    ensures Faithful(ProcessSync(s, items, policy, delivered), jpeg)
  {
    BatchSnapshots(s.ledger, items, policy);
  }

  lemma AttachFaithful(s: State, req: UploadRequest, env: UploadEnvironment, delivered: bool, jpeg: EventId -> Bytes)
    requires Faithful(s, jpeg)
    ensures Faithful(ProcessUpload(s, req, env, delivered), jpeg)
  {
  }

  lemma CheckFaithful(s: State, at: int, jpeg: EventId -> Bytes)
    requires Inv(s) && Faithful(s, jpeg)
    ensures Faithful(CheckAndSend(s, at), jpeg)
  {
    if s.upload.UploadBatch? && s.upload.records != [] {
      var r := s.upload.records[0];
      assert RecordTrue(r, s.t);
      if LocalCheck(s.t.spool, r).None? {
        assert Sha256(s.t.spool[r.eventId]) == s.t.outbox[r.eventId].sha256 == Sha256(jpeg(r.eventId));
      }
    }
  }

  /** Detection sync never attaches or changes a snapshot. */
  lemma {:induction false} BatchSnapshots(l: Ledger, items: seq<SyncItem>, policy: Policy)
    ensures var l' := SyncBatch(l, items, policy).0;
            forall e :: e in l'.alerts && l'.alerts[e].snapshot.Some? ==>
              e in l.alerts && l.alerts[e].snapshot == l'.alerts[e].snapshot
    decreases |items|
  {
    if items != [] {
      BatchSnapshots(SyncOne(l, items[0], policy).0, items[1..], policy);
    }
  }

  lemma {:induction false} RunFaithful(s: State, steps: seq<Step>, jpeg: EventId -> Bytes)
    requires Inv(s) && Faithful(s, jpeg) && OneJpegPerEvent(steps, jpeg)
    ensures Faithful(Run(s, steps), jpeg)
    decreases |steps|
  {
    if steps != [] {
      StepKeeps(s, steps[0]);
      StepFaithful(s, steps[0], jpeg);
      RunFaithful(Apply(s, steps[0]), steps[1..], jpeg);
    }
  }

  /** With one JPEG per event, every row awaiting upload has its JPEG on disk with the recorded size
      and digest, whatever was interleaved, lost, cancelled, crashed or reconciled. */
  lemma EvidenceSafe(steps: seq<Step>, jpeg: EventId -> Bytes, e: EventId)
    requires OneJpegPerEvent(steps, jpeg)
    ensures var s := Run(INITIAL, steps); AwaitingUpload(s.t, e) ==> FileMatchesRow(s.t, e)
  {
    RunFaithful(INITIAL, steps, jpeg);
    EvidenceExact(steps, e);
  }

  /** … and no upload is ever refused as conflicting with an earlier snapshot. */
  lemma UploadsNeverConflict(steps: seq<Step>, jpeg: EventId -> Bytes, req: UploadRequest, env: UploadEnvironment)
    requires OneJpegPerEvent(steps, jpeg)
    requires req in Run(INITIAL, steps).sentUploads
    ensures !UploadSnapshot(Run(INITIAL, steps).ledger, req, env).1.SnapshotConflict?
  {
    RunFaithful(INITIAL, steps, jpeg);
  }

  /** A captured image: one pixel high, with no components and nothing after its frame header. */
  function Picture(width: nat): Bytes
    requires 0 < width < 0x1_0000
  {
    Jpeg.Stream([], Jpeg.FrameHeader(0xC0, 8, Jpeg.Dimensions(width, 1), []) + [])
  }

  /** It passes the checks before a capture, and different widths are different bytes. */
  lemma PictureAccepted(width: nat, maxFileBytes: nat)
    requires 0 < width < 0x1_0000 && maxFileBytes >= 11
    ensures |Picture(width)| == 11
    ensures Jpeg.Verdict(Picture(width), maxFileBytes) == Ok(Jpeg.Dimensions(width, 1))
  {
    Jpeg.ValidatesWellFormed([], 0xC0, 8, Jpeg.Dimensions(width, 1), [], [], maxFileBytes);
  }

  /** Without that assumption the evidence can be overwritten: two different captures of one event, both
      of which pass validation. */
  lemma TwoJpegsBreakEvidence() returns (steps: seq<Step>, e: EventId)
    ensures forall i :: 0 <= i < |steps| && steps[i].CaptureWrite? ==> Jpeg.Verdict(steps[i].content, 11).Ok?
    ensures var s := Run(INITIAL, steps); AwaitingUpload(s.t, e) && !FileMatchesRow(s.t, e)
  {
    var one, two := Picture(1), Picture(2);
    PictureAccepted(1, 11);
    PictureAccepted(2, 11);
    var facts := Facts(1, "gate", 0, 0);
    var first, second := [Restart, ReconcileDone, Insert(7, facts)], [CaptureWrite(7, one), CaptureInsert(0), CaptureWrite(7, two)];
    AnEventArrives(7, facts);
    CapturedTwice(Begun(7, facts), 7, one, two);
    RunAppend(INITIAL, first, second);
    steps, e := first + second, 7;
  }

  /** The Agent runs and has stored one event. */
  function Begun(e: EventId, facts: Facts): State {
    INITIAL.(phase := Running, t := Tables(map[e := EventRow(facts, Pending, None, None)], map[], map[]))
  }

  lemma AnEventArrives(e: EventId, facts: Facts)
    ensures Run(INITIAL, [Restart, ReconcileDone, Insert(e, facts)]) == Begun(e, facts)
  {
    RunThree(INITIAL, [Restart, ReconcileDone, Insert(e, facts)]);
    assert Apply(Apply(INITIAL, Restart), ReconcileDone) == INITIAL.(phase := Running);
  }

  lemma CapturedTwice(s: State, e: EventId, one: Bytes, two: Bytes)
    requires s.phase == Running && s.ingest == None && e in s.t.events && e !in s.t.outbox
    requires one != two && |one| > 0 && |two| > 0
    ensures var after := Run(s, [CaptureWrite(e, one), CaptureInsert(0), CaptureWrite(e, two)]);
            AwaitingUpload(after.t, e) && !FileMatchesRow(after.t, e)
  {
    RunThree(s, [CaptureWrite(e, one), CaptureInsert(0), CaptureWrite(e, two)]);
    var written := WriteCapture(s, e, one);
    assert InsertCapture(written, 0).t.outbox == s.t.outbox[e := FreshRow(one, 0)];
  }

  lemma RunThree(s: State, steps: seq<Step>)
    requires |steps| == 3
    ensures Run(s, steps) == Apply(Apply(Apply(s, steps[0]), steps[1]), steps[2])
  {
    assert steps[1..][1..] == [steps[2]] && [steps[2]][1..] == [];
    assert Run(s, steps) == Run(Apply(Apply(s, steps[0]), steps[1]), [steps[2]]);
  }
}
