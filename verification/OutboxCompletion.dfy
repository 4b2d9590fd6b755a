/**
 When evidence does reach the Backend.  An association is offered exactly once, while a response is
 being handled: a row that exists then becomes upload-ready; a row created later, or a crash between
 the delivered mark and the association, leaves it without an alert id for ever.
 */
module OutboxCompletion {
  import opened Common
  import opened BackendLedger
  import opened OutboxTables
  import opened OutboxProtocol
  import opened OutboxSafety
  import opened OutboxTheorems

  // ---- The missed association ------------------------------------------------------------------

  /** The event is delivered, nothing holds its alert id, and no association for it is in progress. */
  ghost predicate MissedAssociation(s: State, e: EventId) {
    && e in s.t.events && s.t.events[e].status == Delivered
    && (e in s.t.outbox ==> s.t.outbox[e].alertId.None?)
    && (s.sync.Associating? ==> forall i :: 0 <= i < |s.sync.pairs| ==> s.sync.pairs[i].0 != e)
  }

  lemma MissedStaysMissed(s: State, step: Step, e: EventId)
    requires Inv(s) && MissedAssociation(s, e)
    ensures MissedAssociation(Apply(s, step), e)
  {
    if step.CommitDelivered? {
      if s.sync.SyncReplied? {
        OutcomeLists(s.sync.outcomes, s.t, s.ledger);
      }
    } else if IsSyncStep(step) {
      SyncStepMisses(s, step, e);
    } else if IsUploadStep(step) {
      UploadStepMisses(s, step, e);
    } else {
      LocalStepMisses(s, step, e);
    }
  }

  lemma SyncStepMisses(s: State, step: Step, e: EventId)
    requires MissedAssociation(s, e) && IsSyncStep(step) && !step.CommitDelivered?
    ensures MissedAssociation(Apply(s, step), e)
  {
  }

  lemma UploadStepMisses(s: State, step: Step, e: EventId)
    requires MissedAssociation(s, e) && IsUploadStep(step)
    ensures MissedAssociation(Apply(s, step), e)
  {
  }

  lemma LocalStepMisses(s: State, step: Step, e: EventId)
    requires MissedAssociation(s, e) && !IsSyncStep(step) && !IsUploadStep(step)
    ensures MissedAssociation(Apply(s, step), e)
  {
  }

  /** From then on, whatever happens, the row is never upload-ready and never uploaded. */
  lemma {:induction false} MissedNeverUploads(s: State, steps: seq<Step>, e: EventId)
    requires Inv(s) && MissedAssociation(s, e)
    ensures var s' := Run(s, steps);
            && MissedAssociation(s', e)
            && !UploadReady(s'.t.outbox, e)
            && (e in s'.t.outbox ==> s'.t.outbox[e].upload != Uploaded)
    decreases |steps|
  {
    if steps == [] {
      if e in s.t.outbox {
        assert RowTrue(s.t.outbox[e], s.t.events[e], e, s.ledger);
      }
    } else {
      StepKeeps(s, steps[0]);
      MissedStaysMissed(s, steps[0], e);
      MissedNeverUploads(Apply(s, steps[0]), steps[1..], e);
    }
  }

  // ---- Handling one response without a crash ---------------------------------------------------

  /** A parsed batch response, as the sync worker uses it. */
  datatype BatchResult = BatchResult(acknowledged: set<EventId>, alertIds: map<EventId, AlertId>, quota: set<EventId>)

  function LinkAll(outbox: Outbox, alertIds: map<EventId, AlertId>): Outbox {
    map e | e in outbox ::
      if e in alertIds && outbox[e].alertId.None? then outbox[e].(alertId := Some(alertIds[e])) else outbox[e]
  }

  function CancelAll(outbox: Outbox, quota: set<EventId>): Outbox {
    map e | e in outbox ::
      if e in quota && AwaitsUpload(outbox, e) then outbox[e].(upload := UploadSuppressed) else outbox[e]
  }

  function Unneeded(outbox: Outbox, quota: set<EventId>): set<EventId> {
    set e | e in quota && AwaitsUpload(outbox, e)
  }

  /** The whole effect of one handled response, row by row. */
  function ApplyResult(t: Tables, r: BatchResult, deliveredAt: int, finalizedAt: int): Tables {
    var linked := LinkAll(t.outbox, r.alertIds);
    Tables(
      MarkSuppressed(MarkDelivered(t.events, r.acknowledged, deliveredAt), r.quota, finalizedAt),
      CancelAll(linked, r.quota),
      t.spool - Unneeded(linked, r.quota))
  }

  function PairMap(pairs: seq<(EventId, AlertId)>): map<EventId, AlertId> {
    if pairs == [] then map[] else PairMap(pairs[1..])[pairs[0].0 := pairs[0].1]
  }

  function ResultOf(outcomes: seq<Outcome>): BatchResult {
    BatchResult(Acknowledged(outcomes), PairMap(AlertPairs(outcomes)), Elements(QuotaIds(outcomes)))
  }

  function Rank(stage: SyncStage): nat {
    match stage
    case SyncIdle => 0
    case SyncSent(_) => 0
    case Cancelling(_) => 1
    case CancelUnlink(_, _) => 1
    case Associating(_, _) => 2
    case SyncReplied(_) => 3
  }

  function Remaining(stage: SyncStage): nat {
    match stage
    case Cancelling(quota) => 2 * |quota|
    case CancelUnlink(_, quota) => 2 * |quota| + 1
    case Associating(pairs, _) => |pairs|
    case _ => 0
  }

  /** Takes the protocol's own steps until the response is fully handled. */
  function Settle(s: State, at: int): State
    decreases Rank(s.sync), Remaining(s.sync)
  {
    match s.sync
    case SyncIdle => s
    case SyncSent(_) => s
    case SyncReplied(_) => Settle(MarkAcknowledged(s, at), at)
    case Associating(pairs, _) => if pairs == [] then Settle(MarkQuota(s, at), at) else Settle(AssociateOne(s), at)
    case Cancelling(_) => Settle(CancelOne(s), at)
    case CancelUnlink(_, _) => Settle(RemoveCancelled(s), at)
  }

  lemma {:induction false} SettleCancels(s: State, at: int)
    requires s.sync.Cancelling?
    ensures var q := Elements(s.sync.quota);
            Settle(s, at) == s.(sync := SyncIdle,
              t := Tables(s.t.events, CancelAll(s.t.outbox, q), s.t.spool - Unneeded(s.t.outbox, q)))
    decreases |s.sync.quota|
  {
    var quota := s.sync.quota;
    if quota == [] {
      assert CancelAll(s.t.outbox, {}) == s.t.outbox;
    } else {
      var e, rest := quota[0], Elements(quota[1..]);
      assert Elements(quota) == {e} + rest;
      var outbox := CancelForQuota(s.t.outbox, e);
      assert CancelAll(outbox, rest) == CancelAll(s.t.outbox, {e} + rest);
      if AwaitsUpload(s.t.outbox, e) {
        var mid := RemoveCancelled(CancelOne(s));
        SettleCancels(mid, at);
        assert mid.t.spool - Unneeded(outbox, rest) == s.t.spool - Unneeded(s.t.outbox, {e} + rest);
      } else {
        SettleCancels(CancelOne(s), at);
        assert Unneeded(s.t.outbox, rest) == Unneeded(s.t.outbox, {e} + rest);
      }
    }
  }

  ghost predicate DistinctIds(pairs: seq<(EventId, AlertId)>) {
    forall i, j :: 0 <= i < j < |pairs| ==> pairs[i].0 != pairs[j].0
  }

  lemma {:induction false} PairMapAt(pairs: seq<(EventId, AlertId)>, e: EventId)
    ensures e in PairMap(pairs) <==> exists i :: 0 <= i < |pairs| && pairs[i].0 == e
  {
    if pairs != [] {
      PairMapAt(pairs[1..], e);
      if i: nat :| i < |pairs[1..]| && pairs[1..][i].0 == e {
        assert pairs[i + 1].0 == e;
      }
    }
  }

  lemma {:induction false} SettleAssociates(s: State, at: int)
    requires s.sync.Associating? && DistinctIds(s.sync.pairs)
    ensures var linked := LinkAll(s.t.outbox, PairMap(s.sync.pairs));
            var q := Elements(s.sync.quota);
            Settle(s, at) == s.(sync := SyncIdle,
              t := Tables(MarkSuppressed(s.t.events, q, at), CancelAll(linked, q), s.t.spool - Unneeded(linked, q)))
    decreases |s.sync.pairs|
  {
    var pairs := s.sync.pairs;
    if pairs == [] {
      assert LinkAll(s.t.outbox, map[]) == s.t.outbox;
      SettleCancels(MarkQuota(s, at), at);
    } else {
      var (e, a) := pairs[0];
      PairMapAt(pairs[1..], e);
      assert LinkAll(AssociateOrKeep(s.t.outbox, e, a), PairMap(pairs[1..])) == LinkAll(s.t.outbox, PairMap(pairs));
      SettleAssociates(AssociateOne(s), at);
    }
  }

  lemma {:induction false} PairsDistinct(outcomes: seq<Outcome>)
    requires forall i, j :: 0 <= i < j < |outcomes| ==> outcomes[i].eventId != outcomes[j].eventId
    ensures DistinctIds(AlertPairs(outcomes))
    ensures forall i :: 0 <= i < |AlertPairs(outcomes)| ==>
              exists j :: 0 <= j < |outcomes| && outcomes[j].eventId == AlertPairs(outcomes)[i].0
  {
    if outcomes != [] {
      var rest := outcomes[1..];
      PairsDistinct(rest);
      forall i | 0 <= i < |AlertPairs(outcomes)|
        ensures exists j :: 0 <= j < |outcomes| && outcomes[j].eventId == AlertPairs(outcomes)[i].0
      {
        if outcomes[0].Accepted? || outcomes[0].Duplicate? {
          if i == 0 {
            assert outcomes[0].eventId == AlertPairs(outcomes)[0].0;
          } else {
            var j :| 0 <= j < |rest| && rest[j].eventId == AlertPairs(rest)[i - 1].0;
            assert outcomes[j + 1] == rest[j];
          }
        } else {
          var j :| 0 <= j < |rest| && rest[j].eventId == AlertPairs(rest)[i].0;
          assert outcomes[j + 1] == rest[j];
        }
      }
    }
  }

  /** Handling a response commit by commit, without a crash, has exactly the row-by-row effect. */
  lemma SettleIsApplyResult(s: State, at: int)
    requires Inv(s) && s.sync.SyncReplied?
    ensures Settle(s, at) == s.(sync := SyncIdle, t := ApplyResult(s.t, ResultOf(s.sync.outcomes), at, at))
  {
    PairsDistinct(s.sync.outcomes);
    SettleAssociates(MarkAcknowledged(s, at), at);
  }

  // ---- The association that is in time ---------------------------------------------------------

  lemma {:induction false} PairedWith(outcomes: seq<Outcome>, i: nat)
    requires i < |outcomes| && (outcomes[i].Accepted? || outcomes[i].Duplicate?)
    requires forall i, j :: 0 <= i < j < |outcomes| ==> outcomes[i].eventId != outcomes[j].eventId
    ensures outcomes[i].eventId in PairMap(AlertPairs(outcomes))
    ensures PairMap(AlertPairs(outcomes))[outcomes[i].eventId] == outcomes[i].alertId
  {
    var rest := outcomes[1..];
    if i == 0 {
      assert AlertPairs(outcomes) == [(outcomes[0].eventId, outcomes[0].alertId)] + AlertPairs(rest);
    } else {
      PairedWith(rest, i - 1);
      if outcomes[0].Accepted? || outcomes[0].Duplicate? {
        assert AlertPairs(outcomes) == [(outcomes[0].eventId, outcomes[0].alertId)] + AlertPairs(rest);
      } else {
        assert AlertPairs(outcomes) == AlertPairs(rest);
      }
    }
  }

  lemma {:induction false} NotQuota(outcomes: seq<Outcome>, t: Tables, l: Ledger, i: nat)
    requires OutcomesFor(outcomes, t, l)
    requires i < |outcomes| && (outcomes[i].Accepted? || outcomes[i].Duplicate?)
    ensures outcomes[i].eventId !in QuotaIds(outcomes)
  {
    OutcomeLists(outcomes, t, l);
  }

  /** A captured row that exists when its acceptance is handled is upload-ready once the handling is done. */
  lemma TimelyCaptureIsReady(s: State, i: nat, at: int)
    requires Inv(s) && s.sync.SyncReplied? && i < |s.sync.outcomes|
    requires s.sync.outcomes[i].Accepted? || s.sync.outcomes[i].Duplicate?
    requires AwaitingUpload(s.t, s.sync.outcomes[i].eventId)
    ensures var s' := Settle(s, at); var o := s.sync.outcomes[i];
            && UploadReady(s'.t.outbox, o.eventId)
            && s'.t.outbox[o.eventId].alertId == Some(o.alertId)
            && o.eventId in s'.t.events && s'.t.events[o.eventId].status == Delivered
  {
    HandledRow(s, i, at);
  }

  // ---- Exactly which evidence is lost ----------------------------------------------------------

  /** The handling of a response is a run of the protocol. */
  lemma {:induction false} SettleIsRun(s: State, at: int) returns (steps: seq<Step>)
    ensures Run(s, steps) == Settle(s, at)
    decreases Rank(s.sync), Remaining(s.sync)
  {
    if s.sync.SyncIdle? || s.sync.SyncSent? {
      return [];
    }
    var step := match s.sync
      case SyncReplied(_) => CommitDelivered(at)
      case Associating(pairs, _) => if pairs == [] then CommitSuppressed(at) else AssociateNext
      case Cancelling(_) => CancelNext
      case _ => UnlinkCancelled;
    var rest := SettleIsRun(Apply(s, step), at);
    assert ([step] + rest)[1..] == rest;
    return [step] + rest;
  }

  /** What the handling of an acceptance leaves of the event and of its row. */
  lemma HandledRow(s: State, i: nat, at: int)
    requires Inv(s) && s.sync.SyncReplied? && i < |s.sync.outcomes|
    requires s.sync.outcomes[i].Accepted? || s.sync.outcomes[i].Duplicate?
    ensures var (o, t) := (s.sync.outcomes[i], Settle(s, at).t);
            && Settle(s, at).sync.SyncIdle?
            && o.eventId in t.events && t.events[o.eventId].status == Delivered
            && (o.eventId in t.outbox <==> o.eventId in s.t.outbox)
            && (o.eventId in t.outbox ==> t.outbox[o.eventId] == s.t.outbox[o.eventId].(alertId := Some(o.alertId)))
  {
    var o := s.sync.outcomes[i];
    SettleIsApplyResult(s, at);
    PairedWith(s.sync.outcomes, i);
    NotQuota(s.sync.outcomes, s.t, s.ledger, i);
    assert o.eventId in Acknowledged(s.sync.outcomes) && o.eventId !in Elements(QuotaIds(s.sync.outcomes));
    assert IsPending(s.t.events, o.eventId);
    if o.eventId in s.t.outbox {
      assert RowTrue(s.t.outbox[o.eventId], s.t.events[o.eventId], o.eventId, s.ledger);
    }
  }

  /** Once an acceptance is handled, the event's row is upload-ready if and only if it was captured and
      awaiting upload by then, and its association is missed for good if and only if there was no row. */
  lemma HandledIff(s: State, i: nat, at: int)
    requires Inv(s) && s.sync.SyncReplied? && i < |s.sync.outcomes|
    requires s.sync.outcomes[i].Accepted? || s.sync.outcomes[i].Duplicate?
    ensures var e := s.sync.outcomes[i].eventId;
            UploadReady(Settle(s, at).t.outbox, e) <==> AwaitingUpload(s.t, e)
    ensures var e := s.sync.outcomes[i].eventId;
            MissedAssociation(Settle(s, at), e) <==> e !in s.t.outbox
  {
    HandledRow(s, i, at);
  }

  /** A crash makes a delivered event miss its association if and only if no row of it is linked yet. */
  lemma CrashMissesIff(s: State, e: EventId)
    requires e in s.t.events && s.t.events[e].status == Delivered
    ensures MissedAssociation(Lose(s), e) <==> e !in s.t.outbox || s.t.outbox[e].alertId.None?
  {
  }

  /** So a capture that comes after the acceptance was handled is never uploaded, whatever happens. */
  lemma LateCaptureLost(s: State, i: nat, at: int, steps: seq<Step>)
    requires Inv(s) && s.sync.SyncReplied? && i < |s.sync.outcomes|
    requires s.sync.outcomes[i].Accepted? || s.sync.outcomes[i].Duplicate?
    requires s.sync.outcomes[i].eventId !in s.t.outbox
    ensures var (e, later) := (s.sync.outcomes[i].eventId, Run(Settle(s, at), steps));
            !UploadReady(later.t.outbox, e) && (e in later.t.outbox ==> later.t.outbox[e].upload != Uploaded)
  {
    HandledIff(s, i, at);
    var settling := SettleIsRun(s, at);
    RunKeeps(s, settling);
    MissedNeverUploads(Settle(s, at), steps, s.sync.outcomes[i].eventId);
  }

  function OneSent(e: EventId, facts: Facts): seq<Step> {
    [SendBatch([e]), BackendSync([SyncItem(e, facts)], Policy(true, 1, {}), true)]
  }

  /** One event is sent to an empty Backend and accepted; the answer is not handled yet. */
  lemma SentAndAccepted(s: State, e: EventId, facts: Facts)
    requires s.phase == Running && s.sync == SyncIdle && s.ledger == EMPTY_LEDGER
    requires IsPending(s.t.events, e) && s.t.events[e].facts == facts
    ensures var answered := Run(s, OneSent(e, facts));
            answered.sync == SyncReplied([Accepted(e, 0)]) && answered.t == s.t && answered.phase == Running
            && answered.ingest == s.ingest
  {
    var items := [SyncItem(e, facts)];
    RunTwo(s, OneSent(e, facts));
    assert ItemsOf(s.t.events, [e]) == items;
    var (l1, o) := SyncOne(EMPTY_LEDGER, items[0], Policy(true, 1, {}));
    assert items[1..] == [];
    assert SyncBatch(l1, [], Policy(true, 1, {})) == (l1, []);
    assert SyncBatch(EMPTY_LEDGER, items, Policy(true, 1, {})) == (l1, [o] + []);
    assert [o] + [] == [Accepted(e, 0)];
  }

  function Arrival(e: EventId, facts: Facts): seq<Step> {
    [Restart, ReconcileDone, Insert(e, facts)]
  }

  function CaptureOf(e: EventId): seq<Step> {
    [CaptureWrite(e, Picture(1)), CaptureInsert(0)]
  }

  lemma Captures(s: State, e: EventId)
    requires s.phase == Running && s.ingest == None && e in s.t.events && e !in s.t.outbox
    ensures var after := Run(s, CaptureOf(e));
            && after == s.(t := after.t, written := s.written[e := Picture(1)])
            && after.t.events == s.t.events && after.t.outbox == s.t.outbox[e := FreshRow(Picture(1), 0)]
  {
    RunTwo(s, CaptureOf(e));
    PictureAccepted(1, 11);
  }

  /** A run in which the capture comes after the acceptance was handled. */
  lemma LateCaptureRun() returns (steps: seq<Step>, e: EventId)
    ensures var s := Run(INITIAL, steps); AwaitingUpload(s.t, e) && MissedAssociation(s, e)
  {
    e := 7;
    var facts := Facts(1, "gate", 0, 0);
    AnEventArrives(e, facts);
    SentAndAccepted(Begun(e, facts), e, facts);
    RunAppend(INITIAL, Arrival(e, facts), OneSent(e, facts));
    var answered := Run(INITIAL, Arrival(e, facts) + OneSent(e, facts));
    ReachableInv(Arrival(e, facts) + OneSent(e, facts));
    var settling := SettleIsRun(answered, 0);
    SettleIsApplyResult(answered, 0);
    HandledIff(answered, 0, 0);
    RunAppend(INITIAL, Arrival(e, facts) + OneSent(e, facts), settling);
    var settled := Settle(answered, 0);
    Captures(settled, e);
    RunAppend(INITIAL, Arrival(e, facts) + OneSent(e, facts) + settling, CaptureOf(e));
    steps := Arrival(e, facts) + OneSent(e, facts) + settling + CaptureOf(e);
  }

  lemma CrashAfterMark(s: State, e: EventId, a: AlertId)
    requires s.sync == SyncReplied([Accepted(e, a)]) && IsPending(s.t.events, e)
    requires AwaitingUpload(s.t, e) && s.t.outbox[e].alertId == None
    ensures var after := Run(s, [CommitDelivered(0), Crash]); AwaitingUpload(after.t, e) && MissedAssociation(after, e)
  {
    RunTwo(s, [CommitDelivered(0), Crash]);
    assert [Accepted(e, a)][0].eventId in Acknowledged([Accepted(e, a)]);
    CrashMissesIff(MarkAcknowledged(s, 0), e);
  }

  /** A run in which the Agent crashes between the delivered mark and the association. */
  lemma CrashBeforeAssociationRun() returns (steps: seq<Step>, e: EventId)
    ensures var s := Run(INITIAL, steps); AwaitingUpload(s.t, e) && MissedAssociation(s, e)
  {
    e := 7;
    var facts := Facts(1, "gate", 0, 0);
    AnEventArrives(e, facts);
    Captures(Begun(e, facts), e);
    var captured := Run(Begun(e, facts), CaptureOf(e));
    SentAndAccepted(captured, e, facts);
    CrashAfterMark(Run(captured, OneSent(e, facts)), e, 0);
    steps := Arrival(e, facts) + (CaptureOf(e) + (OneSent(e, facts) + [CommitDelivered(0), Crash]));
    RunAppend(INITIAL, Arrival(e, facts), CaptureOf(e) + (OneSent(e, facts) + [CommitDelivered(0), Crash]));
    RunAppend(Begun(e, facts), CaptureOf(e), OneSent(e, facts) + [CommitDelivered(0), Crash]);
    RunAppend(captured, OneSent(e, facts), [CommitDelivered(0), Crash]);
  }

  // ---- The upload that follows -----------------------------------------------------------------

  /** The five steps of one undisturbed upload. */
  function UploadOnce(e: EventId, req: UploadRequest, at: int): seq<Step> {
    [ListUploads([e]), CheckFile(at), BackendUpload(req, UploadEnvironment(true, true), true)] + [FinishUpload(at), UnlinkUploaded]
  }

  lemma RunTwo(s: State, steps: seq<Step>)
    requires |steps| == 2
    ensures Run(s, steps) == Apply(Apply(s, steps[0]), steps[1])
  {
    var mid := Apply(s, steps[0]);
    assert steps[1..] == [steps[1]] && [steps[1]][1..] == [];
    assert Run(mid, [steps[1]]) == Run(Apply(mid, steps[1]), []);
  }

  /** From any reachable state with one JPEG per event, an undisturbed attempt on an upload-ready row
      succeeds — also when an earlier attempt was stored but its reply was lost: the row ends uploaded,
      the Backend holds its digest, and the local file is gone. */
  lemma UploadCompletes(steps: seq<Step>, jpeg: EventId -> Bytes, e: EventId, at: int)
    requires OneJpegPerEvent(steps, jpeg)
    requires var s := Run(INITIAL, steps); s.phase.Running? && s.upload.UploadIdle? && UploadReady(s.t.outbox, e)
    requires 0 < |jpeg(e)| <= MAX_SNAPSHOT_SIZE_BYTES
    ensures var s := Run(INITIAL, steps);
            var row := s.t.outbox[e];
            var s' := Run(s, UploadOnce(e, UploadRequest(row.alertId.value, e, jpeg(e), row.sha256), at));
            && s'.t == Tables(s.t.events, s.t.outbox[e := row.(upload := Uploaded, uploadedAt := Some(at))], s.t.spool - {e})
            && SnapshotHeld(s'.ledger, e, row.sha256)
  {
    var s := Run(INITIAL, steps);
    var row := s.t.outbox[e];
    ReachableInv(steps);
    RunFaithful(INITIAL, steps, jpeg);
    EvidenceSafe(steps, jpeg, e);
    assert s.t.spool[e] == jpeg(e) by {
      assert FilePresent(row, e, s.t.spool, s.written);
    }
    assert RowTrue(row, s.t.events[e], e, s.ledger);
    UploadRoundTrip(s, e, at);
  }

  // ---- Exactly which evidence a crash leaves uploadable -----------------------------------------

  ghost predicate Mentions(records: seq<UploadRecord>, e: EventId) {
    exists i :: 0 <= i < |records| && records[i].eventId == e
  }

  /** The upload worker holds no record of e. */
  ghost predicate Unlisted(stage: UploadStage, e: EventId) {
    stage.UploadIdle? || !Mentions(stage.records, e)
  }

  /** Capture failed, not uploaded, and not on the worker's list. */
  ghost predicate GivenUp(s: State, e: EventId) {
    && e in s.t.outbox && s.t.outbox[e].capture == CaptureFailed && s.t.outbox[e].upload != Uploaded
    && Unlisted(s.upload, e)
  }

  lemma GivenUpByUpload(s: State, step: Step, e: EventId)
    requires GivenUp(s, e) && IsUploadStep(step)
    ensures GivenUp(Apply(s, step), e)
  {
    if !s.upload.UploadIdle? && s.upload.records != [] {
      assert s.upload.records[0].eventId != e;
      assert forall i :: 0 <= i < |s.upload.records[1..]| ==> s.upload.records[1..][i] == s.upload.records[i + 1];
    }
    if step.ListUploads? && Apply(s, step).upload.UploadBatch? && s.upload.UploadIdle? {
      assert !Mentions(Apply(s, step).upload.records, e);
    }
  }

  lemma GivenUpBySync(s: State, step: Step, e: EventId)
    requires GivenUp(s, e) && IsSyncStep(step)
    ensures GivenUp(Apply(s, step), e)
  {
  }

  lemma GivenUpLocally(s: State, step: Step, e: EventId)
    requires GivenUp(s, e) && !IsSyncStep(step) && !IsUploadStep(step)
    ensures GivenUp(Apply(s, step), e)
  {
  }

  lemma {:induction false} GivenUpNeverUploads(s: State, steps: seq<Step>, e: EventId)
    requires GivenUp(s, e)
    ensures GivenUp(Run(s, steps), e)
    decreases |steps|
  {
    if steps != [] {
      if IsUploadStep(steps[0]) {
        GivenUpByUpload(s, steps[0], e);
      } else if IsSyncStep(steps[0]) {
        GivenUpBySync(s, steps[0], e);
      } else {
        GivenUpLocally(s, steps[0], e);
      }
      GivenUpNeverUploads(Apply(s, steps[0]), steps[1..], e);
    }
  }

  ghost predicate UploadedBy(s: State, steps: seq<Step>, e: EventId) {
    e in Run(s, steps).t.outbox && Run(s, steps).t.outbox[e].upload == Uploaded
  }

  ghost predicate CanUpload(s: State, e: EventId) {
    exists steps :: UploadedBy(s, steps, e)
  }

  lemma CrashLosesTheRest(s: State, steps: seq<Step>, e: EventId)
    requires Inv(s) && e in s.t.events && s.t.events[e].status == Delivered
    requires (e in s.t.outbox ==> s.t.outbox[e].upload != Uploaded) && !UploadReady(s.t.outbox, e)
    ensures !UploadedBy(Lose(s), steps, e)
  {
    if e in s.t.outbox && s.t.outbox[e].alertId.Some? {
      assert RowTrue(s.t.outbox[e], s.t.events[e], e, s.ledger);
      GivenUpNeverUploads(Lose(s), steps, e);
    } else {
      CrashKeeps(s);
      CrashMissesIff(s, e);
      MissedNeverUploads(Lose(s), steps, e);
    }
  }

  lemma CrashSaves(steps: seq<Step>, jpeg: EventId -> Bytes, e: EventId)
    requires OneJpegPerEvent(steps, jpeg) && 0 < |jpeg(e)| <= MAX_SNAPSHOT_SIZE_BYTES
    requires UploadReady(Run(INITIAL, steps).t.outbox, e)
    ensures CanUpload(Lose(Run(INITIAL, steps)), e)
  {
    var s := Run(INITIAL, steps);
    RestartIsQuick(steps);
    var restarted := steps + [Crash, Restart, ReconcileDone];
    assert OneJpegPerEvent(restarted, jpeg);
    UploadCompletes(restarted, jpeg, e, 0);
    var row := s.t.outbox[e];
    var upload := UploadOnce(e, UploadRequest(row.alertId.value, e, jpeg(e), row.sha256), 0);
    RunAppend(Lose(s), [Restart, ReconcileDone], upload);
    assert UploadedBy(Lose(s), [Restart, ReconcileDone] + upload, e);
  }

  /** An uneventful restart after a crash leaves tables and spool as they were. */
  lemma RestartIsQuick(steps: seq<Step>)
    ensures var s := Run(INITIAL, steps); var up := Lose(s).(phase := Running);
            Run(INITIAL, steps + [Crash, Restart, ReconcileDone]) == up && Run(Lose(s), [Restart, ReconcileDone]) == up
  {
    var s := Run(INITIAL, steps);
    RunAppend(INITIAL, steps, [Crash, Restart, ReconcileDone]);
    RunThree(s, [Crash, Restart, ReconcileDone]);
    RunTwo(Lose(s), [Restart, ReconcileDone]);
  }

  /** After a crash in any reachable state, the evidence of a delivered event that was not uploaded yet can
      still be uploaded if and only if its row was captured, pending and linked. */
  lemma CrashSavesIff(steps: seq<Step>, jpeg: EventId -> Bytes, e: EventId)
    requires OneJpegPerEvent(steps, jpeg) && 0 < |jpeg(e)| <= MAX_SNAPSHOT_SIZE_BYTES
    requires var s := Run(INITIAL, steps);
             e in s.t.events && s.t.events[e].status == Delivered && (e in s.t.outbox ==> s.t.outbox[e].upload != Uploaded)
    ensures CanUpload(Lose(Run(INITIAL, steps)), e) <==> UploadReady(Run(INITIAL, steps).t.outbox, e)
  {
    var s := Run(INITIAL, steps);
    ReachableInv(steps);
    if UploadReady(s.t.outbox, e) {
      CrashSaves(steps, jpeg, e);
    } else {
      forall more: seq<Step>
        ensures !UploadedBy(Lose(s), more, e)
      {
        CrashLosesTheRest(s, more, e);
      }
    }
  }

  lemma ListAndSend(s: State, e: EventId, at: int)
    requires s.phase.Running? && s.upload.UploadIdle? && UploadReady(s.t.outbox, e) && FileMatchesRow(s.t, e)
    ensures var record := RecordOf(s.t.outbox, e);
            var req := UploadRequest(record.alertId, e, s.t.spool[e], record.sha256);
            Apply(Apply(s, ListUploads([e])), CheckFile(at))
              == s.(upload := UploadInFlight(req, [record]), sentUploads := s.sentUploads + {req})
  {
    var record := RecordOf(s.t.outbox, e);
    assert seq(|[e]|, i requires 0 <= i < |[e]| => RecordOf(s.t.outbox, [e][i])) == [record];
    assert Apply(s, ListUploads([e])) == s.(upload := UploadBatch([record]));
  }

  lemma CommitAndUnlink(s: State, record: UploadRecord, outcome: UploadOutcome, at: int)
    requires s.upload == UploadReplied(outcome, [record])
    requires outcome.SnapshotAccepted? || outcome.SnapshotDuplicate?
    ensures Apply(Apply(s, FinishUpload(at)), UnlinkUploaded)
         == s.(t := Tables(s.t.events, MarkUploaded(s.t.outbox, record.eventId, at), s.t.spool - {record.eventId}),
               upload := UploadBatch([]))
  {
    assert [record][1..] == [];
  }

  /** The steps themselves, from any state where the file matches and the ledger does not disagree. */
  lemma UploadRoundTrip(s: State, e: EventId, at: int)
    requires Inv(s) && s.phase.Running? && s.upload.UploadIdle? && UploadReady(s.t.outbox, e) && FileMatchesRow(s.t, e)
    requires 0 < |s.t.spool[e]| <= MAX_SNAPSHOT_SIZE_BYTES
    requires Holds(s.ledger, e, s.t.outbox[e].alertId.value)
    requires s.ledger.alerts[e].snapshot.Some? ==> s.ledger.alerts[e].snapshot.value.sha256 == s.t.outbox[e].sha256
    ensures var row := s.t.outbox[e];
            var s' := Run(s, UploadOnce(e, UploadRequest(row.alertId.value, e, s.t.spool[e], row.sha256), at));
            && s'.t == Tables(s.t.events, s.t.outbox[e := row.(upload := Uploaded, uploadedAt := Some(at))], s.t.spool - {e})
            && SnapshotHeld(s'.ledger, e, row.sha256)
  {
    var record := RecordOf(s.t.outbox, e);
    var req := UploadRequest(record.alertId, e, s.t.spool[e], record.sha256);
    var env := UploadEnvironment(true, true);
    var first, second := UploadOnce(e, req, at)[..3], [FinishUpload(at), UnlinkUploaded];
    RunAppend(s, first, second);
    assert first == [ListUploads([e]), CheckFile(at), BackendUpload(req, env, true)];
    UploadAnswered(s.ledger, req);
    SendIsAnswered(s, e, at, req);
    var answered := Run(s, first);
    RunTwo(answered, second);
    CommitAndUnlink(answered, record, UploadSnapshot(s.ledger, req, env).1, at);
  }

  lemma SendIsAnswered(s: State, e: EventId, at: int, req: UploadRequest)
    requires s.phase.Running? && s.upload.UploadIdle? && UploadReady(s.t.outbox, e) && FileMatchesRow(s.t, e)
    requires req == UploadRequest(s.t.outbox[e].alertId.value, e, s.t.spool[e], s.t.outbox[e].sha256)
    ensures var env := UploadEnvironment(true, true);
            var (ledger, outcome) := UploadSnapshot(s.ledger, req, env);
            Run(s, [ListUploads([e]), CheckFile(at), BackendUpload(req, env, true)])
              == s.(upload := UploadReplied(outcome, [RecordOf(s.t.outbox, e)]), sentUploads := s.sentUploads + {req}, ledger := ledger)
  {
    RunThree(s, [ListUploads([e]), CheckFile(at), BackendUpload(req, UploadEnvironment(true, true), true)]);
    ListAndSend(s, e, at);
  }

  lemma UploadAnswered(l: Ledger, req: UploadRequest)
    requires ValidLedger(l) && Holds(l, req.eventId, req.alertId)
    requires 0 < |req.content| <= MAX_SNAPSHOT_SIZE_BYTES && req.claimed == Sha256(req.content)
    requires l.alerts[req.eventId].snapshot.Some? ==> l.alerts[req.eventId].snapshot.value.sha256 == req.claimed
    ensures var (l', o) := UploadSnapshot(l, req, UploadEnvironment(true, true));
            && (o.SnapshotAccepted? || o.SnapshotDuplicate?)
            && SnapshotHeld(l', req.eventId, req.claimed)
  {
    var owners := set e | e in l.alerts && l.alerts[e].alertId == req.alertId;
    assert req.eventId in owners;
  }
}
