/**
 The two drain loops over the Agent's tables: the sync worker, which sends pending detections, and the
 upload worker, which sends captured snapshots.  One pass of each is a method; the network is a function
 from what is sent to what comes back.
 */
module Workers {
  import opened Common
  import opened BackendLedger
  import opened OutboxTables
  import opened OutboxProtocol
  import opened OutboxCompletion
  import opened Backoff
  import opened DrainRounds

  datatype Identity = Identity(deviceId: nat, operational: bool)

  datatype BatchReply = BatchFailure | BatchAnswer(result: BatchResult)

  /** The wait state of a loop, kept in the worker's own fields. */
  class RetryClock {
    const tuning: Tuning
    var backoffAttempt: nat
    var waits: seq<real>
    var alive: bool

    constructor (tuning: Tuning)
      requires ValidTuning(tuning)
      ensures this.tuning == tuning && Loop() == LoopState(0, [], true)
    {
      this.tuning := tuning;
      backoffAttempt, waits, alive := 0, [], true;
    }

    ghost function Loop(): LoopState
      reads this
    {
      LoopState(backoffAttempt, waits, alive)
    }

    method Reset()
      modifies this
      ensures Loop() == old(Loop()).(attempt := 0)
    {
      backoffAttempt := 0;
    }

    method SleepBackoff(jitter: real)
      requires alive
      modifies this
      ensures Loop() == Wait(tuning, old(Loop()), jitter)
    {
      if backoffAttempt >= MAX_FLOAT_EXPONENT {
        alive := false;
        return;
      }
      var delay := Delay(tuning, backoffAttempt);
      backoffAttempt := backoffAttempt + 1;
      waits := waits + [Jittered(delay, jitter)];
    }
  }

  // ---- Sync worker -----------------------------------------------------------------------------

  /** The listed rows that belong to the current Device, in order. */
  function Own(pending: seq<EventId>, events: Events, deviceId: nat): (own: seq<EventId>)
    requires forall e :: e in pending ==> e in events
    ensures forall e :: e in own <==> e in pending && events[e].facts.deviceId == deviceId
    ensures |own| <= |pending|
    ensures |own| == |pending| ==> own == pending
  {
    if pending == [] then []
    else
      var rest := Own(pending[1..], events, deviceId);
      if events[pending[0]].facts.deviceId == deviceId then [pending[0]] + rest else rest
  }

  /** Alert ids come only with events the same answer acknowledges. */
  ghost predicate WellFormedReply(r: BatchReply) {
    r.BatchAnswer? ==> r.result.alertIds.Keys <= r.result.acknowledged
  }

  function Restrict(m: map<EventId, AlertId>, ids: set<EventId>): map<EventId, AlertId> {
    map e | e in m && e in ids :: m[e]
  }

  lemma LinkOneMore(outbox: Outbox, alertIds: map<EventId, AlertId>, done: set<EventId>, e: EventId)
    requires e in alertIds
    ensures LinkAll(outbox, Restrict(alertIds, done + {e}))
         == AssociateOrKeep(LinkAll(outbox, Restrict(alertIds, done)), e, alertIds[e])
  {
  }

  lemma CancelOneMore(outbox: Outbox, done: set<EventId>, e: EventId)
    requires e !in done
    ensures CancelAll(outbox, done + {e}) == CancelForQuota(CancelAll(outbox, done), e)
    ensures Unneeded(outbox, done + {e}) == Unneeded(outbox, done) + (if AwaitsUpload(outbox, e) then {e} else {})
    ensures AwaitsUpload(CancelAll(outbox, done), e) == AwaitsUpload(outbox, e)
  {
  }

  class DetectionEventSyncWorker {
    const events: DetectionEventRepository
    const outbox: SnapshotOutboxRepository
    const spool: Spool
    const clock: RetryClock
    const batchSize: nat

    ghost predicate Valid()
    {
      batchSize > 0 && outbox.events == events
    }

    ghost function Stored(): Tables
      reads events, outbox, spool
    {
      Tables(events.rows, outbox.rows, spool.files)
    }

    constructor (events: DetectionEventRepository, outbox: SnapshotOutboxRepository, spool: Spool, clock: RetryClock, batchSize: nat)
      requires batchSize > 0 && outbox.events == events
      ensures Valid()
      ensures this.events == events && this.outbox == outbox && this.spool == spool && this.clock == clock
      ensures this.batchSize == batchSize
    {
      this.events, this.outbox, this.spool, this.clock, this.batchSize := events, outbox, spool, clock, batchSize;
    }

    /** The answered part of a pass: the row-by-row effect of the whole response. */
    method Handle(result: BatchResult, deliveredAt: int, finalizedAt: int)
      requires Valid() && result.alertIds.Keys <= result.acknowledged
      modifies events, outbox, spool
      ensures Stored() == ApplyResult(old(Stored()), result, deliveredAt, finalizedAt)
    {
      ghost var before := Stored();
      if result.acknowledged != {} {
        var _ := events.MarkDeliveredMany(result.acknowledged, deliveredAt);
        AssociateAlertIds(result.alertIds);
      }
      assert events.rows == MarkDelivered(before.events, result.acknowledged, deliveredAt);
      assert outbox.rows == LinkAll(before.outbox, result.alertIds);
      if result.quota != {} {
        var _ := events.MarkSuppressedByQuotaMany(result.quota, finalizedAt);
        CancelSnapshots(result.quota);
      }
      assert outbox.rows == CancelAll(LinkAll(before.outbox, result.alertIds), result.quota);
    }

    method AssociateAlertIds(alertIds: map<EventId, AlertId>)
      requires Valid()
      modifies outbox
      ensures outbox.rows == LinkAll(old(outbox.rows), alertIds)
    {
      var todo := alertIds.Keys;
      while todo != {}
        invariant todo <= alertIds.Keys
        invariant outbox.rows == LinkAll(old(outbox.rows), Restrict(alertIds, alertIds.Keys - todo))
        decreases todo
      {
        var e :| e in todo;
        LinkOneMore(old(outbox.rows), alertIds, alertIds.Keys - todo, e);
        assert alertIds.Keys - (todo - {e}) == (alertIds.Keys - todo) + {e};
        todo := todo - {e};
        var _ := outbox.AssociateAlertId(e, alertIds[e]);
      }
      assert alertIds.Keys - {} == alertIds.Keys;
      assert Restrict(alertIds, alertIds.Keys) == alertIds;
    }

    method CancelSnapshots(quota: set<EventId>)
      requires Valid()
      modifies outbox, spool
      ensures outbox.rows == CancelAll(old(outbox.rows), quota)
      ensures spool.files == old(spool.files) - Unneeded(old(outbox.rows), quota)
    {
      var todo := quota;
      while todo != {}
        invariant todo <= quota
        invariant outbox.rows == CancelAll(old(outbox.rows), quota - todo)
        invariant spool.files == old(spool.files) - Unneeded(old(outbox.rows), quota - todo)
        decreases todo
      {
        var e :| e in todo;
        CancelOneMore(old(outbox.rows), quota - todo, e);
        assert quota - (todo - {e}) == (quota - todo) + {e};
        todo := todo - {e};
        var updated := outbox.Cancel(e);
        if updated {
          spool.Unlink(e);
        }
      }
      assert quota - {} == quota;
    }

    /** One pass.  `pending` is what was listed, `own` what was sent, `idle` asks for the idle wait. */
    method DrainOnce(identity: Option<Identity>, network: seq<SyncItem> -> BatchReply, jitter: real, deliveredAt: int, finalizedAt: int)
      returns (idle: bool, pass: Iteration, pending: seq<EventId>, own: seq<EventId>)
      requires Valid() && clock.alive
      requires forall items :: WellFormedReply(network(items))
      modifies events, outbox, spool, clock
      ensures clock.Loop() == Backoff.Step(clock.tuning, old(clock.Loop()), pass)
      ensures identity.None? || !identity.value.operational ==> pending == [] && own == [] && pass == NothingToSend
      ensures identity.Some? && identity.value.operational ==> IsOldest(pending, PendingTimes(old(events.rows)), batchSize)
      ensures forall e :: e in pending ==> e in old(events.rows)
      ensures identity.Some? ==> own == Own(pending, old(events.rows), identity.value.deviceId)
      ensures own == [] ==> pass == NothingToSend && idle && Stored() == old(Stored())
      ensures own != [] ==>
                match network(ItemsOf(old(events.rows), own))
                case BatchFailure => pass == BatchFailed(jitter) && !idle && Stored() == old(Stored())
                case BatchAnswer(r) =>
                  && pass == Answered
                  && Stored() == ApplyResult(old(Stored()), r, deliveredAt, finalizedAt)
                  && idle == (own != pending || |pending| < batchSize)
    {
      idle, pass, pending, own := true, NothingToSend, [], [];
      if identity.None? || !identity.value.operational {
        return;
      }
      pending := events.ListPending(batchSize);
      own := Own(pending, events.rows, identity.value.deviceId);
      if own == [] {
        return;
      }
      var reply := network(ItemsOf(events.rows, own));
      if reply.BatchFailure? {
        clock.SleepBackoff(jitter);
        return false, BatchFailed(jitter), pending, own;
      }
      assert WellFormedReply(reply);
      Handle(reply.result, deliveredAt, finalizedAt);
      clock.Reset();
      idle := |own| != |pending| || |pending| < batchSize;
      pass := Answered;
    }
  }

  /** Rows of another Device, and rows the Backend keeps rejecting, are gone over again and again. */
  function SyncFate(events: Events, deviceId: nat, rejected: set<EventId>): Fates {
    (e: EventId) => if e in events && events[e].facts.deviceId == deviceId && e !in rejected then Deliverable else Skipped
  }

  /** An answered pass is one oldest-first pass in the sense of DrainRounds. */
  lemma SyncPassIsRound(t: Tables, pending: seq<EventId>, deviceId: nat, rejected: set<EventId>, limit: nat, r: BatchResult, at: int)
    requires IsOldest(pending, PendingTimes(t.events), limit)
    requires r.acknowledged + r.quota == Elements(Own(pending, t.events, deviceId)) - rejected
    ensures PendingTimes(ApplyResult(t, r, at, at).events)
         == AfterPass(PendingTimes(t.events), Pass(pending, map[]), SyncFate(t.events, deviceId, rejected))
  {
    assert forall e :: e in pending ==> e in PendingTimes(t.events);
    SyncSettles(t.events, pending, deviceId, rejected);
    PendingAfter(t.events, r.acknowledged, r.quota, at);
    NoArrivals(PendingTimes(t.events) - (r.acknowledged + r.quota));
  }

  lemma SyncSettles(events: Events, pending: seq<EventId>, deviceId: nat, rejected: set<EventId>)
    requires forall e :: e in pending ==> e in events
    ensures SettledBy(pending, SyncFate(events, deviceId, rejected)) == Elements(Own(pending, events, deviceId)) - rejected
  {
    NoneRefused(pending, SyncFate(events, deviceId, rejected));
  }

  lemma PendingAfter(events: Events, delivered: set<EventId>, suppressed: set<EventId>, at: int)
    ensures PendingTimes(MarkSuppressed(MarkDelivered(events, delivered, at), suppressed, at))
         == PendingTimes(events) - (delivered + suppressed)
  {
    var after := MarkSuppressed(MarkDelivered(events, delivered, at), suppressed, at);
    forall e
      ensures IsPending(after, e) <==> IsPending(events, e) && e !in delivered + suppressed
      ensures e in events ==> after[e].facts == events[e].facts
    {
    }
  }

  lemma {:induction false} NoneRefused(chosen: seq<EventId>, fate: Fates)
    requires forall e :: !fate(e).Refused?
    ensures SettledBy(chosen, fate) == set e | e in chosen && fate(e).Deliverable?
  {
    if chosen != [] {
      NoneRefused(chosen[1..], fate);
    }
  }

  // ---- Upload worker ---------------------------------------------------------------------------

  /** The network for one upload: nothing when the Backend stored the bytes or already had them. */
  type UploadNetwork = UploadRequest -> Option<UploadFailure>

  function RequestFor(spool: SpoolFiles, r: UploadRecord): UploadRequest
    requires r.eventId in spool
  {
    UploadRequest(r.alertId, r.eventId, spool[r.eventId], r.sha256)
  }

  datatype UploadProgress = UploadProgress(outbox: Outbox, spool: SpoolFiles, completed: bool)

  /** A bad local file is recorded and gone over, a failed request is recorded and ends the pass, a
      successful one is committed before its file is removed. */
  function HandleRow(outbox: Outbox, spool: SpoolFiles, r: UploadRecord, network: UploadNetwork, at: int): UploadProgress {
    if LocalCheck(spool, r).Some? then
      UploadProgress(RecordAttemptFailure(outbox, r.eventId, at, LocalCheck(spool, r).value), spool, true)
    else if network(RequestFor(spool, r)).Some? then
      UploadProgress(RecordAttemptFailure(outbox, r.eventId, at, network(RequestFor(spool, r)).value), spool, false)
    else
      UploadProgress(MarkUploaded(outbox, r.eventId, at), spool - {r.eventId}, true)
  }

  function UploadAll(outbox: Outbox, spool: SpoolFiles, records: seq<UploadRecord>, network: UploadNetwork, at: int): UploadProgress
    decreases |records|
  {
    if records == [] then UploadProgress(outbox, spool, true)
    else
      var one := HandleRow(outbox, spool, records[0], network, at);
      if one.completed then UploadAll(one.outbox, one.spool, records[1..], network, at) else one
  }

  function RecordsOf(outbox: Outbox, ids: seq<EventId>): (records: seq<UploadRecord>)
    requires forall e :: e in ids ==> UploadReady(outbox, e)
    ensures |records| == |ids|
    ensures forall i :: 0 <= i < |ids| ==> records[i] == RecordOf(outbox, ids[i])
  {
    if ids == [] then [] else [RecordOf(outbox, ids[0])] + RecordsOf(outbox, ids[1..])
  }

  class SnapshotUploadWorker {
    const outbox: SnapshotOutboxRepository
    const spool: Spool
    const clock: RetryClock
    const batchSize: nat

    constructor (outbox: SnapshotOutboxRepository, spool: Spool, clock: RetryClock, batchSize: nat)
      requires batchSize > 0
      ensures this.outbox == outbox && this.spool == spool && this.clock == clock && this.batchSize == batchSize
    {
      this.outbox, this.spool, this.clock, this.batchSize := outbox, spool, clock, batchSize;
    }

    /** One row; false stops the pass. */
    method UploadOne(r: UploadRecord, network: UploadNetwork, at: int) returns (again: bool)
      modifies outbox, spool
      ensures var one := HandleRow(old(outbox.rows), old(spool.files), r, network, at);
              outbox.rows == one.outbox && spool.files == one.spool && again == one.completed
    {
      var check := LocalCheck(spool.files, r);
      if check.Some? {
        outbox.RecordFailure(r.eventId, at, check.value);
        return true;
      }
      var failure := network(RequestFor(spool.files, r));
      if failure.Some? {
        outbox.RecordFailure(r.eventId, at, failure.value);
        return false;
      }
      var _ := outbox.MarkRowUploaded(r.eventId, at);
      spool.Unlink(r.eventId);
      return true;
    }

    method DrainOnce(operational: bool, network: UploadNetwork, jitter: real, at: int)
      returns (idle: bool, pass: Iteration, pending: seq<EventId>)
      requires batchSize > 0 && clock.alive
      modifies outbox, spool, clock
      ensures clock.Loop() == Backoff.Step(clock.tuning, old(clock.Loop()), pass)
      ensures !operational ==> pending == []
      ensures operational ==> IsOldest(pending, ReadyTimes(old(outbox.rows)), batchSize)
      ensures pending == [] ==>
                pass == NothingToSend && idle && outbox.rows == old(outbox.rows) && spool.files == old(spool.files)
      ensures forall e :: e in pending ==> UploadReady(old(outbox.rows), e)
      ensures pending != [] ==>
                var all := UploadAll(old(outbox.rows), old(spool.files), RecordsOf(old(outbox.rows), pending), network, at);
                && outbox.rows == all.outbox && spool.files == all.spool
                && pass == (if all.completed then Answered else BatchFailed(jitter))
                && idle == (all.completed && |pending| < batchSize)
    {
      idle, pass, pending := true, NothingToSend, [];
      if !operational {
        return;
      }
      pending := outbox.ListUploadReady(batchSize);
      if pending == [] {
        return;
      }
      var records := RecordsOf(outbox.rows, pending);
      ghost var all := UploadAll(outbox.rows, spool.files, records, network, at);
      var rest := records;
      while rest != []
        invariant clock.Loop() == old(clock.Loop())
        invariant UploadAll(outbox.rows, spool.files, rest, network, at) == all
        decreases |rest|
      {
        var again := UploadOne(rest[0], network, at);
        if !again {
          clock.SleepBackoff(jitter);
          return false, BatchFailed(jitter), pending;
        }
        rest := rest[1..];
      }
      clock.Reset();
      return |pending| < batchSize, Answered, pending;
    }
  }

  /** How the pass treats each ready row: its file is unusable, the Backend will not take it, or neither. */
  function FateOf(spool: SpoolFiles, r: UploadRecord, network: UploadNetwork): Fate {
    if LocalCheck(spool, r).Some? then Skipped else if network(RequestFor(spool, r)).Some? then Refused else Deliverable
  }

  ghost predicate FatesAre(outbox: Outbox, spool: SpoolFiles, network: UploadNetwork, fate: Fates) {
    forall e :: UploadReady(outbox, e) ==> fate(e) == FateOf(spool, RecordOf(outbox, e), network)
  }

  ghost predicate SameExceptProgress(now: SnapshotRow, before: SnapshotRow) {
    && now.capture == before.capture && now.alertId == before.alertId && now.sizeBytes == before.sizeBytes
    && now.sha256 == before.sha256 && now.capturedAt == before.capturedAt
  }

  ghost predicate Settles(now: Outbox, before: Outbox, settled: set<EventId>) {
    && now.Keys == before.Keys
    && (forall e :: e in before ==>
          SameExceptProgress(now[e], before[e]) && now[e].upload == if e in settled then Uploaded else before[e].upload)
  }

  ghost predicate Listed(outbox: Outbox, ids: seq<EventId>) {
    Distinct(ids) && forall e :: e in ids ==> UploadReady(outbox, e)
  }

  /** One row of a pass, then the others. */
  lemma SettlesCompose(all: Outbox, next: Outbox, outbox: Outbox, e: EventId, f: Fate, settled: set<EventId>)
    requires Settles(all, next, settled) && e !in settled && e in outbox
    requires f.Skipped? ==> Settles(next, outbox, {})
    requires f.Deliverable? ==> Settles(next, outbox, {e})
    requires !f.Refused?
    ensures Settles(all, outbox, (if f.Deliverable? then {e} else {}) + settled)
  {
  }

  /** The rest of a pass, started in the middle: rows and files of ids not listed are untouched. */
  lemma {:induction false} UploadAllSettles(outbox: Outbox, spool: SpoolFiles, ids: seq<EventId>, network: UploadNetwork, at: int, fate: Fates)
    requires Listed(outbox, ids)
    requires FatesAre(outbox, spool, network, fate)
    ensures var all := UploadAll(outbox, spool, RecordsOf(outbox, ids), network, at);
            var settled := SettledBy(ids, fate);
            && Settles(all.outbox, outbox, settled)
            && all.spool == spool - settled
            && (all.completed <==> forall e :: e in ids ==> !fate(e).Refused?)
    decreases |ids|
  {
    if ids != [] {
      var e, rest := ids[0], ids[1..];
      var one := HandleRow(outbox, spool, RecordOf(outbox, e), network, at);
      RowHandled(outbox, spool, e, network, at, fate);
      assert forall x :: x in ids <==> x == e || x in rest;
      if one.completed {
        assert Listed(one.outbox, rest) by {
          assert forall x :: x in rest ==> x != e;
        }
        SameRecords(outbox, one.outbox, rest);
        UploadAllSettles(one.outbox, one.spool, rest, network, at, fate);
        SettledAreChosen(rest, fate);
        SettlesCompose(UploadAll(one.outbox, one.spool, RecordsOf(outbox, rest), network, at).outbox, one.outbox, outbox, e, fate(e), SettledBy(rest, fate));
      }
    }
  }

  /** The effect of one row by its fate; every other row and its fate stay as they are. */
  lemma RowHandled(outbox: Outbox, spool: SpoolFiles, e: EventId, network: UploadNetwork, at: int, fate: Fates)
    requires UploadReady(outbox, e) && FatesAre(outbox, spool, network, fate)
    ensures var one := HandleRow(outbox, spool, RecordOf(outbox, e), network, at);
            var settled := if fate(e).Deliverable? then {e} else {};
            && one.completed == !fate(e).Refused?
            && Settles(one.outbox, outbox, settled)
            && one.spool == spool - settled
            && (forall x :: x in outbox && x != e ==> one.outbox[x] == outbox[x])
            && FatesAre(one.outbox, one.spool, network, fate)
  {
    var one := HandleRow(outbox, spool, RecordOf(outbox, e), network, at);
    RestOfPass(outbox, spool, one.outbox, one.spool, e, network, fate);
  }

  lemma {:induction false} SameRecords(outbox: Outbox, next: Outbox, ids: seq<EventId>)
    requires forall e :: e in ids ==> UploadReady(outbox, e) && UploadReady(next, e) && SameExceptProgress(next[e], outbox[e])
    ensures RecordsOf(next, ids) == RecordsOf(outbox, ids)
  {
    if ids != [] {
      SameRecords(outbox, next, ids[1..]);
    }
  }

  /** Handling one row changes the fate of no other row. */
  lemma RestOfPass(outbox: Outbox, spool: SpoolFiles, next: Outbox, left: SpoolFiles, e: EventId, network: UploadNetwork, fate: Fates)
    requires FatesAre(outbox, spool, network, fate)
    requires next.Keys == outbox.Keys && forall x :: x in outbox ==> SameExceptProgress(next[x], outbox[x])
    requires forall x :: x in outbox && x != e ==> next[x] == outbox[x]
    requires left == spool || (left == spool - {e} && !UploadReady(next, e))
    requires UploadReady(outbox, e)
    ensures FatesAre(next, left, network, fate)
  {
  }

  /** A pass of the upload worker is one oldest-first pass in the sense of DrainRounds, and leaves the
      fate of every row that is still ready as it was. */
  lemma UploadPassIsRound(outbox: Outbox, spool: SpoolFiles, pending: seq<EventId>, network: UploadNetwork, at: int, fate: Fates)
    requires Listed(outbox, pending) && FatesAre(outbox, spool, network, fate)
    ensures var all := UploadAll(outbox, spool, RecordsOf(outbox, pending), network, at);
            && ReadyTimes(all.outbox) == AfterPass(ReadyTimes(outbox), Pass(pending, map[]), fate)
            && FatesAre(all.outbox, all.spool, network, fate)
  {
    UploadAllSettles(outbox, spool, pending, network, at, fate);
    SettledAreChosen(pending, fate);
    var all := UploadAll(outbox, spool, RecordsOf(outbox, pending), network, at);
    ReadyAfter(outbox, all.outbox, SettledBy(pending, fate));
    FatesAfter(outbox, spool, all.outbox, SettledBy(pending, fate), network, fate);
    NoArrivals(ReadyTimes(outbox) - SettledBy(pending, fate));
  }

  lemma NoArrivals(when: map<EventId, int>)
    ensures when + map[] == when
  {
  }

  lemma ReadyAfter(before: Outbox, now: Outbox, settled: set<EventId>)
    requires Settles(now, before, settled)
    ensures ReadyTimes(now) == ReadyTimes(before) - settled
  {
    forall e
      ensures UploadReady(now, e) <==> UploadReady(before, e) && e !in settled
    {
    }
  }

  lemma FatesAfter(before: Outbox, spool: SpoolFiles, now: Outbox, settled: set<EventId>, network: UploadNetwork, fate: Fates)
    requires Settles(now, before, settled) && FatesAre(before, spool, network, fate)
    ensures FatesAre(now, spool - settled, network, fate)
  {
    forall e | UploadReady(now, e)
      ensures fate(e) == FateOf(spool - settled, RecordOf(now, e), network)
    {
      assert UploadReady(before, e) && RecordOf(now, e) == RecordOf(before, e) && e !in settled;
    }
  }

  /** The pass finishes without uploading anything, and with a full list at once asks for another pass
      that is just the same, exactly when every listed row has an unusable local file. */
  lemma SpinsIff(outbox: Outbox, spool: SpoolFiles, pending: seq<EventId>, network: UploadNetwork, at: int, fate: Fates)
    requires Listed(outbox, pending) && FatesAre(outbox, spool, network, fate)
    ensures var all := UploadAll(outbox, spool, RecordsOf(outbox, pending), network, at);
            (all.completed && ReadyTimes(all.outbox) == ReadyTimes(outbox))
              <==> forall e :: e in pending ==> LocalCheck(spool, RecordOf(outbox, e)).Some?
  {
    UploadAllSettles(outbox, spool, pending, network, at, fate);
    UploadPassIsRound(outbox, spool, pending, network, at, fate);
    NothingSettledIff(pending, fate);
    SettledAreChosen(pending, fate);
    NoArrivals(ReadyTimes(outbox) - SettledBy(pending, fate));
    NothingRemovedIff(ReadyTimes(outbox), SettledBy(pending, fate));
    assert forall e :: e in pending ==> (fate(e).Skipped? <==> LocalCheck(spool, RecordOf(outbox, e)).Some?);
  }

  lemma NothingRemovedIff(when: map<EventId, int>, settled: set<EventId>)
    requires settled <= when.Keys
    ensures when - settled == when <==> settled == {}
  {
    if e :| e in settled {
      assert e !in when - settled;
    }
  }

  lemma {:induction false} NothingSettledIff(chosen: seq<EventId>, fate: Fates)
    ensures (forall e :: e in chosen ==> fate(e).Skipped?)
       <==> SettledBy(chosen, fate) == {} && forall e :: e in chosen ==> !fate(e).Refused?
  {
    if chosen != [] {
      NothingSettledIff(chosen[1..], fate);
      assert chosen[0] in chosen;
      assert forall e :: e in chosen <==> e == chosen[0] || e in chosen[1..];
    }
  }

  // ---- Startup reconciliation ------------------------------------------------------------------

  /** Captured rows of `ids` without a file become capture-failed. */
  function FailMissingOf(outbox: Outbox, spool: SpoolFiles, ids: set<EventId>): Outbox {
    map e | e in outbox ::
      if e in ids && outbox[e].capture == Captured && e !in spool then outbox[e].(capture := CaptureFailed) else outbox[e]
  }

  lemma FailOneMore(outbox: Outbox, spool: SpoolFiles, done: set<EventId>, e: EventId)
    requires e in outbox
    ensures FailMissingOf(outbox, spool, done + {e})
         == if outbox[e].capture == Captured && e !in spool then MarkCaptureFailed(FailMissingOf(outbox, spool, done), e)
            else FailMissingOf(outbox, spool, done)
  {
  }

  /** Rows first, then files: afterwards every row still captured has its file, every file has its row,
      and nothing else has changed. */
  method ReconcileSpool(outbox: SnapshotOutboxRepository, spool: Spool)
    modifies outbox, spool
    ensures outbox.rows.Keys == old(outbox.rows.Keys)
    ensures forall e :: e in outbox.rows && outbox.rows[e].capture == Captured ==> e in spool.files
    ensures forall e :: e in old(outbox.rows) ==>
              outbox.rows[e] == old(outbox.rows)[e]
              || (e !in old(spool.files) && outbox.rows[e] == old(outbox.rows)[e].(capture := CaptureFailed))
    ensures spool.files == map e | e in old(spool.files) && e in old(outbox.rows) :: old(spool.files)[e]
  {
    var known := outbox.rows.Keys;
    var todo := known;
    while todo != {}
      invariant todo <= known && spool.files == old(spool.files)
      invariant outbox.rows == FailMissingOf(old(outbox.rows), spool.files, known - todo)
      decreases todo
    {
      var e :| e in todo;
      FailOneMore(old(outbox.rows), spool.files, known - todo, e);
      assert known - (todo - {e}) == (known - todo) + {e};
      if outbox.rows[e].capture == Captured && e !in spool.files {
        var _ := outbox.MarkRowCaptureFailed(e);
      }
      todo := todo - {e};
    }
    var files := spool.files.Keys;
    while files != {}
      invariant files <= spool.files.Keys <= old(spool.files).Keys
      invariant outbox.rows == FailMissingOf(old(outbox.rows), old(spool.files), known)
      invariant forall e :: e in spool.files ==> spool.files[e] == old(spool.files)[e]
      invariant forall e :: e in old(spool.files) && (e in known || e in files) ==> e in spool.files
      invariant forall e :: e in spool.files && e !in files ==> e in known
      decreases files
    {
      var e :| e in files;
      files := files - {e};
      if e !in known {
        spool.Unlink(e);
      }
    }
  }
}
