/**
 The Backend side of detection delivery: one authenticated Device's alerts, the daily quota of its
 Branch, and the snapshot attached to each alert.  `SyncOne` is the per-event body of the batch
 service; `UploadSnapshot` is the snapshot endpoint.  Both run inside one database transaction, so a
 lost or repeated request is a request processed zero or several times.
 */
module BackendLedger {
  import opened Common

  type EventId = nat
  type AlertId = nat
  type Day = int

  /** The immutable fields of an event; `day` is its Branch-local date. */
  datatype Facts = Facts(deviceId: nat, cameraId: string, detectedAt: int, day: Day)

  datatype SyncItem = SyncItem(eventId: EventId, facts: Facts)

  datatype Snapshot = Snapshot(sha256: Digest, sizeBytes: nat)

  datatype Alert = Alert(alertId: AlertId, facts: Facts, snapshot: Option<Snapshot>)

  datatype Ledger = Ledger(
    alerts: map<EventId, Alert>,
    suppressed: set<EventId>,
    consumed: map<Day, nat>,
    nextAlert: AlertId)

  /** What the Backend may decide differently from one request to the next: whether the quota is
      switched on, its size, and which events currently fail validation or camera resolution. */
  datatype Policy = Policy(quotaEnabled: bool, maximum: nat, refused: set<EventId>)

  datatype Outcome =
    | Accepted(eventId: EventId, alertId: AlertId)
    | Duplicate(eventId: EventId, alertId: AlertId)
    | Rejected(eventId: EventId)
    | QuotaExceeded(eventId: EventId)

  const EMPTY_LEDGER := Ledger(map[], {}, map[], 0)

  function Consumed(l: Ledger, day: Day): nat {
    if day in l.consumed then l.consumed[day] else 0
  }

  function InsertAlert(l: Ledger, item: SyncItem): Ledger {
    l.(alerts := l.alerts[item.eventId := Alert(l.nextAlert, item.facts, None)],
       nextAlert := l.nextAlert + 1)
  }

  /** One event: validation, idempotency, suppressed-retry idempotency, then quota — in that order. */
  function SyncOne(l: Ledger, item: SyncItem, policy: Policy): (Ledger, Outcome) {
    var e := item.eventId;
    if e in policy.refused then
      (l, Rejected(e))
    else if e in l.alerts then
      (l, if l.alerts[e].facts == item.facts then Duplicate(e, l.alerts[e].alertId) else Rejected(e))
    else if !policy.quotaEnabled then
      (InsertAlert(l, item), Accepted(e, l.nextAlert))
    else if e in l.suppressed then
      (l, QuotaExceeded(e))
    else if Consumed(l, item.facts.day) < policy.maximum then
      (InsertAlert(l, item).(consumed := l.consumed[item.facts.day := Consumed(l, item.facts.day) + 1]),
       Accepted(e, l.nextAlert))
    else
      (l.(suppressed := l.suppressed + {e}), QuotaExceeded(e))
  }

  /** The whole batch, in order; one outcome per submitted event. */
  function SyncBatch(l: Ledger, items: seq<SyncItem>, policy: Policy): (r: (Ledger, seq<Outcome>))
    ensures |r.1| == |items|
    ensures forall i :: 0 <= i < |items| ==> r.1[i].eventId == items[i].eventId
    decreases |items|
  {
    if items == [] then (l, [])
    else
      var (l1, first) := SyncOne(l, items[0], policy);
      var (l2, rest) := SyncBatch(l1, items[1..], policy);
      (l2, [first] + rest)
  }

  datatype UploadOutcome =
    | SnapshotAccepted
    | SnapshotDuplicate
    | SnapshotConflict
    | AlertNotOwnedOrFound
    | EventIdMismatch
    | MissingFile
    | Oversized
    | MalformedImage

  const MAX_SNAPSHOT_SIZE_BYTES := 15 * 1024 * 1024

  /** One snapshot upload as received: the claimed digest travels beside the bytes. */
  datatype UploadRequest = UploadRequest(alertId: AlertId, eventId: EventId, content: Bytes, claimed: Digest)

  /** Server-side facts about an upload that the Agent cannot see. */
  datatype UploadEnvironment = UploadEnvironment(branchOwnsAlert: bool, decodable: bool)

  datatype AttachVerdict = Attached | AttachDuplicate | AttachConflict

  /** First write wins; identical bytes are a no-op; different bytes are refused. */
  function Attach(existing: Option<Snapshot>, incoming: Digest): AttachVerdict {
    match existing
    case None => Attached
    case Some(s) => if s.sha256 == incoming then AttachDuplicate else AttachConflict
  }

  function UploadSnapshot(l: Ledger, req: UploadRequest, env: UploadEnvironment): (Ledger, UploadOutcome) {
    var owners := set e | e in l.alerts && l.alerts[e].alertId == req.alertId;
    if owners == {} || !env.branchOwnsAlert then (l, AlertNotOwnedOrFound)
    else if req.eventId !in owners then (l, EventIdMismatch)
    else if |req.content| == 0 then (l, MissingFile)
    else if |req.content| > MAX_SNAPSHOT_SIZE_BYTES then (l, Oversized)
    else if !env.decodable || Sha256(req.content) != req.claimed then (l, MalformedImage)
    else
      var alert := l.alerts[req.eventId];
      match Attach(alert.snapshot, Sha256(req.content))
      case AttachConflict => (l, SnapshotConflict)
      case AttachDuplicate => (l, SnapshotDuplicate)
      case Attached =>
        (l.(alerts := l.alerts[req.eventId :=
             alert.(snapshot := Some(Snapshot(Sha256(req.content), |req.content|)))]),
         SnapshotAccepted)
  }

  // ---- Durability: what a Backend never forgets or rewrites ------------------------------------

  /** Alert ids are issued once each. */
  ghost predicate ValidLedger(l: Ledger) {
    && (forall e :: e in l.alerts ==> l.alerts[e].alertId < l.nextAlert)
    && (forall e, f :: e in l.alerts && f in l.alerts && l.alerts[e].alertId == l.alerts[f].alertId ==> e == f)
  }

  /** `later` still holds every alert, verdict and snapshot of `earlier`. */
  ghost predicate Extends(later: Ledger, earlier: Ledger) {
    && earlier.suppressed <= later.suppressed
    && (forall e :: e in earlier.alerts ==>
          && e in later.alerts
          && later.alerts[e].alertId == earlier.alerts[e].alertId
          && later.alerts[e].facts == earlier.alerts[e].facts
          && (earlier.alerts[e].snapshot.Some? ==> later.alerts[e].snapshot == earlier.alerts[e].snapshot))
  }

  ghost predicate Holds(l: Ledger, e: EventId, a: AlertId) {
    e in l.alerts && l.alerts[e].alertId == a
  }

  /** The snapshot on file for an event's alert has this digest. */
  ghost predicate SnapshotHeld(l: Ledger, e: EventId, sha256: Digest) {
    e in l.alerts && l.alerts[e].snapshot.Some? && l.alerts[e].snapshot.value.sha256 == sha256
  }

  /** What an outcome for an event with these facts entitles the Agent to believe about the ledger. */
  ghost predicate Honoured(l: Ledger, o: Outcome, facts: Facts) {
    match o
    case Accepted(e, a) => Holds(l, e, a) && l.alerts[e].facts == facts
    case Duplicate(e, a) => Holds(l, e, a) && l.alerts[e].facts == facts
    case Rejected(_) => true
    case QuotaExceeded(e) => e in l.suppressed
  }

  /** A new alert takes the next id and touches no other. */
  lemma InsertSound(l: Ledger, item: SyncItem)
    requires ValidLedger(l) && item.eventId !in l.alerts
    ensures ValidLedger(InsertAlert(l, item)) && Extends(InsertAlert(l, item), l)
  {
  }

  lemma SyncOneSound(l: Ledger, item: SyncItem, policy: Policy)
    requires ValidLedger(l)
    ensures var (l', o) := SyncOne(l, item, policy);
            ValidLedger(l') && Extends(l', l) && Honoured(l', o, item.facts)
            && (o.QuotaExceeded? ==> o.eventId !in l'.alerts)
  {
    if item.eventId !in l.alerts {
      InsertSound(l, item);
    }
  }

  lemma {:induction false} SyncBatchSound(l: Ledger, items: seq<SyncItem>, policy: Policy)
    requires ValidLedger(l)
    ensures var (l', os) := SyncBatch(l, items, policy);
            && ValidLedger(l') && Extends(l', l)
            && forall i :: 0 <= i < |items| ==> Honoured(l', os[i], items[i].facts)
    decreases |items|
  {
    if items != [] {
      SyncOneSound(l, items[0], policy);
      var (l1, first) := SyncOne(l, items[0], policy);
      SyncBatchSound(l1, items[1..], policy);
      var (l2, rest) := SyncBatch(l1, items[1..], policy);
      assert SyncBatch(l, items, policy) == (l2, [first] + rest);
    }
  }

  /** Filling an empty snapshot slot touches nothing else. */
  lemma FillSound(l: Ledger, e: EventId, snapshot: Snapshot)
    requires ValidLedger(l) && e in l.alerts && l.alerts[e].snapshot.None?
    ensures var l' := l.(alerts := l.alerts[e := l.alerts[e].(snapshot := Some(snapshot))]); ValidLedger(l') && Extends(l', l)
  {
  }

  lemma UploadSound(l: Ledger, req: UploadRequest, env: UploadEnvironment)
    requires ValidLedger(l)
    ensures var (l', o) := UploadSnapshot(l, req, env);
            && ValidLedger(l') && Extends(l', l)
            && (o.SnapshotAccepted? || o.SnapshotDuplicate? ==>
                  && Holds(l', req.eventId, req.alertId)
                  && SnapshotHeld(l', req.eventId, Sha256(req.content)) && req.claimed == Sha256(req.content))
            && (!o.SnapshotAccepted? ==> l' == l)
  {
    if req.eventId in l.alerts && l.alerts[req.eventId].snapshot.None? {
      FillSound(l, req.eventId, Snapshot(Sha256(req.content), |req.content|));
    }
  }

  // ---- The verdict is repeated while the quota stays on ----------------------------------------

  /** With the quota on, whatever is processed in between, a second submission of the same event gets
      the first verdict again (or is refused by validation): accepted never turns into suppressed and
      suppressed never turns into accepted. */
  lemma VerdictRepeats(l: Ledger, item: SyncItem, first: Policy, between: seq<(seq<SyncItem>, Policy)>, second: Policy)
    requires ValidLedger(l)
    requires first.quotaEnabled && second.quotaEnabled
    requires forall b :: b in between ==> b.1.quotaEnabled
    ensures var (l1, o1) := SyncOne(l, item, first);
            var l2 := ProcessAll(l1, between);
            var o2 := SyncOne(l2, item, second).1;
            o2.Rejected? || match o1
              case Accepted(e, a) => o2 == Duplicate(e, a)
              case Duplicate(e, a) => o2 == Duplicate(e, a)
              case QuotaExceeded(e) => o2 == QuotaExceeded(e)
              case Rejected(_) => true
  {
    SyncOneSound(l, item, first);
    var (l1, o1) := SyncOne(l, item, first);
    ProcessAllKeepsVerdict(l1, between, item.eventId);
  }

  function ProcessAll(l: Ledger, requests: seq<(seq<SyncItem>, Policy)>): Ledger
    decreases |requests|
  {
    if requests == [] then l
    else ProcessAll(SyncBatch(l, requests[0].0, requests[0].1).0, requests[1..])
  }

  /** A settled event keeps its side of the ledger: held alerts stay, suppressed ones never gain an alert. */
  lemma {:induction false} BatchKeepsVerdict(l: Ledger, items: seq<SyncItem>, policy: Policy, e: EventId)
    requires ValidLedger(l) && policy.quotaEnabled
    ensures var l' := SyncBatch(l, items, policy).0;
            && ValidLedger(l') && Extends(l', l)
            && (e in l.suppressed && e !in l.alerts ==> e !in l'.alerts)
    decreases |items|
  {
    if items != [] {
      SyncOneSound(l, items[0], policy);
      var l1 := SyncOne(l, items[0], policy).0;
      BatchKeepsVerdict(l1, items[1..], policy, e);
    }
  }

  lemma {:induction false} ProcessAllKeepsVerdict(l: Ledger, requests: seq<(seq<SyncItem>, Policy)>, e: EventId)
    requires ValidLedger(l)
    requires forall b :: b in requests ==> b.1.quotaEnabled
    ensures var l' := ProcessAll(l, requests);
            && ValidLedger(l') && Extends(l', l)
            && (e in l.suppressed && e !in l.alerts ==> e !in l'.alerts)
    decreases |requests|
  {
    if requests != [] {
      assert requests[0] in requests;
      BatchKeepsVerdict(l, requests[0].0, requests[0].1, e);
      ProcessAllKeepsVerdict(SyncBatch(l, requests[0].0, requests[0].1).0, requests[1..], e);
    }
  }

  // ---- Exactly when it is repeated -------------------------------------------------------------

  ghost predicate Submits(items: seq<SyncItem>, e: EventId) {
    exists i :: 0 <= i < |items| && items[i].eventId == e
  }

  /** Some batch was processed with the quota off that submits the event and does not refuse it. */
  ghost predicate Admits(requests: seq<(seq<SyncItem>, Policy)>, e: EventId) {
    exists b :: b in requests && LetsIn(b, e)
  }

  ghost predicate LetsIn(request: (seq<SyncItem>, Policy), e: EventId) {
    !request.1.quotaEnabled && e !in request.1.refused && Submits(request.0, e)
  }

  lemma {:induction false} BatchLetsInIff(l: Ledger, items: seq<SyncItem>, policy: Policy, e: EventId)
    requires e in l.suppressed && e !in l.alerts
    ensures var l' := SyncBatch(l, items, policy).0;
            e in l'.suppressed && (e in l'.alerts <==> LetsIn((items, policy), e))
    decreases |items|
  {
    if items != [] {
      var rest, l1 := items[1..], SyncOne(l, items[0], policy).0;
      SubmitsFirst(items, e);
      if e in l1.alerts {
        BatchHolds(l1, rest, policy, e);
      } else {
        BatchLetsInIff(l1, rest, policy, e);
      }
    }
  }

  lemma SubmitsFirst(items: seq<SyncItem>, e: EventId)
    requires items != []
    ensures Submits(items, e) <==> items[0].eventId == e || Submits(items[1..], e)
  {
    if i: nat :| i < |items[1..]| && items[1..][i].eventId == e {
      assert items[i + 1].eventId == e;
    }
    if i: nat :| i < |items| && items[i].eventId == e && i != 0 {
      assert items[1..][i - 1].eventId == e;
    }
  }

  lemma {:induction false} BatchHolds(l: Ledger, items: seq<SyncItem>, policy: Policy, e: EventId)
    ensures var l' := SyncBatch(l, items, policy).0;
            (e in l.suppressed ==> e in l'.suppressed) && (e in l.alerts ==> e in l'.alerts)
    decreases |items|
  {
    if items != [] {
      BatchHolds(SyncOne(l, items[0], policy).0, items[1..], policy, e);
    }
  }

  lemma {:induction false} ProcessHolds(l: Ledger, requests: seq<(seq<SyncItem>, Policy)>, e: EventId)
    requires e in l.suppressed && e in l.alerts
    ensures e in ProcessAll(l, requests).suppressed && e in ProcessAll(l, requests).alerts
    decreases |requests|
  {
    if requests != [] {
      BatchHolds(l, requests[0].0, requests[0].1, e);
      ProcessHolds(SyncBatch(l, requests[0].0, requests[0].1).0, requests[1..], e);
    }
  }

  /** A suppressed event gains an alert if and only if a batch that submits it is processed with the quota
      off and does not refuse it. */
  lemma {:induction false} SuppressionLiftedIff(l: Ledger, requests: seq<(seq<SyncItem>, Policy)>, e: EventId)
    requires e in l.suppressed && e !in l.alerts
    ensures var l' := ProcessAll(l, requests);
            e in l'.suppressed && (e in l'.alerts <==> Admits(requests, e))
    decreases |requests|
  {
    if requests != [] {
      var first, rest := requests[0], requests[1..];
      var l1 := SyncBatch(l, first.0, first.1).0;
      assert forall b :: b in requests <==> b == first || b in rest;
      BatchLetsInIff(l, first.0, first.1, e);
      if e in l1.alerts {
        ProcessHolds(l1, rest, e);
      } else {
        SuppressionLiftedIff(l1, rest, e);
      }
    }
  }

  lemma {:induction false} ProcessAllSound(l: Ledger, requests: seq<(seq<SyncItem>, Policy)>)
    requires ValidLedger(l)
    ensures ValidLedger(ProcessAll(l, requests)) && Extends(ProcessAll(l, requests), l)
    decreases |requests|
  {
    if requests != [] {
      SyncBatchSound(l, requests[0].0, requests[0].1);
      ProcessAllSound(SyncBatch(l, requests[0].0, requests[0].1).0, requests[1..]);
    }
  }

  /** The second answer says the same as the first. */
  predicate Repeats(second: Outcome, first: Outcome) {
    match first
    case Accepted(e, a) => second == Duplicate(e, a)
    case Duplicate(e, a) => second == Duplicate(e, a)
    case QuotaExceeded(e) => second == QuotaExceeded(e)
    case Rejected(_) => second == Rejected(first.eventId)
  }

  /** Whatever the quota switch does, an event that got a verdict gets it again if and only if it passes
      validation and, if it was suppressed, the quota is on again and it was not let in meanwhile. */
  lemma VerdictRepeatsIff(l: Ledger, item: SyncItem, first: Policy, between: seq<(seq<SyncItem>, Policy)>, second: Policy)
    requires ValidLedger(l) && !SyncOne(l, item, first).1.Rejected?
    ensures var (l1, o1) := SyncOne(l, item, first);
            var o2 := SyncOne(ProcessAll(l1, between), item, second).1;
            Repeats(o2, o1) <==>
              && item.eventId !in second.refused
              && (o1.QuotaExceeded? ==> second.quotaEnabled && !Admits(between, item.eventId))
  {
    SyncOneSound(l, item, first);
    var (l1, o1) := SyncOne(l, item, first);
    ProcessAllSound(l1, between);
    if o1.QuotaExceeded? {
      SuppressionLiftedIff(l1, between, item.eventId);
    }
  }

  /** With a maximum of one a day, the second event of a day is suppressed; submitted once more with the
      quota switched off it is accepted. */
  lemma QuotaSwitchFlipsVerdict() returns (batch: seq<SyncItem>, on: Policy, off: Policy)
    ensures |batch| == 2 && on == Policy(true, 1, {}) && off == on.(quotaEnabled := false)
    ensures SyncBatch(EMPTY_LEDGER, batch, on).1[1].QuotaExceeded?
    ensures SyncOne(SyncBatch(EMPTY_LEDGER, batch, on).0, batch[1], off).1.Accepted?
  {
    var one, two := SyncItem(6, Facts(1, "gate", 0, 0)), SyncItem(7, Facts(1, "gate", 1, 0));
    batch, on, off := [one, two], Policy(true, 1, {}), Policy(false, 1, {});
    var l1 := SyncOne(EMPTY_LEDGER, one, on).0;
    var l2 := SyncOne(l1, two, on).0;
    assert SyncOne(l1, two, on).1 == QuotaExceeded(7);
    assert batch[1..] == [two] && [two][1..] == [];
    assert SyncBatch(l2, [], on) == (l2, []);
    assert SyncBatch(l1, [two], on) == (l2, [QuotaExceeded(7)] + []);
    assert SyncBatch(EMPTY_LEDGER, batch, on) == (l2, [Accepted(6, 0)] + ([QuotaExceeded(7)] + []));
  }

  // ---- Conservation of the daily quota ---------------------------------------------------------

  /** Events whose alert counts against `day`. */
  ghost function AlertsOn(l: Ledger, day: Day): set<EventId> {
    set e | e in l.alerts && l.alerts[e].facts.day == day
  }

  /** The counter is exactly the number of alerts of the day and never passes the maximum. */
  ghost predicate DayBalanced(l: Ledger, day: Day, maximum: nat) {
    Consumed(l, day) == |AlertsOn(l, day)| <= maximum
  }

  ghost predicate QuotaBalanced(l: Ledger, maximum: nat) {
    && (forall day: Day :: DayBalanced(l, day, maximum))
    && l.suppressed !! l.alerts.Keys
  }

  lemma SyncOneBalanced(l: Ledger, item: SyncItem, policy: Policy)
    requires ValidLedger(l) && policy.quotaEnabled
    requires QuotaBalanced(l, policy.maximum)
    ensures QuotaBalanced(SyncOne(l, item, policy).0, policy.maximum)
  {
    var l' := SyncOne(l, item, policy).0;
    forall day: Day
      ensures DayBalanced(l', day, policy.maximum)
    {
      OneDayBalanced(l, item, policy, day);
    }
  }

  lemma OneDayBalanced(l: Ledger, item: SyncItem, policy: Policy, day: Day)
    requires policy.quotaEnabled
    requires DayBalanced(l, day, policy.maximum)
    ensures DayBalanced(SyncOne(l, item, policy).0, day, policy.maximum)
  {
    var (l', o) := SyncOne(l, item, policy);
    if o.Accepted? && day == item.facts.day {
      assert AlertsOn(l', day) == AlertsOn(l, day) + {item.eventId};
    } else {
      assert AlertsOn(l', day) == AlertsOn(l, day);
    }
  }

  /** Over any sequence of batches with the quota on and its size fixed, the stored counter of every
      day is the number of alerts of that day and stays within the maximum. */
  lemma {:induction false} QuotaNeverExceeded(l: Ledger, requests: seq<(seq<SyncItem>, Policy)>, maximum: nat)
    requires ValidLedger(l) && QuotaBalanced(l, maximum)
    requires forall b :: b in requests ==> b.1.quotaEnabled && b.1.maximum == maximum
    ensures QuotaBalanced(ProcessAll(l, requests), maximum)
    decreases |requests|
  {
    if requests != [] {
      assert requests[0] in requests;
      BatchBalanced(l, requests[0].0, requests[0].1);
      QuotaNeverExceeded(SyncBatch(l, requests[0].0, requests[0].1).0, requests[1..], maximum);
    }
  }

  lemma {:induction false} BatchBalanced(l: Ledger, items: seq<SyncItem>, policy: Policy)
    requires ValidLedger(l) && policy.quotaEnabled
    requires QuotaBalanced(l, policy.maximum)
    ensures var l' := SyncBatch(l, items, policy).0; ValidLedger(l') && QuotaBalanced(l', policy.maximum)
    decreases |items|
  {
    if items != [] {
      SyncOneSound(l, items[0], policy);
      SyncOneBalanced(l, items[0], policy);
      BatchBalanced(SyncOne(l, items[0], policy).0, items[1..], policy);
    }
  }
}
