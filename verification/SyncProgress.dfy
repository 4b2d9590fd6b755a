/**
 The sync worker over any number of answered passes, with detections arriving in between: the passes are
 the oldest-first passes of DrainRounds, so its bounds and its starvation condition hold of the table.
 A pass that the Backend does not answer changes no table and is left out of the count.
 */
module SyncProgress {
  import opened Common
  import opened BackendLedger
  import opened OutboxTables
  import opened OutboxProtocol
  import opened OutboxCompletion
  import opened Backoff
  import opened DrainRounds
  import opened Workers

  /** One answered pass: what was listed, what came back, and what was inserted before the next one. */
  datatype Round = Round(pending: seq<EventId>, result: BatchResult, at: int, arrivals: map<EventId, Facts>)

  function Arrived(events: Events, arrivals: map<EventId, Facts>): Events {
    events + map e | e in arrivals :: EventRow(arrivals[e], Pending, None, None)
  }

  function Settled(events: Events, r: Round): Events {
    MarkSuppressed(MarkDelivered(events, r.result.acknowledged, r.at), r.result.quota, r.at)
  }

  function AfterRound(events: Events, r: Round): Events {
    Arrived(Settled(events, r), r.arrivals)
  }

  function AfterRounds(events: Events, rounds: seq<Round>): Events
    decreases |rounds|
  {
    if rounds == [] then events else AfterRounds(AfterRound(events, rounds[0]), rounds[1..])
  }

  /** The worker lists the oldest pending rows and sends its own; the Backend settles all of them but those
      it keeps rejecting. */
  ghost predicate IsAnswered(events: Events, pending: seq<EventId>, result: BatchResult, deviceId: nat, rejected: set<EventId>, limit: nat) {
    && IsOldest(pending, PendingTimes(events), limit)
    && (forall e :: e in pending ==> e in events)
    && result.acknowledged + result.quota == Elements(Own(pending, events, deviceId)) - rejected
  }

  /** What arrives after an answered pass is new. */
  ghost predicate IsRound(events: Events, r: Round, deviceId: nat, rejected: set<EventId>, limit: nat) {
    IsAnswered(events, r.pending, r.result, deviceId, rejected, limit) && r.arrivals.Keys !! events.Keys
  }

  ghost predicate AreRounds(events: Events, rounds: seq<Round>, deviceId: nat, rejected: set<EventId>, limit: nat)
    decreases |rounds|
  {
    rounds == []
    || (IsRound(events, rounds[0], deviceId, rejected, limit)
        && AreRounds(AfterRound(events, rounds[0]), rounds[1..], deviceId, rejected, limit))
  }

  /** Detections that arrive were made after row d, or at the same time with a later id. */
  predicate ArriveLater(rounds: seq<Round>, time: int, d: EventId) {
    forall i, e :: 0 <= i < |rounds| && e in rounds[i].arrivals ==> Later(rounds[i].arrivals[e].detectedAt, e, time, d)
  }

  function Times(arrivals: map<EventId, Facts>): map<EventId, int> {
    map e | e in arrivals :: arrivals[e].detectedAt
  }

  function PassesOf(rounds: seq<Round>): (p: seq<Pass>)
    ensures |p| == |rounds|
  {
    if rounds == [] then [] else [PassOf(rounds[0])] + PassesOf(rounds[1..])
  }

  /** Facts are immutable, so a fate read from a later table is the same for every row there is now. */
  ghost predicate SameFates(events: Events, fate: Fates, deviceId: nat, rejected: set<EventId>) {
    forall e :: e in events ==> fate(e) == SyncFate(events, deviceId, rejected)(e)
  }

  lemma RoundFacts(events: Events, r: Round)
    requires r.arrivals.Keys !! events.Keys
    ensures forall e :: e in events ==> e in AfterRound(events, r) && AfterRound(events, r)[e].facts == events[e].facts
  {
  }

  lemma {:induction false} FatesAtStart(events: Events, rounds: seq<Round>, fate: Fates, deviceId: nat, rejected: set<EventId>, limit: nat)
    requires AreRounds(events, rounds, deviceId, rejected, limit) && SameFates(AfterRounds(events, rounds), fate, deviceId, rejected)
    ensures SameFates(events, fate, deviceId, rejected)
    decreases |rounds|
  {
    if rounds != [] {
      var next, rest := AfterRound(events, rounds[0]), rounds[1..];
      RoundFacts(events, rounds[0]);
      FatesAtStart(next, rest, fate, deviceId, rejected, limit);
      assert forall e :: e in events ==> e in next;
    }
  }

  lemma {:induction false} SameSettled(chosen: seq<EventId>, f: Fates, g: Fates)
    requires forall e :: e in chosen ==> f(e) == g(e)
    ensures SettledBy(chosen, f) == SettledBy(chosen, g)
  {
    if chosen != [] {
      SameSettled(chosen[1..], f, g);
    }
  }

  /** One round is one pass. */
  lemma RoundIsPass(events: Events, r: Round, fate: Fates, deviceId: nat, rejected: set<EventId>, limit: nat)
    requires IsRound(events, r, deviceId, rejected, limit) && SameFates(events, fate, deviceId, rejected)
    ensures PendingTimes(AfterRound(events, r)) == AfterPass(PendingTimes(events), PassOf(r), fate)
    ensures SettledBy(r.pending, fate) == r.result.acknowledged + r.result.quota
  {
    SyncPassIsRound(Tables(events, map[], map[]), r.pending, deviceId, rejected, limit, r.result, r.at);
    SyncSettles(events, r.pending, deviceId, rejected);
    SameSettled(r.pending, fate, SyncFate(events, deviceId, rejected));
    NoArrivals(PendingTimes(events) - SettledBy(r.pending, fate));
    ArrivedTimes(Settled(events, r), r.arrivals);
  }

  lemma ArrivedTimes(events: Events, arrivals: map<EventId, Facts>)
    requires arrivals.Keys !! events.Keys
    ensures PendingTimes(Arrived(events, arrivals)) == PendingTimes(events) + Times(arrivals)
  {
  }

  function PassOf(r: Round): Pass {
    Pass(r.pending, Times(r.arrivals))
  }

  lemma RoundArrives(events: Events, rounds: seq<Round>, deviceId: nat, rejected: set<EventId>, limit: nat, d: EventId, time: int)
    requires rounds != [] && IsRound(events, rounds[0], deviceId, rejected, limit) && ArriveLater(rounds, time, d)
    ensures ArriveLater(rounds[1..], time, d)
    ensures var p := PassOf(rounds[0]);
            IsOldest(p.chosen, PendingTimes(events), limit) && p.arrivals.Keys !! PendingTimes(events).Keys
            && (forall e :: e in p.arrivals ==> Later(p.arrivals[e], e, time, d))
  {
    assert forall i :: 0 <= i < |rounds[1..]| ==> rounds[1..][i] == rounds[i + 1];
  }

  /** The rounds are oldest-first passes, and the table ends as the passes say. */
  lemma {:induction false} RoundsArePasses(events: Events, rounds: seq<Round>, fate: Fates, deviceId: nat, rejected: set<EventId>, limit: nat, d: EventId, time: int)
    requires AreRounds(events, rounds, deviceId, rejected, limit) && ArriveLater(rounds, time, d)
    requires SameFates(AfterRounds(events, rounds), fate, deviceId, rejected)
    ensures OldestFirst(PendingTimes(events), PassesOf(rounds), limit, fate, d, time)
    ensures PendingTimes(AfterRounds(events, rounds)) == AfterPasses(PendingTimes(events), PassesOf(rounds), fate)
    decreases |rounds|
  {
    if rounds != [] {
      var rest := rounds[1..];
      FatesAtStart(events, rounds, fate, deviceId, rejected, limit);
      RoundIsPass(events, rounds[0], fate, deviceId, rejected, limit);
      RoundArrives(events, rounds, deviceId, rejected, limit, d, time);
      RoundsArePasses(AfterRound(events, rounds[0]), rest, fate, deviceId, rejected, limit, d, time);
      PassThen(PendingTimes(events), PassOf(rounds[0]), PassesOf(rest), limit, fate, d, time);
    }
  }

  /** A row is settled within the passes exactly when it ends up no longer pending. */
  lemma {:induction false} SettledIffDone(events: Events, rounds: seq<Round>, fate: Fates, deviceId: nat, rejected: set<EventId>, limit: nat, d: EventId)
    requires AreRounds(events, rounds, deviceId, rejected, limit) && IsPending(events, d)
    requires SameFates(AfterRounds(events, rounds), fate, deviceId, rejected)
    ensures SettledWithin(PendingTimes(events), PassesOf(rounds), fate, d) <==> !IsPending(AfterRounds(events, rounds), d)
    decreases |rounds|
  {
    if rounds != [] {
      var rest := rounds[1..];
      FatesAtStart(events, rounds, fate, deviceId, rejected, limit);
      RoundIsPass(events, rounds[0], fate, deviceId, rejected, limit);
      PassThen(PendingTimes(events), PassOf(rounds[0]), PassesOf(rest), limit, fate, d, 0);
      PendingAfterRound(events, rounds[0], d);
      if d in SettledBy(rounds[0].pending, fate) {
        DoneStays(AfterRound(events, rounds[0]), rest, deviceId, rejected, limit, d);
      } else {
        SettledIffDone(AfterRound(events, rounds[0]), rest, fate, deviceId, rejected, limit, d);
      }
    }
  }

  lemma PendingAfterRound(events: Events, r: Round, d: EventId)
    requires d in events && r.arrivals.Keys !! events.Keys
    ensures d in AfterRound(events, r)
    ensures IsPending(AfterRound(events, r), d) <==> IsPending(events, d) && d !in r.result.acknowledged + r.result.quota
  {
  }

  lemma {:induction false} DoneStays(events: Events, rounds: seq<Round>, deviceId: nat, rejected: set<EventId>, limit: nat, d: EventId)
    requires AreRounds(events, rounds, deviceId, rejected, limit) && d in events && !IsPending(events, d)
    ensures d in AfterRounds(events, rounds) && !IsPending(AfterRounds(events, rounds), d)
    decreases |rounds|
  {
    if rounds != [] {
      PendingAfterRound(events, rounds[0], d);
      DoneStays(AfterRound(events, rounds[0]), rounds[1..], deviceId, rejected, limit, d);
    }
  }

  // ---- The results on the table ----------------------------------------------------------------

  predicate Drainable(events: Events, deviceId: nat, rejected: set<EventId>, d: EventId) {
    IsPending(events, d) && events[d].facts.deviceId == deviceId && d !in rejected
  }

  /** The pending rows that come before d and are settled when they are sent. */
  function DrainableAhead(events: Events, deviceId: nat, rejected: set<EventId>, d: EventId): set<EventId>
    requires IsPending(events, d)
  {
    set e | e in events && Drainable(events, deviceId, rejected, e) && Before(PendingTimes(events), e, d)
  }

  /** The pending rows that come before d and stay: rejected ones and those of another Device. */
  function StuckAhead(events: Events, deviceId: nat, rejected: set<EventId>, d: EventId): set<EventId>
    requires IsPending(events, d)
  {
    set e | e in events && IsPending(events, e) && !Drainable(events, deviceId, rejected, e) && Before(PendingTimes(events), e, d)
  }

  lemma AheadSets(events: Events, fate: Fates, deviceId: nat, rejected: set<EventId>, d: EventId)
    requires IsPending(events, d) && SameFates(events, fate, deviceId, rejected)
    ensures AheadWith(PendingTimes(events), d, fate, Deliverable) == DrainableAhead(events, deviceId, rejected, d)
    ensures AheadWith(PendingTimes(events), d, fate, Skipped) == StuckAhead(events, deviceId, rejected, d)
    ensures AheadWith(PendingTimes(events), d, fate, Refused) == {}
  {
  }

  /** After more answered passes than drainable rows come before it, a drainable row has been settled if and
      only if fewer than `limit` stuck rows come before it. */
  lemma DrainedIff(events: Events, rounds: seq<Round>, deviceId: nat, rejected: set<EventId>, limit: nat, d: EventId)
    requires Drainable(events, deviceId, rejected, d) && AreRounds(events, rounds, deviceId, rejected, limit)
    requires ArriveLater(rounds, events[d].facts.detectedAt, d)
    requires |rounds| > |DrainableAhead(events, deviceId, rejected, d)|
    ensures !IsPending(AfterRounds(events, rounds), d) <==> |StuckAhead(events, deviceId, rejected, d)| < limit
  {
    var fate := SyncFate(AfterRounds(events, rounds), deviceId, rejected);
    FatesAtStart(events, rounds, fate, deviceId, rejected, limit);
    AheadSets(events, fate, deviceId, rejected, d);
    RoundsArePasses(events, rounds, fate, deviceId, rejected, limit, d, events[d].facts.detectedAt);
    SettledIffDone(events, rounds, fate, deviceId, rejected, limit, d);
    SettledIffReachable(PendingTimes(events), PassesOf(rounds), limit, fate, d);
  }

  /** A row with s drainable and b stuck rows before it is settled after n answered passes as soon as
      n * (limit - b) > s. */
  lemma DrainedInTime(events: Events, rounds: seq<Round>, deviceId: nat, rejected: set<EventId>, limit: nat, d: EventId)
    requires Drainable(events, deviceId, rejected, d) && AreRounds(events, rounds, deviceId, rejected, limit)
    requires ArriveLater(rounds, events[d].facts.detectedAt, d)
    requires |StuckAhead(events, deviceId, rejected, d)| < limit
    requires |rounds| * (limit - |StuckAhead(events, deviceId, rejected, d)|) > |DrainableAhead(events, deviceId, rejected, d)|
    ensures !IsPending(AfterRounds(events, rounds), d)
  {
    var fate := SyncFate(AfterRounds(events, rounds), deviceId, rejected);
    FatesAtStart(events, rounds, fate, deviceId, rejected, limit);
    AheadSets(events, fate, deviceId, rejected, d);
    RoundsArePasses(events, rounds, fate, deviceId, rejected, limit, d, events[d].facts.detectedAt);
    SettledIffDone(events, rounds, fate, deviceId, rejected, limit, d);
    SettledInTime(PendingTimes(events), PassesOf(rounds), limit, fate, d);
  }

  // ---- The worker's own passes -----------------------------------------------------------------

  /** The Backend answers every batch and settles all of it but what it keeps rejecting. */
  ghost predicate Answering(network: seq<SyncItem> -> BatchReply, rejected: set<EventId>) {
    forall items :: WellFormedReply(network(items)) && Finalises(network(items), items, rejected)
  }

  predicate Finalises(reply: BatchReply, items: seq<SyncItem>, rejected: set<EventId>) {
    reply.BatchAnswer? && reply.result.acknowledged + reply.result.quota == (set i | 0 <= i < |items| :: items[i].eventId) - rejected
  }

  lemma ItemIds(events: Events, own: seq<EventId>)
    requires forall i :: 0 <= i < |own| ==> own[i] in events
    ensures var items := ItemsOf(events, own); (set i | 0 <= i < |items| :: items[i].eventId) == Elements(own)
  {
    var items := ItemsOf(events, own);
    forall e | e in own
      ensures e in (set i | 0 <= i < |items| :: items[i].eventId)
    {
      var i :| 0 <= i < |own| && own[i] == e;
      assert items[i].eventId == e;
    }
  }

  /** One pass of the worker with an answering Backend is one round, before anything new arrives. */
  method AnsweredPass(worker: DetectionEventSyncWorker, deviceId: nat, network: seq<SyncItem> -> BatchReply, ghost rejected: set<EventId>, at: int)
    returns (ghost round: Round)
    requires worker.Valid() && worker.clock.alive && Answering(network, rejected)
    modifies worker.events, worker.outbox, worker.spool, worker.clock
    ensures worker.clock.alive && round.arrivals == map[]
    ensures IsRound(old(worker.events.rows), round, deviceId, rejected, worker.batchSize)
    ensures worker.events.rows == Settled(old(worker.events.rows), round)
  {
    ghost var before := worker.Stored();
    var idle, pass, pending, own := worker.DrainOnce(Some(Identity(deviceId, true)), network, 0.0, at, at);
    if own == [] {
      round := Round(pending, BatchResult({}, map[], {}), at, map[]);
    } else {
      ItemIds(before.events, own);
      ghost var items := ItemsOf(before.events, own);
      assert WellFormedReply(network(items)) && Finalises(network(items), items, rejected);
      round := Round(pending, network(items).result, at, map[]);
    }
  }

  function NewIn(events: Events, arrivals: map<EventId, Facts>): map<EventId, Facts> {
    map e | e in arrivals && e !in events :: arrivals[e]
  }

  /** Ingest between two passes; an id that is known already is not inserted again. */
  method InsertAll(repository: DetectionEventRepository, arrivals: map<EventId, Facts>)
    modifies repository
    ensures repository.rows == Arrived(old(repository.rows), NewIn(old(repository.rows), arrivals))
  {
    var todo := arrivals.Keys;
    ghost var before := repository.rows;
    while todo != {}
      invariant todo <= arrivals.Keys
      invariant repository.rows == Arrived(before, NewIn(before, arrivals - todo))
      decreases todo
    {
      var e :| e in todo;
      OneMoreArrival(before, arrivals, todo, e);
      todo := todo - {e};
      var _ := repository.Insert(e, arrivals[e]);
    }
    assert arrivals - {} == arrivals;
  }

  lemma OneMoreArrival(before: Events, arrivals: map<EventId, Facts>, todo: set<EventId>, e: EventId)
    requires e in todo && e in arrivals
    ensures var now := Arrived(before, NewIn(before, arrivals - todo));
            Arrived(before, NewIn(before, arrivals - (todo - {e})))
              == if e in now then now else now[e := EventRow(arrivals[e], Pending, None, None)]
  {
  }

  ghost predicate Within(part: map<EventId, Facts>, whole: map<EventId, Facts>) {
    forall e :: e in part ==> e in whole && part[e] == whole[e]
  }

  lemma RoundWithArrivals(events: Events, r: Round, arrivals: map<EventId, Facts>, deviceId: nat, rejected: set<EventId>, limit: nat)
    requires IsRound(events, r, deviceId, rejected, limit) && arrivals.Keys !! Settled(events, r).Keys
    ensures IsRound(events, r.(arrivals := arrivals), deviceId, rejected, limit)
    ensures AfterRound(events, r.(arrivals := arrivals)) == Arrived(Settled(events, r), arrivals)
  {
    assert Settled(events, r).Keys == events.Keys;
  }

  /** One answered pass, then one group of arrivals. */
  method PassThenArrivals(worker: DetectionEventSyncWorker, deviceId: nat, network: seq<SyncItem> -> BatchReply, ghost rejected: set<EventId>,
                          arrivals: map<EventId, Facts>, at: int)
    returns (ghost round: Round)
    requires worker.Valid() && worker.clock.alive && Answering(network, rejected)
    modifies worker.events, worker.outbox, worker.spool, worker.clock
    ensures worker.clock.alive && Within(round.arrivals, arrivals)
    ensures IsRound(old(worker.events.rows), round, deviceId, rejected, worker.batchSize)
    ensures worker.events.rows == AfterRound(old(worker.events.rows), round)
  {
    ghost var before := worker.events.rows;
    ghost var answered := AnsweredPass(worker, deviceId, network, rejected, at);
    ghost var unknown := NewIn(worker.events.rows, arrivals);
    InsertAll(worker.events, arrivals);
    RoundWithArrivals(before, answered, unknown, deviceId, rejected, worker.batchSize);
    round := answered.(arrivals := unknown);
  }

  ghost predicate AllWithin(rounds: seq<Round>, arrivals: seq<map<EventId, Facts>>) {
    |rounds| == |arrivals| && forall i :: 0 <= i < |rounds| ==> Within(rounds[i].arrivals, arrivals[i])
  }

  lemma FirstThenRest(events: Events, rounds: seq<Round>, next: Events, deviceId: nat, rejected: set<EventId>, limit: nat)
    requires rounds != [] && IsRound(events, rounds[0], deviceId, rejected, limit)
    requires next == AfterRound(events, rounds[0]) && AreRounds(next, rounds[1..], deviceId, rejected, limit)
    ensures AreRounds(events, rounds, deviceId, rejected, limit)
    ensures AfterRounds(events, rounds) == AfterRounds(next, rounds[1..])
  {
  }

  /** The worker for as many passes as there are groups of arrivals: its passes are rounds, and what arrives
      in them is what was new. */
  method DrainWhileArriving(worker: DetectionEventSyncWorker, deviceId: nat, network: seq<SyncItem> -> BatchReply, ghost rejected: set<EventId>,
                            arrivals: seq<map<EventId, Facts>>, at: int)
    returns (ghost rounds: seq<Round>)
    requires worker.Valid() && worker.clock.alive && Answering(network, rejected)
    modifies worker.events, worker.outbox, worker.spool, worker.clock
    ensures AreRounds(old(worker.events.rows), rounds, deviceId, rejected, worker.batchSize)
    ensures worker.events.rows == AfterRounds(old(worker.events.rows), rounds)
    ensures AllWithin(rounds, arrivals)
    decreases |arrivals|
  {
    if arrivals == [] {
      return [];
    }
    ghost var before := worker.events.rows;
    ghost var first := PassThenArrivals(worker, deviceId, network, rejected, arrivals[0], at);
    ghost var next := worker.events.rows;
    ghost var rest := DrainWhileArriving(worker, deviceId, network, rejected, arrivals[1..], at);
    rounds := [first] + rest;
    assert rounds[1..] == rest;
    FirstThenRest(before, rounds, next, deviceId, rejected, worker.batchSize);
  }
}
