/**
 The consumer behind the detection socket: validate, decide the cooldown, insert, commit the cooldown,
 acknowledge, in that order.  Validation and persistence outcomes enter as the item's own fields; the
 two clock readings are separate because the tracker takes them separately.
 */
module Ingest {
  import opened Common
  import opened BackendLedger

  /** Device, camera and class: the identity a cooldown is kept for. */
  datatype Key = Key(deviceId: string, cameraId: string, className: string)

  /** `Raises` stands for a validator that raises: the item is dropped without an answer. */
  datatype Verdict = Invalid(code: string) | Valid(event: EventId, key: Key) | Raises

  /** One queued detection.  `ackTo` is set only for a version 2 message with a text id on an open
      connection; `storageFails` is any persistence error other than a duplicate id. */
  datatype Item = Item(ackTo: Option<string>, verdict: Verdict, storageFails: bool, decideAt: real, commitAt: real)

  datatype Ack =
    | RejectedAck(messageId: string, code: string)
    | SuppressedAck(messageId: string)
    | AcceptedAck(messageId: string, event: EventId)

  /** What became of an item. */
  datatype Entry =
    | Refused
    | Suppressed(key: Key, at: real)
    | NotPersisted(key: Key)
    | Committed(key: Key, event: EventId, at: real)

  datatype State = State(last: map<Key, real>, rows: map<EventId, Key>, acks: seq<Ack>, history: seq<Entry>)

  const EMPTY := State(map[], map[], [], [])

  class DetectionCooldownTracker {
    const cooldown: real
    var lastAcceptedAt: map<Key, real>

    constructor (cooldown: real)
      requires cooldown >= 0.0
      ensures this.cooldown == cooldown && lastAcceptedAt == map[]
    {
      this.cooldown, lastAcceptedAt := cooldown, map[];
    }

    /** Reads only: true means suppress. */
    method Decide(key: Key, now: real) returns (suppress: bool)
      ensures suppress == Suppresses(lastAcceptedAt, key, now, cooldown)
    {
      suppress := key in lastAcceptedAt && now - lastAcceptedAt[key] < cooldown;
    }

    method Commit(key: Key, now: real)
      modifies this
      ensures lastAcceptedAt == old(lastAcceptedAt)[key := now]
    {
      lastAcceptedAt := lastAcceptedAt[key := now];
    }

    /** Decide and commit in one call, for callers with nothing to persist in between. */
    method Evaluate(key: Key, decideAt: real, commitAt: real) returns (suppress: bool)
      modifies this
      ensures suppress == Suppresses(old(lastAcceptedAt), key, decideAt, cooldown)
      ensures lastAcceptedAt == if suppress then old(lastAcceptedAt) else old(lastAcceptedAt)[key := commitAt]
    {
      suppress := Decide(key, decideAt);
      if !suppress {
        Commit(key, commitAt);
      }
    }
  }

  predicate Suppresses(last: map<Key, real>, key: Key, now: real, cooldown: real) {
    key in last && now - last[key] < cooldown
  }

  class DetectionIngestHandler {
    const tracker: DetectionCooldownTracker
    var rows: map<EventId, Key>
    var acks: seq<Ack>
    ghost var history: seq<Entry>

    ghost function Current(): State
      reads this, tracker
    {
      State(tracker.lastAcceptedAt, rows, acks, history)
    }

    constructor (tracker: DetectionCooldownTracker)
      requires tracker.lastAcceptedAt == map[]
      ensures this.tracker == tracker && Current() == EMPTY
    {
      this.tracker := tracker;
      rows, acks, history := map[], [], [];
    }

    method SendAck(ack: Ack)
      modifies this`acks
      ensures acks == old(acks) + [ack]
    {
      acks := acks + [ack];
    }

    method Process(item: Item)
      modifies this, tracker
      ensures Current() == Step(old(Current()), item, tracker.cooldown)
    {
      if item.verdict.Raises? {
        history := history + [Refused];
        return;
      }
      if item.verdict.Invalid? {
        history := history + [Refused];
        if item.ackTo.Some? {
          SendAck(RejectedAck(item.ackTo.value, item.verdict.code));
        }
        return;
      }
      var event, key := item.verdict.event, item.verdict.key;
      var suppress := tracker.Decide(key, item.decideAt);
      if suppress {
        history := history + [Suppressed(key, item.decideAt)];
        if item.ackTo.Some? {
          SendAck(SuppressedAck(item.ackTo.value));
        }
        return;
      }
      if event in rows || item.storageFails {
        history := history + [NotPersisted(key)];
        return;
      }
      rows := rows[event := key];
      tracker.Commit(key, item.commitAt);
      history := history + [Committed(key, event, item.commitAt)];
      if item.ackTo.Some? {
        SendAck(AcceptedAck(item.ackTo.value, event));
      }
    }
  }

  function Acked(s: State, ackTo: Option<string>, make: string -> Ack): seq<Ack> {
    s.acks + (if ackTo.Some? then [make(ackTo.value)] else [])
  }

  function Step(s: State, item: Item, cooldown: real): State {
    match item.verdict
    case Raises => s.(history := s.history + [Refused])
    case Invalid(code) =>
      State(s.last, s.rows, Acked(s, item.ackTo, m => RejectedAck(m, code)), s.history + [Refused])
    case Valid(event, key) =>
      if Suppresses(s.last, key, item.decideAt, cooldown) then
        State(s.last, s.rows, Acked(s, item.ackTo, m => SuppressedAck(m)), s.history + [Suppressed(key, item.decideAt)])
      else if event in s.rows || item.storageFails then
        State(s.last, s.rows, s.acks, s.history + [NotPersisted(key)])
      else
        State(s.last[key := item.commitAt], s.rows[event := key], Acked(s, item.ackTo, m => AcceptedAck(m, event)),
              s.history + [Committed(key, event, item.commitAt)])
  }

  function Run(s: State, items: seq<Item>, cooldown: real): State
    decreases |items|
  {
    if items == [] then s else Run(Step(s, items[0], cooldown), items[1..], cooldown)
  }

  /** The monotonic clock never goes back. */
  predicate Monotonic(items: seq<Item>, now: real)
    decreases |items|
  {
    items != [] ==>
      now <= items[0].decideAt <= items[0].commitAt && Monotonic(items[1..], items[0].commitAt)
  }

  function EndTime(items: seq<Item>, now: real): real
    decreases |items|
  {
    if items == [] then now else EndTime(items[1..], items[0].commitAt)
  }

  // ---- What holds over a process lifetime ------------------------------------------------------

  /** The times at which a key's cooldown was committed, oldest first. */
  function CommitTimes(history: seq<Entry>, key: Key): seq<real> {
    if history == [] then []
    else
      var last := history[|history| - 1];
      CommitTimes(history[..|history| - 1], key) + (if last.Committed? && last.key == key then [last.at] else [])
  }

  predicate Spaced(times: seq<real>, cooldown: real) {
    forall i :: 0 < i < |times| ==> times[i] - times[i - 1] >= cooldown
  }

  /** The tracker remembers exactly the latest commit of each key. */
  predicate KeyTracked(s: State, key: Key, now: real, cooldown: real) {
    var times := CommitTimes(s.history, key);
    && Spaced(times, cooldown)
    && (key in s.last <==> times != [])
    && (times != [] ==> s.last[key] == times[|times| - 1] <= now)
  }

  /** A suppression at position i was caused by a commit of the same key less than the cooldown before. */
  predicate Caused(s: State, i: nat, cooldown: real)
    requires i < |s.history|
  {
    s.history[i].Suppressed? ==>
      exists j :: 0 <= j < i && s.history[j].Committed? && s.history[j].key == s.history[i].key
                  && 0.0 <= s.history[i].at - s.history[j].at < cooldown
  }

  predicate Durable(s: State, i: nat)
    requires i < |s.history|
  {
    s.history[i].Committed? ==> s.history[i].event in s.rows && s.rows[s.history[i].event] == s.history[i].key
  }

  ghost predicate Inv(s: State, now: real, cooldown: real) {
    && (forall key: Key :: KeyTracked(s, key, now, cooldown))
    && (forall i :: 0 <= i < |s.history| ==> Caused(s, i, cooldown))
    && (forall i :: 0 <= i < |s.history| ==> Durable(s, i))
    && (forall i :: 0 <= i < |s.acks| && s.acks[i].AcceptedAck? ==> s.acks[i].event in s.rows)
  }

  lemma {:induction false} LatestCommit(history: seq<Entry>, key: Key) returns (j: nat)
    requires CommitTimes(history, key) != []
    ensures j < |history| && history[j].Committed? && history[j].key == key
    ensures history[j].at == CommitTimes(history, key)[|CommitTimes(history, key)| - 1]
    decreases |history|
  {
    j := |history| - 1;
    if !(history[j].Committed? && history[j].key == key) {
      j := LatestCommit(history[..j], key);
    }
  }

  lemma StepEntry(s: State, item: Item, cooldown: real) returns (entry: Entry)
    ensures var s' := Step(s, item, cooldown);
            && s'.history == s.history + [entry]
            && s'.last == if entry.Committed? then s.last[entry.key := item.commitAt] else s.last
    ensures entry.Committed? ==> entry.at == item.commitAt && !Suppresses(s.last, entry.key, item.decideAt, cooldown)
  {
    entry := Step(s, item, cooldown).history[|s.history|];
  }

  lemma KeyStep(s: State, item: Item, now: real, cooldown: real, key: Key)
    requires KeyTracked(s, key, now, cooldown)
    requires now <= item.decideAt <= item.commitAt && cooldown >= 0.0
    ensures KeyTracked(Step(s, item, cooldown), key, item.commitAt, cooldown)
  {
    var entry := StepEntry(s, item, cooldown);
    OneMoreEntry(s.history, entry, key);
    var times := CommitTimes(s.history, key);
    if entry.Committed? && entry.key == key {
      assert times != [] ==> item.decideAt - times[|times| - 1] >= cooldown;
      SpacedAppend(times, item.commitAt, cooldown);
    } else {
      assert CommitTimes(s.history + [entry], key) == times;
    }
  }

  lemma OneMoreEntry(history: seq<Entry>, entry: Entry, key: Key)
    ensures CommitTimes(history + [entry], key)
         == CommitTimes(history, key) + (if entry.Committed? && entry.key == key then [entry.at] else [])
  {
    assert (history + [entry])[..|history|] == history;
  }

  lemma SpacedAppend(times: seq<real>, at: real, cooldown: real)
    requires Spaced(times, cooldown) && (times != [] ==> at - times[|times| - 1] >= cooldown)
    ensures Spaced(times + [at], cooldown)
  {
  }

  lemma HistoryStep(s: State, item: Item, now: real, cooldown: real, i: nat)
    requires Inv(s, now, cooldown) && now <= item.decideAt <= item.commitAt && cooldown >= 0.0
    requires i <= |s.history|
    ensures Caused(Step(s, item, cooldown), i, cooldown) && Durable(Step(s, item, cooldown), i)
  {
    var s' := Step(s, item, cooldown);
    assert s'.history[..|s.history|] == s.history;
    if i < |s.history| {
      assert Caused(s, i, cooldown) && Durable(s, i);
      assert s'.history[i] == s.history[i];
      if s.history[i].Suppressed? {
        var j :| 0 <= j < i && s.history[j].Committed? && s.history[j].key == s.history[i].key
                 && 0.0 <= s.history[i].at - s.history[j].at < cooldown;
        assert s'.history[j] == s.history[j];
      }
    } else if s'.history[i].Suppressed? {
      var key := item.verdict.key;
      assert KeyTracked(s, key, now, cooldown);
      var j := LatestCommit(s.history, key);
      assert s'.history[j] == s.history[j];
    }
  }

  lemma StepKeeps(s: State, item: Item, now: real, cooldown: real)
    requires Inv(s, now, cooldown) && now <= item.decideAt <= item.commitAt && cooldown >= 0.0
    ensures Inv(Step(s, item, cooldown), item.commitAt, cooldown)
  {
    var s' := Step(s, item, cooldown);
    forall key: Key
      ensures KeyTracked(s', key, item.commitAt, cooldown)
    {
      KeyStep(s, item, now, cooldown, key);
    }
    forall i: nat | i < |s'.history|
      ensures Caused(s', i, cooldown) && Durable(s', i)
    {
      HistoryStep(s, item, now, cooldown, i);
    }
  }

  lemma {:induction false} RunKeeps(s: State, items: seq<Item>, now: real, cooldown: real)
    requires Inv(s, now, cooldown) && Monotonic(items, now) && cooldown >= 0.0
    ensures Inv(Run(s, items, cooldown), EndTime(items, now), cooldown)
    decreases |items|
  {
    if items != [] {
      StepKeeps(s, items[0], now, cooldown);
      RunKeeps(Step(s, items[0], cooldown), items[1..], items[0].commitAt, cooldown);
    }
  }

  /** The invariant holds in every state a fresh process reaches, whatever inserts fail. */
  lemma LifetimeInv(items: seq<Item>, now: real, cooldown: real)
    requires Monotonic(items, now) && cooldown >= 0.0
    ensures Inv(Run(EMPTY, items, cooldown), EndTime(items, now), cooldown)
  {
    assert Inv(EMPTY, now, cooldown);
    RunKeeps(EMPTY, items, now, cooldown);
  }

  lemma {:induction false} SpacedFarther(times: seq<real>, cooldown: real, i: nat, j: nat)
    requires Spaced(times, cooldown) && i <= j < |times|
    ensures times[j] - times[i] >= (j - i) as real * cooldown
    decreases j - i
  {
    if i < j {
      SpacedFarther(times, cooldown, i, j - 1);
      assert (j - i) as real * cooldown == (j - 1 - i) as real * cooldown + cooldown;
    }
  }

  /** Commits of one key number i to j span at least j - i cooldowns, so an interval of length T that
      holds them holds at most floor(T / cooldown) + 1 of them. */
  lemma CommitsPerInterval(items: seq<Item>, now: real, cooldown: real, key: Key, i: nat, j: nat, T: real)
    requires Monotonic(items, now) && cooldown > 0.0
    requires var times := CommitTimes(Run(EMPTY, items, cooldown).history, key);
             i <= j < |times| && times[j] - times[i] <= T
    ensures j - i + 1 <= (T / cooldown).Floor + 1
  {
    LifetimeInv(items, now, cooldown);
    var s := Run(EMPTY, items, cooldown);
    assert KeyTracked(s, key, EndTime(items, now), cooldown);
    SpacedFarther(CommitTimes(s.history, key), cooldown, i, j);
    FitsInterval((j - i) as real, cooldown, T);
  }

  lemma FitsInterval(n: real, cooldown: real, T: real)
    requires n * cooldown <= T && cooldown > 0.0
    ensures n <= T / cooldown
  {
    var q := T / cooldown;
    assert q * cooldown == T;
    assert (n - q) * cooldown == n * cooldown - q * cooldown;
    SignOfFactor(n - q, cooldown);
  }

  lemma SignOfFactor(x: real, c: real)
    requires c > 0.0 && x * c <= 0.0
    ensures x <= 0.0
  {
  }

  /** The decision for the next valid item: suppressed exactly when some commit of its key is less than
      the cooldown old.  Each such commit stands for a row already stored. */
  lemma SuppressedIffRecent(items: seq<Item>, now: real, cooldown: real, item: Item)
    requires Monotonic(items, now) && cooldown >= 0.0 && EndTime(items, now) <= item.decideAt && item.verdict.Valid?
    ensures var s := Run(EMPTY, items, cooldown);
            Step(s, item, cooldown).history[|s.history|].Suppressed? <==> exists j :: RecentCommit(s, item, cooldown, j)
  {
    var s := Run(EMPTY, items, cooldown);
    LifetimeInv(items, now, cooldown);
    var key := item.verdict.key;
    assert KeyTracked(s, key, EndTime(items, now), cooldown);
    if Suppresses(s.last, key, item.decideAt, cooldown) {
      var j := LatestCommit(s.history, key);
      assert Durable(s, j);
      assert RecentCommit(s, item, cooldown, j);
    }
    if j :| RecentCommit(s, item, cooldown, j) {
      LatestIsLater(s, key, EndTime(items, now), cooldown, j);
    }
  }

  /** No commit of a key is later than the one the tracker remembers. */
  lemma LatestIsLater(s: State, key: Key, now: real, cooldown: real, j: nat)
    requires KeyTracked(s, key, now, cooldown) && cooldown >= 0.0
    requires j < |s.history| && s.history[j].Committed? && s.history[j].key == key
    ensures key in s.last && s.history[j].at <= s.last[key]
  {
    CommitListed(s.history, key, j);
    var times := CommitTimes(s.history, key);
    var k :| 0 <= k < |times| && times[k] == s.history[j].at;
    SpacedFarther(times, cooldown, k, |times| - 1);
    assert (|times| - 1 - k) as real * cooldown >= 0.0;
  }

  predicate RecentCommit(s: State, item: Item, cooldown: real, j: int)
    requires item.verdict.Valid?
  {
    && 0 <= j < |s.history| && s.history[j].Committed? && s.history[j].key == item.verdict.key
    && item.decideAt - s.history[j].at < cooldown
    && s.history[j].event in s.rows
  }

  lemma {:induction false} CommitListed(history: seq<Entry>, key: Key, j: nat)
    requires j < |history| && history[j].Committed? && history[j].key == key
    ensures history[j].at in CommitTimes(history, key)
    decreases |history|
  {
    if j < |history| - 1 {
      CommitListed(history[..|history| - 1], key, j);
    }
  }

  /** An item whose row is not stored leaves the tracker and the table as they were and is answered with
      nothing. */
  lemma FailedInsertLeavesNoTrace(s: State, item: Item, cooldown: real)
    requires item.verdict.Valid? && !Suppresses(s.last, item.verdict.key, item.decideAt, cooldown)
    ensures var s' := Step(s, item, cooldown);
            (item.storageFails || item.verdict.event in s.rows) <==> s'.last == s.last && s'.rows == s.rows && s'.acks == s.acks
                                                                      && s'.history == s.history + [NotPersisted(item.verdict.key)]
  {
  }

  /** The item passes the cooldown but its row cannot be stored. */
  predicate FailsToStore(s: State, item: Item, cooldown: real) {
    && item.verdict.Valid? && !Suppresses(s.last, item.verdict.key, item.decideAt, cooldown)
    && (item.storageFails || item.verdict.event in s.rows)
  }

  /** The items of a run without those that fail to be stored when they come. */
  function StoredOrJudged(s: State, items: seq<Item>, cooldown: real): seq<Item>
    decreases |items|
  {
    if items == [] then []
    else
      (if FailsToStore(s, items[0], cooldown) then [] else [items[0]])
        + StoredOrJudged(Step(s, items[0], cooldown), items[1..], cooldown)
  }

  predicate SameEffect(a: State, b: State) {
    a.last == b.last && a.rows == b.rows && a.acks == b.acks
  }

  /** Over any run, the detections that failed to be stored might as well never have come: without them
      the tracker, the table and every acknowledgement are the same. */
  lemma {:induction false} FailedInsertsErased(s: State, t: State, items: seq<Item>, cooldown: real)
    requires SameEffect(s, t)
    ensures SameEffect(Run(s, items, cooldown), Run(t, StoredOrJudged(s, items, cooldown), cooldown))
    decreases |items|
  {
    if items != [] {
      var next, rest := Step(s, items[0], cooldown), StoredOrJudged(Step(s, items[0], cooldown), items[1..], cooldown);
      if FailsToStore(s, items[0], cooldown) {
        assert StoredOrJudged(s, items, cooldown) == rest;
        FailedInsertsErased(next, t, items[1..], cooldown);
      } else {
        assert ([items[0]] + rest)[1..] == rest;
        FailedInsertsErased(next, Step(t, items[0], cooldown), items[1..], cooldown);
      }
    }
  }

  /** Every accepted acknowledgement ever sent names a stored row. */
  lemma AcceptedMeansStored(items: seq<Item>, now: real, cooldown: real, i: nat)
    requires Monotonic(items, now) && cooldown >= 0.0
    requires var s := Run(EMPTY, items, cooldown); i < |s.acks| && s.acks[i].AcceptedAck?
    ensures var s := Run(EMPTY, items, cooldown); s.acks[i].event in s.rows
  {
    LifetimeInv(items, now, cooldown);
  }
}
