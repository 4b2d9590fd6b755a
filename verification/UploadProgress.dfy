/**
 The upload worker over any number of passes: in between, captures are inserted, associations are made and
 rows are cancelled by others, but a row that stays ready keeps its fate.  The passes are the oldest-first
 passes of DrainRounds, so what they reach is known from the table and the spool before the first of them.
 */
module UploadProgress {
  import opened Common
  import opened BackendLedger
  import opened OutboxTables
  import opened OutboxProtocol
  import opened DrainRounds
  import opened Workers

  datatype Stored = Stored(outbox: Outbox, spool: SpoolFiles)

  /** One pass, and what is stored when the next one begins. */
  datatype Round = Round(pending: seq<EventId>, at: int, next: Stored)

  ghost predicate Listing(s: Stored, pending: seq<EventId>, limit: nat) {
    Listed(s.outbox, pending) && IsOldest(pending, ReadyTimes(s.outbox), limit)
  }

  function AfterUploads(s: Stored, pending: seq<EventId>, network: UploadNetwork, at: int): Stored
    requires forall e :: e in pending ==> UploadReady(s.outbox, e)
  {
    var all := UploadAll(s.outbox, s.spool, RecordsOf(s.outbox, pending), network, at);
    Stored(all.outbox, all.spool)
  }

  /** What others do between two passes: rows evolve as every transaction lets them, ready rows stay ready,
      and rows that become ready come after row d of time t. */
  ghost predicate Between(now: Stored, before: Stored, network: UploadNetwork, fate: Fates, d: EventId, t: int) {
    && OutboxEvolves(now.outbox, before.outbox)
    && (forall e :: UploadReady(before.outbox, e) ==> UploadReady(now.outbox, e))
    && (forall e :: UploadReady(now.outbox, e) && !UploadReady(before.outbox, e) ==> Later(now.outbox[e].capturedAt, e, t, d))
    && FatesAre(now.outbox, now.spool, network, fate)
  }

  ghost predicate AreRounds(s: Stored, rounds: seq<Round>, network: UploadNetwork, fate: Fates, limit: nat, d: EventId, t: int)
    decreases |rounds|
  {
    rounds == []
    || (Listing(s, rounds[0].pending, limit)
        && Between(rounds[0].next, AfterUploads(s, rounds[0].pending, network, rounds[0].at), network, fate, d, t)
        && AreRounds(rounds[0].next, rounds[1..], network, fate, limit, d, t))
  }

  function Final(s: Stored, rounds: seq<Round>): Stored {
    if rounds == [] then s else rounds[|rounds| - 1].next
  }

  /** The rows that became ready between two passes. */
  function Arrivals(now: Outbox, before: Outbox): map<EventId, int> {
    ReadyTimes(now) - ReadyTimes(before).Keys
  }

  function PassOf(s: Stored, r: Round, network: UploadNetwork): Pass
    requires forall e :: e in r.pending ==> UploadReady(s.outbox, e)
  {
    Pass(r.pending, Arrivals(r.next.outbox, AfterUploads(s, r.pending, network, r.at).outbox))
  }

  ghost function PassesOf(s: Stored, rounds: seq<Round>, network: UploadNetwork, fate: Fates, limit: nat, d: EventId, t: int): (p: seq<Pass>)
    requires AreRounds(s, rounds, network, fate, limit, d, t)
    ensures |p| == |rounds|
    decreases |rounds|
  {
    if rounds == [] then []
    else [PassOf(s, rounds[0], network)] + PassesOf(rounds[0].next, rounds[1..], network, fate, limit, d, t)
  }

  /** Nothing already listed or settled can come back, so ready rows only gain the arrivals. */
  lemma ReadyBetween(now: Outbox, before: Outbox)
    requires OutboxEvolves(now, before)
    requires forall e :: UploadReady(before, e) ==> UploadReady(now, e)
    ensures ReadyTimes(now) == ReadyTimes(before) + Arrivals(now, before)
  {
    forall e | UploadReady(before, e)
      ensures now[e].capturedAt == before[e].capturedAt
    {
      assert RowEvolves(now[e], before[e]);
    }
  }

  /** One pass and what follows it, on the ready rows. */
  lemma RoundIsPass(s: Stored, r: Round, network: UploadNetwork, fate: Fates, limit: nat, d: EventId, t: int)
    requires Listing(s, r.pending, limit) && FatesAre(s.outbox, s.spool, network, fate)
    requires Between(r.next, AfterUploads(s, r.pending, network, r.at), network, fate, d, t)
    ensures ReadyTimes(r.next.outbox) == AfterPass(ReadyTimes(s.outbox), PassOf(s, r, network), fate)
  {
    var after := AfterUploads(s, r.pending, network, r.at);
    UploadPassIsRound(s.outbox, s.spool, r.pending, network, r.at, fate);
    NoArrivals(ReadyTimes(s.outbox) - SettledBy(r.pending, fate));
    ReadyBetween(r.next.outbox, after.outbox);
  }

  /** What arrives is not ready before the pass, and comes after row d. */
  lemma ArrivalsAreLater(s: Stored, r: Round, network: UploadNetwork, fate: Fates, limit: nat, d: EventId, t: int)
    requires Listing(s, r.pending, limit) && FatesAre(s.outbox, s.spool, network, fate)
    requires Between(r.next, AfterUploads(s, r.pending, network, r.at), network, fate, d, t)
    ensures var p := PassOf(s, r, network);
            p.arrivals.Keys !! ReadyTimes(s.outbox).Keys && forall e :: e in p.arrivals ==> Later(p.arrivals[e], e, t, d)
  {
    var after := AfterUploads(s, r.pending, network, r.at);
    UploadAllSettles(s.outbox, s.spool, r.pending, network, r.at, fate);
    forall e | UploadReady(s.outbox, e) && !UploadReady(after.outbox, e)
      ensures !UploadReady(r.next.outbox, e)
    {
      assert after.outbox[e].upload == Uploaded;
      assert RowEvolves(r.next.outbox[e], after.outbox[e]);
    }
  }

  lemma {:induction false} RoundsArePasses(s: Stored, rounds: seq<Round>, network: UploadNetwork, fate: Fates, limit: nat, d: EventId, t: int)
    requires AreRounds(s, rounds, network, fate, limit, d, t) && FatesAre(s.outbox, s.spool, network, fate)
    ensures OldestFirst(ReadyTimes(s.outbox), PassesOf(s, rounds, network, fate, limit, d, t), limit, fate, d, t)
    decreases |rounds|
  {
    if rounds != [] {
      var r, rest := rounds[0], rounds[1..];
      RoundIsPass(s, r, network, fate, limit, d, t);
      ArrivalsAreLater(s, r, network, fate, limit, d, t);
      RoundsArePasses(r.next, rest, network, fate, limit, d, t);
      PassThen(ReadyTimes(s.outbox), PassOf(s, r, network), PassesOf(r.next, rest, network, fate, limit, d, t), limit, fate, d, t);
    }
  }

  /** A pass uploads d, or leaves it ready. */
  lemma PassOn(s: Stored, r: Round, network: UploadNetwork, fate: Fates, limit: nat, d: EventId, t: int)
    requires UploadReady(s.outbox, d) && Listing(s, r.pending, limit) && FatesAre(s.outbox, s.spool, network, fate)
    requires Between(r.next, AfterUploads(s, r.pending, network, r.at), network, fate, d, t)
    ensures d in r.next.outbox
    ensures if d in SettledBy(r.pending, fate) then r.next.outbox[d].upload == Uploaded else UploadReady(r.next.outbox, d)
  {
    var after := AfterUploads(s, r.pending, network, r.at);
    UploadAllSettles(s.outbox, s.spool, r.pending, network, r.at, fate);
    assert RowEvolves(r.next.outbox[d], after.outbox[d]);
  }

  lemma {:induction false} UploadedStays(s: Stored, rounds: seq<Round>, network: UploadNetwork, fate: Fates, limit: nat, d: EventId, t: int)
    requires AreRounds(s, rounds, network, fate, limit, d, t) && FatesAre(s.outbox, s.spool, network, fate)
    requires d in s.outbox && s.outbox[d].upload == Uploaded
    ensures d in Final(s, rounds).outbox && Final(s, rounds).outbox[d].upload == Uploaded
    decreases |rounds|
  {
    if rounds != [] {
      UploadedOn(s, rounds[0], network, fate, limit, d, t);
      UploadedStays(rounds[0].next, rounds[1..], network, fate, limit, d, t);
    }
  }

  lemma UploadedOn(s: Stored, r: Round, network: UploadNetwork, fate: Fates, limit: nat, d: EventId, t: int)
    requires d in s.outbox && s.outbox[d].upload == Uploaded
    requires Listing(s, r.pending, limit) && FatesAre(s.outbox, s.spool, network, fate)
    requires Between(r.next, AfterUploads(s, r.pending, network, r.at), network, fate, d, t)
    ensures d in r.next.outbox && r.next.outbox[d].upload == Uploaded
  {
    var after := AfterUploads(s, r.pending, network, r.at);
    UploadAllSettles(s.outbox, s.spool, r.pending, network, r.at, fate);
    assert after.outbox[d].upload == Uploaded;
    assert RowEvolves(r.next.outbox[d], after.outbox[d]);
  }

  lemma {:induction false} SettledIffUploaded(s: Stored, rounds: seq<Round>, network: UploadNetwork, fate: Fates, limit: nat, d: EventId, t: int)
    requires AreRounds(s, rounds, network, fate, limit, d, t) && FatesAre(s.outbox, s.spool, network, fate)
    requires UploadReady(s.outbox, d)
    ensures d in Final(s, rounds).outbox
    ensures SettledWithin(ReadyTimes(s.outbox), PassesOf(s, rounds, network, fate, limit, d, t), fate, d)
       <==> Final(s, rounds).outbox[d].upload == Uploaded
    decreases |rounds|
  {
    if rounds != [] {
      var r, rest := rounds[0], rounds[1..];
      PassOn(s, r, network, fate, limit, d, t);
      RoundIsPass(s, r, network, fate, limit, d, t);
      PassThen(ReadyTimes(s.outbox), PassOf(s, r, network), PassesOf(r.next, rest, network, fate, limit, d, t), limit, fate, d, t);
      assert Final(s, rounds) == Final(r.next, rest);
      if d in SettledBy(r.pending, fate) {
        UploadedStays(r.next, rest, network, fate, limit, d, t);
      } else {
        SettledIffUploaded(r.next, rest, network, fate, limit, d, t);
      }
    }
  }

  // ---- The results on table and spool ----------------------------------------------------------

  /** The ready rows before d that the worker treats in this way. */
  function ReadyAhead(s: Stored, network: UploadNetwork, d: EventId, f: Fate): set<EventId>
    requires UploadReady(s.outbox, d)
  {
    set e | e in s.outbox && UploadReady(s.outbox, e) && FateOf(s.spool, RecordOf(s.outbox, e), network) == f
            && Before(ReadyTimes(s.outbox), e, d)
  }

  /** After more passes than uploadable rows come before it, an uploadable row has been uploaded if and only
      if no refused row and fewer than `limit` rows with an unusable file come before it. */
  lemma UploadedIff(s: Stored, rounds: seq<Round>, network: UploadNetwork, fate: Fates, limit: nat, d: EventId)
    requires UploadReady(s.outbox, d) && FateOf(s.spool, RecordOf(s.outbox, d), network) == Deliverable
    requires AreRounds(s, rounds, network, fate, limit, d, s.outbox[d].capturedAt) && FatesAre(s.outbox, s.spool, network, fate)
    requires |rounds| > |ReadyAhead(s, network, d, Deliverable)|
    ensures d in Final(s, rounds).outbox
    ensures Final(s, rounds).outbox[d].upload == Uploaded <==>
              ReadyAhead(s, network, d, Refused) == {} && |ReadyAhead(s, network, d, Skipped)| < limit
  {
    var t := s.outbox[d].capturedAt;
    RoundsArePasses(s, rounds, network, fate, limit, d, t);
    SettledIffUploaded(s, rounds, network, fate, limit, d, t);
    AheadSets(s, network, fate, d);
    SettledIffReachable(ReadyTimes(s.outbox), PassesOf(s, rounds, network, fate, limit, d, t), limit, fate, d);
  }

  lemma AheadSets(s: Stored, network: UploadNetwork, fate: Fates, d: EventId)
    requires UploadReady(s.outbox, d) && FatesAre(s.outbox, s.spool, network, fate)
    ensures forall f :: AheadWith(ReadyTimes(s.outbox), d, fate, f) == ReadyAhead(s, network, d, f)
    ensures fate(d) == FateOf(s.spool, RecordOf(s.outbox, d), network)
  {
  }
}
