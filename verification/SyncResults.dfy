/**
 Classifying the items of a batch response.  An item that cannot be read is skipped; an event id read
 more than once is ambiguous and is dropped from every collection.
 */
module SyncResults {
  import opened Common
  import opened BackendLedger
  import opened JsonValues

  /** The UUID parser of the standard library, as a partial function on text. */
  type UuidParser = string -> Option<EventId>

  datatype QuotaInfo = QuotaInfo(maximum: int, localDate: string)

  datatype Verdict =
    | AcceptedAs(alert: Option<string>)
    | DuplicateOf(alert: Option<string>)
    | RejectedWith(code: string)
    | QuotaSuppressed(info: QuotaInfo)
    | Unrecognised

  datatype Reading = Reading(eventId: EventId, verdict: Verdict)

  function AlertIdOf(item: Json): Option<string>
    requires item.JObject?
  {
    var a := Field(item, "alertId");
    if a.JString? && a.s != "" then Some(a.s) else None
  }

  /** Best effort: a boolean is an integer to the reader. */
  function QuotaOf(raw: Json): QuotaInfo {
    if !raw.JObject? then QuotaInfo(0, "")
    else
      var m, d := Field(raw, "maximum"), Field(raw, "localDate");
      QuotaInfo(if m.JInt? then m.n else if m == JBool(true) then 1 else 0, if d.JString? then d.s else "")
  }

  function VerdictOf(item: Json): Verdict
    requires item.JObject?
  {
    var outcome := Field(item, "outcome");
    if outcome == JString("accepted") then AcceptedAs(AlertIdOf(item))
    else if outcome == JString("duplicate") then DuplicateOf(AlertIdOf(item))
    else if outcome == JString("rejected") then
      RejectedWith(if Field(item, "errorCode").JString? then Field(item, "errorCode").s else "UNKNOWN")
    else if outcome == JString("quota_exceeded") then QuotaSuppressed(QuotaOf(Field(item, "quota")))
    else Unrecognised
  }

  /** What an item says, if it names an event at all. */
  function Read(item: Json, uuid: UuidParser): Option<Reading> {
    if !item.JObject? || !Field(item, "eventId").JString? then None
    else
      match uuid(Field(item, "eventId").s)
      case None => None
      case Some(e) => Some(Reading(e, VerdictOf(item)))
  }

  function Readings(results: seq<Json>, uuid: UuidParser): seq<Reading> {
    if results == [] then []
    else
      var last := Read(results[|results| - 1], uuid);
      Readings(results[..|results| - 1], uuid) + (if last.Some? then [last.value] else [])
  }

  // ---- The specification: the only reading of an event -----------------------------------------

  /** Exactly one reading names e, and it says v.  Position and order play no part. */
  ghost predicate OnlyReading(rs: multiset<Reading>, e: EventId, v: Verdict) {
    rs[Reading(e, v)] == 1 && forall r :: r in rs && r.eventId == e ==> r.verdict == v
  }

  datatype Parsed = Parsed(
    accepted: set<EventId>,
    duplicate: set<EventId>,
    rejected: map<EventId, string>,
    quotaExceeded: map<EventId, QuotaInfo>,
    alertIds: map<EventId, string>)

  function AlertOf(v: Verdict): Option<string> {
    match v
    case AcceptedAs(a) => a
    case DuplicateOf(a) => a
    case _ => None
  }

  /** Where a verdict puts an event. */
  ghost predicate Files(p: Parsed, e: EventId, v: Option<Verdict>) {
    && (e in p.accepted <==> v.Some? && v.value.AcceptedAs?)
    && (e in p.duplicate <==> v.Some? && v.value.DuplicateOf?)
    && (e in p.rejected <==> v.Some? && v.value.RejectedWith?)
    && (e in p.rejected ==> v == Some(RejectedWith(p.rejected[e])))
    && (e in p.quotaExceeded <==> v.Some? && v.value.QuotaSuppressed?)
    && (e in p.quotaExceeded ==> v == Some(QuotaSuppressed(p.quotaExceeded[e])))
    && (e in p.alertIds <==> v.Some? && AlertOf(v.value).Some?)
    && (e in p.alertIds ==> v.Some? && AlertOf(v.value) == Some(p.alertIds[e]))
  }

  /** The verdict of the only reading of e. */
  ghost function Only(rs: multiset<Reading>, e: EventId): (o: Option<Verdict>)
    ensures forall v :: OnlyReading(rs, e, v) <==> o == Some(v)
  {
    if v :| OnlyReading(rs, e, v) then
      assert Reading(e, v) in rs;
      Some(v)
    else None
  }

  /** Each collection holds exactly the events whose only reading belongs there. */
  ghost predicate Classifies(p: Parsed, rs: multiset<Reading>) {
    forall e :: Files(p, e, Only(rs, e))
  }

  // ---- The two loops ---------------------------------------------------------------------------

  /** The verdict of the first reading of e, and whether a later one repeats it. */
  function First(rs: seq<Reading>, e: EventId): Option<Verdict> {
    if rs == [] then None
    else
      var earlier, last := First(rs[..|rs| - 1], e), rs[|rs| - 1];
      if earlier.Some? then earlier else if last.eventId == e then Some(last.verdict) else None
  }

  predicate Repeated(rs: seq<Reading>, e: EventId) {
    rs != []
    && var earlier, last := rs[..|rs| - 1], rs[|rs| - 1];
       Repeated(earlier, e) || (last.eventId == e && First(earlier, e).Some?)
  }

  lemma {:induction false} FirstIsRead(rs: seq<Reading>, e: EventId)
    ensures First(rs, e).None? <==> forall r :: r in multiset(rs) ==> r.eventId != e
    ensures First(rs, e).Some? ==> Reading(e, First(rs, e).value) in multiset(rs)
    ensures Repeated(rs, e) ==> First(rs, e).Some?
  {
    if rs != [] {
      var earlier, last := rs[..|rs| - 1], rs[|rs| - 1];
      assert rs == earlier + [last];
      assert multiset(rs) == multiset(earlier) + multiset{last};
      FirstIsRead(earlier, e);
    }
  }

  lemma {:induction false} FirstIsOnly(rs: seq<Reading>, e: EventId)
    ensures Only(multiset(rs), e) == if Repeated(rs, e) then None else First(rs, e)
  {
    if rs == [] {
      assert forall v :: !OnlyReading(multiset(rs), e, v);
    } else {
      var earlier, last := rs[..|rs| - 1], rs[|rs| - 1];
      assert rs == earlier + [last];
      OneMore(multiset(earlier), last, multiset(rs), e);
      FirstIsRead(earlier, e);
      FirstIsOnly(earlier, e);
    }
  }

  /** What one more reading does to the only reading of e. */
  lemma OneMore(earlier: multiset<Reading>, last: Reading, rs: multiset<Reading>, e: EventId)
    requires rs == earlier + multiset{last}
    ensures last.eventId != e ==> Only(rs, e) == Only(earlier, e)
    ensures last.eventId == e && (exists r :: r in earlier && r.eventId == e) ==> Only(rs, e) == None
    ensures last.eventId == e && (forall r :: r in earlier ==> r.eventId != e) ==> Only(rs, e) == Some(last.verdict)
  {
    if last.eventId != e {
      forall v
        ensures OnlyReading(rs, e, v) <==> OnlyReading(earlier, e, v)
      {
        assert rs[Reading(e, v)] == earlier[Reading(e, v)];
      }
    } else if r :| r in earlier && r.eventId == e {
      forall v
        ensures !OnlyReading(rs, e, v)
      {
        assert r in rs && last in rs;
        assert r == Reading(e, r.verdict) && last == Reading(e, last.verdict);
      }
    } else {
      assert last == Reading(e, last.verdict);
      assert OnlyReading(rs, e, last.verdict);
    }
  }

  const NOTHING := Parsed({}, {}, map[], map[], map[])

  /** Files one event that is filed nowhere yet. */
  function File(p: Parsed, e: EventId, v: Verdict): Parsed {
    var q := match v
      case AcceptedAs(_) => p.(accepted := p.accepted + {e})
      case DuplicateOf(_) => p.(duplicate := p.duplicate + {e})
      case RejectedWith(code) => p.(rejected := p.rejected[e := code])
      case QuotaSuppressed(info) => p.(quotaExceeded := p.quotaExceeded[e := info])
      case Unrecognised => p;
    if AlertOf(v).Some? then q.(alertIds := q.alertIds[e := AlertOf(v).value]) else q
  }

  function Discard(p: Parsed, e: EventId): Parsed {
    Parsed(p.accepted - {e}, p.duplicate - {e}, p.rejected - {e}, p.quotaExceeded - {e}, p.alertIds - {e})
  }

  lemma FiledOne(p: Parsed, e: EventId, v: Verdict, x: EventId, was: Option<Verdict>)
    requires Files(p, x, was) && (x == e ==> was == None)
    ensures Files(File(p, e, v), x, if x == e then Some(v) else was)
  {
  }

  lemma DiscardedOne(p: Parsed, e: EventId, x: EventId, was: Option<Verdict>)
    requires Files(p, x, was)
    ensures Files(Discard(p, e), x, if x == e then None else was)
  {
  }

  method ParseResults(results: seq<Json>, uuid: UuidParser) returns (p: Parsed)
    ensures Classifies(p, multiset(Readings(results, uuid)))
  {
    var seen: set<EventId>, ambiguous: set<EventId> := {}, {};
    p := NOTHING;
    ghost var rs: seq<Reading> := [];
    var i := 0;
    while i < |results|
      invariant 0 <= i <= |results| && rs == Readings(results[..i], uuid)
      invariant forall e :: e in seen <==> First(rs, e).Some?
      invariant forall e :: e in ambiguous <==> Repeated(rs, e)
      invariant forall e :: Files(p, e, First(rs, e))
    {
      assert results[..i + 1][..i] == results[..i];
      var reading := Read(results[i], uuid);
      i := i + 1;
      if reading.None? {
        continue;
      }
      var e := reading.value.eventId;
      ghost var before, was := rs, p;
      rs := before + [reading.value];
      assert rs[..|rs| - 1] == before;
      if e in seen {
        ambiguous := ambiguous + {e};
        continue;
      }
      seen := seen + {e};
      p := File(p, e, reading.value.verdict);
      forall x {:trigger First(rs, x)}
        ensures Files(p, x, First(rs, x))
      {
        FiledOne(was, e, reading.value.verdict, x, First(before, x));
      }
    }
    assert results[..i] == results;
    p := DiscardAll(p, ambiguous, rs);
    forall e {:trigger Only(multiset(rs), e)}
      ensures Files(p, e, Only(multiset(rs), e))
    {
      FirstIsOnly(rs, e);
      assert Files(p, e, AfterDiscards(rs, ambiguous, e));
    }
  }

  /** Drops the ambiguous ids from every collection. */
  method DiscardAll(filed: Parsed, ambiguous: set<EventId>, ghost rs: seq<Reading>) returns (p: Parsed)
    requires forall e :: Files(filed, e, First(rs, e))
    ensures forall e :: Files(p, e, AfterDiscards(rs, ambiguous, e))
  {
    p := filed;
    var rest := ambiguous;
    while rest != {}
      invariant rest <= ambiguous
      invariant forall e :: Files(p, e, AfterDiscards(rs, ambiguous - rest, e))
      decreases rest
    {
      var e :| e in rest;
      ghost var was, done := p, ambiguous - rest;
      rest := rest - {e};
      p := Discard(p, e);
      forall x {:trigger AfterDiscards(rs, ambiguous - rest, x)}
        ensures Files(p, x, AfterDiscards(rs, ambiguous - rest, x))
      {
        DiscardedOne(was, e, x, AfterDiscards(rs, done, x));
      }
    }
    assert ambiguous - rest == ambiguous;
  }

  ghost function AfterDiscards(rs: seq<Reading>, discarded: set<EventId>, e: EventId): Option<Verdict> {
    if e in discarded then None else First(rs, e)
  }

  // ---- Consequences ----------------------------------------------------------------------------

  /** The classification determines the result, so it cannot depend on the order of the items. */
  lemma ClassificationUnique(p: Parsed, q: Parsed, rs: multiset<Reading>)
    requires Classifies(p, rs) && Classifies(q, rs)
    ensures p == q
  {
    forall e
      ensures (e in p.accepted <==> e in q.accepted) && (e in p.duplicate <==> e in q.duplicate)
      ensures (e in p.rejected <==> e in q.rejected) && (e in p.quotaExceeded <==> e in q.quotaExceeded)
      ensures e in p.alertIds <==> e in q.alertIds
      ensures e in p.rejected ==> p.rejected[e] == q.rejected[e]
      ensures e in p.quotaExceeded ==> p.quotaExceeded[e] == q.quotaExceeded[e]
      ensures e in p.alertIds ==> p.alertIds[e] == q.alertIds[e]
    {
      assert Files(p, e, Only(rs, e)) && Files(q, e, Only(rs, e));
    }
  }

  lemma {:induction false} ReadingsAppend(a: seq<Json>, b: seq<Json>, uuid: UuidParser)
    ensures Readings(a + b, uuid) == Readings(a, uuid) + Readings(b, uuid)
    decreases |b|
  {
    if b == [] {
      assert a + b == a;
    } else {
      assert (a + b)[..|a + b| - 1] == a + b[..|b| - 1];
      ReadingsAppend(a, b[..|b| - 1], uuid);
    }
  }

  lemma ReadingsWithout(before: seq<Json>, item: Json, after: seq<Json>, uuid: UuidParser)
    ensures multiset(Readings(before + [item] + after, uuid))
         == multiset(Readings(before + after, uuid)) + multiset(Readings([item], uuid))
  {
    ReadingsAppend(before + [item], after, uuid);
    ReadingsAppend(before, [item], uuid);
    ReadingsAppend(before, after, uuid);
  }

  /** Permuted responses have permuted readings. */
  lemma {:induction false} ReadingsPermute(a: seq<Json>, b: seq<Json>, uuid: UuidParser)
    requires multiset(a) == multiset(b)
    ensures multiset(Readings(a, uuid)) == multiset(Readings(b, uuid))
    decreases |a|
  {
    if a == [] {
      assert |multiset(b)| == 0;
    } else {
      var front, last := a[..|a| - 1], a[|a| - 1];
      assert last in multiset(a);
      var k :| 0 <= k < |b| && b[k] == last;
      var before, after := b[..k], b[k + 1..];
      SplitAt(b, k);
      SplitAt(a, |a| - 1);
      assert front + [] == front && a == front + [last] + [];
      ReadingsPermute(front, before + after, uuid);
      ReadingsWithout(before, last, after, uuid);
      ReadingsWithout(front, last, [], uuid);
    }
  }

  lemma SplitAt(s: seq<Json>, k: nat)
    requires k < |s|
    ensures s == s[..k] + [s[k]] + s[k + 1..]
    ensures multiset(s[..k] + s[k + 1..]) == multiset(s) - multiset{s[k]}
  {
    assert s == s[..k] + [s[k]] + s[k + 1..];
    assert multiset(s) == multiset(s[..k]) + multiset{s[k]} + multiset(s[k + 1..]);
  }

  /** Two responses with the same items in any order give the same five collections. */
  lemma OrderIndependent(a: seq<Json>, b: seq<Json>, uuid: UuidParser, p: Parsed, q: Parsed)
    requires multiset(a) == multiset(b)
    requires Classifies(p, multiset(Readings(a, uuid))) && Classifies(q, multiset(Readings(b, uuid)))
    ensures p == q
  {
    ReadingsPermute(a, b, uuid);
    ClassificationUnique(p, q, multiset(Readings(a, uuid)));
  }

  /** The outcome collections are disjoint and alert ids belong to acknowledged events only. */
  lemma OutcomesDisjoint(p: Parsed, rs: multiset<Reading>)
    requires Classifies(p, rs)
    ensures p.accepted !! p.duplicate !! p.rejected.Keys !! p.quotaExceeded.Keys
    ensures p.alertIds.Keys <= p.accepted + p.duplicate
  {
    forall e
      ensures e in p.alertIds ==> e in p.accepted + p.duplicate
      ensures !(e in p.accepted && (e in p.duplicate || e in p.rejected || e in p.quotaExceeded))
      ensures !(e in p.duplicate && (e in p.rejected || e in p.quotaExceeded))
      ensures !(e in p.rejected && e in p.quotaExceeded)
    {
      assert Files(p, e, Only(rs, e));
    }
  }
}
