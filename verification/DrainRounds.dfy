/**
 What any number of passes of an oldest-first worker achieves.  A pass takes the `limit` oldest rows;
 going over them in order it settles the deliverable ones, leaves the skipped ones where they are, and
 gives up at the first refused one.  For the sync worker a skipped row is one the Backend keeps
 rejecting or one of another Device (no row is refused on its own); for the upload worker it is a row
 whose local file is missing or modified, and a refused one is a row the Backend will not take.
 */
module DrainRounds {
  import opened Common
  import opened BackendLedger
  import opened OutboxTables

  datatype Fate = Deliverable | Skipped | Refused

  type Fates = EventId -> Fate

  function SettledBy(chosen: seq<EventId>, fate: Fates): set<EventId> {
    if chosen == [] || fate(chosen[0]).Refused? then {}
    else (if fate(chosen[0]).Deliverable? then {chosen[0]} else {}) + SettledBy(chosen[1..], fate)
  }

  /** One pass and the rows that arrive before the next one. */
  datatype Pass = Pass(chosen: seq<EventId>, arrivals: map<EventId, int>)

  function AfterPass(when: map<EventId, int>, p: Pass, fate: Fates): map<EventId, int> {
    (when - SettledBy(p.chosen, fate)) + p.arrivals
  }

  function AfterPasses(when: map<EventId, int>, passes: seq<Pass>, fate: Fates): map<EventId, int>
    decreases |passes|
  {
    if passes == [] then when else AfterPasses(AfterPass(when, passes[0], fate), passes[1..], fate)
  }

  /** Every pass takes the oldest rows there are, and rows that arrive come after row `d` of time `t`. */
  ghost predicate OldestFirst(when: map<EventId, int>, passes: seq<Pass>, limit: nat, fate: Fates, d: EventId, t: int)
    decreases |passes|
  {
    passes == []
    || (&& IsOldest(passes[0].chosen, when, limit)
        && passes[0].arrivals.Keys !! when.Keys
        && (forall e :: e in passes[0].arrivals ==> Later(passes[0].arrivals[e], e, t, d))
        && OldestFirst(AfterPass(when, passes[0], fate), passes[1..], limit, fate, d, t))
  }

  predicate Later(time: int, e: EventId, t: int, d: EventId) {
    t < time || (t == time && d < e)
  }

  function Ahead(when: map<EventId, int>, d: EventId): set<EventId>
    requires d in when
  {
    set e | e in when && Before(when, e, d)
  }

  function AheadWith(when: map<EventId, int>, d: EventId, fate: Fates, f: Fate): set<EventId>
    requires d in when
  {
    set e | e in Ahead(when, d) && fate(e) == f
  }

  /** The condition under which row `d` is out of reach, readable from the table before any pass. */
  predicate Starved(when: map<EventId, int>, d: EventId, limit: nat, fate: Fates)
    requires d in when
  {
    AheadWith(when, d, fate, Refused) != {} || |AheadWith(when, d, fate, Skipped)| >= limit
  }

  lemma PassThen(when: map<EventId, int>, p: Pass, passes: seq<Pass>, limit: nat, fate: Fates, d: EventId, time: int)
    ensures AfterPasses(when, [p] + passes, fate) == AfterPasses(AfterPass(when, p, fate), passes, fate)
    ensures SettledWithin(when, [p] + passes, fate, d) <==>
              d in SettledBy(p.chosen, fate) || SettledWithin(AfterPass(when, p, fate), passes, fate, d)
    ensures IsOldest(p.chosen, when, limit) && p.arrivals.Keys !! when.Keys
            && (forall e :: e in p.arrivals ==> Later(p.arrivals[e], e, time, d))
            && OldestFirst(AfterPass(when, p, fate), passes, limit, fate, d, time) ==>
              OldestFirst(when, [p] + passes, limit, fate, d, time)
  {
    assert ([p] + passes)[0] == p && ([p] + passes)[1..] == passes;
  }

  // ---- One pass --------------------------------------------------------------------------------

  lemma {:induction false} SettledIff(chosen: seq<EventId>, fate: Fates, e: EventId)
    ensures e in SettledBy(chosen, fate) <==>
            exists i :: 0 <= i < |chosen| && chosen[i] == e && fate(e).Deliverable?
                        && forall j :: 0 <= j < i ==> !fate(chosen[j]).Refused?
  {
    if chosen != [] && !fate(chosen[0]).Refused? {
      var rest := chosen[1..];
      SettledIff(rest, fate, e);
      if i :| 0 <= i < |rest| && rest[i] == e && fate(e).Deliverable? && forall j :: 0 <= j < i ==> !fate(rest[j]).Refused? {
        assert forall j :: 0 < j < i + 1 ==> chosen[j] == rest[j - 1];
        assert chosen[i + 1] == e;
      }
      if i :| 0 <= i < |chosen| && chosen[i] == e && fate(e).Deliverable? && forall j :: 0 <= j < i ==> !fate(chosen[j]).Refused? {
        if i > 0 {
          assert rest[i - 1] == e;
          assert forall j :: 0 <= j < i - 1 ==> rest[j] == chosen[j + 1];
        }
      }
    }
  }

  lemma {:induction false} ElementsCount(s: seq<EventId>)
    requires Distinct(s)
    ensures |Elements(s)| == |s|
  {
    if s == [] {
      assert Elements(s) == {};
    } else {
      ElementsCount(s[1..]);
      assert Elements(s) == {s[0]} + Elements(s[1..]);
    }
  }

  lemma SubsetCount(a: set<EventId>, b: set<EventId>)
    requires a <= b
    ensures |a| <= |b| && |b - a| == |b| - |a|
  {
    assert b == a + (b - a);
  }

  /** Either row d is chosen, right after every row ahead of it, or only rows ahead of it are chosen. */
  lemma ChosenAhead(when: map<EventId, int>, chosen: seq<EventId>, limit: nat, d: EventId)
    requires d in when && IsOldest(chosen, when, limit)
    ensures Distinct(chosen) && |Elements(chosen)| == |chosen|
    ensures d in chosen ==> Ahead(when, d) <= Elements(chosen) - {d}
    ensures d !in chosen ==> Elements(chosen) <= Ahead(when, d) && |chosen| == limit
  {
    ElementsCount(chosen);
    if d !in chosen {
      assert Elements(chosen) <= when.Keys - {d};
      SubsetCount(Elements(chosen), when.Keys - {d});
      assert |when| == |when.Keys|;
    }
  }

  lemma NothingRefusedAhead(when: map<EventId, int>, chosen: seq<EventId>, limit: nat, fate: Fates, d: EventId, e: EventId)
    requires IsOldest(chosen, when, limit) && d in when && d in SettledBy(chosen, fate)
    requires e in Ahead(when, d)
    ensures d in chosen && !fate(e).Refused?
  {
    SettledIff(chosen, fate, d);
    var i :| 0 <= i < |chosen| && chosen[i] == d && forall j :: 0 <= j < i ==> !fate(chosen[j]).Refused?;
    assert e in chosen;
    var j :| 0 <= j < |chosen| && chosen[j] == e;
    assert j < i;
  }

  /** A row that a pass settles was not starved. */
  lemma SettledNotStarved(when: map<EventId, int>, chosen: seq<EventId>, limit: nat, fate: Fates, d: EventId)
    requires d in when && IsOldest(chosen, when, limit) && d in SettledBy(chosen, fate)
    ensures !Starved(when, d, limit, fate)
  {
    forall e | e in Ahead(when, d)
      ensures !fate(e).Refused?
    {
      NothingRefusedAhead(when, chosen, limit, fate, d, e);
    }
    SettledAreChosen(chosen, fate);
    ChosenAhead(when, chosen, limit, d);
    SubsetCount(AheadWith(when, d, fate, Skipped), Elements(chosen) - {d});
  }

  /** When d is not chosen, every chosen row is ahead of it, so what is not settled is skipped. */
  lemma SettledUnlessSkipped(when: map<EventId, int>, chosen: seq<EventId>, limit: nat, fate: Fates, d: EventId)
    requires d in when && d !in chosen && IsOldest(chosen, when, limit)
    requires AheadWith(when, d, fate, Refused) == {}
    ensures Elements(chosen) - AheadWith(when, d, fate, Skipped) <= SettledBy(chosen, fate)
  {
    ChosenAhead(when, chosen, limit, d);
    forall e | e in Elements(chosen) - AheadWith(when, d, fate, Skipped)
      ensures e in SettledBy(chosen, fate)
    {
      var i :| 0 <= i < |chosen| && chosen[i] == e;
      assert forall j :: 0 <= j <= i ==> chosen[j] in Ahead(when, d) && chosen[j] !in AheadWith(when, d, fate, Refused);
      SettledIff(chosen, fate, e);
    }
  }

  /** A pass over an unstarved table settles d itself or `limit - b` of the rows ahead of it. */
  lemma OnePassProgress(when: map<EventId, int>, chosen: seq<EventId>, limit: nat, fate: Fates, d: EventId)
    requires d in when && fate(d).Deliverable? && IsOldest(chosen, when, limit) && !Starved(when, d, limit, fate)
    ensures d !in SettledBy(chosen, fate) ==>
              && SettledBy(chosen, fate) <= AheadWith(when, d, fate, Deliverable)
              && |SettledBy(chosen, fate)| >= limit - |AheadWith(when, d, fate, Skipped)|
  {
    ChosenAhead(when, chosen, limit, d);
    if d in chosen {
      SettledIff(chosen, fate, d);
      var i :| 0 <= i < |chosen| && chosen[i] == d;
      assert forall j :: 0 <= j < i ==> chosen[j] in Ahead(when, d) && chosen[j] !in AheadWith(when, d, fate, Refused);
    } else {
      SettledAreChosen(chosen, fate);
      SettledUnlessSkipped(when, chosen, limit, fate, d);
      var skipped := AheadWith(when, d, fate, Skipped);
      RemovingFew(Elements(chosen), skipped);
      SubsetCount(Elements(chosen) - skipped, SettledBy(chosen, fate));
    }
  }

  lemma RemovingFew(a: set<EventId>, b: set<EventId>)
    ensures |a - b| >= |a| - |b|
  {
    SubsetCount(a * b, b);
    assert a == (a - b) + a * b;
  }

  lemma {:induction false} SettledAreChosen(chosen: seq<EventId>, fate: Fates)
    ensures forall e :: e in SettledBy(chosen, fate) ==> e in chosen && fate(e).Deliverable?
  {
    if chosen != [] {
      SettledAreChosen(chosen[1..], fate);
    }
  }

  /** What is ahead of an unsettled row only shrinks, and only by what was settled. */
  lemma AheadAfter(when: map<EventId, int>, p: Pass, fate: Fates, d: EventId, f: Fate)
    requires d in when && d !in SettledBy(p.chosen, fate)
    requires p.arrivals.Keys !! when.Keys
    requires forall e :: e in p.arrivals ==> Later(p.arrivals[e], e, when[d], d)
    ensures var next := AfterPass(when, p, fate);
            && d in next && next[d] == when[d]
            && AheadWith(next, d, fate, f) == AheadWith(when, d, fate, f) - SettledBy(p.chosen, fate)
  {
  }

  // ---- Any number of passes --------------------------------------------------------------------

  lemma StarvationKept(when: map<EventId, int>, p: Pass, limit: nat, fate: Fates, d: EventId)
    requires d in when && d !in SettledBy(p.chosen, fate)
    requires p.arrivals.Keys !! when.Keys
    requires forall e :: e in p.arrivals ==> Later(p.arrivals[e], e, when[d], d)
    ensures var next := AfterPass(when, p, fate);
            && d in next && next[d] == when[d]
            && (Starved(next, d, limit, fate) <==> Starved(when, d, limit, fate))
            && AheadWith(next, d, fate, Skipped) == AheadWith(when, d, fate, Skipped)
  {
    AheadAfter(when, p, fate, d, Refused);
    AheadAfter(when, p, fate, d, Skipped);
    SettledAreChosen(p.chosen, fate);
    var next := AfterPass(when, p, fate);
    assert AheadWith(next, d, fate, Refused) == AheadWith(when, d, fate, Refused);
    assert AheadWith(next, d, fate, Skipped) == AheadWith(when, d, fate, Skipped);
  }

  /** d has been settled by one of the passes. */
  ghost predicate SettledWithin(when: map<EventId, int>, passes: seq<Pass>, fate: Fates, d: EventId)
    decreases |passes|
  {
    passes != []
    && (d in SettledBy(passes[0].chosen, fate) || SettledWithin(AfterPass(when, passes[0], fate), passes[1..], fate, d))
  }

  /** A starved row is never settled, however many passes run. */
  lemma {:induction false} StarvedForever(when: map<EventId, int>, passes: seq<Pass>, limit: nat, fate: Fates, d: EventId)
    requires d in when && Starved(when, d, limit, fate)
    requires OldestFirst(when, passes, limit, fate, d, when[d])
    ensures !SettledWithin(when, passes, fate, d) && d in AfterPasses(when, passes, fate)
    decreases |passes|
  {
    if passes != [] {
      if d in SettledBy(passes[0].chosen, fate) {
        SettledNotStarved(when, passes[0].chosen, limit, fate, d);
      }
      StarvationKept(when, passes[0], limit, fate, d);
      StarvedForever(AfterPass(when, passes[0], fate), passes[1..], limit, fate, d);
    }
  }

  /** d is reachable at `rate` settled rows a pass, with fewer than m deliverable rows ahead of it. */
  ghost predicate OnTrack(when: map<EventId, int>, limit: nat, fate: Fates, d: EventId, rate: int, m: int) {
    && d in when && !Starved(when, d, limit, fate)
    && |AheadWith(when, d, fate, Skipped)| == limit - rate
    && |AheadWith(when, d, fate, Deliverable)| < m
  }

  lemma StaysOnTrack(when: map<EventId, int>, p: Pass, limit: nat, fate: Fates, d: EventId, rate: int, m: int)
    requires OnTrack(when, limit, fate, d, rate, m) && fate(d).Deliverable?
    requires IsOldest(p.chosen, when, limit) && d !in SettledBy(p.chosen, fate)
    requires p.arrivals.Keys !! when.Keys
    requires forall e :: e in p.arrivals ==> Later(p.arrivals[e], e, when[d], d)
    ensures OnTrack(AfterPass(when, p, fate), limit, fate, d, rate, m - rate)
    ensures AfterPass(when, p, fate)[d] == when[d]
  {
    OnePassProgress(when, p.chosen, limit, fate, d);
    AheadAfter(when, p, fate, d, Deliverable);
    StarvationKept(when, p, limit, fate, d);
    SubsetCount(SettledBy(p.chosen, fate), AheadWith(when, d, fate, Deliverable));
  }

  /** An unstarved row with b skipped and m - 1 deliverable rows ahead of it is settled by n passes
      as soon as n * (limit - b) >= m. */
  lemma SettledInTime(when: map<EventId, int>, passes: seq<Pass>, limit: nat, fate: Fates, d: EventId)
    requires d in when && fate(d).Deliverable? && !Starved(when, d, limit, fate)
    requires OldestFirst(when, passes, limit, fate, d, when[d])
    requires |passes| * (limit - |AheadWith(when, d, fate, Skipped)|) >= |AheadWith(when, d, fate, Deliverable)| + 1
    ensures SettledWithin(when, passes, fate, d)
  {
    var rate := limit - |AheadWith(when, d, fate, Skipped)|;
    CapacityIsProduct(|passes|, rate);
    SettledAtRate(when, passes, limit, fate, d, when[d], rate);
  }

  lemma {:induction false} SettledAtRate(when: map<EventId, int>, passes: seq<Pass>, limit: nat, fate: Fates, d: EventId, t: int, rate: int)
    requires OnTrack(when, limit, fate, d, rate, Capacity(|passes|, rate)) && when[d] == t && fate(d).Deliverable?
    requires OldestFirst(when, passes, limit, fate, d, t)
    ensures SettledWithin(when, passes, fate, d)
    decreases |passes|
  {
    assert passes != [];
    var first, rest := passes[0], passes[1..];
    if d !in SettledBy(first.chosen, fate) {
      var next := AfterPass(when, first, fate);
      assert OnTrack(next, limit, fate, d, rate, Capacity(|rest|, rate)) && next[d] == t by {
        StaysOnTrack(when, first, limit, fate, d, rate, Capacity(|passes|, rate));
      }
      assert SettledWithin(next, rest, fate, d) by {
        SettledAtRate(next, rest, limit, fate, d, t, rate);
      }
    }
  }

  function Capacity(n: nat, rate: int): int {
    if n == 0 then 0 else rate + Capacity(n - 1, rate)
  }

  lemma {:induction false} CapacityIsProduct(n: nat, rate: int)
    ensures Capacity(n, rate) == n * rate
  {
    if n > 0 {
      CapacityIsProduct(n - 1, rate);
      assert n * rate == (n - 1) * rate + rate;
    }
  }

  /** Given as many passes as there are deliverable rows up to and including d, d is settled if and only
      if no refused row and fewer than `limit` skipped rows are ahead of it. */
  lemma SettledIffReachable(when: map<EventId, int>, passes: seq<Pass>, limit: nat, fate: Fates, d: EventId)
    requires d in when && fate(d).Deliverable?
    requires OldestFirst(when, passes, limit, fate, d, when[d])
    requires |passes| > |AheadWith(when, d, fate, Deliverable)|
    ensures SettledWithin(when, passes, fate, d) <==> !Starved(when, d, limit, fate)
  {
    if Starved(when, d, limit, fate) {
      StarvedForever(when, passes, limit, fate, d);
    } else {
      FasterRate(|passes|, 1, limit - |AheadWith(when, d, fate, Skipped)|);
      SettledInTime(when, passes, limit, fate, d);
    }
  }

  /** Two rows and a limit of one: the older is gone over again and again, and the newer, deliverable one
      is never reached. */
  lemma StarvedInstance(n: nat) returns (when: map<EventId, int>, passes: seq<Pass>, fate: Fates)
    ensures when == map[1 := 0, 2 := 1] && fate(2) == Deliverable && |passes| == n
    ensures OldestFirst(when, passes, 1, fate, 2, 1) && Starved(when, 2, 1, fate)
    ensures 2 in AfterPasses(when, passes, fate)
  {
    when, fate := map[1 := 0, 2 := 1], e => if e == 1 then Skipped else Deliverable;
    passes := SamePasses(n);
    assert AheadWith(when, 2, fate, Skipped) == {1};
    OldestIsFirst(when);
    SamePassesStay(n, fate);
    StarvedForever(when, passes, 1, fate, 2);
  }

  function SamePasses(n: nat): (p: seq<Pass>)
    ensures |p| == n
  {
    if n == 0 then [] else [Pass([1], map[])] + SamePasses(n - 1)
  }

  lemma OldestIsFirst(when: map<EventId, int>)
    requires when == map[1 := 0, 2 := 1]
    ensures IsOldest([1], when, 1)
  {
    assert when.Keys == {1, 2};
    assert |when| == |when.Keys|;
  }

  lemma {:induction false} SamePassesStay(n: nat, fate: Fates)
    requires fate(1) == Skipped
    ensures OldestFirst(map[1 := 0, 2 := 1], SamePasses(n), 1, fate, 2, 1)
  {
    if n > 0 {
      var when, p: Pass := map[1 := 0, 2 := 1], Pass([1], map[]);
      OldestIsFirst(when);
      assert SettledBy([1], fate) == {};
      assert AfterPass(when, p, fate) == when;
      assert SamePasses(n)[0] == p && SamePasses(n)[1..] == SamePasses(n - 1);
      SamePassesStay(n - 1, fate);
    }
  }

  function WithFate(when: map<EventId, int>, fate: Fates, f: Fate): set<EventId> {
    set e | e in when && fate(e) == f
  }

  /** With q deliverable and k < limit skipped rows and none refused, n passes settle all q as soon as
      n * (limit - k) >= q: that is, within ceil(q / (limit - k)) passes. */
  lemma DrainBound(when: map<EventId, int>, passes: seq<Pass>, limit: nat, fate: Fates, d: EventId)
    requires d in when && fate(d).Deliverable?
    requires OldestFirst(when, passes, limit, fate, d, when[d])
    requires WithFate(when, fate, Refused) == {} && |WithFate(when, fate, Skipped)| < limit
    requires |passes| * (limit - |WithFate(when, fate, Skipped)|) >= |WithFate(when, fate, Deliverable)|
    ensures SettledWithin(when, passes, fate, d)
  {
    assert AheadWith(when, d, fate, Refused) <= WithFate(when, fate, Refused);
    SubsetCount(AheadWith(when, d, fate, Skipped), WithFate(when, fate, Skipped));
    SubsetCount(AheadWith(when, d, fate, Deliverable) + {d}, WithFate(when, fate, Deliverable));
    FasterRate(|passes|, limit - |WithFate(when, fate, Skipped)|, limit - |AheadWith(when, d, fate, Skipped)|);
    SettledInTime(when, passes, limit, fate, d);
  }

  lemma FasterRate(n: nat, slow: int, fast: int)
    requires slow <= fast
    ensures n * slow <= n * fast
  {
  }
}
