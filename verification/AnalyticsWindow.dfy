/**
 Range presets and calendar buckets of the analytics charts.  Instants are .NET ticks: 100 ns steps
 from midnight of 1 January 0001, which was a Monday, up to the last tick of the year 9999.  Arithmetic
 that leaves this range throws.
 */
module AnalyticsWindow {
  import opened Common

  const TICKS_PER_HOUR: int := 36_000_000_000
  const TICKS_PER_DAY: int := 864_000_000_000
  const TICKS_PER_WEEK: int := 6_048_000_000_000
  const MAX_TICKS: int := 3_155_378_975_999_999_999

  type Instant = t: int | 0 <= t <= MAX_TICKS

  datatype Bucket = Hour | Day | Week

  datatype Range = Last24Hours | Last7Days | Last30Days | Last90Days

  datatype OutOfRange = ArgumentOutOfRange

  datatype Window = Window(from: Instant, end: Instant, bucket: Bucket)

  function Size(b: Bucket): int {
    match b
    case Hour => TICKS_PER_HOUR
    case Day => TICKS_PER_DAY
    case Week => TICKS_PER_WEEK
  }

  function Add(t: Instant, ticks: int): Result<Instant, OutOfRange> {
    if 0 <= t + ticks <= MAX_TICKS then Ok(t + ticks) else Err(ArgumentOutOfRange)
  }

  function Span(range: Range): int {
    match range
    case Last24Hours => 24 * TICKS_PER_HOUR
    case Last7Days => 7 * TICKS_PER_DAY
    case Last30Days => 30 * TICKS_PER_DAY
    case Last90Days => 90 * TICKS_PER_DAY
  }

  function PresetBucket(range: Range): Bucket {
    match range
    case Last24Hours => Hour
    case Last90Days => Week
    case _ => Day
  }

  function Resolve(range: Range, now: Instant): Result<Window, OutOfRange> {
    match Add(now, -Span(range))
    case Err(e) => Err(e)
    case Ok(from) => Ok(Window(from, now, PresetBucket(range)))
  }

  function BucketFor(from: Instant, end: Instant): Bucket {
    if end - from <= 2 * TICKS_PER_DAY then Hour
    else if end - from <= 31 * TICKS_PER_DAY then Day
    else Week
  }

  /** Sunday is 0, as in the platform's own numbering. */
  function DayOfWeek(t: Instant): int {
    (t / TICKS_PER_DAY + 1) % 7
  }

  function DateOf(t: Instant): Instant {
    t - t % TICKS_PER_DAY
  }

  function DaysSinceMonday(t: Instant): int {
    (DayOfWeek(DateOf(t)) + 6) % 7
  }

  /** The start of the bucket that contains `t`; weeks go back from the day's start to its Monday. */
  function Truncate(t: Instant, b: Bucket): (start: int)
    ensures 0 <= start <= t < start + Size(b) && start % Size(b) == 0
  {
    match b
    case Hour => t - t % TICKS_PER_HOUR
    case Day => DateOf(t)
    case Week =>
      WeekStart(t);
      DateOf(t) - DaysSinceMonday(t) * TICKS_PER_DAY
  }

  lemma WeekStart(t: Instant)
    ensures var start := DateOf(t) - DaysSinceMonday(t) * TICKS_PER_DAY;
            0 <= start <= t < start + TICKS_PER_WEEK && start % TICKS_PER_WEEK == 0
  {
    var day := t / TICKS_PER_DAY;
    DateByDay(t);
    assert (day + 1) % 7 == (day % 7 + 1) % 7;
    assert DaysSinceMonday(t) == day % 7;
    var week := day / 7;
    assert DateOf(t) - DaysSinceMonday(t) * TICKS_PER_DAY == week * TICKS_PER_WEEK;
    assert (week * TICKS_PER_WEEK) % TICKS_PER_WEEK == 0;
  }

  /** The date of an instant, as a number of days. */
  lemma DateByDay(t: Instant)
    ensures DateOf(t) == (t / TICKS_PER_DAY) * TICKS_PER_DAY
    ensures DateOf(t) / TICKS_PER_DAY == t / TICKS_PER_DAY
  {
  }

  // ---- Truncation ------------------------------------------------------------------------------

  function Index(t: Instant, b: Bucket): int {
    t / Size(b)
  }

  lemma TruncateByIndex(t: Instant, b: Bucket)
    ensures Truncate(t, b) == Index(t, b) * Size(b)
  {
    var start := Truncate(t, b);
    match b
    case Hour => assert start == (start / TICKS_PER_HOUR) * TICKS_PER_HOUR;
    case Day => assert start == (start / TICKS_PER_DAY) * TICKS_PER_DAY;
    case Week => assert start == (start / TICKS_PER_WEEK) * TICKS_PER_WEEK;
  }

  /** A multiple of the bucket size is the start of exactly the instants of its bucket. */
  lemma IndexIff(t: Instant, b: Bucket, k: int)
    ensures Index(t, b) == k <==> k * Size(b) <= t < (k + 1) * Size(b)
  {
    match b
    case Hour =>
    case Day =>
    case Week =>
  }

  /** Truncating a bucket start changes nothing, and every bucket start is a Monday midnight for weeks. */
  lemma TruncateIdempotent(t: Instant, b: Bucket)
    ensures Truncate(Truncate(t, b), b) == Truncate(t, b)
    ensures b == Week ==> DayOfWeek(Truncate(t, b)) == 1 && DateOf(Truncate(t, b)) == Truncate(t, b)
  {
    var start := Truncate(t, b);
    if b == Week {
      var week := start / TICKS_PER_WEEK;
      assert start == week * TICKS_PER_WEEK;
      assert start / TICKS_PER_DAY == 7 * week;
    }
  }

  // ---- The loop --------------------------------------------------------------------------------

  function BucketCount(from: Instant, end: Instant, b: Bucket): int
    requires from < end
  {
    Index(end - 1, b) - Index(from, b) + 1
  }

  /** The listed starts: consecutive bucket starts from the one holding `from` to the one holding the
      last instant of the window. */
  ghost predicate Enumerates(starts: seq<int>, from: Instant, end: Instant, b: Bucket) {
    if end <= from then starts == []
    else
      && |starts| == BucketCount(from, end, b)
      && forall i :: 0 <= i < |starts| ==> starts[i] == (Index(from, b) + i) * Size(b)
  }

  method EnumerateBuckets(from: Instant, end: Instant, b: Bucket) returns (r: Result<seq<int>, OutOfRange>)
    ensures r.Err? <==> from < end && Truncate(end - 1, b) + Size(b) > MAX_TICKS
    ensures r.Ok? ==> Enumerates(r.value, from, end, b)
  {
    var starts: seq<int> := [];
    if end <= from {
      return Ok(starts);
    }
    var start: Instant := Truncate(from, b);
    TruncateByIndex(from, b);
    TruncateByIndex(end - 1, b);
    ghost var first := Index(from, b);
    while start < end
      invariant start == (first + |starts|) * Size(b)
      invariant |starts| > 0 ==> (first + |starts| - 1) * Size(b) < end
      invariant |starts| == 0 ==> start < end
      invariant forall i :: 0 <= i < |starts| ==> starts[i] == (first + i) * Size(b)
      decreases end - start
    {
      starts := starts + [start];
      NextStart(first + |starts| - 1, b);
      if start + Size(b) > MAX_TICKS {
        LastIndex(end, b, first + |starts| - 1);
        return Err(ArgumentOutOfRange);
      }
      start := start + Size(b);
    }
    LastIndex(end, b, first + |starts| - 1);
    return Ok(starts);
  }

  /** A window that ends with the calendar makes the loop throw, for every bucket size. */
  lemma LastWindowThrows(b: Bucket) returns (from: Instant, end: Instant)
    ensures from == MAX_TICKS - 1 && end == MAX_TICKS
    ensures from < end && Truncate(end - 1, b) + Size(b) > MAX_TICKS
  {
    from, end := MAX_TICKS - 1, MAX_TICKS;
    match b
    case Hour => assert MAX_TICKS % TICKS_PER_HOUR != 0;
    case Day => assert MAX_TICKS % TICKS_PER_DAY != 0;
    case Week => assert MAX_TICKS % TICKS_PER_WEEK != 0;
  }

  lemma NextStart(k: int, b: Bucket)
    ensures (k + 1) * Size(b) == k * Size(b) + Size(b)
  {
  }

  lemma LastIndex(end: Instant, b: Bucket, k: int)
    requires 0 < end && k * Size(b) < end <= (k + 1) * Size(b)
    ensures Index(end - 1, b) == k && Truncate(end - 1, b) == k * Size(b)
  {
    IndexIff(end - 1, b, k);
    TruncateByIndex(end - 1, b);
  }

  // ---- The partition ---------------------------------------------------------------------------

  lemma MultiplesOrdered(j: int, k: int, b: Bucket)
    ensures j < k <==> j * Size(b) < k * Size(b)
  {
    match b
    case Hour =>
    case Day =>
    case Week =>
  }

  ghost predicate OnlyAt(starts: seq<int>, i: int, start: int) {
    0 <= i < |starts| && starts[i] == start && forall j :: 0 <= j < |starts| && j != i ==> starts[j] != start
  }

  /** The listed starts ascend strictly. */
  lemma BucketsAscend(starts: seq<int>, from: Instant, end: Instant, b: Bucket, i: nat, j: nat)
    requires from < end && Enumerates(starts, from, end, b)
    requires i < j < |starts|
    ensures starts[i] < starts[j]
  {
    MultiplesOrdered(Index(from, b) + i, Index(from, b) + j, b);
  }

  /** Every instant of [from, end) truncates to exactly one of the listed starts. */
  lemma BucketsPartition(starts: seq<int>, from: Instant, end: Instant, b: Bucket, t: Instant)
    requires Enumerates(starts, from, end, b) && from <= t < end
    ensures exists i :: OnlyAt(starts, i, Truncate(t, b))
  {
    TruncateByIndex(t, b);
    IndexMonotone(from, t, b);
    IndexMonotone(t, end - 1, b);
    OnlyAtOwnIndex(starts, from, end, b, Index(t, b) - Index(from, b));
  }

  lemma OnlyAtOwnIndex(starts: seq<int>, from: Instant, end: Instant, b: Bucket, i: nat)
    requires from < end && Enumerates(starts, from, end, b) && i < |starts|
    ensures OnlyAt(starts, i, starts[i])
  {
    forall j: nat | j < |starts| && j != i
      ensures starts[j] != starts[i]
    {
      BucketsAscend(starts, from, end, b, if i < j then i else j, if i < j then j else i);
    }
  }

  lemma IndexMonotone(s: Instant, t: Instant, b: Bucket)
    requires s <= t
    ensures Index(s, b) <= Index(t, b)
  {
    match b
    case Hour =>
    case Day =>
    case Week =>
  }

  /** No listed bucket is wholly outside the window. */
  lemma BucketsTouchWindow(starts: seq<int>, from: Instant, end: Instant, b: Bucket, i: nat)
    requires from < end && Enumerates(starts, from, end, b) && i < |starts|
    ensures starts[i] < end && from < starts[i] + Size(b)
  {
    var first := Index(from, b);
    IndexIff(from, b, first);
    IndexIff(end - 1, b, Index(end - 1, b));
    if i + 1 < |starts| {
      MultiplesOrdered(first + i, Index(end - 1, b), b);
    }
    NextStart(first + i, b);
    if 0 < i {
      MultiplesOrdered(first + 1, first + i + 1, b);
    }
  }

  // ---- How many --------------------------------------------------------------------------------

  /** A window of span s has at most ceil(s / size) + 1 buckets. */
  lemma CountBound(from: Instant, end: Instant, b: Bucket)
    requires from < end
    ensures BucketCount(from, end, b) <= (end - 1 - from) / Size(b) + 2
  {
    match b
    case Hour =>
    case Day =>
    case Week =>
  }

  /** An absolute window gets at most 49 hourly or 32 daily buckets. */
  lemma AbsoluteWindowBound(from: Instant, end: Instant)
    requires from < end
    ensures BucketFor(from, end) == Hour ==> BucketCount(from, end, Hour) <= 49
    ensures BucketFor(from, end) == Day ==> BucketCount(from, end, Day) <= 32
  {
    CountBound(from, end, BucketFor(from, end));
  }

  /** Both bounds are reached. */
  lemma AbsoluteWindowBoundTight() returns (from: Instant, twoDays: Instant, month: Instant)
    ensures from < twoDays && BucketFor(from, twoDays) == Hour && BucketCount(from, twoDays, Hour) == 49
    ensures from < month && BucketFor(from, month) == Day && BucketCount(from, month, Day) == 32
  {
    from, twoDays, month := 1, 1 + 2 * TICKS_PER_DAY, 1 + 31 * TICKS_PER_DAY;
  }

  /** A preset window ends at the clock, has the preset's span, and at most 25, 8, 31 or 14 buckets;
      it fails exactly when the clock is less than the span after the first instant. */
  lemma PresetBound(range: Range, now: Instant)
    ensures Resolve(range, now).Err? <==> now < Span(range)
    ensures Resolve(range, now).Ok? ==>
              var w := Resolve(range, now).value;
              && w.end == now && w.end - w.from == Span(range) > 0
              && BucketCount(w.from, w.end, w.bucket) <=
                   match range case Last24Hours => 25 case Last7Days => 8 case Last30Days => 31 case Last90Days => 14
  {
    if Resolve(range, now).Ok? {
      var w := Resolve(range, now).value;
      CountBound(w.from, w.end, w.bucket);
    }
  }
}
