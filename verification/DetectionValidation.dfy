/**
 Turning a raw Bridge message into a detection event: field checks in a fixed order, class resolution,
 and clamping of the bounding box to the frame.  Floats are reals; what is kept of the float range is
 that converting too large an integer, or taking the ceiling of an infinite sum, raises OverflowError.
 */
module DetectionValidation {
  import opened Common
  import opened JsonValues

  /** The wire names the validator looks at; every other name is `Other`. */
  datatype Name =
    | ClassId | SourceId | FrameNumber | FrameWidth | FrameHeight
    | Confidence | BboxLeft | BboxTop | BboxWidth | BboxHeight
    | CamelClassId | CamelSourceId | CamelFrameNumber | BoundingBox
    | Other(text: string)

  type Payload = map<Name, Json>

  const REQUIRED_INTS: seq<Name> := [ClassId, SourceId, FrameNumber]
  const OPTIONAL_INTS: seq<Name> := [FrameWidth, FrameHeight]
  const REQUIRED_FLOATS: seq<Name> := [Confidence, BboxLeft, BboxTop, BboxWidth, BboxHeight]

  datatype Reason =
    | MalformedField | NonFiniteValue | NegativeValue | UnknownClass | ConfidenceOutOfRange | ConfidenceBelowThreshold

  datatype Event = Event(
    sourceId: int, classId: int, className: string, confidence: real, frameNumber: int,
    frameWidth: int, frameHeight: int, left: real, top: real, width: real, height: real)

  datatype Outcome =
    | Accepted(event: Event)
    | Rejected(reason: Reason, field: Name)
    | Overflows

  /** From here on an integer rounds to no float. */
  function FloatLimit(): (limit: int)
    ensures limit >= 1
  {
    assert Pow2(971) == 2 * Pow2(970);
    PowPositive(970);
    PowGrows(971, 1024);
    Pow2(1024) - Pow2(970)
  }

  lemma {:induction false} PowGrows(m: nat, n: nat)
    requires m <= n
    ensures Pow2(m) <= Pow2(n)
  {
    if m < n {
      PowGrows(m, n - 1);
    }
  }

  predicate TooLarge(r: real) {
    r >= FloatLimit() as real || r <= -(FloatLimit() as real)
  }

  // ---- Reading the fields ----------------------------------------------------------------------

  function IntProblem(p: Payload, f: Name): Option<Outcome> {
    if f in p && p[f].JInt? then None else Some(Rejected(MalformedField, f))
  }

  function OptionalProblem(p: Payload, f: Name): Option<Outcome> {
    if f !in p || p[f].JInt? then None else Some(Rejected(MalformedField, f))
  }

  function FloatProblem(p: Payload, f: Name): Option<Outcome> {
    if f !in p || !(p[f].JInt? || p[f].JFloat?) then Some(Rejected(MalformedField, f))
    else if p[f].JInt? then if TooLarge(p[f].n as real) then Some(Overflows) else None
    else if p[f].f.Finite? then None
    else Some(Rejected(NonFiniteValue, f))
  }

  /** The first problem in field order. */
  function FirstProblem(fields: seq<Name>, problem: Name -> Option<Outcome>): Option<Outcome> {
    if fields == [] then None
    else if problem(fields[0]).Some? then problem(fields[0])
    else FirstProblem(fields[1..], problem)
  }

  function ReadingProblem(p: Payload): Option<Outcome> {
    var ints := FirstProblem(REQUIRED_INTS, f => IntProblem(p, f));
    var optionals := FirstProblem(OPTIONAL_INTS, f => OptionalProblem(p, f));
    if ints.Some? then ints
    else if optionals.Some? then optionals
    else FirstProblem(REQUIRED_FLOATS, f => FloatProblem(p, f))
  }

  function IntAt(p: Payload, f: Name): int
    requires IntProblem(p, f).None?
  {
    p[f].n
  }

  function OptionalAt(p: Payload, f: Name): Option<int>
    requires OptionalProblem(p, f).None?
  {
    if f in p then Some(p[f].n) else None
  }

  function FloatAt(p: Payload, f: Name): real
    requires FloatProblem(p, f).None?
  {
    if p[f].JInt? then p[f].n as real else p[f].f.r
  }

  datatype Raw = Raw(
    classId: int, sourceId: int, frameNumber: int, frameWidth: Option<int>, frameHeight: Option<int>,
    confidence: real, left: real, top: real, width: real, height: real)

  predicate Readable(p: Payload) {
    && (forall f :: f in REQUIRED_INTS ==> IntProblem(p, f).None?)
    && (forall f :: f in OPTIONAL_INTS ==> OptionalProblem(p, f).None?)
    && (forall f :: f in REQUIRED_FLOATS ==> FloatProblem(p, f).None?)
  }

  lemma {:induction false} NoProblemIff(fields: seq<Name>, problem: Name -> Option<Outcome>)
    ensures FirstProblem(fields, problem).None? <==> forall f :: f in fields ==> problem(f).None?
  {
    if fields != [] {
      NoProblemIff(fields[1..], problem);
      assert fields[0] in fields && forall f :: f in fields[1..] ==> f in fields;
      assert forall f :: f in fields ==> f == fields[0] || f in fields[1..];
    }
  }

  lemma ReadableIff(p: Payload)
    ensures Readable(p) <==> ReadingProblem(p).None?
  {
    NoProblemIff(REQUIRED_INTS, f => IntProblem(p, f));
    NoProblemIff(OPTIONAL_INTS, f => OptionalProblem(p, f));
    NoProblemIff(REQUIRED_FLOATS, f => FloatProblem(p, f));
  }

  function RawOf(p: Payload): Raw
    requires Readable(p)
  {
    assert ClassId in REQUIRED_INTS && SourceId in REQUIRED_INTS && FrameNumber in REQUIRED_INTS by {
      assert REQUIRED_INTS[0] == ClassId && REQUIRED_INTS[1] == SourceId && REQUIRED_INTS[2] == FrameNumber;
    }
    assert FrameWidth in OPTIONAL_INTS && FrameHeight in OPTIONAL_INTS by {
      assert OPTIONAL_INTS[0] == FrameWidth && OPTIONAL_INTS[1] == FrameHeight;
    }
    assert forall i :: 0 <= i < 5 ==> REQUIRED_FLOATS[i] in REQUIRED_FLOATS;
    assert REQUIRED_FLOATS[0] == Confidence && REQUIRED_FLOATS[1] == BboxLeft && REQUIRED_FLOATS[2] == BboxTop
           && REQUIRED_FLOATS[3] == BboxWidth && REQUIRED_FLOATS[4] == BboxHeight;
    Raw(IntAt(p, ClassId), IntAt(p, SourceId), IntAt(p, FrameNumber), OptionalAt(p, FrameWidth), OptionalAt(p, FrameHeight),
        FloatAt(p, Confidence), FloatAt(p, BboxLeft), FloatAt(p, BboxTop), FloatAt(p, BboxWidth), FloatAt(p, BboxHeight))
  }

  // ---- Judging the values ----------------------------------------------------------------------

  /** The rules on the values, in the order they are applied. */
  function RuleBroken(r: Raw, classNames: map<int, string>, minConfidence: real): Option<Outcome> {
    if r.sourceId < 0 then Some(Rejected(NegativeValue, SourceId))
    else if r.frameNumber < 0 then Some(Rejected(NegativeValue, FrameNumber))
    else if r.frameWidth.Some? && r.frameWidth.value <= 0 then Some(Rejected(NegativeValue, FrameWidth))
    else if r.frameHeight.Some? && r.frameHeight.value <= 0 then Some(Rejected(NegativeValue, FrameHeight))
    else if !(0.0 <= r.confidence <= 1.0) then Some(Rejected(ConfidenceOutOfRange, Confidence))
    else if r.confidence < minConfidence then Some(Rejected(ConfidenceBelowThreshold, Confidence))
    else if r.left < 0.0 then Some(Rejected(NegativeValue, BboxLeft))
    else if r.top < 0.0 then Some(Rejected(NegativeValue, BboxTop))
    else if r.width < 0.0 then Some(Rejected(NegativeValue, BboxWidth))
    else if r.height < 0.0 then Some(Rejected(NegativeValue, BboxHeight))
    else if r.classId !in classNames then Some(Rejected(UnknownClass, ClassId))
    else None
  }

  function Ceiling(r: real): int {
    -((-r).Floor)
  }

  function MinReal(a: real, b: real): real {
    if a <= b then a else b
  }

  /** The given frame size, or the smallest one that holds the box; `None` stands for the overflow, of
      the sum or of the frame size when it is converted back for the clamping. */
  function FrameSize(given: Option<int>, start: real, size: real): Option<int> {
    var frame := if given.Some? then given.value else Max(1, Ceiling(start + size));
    if (given.None? && TooLarge(start + size)) || TooLarge(frame as real) then None else Some(frame)
  }

  /** Where a box ends up on one axis: the new start and the new size. */
  function Clamp(start: real, size: real, frame: int): (real, real) {
    var start' := MinReal(start, frame as real);
    (start', MinReal(size, frame as real - start'))
  }

  /** The verdict on readable values. */
  function Judge(r: Raw, classNames: map<int, string>, minConfidence: real): Outcome {
    var broken := RuleBroken(r, classNames, minConfidence);
    if broken.Some? then broken.value
    else
      var w, h := FrameSize(r.frameWidth, r.left, r.width), FrameSize(r.frameHeight, r.top, r.height);
      if w.None? || h.None? then Overflows
      else
        var (left, width) := Clamp(r.left, r.width, w.value);
        var (top, height) := Clamp(r.top, r.height, h.value);
        Accepted(Event(r.sourceId, r.classId, classNames[r.classId], r.confidence, r.frameNumber,
                       w.value, h.value, left, top, width, height))
  }

  function Validation(p: Payload, classNames: map<int, string>, minConfidence: real): Outcome {
    ReadableIff(p);
    if ReadingProblem(p).Some? then ReadingProblem(p).value else Judge(RawOf(p), classNames, minConfidence)
  }

  // ---- The validator ---------------------------------------------------------------------------

  lemma {:induction false} ProblemAt(fields: seq<Name>, problem: Name -> Option<Outcome>, i: nat)
    requires i < |fields| && problem(fields[i]).Some? && forall j :: 0 <= j < i ==> problem(fields[j]).None?
    ensures FirstProblem(fields, problem) == problem(fields[i])
  {
    if i > 0 {
      ProblemAt(fields[1..], problem, i - 1);
    }
  }

  method ReadInts(p: Payload) returns (values: map<Name, int>, problem: Option<Outcome>)
    ensures problem == FirstProblem(REQUIRED_INTS, f => IntProblem(p, f))
    ensures problem.None? ==> forall f :: f in REQUIRED_INTS ==> f in values && IntProblem(p, f).None? && values[f] == IntAt(p, f)
  {
    values, problem := map[], None;
    ghost var isProblem := f => IntProblem(p, f);
    for i := 0 to |REQUIRED_INTS|
      invariant forall j :: 0 <= j < i ==>
                  && isProblem(REQUIRED_INTS[j]).None? && REQUIRED_INTS[j] in values
                  && values[REQUIRED_INTS[j]] == IntAt(p, REQUIRED_INTS[j])
    {
      var f := REQUIRED_INTS[i];
      if f !in p || !p[f].JInt? {
        ProblemAt(REQUIRED_INTS, isProblem, i);
        return values, Some(Rejected(MalformedField, f));
      }
      values := values[f := p[f].n];
    }
    NoProblemIff(REQUIRED_INTS, isProblem);
  }

  method ReadOptionalInts(p: Payload) returns (values: map<Name, Option<int>>, problem: Option<Outcome>)
    ensures problem == FirstProblem(OPTIONAL_INTS, f => OptionalProblem(p, f))
    ensures problem.None? ==>
              forall f :: f in OPTIONAL_INTS ==> f in values && OptionalProblem(p, f).None? && values[f] == OptionalAt(p, f)
  {
    values, problem := map[], None;
    ghost var isProblem := f => OptionalProblem(p, f);
    for i := 0 to |OPTIONAL_INTS|
      invariant forall j :: 0 <= j < i ==>
                  && isProblem(OPTIONAL_INTS[j]).None? && OPTIONAL_INTS[j] in values
                  && values[OPTIONAL_INTS[j]] == OptionalAt(p, OPTIONAL_INTS[j])
    {
      var f := OPTIONAL_INTS[i];
      if f !in p {
        values := values[f := None];
        continue;
      }
      if !p[f].JInt? {
        ProblemAt(OPTIONAL_INTS, isProblem, i);
        return values, Some(Rejected(MalformedField, f));
      }
      values := values[f := Some(p[f].n)];
    }
    NoProblemIff(OPTIONAL_INTS, isProblem);
  }

  method ReadFloats(p: Payload) returns (values: map<Name, real>, problem: Option<Outcome>)
    ensures problem == FirstProblem(REQUIRED_FLOATS, f => FloatProblem(p, f))
    ensures problem.None? ==>
              forall f :: f in REQUIRED_FLOATS ==> f in values && FloatProblem(p, f).None? && values[f] == FloatAt(p, f)
  {
    values, problem := map[], None;
    ghost var isProblem := f => FloatProblem(p, f);
    for i := 0 to |REQUIRED_FLOATS|
      invariant forall j :: 0 <= j < i ==>
                  && isProblem(REQUIRED_FLOATS[j]).None? && REQUIRED_FLOATS[j] in values
                  && values[REQUIRED_FLOATS[j]] == FloatAt(p, REQUIRED_FLOATS[j])
    {
      var f := REQUIRED_FLOATS[i];
      var found := FloatProblem(p, f);
      if found.Some? {
        ProblemAt(REQUIRED_FLOATS, isProblem, i);
        return values, found;
      }
      values := values[f := FloatAt(p, f)];
    }
    NoProblemIff(REQUIRED_FLOATS, isProblem);
  }

  method ValidateDetection(p: Payload, classNames: map<int, string>, minConfidence: real) returns (outcome: Outcome)
    ensures outcome == Validation(p, classNames, minConfidence)
  {
    var ints, badInt := ReadInts(p);
    if badInt.Some? {
      return badInt.value;
    }
    var optionals, badOptional := ReadOptionalInts(p);
    if badOptional.Some? {
      return badOptional.value;
    }
    var floats, badFloat := ReadFloats(p);
    if badFloat.Some? {
      return badFloat.value;
    }
    ReadableIff(p);
    ghost var raw := RawOf(p);
    outcome := JudgeValues(
      Raw(ints[ClassId], ints[SourceId], ints[FrameNumber], optionals[FrameWidth], optionals[FrameHeight],
          floats[Confidence], floats[BboxLeft], floats[BboxTop], floats[BboxWidth], floats[BboxHeight]),
      classNames, minConfidence);
  }

  /** The rules, the frame and the clamping, box variables reassigned in place. */
  method JudgeValues(r: Raw, classNames: map<int, string>, minConfidence: real) returns (outcome: Outcome)
    ensures outcome == Judge(r, classNames, minConfidence)
  {
    var broken := RuleBroken(r, classNames, minConfidence);
    if broken.Some? {
      return broken.value;
    }
    var frameWidth := FrameSize(r.frameWidth, r.left, r.width);
    var frameHeight := FrameSize(r.frameHeight, r.top, r.height);
    if frameWidth.None? || frameHeight.None? {
      return Overflows;
    }
    var left, top, width, height := r.left, r.top, r.width, r.height;
    left := MinReal(left, frameWidth.value as real);
    top := MinReal(top, frameHeight.value as real);
    width := MinReal(width, frameWidth.value as real - left);
    height := MinReal(height, frameHeight.value as real - top);
    return Accepted(Event(r.sourceId, r.classId, classNames[r.classId], r.confidence, r.frameNumber,
                          frameWidth.value, frameHeight.value, left, top, width, height));
  }

  // ---- What an accepted event is ---------------------------------------------------------------

  /** The checks of the event's own constructor. */
  predicate Constructible(e: Event) {
    && 0.0 <= e.confidence <= 1.0 && e.sourceId >= 0 && e.frameNumber >= 0
    && e.frameWidth > 0 && e.frameHeight > 0
    && e.left >= 0.0 && e.top >= 0.0 && e.width >= 0.0 && e.height >= 0.0
    && e.left + e.width <= e.frameWidth as real && e.top + e.height <= e.frameHeight as real
  }

  lemma {:induction false} FirstNeverAccepts(fields: seq<Name>, problem: Name -> Option<Outcome>)
    requires forall f :: problem(f).Some? ==> !problem(f).value.Accepted?
    ensures FirstProblem(fields, problem).Some? ==> !FirstProblem(fields, problem).value.Accepted?
  {
    if fields != [] {
      FirstNeverAccepts(fields[1..], problem);
    }
  }

  /** A message that is accepted is readable and was accepted by the rules. */
  lemma AcceptedIsReadable(p: Payload, classNames: map<int, string>, minConfidence: real)
    requires Validation(p, classNames, minConfidence).Accepted?
    ensures Readable(p) && Judge(RawOf(p), classNames, minConfidence) == Validation(p, classNames, minConfidence)
  {
    ReadableIff(p);
    FirstNeverAccepts(REQUIRED_INTS, f => IntProblem(p, f));
    FirstNeverAccepts(OPTIONAL_INTS, f => OptionalProblem(p, f));
    FirstNeverAccepts(REQUIRED_FLOATS, f => FloatProblem(p, f));
    assert ReadingProblem(p).None?;
  }

  lemma ConstructorNeverFails(p: Payload, classNames: map<int, string>, minConfidence: real)
    requires Validation(p, classNames, minConfidence).Accepted?
    ensures Constructible(Validation(p, classNames, minConfidence).event)
  {
    AcceptedIsReadable(p, classNames, minConfidence);
    JudgedConstructible(RawOf(p), classNames, minConfidence);
  }

  /** An accepted event has the name of its class. */
  lemma AcceptedClass(p: Payload, classNames: map<int, string>, minConfidence: real)
    requires Validation(p, classNames, minConfidence).Accepted?
    ensures var e := Validation(p, classNames, minConfidence).event; e.classId in classNames && e.className == classNames[e.classId]
  {
    AcceptedIsReadable(p, classNames, minConfidence);
    JudgedConstructible(RawOf(p), classNames, minConfidence);
  }

  lemma JudgedConstructible(r: Raw, classNames: map<int, string>, minConfidence: real)
    requires Judge(r, classNames, minConfidence).Accepted?
    ensures var e := Judge(r, classNames, minConfidence).event;
            && Constructible(e)
            && !TooLarge(e.frameWidth as real) && !TooLarge(e.frameHeight as real)
            && e.classId in classNames && e.className == classNames[e.classId] && e.confidence >= minConfidence
  {
  }

  /** On one axis, a box that starts inside the frame becomes its intersection with the frame, and one
      that starts beyond it becomes the empty box on the frame's edge. */
  lemma ClampIsIntersection(start: real, size: real, frame: int, x: real)
    requires start >= 0.0 && size >= 0.0 && frame > 0
    ensures var (start', size') := Clamp(start, size, frame);
            && (start <= frame as real ==>
                  (start' <= x <= start' + size' <==> start <= x <= start + size && 0.0 <= x <= frame as real))
            && (start > frame as real ==> (start', size') == (frame as real, 0.0))
  {
  }

  /** An omitted frame size becomes the least positive integer that holds the box, which then is kept
      as reported. */
  lemma OmittedFrameIsLeast(start: real, size: real, candidate: int)
    requires start >= 0.0 && size >= 0.0 && FrameSize(None, start, size).Some?
    ensures var frame := FrameSize(None, start, size).value;
            && frame > 0 && start + size <= frame as real
            && (candidate > 0 && start + size <= candidate as real ==> frame <= candidate)
            && Clamp(start, size, frame) == (start, size)
  {
    CeilingIsLeast(start + size, candidate);
  }

  lemma CeilingIsLeast(r: real, n: int)
    ensures r <= Ceiling(r) as real < r + 1.0
    ensures r <= n as real ==> Ceiling(r) <= n
  {
    if r <= n as real {
      assert (Ceiling(r) - 1) as real < n as real;
    }
  }

  /** The event's own fields, as a flat message with its frame. */
  function AsPayload(e: Event): Payload {
    map[ClassId := JInt(e.classId), SourceId := JInt(e.sourceId), FrameNumber := JInt(e.frameNumber),
        FrameWidth := JInt(e.frameWidth), FrameHeight := JInt(e.frameHeight), Confidence := JFloat(Finite(e.confidence)),
        BboxLeft := JFloat(Finite(e.left)), BboxTop := JFloat(Finite(e.top)),
        BboxWidth := JFloat(Finite(e.width)), BboxHeight := JFloat(Finite(e.height))]
  }

  /** Validating an accepted event again changes nothing. */
  lemma RevalidationKeeps(p: Payload, classNames: map<int, string>, minConfidence: real)
    requires Validation(p, classNames, minConfidence).Accepted?
    ensures var e := Validation(p, classNames, minConfidence).event;
            Validation(AsPayload(e), classNames, minConfidence) == Accepted(e)
  {
    var e := Validation(p, classNames, minConfidence).event;
    AcceptedIsReadable(p, classNames, minConfidence);
    JudgedConstructible(RawOf(p), classNames, minConfidence);
    AsPayloadReadable(e);
    ReadableIff(AsPayload(e));
    RejudgeKeeps(e, classNames, minConfidence);
  }

  function RawOfEvent(e: Event): Raw {
    Raw(e.classId, e.sourceId, e.frameNumber, Some(e.frameWidth), Some(e.frameHeight),
        e.confidence, e.left, e.top, e.width, e.height)
  }

  lemma RejudgeKeeps(e: Event, classNames: map<int, string>, minConfidence: real)
    requires Constructible(e) && !TooLarge(e.frameWidth as real) && !TooLarge(e.frameHeight as real)
    requires e.classId in classNames && e.className == classNames[e.classId] && e.confidence >= minConfidence
    ensures Judge(RawOfEvent(e), classNames, minConfidence) == Accepted(e)
  {
  }

  lemma AsPayloadReadable(e: Event)
    ensures Readable(AsPayload(e))
    ensures RawOf(AsPayload(e)) == RawOfEvent(e)
  {
  }

  // ---- When the validator raises ---------------------------------------------------------------

  /** An integer that no float comes near. */
  predicate HugeInteger(p: Payload, f: Name) {
    f in p && p[f].JInt? && (p[f].n >= FloatLimit() || p[f].n <= -FloatLimit())
  }

  /** A number the reader can turn into a finite float. */
  predicate UsableNumber(p: Payload, f: Name) {
    f in p && ((p[f].JInt? && -FloatLimit() < p[f].n < FloatLimit()) || (p[f].JFloat? && p[f].f.Finite?))
  }

  /** The integer fields are fine, and the first number that is not is a huge integer. */
  ghost predicate RaisesInReading(p: Payload) {
    && (forall f :: f in REQUIRED_INTS ==> f in p && p[f].JInt?)
    && (forall f :: f in OPTIONAL_INTS && f in p ==> p[f].JInt?)
    && exists i :: 0 <= i < |REQUIRED_FLOATS| && HugeFirst(p, i)
  }

  predicate HugeFirst(p: Payload, i: nat)
    requires i < |REQUIRED_FLOATS|
  {
    HugeInteger(p, REQUIRED_FLOATS[i]) && forall j :: 0 <= j < i ==> UsableNumber(p, REQUIRED_FLOATS[j])
  }

  predicate ObeysRules(r: Raw, classNames: map<int, string>, minConfidence: real) {
    && r.sourceId >= 0 && r.frameNumber >= 0
    && (r.frameWidth.Some? ==> r.frameWidth.value > 0) && (r.frameHeight.Some? ==> r.frameHeight.value > 0)
    && 0.0 <= r.confidence <= 1.0 && minConfidence <= r.confidence
    && r.left >= 0.0 && r.top >= 0.0 && r.width >= 0.0 && r.height >= 0.0
    && r.classId in classNames
  }

  /** The side of the frame that is given, or the least one that holds the box, is beyond the range. */
  predicate SideTooLarge(given: Option<int>, start: real, size: real) {
    match given
    case Some(side) => side >= FloatLimit()
    case None => start + size > (FloatLimit() - 1) as real
  }

  /** Exactly which messages raise: those whose first unusable number is an integer beyond the float range,
      and those that obey every rule but have, or need, a frame side beyond it. */
  lemma RaisesIff(p: Payload, classNames: map<int, string>, minConfidence: real)
    ensures Validation(p, classNames, minConfidence) == Overflows <==>
              if Readable(p) then
                var r := RawOf(p);
                && ObeysRules(r, classNames, minConfidence)
                && (SideTooLarge(r.frameWidth, r.left, r.width) || SideTooLarge(r.frameHeight, r.top, r.height))
              else
                RaisesInReading(p)
  {
    ReadableIff(p);
    if Readable(p) {
      var r := RawOf(p);
      RulesIff(r, classNames, minConfidence);
      if ObeysRules(r, classNames, minConfidence) {
        SideIff(r.frameWidth, r.left, r.width);
        SideIff(r.frameHeight, r.top, r.height);
      }
    } else {
      UnreadableRaisesIff(p);
    }
  }

  lemma UnreadableRaisesIff(p: Payload)
    ensures ReadingProblem(p) == Some(Overflows) <==> RaisesInReading(p)
  {
    NoProblemIff(REQUIRED_INTS, f => IntProblem(p, f));
    NoProblemIff(OPTIONAL_INTS, f => OptionalProblem(p, f));
    FirstNotOverflow(REQUIRED_INTS, f => IntProblem(p, f));
    FirstNotOverflow(OPTIONAL_INTS, f => OptionalProblem(p, f));
    var problem := f => FloatProblem(p, f);
    FirstIsIff(REQUIRED_FLOATS, problem, Overflows);
    NumbersIff(p, problem);
    if i :| FirstAt(REQUIRED_FLOATS, problem, Overflows, i) {
      assert HugeFirst(p, i);
    }
  }

  lemma RulesIff(r: Raw, classNames: map<int, string>, minConfidence: real)
    ensures RuleBroken(r, classNames, minConfidence).None? <==> ObeysRules(r, classNames, minConfidence)
    ensures RuleBroken(r, classNames, minConfidence) != Some(Overflows)
  {
  }

  lemma SideIff(given: Option<int>, start: real, size: real)
    requires start >= 0.0 && size >= 0.0 && (given.Some? ==> given.value > 0)
    ensures FrameSize(given, start, size).None? <==> SideTooLarge(given, start, size)
  {
    CeilingIsLeast(start + size, FloatLimit() - 1);
  }

  /** The first problem is this one exactly when some field has it and none before has any. */
  lemma {:induction false} FirstIsIff(fields: seq<Name>, problem: Name -> Option<Outcome>, o: Outcome)
    ensures FirstProblem(fields, problem) == Some(o) <==> exists i :: FirstAt(fields, problem, o, i)
  {
    if fields != [] {
      var rest := fields[1..];
      FirstIsIff(rest, problem, o);
      if problem(fields[0]).Some? {
        assert FirstAt(fields, problem, o, 0) <==> problem(fields[0]) == Some(o);
        assert forall i :: FirstAt(fields, problem, o, i) ==> i == 0;
      } else {
        if i :| FirstAt(rest, problem, o, i) {
          assert forall j :: 0 <= j < i + 1 ==> fields[j] == if j == 0 then fields[0] else rest[j - 1];
          assert FirstAt(fields, problem, o, i + 1);
        }
        if i :| FirstAt(fields, problem, o, i) {
          assert i > 0 && forall j :: 0 <= j < i - 1 ==> rest[j] == fields[j + 1];
          assert FirstAt(rest, problem, o, i - 1);
        }
      }
    }
  }

  ghost predicate FirstAt(fields: seq<Name>, problem: Name -> Option<Outcome>, o: Outcome, i: int) {
    0 <= i < |fields| && problem(fields[i]) == Some(o) && forall j :: 0 <= j < i ==> problem(fields[j]).None?
  }

  lemma NumbersIff(p: Payload, problem: Name -> Option<Outcome>)
    requires forall f :: problem(f) == FloatProblem(p, f)
    ensures forall i: nat :: i < |REQUIRED_FLOATS| ==> (HugeFirst(p, i) <==> FirstAt(REQUIRED_FLOATS, problem, Overflows, i))
  {
    forall f: Name
      ensures HugeInteger(p, f) <==> FloatProblem(p, f) == Some(Overflows)
      ensures UsableNumber(p, f) <==> FloatProblem(p, f).None?
    {
    }
  }

  lemma {:induction false} FirstNotOverflow(fields: seq<Name>, problem: Name -> Option<Outcome>)
    requires forall f :: problem(f) != Some(Overflows)
    ensures FirstProblem(fields, problem) != Some(Overflows)
  {
    if fields != [] {
      FirstNotOverflow(fields[1..], problem);
    }
  }

  /** A message that is well-formed in every respect but carries a huge integer confidence raises. */
  lemma HugeIntegerRaises(classNames: map<int, string>, minConfidence: real) returns (p: Payload)
    ensures p == map[ClassId := JInt(0), SourceId := JInt(0), FrameNumber := JInt(0), Confidence := JInt(FloatLimit()),
                     BboxLeft := JInt(0), BboxTop := JInt(0), BboxWidth := JInt(1), BboxHeight := JInt(1)]
    ensures Validation(p, classNames, minConfidence) == Overflows
  {
    p := map[ClassId := JInt(0), SourceId := JInt(0), FrameNumber := JInt(0), Confidence := JInt(FloatLimit()),
             BboxLeft := JInt(0), BboxTop := JInt(0), BboxWidth := JInt(1), BboxHeight := JInt(1)];
    assert FloatProblem(p, Confidence) == Some(Overflows);
    ProblemAt(REQUIRED_FLOATS, f => FloatProblem(p, f), 0);
    NoProblemIff(REQUIRED_INTS, f => IntProblem(p, f));
    NoProblemIff(OPTIONAL_INTS, f => OptionalProblem(p, f));
  }

  // ---- Version 2 messages ----------------------------------------------------------------------

  function BoxOf(p: Payload): Json
    ensures BoxOf(p).JObject?
  {
    if BoundingBox in p && p[BoundingBox].JObject? then p[BoundingBox] else JObject(map[])
  }

  function Renamed(p: Payload, camel: Name, flat: Name): Option<Json> {
    if camel in p then Some(p[camel]) else if flat in p then Some(p[flat]) else None
  }

  function Lifted(p: Payload, nested: string, flat: Name): Option<Json> {
    var v := Field(BoxOf(p), nested);
    if v != JNull then Some(v) else if flat in p then Some(p[flat]) else None
  }

  const BOX_NAMES: map<Name, string> := map[BboxLeft := "left", BboxTop := "top", BboxWidth := "width", BboxHeight := "height"]

  /** The value of a field after normalisation. */
  function NormalisedAt(p: Payload, f: Name): Option<Json> {
    match f
    case ClassId => Renamed(p, CamelClassId, f)
    case SourceId => Renamed(p, CamelSourceId, f)
    case FrameNumber => Renamed(p, CamelFrameNumber, f)
    case _ => if f in BOX_NAMES then Lifted(p, BOX_NAMES[f], f) else if f in p then Some(p[f]) else None
  }

  ghost predicate IsNormalised(q: Payload, p: Payload) {
    forall f :: (f in q <==> NormalisedAt(p, f).Some?) && (f in q ==> NormalisedAt(p, f) == Some(q[f]))
  }

  /** Copies the message and writes the flat names over it, first the renamed ones, then the box. */
  method NormalizeV2Payload(p: Payload) returns (q: Payload)
    ensures IsNormalised(q, p)
  {
    q := p;
    if CamelClassId in p {
      q := q[ClassId := p[CamelClassId]];
    }
    if CamelSourceId in p {
      q := q[SourceId := p[CamelSourceId]];
    }
    if CamelFrameNumber in p {
      q := q[FrameNumber := p[CamelFrameNumber]];
    }
    q := LiftBox(p, q);
  }

  method LiftBox(p: Payload, renamed: Payload) returns (q: Payload)
    ensures q.Keys == renamed.Keys + (set f | f in BOX_NAMES && Field(BoxOf(p), BOX_NAMES[f]) != JNull)
    ensures forall f :: f in q ==>
              q[f] == if f in BOX_NAMES && Field(BoxOf(p), BOX_NAMES[f]) != JNull then Field(BoxOf(p), BOX_NAMES[f]) else renamed[f]
  {
    q := renamed;
    var box, todo := BoxOf(p), BOX_NAMES.Keys;
    while todo != {}
      invariant todo <= BOX_NAMES.Keys
      invariant q.Keys == renamed.Keys + (set f | f in BOX_NAMES && f !in todo && Field(box, BOX_NAMES[f]) != JNull)
      invariant forall f :: f in q ==>
                  q[f] == if f in BOX_NAMES && f !in todo && Field(box, BOX_NAMES[f]) != JNull then Field(box, BOX_NAMES[f]) else renamed[f]
      decreases todo
    {
      var f :| f in todo;
      todo := todo - {f};
      var value := Field(box, BOX_NAMES[f]);
      if value != JNull {
        q := q[f := value];
      }
    }
  }

  /** What a Bridge speaking version 2 sends for a flat message: camel-case names and a nested box. */
  ghost predicate IsV2Of(v: Payload, p: Payload) {
    && ClassId !in v && SourceId !in v && FrameNumber !in v
    && (forall f :: f in BOX_NAMES ==> f !in v)
    && SameField(v, CamelClassId, p, ClassId)
    && SameField(v, CamelSourceId, p, SourceId)
    && SameField(v, CamelFrameNumber, p, FrameNumber)
    && BoundingBox in v && v[BoundingBox].JObject?
    && (forall f :: f in BOX_NAMES ==> SameNested(v[BoundingBox], BOX_NAMES[f], p, f))
    && SameField(v, FrameWidth, p, FrameWidth) && SameField(v, FrameHeight, p, FrameHeight)
    && SameField(v, Confidence, p, Confidence)
  }

  predicate SameField(v: Payload, f: Name, p: Payload, g: Name) {
    (f in v <==> g in p) && (f in v ==> v[f] == p[g])
  }

  predicate SameNested(box: Json, nested: string, p: Payload, g: Name)
    requires box.JObject?
  {
    Field(box, nested) == if g in p then p[g] else JNull
  }

  /** A field as the validator sees it: an absent one and a null one are the same to a required field. */
  predicate Alike(q: Payload, p: Payload, f: Name) {
    (if f in q then q[f] else JNull) == (if f in p then p[f] else JNull)
  }

  /** A version 2 message is judged exactly as its flat form. */
  lemma V2AgreesWithFlat(v: Payload, q: Payload, p: Payload, classNames: map<int, string>, minConfidence: real)
    requires IsV2Of(v, p) && IsNormalised(q, v)
    ensures Validation(q, classNames, minConfidence) == Validation(p, classNames, minConfidence)
  {
    assert Alike(q, p, ClassId) && Alike(q, p, SourceId) && Alike(q, p, FrameNumber);
    assert SameField(q, FrameWidth, p, FrameWidth) && SameField(q, FrameHeight, p, FrameHeight);
    assert Alike(q, p, Confidence);
    forall f | f in BOX_NAMES
      ensures Alike(q, p, f)
    {
      assert SameNested(v[BoundingBox], BOX_NAMES[f], p, f);
    }
    assert BboxLeft in BOX_NAMES && BboxTop in BOX_NAMES && BboxWidth in BOX_NAMES && BboxHeight in BOX_NAMES;
    AlikeJudgedAlike(q, p, classNames, minConfidence);
  }

  predicate AllAlike(q: Payload, p: Payload) {
    && Alike(q, p, ClassId) && Alike(q, p, SourceId) && Alike(q, p, FrameNumber)
    && SameField(q, FrameWidth, p, FrameWidth) && SameField(q, FrameHeight, p, FrameHeight)
    && Alike(q, p, Confidence) && Alike(q, p, BboxLeft) && Alike(q, p, BboxTop)
    && Alike(q, p, BboxWidth) && Alike(q, p, BboxHeight)
  }

  lemma AlikeJudgedAlike(q: Payload, p: Payload, classNames: map<int, string>, minConfidence: real)
    requires AllAlike(q, p)
    ensures Validation(q, classNames, minConfidence) == Validation(p, classNames, minConfidence)
  {
    SameProblems(q, p);
    ReadableIff(q);
    ReadableIff(p);
    if ReadingProblem(q).None? {
      SameRaw(q, p);
    }
  }

  lemma SameProblems(q: Payload, p: Payload)
    requires AllAlike(q, p)
    ensures ReadingProblem(q) == ReadingProblem(p)
  {
    SameFirst(REQUIRED_INTS, f => IntProblem(q, f), f => IntProblem(p, f));
    SameFirst(OPTIONAL_INTS, f => OptionalProblem(q, f), f => OptionalProblem(p, f));
    SameFirst(REQUIRED_FLOATS, f => FloatProblem(q, f), f => FloatProblem(p, f));
  }

  lemma SameRaw(q: Payload, p: Payload)
    requires AllAlike(q, p) && Readable(q) && Readable(p)
    ensures RawOf(q) == RawOf(p)
  {
    assert forall i :: 0 <= i < 3 ==> IntProblem(q, REQUIRED_INTS[i]).None?;
    assert forall i :: 0 <= i < 2 ==> OptionalProblem(q, OPTIONAL_INTS[i]).None?;
    assert forall i :: 0 <= i < 5 ==> FloatProblem(q, REQUIRED_FLOATS[i]).None?;
    assert IntAt(q, REQUIRED_INTS[0]) == IntAt(p, REQUIRED_INTS[0]);
    assert IntAt(q, REQUIRED_INTS[1]) == IntAt(p, REQUIRED_INTS[1]);
    assert IntAt(q, REQUIRED_INTS[2]) == IntAt(p, REQUIRED_INTS[2]);
    assert OptionalAt(q, OPTIONAL_INTS[0]) == OptionalAt(p, OPTIONAL_INTS[0]);
    assert OptionalAt(q, OPTIONAL_INTS[1]) == OptionalAt(p, OPTIONAL_INTS[1]);
    assert FloatAt(q, REQUIRED_FLOATS[0]) == FloatAt(p, REQUIRED_FLOATS[0]);
    assert FloatAt(q, REQUIRED_FLOATS[1]) == FloatAt(p, REQUIRED_FLOATS[1]);
    assert FloatAt(q, REQUIRED_FLOATS[2]) == FloatAt(p, REQUIRED_FLOATS[2]);
    assert FloatAt(q, REQUIRED_FLOATS[3]) == FloatAt(p, REQUIRED_FLOATS[3]);
    assert FloatAt(q, REQUIRED_FLOATS[4]) == FloatAt(p, REQUIRED_FLOATS[4]);
  }

  lemma {:induction false} SameFirst(fields: seq<Name>, a: Name -> Option<Outcome>, b: Name -> Option<Outcome>)
    requires forall f :: f in fields ==> a(f) == b(f)
    ensures FirstProblem(fields, a) == FirstProblem(fields, b)
  {
    if fields != [] {
      SameFirst(fields[1..], a, b);
    }
  }
}
