/**
 From the message to the stored row: a queued message is brought to its flat form, its camera is resolved,
 and what the validator says of it decides the item that Ingest processes.  Identifiers of new events and
 the storage outcome come with the message.
 */
module Pipeline {
  import opened Common
  import opened JsonValues
  import opened DetectionValidation
  import Ingest

  /** What the handler was set up with; with a resolver the camera is the one of the reported source. */
  datatype Setting = Setting(
    deviceId: string, cameraId: string, resolver: Option<int -> Option<string>>, classNames: map<int, string>, minConfidence: real)

  /** `open` says whether the connection can still be answered. */
  datatype Message = Message(payload: Payload, open: bool, event: nat, storageFails: bool, decideAt: real, commitAt: real)

  function VersionOf(p: Payload): Json {
    if Other("schema_version") in p then p[Other("schema_version")]
    else if Other("schemaVersion") in p then p[Other("schemaVersion")]
    else JNull
  }

  /** Version 2; an equal float compares equal. */
  predicate IsVersion2(p: Payload) {
    VersionOf(p) == JInt(2) || VersionOf(p) == JFloat(Finite(2.0))
  }

  const FLAT_NAMES: set<Name> := {ClassId, SourceId, FrameNumber, BboxLeft, BboxTop, BboxWidth, BboxHeight}

  function Flat(p: Payload): Payload {
    map f | f in p.Keys + FLAT_NAMES && NormalisedAt(p, f).Some? :: NormalisedAt(p, f).value
  }

  function FormOf(p: Payload): Payload {
    if IsVersion2(p) then Flat(p) else p
  }

  /** Only a version 2 message with a text id on an open connection is answered. */
  function AckTo(m: Message): Option<string> {
    if m.open && IsVersion2(m.payload) && Other("messageId") in m.payload && m.payload[Other("messageId")].JString?
    then Some(m.payload[Other("messageId")].s) else None
  }

  function CameraOf(p: Payload, s: Setting): Option<string> {
    match s.resolver
    case None => Some(s.cameraId)
    case Some(resolve) => if SourceId in p && p[SourceId].JInt? then resolve(p[SourceId].n) else None
  }

  const UNRESOLVED := "unresolved_camera_source"

  function CodeOf(r: Reason): string {
    match r
    case MalformedField => "malformed_field"
    case NonFiniteValue => "non_finite_value"
    case NegativeValue => "negative_value"
    case UnknownClass => "unknown_class"
    case ConfidenceOutOfRange => "confidence_out_of_range"
    case ConfidenceBelowThreshold => "confidence_below_threshold"
  }

  function Judged(p: Payload, event: nat, s: Setting): Ingest.Verdict {
    match CameraOf(p, s)
    case None => Ingest.Invalid(UNRESOLVED)
    case Some(camera) =>
      match Validation(p, s.classNames, s.minConfidence)
      case Overflows => Ingest.Raises
      case Rejected(reason, _) => Ingest.Invalid(CodeOf(reason))
      case Accepted(e) => Ingest.Valid(event, Ingest.Key(s.deviceId, camera, e.className))
  }

  function ItemOf(m: Message, s: Setting): Ingest.Item {
    Ingest.Item(AckTo(m), Judged(FormOf(m.payload), m.event, s), m.storageFails, m.decideAt, m.commitAt)
  }

  function Items(messages: seq<Message>, s: Setting): (items: seq<Ingest.Item>)
    ensures |items| == |messages| && forall i :: 0 <= i < |messages| ==> items[i] == ItemOf(messages[i], s)
  {
    if messages == [] then [] else [ItemOf(messages[0], s)] + Items(messages[1..], s)
  }

  lemma FlatIsNormalised(p: Payload, q: Payload)
    ensures IsNormalised(Flat(p), p)
    ensures IsNormalised(q, p) ==> q == Flat(p)
  {
    forall f
      ensures f in Flat(p) <==> NormalisedAt(p, f).Some?
    {
    }
  }

  /** The whole handling of one message: form, camera, validation, and then the consumer. */
  method ProcessMessage(handler: Ingest.DetectionIngestHandler, m: Message, s: Setting)
    modifies handler, handler.tracker
    ensures handler.Current() == Ingest.Step(old(handler.Current()), ItemOf(m, s), handler.tracker.cooldown)
  {
    var form := m.payload;
    if IsVersion2(m.payload) {
      form := NormalizeV2Payload(m.payload);
      FlatIsNormalised(m.payload, form);
    }
    var camera := CameraOf(form, s);
    var verdict := Ingest.Invalid(UNRESOLVED);
    if camera.Some? {
      var outcome := ValidateDetection(form, s.classNames, s.minConfidence);
      verdict := match outcome
        case Overflows => Ingest.Raises
        case Rejected(reason, _) => Ingest.Invalid(CodeOf(reason))
        case Accepted(e) => Ingest.Valid(m.event, Ingest.Key(s.deviceId, camera.value, e.className));
    }
    handler.Process(Ingest.Item(AckTo(m), verdict, m.storageFails, m.decideAt, m.commitAt));
  }

  // ---- What is stored --------------------------------------------------------------------------

  /** The message is one that the validator accepts, for this row. */
  ghost predicate Justifies(m: Message, s: Setting, event: nat, key: Ingest.Key) {
    var p := FormOf(m.payload);
    && m.event == event && CameraOf(p, s) == Some(key.cameraId) && key.deviceId == s.deviceId
    && Validation(p, s.classNames, s.minConfidence).Accepted?
    && var e := Validation(p, s.classNames, s.minConfidence).event;
       e.className == key.className && e.classId in s.classNames && e.className == s.classNames[e.classId]
  }

  lemma JudgedValid(m: Message, s: Setting, event: nat, key: Ingest.Key)
    requires ItemOf(m, s).verdict == Ingest.Valid(event, key)
    ensures Justifies(m, s, event, key)
  {
    AcceptedIsValid(FormOf(m.payload), m.event, s);
    AcceptedClass(FormOf(m.payload), s.classNames, s.minConfidence);
  }

  lemma AcceptedIsValid(p: Payload, event: nat, s: Setting)
    requires Judged(p, event, s).Valid?
    ensures CameraOf(p, s).Some? && Validation(p, s.classNames, s.minConfidence).Accepted?
    ensures Judged(p, event, s) == Ingest.Valid(event, Ingest.Key(s.deviceId, CameraOf(p, s).value,
                                                                  Validation(p, s.classNames, s.minConfidence).event.className))
  {
  }

  lemma {:induction false} RowsFrom(st: Ingest.State, items: seq<Ingest.Item>, cooldown: real, event: nat)
    requires event in Ingest.Run(st, items, cooldown).rows && event !in st.rows
    ensures exists i :: 0 <= i < |items| && items[i].verdict == Ingest.Valid(event, Ingest.Run(st, items, cooldown).rows[event])
    decreases |items|
  {
    var next := Ingest.Step(st, items[0], cooldown);
    if event in next.rows {
      RowStays(next, items[1..], cooldown, event);
    } else {
      RowsFrom(next, items[1..], cooldown, event);
      var i :| 0 <= i < |items[1..]| && items[1..][i].verdict == Ingest.Valid(event, Ingest.Run(next, items[1..], cooldown).rows[event]);
      assert items[i + 1] == items[1..][i];
    }
  }

  lemma {:induction false} RowStays(st: Ingest.State, items: seq<Ingest.Item>, cooldown: real, event: nat)
    requires event in st.rows
    ensures event in Ingest.Run(st, items, cooldown).rows && Ingest.Run(st, items, cooldown).rows[event] == st.rows[event]
    decreases |items|
  {
    if items != [] {
      RowStays(Ingest.Step(st, items[0], cooldown), items[1..], cooldown, event);
    }
  }

  /** Every row ever stored comes from a received message that the validator accepts, under this Device, the
      camera of the message's source and the class its number stands for. */
  lemma StoredIsAccepted(messages: seq<Message>, s: Setting, cooldown: real, event: nat)
    requires event in Ingest.Run(Ingest.EMPTY, Items(messages, s), cooldown).rows
    ensures var key := Ingest.Run(Ingest.EMPTY, Items(messages, s), cooldown).rows[event];
            exists i :: 0 <= i < |messages| && Justifies(messages[i], s, event, key)
  {
    var items := Items(messages, s);
    RowsFrom(Ingest.EMPTY, items, cooldown, event);
    var key := Ingest.Run(Ingest.EMPTY, items, cooldown).rows[event];
    var i :| 0 <= i < |items| && items[i].verdict == Ingest.Valid(event, key);
    JudgedValid(messages[i], s, event, key);
  }

  // ---- Both versions of the wire ---------------------------------------------------------------

  /** The second message is the flat form of the first. */
  ghost predicate SameDetection(v: Message, p: Message) {
    && IsVersion2(v.payload) && !IsVersion2(p.payload) && IsV2Of(v.payload, p.payload)
    && v.(payload := p.payload, open := p.open) == p
  }

  lemma FormsAgree(v: Message, p: Message, s: Setting)
    requires SameDetection(v, p)
    ensures ItemOf(v, s).verdict == ItemOf(p, s).verdict
  {
    FlatIsNormalised(v.payload, Flat(v.payload));
    V2AgreesWithFlat(v.payload, Flat(v.payload), p.payload, s.classNames, s.minConfidence);
    assert NormalisedAt(v.payload, SourceId) == if SourceId in p.payload then Some(p.payload[SourceId]) else None;
    assert SourceId in Flat(v.payload) <==> SourceId in p.payload;
  }

  /** Over any run, a Bridge that speaks version 2 gets the same rows stored and the same cooldowns as one
      that sends the flat forms. */
  lemma FormsStoreAlike(vs: seq<Message>, ps: seq<Message>, s: Setting, cooldown: real)
    requires |vs| == |ps| && forall i :: 0 <= i < |vs| ==> SameDetection(vs[i], ps[i])
    ensures var (a, b) := (Ingest.Run(Ingest.EMPTY, Items(vs, s), cooldown), Ingest.Run(Ingest.EMPTY, Items(ps, s), cooldown));
            a.rows == b.rows && a.last == b.last && a.history == b.history
  {
    forall i | 0 <= i < |vs|
      ensures SameButAck(Items(vs, s)[i], Items(ps, s)[i])
    {
      FormsAgree(vs[i], ps[i], s);
    }
    RunsAlike(Ingest.EMPTY, Ingest.EMPTY, Items(vs, s), Items(ps, s), cooldown);
  }

  predicate SameButAck(a: Ingest.Item, b: Ingest.Item) {
    a.(ackTo := b.ackTo) == b
  }

  predicate StoredAlike(a: Ingest.State, b: Ingest.State) {
    a.rows == b.rows && a.last == b.last && a.history == b.history
  }

  lemma {:induction false} RunsAlike(a: Ingest.State, b: Ingest.State, xs: seq<Ingest.Item>, ys: seq<Ingest.Item>, cooldown: real)
    requires StoredAlike(a, b) && |xs| == |ys| && forall i :: 0 <= i < |xs| ==> SameButAck(xs[i], ys[i])
    ensures StoredAlike(Ingest.Run(a, xs, cooldown), Ingest.Run(b, ys, cooldown))
    decreases |xs|
  {
    if xs != [] {
      assert SameButAck(xs[0], ys[0]);
      RunsAlike(Ingest.Step(a, xs[0], cooldown), Ingest.Step(b, ys[0], cooldown), xs[1..], ys[1..], cooldown);
    }
  }
}
