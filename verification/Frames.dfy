/**
 The framed byte stream from the DeepStream Bridge: one kind byte, a four-byte big-endian length, then
 the body.  A connection is read as the whole sequence of bytes that arrives before it closes.  The
 JSON reader and the UTF-8 codec are parameters.
 */
module Frames {
  import opened Common
  import opened JsonValues

  const HEADER_BYTES := 5
  const KIND_DETECTION: byte := 1
  const KIND_SNAPSHOT: byte := 2
  const MAX_FRAME_BYTES := 65536
  const MAX_SNAPSHOT_FRAME_BYTES := 5 * 1024 * 1024 + 4096
  const ID_PREFIX_BYTES := 2

  /** What the handler cannot decide from the bytes alone: whether a detection body is an acceptable
      message, and what text a byte string spells. */
  datatype Codec = Codec(message: Bytes -> Option<Json>, decode: Bytes -> Option<string>, encode: string -> Bytes)

  ghost predicate FaithfulText(c: Codec) {
    forall s :: c.decode(c.encode(s)) == Some(s)
  }

  datatype Item = Detection(payload: Json) | Snapshot(eventId: string, jpeg: Bytes)

  datatype Violation = ZeroLength | Oversized | IncompletePayload | MalformedSnapshot | UnexpectedKind | BadMessage

  datatype End = CleanEof | Disconnected | Rejected(reason: Violation)

  // ---- Encoding --------------------------------------------------------------------------------

  function BigEndian(v: nat, width: nat): (b: Bytes)
    ensures |b| == width
    decreases width
  {
    if width == 0 then [] else BigEndian(v / 256, width - 1) + [v % 256]
  }

  function FromBigEndian(b: Bytes): nat {
    if b == [] then 0 else FromBigEndian(b[..|b| - 1]) * 256 + b[|b| - 1] as int
  }

  function Power256(width: nat): nat {
    if width == 0 then 1 else 256 * Power256(width - 1)
  }

  /** A length that does not fit its four bytes cannot be encoded. */
  function EncodeFrame(payload: Bytes, kind: byte): Option<Bytes> {
    if |payload| >= 0x1_0000_0000 then None else Some([kind] + BigEndian(|payload|, 4) + payload)
  }

  function SnapshotBody(id: Bytes, jpeg: Bytes): Bytes {
    BigEndian(|id|, ID_PREFIX_BYTES) + id + jpeg
  }

  function EncodeSnapshot(eventId: string, jpeg: Bytes, c: Codec): Option<Bytes> {
    var id := c.encode(eventId);
    if |id| >= 0x1_0000 then None else EncodeFrame(SnapshotBody(id, jpeg), KIND_SNAPSHOT)
  }

  // ---- Decoding --------------------------------------------------------------------------------

  /** The language's slice: bounds beyond the end are clamped. */
  function Slice(b: Bytes, from: nat, end: nat): Bytes
    requires from <= end
  {
    b[Min(from, |b|)..Min(end, |b|)]
  }

  function SplitSnapshot(body: Bytes): (Bytes, Bytes) {
    var length := FromBigEndian(Slice(body, 0, ID_PREFIX_BYTES));
    var end := ID_PREFIX_BYTES + length;
    (Slice(body, ID_PREFIX_BYTES, end), Slice(body, end, end + |body|))
  }

  /** What one complete frame body means. */
  function ReadBody(kind: byte, body: Bytes, c: Codec): Result<Item, Violation> {
    if kind == KIND_SNAPSHOT then
      var (id, jpeg) := SplitSnapshot(body);
      (match c.decode(id)
       case None => Err(MalformedSnapshot)
       case Some(eventId) => Ok(Snapshot(eventId, jpeg)))
    else if kind != KIND_DETECTION then Err(UnexpectedKind)
    else if |body| > MAX_FRAME_BYTES then Err(Oversized)
    else
      match c.message(body)
      case None => Err(BadMessage)
      case Some(payload) => Ok(Detection(payload))
  }

  /** The next frame of a stream: nothing more, a reason to stop, or an item and what follows it. */
  datatype Next = Stop(end: End) | Got(item: Item, used: nat)

  function NextFrame(s: Bytes, c: Codec): (r: Next)
    ensures r.Got? ==> HEADER_BYTES < r.used <= |s|
  {
    if s == [] then Stop(CleanEof)
    else if |s| < HEADER_BYTES then Stop(Disconnected)
    else
      var length := FromBigEndian(s[1..HEADER_BYTES]);
      if length == 0 then Stop(Rejected(ZeroLength))
      else if length > MAX_SNAPSHOT_FRAME_BYTES then Stop(Rejected(Oversized))
      else if |s| < HEADER_BYTES + length then Stop(Rejected(IncompletePayload))
      else
        match ReadBody(s[0], s[HEADER_BYTES..HEADER_BYTES + length], c)
        case Err(v) => Stop(Rejected(v))
        case Ok(item) => Got(item, HEADER_BYTES + length)
  }

  function ReadStream(s: Bytes, c: Codec): (seq<Item>, End)
    decreases |s|
  {
    match NextFrame(s, c)
    case Stop(end) => ([], end)
    case Got(item, used) =>
      var (items, end) := ReadStream(s[used..], c);
      ([item] + items, end)
  }

  /** The connection loop: each item is enqueued as soon as its frame is complete. */
  method HandleConnection(stream: Bytes, c: Codec) returns (enqueued: seq<Item>, end: End)
    ensures (enqueued, end) == ReadStream(stream, c)
  {
    enqueued := [];
    var rest := stream;
    assert [] + ReadStream(stream, c).0 == ReadStream(stream, c).0;
    while true
      invariant ReadStream(stream, c) == (enqueued + ReadStream(rest, c).0, ReadStream(rest, c).1)
      decreases |rest|
    {
      match NextFrame(rest, c) {
        case Stop(why) =>
          assert enqueued + [] == enqueued;
          return enqueued, why;
        case Got(item, used) =>
          assert enqueued + ([item] + ReadStream(rest[used..], c).0) == enqueued + [item] + ReadStream(rest[used..], c).0;
          enqueued, rest := enqueued + [item], rest[used..];
      }
    }
  }

  // ---- Numbers ---------------------------------------------------------------------------------

  lemma {:induction false} BigEndianRead(v: nat, width: nat)
    requires v < Power256(width)
    ensures FromBigEndian(BigEndian(v, width)) == v
    decreases width
  {
    if width > 0 {
      var b := BigEndian(v, width);
      BigEndianRead(v / 256, width - 1);
      assert b[..|b| - 1] == BigEndian(v / 256, width - 1);
    }
  }

  lemma Widths()
    ensures Power256(2) == 0x1_0000 && Power256(4) == 0x1_0000_0000
  {
    assert Power256(1) == 256 * Power256(0);
    assert Power256(2) == 256 * Power256(1);
    assert Power256(3) == 256 * Power256(2);
    assert Power256(4) == 256 * Power256(3);
  }

  // ---- Snapshot bodies -------------------------------------------------------------------------

  lemma SplitEncoded(id: Bytes, jpeg: Bytes)
    requires |id| < 0x1_0000
    ensures SplitSnapshot(SnapshotBody(id, jpeg)) == (id, jpeg)
  {
    var body := SnapshotBody(id, jpeg);
    Widths();
    BigEndianRead(|id|, ID_PREFIX_BYTES);
    assert Slice(body, 0, ID_PREFIX_BYTES) == BigEndian(|id|, ID_PREFIX_BYTES);
    var end := ID_PREFIX_BYTES + |id|;
    assert Slice(body, ID_PREFIX_BYTES, end) == id;
    assert Slice(body, end, end + |body|) == jpeg;
  }

  lemma {:induction false} FromBigEndianBound(b: Bytes)
    ensures FromBigEndian(b) < Power256(|b|)
    ensures BigEndian(FromBigEndian(b), |b|) == b
  {
    if b != [] {
      var front, last := b[..|b| - 1], b[|b| - 1];
      FromBigEndianBound(front);
      assert FromBigEndian(b) / 256 == FromBigEndian(front) && FromBigEndian(b) % 256 == last;
      assert b == front + [last];
    }
  }

  /** The bodies the split loses nothing of are exactly those long enough for their own id length;
      shorter ones are accepted with a truncated id and no image. */
  lemma SplitLosslessIff(body: Bytes)
    ensures (|SplitSnapshot(body).0| < 0x1_0000 && SnapshotBody(SplitSnapshot(body).0, SplitSnapshot(body).1) == body)
       <==> |body| >= ID_PREFIX_BYTES && |body| >= ID_PREFIX_BYTES + FromBigEndian(body[..ID_PREFIX_BYTES])
  {
    var (id, jpeg) := SplitSnapshot(body);
    if |body| >= ID_PREFIX_BYTES {
      var prefix := body[..ID_PREFIX_BYTES];
      var length := FromBigEndian(prefix);
      assert Slice(body, 0, ID_PREFIX_BYTES) == prefix;
      Widths();
      FromBigEndianBound(prefix);
      if |body| >= ID_PREFIX_BYTES + length {
        assert id == body[ID_PREFIX_BYTES..ID_PREFIX_BYTES + length] && jpeg == body[ID_PREFIX_BYTES + length..];
        assert body == prefix + id + jpeg;
      }
    }
  }

  // ---- Streams ---------------------------------------------------------------------------------

  /** A frame a well-behaved Bridge sends. */
  datatype Frame = DetectionFrame(body: Bytes) | SnapshotFrame(eventId: string, jpeg: Bytes)

  predicate Legal(f: Frame, c: Codec) {
    match f
    case DetectionFrame(body) => 0 < |body| <= MAX_FRAME_BYTES && c.message(body).Some?
    case SnapshotFrame(id, jpeg) =>
      |c.encode(id)| < 0x1_0000 && ID_PREFIX_BYTES + |c.encode(id)| + |jpeg| <= MAX_SNAPSHOT_FRAME_BYTES
  }

  function Encode(f: Frame, c: Codec): (b: Bytes)
    requires Legal(f, c)
  {
    match f
    case DetectionFrame(body) => EncodeFrame(body, KIND_DETECTION).value
    case SnapshotFrame(id, jpeg) => EncodeSnapshot(id, jpeg, c).value
  }

  function Meaning(f: Frame, c: Codec): Item
    requires Legal(f, c)
  {
    match f
    case DetectionFrame(body) => Detection(c.message(body).value)
    case SnapshotFrame(id, jpeg) => Snapshot(id, jpeg)
  }

  ghost predicate AllLegal(fs: seq<Frame>, c: Codec) {
    forall i :: 0 <= i < |fs| ==> Legal(fs[i], c)
  }

  ghost function Concatenate(fs: seq<Frame>, c: Codec): Bytes
    requires AllLegal(fs, c)
  {
    if fs == [] then [] else Encode(fs[0], c) + Concatenate(fs[1..], c)
  }

  ghost function Meanings(fs: seq<Frame>, c: Codec): (items: seq<Item>)
    requires AllLegal(fs, c)
    ensures |items| == |fs| && forall i :: 0 <= i < |fs| ==> items[i] == Meaning(fs[i], c)
  {
    if fs == [] then [] else [Meaning(fs[0], c)] + Meanings(fs[1..], c)
  }

  lemma FrameRead(payload: Bytes, kind: byte, rest: Bytes, c: Codec)
    requires 0 < |payload| <= MAX_SNAPSHOT_FRAME_BYTES && ReadBody(kind, payload, c).Ok?
    ensures var b := EncodeFrame(payload, kind).value;
            NextFrame(b + rest, c) == Got(ReadBody(kind, payload, c).value, |b|) && (b + rest)[|b|..] == rest
  {
    var b := EncodeFrame(payload, kind).value;
    var all := b + rest;
    Widths();
    BigEndianRead(|payload|, 4);
    assert all[0] == kind;
    assert all[1..HEADER_BYTES] == BigEndian(|payload|, 4);
    assert all[HEADER_BYTES..HEADER_BYTES + |payload|] == payload;
  }

  lemma LegalFrameRead(f: Frame, rest: Bytes, c: Codec)
    requires Legal(f, c) && FaithfulText(c)
    ensures var b := Encode(f, c);
            NextFrame(b + rest, c) == Got(Meaning(f, c), |b|) && (b + rest)[|b|..] == rest
  {
    match f
    case DetectionFrame(body) => FrameRead(body, KIND_DETECTION, rest, c);
    case SnapshotFrame(id, jpeg) =>
      SplitEncoded(c.encode(id), jpeg);
      FrameRead(SnapshotBody(c.encode(id), jpeg), KIND_SNAPSHOT, rest, c);
  }

  /** Legal frames are read as exactly themselves, and reading then goes on with what follows them. */
  lemma {:induction false} LegalFramesRead(fs: seq<Frame>, rest: Bytes, c: Codec)
    requires AllLegal(fs, c) && FaithfulText(c)
    ensures ReadStream(Concatenate(fs, c) + rest, c) == (Meanings(fs, c) + ReadStream(rest, c).0, ReadStream(rest, c).1)
    decreases |fs|
  {
    if fs == [] {
      assert Concatenate(fs, c) + rest == rest;
      assert Meanings(fs, c) + ReadStream(rest, c).0 == ReadStream(rest, c).0;
    } else {
      var after := Concatenate(fs[1..], c) + rest;
      Regrouped(Encode(fs[0], c), Concatenate(fs[1..], c), rest);
      LegalFrameRead(fs[0], after, c);
      ReadGot(Encode(fs[0], c) + after, c, Meaning(fs[0], c), after);
      LegalFramesRead(fs[1..], rest, c);
      Regrouped([Meaning(fs[0], c)], Meanings(fs[1..], c), ReadStream(rest, c).0);
    }
  }

  lemma Regrouped<T>(a: seq<T>, b: seq<T>, d: seq<T>)
    ensures (a + b) + d == a + (b + d)
  {
  }

  lemma ReadGot(s: Bytes, c: Codec, item: Item, rest: Bytes)
    requires var n := NextFrame(s, c); n.Got? && n.item == item && s[n.used..] == rest
    ensures ReadStream(s, c) == ([item] + ReadStream(rest, c).0, ReadStream(rest, c).1)
  {
  }

  /** The concatenation of legal frames yields exactly that list, then a clean end. */
  lemma StreamRoundTrip(fs: seq<Frame>, c: Codec)
    requires AllLegal(fs, c) && FaithfulText(c)
    ensures ReadStream(Concatenate(fs, c), c) == (Meanings(fs, c), CleanEof)
  {
    LegalFramesRead(fs, [], c);
    assert Concatenate(fs, c) + [] == Concatenate(fs, c);
    assert Meanings(fs, c) + [] == Meanings(fs, c);
  }

  lemma NextFrameStable(s: Bytes, more: Bytes, c: Codec)
    ensures NextFrame(s, c).Got? ==> NextFrame(s + more, c) == NextFrame(s, c)
    ensures Final(NextFrame(s, c)) ==> NextFrame(s + more, c) == NextFrame(s, c)
  {
    var all := s + more;
    if |s| >= HEADER_BYTES {
      assert all[0] == s[0] && all[1..HEADER_BYTES] == s[1..HEADER_BYTES];
      var length := FromBigEndian(s[1..HEADER_BYTES]);
      if |s| >= HEADER_BYTES + length {
        assert all[HEADER_BYTES..HEADER_BYTES + length] == s[HEADER_BYTES..HEADER_BYTES + length];
      }
    }
  }

  /** A stop that no further byte could have changed. */
  predicate Final(n: Next) {
    n.Stop? && n.end.Rejected? && n.end.reason != IncompletePayload
  }

  /** Cutting any stream anywhere yields a prefix of what the whole stream yields. */
  lemma {:induction false} CutYieldsPrefix(s: Bytes, more: Bytes, c: Codec)
    ensures ReadStream(s, c).0 <= ReadStream(s + more, c).0
    decreases |s|
  {
    NextFrameStable(s, more, c);
    match NextFrame(s, c) {
      case Stop(_) =>
      case Got(_, used) =>
        assert (s + more)[used..] == s[used..] + more;
        CutYieldsPrefix(s[used..], more, c);
    }
  }

  /** After a protocol violation nothing that still arrives is read or enqueued. */
  lemma {:induction false} NothingAfterViolation(s: Bytes, more: Bytes, c: Codec)
    requires ReadStream(s, c).1.Rejected? && ReadStream(s, c).1.reason != IncompletePayload
    ensures ReadStream(s + more, c) == ReadStream(s, c)
    decreases |s|
  {
    NextFrameStable(s, more, c);
    match NextFrame(s, c) {
      case Stop(_) =>
      case Got(_, used) =>
        assert (s + more)[used..] == s[used..] + more;
        NothingAfterViolation(s[used..], more, c);
    }
  }

  /** A cut list of legal frames yields a prefix of that list. */
  lemma CutFramesYieldPrefix(fs: seq<Frame>, k: nat, c: Codec)
    requires AllLegal(fs, c) && FaithfulText(c) && k <= |Concatenate(fs, c)|
    ensures ReadStream(Concatenate(fs, c)[..k], c).0 <= Meanings(fs, c)
  {
    var all := Concatenate(fs, c);
    assert all == all[..k] + all[k..];
    CutYieldsPrefix(all[..k], all[k..], c);
    StreamRoundTrip(fs, c);
  }

  // ---- The bounded queue behind it -------------------------------------------------------------

  datatype QueueOp = Put(item: Item) | Take

  datatype QueueState = QueueState(held: seq<Item>, taken: seq<Item>, dropped: nat)

  class IngestQueue {
    const capacity: nat
    var held: seq<Item>
    var droppedCount: nat
    ghost var taken: seq<Item>

    ghost function State(): QueueState
      reads this
    {
      QueueState(held, taken, droppedCount)
    }

    constructor (capacity: nat)
      ensures this.capacity == capacity && State() == QueueState([], [], 0)
    {
      this.capacity := capacity;
      held, droppedCount, taken := [], 0, [];
    }

    /** A full queue drops the newest item and counts it. */
    method Enqueue(item: Item)
      modifies this
      ensures State() == QueueStep(old(State()), Put(item), capacity)
    {
      if |held| < capacity {
        held := held + [item];
      } else {
        droppedCount := droppedCount + 1;
      }
    }

    method Dequeue() returns (item: Option<Item>)
      modifies this
      ensures State() == QueueStep(old(State()), Take, capacity)
      ensures item == if old(held) == [] then None else Some(old(held)[0])
    {
      if held == [] {
        return None;
      }
      item := Some(held[0]);
      taken := taken + [held[0]];
      held := held[1..];
    }
  }

  function QueueStep(q: QueueState, op: QueueOp, capacity: nat): QueueState {
    match op
    case Put(item) => if |q.held| < capacity then q.(held := q.held + [item]) else q.(dropped := q.dropped + 1)
    case Take => if q.held == [] then q else QueueState(q.held[1..], q.taken + [q.held[0]], q.dropped)
  }

  function QueueRun(q: QueueState, ops: seq<QueueOp>, capacity: nat): QueueState
    decreases |ops|
  {
    if ops == [] then q else QueueRun(QueueStep(q, ops[0], capacity), ops[1..], capacity)
  }

  function Puts(ops: seq<QueueOp>): seq<Item> {
    if ops == [] then [] else (if ops[0].Put? then [ops[0].item] else []) + Puts(ops[1..])
  }

  /** `sub` is `all` with some items left out, in order. */
  predicate Subsequence(sub: seq<Item>, all: seq<Item>)
    decreases |all|
  {
    if sub == [] then true
    else if all == [] then false
    else (sub[0] == all[0] && Subsequence(sub[1..], all[1..])) || Subsequence(sub, all[1..])
  }

  lemma {:induction false} SubsequenceEnds(kept: seq<Item>, sub: seq<Item>, all: seq<Item>)
    requires Subsequence(sub, all)
    ensures Subsequence(kept + sub, kept + all)
    decreases |kept|
  {
    if kept == [] {
      assert kept + sub == sub && kept + all == all;
    } else {
      SubsequenceEnds(kept[1..], sub, all);
      assert (kept + sub)[1..] == kept[1..] + sub && (kept + all)[1..] == kept[1..] + all;
    }
  }

  lemma Widen(sub: seq<Item>, all: seq<Item>)
    requires all != [] && Subsequence(sub, all[1..])
    ensures Subsequence(sub, all)
  {
  }

  /** Conservation: what was put is what was taken, what is still held and what was counted as dropped;
      the surviving items keep their order, and the queue never holds more than its capacity. */
  lemma {:induction false} QueueConserves(q: QueueState, ops: seq<QueueOp>, capacity: nat)
    requires |q.held| <= capacity
    ensures var r := QueueRun(q, ops, capacity);
            && |r.held| <= capacity
            && |r.taken| + |r.held| + r.dropped == |q.taken| + |q.held| + q.dropped + |Puts(ops)|
            && Subsequence(r.taken + r.held, q.taken + q.held + Puts(ops))
    decreases |ops|
  {
    var order := q.taken + q.held;
    if ops == [] {
      assert order + Puts(ops) == order;
      SubsequenceEnds(order, [], []);
      assert order + [] == order;
    } else {
      var next := QueueStep(q, ops[0], capacity);
      QueueConserves(next, ops[1..], capacity);
      var r := QueueRun(q, ops, capacity);
      var rest := Puts(ops[1..]);
      match ops[0] {
        case Take =>
          assert next.taken + next.held == order && Puts(ops) == rest;
        case Put(item) =>
          if |q.held| < capacity {
            assert next.taken + next.held + rest == order + ([item] + rest);
          } else {
            assert Subsequence(r.taken + r.held, order + rest);
            InsertAnywhere(r.taken + r.held, order, item, rest);
            assert order + [item] + rest == order + ([item] + rest);
          }
      }
    }
  }

  lemma {:induction false} InsertAnywhere(sub: seq<Item>, front: seq<Item>, item: Item, back: seq<Item>)
    requires Subsequence(sub, front + back)
    ensures Subsequence(sub, front + [item] + back)
    decreases |front|
  {
    var all, whole := front + back, front + [item] + back;
    if front == [] {
      assert all == back && whole[1..] == back;
      Widen(sub, whole);
    } else if sub != [] {
      assert all[1..] == front[1..] + back && whole[1..] == front[1..] + [item] + back;
      if sub[0] == all[0] && Subsequence(sub[1..], all[1..]) {
        InsertAnywhere(sub[1..], front[1..], item, back);
      } else {
        InsertAnywhere(sub, front[1..], item, back);
      }
    }
  }
}
