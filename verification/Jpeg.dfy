/**
 Reading the dimensions of a JPEG from its first start-of-frame segment (sections B.1.1 and B.2.2 of
 ITU-T T.81), and what a captured snapshot must pass before it is spooled.
 */
module Jpeg {
  import opened Common

  const SOF_MARKERS: set<byte> := {0xC0, 0xC1, 0xC2, 0xC3, 0xC5, 0xC6, 0xC7, 0xC9, 0xCA, 0xCB, 0xCD, 0xCE, 0xCF}

  /** SOI, EOI and the eight restart markers: what the scanner takes to stand alone. */
  predicate StandsAlone(marker: byte) {
    0xD0 <= marker <= 0xD9
  }

  datatype Dimensions = Dimensions(width: nat, height: nat)

  function U16(data: Bytes, i: nat): (v: nat)
    requires i + 2 <= |data|
    ensures v < 0x1_0000
  {
    (data[i] as int) * 256 + data[i + 1] as int
  }

  /** The scan from position i, as the bytes decide it. */
  function Scan(data: Bytes, i: nat): Option<Dimensions>
    decreases |data| - i
  {
    var n := |data|;
    if i + 1 >= n then None
    else if data[i] != 0xFF || data[i + 1] == 0xFF then Scan(data, i + 1)
    else if StandsAlone(data[i + 1]) then Scan(data, i + 2)
    else if i + 4 > n || U16(data, i + 2) < 2 then None
    else if data[i + 1] in SOF_MARKERS then
      if i + 9 > n then None else Some(Dimensions(U16(data, i + 7), U16(data, i + 5)))
    else Scan(data, i + 2 + U16(data, i + 2))
  }

  function DimensionsOf(data: Bytes): Option<Dimensions> {
    if |data| < 4 || data[..2] != [0xFF, 0xD8] then None else Scan(data, 2)
  }

  /** Terminates and reads in bounds on every byte string. */
  method ParseDimensions(data: Bytes) returns (r: Option<Dimensions>)
    ensures r == DimensionsOf(data)
  {
    var n := |data|;
    if n < 4 || data[..2] != [0xFF, 0xD8] {
      return None;
    }
    var i := 2;
    while i + 1 < n
      invariant 2 <= i
      invariant Scan(data, i) == Scan(data, 2)
      decreases n - i
    {
      if data[i] != 0xFF {
        i := i + 1;
        continue;
      }
      var marker := data[i + 1];
      if marker == 0xFF {
        i := i + 1;
        continue;
      }
      if StandsAlone(marker) {
        i := i + 2;
        continue;
      }
      if i + 4 > n {
        return None;
      }
      var length := U16(data, i + 2);
      if length < 2 {
        return None;
      }
      if marker in SOF_MARKERS {
        if i + 9 > n {
          return None;
        }
        return Some(Dimensions(U16(data, i + 7), U16(data, i + 5)));
      }
      i := i + 2 + length;
    }
    return None;
  }

  // ---- Well-formed streams ---------------------------------------------------------------------

  /** What may stand before the frame header: a fill byte, a marker without parameters, or a segment
      with parameters that is no frame header. */
  datatype Piece =
    | Fill
    | Alone(marker: byte)
    | Segment(marker: byte, parameters: Bytes)

  predicate WellFormed(p: Piece) {
    match p
    case Fill => true
    case Alone(m) => StandsAlone(m)
    case Segment(m, parameters) =>
      !StandsAlone(m) && m != 0xFF && m !in SOF_MARKERS && |parameters| <= 0xFFFD
  }

  function BigEndian16(v: nat): (b: Bytes)
    requires v < 0x1_0000
    ensures |b| == 2 && U16(b, 0) == v
  {
    [v / 256, v % 256]
  }

  function SegmentBytes(marker: byte, parameters: Bytes): Bytes
    requires |parameters| <= 0xFFFD
  {
    [0xFF, marker] + BigEndian16(|parameters| + 2) + parameters
  }

  function PieceBytes(p: Piece): Bytes
    requires WellFormed(p)
  {
    match p
    case Fill => [0xFF]
    case Alone(m) => [0xFF, m]
    case Segment(m, parameters) => SegmentBytes(m, parameters)
  }

  predicate AllWellFormed(pieces: seq<Piece>) {
    forall i :: 0 <= i < |pieces| ==> WellFormed(pieces[i])
  }

  function Serialise(pieces: seq<Piece>): Bytes
    requires AllWellFormed(pieces)
  {
    if pieces == [] then [] else PieceBytes(pieces[0]) + Serialise(pieces[1..])
  }

  /** The frame header: sample precision, height and width, then the component parameters. */
  function FrameHeader(marker: byte, precision: byte, d: Dimensions, components: Bytes): Bytes
    requires d.width < 0x1_0000 && d.height < 0x1_0000 && |components| <= 0xFFF8
  {
    SegmentBytes(marker, [precision] + BigEndian16(d.height) + BigEndian16(d.width) + components)
  }

  /** A scan that starts in the middle sees only what follows. */
  lemma {:induction false} ScanShift(before: Bytes, data: Bytes, i: nat)
    ensures Scan(before + data, |before| + i) == Scan(data, i)
    decreases |data| - i
  {
    var all, k := before + data, |before| + i;
    if i + 1 < |data| {
      assert all[k] == data[i] && all[k + 1] == data[i + 1];
      ScanShift(before, data, i + 1);
      ScanShift(before, data, i + 2);
      if i + 4 <= |data| {
        assert U16(all, k + 2) == U16(data, i + 2);
        ScanShift(before, data, i + 2 + U16(data, i + 2));
        if i + 9 <= |data| {
          assert U16(all, k + 5) == U16(data, i + 5);
          assert U16(all, k + 7) == U16(data, i + 7);
        }
      }
    }
  }

  lemma ScanPiece(p: Piece, rest: Bytes)
    requires WellFormed(p) && rest != [] && rest[0] == 0xFF
    ensures Scan(PieceBytes(p) + rest, 0) == Scan(rest, 0)
  {
    var bytes := PieceBytes(p);
    var all := bytes + rest;
    ScanShift(bytes, rest, 0);
    match p
    case Fill => assert all[0] == 0xFF && all[1] == 0xFF;
    case Alone(m) => assert all[0] == 0xFF && all[1] == m;
    case Segment(m, parameters) =>
      var length := BigEndian16(|parameters| + 2);
      assert all[0] == 0xFF && all[1] == m && all[2] == length[0] && all[3] == length[1];
      assert U16(all, 2) == |parameters| + 2;
  }

  lemma ScanFrame(marker: byte, precision: byte, d: Dimensions, components: Bytes, tail: Bytes)
    requires marker in SOF_MARKERS && d.width < 0x1_0000 && d.height < 0x1_0000 && |components| <= 0xFFF8
    ensures Scan(FrameHeader(marker, precision, d, components) + tail, 0) == Some(d)
  {
    var header := FrameHeader(marker, precision, d, components);
    var all := header + tail;
    var h, w := BigEndian16(d.height), BigEndian16(d.width);
    var length := BigEndian16(7 + |components|);
    assert all[..4] == [0xFF, marker, length[0], length[1]];
    assert all[4..9] == [precision, h[0], h[1], w[0], w[1]];
    assert U16(all, 2) == 7 + |components|;
    assert all[5] == all[4..9][1] && all[6] == all[4..9][2] && all[7] == all[4..9][3] && all[8] == all[4..9][4];
    assert U16(all, 5) == d.height && U16(all, 7) == d.width;
  }

  lemma {:induction false} ScanPieces(pieces: seq<Piece>, rest: Bytes)
    requires AllWellFormed(pieces) && rest != [] && rest[0] == 0xFF
    ensures Scan(Serialise(pieces) + rest, 0) == Scan(rest, 0)
    ensures (Serialise(pieces) + rest)[0] == 0xFF
    decreases |pieces|
  {
    if pieces == [] {
      assert Serialise(pieces) + rest == rest;
    } else {
      var after := Serialise(pieces[1..]) + rest;
      ScanPieces(pieces[1..], rest);
      ScanPiece(pieces[0], after);
      assert Serialise(pieces) + rest == PieceBytes(pieces[0]) + after;
    }
  }

  /** A JPEG: the start-of-image marker, some pieces, and what comes after them. */
  function Stream(pieces: seq<Piece>, rest: Bytes): Bytes
    requires AllWellFormed(pieces)
  {
    [0xFF, 0xD8] + (Serialise(pieces) + rest)
  }

  lemma ScanStream(pieces: seq<Piece>, rest: Bytes)
    requires AllWellFormed(pieces) && |rest| >= 2 && rest[0] == 0xFF
    ensures DimensionsOf(Stream(pieces, rest)) == Scan(rest, 0)
    ensures |Stream(pieces, rest)| >= 4 && Stream(pieces, rest)[..3] == [0xFF, 0xD8, 0xFF]
  {
    var body := Serialise(pieces) + rest;
    ScanPieces(pieces, rest);
    ScanShift([0xFF, 0xD8], body, 0);
    assert Stream(pieces, rest)[..2] == [0xFF, 0xD8];
    assert Stream(pieces, rest)[2] == body[0];
  }

  /** For every list of pieces before the first frame header, and anything after it, the scanner
      returns the width and height written in that header. */
  lemma ReadsFrameHeader(pieces: seq<Piece>, marker: byte, precision: byte, d: Dimensions, components: Bytes, tail: Bytes)
    requires AllWellFormed(pieces) && marker in SOF_MARKERS
    requires d.width < 0x1_0000 && d.height < 0x1_0000 && |components| <= 0xFFF8
    ensures DimensionsOf(Stream(pieces, FrameHeader(marker, precision, d, components) + tail)) == Some(d)
  {
    var rest := FrameHeader(marker, precision, d, components) + tail;
    ScanFrame(marker, precision, d, components, tail);
    assert rest[0] == 0xFF;
    ScanStream(pieces, rest);
  }

  /** Whatever the input, returned dimensions stand in a frame header inside it. */
  lemma {:induction false} FoundInFrame(data: Bytes, i: nat)
    requires Scan(data, i).Some?
    ensures exists j :: i <= j <= |data| - 9 && data[j] == 0xFF && data[j + 1] in SOF_MARKERS
                        && Scan(data, i) == Some(Dimensions(U16(data, j + 7), U16(data, j + 5)))
    decreases |data| - i
  {
    if data[i] != 0xFF || data[i + 1] == 0xFF {
      FoundInFrame(data, i + 1);
    } else if StandsAlone(data[i + 1]) {
      FoundInFrame(data, i + 2);
    } else if data[i + 1] in SOF_MARKERS {
      assert Scan(data, i) == Some(Dimensions(U16(data, i + 7), U16(data, i + 5)));
    } else {
      FoundInFrame(data, i + 2 + U16(data, i + 2));
    }
  }

  // ---- The marker the scanner misreads ---------------------------------------------------------

  const TEM: byte := 0x01

  /** TEM has no parameters in T.81, but the two bytes after it are read as a length: the scan goes on
      inside what follows, at that distance, and is over if there is no such length. */
  lemma TemSkips(pieces: seq<Piece>, rest: Bytes)
    requires AllWellFormed(pieces)
    ensures DimensionsOf(Stream(pieces, [0xFF, TEM] + rest))
         == if |rest| < 2 || U16(rest, 0) < 2 then None else Scan(rest, U16(rest, 0))
  {
    ScanStream(pieces, [0xFF, TEM] + rest);
    TemScan(rest);
  }

  lemma TemScan(rest: Bytes)
    ensures Scan([0xFF, TEM] + rest, 0) == if |rest| < 2 || U16(rest, 0) < 2 then None else Scan(rest, U16(rest, 0))
  {
    if |rest| >= 2 && U16(rest, 0) >= 2 {
      SkipSegment([0xFF, TEM], rest, U16(rest, 0));
    } else {
      NoLength([0xFF, TEM] + rest);
    }
  }

  lemma NoLength(data: Bytes)
    requires |data| >= 2 && data[0] == 0xFF && (|data| < 4 || U16(data, 2) < 2)
    requires !StandsAlone(data[1]) && data[1] != 0xFF
    ensures Scan(data, 0) == None
  {
  }

  /** A marker before a would-be length makes the scan go on `length` bytes after the marker. */
  lemma SkipSegment(marker: Bytes, rest: Bytes, length: nat)
    requires |marker| == 2 && marker[0] == 0xFF && |rest| >= 2 && U16(rest, 0) == length >= 2
    requires !StandsAlone(marker[1]) && marker[1] != 0xFF && marker[1] !in SOF_MARKERS
    ensures Scan(marker + rest, 0) == Scan(rest, length)
  {
    var all := marker + rest;
    assert U16(all, 2) == length;
    SegmentStep(all);
    ScanShift(marker, rest, length);
  }

  lemma SegmentStep(data: Bytes)
    requires |data| >= 4 && data[0] == 0xFF && U16(data, 2) >= 2
    requires !StandsAlone(data[1]) && data[1] != 0xFF && data[1] !in SOF_MARKERS
    ensures Scan(data, 0) == Scan(data, 2 + U16(data, 2))
  {
  }

  /** So a stream in which TEM is followed by another marker, and by no more than 65,281 bytes in all, is
      refused whatever frame header it holds. */
  lemma TemLosesFrame(pieces: seq<Piece>, rest: Bytes)
    requires AllWellFormed(pieces) && 2 <= |rest| <= 0xFF01 && rest[0] == 0xFF
    ensures DimensionsOf(Stream(pieces, [0xFF, TEM] + rest)) == None
  {
    TemSkips(pieces, rest);
  }

  /** A longer one can be read, but for what stands at that distance: a frame header there is believed,
      whatever came in between. */
  lemma TemReadsInside(pieces: seq<Piece>, between: Bytes, marker: byte, precision: byte, d: Dimensions, components: Bytes, tail: Bytes)
    requires AllWellFormed(pieces) && 2 <= |between| && U16(between, 0) == |between| && marker in SOF_MARKERS
    requires d.width < 0x1_0000 && d.height < 0x1_0000 && |components| <= 0xFFF8
    ensures DimensionsOf(Stream(pieces, [0xFF, TEM] + (between + (FrameHeader(marker, precision, d, components) + tail)))) == Some(d)
  {
    var header := FrameHeader(marker, precision, d, components) + tail;
    TemSkips(pieces, between + header);
    assert U16(between + header, 0) == U16(between, 0);
    ScanShift(between, header, 0);
    ScanFrame(marker, precision, d, components, tail);
  }

  // ---- Validation before capture ---------------------------------------------------------------

  datatype Refusal = EmptyPayload | OversizedFile | InvalidMagic | UndecodableDimensions

  method Validate(data: Bytes, maxFileBytes: nat) returns (r: Result<Dimensions, Refusal>)
    ensures r == Verdict(data, maxFileBytes)
  {
    if data == [] {
      return Err(EmptyPayload);
    }
    if |data| > maxFileBytes {
      return Err(OversizedFile);
    }
    if |data| < 3 || data[..3] != [0xFF, 0xD8, 0xFF] {
      return Err(InvalidMagic);
    }
    var d := ParseDimensions(data);
    if d.None? || d.value.width == 0 || d.value.height == 0 {
      return Err(UndecodableDimensions);
    }
    return Ok(d.value);
  }

  function Verdict(data: Bytes, maxFileBytes: nat): Result<Dimensions, Refusal> {
    if data == [] then Err(EmptyPayload)
    else if |data| > maxFileBytes then Err(OversizedFile)
    else if |data| < 3 || data[..3] != [0xFF, 0xD8, 0xFF] then Err(InvalidMagic)
    else
      match DimensionsOf(data)
      case None => Err(UndecodableDimensions)
      case Some(d) => if d.width == 0 || d.height == 0 then Err(UndecodableDimensions) else Ok(d)
  }

  /** A stream within the size limit whose first frame header has positive dimensions is accepted with
      exactly those dimensions, and one with a zero dimension is refused. */
  lemma ValidatesWellFormed(pieces: seq<Piece>, marker: byte, precision: byte, d: Dimensions, components: Bytes, tail: Bytes, maxFileBytes: nat)
    requires AllWellFormed(pieces) && marker in SOF_MARKERS
    requires d.width < 0x1_0000 && d.height < 0x1_0000 && |components| <= 0xFFF8
    ensures var data := Stream(pieces, FrameHeader(marker, precision, d, components) + tail);
            |data| <= maxFileBytes ==>
              Verdict(data, maxFileBytes) == if d.width > 0 && d.height > 0 then Ok(d) else Err(UndecodableDimensions)
  {
    var rest := FrameHeader(marker, precision, d, components) + tail;
    ReadsFrameHeader(pieces, marker, precision, d, components, tail);
    assert rest[0] == 0xFF;
    ScanStream(pieces, rest);
  }
}
