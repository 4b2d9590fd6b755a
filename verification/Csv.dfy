/**
 The analytics export as RFC 4180 text, and a strict reader for it.  Timestamps and numbers enter
 already formatted; the reader follows section 2 of RFC 4180 (records end in CRLF, a quoted field may
 hold anything with its quotes doubled, a bare field holds no quote, comma, CR or LF), except that any
 other character may stand in a bare field.
 */
module Csv {
  import opened Common

  datatype ExportRow = ExportRow(
    detectedAt: string,
    receivedAt: string,
    latencyMs: Option<string>,
    branchName: string,
    cameraName: string,
    detectionType: string,
    confidence: string,
    status: string,
    snapshotAvailable: bool)

  const COLUMNS: seq<string> := [
    "Detected At (UTC)", "Received At (UTC)", "Delivery Latency (ms)", "Branch", "Camera",
    "Detection Type", "Confidence", "Status", "Snapshot Available"]

  const COLUMN_COUNT := 9

  const LINE_SEPARATOR := "\r\n"

  /** The nine cell texts of a row, in column order. */
  function Cells(row: ExportRow): (cells: seq<string>)
    ensures |cells| == COLUMN_COUNT
  {
    [row.detectedAt, row.receivedAt, if row.latencyMs.Some? then row.latencyMs.value else "", row.branchName,
     row.cameraName, row.detectionType, row.confidence, row.status, if row.snapshotAvailable then "Yes" else "No"]
  }

  // ---- Writing ---------------------------------------------------------------------------------

  predicate StartsFormula(s: string) {
    |s| > 0 && s[0] in {'=', '+', '-', '@'}
  }

  /** A cell a spreadsheet would run as a formula gets a single quote in front. */
  function Defuse(s: string): string {
    if StartsFormula(s) then "'" + s else s
  }

  predicate NeedsQuotes(s: string) {
    exists i :: 0 <= i < |s| && s[i] in {'"', ',', '\r', '\n'}
  }

  function DoubleQuotes(s: string): string {
    if s == "" then ""
    else if s[0] == '"' then "\"\"" + DoubleQuotes(s[1..])
    else [s[0]] + DoubleQuotes(s[1..])
  }

  function Escape(s: string): string {
    var text := Defuse(s);
    if NeedsQuotes(text) then "\"" + DoubleQuotes(text) + "\"" else text
  }

  function Line(cells: seq<string>): string
    requires cells != []
  {
    Escape(cells[0]) + (if |cells| == 1 then LINE_SEPARATOR else "," + Line(cells[1..]))
  }

  function Lines(rows: seq<ExportRow>): string {
    if rows == [] then "" else Lines(rows[..|rows| - 1]) + Line(Cells(rows[|rows| - 1]))
  }

  /** What is still to be written of a line once its first `i` cells are there. */
  function LineFrom(cells: seq<string>, i: nat): string
    requires 0 < i <= |cells|
    decreases |cells| - i
  {
    if i == |cells| then LINE_SEPARATOR else "," + Escape(cells[i]) + LineFrom(cells, i + 1)
  }

  lemma {:induction false} LineFromRest(cells: seq<string>, i: nat)
    requires 0 < i <= |cells|
    ensures Line(cells[i - 1..]) == Escape(cells[i - 1]) + LineFrom(cells, i)
    decreases |cells| - i
  {
    var rest := cells[i - 1..];
    if i < |cells| {
      assert rest[1..] == cells[i..];
      LineFromRest(cells, i + 1);
      assert "," + (Escape(cells[i]) + LineFrom(cells, i + 1)) == "," + Escape(cells[i]) + LineFrom(cells, i + 1);
    }
  }

  /** Joins the escaped cells with commas and ends the line, appending to what was written before. */
  method AppendLine(builder: string, cells: seq<string>) returns (text: string)
    requires cells != []
    ensures text == builder + Line(cells)
  {
    text := builder + Escape(cells[0]);
    var i := 1;
    LineFromRest(cells, 1);
    assert cells[0..] == cells;
    assert text + LineFrom(cells, 1) == builder + Line(cells);
    while i < |cells|
      invariant 1 <= i <= |cells|
      invariant text + LineFrom(cells, i) == builder + Line(cells)
    {
      var next := text + "," + Escape(cells[i]);
      Regroup(text, ",", Escape(cells[i]), LineFrom(cells, i + 1));
      text, i := next, i + 1;
    }
    text := text + LINE_SEPARATOR;
  }

  lemma Regroup(a: string, b: string, c: string, d: string)
    ensures a + (b + c + d) == a + b + c + d
    ensures a + (b + c) == a + b + c
  {
  }

  /** A header line and one line per row. */
  method WriteTable(header: seq<string>, rows: seq<ExportRow>) returns (text: string)
    requires header != []
    ensures text == Line(header) + Lines(rows)
  {
    text := AppendLine("", header);
    var i := 0;
    while i < |rows|
      invariant 0 <= i <= |rows|
      invariant text == Line(header) + Lines(rows[..i])
    {
      assert rows[..i + 1][..i] == rows[..i];
      Regroup(Line(header), Lines(rows[..i]), Line(Cells(rows[i])), "");
      text := AppendLine(text, Cells(rows[i]));
      i := i + 1;
    }
    assert rows[..i] == rows;
  }

  /** The whole file reads back as the header and nine cells per row, each as defused. */
  method Write(rows: seq<ExportRow>) returns (text: string)
    ensures ReadRecords(text) == Some([COLUMNS] + DefusedRows(rows))
  {
    text := WriteTable(COLUMNS, rows);
    TableRead(COLUMNS, rows);
    HeaderPlain();
  }

  // ---- Reading ---------------------------------------------------------------------------------

  /** A bare field ends before the first character that may not stand in it. */
  function ReadBare(s: string): (r: (string, string))
    ensures |r.1| <= |s|
  {
    if s == "" || s[0] in {'"', ',', '\r', '\n'} then ("", s)
    else
      var (text, rest) := ReadBare(s[1..]);
      ([s[0]] + text, rest)
  }

  /** Inside quotes, a doubled quote is one quote and a single one ends the field. */
  function ReadQuoted(s: string): (r: Option<(string, string)>)
    ensures r.Some? ==> |r.value.1| < |s|
    decreases |s|
  {
    if s == "" then None
    else if s[0] != '"' then
      match ReadQuoted(s[1..])
      case None => None
      case Some((text, rest)) => Some(([s[0]] + text, rest))
    else if |s| >= 2 && s[1] == '"' then
      match ReadQuoted(s[2..])
      case None => None
      case Some((text, rest)) => Some(("\"" + text, rest))
    else Some(("", s[1..]))
  }

  function ReadField(s: string): (r: Option<(string, string)>)
    ensures r.Some? ==> |r.value.1| <= |s|
  {
    if s != "" && s[0] == '"' then ReadQuoted(s[1..]) else Some(ReadBare(s))
  }

  /** Fields separated by commas up to CRLF; anything else after a field is an error. */
  function ReadRecord(s: string): (r: Option<(seq<string>, string)>)
    ensures r.Some? ==> |r.value.1| < |s|
    decreases |s|
  {
    match ReadField(s)
    case None => None
    case Some((text, rest)) =>
      if |rest| >= 2 && rest[..2] == LINE_SEPARATOR then Some(([text], rest[2..]))
      else if |rest| >= 1 && rest[0] == ',' then
        match ReadRecord(rest[1..])
        case None => None
        case Some((cells, tail)) => Some(([text] + cells, tail))
      else None
  }

  function ReadRecords(s: string): Option<seq<seq<string>>>
    decreases |s|
  {
    if s == "" then Some([])
    else
      match ReadRecord(s)
      case None => None
      case Some((cells, rest)) =>
        match ReadRecords(rest)
        case None => None
        case Some(records) => Some([cells] + records)
  }

  // ---- The round trip --------------------------------------------------------------------------

  function Defused(cells: seq<string>): (r: seq<string>)
    ensures |r| == |cells| && forall i :: 0 <= i < |cells| ==> r[i] == Defuse(cells[i])
  {
    if cells == [] then [] else [Defuse(cells[0])] + Defused(cells[1..])
  }

  function DefusedRows(rows: seq<ExportRow>): (r: seq<seq<string>>)
    ensures |r| == |rows|
    ensures forall i :: 0 <= i < |rows| ==> r[i] == Defused(Cells(rows[i])) && |r[i]| == COLUMN_COUNT
  {
    if rows == [] then [] else DefusedRows(rows[..|rows| - 1]) + [Defused(Cells(rows[|rows| - 1]))]
  }

  predicate EndsField(tail: string) {
    tail != "" && tail[0] in {',', '\r'}
  }

  lemma {:induction false} BareRead(s: string, tail: string)
    requires !NeedsQuotes(s) && EndsField(tail)
    ensures ReadBare(s + tail) == (s, tail)
  {
    if s == "" {
      assert s + tail == tail;
    } else {
      assert s[0] !in {'"', ',', '\r', '\n'};
      assert (s + tail)[0] == s[0] && (s + tail)[1..] == s[1..] + tail;
      assert [s[0]] + s[1..] == s;
      assert forall i :: 0 <= i < |s[1..]| ==> s[1..][i] == s[i + 1];
      BareRead(s[1..], tail);
    }
  }

  lemma {:induction false} QuotedRead(s: string, tail: string)
    requires EndsField(tail)
    ensures ReadQuoted(DoubleQuotes(s) + "\"" + tail) == Some((s, tail))
  {
    var written := DoubleQuotes(s) + "\"" + tail;
    if s == "" {
      assert written == "\"" + tail;
      assert written[1..] == tail;
    } else {
      QuotedRead(s[1..], tail);
      var rest := DoubleQuotes(s[1..]) + "\"" + tail;
      if s[0] == '"' {
        assert written == "\"\"" + rest;
        assert written[2..] == rest;
      } else {
        assert written == [s[0]] + rest;
        assert written[0] == s[0] && written[1..] == rest;
      }
      assert [s[0]] + s[1..] == s;
    }
  }

  lemma FieldRead(s: string, tail: string)
    requires EndsField(tail)
    ensures ReadField(Escape(s) + tail) == Some((Defuse(s), tail))
  {
    var text := Defuse(s);
    if NeedsQuotes(text) {
      assert (Escape(s) + tail)[1..] == DoubleQuotes(text) + "\"" + tail;
      QuotedRead(text, tail);
    } else {
      BareRead(text, tail);
      assert (text + tail)[0] != '"';
    }
  }

  lemma EndOfRecord(s: string, text: string, tail: string)
    requires ReadField(s) == Some((text, LINE_SEPARATOR + tail))
    ensures ReadRecord(s) == Some(([text], tail))
  {
    var rest := LINE_SEPARATOR + tail;
    assert rest[..2] == LINE_SEPARATOR && rest[2..] == tail;
  }

  lemma MoreOfRecord(s: string, text: string, more: string)
    requires ReadField(s) == Some((text, "," + more)) && ReadRecord(more).Some?
    ensures ReadRecord(s) == Some(([text] + ReadRecord(more).value.0, ReadRecord(more).value.1))
  {
    var rest := "," + more;
    assert rest[0] == ',' && rest[1..] == more;
    assert |rest| >= 2 ==> rest[..2][0] == ',';
  }

  lemma {:induction false} LineRead(cells: seq<string>, tail: string)
    requires cells != []
    ensures ReadRecord(Line(cells) + tail) == Some((Defused(cells), tail))
  {
    if |cells| == 1 {
      var after := LINE_SEPARATOR + tail;
      assert Line(cells) + tail == Escape(cells[0]) + after;
      FieldRead(cells[0], after);
      EndOfRecord(Escape(cells[0]) + after, Defuse(cells[0]), tail);
      assert Defused(cells) == [Defuse(cells[0])];
    } else {
      var after := "," + (Line(cells[1..]) + tail);
      assert Line(cells) + tail == Escape(cells[0]) + after;
      FieldRead(cells[0], after);
      LineRead(cells[1..], tail);
      MoreOfRecord(Escape(cells[0]) + after, Defuse(cells[0]), Line(cells[1..]) + tail);
    }
  }

  lemma {:induction false} LinesRead(rows: seq<ExportRow>, tail: string)
    requires ReadRecords(tail).Some?
    ensures ReadRecords(Lines(rows) + tail) == Some(DefusedRows(rows) + ReadRecords(tail).value)
    decreases |rows|
  {
    if rows == [] {
      assert Lines(rows) + tail == tail;
      assert DefusedRows(rows) + ReadRecords(tail).value == ReadRecords(tail).value;
    } else {
      var front, cells := rows[..|rows| - 1], Cells(rows[|rows| - 1]);
      RecordThen(cells, tail);
      LinesRead(front, Line(cells) + tail);
      Regroup(Lines(front), Line(cells), tail, "");
      OneMoreRecord(DefusedRows(front), Defused(cells), ReadRecords(tail).value);
      assert Lines(rows) == Lines(front) + Line(cells);
      assert DefusedRows(rows) == DefusedRows(front) + [Defused(cells)];
    }
  }

  lemma OneMoreRecord(front: seq<seq<string>>, record: seq<string>, after: seq<seq<string>>)
    ensures front + ([record] + after) == front + [record] + after
  {
  }

  lemma RecordThen(cells: seq<string>, tail: string)
    requires cells != [] && ReadRecords(tail).Some?
    ensures ReadRecords(Line(cells) + tail) == Some([Defused(cells)] + ReadRecords(tail).value)
  {
    LineRead(cells, tail);
    assert ReadRecord("") == None;
    assert Line(cells) + tail != "";
  }

  /** The strict reader inverts the writer for any header and any rows. */
  lemma TableRead(header: seq<string>, rows: seq<ExportRow>)
    requires header != []
    ensures ReadRecords(Line(header) + Lines(rows)) == Some([Defused(header)] + DefusedRows(rows))
  {
    LinesRead(rows, "");
    assert Lines(rows) + "" == Lines(rows);
    RecordThen(header, Lines(rows));
    assert DefusedRows(rows) + [] == DefusedRows(rows);
  }

  lemma HeaderPlain()
    ensures Defused(COLUMNS) == COLUMNS
  {
    PlainUnchanged(COLUMNS);
  }

  lemma PlainUnchanged(cells: seq<string>)
    requires forall i :: 0 <= i < |cells| ==> !StartsFormula(cells[i])
    ensures Defused(cells) == cells
  {
  }

  /** No cell read back from an export starts a formula. */
  lemma NoFormula(rows: seq<ExportRow>, i: nat, j: nat)
    requires i < |rows| && j < COLUMN_COUNT
    ensures !StartsFormula(DefusedRows(rows)[i][j])
  {
    DefusedInert(Cells(rows[i]), j);
  }

  lemma DefusedInert(cells: seq<string>, j: nat)
    requires j < |cells|
    ensures !StartsFormula(Defused(cells)[j])
  {
    assert Defused(cells)[j] == Defuse(cells[j]);
  }

  /** Exactly which two texts share a cell: equal ones, or a formula and the same text already quoted. */
  lemma DefuseCollides(a: string, b: string)
    ensures Defuse(a) == Defuse(b) <==>
            a == b || (StartsFormula(a) && b == "'" + a) || (StartsFormula(b) && a == "'" + b)
  {
    if StartsFormula(a) {
      assert ("'" + a)[1..] == a;
    }
    if StartsFormula(b) {
      assert ("'" + b)[1..] == b;
    }
  }
}
