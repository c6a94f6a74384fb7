// frontend/components/DataTableMaster.tsx exportToCsv, against a reader for section 2 of RFC 4180.
module Csv {
  import opened Basics

  const QUOTE: char := '\"'
  const COMMA: char := ','
  const CR: char := '\r'
  const LF: char := '\n'
  const CRLF: string := "\r\n"
  const BOM: char := '\U{FEFF}'

  // ----- The exporter -----

  /** `s.replace(/"/g, '""')`. */
  function Doubled(s: string): string {
    if s == [] then []
    else (if s[0] == QUOTE then [QUOTE, QUOTE] else [s[0]]) + Doubled(s[1..])
  }

  function Quoted(s: string): string {
    [QUOTE] + Doubled(s) + [QUOTE]
  }

  /** `parts.join(sep)`. */
  function Join(parts: seq<string>, sep: string): string {
    if parts == [] then []
    else if |parts| == 1 then parts[0]
    else parts[0] + sep + Join(parts[1..], sep)
  }

  function QuotedCells(cells: seq<string>): (r: seq<string>)
    ensures |r| == |cells|
  {
    seq(|cells|, i requires 0 <= i < |cells| => Quoted(cells[i]))
  }

  function Line(cells: seq<string>): string {
    Join(QuotedCells(cells), [COMMA])
  }

  function Lines(records: seq<seq<string>>): (r: seq<string>)
    ensures |r| == |records|
  {
    seq(|records|, i requires 0 <= i < |records| => Line(records[i]))
  }

  /** The text of the exported file: the header, then one record a row. */
  function Export(header: seq<string>, rows: seq<seq<string>>): string {
    [BOM] + Join(Lines([header] + rows), CRLF)
  }

  // ----- The reader: the grammar of RFC 4180, section 2 -----

  /** The rest of an escaped field, after its opening quote: its value and what follows the closing quote. */
  function ReadEscaped(s: string): (r: Option<(string, string)>)
    ensures r.Some? ==> |r.value.1| < |s|
  {
    if s == [] then None
    else if s[0] != QUOTE then
      match ReadEscaped(s[1..])
      case None => None
      case Some((value, rest)) => Some(([s[0]] + value, rest))
    else if |s| >= 2 && s[1] == QUOTE then
      match ReadEscaped(s[2..])
      case None => None
      case Some((value, rest)) => Some(([QUOTE] + value, rest))
    else Some(([], s[1..]))
  }

  predicate IsTextData(c: char) {
    c != QUOTE && c != COMMA && c != CR && c != LF
  }

  /** A non-escaped field: as much text data as there is. */
  function ReadPlain(s: string): (r: (string, string))
    ensures |r.1| <= |s|
  {
    if s == [] || !IsTextData(s[0]) then ([], s)
    else var (value, rest) := ReadPlain(s[1..]); ([s[0]] + value, rest)
  }

  function ReadField(s: string): (r: Option<(string, string)>)
    ensures r.Some? ==> |r.value.1| <= |s|
  {
    if s != [] && s[0] == QUOTE then ReadEscaped(s[1..]) else Some(ReadPlain(s))
  }

  /** One record: fields separated by commas. */
  function ReadRecord(s: string): (r: Option<(seq<string>, string)>)
    ensures r.Some? ==> |r.value.1| <= |s| && |r.value.0| >= 1
    decreases |s|
  {
    match ReadField(s)
    case None => None
    case Some((field, rest)) =>
      if rest == [] || rest[0] != COMMA then Some(([field], rest))
      else
        match ReadRecord(rest[1..])
        case None => None
        case Some((fields, rest')) => Some(([field] + fields, rest'))
  }

  /** A whole file: records separated by line breaks, the last of which may have one too. */
  function ReadRecords(s: string): (r: Option<seq<seq<string>>>)
    ensures r.Some? ==> |r.value| >= 1 && forall i :: 0 <= i < |r.value| ==> |r.value[i]| >= 1
    decreases |s|
  {
    match ReadRecord(s)
    case None => None
    case Some((fields, rest)) =>
      if rest == [] || rest == CRLF then Some([fields])
      else if CRLF <= rest then
        match ReadRecords(rest[2..])
        case None => None
        case Some(records) => Some([fields] + records)
      else None
  }

  /** A byte order mark before the text is not part of it. */
  function Read(text: string): Option<seq<seq<string>>> {
    ReadRecords(if text != [] && text[0] == BOM then text[1..] else text)
  }

  // ----- Reading back what was written -----

  lemma {:induction false} EscapedReadsBack(cell: string, t: string)
    requires t == [] || t[0] != QUOTE
    ensures ReadEscaped(Doubled(cell) + [QUOTE] + t) == Some((cell, t))
  {
    var s := Doubled(cell) + [QUOTE] + t;
    if cell == [] {
      assert s == [QUOTE] + t;
      assert s[1..] == t;
    } else {
      EscapedReadsBack(cell[1..], t);
      var tail := Doubled(cell[1..]) + [QUOTE] + t;
      assert cell == [cell[0]] + cell[1..];
      if cell[0] == QUOTE {
        assert s == [QUOTE, QUOTE] + tail;
        assert s[2..] == tail;
      } else {
        assert s == [cell[0]] + tail;
        assert s[1..] == tail;
      }
    }
  }

  lemma FieldReadsBack(cell: string, t: string)
    requires t == [] || t[0] != QUOTE
    ensures ReadField(Quoted(cell) + t) == Some((cell, t))
  {
    EscapedReadsBack(cell, t);
    assert Quoted(cell) + t == [QUOTE] + (Doubled(cell) + [QUOTE] + t);
  }

  lemma {:induction false} RecordReadsBack(cells: seq<string>, t: string)
    requires cells != [] && (t == [] || t[0] == CR)
    ensures ReadRecord(Line(cells) + t) == Some((cells, t))
    decreases |cells|
  {
    if |cells| == 1 {
      assert Line(cells) == Quoted(cells[0]);
      FieldReadsBack(cells[0], t);
      assert cells == [cells[0]];
    } else {
      var rest := [COMMA] + Line(cells[1..]) + t;
      assert QuotedCells(cells)[1..] == QuotedCells(cells[1..]);
      assert Line(cells) + t == Quoted(cells[0]) + rest;
      FieldReadsBack(cells[0], rest);
      assert rest[1..] == Line(cells[1..]) + t;
      RecordReadsBack(cells[1..], t);
      assert cells == [cells[0]] + cells[1..];
    }
  }

  lemma {:induction false} RecordsReadBack(records: seq<seq<string>>)
    requires records != [] && forall i :: 0 <= i < |records| ==> records[i] != []
    ensures ReadRecords(Join(Lines(records), CRLF)) == Some(records)
    decreases |records|
  {
    var text := Join(Lines(records), CRLF);
    if |records| == 1 {
      assert text == Line(records[0]) + [];
      RecordReadsBack(records[0], []);
      assert records == [records[0]];
    } else {
      assert Lines(records)[1..] == Lines(records[1..]);
      var more := Join(Lines(records[1..]), CRLF);
      var rest := CRLF + more;
      assert text == Line(records[0]) + rest;
      RecordReadsBack(records[0], rest);
      LineStarts(records[1..]);
      assert rest[2..] == more;
      RecordsReadBack(records[1..]);
      assert records == [records[0]] + records[1..];
    }
  }

  /** What is written after a line break is not empty, so it is not mistaken for a final line break. */
  lemma LineStarts(records: seq<seq<string>>)
    requires records != [] && records[0] != []
    ensures Join(Lines(records), CRLF) != []
  {
    assert Lines(records)[0] == Line(records[0]);
    assert QuotedCells(records[0])[0] == Quoted(records[0][0]);
  }

  /**
   * Reading the exported file gives back exactly the header and the cells, whatever characters they hold and
   * however many rows there are, exactly when there is a column to export.
   */
  lemma ExportReadsBack(header: seq<string>, rows: seq<seq<string>>)
    requires forall i :: 0 <= i < |rows| ==> |rows[i]| == |header|
    ensures Read(Export(header, rows)) == Some([header] + rows) <==> |header| >= 1
  {
    var records := [header] + rows;
    assert Export(header, rows)[1..] == Join(Lines(records), CRLF);
    if |header| >= 1 {
      RecordsReadBack(records);
    } else {
      assert records[0] == [];
    }
  }

  /** So no two tables with columns export to the same file. */
  lemma ExportInjective(h1: seq<string>, rows1: seq<seq<string>>, h2: seq<string>, rows2: seq<seq<string>>)
    requires |h1| >= 1 && forall i :: 0 <= i < |rows1| ==> |rows1[i]| == |h1|
    requires |h2| >= 1 && forall i :: 0 <= i < |rows2| ==> |rows2[i]| == |h2|
    requires Export(h1, rows1) == Export(h2, rows2)
    ensures h1 == h2 && rows1 == rows2
  {
    ExportReadsBack(h1, rows1);
    ExportReadsBack(h2, rows2);
    assert ([h1] + rows1)[0] == ([h2] + rows2)[0];
    assert ([h1] + rows1)[1..] == ([h2] + rows2)[1..];
    assert ([h1] + rows1)[1..] == rows1 && ([h2] + rows2)[1..] == rows2;
  }
}
