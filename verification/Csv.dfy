/**
 * CSV parsing and printing, section 2 of RFC 4180 with CRLF line ends.
 *
 * A character stands for a UTF-16 code unit of the original's strings.
 */
module Csv {
  type Row = seq<string>

  /** A value to print; numbers and booleans arrive as their text. */
  datatype Value = Absent | Text(s: string)

  const QUOTE := '\"'
  const BOM := '\U{FEFF}'

  // ----- the parser -----

  /** The parser's loop variables: finished rows, finished fields, the current field, the quoting state. */
  datatype Scanner = Scanner(rows: seq<Row>, row: Row, field: string, inQuotes: bool)

  const START := Scanner([], [], "", false)

  function EndField(s: Scanner): Scanner {
    s.(row := s.row + [s.field], field := "")
  }

  function EndRow(s: Scanner): Scanner {
    s.(rows := s.rows + [s.row + [s.field]], row := [], field := "")
  }

  /** What the loop has collected once `rest` is used up. */
  function Scan(rest: string, s: Scanner): seq<Row>
    decreases |rest|
  {
    if rest == "" then
      if |s.field| > 0 || |s.row| > 0 then EndRow(s).rows else s.rows
    else
      var c := rest[0];
      if s.inQuotes then
        if c == QUOTE then
          if |rest| > 1 && rest[1] == QUOTE then Scan(rest[2..], s.(field := s.field + [QUOTE]))
          else Scan(rest[1..], s.(inQuotes := false))
        else Scan(rest[1..], s.(field := s.field + [c]))
      else if c == QUOTE then Scan(rest[1..], s.(inQuotes := true))
      else if c == ',' then Scan(rest[1..], EndField(s))
      else if c == '\n' || c == '\r' then
        Scan(if c == '\r' && |rest| > 1 && rest[1] == '\n' then rest[2..] else rest[1..], EndRow(s))
      else Scan(rest[1..], s.(field := s.field + [c]))
  }

  function StripBom(text: string): string {
    if text != "" && text[0] == BOM then text[1..] else text
  }

  function Parse(text: string): seq<Row> {
    Scan(StripBom(text), START)
  }

  method ParseCsv(input: string) returns (rows: seq<Row>)
    ensures rows == Parse(input)
  {
    var text := input;
    if text != "" && text[0] == BOM { text := text[1..]; }
    rows := [];
    var row: Row, field, inQuotes := [], "", false;
    var i := 0;
    while i < |text|
      invariant 0 <= i <= |text|
      invariant Scan(text[i..], Scanner(rows, row, field, inQuotes)) == Parse(input)
    {
      var c := text[i];
      assert text[i..][1..] == text[i + 1..];
      assert i + 1 < |text| ==> text[i..][1] == text[i + 1] && text[i..][2..] == text[i + 2..];
      if inQuotes {
        if c == QUOTE {
          if i + 1 < |text| && text[i + 1] == QUOTE {
            field := field + [QUOTE];
            i := i + 1;
          } else {
            inQuotes := false;
          }
        } else {
          field := field + [c];
        }
      } else if c == QUOTE {
        inQuotes := true;
      } else if c == ',' {
        row := row + [field];
        field := "";
      } else if c == '\n' || c == '\r' {
        if c == '\r' && i + 1 < |text| && text[i + 1] == '\n' { i := i + 1; }
        row := row + [field];
        rows := rows + [row];
        row := [];
        field := "";
      } else {
        field := field + [c];
      }
      i := i + 1;
    }
    if |field| > 0 || |row| > 0 {
      row := row + [field];
      rows := rows + [row];
    }
  }

  // ----- the printer -----

  predicate Special(c: char) {
    c == QUOTE || c == ',' || c == '\r' || c == '\n'
  }

  predicate NeedsQuotes(s: string) {
    exists i | 0 <= i < |s| :: Special(s[i])
  }

  function Quoted(c: char): string {
    if c == QUOTE then [QUOTE, QUOTE] else [c]
  }

  function Doubled(s: string): string {
    if s == "" then "" else Quoted(s[0]) + Doubled(s[1..])
  }

  function Escaped(s: string): string {
    if NeedsQuotes(s) then [QUOTE] + Doubled(s) + [QUOTE] else s
  }

  function Line(cells: Row): string {
    if cells == [] then ""
    else if |cells| == 1 then Escaped(cells[0])
    else Escaped(cells[0]) + "," + Line(cells[1..])
  }

  function Lines(rows: seq<Row>): string {
    if rows == [] then "" else Line(rows[0]) + "\r\n" + Lines(rows[1..])
  }

  function Plain(v: Value): string {
    match v
    case Absent => ""
    case Text(s) => s
  }

  function PlainRow(r: seq<Value>): (p: Row)
    ensures |p| == |r| && forall i | 0 <= i < |r| :: p[i] == Plain(r[i])
  {
    if r == [] then [] else [Plain(r[0])] + PlainRow(r[1..])
  }

  function PlainRows(rs: seq<seq<Value>>): (p: seq<Row>)
    ensures |p| == |rs| && forall i | 0 <= i < |rs| :: p[i] == PlainRow(rs[i])
  {
    if rs == [] then [] else [PlainRow(rs[0])] + PlainRows(rs[1..])
  }

  function SerializeCsv(headers: Row, rows: seq<seq<Value>>): string {
    Lines([headers] + PlainRows(rows))
  }

  /** A cell is printed as it is exactly if nothing in it would be read as structure. */
  lemma QuotedIff(s: string)
    ensures Escaped(s) == s <==> forall c | c in s :: c !in {'\"', ',', '\r', '\n'}
  {
    if NeedsQuotes(s) {
      DoubledLonger(s);
      assert |Escaped(s)| > |s|;
      var i :| 0 <= i < |s| && Special(s[i]);
      assert s[i] in s;
    }
  }

  lemma {:induction false} DoubledLonger(s: string)
    ensures |Doubled(s)| >= |s|
  {
    if s != "" {
      DoubledLonger(s[1..]);
    }
  }

  // ----- the parser undoes the printer -----

  lemma {:induction false} ScanPlain(cell: string, rest: string, s: Scanner)
    requires !NeedsQuotes(cell) && !s.inQuotes
    ensures Scan(cell + rest, s) == Scan(rest, s.(field := s.field + cell))
    decreases |cell|
  {
    if cell == "" {
      assert cell + rest == rest && s.field + cell == s.field;
    } else {
      var t := s.(field := s.field + [cell[0]]);
      assert !Special(cell[0]);
      assert (cell + rest)[0] == cell[0] && (cell + rest)[1..] == cell[1..] + rest;
      assert forall i | 0 <= i < |cell[1..]| :: cell[1..][i] == cell[i + 1];
      ScanPlain(cell[1..], rest, t);
      assert t.field + cell[1..] == s.field + cell;
    }
  }

  /** A character inside quotes, a quote being doubled. */
  lemma ScanQuotedChar(ch: char, tail: string, s: Scanner)
    requires s.inQuotes
    ensures Scan(Quoted(ch) + tail, s) == Scan(tail, s.(field := s.field + [ch]))
  {
    assert (Quoted(ch) + tail)[|Quoted(ch)|..] == tail;
  }

  lemma {:induction false} ScanDoubled(cell: string, tail: string, s: Scanner)
    requires s.inQuotes
    ensures Scan(Doubled(cell) + tail, s) == Scan(tail, s.(field := s.field + cell))
    decreases |cell|
  {
    if cell == "" {
      assert Doubled(cell) + tail == tail;
      assert s.field + cell == s.field;
    } else {
      var more := Doubled(cell[1..]) + tail;
      assert Doubled(cell) + tail == Quoted(cell[0]) + more;
      ScanQuotedChar(cell[0], more, s);
      var t := s.(field := s.field + [cell[0]]);
      ScanDoubled(cell[1..], tail, t);
      assert t.field + cell[1..] == s.field + cell;
    }
  }

  lemma ScanClosing(rest: string, s: Scanner)
    requires s.inQuotes && (rest == "" || rest[0] != QUOTE)
    ensures Scan([QUOTE] + rest, s) == Scan(rest, s.(inQuotes := false))
  {
    assert ([QUOTE] + rest)[1..] == rest;
  }

  /** One printed cell, at the start of a field and followed by a separator. */
  lemma ScanCell(cell: string, rest: string, s: Scanner)
    requires !s.inQuotes && s.field == "" && rest != "" && rest[0] != QUOTE
    ensures Scan(Escaped(cell) + rest, s) == Scan(rest, s.(field := cell))
  {
    assert s.field + cell == cell;
    if NeedsQuotes(cell) {
      var tail := Doubled(cell) + ([QUOTE] + rest);
      assert Escaped(cell) + rest == [QUOTE] + tail;
      assert ([QUOTE] + tail)[1..] == tail;
      ScanDoubled(cell, [QUOTE] + rest, s.(inQuotes := true));
      ScanClosing(rest, s.(inQuotes := true, field := cell));
    } else {
      ScanPlain(cell, rest, s);
    }
  }

  /** What a printed row reads back as: an empty row is one empty cell. */
  function ReadBack(cells: Row): Row {
    if cells == [] then [""] else cells
  }

  lemma MoveFirst(row: Row, cells: Row)
    requires cells != []
    ensures row + [cells[0]] + cells[1..] == row + cells
  {
  }

  /** The first of several cells of a line. */
  lemma ScanFirstCell(cells: Row, rest: string, s: Scanner)
    requires !s.inQuotes && s.field == "" && |cells| >= 2
    ensures
      Scan(Line(cells) + rest, s) == Scan(Line(cells[1..]) + rest, EndField(s.(field := cells[0])))
  {
    var more := Line(cells[1..]) + rest;
    assert Line(cells) + rest == Escaped(cells[0]) + ("," + more);
    assert ("," + more)[1..] == more;
    ScanCell(cells[0], "," + more, s);
  }

  lemma ScanOnlyCell(cell: string, rest: string, s: Scanner)
    requires !s.inQuotes && s.field == ""
    ensures Scan(Escaped(cell) + ("\r\n" + rest), s) == Scan(rest, EndRow(s.(field := cell)))
  {
    var end := "\r\n" + rest;
    assert end[2..] == rest;
    ScanCell(cell, end, s);
  }

  lemma {:induction false} ScanLine(cells: Row, rest: string, s: Scanner)
    requires !s.inQuotes && s.field == ""
    ensures
      Scan(Line(cells) + ("\r\n" + rest), s) ==
      Scan(rest, s.(rows := s.rows + [s.row + ReadBack(cells)], row := []))
    decreases |cells|
  {
    if |cells| <= 1 {
      var cell := if cells == [] then "" else cells[0];
      assert Line(cells) == Escaped(cell) && ReadBack(cells) == [cell];
      ScanOnlyCell(cell, rest, s);
    } else {
      ScanFirstCell(cells, "\r\n" + rest, s);
      ScanLine(cells[1..], rest, EndField(s.(field := cells[0])));
      MoveFirst(s.row, cells);
    }
  }

  function ReadBacks(rows: seq<Row>): seq<Row> {
    if rows == [] then [] else [ReadBack(rows[0])] + ReadBacks(rows[1..])
  }

  lemma FirstLine(rows: seq<Row>, rest: string)
    requires rows != []
    ensures Lines(rows) + rest == Line(rows[0]) + ("\r\n" + (Lines(rows[1..]) + rest))
  {
  }

  /** At the start of a line, with these rows finished. */
  function Finished(rows: seq<Row>): Scanner {
    START.(rows := rows)
  }

  lemma ScanOneLine(cells: Row, rest: string, done: seq<Row>)
    ensures Scan(Line(cells) + ("\r\n" + rest), Finished(done)) == Scan(rest, Finished(done + [ReadBack(cells)]))
  {
    ScanLine(cells, rest, Finished(done));
    assert [] + ReadBack(cells) == ReadBack(cells);
  }

  /** The rows before a rest of the text. */
  lemma {:induction false} ScanLinesBefore(rows: seq<Row>, rest: string, done: seq<Row>)
    ensures Scan(Lines(rows) + rest, Finished(done)) == Scan(rest, Finished(done + ReadBacks(rows)))
    decreases |rows|
  {
    if rows == [] {
      assert Lines(rows) + rest == rest && done + ReadBacks(rows) == done;
    } else {
      var more := done + [ReadBack(rows[0])];
      FirstLine(rows, rest);
      ScanOneLine(rows[0], Lines(rows[1..]) + rest, done);
      ScanLinesBefore(rows[1..], rest, more);
      assert more + ReadBacks(rows[1..]) == done + ReadBacks(rows);
    }
  }

  lemma ScanLines(rows: seq<Row>)
    ensures Scan(Lines(rows), START) == ReadBacks(rows)
  {
    assert Lines(rows) + "" == Lines(rows) && Finished([]) == START;
    ScanLinesBefore(rows, "", []);
    assert [] + ReadBacks(rows) == ReadBacks(rows);
  }

  /** A printed cell at the very end of the text. */
  lemma ScanLastCell(cell: string, s: Scanner)
    requires !s.inQuotes && s.field == ""
    ensures Scan(Escaped(cell), s) == Scan("", s.(field := cell))
  {
    assert s.field + cell == cell;
    if NeedsQuotes(cell) {
      var tail := Doubled(cell) + [QUOTE];
      assert Escaped(cell) == [QUOTE] + tail;
      assert ([QUOTE] + tail)[1..] == tail;
      ScanDoubled(cell, [QUOTE], s.(inQuotes := true));
      assert [QUOTE] + "" == [QUOTE];
      ScanClosing("", s.(inQuotes := true, field := cell));
    } else {
      assert cell + "" == cell;
      ScanPlain(cell, "", s);
    }
  }

  /** A printed row at the very end: it is read like any other, unless nothing was printed for it. */
  lemma {:induction false} ScanLastLine(cells: Row, s: Scanner)
    requires !s.inQuotes && s.field == ""
    requires cells != [] && (|cells| == 1 && s.row == [] ==> cells[0] != "")
    ensures Scan(Line(cells), s) == s.rows + [s.row + cells]
    decreases |cells|
  {
    if |cells| == 1 {
      assert cells == [cells[0]];
      ScanLastCell(cells[0], s);
    } else {
      assert Line(cells) + "" == Line(cells) && Line(cells[1..]) + "" == Line(cells[1..]);
      ScanFirstCell(cells, "", s);
      ScanLastLine(cells[1..], EndField(s.(field := cells[0])));
      MoveFirst(s.row, cells);
    }
  }

  /**
   * A last line without a line end: its row, last field included, is read like the others, except that
   * a row for which nothing is printed is not there.
   */
  lemma NoFinalBreak(rows: seq<Row>, last: Row)
    ensures
      Scan(Lines(rows) + Line(last), START) ==
      ReadBacks(rows) + if ReadBack(last) == [""] then [] else [last]
  {
    ScanLinesBefore(rows, Line(last), []);
    var s := Finished(ReadBacks(rows));
    assert [] + ReadBacks(rows) == ReadBacks(rows) && Finished([]) == START;
    if ReadBack(last) == [""] {
      assert Line(last) == "";
      assert s.rows + [] == s.rows;
    } else {
      ScanLastLine(last, s);
      assert [] + last == last;
    }
  }

  /** The text starts with a byte order mark: the header's first cell does, and is printed unquoted. */
  predicate StartsWithBom(headers: Row) {
    headers != [] && headers[0] != "" && headers[0][0] == BOM && !NeedsQuotes(headers[0])
  }

  function WithoutBom(headers: Row): Row {
    if StartsWithBom(headers) then [headers[0][1..]] + headers[1..] else headers
  }

  lemma StripBomLine(headers: Row, rest: string)
    requires rest != "" && rest[0] != BOM
    ensures StripBom(Line(headers) + rest) == Line(WithoutBom(headers)) + rest
  {
    if StartsWithBom(headers) {
      MarkedLine(headers);
      assert (Line(headers) + rest)[1..] == Line(headers)[1..] + rest;
    } else if headers != [] {
      assert Escaped(headers[0]) != "" ==> (Line(headers) + rest)[0] == Escaped(headers[0])[0];
    }
  }

  lemma MarkedLine(headers: Row)
    requires StartsWithBom(headers)
    ensures Line(headers) != "" && Line(headers)[0] == BOM && Line(headers)[1..] == Line(WithoutBom(headers))
  {
    TailUnquoted(headers[0]);
    assert WithoutBom(headers)[1..] == headers[1..];
  }

  lemma TailUnquoted(h: string)
    requires h != "" && !NeedsQuotes(h)
    ensures !NeedsQuotes(h[1..])
  {
    assert forall i | 0 <= i < |h[1..]| :: h[1..][i] == h[i + 1];
  }

  /** For every table: exactly what parsing the printed text gives. */
  lemma ParseSerialized(headers: Row, rows: seq<seq<Value>>)
    ensures Parse(SerializeCsv(headers, rows)) == ReadBacks([WithoutBom(headers)] + PlainRows(rows))
  {
    var body := PlainRows(rows);
    var table := [WithoutBom(headers)] + body;
    assert ([headers] + body)[1..] == body && table[1..] == body;
    StripBomLine(headers, "\r\n" + Lines(body));
    assert Line(headers) + ("\r\n" + Lines(body)) == Lines([headers] + body);
    assert Line(WithoutBom(headers)) + ("\r\n" + Lines(body)) == Lines(table);
    ScanLines(table);
  }

  predicate Filled<T(==)>(rows: seq<seq<T>>) {
    forall i | 0 <= i < |rows| :: rows[i] != []
  }

  lemma {:induction false} ReadBacksAre(rows: seq<Row>)
    ensures |ReadBacks(rows)| == |rows| && forall i | 0 <= i < |rows| :: ReadBacks(rows)[i] == ReadBack(rows[i])
  {
    if rows != [] {
      ReadBacksAre(rows[1..]);
    }
  }

  lemma ReadBacksIff(rows: seq<Row>)
    ensures ReadBacks(rows) == rows <==> Filled(rows)
  {
    ReadBacksAre(rows);
    if ReadBacks(rows) == rows {
      forall i | 0 <= i < |rows| ensures rows[i] != [] {
        assert ReadBacks(rows)[i] == rows[i];
      }
    }
  }

  lemma PlainFilled(rows: seq<seq<Value>>)
    ensures Filled(PlainRows(rows)) <==> Filled(rows)
  {
    forall i | 0 <= i < |rows| ensures PlainRows(rows)[i] != [] <==> rows[i] != [] {
    }
  }

  /** Without a header cell, or with the mark in it, the header reads back otherwise. */
  lemma HeaderReadsBack(headers: Row)
    ensures ReadBack(WithoutBom(headers)) == headers <==> headers != [] && !StartsWithBom(headers)
  {
    if StartsWithBom(headers) {
      assert |WithoutBom(headers)[0]| < |headers[0]|;
    }
  }

  /**
   * Parsing what was printed gives the header and the rows back exactly when every row, the header
   * included, has a cell and the text does not start with U+FEFF.
   */
  lemma RoundTrip(headers: Row, rows: seq<seq<Value>>)
    ensures
      Parse(SerializeCsv(headers, rows)) == [headers] + PlainRows(rows) <==>
      headers != [] && !StartsWithBom(headers) && Filled(rows)
  {
    ParseSerialized(headers, rows);
    HeaderReadsBack(headers);
    SameTable(WithoutBom(headers), headers, PlainRows(rows));
    PlainFilled(rows);
  }

  lemma SameTable(first: Row, headers: Row, rows: seq<Row>)
    ensures ReadBacks([first] + rows) == [headers] + rows <==> ReadBack(first) == headers && Filled(rows)
  {
    ReadBacksIff(rows);
    assert ([first] + rows)[1..] == rows;
    var left, right := [ReadBack(first)] + ReadBacks(rows), [headers] + rows;
    assert left == right ==> left[0] == right[0] && left[1..] == right[1..];
    assert left[1..] == ReadBacks(rows) && right[1..] == rows;
  }

  /** The printed text starts with U+FEFF exactly in the case the round trip leaves out. */
  lemma SerializedBom(headers: Row, rows: seq<seq<Value>>)
    ensures
      var text := SerializeCsv(headers, rows);
      text != "" && (text[0] == BOM <==> StartsWithBom(headers))
  {
    assert ([headers] + PlainRows(rows))[0] == headers;
    var text := SerializeCsv(headers, rows);
    if headers != [] && Escaped(headers[0]) != "" {
      assert text[0] == Escaped(headers[0])[0];
    }
  }
}
