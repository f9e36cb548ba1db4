/**
 * The numbers an import reports and the lines of its file: when they are the same.
 */
module CsvLines {
  import opened Csv
  import opened CsvImport

  // ----- lines of a text -----

  /** A line ends at this character; CR LF is one line end. */
  predicate BreakAt(text: string, i: nat)
    requires i < |text|
  {
    text[i] == '\n' || (text[i] == '\r' && !(i + 1 < |text| && text[i + 1] == '\n'))
  }

  function BreaksTo(text: string, i: nat): nat
    requires i <= |text|
  {
    if i == 0 then 0 else BreaksTo(text, i - 1) + if BreakAt(text, i - 1) then 1 else 0
  }

  // ----- where the rows of a text stand -----

  /** The offset a row starts at, and how many line ends inside quotes come before it. */
  datatype Place = Place(start: nat, quoted: nat)

  /** The places of the finished rows, that of the current row, and the line ends inside quotes so far. */
  datatype Track = Track(places: seq<Place>, first: Place, quoted: nat)

  /** A character inside quotes: it may end a line of the file. */
  function Quoted(text: string, i: nat, t: Track): Track
    requires i < |text|
  {
    if BreakAt(text, i) then t.(quoted := t.quoted + 1) else t
  }

  /** The scanner outside quotes, at a character that ends no row. */
  function Outside(c: char, s: Scanner): Scanner {
    if c == QUOTE then s.(inQuotes := true) else if c == ',' then EndField(s) else s.(field := s.field + [c])
  }

  /** The scanner once more, noting places instead of cells; `i` is the offset of the rest. */
  function PlacesFrom(text: string, i: nat, s: Scanner, t: Track): seq<Place>
    requires i <= |text|
    decreases |text| - i
  {
    if i == |text| then
      if |s.field| > 0 || |s.row| > 0 then t.places + [t.first] else t.places
    else
      var c := text[i];
      if s.inQuotes then
        if c == QUOTE then
          if i + 1 < |text| && text[i + 1] == QUOTE then PlacesFrom(text, i + 2, s.(field := s.field + [QUOTE]), t)
          else PlacesFrom(text, i + 1, s.(inQuotes := false), t)
        else PlacesFrom(text, i + 1, s.(field := s.field + [c]), Quoted(text, i, t))
      else if c == QUOTE then PlacesFrom(text, i + 1, s.(inQuotes := true), t)
      else if c == ',' then PlacesFrom(text, i + 1, EndField(s), t)
      else if c == '\n' || c == '\r' then
        var n := if c == '\r' && i + 1 < |text| && text[i + 1] == '\n' then i + 2 else i + 1;
        PlacesFrom(text, n, EndRow(s), Track(t.places + [t.first], Place(n, t.quoted), t.quoted))
      else PlacesFrom(text, i + 1, s.(field := s.field + [c]), t)
  }

  function Places(text: string): seq<Place> {
    PlacesFrom(text, 0, START, Track([], Place(0, 0), 0))
  }

  /** The places fit what has been read: a row's line counts the rows and the quoted line ends before it. */
  predicate Fits(text: string, i: nat, rows: nat, t: Track)
    requires i <= |text|
  {
    && |t.places| == rows
    && (forall k | 0 <= k < rows ::
          t.places[k].start <= |text| && BreaksTo(text, t.places[k].start) == k + t.places[k].quoted)
    && t.first.start <= |text| && BreaksTo(text, t.first.start) == rows + t.first.quoted
    && BreaksTo(text, i) == rows + t.quoted
  }

  predicate PlacesFit(text: string, places: seq<Place>, rows: nat) {
    && |places| == rows
    && forall k | 0 <= k < rows :: places[k].start <= |text| && BreaksTo(text, places[k].start) == k + places[k].quoted
  }

  lemma PlainStep(text: string, i: nat, rows: nat, t: Track)
    requires i < |text| && Fits(text, i, rows, t) && text[i] != '\n' && text[i] != '\r'
    ensures Fits(text, i + 1, rows, t)
  {
  }

  lemma QuotedStep(text: string, i: nat, rows: nat, t: Track)
    requires i < |text| && Fits(text, i, rows, t)
    ensures Fits(text, i + 1, rows, Quoted(text, i, t))
  {
  }

  lemma RowStep(text: string, i: nat, rows: nat, t: Track)
    requires i < |text| && Fits(text, i, rows, t) && (text[i] == '\n' || text[i] == '\r')
    ensures
      var n := if text[i] == '\r' && i + 1 < |text| && text[i + 1] == '\n' then i + 2 else i + 1;
      Fits(text, n, rows + 1, Track(t.places + [t.first], Place(n, t.quoted), t.quoted))
  {
    var n := if text[i] == '\r' && i + 1 < |text| && text[i + 1] == '\n' then i + 2 else i + 1;
    assert BreaksTo(text, n) == BreaksTo(text, i) + 1;
  }

  /** Every row of the text has its place. */
  lemma {:induction false} ScanPlaces(text: string, i: nat, s: Scanner, t: Track)
    requires i <= |text| && Fits(text, i, |s.rows|, t)
    ensures PlacesFit(text, PlacesFrom(text, i, s, t), |Scan(text[i..], s)|)
    decreases |text| - i
  {
    if i < |text| {
      var c := text[i];
      assert text[i..][1..] == text[i + 1..];
      assert i + 1 < |text| ==> text[i..][1] == text[i + 1] && text[i..][2..] == text[i + 2..];
      if s.inQuotes {
        ScanQuotedPlaces(text, i, s, t);
      } else if c == '\n' || c == '\r' {
        RowStep(text, i, |s.rows|, t);
        var n := if c == '\r' && i + 1 < |text| && text[i + 1] == '\n' then i + 2 else i + 1;
        ScanPlaces(text, n, EndRow(s), Track(t.places + [t.first], Place(n, t.quoted), t.quoted));
      } else {
        PlainStep(text, i, |s.rows|, t);
        ScanPlaces(text, i + 1, Outside(c, s), t);
      }
    }
  }

  lemma {:induction false} ScanQuotedPlaces(text: string, i: nat, s: Scanner, t: Track)
    requires i < |text| && Fits(text, i, |s.rows|, t) && s.inQuotes
    ensures PlacesFit(text, PlacesFrom(text, i, s, t), |Scan(text[i..], s)|)
    decreases |text| - i, 0
  {
    var c := text[i];
    assert text[i..][1..] == text[i + 1..];
    assert i + 1 < |text| ==> text[i..][1] == text[i + 1] && text[i..][2..] == text[i + 2..];
    if c == QUOTE {
      PlainStep(text, i, |s.rows|, t);
      if i + 1 < |text| && text[i + 1] == QUOTE {
        PlainStep(text, i + 1, |s.rows|, t);
        ScanPlaces(text, i + 2, s.(field := s.field + [QUOTE]), t);
      } else {
        ScanPlaces(text, i + 1, s.(inQuotes := false), t);
      }
    } else {
      QuotedStep(text, i, |s.rows|, t);
      ScanPlaces(text, i + 1, s.(field := s.field + [c]), Quoted(text, i, t));
    }
  }

  /** The line of the file on which row `k` starts, from 1. */
  function FileLine(input: string, k: nat): nat
    requires k < |Parse(input)|
  {
    var text := StripBom(input);
    PlacesOfRows(input);
    1 + BreaksTo(text, Places(text)[k].start)
  }

  lemma PlacesOfRows(input: string)
    ensures PlacesFit(StripBom(input), Places(StripBom(input)), |Parse(input)|)
  {
    var text := StripBom(input);
    assert text[0..] == text;
    ScanPlaces(text, 0, START, Track([], Place(0, 0), 0));
  }

  // ----- a place is where its row starts -----

  /** Scanning from this offset, with the first `k` rows finished, gives all rows: row `k` starts here. */
  predicate StartsAt(text: string, all: seq<Row>, k: nat, start: nat) {
    start <= |text| && k <= |all| && Scan(text[start..], START.(rows := all[..k])) == all
  }

  predicate AllStart(text: string, all: seq<Row>, places: seq<Place>) {
    forall k | 0 <= k < |places| :: StartsAt(text, all, k, places[k].start)
  }

  lemma {:induction false} ScanExtends(rest: string, s: Scanner)
    ensures s.rows <= Scan(rest, s)
    decreases |rest|
  {
    if rest != "" {
      var c := rest[0];
      if s.inQuotes {
        if c == QUOTE {
          if |rest| > 1 && rest[1] == QUOTE { ScanExtends(rest[2..], s.(field := s.field + [QUOTE])); }
          else { ScanExtends(rest[1..], s.(inQuotes := false)); }
        } else { ScanExtends(rest[1..], s.(field := s.field + [c])); }
      } else if c == QUOTE { ScanExtends(rest[1..], s.(inQuotes := true)); }
      else if c == ',' { ScanExtends(rest[1..], EndField(s)); }
      else if c == '\n' || c == '\r' {
        ScanExtends(if c == '\r' && |rest| > 1 && rest[1] == '\n' then rest[2..] else rest[1..], EndRow(s));
      } else { ScanExtends(rest[1..], s.(field := s.field + [c])); }
    }
  }

  lemma RowStarts(text: string, all: seq<Row>, n: nat, s: Scanner, t: Track)
    requires n <= |text| && !s.inQuotes && all == Scan(text[n..], EndRow(s))
    requires |t.places| == |s.rows| && AllStart(text, all, t.places + [t.first])
    ensures |t.places + [t.first]| == |EndRow(s).rows|
    ensures AllStart(text, all, t.places + [t.first] + [Place(n, t.quoted)])
  {
    ScanExtends(text[n..], EndRow(s));
    assert EndRow(s) == START.(rows := all[..|s.rows| + 1]);
  }

  lemma {:induction false} ScanStarts(text: string, i: nat, s: Scanner, t: Track, all: seq<Row>)
    requires i <= |text| && all == Scan(text[i..], s)
    requires |t.places| == |s.rows| && AllStart(text, all, t.places + [t.first])
    ensures AllStart(text, all, PlacesFrom(text, i, s, t))
    decreases |text| - i
  {
    if i == |text| {
      assert t.places == (t.places + [t.first])[..|t.places|];
    } else {
      var c := text[i];
      assert text[i..][1..] == text[i + 1..];
      assert i + 1 < |text| ==> text[i..][1] == text[i + 1] && text[i..][2..] == text[i + 2..];
      if s.inQuotes {
        if c == QUOTE {
          if i + 1 < |text| && text[i + 1] == QUOTE { ScanStarts(text, i + 2, s.(field := s.field + [QUOTE]), t, all); }
          else { ScanStarts(text, i + 1, s.(inQuotes := false), t, all); }
        } else {
          ScanStarts(text, i + 1, s.(field := s.field + [c]), Quoted(text, i, t), all);
        }
      } else if c == '\n' || c == '\r' {
        var n := if c == '\r' && i + 1 < |text| && text[i + 1] == '\n' then i + 2 else i + 1;
        RowStarts(text, all, n, s, t);
        ScanStarts(text, n, EndRow(s), Track(t.places + [t.first], Place(n, t.quoted), t.quoted), all);
      } else {
        ScanStarts(text, i + 1, Outside(c, s), t, all);
      }
    }
  }

  /** Every row of the file starts at its place. */
  lemma RowsStartAtPlaces(input: string)
    ensures |Places(StripBom(input))| == |Parse(input)|
    ensures AllStart(StripBom(input), Parse(input), Places(StripBom(input)))
  {
    var text, all := StripBom(input), Parse(input);
    PlacesOfRows(input);
    assert text[0..] == text && START.(rows := all[..0]) == START;
    ScanStarts(text, 0, START, Track([], Place(0, 0), 0), all);
  }

  // ----- which rows count -----

  /** The positions of the rows that are not blank. */
  function Kept(p: Platform, rows: seq<Row>): seq<nat> {
    if rows == [] then []
    else
      var n := |rows| - 1;
      Kept(p, rows[..n]) + if Blank(p, rows[n]) then [] else [n]
  }

  function Blanks(p: Platform, rows: seq<Row>): nat {
    if rows == [] then 0
    else Blanks(p, rows[..|rows| - 1]) + if Blank(p, rows[|rows| - 1]) then 1 else 0
  }

  lemma {:induction false} NonBlankLast(p: Platform, rows: seq<Row>, r: Row)
    ensures NonBlank(p, rows + [r]) == NonBlank(p, rows) + if Blank(p, r) then [] else [r]
  {
    if rows == [] {
      assert ([r])[1..] == [];
    } else {
      assert (rows + [r])[1..] == rows[1..] + [r];
      NonBlankLast(p, rows[1..], r);
    }
  }

  /** The i-th row that counts stands at a position that is i plus the blank rows before it. */
  lemma {:induction false} KeptIs(p: Platform, rows: seq<Row>)
    ensures
      var kept := Kept(p, rows);
      && |kept| == |NonBlank(p, rows)| == |rows| - Blanks(p, rows)
      && (forall i | 0 <= i < |kept| ::
            kept[i] < |rows| && rows[kept[i]] == NonBlank(p, rows)[i] && kept[i] == i + Blanks(p, rows[..kept[i]]))
  {
    if rows != [] {
      var n := |rows| - 1;
      KeptIs(p, rows[..n]);
      NonBlankLast(p, rows[..n], rows[n]);
      assert rows == rows[..n] + [rows[n]];
      var before := Kept(p, rows[..n]);
      forall i | 0 <= i < |before|
        ensures rows[..before[i]] == rows[..n][..before[i]] && rows[before[i]] == rows[..n][before[i]]
      {
      }
    }
  }

  lemma {:induction false} NoBlanksIff(p: Platform, rows: seq<Row>)
    ensures Blanks(p, rows) == 0 <==> forall r | r in rows :: !Blank(p, r)
  {
    if rows != [] {
      var n := |rows| - 1;
      NoBlanksIff(p, rows[..n]);
      assert rows == rows[..n] + [rows[n]];
    }
  }

  // ----- the reported number -----

  /** No blank row, and no line end inside quotes, before row `k`. */
  predicate PlainBefore(p: Platform, input: string, k: nat)
    requires k < |Parse(input)|
  {
    PlacesOfRows(input);
    (forall r | r in Parse(input)[..k] :: !Blank(p, r)) && Places(StripBom(input))[k].quoted == 0
  }

  /**
   * The number stands for a row that counts, the header being number 1, and it is that row's line in the
   * file if and only if no blank row and no line end inside quotes comes before it.
   */
  predicate NumberFits(p: Platform, input: string, number: nat) {
    var rows := Parse(input);
    var kept := Kept(p, rows);
    && 1 <= number <= |kept| == |NonBlank(p, rows)|
    && kept[number - 1] < |rows| && rows[kept[number - 1]] == NonBlank(p, rows)[number - 1]
    && (number == FileLine(input, kept[number - 1]) <==> PlainBefore(p, input, kept[number - 1]))
  }

  /** Number 1 stands for the header. */
  lemma NumberIsLineIff(p: Platform, input: string, number: nat)
    requires 1 <= number <= |NonBlank(p, Parse(input))|
    ensures NumberFits(p, input, number)
  {
    var rows := Parse(input);
    KeptIs(p, rows);
    PlacesOfRows(input);
    NoBlanksIff(p, rows[..Kept(p, rows)[number - 1]]);
  }

  /** The rejections of an import whose header is in order. */
  function Rejections(p: Platform, input: string, existing: set<string>): seq<Reject> {
    var kept := NonBlank(p, Parse(input));
    RejectedRows(existing, Checks(p, kept), |kept|)
  }

  lemma NumberInRange(existing: set<string>, cs: seq<Check>, n: nat, r: Reject)
    requires n <= |cs| && r in RejectedRows(existing, cs, n)
    ensures 2 <= r.line <= n
  {
    RejectsAscend(existing, cs, n);
  }

  /**
   * A rejected data row's number is the line it starts on exactly if no blank row and no quoted line end precedes
   * it.
   */
  lemma RejectLineIff(p: Platform, input: string, existing: set<string>, r: Reject)
    requires r in Rejections(p, input, existing)
    ensures NumberFits(p, input, r.line)
  {
    var kept := NonBlank(p, Parse(input));
    NumberInRange(existing, Checks(p, kept), |kept|, r);
    NumberIsLineIff(p, input, r.line);
  }

  // ----- an input where they differ -----

  /** A platform without white space or letter case. */
  function Bare(): Platform {
    Platform((s: string) => s, (c: char) => false)
  }

  lemma BareTrim(s: string)
    ensures Trim(Bare(), s) == s
  {
  }

  lemma BareBlank(cell: string)
    ensures Blank(Bare(), [cell]) <==> cell == ""
  {
    BareTrim(cell);
    assert [cell][0] == cell;
  }

  lemma HeaderCounts()
    ensures HeaderOk(Bare(), HEADERS) && !Blank(Bare(), HEADERS)
  {
    forall i | 0 <= i < |HEADERS| ensures Trim(Bare(), HEADERS[i]) == HEADERS[i] {
      BareTrim(HEADERS[i]);
    }
    assert Trim(Bare(), HEADERS[0]) != "";
  }

  lemma BlankDropped()
    ensures NonBlank(Bare(), [HEADERS, [""], ["x"]]) == [HEADERS, ["x"]]
  {
    var rows := [HEADERS, [""], ["x"]];
    HeaderCounts();
    BareBlank("");
    BareBlank("x");
    assert rows[1..] == [[""], ["x"]] && rows[1..][1..] == [["x"]] && rows[1..][1..][1..] == [];
    assert NonBlank(Bare(), [["x"]]) == [["x"]];
    assert NonBlank(Bare(), [[""], ["x"]]) == [["x"]];
  }

  lemma ShortRowRejected()
    ensures RejectedRows({}, Checks(Bare(), [HEADERS, ["x"]]), 2) == [Reject(2, TooFewColumns(1))]
  {
    var cs := Checks(Bare(), [HEADERS, ["x"]]);
    assert cs[1] == Bad(TooFewColumns(1));
    assert RejectedRows({}, cs, 1) == [];
  }

  lemma BlankRowText() returns (input: string)
    ensures Parse(input) == [HEADERS, [""], ["x"]]
  {
    var rows := [[Text("")], [Text("x")]];
    input := SerializeCsv(HEADERS, rows);
    SimpleTable(rows);
    ParseSerialized(HEADERS, rows);
    assert WithoutBom(HEADERS) == HEADERS;
    var table := [HEADERS, [""], ["x"]];
    assert [HEADERS] + [[""], ["x"]] == table;
    ReadBacksIff(table);
  }

  /** A blank row shifts the numbers: the only data row, on line 3 or later, is rejected as number 2. */
  lemma BlankRowShifts() returns (input: string)
    ensures Parse(input) == [HEADERS, [""], ["x"]] && HeaderOk(Bare(), HEADERS)
    ensures Rejections(Bare(), input, {}) == [Reject(2, TooFewColumns(1))]
    ensures FileLine(input, 2) >= 3
  {
    input := BlankRowText();
    PlacesOfRows(input);
    HeaderCounts();
    BlankDropped();
    ShortRowRejected();
  }

  lemma SimpleTable(rows: seq<seq<Value>>)
    requires rows == [[Text("")], [Text("x")]]
    ensures PlainRows(rows) == [[""], ["x"]]
  {
    assert rows[1..] == [[Text("x")]] && rows[1..][1..] == [];
    assert PlainRow([Text("")]) == [""] && PlainRow([Text("x")]) == ["x"];
  }
}
