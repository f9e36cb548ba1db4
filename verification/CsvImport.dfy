/**
 * The bulk-import validator: every non-blank data row is accepted or rejected, in order, and of the
 * rows that share a source address the first valid one wins.
 *
 * White space and lower-casing belong to the platform and are parameters.
 */
module CsvImport {
  import opened Wrappers
  import opened Csv

  datatype Platform = Platform(lower: string -> string, isSpace: char -> bool)

  datatype ImportRow = ImportRow(
    sourceEmail: string,
    targetEmail: Option<string>,
    migrateExchange: bool,
    migrateOneDrive: bool,
    autoCreateTarget: bool)

  datatype Reason =
    | FileEmpty | BadHeader | TooFewColumns(got: nat) | SourceRequired | MalformedSource(email: string)
    | BadFlags | MalformedTarget(email: string) | NoWorkload | UnresolvableTarget | DuplicateSource(email: string)

  datatype Reject = Reject(line: nat, reason: Reason)

  const HEADERS := ["SourceEmail", "TargetEmail", "MigrateExchange", "MigrateOneDrive", "AutoCreateTarget"]

  // ----- cells -----

  function TrimLeft(p: Platform, s: string): string {
    if s != "" && p.isSpace(s[0]) then TrimLeft(p, s[1..]) else s
  }

  function TrimRight(p: Platform, s: string): string {
    if s != "" && p.isSpace(s[|s| - 1]) then TrimRight(p, s[..|s| - 1]) else s
  }

  function Trim(p: Platform, s: string): string {
    TrimRight(p, TrimLeft(p, s))
  }

  /** One `@`, text before it, and a dot inside what follows; no white space. */
  predicate IsEmail(p: Platform, s: string) {
    exists at, dot ::
      && 1 <= at && at + 2 <= dot && dot + 2 <= |s| && s[at] == '@' && s[dot] == '.'
      && forall k | 0 <= k < |s| && k != at :: s[k] != '@' && !p.isSpace(s[k])
  }

  function ParseBool(p: Platform, raw: string): Option<bool> {
    var v := p.lower(Trim(p, raw));
    if v in ["true", "1", "yes", "y"] then Some(true)
    else if v in ["false", "0", "no", "n", ""] then Some(false)
    else None
  }

  predicate Blank(p: Platform, r: Row) {
    forall i | 0 <= i < |r| :: Trim(p, r[i]) == ""
  }

  function NonBlank(p: Platform, rows: seq<Row>): seq<Row> {
    if rows == [] then []
    else (if Blank(p, rows[0]) then [] else [rows[0]]) + NonBlank(p, rows[1..])
  }

  predicate HeaderOk(p: Platform, header: Row) {
    |header| >= |HEADERS| && forall i | 0 <= i < |HEADERS| :: p.lower(Trim(p, header[i])) == p.lower(HEADERS[i])
  }

  // ----- one row on its own -----

  datatype Check = Bad(reason: Reason) | Good(row: ImportRow, key: string)

  /** Everything but the duplicate check. */
  function CheckRow(p: Platform, cols: Row): Check {
    if |cols| < |HEADERS| then Bad(TooFewColumns(|cols|))
    else
      var source, target := Trim(p, cols[0]), Trim(p, cols[1]);
      var exchange, oneDrive, create := ParseBool(p, cols[2]), ParseBool(p, cols[3]), ParseBool(p, cols[4]);
      if source == "" then Bad(SourceRequired)
      else if !IsEmail(p, source) then Bad(MalformedSource(source))
      else if exchange.None? || oneDrive.None? || create.None? then Bad(BadFlags)
      else if target != "" && !IsEmail(p, target) then Bad(MalformedTarget(target))
      else if !exchange.value && !oneDrive.value then Bad(NoWorkload)
      else if target == "" && !create.value then Bad(UnresolvableTarget)
      else
        var to := if target == "" then None else Some(target);
        Good(ImportRow(source, to, exchange.value, oneDrive.value, create.value), p.lower(source))
  }

  /** The verdicts on all rows of the file, header included. */
  function Checks(p: Platform, rows: seq<Row>): (cs: seq<Check>)
    ensures |cs| == |rows| && forall i | 0 <= i < |rows| :: cs[i] == CheckRow(p, rows[i])
  {
    if rows == [] then [] else [CheckRow(p, rows[0])] + Checks(p, rows[1..])
  }

  // ----- the whole file, row by row -----

  predicate HasKey(c: Check, key: string) {
    c.Good? && c.key == key
  }

  /** Valid, new, and the first valid row of the file with its address; position 0 is the header. */
  predicate Accepts(existing: set<string>, cs: seq<Check>, i: nat)
    requires i < |cs|
  {
    cs[i].Good? && cs[i].key !in existing && forall j | 1 <= j < i :: !HasKey(cs[j], cs[i].key)
  }

  /** The line counts non-blank rows from 1. */
  function RejectionOf(c: Check, i: nat): Reject {
    match c
    case Bad(reason) => Reject(i + 1, reason)
    case Good(r, _) => Reject(i + 1, DuplicateSource(r.sourceEmail))
  }

  /** The accepted rows among the data rows before position `n`, in order. */
  function AcceptedRows(existing: set<string>, cs: seq<Check>, n: nat): seq<ImportRow>
    requires n <= |cs|
  {
    if n <= 1 then []
    else AcceptedRows(existing, cs, n - 1) + (if Accepts(existing, cs, n - 1) then [cs[n - 1].row] else [])
  }

  function RejectedRows(existing: set<string>, cs: seq<Check>, n: nat): seq<Reject>
    requires n <= |cs|
  {
    if n <= 1 then []
    else
      RejectedRows(existing, cs, n - 1) +
      (if Accepts(existing, cs, n - 1) then [] else [RejectionOf(cs[n - 1], n - 1)])
  }

  function Lowered(p: Platform, emails: seq<string>): set<string> {
    set e | e in emails :: p.lower(e)
  }

  /** `seen` is what the loop has remembered when it comes to row `i`. */
  predicate Seen(existing: set<string>, cs: seq<Check>, i: nat, seen: set<string>)
    requires i <= |cs|
  {
    && existing <= seen
    && (forall j | 1 <= j < i && cs[j].Good? :: cs[j].key in seen)
    && (forall k | k in seen :: k in existing || exists j :: 1 <= j < i && HasKey(cs[j], k))
  }

  /** The loop over the data rows. */
  method Judge(cs: seq<Check>, existing: set<string>) returns (accepted: seq<ImportRow>, rejected: seq<Reject>)
    requires cs != []
    ensures accepted == AcceptedRows(existing, cs, |cs|)
    ensures rejected == RejectedRows(existing, cs, |cs|)
  {
    accepted, rejected := [], [];
    var seen := existing;
    for i := 1 to |cs|
      invariant accepted == AcceptedRows(existing, cs, i)
      invariant rejected == RejectedRows(existing, cs, i)
      invariant Seen(existing, cs, i, seen)
    {
      var check := cs[i];
      if check.Bad? {
        rejected := rejected + [Reject(i + 1, check.reason)];
      } else if check.key in seen {
        assert !Accepts(existing, cs, i);
        rejected := rejected + [Reject(i + 1, DuplicateSource(check.row.sourceEmail))];
      } else {
        assert Accepts(existing, cs, i);
        assert HasKey(cs[i], check.key);
        seen := seen + {check.key};
        accepted := accepted + [check.row];
      }
    }
  }

  method ValidateImportCsv(p: Platform, text: string, existingEmails: seq<string>)
    returns (accepted: seq<ImportRow>, rejected: seq<Reject>)
    ensures
      var rows := NonBlank(p, Parse(text));
      var existing := Lowered(p, existingEmails);
      if rows == [] then accepted == [] && rejected == [Reject(1, FileEmpty)]
      else if !HeaderOk(p, rows[0]) then accepted == [] && rejected == [Reject(1, BadHeader)]
      else
        && accepted == AcceptedRows(existing, Checks(p, rows), |rows|)
        && rejected == RejectedRows(existing, Checks(p, rows), |rows|)
  {
    var parsed := ParseCsv(text);
    var rows := NonBlank(p, parsed);
    if rows == [] { return [], [Reject(1, FileEmpty)]; }
    if !HeaderOk(p, rows[0]) { return [], [Reject(1, BadHeader)]; }
    accepted, rejected := Judge(Checks(p, rows), Lowered(p, existingEmails));
  }

  // ----- what the partition guarantees -----

  /** Each data row yields exactly one verdict. */
  lemma {:induction false} EveryRowJudged(existing: set<string>, cs: seq<Check>, n: nat)
    requires 1 <= n <= |cs|
    ensures |AcceptedRows(existing, cs, n)| + |RejectedRows(existing, cs, n)| == n - 1
  {
    if n > 1 {
      EveryRowJudged(existing, cs, n - 1);
    }
  }

  /** `rs` are rejections of data rows before `n` that are not accepted, each once and in order. */
  predicate AreRejects(existing: set<string>, cs: seq<Check>, n: nat, rs: seq<Reject>)
    requires n <= |cs|
  {
    && (forall a, b | 0 <= a < b < |rs| :: rs[a].line < rs[b].line)
    && (forall a | 0 <= a < |rs| :: 2 <= rs[a].line <= n)
    && (forall a | 0 <= a < |rs| :: !Accepts(existing, cs, rs[a].line - 1))
    && (forall a | 0 <= a < |rs| :: rs[a] == RejectionOf(cs[rs[a].line - 1], rs[a].line - 1))
  }

  lemma {:induction false} RejectsAscend(existing: set<string>, cs: seq<Check>, n: nat)
    requires n <= |cs|
    ensures AreRejects(existing, cs, n, RejectedRows(existing, cs, n))
  {
    if n > 1 {
      RejectsAscend(existing, cs, n - 1);
      var before := RejectedRows(existing, cs, n - 1);
      var last := if Accepts(existing, cs, n - 1) then [] else [RejectionOf(cs[n - 1], n - 1)];
      RejectsExtend(existing, cs, n - 1, before, last);
    }
  }

  lemma RejectsExtend(existing: set<string>, cs: seq<Check>, i: nat, before: seq<Reject>, last: seq<Reject>)
    requires 1 <= i < |cs| && AreRejects(existing, cs, i, before)
    requires last == if Accepts(existing, cs, i) then [] else [RejectionOf(cs[i], i)]
    ensures AreRejects(existing, cs, i + 1, before + last)
  {
  }

  /** Where the k-th accepted row comes from. */
  lemma {:induction false} AcceptedFrom(existing: set<string>, cs: seq<Check>, n: nat, k: nat) returns (i: nat)
    requires n <= |cs| && k < |AcceptedRows(existing, cs, n)|
    ensures 1 <= i < n && Accepts(existing, cs, i)
    ensures AcceptedRows(existing, cs, n)[k] == cs[i].row && k == |AcceptedRows(existing, cs, i)|
  {
    if k < |AcceptedRows(existing, cs, n - 1)| {
      i := AcceptedFrom(existing, cs, n - 1, k);
    } else {
      i := n - 1;
    }
  }

  lemma {:induction false} AcceptedGrow(existing: set<string>, cs: seq<Check>, m: nat, n: nat)
    requires m <= n <= |cs|
    ensures |AcceptedRows(existing, cs, m)| <= |AcceptedRows(existing, cs, n)|
    decreases n
  {
    if m < n {
      AcceptedGrow(existing, cs, m, n - 1);
    }
  }

  /** Accepted addresses, lower-cased, are new and pairwise distinct. */
  lemma AcceptedDistinct(p: Platform, existing: set<string>, rows: seq<Row>, a: nat, b: nat)
    requires a < b < |AcceptedRows(existing, Checks(p, rows), |rows|)|
    ensures
      var rs := AcceptedRows(existing, Checks(p, rows), |rows|);
      && p.lower(rs[a].sourceEmail) !in existing
      && p.lower(rs[b].sourceEmail) !in existing
      && p.lower(rs[a].sourceEmail) != p.lower(rs[b].sourceEmail)
  {
    var cs := Checks(p, rows);
    var i := AcceptedFrom(existing, cs, |cs|, a);
    var j := AcceptedFrom(existing, cs, |cs|, b);
    if j <= i {
      AcceptedGrow(existing, cs, j, i);
    }
    KeyOfRow(p, rows[i]);
    KeyOfRow(p, rows[j]);
    assert HasKey(cs[i], cs[i].key);
  }

  lemma KeyOfRow(p: Platform, cols: Row)
    requires CheckRow(p, cols).Good?
    ensures CheckRow(p, cols).key == p.lower(CheckRow(p, cols).row.sourceEmail)
  {
  }

  /** Of the valid rows with one new address exactly the first is accepted. */
  lemma FirstWins(existing: set<string>, cs: seq<Check>, key: string, i: nat) returns (f: nat)
    requires 1 <= i < |cs| && HasKey(cs[i], key) && key !in existing
    ensures 1 <= f <= i && HasKey(cs[f], key)
    ensures forall j | 1 <= j < |cs| && HasKey(cs[j], key) :: f <= j && (Accepts(existing, cs, j) <==> j == f)
  {
    f := FirstWithKey(cs, key, i);
  }

  lemma {:induction false} FirstWithKey(cs: seq<Check>, key: string, i: nat) returns (f: nat)
    requires 1 <= i < |cs| && HasKey(cs[i], key)
    ensures 1 <= f <= i && HasKey(cs[f], key) && forall j | 1 <= j < f :: !HasKey(cs[j], key)
    decreases i
  {
    f := i;
    if j :| 1 <= j < i && HasKey(cs[j], key) {
      f := FirstWithKey(cs, key, j);
    }
  }

  // ----- an accepted row is the row that was written -----

  /** The cells of a row as the template has them. */
  function Cells(r: ImportRow): Row {
    [r.sourceEmail, if r.targetEmail.Some? then r.targetEmail.value else "",
     Word(r.migrateExchange), Word(r.migrateOneDrive), Word(r.autoCreateTarget)]
  }

  function Word(b: bool): string { if b then "true" else "false" }

  /** Lower-casing and white space leave the words alone. */
  ghost predicate Sane(p: Platform) {
    && p.lower("true") == "true" && p.lower("false") == "false"
    && forall c | c in "truefalse" :: !p.isSpace(c)
  }

  /** What the validator asks of a row. */
  predicate Sound(p: Platform, r: ImportRow) {
    && IsEmail(p, r.sourceEmail) && (r.targetEmail.Some? ==> IsEmail(p, r.targetEmail.value))
    && (r.migrateExchange || r.migrateOneDrive) && (r.targetEmail.None? ==> r.autoCreateTarget)
  }

  lemma EmailTrimmed(p: Platform, s: string)
    requires IsEmail(p, s)
    ensures s != "" && Trim(p, s) == s
  {
    var at, dot :|
      && 1 <= at && at + 2 <= dot && dot + 2 <= |s| && s[at] == '@' && s[dot] == '.'
      && forall k | 0 <= k < |s| && k != at :: s[k] != '@' && !p.isSpace(s[k]);
    assert !p.isSpace(s[0]) && !p.isSpace(s[|s| - 1]);
  }

  lemma WordTrimmed(p: Platform, b: bool)
    requires Sane(p)
    ensures ParseBool(p, Word(b)) == Some(b)
  {
    var w := Word(b);
    assert w[0] in "truefalse" && w[|w| - 1] in "truefalse";
    assert Trim(p, w) == w;
  }

  lemma EmptyTrimmed(p: Platform)
    ensures Trim(p, "") == ""
  {
  }

  /** Written out and checked again, a sound row comes back with every field as it was. */
  lemma RowComesBack(p: Platform, r: ImportRow)
    requires Sane(p) && Sound(p, r)
    ensures CheckRow(p, Cells(r)) == Good(r, p.lower(r.sourceEmail)) && !Blank(p, Cells(r))
  {
    EmailTrimmed(p, r.sourceEmail);
    EmptyTrimmed(p);
    if r.targetEmail.Some? {
      EmailTrimmed(p, r.targetEmail.value);
    }
    WordTrimmed(p, r.migrateExchange);
    WordTrimmed(p, r.migrateOneDrive);
    WordTrimmed(p, r.autoCreateTarget);
    assert Cells(r)[0] == r.sourceEmail;
  }

  // ----- what a cell may say -----

  /** Characters of one part of an address: no `@` and no white space, and at least one. */
  predicate AddressPart(p: Platform, s: string) {
    s != "" && forall k | 0 <= k < |s| :: s[k] != '@' && !p.isSpace(s[k])
  }

  function Address(name: string, domain: string, ending: string): string {
    name + "@" + domain + "." + ending
  }

  /** An address is a name, an `@`, a domain, a dot and an ending. */
  lemma EmailIff(p: Platform, s: string)
    requires !p.isSpace('.')
    ensures
      IsEmail(p, s) <==>
      exists name, domain, ending ::
        AddressPart(p, name) && AddressPart(p, domain) && AddressPart(p, ending) && s == Address(name, domain, ending)
  {
    if IsEmail(p, s) {
      var at, dot :|
        && 1 <= at && at + 2 <= dot && dot + 2 <= |s| && s[at] == '@' && s[dot] == '.'
        && forall k | 0 <= k < |s| && k != at :: s[k] != '@' && !p.isSpace(s[k]);
      PartWithin(p, s, at, 0, at);
      PartWithin(p, s, at, at + 1, dot);
      PartWithin(p, s, at, dot + 1, |s|);
      SplitAddress(s, at, dot);
    }
    if name, domain, ending :|
      AddressPart(p, name) && AddressPart(p, domain) && AddressPart(p, ending) && s == Address(name, domain, ending)
    {
      PartsMakeEmail(p, name, domain, ending);
    }
  }

  /** A stretch of an address beside its `@`. */
  lemma PartWithin(p: Platform, s: string, at: nat, lo: nat, hi: nat)
    requires lo < hi <= |s| && !(lo <= at < hi)
    requires forall k | 0 <= k < |s| && k != at :: s[k] != '@' && !p.isSpace(s[k])
    ensures AddressPart(p, s[lo..hi])
  {
    forall k | 0 <= k < hi - lo ensures s[lo..hi][k] != '@' && !p.isSpace(s[lo..hi][k]) {
      assert s[lo..hi][k] == s[lo + k];
    }
  }

  lemma SplitAddress(s: string, at: nat, dot: nat)
    requires at < dot < |s| && s[at] == '@' && s[dot] == '.'
    ensures s == Address(s[0..at], s[at + 1..dot], s[dot + 1..|s|])
  {
  }

  lemma PartsMakeEmail(p: Platform, name: string, domain: string, ending: string)
    requires AddressPart(p, name) && AddressPart(p, domain) && AddressPart(p, ending) && !p.isSpace('.')
    ensures IsEmail(p, Address(name, domain, ending))
  {
    var s := Address(name, domain, ending);
    var at, dot := |name|, |name| + 1 + |domain|;
    assert s[at] == '@' && s[dot] == '.';
    forall k | 0 <= k < |s| && k != at ensures s[k] != '@' && !p.isSpace(s[k]) {
      assert s[k] == if k < at then name[k] else if k < dot then domain[k - at - 1]
                     else if k == dot then '.' else ending[k - dot - 1];
    }
  }

  /** A flag says yes or no in one of these words, or nothing, whatever the case and the white space around it. */
  lemma FlagIs(p: Platform, raw: string)
    ensures
      var w := p.lower(Trim(p, raw));
      && (ParseBool(p, raw) == Some(true) <==> w == "true" || w == "1" || w == "yes" || w == "y")
      && (ParseBool(p, raw) == Some(false) <==> w == "false" || w == "0" || w == "no" || w == "n" || w == "")
  {
  }

  predicate FlagsRead(p: Platform, cols: Row)
    requires |cols| >= 5
  {
    ParseBool(p, cols[2]).Some? && ParseBool(p, cols[3]).Some? && ParseBool(p, cols[4]).Some?
  }

  /** The reason a row is rejected for is the first of these that applies. */
  lemma ReasonIs(p: Platform, cols: Row)
    ensures |cols| < 5 ==> CheckRow(p, cols) == Bad(TooFewColumns(|cols|))
    ensures |cols| >= 5 ==>
      var c := CheckRow(p, cols);
      var source, target := Trim(p, cols[0]), Trim(p, cols[1]);
      var read := IsEmail(p, source) && FlagsRead(p, cols);
      var targeted := read && (target == "" || IsEmail(p, target));
      var wanted := targeted && (ParseBool(p, cols[2]).value || ParseBool(p, cols[3]).value);
      && (c == Bad(SourceRequired) <==> source == "")
      && (c == Bad(MalformedSource(source)) <==> source != "" && !IsEmail(p, source))
      && (c == Bad(BadFlags) <==> IsEmail(p, source) && !FlagsRead(p, cols))
      && (c == Bad(MalformedTarget(target)) <==> read && target != "" && !IsEmail(p, target))
      && (c == Bad(NoWorkload) <==> targeted && !wanted)
      && (c == Bad(UnresolvableTarget) <==> wanted && target == "" && !ParseBool(p, cols[4]).value)
      && (c.Good? <==> wanted && (target != "" || ParseBool(p, cols[4]).value))
  {
    if |cols| >= 5 && IsEmail(p, Trim(p, cols[0])) {
      EmailTrimmed(p, Trim(p, cols[0]));
    }
  }

  /** A good row carries its cells: both addresses without white space around them, and the three flags. */
  lemma GoodCarries(p: Platform, cols: Row)
    requires CheckRow(p, cols).Good?
    ensures |cols| >= 5 && Sound(p, CheckRow(p, cols).row)
    ensures
      var r := CheckRow(p, cols).row;
      && r.sourceEmail == Trim(p, cols[0])
      && r.targetEmail == (if Trim(p, cols[1]) == "" then None else Some(Trim(p, cols[1])))
      && ParseBool(p, cols[2]) == Some(r.migrateExchange) && ParseBool(p, cols[3]) == Some(r.migrateOneDrive)
      && ParseBool(p, cols[4]) == Some(r.autoCreateTarget)
  {
  }

  /** The five columns by name and in this order, whatever their case and the white space; more columns may follow. */
  lemma HeaderIs(p: Platform, header: Row)
    ensures
      HeaderOk(p, header) <==>
      && |header| >= 5
      && p.lower(Trim(p, header[0])) == p.lower("SourceEmail") && p.lower(Trim(p, header[1])) == p.lower("TargetEmail")
      && p.lower(Trim(p, header[2])) == p.lower("MigrateExchange")
      && p.lower(Trim(p, header[3])) == p.lower("MigrateOneDrive")
      && p.lower(Trim(p, header[4])) == p.lower("AutoCreateTarget")
  {
    if |header| >= 5 {
      assert HEADERS[0] == "SourceEmail" && HEADERS[1] == "TargetEmail" && HEADERS[2] == "MigrateExchange";
      assert HEADERS[3] == "MigrateOneDrive" && HEADERS[4] == "AutoCreateTarget";
    }
  }

  /** No accepted address is one that exists already, whatever the case of either. */
  lemma AcceptedNotExisting(p: Platform, emails: seq<string>, rows: seq<Row>, a: nat, e: string)
    requires a < |AcceptedRows(Lowered(p, emails), Checks(p, rows), |rows|)| && e in emails
    ensures p.lower(AcceptedRows(Lowered(p, emails), Checks(p, rows), |rows|)[a].sourceEmail) != p.lower(e)
  {
    var cs := Checks(p, rows);
    var i := AcceptedFrom(Lowered(p, emails), cs, |cs|, a);
    KeyOfRow(p, rows[i]);
  }
}
