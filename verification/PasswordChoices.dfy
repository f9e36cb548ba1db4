/**
 * Which characters the generator draws and which passwords it can make: every one that is complex, and
 * each choice of characters by equally many byte strings.
 */
module PasswordChoices {
  import opened Wrappers
  import opened Passwords

  // ----- one character -----

  /** The single bytes that make the generator pick `c` from the alphabet. */
  function BytesFor(alphabet: string, c: char): set<Byte>
    requires alphabet != ""
  {
    set v: Byte | 0 <= v < 256 && PickFrom(alphabet, [v]) == Some((c, []))
  }

  /** Up to 256 different characters are picked by exactly floor(256 / n) accepted bytes each. */
  lemma PickUniform(alphabet: string, c: char)
    requires 1 <= |alphabet| <= 256 && Distinct(alphabet) && c in alphabet
    ensures |BytesFor(alphabet, c)| == 256 / |alphabet| >= 1
  {
    var r :| 0 <= r < |alphabet| && alphabet[r] == c;
    Unbiased(|alphabet|, r);
    forall v: Byte ensures PickFrom(alphabet, [v]) == Some((c, [])) <==> v in Accepted(|alphabet|, r) {
      OneByte(alphabet, r, v);
    }
    assert BytesFor(alphabet, c) == Accepted(|alphabet|, r);
  }

  lemma DrawOne(n: nat, v: Byte)
    requires n >= 1
    ensures Draw(n, [v]) == if v < Limit(n) then Some((v % n, [])) else None
  {
    assert [v][1..] == [];
    assert Draw(n, []) == None;
  }

  lemma OneByte(alphabet: string, r: nat, v: Byte)
    requires Distinct(alphabet) && r < |alphabet|
    ensures PickFrom(alphabet, [v]) == Some((alphabet[r], [])) <==> v in Accepted(|alphabet|, r)
  {
    var n := |alphabet|;
    DrawOne(n, v);
    if v < Limit(n) {
      SamePlace(alphabet, v % n, r);
    }
  }

  lemma SamePlace(s: string, i: nat, j: nat)
    requires Distinct(s) && i < |s| && j < |s|
    ensures s[i] == s[j] <==> i == j
  {
  }

  predicate Ascending(s: string) {
    forall i | 0 <= i < |s| - 1 :: s[i] < s[i + 1]
  }

  lemma {:induction false} AscendingFrom(s: string, i: nat, j: nat)
    requires Ascending(s) && i < j < |s|
    ensures s[i] < s[j]
    decreases j
  {
    if i + 1 < j {
      AscendingFrom(s, i, j - 1);
      assert s[j - 1] < s[j - 1 + 1];
    }
  }

  lemma AscendingDistinct(s: string)
    requires Ascending(s)
    ensures Distinct(s)
  {
    forall i, j | 0 <= i < j < |s| ensures s[i] != s[j] {
      AscendingFrom(s, i, j);
    }
  }

  // ----- a choice of characters -----

  /** One different-character alphabet of at most 256 for each position. */
  predicate Fine(alphabets: seq<string>) {
    forall k | 0 <= k < |alphabets| :: 1 <= |alphabets[k]| <= 256 && Distinct(alphabets[k])
  }

  predicate Chosen(chars: string, alphabets: seq<string>) {
    |chars| == |alphabets| && forall k | 0 <= k < |chars| :: chars[k] in alphabets[k]
  }

  /** The byte strings without a rejected byte that pick these characters. */
  function Picks(alphabets: seq<string>, chars: string): set<seq<Byte>>
    requires Fine(alphabets) && |chars| == |alphabets|
  {
    if chars == [] then {[]} else Prefixed(BytesFor(alphabets[0], chars[0]), Picks(alphabets[1..], chars[1..]))
  }

  /** The product of floor(256 / n) over the sizes of the alphabets. */
  function PickWays(alphabets: seq<string>): nat
    requires Fine(alphabets)
  {
    if alphabets == [] then 1 else Product(256 / |alphabets[0]|, PickWays(alphabets[1..]))
  }

  lemma {:induction false} PicksSize(alphabets: seq<string>, chars: string)
    requires Fine(alphabets) && Chosen(chars, alphabets)
    ensures |Picks(alphabets, chars)| == PickWays(alphabets)
    decreases |chars|
  {
    if chars != [] {
      PicksSize(alphabets[1..], chars[1..]);
      PickUniform(alphabets[0], chars[0]);
      PrefixedSize(BytesFor(alphabets[0], chars[0]), Picks(alphabets[1..], chars[1..]));
    }
  }

  /** Picking goes on where it stands. */
  lemma {:induction false} PickMore(head: string, more: string, alphabets: seq<string>, tape: seq<Byte>)
    requires Usable(alphabets)
    ensures
      PickEach(head + more, alphabets, tape) ==
        match PickEach(more, alphabets, tape)
        case None => None
        case Some((chars, rest)) => Some((head + chars, rest))
    decreases |alphabets|
  {
    if alphabets != [] {
      match PickFrom(alphabets[0], tape)
      case None =>
      case Some((c, rest)) =>
        assert head + more + [c] == head + (more + [c]);
        PickMore(head, more + [c], alphabets[1..], rest);
    }
  }

  /** Every pick takes at least a byte, and one that takes exactly one is by a byte that gives it. */
  lemma PickUses(alphabet: string, tape: seq<Byte>)
    requires alphabet != "" && PickFrom(alphabet, tape).Some?
    ensures
      var (c, rest) := PickFrom(alphabet, tape).value;
      && |rest| < |tape|
      && (|rest| == |tape| - 1 ==> rest == tape[1..] && tape[0] in BytesFor(alphabet, c))
  {
    DrawUses(|alphabet|, tape);
    assert [tape[0]][1..] == [];
  }

  lemma {:induction false} PickEachUses(chars: string, alphabets: seq<string>, tape: seq<Byte>)
    requires Usable(alphabets) && PickEach(chars, alphabets, tape).Some?
    ensures |tape| >= |alphabets| + |PickEach(chars, alphabets, tape).value.1|
    decreases |alphabets|
  {
    if alphabets != [] {
      PickUses(alphabets[0], tape);
      var (c, rest) := PickFrom(alphabets[0], tape).value;
      PickEachUses(chars + [c], alphabets[1..], rest);
    }
  }

  /** A byte string is one of the picks of these characters exactly if the generator picks them with it, using it up. */
  lemma {:induction false} PicksAre(alphabets: seq<string>, chars: string, b: seq<Byte>)
    requires Fine(alphabets) && Usable(alphabets) && |chars| == |alphabets|
    ensures
      b in Picks(alphabets, chars) <==>
      |b| == |alphabets| && PickEach("", alphabets, b) == Some((chars, []))
    decreases |chars|
  {
    if chars == [] {
      assert PickEach("", [], b) == Some(("", b));
    } else if b != [] {
      OnlySplit(BytesFor(alphabets[0], chars[0]), Picks(alphabets[1..], chars[1..]), b);
      PicksAre(alphabets[1..], chars[1..], b[1..]);
      FirstPick(alphabets, chars, b);
    }
  }

  lemma FirstPick(alphabets: seq<string>, chars: string, b: seq<Byte>)
    requires Usable(alphabets) && |chars| == |alphabets| > 0 && b != []
    ensures
      |b| == |alphabets| && PickEach("", alphabets, b) == Some((chars, [])) <==>
      && b[0] in BytesFor(alphabets[0], chars[0])
      && |b[1..]| == |alphabets[1..]| && PickEach("", alphabets[1..], b[1..]) == Some((chars[1..], []))
  {
    PickOrReject(alphabets[0], b);
    if PickFrom(alphabets[0], b).Some? {
      var (c, rest) := PickFrom(alphabets[0], b).value;
      PickUses(alphabets[0], b);
      PickMore([c], "", alphabets[1..], rest);
      assert "" + [c] == [c] == [c] + "";
      if PickEach("", alphabets[1..], rest).Some? {
        PickEachUses("", alphabets[1..], rest);
        var more := PickEach("", alphabets[1..], rest).value.0;
        assert [c] + more == chars <==> c == chars[0] && more == chars[1..];
      }
    }
  }

  /** A first byte that gives a character is the whole pick, whatever follows it. */
  lemma PickOrReject(alphabet: string, tape: seq<Byte>)
    requires alphabet != "" && tape != []
    ensures forall c | tape[0] in BytesFor(alphabet, c) :: PickFrom(alphabet, tape) == Some((c, tape[1..]))
  {
    DrawOne(|alphabet|, tape[0]);
  }

  /** Every choice of characters, one from each alphabet, is picked by equally many byte strings. */
  lemma ChoicesEquallyLikely(alphabets: seq<string>, chars: string) returns (runs: set<seq<Byte>>)
    requires Fine(alphabets) && Usable(alphabets) && Chosen(chars, alphabets)
    ensures |runs| == PickWays(alphabets)
    ensures forall b: seq<Byte> ::
      b in runs <==> |b| == |alphabets| && PickEach("", alphabets, b) == Some((chars, []))
  {
    runs := Picks(alphabets, chars);
    PicksSize(alphabets, chars);
    forall b: seq<Byte>
      ensures b in runs <==> |b| == |alphabets| && PickEach("", alphabets, b) == Some((chars, []))
    {
      PicksAre(alphabets, chars, b);
    }
  }

  // ----- the generator's own alphabets -----

  lemma UpperDistinct()
    ensures Distinct(UPPER)
  {
    AscendingDistinct(UPPER);
  }

  lemma LowerDistinct()
    ensures Distinct(LOWER)
  {
    AscendingDistinct(LOWER);
  }

  lemma DigitDistinct()
    ensures Distinct(DIGIT)
  {
    AscendingDistinct(DIGIT);
  }

  lemma SymbolDistinct()
    ensures Distinct(SYMBOL)
  {
  }

  lemma ClassesDistinct()
    ensures Distinct(UPPER) && Distinct(LOWER) && Distinct(DIGIT) && Distinct(SYMBOL)
  {
    UpperDistinct();
    LowerDistinct();
    DigitDistinct();
    SymbolDistinct();
  }

  lemma UpperIs(c: char)
    ensures c in UPPER <==> 'A' <= c <= 'Z' && c != 'I' && c != 'O'
  {
    if 'A' <= c <= 'Z' && c != 'I' && c != 'O' {
      var k := c as int - 'A' as int;
      assert UPPER[if c < 'I' then k else if c < 'O' then k - 1 else k - 2] == c;
    }
  }

  lemma LowerIs(c: char)
    ensures c in LOWER <==> 'a' <= c <= 'z' && c != 'l'
  {
    if 'a' <= c <= 'z' && c != 'l' {
      var k := c as int - 'a' as int;
      assert LOWER[if c < 'l' then k else k - 1] == c;
    }
  }

  lemma DigitIs(c: char)
    ensures c in DIGIT <==> '2' <= c <= '9'
  {
    if '2' <= c <= '9' {
      assert DIGIT[c as int - '2' as int] == c;
    }
  }

  lemma SymbolIs(c: char)
    ensures c in SYMBOL <==> c in {'!', '@', '#', '$', '%', '^', '&', '*', '-', '_', '=', '+', '?'}
  {
    SymbolsAre();
  }

  /** Letters and digits without the look-alikes I, O, l, 0 and 1, and thirteen symbols. */
  lemma AlphabetsAre(c: char)
    ensures c in UPPER <==> 'A' <= c <= 'Z' && c != 'I' && c != 'O'
    ensures c in LOWER <==> 'a' <= c <= 'z' && c != 'l'
    ensures c in DIGIT <==> '2' <= c <= '9'
    ensures c in SYMBOL <==> c in {'!', '@', '#', '$', '%', '^', '&', '*', '-', '_', '=', '+', '?'}
    ensures c in ALL <==> c in UPPER || c in LOWER || c in DIGIT || c in SYMBOL
  {
    UpperIs(c);
    LowerIs(c);
    DigitIs(c);
    SymbolIs(c);
  }

  lemma SymbolsAre()
    ensures forall c | c in {'!', '@', '#', '$', '%', '^', '&', '*', '-', '_', '=', '+', '?'} :: c in SYMBOL
  {
    assert SYMBOL[0] == '!' && SYMBOL[1] == '@' && SYMBOL[2] == '#' && SYMBOL[3] == '$' && SYMBOL[4] == '%';
    assert SYMBOL[5] == '^' && SYMBOL[6] == '&' && SYMBOL[7] == '*' && SYMBOL[8] == '-' && SYMBOL[9] == '_';
    assert SYMBOL[10] == '=' && SYMBOL[11] == '+' && SYMBOL[12] == '?';
  }

  predicate Between(s: string, lo: char, hi: char) {
    forall i | 0 <= i < |s| :: lo <= s[i] <= hi
  }

  lemma ClassesApart()
    ensures Between(UPPER, 'A', 'Z') && Between(LOWER, 'a', 'z') && Between(DIGIT, '0', '9')
    ensures forall i | 0 <= i < |SYMBOL| ::
      !('A' <= SYMBOL[i] <= 'Z') && !('a' <= SYMBOL[i] <= 'z') && !('0' <= SYMBOL[i] <= '9')
  {
  }

  lemma JoinedDistinct(s: string, t: string)
    requires Distinct(s) && Distinct(t) && forall i, j | 0 <= i < |s| && 0 <= j < |t| :: s[i] != t[j]
    ensures Distinct(s + t)
  {
  }

  lemma AllDistinct()
    ensures Distinct(ALL) && |ALL| == 70
  {
    ClassesDistinct();
    ClassesApart();
    JoinedDistinct(UPPER, LOWER);
    JoinedDistinct(UPPER + LOWER, DIGIT);
    JoinedDistinct(UPPER + LOWER + DIGIT, SYMBOL);
  }

  /** The alphabets of a password satisfy what the counts ask for. */
  lemma AlphabetsFine(length: nat)
    requires length >= 4
    ensures Fine(Alphabets(length))
  {
    ClassesDistinct();
    AllDistinct();
    var r := Alphabets(length);
    forall k | 0 <= k < |r| ensures 1 <= |r[k]| <= 256 && Distinct(r[k]) {
      assert k >= 4 ==> r[k] == ALL;
    }
  }

  // ----- every complex password can come out -----

  /** The effective length, allowed characters only, and one of each class. */
  predicate Complex(length: int, w: string) {
    && |w| == (if length < 8 then 8 else length)
    && (forall c | c in w :: c in ALL)
    && HasOneOf(w, UPPER) && HasOneOf(w, LOWER) && HasOneOf(w, DIGIT) && HasOneOf(w, SYMBOL)
  }

  lemma SwapSameBag<T>(s: seq<T>, i: nat, j: nat)
    requires j <= i < |s|
    ensures multiset(Swap(s, i, j)) == multiset(s)
    ensures multiset(Swap(s, i, j)[..i + 1]) == multiset(s[..i + 1])
  {
    assert Swap(s, i, j)[..i + 1] == Swap(s[..i + 1], i, j);
  }

  /** Whatever rearranges the first positions, repeated elements or not, is reached by some draws. */
  lemma {:induction false} ShuffleReaches<T>(s: seq<T>, i: nat, p: seq<T>) returns (d: seq<nat>)
    requires i < |s| == |p| && multiset(p[..i + 1]) == multiset(s[..i + 1])
    requires forall k | i < k < |s| :: p[k] == s[k]
    ensures |d| == |s| && Draws(d) && Shuffled(s, i, d) == p
    decreases i
  {
    if i == 0 {
      d := NoDraws(|s|);
      OneLeftOver(s, p);
    } else {
      var j := Supplier(s, i, p);
      var t := Swap(s, i, j);
      SwapSameBag(s, i, j);
      Shorter(t, i, p);
      var e := ShuffleReaches(t, i - 1, p);
      d := e[i := j];
      SameDraws(t, i - 1, d, e);
    }
  }

  lemma OneLeftOver<T>(s: seq<T>, p: seq<T>)
    requires 0 < |s| == |p| && multiset(p[..1]) == multiset(s[..1]) && forall k | 0 < k < |s| :: p[k] == s[k]
    ensures p == s
  {
    assert p[..1] == [p[0]] && s[..1] == [s[0]];
    assert p[0] in multiset{s[0]};
  }

  /** Where the element that position i shall have stands now. */
  lemma Supplier<T>(s: seq<T>, i: nat, p: seq<T>) returns (j: nat)
    requires i < |s| == |p| && multiset(p[..i + 1]) == multiset(s[..i + 1])
    ensures j <= i && s[j] == p[i]
  {
    assert p[..i + 1][i] == p[i];
    assert p[i] in multiset(p[..i + 1]);
    assert p[i] in s[..i + 1];
    j :| 0 <= j <= i && s[..i + 1][j] == p[i];
  }

  lemma WithoutLast<T>(s: seq<T>, i: nat)
    requires i < |s|
    ensures multiset(s[..i]) == multiset(s[..i + 1]) - multiset{s[i]}
  {
    assert s[..i + 1] == s[..i] + [s[i]];
  }

  lemma Shorter<T>(t: seq<T>, i: nat, p: seq<T>)
    requires 0 < i < |t| == |p| && multiset(p[..i + 1]) == multiset(t[..i + 1]) && t[i] == p[i]
    ensures multiset(p[..i]) == multiset(t[..i])
  {
    WithoutLast(p, i);
    WithoutLast(t, i);
  }

  lemma LimitAtLeast(n: nat)
    requires 1 <= n <= 256
    ensures Limit(n) >= n
  {
    LimitIs(n);
    assert (256 / n - 1) * n >= 0;
    assert (256 / n) * n == (256 / n - 1) * n + n;
  }

  lemma SmallRest(n: nat, r: nat)
    requires r < n
    ensures r % n == r
  {
    DivisionUnique(n, 0, r);
    assert 0 * n == 0;
  }

  /** Small numbers are bytes that are accepted and stand for themselves. */
  lemma SmallByte(n: nat, r: nat, rest: seq<Byte>)
    requires r < n <= 256
    ensures Draw(n, [r] + rest) == Some((r, rest))
  {
    LimitAtLeast(n);
    SmallRest(n, r);
    assert ([r] + rest)[1..] == rest;
  }

  /** The bytes that make these draws. */
  lemma {:induction false} DrawTape<T>(s: seq<T>, i: nat, d: seq<nat>) returns (tape: seq<Byte>)
    requires i < |s| == |d| && i < 256 && Draws(d)
    ensures ShuffleWith(s, i, tape) == Some((Shuffled(s, i, d), []))
    decreases i
  {
    tape := [];
    if i > 0 {
      var rest := DrawTape(Swap(s, i, d[i]), i - 1, d);
      SmallByte(i + 1, d[i], rest);
      tape := [d[i]] + rest;
    }
  }

  /** The bytes that pick these characters. */
  lemma {:induction false} PickTape(head: string, alphabets: seq<string>, chars: string, rest: seq<Byte>)
    returns (tape: seq<Byte>)
    requires Fine(alphabets) && Usable(alphabets) && Chosen(chars, alphabets)
    ensures PickEach(head, alphabets, tape) == Some((head + chars, rest))
    decreases |chars|
  {
    if chars == [] {
      tape := rest;
      assert head + chars == head;
    } else {
      var r: nat :| r < |alphabets[0]| && alphabets[0][r] == chars[0];
      var more := PickTape(head + [chars[0]], alphabets[1..], chars[1..], rest);
      SmallByte(|alphabets[0]|, r, more);
      tape := [r] + more;
      assert head + [chars[0]] + chars[1..] == head + chars;
    }
  }

  /** A character of a class that no earlier position takes is brought to position m. */
  lemma BringForward(w: string, m: nat, alphabet: string) returns (t: string)
    requires m < |w| && HasOneOf(w, alphabet) && forall k | 0 <= k < m :: w[k] !in alphabet
    ensures |t| == |w| && multiset(t) == multiset(w) && t[m] in alphabet
    ensures forall k | 0 <= k < m :: t[k] == w[k]
  {
    var i :| 0 <= i < |w| && w[i] in alphabet;
    t := Swap(w, i, m);
    SwapSameBag(w, i, m);
  }

  lemma StillHas(w: string, t: string, alphabet: string)
    requires multiset(t) == multiset(w) && HasOneOf(w, alphabet)
    ensures HasOneOf(t, alphabet)
  {
    var i :| 0 <= i < |w| && w[i] in alphabet;
    SameMembers(t, w);
    assert w[i] in t;
  }

  lemma ClassesDisjoint(c: char)
    ensures c in UPPER ==> c !in LOWER && c !in DIGIT && c !in SYMBOL
    ensures c in LOWER ==> c !in DIGIT && c !in SYMBOL
    ensures c in DIGIT ==> c !in SYMBOL
  {
    ClassesApart();
  }

  /** A rearrangement that starts with one of each class. */
  lemma ClassesFirst(w: string) returns (t: string)
    requires |w| >= 4
    requires HasOneOf(w, UPPER) && HasOneOf(w, LOWER) && HasOneOf(w, DIGIT) && HasOneOf(w, SYMBOL)
    ensures |t| == |w| && multiset(t) == multiset(w)
    ensures t[0] in UPPER && t[1] in LOWER && t[2] in DIGIT && t[3] in SYMBOL
  {
    var a := BringForward(w, 0, UPPER);
    var b := NextClass(w, a, 1, LOWER);
    var c := NextClass(w, b, 2, DIGIT);
    t := NextClass(w, c, 3, SYMBOL);
  }

  const CLASSES := [UPPER, LOWER, DIGIT, SYMBOL]

  lemma NextClass(w: string, a: string, m: nat, alphabet: string) returns (t: string)
    requires 0 < m < 4 <= |a| && multiset(a) == multiset(w)
    requires HasOneOf(w, alphabet) && alphabet == CLASSES[m]
    requires forall k | 0 <= k < m :: a[k] in CLASSES[k]
    ensures |t| == |a| && multiset(t) == multiset(w)
    ensures forall k | 0 <= k <= m :: t[k] in CLASSES[k]
  {
    StillHas(w, a, alphabet);
    forall k | 0 <= k < m ensures a[k] !in alphabet {
      ClassesDisjoint(a[k]);
    }
    t := BringForward(a, m, alphabet);
  }

  lemma ClassesChosen(length: int, w: string, t: string)
    requires Complex(length, w) && multiset(t) == multiset(w) && |t| == |w|
    requires t[0] in UPPER && t[1] in LOWER && t[2] in DIGIT && t[3] in SYMBOL
    ensures Chosen(t, Alphabets(EffectiveLength(length)))
  {
    SameMembers(t, w);
    var alphabets := Alphabets(EffectiveLength(length));
    forall k | 0 <= k < |t| ensures t[k] in alphabets[k] {
      assert t[k] in w;
      assert k >= 4 ==> alphabets[k] == ALL;
    }
  }

  lemma ArrangeTape(chars: string, w: string) returns (tape: seq<Byte>)
    requires 1 <= |chars| <= 256 && multiset(w) == multiset(chars)
    ensures Arranged(chars, tape) == Some(w)
  {
    var n := |chars|;
    SameMembers(w, chars);
    assert w[..n] == w && chars[..n] == chars;
    var d := ShuffleReaches(chars, n - 1, w);
    tape := DrawTape(chars, n - 1, d);
  }

  lemma EveryComplexPassword(length: int, w: string) returns (tape: seq<Byte>)
    requires length <= 256 && Complex(length, w)
    ensures Generate(length, tape) == Some(w)
  {
    var n := EffectiveLength(length);
    var chars := ClassesFirst(w);
    ClassesChosen(length, w, chars);
    var draws := ArrangeTape(chars, w);
    AlphabetsFine(n);
    tape := PickTape("", Alphabets(n), chars, draws);
    assert "" + chars == chars;
  }

  /** The passwords that some bytes produce are exactly the complex strings, up to length 256. */
  lemma GeneratedIff(length: int, w: string)
    ensures (exists tape: seq<Byte> :: Generate(length, tape) == Some(w)) <==> length <= 256 && Complex(length, w)
  {
    if length <= 256 && Complex(length, w) {
      var tape := EveryComplexPassword(length, w);
    }
    if tape: seq<Byte> :| Generate(length, tape) == Some(w) {
      FinishesUpTo256(length);
      PasswordComplex(length, tape);
    }
  }
}
