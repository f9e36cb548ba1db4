/**
 * The temporary-password generator: rejection sampling and a Fisher-Yates shuffle over random bytes.
 *
 * Randomness is a tape of bytes; running off its end stands for a loop that has not ended yet.
 */
module Passwords {
  import opened Wrappers

  type Byte = b: int | 0 <= b < 256

  const UPPER := "ABCDEFGHJKLMNPQRSTUVWXYZ"
  const LOWER := "abcdefghijkmnopqrstuvwxyz"
  const DIGIT := "23456789"
  const SYMBOL := "!@#$%^&*-_=+?"
  const ALL := UPPER + LOWER + DIGIT + SYMBOL

  // ----- rejection sampling -----

  /** Bytes from here on are rejected. */
  function Limit(n: nat): int
    requires n >= 1
  {
    256 - 256 % n
  }

  /** The first accepted byte modulo `n`, and the tape after it. */
  function Draw(n: nat, tape: seq<Byte>): (r: Option<(nat, seq<Byte>)>)
    requires n >= 1
    ensures r.Some? ==> r.value.0 < n
  {
    if tape == [] then None
    else if tape[0] < Limit(n) then Some((tape[0] % n, tape[1..]))
    else Draw(n, tape[1..])
  }

  method DrawBelow(n: nat, tape: seq<Byte>) returns (r: Option<(nat, seq<Byte>)>)
    requires n >= 1
    ensures r == Draw(n, tape)
  {
    var max := 256 - 256 % n;
    var rest := tape;
    while rest != []
      invariant Draw(n, rest) == Draw(n, tape)
    {
      var v := rest[0];
      rest := rest[1..];
      if v < max { return Some((v % n, rest)); }
    }
    return None;
  }

  // ----- the shuffle -----

  function Swap<T>(s: seq<T>, i: nat, j: nat): (t: seq<T>)
    requires i < |s| && j < |s|
    ensures |t| == |s|
  {
    s[i := s[j]][j := s[i]]
  }

  /** The steps i, i - 1, ..., 1, step k exchanging positions k and d[k]. */
  function Shuffled<T>(s: seq<T>, i: nat, d: seq<nat>): (t: seq<T>)
    requires i < |s| == |d| && Draws(d)
    ensures |t| == |s|
    decreases i
  {
    if i == 0 then s else Shuffled(Swap(s, i, d[i]), i - 1, d)
  }

  predicate Draws(d: seq<nat>) {
    forall i | 0 <= i < |d| :: d[i] <= i
  }

  function ShuffleWith<T>(s: seq<T>, i: nat, tape: seq<Byte>): Option<(seq<T>, seq<Byte>)>
    requires i < |s|
    decreases i
  {
    if i == 0 then Some((s, tape))
    else
      match Draw(i + 1, tape)
      case None => None
      case Some((j, rest)) => ShuffleWith(Swap(s, i, j), i - 1, rest)
  }

  method ShuffleInPlace(a: array<char>, tape: seq<Byte>) returns (rest: Option<seq<Byte>>)
    requires a.Length > 0
    modifies a
    ensures
      match ShuffleWith(old(a[..]), a.Length - 1, tape)
      case None => rest == None
      case Some((s, left)) => a[..] == s && rest == Some(left)
  {
    var left := tape;
    var i := a.Length - 1;
    while i > 0
      invariant 0 <= i < a.Length
      invariant ShuffleWith(a[..], i, left) == ShuffleWith(old(a[..]), a.Length - 1, tape)
    {
      var drawn := DrawBelow(i + 1, left);
      if drawn.None? { return None; }
      var j := drawn.value.0;
      left := drawn.value.1;
      ghost var before := a[..];
      a[i], a[j] := a[j], a[i];
      assert a[..] == Swap(before, i, j);
      i := i - 1;
    }
    rest := Some(left);
  }

  // ----- the password -----

  function PickFrom(alphabet: string, tape: seq<Byte>): (r: Option<(char, seq<Byte>)>)
    requires alphabet != ""
    ensures r.Some? ==> r.value.0 in alphabet
  {
    match Draw(|alphabet|, tape)
    case None => None
    case Some((k, rest)) => Some((alphabet[k], rest))
  }

  predicate Usable(alphabets: seq<string>) {
    forall k | 0 <= k < |alphabets| :: alphabets[k] != ""
  }

  /** One character from each alphabet in turn, appended to `chars`. */
  function PickEach(chars: string, alphabets: seq<string>, tape: seq<Byte>): (r: Option<(string, seq<Byte>)>)
    requires Usable(alphabets)
    ensures r.Some? ==>
      && |r.value.0| == |chars| + |alphabets|
      && r.value.0[..|chars|] == chars
      && forall k | 0 <= k < |alphabets| :: r.value.0[|chars| + k] in alphabets[k]
    decreases |alphabets|
  {
    if alphabets == [] then Some((chars, tape))
    else
      match PickFrom(alphabets[0], tape)
      case None => None
      case Some((c, rest)) => PickEach(chars + [c], alphabets[1..], rest)
  }

  /** The guaranteed classes, then the whole alphabet as often as the length asks for. */
  function Alphabets(length: nat): (r: seq<string>)
    requires length >= 4
    ensures |r| == length && Usable(r)
    ensures r[0] == UPPER && r[1] == LOWER && r[2] == DIGIT && r[3] == SYMBOL
    ensures forall k | 4 <= k < length :: r[k] == ALL
  {
    [UPPER, LOWER, DIGIT, SYMBOL] + seq(length - 4, i => ALL)
  }

  function EffectiveLength(length: int): nat {
    if length < 8 then 8 else length
  }

  function Arranged(chars: string, tape: seq<Byte>): Option<string>
    requires chars != []
  {
    match ShuffleWith(chars, |chars| - 1, tape)
    case None => None
    case Some((s, _)) => Some(s)
  }

  function Generate(length: int, tape: seq<Byte>): Option<string> {
    match PickEach("", Alphabets(EffectiveLength(length)), tape)
    case None => None
    case Some((chars, rest)) => Arranged(chars, rest)
  }

  /** The shuffle of a fresh array of the characters. */
  method Arrange(chars: string, tape: seq<Byte>) returns (r: Option<string>)
    requires chars != []
    ensures r == Arranged(chars, tape)
  {
    var a := new char[|chars|](i requires 0 <= i < |chars| => chars[i]);
    assert a[..] == chars;
    var rest := ShuffleInPlace(a, tape);
    r := if rest.None? then None else Some(a[..]);
  }

  method GenerateTempPassword(length: int, tape: seq<Byte>) returns (r: Option<string>)
    ensures r == Generate(length, tape)
  {
    var n := if length < 8 then 8 else length;
    var picked := PickAll(Alphabets(n), tape);
    if picked.None? { return None; }
    var (chars, left) := picked.value;
    r := Arrange(chars, left);
  }

  method PickAll(alphabets: seq<string>, tape: seq<Byte>) returns (r: Option<(string, seq<Byte>)>)
    requires Usable(alphabets)
    ensures r == PickEach("", alphabets, tape)
  {
    var chars, left := "", tape;
    for k := 0 to |alphabets|
      invariant PickEach(chars, alphabets[k..], left) == PickEach("", alphabets, tape)
    {
      var drawn := DrawBelow(|alphabets[k]|, left);
      if drawn.None? { return None; }
      chars := chars + [alphabets[k][drawn.value.0]];
      left := drawn.value.1;
      assert alphabets[k..][1..] == alphabets[k + 1..];
    }
    r := Some((chars, left));
  }

  // ----- complexity of the result -----

  lemma {:induction false} ShuffleKeeps<T>(s: seq<T>, i: nat, tape: seq<Byte>)
    requires i < |s| && ShuffleWith(s, i, tape).Some?
    ensures multiset(ShuffleWith(s, i, tape).value.0) == multiset(s)
    decreases i
  {
    if i > 0 {
      var (j, rest) := Draw(i + 1, tape).value;
      ShuffleKeeps(Swap(s, i, j), i - 1, rest);
    }
  }

  lemma SameMembers(s: string, chars: string)
    requires multiset(s) == multiset(chars)
    ensures |s| == |chars| && forall c :: c in s <==> c in chars
  {
    assert |s| == |multiset(s)| == |chars|;
    forall c ensures c in s <==> c in chars {
      assert c in s <==> c in multiset(s);
    }
  }

  predicate HasOneOf(s: string, alphabet: string) {
    exists k :: 0 <= k < |s| && s[k] in alphabet
  }

  /** Every password has the effective length, only the allowed characters, and all four classes. */
  lemma PasswordComplex(length: int, tape: seq<Byte>)
    requires Generate(length, tape).Some?
    ensures
      var s := Generate(length, tape).value;
      && |s| == EffectiveLength(length)
      && (forall c | c in s :: c in ALL)
      && HasOneOf(s, UPPER) && HasOneOf(s, LOWER) && HasOneOf(s, DIGIT) && HasOneOf(s, SYMBOL)
  {
    var n := EffectiveLength(length);
    var (chars, rest) := PickEach("", Alphabets(n), tape).value;
    var s := ShuffleWith(chars, n - 1, rest).value.0;
    ShuffleKeeps(chars, n - 1, rest);
    SameMembers(s, chars);
    PickedComplex(n, tape);
    assert chars[0] in s && chars[1] in s && chars[2] in s && chars[3] in s;
  }

  lemma PickedComplex(n: nat, tape: seq<Byte>)
    requires n >= 4 && PickEach("", Alphabets(n), tape).Some?
    ensures
      var chars := PickEach("", Alphabets(n), tape).value.0;
      && |chars| == n
      && chars[0] in UPPER && chars[1] in LOWER && chars[2] in DIGIT && chars[3] in SYMBOL
      && forall c | c in chars :: c in ALL
  {
    var chars := PickEach("", Alphabets(n), tape).value.0;
    forall k | 0 <= k < n ensures chars[k] in Alphabets(n)[k] && chars[k] in ALL {
      assert chars[0 + k] in Alphabets(n)[k];
    }
  }

  // ----- the shuffle reaches every permutation exactly once -----

  predicate Distinct<T(==)>(s: seq<T>) {
    forall i, j | 0 <= i < j < |s| :: s[i] != s[j]
  }

  /** The draws only matter up to `i`, and later positions stay put. */
  lemma {:induction false} ShuffledAbove<T>(s: seq<T>, i: nat, d: seq<nat>)
    requires i < |s| == |d| && Draws(d)
    ensures forall k | i < k < |s| :: Shuffled(s, i, d)[k] == s[k]
    ensures i > 0 ==> Shuffled(s, i, d)[i] == s[d[i]]
    ensures multiset(Shuffled(s, i, d)) == multiset(s)
    decreases i
  {
    if i > 0 {
      ShuffledAbove(Swap(s, i, d[i]), i - 1, d);
    }
  }

  /** Different draws shuffle differently. */
  lemma {:induction false} ShuffleInjective<T>(s: seq<T>, i: nat, d: seq<nat>, e: seq<nat>)
    requires i < |s| == |d| == |e| && Draws(d) && Draws(e) && Distinct(s)
    requires Shuffled(s, i, d) == Shuffled(s, i, e)
    ensures forall k | 0 <= k <= i :: d[k] == e[k]
    decreases i
  {
    if i > 0 {
      ShuffledAbove(s, i, d);
      ShuffledAbove(s, i, e);
      assert d[i] == e[i];
      SwapDistinct(s, i, d[i]);
      ShuffleInjective(Swap(s, i, d[i]), i - 1, d, e);
    }
  }

  lemma SwapDistinct<T>(s: seq<T>, i: nat, j: nat)
    requires i < |s| && j < |s| && Distinct(s)
    ensures Distinct(Swap(s, i, j))
  {
  }

  /** `p` rearranges the first positions of `s` and agrees with it above `i`. */
  predicate Rearranges<T(==)>(s: seq<T>, i: nat, p: seq<T>)
    requires i < |s|
  {
    && |p| == |s| && Distinct(s) && Distinct(p)
    && (forall k | 0 <= k <= i :: p[k] in s[..i + 1])
    && (forall k | i < k < |s| :: p[k] == s[k])
  }

  /** The draw that puts the right element at position i, which is then settled. */
  lemma SwapRearranges<T>(s: seq<T>, i: nat, p: seq<T>) returns (j: nat)
    requires 0 < i < |s| && Rearranges(s, i, p)
    ensures j <= i && Rearranges(Swap(s, i, j), i - 1, p)
  {
    j :| j <= i && s[j] == p[i];
    var t := Swap(s, i, j);
    SwapDistinct(s, i, j);
    forall k | 0 <= k <= i - 1 ensures p[k] in t[..i] {
      var m :| 0 <= m <= i && s[m] == p[k];
      assert m != j;
      assert t[..i][if m == i then j else m] == p[k];
    }
  }

  lemma OneLeft<T>(s: seq<T>, p: seq<T>)
    requires s != [] && Rearranges(s, 0, p)
    ensures p == s
  {
    assert s[..1] == [s[0]];
  }

  function NoDraws(n: nat): (d: seq<nat>)
    ensures |d| == n && Draws(d) && forall k | 0 <= k < n :: d[k] == 0
  {
    seq(n, k => 0)
  }

  /** The draws that lead to a given arrangement. */
  lemma {:induction false} ShuffleOnto<T>(s: seq<T>, i: nat, p: seq<T>) returns (d: seq<nat>)
    requires i < |s| && Rearranges(s, i, p)
    ensures |d| == |s| && Draws(d) && Shuffled(s, i, d) == p
    ensures forall k | i < k < |s| :: d[k] == 0
    decreases i
  {
    if i == 0 {
      d := NoDraws(|s|);
      OneLeft(s, p);
    } else {
      var j := SwapRearranges(s, i, p);
      var t := Swap(s, i, j);
      var e := ShuffleOnto(t, i - 1, p);
      d := e[i := j];
      SameDraws(t, i - 1, d, e);
    }
  }

  lemma {:induction false} SameDraws<T>(s: seq<T>, i: nat, d: seq<nat>, e: seq<nat>)
    requires i < |s| == |d| == |e| && Draws(d) && Draws(e)
    requires forall k | 0 <= k <= i :: d[k] == e[k]
    ensures Shuffled(s, i, d) == Shuffled(s, i, e)
    decreases i
  {
    if i > 0 {
      SameDraws(Swap(s, i, d[i]), i - 1, d, e);
    }
  }

  /** The draw sequences map one-to-one onto the arrangements of any distinct elements. */
  lemma FisherYatesExact<T>(s: seq<T>, p: seq<T>) returns (d: seq<nat>)
    requires |s| >= 1 && Distinct(s) && multiset(p) == multiset(s)
    ensures |d| == |s| && Draws(d) && Shuffled(s, |s| - 1, d) == p
    ensures forall e | |e| == |s| && Draws(e) && Shuffled(s, |s| - 1, e) == p :: e == d
  {
    assert |p| == |multiset(p)| == |s|;
    PermutationDistinct(s, p);
    forall k | 0 <= k < |p| ensures p[k] in s[..|s|] {
      assert p[k] in multiset(p);
      assert s[..|s|] == s;
    }
    d := ShuffleOnto(s, |s| - 1, p);
    forall e | |e| == |s| && Draws(e) && Shuffled(s, |s| - 1, e) == p ensures e == d {
      ShuffleInjective(s, |s| - 1, d, e);
    }
  }

  lemma {:induction false} CountOnce<T>(s: seq<T>, x: T)
    requires Distinct(s)
    ensures multiset(s)[x] <= 1
  {
    if s != [] {
      assert s == [s[0]] + s[1..];
      CountOnce(s[1..], x);
      assert forall k | 0 <= k < |s[1..]| :: s[1..][k] == s[k + 1] != s[0];
    }
  }

  lemma PermutationDistinct<T>(s: seq<T>, p: seq<T>)
    requires Distinct(s) && multiset(p) == multiset(s)
    ensures Distinct(p)
  {
    forall i, j | 0 <= i < j < |p| ensures p[i] != p[j] {
      CountOnce(s, p[i]);
      assert p == p[..j] + [p[j]] + p[j + 1..];
      assert p[..j][i] == p[i] && p[i] in multiset(p[..j]);
      assert multiset(p) == multiset(p[..j]) + multiset{p[j]} + multiset(p[j + 1..]);
    }
  }

  /** What the shuffle does with a tape is one of the shuffles above. */
  lemma {:induction false} TapeGivesDraws<T>(s: seq<T>, i: nat, tape: seq<Byte>) returns (d: seq<nat>)
    requires i < |s| && ShuffleWith(s, i, tape).Some?
    ensures |d| == |s| && Draws(d) && ShuffleWith(s, i, tape).value.0 == Shuffled(s, i, d)
    decreases i
  {
    if i == 0 {
      d := NoDraws(|s|);
    } else {
      var (j, rest) := Draw(i + 1, tape).value;
      var e := TapeGivesDraws(Swap(s, i, j), i - 1, rest);
      d := e[i := j];
      SameDraws(Swap(s, i, j), i - 1, d, e);
    }
  }

  // ----- the bytes are unbiased -----

  /** The accepted bytes that give residue `r`. */
  function Accepted(n: nat, r: nat): set<Byte>
    requires n >= 1
  {
    set v: Byte | 0 <= v < 256 && v < Limit(n) && v % n == r
  }

  function Hits(n: nat, r: nat, m: nat): set<int>
    requires n >= 1
  {
    set v | 0 <= v < m * n && v % n == r
  }

  /** Below the next multiple of n exactly one more number leaves the rest r. */
  lemma NextHit(n: nat, r: nat, m: nat)
    requires r < n
    ensures Hits(n, r, m + 1) == Hits(n, r, m) + {m * n + r} && m * n + r !in Hits(n, r, m)
  {
    assert (m + 1) * n == m * n + n && m * n >= 0;
    DivisionUnique(n, m, r);
    forall v | m * n <= v < m * n + n && v % n == r ensures v == m * n + r {
      DivisionUnique(n, m, v - m * n);
    }
  }

  lemma NoHits(n: nat, r: nat)
    requires n >= 1
    ensures Hits(n, r, 0) == {}
  {
    assert 0 * n == 0;
  }

  lemma {:induction false} HitsSize(n: nat, r: nat, m: nat)
    requires r < n
    ensures |Hits(n, r, m)| == m
  {
    if m == 0 {
      NoHits(n, r);
    } else {
      HitsSize(n, r, m - 1);
      NextHit(n, r, m - 1);
    }
  }

  lemma DivisionUnique(n: nat, q: nat, r: nat)
    requires r < n
    ensures (q * n + r) % n == r && (q * n + r) / n == q
  {
    var v := q * n + r;
    assert v == (v / n) * n + v % n;
    var d := v / n - q;
    assert d * n == r - v % n;
    assert d >= 1 ==> d * n >= n;
    assert d <= -1 ==> d * n + n <= 0;
  }

  /** For 1 <= n <= 256 each residue is hit by exactly floor(256 / n) accepted bytes. */
  lemma Unbiased(n: nat, r: nat)
    requires 1 <= n <= 256 && r < n
    ensures |Accepted(n, r)| == 256 / n >= 1
  {
    LimitIs(n);
    HitsSize(n, r, 256 / n);
    assert Accepted(n, r) == Hits(n, r, 256 / n);
  }

  lemma LimitIs(n: nat)
    requires 1 <= n <= 256
    ensures Limit(n) == (256 / n) * n && 256 / n >= 1
  {
    var q, r := 256 / n, 256 % n;
    assert 256 == q * n + r;
    assert q <= 0 ==> q * n <= 0;
  }

  /** Beyond 256 every byte is rejected, whatever the tape. */
  lemma {:induction false} NothingAcceptedBeyond256(n: nat, tape: seq<Byte>)
    requires n > 256
    ensures Draw(n, tape) == None
  {
    if tape != [] {
      NothingAcceptedBeyond256(n, tape[1..]);
    }
  }

  function Zeros(k: nat): (z: seq<Byte>)
    ensures |z| == k && forall i | 0 <= i < k :: z[i] == 0
  {
    seq(k, i => 0)
  }

  lemma DrawZero(n: nat, k: nat)
    requires 1 <= n <= 256 && k > 0
    ensures Draw(n, Zeros(k)) == Some((0, Zeros(k - 1)))
  {
    assert Zeros(k)[1..] == Zeros(k - 1);
  }

  lemma {:induction false} PickEachZeros(chars: string, alphabets: seq<string>, k: nat)
    requires Usable(alphabets) && k >= |alphabets| && forall a | a in alphabets :: |a| <= 256
    ensures PickEach(chars, alphabets, Zeros(k)).Some?
    ensures PickEach(chars, alphabets, Zeros(k)).value.1 == Zeros(k - |alphabets|)
    decreases |alphabets|
  {
    if alphabets != [] {
      DrawZero(|alphabets[0]|, k);
      PickEachZeros(chars + [alphabets[0][0]], alphabets[1..], k - 1);
    }
  }

  lemma {:induction false} ShuffleZeros<T>(s: seq<T>, i: nat, k: nat)
    requires i < |s| && i < 256 && k >= i
    ensures ShuffleWith(s, i, Zeros(k)).Some?
    decreases i
  {
    if i > 0 {
      DrawZero(i + 1, k);
      ShuffleZeros(Swap(s, i, 0), i - 1, k - 1);
    }
  }

  /** The generator can finish exactly for lengths up to 256. */
  lemma FinishesUpTo256(length: int)
    ensures (exists tape: seq<Byte> :: Generate(length, tape).Some?) <==> length <= 256
  {
    var n := EffectiveLength(length);
    if length <= 256 {
      PickEachZeros("", Alphabets(n), 2 * n);
      var (chars, rest) := PickEach("", Alphabets(n), Zeros(2 * n)).value;
      ShuffleZeros(chars, n - 1, n);
      assert Generate(length, Zeros(2 * n)).Some?;
    } else {
      forall tape: seq<Byte> ensures Generate(length, tape) == None {
        var picked := PickEach("", Alphabets(n), tape);
        if picked.Some? {
          NothingAcceptedBeyond256(n, picked.value.1);
        }
      }
    }
  }

  // ----- every arrangement has equally many accepted byte strings -----

  /** The byte strings without a rejected byte that make the draws d[i], ..., d[1]. */
  function Runs(d: seq<nat>, i: nat): set<seq<Byte>>
    requires i < |d|
  {
    if i == 0 then {[]} else Prefixed(Accepted(i + 1, d[i]), Runs(d, i - 1))
  }

  function Prefixed(heads: set<Byte>, tails: set<seq<Byte>>): set<seq<Byte>> {
    set v, b | v in heads && b in tails :: [v] + b
  }

  function Product(a: nat, b: nat): nat { a * b }

  /** The product of floor(256 / k) for k from 2 to i + 1. */
  function Ways(i: nat): nat {
    if i == 0 then 1 else Product(256 / (i + 1), Ways(i - 1))
  }

  lemma SplitAt(v: Byte, tails: set<seq<Byte>>, x: seq<Byte>)
    ensures x in Prefixed({v}, tails) <==> x != [] && x[0] == v && x[1..] in tails
  {
    if x != [] {
      OnlySplit({v}, tails, x);
    }
  }

  lemma {:induction false} PrefixedOne(v: Byte, tails: set<seq<Byte>>)
    ensures |Prefixed({v}, tails)| == |tails|
    decreases tails
  {
    if tails == {} {
      assert Prefixed({v}, tails) == {};
    } else {
      var b :| b in tails;
      PrefixedOne(v, tails - {b});
      var one := [v] + b;
      assert one[1..] == b;
      forall x ensures x in Prefixed({v}, tails) <==> x in Prefixed({v}, tails - {b}) || x == one {
        SplitAt(v, tails, x);
        SplitAt(v, tails - {b}, x);
      }
      SplitAt(v, tails - {b}, one);
      assert Prefixed({v}, tails) == Prefixed({v}, tails - {b}) + {one};
    }
  }

  lemma PrefixedMore(v: Byte, fewer: set<Byte>, tails: set<seq<Byte>>)
    requires v !in fewer
    ensures |Prefixed(fewer + {v}, tails)| == |Prefixed(fewer, tails)| + |tails|
  {
    PrefixedOne(v, tails);
    forall x | x in Prefixed(fewer, tails) ensures x !in Prefixed({v}, tails) {
      assert x[0] != v;
    }
    assert Prefixed(fewer + {v}, tails) == Prefixed(fewer, tails) + Prefixed({v}, tails);
  }

  lemma {:induction false} PrefixedSize(heads: set<Byte>, tails: set<seq<Byte>>)
    ensures |Prefixed(heads, tails)| == Product(|heads|, |tails|)
    decreases heads
  {
    if heads == {} {
      assert Prefixed(heads, tails) == {};
    } else {
      var v :| v in heads;
      var fewer := heads - {v};
      PrefixedSize(fewer, tails);
      PrefixedMore(v, fewer, tails);
      assert heads == fewer + {v} && |heads| == |fewer| + 1;
      OneMore(|fewer|, |tails|);
    }
  }

  lemma OneMore(a: nat, b: nat)
    ensures Product(a + 1, b) == Product(a, b) + b
  {
  }

  lemma {:induction false} RunsSize(d: seq<nat>, i: nat)
    requires i < |d| && i < 256 && Draws(d)
    ensures |Runs(d, i)| == Ways(i)
  {
    if i > 0 {
      RunsSize(d, i - 1);
      Unbiased(i + 1, d[i]);
      PrefixedSize(Accepted(i + 1, d[i]), Runs(d, i - 1));
    }
  }

  lemma {:induction false} DrawUses(n: nat, tape: seq<Byte>)
    requires n >= 1 && Draw(n, tape).Some?
    ensures
      var (j, rest) := Draw(n, tape).value;
      && |rest| < |tape|
      && (|rest| == |tape| - 1 <==> tape[0] < Limit(n))
      && (|rest| == |tape| - 1 ==> rest == tape[1..] && tape[0] in Accepted(n, j))
  {
    if tape[0] >= Limit(n) {
      DrawUses(n, tape[1..]);
    }
  }

  lemma {:induction false} ShuffleUses<T>(s: seq<T>, i: nat, tape: seq<Byte>)
    requires i < |s| && ShuffleWith(s, i, tape).Some?
    ensures |tape| >= i + |ShuffleWith(s, i, tape).value.1|
    decreases i
  {
    if i > 0 {
      DrawUses(i + 1, tape);
      var (j, rest) := Draw(i + 1, tape).value;
      ShuffleUses(Swap(s, i, j), i - 1, rest);
    }
  }

  /** A byte string of i bytes that shuffles s into the arrangement of d is one of its runs, and conversely. */
  lemma {:induction false} RunsAre<T>(s: seq<T>, i: nat, d: seq<nat>, b: seq<Byte>)
    requires i < |s| == |d| && Draws(d) && Distinct(s)
    ensures b in Runs(d, i) <==> |b| == i && ShuffleWith(s, i, b) == Some((Shuffled(s, i, d), []))
    decreases i
  {
    if i > 0 && b != [] {
      if b[0] < Limit(i + 1) {
        var j := b[0] % (i + 1);
        assert b == [b[0]] + b[1..];
        if j == d[i] {
          SwapDistinct(s, i, j);
          RunsAre(Swap(s, i, j), i - 1, d, b[1..]);
          OnlySplit(Accepted(i + 1, d[i]), Runs(d, i - 1), b);
        } else {
          OnlySplit(Accepted(i + 1, d[i]), Runs(d, i - 1), b);
          WrongDraw(s, i, d, j, b[1..]);
        }
      } else {
        OnlySplit(Accepted(i + 1, d[i]), Runs(d, i - 1), b);
        if |b| == i && ShuffleWith(s, i, b).Some? {
          DrawUses(i + 1, b);
          var (j, rest) := Draw(i + 1, b).value;
          ShuffleUses(Swap(s, i, j), i - 1, rest);
        }
      }
    }
  }

  lemma OnlySplit(heads: set<Byte>, tails: set<seq<Byte>>, b: seq<Byte>)
    requires b != []
    ensures b in Prefixed(heads, tails) <==> b[0] in heads && b[1..] in tails
  {
    assert b == [b[0]] + b[1..];
    if b in Prefixed(heads, tails) {
      var v, c :| v in heads && c in tails && b == [v] + c;
      assert b[1..] == c;
    }
  }

  /** Another draw at step i leads to another arrangement. */
  lemma WrongDraw<T>(s: seq<T>, i: nat, d: seq<nat>, j: nat, rest: seq<Byte>)
    requires 0 < i < |s| == |d| && Draws(d) && Distinct(s) && j <= i && j != d[i]
    ensures ShuffleWith(Swap(s, i, j), i - 1, rest) != Some((Shuffled(s, i, d), []))
  {
    ShuffledAbove(s, i, d);
    if ShuffleWith(Swap(s, i, j), i - 1, rest).Some? {
      var t := Swap(s, i, j);
      var e := TapeGivesDraws(t, i - 1, rest);
      ShuffledAbove(t, i - 1, e);
      assert Shuffled(t, i - 1, e)[i] == t[i] == s[j] && Shuffled(s, i, d)[i] == s[d[i]];
    }
  }

  lemma AllRuns<T>(s: seq<T>, d: seq<nat>, p: seq<T>)
    requires s != [] && |s| == |d| && Draws(d) && Distinct(s) && Shuffled(s, |s| - 1, d) == p
    ensures forall b: seq<Byte> ::
      b in Runs(d, |s| - 1) <==> |b| == |s| - 1 && ShuffleWith(s, |s| - 1, b) == Some((p, []))
  {
    forall b: seq<Byte>
      ensures b in Runs(d, |s| - 1) <==> |b| == |s| - 1 && ShuffleWith(s, |s| - 1, b) == Some((p, []))
    {
      RunsAre(s, |s| - 1, d, b);
    }
  }

  lemma RunsTo<T>(s: seq<T>, d: seq<nat>, p: seq<T>) returns (runs: set<seq<Byte>>)
    requires 1 <= |s| <= 256 && |s| == |d| && Draws(d) && Distinct(s) && Shuffled(s, |s| - 1, d) == p
    ensures |runs| == Ways(|s| - 1)
    ensures forall b: seq<Byte> :: b in runs <==> |b| == |s| - 1 && ShuffleWith(s, |s| - 1, b) == Some((p, []))
  {
    runs := Runs(d, |s| - 1);
    RunsSize(d, |s| - 1);
    AllRuns(s, d, p);
  }

  /**
   * Up to 256 elements, every arrangement is reached by exactly the same number of accepted byte
   * strings: the shuffle is uniform.
   */
  lemma EquallyLikely<T>(s: seq<T>, p: seq<T>) returns (runs: set<seq<Byte>>)
    requires 1 <= |s| <= 256 && Distinct(s) && multiset(p) == multiset(s)
    ensures |runs| == Ways(|s| - 1)
    ensures forall b: seq<Byte> :: b in runs <==> |b| == |s| - 1 && ShuffleWith(s, |s| - 1, b) == Some((p, []))
  {
    var d := FisherYatesExact(s, p);
    runs := RunsTo(s, d, p);
  }
}
