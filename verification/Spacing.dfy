/** Events that keep a minimum distance: how many fit into a span of time. */
module Spacing {
  /** Any two of the times are at least `gap` apart, earlier ones first. */
  predicate Spaced(ts: seq<real>, gap: real) {
    forall i, j | 0 <= i < j < |ts| :: ts[i] + gap <= ts[j]
  }

  function CountIn(ts: seq<real>, lo: real, hi: real): nat {
    if ts == [] then 0
    else CountIn(ts[..|ts| - 1], lo, hi) + (if lo <= ts[|ts| - 1] <= hi then 1 else 0)
  }

  /** Appending a time that keeps its distance from the last one. */
  lemma SpacedAppend(ts: seq<real>, t: real, gap: real)
    requires Spaced(ts, gap) && 0.0 <= gap
    requires ts != [] ==> ts[|ts| - 1] + gap <= t
    ensures Spaced(ts + [t], gap)
  {
  }

  /** n gaps in a row. */
  function Gaps(n: nat, gap: real): real {
    if n == 0 then 0.0 else Gaps(n - 1, gap) + gap
  }

  lemma {:induction false} GapsProduct(n: nat, gap: real)
    ensures Gaps(n, gap) == n as real * gap
  {
    if n > 0 {
      GapsProduct(n - 1, gap);
      var x := (n - 1) as real;
      assert n as real == x + 1.0;
      assert (x + 1.0) * gap == x * gap + gap;
    }
  }

  /** With n times in the window, the n-th is at least (n - 1) gaps into it. */
  lemma {:induction false} CountReaches(ts: seq<real>, gap: real, lo: real, hi: real) returns (k: nat)
    requires Spaced(ts, gap) && CountIn(ts, lo, hi) > 0
    ensures k < |ts| && lo <= ts[k] <= hi
    ensures lo + Gaps(CountIn(ts, lo, hi) - 1, gap) <= ts[k]
  {
    var n := |ts| - 1;
    var init := ts[..n];
    if lo <= ts[n] <= hi {
      k := n;
      if CountIn(init, lo, hi) > 0 {
        var j := CountReaches(init, gap, lo, hi);
        assert init[j] == ts[j];
      }
    } else {
      k := CountReaches(init, gap, lo, hi);
    }
  }

  lemma DivideOut(n: nat, gap: real, length: real)
    requires 0.0 < gap && n as real * gap <= length
    ensures n <= (length / gap).Floor
  {
    var q := length / gap;
    var d := q - n as real;
    assert d * gap == q * gap - n as real * gap;
    assert d >= 0.0;
  }

  /** Any span of length T holds at most floor(T / gap) + 1 of them. */
  lemma SpanBound(ts: seq<real>, gap: real, lo: real, length: real)
    requires Spaced(ts, gap) && 0.0 < gap && 0.0 <= length
    ensures CountIn(ts, lo, lo + length) <= (length / gap).Floor + 1
  {
    if CountIn(ts, lo, lo + length) > 0 {
      var k := CountReaches(ts, gap, lo, lo + length);
      var n: nat := CountIn(ts, lo, lo + length) - 1;
      GapsProduct(n, gap);
      DivideOut(n, gap, length);
    } else {
      DivideOut(0, gap, length);
    }
  }
}
