/** Shared vocabulary of the dashboard model: optional values, column
    aggregates over kWh readings, Python's two-decimal rounding, integer
    rendering and message templates. */
module Common {

  datatype Option<+T> = None | Some(value: T)

  /** An f-string argument: the model keeps a message as its template and
      the values substituted into it, and leaves the number formatting
      (`:.2f`, `:.1f`) to the renderer. */
  datatype Arg = Num(r: real) | Int(i: int) | Str(s: string)

  function Abs(x: real): real { if x < 0.0 then -x else x }

  /** `Series.sum()` of a numeric column. */
  function Sum(s: seq<real>): real
  {
    if s == [] then 0.0 else Sum(s[..|s| - 1]) + s[|s| - 1]
  }

  lemma {:induction false} SumAppend(a: seq<real>, b: seq<real>)
    ensures Sum(a + b) == Sum(a) + Sum(b)
    decreases |b|
  {
    if b == [] {
      assert a + b == a;
    } else {
      assert (a + b)[..|a + b| - 1] == a + b[..|b| - 1];
      SumAppend(a, b[..|b| - 1]);
    }
  }

  /** Element-wise difference of two columns of the same length. */
  function Diff(g: seq<real>, c: seq<real>): (d: seq<real>)
    requires |g| == |c|
    ensures |d| == |g|
    ensures forall i :: 0 <= i < |d| ==> d[i] == g[i] - c[i]
  {
    seq(|g|, i requires 0 <= i < |g| => g[i] - c[i])
  }

  /** The column of differences sums to the difference of the sums. */
  lemma {:induction false} SumDiff(g: seq<real>, c: seq<real>)
    requires |g| == |c|
    ensures Sum(Diff(g, c)) == Sum(g) - Sum(c)
    decreases |g|
  {
    if g != [] {
      var n := |g| - 1;
      assert Diff(g, c)[..n] == Diff(g[..n], c[..n]);
      SumDiff(g[..n], c[..n]);
    }
  }

  /** Number of entries strictly below `t` (`len(df[df[col] < t])`). */
  function CountBelow(s: seq<real>, t: real): (k: nat)
    ensures k <= |s|
  {
    if s == [] then 0 else CountBelow(s[..|s| - 1], t) + (if s[|s| - 1] < t then 1 else 0)
  }

  /** Number of entries at most `t` (`len(df[df[col] <= t])`). */
  function CountAtMost(s: seq<real>, t: real): (k: nat)
    ensures k <= |s|
  {
    if s == [] then 0 else CountAtMost(s[..|s| - 1], t) + (if s[|s| - 1] <= t then 1 else 0)
  }

  /** Number of entries strictly above `t` (`len(df[df[col] > t])`). */
  function CountAbove(s: seq<real>, t: real): (k: nat)
    ensures k <= |s|
  {
    if s == [] then 0 else CountAbove(s[..|s| - 1], t) + (if s[|s| - 1] > t then 1 else 0)
  }

  lemma {:induction false} CountBelowAtMost(s: seq<real>, t: real)
    ensures CountBelow(s, t) <= CountAtMost(s, t)
    decreases |s|
  {
    if s != [] { CountBelowAtMost(s[..|s| - 1], t); }
  }

  /** A lower threshold never catches more entries. */
  lemma {:induction false} CountBelowMonotone(s: seq<real>, t: real, t': real)
    requires t' <= t
    ensures CountBelow(s, t') <= CountBelow(s, t)
    decreases |s|
  {
    if s != [] { CountBelowMonotone(s[..|s| - 1], t, t'); }
  }

  lemma {:induction false} CountBelowZeroIffNone(s: seq<real>, t: real)
    ensures CountBelow(s, t) == 0 <==> forall i :: 0 <= i < |s| ==> s[i] >= t
    decreases |s|
  {
    if s != [] {
      var n := |s| - 1;
      CountBelowZeroIffNone(s[..n], t);
      assert forall i :: 0 <= i < n ==> s[..n][i] == s[i];
    }
  }

  lemma {:induction false} CountAtMostZeroIffNone(s: seq<real>, t: real)
    ensures CountAtMost(s, t) == 0 <==> forall i :: 0 <= i < |s| ==> s[i] > t
    decreases |s|
  {
    if s != [] {
      var n := |s| - 1;
      CountAtMostZeroIffNone(s[..n], t);
      assert forall i :: 0 <= i < n ==> s[..n][i] == s[i];
    }
  }

  lemma {:induction false} CountAboveZeroIffNone(s: seq<real>, t: real)
    ensures CountAbove(s, t) == 0 <==> forall i :: 0 <= i < |s| ==> s[i] <= t
    decreases |s|
  {
    if s != [] {
      var n := |s| - 1;
      CountAboveZeroIffNone(s[..n], t);
      assert forall i :: 0 <= i < n ==> s[..n][i] == s[i];
    }
  }

  /** Every entry is above `t` exactly when all of them are counted. */
  lemma {:induction false} CountAboveTodos(s: seq<real>, t: real)
    ensures CountAbove(s, t) == |s| <==> forall i :: 0 <= i < |s| ==> s[i] > t
    decreases |s|
  {
    if s != [] {
      var n := |s| - 1;
      CountAboveTodos(s[..n], t);
      assert forall i :: 0 <= i < n ==> s[..n][i] == s[i];
    }
  }

  /** A column of non-negative entries has a non-negative sum, and a
      non-empty column of positive entries a positive one. */
  lemma {:induction false} SumPositive(s: seq<real>)
    requires forall i :: 0 <= i < |s| ==> s[i] >= 0.0
    ensures Sum(s) >= 0.0
    ensures (s != [] && forall i :: 0 <= i < |s| ==> s[i] > 0.0) ==> Sum(s) > 0.0
    decreases |s|
  {
    if s != [] {
      var n := |s| - 1;
      assert forall i :: 0 <= i < n ==> s[..n][i] == s[i];
      SumPositive(s[..n]);
    }
  }

  /** `Series.mean()` of a column of `n` entries summing to `total`. */
  function Media(total: real, n: nat): (m: real)
    requires n > 0
    ensures m * (n as real) == total
  {
    total / n as real
  }

  /** `len(selected rows) / len(rows) * 100`, or 0 for no rows. */
  function Percentual(k: nat, n: nat): (p: real)
    requires k <= n
    ensures 0.0 <= p <= 100.0
    ensures n == 0 ==> p == 0.0
  {
    if n > 0 then
      var q := k as real / n as real;
      assert q <= 1.0 by {
        assert q * (n as real) == k as real;
        if q > 1.0 { assert q * (n as real) > n as real; }
      }
      q * 100.0
    else 0.0
  }

  /** The percentage is the share: p · n = 100 · k. */
  lemma PercentualProporcao(k: nat, n: nat)
    requires k <= n && n > 0
    ensures Percentual(k, n) * (n as real) == 100.0 * (k as real)
  {
    var q := k as real / n as real;
    assert q * (n as real) == k as real;
  }

  /** The percentage reaches 100 exactly when every row is selected and
      0 exactly when none is. */
  lemma PercentualExtremos(k: nat, n: nat)
    requires k <= n && n > 0
    ensures Percentual(k, n) == 100.0 <==> k == n
    ensures Percentual(k, n) == 0.0 <==> k == 0
  {
    var q := k as real / n as real;
    assert q * (n as real) == k as real;
    assert Percentual(k, n) == q * 100.0;
    if k == n { assert q == 1.0; }
    if q == 1.0 { assert k as real == n as real; }
    if q == 0.0 { assert k as real == 0.0; }
  }

  /** `x · 100` rounded to the nearest integer, ties to the even one:
      the number of hundredths `round(x, 2)` keeps (computed on the exact
      value, not on its binary float). */
  function Centesimos(x: real): (k: int)
    ensures -0.5 <= k as real - x * 100.0 <= 0.5
    ensures (k as real - x * 100.0 == 0.5 || x * 100.0 - k as real == 0.5) ==> k % 2 == 0
  {
    var y := x * 100.0;
    var f := y.Floor;
    var d := y - f as real;
    if d < 0.5 then f else if d > 0.5 then f + 1 else if f % 2 == 0 then f else f + 1
  }

  /** Python's `round(x, 2)`: a whole number of hundredths, at most half a
      hundredth away from `x`. */
  function Round2(x: real): (r: real)
    ensures r * 100.0 == Centesimos(x) as real
    ensures -1.0 / 200.0 <= r - x <= 1.0 / 200.0
  {
    Centesimos(x) as real / 100.0
  }

  /** A value that is already a whole number of hundredths is left as is,
      so rounding twice is rounding once. */
  lemma RoundHundredths(k: int)
    ensures Round2(k as real / 100.0) == k as real / 100.0
  {
    var y := (k as real / 100.0) * 100.0;
    assert y == k as real;
    assert y.Floor == k;
  }

  lemma Round2Idempotent(x: real)
    ensures Round2(Round2(x)) == Round2(x)
  {
    RoundHundredths(Centesimos(x));
  }

  function DigitChar(d: nat): char
    requires d < 10
  {
    "0123456789"[d]
  }

  /** The value of a decimal digit character. */
  function ValorDigito(c: char): int
  {
    c as int - '0' as int
  }

  /** Each digit character reads back as its digit. */
  lemma DigitoIda(d: nat)
    requires d < 10
    ensures ValorDigito(DigitChar(d)) == d
  {
    if d == 0 { } else if d == 1 { } else if d == 2 { } else if d == 3 { } else if d == 4 { }
    else if d == 5 { } else if d == 6 { } else if d == 7 { } else if d == 8 { } else { }
  }

  /** `str(n)` for a natural number. */
  function NatToString(n: nat): (s: string)
    ensures |s| >= 1
    ensures forall i :: 0 <= i < |s| ==> '0' <= s[i] <= '9'
    decreases n
  {
    if n < 10 then [DigitChar(n)] else NatToString(n / 10) + [DigitChar(n % 10)]
  }

  /** `str(i)` / `f"{i}"` for any integer. */
  function IntToString(i: int): (s: string)
    ensures |s| >= 1
  {
    if i < 0 then "-" + NatToString(-i) else NatToString(i)
  }

  /** `f"{n:02d}"` for a natural number. */
  function Pad2(n: nat): (s: string)
    ensures n < 100 ==> |s| == 2
  {
    if n < 10 then ['0', DigitChar(n)]
    else
      assert n < 100 ==> |NatToString(n / 10)| == 1;
      NatToString(n)
  }
}
