/**
 * Arithmetic over price series shared by the indicators: absolute value,
 * maximum, plain sums, and the per-bar up and down moves that both the RSI
 * (gains and losses) and the close-only ADX (+DM and -DM) accumulate.
 *
 * Index sums run over the bars `lo <= i < hi`; bar `i` is the move from
 * `s[i-1]` to `s[i]`.  They recurse on the low end, in the order the
 * backward loops of the ADX code visit them, and `UpSumAppend` and friends
 * give the extension at the high end that the forward RSI loops need.
 */
module Series {

  function Abs(x: real): (r: real)
    ensures r >= 0.0 && (r == x || r == -x)
  {
    if x < 0.0 then -x else x
  }

  function Max(x: real, y: real): (r: real)
    ensures r >= x && r >= y && (r == x || r == y)
  {
    if x >= y then x else y
  }

  /** Sum of the elements of `s`. */
  function Sum(s: seq<real>): real
  {
    if s == [] then 0.0 else s[0] + Sum(s[1..])
  }

  /** A series whose elements all equal `c` sums to `|s| * c`. */
  lemma {:induction false} SumConstant(s: seq<real>, c: real)
    requires forall i :: 0 <= i < |s| ==> s[i] == c
    ensures Sum(s) == |s| as real * c
  {
    if s != [] {
      SumConstant(s[1..], c);
    }
  }

  /** The upward move of bar `i`: the rise from `s[i-1]` to `s[i]`, or 0. */
  function Up(s: seq<real>, i: nat): real
    requires 1 <= i < |s|
  {
    if s[i] - s[i - 1] > 0.0 then s[i] - s[i - 1] else 0.0
  }

  /** The downward move of bar `i`: the fall from `s[i-1]` to `s[i]`, or 0. */
  function Down(s: seq<real>, i: nat): real
    requires 1 <= i < |s|
  {
    if s[i] - s[i - 1] > 0.0 then 0.0 else Abs(s[i] - s[i - 1])
  }

  /** Per bar the two moves are non-negative, at most one is non-zero, and together they are the absolute change. */
  lemma MovesOfBar(s: seq<real>, i: nat)
    requires 1 <= i < |s|
    ensures Up(s, i) >= 0.0 && Down(s, i) >= 0.0
    ensures Up(s, i) == 0.0 || Down(s, i) == 0.0
    ensures Up(s, i) + Down(s, i) == Abs(s[i] - s[i - 1])
  {
  }

  function UpSum(s: seq<real>, lo: nat, hi: nat): real
    requires 1 <= lo <= hi <= |s|
    decreases hi - lo
  {
    if lo == hi then 0.0 else Up(s, lo) + UpSum(s, lo + 1, hi)
  }

  function DownSum(s: seq<real>, lo: nat, hi: nat): real
    requires 1 <= lo <= hi <= |s|
    decreases hi - lo
  {
    if lo == hi then 0.0 else Down(s, lo) + DownSum(s, lo + 1, hi)
  }

  /** Sum of the absolute changes: the close-only true range of a window. */
  function AbsSum(s: seq<real>, lo: nat, hi: nat): real
    requires 1 <= lo <= hi <= |s|
    decreases hi - lo
  {
    if lo == hi then 0.0 else Abs(s[lo] - s[lo - 1]) + AbsSum(s, lo + 1, hi)
  }

  lemma {:induction false} UpSumAppend(s: seq<real>, lo: nat, hi: nat)
    requires 1 <= lo <= hi < |s|
    ensures UpSum(s, lo, hi + 1) == UpSum(s, lo, hi) + Up(s, hi)
    decreases hi - lo
  {
    if lo < hi {
      UpSumAppend(s, lo + 1, hi);
    }
  }

  lemma {:induction false} DownSumAppend(s: seq<real>, lo: nat, hi: nat)
    requires 1 <= lo <= hi < |s|
    ensures DownSum(s, lo, hi + 1) == DownSum(s, lo, hi) + Down(s, hi)
    decreases hi - lo
  {
    if lo < hi {
      DownSumAppend(s, lo + 1, hi);
    }
  }

  /** Both move sums are non-negative and together they make the absolute-change sum. */
  lemma {:induction false} MoveSums(s: seq<real>, lo: nat, hi: nat)
    requires 1 <= lo <= hi <= |s|
    ensures UpSum(s, lo, hi) >= 0.0 && DownSum(s, lo, hi) >= 0.0
    ensures UpSum(s, lo, hi) + DownSum(s, lo, hi) == AbsSum(s, lo, hi)
    decreases hi - lo
  {
    if lo < hi {
      MovesOfBar(s, lo);
      MoveSums(s, lo + 1, hi);
    }
  }

  /** A window whose closes never fall has no downward move. */
  lemma {:induction false} DownSumOfRising(s: seq<real>, lo: nat, hi: nat)
    requires 1 <= lo <= hi <= |s|
    requires forall i :: lo <= i < hi ==> s[i - 1] <= s[i]
    ensures DownSum(s, lo, hi) == 0.0
    decreases hi - lo
  {
    if lo < hi {
      DownSumOfRising(s, lo + 1, hi);
    }
  }

  /** A window whose closes never rise has no upward move. */
  lemma {:induction false} UpSumOfFalling(s: seq<real>, lo: nat, hi: nat)
    requires 1 <= lo <= hi <= |s|
    requires forall i :: lo <= i < hi ==> s[i - 1] >= s[i]
    ensures UpSum(s, lo, hi) == 0.0
    decreases hi - lo
  {
    if lo < hi {
      UpSumOfFalling(s, lo + 1, hi);
    }
  }

  /** A window of equal closes has no move at all. */
  lemma {:induction false} SumsOfFlat(s: seq<real>, lo: nat, hi: nat)
    requires 1 <= lo <= hi <= |s|
    requires forall i :: lo <= i < hi ==> s[i - 1] == s[i]
    ensures UpSum(s, lo, hi) == 0.0 && DownSum(s, lo, hi) == 0.0 && AbsSum(s, lo, hi) == 0.0
    decreases hi - lo
  {
    if lo < hi {
      SumsOfFlat(s, lo + 1, hi);
    }
  }

  /** Conversely, a zero absolute-change sum means the window is flat. */
  lemma {:induction false} FlatOfZeroAbsSum(s: seq<real>, lo: nat, hi: nat)
    requires 1 <= lo <= hi <= |s|
    requires AbsSum(s, lo, hi) == 0.0
    ensures forall i :: lo <= i < hi ==> s[i - 1] == s[i]
    decreases hi - lo
  {
    if lo < hi {
      AbsSumNonneg(s, lo + 1, hi);
      FlatOfZeroAbsSum(s, lo + 1, hi);
    }
  }

  lemma {:induction false} AbsSumNonneg(s: seq<real>, lo: nat, hi: nat)
    requires 1 <= lo <= hi <= |s|
    ensures AbsSum(s, lo, hi) >= 0.0
    decreases hi - lo
  {
    if lo < hi {
      AbsSumNonneg(s, lo + 1, hi);
    }
  }

  /** The move sums over a window only read the closes inside it (from `lo - 1`). */
  lemma {:induction false} SumsOfSameWindow(s: seq<real>, t: seq<real>, lo: nat, hi: nat, d: nat)
    requires 1 <= lo <= hi <= |s| && lo + d <= hi + d <= |t|
    requires forall i :: lo - 1 <= i < hi ==> s[i] == t[i + d]
    ensures UpSum(s, lo, hi) == UpSum(t, lo + d, hi + d)
    ensures DownSum(s, lo, hi) == DownSum(t, lo + d, hi + d)
    decreases hi - lo
  {
    if lo < hi {
      SumsOfSameWindow(s, t, lo + 1, hi, d);
    }
  }

  /** x * y for x, y >= 0 is non-negative (a hint the solver's non-linear reasoning needs). */
  lemma MulNonneg(x: real, y: real)
    requires x >= 0.0 && y >= 0.0
    ensures x * y >= 0.0
  {
  }

  /** A positive numerator over a denominator of at least 1 gives a quotient in (0, a]. */
  lemma DivBounds(a: real, b: real)
    requires a > 0.0 && b >= 1.0
    ensures 0.0 < a / b <= a
  {
    var q := a / b;
    assert q * b == a;
    if q <= 0.0 {
      MulNonneg(-q, b);
    }
    if q > a {
      assert q * b >= q * 1.0;
    }
  }

  /** A sum of positive elements over a non-empty series is positive. */
  lemma {:induction false} SumPositive(s: seq<real>)
    requires s != []
    requires forall i :: 0 <= i < |s| ==> s[i] > 0.0
    ensures Sum(s) > 0.0
  {
    if |s| > 1 {
      SumPositive(s[1..]);
    }
  }
}
