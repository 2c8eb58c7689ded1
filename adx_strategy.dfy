/**
 * The simplified ADX strategy on closes only: over the last 14 changes the
 * true range is the absolute change and +DM / -DM are the up and down moves;
 * the "ADX" is the unsmoothed DX of that window.
 */
module AdxStrategy {
  import opened Models
  import opened Series

  const Period: nat := 14

  datatype AdxResult = AdxResult(adx: real, plusDI: real, minusDI: real)

  /** The first bar of the window ending at `endIndex`: the loop stops after 14 bars or at index 1. */
  function WindowStart(endIndex: nat): nat
  {
    if endIndex >= Period then endIndex - Period + 1 else 1
  }

  /** The directional indices and DX from the three window sums, with a zero true range replaced by 1. */
  function Dx(sumTR: real, sumPlusDM: real, sumMinusDM: real): AdxResult
    requires sumTR >= 0.0 && sumPlusDM >= 0.0 && sumMinusDM >= 0.0
  {
    var tr := if sumTR == 0.0 then 1.0 else sumTR;
    var plusDI := 100.0 * (sumPlusDM / tr);
    var minusDI := 100.0 * (sumMinusDM / tr);
    assert plusDI >= 0.0 && minusDI >= 0.0 by {
      MulNonneg(sumPlusDM, 1.0 / tr);
      MulNonneg(sumMinusDM, 1.0 / tr);
    }
    AdxResult(100.0 * Abs(plusDI - minusDI) / (plusDI + minusDI + 0.0001), plusDI, minusDI)
  }

  /** `calculateADX(data, endIndex)`. */
  function Adx(s: seq<real>, endIndex: nat): AdxResult
    requires endIndex < |s|
  {
    var lo := WindowStart(endIndex);
    MoveSums(s, lo, endIndex + 1);
    Dx(AbsSum(s, lo, endIndex + 1), UpSum(s, lo, endIndex + 1), DownSum(s, lo, endIndex + 1))
  }

  /** The loop of `calculateADX`, walking back from `endIndex` over at most 14 bars. */
  method CalculateAdx(s: seq<real>, endIndex: nat) returns (res: AdxResult)
    requires endIndex < |s|
    ensures res == Adx(s, endIndex)
  {
    var sumTR, sumPlusDM, sumMinusDM := 0.0, 0.0, 0.0;
    var i := 0;
    while i < Period
      invariant 0 <= i <= Period && i <= endIndex
      invariant sumTR == AbsSum(s, endIndex - i + 1, endIndex + 1)
      invariant sumPlusDM == UpSum(s, endIndex - i + 1, endIndex + 1)
      invariant sumMinusDM == DownSum(s, endIndex - i + 1, endIndex + 1)
    {
      var idx := endIndex - i;
      if idx <= 0 {
        break;
      }
      var prev := s[idx - 1];
      var curr := s[idx];
      var trVal := Abs(curr - prev);
      var pdm := if curr > prev then curr - prev else 0.0;
      var mdm := if prev > curr then prev - curr else 0.0;
      if pdm > mdm {
        mdm := 0.0;
      } else if mdm > pdm {
        pdm := 0.0;
      } else {
        pdm, mdm := 0.0, 0.0;
      }
      assert trVal == Abs(s[idx] - s[idx - 1]) && pdm == Up(s, idx) && mdm == Down(s, idx);
      sumTR := trVal + sumTR;
      sumPlusDM := pdm + sumPlusDM;
      sumMinusDM := mdm + sumMinusDM;
      i := i + 1;
    }
    MoveSums(s, WindowStart(endIndex), endIndex + 1);
    res := Dx(sumTR, sumPlusDM, sumMinusDM);
  }

  /**
   * Both DI values are non-negative and DX lies in [0, 100); if the window
   * moved at all the two DI values add up to 100, and a flat window gives
   * DI values and DX of 0.
   */
  lemma AdxRange(s: seq<real>, endIndex: nat)
    requires endIndex < |s|
    ensures var r := Adx(s, endIndex);
      && r.plusDI >= 0.0 && r.minusDI >= 0.0
      && 0.0 <= r.adx < 100.0
    ensures (exists i :: WindowStart(endIndex) <= i <= endIndex && s[i - 1] != s[i]) ==>
      Adx(s, endIndex).plusDI + Adx(s, endIndex).minusDI == 100.0
    ensures (forall i :: WindowStart(endIndex) <= i <= endIndex ==> s[i - 1] == s[i]) ==>
      Adx(s, endIndex) == AdxResult(0.0, 0.0, 0.0)
  {
    var lo, hi := WindowStart(endIndex), endIndex + 1;
    MoveSums(s, lo, hi);
    var tr, up, down := AbsSum(s, lo, hi), UpSum(s, lo, hi), DownSum(s, lo, hi);
    assert Adx(s, endIndex) == Dx(tr, up, down);
    DxFacts(tr, up, down);
    if exists i :: lo <= i <= endIndex && s[i - 1] != s[i] {
      if tr == 0.0 {
        FlatOfZeroAbsSum(s, lo, hi);
        assert false;
      }
      assert tr > 0.0;
    }
    if forall i :: lo <= i <= endIndex ==> s[i - 1] == s[i] {
      SumsOfFlat(s, lo, hi);
    }
  }

  /** The DX formula on sums with `sumPlusDM + sumMinusDM == sumTR`. */
  lemma DxFacts(sumTR: real, sumPlusDM: real, sumMinusDM: real)
    requires sumTR >= 0.0 && sumPlusDM >= 0.0 && sumMinusDM >= 0.0
    requires sumPlusDM + sumMinusDM == sumTR
    ensures var r := Dx(sumTR, sumPlusDM, sumMinusDM);
      && r.plusDI >= 0.0 && r.minusDI >= 0.0
      && 0.0 <= r.adx < 100.0
      && (sumTR > 0.0 ==> r.plusDI + r.minusDI == 100.0)
      && (sumTR == 0.0 ==> r == AdxResult(0.0, 0.0, 0.0))
  {
    DxBounds(sumTR, sumPlusDM, sumMinusDM);
    if sumTR > 0.0 {
      assert sumPlusDM / sumTR + sumMinusDM / sumTR == 1.0;
    }
  }

  /** For any non-negative sums both DI values are non-negative and DX lies in [0, 100). */
  lemma DxBounds(sumTR: real, sumPlusDM: real, sumMinusDM: real)
    requires sumTR >= 0.0 && sumPlusDM >= 0.0 && sumMinusDM >= 0.0
    ensures var r := Dx(sumTR, sumPlusDM, sumMinusDM);
      && r.plusDI >= 0.0 && r.minusDI >= 0.0
      && 0.0 <= r.adx < 100.0
  {
    var r := Dx(sumTR, sumPlusDM, sumMinusDM);
    DxBelow100(r.plusDI, r.minusDI);
  }

  /** 100 * |p - m| / (p + m + 0.0001) lies in [0, 100) for non-negative p and m. */
  lemma DxBelow100(p: real, m: real)
    requires p >= 0.0 && m >= 0.0
    ensures 0.0 <= 100.0 * Abs(p - m) / (p + m + 0.0001) < 100.0
  {
    var a := 100.0 * Abs(p - m);
    var b := p + m + 0.0001;
    var q := a / b;
    assert q * b == a;
    assert a < 100.0 * b;
    if q < 0.0 {
      MulNonneg(-q, b);
    }
    if q >= 100.0 {
      MulNonneg(q - 100.0, b);
    }
  }

  /** `generateSignal`: with a trending DX above 25 the larger DI decides; equal DI values hold. */
  function GenerateSignal(s: seq<real>): Signal
  {
    if |s| < Period * 2 then Hold
    else
      var r := Adx(s, |s| - 1);
      if r.adx > 25.0 && r.plusDI > r.minusDI then Buy
      else if r.adx > 25.0 && r.minusDI > r.plusDI then Sell
      else Hold
  }

  /** Fewer than 28 prices hold; a flat window holds; BUY and SELL need a DX above 25. */
  lemma SignalRule(s: seq<real>)
    ensures |s| < 28 ==> GenerateSignal(s) == Hold
    ensures |s| >= 28 ==>
      var r := Adx(s, |s| - 1);
      && (GenerateSignal(s) == Buy <==> r.adx > 25.0 && r.plusDI > r.minusDI)
      && (GenerateSignal(s) == Sell <==> r.adx > 25.0 && r.minusDI > r.plusDI)
    ensures |s| >= 28 && (forall i :: |s| - 14 <= i < |s| ==> s[i - 1] == s[i]) ==> GenerateSignal(s) == Hold
  {
    if |s| >= 28 && (forall i :: |s| - 14 <= i < |s| ==> s[i - 1] == s[i]) {
      AdxRange(s, |s| - 1);
    }
  }
}
