// Exponential and Wilder averages, the relative strength index and the average
// directional index, with Decimals as exact reals.  Lists are computed by loops;
// the reference functions give the value at one index.
module Indicators {
  import opened Common

  datatype Bar = Bar(high: real, low: real, close: real) {
    predicate Valid() { low <= close <= high }
  }

  predicate ValidBars(bars: seq<Bar>) { forall i :: 0 <= i < |bars| ==> bars[i].Valid() }

  function Abs(x: real): real { if x < 0.0 then -x else x }

  function Per(x: real, period: nat): real
    requires period > 0
  {
    x / (period as real)
  }

  // ------------------------------------------------------------------- averages

  function EmaStep(value: real, last: real, period: nat): real {
    var alpha := 2.0 / ((period + 1) as real);
    value * alpha + last * (1.0 - alpha)
  }

  function EmaAt(values: seq<real>, period: nat, n: nat): real
    requires n < |values|
  {
    if n == 0 then values[0] else EmaStep(values[n], EmaAt(values, period, n - 1), period)
  }

  method Ema(values: seq<real>, period: int) returns (r: Option<seq<real>>)
    ensures r.None? <==> period < 1
    ensures r.Some? ==>
              |r.value| == |values| && forall n :: 0 <= n < |values| ==> r.value[n] == EmaAt(values, period, n)
  {
    if period < 1 { return None; }
    if values == [] { return Some([]); }
    hide EmaStep;
    var result := [values[0]];
    for i := 1 to |values|
      invariant |result| == i && forall n :: 0 <= n < i ==> result[n] == EmaAt(values, period, n)
    {
      result := result + [EmaStep(values[i], result[i - 1], period)];
    }
    r := Some(result);
  }

  function WilderStep(current: real, value: real, period: nat): real
    requires period > 0
  {
    Per(Scale(current, period) + value, period)
  }

  function Scale(x: real, period: nat): real
    requires period > 0
  {
    x * ((period - 1) as real)
  }

  // The smoothed value; there is none before a full first period.
  function WilderAt(values: seq<real>, period: nat, n: nat): real
    requires 0 < period && period - 1 <= n < |values|
    decreases n
  {
    if n == period - 1 then Per(Sum(values[..period]), period)
    else WilderStep(WilderAt(values, period, n - 1), values[n], period)
  }

  function WilderList(values: seq<real>, period: nat): seq<Option<real>>
    requires 0 < period
  {
    seq(|values|, n requires 0 <= n < |values| => if n < period - 1 then None else Some(WilderAt(values, period, n)))
  }

  method Wilder(values: seq<real>, period: int) returns (r: Option<seq<Option<real>>>)
    ensures r == if period < 1 then None else Some(WilderList(values, period))
  {
    if period < 1 { return None; }
    if |values| < period {
      assert seq(|values|, i => None) == WilderList(values, period);
      return Some(seq(|values|, i => None));
    }
    hide WilderStep, Per, Sum;
    var current := Per(Sum(values[..period]), period);
    var result: seq<Option<real>> := seq(period - 1, i => None) + [Some(current)];
    for index := period to |values|
      invariant |result| == index && current == WilderAt(values, period, index - 1)
      invariant forall n :: 0 <= n < index ==> result[n] == WilderList(values, period)[n]
    {
      current := WilderStep(current, values[index], period);
      result := result + [Some(current)];
    }
    assert result == WilderList(values, period);
    r := Some(result);
  }

  // ---------------------------------------------------- averages keep their place

  lemma DivideBetween(x: real, lo: real, hi: real, p: real)
    requires p > 0.0 && lo * p <= x <= hi * p
    ensures lo <= x / p <= hi
  {
    var q := x / p;
    assert q * p == x;
    assert (q - lo) * p >= 0.0 && (hi - q) * p >= 0.0;
  }

  lemma EmaStepBetween(value: real, last: real, period: nat, lo: real, hi: real)
    requires period > 0 && lo <= value <= hi && lo <= last <= hi
    ensures lo <= EmaStep(value, last, period) <= hi
  {
    var p := (period + 1) as real;
    var alpha := 2.0 / p;
    DivideBetween(2.0, 0.0, 1.0, p);
    Blend(value - lo, last - lo, alpha);
    Blend(hi - value, hi - last, alpha);
    assert value * alpha + last * (1.0 - alpha) - lo == (value - lo) * alpha + (last - lo) * (1.0 - alpha);
    assert hi - (value * alpha + last * (1.0 - alpha)) == (hi - value) * alpha + (hi - last) * (1.0 - alpha);
  }

  lemma Blend(a: real, b: real, alpha: real)
    requires a >= 0.0 && b >= 0.0 && 0.0 <= alpha <= 1.0
    ensures a * alpha + b * (1.0 - alpha) >= 0.0
  {
    assert a * alpha >= 0.0 && b * (1.0 - alpha) >= 0.0;
  }

  // An exponential average stays between the values seen so far.
  lemma {:induction false} EmaBetween(values: seq<real>, period: nat, n: nat, lo: real, hi: real)
    requires n < |values| && period > 0 && forall i :: 0 <= i <= n ==> lo <= values[i] <= hi
    ensures lo <= EmaAt(values, period, n) <= hi
  {
    hide EmaStep;
    if n > 0 {
      EmaBetween(values, period, n - 1, lo, hi);
      EmaStepBetween(values[n], EmaAt(values, period, n - 1), period, lo, hi);
    }
  }

  // Later values change nothing.
  lemma {:induction false} EmaCausal(values: seq<real>, longer: seq<real>, period: nat, n: nat)
    requires n < |values| && values <= longer
    ensures EmaAt(values, period, n) == EmaAt(longer, period, n)
  {
    hide EmaStep;
    if n > 0 { EmaCausal(values, longer, period, n - 1); }
  }

  lemma {:induction false} WilderCausal(values: seq<real>, longer: seq<real>, period: nat, n: nat)
    requires 0 < period && period - 1 <= n < |values| && values <= longer
    ensures WilderAt(values, period, n) == WilderAt(longer, period, n)
    decreases n
  {
    hide WilderStep, Per, Sum;
    if n == period - 1 {
      assert values[..period] == longer[..period];
    } else {
      WilderCausal(values, longer, period, n - 1);
    }
  }

  lemma {:induction false} SumDominated(xs: seq<real>, ys: seq<real>)
    requires |xs| == |ys| && forall i :: 0 <= i < |xs| ==> xs[i] <= ys[i]
    ensures Sum(xs) <= Sum(ys)
  {
    if xs != [] { SumDominated(xs[..|xs| - 1], ys[..|ys| - 1]); }
  }

  lemma StepMonotone(a: real, b: real, x: real, y: real, period: nat)
    requires period > 0 && a <= b && x <= y
    ensures WilderStep(a, x, period) <= WilderStep(b, y, period)
  {
    ScaleMonotone(a, b, period);
    hide Scale, Per;
    PerMonotone(Scale(a, period) + x, Scale(b, period) + y, period);
  }

  lemma Product(x: real, y: real)
    requires x >= 0.0 && y >= 0.0
    ensures x * y >= 0.0 && (x > 0.0 && y > 0.0 ==> x * y > 0.0)
  {
  }

  lemma Difference(a: real, b: real, q: real)
    ensures (b - a) * q == b * q - a * q
  {
  }

  lemma ScaleMonotone(a: real, b: real, period: nat)
    requires period > 0 && a <= b
    ensures Scale(a, period) <= Scale(b, period)
    ensures Scale(0.0, period) == 0.0
    ensures a < b && period > 1 ==> Scale(a, period) < Scale(b, period)
  {
    var q := (period - 1) as real;
    Product(b - a, q);
    Difference(a, b, q);
    assert Scale(a, period) == a * q && Scale(b, period) == b * q;
  }

  lemma PerMonotone(x: real, y: real, period: nat)
    requires period > 0 && x <= y
    ensures Per(x, period) <= Per(y, period)
  {
    var p := period as real;
    Quotient(y - x, p);
    assert Per(y, period) - Per(x, period) == (y - x) / p;
  }

  // Smoothing keeps pointwise order.
  lemma {:induction false} WilderMonotone(xs: seq<real>, ys: seq<real>, period: nat, n: nat)
    requires 0 < period && period - 1 <= n < |xs| == |ys| && forall i :: 0 <= i <= n ==> xs[i] <= ys[i]
    ensures WilderAt(xs, period, n) <= WilderAt(ys, period, n)
    decreases n
  {
    hide WilderStep, Per, Sum;
    if n == period - 1 {
      SumDominated(xs[..period], ys[..period]);
      PerMonotone(Sum(xs[..period]), Sum(ys[..period]), period);
    } else {
      WilderMonotone(xs, ys, period, n - 1);
      StepMonotone(WilderAt(xs, period, n - 1), WilderAt(ys, period, n - 1), xs[n], ys[n], period);
    }
  }

  lemma StepNonNegative(a: real, x: real, period: nat)
    requires period > 0 && a >= 0.0 && x >= 0.0
    ensures WilderStep(a, x, period) >= 0.0
    ensures (a > 0.0 && period > 1) || x > 0.0 ==> WilderStep(a, x, period) > 0.0
    ensures a == 0.0 && x == 0.0 ==> WilderStep(a, x, period) == 0.0
  {
    ScaleMonotone(0.0, a, period);
    PerSign(Scale(a, period) + x, period);
    hide Scale, Per;
  }

  lemma PerSign(x: real, period: nat)
    requires period > 0 && x >= 0.0
    ensures Per(x, period) >= 0.0 && (x > 0.0 ==> Per(x, period) > 0.0) && (x == 0.0 ==> Per(x, period) == 0.0)
  {
  }

  lemma {:induction false} SumNonNegative(xs: seq<real>)
    requires forall i :: 0 <= i < |xs| ==> xs[i] >= 0.0
    ensures Sum(xs) >= 0.0
    ensures Sum(xs) == 0.0 <==> forall i :: 0 <= i < |xs| ==> xs[i] == 0.0
  {
    if xs != [] { SumNonNegative(xs[..|xs| - 1]); }
  }

  lemma {:induction false} WilderNonNegative(xs: seq<real>, period: nat, n: nat)
    requires 0 < period && period - 1 <= n < |xs| && forall i :: 0 <= i <= n ==> xs[i] >= 0.0
    ensures WilderAt(xs, period, n) >= 0.0
    decreases n
  {
    hide WilderStep, Per, Sum;
    if n == period - 1 {
      SumNonNegative(xs[..period]);
      PerMonotone(0.0, Sum(xs[..period]), period);
      assert Per(0.0, period) == 0.0 by { PerZero(period); }
    } else {
      WilderNonNegative(xs, period, n - 1);
      StepNonNegative(WilderAt(xs, period, n - 1), xs[n], period);
    }
  }

  lemma PerZero(period: nat)
    requires period > 0
    ensures Per(0.0, period) == 0.0
  {
  }

  // ------------------------------------------------------------ relative strength

  function Strength(gain: real, loss: real): real
    requires gain >= 0.0 && loss >= 0.0
  {
    if loss == 0.0 then if gain > 0.0 then 100.0 else 50.0
    else
      Quotient(gain, loss);
      100.0 - 100.0 / (1.0 + gain / loss)
  }

  lemma StrengthBetween(gain: real, loss: real)
    requires gain >= 0.0 && loss >= 0.0
    ensures 0.0 <= Strength(gain, loss) <= 100.0
  {
    if loss > 0.0 {
      Quotient(gain, loss);
      DivideBetween(100.0, 0.0, 100.0, 1.0 + gain / loss);
    }
  }

  lemma Quotient(x: real, y: real)
    requires x >= 0.0 && y > 0.0
    ensures x / y >= 0.0
  {
  }

  function Gains(values: seq<real>): (r: seq<real>)
    ensures |values| > 0 ==> |r| == |values| - 1
    ensures forall i :: 0 <= i < |r| ==> r[i] >= 0.0
  {
    if |values| < 2 then []
    else seq(|values| - 1, i requires 0 <= i < |values| - 1 => Max(values[i + 1] - values[i], 0.0))
  }

  function Losses(values: seq<real>): (r: seq<real>)
    ensures |values| > 0 ==> |r| == |values| - 1
    ensures forall i :: 0 <= i < |r| ==> r[i] >= 0.0
  {
    if |values| < 2 then []
    else seq(|values| - 1, i requires 0 <= i < |values| - 1 => Max(values[i] - values[i + 1], 0.0))
  }

  // The index needs one more value than its period has changes.
  function RsiAt(values: seq<real>, period: nat, n: nat): real
    requires 0 < period <= n < |values|
  {
    WilderNonNegative(Gains(values), period, n - 1);
    WilderNonNegative(Losses(values), period, n - 1);
    Strength(WilderAt(Gains(values), period, n - 1), WilderAt(Losses(values), period, n - 1))
  }

  function RsiList(values: seq<real>, period: nat, n: nat): (r: seq<Option<real>>)
    requires 0 < period && n <= |values|
    ensures |r| == n
  {
    seq(n, i requires 0 <= i < n => if i < period then None else Some(RsiAt(values, period, i)))
  }

  lemma RsiListGrows(values: seq<real>, period: nat, n: nat)
    requires 0 < period && n < |values|
    ensures RsiList(values, period, n + 1)
            == RsiList(values, period, n) + [if n < period then None else Some(RsiAt(values, period, n))]
  {
    hide RsiAt;
  }

  lemma RsiListBlank(values: seq<real>, period: nat, n: nat)
    requires 0 < period && n <= |values| && n <= period
    ensures RsiList(values, period, n) == seq(n, i => None)
  {
    hide RsiAt;
  }

  method Rsi(values: seq<real>, period: int) returns (r: Option<seq<Option<real>>>)
    ensures r == if period < 1 then None else Some(RsiList(values, period, |values|))
  {
    if period < 1 { return None; }
    hide *;
    if |values| <= period {
      RsiListBlank(values, period, |values|);
      return Some(seq(|values|, i => None));
    }
    var gains, losses := Gains(values), Losses(values);
    AveragesNext(values, period, period);
    var averageGain, averageLoss := Per(Sum(gains[..period]), period), Per(Sum(losses[..period]), period);
    RsiIs(values, period, period, averageGain, averageLoss);
    RsiListBlank(values, period, period);
    RsiListGrows(values, period, period);
    var result: seq<Option<real>> := seq(period, i => None) + [Some(Strength(averageGain, averageLoss))];
    for i := period to |gains|
      invariant averageGain == WilderAt(gains, period, i - 1) && averageLoss == WilderAt(losses, period, i - 1)
      invariant result == RsiList(values, period, i + 1)
    {
      AveragesNext(values, period, i + 1);
      averageGain := WilderStep(averageGain, gains[i], period);
      averageLoss := WilderStep(averageLoss, losses[i], period);
      RsiIs(values, period, i + 1, averageGain, averageLoss);
      RsiListGrows(values, period, i + 1);
      result := result + [Some(Strength(averageGain, averageLoss))];
    }
    r := Some(result);
  }

  lemma RsiIs(values: seq<real>, period: nat, n: nat, gain: real, loss: real)
    requires 0 < period <= n < |values|
    requires gain == WilderAt(Gains(values), period, n - 1) && loss == WilderAt(Losses(values), period, n - 1)
    ensures gain >= 0.0 && loss >= 0.0 && Strength(gain, loss) == RsiAt(values, period, n)
  {
    AveragesNext(values, period, n);
    hide WilderAt, Strength, Gains, Losses;
  }

  lemma AveragesNext(values: seq<real>, period: nat, n: nat)
    requires 0 < period <= n < |values|
    ensures |Gains(values)| == |Losses(values)| == |values| - 1
    ensures WilderAt(Gains(values), period, n - 1) >= 0.0 && WilderAt(Losses(values), period, n - 1) >= 0.0
    ensures n == period ==>
              WilderAt(Gains(values), period, n - 1) == Per(Sum(Gains(values)[..period]), period)
              && WilderAt(Losses(values), period, n - 1) == Per(Sum(Losses(values)[..period]), period)
    ensures n > period ==>
              WilderAt(Gains(values), period, n - 1)
              == WilderStep(WilderAt(Gains(values), period, n - 2), Gains(values)[n - 1], period)
              && WilderAt(Losses(values), period, n - 1)
                 == WilderStep(WilderAt(Losses(values), period, n - 2), Losses(values)[n - 1], period)
  {
    hide WilderStep, Per, Sum, Gains, Losses;
    WilderNonNegative(Gains(values), period, n - 1);
    WilderNonNegative(Losses(values), period, n - 1);
  }

  lemma RsiBetween(values: seq<real>, period: nat, n: nat)
    requires 0 < period <= n < |values|
    ensures 0.0 <= RsiAt(values, period, n) <= 100.0
  {
    AveragesNext(values, period, n);
    hide WilderAt, Strength, Gains, Losses;
    StrengthBetween(WilderAt(Gains(values), period, n - 1), WilderAt(Losses(values), period, n - 1));
  }

  lemma RsiCausal(values: seq<real>, longer: seq<real>, period: nat, n: nat)
    requires 0 < period <= n < |values| && values <= longer
    ensures RsiAt(values, period, n) == RsiAt(longer, period, n)
  {
    hide WilderAt, Strength;
    assert Gains(values) <= Gains(longer) && Losses(values) <= Losses(longer);
    WilderCausal(Gains(values), Gains(longer), period, n - 1);
    WilderCausal(Losses(values), Losses(longer), period, n - 1);
  }

  // --------------------------------------------------------- directional movement

  function TrueRange(bars: seq<Bar>, i: nat): real
    requires i < |bars|
  {
    var bar := bars[i];
    if i == 0 then bar.high - bar.low
    else Max(Max(bar.high - bar.low, Abs(bar.high - bars[i - 1].close)), Abs(bar.low - bars[i - 1].close))
  }

  function PlusMove(bars: seq<Bar>, i: nat): real
    requires i < |bars|
  {
    if i == 0 then 0.0
    else
      var up, down := bars[i].high - bars[i - 1].high, bars[i - 1].low - bars[i].low;
      if up > down && up > 0.0 then up else 0.0
  }

  function MinusMove(bars: seq<Bar>, i: nat): real
    requires i < |bars|
  {
    if i == 0 then 0.0
    else
      var up, down := bars[i].high - bars[i - 1].high, bars[i - 1].low - bars[i].low;
      if down > up && down > 0.0 then down else 0.0
  }

  function Ranges(bars: seq<Bar>): (r: seq<real>)
    ensures |r| == |bars|
  {
    seq(|bars|, i requires 0 <= i < |bars| => TrueRange(bars, i))
  }

  function Pluses(bars: seq<Bar>): (r: seq<real>)
    ensures |r| == |bars|
  {
    seq(|bars|, i requires 0 <= i < |bars| => PlusMove(bars, i))
  }

  function Minuses(bars: seq<Bar>): (r: seq<real>)
    ensures |r| == |bars|
  {
    seq(|bars|, i requires 0 <= i < |bars| => MinusMove(bars, i))
  }

  // Movement is at most the true range, bar by bar, and goes one way at a time.
  lemma MoveWithinRange(bars: seq<Bar>, i: nat)
    requires ValidBars(bars) && i < |bars|
    ensures 0.0 <= PlusMove(bars, i) && 0.0 <= MinusMove(bars, i)
            && PlusMove(bars, i) + MinusMove(bars, i) <= TrueRange(bars, i)
  {
    assert bars[i].Valid();
    if i > 0 { assert bars[i - 1].Valid(); }
  }

  method Moves(bars: seq<Bar>) returns (tr: seq<real>, plus: seq<real>, minus: seq<real>)
    requires bars != []
    ensures tr == Ranges(bars) && plus == Pluses(bars) && minus == Minuses(bars)
  {
    tr, plus, minus := [bars[0].high - bars[0].low], [0.0], [0.0];
    for i := 1 to |bars|
      invariant |tr| == |plus| == |minus| == i
      invariant forall k :: 0 <= k < i ==>
                  tr[k] == TrueRange(bars, k) && plus[k] == PlusMove(bars, k) && minus[k] == MinusMove(bars, k)
    {
      var previous, current := bars[i - 1], bars[i];
      var up, down := current.high - previous.high, previous.low - current.low;
      tr := tr + [Max(Max(current.high - current.low, Abs(current.high - previous.close)),
                      Abs(current.low - previous.close))];
      plus := plus + [if up > down && up > 0.0 then up else 0.0];
      minus := minus + [if down > up && down > 0.0 then down else 0.0];
    }
  }

  // ------------------------------------------------------------ directional index

  function Di(move: real, tr: real): real
    requires tr != 0.0
  {
    100.0 * move / tr
  }

  function DxOf(plus: real, minus: real, tr: real): Option<real> {
    if tr == 0.0 then None
    else
      var p, m := Di(plus, tr), Di(minus, tr);
      Some(if p + m == 0.0 then 0.0 else 100.0 * Abs(p - m) / (p + m))
  }

  function DxAt(bars: seq<Bar>, period: nat, i: nat): Option<real>
    requires 0 < period && period - 1 <= i < |bars|
  {
    DxOf(WilderAt(Pluses(bars), period, i), WilderAt(Minuses(bars), period, i), WilderAt(Ranges(bars), period, i))
  }

  lemma DiBetween(move: real, tr: real)
    requires 0.0 <= move <= tr && tr > 0.0
    ensures 0.0 <= Di(move, tr) <= 100.0
  {
    DivideBetween(100.0 * move, 0.0, 100.0, tr);
  }

  lemma DxBetween(plus: real, minus: real, tr: real)
    requires 0.0 <= plus <= tr && 0.0 <= minus <= tr
    ensures DxOf(plus, minus, tr).None? <==> tr == 0.0
    ensures DxOf(plus, minus, tr).Some? ==> 0.0 <= DxOf(plus, minus, tr).value <= 100.0
  {
    if tr > 0.0 {
      DiBetween(plus, tr);
      DiBetween(minus, tr);
      var p, m := Di(plus, tr), Di(minus, tr);
      hide Di;
      if p + m > 0.0 { DivideBetween(100.0 * Abs(p - m), 0.0, 100.0, p + m); }
    }
  }

  // After smoothing too, so the directional index is a percentage.
  lemma DxAtBetween(bars: seq<Bar>, period: nat, i: nat)
    requires 0 < period && period - 1 <= i < |bars| && ValidBars(bars)
    ensures 0.0 <= WilderAt(Pluses(bars), period, i) <= WilderAt(Ranges(bars), period, i)
    ensures 0.0 <= WilderAt(Minuses(bars), period, i) <= WilderAt(Ranges(bars), period, i)
    ensures DxAt(bars, period, i).None? <==> WilderAt(Ranges(bars), period, i) == 0.0
    ensures DxAt(bars, period, i).Some? ==> 0.0 <= DxAt(bars, period, i).value <= 100.0
  {
    forall k | 0 <= k < |bars|
      ensures 0.0 <= Pluses(bars)[k] <= Ranges(bars)[k] && 0.0 <= Minuses(bars)[k] <= Ranges(bars)[k]
    {
      MoveWithinRange(bars, k);
    }
    hide WilderAt, Pluses, Minuses, Ranges, DxOf;
    WilderNonNegative(Pluses(bars), period, i);
    WilderNonNegative(Minuses(bars), period, i);
    WilderMonotone(Pluses(bars), Ranges(bars), period, i);
    WilderMonotone(Minuses(bars), Ranges(bars), period, i);
    DxBetween(WilderAt(Pluses(bars), period, i), WilderAt(Minuses(bars), period, i), WilderAt(Ranges(bars), period, i));
  }

  // The index values there are, up to but not at n.
  function Available(bars: seq<Bar>, period: nat, n: nat): seq<real>
    requires 0 < period && n <= |bars|
  {
    if n < period then []
    else
      Available(bars, period, n - 1)
      + (if DxAt(bars, period, n - 1).Some? then [DxAt(bars, period, n - 1).value] else [])
  }

  predicate AdxReady(bars: seq<Bar>, period: nat)
    requires 0 < period
  {
    |bars| >= 2 * period && |Available(bars, period, |bars|)| >= period
  }

  function Seed(bars: seq<Bar>, period: nat): real
    requires 0 < period && AdxReady(bars, period)
  {
    Per(Sum(Available(bars, period, |bars|)[..period]), period)
  }

  // The running average; an index value that is missing is passed over.
  function CurrentAt(bars: seq<Bar>, period: nat, n: nat): real
    requires 0 < period && AdxReady(bars, period) && 2 * period - 2 <= n < |bars|
    decreases n
  {
    if n == 2 * period - 2 then Seed(bars, period)
    else
      var last := CurrentAt(bars, period, n - 1);
      if DxAt(bars, period, n).None? then last else WilderStep(last, DxAt(bars, period, n).value, period)
  }

  function AdxAt(bars: seq<Bar>, period: nat, n: nat): Option<real>
    requires 0 < period && n < |bars|
  {
    if !AdxReady(bars, period) || n < 2 * period - 2 then None
    else if n > 2 * period - 2 && DxAt(bars, period, n).None? then None
    else Some(CurrentAt(bars, period, n))
  }

  method Adx(bars: seq<Bar>, period: int) returns (r: Option<seq<Option<real>>>)
    ensures r.None? <==> period < 1
    ensures r.Some? ==> |r.value| == |bars| && forall n :: 0 <= n < |bars| ==> r.value[n] == AdxAt(bars, period, n)
  {
    if period < 1 { return None; }
    if |bars| < 2 * period { return Some(seq(|bars|, i => None)); }
    hide DxAt, Available;
    var dx := DxList(bars, period);
    var available := Compact(bars, period, dx);
    if |available| < period { return Some(seq(|bars|, i => None)); }
    var output := Smoothed(bars, period, dx, available);
    r := Some(output);
  }

  method Smoothed(
      bars: seq<Bar>, period: nat, dx: seq<Option<real>>, available: seq<real>) returns (output: seq<Option<real>>)
    requires 0 < period && AdxReady(bars, period) && available == Available(bars, period, |bars|)
    requires |dx| == |bars| && forall i :: period - 1 <= i < |bars| ==> dx[i] == DxAt(bars, period, i)
    ensures |output| == |bars| && forall n :: 0 <= n < |bars| ==> output[n] == AdxAt(bars, period, n)
  {
    hide WilderStep, Per, Sum, DxAt, Available;
    var first := 2 * period - 2;
    var current := Per(Sum(available[..period]), period);
    output := seq(first, i => None) + [Some(current)];
    for index := first + 1 to |bars|
      invariant |output| == index && current == CurrentAt(bars, period, index - 1)
      invariant forall n :: 0 <= n < index ==> output[n] == AdxAt(bars, period, n)
    {
      if dx[index].Some? {
        current := WilderStep(current, dx[index].value, period);
        output := output + [Some(current)];
      } else {
        output := output + [None];
      }
    }
  }

  method DxList(bars: seq<Bar>, period: nat) returns (dx: seq<Option<real>>)
    requires 0 < period && |bars| >= 2 * period
    ensures |dx| == |bars| && forall i :: period - 1 <= i < |bars| ==> dx[i] == DxAt(bars, period, i)
  {
    var tr, plus, minus := Moves(bars);
    var smoothTr := Wilder(tr, period);
    var smoothPlus := Wilder(plus, period);
    var smoothMinus := Wilder(minus, period);
    hide WilderAt, Ranges, Pluses, Minuses, DxOf;
    dx := seq(period - 1, i => None);
    for i := period - 1 to |bars|
      invariant |dx| == i && forall k :: period - 1 <= k < i ==> dx[k] == DxAt(bars, period, k)
    {
      dx := dx + [DxOf(smoothPlus.value[i].value, smoothMinus.value[i].value, smoothTr.value[i].value)];
    }
  }

  method Compact(bars: seq<Bar>, period: nat, dx: seq<Option<real>>) returns (available: seq<real>)
    requires 0 < period <= |bars| == |dx| && forall i :: period - 1 <= i < |bars| ==> dx[i] == DxAt(bars, period, i)
    ensures available == Available(bars, period, |bars|)
  {
    hide DxAt;
    available := [];
    for i := period - 1 to |bars|
      invariant available == Available(bars, period, i)
    {
      if dx[i].Some? { available := available + [dx[i].value]; }
    }
  }

  lemma {:induction false} AvailableBetween(bars: seq<Bar>, period: nat, n: nat)
    requires 0 < period && n <= |bars| && ValidBars(bars)
    ensures forall i :: 0 <= i < |Available(bars, period, n)| ==> 0.0 <= Available(bars, period, n)[i] <= 100.0
  {
    hide DxAt;
    if n >= period {
      AvailableBetween(bars, period, n - 1);
      DxAtBetween(bars, period, n - 1);
    }
  }

  lemma {:induction false} SumBetween(xs: seq<real>)
    requires forall i :: 0 <= i < |xs| ==> 0.0 <= xs[i] <= 100.0
    ensures 0.0 <= Sum(xs) <= 100.0 * (|xs| as real)
  {
    if xs != [] { SumBetween(xs[..|xs| - 1]); }
  }

  lemma StepBetween(current: real, value: real, period: nat)
    requires period > 0 && 0.0 <= current <= 100.0 && 0.0 <= value <= 100.0
    ensures 0.0 <= WilderStep(current, value, period) <= 100.0
  {
    ScaleMonotone(0.0, current, period);
    ScaleMonotone(current, 100.0, period);
    assert Scale(100.0, period) == 100.0 * ((period - 1) as real);
    DivideBetween(Scale(current, period) + value, 0.0, 100.0, period as real);
    hide Scale;
  }

  // Main result: for valid bars the average directional index is a percentage.
  lemma {:induction false} CurrentBetween(bars: seq<Bar>, period: nat, n: nat)
    requires 0 < period && AdxReady(bars, period) && 2 * period - 2 <= n < |bars| && ValidBars(bars)
    ensures 0.0 <= CurrentAt(bars, period, n) <= 100.0
    decreases n
  {
    hide DxAt, WilderStep;
    if n == 2 * period - 2 {
      AvailableBetween(bars, period, |bars|);
      SumBetween(Available(bars, period, |bars|)[..period]);
      DivideBetween(Sum(Available(bars, period, |bars|)[..period]), 0.0, 100.0, period as real);
    } else {
      CurrentBetween(bars, period, n - 1);
      DxAtBetween(bars, period, n);
      if DxAt(bars, period, n).Some? {
        StepBetween(CurrentAt(bars, period, n - 1), DxAt(bars, period, n).value, period);
      }
    }
  }

  lemma AdxBetween(bars: seq<Bar>, period: nat, n: nat)
    requires 0 < period && n < |bars| && ValidBars(bars)
    ensures AdxAt(bars, period, n).Some? ==> 0.0 <= AdxAt(bars, period, n).value <= 100.0
  {
    if AdxAt(bars, period, n).Some? { CurrentBetween(bars, period, n); }
  }

  // ---------------------------------------------------------------- causality

  // Once the smoothed range is positive it stays so, beyond a period of one.
  lemma {:induction false} StaysPositive(bars: seq<Bar>, period: nat, i: nat, j: nat)
    requires 0 < period && period - 1 <= i <= j < |bars| && ValidBars(bars) && WilderAt(Ranges(bars), period, i) > 0.0
    requires period > 1 || i == j
    ensures WilderAt(Ranges(bars), period, j) > 0.0
    decreases j
  {
    if i < j {
      StaysPositive(bars, period, i, j - 1);
      MoveWithinRange(bars, j);
      assert Ranges(bars)[j] >= 0.0;
      StepNonNegative(WilderAt(Ranges(bars), period, j - 1), Ranges(bars)[j], period);
    }
  }

  lemma FirstPeriodHasDx(bars: seq<Bar>, period: nat)
    requires 0 < period && |bars| >= 2 * period && ValidBars(bars)
    ensures (forall i :: period - 1 <= i <= 2 * period - 2 ==> DxAt(bars, period, i).Some?)
            <==> WilderAt(Ranges(bars), period, period - 1) > 0.0
  {
    hide DxAt, WilderAt, Ranges;
    DxAtBetween(bars, period, period - 1);
    if WilderAt(Ranges(bars), period, period - 1) > 0.0 {
      forall i | period - 1 <= i <= 2 * period - 2 ensures DxAt(bars, period, i).Some? {
        StaysPositive(bars, period, period - 1, i);
        DxAtBetween(bars, period, i);
      }
    }
  }

  function DxOrZero(bars: seq<Bar>, period: nat, i: nat): real
    requires 0 < period && period - 1 <= i < |bars|
  {
    if DxAt(bars, period, i).Some? then DxAt(bars, period, i).value else 0.0
  }

  // The index values of the seed's own bars.
  function Own(bars: seq<Bar>, period: nat, n: nat): seq<real>
    requires 0 < period && period - 1 + n <= |bars|
  {
    seq(n, k requires 0 <= k < n => DxOrZero(bars, period, period - 1 + k))
  }

  lemma {:induction false} AvailableIsOwn(bars: seq<Bar>, period: nat, n: nat)
    requires 0 < period && period - 1 + n <= |bars|
    requires forall i :: period - 1 <= i < period - 1 + n ==> DxAt(bars, period, i).Some?
    ensures Available(bars, period, period - 1 + n) == Own(bars, period, n)
  {
    hide DxAt;
    if n > 0 {
      AvailableIsOwn(bars, period, n - 1);
      assert Own(bars, period, n) == Own(bars, period, n - 1) + [DxOrZero(bars, period, period - 2 + n)];
    }
  }

  // The seed is the mean of the index values of its own bars, all of them there,
  // if and only if the first smoothed range is positive; otherwise it reaches
  // for later bars.
  lemma SeedWithinItsBarsExactly(bars: seq<Bar>, period: nat)
    requires 0 < period && ValidBars(bars) && AdxReady(bars, period)
    ensures (forall i :: period - 1 <= i <= 2 * period - 2 ==> DxAt(bars, period, i).Some?)
            && Seed(bars, period) == Per(Sum(Own(bars, period, period)), period)
            <==> WilderAt(Ranges(bars), period, period - 1) > 0.0
  {
    FirstPeriodHasDx(bars, period);
    hide DxAt, WilderAt, Ranges, Per, Sum, Own;
    if WilderAt(Ranges(bars), period, period - 1) > 0.0 {
      AvailableIsOwn(bars, period, period);
      AvailableGrows(bars, period, 2 * period - 1, |bars|);
      assert |Available(bars, period, 2 * period - 1)| == period by { OwnLength(bars, period); }
      assert Available(bars, period, |bars|)[..period] == Own(bars, period, period);
    }
  }

  lemma OwnLength(bars: seq<Bar>, period: nat)
    requires 0 < period && 2 * period - 1 <= |bars|
    ensures |Own(bars, period, period)| == period
  {
    hide DxOrZero;
  }

  lemma DxCausal(bars: seq<Bar>, longer: seq<Bar>, period: nat, i: nat)
    requires 0 < period && period - 1 <= i < |bars| && bars <= longer
    ensures DxAt(bars, period, i) == DxAt(longer, period, i)
  {
    hide WilderAt, DxOf;
    assert Ranges(bars) <= Ranges(longer);
    assert Pluses(bars) <= Pluses(longer);
    assert Minuses(bars) <= Minuses(longer);
    WilderCausal(Ranges(bars), Ranges(longer), period, i);
    WilderCausal(Pluses(bars), Pluses(longer), period, i);
    WilderCausal(Minuses(bars), Minuses(longer), period, i);
  }

  lemma {:induction false} AvailableCausal(bars: seq<Bar>, longer: seq<Bar>, period: nat, n: nat)
    requires 0 < period && n <= |bars| && bars <= longer
    ensures Available(bars, period, n) == Available(longer, period, n)
  {
    hide DxAt;
    if n >= period {
      AvailableCausal(bars, longer, period, n - 1);
      DxCausal(bars, longer, period, n - 1);
    }
  }

  lemma {:induction false} AvailableGrows(bars: seq<Bar>, period: nat, m: nat, n: nat)
    requires 0 < period && m <= n <= |bars|
    ensures Available(bars, period, m) <= Available(bars, period, n)
  {
    hide DxAt;
    if m < n { AvailableGrows(bars, period, m, n - 1); }
  }

  // A prefix that is ready is causal: its seed is already among its own values.
  lemma ReadyStays(bars: seq<Bar>, longer: seq<Bar>, period: nat)
    requires 0 < period && bars <= longer && AdxReady(bars, period)
    ensures AdxReady(longer, period) && Seed(bars, period) == Seed(longer, period)
  {
    hide DxAt, Per, Sum;
    AvailableCausal(bars, longer, period, |bars|);
    AvailableGrows(longer, period, |bars|, |longer|);
    var values := Available(bars, period, |bars|);
    assert Available(longer, period, |longer|)[..period] == values[..period];
  }

  lemma {:induction false} CurrentCausal(bars: seq<Bar>, longer: seq<Bar>, period: nat, n: nat)
    requires 0 < period && bars <= longer && AdxReady(bars, period) && AdxReady(longer, period)
    requires 2 * period - 2 <= n < |bars|
    ensures CurrentAt(bars, period, n) == CurrentAt(longer, period, n)
    decreases n
  {
    hide DxAt, WilderStep, Seed, AdxReady;
    if n == 2 * period - 2 {
      ReadyStays(bars, longer, period);
    } else {
      CurrentCausal(bars, longer, period, n - 1);
      DxCausal(bars, longer, period, n);
    }
  }

  // Later bars change no value of a prefix that is ready, or too short to have one.
  lemma AdxCausal(bars: seq<Bar>, longer: seq<Bar>, period: nat, n: nat)
    requires 0 < period && bars <= longer && n < |bars|
    requires AdxReady(bars, period) || |bars| <= 2 * period - 2
    ensures AdxAt(bars, period, n) == AdxAt(longer, period, n)
  {
    hide DxAt, CurrentAt, AdxReady;
    if n >= 2 * period - 2 {
      ReadyStays(bars, longer, period);
      CurrentCausal(bars, longer, period, n);
      DxCausal(bars, longer, period, n);
    }
  }

  ghost predicate Causal(bars: seq<Bar>, period: nat)
    requires 0 < period
  {
    forall longer, n | bars <= longer && ValidBars(longer) && 0 <= n < |bars| ::
      AdxAt(bars, period, n) == AdxAt(longer, period, n)
  }

  // Bars that move, to go on with.
  function Moving(n: nat): seq<Bar> { seq(n, i => Bar(2.0, 0.0, 1.0)) }

  // A bar that moves has an index value.
  lemma MovedHasDx(bars: seq<Bar>, period: nat, i: nat)
    requires 0 < period <= i < |bars| && ValidBars(bars) && TrueRange(bars, i) > 0.0
    ensures DxAt(bars, period, i).Some?
  {
    forall k | 0 <= k < |bars| ensures Ranges(bars)[k] >= 0.0 { MoveWithinRange(bars, k); }
    assert Ranges(bars)[i] > 0.0;
    hide DxAt, Ranges;
    WilderNonNegative(Ranges(bars), period, i - 1);
    StepNonNegative(WilderAt(Ranges(bars), period, i - 1), Ranges(bars)[i], period);
    DxAtBetween(bars, period, i);
  }

  lemma MovingMoves(bars: seq<Bar>, n: nat)
    requires ValidBars(bars) && bars != []
    ensures |bars + Moving(n)| == |bars| + n && ValidBars(bars + Moving(n))
    ensures forall i :: |bars| <= i < |bars| + n ==> TrueRange(bars + Moving(n), i) > 0.0
    ensures n > 0 ==> bars + Moving(n - 1) <= bars + Moving(n)
  {
    var longer := bars + Moving(n);
    forall i | 0 <= i < |longer| ensures longer[i].Valid() {
      if i < |bars| { assert longer[i] == bars[i]; }
    }
  }

  lemma {:induction false} MovingHasDx(bars: seq<Bar>, period: nat, n: nat)
    requires 0 < period <= |bars| && ValidBars(bars)
    ensures ValidBars(bars + Moving(n)) && |bars + Moving(n)| == |bars| + n
    ensures |Available(bars + Moving(n), period, |bars| + n)| >= n
  {
    MovingMoves(bars, n);
    if n > 0 {
      MovingHasDx(bars, period, n - 1);
      var longer, i := bars + Moving(n), |bars| + n - 1;
      MovedHasDx(longer, period, i);
      hide DxAt, TrueRange, Moving, ValidBars;
      AvailableCausal(bars + Moving(n - 1), longer, period, i);
    }
  }

  // Main result: no extension changes any value if and only if the prefix is
  // ready, or too short to have a value at all.
  lemma CausalExactly(bars: seq<Bar>, period: nat)
    requires 0 < period && ValidBars(bars)
    ensures Causal(bars, period) <==> AdxReady(bars, period) || |bars| <= 2 * period - 2
  {
    hide AdxAt, DxAt;
    if AdxReady(bars, period) || |bars| <= 2 * period - 2 {
      forall longer, n | bars <= longer && ValidBars(longer) && 0 <= n < |bars|
        ensures AdxAt(bars, period, n) == AdxAt(longer, period, n)
      {
        AdxCausal(bars, longer, period, n);
      }
    } else {
      var longer := bars + Moving(period);
      MovingHasDx(bars, period, period);
      SeedShows(bars, longer, period);
      assert AdxAt(bars, period, 2 * period - 2) != AdxAt(longer, period, 2 * period - 2);
    }
  }

  lemma SeedShows(bars: seq<Bar>, longer: seq<Bar>, period: nat)
    requires 0 < period && 2 * period - 2 < |bars| <= |longer| && !AdxReady(bars, period) && AdxReady(longer, period)
    ensures AdxAt(bars, period, 2 * period - 2) == None && AdxAt(longer, period, 2 * period - 2).Some?
  {
  }

  // Readiness, told from the ranges: with a period of one some bar has a range,
  // otherwise the smoothed range is positive a full period before the end.
  lemma ReadyOnRanges(bars: seq<Bar>, period: nat)
    requires 0 < period && |bars| >= 2 * period && ValidBars(bars)
    ensures AdxReady(bars, period) <==>
            if period == 1 then exists i :: 0 <= i < |bars| && TrueRange(bars, i) > 0.0
            else WilderAt(Ranges(bars), period, |bars| - period) > 0.0
  {
    if period == 1 {
      ReadyWithOne(bars, |bars|);
    } else {
      ReadyWithMore(bars, period);
    }
  }

  lemma {:induction false} ReadyWithOne(bars: seq<Bar>, n: nat)
    requires n <= |bars| && ValidBars(bars)
    ensures |Available(bars, 1, n)| >= 1 <==> exists i :: 0 <= i < n && TrueRange(bars, i) > 0.0
  {
    hide DxAt, TrueRange;
    if n > 0 {
      ReadyWithOne(bars, n - 1);
      DxWithOne(bars, n - 1);
    }
  }

  lemma DxWithOne(bars: seq<Bar>, i: nat)
    requires i < |bars| && ValidBars(bars)
    ensures DxAt(bars, 1, i).Some? <==> TrueRange(bars, i) > 0.0
  {
    DxAtBetween(bars, 1, i);
    WilderOne(Ranges(bars), i);
    MoveWithinRange(bars, i);
    assert Ranges(bars)[i] == TrueRange(bars, i);
    hide DxAt, WilderAt, TrueRange, Ranges;
  }

  lemma {:induction false} AvailableBounds(bars: seq<Bar>, period: nat, m: nat, n: nat)
    requires 0 < period && period - 1 <= m <= n <= |bars|
    ensures |Available(bars, period, n)| <= |Available(bars, period, m)| + (n - m)
    ensures (forall i :: m <= i < n ==> DxAt(bars, period, i).Some?) ==> |Available(bars, period, n)| >= n - m
    ensures (forall i :: period - 1 <= i < n ==> DxAt(bars, period, i).None?) ==> Available(bars, period, n) == []
    decreases n
  {
    hide DxAt;
    if m < n {
      AvailableBounds(bars, period, m, n - 1);
    } else if period - 1 < n {
      AvailableBounds(bars, period, n - 1, n - 1);
    }
  }

  lemma ReadyWithMore(bars: seq<Bar>, period: nat)
    requires 1 < period && |bars| >= 2 * period && ValidBars(bars)
    ensures AdxReady(bars, period) <==> WilderAt(Ranges(bars), period, |bars| - period) > 0.0
  {
    hide DxAt, WilderAt, Ranges;
    var at := |bars| - period;
    forall i | period - 1 <= i < |bars|
      ensures i >= at && WilderAt(Ranges(bars), period, at) > 0.0 ==> DxAt(bars, period, i).Some?
      ensures i <= at && WilderAt(Ranges(bars), period, at) <= 0.0 ==> DxAt(bars, period, i).None?
    {
      DxAtBetween(bars, period, i);
      if i >= at && WilderAt(Ranges(bars), period, at) > 0.0 { StaysPositive(bars, period, at, i); }
      if i <= at && WilderAt(Ranges(bars), period, i) > 0.0 { StaysPositive(bars, period, i, at); }
    }
    AvailableBounds(bars, period, at, |bars|);
    AvailableBounds(bars, period, at + 1, at + 1);
    AvailableBounds(bars, period, at + 1, |bars|);
  }

  // Without one, a value can appear at an index only because of a later bar.
  lemma FlatStartLooksAhead() returns (bars: seq<Bar>, longer: seq<Bar>)
    ensures ValidBars(longer) && bars <= longer && |bars| >= 2
    ensures AdxAt(bars, 1, 0) != AdxAt(longer, 1, 0)
  {
    var flat, up := Bar(1.0, 1.0, 1.0), Bar(2.0, 1.0, 2.0);
    bars, longer := [flat, flat], [flat, flat, up];
    assert ValidBars(longer);
    MissingWhenFlat(bars, 0);
    MissingWhenFlat(bars, 1);
    MissingWhenFlat(longer, 0);
    MissingWhenFlat(longer, 1);
    WilderOne(Ranges(longer), 2);
    assert DxAt(longer, 1, 2).Some?;
    hide DxAt;
    assert Available(bars, 1, 1) == [] && Available(bars, 1, 2) == [];
    assert Available(longer, 1, 1) == [] && Available(longer, 1, 2) == [] && |Available(longer, 1, 3)| == 1;
    assert !AdxReady(bars, 1) && AdxReady(longer, 1);
  }

  lemma MissingWhenFlat(bars: seq<Bar>, i: nat)
    requires i < |bars| && TrueRange(bars, i) == 0.0
    ensures DxAt(bars, 1, i) == None
  {
    WilderOne(Ranges(bars), i);
  }

  lemma {:induction false} WilderOne(values: seq<real>, n: nat)
    requires n < |values|
    ensures WilderAt(values, 1, n) == values[n]
  {
    if n == 0 {
      assert values[..1][..0] == [];
      assert Sum(values[..1]) == values[0];
    }
  }
}
