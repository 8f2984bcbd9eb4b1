/** Wilder's relative strength index, in its Python and its TypeScript form (rsi.py, chartStudies.ts). */
module Rsi {
  import opened Common

  ghost predicate NonNegative(x: seq<real>) {
    forall i :: 0 <= i < |x| ==> x[i] >= 0.0
  }

  /** Upward moves, 0 elsewhere (and at the first close, which has no move). */
  function Gains(closes: seq<real>): (g: seq<real>)
    ensures |g| == |closes| && NonNegative(g)
  {
    seq(|closes|, i requires 0 <= i < |closes| => if i == 0 then 0.0 else Max(closes[i] - closes[i - 1], 0.0))
  }

  /** Sizes of the downward moves. */
  function Losses(closes: seq<real>): (l: seq<real>)
    ensures |l| == |closes| && NonNegative(l)
  {
    seq(|closes|, i requires 0 <= i < |closes| => if i == 0 then 0.0 else Max(closes[i - 1] - closes[i], 0.0))
  }

  /** Sum of entries 1 to `n`. */
  function Sum(x: seq<real>, n: nat): (s: real)
    requires n < |x| && NonNegative(x)
    ensures s >= 0.0
  {
    if n == 0 then 0.0 else Sum(x, n - 1) + x[n]
  }

  /** One part new to `period - 1` parts old. */
  function Smooth(average: real, x: real, period: nat): (s: real)
    requires period > 0 && average >= 0.0 && x >= 0.0
    ensures s >= 0.0
  {
    (average * (period - 1) as real + x) / period as real
  }

  function Mean(sum: real, period: nat): (m: real)
    requires period > 0 && sum >= 0.0
    ensures m >= 0.0
  {
    sum / period as real
  }

  /** Wilder smoothing, seeded with the plain mean of the first `period` entries. */
  function Wilder(x: seq<real>, period: nat, i: nat): (a: real)
    requires 0 < period <= i < |x| && NonNegative(x)
    ensures a >= 0.0
  {
    if i == period then Mean(Sum(x, period), period) else Smooth(Wilder(x, period, i - 1), x[i], period)
  }

  function FromAverages(avgGain: real, avgLoss: real): real
    requires avgGain >= 0.0 && avgLoss >= 0.0
  {
    if avgLoss == 0.0 then 100.0
    else 100.0 - 100.0 / (1.0 + avgGain / avgLoss)
  }

  /** Undefined during the warm-up. */
  function RsiAt(closes: seq<real>, period: nat, i: nat): Option<real>
    requires period > 0 && i < |closes|
  {
    if i < period then None else Some(FromAverages(Wilder(Gains(closes), period, i), Wilder(Losses(closes), period, i)))
  }

  function RsiSeries(closes: seq<real>, period: nat): (r: seq<Option<real>>)
    requires period > 0
    ensures |r| == |closes| && forall i :: 0 <= i < |closes| ==> r[i] == RsiAt(closes, period, i)
  {
    seq(|closes|, i requires 0 <= i < |closes| => RsiAt(closes, period, i))
  }

  // ---- The two implementations -----------------------------------------------------------

  /** The two moves at a close; one of them is zero. */
  lemma MoveAt(closes: seq<real>, i: nat)
    requires 0 < i < |closes|
    ensures var change := closes[i] - closes[i - 1];
            && Gains(closes)[i] == (if change >= 0.0 then change else 0.0)
            && Losses(closes)[i] == (if change >= 0.0 then 0.0 else -change)
  {
  }

  lemma NoFirstMove(closes: seq<real>)
    ensures closes != [] ==> Gains(closes)[0] == 0.0 == Losses(closes)[0]
  {
  }

  lemma WilderSeed(x: seq<real>, period: nat)
    requires 0 < period < |x| && NonNegative(x)
    ensures Wilder(x, period, period) == Mean(Sum(x, period), period)
  {
  }

  lemma SumStep(x: seq<real>, n: nat)
    requires 0 < n < |x| && NonNegative(x)
    ensures Sum(x, n) == Sum(x, n - 1) + x[n] && Sum(x, 0) == 0.0
  {
  }

  /** rsi.py: arrays of gains and losses ... */
  method Deltas(closes: seq<real>) returns (gain: array<real>, loss: array<real>)
    ensures fresh(gain) && fresh(loss) && gain[..] == Gains(closes) && loss[..] == Losses(closes)
  {
    gain, loss := new real[|closes|](_ => 0.0), new real[|closes|](_ => 0.0);
    hide Gains, Losses;
    NoFirstMove(closes);
    var i := 1;
    while i < |closes|
      invariant 1 <= i
      invariant forall k :: 0 <= k < i && k < |closes| ==> gain[k] == Gains(closes)[k] && loss[k] == Losses(closes)[k]
    {
      MoveAt(closes, i);
      var delta := closes[i] - closes[i - 1];
      gain[i] := if delta < 0.0 then 0.0 else delta;
      loss[i] := -(if delta > 0.0 then 0.0 else delta);
      i := i + 1;
    }
  }

  /** One round of Wilder's recursion. */
  method NextAverage(x: seq<real>, period: nat, i: nat, previous: real) returns (next: real)
    requires 0 < period < i < |x| && NonNegative(x) && previous == Wilder(x, period, i - 1)
    ensures next == Wilder(x, period, i)
  {
    next := Smooth(previous, x[i], period);
  }

  method SeedAverage(x: seq<real>, period: nat) returns (average: real)
    requires 0 < period < |x| && NonNegative(x)
    ensures average == Wilder(x, period, period)
  {
    var sum := 0.0;
    for i := 1 to period + 1
      invariant sum == Sum(x, i - 1)
    {
      sum := sum + x[i];
    }
    average := Mean(sum, period);
  }

  /** ... then an array of averages, each entry from the one before. */
  method Averages(x: seq<real>, period: nat) returns (avg: array<real>)
    requires 0 < period < |x| && NonNegative(x)
    ensures fresh(avg) && avg.Length == |x|
    ensures forall k :: period <= k < |x| ==> avg[k] == Wilder(x, period, k)
  {
    hide Wilder, NonNegative;
    avg := new real[|x|](_ => 0.0);
    avg[period] := SeedAverage(x, period);
    for i := period + 1 to |x|
      invariant forall k :: period <= k < i ==> avg[k] == Wilder(x, period, k)
    {
      avg[i] := NextAverage(x, period, i, avg[i - 1]);
    }
  }

  method WilderArrays(closes: seq<real>, period: nat) returns (result: seq<Option<real>>)
    requires period > 0
    ensures result == RsiSeries(closes, period)
  {
    if |closes| <= period {
      return seq(|closes|, i => None);
    }
    var gain, loss := Deltas(closes);
    var ag := Averages(gain[..], period);
    var al := Averages(loss[..], period);
    result := [];
    for i := 0 to |closes|
      invariant |result| == i && forall k :: 0 <= k < i ==> result[k] == RsiAt(closes, period, k)
    {
      result := result + [if i < period then None else Some(FromAverages(ag[i], al[i]))];
    }
  }

  /** chartStudies.ts: the seeding loop ... */
  method SeedSums(closes: seq<real>, period: nat) returns (gain: real, loss: real)
    requires 0 < period < |closes|
    ensures gain == Sum(Gains(closes), period) && loss == Sum(Losses(closes), period)
  {
    gain, loss := 0.0, 0.0;
    ghost var gains, losses := Gains(closes), Losses(closes);
    SumStep(gains, 1);
    SumStep(losses, 1);
    hide Sum, Gains, Losses, NonNegative;
    for i := 1 to period + 1
      invariant gain == Sum(gains, i - 1) && loss == Sum(losses, i - 1)
    {
      MoveAt(closes, i);
      SumStep(gains, i);
      SumStep(losses, i);
      var change := closes[i] - closes[i - 1];
      if change >= 0.0 {
        gain := gain + change;
      } else {
        loss := loss - change;
      }
    }
  }

  method Seed(closes: seq<real>, period: nat) returns (avgGain: real, avgLoss: real)
    requires 0 < period < |closes|
    ensures avgGain == Wilder(Gains(closes), period, period) && avgLoss == Wilder(Losses(closes), period, period)
  {
    hide Wilder, Mean, Gains, Losses, NonNegative;
    var gain, loss := SeedSums(closes, period);
    WilderSeed(Gains(closes), period);
    WilderSeed(Losses(closes), period);
    avgGain, avgLoss := Mean(gain, period), Mean(loss, period);
  }

  /** ... then one round of the running averages ... */
  method NextAverages(closes: seq<real>, period: nat, i: nat, avgGain: real, avgLoss: real) returns (nextGain: real, nextLoss: real)
    requires 0 < period < i < |closes|
    requires avgGain == Wilder(Gains(closes), period, i - 1) && avgLoss == Wilder(Losses(closes), period, i - 1)
    ensures nextGain == Wilder(Gains(closes), period, i) && nextLoss == Wilder(Losses(closes), period, i)
  {
    var change := closes[i] - closes[i - 1];
    var gain, loss := if change > 0.0 then change else 0.0, if change < 0.0 then -change else 0.0;
    assert gain == Gains(closes)[i] && loss == Losses(closes)[i];
    nextGain, nextLoss := Smooth(avgGain, gain, period), Smooth(avgLoss, loss, period);
  }

  /** ... and one result slot ... */
  method Slot(result: seq<Option<real>>, closes: seq<real>, period: nat, i: nat, avgGain: real, avgLoss: real)
    returns (updated: seq<Option<real>>)
    requires 0 < period <= i < |closes| == |result|
    requires avgGain == Wilder(Gains(closes), period, i) && avgLoss == Wilder(Losses(closes), period, i)
    requires result[..i] == RsiSeries(closes, period)[..i]
    ensures |updated| == |result| && updated[..i + 1] == RsiSeries(closes, period)[..i + 1]
  {
    updated := result[i := Some(FromAverages(avgGain, avgLoss))];
    assert updated[i] == RsiAt(closes, period, i);
    assert updated[..i + 1] == result[..i] + [updated[i]];
    assert RsiSeries(closes, period)[..i + 1] == RsiSeries(closes, period)[..i] + [RsiAt(closes, period, i)];
  }

  lemma WarmUp(closes: seq<real>, period: nat, n: nat)
    requires period > 0 && n <= |closes| && n <= period
    ensures seq(|closes|, i => None)[..n] == RsiSeries(closes, period)[..n]
  {
  }

  /** ... for every close. */
  method RunningAverages(closes: seq<real>, period: nat) returns (result: seq<Option<real>>)
    requires period > 0
    ensures result == RsiSeries(closes, period)
  {
    result := seq(|closes|, i => None);
    if |closes| <= period {
      WarmUp(closes, period, |closes|);
      assert result[..|closes|] == result && RsiSeries(closes, period)[..|closes|] == RsiSeries(closes, period);
      return;
    }
    var avgGain, avgLoss := Seed(closes, period);
    WarmUp(closes, period, period);
    result := Slot(result, closes, period, period, avgGain, avgLoss);
    for i := period + 1 to |closes|
      invariant |result| == |closes| && result[..i] == RsiSeries(closes, period)[..i]
      invariant avgGain == Wilder(Gains(closes), period, i - 1) && avgLoss == Wilder(Losses(closes), period, i - 1)
    {
      avgGain, avgLoss := NextAverages(closes, period, i, avgGain, avgLoss);
      result := Slot(result, closes, period, i, avgGain, avgLoss);
    }
    assert result[..|closes|] == result && RsiSeries(closes, period)[..|closes|] == RsiSeries(closes, period);
  }

  // ---- Range and prefix stability --------------------------------------------------------

  lemma QuotientInRange(x: real)
    requires x >= 1.0
    ensures 0.0 < 100.0 / x <= 100.0
  {
  }

  lemma RatioNonNegative(a: real, b: real)
    requires a >= 0.0 && b > 0.0
    ensures a / b >= 0.0
  {
  }

  /** Every defined value lies in [0, 100]. */
  lemma RsiInRange(closes: seq<real>, period: nat, i: nat)
    requires period > 0 && i < |closes|
    ensures RsiAt(closes, period, i).Some? ==> 0.0 <= RsiAt(closes, period, i).value <= 100.0
  {
    if i >= period {
      var g, l := Wilder(Gains(closes), period, i), Wilder(Losses(closes), period, i);
      if l != 0.0 {
        RatioNonNegative(g, l);
        QuotientInRange(1.0 + g / l);
      }
    }
  }

  lemma {:induction false} SumOnPrefix(x: seq<real>, m: nat, n: nat)
    requires n < m <= |x| && NonNegative(x)
    ensures Sum(x[..m], n) == Sum(x, n)
  {
    if n > 0 {
      SumOnPrefix(x, m, n - 1);
    }
  }

  lemma {:induction false} WilderOnPrefix(x: seq<real>, period: nat, m: nat, i: nat)
    requires 0 < period <= i < m <= |x| && NonNegative(x)
    ensures Wilder(x[..m], period, i) == Wilder(x, period, i)
  {
    if i == period {
      SumOnPrefix(x, m, period);
    } else {
      WilderOnPrefix(x, period, m, i - 1);
    }
  }

  /** A value depends only on the closes up to its own. */
  lemma RsiAtPrefix(closes: seq<real>, period: nat, m: nat, i: nat)
    requires period > 0 && i < m <= |closes|
    ensures RsiAt(closes[..m], period, i) == RsiAt(closes, period, i)
  {
    if i >= period {
      assert Gains(closes[..m]) == Gains(closes)[..m];
      assert Losses(closes[..m]) == Losses(closes)[..m];
      WilderOnPrefix(Gains(closes), period, m, i);
      WilderOnPrefix(Losses(closes), period, m, i);
    }
  }

  /** The RSI of a prefix is the prefix of the RSI. */
  lemma RsiPrefix(closes: seq<real>, period: nat, m: nat)
    requires period > 0 && m <= |closes|
    ensures RsiSeries(closes[..m], period) == RsiSeries(closes, period)[..m]
  {
    forall i | 0 <= i < m
      ensures RsiAt(closes[..m], period, i) == RsiAt(closes, period, i)
    {
      RsiAtPrefix(closes, period, m, i);
    }
  }

  // ---- What the values mean --------------------------------------------------------------

  lemma Multiplied(a: real, b: real)
    requires b > 0.0
    ensures a / b * b == a
  {
  }

  /** Each average is the plain mean at first, and then one part of the new move to `period - 1` parts of the average
      before. */
  lemma AveragesMean(x: seq<real>, period: nat, i: nat)
    requires 0 < period <= i < |x| && NonNegative(x)
    ensures Wilder(x, period, i) * period as real ==
            if i == period then Sum(x, period) else Wilder(x, period, i - 1) * (period - 1) as real + x[i]
  {
    hide Wilder, Mean, Smooth, Sum;
    if i == period {
      WilderSeed(x, period);
      MeanBack(Sum(x, period), period);
    } else {
      WilderNext(x, period, i);
      SmoothBack(Wilder(x, period, i - 1), x[i], period);
    }
  }

  lemma WilderNext(x: seq<real>, period: nat, i: nat)
    requires 0 < period < i < |x| && NonNegative(x)
    ensures Wilder(x, period, i) == Smooth(Wilder(x, period, i - 1), x[i], period)
  {
  }

  lemma MeanBack(sum: real, period: nat)
    requires period > 0 && sum >= 0.0
    ensures Mean(sum, period) * period as real == sum
  {
    Multiplied(sum, period as real);
  }

  lemma SmoothBack(average: real, x: real, period: nat)
    requires period > 0 && average >= 0.0 && x >= 0.0
    ensures Smooth(average, x, period) * period as real == average * (period - 1) as real + x
  {
    Multiplied(average * (period - 1) as real + x, period as real);
  }

  lemma ShareOf(gain: real, loss: real, share: real)
    requires gain >= 0.0 && loss > 0.0 && share == gain / loss
    ensures 100.0 / (1.0 + share) * (gain + loss) == 100.0 * loss
  {
    assert share * loss == gain;
    var q := 100.0 / (1.0 + share);
    assert q * (1.0 + share) == 100.0;
    assert (1.0 + share) * loss == loss + gain;
    assert q * (gain + loss) == q * ((1.0 + share) * loss) == q * (1.0 + share) * loss;
  }

  /** The RSI is undefined for the first `period` closes; then it is the percentage that the average gain makes up of
      average gain and loss together, and 100 when there was no loss. */
  lemma RsiMeans(closes: seq<real>, period: nat, i: nat)
    requires period > 0 && i < |closes|
    ensures RsiAt(closes, period, i).Some? <==> i >= period
    ensures i >= period ==>
              var gain, loss := Wilder(Gains(closes), period, i), Wilder(Losses(closes), period, i);
              && RsiAt(closes, period, i).value * (gain + loss) == 100.0 * gain
              && (loss == 0.0 ==> RsiAt(closes, period, i).value == 100.0)
  {
    hide RsiAt, Wilder, Gains, Losses, FromAverages, NonNegative;
    RsiDefined(closes, period, i);
    if i >= period {
      var gain, loss := Wilder(Gains(closes), period, i), Wilder(Losses(closes), period, i);
      RsiAtIs(closes, period, i, gain, loss);
      FromAveragesMeans(gain, loss);
    }
  }

  lemma RsiDefined(closes: seq<real>, period: nat, i: nat)
    requires period > 0 && i < |closes|
    ensures RsiAt(closes, period, i).Some? <==> i >= period
  {
    hide Wilder, FromAverages;
  }

  lemma RsiAtIs(closes: seq<real>, period: nat, i: nat, gain: real, loss: real)
    requires 0 < period <= i < |closes|
    requires gain == Wilder(Gains(closes), period, i) && loss == Wilder(Losses(closes), period, i)
    ensures RsiAt(closes, period, i) == Some(FromAverages(gain, loss))
  {
  }

  lemma FromAveragesMeans(gain: real, loss: real)
    requires gain >= 0.0 && loss >= 0.0
    ensures FromAverages(gain, loss) * (gain + loss) == 100.0 * gain
    ensures loss == 0.0 ==> FromAverages(gain, loss) == 100.0
  {
    if loss > 0.0 {
      var q := 100.0 / (1.0 + gain / loss);
      ShareOf(gain, loss, gain / loss);
      assert (100.0 - q) * (gain + loss) == 100.0 * (gain + loss) - q * (gain + loss);
    }
  }
}
