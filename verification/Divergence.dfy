/** Regular and hidden RSI divergences between consecutive swing points (divergence/detector.py). */
module Divergence {
  import opened Common
  import opened Rsi
  import opened Swings

  datatype SignalKind = Bearish | HiddenBearish | Bullish | HiddenBullish

  datatype Signal = Signal(kind: SignalKind, first: Point, second: Point, firstRsi: real, secondRsi: real)

  datatype Config = Config(lookback: nat, confirmation: nat, minPriceDifference: real, minRsiDifference: real)

  function Abs(x: real): real {
    if x < 0.0 then -x else x
  }

  function PctChange(a: real, b: real): real {
    if a == 0.0 then 0.0 else (b - a) / Abs(a) * 100.0
  }

  /** Price and RSI must have moved in opposite directions. */
  function KindOf(kind: Kind, price: real, rsi: real): Option<SignalKind> {
    match kind
    case High => if price > 0.0 && rsi < 0.0 then Some(Bearish) else if price < 0.0 && rsi > 0.0 then Some(HiddenBearish) else None
    case Low => if price < 0.0 && rsi > 0.0 then Some(Bullish) else if price > 0.0 && rsi < 0.0 then Some(HiddenBullish) else None
  }

  /** Two neighbouring points of a kind with their RSI: large enough moves in opposite directions. */
  function Compare(kind: Kind, a: Point, b: Point, rsiA: Option<real>, rsiB: Option<real>, c: Config): Option<Signal> {
    if rsiA.None? || rsiB.None? then None
    else
      var price, rsi := PctChange(a.price, b.price), rsiB.value - rsiA.value;
      if Abs(price) < c.minPriceDifference || Abs(rsi) < c.minRsiDifference then None
      else
        match KindOf(kind, price, rsi)
        case None => None
        case Some(k) => Some(Signal(k, a, b, rsiA.value, rsiB.value))
  }

  /** All points lie inside the series. */
  ghost predicate Inside(points: seq<Point>, n: nat) {
    forall i :: 0 <= i < |points| ==> points[i].index < n
  }

  /** What the pair ending at point `k` gives, once `confirmation` bars have printed behind it. */
  function PairSignal(kind: Kind, points: seq<Point>, rsi: seq<Option<real>>, c: Config, k: nat): Option<Signal>
    requires 0 < k < |points| && Inside(points, |rsi|)
  {
    if |rsi| - 1 - points[k].index < c.confirmation then None
    else Compare(kind, points[k - 1], points[k], rsi[points[k - 1].index], rsi[points[k].index], c)
  }

  function ToSeq<T>(o: Option<T>): seq<T> {
    if o.Some? then [o.value] else []
  }

  /** The signals of the pairs ending at the first `n` points. */
  function SignalsUpTo(kind: Kind, points: seq<Point>, rsi: seq<Option<real>>, c: Config, n: nat): seq<Signal>
    requires n <= |points| && Inside(points, |rsi|)
  {
    if n <= 1 then [] else SignalsUpTo(kind, points, rsi, c, n - 1) + ToSeq(PairSignal(kind, points, rsi, c, n - 1))
  }

  function SignalsOf(kind: Kind, points: seq<Point>, rsi: seq<Option<real>>, c: Config): seq<Signal>
    requires Inside(points, |rsi|)
  {
    SignalsUpTo(kind, points, rsi, c, |points|)
  }

  /** The highs, or the lows, of a series. */
  function PointsOf(kind: Kind, high: seq<real>, low: seq<real>, lookback: nat): (points: seq<Point>)
    requires |high| == |low|
    ensures Rising(points, |high|) && Inside(points, |high|)
  {
    var b := Masked(high, low, lookback);
    KindsSeparate(b, |high|, kind);
    KindRises(b, |high|, kind);
    OfKind(SwingPoints(high, low, lookback), kind)
  }

  /** The signals between neighbouring highs, or lows. */
  function Signals(kind: Kind, high: seq<real>, low: seq<real>, rsi: seq<Option<real>>, c: Config): seq<Signal>
    requires |high| == |low| == |rsi|
  {
    SignalsOf(kind, PointsOf(kind, high, low, c.lookback), rsi, c)
  }

  // ---- The loop --------------------------------------------------------------------------

  /** Each pair of neighbouring points is passed over for the first reason that applies, or gives a signal. */
  method Scan(kind: Kind, points: seq<Point>, rsi: seq<Option<real>>, c: Config) returns (signals: seq<Signal>)
    requires Inside(points, |rsi|)
    ensures signals == SignalsOf(kind, points, rsi, c)
  {
    signals := [];
    if |points| == 0 {
      return;
    }
    for k := 1 to |points|
      invariant signals == SignalsUpTo(kind, points, rsi, c, k)
    {
      var a, b := points[k - 1], points[k];
      if |rsi| - 1 - b.index < c.confirmation {
        continue;
      }
      var rsiA, rsiB := rsi[a.index], rsi[b.index];
      if rsiA.None? || rsiB.None? {
        continue;
      }
      var price, change := PctChange(a.price, b.price), rsiB.value - rsiA.value;
      if Abs(price) < c.minPriceDifference {
        continue;
      }
      if Abs(change) < c.minRsiDifference {
        continue;
      }
      var signalKind;
      if kind.High? {
        if price > 0.0 && change < 0.0 {
          signalKind := Bearish;
        } else if price < 0.0 && change > 0.0 {
          signalKind := HiddenBearish;
        } else {
          continue;
        }
      } else {
        if price < 0.0 && change > 0.0 {
          signalKind := Bullish;
        } else if price > 0.0 && change < 0.0 {
          signalKind := HiddenBullish;
        } else {
          continue;
        }
      }
      signals := signals + [Signal(signalKind, a, b, rsiA.value, rsiB.value)];
    }
  }

  /** Highs first, then lows. */
  method DetectDivergences(high: seq<real>, low: seq<real>, rsi: seq<Option<real>>, c: Config) returns (signals: seq<Signal>)
    requires |high| == |low| == |rsi|
    ensures signals == Signals(High, high, low, rsi, c) + Signals(Low, high, low, rsi, c)
  {
    var highs := Scan(High, PointsOf(High, high, low, c.lookback), rsi, c);
    var lows := Scan(Low, PointsOf(Low, high, low, c.lookback), rsi, c);
    signals := highs + lows;
  }

  // ---- Confirmed signals stay ------------------------------------------------------------

  lemma PointsOfGrow(kind: Kind, high: seq<real>, low: seq<real>, lookback: nat, m: nat)
    requires |high| == |low| && m <= |high|
    ensures PointsOf(kind, high[..m], low[..m], lookback) <= PointsOf(kind, high, low, lookback)
  {
    SwingPointsAreStable(high, low, lookback, m);
    OfKindGrows(SwingPoints(high[..m], low[..m], lookback), SwingPoints(high, low, lookback), kind);
  }

  /** A pair the shorter series confirms gives the same signal in the longer one. */
  lemma PairStays(kind: Kind, points: seq<Point>, more: seq<Point>, rsi: seq<Option<real>>, c: Config, m: nat, k: nat)
    requires m <= |rsi| && points <= more && Inside(points, m) && Inside(more, |rsi|) && 0 < k < |points|
    ensures PairSignal(kind, points, rsi[..m], c, k).Some? ==>
              PairSignal(kind, more, rsi, c, k) == PairSignal(kind, points, rsi[..m], c, k)
    ensures m - 1 - points[k].index >= c.confirmation ==>
              PairSignal(kind, more, rsi, c, k) == PairSignal(kind, points, rsi[..m], c, k)
  {
  }

  /** The shorter list is a beginning of the longer one, and all of it while pairs are still confirmed. */
  lemma {:induction false} SignalsGrowUpTo(kind: Kind, points: seq<Point>, more: seq<Point>, rsi: seq<Option<real>>,
                                           c: Config, m: nat, n: nat)
    requires m <= |rsi| && points <= more && Inside(more, |rsi|) && Rising(points, m) && n <= |points|
    ensures SignalsUpTo(kind, points, rsi[..m], c, n) <= SignalsUpTo(kind, more, rsi, c, n)
    ensures n > 0 && m - 1 - points[n - 1].index >= c.confirmation ==>
              SignalsUpTo(kind, points, rsi[..m], c, n) == SignalsUpTo(kind, more, rsi, c, n)
  {
    if n > 1 {
      SignalsGrowUpTo(kind, points, more, rsi, c, m, n - 1);
      PairStays(kind, points, more, rsi, c, m, n - 1);
      assert points[n - 2].index < points[n - 1].index;
    }
  }

  lemma {:induction false} SignalsMonotone(kind: Kind, points: seq<Point>, rsi: seq<Option<real>>, c: Config, n: nat, m: nat)
    requires n <= m <= |points| && Inside(points, |rsi|)
    ensures SignalsUpTo(kind, points, rsi, c, n) <= SignalsUpTo(kind, points, rsi, c, m)
  {
    if n < m && m > 1 {
      SignalsMonotone(kind, points, rsi, c, n, m - 1);
    }
  }

  /** Appending bars only extends the list of signals of each kind of point: none is retracted or changed. */
  lemma SignalsAreNeverRetracted(kind: Kind, high: seq<real>, low: seq<real>, rsi: seq<Option<real>>, c: Config, m: nat)
    requires |high| == |low| == |rsi| && m <= |rsi|
    ensures Signals(kind, high[..m], low[..m], rsi[..m], c) <= Signals(kind, high, low, rsi, c)
  {
    var points, more := PointsOf(kind, high[..m], low[..m], c.lookback), PointsOf(kind, high, low, c.lookback);
    PointsOfGrow(kind, high, low, c.lookback, m);
    SignalsGrowUpTo(kind, points, more, rsi, c, m, |points|);
    SignalsMonotone(kind, more, rsi, c, |points|, |more|);
  }

  /** The same with the RSI computed from the closes of each series. */
  lemma DivergencesAreNeverRetracted(kind: Kind, high: seq<real>, low: seq<real>, closes: seq<real>, period: nat,
                                     c: Config, m: nat)
    requires |high| == |low| == |closes| && m <= |closes| && period > 0
    ensures Signals(kind, high[..m], low[..m], RsiSeries(closes[..m], period), c)
         <= Signals(kind, high, low, RsiSeries(closes, period), c)
  {
    RsiPrefix(closes, period, m);
    SignalsAreNeverRetracted(kind, high, low, RsiSeries(closes, period), c, m);
  }

  // ---- What a signal means ---------------------------------------------------------------

  /** A reported signal joins two neighbouring swing points, is confirmed, clears both thresholds, and price and RSI
      moved in opposite directions: up and down for bearish and hidden bullish, down and up for the other two. */
  ghost predicate Genuine(s: Signal, kind: Kind, points: seq<Point>, rsi: seq<Option<real>>, c: Config)
    requires Inside(points, |rsi|)
  {
    exists k: nat :: 0 < k < |points| && PairSignal(kind, points, rsi, c, k) == Some(s)
  }

  lemma {:induction false} SignalsAreGenuine(kind: Kind, points: seq<Point>, rsi: seq<Option<real>>, c: Config, n: nat, s: Signal)
    requires n <= |points| && Inside(points, |rsi|) && s in SignalsUpTo(kind, points, rsi, c, n)
    ensures Genuine(s, kind, points, rsi, c)
  {
    if s in SignalsUpTo(kind, points, rsi, c, n - 1) {
      SignalsAreGenuine(kind, points, rsi, c, n - 1, s);
    }
  }

  lemma GenuineMeans(s: Signal, kind: Kind, points: seq<Point>, rsi: seq<Option<real>>, c: Config)
    requires Inside(points, |rsi|) && Genuine(s, kind, points, rsi, c)
    ensures s.second.index + c.confirmation < |rsi|
    ensures Abs(PctChange(s.first.price, s.second.price)) >= c.minPriceDifference
    ensures Abs(s.secondRsi - s.firstRsi) >= c.minRsiDifference
    ensures s.kind in {Bearish, HiddenBullish} <==> s.secondRsi < s.firstRsi
    ensures s.kind in {Bearish, HiddenBearish} <==> kind == High
    ensures s.kind in {Bullish, HiddenBearish} <==> s.second.price < s.first.price
  {
    var k: nat :| 0 < k < |points| && PairSignal(kind, points, rsi, c, k) == Some(s);
    PctSign(s.first.price, s.second.price);
  }

  lemma PctSign(a: real, b: real)
    ensures PctChange(a, b) > 0.0 <==> a != 0.0 && b > a
    ensures PctChange(a, b) < 0.0 <==> a != 0.0 && b < a
  {
    if a != 0.0 {
      var d, f := b - a, Abs(a);
      assert d / f * f == d;
      assert d / f > 0.0 <==> d > 0.0;
    }
  }

  // ---- Exactly which pairs are reported --------------------------------------------------

  /** The change is at least this many percent of the first value; from zero no change counts as one. */
  predicate ChangedBy(a: real, b: real, percent: real) {
    if a == 0.0 then percent <= 0.0
    else Abs(b - a) * 100.0 >= percent * Abs(a)
  }

  /** Confirmed, large enough in price and RSI, moved in opposite directions, and named accordingly. */
  predicate Diverges(kind: Kind, a: Point, b: Point, rsi: seq<Option<real>>, c: Config, s: Signal)
    requires a.index < |rsi| && b.index < |rsi|
  {
    && b.index + c.confirmation < |rsi|
    && rsi[a.index] == Some(s.firstRsi) && rsi[b.index] == Some(s.secondRsi)
    && s.first == a && s.second == b
    && ChangedBy(a.price, b.price, c.minPriceDifference)
    && (if s.secondRsi >= s.firstRsi then s.secondRsi - s.firstRsi else s.firstRsi - s.secondRsi) >= c.minRsiDifference
    && a.price != 0.0
    && match s.kind
       case Bearish => kind == High && b.price > a.price && s.secondRsi < s.firstRsi
       case HiddenBearish => kind == High && b.price < a.price && s.secondRsi > s.firstRsi
       case Bullish => kind == Low && b.price < a.price && s.secondRsi > s.firstRsi
       case HiddenBullish => kind == Low && b.price > a.price && s.secondRsi < s.firstRsi
  }

  lemma PctIs(a: real, b: real, percent: real)
    ensures Abs(PctChange(a, b)) >= percent <==> ChangedBy(a, b, percent)
  {
    if a != 0.0 {
      PctTimes(b - a, Abs(a));
      assert PctChange(a, b) == (b - a) / Abs(a) * 100.0;
      AtLeastScaled(Abs(PctChange(a, b)), Abs(b - a) * 100.0, percent, Abs(a));
    }
  }

  lemma AtLeastScaled(x: real, scaled: real, y: real, f: real)
    requires f > 0.0 && x * f == scaled
    ensures x >= y <==> scaled >= y * f
  {
    SameScale(x, y, f);
  }

  lemma PctTimes(d: real, f: real)
    requires f > 0.0
    ensures Abs(d / f * 100.0) * f == Abs(d) * 100.0
  {
    var q := d / f;
    assert q * f == d;
    if q >= 0.0 {
      assert q * 100.0 * f == q * f * 100.0;
    } else {
      assert -(q * 100.0) * f == -(q * f) * 100.0;
    }
  }

  lemma SameScale(x: real, y: real, f: real)
    requires f > 0.0
    ensures x >= y <==> x * f >= y * f
  {
  }

  lemma PairIff(kind: Kind, points: seq<Point>, rsi: seq<Option<real>>, c: Config, k: nat, s: Signal)
    requires 0 < k < |points| && Inside(points, |rsi|)
    ensures PairSignal(kind, points, rsi, c, k) == Some(s) <==> Diverges(kind, points[k - 1], points[k], rsi, c, s)
  {
    hide PctChange, ChangedBy;
    var a, b := points[k - 1], points[k];
    PctIs(a.price, b.price, c.minPriceDifference);
    PctSign(a.price, b.price);
  }

  lemma {:induction false} PairsAreListed(kind: Kind, points: seq<Point>, rsi: seq<Option<real>>, c: Config, n: nat, k: nat, s: Signal)
    requires 0 < k < n <= |points| && Inside(points, |rsi|) && PairSignal(kind, points, rsi, c, k) == Some(s)
    ensures s in SignalsUpTo(kind, points, rsi, c, n)
  {
    if k < n - 1 {
      PairsAreListed(kind, points, rsi, c, n - 1, k, s);
    }
  }

  ghost predicate DivergesAt(kind: Kind, points: seq<Point>, rsi: seq<Option<real>>, c: Config, s: Signal, k: nat)
    requires Inside(points, |rsi|)
  {
    0 < k < |points| && Diverges(kind, points[k - 1], points[k], rsi, c, s)
  }

  /** A signal is reported if and only if some neighbouring pair diverges so. */
  lemma ReportedIff(kind: Kind, points: seq<Point>, rsi: seq<Option<real>>, c: Config, s: Signal)
    requires Inside(points, |rsi|)
    ensures s in SignalsOf(kind, points, rsi, c) <==> exists k: nat :: DivergesAt(kind, points, rsi, c, s, k)
  {
    hide PairSignal, Diverges;
    if s in SignalsOf(kind, points, rsi, c) {
      SignalsAreGenuine(kind, points, rsi, c, |points|, s);
      var k: nat :| 0 < k < |points| && PairSignal(kind, points, rsi, c, k) == Some(s);
      PairIff(kind, points, rsi, c, k, s);
      assert DivergesAt(kind, points, rsi, c, s, k);
    }
    if k: nat :| DivergesAt(kind, points, rsi, c, s, k) {
      PairIff(kind, points, rsi, c, k, s);
      PairsAreListed(kind, points, rsi, c, |points|, k, s);
    }
  }

  lemma PairSecond(kind: Kind, points: seq<Point>, rsi: seq<Option<real>>, c: Config, k: nat)
    requires 0 < k < |points| && Inside(points, |rsi|)
    ensures PairSignal(kind, points, rsi, c, k).Some? ==> PairSignal(kind, points, rsi, c, k).value.second == points[k]
  {
  }

  /** Each signal's second point lies behind the one before, and none behind `bound`. */
  ghost predicate InOrderUpTo(signals: seq<Signal>, bound: int) {
    && (forall i :: 0 <= i < |signals| ==> signals[i].second.index <= bound)
    && (forall i, j :: 0 <= i < j < |signals| ==> signals[i].second.index < signals[j].second.index)
  }

  lemma OrderAppends(signals: seq<Signal>, last: Option<Signal>, bound: int, next: int)
    requires InOrderUpTo(signals, bound) && bound < next && (last.Some? ==> last.value.second.index == next)
    ensures InOrderUpTo(signals + ToSeq(last), next)
  {
  }

  /** Signals come in the order of their second points, none twice. */
  lemma {:induction false} SignalsInOrder(kind: Kind, points: seq<Point>, rsi: seq<Option<real>>, c: Config, n: nat)
    requires n <= |points| && Inside(points, |rsi|) && Rising(points, |rsi|)
    ensures InOrderUpTo(SignalsUpTo(kind, points, rsi, c, n), if n == 0 then -1 else points[n - 1].index)
  {
    if n > 1 {
      SignalsInOrder(kind, points, rsi, c, n - 1);
      assert points[n - 2].index < points[n - 1].index;
      PairSecond(kind, points, rsi, c, n - 1);
      OrderAppends(SignalsUpTo(kind, points, rsi, c, n - 1), PairSignal(kind, points, rsi, c, n - 1), points[n - 2].index, points[n - 1].index);
    }
  }
}
