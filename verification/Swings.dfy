/** Fractal swing points: the extreme of a window that nothing else in it equals (divergence/swing.py). */
module Swings {
  import opened Common

  datatype Kind = High | Low

  datatype Point = Point(index: nat, price: real, kind: Kind)

  /** How often a value occurs. */
  function Occurrences(s: seq<real>, v: real): nat {
    if s == [] then 0
    else Occurrences(s[..|s| - 1], v) + if s[|s| - 1] == v then 1 else 0
  }

  /** The bars around `i`, `lookback` on either side. */
  function Window(s: seq<real>, i: nat, lookback: nat): (w: seq<real>)
    requires lookback <= i && i + lookback < |s|
    ensures |w| == 2 * lookback + 1 && w[lookback] == s[i]
  {
    s[i - lookback..i + lookback + 1]
  }

  predicate IsHigh(s: seq<real>, i: nat, lookback: nat)
    requires lookback <= i && i + lookback < |s|
  {
    s[i] == MaxOf(Window(s, i, lookback)) && Occurrences(Window(s, i, lookback), s[i]) == 1
  }

  predicate IsLow(s: seq<real>, i: nat, lookback: nat)
    requires lookback <= i && i + lookback < |s|
  {
    s[i] == MinOf(Window(s, i, lookback)) && Occurrences(Window(s, i, lookback), s[i]) == 1
  }

  // ---- The test is the strict extreme ----------------------------------------------------

  lemma {:induction false} NoOccurrence(s: seq<real>, v: real)
    ensures Occurrences(s, v) == 0 <==> v !in s
  {
    if s != [] {
      NoOccurrence(s[..|s| - 1], v);
      assert s == s[..|s| - 1] + [s[|s| - 1]];
    }
  }

  lemma {:induction false} OccursOnce(s: seq<real>, c: nat)
    requires c < |s|
    ensures Occurrences(s, s[c]) == 1 <==> forall k :: 0 <= k < |s| && k != c ==> s[k] != s[c]
  {
    var front := s[..|s| - 1];
    if c == |s| - 1 {
      NoOccurrence(front, s[c]);
      assert forall k :: 0 <= k < |front| ==> front[k] == s[k];
    } else {
      OccursOnce(front, c);
      assert forall k :: 0 <= k < |front| ==> front[k] == s[k];
      if s[|s| - 1] == s[c] {
        NoOccurrence(front, s[c]);
        assert front[c] in front;
      }
    }
  }

  /** A bar is a swing high exactly if every other bar within `lookback` is strictly lower. */
  lemma HighIsStrict(s: seq<real>, i: nat, lookback: nat)
    requires lookback <= i && i + lookback < |s|
    ensures IsHigh(s, i, lookback) <==> forall j :: i - lookback <= j <= i + lookback && j != i ==> s[j] < s[i]
  {
    var w := Window(s, i, lookback);
    OccursOnce(w, lookback);
    assert forall k :: 0 <= k < |w| ==> w[k] == s[i - lookback + k];
    if forall j :: i - lookback <= j <= i + lookback && j != i ==> s[j] < s[i] {
      assert forall k :: 0 <= k < |w| && k != lookback ==> w[k] < w[lookback];
    }
    if IsHigh(s, i, lookback) {
      forall j | i - lookback <= j <= i + lookback && j != i
        ensures s[j] < s[i]
      {
        assert w[j - (i - lookback)] == s[j];
      }
    }
  }

  lemma LowIsStrict(s: seq<real>, i: nat, lookback: nat)
    requires lookback <= i && i + lookback < |s|
    ensures IsLow(s, i, lookback) <==> forall j :: i - lookback <= j <= i + lookback && j != i ==> s[j] > s[i]
  {
    var w := Window(s, i, lookback);
    OccursOnce(w, lookback);
    assert forall k :: 0 <= k < |w| ==> w[k] == s[i - lookback + k];
    if forall j :: i - lookback <= j <= i + lookback && j != i ==> s[j] > s[i] {
      assert forall k :: 0 <= k < |w| && k != lookback ==> w[k] > w[lookback];
    }
    if IsLow(s, i, lookback) {
      forall j | i - lookback <= j <= i + lookback && j != i
        ensures s[j] > s[i]
      {
        assert w[j - (i - lookback)] == s[j];
      }
    }
  }

  // ---- All swing points ------------------------------------------------------------------

  /** Which bars are swing highs; a bar without a full window never is. */
  function HighMask(high: seq<real>, lookback: nat): (mask: seq<bool>)
    ensures |mask| == |high|
    ensures forall i :: 0 <= i < |high| ==> mask[i] == (lookback <= i && i + lookback < |high| && IsHigh(high, i, lookback))
  {
    seq(|high|, i requires 0 <= i < |high| => lookback <= i && i + lookback < |high| && IsHigh(high, i, lookback))
  }

  function LowMask(low: seq<real>, lookback: nat): (mask: seq<bool>)
    ensures |mask| == |low|
    ensures forall i :: 0 <= i < |low| ==> mask[i] == (lookback <= i && i + lookback < |low| && IsLow(low, i, lookback))
  {
    seq(|low|, i requires 0 <= i < |low| => lookback <= i && i + lookback < |low| && IsLow(low, i, lookback))
  }

  /** A price series with its masks. */
  datatype Bars = Bars(high: seq<real>, low: seq<real>, isHigh: seq<bool>, isLow: seq<bool>)
  {
    predicate Sized() {
      |high| == |low| == |isHigh| == |isLow|
    }
  }

  function Masked(high: seq<real>, low: seq<real>, lookback: nat): (b: Bars)
    requires |high| == |low|
    ensures b.Sized() && b.high == high && b.low == low
  {
    Bars(high, low, HighMask(high, lookback), LowMask(low, lookback))
  }

  /** The points at bar `i`: a high, a low, both or none. */
  function PointsAt(b: Bars, i: nat): (p: seq<Point>)
    requires b.Sized() && i < |b.high|
    ensures |p| <= 2
  {
    (if b.isHigh[i] then [Point(i, b.high[i], High)] else []) + (if b.isLow[i] then [Point(i, b.low[i], Low)] else [])
  }

  /** The points at the first `n` bars, in order. */
  function PointsUpTo(b: Bars, n: nat): seq<Point>
    requires b.Sized() && n <= |b.high|
  {
    if n == 0 then [] else PointsUpTo(b, n - 1) + PointsAt(b, n - 1)
  }

  function SwingPoints(high: seq<real>, low: seq<real>, lookback: nat): seq<Point>
    requires |high| == |low|
  {
    PointsUpTo(Masked(high, low, lookback), |high|)
  }

  /** The points of one kind. */
  function OfKind(points: seq<Point>, kind: Kind): seq<Point> {
    if points == [] then []
    else OfKind(points[..|points| - 1], kind) + if points[|points| - 1].kind == kind then [points[|points| - 1]] else []
  }

  /** The masks first, then the loop over the bars. */
  method FindSwingPoints(high: seq<real>, low: seq<real>, lookback: nat) returns (points: seq<Point>)
    requires |high| == |low|
    ensures points == SwingPoints(high, low, lookback)
  {
    points := Collect(Masked(high, low, lookback));
  }

  method Collect(b: Bars) returns (points: seq<Point>)
    requires b.Sized()
    ensures points == PointsUpTo(b, |b.high|)
  {
    points := [];
    var i := 0;
    while i < |b.high|
      invariant i <= |b.high| && points == PointsUpTo(b, i)
    {
      var here := [];
      if b.isHigh[i] {
        here := [Point(i, b.high[i], High)];
      }
      if b.isLow[i] {
        here := here + [Point(i, b.low[i], Low)];
      }
      assert here == PointsAt(b, i);
      points := points + here;
      i := i + 1;
    }
  }

  // ---- Later bars change nothing ---------------------------------------------------------

  lemma HighMaskPrefix(high: seq<real>, lookback: nat, m: nat, i: nat)
    requires i < m <= |high| && i + lookback < m
    ensures HighMask(high[..m], lookback)[i] == HighMask(high, lookback)[i]
  {
    if lookback <= i {
      assert Window(high[..m], i, lookback) == Window(high, i, lookback);
    }
  }

  lemma LowMaskPrefix(low: seq<real>, lookback: nat, m: nat, i: nat)
    requires i < m <= |low| && i + lookback < m
    ensures LowMask(low[..m], lookback)[i] == LowMask(low, lookback)[i]
  {
    if lookback <= i {
      assert Window(low[..m], i, lookback) == Window(low, i, lookback);
    }
  }

  lemma {:induction false} PointsAgree(short: Bars, long: Bars, n: nat)
    requires short.Sized() && long.Sized() && n <= |short.high| <= |long.high|
    requires forall i :: 0 <= i < n ==>
               short.high[i] == long.high[i] && short.low[i] == long.low[i] &&
               short.isHigh[i] == long.isHigh[i] && short.isLow[i] == long.isLow[i]
    ensures PointsUpTo(short, n) == PointsUpTo(long, n)
  {
    if n > 0 {
      PointsAgree(short, long, n - 1);
    }
  }

  lemma {:induction false} PointsGrow(b: Bars, n: nat, m: nat)
    requires b.Sized() && n <= m <= |b.high|
    ensures PointsUpTo(b, n) <= PointsUpTo(b, m)
  {
    if n < m {
      PointsGrow(b, n, m - 1);
    }
  }

  lemma {:induction false} NoneMarked(b: Bars, n: nat, m: nat)
    requires b.Sized() && n <= m <= |b.high| && forall i :: n <= i < m ==> !b.isHigh[i] && !b.isLow[i]
    ensures PointsUpTo(b, m) == PointsUpTo(b, n)
  {
    if n < m {
      NoneMarked(b, n, m - 1);
    }
  }

  /** Appending bars only appends swing points: none is lost or changed. */
  lemma SwingPointsAreStable(high: seq<real>, low: seq<real>, lookback: nat, m: nat)
    requires |high| == |low| && m <= |high|
    ensures SwingPoints(high[..m], low[..m], lookback) <= SwingPoints(high, low, lookback)
  {
    var short, long := Masked(high[..m], low[..m], lookback), Masked(high, low, lookback);
    var n := if m < lookback then 0 else m - lookback;
    forall i | 0 <= i < n
      ensures short.isHigh[i] == long.isHigh[i] && short.isLow[i] == long.isLow[i]
    {
      HighMaskPrefix(high, lookback, m, i);
      LowMaskPrefix(low, lookback, m, i);
    }
    NoneMarked(short, n, m);
    PointsAgree(short, long, n);
    PointsGrow(long, n, |high|);
  }

  // ---- Points of one kind ----------------------------------------------------------------

  lemma {:induction false} OfKindGrows(points: seq<Point>, more: seq<Point>, kind: Kind)
    requires points <= more
    ensures OfKind(points, kind) <= OfKind(more, kind)
  {
    if |points| < |more| {
      OfKindGrows(points, more[..|more| - 1], kind);
    } else {
      assert points == more;
    }
  }

  /** Points stand at strictly later and later bars, before bar `n`. */
  ghost predicate Rising(points: seq<Point>, n: nat) {
    && (forall i, j :: 0 <= i < j < |points| ==> points[i].index < points[j].index)
    && (forall i :: 0 <= i < |points| ==> points[i].index < n)
  }

  lemma OfKindAppend(points: seq<Point>, p: Point, kind: Kind)
    ensures OfKind(points + [p], kind) == OfKind(points, kind) + if p.kind == kind then [p] else []
  {
    assert (points + [p])[..|points|] == points;
  }

  /** The point of one kind at bar `i`, if it is marked. */
  function KindAt(b: Bars, i: nat, kind: Kind): (p: seq<Point>)
    requires b.Sized() && i < |b.high|
    ensures |p| <= 1 && (p != [] ==> Marks(b, p[0], kind) && p[0].index == i)
  {
    match kind
    case High => if b.isHigh[i] then [Point(i, b.high[i], High)] else []
    case Low => if b.isLow[i] then [Point(i, b.low[i], Low)] else []
  }

  /** The point sits on a bar of the series that its mask marks. */
  predicate Marks(b: Bars, p: Point, kind: Kind)
    requires b.Sized()
  {
    && p.kind == kind && p.index < |b.high|
    && (if kind == High then b.isHigh[p.index] && p.price == b.high[p.index]
        else b.isLow[p.index] && p.price == b.low[p.index])
  }

  lemma OfKindAt(points: seq<Point>, b: Bars, i: nat, kind: Kind)
    requires b.Sized() && i < |b.high|
    ensures OfKind(points + PointsAt(b, i), kind) == OfKind(points, kind) + KindAt(b, i, kind)
  {
    var high, low := Point(i, b.high[i], High), Point(i, b.low[i], Low);
    OfKindAppend(points, high, kind);
    OfKindAppend(points, low, kind);
    OfKindAppend(points + [high], low, kind);
    var at := PointsAt(b, i);
    if b.isHigh[i] && b.isLow[i] {
      assert points + at == points + [high] + [low];
    } else if b.isHigh[i] {
      assert at == [high];
    } else if b.isLow[i] {
      assert at == [low];
    } else {
      assert points + at == points;
    }
  }

  lemma RisingAppend(b: Bars, points: seq<Point>, more: seq<Point>, n: nat, kind: Kind)
    requires b.Sized() && Rising(points, n) && |more| <= 1 && (more != [] ==> more[0].index == n && Marks(b, more[0], kind))
    requires forall p :: p in points ==> Marks(b, p, kind)
    ensures Rising(points + more, n + 1) && forall p :: p in points + more ==> Marks(b, p, kind)
  {
  }

  /** The marked bars of one kind among the first `n`, in order. */
  function KindUpTo(b: Bars, n: nat, kind: Kind): seq<Point>
    requires b.Sized() && n <= |b.high|
  {
    if n == 0 then [] else KindUpTo(b, n - 1, kind) + KindAt(b, n - 1, kind)
  }

  lemma KindStep(b: Bars, n: nat, kind: Kind, before: seq<Point>, after: seq<Point>)
    requires b.Sized() && n < |b.high| && after == before + PointsAt(b, n)
    requires OfKind(before, kind) == KindUpTo(b, n, kind)
    ensures OfKind(after, kind) == KindUpTo(b, n + 1, kind)
  {
    OfKindAt(before, b, n, kind);
  }

  lemma {:induction false} KindsSeparateIn(b: Bars, n: nat, kind: Kind, points: seq<Point>)
    requires b.Sized() && n <= |b.high| && points == PointsUpTo(b, n)
    ensures OfKind(points, kind) == KindUpTo(b, n, kind)
  {
    if n > 0 {
      var before := PointsUpTo(b, n - 1);
      KindsSeparateIn(b, n - 1, kind, before);
      KindStep(b, n - 1, kind, before, points);
    }
  }

  /** Picking one kind out of the merged list gives exactly the bars its mask marks. */
  lemma KindsSeparate(b: Bars, n: nat, kind: Kind)
    requires b.Sized() && n <= |b.high|
    ensures OfKind(PointsUpTo(b, n), kind) == KindUpTo(b, n, kind)
  {
    KindsSeparateIn(b, n, kind, PointsUpTo(b, n));
  }

  /** They come in order. */
  lemma {:induction false} KindRises(b: Bars, n: nat, kind: Kind)
    requires b.Sized() && n <= |b.high|
    ensures Rising(KindUpTo(b, n, kind), n) && forall p :: p in KindUpTo(b, n, kind) ==> Marks(b, p, kind)
  {
    if n > 0 {
      KindRises(b, n - 1, kind);
      RisingAppend(b, KindUpTo(b, n - 1, kind), KindAt(b, n - 1, kind), n - 1, kind);
    }
  }

  /** And every marked bar is among them. */
  lemma {:induction false} MarkedIsFound(b: Bars, n: nat, i: nat, kind: Kind)
    requires b.Sized() && i < n <= |b.high| && KindAt(b, i, kind) != []
    ensures KindAt(b, i, kind)[0] in KindUpTo(b, n, kind)
  {
    if i < n - 1 {
      MarkedIsFound(b, n - 1, i, kind);
    }
  }
}
