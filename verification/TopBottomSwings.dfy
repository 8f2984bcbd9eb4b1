/** Confirmed swing detection on the close series (swing_detection.py). */
module TopBottomSwings {
  import opened Common

  datatype Kind = Top | Bottom

  datatype SwingPoint = SwingPoint(
    kind: Kind,
    pivotIndex: nat,
    pivotDate: int,
    price: real,
    confirmedIndex: nat,
    confirmedDate: int)

  /** Strictly above every close within `left` bars before and `right` bars after. */
  ghost predicate IsTop(closes: seq<real>, i: int, left: nat, right: nat) {
    && left <= i < |closes| - right
    && forall k :: i - left <= k <= i + right && k != i ==> closes[k] < closes[i]
  }

  ghost predicate IsBottom(closes: seq<real>, i: int, left: nat, right: nat) {
    && left <= i < |closes| - right
    && forall k :: i - left <= k <= i + right && k != i ==> closes[k] > closes[i]
  }

  /** The swing of pivot `i`, as a list of at most one point. */
  ghost function SwingAt(dates: seq<int>, closes: seq<real>, left: nat, right: nat, i: nat): seq<SwingPoint>
    requires |dates| == |closes|
  {
    if IsTop(closes, i, left, right) then
      [SwingPoint(Top, i, dates[i], closes[i], i + right, dates[i + right])]
    else if IsBottom(closes, i, left, right) then
      [SwingPoint(Bottom, i, dates[i], closes[i], i + right, dates[i + right])]
    else
      []
  }

  /** Every swing confirmed before bar `m`, in order of confirmation. */
  ghost function Confirmed(dates: seq<int>, closes: seq<real>, left: nat, right: nat, m: nat): seq<SwingPoint>
    requires |dates| == |closes|
    requires left >= 1 && right >= 1
    requires m <= |closes|
  {
    if m <= left + right then []
    else Confirmed(dates, closes, left, right, m - 1) + SwingAt(dates, closes, left, right, m - 1 - right)
  }

  /** Sort key order: confirmed index first, pivot index second. */
  predicate KeyBefore(a: SwingPoint, b: SwingPoint) {
    a.confirmedIndex < b.confirmedIndex || (a.confirmedIndex == b.confirmedIndex && a.pivotIndex < b.pivotIndex)
  }

  /** `s` is the point of a strict extreme of the series, confirmed before bar `m`. */
  ghost predicate IsSwingBefore(dates: seq<int>, closes: seq<real>, left: nat, right: nat, m: nat, s: SwingPoint)
    requires |dates| == |closes|
  {
    && s.confirmedIndex < m
    && s.pivotIndex + right == s.confirmedIndex
    && SwingAt(dates, closes, left, right, s.pivotIndex) == [s]
  }

  /** The list is exactly the set of strict extremes, each once, already in the order
      the final sort asks for (so that sort moves nothing). */
  lemma {:induction false} ConfirmedExact(dates: seq<int>, closes: seq<real>, left: nat, right: nat, m: nat)
    requires |dates| == |closes| && left >= 1 && right >= 1 && m <= |closes|
    ensures forall s :: s in Confirmed(dates, closes, left, right, m) <==> IsSwingBefore(dates, closes, left, right, m, s)
    ensures forall j, k :: 0 <= j < k < |Confirmed(dates, closes, left, right, m)| ==>
              KeyBefore(Confirmed(dates, closes, left, right, m)[j], Confirmed(dates, closes, left, right, m)[k])
  {
    if m <= left + right {
    } else {
      ConfirmedExact(dates, closes, left, right, m - 1);
      var before := Confirmed(dates, closes, left, right, m - 1);
      var last := SwingAt(dates, closes, left, right, m - 1 - right);
      forall s: SwingPoint
        ensures s in before + last <==> IsSwingBefore(dates, closes, left, right, m, s)
      {
        assert s in before + last <==> s in before || s in last;
        assert s in before <==> IsSwingBefore(dates, closes, left, right, m - 1, s);
      }
      forall k | 0 <= k < |before|
        ensures before[k].confirmedIndex < m - 1
      {
        assert before[k] in before;
      }
    }
  }

  /** What a pivot is depends only on the closes up to its confirmation. */
  lemma SwingAtPrefix(dates: seq<int>, closes: seq<real>, left: nat, right: nat, i: nat, n: nat)
    requires |dates| == |closes| && right >= 1 && i + right < n <= |closes|
    ensures SwingAt(dates[..n], closes[..n], left, right, i) == SwingAt(dates, closes, left, right, i)
  {
    var cut := closes[..n];
    if left <= i {
      assert forall k :: i - left <= k <= i + right ==> cut[k] == closes[k];
      assert IsTop(cut, i, left, right) <==> IsTop(closes, i, left, right);
      assert IsBottom(cut, i, left, right) <==> IsBottom(closes, i, left, right);
    }
  }

  lemma ConfirmedIs(dates: seq<int>, closes: seq<real>, left: nat, right: nat, m: nat, before: seq<SwingPoint>, last: seq<SwingPoint>)
    requires |dates| == |closes| && left >= 1 && right >= 1 && left + right < m <= |closes|
    requires before == Confirmed(dates, closes, left, right, m - 1) && last == SwingAt(dates, closes, left, right, m - 1 - right)
    ensures Confirmed(dates, closes, left, right, m) == before + last
  {
  }

  /** Appending closes never changes what was already confirmed. */
  lemma {:induction false} ConfirmedPrefix(dates: seq<int>, closes: seq<real>, left: nat, right: nat, m: nat, n: nat)
    requires |dates| == |closes| && left >= 1 && right >= 1 && m <= n <= |closes|
    ensures Confirmed(dates[..n], closes[..n], left, right, m) == Confirmed(dates, closes, left, right, m)
  {
    hide SwingAt;
    if m > left + right {
      var before, last := Confirmed(dates, closes, left, right, m - 1), SwingAt(dates, closes, left, right, m - 1 - right);
      SwingAtPrefix(dates, closes, left, right, m - 1 - right, n);
      ConfirmedPrefix(dates, closes, left, right, m - 1, n);
      ConfirmedIs(dates, closes, left, right, m, before, last);
      ConfirmedIs(dates[..n], closes[..n], left, right, m, before, last);
    }
  }

  /** A pivot beats its windows exactly when it beats their extremes. */
  lemma WindowTest(closes: seq<real>, i: nat, left: nat, right: nat)
    requires left >= 1 && right >= 1 && left <= i < |closes| - right
    ensures (closes[i] > MaxOf(closes[i - left..i]) && closes[i] > MaxOf(closes[i + 1..i + 1 + right]))
            <==> IsTop(closes, i, left, right)
    ensures (closes[i] < MinOf(closes[i - left..i]) && closes[i] < MinOf(closes[i + 1..i + 1 + right]))
            <==> IsBottom(closes, i, left, right)
  {
    var before, after := closes[i - left..i], closes[i + 1..i + 1 + right];
    forall k | i - left <= k <= i + right && k != i
      ensures closes[k] <= (if k < i then MaxOf(before) else MaxOf(after))
      ensures closes[k] >= (if k < i then MinOf(before) else MinOf(after))
    {
      if k < i {
        assert closes[k] == before[k - (i - left)];
      } else {
        assert closes[k] == after[k - (i + 1)];
      }
    }
  }

  /** Hence the two tests of the loop decide what, if anything, is confirmed at bar `i + right`. */
  lemma ConfirmedStep(dates: seq<int>, closes: seq<real>, left: nat, right: nat, i: nat)
    requires |dates| == |closes| && left >= 1 && right >= 1 && left <= i < |closes| - right
    ensures Confirmed(dates, closes, left, right, i + right + 1) == Confirmed(dates, closes, left, right, i + right) +
              if closes[i] > MaxOf(closes[i - left..i]) && closes[i] > MaxOf(closes[i + 1..i + 1 + right]) then
                [SwingPoint(Top, i, dates[i], closes[i], i + right, dates[i + right])]
              else if closes[i] < MinOf(closes[i - left..i]) && closes[i] < MinOf(closes[i + 1..i + 1 + right]) then
                [SwingPoint(Bottom, i, dates[i], closes[i], i + right, dates[i + right])]
              else []
  {
    WindowTest(closes, i, left, right);
  }

  /** The detector, in the source's form: one pass over the pivots, windows compared by max and min. */
  method DetectConfirmedSwings(dates: seq<int>, closes: seq<real>, left: int, right: int)
    returns (r: Result<seq<SwingPoint>>)
    requires |dates| == |closes|
    ensures r.Ok? <==> left >= 1 && right >= 1
    ensures r.Ok? ==> r.value == Confirmed(dates, closes, left, right, |closes|)
  {
    if left < 1 || right < 1 {
      return Err("left_bars and right_bars must each be >= 1");
    }
    var swings: seq<SwingPoint> := [];
    var i := left;
    while i < |closes| - right
      invariant left <= i
      invariant i + right > |closes| ==> i == left && swings == []
      invariant i + right <= |closes| ==> swings == Confirmed(dates, closes, left, right, i + right)
    {
      var pivot := closes[i];
      ConfirmedStep(dates, closes, left, right, i);
      if pivot > MaxOf(closes[i - left..i]) && pivot > MaxOf(closes[i + 1..i + 1 + right]) {
        swings := swings + [SwingPoint(Top, i, dates[i], pivot, i + right, dates[i + right])];
      } else if pivot < MinOf(closes[i - left..i]) && pivot < MinOf(closes[i + 1..i + 1 + right]) {
        swings := swings + [SwingPoint(Bottom, i, dates[i], pivot, i + right, dates[i + right])];
      }
      i := i + 1;
    }
    r := Ok(swings);
  }

  /** The only view of swing history the event loop may use at bar `asOf`. */
  function SwingsConfirmedBy(swings: seq<SwingPoint>, asOf: int): seq<SwingPoint> {
    if swings == [] then []
    else SwingsConfirmedBy(swings[..|swings| - 1], asOf)
         + (if swings[|swings| - 1].confirmedIndex <= asOf then [swings[|swings| - 1]] else [])
  }

  function OfKind(swings: seq<SwingPoint>, kind: Kind): seq<SwingPoint> {
    if swings == [] then []
    else OfKind(swings[..|swings| - 1], kind)
         + (if swings[|swings| - 1].kind == kind then [swings[|swings| - 1]] else [])
  }

  /** Price of the last swing of a kind, if there is one. */
  function LastPrice(swings: seq<SwingPoint>): Option<real> {
    if swings == [] then None else Some(swings[|swings| - 1].price)
  }

  /** Whatever is confirmed after bar `asOf` comes after everything confirmed by then. */
  lemma {:induction false} ConfirmedSplit(dates: seq<int>, closes: seq<real>, left: nat, right: nat, m: nat, asOf: nat)
    returns (later: seq<SwingPoint>)
    requires |dates| == |closes| && left >= 1 && right >= 1 && asOf < m <= |closes|
    ensures Confirmed(dates, closes, left, right, m) == Confirmed(dates, closes, left, right, asOf + 1) + later
    ensures forall s :: s in later ==> s.confirmedIndex > asOf
  {
    if m == asOf + 1 || m <= left + right {
      later := [];
    } else {
      var earlier := ConfirmedSplit(dates, closes, left, right, m - 1, asOf);
      var last := SwingAt(dates, closes, left, right, m - 1 - right);
      later := earlier + last;
      SplitStep(Confirmed(dates, closes, left, right, asOf + 1), earlier, last, asOf);
    }
  }

  lemma SplitStep(past: seq<SwingPoint>, earlier: seq<SwingPoint>, last: seq<SwingPoint>, asOf: nat)
    requires forall s :: s in earlier ==> s.confirmedIndex > asOf
    requires forall s :: s in last ==> s.confirmedIndex > asOf
    ensures (past + earlier) + last == past + (earlier + last)
    ensures forall s :: s in earlier + last ==> s.confirmedIndex > asOf
  {
  }

  lemma FilterAppend(swings: seq<SwingPoint>, s: SwingPoint, asOf: int)
    ensures SwingsConfirmedBy(swings + [s], asOf) ==
            if s.confirmedIndex <= asOf then SwingsConfirmedBy(swings, asOf) + [s] else SwingsConfirmedBy(swings, asOf)
  {
    assert (swings + [s])[..|swings|] == swings;
  }

  lemma {:induction false} KeepsThePast(past: seq<SwingPoint>, asOf: int)
    requires forall s :: s in past ==> s.confirmedIndex <= asOf
    ensures SwingsConfirmedBy(past, asOf) == past
  {
    if past != [] {
      KeepsThePast(past[..|past| - 1], asOf);
    }
  }

  lemma {:induction false} KeepsExactlyThePast(past: seq<SwingPoint>, later: seq<SwingPoint>, asOf: int)
    requires forall s :: s in past ==> s.confirmedIndex <= asOf
    requires forall s :: s in later ==> s.confirmedIndex > asOf
    ensures SwingsConfirmedBy(past + later, asOf) == past
  {
    if later == [] {
      KeepsThePast(past, asOf);
      assert past + later == past;
    } else {
      var front, last := later[..|later| - 1], later[|later| - 1];
      KeepsExactlyThePast(past, front, asOf);
      FilterAppend(past + front, last, asOf);
      assert past + later == (past + front) + [last];
    }
  }

  /** Refiltering the complete swing list at bar `asOf` gives what was confirmed by then:
      swings of the future never leak in. */
  lemma RefilterIsConfirmed(dates: seq<int>, closes: seq<real>, left: nat, right: nat, m: nat, asOf: nat)
    requires |dates| == |closes| && left >= 1 && right >= 1 && asOf < m <= |closes|
    ensures SwingsConfirmedBy(Confirmed(dates, closes, left, right, m), asOf) == Confirmed(dates, closes, left, right, asOf + 1)
  {
    var past := Confirmed(dates, closes, left, right, asOf + 1);
    var later := ConfirmedSplit(dates, closes, left, right, m, asOf);
    assert forall s :: s in past ==> s.confirmedIndex <= asOf by {
      ConfirmedExact(dates, closes, left, right, asOf + 1);
    }
    KeepsExactlyThePast(past, later, asOf);
  }
}
