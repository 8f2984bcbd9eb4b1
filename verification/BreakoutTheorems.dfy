/** What the breakout day promises: how much a stop can cost, when minutes matter, and that complete minutes decide. */
module BreakoutTheorems {
  import opened Common
  import opened BreakoutDay
  import opened BreakoutMirror

  predicate WellFormed(b: Bar) {
    b.l <= b.o <= b.h && b.l <= b.c <= b.h
  }

  // ---- Stops and time exits --------------------------------------------------------------

  /** The decided bars are what the outcome claims: a stop bar is at its stop, a timed-out position never was. */
  predicate StopsAreStops(base: Bar, o: Outcome) {
    match o
    case InOneCandle(b, res, stop) => res.side != BothSides && (stop.Some? ==> AtStop(res.side, StopOf(res.side, base), stop.value))
    case Stopped(b, side, at) => side != BothSides && AtStop(side, StopOf(side, base), at)
    case TimedOut(b, side, last, missing) => side != BothSides && !AtStop(side, StopOf(side, base), last)
    case _ => true
  }

  lemma ResolvedSide(window: seq<Bar>, base: Bar)
    ensures Resolve(window, base).Some? ==> Resolve(window, base).value.side != BothSides
  {
  }

  lemma WithinCandleStops(base: Bar, b: Bar, minutes: seq<Bar>, barMinutes: int)
    ensures StopsAreStops(base, WithinCandle(base, b, minutes, barMinutes))
  {
    ResolvedSide(Window(minutes, b.t, b.t + barMinutes), base);
  }

  lemma HeldStops(base: Bar, held: seq<Bar>, missing: int)
    requires |held| > 0
    ensures StopsAreStops(base, Held(base, held, missing))
  {
    var side := PlainSide(held[0], base);
    var hit := FirstStop(held, side, StopOf(side, base));
    FirstStopIsFirst(held, side, StopOf(side, base));
    HeldIs(base, held, missing, side, StopOf(side, base), hit);
  }

  lemma FindStops(base: Bar, after: seq<Bar>, minutes: seq<Bar>, s: Settings)
    requires s.barMinutes > 0
    ensures StopsAreStops(base, Find(base, after, minutes, s))
  {
    var first := FirstBreak(after, base);
    if first.Some? {
      FindIs(base, after, minutes, s, first.value);
      WithinCandleStops(base, after[first.value], minutes, s.barMinutes);
      HeldStops(base, after[first.value..], s.Missing(after));
    }
  }

  lemma FillBeyondStop(side: Side, base: Bar, b: Bar, entryBar: Bar)
    requires side != BothSides
    ensures Points(side, EntryPrice(side, base, entryBar), StopFill(side, StopOf(side, base), b)) <= -(base.h - base.l)
    ensures Points(side, EntryPrice(side, base, entryBar), StopOf(side, base)) <= -(base.h - base.l)
  {
  }

  lemma RecordStopLoss(base: Bar, secondLast: Option<Bar>, o: Outcome, s: Settings)
    requires StopsAreStops(base, o)
    ensures var r := Record(base, secondLast, o, s);
            r.exitReason == StopLoss ==> r.pnlPoints.Some? && r.pnlPoints.value <= -(base.h - base.l)
  {
    match o
    case InOneCandle(b, res, stop) =>
      FillBeyondStop(res.side, base, if stop.Some? then stop.value else b, res.minute);
    case Stopped(b, side, at) => FillBeyondStop(side, base, at, b);
    case _ =>
  }

  /** Every STOP_LOSS day, gapped, ordered by minutes or unresolved, costs at least the base range. */
  lemma StopLossCostsTheRange(bars: seq<Bar>, minutes: seq<Bar>, s: Settings)
    requires s.Supported()
    ensures var r := Day(bars, minutes, s);
            r.exitReason == StopLoss ==>
              && r.base.Some? && r.pnlPoints.Some?
              && r.pnlPoints.value <= -(r.base.value.h - r.base.value.l)
  {
    if HasBase(bars, s) {
      DayIs(bars, minutes, s);
      FindStops(BaseOf(bars, s), Between(ByStart(bars), s.FirstEnd(), s.LastStart()), minutes, s);
      RecordStopLoss(BaseOf(bars, s), SecondLastOf(bars, s), OutcomeOf(bars, minutes, s), s);
    }
  }

  lemma RecordTimeExit(base: Bar, secondLast: Option<Bar>, o: Outcome, s: Settings)
    requires StopsAreStops(base, o) && (o.TimedOut? ==> WellFormed(o.last))
    ensures var r := Record(base, secondLast, o, s);
            r.side.Some? && r.exitReason != StopLoss ==>
              && r.entryPrice.Some? && r.pnlPoints.Some? && r.exitPrice.Some? && r.stopLoss.Some?
              && (if r.side.value == Call then r.exitPrice.value > r.stopLoss.value else r.exitPrice.value < r.stopLoss.value)
              && (GapEntry !in r.flags ==> r.pnlPoints.value > -(base.h - base.l))
  {
    if o.TimedOut? {
      var flags := Record(base, secondLast, o, s).flags;
      if GapEntered(o.side, base, o.b) {
        var i := (if secondLast.None? then 1 else 0) + 1;
        assert flags[i] == GapEntry;
      }
    }
  }

  lemma FindLast(base: Bar, after: seq<Bar>, minutes: seq<Bar>, s: Settings)
    requires s.barMinutes > 0
    ensures Find(base, after, minutes, s).TimedOut? ==> Find(base, after, minutes, s).last in after
  {
    var first := FirstBreak(after, base);
    if first.Some? {
      var held := after[first.value..];
      var side := PlainSide(held[0], base);
      FindIs(base, after, minutes, s, first.value);
      HeldIs(base, held, s.Missing(after), side, StopOf(side, base), FirstStop(held, side, StopOf(side, base)));
      assert held[|held| - 1] == after[|after| - 1];
    }
  }

  /** Every exit by time is strictly on the safe side of the stop; from an entry that did not gap it costs
      strictly less than the base range. */
  lemma TimeExitIsInsideTheStop(bars: seq<Bar>, minutes: seq<Bar>, s: Settings)
    requires s.Supported() && forall i :: 0 <= i < |bars| ==> WellFormed(bars[i])
    ensures var r := Day(bars, minutes, s);
            r.side.Some? && r.exitReason != StopLoss ==>
              && r.base.Some? && r.entryPrice.Some? && r.pnlPoints.Some? && r.exitPrice.Some? && r.stopLoss.Some?
              && (if r.side.value == Call then r.exitPrice.value > r.stopLoss.value else r.exitPrice.value < r.stopLoss.value)
              && (GapEntry !in r.flags ==> r.pnlPoints.value > -(r.base.value.h - r.base.value.l))
  {
    if HasBase(bars, s) {
      var base, after := BaseOf(bars, s), Between(ByStart(bars), s.FirstEnd(), s.LastStart());
      DayIs(bars, minutes, s);
      FindStops(base, after, minutes, s);
      FindLast(base, after, minutes, s);
      BetweenFrom(bars, s.FirstEnd(), s.LastStart());
      RecordTimeExit(base, SecondLastOf(bars, s), OutcomeOf(bars, minutes, s), s);
      RecordBase(base, SecondLastOf(bars, s), OutcomeOf(bars, minutes, s), s);
    }
  }

  lemma RecordBase(base: Bar, secondLast: Option<Bar>, o: Outcome, s: Settings)
    ensures Record(base, secondLast, o, s).base == Some(base)
  {
  }

  // ---- When minutes matter ---------------------------------------------------------------

  /** What `ambiguous_candles` lists: the day, judged without minutes, has its breakout candle through both ends. */
  predicate Listed(bars: seq<Bar>, s: Settings)
    requires s.Supported()
  {
    Day(bars, [], s).side == Some(BothSides)
  }

  lemma RecordBothSides(base: Bar, secondLast: Option<Bar>, o: Outcome, s: Settings)
    requires StopsAreStops(base, o)
    ensures Record(base, secondLast, o, s).side == Some(BothSides) <==> o.Unordered?
    ensures o.Unordered? ==> Record(base, secondLast, o, s).breakoutTime == Some(o.b.t)
  {
  }

  lemma FindWithoutMinutes(base: Bar, after: seq<Bar>, minutes: seq<Bar>, s: Settings)
    requires s.barMinutes > 0
    ensures var bare := Find(base, after, [], s);
            && (!bare.Unordered? ==> Find(base, after, minutes, s) == bare)
            && (bare.Unordered? ==> Find(base, after, minutes, s) == WithinCandle(base, bare.b, minutes, s.barMinutes))
  {
    var first := FirstBreak(after, base);
    if first.Some? {
      var b := after[first.value];
      FindIs(base, after, minutes, s, first.value);
      FindIs(base, after, [], s, first.value);
      if BothEndsInside(b, base) {
        WithinCandleIs(base, b, [], s.barMinutes, None, []);
      } else {
        HeldNotUnordered(base, after[first.value..], s.Missing(after));
      }
    }
  }

  lemma HeldNotUnordered(base: Bar, held: seq<Bar>, missing: int)
    requires |held| > 0
    ensures !Held(base, held, missing).Unordered?
  {
  }

  /** Minutes never change a day that is not listed. */
  lemma UnlistedDaysIgnoreMinutes(bars: seq<Bar>, minutes: seq<Bar>, s: Settings)
    requires s.Supported() && !Listed(bars, s)
    ensures Day(bars, minutes, s) == Day(bars, [], s)
  {
    if HasBase(bars, s) {
      var base, after := BaseOf(bars, s), Between(ByStart(bars), s.FirstEnd(), s.LastStart());
      DayIs(bars, minutes, s);
      DayIs(bars, [], s);
      FindStops(base, after, [], s);
      RecordBothSides(base, SecondLastOf(bars, s), OutcomeOf(bars, [], s), s);
      FindWithoutMinutes(base, after, minutes, s);
    }
  }

  /** The minutes of a span among the first `n`. */
  function InsideUpTo(minutes: seq<Bar>, n: nat, lo: int, hi: int): seq<Bar>
    requires n <= |minutes|
  {
    if n == 0 then []
    else if lo <= minutes[n - 1].t < hi then InsideUpTo(minutes, n - 1, lo, hi) + [minutes[n - 1]]
    else InsideUpTo(minutes, n - 1, lo, hi)
  }

  /** The minutes a window looks at. */
  function Inside(minutes: seq<Bar>, lo: int, hi: int): seq<Bar> {
    InsideUpTo(minutes, |minutes|, lo, hi)
  }

  lemma {:induction false} WindowPrefix(xs: seq<Bar>, ys: seq<Bar>, n: nat, lo: int, hi: int)
    requires n <= |xs| && xs <= ys
    ensures WindowUpTo(ys, n, lo, hi) == WindowUpTo(xs, n, lo, hi)
  {
    if n > 0 {
      WindowPrefix(xs, ys, n - 1, lo, hi);
    }
  }

  lemma WindowAppend(xs: seq<Bar>, x: Bar, lo: int, hi: int)
    ensures Window(xs + [x], lo, hi) == if lo <= x.t < hi then Insert(Window(xs, lo, hi), x) else Window(xs, lo, hi)
  {
    hide Insert;
    WindowPrefix(xs, xs + [x], |xs|, lo, hi);
    assert (xs + [x])[|xs|] == x;
  }

  lemma {:induction false} WindowOfInsideUpTo(minutes: seq<Bar>, n: nat, lo: int, hi: int, from: int)
    requires n <= |minutes| && lo <= from
    ensures Window(InsideUpTo(minutes, n, lo, hi), from, hi) == WindowUpTo(minutes, n, from, hi)
  {
    if n > 0 {
      WindowOfInsideUpTo(minutes, n - 1, lo, hi, from);
      WindowAppend(InsideUpTo(minutes, n - 1, lo, hi), minutes[n - 1], from, hi);
    }
  }

  lemma WindowOfInside(minutes: seq<Bar>, lo: int, hi: int, from: int)
    requires lo <= from
    ensures Window(Inside(minutes, lo, hi), from, hi) == Window(minutes, from, hi)
  {
    WindowOfInsideUpTo(minutes, |minutes|, lo, hi, from);
  }

  lemma ResolvedInWindow(window: seq<Bar>, base: Bar) returns (j: nat)
    requires Resolve(window, base).Some?
    ensures j < |window| && window[j] == Resolve(window, base).value.minute
    ensures ResolveMinute(window[j], base) == Resolve(window, base)
    ensures forall i :: 0 <= i < j ==> !Breaks(window[i], base)
    ensures Breaks(window[j], base)
  {
    j := FirstBreak(window, base).value;
    FirstBreakIsFirst(window, base);
  }

  lemma {:induction false} InsertMembers(sorted: seq<Bar>, b: Bar)
    requires forall i, j :: 0 <= i < j < |sorted| ==> sorted[i].t <= sorted[j].t
    ensures forall x :: x in Insert(sorted, b) <==> x in sorted || x == b
    ensures forall i, j :: 0 <= i < j < |Insert(sorted, b)| ==> Insert(sorted, b)[i].t <= Insert(sorted, b)[j].t
  {
    if sorted == [] || sorted[|sorted| - 1].t <= b.t {
    } else {
      var front, last := sorted[..|sorted| - 1], sorted[|sorted| - 1];
      InsertMembers(front, b);
      var inserted := Insert(front, b);
      forall i | 0 <= i < |inserted|
        ensures inserted[i].t <= last.t
      {
        assert inserted[i] in inserted;
      }
      assert sorted == front + [last];
    }
  }

  lemma {:induction false} WindowMembersUpTo(minutes: seq<Bar>, n: nat, lo: int, hi: int)
    requires n <= |minutes|
    ensures forall x :: x in WindowUpTo(minutes, n, lo, hi) <==> x in minutes[..n] && lo <= x.t < hi
    ensures forall i, j :: 0 <= i < j < |WindowUpTo(minutes, n, lo, hi)| ==>
              WindowUpTo(minutes, n, lo, hi)[i].t <= WindowUpTo(minutes, n, lo, hi)[j].t
  {
    if n > 0 {
      WindowMembersUpTo(minutes, n - 1, lo, hi);
      InsertMembers(WindowUpTo(minutes, n - 1, lo, hi), minutes[n - 1]);
      assert minutes[..n] == minutes[..n - 1] + [minutes[n - 1]];
    }
  }

  /** The window holds exactly the minutes of its span, in time order. */
  lemma WindowMembers(minutes: seq<Bar>, lo: int, hi: int)
    ensures forall x :: x in Window(minutes, lo, hi) <==> x in minutes && lo <= x.t < hi
    ensures forall i, j :: 0 <= i < j < |Window(minutes, lo, hi)| ==> Window(minutes, lo, hi)[i].t <= Window(minutes, lo, hi)[j].t
  {
    WindowMembersUpTo(minutes, |minutes|, lo, hi);
    assert minutes[..|minutes|] == minutes;
  }

  lemma ResolvedNotBefore(base: Bar, b: Bar, minutes: seq<Bar>, barMinutes: int)
    requires Searched(base, b, minutes, barMinutes).Some?
    ensures Searched(base, b, minutes, barMinutes).value.minute.t >= b.t
  {
    var window := Window(minutes, b.t, b.t + barMinutes);
    var j := ResolvedInWindow(window, base);
    WindowHas(minutes, b.t, b.t + barMinutes, window[j]);
  }

  lemma SearchedInside(base: Bar, b: Bar, minutes: seq<Bar>, inside: seq<Bar>, barMinutes: int)
    requires inside == Inside(minutes, b.t, b.t + barMinutes)
    ensures Searched(base, b, inside, barMinutes) == Searched(base, b, minutes, barMinutes)
  {
    WindowOfInside(minutes, b.t, b.t + barMinutes, b.t);
    SearchedIs(base, b, minutes, barMinutes, Window(minutes, b.t, b.t + barMinutes));
    SearchedIs(base, b, inside, barMinutes, Window(minutes, b.t, b.t + barMinutes));
  }

  lemma RemainingInside(b: Bar, minutes: seq<Bar>, inside: seq<Bar>, barMinutes: int, res: Option<Resolution>)
    requires inside == Inside(minutes, b.t, b.t + barMinutes) && (res.Some? ==> res.value.minute.t >= b.t)
    ensures Remaining(b, inside, barMinutes, res) == Remaining(b, minutes, barMinutes, res)
  {
    if res.Some? {
      WindowOfInside(minutes, b.t, b.t + barMinutes, res.value.minute.t);
    }
  }

  lemma WithinCandleInside(base: Bar, b: Bar, minutes: seq<Bar>, inside: seq<Bar>, barMinutes: int)
    requires inside == Inside(minutes, b.t, b.t + barMinutes)
    ensures WithinCandle(base, b, inside, barMinutes) == WithinCandle(base, b, minutes, barMinutes)
  {
    var res := Searched(base, b, minutes, barMinutes);
    var rest := Remaining(b, minutes, barMinutes, res);
    SearchedInside(base, b, minutes, inside, barMinutes);
    if res.Some? {
      ResolvedNotBefore(base, b, minutes, barMinutes);
    }
    RemainingInside(b, minutes, inside, barMinutes, res);
    WithinCandleIs(base, b, minutes, barMinutes, res, rest);
    WithinCandleIs(base, b, inside, barMinutes, res, rest);
  }

  /** On a listed day the record without minutes names the candle through both ends. */
  lemma ListedCandle(bars: seq<Bar>, s: Settings)
    requires s.Supported() && Listed(bars, s)
    ensures HasBase(bars, s)
    ensures var o := OutcomeOf(bars, [], s); o.Unordered? && Day(bars, [], s).breakoutTime == Some(o.b.t)
  {
    DayIs(bars, [], s);
    FindStops(BaseOf(bars, s), Between(ByStart(bars), s.FirstEnd(), s.LastStart()), [], s);
    RecordBothSides(BaseOf(bars, s), SecondLastOf(bars, s), OutcomeOf(bars, [], s), s);
  }

  lemma ListedOutcome(bars: seq<Bar>, minutes: seq<Bar>, s: Settings)
    requires s.Supported() && HasBase(bars, s) && OutcomeOf(bars, [], s).Unordered?
    ensures OutcomeOf(bars, minutes, s) == WithinCandle(BaseOf(bars, s), OutcomeOf(bars, [], s).b, minutes, s.barMinutes)
  {
    FindWithoutMinutes(BaseOf(bars, s), Between(ByStart(bars), s.FirstEnd(), s.LastStart()), minutes, s);
  }

  lemma SameOutcomeSameDay(bars: seq<Bar>, minutes: seq<Bar>, others: seq<Bar>, s: Settings)
    requires s.Supported() && HasBase(bars, s) && OutcomeOf(bars, minutes, s) == OutcomeOf(bars, others, s)
    ensures Day(bars, minutes, s) == Day(bars, others, s)
  {
    DayIs(bars, minutes, s);
    DayIs(bars, others, s);
  }

  /** The candle a day without minutes leaves unordered is the one that breaks out. */
  lemma UnorderedIsFirst(base: Bar, after: seq<Bar>, s: Settings, b: Bar) returns (i: nat)
    requires s.barMinutes > 0 && Find(base, after, [], s) == Unordered(b)
    ensures FirstBreak(after, base) == Some(i) && after[i] == b
  {
    i := FirstBreak(after, base).value;
    FindIs(base, after, [], s, i);
    if !BothEndsInside(after[i], base) {
      HeldNotUnordered(base, after[i..], s.Missing(after));
    } else {
      WithinCandleIs(base, after[i], [], s.barMinutes, None, []);
    }
  }

  lemma FindSame(base: Bar, after: seq<Bar>, minutes: seq<Bar>, others: seq<Bar>, s: Settings, i: nat)
    requires s.barMinutes > 0 && FirstBreak(after, base) == Some(i)
    requires WithinCandle(base, after[i], minutes, s.barMinutes) == WithinCandle(base, after[i], others, s.barMinutes)
    ensures Find(base, after, minutes, s) == Find(base, after, others, s)
  {
    FindIs(base, after, minutes, s, i);
    FindIs(base, after, others, s, i);
  }

  lemma FindInside(base: Bar, after: seq<Bar>, minutes: seq<Bar>, inside: seq<Bar>, s: Settings, b: Bar)
    requires s.barMinutes > 0 && Find(base, after, [], s) == Unordered(b)
    requires inside == Inside(minutes, b.t, b.t + s.barMinutes)
    ensures Find(base, after, minutes, s) == Find(base, after, inside, s)
  {
    var i := UnorderedIsFirst(base, after, s, b);
    WithinCandleInside(base, after[i], minutes, inside, s.barMinutes);
    FindSame(base, after, minutes, inside, s, i);
  }

  lemma ListedOutcomeInside(bars: seq<Bar>, minutes: seq<Bar>, s: Settings, b: Bar, start: int)
    requires s.Supported() && HasBase(bars, s) && OutcomeOf(bars, [], s) == Unordered(b) && b.t == start
    ensures OutcomeOf(bars, minutes, s) == OutcomeOf(bars, Inside(minutes, start, start + s.barMinutes), s)
  {
    FindInside(BaseOf(bars, s), Between(ByStart(bars), s.FirstEnd(), s.LastStart()), minutes,
               Inside(minutes, start, start + s.barMinutes), s, b);
  }

  lemma ListedCandleAt(bars: seq<Bar>, s: Settings, start: int) returns (b: Bar)
    requires s.Supported() && Listed(bars, s) && Day(bars, [], s).breakoutTime == Some(start)
    ensures HasBase(bars, s) && OutcomeOf(bars, [], s) == Unordered(b) && b.t == start
  {
    ListedCandle(bars, s);
    b := OutcomeOf(bars, [], s).b;
  }

  /** On a listed day only the minutes of the listed candle matter; `start` is where it starts. */
  lemma ListedDaysNeedOneCandleOfMinutes(bars: seq<Bar>, minutes: seq<Bar>, s: Settings, start: int)
    requires s.Supported() && Listed(bars, s) && Day(bars, [], s).breakoutTime == Some(start)
    ensures Day(bars, minutes, s) == Day(bars, Inside(minutes, start, start + s.barMinutes), s)
  {
    var b := ListedCandleAt(bars, s, start);
    ListedOutcomeInside(bars, minutes, s, b, start);
    SameOutcomeSameDay(bars, minutes, Inside(minutes, start, start + s.barMinutes), s);
  }

  // ---- Complete minutes decide -----------------------------------------------------------

  /** The minutes of the candle's span aggregate to its high and its low. */
  ghost predicate Aggregates(window: seq<Bar>, b: Bar) {
    && (exists i :: 0 <= i < |window| && window[i].h == b.h)
    && (exists i :: 0 <= i < |window| && window[i].l == b.l)
    && forall i :: 0 <= i < |window| ==> b.l <= window[i].l && window[i].h <= b.h
  }

  lemma SomeMinuteBreaks(window: seq<Bar>, base: Bar, i: nat)
    requires i < |window| && Breaks(window[i], base)
    ensures Resolve(window, base).Some?
  {
    FirstBreakIsFirst(window, base);
  }

  lemma StopAmong(bars: seq<Bar>, side: Side, stop: real, i: nat)
    requires i < |bars| && AtStop(side, stop, bars[i])
    ensures FirstStop(bars, side, stop).Some?
  {
    FirstStopIsFirst(bars, side, stop);
  }

  /** If the minutes reach both extremes of a candle through both ends, one of them decides the side, and a minute
      not before it is at the stop. */
  lemma OtherEndIsLater(window: seq<Bar>, base: Bar, b: Bar) returns (j: nat, i: nat)
    requires BothEndsInside(b, base) && Aggregates(window, b)
    ensures j <= i < |window| && Resolve(window, base).Some? && Resolve(window, base).value.minute == window[j]
    ensures var side := Resolve(window, base).value.side; AtStop(side, StopOf(side, base), window[i])
  {
    var up :| 0 <= up < |window| && window[up].h == b.h;
    var down :| 0 <= down < |window| && window[down].l == b.l;
    SomeMinuteBreaks(window, base, up);
    j := ResolvedInWindow(window, base);
    ResolvedSide(window, base);
    i := if Resolve(window, base).value.side == Call then down else up;
    assert Breaks(window[i], base);
  }

  lemma WindowHas(minutes: seq<Bar>, lo: int, hi: int, x: Bar)
    ensures x in Window(minutes, lo, hi) <==> x in minutes && lo <= x.t < hi
  {
    WindowMembers(minutes, lo, hi);
  }

  lemma WindowOrder(minutes: seq<Bar>, lo: int, hi: int, j: nat, i: nat)
    requires j <= i < |Window(minutes, lo, hi)|
    ensures Window(minutes, lo, hi)[j].t <= Window(minutes, lo, hi)[i].t
  {
    WindowMembers(minutes, lo, hi);
  }

  /** The minute stays in the window that starts with the deciding one. */
  lemma StaysInWindow(minutes: seq<Bar>, lo: int, hi: int, j: nat, i: nat)
    requires j <= i < |Window(minutes, lo, hi)|
    ensures Window(minutes, lo, hi)[i] in Window(minutes, Window(minutes, lo, hi)[j].t, hi)
  {
    var x, from := Window(minutes, lo, hi)[i], Window(minutes, lo, hi)[j].t;
    WindowOrder(minutes, lo, hi, j, i);
    WindowHas(minutes, lo, hi, x);
    WindowHas(minutes, from, hi, x);
  }

  lemma StopAmongMembers(bars: seq<Bar>, side: Side, stop: real, x: Bar)
    requires x in bars && AtStop(side, stop, x)
    ensures FirstStop(bars, side, stop).Some?
  {
    var i :| 0 <= i < |bars| && bars[i] == x;
    StopAmong(bars, side, stop, i);
  }

  lemma StopRemains(base: Bar, b: Bar, minutes: seq<Bar>, barMinutes: int, window: seq<Bar>, res: Resolution, j: nat, i: nat)
    requires window == Window(minutes, b.t, b.t + barMinutes) && j <= i < |window| && res.minute == window[j]
    requires AtStop(res.side, StopOf(res.side, base), window[i])
    ensures FirstStop(Remaining(b, minutes, barMinutes, Some(res)), res.side, StopOf(res.side, base)).Some?
  {
    StaysInWindow(minutes, b.t, b.t + barMinutes, j, i);
    StopAmongMembers(Remaining(b, minutes, barMinutes, Some(res)), res.side, StopOf(res.side, base), window[i]);
  }

  lemma StopIsThere(base: Bar, b: Bar, minutes: seq<Bar>, barMinutes: int)
    requires BothEndsInside(b, base) && Aggregates(Window(minutes, b.t, b.t + barMinutes), b)
    ensures var res := Searched(base, b, minutes, barMinutes);
            res.Some? && FirstStop(Remaining(b, minutes, barMinutes, res), res.value.side, StopOf(res.value.side, base)).Some?
  {
    var window := Window(minutes, b.t, b.t + barMinutes);
    var j, i := OtherEndIsLater(window, base, b);
    SearchedIs(base, b, minutes, barMinutes, window);
    StopRemains(base, b, minutes, barMinutes, window, Resolve(window, base).value, j, i);
  }

  lemma DecidedFindsStop(base: Bar, b: Bar, res: Resolution, rest: seq<Bar>)
    requires FirstStop(rest, res.side, StopOf(res.side, base)).Some?
    ensures Decided(base, b, Some(res), rest).InOneCandle? && Decided(base, b, Some(res), rest).stop.Some?
  {
  }

  /** If the minutes of a candle through both ends aggregate to that candle, the side is resolved and the stop is
      found among the minutes: the "1-minute data incomplete" fallback is unreachable. */
  lemma CompleteMinutesDecide(base: Bar, b: Bar, minutes: seq<Bar>, barMinutes: int)
    requires BothEndsInside(b, base) && Aggregates(Window(minutes, b.t, b.t + barMinutes), b)
    ensures var o := WithinCandle(base, b, minutes, barMinutes); o.InOneCandle? && o.stop.Some?
  {
    StopIsThere(base, b, minutes, barMinutes);
    var res := Searched(base, b, minutes, barMinutes);
    var rest := Remaining(b, minutes, barMinutes, res);
    DecidedFindsStop(base, b, res.value, rest);
    WithinCandleIs(base, b, minutes, barMinutes, res, rest);
  }

  lemma RecordDecided(base: Bar, secondLast: Option<Bar>, o: Outcome, s: Settings)
    requires o.InOneCandle? && o.stop.Some? && o.res.side != BothSides
    ensures var r := Record(base, secondLast, o, s);
            r.side == Some(o.res.side) && r.exitTime == Some(o.stop.value.t) && StopAssumed !in r.flags && AmbiguousCandle !in r.flags
  {
  }

  lemma UnorderedOpensInside(base: Bar, after: seq<Bar>, minutes: seq<Bar>, s: Settings)
    requires s.barMinutes > 0
    ensures var o := Find(base, after, minutes, s); o.Unordered? ==> BothEndsInside(o.b, base)
  {
    var first := FirstBreak(after, base);
    if first.Some? {
      FindIs(base, after, minutes, s, first.value);
      HeldNotUnordered(base, after[first.value..], s.Missing(after));
    }
  }

  /** The listed candle of a listed day. */
  function ListedBar(bars: seq<Bar>, s: Settings): (b: Bar)
    requires s.Supported() && Listed(bars, s)
    ensures Day(bars, [], s).breakoutTime == Some(b.t)
  {
    ListedCandle(bars, s);
    OutcomeOf(bars, [], s).b
  }

  lemma UnorderedDayIsDecided(bars: seq<Bar>, minutes: seq<Bar>, s: Settings, b: Bar)
    requires s.Supported() && HasBase(bars, s) && OutcomeOf(bars, [], s) == Unordered(b)
    requires Aggregates(Window(minutes, b.t, b.t + s.barMinutes), b)
    ensures var o := OutcomeOf(bars, minutes, s); o.InOneCandle? && o.stop.Some? && o.res.side != BothSides
  {
    var base := BaseOf(bars, s);
    UnorderedOpensInside(base, Between(ByStart(bars), s.FirstEnd(), s.LastStart()), [], s);
    ListedOutcome(bars, minutes, s);
    CompleteMinutesDecide(base, b, minutes, s.barMinutes);
    WithinCandleStops(base, b, minutes, s.barMinutes);
  }

  /** The same for whole days: with complete minutes for its listed candle, a day is never left unresolved. */
  lemma DaysWithCompleteMinutesAreDecided(bars: seq<Bar>, minutes: seq<Bar>, s: Settings)
    requires s.Supported() && Listed(bars, s)
    requires var b := ListedBar(bars, s); Aggregates(Window(minutes, b.t, b.t + s.barMinutes), b)
    ensures var r := Day(bars, minutes, s);
            r.side.Some? && r.side.value != BothSides && StopAssumed !in r.flags && AmbiguousCandle !in r.flags
  {
    ListedCandle(bars, s);
    UnorderedDayIsDecided(bars, minutes, s, OutcomeOf(bars, [], s).b);
    RecordDecided(BaseOf(bars, s), SecondLastOf(bars, s), OutcomeOf(bars, minutes, s), s);
    DayIs(bars, minutes, s);
  }
}
