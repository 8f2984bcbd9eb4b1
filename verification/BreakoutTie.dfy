/** The one asymmetry between CALL and PUT: exactly which days are not mirrored, and such a day. */
module BreakoutTie {
  import opened Common
  import opened BreakoutDay
  import opened BreakoutMirror

  function AfterBase(bars: seq<Bar>, s: Settings): seq<Bar> {
    Between(ByStart(bars), s.FirstEnd(), s.LastStart())
  }

  /** The first of these bars that breaks out of the base candle. */
  predicate BreaksFirst(bars: seq<Bar>, base: Bar, i: nat) {
    i < |bars| && Breaks(bars[i], base) && forall j :: 0 <= j < i ==> !Breaks(bars[j], base)
  }

  /** A minute through both ends of the base candle that opened exactly halfway between them. */
  predicate HalfwayThroughBoth(m: Bar, base: Bar) {
    m.h > base.h && m.l < base.l && base.h - m.o == m.o - base.l
  }

  ghost predicate TieWindow(window: seq<Bar>, base: Bar) {
    exists j: nat :: BreaksFirst(window, base, j) && HalfwayThroughBoth(window[j], base)
  }

  ghost predicate TieCandles(after: seq<Bar>, minutes: seq<Bar>, base: Bar, barMinutes: int) {
    exists i: nat ::
      && BreaksFirst(after, base, i) && BothEndsInside(after[i], base)
      && TieWindow(Window(minutes, after[i].t, after[i].t + barMinutes), base)
  }

  /** The first candle to break out opens inside the base candle and trades through both of its ends, and so does the
      first of its minutes to break out, having opened exactly at the middle. */
  ghost predicate TieDay(bars: seq<Bar>, minutes: seq<Bar>, s: Settings) {
    HasBase(bars, s) && TieCandles(AfterBase(bars, s), minutes, BaseOf(bars, s), s.barMinutes)
  }

  lemma FirstBreakIs(bars: seq<Bar>, base: Bar, i: nat)
    requires BreaksFirst(bars, base, i)
    ensures FirstBreak(bars, base) == Some(i)
  {
    FirstTrueIs(BreakMask(bars, base), Some(i));
  }

  lemma FirstBreakBreaksFirst(bars: seq<Bar>, base: Bar)
    ensures FirstBreak(bars, base).Some? ==> BreaksFirst(bars, base, FirstBreak(bars, base).value)
  {
    FirstBreakIsFirst(bars, base);
  }

  lemma HalfwayIffTie(m: Bar, base: Bar)
    requires base.l <= base.h && Breaks(m, base)
    ensures HalfwayThroughBoth(m, base) <==> ResolveMinute(m, base).Some? && AtMidpoint(ResolveMinute(m, base).value, base)
  {
  }

  lemma OnlyFirst(bars: seq<Bar>, base: Bar, i: nat, j: nat)
    requires BreaksFirst(bars, base, i) && BreaksFirst(bars, base, j)
    ensures j == i
  {
  }

  lemma WindowTieIff(window: seq<Bar>, base: Bar)
    requires base.l <= base.h
    ensures TieWindow(window, base) <==> Resolve(window, base).Some? && AtMidpoint(Resolve(window, base).value, base)
  {
    FirstBreakBreaksFirst(window, base);
    var first := FirstBreak(window, base);
    if first.Some? {
      HalfwayIffTie(window[first.value], base);
    }
    if j: nat :| BreaksFirst(window, base, j) && HalfwayThroughBoth(window[j], base) {
      FirstBreakIs(window, base, j);
    }
  }

  lemma CandleTieIff(base: Bar, b: Bar, minutes: seq<Bar>, barMinutes: int)
    requires base.l <= base.h
    ensures TieWindow(Window(minutes, b.t, b.t + barMinutes), base) <==> MidpointTie(base, WithinCandle(base, b, minutes, barMinutes))
  {
    var window := Window(minutes, b.t, b.t + barMinutes);
    var res := Searched(base, b, minutes, barMinutes);
    WindowTieIff(window, base);
    SearchedIs(base, b, minutes, barMinutes, window);
    WithinCandleIs(base, b, minutes, barMinutes, res, Remaining(b, minutes, barMinutes, res));
  }

  /** Only the first candle to break out matters. */
  lemma TieAtFirst(after: seq<Bar>, minutes: seq<Bar>, base: Bar, barMinutes: int, first: nat)
    requires BreaksFirst(after, base, first)
    ensures TieCandles(after, minutes, base, barMinutes) <==>
            BothEndsInside(after[first], base) && TieWindow(Window(minutes, after[first].t, after[first].t + barMinutes), base)
  {
    hide BothEndsInside, TieWindow, Window;
    if i: nat :| BreaksFirst(after, base, i) && BothEndsInside(after[i], base)
                 && TieWindow(Window(minutes, after[i].t, after[i].t + barMinutes), base) {
      OnlyFirst(after, base, first, i);
    }
  }

  lemma NoBreakNoTie(after: seq<Bar>, minutes: seq<Bar>, base: Bar, s: Settings)
    requires s.barMinutes > 0 && FirstBreak(after, base).None?
    ensures !TieCandles(after, minutes, base, s.barMinutes) && Find(base, after, minutes, s).Quiet?
  {
    hide FirstBreak, BothEndsInside, TieWindow, Window, WithinCandle, Held;
    forall i: nat
      ensures !BreaksFirst(after, base, i)
    {
      if BreaksFirst(after, base, i) {
        FirstBreakIs(after, base, i);
      }
    }
  }

  /** The midpoint rule decides exactly when the candles and minutes are such. */
  lemma CandlesTieIff(base: Bar, after: seq<Bar>, minutes: seq<Bar>, s: Settings)
    requires s.barMinutes > 0 && base.l <= base.h
    ensures TieCandles(after, minutes, base, s.barMinutes) <==> MidpointTie(base, Find(base, after, minutes, s))
  {
    hide TieCandles, TieWindow, Window, Find, FirstBreak, BothEndsInside, WithinCandle, Held;
    var first := FirstBreak(after, base);
    if first.None? {
      NoBreakNoTie(after, minutes, base, s);
    } else {
      var b := after[first.value];
      FirstBreakBreaksFirst(after, base);
      FindIs(base, after, minutes, s, first.value);
      TieAtFirst(after, minutes, base, s.barMinutes, first.value);
      CandleTieIff(base, b, minutes, s.barMinutes);
      HeldSides(base, after[first.value..], s.Missing(after));
    }
  }

  /** Mirror symmetry, exactly: reflecting a day's candles and minutes reflects its outcome if and only if it is not
      the case that the first candle and the first minute to break out went through both ends, the minute having
      opened at the middle of the base candle. */
  lemma MirrorIff(bars: seq<Bar>, minutes: seq<Bar>, s: Settings, k: real)
    requires s.Supported()
    requires forall i :: 0 <= i < |bars| ==> OpensInside(bars[i])
    ensures Day(FlipAll(bars, k), FlipAll(minutes, k), s) == FlipDay(Day(bars, minutes, s), k)
            <==> !TieDay(bars, minutes, s)
  {
    FlipDayParts(bars, s, k);
    if HasBase(bars, s) {
      var base, after := BaseOf(bars, s), Between(ByStart(bars), s.FirstEnd(), s.LastStart());
      ByStartFrom(bars, s.BaseStart());
      BetweenFrom(bars, s.FirstEnd(), s.LastStart());
      DayIs(bars, minutes, s);
      DayIs(FlipAll(bars, k), FlipAll(minutes, k), s);
      FlipFind(base, after, minutes, s, k);
      CandlesTieIff(base, after, minutes, s);
      var o, flipped := OutcomeOf(bars, minutes, s), OutcomeOf(FlipAll(bars, k), FlipAll(minutes, k), s);
      if MidpointTie(base, o) {
        RecordSide(base, SecondLastOf(bars, s), o, s);
        RecordSide(Flip(base, k), FlipBar(SecondLastOf(bars, s), k), flipped, s);
      } else {
        FlipRecord(base, SecondLastOf(bars, s), o, s, k);
      }
    } else {
      assert FlipFlags([BaseMissing]) == [BaseMissing];
    }
  }

  // ---- Such a day ------------------------------------------------------------------------

  const EVEN_BASE := Bar(SESSION_OPEN_MIN, 100.0, 110.0, 90.0, 100.0)
  const EVEN_BREAK := Bar(SESSION_OPEN_MIN + 15, 100.0, 120.0, 80.0, 100.0)
  const QUARTER_HOURS := Settings(AtClose, 15, None, None)

  lemma EvenCandles(bars: seq<Bar>)
    requires bars == [EVEN_BASE, EVEN_BREAK]
    ensures HasBase(bars, QUARTER_HOURS) && BaseOf(bars, QUARTER_HOURS) == EVEN_BASE
    ensures AfterBase(bars, QUARTER_HOURS) != [] && AfterBase(bars, QUARTER_HOURS)[0] == EVEN_BREAK
  {
    var byStart := ByStart(bars);
    var one := bars[..1];
    assert one[..0] == [] && ByStart(one[..0]) == map[];
    assert ByStart(one) == map[EVEN_BASE.t := EVEN_BASE];
    assert bars[..|bars| - 1] == one && byStart == ByStart(one)[EVEN_BREAK.t := EVEN_BREAK];
    StartsWith(byStart, EVEN_BREAK.t, QUARTER_HOURS.LastStart());
  }

  lemma {:induction false} StartsWith(byStart: map<int, Bar>, lo: int, hi: int)
    requires lo in byStart && lo <= hi
    ensures Between(byStart, lo, hi) != [] && Between(byStart, lo, hi)[0] == byStart[lo]
    decreases hi - lo
  {
    if hi == lo {
      assert Between(byStart, lo, hi - 1) == [];
    } else {
      StartsWith(byStart, lo, hi - 1);
    }
  }

  lemma EvenWindow(minutes: seq<Bar>)
    requires minutes == [EVEN_BREAK]
    ensures Window(minutes, EVEN_BREAK.t, EVEN_BREAK.t + 15) == [EVEN_BREAK]
  {
    assert WindowUpTo(minutes, 0, EVEN_BREAK.t, EVEN_BREAK.t + 15) == [];
  }

  lemma EvenDayTies(bars: seq<Bar>, minutes: seq<Bar>)
    requires bars == [EVEN_BASE, EVEN_BREAK] && minutes == [EVEN_BREAK]
    ensures TieDay(bars, minutes, QUARTER_HOURS)
  {
    EvenCandles(bars);
    EvenWindow(minutes);
    var after, window := AfterBase(bars, QUARTER_HOURS), Window(minutes, EVEN_BREAK.t, EVEN_BREAK.t + 15);
    assert BreaksFirst(window, EVEN_BASE, 0) && HalfwayThroughBoth(window[0], EVEN_BASE);
    assert BreaksFirst(after, EVEN_BASE, 0) && BothEndsInside(after[0], EVEN_BASE);
  }

  lemma TieDaysAreCalls(bars: seq<Bar>, minutes: seq<Bar>, s: Settings)
    requires s.Supported() && TieDay(bars, minutes, s) && BaseOf(bars, s).l <= BaseOf(bars, s).h
    ensures Day(bars, minutes, s).side == Some(Call)
  {
    var base, o := BaseOf(bars, s), OutcomeOf(bars, minutes, s);
    CandlesTieIff(base, AfterBase(bars, s), minutes, s);
    TieIsCall(base, AfterBase(bars, s), minutes, s);
    DayIs(bars, minutes, s);
    RecordSide(base, SecondLastOf(bars, s), o, s);
  }

  lemma TieIsCall(base: Bar, after: seq<Bar>, minutes: seq<Bar>, s: Settings)
    requires s.barMinutes > 0 && base.l <= base.h && MidpointTie(base, Find(base, after, minutes, s))
    ensures Find(base, after, minutes, s).res.side == Call
  {
    var i := FirstBreak(after, base);
    FindIs(base, after, minutes, s, i.value);
    HeldSides(base, after[i.value..], s.Missing(after));
    FlipWithinCandle(base, after[i.value], minutes, s.barMinutes, 0.0);
  }

  /** Two candles and one minute that are their own reflection at 100: the day would have to be its own mirror image,
      but it is a CALL. */
  lemma EvenDayIsACall(bars: seq<Bar>, minutes: seq<Bar>)
    requires bars == [EVEN_BASE, EVEN_BREAK] && minutes == [EVEN_BREAK]
    ensures FlipAll(bars, 200.0) == bars && FlipAll(minutes, 200.0) == minutes
    ensures TieDay(bars, minutes, QUARTER_HOURS)
    ensures Day(bars, minutes, QUARTER_HOURS).side == Some(Call)
    ensures FlipDay(Day(bars, minutes, QUARTER_HOURS), 200.0).side == Some(Put)
  {
    EvenDayTies(bars, minutes);
    EvenCandles(bars);
    TieDaysAreCalls(bars, minutes, QUARTER_HOURS);
  }
}
