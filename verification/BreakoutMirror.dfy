/** CALL and PUT are mirror images: reflecting all prices of a day reflects the whole outcome. */
module BreakoutMirror {
  import opened Common
  import opened BreakoutDay

  // ---- Reflection p -> k - p -------------------------------------------------------------

  function Flip(b: Bar, k: real): Bar {
    Bar(b.t, k - b.o, k - b.l, k - b.h, k - b.c)
  }

  function FlipAll(bars: seq<Bar>, k: real): (flipped: seq<Bar>)
    ensures |flipped| == |bars|
    ensures forall i :: 0 <= i < |bars| ==> flipped[i] == Flip(bars[i], k)
  {
    seq(|bars|, i requires 0 <= i < |bars| => Flip(bars[i], k))
  }

  function FlipSide(side: Side): Side {
    match side
    case Call => Put
    case Put => Call
    case BothSides => BothSides
  }

  function FlipFlag(flag: Flag): Flag {
    if flag.ResolvedOnMinutes? then ResolvedOnMinutes(FlipSide(flag.side)) else flag
  }

  function FlipFlags(flags: seq<Flag>): (flipped: seq<Flag>)
    ensures |flipped| == |flags|
    ensures forall i :: 0 <= i < |flags| ==> flipped[i] == FlipFlag(flags[i])
  {
    seq(|flags|, i requires 0 <= i < |flags| => FlipFlag(flags[i]))
  }

  function FlipPrice(p: Option<real>, k: real): Option<real> {
    if p.None? then None else Some(k - p.value)
  }

  function FlipBar(b: Option<Bar>, k: real): Option<Bar> {
    if b.None? then None else Some(Flip(b.value, k))
  }

  /** The reflected outcome: sides, levels and prices swap; times, reason and points stay. (Percentages depend
      on the price level and are not part of the value.) */
  function FlipDay(v: DayValue, k: real): DayValue {
    DayValue(FlipBar(v.base, k), FlipBar(v.secondLast, k),
             if v.side.None? then None else Some(FlipSide(v.side.value)), v.breakoutTime,
             FlipPrice(v.entryPrice, k), FlipPrice(v.stopLoss, k), v.exitTime, FlipPrice(v.exitPrice, k),
             v.exitReason, v.pnlPoints, FlipFlags(v.flags))
  }

  // ---- Selections commute with reflection ------------------------------------------------

  lemma FlipPrefix(bars: seq<Bar>, k: real, n: nat)
    requires n <= |bars|
    ensures FlipAll(bars, k)[..n] == FlipAll(bars[..n], k)
    ensures FlipAll(bars, k)[n..] == FlipAll(bars[n..], k)
  {
  }

  lemma {:induction false} FlipByStart(bars: seq<Bar>, k: real)
    ensures ByStart(FlipAll(bars, k)).Keys == ByStart(bars).Keys
    ensures forall t :: t in ByStart(bars) ==> ByStart(FlipAll(bars, k))[t] == Flip(ByStart(bars)[t], k)
  {
    if bars != [] {
      FlipByStart(bars[..|bars| - 1], k);
      FlipPrefix(bars, k, |bars| - 1);
    }
  }

  lemma {:induction false} FlipBetween(m: map<int, Bar>, w: map<int, Bar>, lo: int, hi: int, k: real)
    requires m.Keys == w.Keys && forall t :: t in m ==> w[t] == Flip(m[t], k)
    ensures Between(w, lo, hi) == FlipAll(Between(m, lo, hi), k)
    decreases hi - lo
  {
    if hi >= lo {
      FlipBetween(m, w, lo, hi - 1, k);
    }
  }

  lemma FlipBreaks(b: Bar, base: Bar, k: real)
    ensures Breaks(Flip(b, k), Flip(base, k)) == Breaks(b, base)
  {
  }

  lemma FlipFirstBreak(after: seq<Bar>, base: Bar, k: real)
    ensures FirstBreak(FlipAll(after, k), Flip(base, k)) == FirstBreak(after, base)
  {
    var mask, flipped := BreakMask(after, base), BreakMask(FlipAll(after, k), Flip(base, k));
    forall i | 0 <= i < |after|
      ensures flipped[i] == mask[i]
    {
      FlipBreaks(after[i], base, k);
    }
    assert flipped == mask;
  }

  lemma FlipAtStop(side: Side, stop: real, b: Bar, k: real)
    requires side != BothSides
    ensures AtStop(FlipSide(side), k - stop, Flip(b, k)) == AtStop(side, stop, b)
  {
  }

  lemma FlipFirstStop(bars: seq<Bar>, side: Side, stop: real, k: real)
    requires side != BothSides
    ensures FirstStop(FlipAll(bars, k), FlipSide(side), k - stop) == FirstStop(bars, side, stop)
  {
    var mask, flipped := StopMask(bars, side, stop), StopMask(FlipAll(bars, k), FlipSide(side), k - stop);
    forall i | 0 <= i < |bars|
      ensures flipped[i] == mask[i]
    {
      FlipAtStop(side, stop, bars[i], k);
    }
    assert flipped == mask;
  }

  lemma {:induction false} FlipInsert(sorted: seq<Bar>, b: Bar, k: real)
    ensures Insert(FlipAll(sorted, k), Flip(b, k)) == FlipAll(Insert(sorted, b), k)
  {
    if sorted == [] || sorted[|sorted| - 1].t <= b.t {
    } else {
      FlipPrefix(sorted, k, |sorted| - 1);
      FlipInsert(sorted[..|sorted| - 1], b, k);
    }
  }

  lemma {:induction false} FlipWindowUpTo(minutes: seq<Bar>, n: nat, lo: int, hi: int, k: real)
    requires n <= |minutes|
    ensures WindowUpTo(FlipAll(minutes, k), n, lo, hi) == FlipAll(WindowUpTo(minutes, n, lo, hi), k)
  {
    if n > 0 {
      FlipWindowUpTo(minutes, n - 1, lo, hi, k);
      FlipInsert(WindowUpTo(minutes, n - 1, lo, hi), minutes[n - 1], k);
    }
  }

  lemma FlipWindow(minutes: seq<Bar>, lo: int, hi: int, k: real)
    ensures Window(FlipAll(minutes, k), lo, hi) == FlipAll(Window(minutes, lo, hi), k)
  {
    FlipWindowUpTo(minutes, |minutes|, lo, hi, k);
  }

  /** A minute through both ends that opened exactly halfway between them: the one decision that is not symmetric. */
  predicate AtMidpoint(res: Resolution, base: Bar) {
    res.tie && base.h - res.minute.o == res.minute.o - base.l
  }

  function FlipResolution(res: Resolution, k: real): Resolution {
    Resolution(FlipSide(res.side), Flip(res.minute, k), res.tie)
  }

  /** What reflection makes of the minutes' decision: the mirrored one, save for the tie. */
  predicate ResolvesAlike(res: Option<Resolution>, flipped: Option<Resolution>, base: Bar, k: real) {
    if res.None? then flipped.None?
    else
      && res.value.side != BothSides
      && if AtMidpoint(res.value, base) then flipped.Some? && flipped.value.side == res.value.side == Call
         else flipped == Some(FlipResolution(res.value, k))
  }

  lemma FlipMinute(m: Bar, base: Bar, k: real)
    requires base.l <= base.h
    ensures ResolvesAlike(ResolveMinute(m, base), ResolveMinute(Flip(m, k), Flip(base, k)), base, k)
  {
  }

  lemma FlipResolve(window: seq<Bar>, base: Bar, k: real)
    requires base.l <= base.h
    ensures ResolvesAlike(Resolve(window, base), Resolve(FlipAll(window, k), Flip(base, k)), base, k)
  {
    FlipFirstBreak(window, base, k);
    var i := FirstBreak(window, base);
    if i.Some? {
      FlipMinute(window[i.value], base, k);
    }
  }

  // ---- Outcomes and records commute with reflection --------------------------------------

  function FlipOutcome(o: Outcome, k: real): Outcome {
    match o
    case Quiet(missing) => o
    case Unordered(b) => Unordered(Flip(b, k))
    case InOneCandle(b, res, stop) => InOneCandle(Flip(b, k), FlipResolution(res, k), FlipBar(stop, k))
    case Stopped(b, side, at) => Stopped(Flip(b, k), FlipSide(side), Flip(at, k))
    case TimedOut(b, side, last, missing) => TimedOut(Flip(b, k), FlipSide(side), Flip(last, k), missing)
  }

  /** The minutes tie at the midpoint of the base candle: the one decision that is not symmetric. */
  predicate MidpointTie(base: Bar, o: Outcome) {
    o.InOneCandle? && AtMidpoint(o.res, base)
  }

  lemma WithinCandleIs(base: Bar, b: Bar, minutes: seq<Bar>, barMinutes: int, res: Option<Resolution>, rest: seq<Bar>)
    requires res == Searched(base, b, minutes, barMinutes) && rest == Remaining(b, minutes, barMinutes, res)
    ensures WithinCandle(base, b, minutes, barMinutes) == Decided(base, b, res, rest)
  {
  }

  /** The minutes are silent, tied, or order the candle. */
  lemma FlipDecided(base: Bar, b: Bar, res: Option<Resolution>, flipped: Option<Resolution>, rest: seq<Bar>, flippedRest: seq<Bar>, k: real)
    requires ResolvesAlike(res, flipped, base, k)
    requires res.Some? && !AtMidpoint(res.value, base) ==> flippedRest == FlipAll(rest, k)
    ensures MirroredUnlessTied(base, Decided(base, b, res, rest), Decided(Flip(base, k), Flip(b, k), flipped, flippedRest), k)
  {
    if res.Some? && !AtMidpoint(res.value, base) {
      FlipFirstStop(rest, res.value.side, StopOf(res.value.side, base), k);
    }
  }

  lemma FlipRemaining(b: Bar, minutes: seq<Bar>, barMinutes: int, res: Resolution, k: real)
    ensures Remaining(Flip(b, k), FlipAll(minutes, k), barMinutes, Some(FlipResolution(res, k)))
            == FlipAll(Remaining(b, minutes, barMinutes, Some(res)), k)
  {
    FlipWindow(minutes, res.minute.t, b.t + barMinutes, k);
  }

  lemma FlipSearched(base: Bar, b: Bar, minutes: seq<Bar>, barMinutes: int, k: real)
    requires base.l <= base.h
    ensures ResolvesAlike(Searched(base, b, minutes, barMinutes),
                          Searched(Flip(base, k), Flip(b, k), FlipAll(minutes, k), barMinutes), base, k)
  {
    var window := Window(minutes, b.t, b.t + barMinutes);
    FlipWindow(minutes, b.t, b.t + barMinutes, k);
    FlipResolve(window, base, k);
    SearchedIs(base, b, minutes, barMinutes, window);
    SearchedIs(Flip(base, k), Flip(b, k), FlipAll(minutes, k), barMinutes, FlipAll(window, k));
  }

  lemma SearchedIs(base: Bar, b: Bar, minutes: seq<Bar>, barMinutes: int, window: seq<Bar>)
    requires window == Window(minutes, b.t, b.t + barMinutes)
    ensures Searched(base, b, minutes, barMinutes) == Resolve(window, base)
  {
  }

  lemma FlipWithinCandle(base: Bar, b: Bar, minutes: seq<Bar>, barMinutes: int, k: real)
    requires base.l <= base.h
    ensures MirroredUnlessTied(base, WithinCandle(base, b, minutes, barMinutes),
                               WithinCandle(Flip(base, k), Flip(b, k), FlipAll(minutes, k), barMinutes), k)
  {
    var res, flipped := Searched(base, b, minutes, barMinutes), Searched(Flip(base, k), Flip(b, k), FlipAll(minutes, k), barMinutes);
    var rest := Remaining(b, minutes, barMinutes, res);
    var flippedRest := Remaining(Flip(b, k), FlipAll(minutes, k), barMinutes, flipped);
    FlipSearched(base, b, minutes, barMinutes, k);
    if res.Some? && !AtMidpoint(res.value, base) {
      FlipRemaining(b, minutes, barMinutes, res.value, k);
    }
    FlipDecided(base, b, res, flipped, rest, flippedRest, k);
    WithinCandleIs(base, b, minutes, barMinutes, res, rest);
    WithinCandleIs(Flip(base, k), Flip(b, k), FlipAll(minutes, k), barMinutes, flipped, flippedRest);
  }

  predicate MirroredUnlessTied(base: Bar, o: Outcome, flipped: Outcome, k: real) {
    && SidesGiven(o)
    && if MidpointTie(base, o) then flipped.InOneCandle? && flipped.res.side == o.res.side == Call
       else flipped == FlipOutcome(o, k)
  }

  predicate OpensInside(b: Bar) {
    b.l <= b.o <= b.h
  }

  lemma FlipPlainSide(b: Bar, base: Bar, k: real)
    requires OpensInside(b) && base.l <= base.h && Breaks(b, base) && !BothEndsInside(b, base)
    ensures PlainSide(Flip(b, k), Flip(base, k)) == FlipSide(PlainSide(b, base))
  {
  }

  lemma HeldIs(base: Bar, held: seq<Bar>, missing: int, side: Side, stop: real, hit: Option<nat>)
    requires |held| > 0 && side == PlainSide(held[0], base) && stop == StopOf(side, base) && hit == FirstStop(held, side, stop)
    ensures Held(base, held, missing) ==
            if hit.Some? then Stopped(held[0], side, held[hit.value]) else TimedOut(held[0], side, held[|held| - 1], missing)
  {
  }

  lemma FlipHeld(base: Bar, held: seq<Bar>, missing: int, k: real)
    requires |held| > 0
    requires OpensInside(held[0]) && base.l <= base.h && Breaks(held[0], base) && !BothEndsInside(held[0], base)
    ensures Held(Flip(base, k), FlipAll(held, k), missing) == FlipOutcome(Held(base, held, missing), k)
  {
    var side := PlainSide(held[0], base);
    var stop := StopOf(side, base);
    var hit := FirstStop(held, side, stop);
    FlipPlainSide(held[0], base, k);
    FlipFirstStop(held, side, stop, k);
    HeldIs(base, held, missing, side, stop, hit);
    HeldIs(Flip(base, k), FlipAll(held, k), missing, FlipSide(side), k - stop, hit);
  }

  lemma FindIs(base: Bar, after: seq<Bar>, minutes: seq<Bar>, s: Settings, first: nat)
    requires s.barMinutes > 0 && FirstBreak(after, base) == Some(first)
    ensures Find(base, after, minutes, s) ==
            if BothEndsInside(after[first], base) then WithinCandle(base, after[first], minutes, s.barMinutes)
            else Held(base, after[first..], s.Missing(after))
  {
  }

  lemma HeldSides(base: Bar, held: seq<Bar>, missing: int)
    requires |held| > 0
    ensures SidesGiven(Held(base, held, missing)) && !Held(base, held, missing).InOneCandle?
  {
  }

  lemma FlipFind(base: Bar, after: seq<Bar>, minutes: seq<Bar>, s: Settings, k: real)
    requires s.barMinutes > 0 && base.l <= base.h
    requires forall i :: 0 <= i < |after| ==> OpensInside(after[i])
    ensures MirroredUnlessTied(base, Find(base, after, minutes, s),
                               Find(Flip(base, k), FlipAll(after, k), FlipAll(minutes, k), s), k)
  {
    FlipFirstBreak(after, base, k);
    var first := FirstBreak(after, base);
    if first.Some? {
      var b := after[first.value];
      FindIs(base, after, minutes, s, first.value);
      FindIs(Flip(base, k), FlipAll(after, k), FlipAll(minutes, k), s, first.value);
      if BothEndsInside(b, base) {
        FlipWithinCandle(base, b, minutes, s.barMinutes, k);
      } else {
        FlipPrefix(after, k, first.value);
        FlipHeld(base, after[first.value..], s.Missing(after), k);
        HeldSides(base, after[first.value..], s.Missing(after));
      }
    }
  }

  lemma FlipAppend(a: seq<Flag>, b: seq<Flag>)
    ensures FlipFlags(a + b) == FlipFlags(a) + FlipFlags(b)
  {
  }

  lemma FlipGaps(side: Side, base: Bar, b: Bar, k: real)
    requires side != BothSides
    ensures Gapped(FlipSide(side), StopOf(FlipSide(side), Flip(base, k)), Flip(b, k)) == Gapped(side, StopOf(side, base), b)
    ensures GapEntered(FlipSide(side), Flip(base, k), Flip(b, k)) == GapEntered(side, base, b)
  {
  }

  lemma FlipFlagsInOne(base: Bar, b: Bar, res: Resolution, stop: Option<Bar>, s: Settings, k: real)
    requires res.side != BothSides
    ensures var o := InOneCandle(b, res, stop); FlagsOf(Flip(base, k), FlipOutcome(o, k), s) == FlipFlags(FlagsOf(base, o, s))
  {
    var head := [BreakoutTimeIsCandleStart, ResolvedOnMinutes(res.side)];
    var tie := if res.tie then [AmbiguousMinute] else [];
    var fill := if stop.None? then [StopAssumed] else if Gapped(res.side, StopOf(res.side, base), stop.value) then [MinuteStopGapped] else [];
    if stop.Some? {
      FlipGaps(res.side, base, stop.value, k);
    }
    FlipAppend(head + tie, fill);
    FlipAppend(head, tie);
    assert FlipFlags(head) == [BreakoutTimeIsCandleStart, ResolvedOnMinutes(FlipSide(res.side))];
    assert FlipFlags(tie) == tie && FlipFlags(fill) == fill;
  }

  lemma PlainFlags(flags: seq<Flag>)
    requires forall i :: 0 <= i < |flags| ==> !flags[i].ResolvedOnMinutes?
    ensures FlipFlags(flags) == flags
  {
  }

  lemma PlainHeldFlags(gapEntry: bool, atExit: seq<Flag>)
    requires forall i :: 0 <= i < |atExit| ==> !atExit[i].ResolvedOnMinutes?
    ensures FlipFlags(HeldFlags(gapEntry, atExit)) == HeldFlags(gapEntry, atExit)
  {
    PlainFlags(HeldFlags(gapEntry, atExit));
  }

  lemma StoppedFlags(base: Bar, b: Bar, side: Side, at: Bar, s: Settings, gapEntry: bool, atExit: seq<Flag>)
    requires gapEntry == GapEntered(side, base, b)
    requires atExit == if Gapped(side, StopOf(side, base), at) then [StopGapped] else []
    ensures FlagsOf(base, Stopped(b, side, at), s) == HeldFlags(gapEntry, atExit)
  {
  }

  lemma FlipFlagsStopped(base: Bar, b: Bar, side: Side, at: Bar, s: Settings, k: real)
    requires side != BothSides
    ensures var o := Stopped(b, side, at); FlagsOf(Flip(base, k), FlipOutcome(o, k), s) == FlipFlags(FlagsOf(base, o, s))
  {
    var gapEntry := GapEntered(side, base, b);
    var atExit := if Gapped(side, StopOf(side, base), at) then [StopGapped] else [];
    FlipGaps(side, base, b, k);
    FlipGaps(side, base, at, k);
    PlainHeldFlags(gapEntry, atExit);
    StoppedFlags(base, b, side, at, s, gapEntry, atExit);
    StoppedFlags(Flip(base, k), Flip(b, k), FlipSide(side), Flip(at, k), s, gapEntry, atExit);
  }

  lemma TimedOutFlags(base: Bar, b: Bar, side: Side, last: Bar, missing: int, s: Settings, gapEntry: bool, atExit: seq<Flag>)
    requires gapEntry == GapEntered(side, base, b)
    requires atExit == if last.t == s.LastStart() && missing == 0 then [] else [NotVerifiedExit(missing)]
    ensures FlagsOf(base, TimedOut(b, side, last, missing), s) == HeldFlags(gapEntry, atExit)
  {
  }

  lemma FlipFlagsTimedOut(base: Bar, b: Bar, side: Side, last: Bar, missing: int, s: Settings, k: real)
    requires side != BothSides
    ensures var o := TimedOut(b, side, last, missing); FlagsOf(Flip(base, k), FlipOutcome(o, k), s) == FlipFlags(FlagsOf(base, o, s))
  {
    var gapEntry := GapEntered(side, base, b);
    var atExit := if last.t == s.LastStart() && missing == 0 then [] else [NotVerifiedExit(missing)];
    FlipGaps(side, base, b, k);
    PlainHeldFlags(gapEntry, atExit);
    TimedOutFlags(base, b, side, last, missing, s, gapEntry, atExit);
    TimedOutFlags(Flip(base, k), Flip(b, k), FlipSide(side), Flip(last, k), missing, s, gapEntry, atExit);
  }

  lemma FlipFlagsOf(base: Bar, o: Outcome, s: Settings, k: real)
    requires SidesGiven(o)
    ensures FlagsOf(Flip(base, k), FlipOutcome(o, k), s) == FlipFlags(FlagsOf(base, o, s))
  {
    match o
    case InOneCandle(b, res, stop) => FlipFlagsInOne(base, b, res, stop, s, k);
    case Stopped(b, side, at) => FlipFlagsStopped(base, b, side, at, s, k);
    case TimedOut(b, side, last, missing) => FlipFlagsTimedOut(base, b, side, last, missing, s, k);
    case _ => PlainFlags(FlagsOf(base, o, s));
  }

  predicate SidesGiven(o: Outcome) {
    match o
    case InOneCandle(b, res, stop) => res.side != BothSides
    case Stopped(b, side, at) => side != BothSides
    case TimedOut(b, side, last, missing) => side != BothSides
    case _ => true
  }

  lemma FlipDescribed(base: Bar, secondLast: Option<Bar>, flags: seq<Flag>, k: real)
    ensures Described(Flip(base, k), FlipBar(secondLast, k), FlipFlags(flags)) == FlipDay(Described(base, secondLast, flags), k)
  {
    var head := if secondLast.None? then [SecondLastMissing] else [];
    assert FlipFlags(head + flags) == head + FlipFlags(flags);
  }

  lemma FlipClosed(d: DayValue, time: int, side: Side, entry: real, stop: real, exitTime: int, exit: real, reason: ExitReason, k: real)
    requires side != BothSides
    ensures FlipDay(Closed(d, time, side, entry, stop, exitTime, exit, reason), k)
            == Closed(FlipDay(d, k), time, FlipSide(side), k - entry, k - stop, exitTime, k - exit, reason)
  {
  }

  lemma FlipLevels(side: Side, base: Bar, b: Bar, k: real)
    requires side != BothSides
    ensures StopOf(FlipSide(side), Flip(base, k)) == k - StopOf(side, base)
    ensures EntryPrice(FlipSide(side), Flip(base, k), Flip(b, k)) == k - EntryPrice(side, base, b)
    ensures StopFill(FlipSide(side), k - StopOf(side, base), Flip(b, k)) == k - StopFill(side, StopOf(side, base), b)
  {
  }

  lemma FlipDescribedOutcome(base: Bar, secondLast: Option<Bar>, o: Outcome, s: Settings, k: real)
    requires SidesGiven(o)
    ensures Described(Flip(base, k), FlipBar(secondLast, k), FlagsOf(Flip(base, k), FlipOutcome(o, k), s))
            == FlipDay(Described(base, secondLast, FlagsOf(base, o, s)), k)
  {
    FlipFlagsOf(base, o, s, k);
    FlipDescribed(base, secondLast, FlagsOf(base, o, s), k);
  }

  lemma RecordInOne(base: Bar, secondLast: Option<Bar>, b: Bar, res: Resolution, stop: Option<Bar>, s: Settings,
                    d: DayValue, entry: real, level: real, exitTime: int, fill: real)
    requires d == Described(base, secondLast, FlagsOf(base, InOneCandle(b, res, stop), s))
    requires entry == EntryPrice(res.side, base, res.minute) && level == StopOf(res.side, base)
    requires exitTime == (if stop.None? then b.t else stop.value.t)
    requires fill == (if stop.None? then level else StopFill(res.side, level, stop.value))
    ensures Record(base, secondLast, InOneCandle(b, res, stop), s) ==
            Closed(d, res.minute.t, res.side, entry, level, exitTime, fill, StopLoss)
  {
  }

  lemma FlipInOneCandle(base: Bar, secondLast: Option<Bar>, b: Bar, res: Resolution, stop: Option<Bar>, s: Settings, k: real)
    requires res.side != BothSides
    ensures var o := InOneCandle(b, res, stop);
            Record(Flip(base, k), FlipBar(secondLast, k), FlipOutcome(o, k), s) == FlipDay(Record(base, secondLast, o, s), k)
  {
    var d := Described(base, secondLast, FlagsOf(base, InOneCandle(b, res, stop), s));
    var entry, level := EntryPrice(res.side, base, res.minute), StopOf(res.side, base);
    var exitTime := if stop.None? then b.t else stop.value.t;
    var fill := if stop.None? then level else StopFill(res.side, level, stop.value);
    FlipDescribedOutcome(base, secondLast, InOneCandle(b, res, stop), s, k);
    FlipLevels(res.side, base, res.minute, k);
    if stop.Some? {
      FlipLevels(res.side, base, stop.value, k);
    }
    RecordInOne(base, secondLast, b, res, stop, s, d, entry, level, exitTime, fill);
    RecordInOne(Flip(base, k), FlipBar(secondLast, k), Flip(b, k), FlipResolution(res, k), FlipBar(stop, k), s,
                FlipDay(d, k), k - entry, k - level, exitTime, k - fill);
    FlipClosed(d, res.minute.t, res.side, entry, level, exitTime, fill, StopLoss, k);
  }

  lemma RecordStopped(base: Bar, secondLast: Option<Bar>, b: Bar, side: Side, at: Bar, s: Settings, d: DayValue, entry: real, stop: real, fill: real)
    requires d == Described(base, secondLast, FlagsOf(base, Stopped(b, side, at), s))
    requires entry == EntryPrice(side, base, b) && stop == StopOf(side, base) && fill == StopFill(side, stop, at)
    ensures Record(base, secondLast, Stopped(b, side, at), s) == Closed(d, b.t, side, entry, stop, at.t, fill, StopLoss)
  {
  }

  lemma FlipStopped(base: Bar, secondLast: Option<Bar>, b: Bar, side: Side, at: Bar, s: Settings, k: real)
    requires side != BothSides
    ensures var o := Stopped(b, side, at);
            Record(Flip(base, k), FlipBar(secondLast, k), FlipOutcome(o, k), s) == FlipDay(Record(base, secondLast, o, s), k)
  {
    var d := Described(base, secondLast, FlagsOf(base, Stopped(b, side, at), s));
    var entry, stop := EntryPrice(side, base, b), StopOf(side, base);
    var fill := StopFill(side, stop, at);
    FlipDescribedOutcome(base, secondLast, Stopped(b, side, at), s, k);
    FlipLevels(side, base, b, k);
    FlipLevels(side, base, at, k);
    RecordStopped(base, secondLast, b, side, at, s, d, entry, stop, fill);
    RecordStopped(Flip(base, k), FlipBar(secondLast, k), Flip(b, k), FlipSide(side), Flip(at, k), s, FlipDay(d, k), k - entry, k - stop, k - fill);
    FlipClosed(d, b.t, side, entry, stop, at.t, fill, StopLoss, k);
  }

  lemma RecordTimedOut(base: Bar, secondLast: Option<Bar>, b: Bar, side: Side, last: Bar, missing: int, s: Settings,
                       d: DayValue, entry: real, stop: real, reason: ExitReason)
    requires d == Described(base, secondLast, FlagsOf(base, TimedOut(b, side, last, missing), s))
    requires entry == EntryPrice(side, base, b) && stop == StopOf(side, base)
    requires reason == if last.t == s.LastStart() && missing == 0 then s.TimeExitReason() else DataEnded
    ensures Record(base, secondLast, TimedOut(b, side, last, missing), s) == Closed(d, b.t, side, entry, stop, last.t, last.c, reason)
  {
  }

  lemma FlipTimedOut(base: Bar, secondLast: Option<Bar>, b: Bar, side: Side, last: Bar, missing: int, s: Settings, k: real)
    requires side != BothSides
    ensures var o := TimedOut(b, side, last, missing);
            Record(Flip(base, k), FlipBar(secondLast, k), FlipOutcome(o, k), s) == FlipDay(Record(base, secondLast, o, s), k)
  {
    var d := Described(base, secondLast, FlagsOf(base, TimedOut(b, side, last, missing), s));
    var entry, stop := EntryPrice(side, base, b), StopOf(side, base);
    var reason := if last.t == s.LastStart() && missing == 0 then s.TimeExitReason() else DataEnded;
    FlipDescribedOutcome(base, secondLast, TimedOut(b, side, last, missing), s, k);
    FlipLevels(side, base, b, k);
    RecordTimedOut(base, secondLast, b, side, last, missing, s, d, entry, stop, reason);
    RecordTimedOut(Flip(base, k), FlipBar(secondLast, k), Flip(b, k), FlipSide(side), Flip(last, k), missing, s,
                   FlipDay(d, k), k - entry, k - stop, reason);
    FlipClosed(d, b.t, side, entry, stop, last.t, last.c, reason, k);
  }

  lemma FlipRecord(base: Bar, secondLast: Option<Bar>, o: Outcome, s: Settings, k: real)
    requires SidesGiven(o)
    ensures Record(Flip(base, k), FlipBar(secondLast, k), FlipOutcome(o, k), s) == FlipDay(Record(base, secondLast, o, s), k)
  {
    match o
    case InOneCandle(b, res, stop) => FlipInOneCandle(base, secondLast, b, res, stop, s, k);
    case Stopped(b, side, at) => FlipStopped(base, secondLast, b, side, at, s, k);
    case TimedOut(b, side, last, missing) => FlipTimedOut(base, secondLast, b, side, last, missing, s, k);
    case _ =>
      FlipFlagsOf(base, o, s, k);
      FlipDescribed(base, secondLast, FlagsOf(base, o, s), k);
  }

  // ---- Whole days ------------------------------------------------------------------------

  lemma RecordSide(base: Bar, secondLast: Option<Bar>, o: Outcome, s: Settings)
    requires o.InOneCandle?
    ensures Record(base, secondLast, o, s).side == Some(o.res.side)
  {
  }

  predicate HasBase(bars: seq<Bar>, s: Settings) {
    s.BaseStart() in ByStart(bars)
  }

  function BaseOf(bars: seq<Bar>, s: Settings): Bar
    requires HasBase(bars, s)
  {
    ByStart(bars)[s.BaseStart()]
  }

  function OutcomeOf(bars: seq<Bar>, minutes: seq<Bar>, s: Settings): Outcome
    requires s.Supported() && HasBase(bars, s)
  {
    Find(BaseOf(bars, s), Between(ByStart(bars), s.FirstEnd(), s.LastStart()), minutes, s)
  }

  function SecondLastOf(bars: seq<Bar>, s: Settings): Option<Bar> {
    if s.SecondLastStart() in ByStart(bars) then Some(ByStart(bars)[s.SecondLastStart()]) else None
  }

  lemma DayIs(bars: seq<Bar>, minutes: seq<Bar>, s: Settings)
    requires s.Supported() && HasBase(bars, s)
    ensures Day(bars, minutes, s) == Record(BaseOf(bars, s), SecondLastOf(bars, s), OutcomeOf(bars, minutes, s), s)
  {
  }

  lemma {:induction false} ByStartFrom(bars: seq<Bar>, t: int)
    requires t in ByStart(bars)
    ensures ByStart(bars)[t] in bars && ByStart(bars)[t].t == t
  {
    if bars[|bars| - 1].t != t {
      ByStartFrom(bars[..|bars| - 1], t);
    }
  }

  lemma {:induction false} BetweenFrom(bars: seq<Bar>, lo: int, hi: int)
    ensures forall i :: 0 <= i < |Between(ByStart(bars), lo, hi)| ==> Between(ByStart(bars), lo, hi)[i] in bars
    decreases hi - lo
  {
    if lo <= hi {
      BetweenFrom(bars, lo, hi - 1);
      if hi in ByStart(bars) {
        ByStartFrom(bars, hi);
      }
    }
  }

  lemma FlipDayParts(bars: seq<Bar>, s: Settings, k: real)
    requires s.Supported()
    ensures HasBase(FlipAll(bars, k), s) <==> HasBase(bars, s)
    ensures HasBase(bars, s) ==> BaseOf(FlipAll(bars, k), s) == Flip(BaseOf(bars, s), k)
    ensures SecondLastOf(FlipAll(bars, k), s) == FlipBar(SecondLastOf(bars, s), k)
    ensures Between(ByStart(FlipAll(bars, k)), s.FirstEnd(), s.LastStart())
            == FlipAll(Between(ByStart(bars), s.FirstEnd(), s.LastStart()), k)
  {
    FlipByStart(bars, k);
    FlipBetween(ByStart(bars), ByStart(FlipAll(bars, k)), s.FirstEnd(), s.LastStart(), k);
  }
}
