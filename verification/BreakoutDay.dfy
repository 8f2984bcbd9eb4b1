/** One day of the opening-candle breakout (engine.py), as a value: what the day amounts to. */
module BreakoutDay {
  import opened Common

  /** A candle; `t` is its start in minutes of the day. */
  datatype Bar = Bar(t: int, o: real, h: real, l: real, c: real)

  const SESSION_OPEN_MIN := 9 * 60 + 15
  const SESSION_CLOSE_MIN := 15 * 60 + 30
  const MINUTES_PER_DAY := 24 * 60

  datatype Side = Call | Put | BothSides

  datatype ExitReason = StopLoss | MarketClose | NoEntry | DataIncomplete | SecondLastClose | TimedExit | DataEnded

  datatype ExitMode = AtClose | AtSecondLast

  datatype Color = Green | Red | Doji

  datatype Flag =
    | BaseMissing
    | SecondLastMissing
    | BreakoutNotRuledOut(missing: int)
    | BreakoutTimeIsCandleStart
    | AmbiguousCandle
    | ResolvedOnMinutes(side: Side)
    | AmbiguousMinute
    | StopAssumed
    | MinuteStopGapped
    | GapEntry
    | StopGapped
    | NotVerifiedExit(missing: int)

  datatype Settings = Settings(exitMode: ExitMode, barMinutes: int, entryStart: Option<int>, exitStart: Option<int>)
  {
    predicate Supported() {
      (barMinutes == 5 || barMinutes == 15) && BaseStart() + barMinutes < MINUTES_PER_DAY
    }

    function BaseStart(): int {
      if entryStart.Some? then entryStart.value else SESSION_OPEN_MIN
    }

    function FirstEnd(): int {
      BaseStart() + barMinutes
    }

    function SecondLastStart(): int {
      SESSION_CLOSE_MIN - 2 * barMinutes
    }

    function LastCandleStart(): int {
      SESSION_CLOSE_MIN - barMinutes
    }

    /** Start of the candle whose close is the time exit. */
    function LastStart(): int {
      if exitStart.Some? then exitStart.value
      else if exitMode == AtSecondLast then SecondLastStart() else LastCandleStart()
    }

    function Missing(after: seq<Bar>): int
      requires barMinutes > 0
    {
      (LastStart() - FirstEnd()) / barMinutes + 1 - |after|
    }

    function TimeExitReason(): ExitReason {
      if exitStart.Some? && exitStart.value != LastCandleStart() then TimedExit
      else if LastStart() == LastCandleStart() then MarketClose else SecondLastClose
    }
  }

  /** What a day amounts to. The descriptive columns of the result (open, high, low, close and range of the
      base candle, the second-last close and its change, percentages) are read off these fields. */
  datatype DayValue = DayValue(
    base: Option<Bar>,
    secondLast: Option<Bar>,
    side: Option<Side>,
    breakoutTime: Option<int>,
    entryPrice: Option<real>,
    stopLoss: Option<real>,
    exitTime: Option<int>,
    exitPrice: Option<real>,
    exitReason: ExitReason,
    pnlPoints: Option<real>,
    flags: seq<Flag>)
  {
    function FirstRangePct(): Option<real> {
      if base.None? then None else Pct(base.value.h - base.value.l, base.value.o)
    }

    function FirstDirection(): Option<Color> {
      if base.None? then None else Some(Direction(base.value.o, base.value.c))
    }

    function SecondLastChangePct(): Option<real> {
      if secondLast.None? then None else Pct(secondLast.value.c - secondLast.value.o, secondLast.value.o)
    }

    /** Percent of the entry price, or of the base open when no entry price is known. */
    function PnlPct(): Option<real> {
      if pnlPoints.None? then None
      else if entryPrice.Some? then Pct(pnlPoints.value, entryPrice.value)
      else if base.Some? then Pct(pnlPoints.value, base.value.o) else None
    }
  }

  const BLANK := DayValue(None, None, None, None, None, None, None, None, NoEntry, None, [])

  function Direction(o: real, c: real): Color {
    if c > o then Green else if c < o then Red else Doji
  }

  function Pct(part: real, whole: real): Option<real> {
    if whole == 0.0 then None else Some(part / whole * 100.0)
  }

  // ---- Selecting candles -----------------------------------------------------------------

  /** Candles by start time; of two with the same start the later one in the list wins. */
  function ByStart(bars: seq<Bar>): map<int, Bar> {
    if bars == [] then map[] else ByStart(bars[..|bars| - 1])[bars[|bars| - 1].t := bars[|bars| - 1]]
  }

  /** The candles starting at `lo..hi`, in time order. */
  function Between(byStart: map<int, Bar>, lo: int, hi: int): seq<Bar>
    decreases hi - lo
  {
    if hi < lo then []
    else Between(byStart, lo, hi - 1) + (if hi in byStart then [byStart[hi]] else [])
  }

  predicate Breaks(b: Bar, base: Bar) {
    b.h > base.h || b.l < base.l
  }

  /** The position of the first yes among the first `n`. */
  function FirstAmong(mask: seq<bool>, n: nat): (i: Option<nat>)
    requires n <= |mask|
    ensures i.Some? ==> i.value < n && mask[i.value]
  {
    if n == 0 then None
    else if FirstAmong(mask, n - 1).Some? then FirstAmong(mask, n - 1)
    else if mask[n - 1] then Some(n - 1) else None
  }

  function FirstTrue(mask: seq<bool>): (i: Option<nat>)
    ensures i.Some? ==> i.value < |mask| && mask[i.value]
  {
    FirstAmong(mask, |mask|)
  }

  /** Nothing before it says yes. */
  lemma {:induction false} FirstIsFirst(mask: seq<bool>, n: nat)
    requires n <= |mask|
    ensures var i := FirstAmong(mask, n); forall k :: 0 <= k < (if i.Some? then i.value else n) ==> !mask[k]
  {
    if n > 0 {
      FirstIsFirst(mask, n - 1);
    }
  }

  lemma FirstTrueIsFirst(mask: seq<bool>)
    ensures var i := FirstTrue(mask); forall k :: 0 <= k < (if i.Some? then i.value else |mask|) ==> !mask[k]
  {
    FirstIsFirst(mask, |mask|);
  }

  function BreakMask(after: seq<Bar>, base: Bar): (mask: seq<bool>)
    ensures |mask| == |after| && forall k :: 0 <= k < |after| ==> mask[k] == Breaks(after[k], base)
  {
    seq(|after|, k requires 0 <= k < |after| => Breaks(after[k], base))
  }

  /** Index of the first candle that breaks out of the base candle. */
  function FirstBreak(after: seq<Bar>, base: Bar): (i: Option<nat>)
    ensures i.Some? ==> i.value < |after| && Breaks(after[i.value], base)
  {
    FirstTrue(BreakMask(after, base))
  }

  /** A candle at or through the stop. */
  predicate AtStop(side: Side, stop: real, b: Bar) {
    if side == Call then b.l <= stop else b.h >= stop
  }

  function StopMask(bars: seq<Bar>, side: Side, stop: real): (mask: seq<bool>)
    ensures |mask| == |bars| && forall k :: 0 <= k < |bars| ==> mask[k] == AtStop(side, stop, bars[k])
  {
    seq(|bars|, k requires 0 <= k < |bars| => AtStop(side, stop, bars[k]))
  }

  /** Index of the first candle at or through the stop. */
  function FirstStop(bars: seq<Bar>, side: Side, stop: real): (i: Option<nat>)
    ensures i.Some? ==> i.value < |bars| && AtStop(side, stop, bars[i.value])
  {
    FirstTrue(StopMask(bars, side, stop))
  }

  /** There is only one first. */
  lemma FirstTrueIs(mask: seq<bool>, i: Option<nat>)
    requires i.Some? ==> i.value < |mask| && mask[i.value]
    requires forall k :: 0 <= k < (if i.Some? then i.value else |mask|) ==> !mask[k]
    ensures FirstTrue(mask) == i
  {
    FirstTrueIsFirst(mask);
  }

  /** No earlier candle breaks out. */
  lemma FirstBreakIsFirst(after: seq<Bar>, base: Bar)
    ensures var i := FirstBreak(after, base);
            forall k :: 0 <= k < (if i.Some? then i.value else |after|) ==> !Breaks(after[k], base)
  {
    var mask := BreakMask(after, base);
    FirstTrueIsFirst(mask);
    assert forall k :: 0 <= k < |after| && !mask[k] ==> !Breaks(after[k], base);
  }

  /** No earlier candle reaches the stop. */
  lemma FirstStopIsFirst(bars: seq<Bar>, side: Side, stop: real)
    ensures var i := FirstStop(bars, side, stop);
            forall k :: 0 <= k < (if i.Some? then i.value else |bars|) ==> !AtStop(side, stop, bars[k])
  {
    var mask := StopMask(bars, side, stop);
    FirstTrueIsFirst(mask);
    assert forall k :: 0 <= k < |bars| && !mask[k] ==> !AtStop(side, stop, bars[k]);
  }

  /** A stop fills at the candle's open when that is already beyond it. */
  predicate Gapped(side: Side, stop: real, b: Bar) {
    if side == Call then b.o < stop else b.o > stop
  }

  function StopFill(side: Side, stop: real, b: Bar): real {
    if Gapped(side, stop, b) then b.o else stop
  }

  /** Stable insertion by start time. */
  function Insert(sorted: seq<Bar>, b: Bar): seq<Bar> {
    if sorted == [] || sorted[|sorted| - 1].t <= b.t then sorted + [b]
    else Insert(sorted[..|sorted| - 1], b) + [sorted[|sorted| - 1]]
  }

  /** Of the first `n` minutes those of `[lo, hi)` in time order, equal times in their given order. */
  function WindowUpTo(minutes: seq<Bar>, n: nat, lo: int, hi: int): seq<Bar>
    requires n <= |minutes|
  {
    if n == 0 then []
    else
      var before := WindowUpTo(minutes, n - 1, lo, hi);
      if lo <= minutes[n - 1].t < hi then Insert(before, minutes[n - 1]) else before
  }

  /** The minutes of `[lo, hi)` in time order. */
  function Window(minutes: seq<Bar>, lo: int, hi: int): seq<Bar> {
    WindowUpTo(minutes, |minutes|, lo, hi)
  }

  // ---- Ordering a candle that broke both ends --------------------------------------------

  datatype Resolution = Resolution(side: Side, minute: Bar, tie: bool)

  /** What one minute says about which end broke first. */
  function ResolveMinute(m: Bar, base: Bar): Option<Resolution> {
    var up, down := m.h > base.h, m.l < base.l;
    if up && down then
      if m.o > base.h then Some(Resolution(Call, m, false))
      else if m.o < base.l then Some(Resolution(Put, m, false))
      else Some(Resolution(if base.h - m.o <= m.o - base.l then Call else Put, m, true))
    else if up then Some(Resolution(Call, m, false))
    else if down then Some(Resolution(Put, m, false))
    else None
  }

  /** The first minute of the candle that breaks either end decides. */
  function Resolve(window: seq<Bar>, base: Bar): Option<Resolution> {
    var i := FirstBreak(window, base);
    if i.None? then None else ResolveMinute(window[i.value], base)
  }

  // ---- The day ---------------------------------------------------------------------------

  function Points(side: Side, entry: real, exit: real): real {
    if side == Call then exit - entry else entry - exit
  }

  /** Entry at the broken end, or at the open when the candle already opened beyond it. */
  function EntryPrice(side: Side, base: Bar, b: Bar): real {
    if side == Call then Max(b.o, base.h) else Min(b.o, base.l)
  }

  function StopOf(side: Side, base: Bar): real {
    if side == Call then base.l else base.h
  }

  predicate BothEndsInside(b: Bar, base: Bar) {
    b.h > base.h && b.l < base.l && base.l <= b.o <= base.h
  }

  /** The side of a candle that does not need minutes to be ordered. */
  function PlainSide(b: Bar, base: Bar): Side {
    if b.o > base.h || (b.h > base.h && !(b.l < base.l)) then Call else Put
  }

  /** What happened, in terms of the candles that decided it. */
  datatype Outcome =
    | Quiet(missing: int)
    | Unordered(b: Bar)                                         // both ends, minutes silent
    | InOneCandle(b: Bar, res: Resolution, stop: Option<Bar>)   // both ends, ordered by minutes
    | Stopped(b: Bar, side: Side, at: Bar)
    | TimedOut(b: Bar, side: Side, last: Bar, missing: int)

  /** The side the minutes of a candle give it, if they do. */
  function Searched(base: Bar, b: Bar, minutes: seq<Bar>, barMinutes: int): Option<Resolution> {
    Resolve(Window(minutes, b.t, b.t + barMinutes), base)
  }

  /** The minutes from the deciding one on. */
  function Remaining(b: Bar, minutes: seq<Bar>, barMinutes: int, res: Option<Resolution>): seq<Bar> {
    if res.None? then [] else Window(minutes, res.value.minute.t, b.t + barMinutes)
  }

  /** Once the side is known the stop is the first remaining minute at or through it, unless one is missing. */
  function Decided(base: Bar, b: Bar, res: Option<Resolution>, rest: seq<Bar>): Outcome {
    match res
    case None => Unordered(b)
    case Some(r) =>
      var hit := FirstStop(rest, r.side, StopOf(r.side, base));
      InOneCandle(b, r, if hit.Some? then Some(rest[hit.value]) else None)
  }

  /** A candle that opened inside the base candle and traded through both of its ends: the other end was touched
      in the same candle, so the stop is among the remaining minutes. */
  function WithinCandle(base: Bar, b: Bar, minutes: seq<Bar>, barMinutes: int): Outcome {
    var res := Searched(base, b, minutes, barMinutes);
    Decided(base, b, res, Remaining(b, minutes, barMinutes, res))
  }

  /** Any other breakout: hold until the stop or the time exit; the entry candle itself can already hit the stop. */
  function Held(base: Bar, held: seq<Bar>, missing: int): Outcome
    requires |held| > 0
  {
    var side := PlainSide(held[0], base);
    match FirstStop(held, side, StopOf(side, base))
    case Some(k) => Stopped(held[0], side, held[k])
    case None => TimedOut(held[0], side, held[|held| - 1], missing)
  }

  function Find(base: Bar, after: seq<Bar>, minutes: seq<Bar>, s: Settings): Outcome
    requires s.barMinutes > 0
  {
    match FirstBreak(after, base)
    case None => Quiet(s.Missing(after))
    case Some(i) =>
      if BothEndsInside(after[i], base) then WithinCandle(base, after[i], minutes, s.barMinutes)
      else Held(base, after[i..], s.Missing(after))
  }

  // ---- The record of the day -------------------------------------------------------------

  function Described(base: Bar, secondLast: Option<Bar>, flags: seq<Flag>): DayValue {
    BLANK.(base := Some(base), secondLast := secondLast, flags := (if secondLast.None? then [SecondLastMissing] else []) + flags)
  }

  /** A position with its levels and its exit. */
  function Closed(d: DayValue, time: int, side: Side, entry: real, stop: real, exitTime: int, exit: real, reason: ExitReason): DayValue {
    d.(breakoutTime := Some(time), side := Some(side), entryPrice := Some(entry), stopLoss := Some(stop),
       exitTime := Some(exitTime), exitPrice := Some(exit), exitReason := reason, pnlPoints := Some(Points(side, entry, exit)))
  }

  predicate GapEntered(side: Side, base: Bar, b: Bar) {
    if side == Call then b.o > base.h else b.o < base.l
  }

  function HeldFlags(gapEntry: bool, atExit: seq<Flag>): seq<Flag> {
    [BreakoutTimeIsCandleStart] + (if gapEntry then [GapEntry] else []) + atExit
  }

  function FlagsOf(base: Bar, o: Outcome, s: Settings): seq<Flag> {
    match o
    case Quiet(missing) => if missing != 0 then [BreakoutNotRuledOut(missing)] else []
    case Unordered(b) => [BreakoutTimeIsCandleStart, AmbiguousCandle]
    case InOneCandle(b, res, stop) =>
      [BreakoutTimeIsCandleStart, ResolvedOnMinutes(res.side)]
      + (if res.tie then [AmbiguousMinute] else [])
      + (if stop.None? then [StopAssumed] else if Gapped(res.side, StopOf(res.side, base), stop.value) then [MinuteStopGapped] else [])
    case Stopped(b, side, at) =>
      HeldFlags(GapEntered(side, base, b), if Gapped(side, StopOf(side, base), at) then [StopGapped] else [])
    case TimedOut(b, side, last, missing) =>
      HeldFlags(GapEntered(side, base, b), if last.t == s.LastStart() && missing == 0 then [] else [NotVerifiedExit(missing)])
  }

  function Record(base: Bar, secondLast: Option<Bar>, o: Outcome, s: Settings): DayValue {
    var d := Described(base, secondLast, FlagsOf(base, o, s));
    match o
    case Quiet(missing) => d
    case Unordered(b) =>  // the base range is taken as lost
      d.(breakoutTime := Some(b.t), side := Some(BothSides), exitTime := Some(b.t), exitReason := StopLoss,
         pnlPoints := Some(-(base.h - base.l)))
    case InOneCandle(b, res, stop) =>
      var level := StopOf(res.side, base);
      Closed(d, res.minute.t, res.side, EntryPrice(res.side, base, res.minute), level,
             if stop.None? then b.t else stop.value.t,
             if stop.None? then level else StopFill(res.side, level, stop.value), StopLoss)
    case Stopped(b, side, at) =>
      var level := StopOf(side, base);
      Closed(d, b.t, side, EntryPrice(side, base, b), level, at.t, StopFill(side, level, at), StopLoss)
    case TimedOut(b, side, last, missing) =>
      Closed(d, b.t, side, EntryPrice(side, base, b), StopOf(side, base), last.t, last.c,
             if last.t == s.LastStart() && missing == 0 then s.TimeExitReason() else DataEnded)
  }

  function Day(bars: seq<Bar>, minutes: seq<Bar>, s: Settings): DayValue
    requires s.Supported()
  {
    var byStart := ByStart(bars);
    if s.BaseStart() !in byStart then BLANK.(exitReason := DataIncomplete, flags := [BaseMissing])
    else
      var base := byStart[s.BaseStart()];
      Record(base, if s.SecondLastStart() in byStart then Some(byStart[s.SecondLastStart()]) else None,
             Find(base, Between(byStart, s.FirstEnd(), s.LastStart()), minutes, s), s)
  }
}
