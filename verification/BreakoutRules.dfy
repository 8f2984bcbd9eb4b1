/** The rules of the breakout day (engine.py:3-21), read off its candles and minutes, and that every day obeys them. */
module BreakoutRules {
  import opened Common
  import opened BreakoutDay
  import opened BreakoutMirror
  import opened BreakoutTie

  // ---- Which candles count ---------------------------------------------------------------

  /** `b` is the last of the given candles with its start. */
  ghost predicate Counts(bars: seq<Bar>, b: Bar) {
    exists i :: 0 <= i < |bars| && bars[i] == b && forall j :: i < j < |bars| ==> bars[j].t != b.t
  }

  ghost predicate StartsAt(bars: seq<Bar>, t: int) {
    exists i :: 0 <= i < |bars| && bars[i].t == t
  }

  /** One more bar counts itself and leaves those with another start as they are. */
  lemma CountsAppend(front: seq<Bar>, last: Bar, t: int)
    ensures Counts(front + [last], last)
    ensures StartsAt(front + [last], t) <==> last.t == t || StartsAt(front, t)
    ensures forall b :: Counts(front, b) && b.t != last.t ==> Counts(front + [last], b)
  {
    var bars := front + [last];
    assert bars[|front|] == last;
    if i :| 0 <= i < |front| && front[i].t == t {
      assert bars[i].t == t;
    }
    forall b | Counts(front, b) && b.t != last.t
      ensures Counts(bars, b)
    {
      var i :| 0 <= i < |front| && front[i] == b && forall j :: i < j < |front| ==> front[j].t != b.t;
      assert bars[i] == b && forall j :: i < j < |front| ==> bars[j] == front[j];
    }
  }

  lemma {:induction false} ByStartCounts(bars: seq<Bar>, t: int)
    ensures t in ByStart(bars) <==> StartsAt(bars, t)
    ensures t in ByStart(bars) ==> Counts(bars, ByStart(bars)[t]) && ByStart(bars)[t].t == t
  {
    if bars != [] {
      hide Counts, StartsAt;
      var front, last := bars[..|bars| - 1], bars[|bars| - 1];
      assert bars == front + [last];
      ByStartCounts(front, t);
      CountsAppend(front, last, t);
    }
  }

  lemma OneCounts(bars: seq<Bar>, a: Bar, b: Bar)
    requires Counts(bars, a) && Counts(bars, b) && a.t == b.t
    ensures a == b
  {
  }

  lemma {:induction false} BetweenMembers(byStart: map<int, Bar>, lo: int, hi: int)
    requires forall t :: t in byStart ==> byStart[t].t == t
    ensures var after := Between(byStart, lo, hi);
            && (forall b :: b in after <==> lo <= b.t <= hi && b.t in byStart && byStart[b.t] == b)
            && (forall i, j :: 0 <= i < j < |after| ==> after[i].t < after[j].t)
    decreases hi - lo
  {
    if lo <= hi {
      BetweenMembers(byStart, lo, hi - 1);
      var before := Between(byStart, lo, hi - 1);
      assert forall i :: 0 <= i < |before| ==> before[i] in before;
    }
  }

  /** After the base candle come exactly the candles that start between its end and the last start, in time order. */
  lemma AfterBaseMembers(bars: seq<Bar>, s: Settings)
    ensures var after := AfterBase(bars, s);
            && (forall b :: b in after <==> Counts(bars, b) && s.FirstEnd() <= b.t <= s.LastStart())
            && (forall i, j :: 0 <= i < j < |after| ==> after[i].t < after[j].t)
  {
    var byStart := ByStart(bars);
    forall t: int
      ensures t in byStart <==> StartsAt(bars, t)
      ensures t in byStart ==> Counts(bars, byStart[t]) && byStart[t].t == t
    {
      ByStartCounts(bars, t);
    }
    BetweenMembers(byStart, s.FirstEnd(), s.LastStart());
    forall b | Counts(bars, b)
      ensures b.t in byStart && byStart[b.t] == b
    {
      OneCounts(bars, b, byStart[b.t]);
    }
  }

  /** The base candle is the one that starts at the given time, 09:15 by default. */
  lemma BaseCounts(bars: seq<Bar>, s: Settings)
    ensures HasBase(bars, s) <==> exists i :: 0 <= i < |bars| && bars[i].t == s.BaseStart()
    ensures HasBase(bars, s) ==> Counts(bars, BaseOf(bars, s)) && BaseOf(bars, s).t == s.BaseStart()
  {
    ByStartCounts(bars, s.BaseStart());
  }

  /** The session ends at 15:30: the last candle ends there, the second-last one candle before. */
  lemma SessionEnds(s: Settings)
    requires s.exitStart.None?
    ensures s.LastStart() + (if s.exitMode == AtSecondLast then 2 * s.barMinutes else s.barMinutes) == 930
    ensures s.entryStart.None? ==> s.FirstEnd() == 555 + s.barMinutes
  {
  }

  // ---- The rules -------------------------------------------------------------------------

  ghost predicate NoneOut(bars: seq<Bar>, base: Bar) {
    forall j :: 0 <= j < |bars| ==> bars[j].h <= base.h && bars[j].l >= base.l
  }

  /** Bar `i` is the first to trade beyond an end of the base candle. */
  ghost predicate FirstOut(bars: seq<Bar>, base: Bar, i: nat) {
    && i < |bars| && (bars[i].h > base.h || bars[i].l < base.l)
    && forall j :: 0 <= j < i ==> bars[j].h <= base.h && bars[j].l >= base.l
  }

  ghost predicate NeverAtStop(bars: seq<Bar>, base: Bar, from: nat, up: bool) {
    forall j :: from <= j < |bars| ==> if up then bars[j].l > base.l else bars[j].h < base.h
  }

  /** Bar `x` is the first, from `from` on, at or through the opposite end. */
  ghost predicate FirstAtStop(bars: seq<Bar>, base: Bar, from: nat, up: bool, x: nat) {
    && from <= x < |bars| && (if up then bars[x].l <= base.l else bars[x].h >= base.h)
    && forall j :: from <= j < x ==> if up then bars[j].l > base.l else bars[j].h < base.h
  }

  /** Opened inside the base candle and went through both of its ends. */
  predicate BothFromInside(b: Bar, base: Bar) {
    b.h > base.h && b.l < base.l && b.o >= base.l && b.o <= base.h
  }

  /** Entry at the broken end, or at the open beyond it; stop at the opposite end. */
  predicate Entered(r: DayValue, base: Bar, on: Bar, up: bool) {
    && r.side == Some(if up then Call else Put)
    && r.breakoutTime == Some(on.t)
    && r.stopLoss == Some(if up then base.l else base.h)
    && r.entryPrice == Some(if up then (if on.o > base.h then on.o else base.h) else (if on.o < base.l then on.o else base.l))
  }

  predicate Left(r: DayValue, up: bool, time: int, price: real, reason: ExitReason) {
    && r.exitTime == Some(time) && r.exitPrice == Some(price) && r.exitReason == reason
    && r.entryPrice.Some?
    && r.pnlPoints == Some(if up then price - r.entryPrice.value else r.entryPrice.value - price)
  }

  /** Stopped on this bar, at the stop or at an open already beyond it. */
  predicate StoppedOn(r: DayValue, base: Bar, up: bool, at: Bar) {
    Left(r, up, at.t, if up then (if at.o < base.l then at.o else base.l) else (if at.o > base.h then at.o else base.h), StopLoss)
  }

  /** The stop filled at an open already beyond it. */
  predicate OpenedBeyondStop(at: Bar, base: Bar, up: bool) {
    if up then at.o < base.l else at.o > base.h
  }

  /** A breakout on candle `i` that needs no minutes: held until the stop, or to the close of the last candle. */
  ghost predicate OrdinaryRule(r: DayValue, base: Bar, after: seq<Bar>, i: nat, s: Settings)
    requires i < |after|
  {
    var b, last := after[i], after[|after| - 1];
    var up := b.o > base.h || (b.h > base.h && b.l >= base.l);
    && Entered(r, base, b, up)
    && (GapEntry in r.flags <==> if up then b.o > base.h else b.o < base.l)
    && (forall x: nat :: FirstAtStop(after, base, i, up, x) ==>
          StoppedOn(r, base, up, after[x]) && (StopGapped in r.flags <==> OpenedBeyondStop(after[x], base, up)))
    && (NeverAtStop(after, base, i, up) ==>
          && Left(r, up, last.t, last.c, TimeReason(after, s)) && StopGapped !in r.flags
          && ((exists k :: NotVerifiedExit(k) in r.flags) <==> TimeReason(after, s) == DataEnded))
  }

  /** The exit is verified if the last candle is there and none is missing. */
  function TimeReason(after: seq<Bar>, s: Settings): ExitReason
    requires after != []
  {
    if s.barMinutes <= 0 || after[|after| - 1].t != s.LastStart()
       || (s.LastStart() - s.FirstEnd()) / s.barMinutes + 1 != |after| then DataEnded
    else if s.exitStart.Some? && s.exitStart.value != 930 - s.barMinutes then TimedExit
    else if s.LastStart() == 930 - s.barMinutes then MarketClose
    else SecondLastClose
  }

  /** The end a deciding minute broke first: the only one, the one it opened beyond, or the nearer one. */
  predicate MinuteUp(m: Bar, base: Bar) {
    if m.h > base.h && m.l < base.l then m.o > base.h || (m.o >= base.l && base.h - m.o <= m.o - base.l)
    else m.h > base.h
  }

  /** A candle through both ends from inside: its minutes order it, or the base range is taken as lost. */
  ghost predicate BothEndsRule(r: DayValue, base: Bar, b: Bar, minutes: seq<Bar>, barMinutes: int) {
    var end := b.t + barMinutes;
    var window := Window(minutes, b.t, end);
    && (NoneOut(window, base) ==>
          && r.side == Some(BothSides) && r.breakoutTime == Some(b.t) && r.entryPrice.None? && r.stopLoss.None?
          && r.exitTime == Some(b.t) && r.exitPrice.None? && r.exitReason == StopLoss && r.pnlPoints == Some(base.l - base.h)
          && AmbiguousCandle in r.flags)
    && (forall j: nat :: FirstOut(window, base, j) ==> MinutesRule(r, base, b, Window(minutes, window[j].t, end), window[j]))
  }

  ghost predicate MinutesRule(r: DayValue, base: Bar, b: Bar, rest: seq<Bar>, m: Bar) {
    var up := MinuteUp(m, base);
    && Entered(r, base, m, up)
    && ResolvedOnMinutes(if up then Call else Put) in r.flags && (AmbiguousMinute in r.flags <==> BothFromInside(m, base))
    && (forall x: nat :: FirstAtStop(rest, base, 0, up, x) ==>
          StoppedOn(r, base, up, rest[x]) && StopAssumed !in r.flags && (MinuteStopGapped in r.flags <==> OpenedBeyondStop(rest[x], base, up)))
    && (NeverAtStop(rest, base, 0, up) ==> Left(r, up, b.t, if up then base.l else base.h, StopLoss) && StopAssumed in r.flags)
  }

  /** Without a breakout there is no trade; the first one is traded. */
  ghost predicate FoundRule(r: DayValue, base: Bar, after: seq<Bar>, minutes: seq<Bar>, s: Settings) {
    && r.base == Some(base)
    && (NoneOut(after, base) ==>
          r.side.None? && r.exitReason == NoEntry && r.entryPrice.None? && r.exitTime.None? && r.pnlPoints.None?)
    && (forall i: nat :: FirstOut(after, base, i) ==>
          if BothFromInside(after[i], base) then BothEndsRule(r, base, after[i], minutes, s.barMinutes)
          else OrdinaryRule(r, base, after, i, s))
  }

  /** The whole day. */
  ghost predicate Obeys(r: DayValue, bars: seq<Bar>, minutes: seq<Bar>, s: Settings) {
    if !HasBase(bars, s) then r == BLANK.(exitReason := DataIncomplete, flags := [BaseMissing])
    else
      FoundRule(r, BaseOf(bars, s), AfterBase(bars, s), minutes, s)
  }

  // ---- Every day obeys them --------------------------------------------------------------

  lemma FirstOutIs(bars: seq<Bar>, base: Bar, i: nat)
    requires FirstOut(bars, base, i)
    ensures FirstBreak(bars, base) == Some(i)
  {
    FirstBreakIs(bars, base, i);
  }

  lemma NoneOutIs(bars: seq<Bar>, base: Bar)
    requires NoneOut(bars, base)
    ensures FirstBreak(bars, base) == None
  {
    FirstTrueIs(BreakMask(bars, base), None);
  }

  function SideOf(up: bool): Side { if up then Call else Put }

  lemma FirstAtStopIs(bars: seq<Bar>, base: Bar, from: nat, up: bool, x: nat)
    requires FirstAtStop(bars, base, from, up, x)
    ensures FirstStop(bars[from..], SideOf(up), StopOf(SideOf(up), base)) == Some(x - from)
  {
    FirstTrueIs(StopMask(bars[from..], SideOf(up), StopOf(SideOf(up), base)), Some(x - from));
  }

  lemma NeverAtStopIs(bars: seq<Bar>, base: Bar, from: nat, up: bool)
    requires from <= |bars| && NeverAtStop(bars, base, from, up)
    ensures FirstStop(bars[from..], SideOf(up), StopOf(SideOf(up), base)) == None
  {
    FirstTrueIs(StopMask(bars[from..], SideOf(up), StopOf(SideOf(up), base)), None);
  }

  lemma ClosedEnters(d: DayValue, base: Bar, on: Bar, up: bool, exitTime: int, exit: real, reason: ExitReason)
    ensures var side := SideOf(up);
            var r := Closed(d, on.t, side, EntryPrice(side, base, on), StopOf(side, base), exitTime, exit, reason);
            Entered(r, base, on, up) && Left(r, up, exitTime, exit, reason) && r.flags == d.flags && r.base == d.base
  {
  }

  lemma StoppedRule(base: Bar, secondLast: Option<Bar>, b: Bar, up: bool, at: Bar, s: Settings)
    ensures var r := Record(base, secondLast, Stopped(b, SideOf(up), at), s);
            Entered(r, base, b, up) && StoppedOn(r, base, up, at)
  {
    var side := SideOf(up);
    var d := Described(base, secondLast, FlagsOf(base, Stopped(b, side, at), s));
    var fill := StopFill(side, StopOf(side, base), at);
    RecordStopped(base, secondLast, b, side, at, s, d, EntryPrice(side, base, b), StopOf(side, base), fill);
    ClosedEnters(d, base, b, up, at.t, fill, StopLoss);
  }

  lemma TimedOutRule(base: Bar, secondLast: Option<Bar>, b: Bar, up: bool, after: seq<Bar>, s: Settings)
    requires after != [] && s.barMinutes > 0
    ensures var last := after[|after| - 1];
            var r := Record(base, secondLast, TimedOut(b, SideOf(up), last, s.Missing(after)), s);
            Entered(r, base, b, up) && Left(r, up, last.t, last.c, TimeReason(after, s))
  {
    var side, last := SideOf(up), after[|after| - 1];
    var d := Described(base, secondLast, FlagsOf(base, TimedOut(b, side, last, s.Missing(after)), s));
    RecordTimedOut(base, secondLast, b, side, last, s.Missing(after), s, d, EntryPrice(side, base, b), StopOf(side, base), TimeReason(after, s));
    ClosedEnters(d, base, b, up, last.t, last.c, TimeReason(after, s));
  }

  lemma GapFlag(base: Bar, secondLast: Option<Bar>, o: Outcome, s: Settings)
    requires o.Stopped? || o.TimedOut?
    ensures GapEntry in Record(base, secondLast, o, s).flags <==> GapEntered(o.side, base, o.b)
  {
    var flags := FlagsOf(base, o, s);
    assert Record(base, secondLast, o, s).flags == (if secondLast.None? then [SecondLastMissing] else []) + flags;
    if GapEntered(o.side, base, o.b) {
      assert flags[1] == GapEntry;
    }
  }

  lemma PlainUp(b: Bar, base: Bar)
    ensures PlainSide(b, base) == SideOf(b.o > base.h || (b.h > base.h && b.l >= base.l))
  {
  }

  /** The exit found from candle `i` on is the one the rule names. */
  lemma ExitNamed(base: Bar, after: seq<Bar>, i: nat, up: bool, hit: Option<nat>)
    requires i < |after| && hit == FirstStop(after[i..], SideOf(up), StopOf(SideOf(up), base))
    ensures forall x: nat :: FirstAtStop(after, base, i, up, x) ==> hit == Some(x - i) && after[i..][x - i] == after[x]
    ensures NeverAtStop(after, base, i, up) ==> hit == None
  {
    hide FirstStop;
    forall x: nat | FirstAtStop(after, base, i, up, x)
      ensures hit == Some(x - i) && after[i..][x - i] == after[x]
    {
      FirstAtStopIs(after, base, i, up, x);
    }
    if NeverAtStop(after, base, i, up) {
      NeverAtStopIs(after, base, i, up);
    }
  }

  lemma HeldObeys(base: Bar, secondLast: Option<Bar>, after: seq<Bar>, i: nat, s: Settings)
    requires s.barMinutes > 0 && FirstOut(after, base, i) && !BothFromInside(after[i], base)
    ensures OrdinaryRule(Record(base, secondLast, Held(base, after[i..], s.Missing(after)), s), base, after, i, s)
  {
    hide Record, Held, PlainSide, FirstStop, StopOf, Entered, Left, StoppedOn, FlagsOf, TimeReason, FirstAtStop, NeverAtStop, BothFromInside;
    var b, held, missing := after[i], after[i..], s.Missing(after);
    var up := b.o > base.h || (b.h > base.h && b.l >= base.l);
    var hit := FirstStop(held, SideOf(up), StopOf(SideOf(up), base));
    PlainUp(b, base);
    HeldIs(base, held, missing, SideOf(up), StopOf(SideOf(up), base), hit);
    GapFlag(base, secondLast, Held(base, held, missing), s);
    HeldFlagsMean(base, secondLast, Held(base, held, missing), s);
    GapMeans(base, b, up);
    if hit.None? {
      VerifiedMeans(after, s);
    }
    ExitNamed(base, after, i, up, hit);
    if hit.Some? {
      StoppedRule(base, secondLast, b, up, held[hit.value], s);
    } else {
      TimedOutRule(base, secondLast, b, up, after, s);
    }
  }

  /** Gapped stops and unverified exits are flagged, and nothing else is. */
  lemma HeldFlagsMean(base: Bar, secondLast: Option<Bar>, o: Outcome, s: Settings)
    requires (o.Stopped? || o.TimedOut?) && o.side != BothSides
    ensures var flags := Record(base, secondLast, o, s).flags;
            && (StopGapped in flags <==> o.Stopped? && OpenedBeyondStop(o.at, base, o.side == Call))
            && ((exists k :: NotVerifiedExit(k) in flags) <==> o.TimedOut? && !(o.last.t == s.LastStart() && o.missing == 0))
  {
    var head, flags := if secondLast.None? then [SecondLastMissing] else [], FlagsOf(base, o, s);
    assert Record(base, secondLast, o, s).flags == head + flags;
    if o.Stopped? && Gapped(o.side, StopOf(o.side, base), o.at) {
      assert flags[|flags| - 1] == StopGapped;
    }
    if o.TimedOut? && !(o.last.t == s.LastStart() && o.missing == 0) {
      assert flags[|flags| - 1] == NotVerifiedExit(o.missing);
      assert NotVerifiedExit(o.missing) in head + flags;
    }
  }

  lemma VerifiedMeans(after: seq<Bar>, s: Settings)
    requires after != [] && s.barMinutes > 0
    ensures TimeReason(after, s) == DataEnded <==> !(after[|after| - 1].t == s.LastStart() && s.Missing(after) == 0)
  {
  }

  lemma GapMeans(base: Bar, b: Bar, up: bool)
    requires up == (b.o > base.h || (b.h > base.h && b.l >= base.l))
    ensures GapEntered(SideOf(up), base, b) <==> if up then b.o > base.h else b.o < base.l
  {
  }

  lemma MinuteUpIs(m: Bar, base: Bar)
    requires m.h > base.h || m.l < base.l
    ensures ResolveMinute(m, base).Some? && ResolveMinute(m, base).value.side == SideOf(MinuteUp(m, base))
    ensures ResolveMinute(m, base).value.minute == m
    ensures ResolveMinute(m, base).value.tie <==> BothFromInside(m, base)
  {
  }

  lemma OneCandleFlags(base: Bar, secondLast: Option<Bar>, b: Bar, res: Resolution, stop: Option<Bar>, s: Settings)
    ensures var flags := Record(base, secondLast, InOneCandle(b, res, stop), s).flags;
            && ResolvedOnMinutes(res.side) in flags && (AmbiguousMinute in flags <==> res.tie)
            && (StopAssumed in flags <==> stop.None?)
            && (MinuteStopGapped in flags <==> stop.Some? && Gapped(res.side, StopOf(res.side, base), stop.value))
  {
    var head := if secondLast.None? then [SecondLastMissing] else [];
    var first := [BreakoutTimeIsCandleStart, ResolvedOnMinutes(res.side)];
    var tie := if res.tie then [AmbiguousMinute] else [];
    var fill := if stop.None? then [StopAssumed] else if Gapped(res.side, StopOf(res.side, base), stop.value) then [MinuteStopGapped] else [];
    assert FlagsOf(base, InOneCandle(b, res, stop), s) == first + tie + fill;
    assert Record(base, secondLast, InOneCandle(b, res, stop), s).flags == head + (first + tie + fill);
    assert first[1] == ResolvedOnMinutes(res.side);
  }

  lemma InOneCandleRule(base: Bar, secondLast: Option<Bar>, b: Bar, res: Resolution, stop: Option<Bar>, up: bool, s: Settings)
    requires res.side == SideOf(up)
    ensures var r := Record(base, secondLast, InOneCandle(b, res, stop), s);
            && Entered(r, base, res.minute, up)
            && ResolvedOnMinutes(SideOf(up)) in r.flags && (AmbiguousMinute in r.flags <==> res.tie)
            && (StopAssumed in r.flags <==> stop.None?)
            && (MinuteStopGapped in r.flags <==> stop.Some? && OpenedBeyondStop(stop.value, base, up))
            && if stop.Some? then StoppedOn(r, base, up, stop.value) else Left(r, up, b.t, if up then base.l else base.h, StopLoss)
  {
    OneCandleFlags(base, secondLast, b, res, stop, s);
    var level := StopOf(res.side, base);
    var d := Described(base, secondLast, FlagsOf(base, InOneCandle(b, res, stop), s));
    var exitTime := if stop.None? then b.t else stop.value.t;
    var fill := if stop.None? then level else StopFill(res.side, level, stop.value);
    RecordInOne(base, secondLast, b, res, stop, s, d, EntryPrice(res.side, base, res.minute), level, exitTime, fill);
    ClosedEnters(d, base, res.minute, up, exitTime, fill, StopLoss);
  }

  lemma MinutesObey(base: Bar, secondLast: Option<Bar>, b: Bar, res: Resolution, rest: seq<Bar>, s: Settings)
    requires res.side == SideOf(MinuteUp(res.minute, base)) && (res.tie <==> BothFromInside(res.minute, base))
    ensures MinutesRule(Record(base, secondLast, Decided(base, b, Some(res), rest), s), base, b, rest, res.minute)
  {
    hide Record, FirstStop, Entered, Left, StoppedOn, FlagsOf;
    var up := MinuteUp(res.minute, base);
    var hit := FirstStop(rest, res.side, StopOf(res.side, base));
    InOneCandleRule(base, secondLast, b, res, if hit.Some? then Some(rest[hit.value]) else None, up, s);
    assert rest[0..] == rest;
    forall x: nat | FirstAtStop(rest, base, 0, up, x)
      ensures hit == Some(x)
    {
      FirstAtStopIs(rest, base, 0, up, x);
    }
    if NeverAtStop(rest, base, 0, up) {
      NeverAtStopIs(rest, base, 0, up);
    }
  }

  lemma WithinCandleObeys(base: Bar, secondLast: Option<Bar>, b: Bar, minutes: seq<Bar>, s: Settings)
    ensures BothEndsRule(Record(base, secondLast, WithinCandle(base, b, minutes, s.barMinutes), s), base, b, minutes, s.barMinutes)
  {
    hide Record, FirstBreak, FirstStop, Window, MinutesRule, ResolveMinute, Decided;
    var end := b.t + s.barMinutes;
    var window := Window(minutes, b.t, end);
    var res := Searched(base, b, minutes, s.barMinutes);
    var rest := Remaining(b, minutes, s.barMinutes, res);
    SearchedIs(base, b, minutes, s.barMinutes, window);
    WithinCandleIs(base, b, minutes, s.barMinutes, res, rest);
    if NoneOut(window, base) {
      NoneOutIs(window, base);
      UnorderedRecord(base, secondLast, b, rest, s);
    }
    forall j: nat | FirstOut(window, base, j)
      ensures MinutesRule(Record(base, secondLast, WithinCandle(base, b, minutes, s.barMinutes), s), base, b,
                          Window(minutes, window[j].t, end), window[j])
    {
      FirstOutIs(window, base, j);
      MinuteUpIs(window[j], base);
      MinutesObey(base, secondLast, b, res.value, rest, s);
    }
  }

  lemma UnorderedRecord(base: Bar, secondLast: Option<Bar>, b: Bar, rest: seq<Bar>, s: Settings)
    ensures var r := Record(base, secondLast, Decided(base, b, None, rest), s);
            && r.side == Some(BothSides) && r.breakoutTime == Some(b.t) && r.entryPrice.None? && r.stopLoss.None?
            && r.exitTime == Some(b.t) && r.exitPrice.None? && r.exitReason == StopLoss && r.pnlPoints == Some(base.l - base.h)
            && AmbiguousCandle in r.flags
  {
    var flags := [BreakoutTimeIsCandleStart, AmbiguousCandle];
    assert flags[1] == AmbiguousCandle;
  }

  lemma QuietRecord(base: Bar, secondLast: Option<Bar>, missing: int, s: Settings)
    ensures var r := Record(base, secondLast, Quiet(missing), s);
            r.side.None? && r.exitReason == NoEntry && r.entryPrice.None? && r.exitTime.None? && r.pnlPoints.None?
  {
  }

  lemma FindNothing(base: Bar, after: seq<Bar>, minutes: seq<Bar>, s: Settings)
    requires s.barMinutes > 0 && FirstBreak(after, base).None?
    ensures Find(base, after, minutes, s) == Quiet(s.Missing(after))
  {
  }

  lemma RecordKeepsBase(base: Bar, secondLast: Option<Bar>, o: Outcome, s: Settings)
    ensures Record(base, secondLast, o, s).base == Some(base)
  {
  }

  /** Every day obeys the rules. */
  lemma DayObeys(bars: seq<Bar>, minutes: seq<Bar>, s: Settings)
    requires s.Supported()
    ensures Obeys(Day(bars, minutes, s), bars, minutes, s)
  {
    if HasBase(bars, s) {
      var base, after, secondLast := BaseOf(bars, s), AfterBase(bars, s), SecondLastOf(bars, s);
      DayIs(bars, minutes, s);
      FoundObeys(base, secondLast, after, minutes, s);
    }
  }

  lemma FoundObeys(base: Bar, secondLast: Option<Bar>, after: seq<Bar>, minutes: seq<Bar>, s: Settings)
    requires s.barMinutes > 0
    ensures FoundRule(Record(base, secondLast, Find(base, after, minutes, s), s), base, after, minutes, s)
  {
    hide Record, Find, Held, WithinCandle, FirstBreak, BothEndsRule, OrdinaryRule;
    var r := Record(base, secondLast, Find(base, after, minutes, s), s);
    RecordKeepsBase(base, secondLast, Find(base, after, minutes, s), s);
    if NoneOut(after, base) {
      NoneOutIs(after, base);
      FindNothing(base, after, minutes, s);
      QuietRecord(base, secondLast, s.Missing(after), s);
    }
    forall i: nat | FirstOut(after, base, i)
      ensures if BothFromInside(after[i], base) then BothEndsRule(r, base, after[i], minutes, s.barMinutes)
              else OrdinaryRule(r, base, after, i, s)
    {
      FirstOutIs(after, base, i);
      FindIs(base, after, minutes, s, i);
      if BothFromInside(after[i], base) {
        WithinCandleObeys(base, secondLast, after[i], minutes, s);
      } else {
        HeldObeys(base, secondLast, after, i, s);
      }
    }
  }

  lemma RecordKeepsSecondLast(base: Bar, secondLast: Option<Bar>, o: Outcome, s: Settings)
    ensures Record(base, secondLast, o, s).secondLast == secondLast
  {
  }

  /** The second-last candle reported is the one that starts two candles before 15:30, if there is one. */
  lemma SecondLastCounts(bars: seq<Bar>, minutes: seq<Bar>, s: Settings, b: Bar)
    requires s.Supported() && HasBase(bars, s)
    ensures Day(bars, minutes, s).secondLast == Some(b) <==> Counts(bars, b) && b.t == 930 - 2 * s.barMinutes
  {
    DayIs(bars, minutes, s);
    RecordKeepsSecondLast(BaseOf(bars, s), SecondLastOf(bars, s), OutcomeOf(bars, minutes, s), s);
    ByStartCounts(bars, s.SecondLastStart());
    if Counts(bars, b) && b.t == 930 - 2 * s.barMinutes {
      OneCounts(bars, b, ByStart(bars)[s.SecondLastStart()]);
    }
  }
}
