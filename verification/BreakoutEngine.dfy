/** run_day in the source's form: one result object, filled in as the day is read, with early returns. */
module BreakoutEngine {
  import opened Common
  import opened BreakoutDay
  import BreakoutRules

  class DayResult {
    var base: Option<Bar>
    var secondLast: Option<Bar>
    var side: Option<Side>
    var breakoutTime: Option<int>
    var entryPrice: Option<real>
    var stopLoss: Option<real>
    var exitTime: Option<int>
    var exitPrice: Option<real>
    var exitReason: ExitReason
    var pnlPoints: Option<real>
    var flags: seq<Flag>

    function Value(): DayValue
      reads this
    {
      DayValue(base, secondLast, side, breakoutTime, entryPrice, stopLoss, exitTime, exitPrice, exitReason, pnlPoints, flags)
    }

    constructor ()
      ensures Value() == BLANK
    {
      base, secondLast, side, breakoutTime, entryPrice, stopLoss := None, None, None, None, None, None;
      exitTime, exitPrice, exitReason, pnlPoints, flags := None, None, NoEntry, None, [];
    }

    method LeaveUnresolved(first: Bar, eb: Bar)
      modifies this
      ensures Value() == old(Value()).(
                side := Some(BothSides), stopLoss := None, exitTime := Some(eb.t), exitReason := StopLoss,
                pnlPoints := Some(-(first.h - first.l)), flags := old(flags) + [AmbiguousCandle])
    {
      side, stopLoss := Some(BothSides), None;
      exitTime, exitReason := Some(eb.t), StopLoss;
      pnlPoints := Some(-(first.h - first.l));
      flags := flags + [AmbiguousCandle];
    }

    /** Entry at the broken end of the base candle, or at the open of `b` when that is already beyond it. */
    method Enter(first: Bar, on: Side, b: Bar) returns (sl: real, entry: real)
      modifies this
      ensures sl == StopOf(on, first) && entry == EntryPrice(on, first, b)
      ensures Value() == old(Value()).(side := Some(on), stopLoss := Some(sl), entryPrice := Some(entry), breakoutTime := Some(b.t))
    {
      if on == Call {
        entry, sl := if b.o > first.h then b.o else first.h, first.l;
      } else {
        entry, sl := if b.o < first.l then b.o else first.l, first.h;
      }
      side, stopLoss, entryPrice, breakoutTime := Some(on), Some(sl), Some(entry), Some(b.t);
    }

    method Exit(time: int, price: real, reason: ExitReason, on: Side, entry: real)
      modifies this
      ensures Value() == old(Value()).(
                exitTime := Some(time), exitPrice := Some(price), exitReason := reason, pnlPoints := Some(Points(on, entry, price)))
    {
      exitTime, exitPrice, exitReason := Some(time), Some(price), reason;
      pnlPoints := Some(if on == Call then price - entry else entry - price);
    }

    /** A stop filled on bar `b`, at its open when it gapped. */
    method ExitAtStop(b: Bar, sl: real, on: Side, entry: real, gapFlag: Flag)
      modifies this
      ensures Value() == old(Value()).(
                exitTime := Some(b.t), exitPrice := Some(StopFill(on, sl, b)), exitReason := StopLoss,
                pnlPoints := Some(Points(on, entry, StopFill(on, sl, b))),
                flags := old(flags) + (if Gapped(on, sl, b) then [gapFlag] else []))
    {
      var gapped := if on == Call then b.o < sl else b.o > sl;
      if gapped {
        flags := flags + [gapFlag];
      }
      Exit(b.t, if gapped then b.o else sl, StopLoss, on, entry);
    }

    /** The minutes said which end broke first: enter there, and look for the stop in the rest of the candle. */
    method EnterAndStopInside(first: Bar, eb: Bar, res: Resolution, rest: seq<Bar>)
      modifies this
      ensures var hit := FirstStop(rest, res.side, StopOf(res.side, first));
              IsInOneCandle(Value(), old(Value()), first, eb, res, if hit.None? then None else Some(rest[hit.value]))
    {
      var on := res.side;
      flags := flags + [ResolvedOnMinutes(on)] + (if res.tie then [AmbiguousMinute] else []);
      var sl, entry := Enter(first, on, res.minute);
      var hit := FirstStopIndex(rest, on, sl);
      if hit.None? {
        flags := flags + [StopAssumed];
        Exit(eb.t, sl, StopLoss, on, entry);
      } else {
        ExitAtStop(rest[hit.value], sl, on, entry, MinuteStopGapped);
      }
    }

    /** Both ends of the base candle broke in candle `eb`, which opened inside: the minutes must order it. */
    method OrderByMinutes(first: Bar, eb: Bar, minutes: seq<Bar>, barMinutes: int, ghost s: Settings)
      requires Value() == Described(first, secondLast, [BreakoutTimeIsCandleStart]).(breakoutTime := Some(eb.t))
      modifies this
      ensures Value() == Record(first, old(secondLast), WithinCandle(first, eb, minutes, barMinutes), s)
    {
      ghost var before := Value();
      var res := ResolveSide(eb, minutes, first, barMinutes);
      if res.None? {
        LeaveUnresolved(first, eb);
        UnorderedRecord(first, before.secondLast, eb, s);
      } else {
        var rest := Remaining(eb, minutes, barMinutes, res);
        EnterAndStopInside(first, eb, res.value, rest);
        ghost var hit := FirstStop(rest, res.value.side, StopOf(res.value.side, first));
        InOneCandleRecord(first, before.secondLast, eb, res.value, if hit.None? then None else Some(rest[hit.value]), s, before, Value());
        assert WithinCandle(first, eb, minutes, barMinutes) == Decided(first, eb, res, rest);
      }
    }

    /** The close of the last candle, whose name depends on which candle that is and whether any is missing. */
    method ExitAtTime(last: Bar, missing: int, s: Settings, on: Side, entry: real)
      modifies this
      ensures var verified := last.t == s.LastStart() && missing == 0;
              Value() == old(Value()).(
                exitTime := Some(last.t), exitPrice := Some(last.c), pnlPoints := Some(Points(on, entry, last.c)),
                exitReason := if verified then s.TimeExitReason() else DataEnded,
                flags := if verified then old(flags) else old(flags) + [NotVerifiedExit(missing)])
    {
      var reason := DataEnded;
      if last.t == s.LastStart() && missing == 0 {
        reason := if s.exitStart.Some? && s.exitStart.value != s.LastCandleStart() then TimedExit
                  else if s.LastStart() == s.LastCandleStart() then MarketClose else SecondLastClose;
      } else {
        flags := flags + [NotVerifiedExit(missing)];
      }
      Exit(last.t, last.c, reason, on, entry);
    }

    /** Any other breakout in `held[0]`: hold until the stop or the last candle. */
    method HoldPosition(first: Bar, held: seq<Bar>, missing: int, s: Settings)
      requires |held| > 0
      requires Value() == Described(first, secondLast, [BreakoutTimeIsCandleStart]).(breakoutTime := Some(held[0].t))
      modifies this
      ensures Value() == Record(first, old(secondLast), Held(first, held, missing), s)
    {
      hide Record, FirstStop;
      ghost var before := Value();
      var eb := held[0];
      var up, down := eb.h > first.h, eb.l < first.l;
      var on := if eb.o > first.h || (up && !down) then Call else Put;
      if (on == Call && eb.o > first.h) || (on == Put && eb.o < first.l) {
        flags := flags + [GapEntry];
      }
      var sl, entry := Enter(first, on, eb);
      var hit := FirstStopIndex(held, on, sl);
      if hit.Some? {
        ExitAtStop(held[hit.value], sl, on, entry, StopGapped);
        StoppedRecord(first, before.secondLast, eb, on, held[hit.value], s, before, Value());
      } else {
        var last := held[|held| - 1];
        ExitAtTime(last, missing, s, on, entry);
        TimedOutRecord(first, before.secondLast, eb, on, last, missing, s, before, Value());
      }
    }

    /** Find the breakout, if there is one, and trade it. */
    method Trade(first: Bar, after: seq<Bar>, minutes: seq<Bar>, s: Settings)
      requires s.barMinutes > 0 && Value() == Described(first, secondLast, [])
      modifies this
      ensures Value() == Record(first, old(secondLast), Find(first, after, minutes, s), s)
    {
      var missing := s.Missing(after);
      var entryI := FirstBreakIndex(after, first);
      if entryI.None? {
        if missing != 0 {
          flags := flags + [BreakoutNotRuledOut(missing)];
        }
        return;
      }
      var eb := after[entryI.value];
      breakoutTime := Some(eb.t);
      flags := flags + [BreakoutTimeIsCandleStart];
      if eb.h > first.h && eb.l < first.l && first.l <= eb.o <= first.h {
        OrderByMinutes(first, eb, minutes, s.barMinutes, s);
      } else {
        HoldPosition(first, after[entryI.value..], missing, s);
      }
    }
  }

  /** `v` is the day `d` after a breakout ordered by minutes. */
  predicate IsInOneCandle(v: DayValue, d: DayValue, base: Bar, b: Bar, res: Resolution, stop: Option<Bar>) {
    var level, entry := StopOf(res.side, base), EntryPrice(res.side, base, res.minute);
    var fill := if stop.None? then level else StopFill(res.side, level, stop.value);
    && v == Closed(d, res.minute.t, res.side, entry, level, if stop.None? then b.t else stop.value.t, fill, StopLoss).(flags := v.flags)
    && v.flags == d.flags + [ResolvedOnMinutes(res.side)] + (if res.tie then [AmbiguousMinute] else [])
                  + (if stop.None? then [StopAssumed] else if Gapped(res.side, level, stop.value) then [MinuteStopGapped] else [])
  }

  lemma UnorderedRecord(base: Bar, secondLast: Option<Bar>, b: Bar, s: Settings)
    ensures Record(base, secondLast, Unordered(b), s) ==
            Described(base, secondLast, [BreakoutTimeIsCandleStart] + [AmbiguousCandle]).(
              breakoutTime := Some(b.t), side := Some(BothSides), exitTime := Some(b.t), exitReason := StopLoss,
              pnlPoints := Some(-(base.h - base.l)))
  {
    assert [BreakoutTimeIsCandleStart] + [AmbiguousCandle] == [BreakoutTimeIsCandleStart, AmbiguousCandle];
  }

  lemma InOneCandleRecord(base: Bar, secondLast: Option<Bar>, b: Bar, res: Resolution, stop: Option<Bar>, s: Settings, d: DayValue, v: DayValue)
    requires d == Described(base, secondLast, [BreakoutTimeIsCandleStart]).(breakoutTime := Some(b.t))
    requires IsInOneCandle(v, d, base, b, res, stop)
    ensures v == Record(base, secondLast, InOneCandle(b, res, stop), s)
  {
  }

  lemma StoppedRecord(base: Bar, secondLast: Option<Bar>, b: Bar, side: Side, at: Bar, s: Settings, d: DayValue, v: DayValue)
    requires d == Described(base, secondLast, [BreakoutTimeIsCandleStart]).(breakoutTime := Some(b.t))
    requires var level := StopOf(side, base);
             v == Closed(d, b.t, side, EntryPrice(side, base, b), level, at.t, StopFill(side, level, at), StopLoss).(flags := v.flags)
    requires v.flags == d.flags + (if GapEntered(side, base, b) then [GapEntry] else [])
                        + (if Gapped(side, StopOf(side, base), at) then [StopGapped] else [])
    ensures v == Record(base, secondLast, Stopped(b, side, at), s)
  {
  }

  lemma TimedOutRecord(base: Bar, secondLast: Option<Bar>, b: Bar, side: Side, last: Bar, missing: int, s: Settings, d: DayValue, v: DayValue)
    requires d == Described(base, secondLast, [BreakoutTimeIsCandleStart]).(breakoutTime := Some(b.t))
    requires v == Closed(d, b.t, side, EntryPrice(side, base, b), StopOf(side, base), last.t, last.c,
                         if last.t == s.LastStart() && missing == 0 then s.TimeExitReason() else DataEnded).(flags := v.flags)
    requires v.flags == d.flags + (if GapEntered(side, base, b) then [GapEntry] else [])
                        + (if last.t == s.LastStart() && missing == 0 then [] else [NotVerifiedExit(missing)])
    ensures v == Record(base, secondLast, TimedOut(b, side, last, missing), s)
  {
  }

  method ByStartOf(bars: seq<Bar>) returns (m: map<int, Bar>)
    ensures m == ByStart(bars)
  {
    m := map[];
    for i := 0 to |bars|
      invariant m == ByStart(bars[..i])
    {
      assert bars[..i + 1][..i] == bars[..i];
      m := m[bars[i].t := bars[i]];
    }
    assert bars[..|bars|] == bars;
  }

  method BetweenOf(byStart: map<int, Bar>, lo: int, hi: int) returns (after: seq<Bar>)
    ensures after == Between(byStart, lo, hi)
  {
    after := [];
    var t := lo;
    while t <= hi
      invariant lo <= t && (t <= hi + 1 || after == [])
      invariant t == lo || t <= hi + 1
      invariant after == Between(byStart, lo, t - 1)
    {
      if t in byStart {
        after := after + [byStart[t]];
      }
      t := t + 1;
    }
  }

  method FirstBreakIndex(after: seq<Bar>, base: Bar) returns (i: Option<nat>)
    ensures i == FirstBreak(after, base)
  {
    i := None;
    for k := 0 to |after|
      invariant forall j :: 0 <= j < k ==> !BreakMask(after, base)[j]
    {
      if after[k].h > base.h || after[k].l < base.l {
        FirstTrueIs(BreakMask(after, base), Some(k));
        return Some(k);
      }
    }
    FirstTrueIs(BreakMask(after, base), None);
  }

  method FirstStopIndex(bars: seq<Bar>, side: Side, stop: real) returns (i: Option<nat>)
    ensures i == FirstStop(bars, side, stop)
  {
    i := None;
    for k := 0 to |bars|
      invariant forall j :: 0 <= j < k ==> !StopMask(bars, side, stop)[j]
    {
      if (if side == Call then bars[k].l <= stop else bars[k].h >= stop) {
        FirstTrueIs(StopMask(bars, side, stop), Some(k));
        return Some(k);
      }
    }
    FirstTrueIs(StopMask(bars, side, stop), None);
  }

  /** The minutes in time order; the first that breaks an end decides. */
  method ResolveSide(b: Bar, minutes: seq<Bar>, base: Bar, barMinutes: int) returns (r: Option<Resolution>)
    ensures r == Searched(base, b, minutes, barMinutes)
  {
    r := ResolveIn(Window(minutes, b.t, b.t + barMinutes), base);
  }

  method ResolveIn(window: seq<Bar>, base: Bar) returns (r: Option<Resolution>)
    ensures r == Resolve(window, base)
  {
    for k := 0 to |window|
      invariant forall j :: 0 <= j < k ==> !BreakMask(window, base)[j]
    {
      var m := window[k];
      var up, down := m.h > base.h, m.l < base.l;
      if up || down {
        FirstTrueIs(BreakMask(window, base), Some(k));
        if up && down {
          if m.o > base.h {
            return Some(Resolution(Call, m, false));
          }
          if m.o < base.l {
            return Some(Resolution(Put, m, false));
          }
          return Some(Resolution(if base.h - m.o <= m.o - base.l then Call else Put, m, true));
        }
        return Some(Resolution(if up then Call else Put, m, false));
      }
    }
    FirstTrueIs(BreakMask(window, base), None);
    return None;
  }

  /** One day. Unsupported candle sizes, and a base candle that would end on the next day, are refused. */
  method RunDay(bars: seq<Bar>, minutes: seq<Bar>, s: Settings) returns (result: Result<DayResult>)
    ensures result.Ok? <==> (s.barMinutes == 5 || s.barMinutes == 15) && s.BaseStart() + s.barMinutes < 24 * 60
    ensures result.Ok? ==> fresh(result.value) && result.value.Value() == Day(bars, minutes, s)
    ensures result.Ok? ==> BreakoutRules.Obeys(result.value.Value(), bars, minutes, s)
  {
    hide BreakoutRules.Obeys;
    if s.Supported() {
      BreakoutRules.DayObeys(bars, minutes, s);
    }
    if !s.Supported() {
      return Err("bar_minutes must be one of 5, 15");
    }
    var r := new DayResult();
    result := Ok(r);
    var byStart := ByStartOf(bars);
    if s.BaseStart() !in byStart {
      r.exitReason := DataIncomplete;
      r.flags := [BaseMissing];
      return;
    }
    var first := byStart[s.BaseStart()];
    r.base := Some(first);
    if s.SecondLastStart() in byStart {
      r.secondLast := Some(byStart[s.SecondLastStart()]);
    } else {
      r.flags := [SecondLastMissing];
    }
    var after := BetweenOf(byStart, s.FirstEnd(), s.LastStart());
    r.Trade(first, after, minutes, s);
  }
}
