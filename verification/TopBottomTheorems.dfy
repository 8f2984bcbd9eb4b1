/** What the Top-Bottom engine promises over whole runs. */
module TopBottomTheorems {
  import opened Common
  import opened TopBottomMachine

  // ---- No flat gap, strict alternation, one-to-one signals, one-way stops ----------------

  /** Strictly better protected. */
  predicate StrictlyTighter(direction: Direction, before: real, after: real) {
    if direction == Buy then before < after else after < before
  }

  /** The stop history starts at the initial stop, moves strictly one way and ends at the stop in force. */
  ghost predicate OneWayStop(t: TradeValue) {
    && |t.stopHistory| > 0
    && t.stopHistory[0] == (t.entryDate, t.initialSl)
    && t.stopHistory[|t.stopHistory| - 1].1 == t.activeStop
    && forall j, k :: 0 <= j < k < |t.stopHistory| ==> StrictlyTighter(t.direction, t.stopHistory[j].1, t.stopHistory[k].1)
  }

  ghost predicate SignalOf(s: Signal, t: TradeValue) {
    s.direction == t.direction && s.signalDate == t.entryDate && s.systemPoint == t.systemPoint && s.entryPrice == t.entryPrice
  }

  /** `next` takes over exactly where `t` ended. */
  ghost predicate Reverses(t: TradeValue, next: TradeValue) {
    && t.exitReason == Some(TrailingStopReversal)
    && t.exitPrice == Some(t.activeStop)
    && next.direction == Opposite(t.direction)
    && t.exitDate == Some(next.entryDate)
    && t.exitPrice == Some(next.entryPrice)
  }

  ghost predicate Chained(m: Machine) {
    && (|m.trades| > 0 ==> m.open.Some?)
    && (m.open.Some? ==> m.levels.Both())
    && |m.signals| == |m.trades| + (if m.open.Some? then 1 else 0)
    && (forall k :: 0 <= k < |m.trades| ==> SignalOf(m.signals[k], m.trades[k]) && OneWayStop(m.trades[k]))
    && (forall j, k :: 0 <= j && k == j + 1 < |m.trades| ==> Reverses(m.trades[j], m.trades[k]))
    && (m.open.Some? ==> SignalOf(m.signals[|m.trades|], m.open.value) && OneWayStop(m.open.value))
    && (m.open.Some? && |m.trades| > 0 ==> Reverses(m.trades[|m.trades| - 1], m.open.value))
  }

  lemma TrailIsOneWay(t: TradeValue, lv: Levels, date: int)
    requires OneWayStop(t)
    ensures OneWayStop(Trail(t, lv, date))
  {
  }

  lemma EnterChained(m: Machine, direction: Direction, point: real, stop: real, bar: Bar)
    requires m.open.None? && |m.signals| == |m.trades| && m.levels.Both()
    requires forall k :: 0 <= k < |m.trades| ==> SignalOf(m.signals[k], m.trades[k]) && OneWayStop(m.trades[k])
    requires forall j, k :: 0 <= j && k == j + 1 < |m.trades| ==> Reverses(m.trades[j], m.trades[k])
    requires |m.trades| > 0 ==> Reverses(m.trades[|m.trades| - 1], Opened(direction, point, stop, bar.date))
    ensures Chained(Enter(m, direction, point, stop, bar))
  {
  }

  lemma CloseChained(m: Machine, t: TradeValue, date: int)
    requires Chained(m) && m.open.Some? && OneWayStop(t)
    requires t.(stopHistory := m.open.value.stopHistory, activeStop := m.open.value.activeStop) == m.open.value
    ensures var closed := t.Close(date, t.activeStop, TrailingStopReversal);
            var trades := m.trades + [closed];
            && (forall k :: 0 <= k < |trades| ==> SignalOf(m.signals[k], trades[k]) && OneWayStop(trades[k]))
            && (forall j, k :: 0 <= j && k == j + 1 < |trades| ==> Reverses(trades[j], trades[k]))
  {
  }

  /** One bar keeps the chain; a machine that holds a trade holds one afterwards, because both
      levels exist and so the reversed trade always has an anchor for its stop. */
  lemma StepChained(m: Machine, bar: Bar)
    requires Chained(m)
    ensures Chained(Step(m, bar))
    ensures m.open.Some? ==> Step(m, bar).open.Some?
  {
    var lv := m.levels.Next(bar.close);
    if m.open.Some? {
      var t := m.open.value;
      var trailed := Trail(t, lv, bar.date);
      TrailIsOneWay(t, lv, bar.date);
      if StopHit(t.direction, trailed.activeStop, bar.close) {
        CloseChained(m, trailed, bar.date);
        var closed := m.(seen := m.seen, levels := lv, open := None,
                         trades := m.trades + [trailed.Close(bar.date, trailed.activeStop, TrailingStopReversal)]);
        EnterChained(closed, Opposite(t.direction), trailed.activeStop, Anchor(Opposite(t.direction), lv).value, bar);
      }
    } else {
      var entry := FirstEntry(lv, bar.close);
      if entry.Some? {
        var ready := m.(levels := lv);
        if entry.value == Buy {
          EnterChained(ready, Buy, lv.top.value, lv.bottom.value, bar);
        } else {
          EnterChained(ready, Sell, lv.bottom.value, lv.top.value, bar);
        }
      }
    }
  }

  lemma {:induction false} RunChained(bars: seq<Bar>, n: nat)
    requires n <= |bars|
    ensures Chained(RunTo(bars, n))
  {
    if n > 0 {
      RunChained(bars, n - 1);
      StepChained(RunTo(bars, n - 1), bars[n - 1]);
    }
  }

  /** What the report owes to the chain: one signal per trade, each trade reversing the one before. */
  ghost predicate ChainedReport(signals: seq<Signal>, all: seq<TradeValue>) {
    && |signals| == |all|
    && (forall k :: 0 <= k < |all| ==> SignalOf(signals[k], all[k]) && OneWayStop(all[k]))
    && (forall j, k :: 0 <= j && k == j + 1 < |all| ==> Reverses(all[j], all[k]))
  }

  /** Closing a trade changes neither its signal, nor its stops, nor what it reversed. */
  lemma CloseKeeps(s: Signal, before: Option<TradeValue>, t: TradeValue, date: int, price: real, reason: ExitReason)
    requires SignalOf(s, t) && OneWayStop(t) && (before.Some? ==> Reverses(before.value, t))
    ensures var closed := t.Close(date, price, reason);
            SignalOf(s, closed) && OneWayStop(closed) && (before.Some? ==> Reverses(before.value, closed))
  {
  }

  lemma CloseAtEnd(m: Machine, last: Bar)
    requires Chained(m)
    ensures ChainedReport(m.signals,
              if m.open.None? then m.trades
              else m.trades + [m.open.value.Close(last.date, last.close, EndOfBacktest)])
  {
    if m.open.Some? {
      var n := |m.trades|;
      CloseKeeps(m.signals[n], if n == 0 then None else Some(m.trades[n - 1]), m.open.value, last.date, last.close, EndOfBacktest);
    }
  }

  /** Signals and trades correspond one to one, each trade reverses the one before at its very date
      and price, and exactly the last trade ends with the data. */
  lemma ReportIsChained(bars: seq<Bar>)
    ensures ChainedReport(Run(bars).signals, Report(bars))
    ensures |Report(bars)| > 0 ==>
              && bars != []
              && Report(bars)[|Report(bars)| - 1].exitReason == Some(EndOfBacktest)
              && Report(bars)[|Report(bars)| - 1].exitDate == Some(bars[|bars| - 1].date)
              && Report(bars)[|Report(bars)| - 1].exitPrice == Some(bars[|bars| - 1].close)
  {
    RunChained(bars, |bars|);
    if bars != [] {
      CloseAtEnd(Run(bars), bars[|bars| - 1]);
    }
  }

  /** Once the first trade is open the engine is never flat again. */
  lemma {:induction false} NeverFlatAgain(bars: seq<Bar>, i: nat, n: nat)
    requires i <= n <= |bars|
    requires RunTo(bars, i).open.Some?
    ensures RunTo(bars, n).open.Some?
  {
    if i < n {
      NeverFlatAgain(bars, i, n - 1);
      RunChained(bars, n - 1);
      StepChained(RunTo(bars, n - 1), bars[n - 1]);
    }
  }

  // ---- The stop in force is the running extreme of the opposite swings -------------------

  predicate AtLeastAsTight(direction: Direction, stop: real, level: real) {
    if direction == Buy then stop >= level else stop <= level
  }

  ghost function AnchorAt(bars: seq<Bar>, direction: Direction, i: nat): Option<real>
    requires i < |bars|
  {
    Anchor(direction, LevelsAfter(bars, i + 1))
  }

  /** `stop` is the best anchor level seen at bars `first..last`. */
  ghost predicate RunningExtreme(bars: seq<Bar>, direction: Direction, stop: real, first: nat, last: nat) {
    && first <= last < |bars|
    && (forall i :: first <= i <= last ==>
          AnchorAt(bars, direction, i).Some? && AtLeastAsTight(direction, stop, AnchorAt(bars, direction, i).value))
    && exists i :: first <= i <= last && AnchorAt(bars, direction, i) == Some(stop)
  }

  lemma ExtremeGrows(bars: seq<Bar>, direction: Direction, stop: real, first: nat, last: nat)
    requires RunningExtreme(bars, direction, stop, first, last) && last + 1 < |bars|
    requires AnchorAt(bars, direction, last + 1).Some?
    ensures RunningExtreme(bars, direction, Tighter(direction, stop, AnchorAt(bars, direction, last + 1).value), first, last + 1)
  {
    var i :| first <= i <= last && AnchorAt(bars, direction, i) == Some(stop);
    assert first <= i <= last + 1;
  }

  lemma ExtremeStarts(bars: seq<Bar>, direction: Direction, first: nat)
    requires first < |bars| && AnchorAt(bars, direction, first).Some?
    ensures RunningExtreme(bars, direction, AnchorAt(bars, direction, first).value, first, first)
  {
  }

  ghost predicate ClosedStopsAreExtremes(bars: seq<Bar>, trades: seq<TradeValue>, signals: seq<Signal>) {
    && |trades| <= |signals|
    && forall j, k :: 0 <= j < |trades| && k == j + 1 < |signals| ==>
         RunningExtreme(bars, trades[j].direction, trades[j].activeStop, signals[j].signalIndex, signals[k].signalIndex)
  }

  ghost predicate OpenStopIsExtreme(bars: seq<Bar>, m: Machine, n: nat) {
    m.open.Some? ==>
      && 0 < n
      && |m.signals| == |m.trades| + 1
      && RunningExtreme(bars, m.open.value.direction, m.open.value.activeStop, m.signals[|m.trades|].signalIndex, n - 1)
  }

  lemma HeldStopIsExtreme(bars: seq<Bar>, m: Machine, n: nat)
    requires n < |bars| && m.seen == n && m.levels == LevelsAfter(bars, n)
    requires Chained(m) && m.open.Some? && OpenStopIsExtreme(bars, m, n)
    ensures var t := m.open.value; var stop := Trail(t, LevelsAfter(bars, n + 1), bars[n].date).activeStop;
            RunningExtreme(bars, t.direction, stop, m.signals[|m.trades|].signalIndex, n)
  {
    var t := m.open.value;
    assert AnchorAt(bars, t.direction, n).Some?;
    ExtremeGrows(bars, t.direction, t.activeStop, m.signals[|m.trades|].signalIndex, n - 1);
  }

  lemma ClosedExtremesGrow(bars: seq<Bar>, trades: seq<TradeValue>, signals: seq<Signal>, closed: TradeValue, s: Signal)
    requires ClosedStopsAreExtremes(bars, trades, signals) && |signals| == |trades| + 1
    requires RunningExtreme(bars, closed.direction, closed.activeStop, signals[|trades|].signalIndex, s.signalIndex)
    ensures ClosedStopsAreExtremes(bars, trades + [closed], signals + [s])
  {
  }

  /** What a breach does, spelled out. */
  lemma StepOnBreach(m: Machine, bar: Bar)
    requires Chained(m) && m.open.Some?
    requires StopHit(m.open.value.direction, Trail(m.open.value, m.levels.Next(bar.close), bar.date).activeStop, bar.close)
    ensures var lv := m.levels.Next(bar.close); var trailed := Trail(m.open.value, lv, bar.date);
            var reverse := Opposite(m.open.value.direction);
            && Anchor(reverse, lv).Some?
            && Step(m, bar) == Machine(m.seen + 1, lv, Some(Opened(reverse, trailed.activeStop, Anchor(reverse, lv).value, bar.date)),
                 m.signals + [Signal(reverse, m.seen, bar.date, trailed.activeStop, trailed.activeStop)],
                 m.trades + [trailed.Close(bar.date, trailed.activeStop, TrailingStopReversal)])
  {
  }

  lemma StepExtremes(bars: seq<Bar>, m: Machine, n: nat)
    requires n < |bars| && m.seen == n && m.levels == LevelsAfter(bars, n)
    requires Chained(m) && ClosedStopsAreExtremes(bars, m.trades, m.signals) && OpenStopIsExtreme(bars, m, n)
    ensures var next := Step(m, bars[n]);
            ClosedStopsAreExtremes(bars, next.trades, next.signals) && OpenStopIsExtreme(bars, next, n + 1)
  {
    var lv := LevelsAfter(bars, n + 1);
    if m.open.Some? {
      HeldStopIsExtreme(bars, m, n);
      var t := Trail(m.open.value, lv, bars[n].date);
      if StopHit(t.direction, t.activeStop, bars[n].close) {
        StepOnBreach(m, bars[n]);
        var reverse := Opposite(t.direction);
        ExtremeStarts(bars, reverse, n);
        ClosedExtremesGrow(bars, m.trades, m.signals, t.Close(bars[n].date, t.activeStop, TrailingStopReversal),
                           Signal(reverse, n, bars[n].date, t.activeStop, t.activeStop));
      }
    } else {
      var entry := FirstEntry(lv, bars[n].close);
      if entry.Some? {
        ExtremeStarts(bars, entry.value, n);
      }
    }
  }

  /** At every moment the open trade's stop is the extreme of the opposite levels since its entry bar,
      and every closed trade's final stop is the extreme from its entry bar to its exit bar. */
  lemma {:induction false} StopIsRunningExtreme(bars: seq<Bar>, n: nat)
    requires n <= |bars|
    ensures ClosedStopsAreExtremes(bars, RunTo(bars, n).trades, RunTo(bars, n).signals) && OpenStopIsExtreme(bars, RunTo(bars, n), n)
  {
    if n > 0 {
      StopIsRunningExtreme(bars, n - 1);
      RunChained(bars, n - 1);
      StepExtremes(bars, RunTo(bars, n - 1), n - 1);
    }
  }

  // ---- No look-ahead ---------------------------------------------------------------------

  /** `later` is the same trade at a later moment. */
  ghost predicate Continues(t: TradeValue, later: TradeValue) {
    && later.direction == t.direction && later.entryDate == t.entryDate && later.entryPrice == t.entryPrice
    && later.systemPoint == t.systemPoint && later.initialSl == t.initialSl
    && t.stopHistory <= later.stopHistory
  }

  ghost predicate Extends(p: Machine, f: Machine) {
    && p.signals <= f.signals
    && p.trades <= f.trades
    && (p.open.Some? ==> |AllTrades(f)| > |p.trades| && Continues(p.open.value, AllTrades(f)[|p.trades|]))
  }

  lemma StepExtends(p: Machine, m: Machine, bar: Bar)
    requires Extends(p, m)
    ensures Extends(p, Step(m, bar))
  {
  }

  lemma {:induction false} RunExtends(bars: seq<Bar>, n: nat, i: nat)
    requires n <= i <= |bars|
    ensures Extends(RunTo(bars, n), RunTo(bars, i))
  {
    if n < i {
      RunExtends(bars, n, i - 1);
      StepExtends(RunTo(bars, n), RunTo(bars, i - 1), bars[i - 1]);
    }
  }

  /** The k-th trades agree, except that the last one of the shorter run may be a forced close. */
  ghost predicate SameOrCutShort(short: seq<TradeValue>, full: seq<TradeValue>, k: nat)
    requires k < |short| <= |full|
  {
    || short[k] == full[k]
    || (k == |short| - 1 && short[k].exitReason == Some(EndOfBacktest) && Continues(short[k], full[k]))
  }

  lemma {:induction false} RunOnPrefix(bars: seq<Bar>, n: nat, i: nat)
    requires i <= n <= |bars|
    ensures RunTo(bars[..n], i) == RunTo(bars, i)
  {
    if i > 0 {
      RunOnPrefix(bars, n, i - 1);
    }
  }

  lemma CutShort(p: Machine, f: Machine, short: seq<TradeValue>, full: seq<TradeValue>, pEnd: Bar, fEnd: Bar)
    requires Extends(p, f)
    requires short == if p.open.None? then p.trades else p.trades + [p.open.value.Close(pEnd.date, pEnd.close, EndOfBacktest)]
    requires full == if f.open.None? then f.trades else f.trades + [f.open.value.Close(fEnd.date, fEnd.close, EndOfBacktest)]
    ensures |short| <= |full| && forall k :: 0 <= k < |short| ==> SameOrCutShort(short, full, k)
  {
  }

  /** A run on the first `n` bars yields a prefix of the full run's signals and reversed trades;
      only the forced close of its last trade differs, and that trade is the full run's next one. */
  lemma NoLookAhead(bars: seq<Bar>, n: nat)
    requires n <= |bars|
    ensures Run(bars[..n]).signals <= Run(bars).signals
    ensures Run(bars[..n]).trades <= Run(bars).trades
    ensures |Report(bars[..n])| <= |Report(bars)|
    ensures forall k :: 0 <= k < |Report(bars[..n])| ==> SameOrCutShort(Report(bars[..n]), Report(bars), k)
  {
    RunExtends(bars, n, |bars|);
    RunOnPrefix(bars, n, n);
    if n > 0 {
      CutShort(RunTo(bars, n), Run(bars), Report(bars[..n]), Report(bars), bars[n - 1], bars[|bars| - 1]);
    }
  }
}
