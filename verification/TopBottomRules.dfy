/** The always-reversing rules (backtest.py:1-33), read off closes and levels: a run has exactly the signals that obey
    them. */
module TopBottomRules {
  import opened Common
  import opened TopBottomMachine
  import opened TopBottomTheorems

  // ---- The rules -------------------------------------------------------------------------

  /** Both levels are known on bar `i` and its close lies beyond one of them. */
  ghost predicate BreaksOut(bars: seq<Bar>, i: nat)
    requires i < |bars|
  {
    var lv := LevelsAfter(bars, i + 1);
    lv.top.Some? && lv.bottom.Some? && (bars[i].close > lv.top.value || bars[i].close < lv.bottom.value)
  }

  /** The first signal: on the first bar to break out, at the level that was broken. */
  ghost predicate Starts(bars: seq<Bar>, s: Signal) {
    var i := s.signalIndex;
    && i < |bars| && BreaksOut(bars, i)
    && (forall j :: 0 <= j < i ==> !BreaksOut(bars, j))
    && var lv := LevelsAfter(bars, i + 1);
       s == if bars[i].close > lv.top.value then Signal(Buy, i, bars[i].date, lv.top.value, lv.top.value)
            else Signal(Sell, i, bars[i].date, lv.bottom.value, lv.bottom.value)
  }

  predicate Through(direction: Direction, stop: real, close: real) {
    if direction == Buy then close < stop else close > stop
  }

  /** The stop of the trade that began with `s` holds on bar `i`. */
  ghost predicate HeldAt(bars: seq<Bar>, s: Signal, i: nat)
    requires i < |bars|
  {
    exists stop: real :: RunningExtreme(bars, s.direction, stop, s.signalIndex, i) && !Through(s.direction, stop, bars[i].close)
  }

  ghost predicate HeldBefore(bars: seq<Bar>, s: Signal, n: nat)
    requires n <= |bars|
  {
    forall i :: s.signalIndex < i < n ==> HeldAt(bars, s, i)
  }

  /** The next signal: the other way, at the stop, on the first bar that closes through it. */
  ghost predicate Turns(bars: seq<Bar>, s: Signal, next: Signal) {
    var i := next.signalIndex;
    && s.signalIndex < i < |bars|
    && next == Signal(if s.direction == Buy then Sell else Buy, i, bars[i].date, next.entryPrice, next.entryPrice)
    && RunningExtreme(bars, s.direction, next.entryPrice, s.signalIndex, i)
    && Through(s.direction, next.entryPrice, bars[i].close)
    && HeldBefore(bars, s, i)
  }

  /** The signals of the first `n` bars, none missing. */
  ghost predicate SignalsObey(bars: seq<Bar>, signals: seq<Signal>, n: nat)
    requires n <= |bars|
  {
    && (signals == [] ==> forall i :: 0 <= i < n ==> !BreaksOut(bars, i))
    && (signals != [] ==>
          && Starts(bars, signals[0])
          && signals[|signals| - 1].signalIndex < n
          && HeldBefore(bars, signals[|signals| - 1], n))
    && forall j, k :: 0 <= j && k == j + 1 < |signals| ==> Turns(bars, signals[j], signals[k])
  }

  /** Every trade begins with its signal and the latest level on the losing side. */
  ghost predicate StopsAtAnchors(bars: seq<Bar>, signals: seq<Signal>, trades: seq<TradeValue>) {
    && |signals| == |trades|
    && forall k :: 0 <= k < |trades| ==>
         signals[k].signalIndex < |bars| && Some(trades[k].initialSl) == AnchorAt(bars, trades[k].direction, signals[k].signalIndex)
  }

  // ---- Runs obey them --------------------------------------------------------------------

  lemma FirstEntryIs(bars: seq<Bar>, n: nat)
    requires n < |bars|
    ensures var lv := LevelsAfter(bars, n + 1);
            match FirstEntry(lv, bars[n].close)
            case None => !BreaksOut(bars, n)
            case Some(Buy) => BreaksOut(bars, n) && bars[n].close > lv.top.value
            case Some(Sell) => BreaksOut(bars, n) && !(bars[n].close > lv.top.value)
  {
    hide LevelsAfter;
  }

  lemma HeldOnce(bars: seq<Bar>, s: Signal, n: nat, stop: real)
    requires n < |bars| && s.signalIndex < n && HeldBefore(bars, s, n)
    requires RunningExtreme(bars, s.direction, stop, s.signalIndex, n) && !Through(s.direction, stop, bars[n].close)
    ensures HeldBefore(bars, s, n + 1)
  {
    hide RunningExtreme;
    assert HeldAt(bars, s, n);
    hide HeldAt;
  }

  lemma Appended(bars: seq<Bar>, signals: seq<Signal>, n: nat, next: Signal)
    requires n < |bars| && next.signalIndex == n && SignalsObey(bars, signals, n)
    requires if signals == [] then Starts(bars, next) else Turns(bars, signals[|signals| - 1], next)
    ensures SignalsObey(bars, signals + [next], n + 1)
  {
    hide Starts, Turns, BreaksOut, HeldAt;
  }

  /** The machine as far as the rules see it. */
  ghost predicate Obeys(bars: seq<Bar>, m: Machine, n: nat)
    requires n <= |bars|
  {
    && Chained(m) && OpenStopIsExtreme(bars, m, n)
    && SignalsObey(bars, m.signals, n)
    && StopsAtAnchors(bars, m.signals, AllTrades(m))
  }

  lemma FlatObeys(bars: seq<Bar>, m: Machine, n: nat)
    requires n < |bars| && m.seen == n && m.levels == LevelsAfter(bars, n) && m.open.None? && Obeys(bars, m, n)
    ensures SignalsObey(bars, Step(m, bars[n]).signals, n + 1)
    ensures StopsAtAnchors(bars, Step(m, bars[n]).signals, AllTrades(Step(m, bars[n])))
  {
    hide BreaksOut, RunningExtreme, LevelsAfter, HeldAt;
    FirstEntryIs(bars, n);
    assert LevelsAfter(bars, n + 1) == m.levels.Next(bars[n].close) by { NextLevels(bars, n); }
    if FirstEntry(LevelsAfter(bars, n + 1), bars[n].close).Some? {
      var next := Step(m, bars[n]).signals[0];
      assert Starts(bars, next);
      Appended(bars, m.signals, n, next);
    }
  }

  lemma NextLevels(bars: seq<Bar>, n: nat)
    requires n < |bars|
    ensures LevelsAfter(bars, n + 1) == LevelsAfter(bars, n).Next(bars[n].close)
  {
  }

  lemma TrailKeeps(t: TradeValue, lv: Levels, date: int)
    ensures Trail(t, lv, date).direction == t.direction && Trail(t, lv, date).initialSl == t.initialSl
  {
  }

  lemma StepWhileHeld(m: Machine, bar: Bar)
    requires m.open.Some?
    requires var t := Trail(m.open.value, m.levels.Next(bar.close), bar.date); !Through(t.direction, t.activeStop, bar.close)
    ensures Step(m, bar).signals == m.signals && Step(m, bar).trades == m.trades
    ensures Step(m, bar).open == Some(Trail(m.open.value, m.levels.Next(bar.close), bar.date))
  {
    hide Trail;
    TrailKeeps(m.open.value, m.levels.Next(bar.close), bar.date);
  }

  /** What `Obeys` says of the open trade. */
  lemma OpenTrade(bars: seq<Bar>, m: Machine, n: nat, t: TradeValue, s: Signal)
    requires n < |bars| && m.seen == n && m.levels == LevelsAfter(bars, n) && m.open.Some? && Obeys(bars, m, n)
    requires t == Trail(m.open.value, LevelsAfter(bars, n + 1), bars[n].date)
    requires m.signals != [] && s == m.signals[|m.signals| - 1]
    ensures SignalsObey(bars, m.signals, n) && HeldBefore(bars, s, n) && StopsAtAnchors(bars, m.signals, m.trades + [m.open.value])
    ensures |m.signals| == |m.trades| + 1 && s.direction == t.direction == m.open.value.direction && s.signalIndex < n
    ensures t.initialSl == m.open.value.initialSl
    ensures RunningExtreme(bars, s.direction, t.activeStop, s.signalIndex, n)
  {
    hide RunningExtreme, OneWayStop, Starts, HeldAt, Turns, AnchorAt, Trail;
    HeldStopIsExtreme(bars, m, n);
    TrailKeeps(m.open.value, LevelsAfter(bars, n + 1), bars[n].date);
  }

  lemma BreachObeys(bars: seq<Bar>, m: Machine, n: nat, t: TradeValue, s: Signal)
    requires n < |bars| && m.seen == n && m.levels == LevelsAfter(bars, n) && m.open.Some? && Obeys(bars, m, n)
    requires t == Trail(m.open.value, LevelsAfter(bars, n + 1), bars[n].date)
    requires m.signals != [] && s == m.signals[|m.signals| - 1] && Through(t.direction, t.activeStop, bars[n].close)
    ensures SignalsObey(bars, Step(m, bars[n]).signals, n + 1)
    ensures StopsAtAnchors(bars, Step(m, bars[n]).signals, AllTrades(Step(m, bars[n])))
  {
    hide RunningExtreme, HeldAt, BreaksOut, Trail, OneWayStop, Starts, Step, Levels.Next, Turns, SignalsObey, StopsAtAnchors, StopHit;
    OpenTrade(bars, m, n, t, s);
    NextLevels(bars, n);
    ThroughIs(t, bars[n].close);
    StepOnBreach(m, bars[n]);
    TurnsAt(bars, s, n, t.activeStop);
    Appended(bars, m.signals, n, TurnAt(bars, s, n, t.activeStop));
    StopsAppend(bars, m.signals, m.trades, m.open.value, t.Close(bars[n].date, t.activeStop, TrailingStopReversal),
                Step(m, bars[n]).open.value, TurnAt(bars, s, n, t.activeStop));
  }

  lemma ThroughIs(t: TradeValue, close: real)
    ensures Through(t.direction, t.activeStop, close) <==> StopHit(t.direction, t.activeStop, close)
  {
  }

  function TurnAt(bars: seq<Bar>, s: Signal, n: nat, stop: real): Signal
    requires n < |bars|
  {
    Signal(Opposite(s.direction), n, bars[n].date, stop, stop)
  }

  lemma TurnsAt(bars: seq<Bar>, s: Signal, n: nat, stop: real)
    requires s.signalIndex < n < |bars| && HeldBefore(bars, s, n)
    requires RunningExtreme(bars, s.direction, stop, s.signalIndex, n) && Through(s.direction, stop, bars[n].close)
    ensures Turns(bars, s, TurnAt(bars, s, n, stop))
  {
    hide RunningExtreme, HeldBefore;
  }

  lemma StopsAppend(bars: seq<Bar>, signals: seq<Signal>, trades: seq<TradeValue>, open: TradeValue, closed: TradeValue,
                    reversed: TradeValue, next: Signal)
    requires StopsAtAnchors(bars, signals, trades + [open]) && closed.initialSl == open.initialSl && closed.direction == open.direction
    requires next.signalIndex < |bars| && Some(reversed.initialSl) == AnchorAt(bars, reversed.direction, next.signalIndex)
    ensures StopsAtAnchors(bars, signals + [next], trades + [closed] + [reversed])
  {
    hide AnchorAt;
    var before, after := trades + [open], trades + [closed] + [reversed];
    assert forall k :: 0 <= k < |trades| ==> after[k] == before[k];
    assert before[|trades|] == open && after[|trades|] == closed;
  }

  lemma HoldingObeys(bars: seq<Bar>, m: Machine, n: nat, t: TradeValue, s: Signal)
    requires n < |bars| && m.seen == n && m.levels == LevelsAfter(bars, n) && m.open.Some? && Obeys(bars, m, n)
    requires t == Trail(m.open.value, LevelsAfter(bars, n + 1), bars[n].date)
    requires m.signals != [] && s == m.signals[|m.signals| - 1] && !Through(t.direction, t.activeStop, bars[n].close)
    ensures SignalsObey(bars, Step(m, bars[n]).signals, n + 1)
    ensures StopsAtAnchors(bars, Step(m, bars[n]).signals, AllTrades(Step(m, bars[n])))
  {
    OpenTrade(bars, m, n, t, s);
    NextLevels(bars, n);
    StepWhileHeld(m, bars[n]);
    hide RunningExtreme, HeldAt, BreaksOut, Trail, OneWayStop, Starts, Turns, AnchorAt, Step, Levels.Next;
    HeldOnce(bars, s, n, t.activeStop);
    hide HeldBefore;
  }

  lemma OpenObeys(bars: seq<Bar>, m: Machine, n: nat)
    requires n < |bars| && m.seen == n && m.levels == LevelsAfter(bars, n) && m.open.Some? && Obeys(bars, m, n)
    ensures SignalsObey(bars, Step(m, bars[n]).signals, n + 1)
    ensures StopsAtAnchors(bars, Step(m, bars[n]).signals, AllTrades(Step(m, bars[n])))
  {
    var t := Trail(m.open.value, LevelsAfter(bars, n + 1), bars[n].date);
    assert |m.signals| == |m.trades| + 1;
    hide Obeys, Trail, SignalsObey, StopsAtAnchors, Step;
    if Through(t.direction, t.activeStop, bars[n].close) {
      BreachObeys(bars, m, n, t, m.signals[|m.trades|]);
    } else {
      HoldingObeys(bars, m, n, t, m.signals[|m.trades|]);
    }
  }

  lemma StepObeys(bars: seq<Bar>, m: Machine, n: nat)
    requires n < |bars| && m.seen == n && m.levels == LevelsAfter(bars, n) && Obeys(bars, m, n)
    requires Chained(Step(m, bars[n])) && OpenStopIsExtreme(bars, Step(m, bars[n]), n + 1)
    ensures Obeys(bars, Step(m, bars[n]), n + 1)
  {
    hide SignalsObey, StopsAtAnchors, Chained, OpenStopIsExtreme, Step, LevelsAfter, AllTrades;
    if m.open.None? {
      FlatObeys(bars, m, n);
    } else {
      OpenObeys(bars, m, n);
    }
  }

  lemma StartObeys(bars: seq<Bar>)
    ensures Obeys(bars, START, 0)
  {
  }

  /** The signals of a run obey the rules, and its trades begin at their anchors. */
  lemma {:induction false} RunObeys(bars: seq<Bar>, n: nat)
    requires n <= |bars|
    ensures Obeys(bars, RunTo(bars, n), n)
  {
    hide Obeys, Chained, OpenStopIsExtreme, ClosedStopsAreExtremes, Step, LevelsAfter;
    if n == 0 {
      StartObeys(bars);
    } else {
      RunObeys(bars, n - 1);
      RunChained(bars, n);
      StopIsRunningExtreme(bars, n);
      StepObeys(bars, RunTo(bars, n - 1), n - 1);
    }
  }

  // ---- And no other signals do -----------------------------------------------------------

  lemma OneStop(bars: seq<Bar>, direction: Direction, a: real, b: real, first: nat, last: nat)
    requires RunningExtreme(bars, direction, a, first, last) && RunningExtreme(bars, direction, b, first, last)
    ensures a == b
  {
    hide AnchorAt;
    var i :| first <= i <= last && AnchorAt(bars, direction, i) == Some(a);
    var j :| first <= j <= last && AnchorAt(bars, direction, j) == Some(b);
  }

  /** A trade does not hold where it turns. */
  lemma TurnsOrHolds(bars: seq<Bar>, s: Signal, next: Signal)
    requires Turns(bars, s, next)
    ensures !HeldAt(bars, s, next.signalIndex)
  {
    hide RunningExtreme;
    var i := next.signalIndex;
    if HeldAt(bars, s, i) {
      var stop: real :| RunningExtreme(bars, s.direction, stop, s.signalIndex, i) && !Through(s.direction, stop, bars[i].close);
      OneStop(bars, s.direction, stop, next.entryPrice, s.signalIndex, i);
    }
  }

  lemma OneTurn(bars: seq<Bar>, s: Signal, a: Signal, b: Signal)
    requires Turns(bars, s, a) && Turns(bars, s, b)
    ensures a == b
  {
    hide RunningExtreme, HeldAt;
    TurnsOrHolds(bars, s, a);
    TurnsOrHolds(bars, s, b);
    assert a.signalIndex == b.signalIndex;
    OneStop(bars, s.direction, a.entryPrice, b.entryPrice, s.signalIndex, a.signalIndex);
  }

  lemma OneStart(bars: seq<Bar>, a: Signal, b: Signal)
    requires Starts(bars, a) && Starts(bars, b)
    ensures a == b
  {
    hide BreaksOut, LevelsAfter;
  }

  /** What one list of signals has at `k`, every other one has. */
  lemma {:induction false} SameSignal(bars: seq<Bar>, a: seq<Signal>, b: seq<Signal>, k: nat)
    requires SignalsObey(bars, a, |bars|) && SignalsObey(bars, b, |bars|) && k < |a|
    ensures k < |b| && a[k] == b[k]
  {
    hide BreaksOut, HeldAt, LevelsAfter, RunningExtreme;
    if k == 0 {
      assert Starts(bars, a[0]);
      if b != [] {
        OneStart(bars, a[0], b[0]);
      }
    } else {
      SameSignal(bars, a, b, k - 1);
      assert Turns(bars, a[k - 1], a[k]);
      TurnsOrHolds(bars, a[k - 1], a[k]);
      if k < |b| {
        OneTurn(bars, a[k - 1], a[k], b[k]);
      }
    }
  }

  /** A list of signals is the one of the run if and only if it obeys the rules. */
  lemma SignalsIff(bars: seq<Bar>, signals: seq<Signal>)
    ensures signals == Run(bars).signals <==> SignalsObey(bars, signals, |bars|)
  {
    hide SignalsObey, RunTo;
    RunObeys(bars, |bars|);
    var own := Run(bars).signals;
    if SignalsObey(bars, signals, |bars|) {
      forall k | 0 <= k < |signals|
        ensures k < |own| && signals[k] == own[k]
      {
        SameSignal(bars, signals, own, k);
      }
      if |signals| > |own| {
        SameSignal(bars, signals, own, |own|);
      } else if |signals| < |own| {
        SameSignal(bars, own, signals, |signals|);
      }
      assert signals == own;
    }
  }

  /** Every reported trade starts with the latest level on its losing side as its stop. */
  lemma TradesStopAtAnchors(bars: seq<Bar>)
    ensures StopsAtAnchors(bars, Run(bars).signals, Report(bars))
  {
    hide SignalsObey, RunTo, Chained, OpenStopIsExtreme, AnchorAt;
    RunObeys(bars, |bars|);
    NothingWithoutBars(bars);
    var own, all := AllTrades(Run(bars)), Report(bars);
    assert |own| == |all| && forall k :: 0 <= k < |all| ==> all[k].initialSl == own[k].initialSl && all[k].direction == own[k].direction;
  }

  lemma NothingWithoutBars(bars: seq<Bar>)
    ensures bars == [] ==> Run(bars) == START
  {
  }
}
