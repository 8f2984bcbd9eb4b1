/** When the initial stop really protects: exactly when, and a condition on the closes that suffices. */
module TopBottomProtection {
  import opened Common
  import opened TopBottomMachine
  import opened TopBottomTheorems

  /** The initial stop is strictly on the losing side of the entry. */
  predicate Protective(t: TradeValue) {
    if t.direction == Buy then t.initialSl < t.entryPrice else t.initialSl > t.entryPrice
  }

  /** A stop-free reading of the closes: long after a close above the latest top, short after a
      close below the latest bottom, whichever came last. */
  datatype Regime = Flat | Long | Short

  function NextRegime(r: Regime, lv: Levels, close: real): Regime {
    if !lv.Both() then r
    else match r
      case Flat => if close > lv.top.value then Long else if close < lv.bottom.value then Short else Flat
      case Long => if close < lv.bottom.value then Short else Long
      case Short => if close > lv.top.value then Long else Short
  }

  function RegimeAfter(bars: seq<Bar>, n: nat): Regime
    requires n <= |bars|
  {
    if n == 0 then Flat else NextRegime(RegimeAfter(bars, n - 1), LevelsAfter(bars, n), bars[n - 1].close)
  }

  /** At every change of regime the latest bottom is strictly below the latest top. */
  ghost predicate OrderedAtTurns(bars: seq<Bar>, n: nat)
    requires n <= |bars|
  {
    forall i :: 0 <= i < n && RegimeAfter(bars, i + 1) != RegimeAfter(bars, i) ==> Ordered(LevelsAfter(bars, i + 1))
  }

  predicate Ordered(lv: Levels) {
    lv.Both() && lv.bottom.value < lv.top.value
  }

  ghost predicate AllProtective(m: Machine) {
    && (forall k :: 0 <= k < |m.trades| ==> Protective(m.trades[k]))
    && (m.open.Some? ==> Protective(m.open.value))
  }

  /** In a protected run the trailing stop is simply the latest opposite level, and it has not been breached. */
  predicate Aligned(m: Machine, r: Regime) {
    match m.open
    case None => r == Flat
    case Some(t) =>
      && r == (if t.direction == Buy then Long else Short)
      && Anchor(t.direction, m.levels) == Some(t.activeStop)
      && m.levels.last.Some?
      && !StopHit(t.direction, t.activeStop, m.levels.last.value)
  }

  /** While a protected trade is open, the next anchor level is never worse than its stop. */
  lemma AnchorNeverRetreats(m: Machine, r: Regime, bar: Bar)
    requires Chained(m) && m.open.Some? && Aligned(m, r)
    ensures var t := m.open.value; var lv := m.levels.Next(bar.close);
            Anchor(t.direction, lv) == Some(Trail(t, lv, bar.date).activeStop)
  {
  }

  lemma StepProtected(m: Machine, r: Regime, bar: Bar)
    requires Chained(m) && AllProtective(m) && Aligned(m, r)
    ensures var lv := m.levels.Next(bar.close); var next := NextRegime(r, lv, bar.close);
            && (AllProtective(Step(m, bar)) <==> (next == r || Ordered(lv)))
            && (AllProtective(Step(m, bar)) ==> Aligned(Step(m, bar), next))
  {
    var lv := m.levels.Next(bar.close);
    if m.open.Some? {
      AnchorNeverRetreats(m, r, bar);
      var t := Trail(m.open.value, lv, bar.date);
      if StopHit(t.direction, t.activeStop, bar.close) {
        StepOnBreach(m, bar);
        var next := Step(m, bar);
        assert next.trades[|m.trades|].initialSl == t.initialSl;
        assert forall k :: 0 <= k < |m.trades| ==> next.trades[k] == m.trades[k];
      }
    }
  }

  lemma StaysUnprotected(m: Machine, bar: Bar)
    requires !AllProtective(m)
    ensures !AllProtective(Step(m, bar))
  {
    var next := Step(m, bar);
    if k :| 0 <= k < |m.trades| && !Protective(m.trades[k]) {
      assert next.trades[k] == m.trades[k];
    } else if m.open.Some? && next.open != m.open && |next.trades| > |m.trades| {
      assert !Protective(next.trades[|m.trades|]);
    }
  }

  lemma {:induction false} ProtectedUpTo(bars: seq<Bar>, n: nat)
    requires n <= |bars|
    ensures AllProtective(RunTo(bars, n)) <==> OrderedAtTurns(bars, n)
    ensures AllProtective(RunTo(bars, n)) ==> Aligned(RunTo(bars, n), RegimeAfter(bars, n))
  {
    if n > 0 {
      ProtectedUpTo(bars, n - 1);
      var m := RunTo(bars, n - 1);
      if AllProtective(m) {
        RunChained(bars, n - 1);
        StepProtected(m, RegimeAfter(bars, n - 1), bars[n - 1]);
      } else {
        StaysUnprotected(m, bars[n - 1]);
      }
    }
  }

  /** For every series: all initial stops protect if and only if the levels are ordered at each turn. */
  lemma ProtectedIff(bars: seq<Bar>)
    ensures (forall t :: t in Report(bars) ==> Protective(t)) <==> OrderedAtTurns(bars, |bars|)
  {
    ProtectedUpTo(bars, |bars|);
    var m, all := Run(bars), Report(bars);
    assert |bars| == 0 ==> m == START;
    if AllProtective(m) {
      forall t | t in all
        ensures Protective(t)
      {
      }
    }
    if forall t :: t in all ==> Protective(t) {
      assert forall k :: 0 <= k < |m.trades| ==> m.trades[k] in all;
      if m.open.Some? {
        assert all[|m.trades|] in all;
      }
    }
  }

  // ---- What protection gives -------------------------------------------------------------

  /** Every signal fires on a close strictly beyond its entry price. */
  ghost predicate EntryClosesBeyond(bars: seq<Bar>, signals: seq<Signal>, n: nat) {
    forall k :: 0 <= k < |signals| ==>
      signals[k].signalIndex < n <= |bars|
      && StopHit(Opposite(signals[k].direction), signals[k].entryPrice, bars[signals[k].signalIndex].close)
  }

  lemma StepSignals(m: Machine, bar: Bar)
    ensures m.signals <= Step(m, bar).signals
    ensures |Step(m, bar).signals| <= |m.signals| + 1
    ensures |Step(m, bar).signals| == |m.signals| + 1 ==>
              var s := Step(m, bar).signals[|m.signals|];
              s.signalIndex == m.seen && StopHit(Opposite(s.direction), s.entryPrice, bar.close)
  {
  }

  lemma {:induction false} EntriesCloseBeyond(bars: seq<Bar>, n: nat)
    requires n <= |bars|
    ensures EntryClosesBeyond(bars, RunTo(bars, n).signals, n)
  {
    if n > 0 {
      EntriesCloseBeyond(bars, n - 1);
      var m := RunTo(bars, n - 1);
      StepSignals(m, bars[n - 1]);
      forall k | 0 <= k < |m.signals|
        ensures RunTo(bars, n).signals[k] == m.signals[k]
      {
      }
    }
  }

  lemma FinalStopBeatsInitial(t: TradeValue)
    requires OneWayStop(t)
    ensures AtLeastAsTight(t.direction, t.activeStop, t.initialSl)
  {
    if |t.stopHistory| > 1 {
      assert StrictlyTighter(t.direction, t.stopHistory[0].1, t.stopHistory[|t.stopHistory| - 1].1);
    }
  }

  ghost predicate KeepsItsRisk(t: TradeValue, entryBarClose: real) {
    && Protective(t)
    && StopHit(Opposite(t.direction), t.initialSl, entryBarClose)
    && t.exitPrice.Some?
    && AtLeastAsTight(t.direction, t.exitPrice.value, t.initialSl)
    && t.PnlPoints().value >= -(if t.direction == Buy then t.entryPrice - t.initialSl else t.initialSl - t.entryPrice)
  }

  lemma KeepsRiskBy(s: Signal, t: TradeValue, close: real)
    requires SignalOf(s, t) && OneWayStop(t) && Protective(t) && StopHit(Opposite(s.direction), s.entryPrice, close)
    requires t.exitPrice.Some? && AtLeastAsTight(t.direction, t.exitPrice.value, t.activeStop)
    ensures KeepsItsRisk(t, close)
  {
    FinalStopBeatsInitial(t);
  }

  lemma LastCloseIs(bars: seq<Bar>, n: nat)
    requires 0 < n <= |bars|
    ensures RunTo(bars, n).levels.last == Some(bars[n - 1].close)
  {
  }

  /** In a protected run every exit is at the stop in force or better. */
  lemma ExitsAtTheStopOrBetter(bars: seq<Bar>, k: nat)
    requires OrderedAtTurns(bars, |bars|) && k < |Report(bars)|
    ensures var t := Report(bars)[k];
            Protective(t) && t.exitPrice.Some? && AtLeastAsTight(t.direction, t.exitPrice.value, t.activeStop)
  {
    ReportIsChained(bars);
    RunChained(bars, |bars|);
    ProtectedUpTo(bars, |bars|);
    var m, all := Run(bars), Report(bars);
    assert |bars| == 0 ==> m == START;
    if k + 1 < |all| {
      assert Reverses(all[k], all[k + 1]);
      assert all[k] == m.trades[k];
    } else {
      LastCloseIs(bars, |bars|);
    }
  }

  /** In a protected run every trade, the one closed with the data included, exits no worse than its
      initial stop, so no trade loses more than its initial risk, and the close of its entry bar is
      strictly on the winning side of that stop. */
  lemma NoTradeExitsWorseThanItsInitialStop(bars: seq<Bar>)
    requires OrderedAtTurns(bars, |bars|)
    ensures var all := Report(bars); var signals := Run(bars).signals;
            && |signals| == |all|
            && forall k :: 0 <= k < |all| ==>
                 && signals[k].signalIndex < |bars|
                 && KeepsItsRisk(all[k], bars[signals[k].signalIndex].close)
  {
    ReportIsChained(bars);
    EntriesCloseBeyond(bars, |bars|);
    var all, signals := Report(bars), Run(bars).signals;
    forall k | 0 <= k < |all|
      ensures KeepsItsRisk(all[k], bars[signals[k].signalIndex].close)
    {
      ExitsAtTheStopOrBetter(bars, k);
      assert SignalOf(signals[k], all[k]);
      KeepsRiskBy(signals[k], all[k], bars[signals[k].signalIndex].close);
    }
  }

  // ---- A sufficient condition on the closes ----------------------------------------------

  datatype Move = Still | Up | Down

  /** The last move among the first `n` closes, ignoring repetitions. */
  function LastMove(bars: seq<Bar>, n: nat): Move
    requires n <= |bars|
  {
    if n < 2 then Still
    else if bars[n - 1].close > bars[n - 2].close then Up
    else if bars[n - 1].close < bars[n - 2].close then Down
    else LastMove(bars, n - 1)
  }

  /** A close that leaves a plateau never reverses the move that led into it. */
  ghost predicate NoFlatTurn(bars: seq<Bar>) {
    forall i :: 2 <= i < |bars| ==> GoesOn(bars, i)
  }

  predicate GoesOn(bars: seq<Bar>, i: nat)
    requires 2 <= i < |bars|
  {
    bars[i - 1].close == bars[i - 2].close ==>
      && (LastMove(bars, i) == Up ==> bars[i].close >= bars[i - 1].close)
      && (LastMove(bars, i) == Down ==> bars[i].close <= bars[i - 1].close)
  }

  ghost predicate NoEqualNeighbours(bars: seq<Bar>) {
    forall i, j :: 0 <= i && j == i + 1 < |bars| ==> bars[i].close != bars[j].close
  }

  /** After an up-move the latest bottom is below the close, after a down-move the latest top is
      above it, and the two levels are ordered. */
  predicate LevelsFollow(bars: seq<Bar>, n: nat)
    requires n <= |bars|
  {
    var lv := LevelsAfter(bars, n);
    && (lv.Both() ==> Ordered(lv))
    && match LastMove(bars, n)
       case Still => lv.top.None? && lv.bottom.None?
       case Up => lv.bottom.Some? ==> lv.bottom.value < bars[n - 1].close
       case Down => lv.top.Some? ==> lv.top.value > bars[n - 1].close
  }

  lemma {:induction false} LastTwo(bars: seq<Bar>, n: nat)
    requires n <= |bars|
    ensures LevelsAfter(bars, n).last == (if n >= 1 then Some(bars[n - 1].close) else None)
    ensures LevelsAfter(bars, n).beforeLast == (if n >= 2 then Some(bars[n - 2].close) else None)
  {
    if n > 0 {
      LastTwo(bars, n - 1);
    }
  }

  lemma {:induction false} LevelsFollowAlways(bars: seq<Bar>, n: nat)
    requires NoFlatTurn(bars) && n <= |bars|
    ensures LevelsFollow(bars, n)
  {
    if n > 0 {
      LevelsFollowAlways(bars, n - 1);
      LastTwo(bars, n - 1);
      assert n >= 3 ==> GoesOn(bars, n - 1);
    }
  }

  /** Series whose plateaus never hide a turn (in particular series without equal neighbours) are
      protected: swing tops and bottoms then alternate, each top above the bottoms beside it. */
  lemma NoFlatTurnProtects(bars: seq<Bar>)
    requires NoFlatTurn(bars)
    ensures OrderedAtTurns(bars, |bars|)
    ensures forall t :: t in Report(bars) ==> Protective(t)
  {
    forall i | 0 <= i < |bars| && RegimeAfter(bars, i + 1) != RegimeAfter(bars, i)
      ensures Ordered(LevelsAfter(bars, i + 1))
    {
      LevelsFollowAlways(bars, i + 1);
    }
    ProtectedIff(bars);
  }

  /** The property as users meet it: closes that never repeat give protected trades only. */
  lemma NoEqualNeighboursProtects(bars: seq<Bar>)
    requires NoEqualNeighbours(bars)
    ensures NoFlatTurn(bars)
    ensures forall k :: 0 <= k < |Report(bars)| ==>
              && k < |Run(bars).signals| && Run(bars).signals[k].signalIndex < |bars|
              && KeepsItsRisk(Report(bars)[k], bars[Run(bars).signals[k].signalIndex].close)
  {
    forall i | 2 <= i < |bars|
      ensures GoesOn(bars, i)
    {
      assert bars[i - 2].close != bars[i - 1].close;
    }
    NoFlatTurnProtects(bars);
    NoTradeExitsWorseThanItsInitialStop(bars);
  }

  /** The condition cannot be dropped: two plateaus hide a bottom and a top, and the engine buys at 3
      with its stop at 8. */
  lemma PlateausCanUnprotect()
    ensures var bars := [Bar(0, 1.0), Bar(1, 3.0), Bar(2, 2.0), Bar(3, 2.0), Bar(4, 10.0), Bar(5, 10.0), Bar(6, 8.0), Bar(7, 9.0)];
            && !OrderedAtTurns(bars, |bars|)
            && Run(bars).open == Some(Opened(Buy, 3.0, 8.0, 7))
  {
    var bars := [Bar(0, 1.0), Bar(1, 3.0), Bar(2, 2.0), Bar(3, 2.0), Bar(4, 10.0), Bar(5, 10.0), Bar(6, 8.0), Bar(7, 9.0)];
    assert RunTo(bars, 1) == Machine(1, Levels(Some(1.0), None, None, None), None, [], []);
    assert RunTo(bars, 2) == Machine(2, Levels(Some(3.0), Some(1.0), None, None), None, [], []);
    assert RunTo(bars, 3) == Machine(3, Levels(Some(2.0), Some(3.0), Some(3.0), None), None, [], []);
    assert RunTo(bars, 4) == Machine(4, Levels(Some(2.0), Some(2.0), Some(3.0), None), None, [], []);
    assert RunTo(bars, 5) == Machine(5, Levels(Some(10.0), Some(2.0), Some(3.0), None), None, [], []);
    assert RunTo(bars, 6) == Machine(6, Levels(Some(10.0), Some(10.0), Some(3.0), None), None, [], []);
    assert RunTo(bars, 7) == Machine(7, Levels(Some(8.0), Some(10.0), Some(3.0), None), None, [], []);
    var m := RunTo(bars, 8);
    assert m.open == Some(Opened(Buy, 3.0, 8.0, 7));
    ProtectedUpTo(bars, 8);
  }
}
