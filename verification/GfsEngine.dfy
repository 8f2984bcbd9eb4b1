/** run_gfs_backtest and _manage_trade as the loops they are, tied to the functions of module Gfs. */
module GfsEngine {
  import opened Common
  import opened Resample
  import opened BacktestScan
  import opened Gfs
  import GfsRules

  /** The raise of the stop after a surviving candle. */
  method RaiseStop(days: seq<Candle>, c: Config, entryPrice: real, risk: real, stop: real, j: nat) returns (raised: real)
    requires c.trailCandles > 0 && j < |days|
    ensures raised == Raise(days, c, entryPrice, risk, stop, j)
  {
    raised := stop;
    if days[j].close >= entryPrice + c.breakevenR * risk {
      raised := Max(raised, entryPrice);
    }
    if j >= c.trailCandles - 1 {
      var rising, k := true, j - c.trailCandles + 2;
      while k <= j
        invariant j - c.trailCandles + 2 <= k <= j + 1
        invariant rising <==> forall l :: j - c.trailCandles + 2 <= l < k ==> days[l - 1].low < days[l].low
      {
        if days[k].low <= days[k - 1].low {
          rising := false;
        }
        k := k + 1;
      }
      if rising {
        raised := Max(raised, days[j - c.trailCandles + 1].low);
      }
    }
  }

  /** Walk the candles after the entry, raising the stop behind each surviving one. */
  method ManageTrade(days: seq<Candle>, weekly: seq<Option<real>>, c: Config, entry: nat, initial: real)
    returns (exit: Option<Exit>)
    requires c.trailCandles > 0 && entry < |days| == |weekly|
    ensures exit == FirstExit(days, weekly, c, entry, initial, entry + 1)
  {
    var entryPrice := days[entry].close;
    var risk, stop, j := entryPrice - initial, initial, entry + 1;
    while j < |days|
      invariant entry < j <= |days|
      invariant stop == StopBefore(days, c, entry, initial, j)
      invariant FirstExit(days, weekly, c, entry, initial, entry + 1) == FirstExit(days, weekly, c, entry, initial, j)
    {
      FirstExitIs(days, weekly, c, entry, initial, j, ExitOn(days, weekly, c, stop, j));
      if days[j].open < stop {
        return Some(Exit(j, days[j].open, GapOpenBelowStop));
      }
      if days[j].low <= stop {
        return Some(Exit(j, stop, StopHit));
      }
      if weekly[j].Some? && weekly[j].value < c.weeklyRsiExitBelow {
        return Some(Exit(j, days[j].close, WeeklyRsiExit));
      }
      stop := RaiseStop(days, c, entryPrice, risk, stop, j);
      j := j + 1;
    }
    exit := None;
  }

  /** Try to trade the signal on candle `i`. */
  method Attempt(days: seq<Candle>, weekly: seq<Option<real>>, c: Config, i: nat) returns (d: Decision)
    requires c.trailCandles > 0 && c.initialStopCandles > 0 && i + 1 < |days| == |weekly|
    ensures d == Decide(days, weekly, c, i)
    ensures d.Take? && d.plan.exit.Some? ==> i + 1 < d.plan.exit.value.index < |days|
  {
    var entryPrice, stop := days[i + 1].close, InitialStop(days, i + 1, c.initialStopCandles);
    if stop.None? {
      return Refuse(NoStopAvailable);
    }
    if entryPrice <= stop.value {
      return Refuse(EntryNotAboveStop);
    }
    var riskPerShare := entryPrice - stop.value;
    var quantity := Quantity(c.riskPerTrade, riskPerShare);
    if quantity < 1 {
      return Refuse(QuantityZero);
    }
    var exit := ManageTrade(days, weekly, c, i + 1, stop.value);
    d := Take(Plan(entryPrice, stop.value, riskPerShare, quantity, exit));
  }

  /** One round of the scan: what is appended to the two lists, and the candle to go on with. */
  method ScanRound(days: seq<Candle>, weekly: seq<Option<real>>, signals: seq<bool>, c: Config, from: Option<int>, i: nat)
    returns (trades: seq<Entry>, skipped: seq<Entry>, next: nat)
    requires c.trailCandles > 0 && c.initialStopCandles > 0 && i < |days| == |weekly| == |signals|
    ensures i < next <= |days|
    ensures Appends(Accepted(days, signals, from), Decider(days, weekly, c), i, trades, skipped, next)
  {
    ghost var accepted, decide := Accepted(days, signals, from), Decider(days, weekly, c);
    trades, skipped, next := [], [], i + 1;
    if !InWindow(days[i], from) || !signals[i] {
      SkipStep(accepted, decide, i);
      return;
    }
    if i + 1 >= |days| {
      RefuseStep(accepted, decide, i, NoNextCandle);
      return [], [Skipped(i, NoNextCandle)], |days|;
    }
    var d := Attempt(days, weekly, c, i);
    match d
    case Refuse(reason) =>
      RefuseStep(accepted, decide, i, reason);
      skipped := [Skipped(i, reason)];
    case Take(plan) =>
      TakeStep(accepted, decide, i, plan);
      trades := [Trade(i, plan)];
      next := if plan.exit.Some? then plan.exit.value.index + 1 else |days|;
  }

  /** The scan over one run's candles. */
  method ScanSignals(days: seq<Candle>, weekly: seq<Option<real>>, signals: seq<bool>, c: Config, from: Option<int>)
    returns (trades: seq<Entry>, skipped: seq<Entry>)
    requires c.trailCandles > 0 && c.initialStopCandles > 0 && 0 < |days| == |weekly| == |signals|
    ensures trades == Trades(Scan(Accepted(days, signals, from), Decider(days, weekly, c), 1))
    ensures skipped == Skips(Scan(Accepted(days, signals, from), Decider(days, weekly, c), 1))
  {
    ghost var accepted, decide := Accepted(days, signals, from), Decider(days, weekly, c);
    trades, skipped := [], [];
    var i := 1;
    while i < |days|
      invariant 1 <= i <= |days| && Appends(accepted, decide, 1, trades, skipped, i)
    {
      var t, s, next := ScanRound(days, weekly, signals, c, from, i);
      AppendsThen(accepted, decide, 1, trades, skipped, i, t, s, next);
      trades, skipped, i := trades + t, skipped + s, next;
    }
    AppendsAll(accepted, decide, trades, skipped, i);
  }

  /** The whole backtest: candles after `to` are dropped, and too few candles give a warning and nothing else. */
  method RunGfs(ohlcv: seq<Candle>, c: Config, from: Option<int>, to: Option<int>)
    returns (trades: seq<Entry>, skipped: seq<Entry>, candlesUsed: nat, warned: bool)
    requires c.rsiPeriod > 0 && c.Usable()
    ensures trades == Trades(Entries(UpTo(ohlcv, to), c, from)) && skipped == Skips(Entries(UpTo(ohlcv, to), c, from))
    ensures forall e :: e in trades || e in skipped ==> GfsRules.EntryRule(UpTo(ohlcv, to), c, e)
    ensures warned ==> trades == [] && skipped == []
    ensures candlesUsed == |UpTo(ohlcv, to)| && warned == (candlesUsed < c.rsiPeriod + 2)
  {
    hide GfsRules.EntryRule;
    var days := UpTo(ohlcv, to);
    candlesUsed := |days|;
    warned := candlesUsed < c.rsiPeriod + 2;
    if warned {
      return [], [], candlesUsed, true;
    }
    trades, skipped := ScanSignals(days, WeeklySeries(days, c), Signals(Setups(days, c)), c, from);
    ListedObey(days, c, from);
  }

  lemma ListedObey(days: seq<Candle>, c: Config, from: Option<int>)
    requires c.Usable()
    ensures forall e :: e in Trades(Entries(days, c, from)) || e in Skips(Entries(days, c, from)) ==> GfsRules.EntryRule(days, c, e)
  {
    hide Entries, GfsRules.EntryRule;
    ListedAreEntries(Entries(days, c, from));
    forall e | e in Entries(days, c, from)
      ensures GfsRules.EntryRule(days, c, e)
    {
      GfsRules.EntriesObey(days, c, from, e);
    }
  }
}
