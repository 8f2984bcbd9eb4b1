/** run_system_one_backtest as the loops it is, tied to the functions of module SystemOne. */
module SystemOneEngine {
  import opened Common
  import opened Resample
  import opened BacktestScan
  import opened SystemOne
  import Gfs
  import SystemOneRules

  /** The exit loop behind the entry candle. */
  method FindExit(days: seq<Candle>, ma: seq<Option<real>>, entry: nat) returns (exit: Option<Exit>)
    requires entry < |days| == |ma|
    ensures exit == FirstExit(days, ma, entry + 1)
  {
    var j := entry + 1;
    while j < |days|
      invariant entry < j <= |days| && FirstExit(days, ma, entry + 1) == FirstExit(days, ma, j)
    {
      var stop := ma[j - 1];
      if stop.Some? {
        if days[j].open < stop.value {
          return Some(Exit(j, days[j].open, GapOpenBelowMa));
        }
        if days[j].low <= stop.value {
          return Some(Exit(j, stop.value, StopAtMa));
        }
      }
      j := j + 1;
    }
    exit := None;
  }

  /** Try to trade the signal on candle `i`. */
  method Attempt(days: seq<Candle>, ma: seq<Option<real>>, risk: real, i: nat) returns (d: Decision)
    requires i + 1 < |days| == |ma|
    ensures d == Decide(days, ma, risk, i)
    ensures d.Take? && d.plan.exit.Some? ==> i + 1 < d.plan.exit.value.index < |days|
  {
    var entryPrice, stop := days[i + 1].close, ma[i + 1];
    if stop.None? {
      return Refuse(NoStopAvailable);
    }
    if entryPrice <= stop.value {
      return Refuse(EntryNotAboveStop);
    }
    var riskPerShare := entryPrice - stop.value;
    var quantity := Gfs.Quantity(risk, riskPerShare);
    if quantity < 1 {
      return Refuse(QuantityZero);
    }
    var exit := FindExit(days, ma, i + 1);
    d := Take(Plan(entryPrice, stop.value, riskPerShare, quantity, exit));
  }

  method ScanRound(days: seq<Candle>, ma: seq<Option<real>>, signals: seq<bool>, risk: real, from: Option<int>, i: nat)
    returns (trades: seq<Entry>, skipped: seq<Entry>, next: nat)
    requires i < |days| == |ma| == |signals|
    ensures i < next <= |days|
    ensures Appends(Accepted(days, signals, from), Decider(days, ma, risk), i, trades, skipped, next)
  {
    ghost var accepted, decide := Accepted(days, signals, from), Decider(days, ma, risk);
    trades, skipped, next := [], [], i + 1;
    if !InWindow(days[i], from) || !signals[i] {
      SkipStep(accepted, decide, i);
      return;
    }
    if i + 1 >= |days| {
      RefuseStep(accepted, decide, i, NoNextCandle);
      return [], [Skipped(i, NoNextCandle)], |days|;
    }
    var d := Attempt(days, ma, risk, i);
    match d
    case Refuse(reason) =>
      RefuseStep(accepted, decide, i, reason);
      skipped := [Skipped(i, reason)];
    case Take(plan) =>
      TakeStep(accepted, decide, i, plan);
      trades := [Trade(i, plan)];
      next := if plan.exit.Some? then plan.exit.value.index + 1 else |days|;
  }

  method ScanSignals(days: seq<Candle>, ma: seq<Option<real>>, signals: seq<bool>, risk: real, from: Option<int>)
    returns (trades: seq<Entry>, skipped: seq<Entry>)
    requires 0 < |days| == |ma| == |signals|
    ensures trades == Trades(Scan(Accepted(days, signals, from), Decider(days, ma, risk), 1))
    ensures skipped == Skips(Scan(Accepted(days, signals, from), Decider(days, ma, risk), 1))
  {
    ghost var accepted, decide := Accepted(days, signals, from), Decider(days, ma, risk);
    trades, skipped := [], [];
    var i := 1;
    while i < |days|
      invariant 1 <= i <= |days| && Appends(accepted, decide, 1, trades, skipped, i)
    {
      var t, s, next := ScanRound(days, ma, signals, risk, from, i);
      AppendsThen(accepted, decide, 1, trades, skipped, i, t, s, next);
      trades, skipped, i := trades + t, skipped + s, next;
    }
    AppendsAll(accepted, decide, trades, skipped, i);
  }

  /** run_system_one_backtest. */
  method RunSystemOne(ohlcv: seq<Candle>, c: Config, from: Option<int>, to: Option<int>)
    returns (trades: seq<Entry>, skipped: seq<Entry>, warned: bool)
    requires c.Usable()
    ensures trades == Trades(Entries(UpTo(ohlcv, to), c, from)) && skipped == Skips(Entries(UpTo(ohlcv, to), c, from))
    ensures warned <==> |UpTo(ohlcv, to)| < c.rsiPeriod + 2 || |UpTo(ohlcv, to)| < c.maPeriod + 1
    ensures warned ==> trades == [] && skipped == []
    ensures forall e :: e in trades || e in skipped ==> SystemOneRules.EntryRule(UpTo(ohlcv, to), c, e)
  {
    hide SystemOneRules.EntryRule;
    var days := UpTo(ohlcv, to);
    warned := |days| < c.MinCandles();
    if warned {
      return [], [], true;
    }
    trades, skipped := ScanSignals(days, SmaSeries(Closes(days), c.maPeriod), Signals(days, c), c.riskPerTrade, from);
    ListedObey(days, c, from);
  }

  lemma ListedObey(days: seq<Candle>, c: Config, from: Option<int>)
    requires c.Usable()
    ensures forall e :: e in Trades(Entries(days, c, from)) || e in Skips(Entries(days, c, from)) ==> SystemOneRules.EntryRule(days, c, e)
  {
    hide Entries, SystemOneRules.EntryRule;
    ListedAreEntries(Entries(days, c, from));
    forall e | e in Entries(days, c, from)
      ensures SystemOneRules.EntryRule(days, c, e)
    {
      SystemOneRules.EntriesObey(days, c, from, e);
    }
  }
}
