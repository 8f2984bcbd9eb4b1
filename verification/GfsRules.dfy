/** The GFS rules (gfs_backtest.py:1-32), read off candles and RSI values, and that every reported entry obeys them. */
module GfsRules {
  import opened Common
  import opened Resample
  import opened BacktestScan
  import opened Gfs
  import opened GfsTheorems

  // ---- Signals ---------------------------------------------------------------------------

  /** All three timeframes agree on candle `k`. */
  predicate AllAgree(days: seq<Candle>, c: Config, k: nat)
    requires c.rsiPeriod > 0 && k < |days|
  {
    var monthly, weekly, daily := MonthlyRsi(days, c, k), WeeklyRsi(days, c, k), DailyRsi(days, c, k);
    && monthly.Some? && monthly.value > c.monthlyRsiMin
    && weekly.Some? && weekly.value > c.weeklyRsiMin
    && daily.Some? && daily.value <= c.dailyRsiMax
    && (daily.value > c.dailyRsiMin || (daily.value == c.dailyRsiMin && !c.dailyMinExclusive))
  }

  /** A signal is accepted exactly on the first candle of an agreement, from the given date on. */
  lemma AcceptedIff(days: seq<Candle>, c: Config, from: Option<int>, k: nat)
    requires c.rsiPeriod > 0 && k < |days|
    ensures AcceptedFlags(days, c, from)[k] <==>
            k >= 1 && AllAgree(days, c, k) && !AllAgree(days, c, k - 1) && (from.Some? ==> days[k].date >= from.value)
  {
    hide AllAgree, Setups, Setup;
    AgreeIs(days, c, k);
    if k >= 1 {
      AgreeIs(days, c, k - 1);
    }
  }

  lemma AgreeIs(days: seq<Candle>, c: Config, k: nat)
    requires c.rsiPeriod > 0 && k < |days|
    ensures Setups(days, c)[k] == AllAgree(days, c, k)
  {
    hide MonthlyRsi, WeeklyRsi, DailyRsi, Setup;
    SetupIs(days, c, k, MonthlyRsi(days, c, k), WeeklyRsi(days, c, k), DailyRsi(days, c, k));
  }

  // ---- The initial stop ------------------------------------------------------------------

  /** The lowest of these lows. */
  ghost predicate LowestLow(days: seq<Candle>, lo: nat, hi: nat, stop: real) {
    && lo < hi <= |days|
    && (forall k :: lo <= k < hi ==> stop <= days[k].low)
    && (exists k :: lo <= k < hi && stop == days[k].low)
  }

  lemma LeastIsLowest(days: seq<Candle>, lo: nat, hi: nat)
    requires lo < hi <= |days|
    ensures LowestLow(days, lo, hi, MinOf(Lows(days, lo, hi)))
  {
    hide MinOf, Lows;
    var lows := Lows(days, lo, hi);
    forall k | lo <= k < hi
      ensures MinOf(lows) <= days[k].low
    {
      assert lows[k - lo] == days[k].low;
    }
    var i :| 0 <= i < |lows| && lows[i] == MinOf(lows);
    assert days[lo + i].low == MinOf(lows);
  }

  /** The stop is the lowest low of the entry candle and those before it, once there are enough. */
  lemma InitialStopMeans(days: seq<Candle>, entry: nat, candles: nat)
    requires entry < |days| && candles > 0
    ensures InitialStop(days, entry, candles).None? <==> entry + 1 < candles
    ensures entry + 1 >= candles ==> LowestLow(days, entry + 1 - candles, entry + 1, InitialStop(days, entry, candles).value)
  {
    hide LowestLow, MinOf, Lows;
    if entry + 1 >= candles {
      LeastIsLowest(days, entry + 1 - candles, entry + 1);
    }
  }

  // ---- The staged stop -------------------------------------------------------------------

  /** Candle `k` closed at the breakeven level. */
  predicate Breakeven(days: seq<Candle>, c: Config, entry: nat, initial: real, k: nat)
    requires entry < |days| && k < |days|
  {
    days[k].close >= days[entry].close + c.breakevenR * (days[entry].close - initial)
  }

  /** The last `trailCandles` lows up to candle `k` each rose. */
  predicate Rising(days: seq<Candle>, c: Config, k: nat)
    requires k < |days|
  {
    c.trailCandles <= k + 1 && forall l :: k + 1 - c.trailCandles < l <= k ==> days[l].low > days[l - 1].low
  }

  /** Stages that candle `k`, surviving, makes the stop reach. */
  predicate StageOf(days: seq<Candle>, c: Config, entry: nat, initial: real, k: nat, level: real)
    requires c.trailCandles > 0 && entry < |days| && k < |days|
  {
    || (Breakeven(days, c, entry, initial, k) && level == days[entry].close)
    || (Rising(days, c, k) && level == days[k + 1 - c.trailCandles].low)
  }

  /** The highest of the initial stop and all stages of the candles between the entry and candle `j`. */
  ghost predicate HighestStage(days: seq<Candle>, c: Config, entry: nat, initial: real, j: nat, stop: real)
    requires c.trailCandles > 0 && entry < j <= |days|
  {
    && initial <= stop
    && (forall k, level :: entry < k < j && StageOf(days, c, entry, initial, k, level) ==> level <= stop)
    && (stop == initial || exists k :: entry < k < j && StageOf(days, c, entry, initial, k, stop))
  }

  lemma RaiseMeans(days: seq<Candle>, c: Config, entry: nat, initial: real, stop: real, k: nat)
    requires c.trailCandles > 0 && entry < k < |days|
    ensures var raised := Raise(days, c, days[entry].close, days[entry].close - initial, stop, k);
            && stop <= raised
            && (forall level :: StageOf(days, c, entry, initial, k, level) ==> level <= raised)
            && (raised == stop || StageOf(days, c, entry, initial, k, raised))
  {
    if k + 1 >= c.trailCandles {
      RisingIs(days, c, k);
    }
  }

  lemma RisingIs(days: seq<Candle>, c: Config, k: nat)
    requires 0 < c.trailCandles <= k + 1 <= |days|
    ensures LowsRise(days, k, c.trailCandles) <==> Rising(days, c, k)
  {
  }

  lemma StopBeforeIs(days: seq<Candle>, c: Config, entry: nat, initial: real, k: nat)
    requires c.trailCandles > 0 && entry < k < |days|
    ensures StopBefore(days, c, entry, initial, k + 1) ==
            Raise(days, c, days[entry].close, days[entry].close - initial, StopBefore(days, c, entry, initial, k), k)
  {
    hide Raise;
  }

  /** The stop that applies to candle `j` is the highest stage reached before it. */
  lemma {:induction false} StopMeans(days: seq<Candle>, c: Config, entry: nat, initial: real, j: nat)
    requires c.trailCandles > 0 && entry < j <= |days|
    ensures HighestStage(days, c, entry, initial, j, StopBefore(days, c, entry, initial, j))
  {
    hide StageOf, Raise;
    if j == entry + 1 {
    } else {
      StopMeans(days, c, entry, initial, j - 1);
      StagesGrow(days, c, entry, initial, j - 1, StopBefore(days, c, entry, initial, j - 1));
    }
  }

  lemma StagesGrow(days: seq<Candle>, c: Config, entry: nat, initial: real, k: nat, stop: real)
    requires c.trailCandles > 0 && entry < k < |days|
    requires stop == StopBefore(days, c, entry, initial, k) && HighestStage(days, c, entry, initial, k, stop)
    ensures HighestStage(days, c, entry, initial, k + 1, StopBefore(days, c, entry, initial, k + 1))
  {
    hide StageOf, Raise, StopBefore;
    var raised := StopBefore(days, c, entry, initial, k + 1);
    StopBeforeIs(days, c, entry, initial, k);
    RaiseMeans(days, c, entry, initial, stop, k);
    forall i, level | entry < i < k + 1 && StageOf(days, c, entry, initial, i, level)
      ensures level <= raised
    {
      if i < k {
        assert level <= stop;
      }
    }
  }

  // ---- Exits -----------------------------------------------------------------------------

  /** The stop holds and the weekly RSI gives no reason to leave. */
  predicate Holds(day: Candle, weekly: Option<real>, c: Config, stop: real) {
    day.open >= stop && day.low > stop && (weekly.None? || weekly.value >= c.weeklyRsiExitBelow)
  }

  /** The exit is exactly for its reason and at its price. */
  predicate Leaves(day: Candle, weekly: Option<real>, c: Config, stop: real, exit: Exit) {
    match exit.reason
    case GapOpenBelowStop => day.open < stop && exit.price == day.open
    case StopHit => day.open >= stop && day.low <= stop && exit.price == stop
    case WeeklyRsiExit =>
      day.open >= stop && day.low > stop && weekly.Some? && weekly.value < c.weeklyRsiExitBelow && exit.price == day.close
    case _ => false
  }

  predicate HoldsOn(days: seq<Candle>, weekly: seq<Option<real>>, c: Config, entry: nat, initial: real, j: nat)
    requires c.trailCandles > 0 && entry < j < |days| == |weekly|
  {
    Holds(days[j], weekly[j], c, StopBefore(days, c, entry, initial, j))
  }

  predicate LeavesOn(days: seq<Candle>, weekly: seq<Option<real>>, c: Config, entry: nat, initial: real, exit: Exit)
    requires c.trailCandles > 0 && entry < exit.index < |days| == |weekly|
  {
    Leaves(days[exit.index], weekly[exit.index], c, StopBefore(days, c, entry, initial, exit.index), exit)
  }

  /** Held by the rules on every candle from `j` on, and left by the rules on the exit candle, if there is one. */
  ghost predicate ManagedByTheRules(days: seq<Candle>, weekly: seq<Option<real>>, c: Config, entry: nat, initial: real,
                                    j: nat, exit: Option<Exit>)
    requires c.trailCandles > 0 && entry < j <= |days| == |weekly|
  {
    var end := if exit.Some? then exit.value.index else |days|;
    && j <= end <= |days|
    && (forall k :: j <= k < end ==> HoldsOn(days, weekly, c, entry, initial, k))
    && (exit.Some? ==> end < |days| && LeavesOn(days, weekly, c, entry, initial, exit.value))
  }

  lemma ExitOnMeans(days: seq<Candle>, weekly: seq<Option<real>>, c: Config, stop: real, j: nat)
    requires j < |days| == |weekly|
    ensures ExitOn(days, weekly, c, stop, j).None? <==> Holds(days[j], weekly[j], c, stop)
    ensures ExitOn(days, weekly, c, stop, j).Some? ==> Leaves(days[j], weekly[j], c, stop, ExitOn(days, weekly, c, stop, j).value)
  {
  }

  /** The exit that is found is the one the rules ask for. */
  lemma {:induction false} FirstExitManages(days: seq<Candle>, weekly: seq<Option<real>>, c: Config, entry: nat, initial: real, j: nat)
    requires c.trailCandles > 0 && entry < j <= |days| == |weekly|
    ensures ManagedByTheRules(days, weekly, c, entry, initial, j, FirstExit(days, weekly, c, entry, initial, j))
    decreases |days| - j
  {
    hide ExitOn, Holds, Leaves, StopBefore;
    if j < |days| {
      var stop := StopBefore(days, c, entry, initial, j);
      var here := ExitOn(days, weekly, c, stop, j);
      ExitOnMeans(days, weekly, c, stop, j);
      FirstExitIs(days, weekly, c, entry, initial, j, here);
      if here.None? {
        FirstExitManages(days, weekly, c, entry, initial, j + 1);
      }
    }
  }

  // ---- Sizes -----------------------------------------------------------------------------

  /** The largest whole number of shares that risks no more than planned, up to the floor guard. */
  predicate Sized(quantity: int, risk: real, riskPerShare: real) {
    && quantity as real * riskPerShare <= risk + FLOOR_EPSILON * riskPerShare
    && (quantity as real + 1.0) * riskPerShare > risk + FLOOR_EPSILON * riskPerShare
  }

  lemma ScaledBounds(x: real, eps: real, f: real, low: real, high: real)
    requires f > 0.0 && low <= x + eps < high
    ensures low * f <= x * f + eps * f < high * f
  {
    var y := x + eps;
    assert y * f == x * f + eps * f;
    Scale(low, y, f);
    Scale(y, high, f);
  }

  lemma SizedIs(risk: real, riskPerShare: real)
    requires riskPerShare > 0.0
    ensures Sized(Quantity(risk, riskPerShare), risk, riskPerShare)
  {
    var q := Quantity(risk, riskPerShare);
    DivideBack(risk, riskPerShare);
    ScaledBounds(risk / riskPerShare, FLOOR_EPSILON, riskPerShare, q as real, q as real + 1.0);
  }

  // ---- Every entry -----------------------------------------------------------------------

  /** The stop of an entry on this candle. */
  ghost predicate StopOfEntry(days: seq<Candle>, c: Config, entry: nat, stop: real) {
    entry < |days| && c.initialStopCandles <= entry + 1 && LowestLow(days, entry + 1 - c.initialStopCandles, entry + 1, stop)
  }

  /** A trade as the rules describe it. */
  ghost predicate TradeRule(days: seq<Candle>, c: Config, signal: nat, plan: Plan)
    requires c.Usable()
  {
    var entry := signal + 1;
    && entry < |days|
    && plan.entryPrice == days[entry].close
    && StopOfEntry(days, c, entry, plan.stop)
    && plan.riskPerShare == plan.entryPrice - plan.stop > 0.0
    && plan.quantity >= 1 && Sized(plan.quantity, c.riskPerTrade, plan.riskPerShare)
    && ManagedByTheRules(days, WeeklySeries(days, c), c, entry, plan.stop, entry + 1, plan.exit)
  }

  /** A refused signal, for the first reason that applies. */
  ghost predicate SkipRule(days: seq<Candle>, c: Config, signal: nat, reason: SkipReason)
    requires c.Usable()
  {
    var entry := signal + 1;
    match reason
    case NoNextCandle => entry == |days|
    case NoStopAvailable => entry < |days| && entry + 1 < c.initialStopCandles
    case EntryNotAboveStop => exists stop :: StopOfEntry(days, c, entry, stop) && days[entry].close <= stop
    case QuantityZero =>
      exists stop :: StopOfEntry(days, c, entry, stop) && days[entry].close > stop &&
                     days[entry].close - stop > c.riskPerTrade + FLOOR_EPSILON * (days[entry].close - stop)
  }

  lemma TakenObeys(days: seq<Candle>, c: Config, i: nat, plan: Plan)
    requires c.Usable() && Decide(days, WeeklySeries(days, c), c, i) == Take(plan)
    ensures TradeRule(days, c, i, plan)
  {
    hide FirstExit, InitialStop, Quantity, ManagedByTheRules, LowestLow, Sized;
    var weekly := WeeklySeries(days, c);
    TakenIsWellPlanned(days, weekly, c, i, plan);
    InitialStopMeans(days, i + 1, c.initialStopCandles);
    TakenStop(days, weekly, c, i, plan);
    SizedIs(c.riskPerTrade, plan.riskPerShare);
    FirstExitManages(days, weekly, c, i + 1, plan.stop, i + 2);
  }

  lemma TakenStop(days: seq<Candle>, weekly: seq<Option<real>>, c: Config, i: nat, plan: Plan)
    requires c.trailCandles > 0 && c.initialStopCandles > 0 && |days| == |weekly| && Decide(days, weekly, c, i) == Take(plan)
    ensures i + 1 < |days| && InitialStop(days, i + 1, c.initialStopCandles) == Some(plan.stop)
  {
    hide InitialStop, Quantity, FirstExit;
  }

  lemma SmallQuantity(quantity: int, risk: real, riskPerShare: real)
    requires riskPerShare > 0.0 && quantity < 1 && Sized(quantity, risk, riskPerShare)
    ensures riskPerShare > risk + FLOOR_EPSILON * riskPerShare
  {
    Scale(quantity as real + 1.0, 1.0, riskPerShare);
  }

  lemma RefusedObeys(days: seq<Candle>, c: Config, i: nat, reason: SkipReason)
    requires c.Usable() && i < |days| && Decide(days, WeeklySeries(days, c), c, i) == Refuse(reason)
    ensures SkipRule(days, c, i, reason)
  {
    hide FirstExit, InitialStop, Quantity, LowestLow, Sized;
    if i + 1 < |days| {
      var weekly := WeeklySeries(days, c);
      var stop := InitialStop(days, i + 1, c.initialStopCandles);
      DecideIs(days, weekly, c, i, stop, ExitAfter(days, weekly, c, i + 1, stop));
      InitialStopMeans(days, i + 1, c.initialStopCandles);
      assert stop.Some? ==> StopOfEntry(days, c, i + 1, stop.value);
      if stop.Some? && days[i + 1].close > stop.value {
        var riskPerShare := days[i + 1].close - stop.value;
        SizedIs(c.riskPerTrade, riskPerShare);
        SmallQuantity(Quantity(c.riskPerTrade, riskPerShare), c.riskPerTrade, riskPerShare);
      }
    }
  }

  ghost predicate EntryRule(days: seq<Candle>, c: Config, e: Entry)
    requires c.Usable()
  {
    match e
    case Trade(signal, plan) => TradeRule(days, c, signal, plan)
    case Skipped(signal, reason) => SkipRule(days, c, signal, reason)
  }

  /** Every entry of a run has an accepted signal and obeys the rules. */
  lemma EntriesObey(days: seq<Candle>, c: Config, from: Option<int>, e: Entry)
    requires c.Usable() && e in Entries(days, c, from)
    ensures e.signal < |days| && AcceptedFlags(days, c, from)[e.signal] && EntryRule(days, c, e)
  {
    hide TradeRule, SkipRule, Decide;
    var flags, weekly := AcceptedFlags(days, c, from), WeeklySeries(days, c);
    EntriesIs(days, c, from, flags, weekly);
    ScanReportsAccepted(flags, Decider(days, weekly, c), 1, e);
    ScanFollowsDecisions(flags, Decider(days, weekly, c), 1, e);
    match e
    case Trade(signal, plan) => TakenObeys(days, c, signal, plan);
    case Skipped(signal, reason) =>
      if signal + 1 < |days| {
        RefusedObeys(days, c, signal, reason);
      } else {
        LastIsSkipped(days, c, signal, reason);
      }
  }

  lemma LastIsSkipped(days: seq<Candle>, c: Config, signal: nat, reason: SkipReason)
    requires c.Usable() && signal + 1 == |days| && reason == NoNextCandle
    ensures SkipRule(days, c, signal, reason)
  {
  }
}
