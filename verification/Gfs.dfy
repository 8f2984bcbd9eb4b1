/** The GFS trade simulation: three-timeframe setup, staged stop, one trade at a time (gfs_backtest.py). */
module Gfs {
  import opened Common
  import opened Rsi
  import opened Resample
  import opened BacktestScan

  const FLOOR_EPSILON := 0.000000001

  datatype Config = Config(
    rsiPeriod: nat,
    monthlyRsiMin: real,
    weeklyRsiMin: real,
    dailyRsiMin: real,
    dailyRsiMax: real,
    dailyMinExclusive: bool,
    initialStopCandles: nat,
    breakevenR: real,
    trailCandles: nat,
    weeklyRsiExitBelow: real,
    riskPerTrade: real,
    week: Calendar,
    month: Calendar)
  {
    /** What the configuration defaults satisfy and the code relies on. */
    ghost predicate Usable() {
      rsiPeriod > 0 && initialStopCandles > 0 && trailCandles > 0 && IsCalendar(week) && IsCalendar(month)
    }
  }

  // ---- Signals ---------------------------------------------------------------------------

  predicate DailyOk(value: real, c: Config) {
    (if c.dailyMinExclusive then value > c.dailyRsiMin else value >= c.dailyRsiMin) && value <= c.dailyRsiMax
  }

  function WeeklyRsi(days: seq<Candle>, c: Config, k: nat): Option<real>
    requires c.rsiPeriod > 0 && k < |days|
  {
    CarriedRsi(days, c.week, c.rsiPeriod, k)
  }

  function WeeklySeries(days: seq<Candle>, c: Config): (weekly: seq<Option<real>>)
    requires c.rsiPeriod > 0
    ensures |weekly| == |days| && forall k :: 0 <= k < |days| ==> weekly[k] == WeeklyRsi(days, c, k)
  {
    seq(|days|, k requires 0 <= k < |days| => WeeklyRsi(days, c, k))
  }

  function MonthlyRsi(days: seq<Candle>, c: Config, k: nat): Option<real>
    requires c.rsiPeriod > 0 && k < |days|
  {
    CarriedRsi(days, c.month, c.rsiPeriod, k)
  }

  function DailyRsi(days: seq<Candle>, c: Config, k: nat): Option<real>
    requires c.rsiPeriod > 0 && k < |days|
  {
    RsiAt(Closes(days), c.rsiPeriod, k)
  }

  /** All three timeframes agree; an undefined value agrees with nothing. */
  predicate Agree(monthly: Option<real>, weekly: Option<real>, daily: Option<real>, c: Config) {
    && monthly.Some? && monthly.value > c.monthlyRsiMin
    && weekly.Some? && weekly.value > c.weeklyRsiMin
    && daily.Some? && DailyOk(daily.value, c)
  }

  predicate Setup(days: seq<Candle>, c: Config, k: nat)
    requires c.rsiPeriod > 0 && k < |days|
  {
    Agree(MonthlyRsi(days, c, k), WeeklyRsi(days, c, k), DailyRsi(days, c, k), c)
  }

  function Setups(days: seq<Candle>, c: Config): (setup: seq<bool>)
    requires c.rsiPeriod > 0
    ensures |setup| == |days| && forall k :: 0 <= k < |days| ==> setup[k] == Setup(days, c, k)
  {
    seq(|days|, k requires 0 <= k < |days| => Setup(days, c, k))
  }

  /** A signal fires on the first candle of a setup. */
  function Signals(setup: seq<bool>): (flags: seq<bool>)
    ensures |flags| == |setup|
    ensures forall j, k :: 0 <= j < k < |setup| && k == j + 1 ==> flags[k] == (setup[k] && !setup[j])
    ensures setup != [] ==> !flags[0]
  {
    seq(|setup|, k requires 0 <= k < |setup| => k >= 1 && setup[k] && !setup[k - 1])
  }

  function AcceptedFlags(days: seq<Candle>, c: Config, from: Option<int>): (flags: seq<bool>)
    requires c.rsiPeriod > 0
    ensures |flags| == |days|
  {
    Accepted(days, Signals(Setups(days, c)), from)
  }

  // ---- The staged stop -------------------------------------------------------------------

  function Lows(days: seq<Candle>, lo: nat, hi: nat): (lows: seq<real>)
    requires lo <= hi <= |days|
    ensures |lows| == hi - lo && forall i :: 0 <= i < hi - lo ==> lows[i] == days[lo + i].low
  {
    seq(hi - lo, i requires 0 <= i < hi - lo => days[lo + i].low)
  }

  /** Lowest low of the last candles, entry included. */
  function InitialStop(days: seq<Candle>, entry: nat, candles: nat): Option<real>
    requires entry < |days| && candles > 0
  {
    if entry < candles - 1 then None else Some(MinOf(Lows(days, entry - (candles - 1), entry + 1)))
  }

  /** The last `count` lows up to candle `j` each rose. */
  predicate LowsRise(days: seq<Candle>, j: nat, count: nat)
    requires count > 0 && count - 1 <= j < |days|
  {
    forall k :: j - count + 2 <= k <= j ==> days[k - 1].low < days[k].low
  }

  predicate AtBreakeven(close: real, entryPrice: real, risk: real, c: Config) {
    close >= entryPrice + c.breakevenR * risk
  }

  /** Candle `j` survived: the stop for the next one. It is never lowered. */
  function Raise(days: seq<Candle>, c: Config, entryPrice: real, risk: real, stop: real, j: nat): real
    requires c.trailCandles > 0 && j < |days|
  {
    var protected := if AtBreakeven(days[j].close, entryPrice, risk, c) then Max(stop, entryPrice) else stop;
    if j >= c.trailCandles - 1 && LowsRise(days, j, c.trailCandles) then Max(protected, days[j - c.trailCandles + 1].low)
    else protected
  }

  /** The stop that applies to candle `j`, known before it opens. */
  function StopBefore(days: seq<Candle>, c: Config, entry: nat, initial: real, j: nat): real
    requires c.trailCandles > 0 && entry < j <= |days|
  {
    if j == entry + 1 then initial
    else Raise(days, c, days[entry].close, days[entry].close - initial, StopBefore(days, c, entry, initial, j - 1), j - 1)
  }

  /** `weekly` is the completed weekly RSI as seen on each candle. */
  function ExitOn(days: seq<Candle>, weekly: seq<Option<real>>, c: Config, stop: real, j: nat): (exit: Option<Exit>)
    requires j < |days| == |weekly|
    ensures exit.Some? ==> exit.value.index == j
  {
    if days[j].open < stop then Some(Exit(j, days[j].open, GapOpenBelowStop))
    else if days[j].low <= stop then Some(Exit(j, stop, StopHit))
    else if weekly[j].Some? && weekly[j].value < c.weeklyRsiExitBelow then Some(Exit(j, days[j].close, WeeklyRsiExit))
    else None
  }

  /** The first exit on candle `j` or later. */
  function FirstExit(days: seq<Candle>, weekly: seq<Option<real>>, c: Config, entry: nat, initial: real, j: nat)
    : (exit: Option<Exit>)
    requires c.trailCandles > 0 && entry < j <= |days| == |weekly|
    ensures exit.Some? ==> j <= exit.value.index < |days|
    decreases |days| - j
  {
    if j == |days| then None
    else
      var here := ExitOn(days, weekly, c, StopBefore(days, c, entry, initial, j), j);
      if here.Some? then here else FirstExit(days, weekly, c, entry, initial, j + 1)
  }

  // ---- Decisions -------------------------------------------------------------------------

  function Quantity(risk: real, riskPerShare: real): int
    requires riskPerShare > 0.0
  {
    (risk / riskPerShare + FLOOR_EPSILON).Floor
  }

  function Choose(price: real, stop: Option<real>, exit: Option<Exit>, risk: real): Decision {
    if stop.None? then Refuse(NoStopAvailable)
    else if price <= stop.value then Refuse(EntryNotAboveStop)
    else
      var quantity := Quantity(risk, price - stop.value);
      if quantity < 1 then Refuse(QuantityZero)
      else Take(Plan(price, stop.value, price - stop.value, quantity, exit))
  }

  function ExitAfter(days: seq<Candle>, weekly: seq<Option<real>>, c: Config, entry: nat, stop: Option<real>)
    : (exit: Option<Exit>)
    requires c.trailCandles > 0 && entry < |days| == |weekly|
    ensures exit.Some? ==> entry < exit.value.index < |days|
  {
    if stop.None? then None else FirstExit(days, weekly, c, entry, stop.value, entry + 1)
  }

  /** What becomes of a signal on candle `i`. */
  function Decide(days: seq<Candle>, weekly: seq<Option<real>>, c: Config, i: nat): Decision
    requires c.trailCandles > 0 && c.initialStopCandles > 0 && |days| == |weekly|
  {
    if i + 1 >= |days| then Refuse(NoNextCandle)
    else
      var stop := InitialStop(days, i + 1, c.initialStopCandles);
      Choose(days[i + 1].close, stop, ExitAfter(days, weekly, c, i + 1, stop), c.riskPerTrade)
  }

  ghost function Decider(days: seq<Candle>, weekly: seq<Option<real>>, c: Config): (d: nat -> Decision)
    requires c.trailCandles > 0 && c.initialStopCandles > 0 && |days| == |weekly|
    ensures Forward(d)
  {
    (i: nat) => Decide(days, weekly, c, i)
  }

  /** Everything a run reports, in signal order. Too little history gives a warning and nothing else. */
  ghost function Entries(days: seq<Candle>, c: Config, from: Option<int>): seq<Entry>
    requires c.Usable()
  {
    if |days| < c.rsiPeriod + 2 then []
    else Scan(AcceptedFlags(days, c, from), Decider(days, WeeklySeries(days, c), c), 1)
  }

  // ---- No look-ahead ---------------------------------------------------------------------

  lemma WeeklyOnPrefix(days: seq<Candle>, c: Config, k: nat, m: nat)
    requires c.Usable() && Ascending(days) && k < m <= |days|
    ensures WeeklyRsi(days[..m], c, k) == WeeklyRsi(days, c, k)
  {
    CarriedRsiNoLookAhead(days, c.week, c.rsiPeriod, k, m);
  }

  lemma MonthlyOnPrefix(days: seq<Candle>, c: Config, k: nat, m: nat)
    requires c.Usable() && Ascending(days) && k < m <= |days|
    ensures MonthlyRsi(days[..m], c, k) == MonthlyRsi(days, c, k)
  {
    CarriedRsiNoLookAhead(days, c.month, c.rsiPeriod, k, m);
  }

  lemma DailyOnPrefix(days: seq<Candle>, c: Config, k: nat, m: nat)
    requires c.Usable() && k < m <= |days|
    ensures DailyRsi(days[..m], c, k) == DailyRsi(days, c, k)
  {
    assert Closes(days[..m]) == Closes(days)[..m];
    RsiAtPrefix(Closes(days), c.rsiPeriod, m, k);
  }

  /** The weekly RSI seen by a shorter run is the beginning of what a longer run sees. */
  lemma WeeklySeriesOnPrefix(days: seq<Candle>, c: Config, m: nat)
    requires c.Usable() && Ascending(days) && m <= |days|
    ensures WeeklySeries(days[..m], c) == WeeklySeries(days, c)[..m]
  {
    forall k | 0 <= k < m
      ensures WeeklySeries(days[..m], c)[k] == WeeklySeries(days, c)[k]
    {
      WeeklyOnPrefix(days, c, k, m);
    }
  }

  lemma SetupIs(days: seq<Candle>, c: Config, k: nat, monthly: Option<real>, weekly: Option<real>, daily: Option<real>)
    requires c.rsiPeriod > 0 && k < |days|
    requires monthly == MonthlyRsi(days, c, k) && weekly == WeeklyRsi(days, c, k) && daily == DailyRsi(days, c, k)
    ensures Setup(days, c, k) == Agree(monthly, weekly, daily, c)
  {
  }

  /** The setup of a candle depends only on the candles up to it. */
  lemma SetupOnPrefix(days: seq<Candle>, c: Config, k: nat, m: nat)
    requires c.Usable() && Ascending(days) && k < m <= |days|
    ensures Setup(days[..m], c, k) == Setup(days, c, k)
  {
    MonthlyOnPrefix(days, c, k, m);
    WeeklyOnPrefix(days, c, k, m);
    DailyOnPrefix(days, c, k, m);
    SetupIs(days, c, k, MonthlyRsi(days, c, k), WeeklyRsi(days, c, k), DailyRsi(days, c, k));
    SetupIs(days[..m], c, k, MonthlyRsi(days, c, k), WeeklyRsi(days, c, k), DailyRsi(days, c, k));
  }

  lemma SetupsOnPrefix(days: seq<Candle>, c: Config, m: nat)
    requires c.Usable() && Ascending(days) && m <= |days|
    ensures Setups(days[..m], c) == Setups(days, c)[..m]
  {
    forall k | 0 <= k < m
      ensures Setups(days[..m], c)[k] == Setups(days, c)[k]
    {
      SetupOnPrefix(days, c, k, m);
    }
  }

  lemma SignalsPrefix(setup: seq<bool>, m: nat)
    requires m <= |setup|
    ensures Signals(setup[..m]) == Signals(setup)[..m]
  {
  }

  lemma FlagsOnPrefix(days: seq<Candle>, c: Config, from: Option<int>, m: nat)
    requires c.Usable() && Ascending(days) && m <= |days|
    ensures AcceptedFlags(days[..m], c, from) == AcceptedFlags(days, c, from)[..m]
  {
    SetupsOnPrefix(days, c, m);
    SignalsPrefix(Setups(days, c), m);
    AcceptedPrefix(days, Signals(Setups(days, c)), from, m);
  }

  lemma RaiseOnPrefix(days: seq<Candle>, c: Config, entryPrice: real, risk: real, stop: real, j: nat, m: nat)
    requires c.trailCandles > 0 && j < m <= |days|
    ensures Raise(days[..m], c, entryPrice, risk, stop, j) == Raise(days, c, entryPrice, risk, stop, j)
  {
    var cut := days[..m];
    assert forall k :: 0 <= k <= j ==> cut[k] == days[k];
    if j >= c.trailCandles - 1 {
      assert LowsRise(cut, j, c.trailCandles) == LowsRise(days, j, c.trailCandles);
    }
  }

  lemma {:induction false} StopOnPrefix(days: seq<Candle>, c: Config, entry: nat, initial: real, j: nat, m: nat)
    requires c.trailCandles > 0 && entry < j <= m <= |days|
    ensures StopBefore(days[..m], c, entry, initial, j) == StopBefore(days, c, entry, initial, j)
  {
    if j > entry + 1 {
      StopOnPrefix(days, c, entry, initial, j - 1, m);
      RaiseOnPrefix(days, c, days[entry].close, days[entry].close - initial, StopBefore(days, c, entry, initial, j - 1), j - 1, m);
    }
  }

  lemma ExitOnPrefix(days: seq<Candle>, weekly: seq<Option<real>>, c: Config, stop: real, j: nat, m: nat)
    requires j < m <= |days| == |weekly|
    ensures ExitOn(days[..m], weekly[..m], c, stop, j) == ExitOn(days, weekly, c, stop, j)
  {
  }

  function CutExit(exit: Option<Exit>, m: nat): Option<Exit> {
    if exit.Some? && exit.value.index >= m then None else exit
  }

  lemma FirstExitIs(days: seq<Candle>, weekly: seq<Option<real>>, c: Config, entry: nat, initial: real, j: nat, here: Option<Exit>)
    requires c.trailCandles > 0 && entry < j < |days| == |weekly|
    requires here == ExitOn(days, weekly, c, StopBefore(days, c, entry, initial, j), j)
    ensures FirstExit(days, weekly, c, entry, initial, j) ==
            if here.Some? then here else FirstExit(days, weekly, c, entry, initial, j + 1)
  {
  }

  /** On the first `m` candles the same first exit is found, unless it lies beyond them. */
  lemma {:induction false} FirstExitOnPrefix(days: seq<Candle>, weekly: seq<Option<real>>, c: Config, entry: nat,
                                             initial: real, j: nat, m: nat)
    requires c.trailCandles > 0 && entry < j <= m <= |days| == |weekly|
    ensures FirstExit(days[..m], weekly[..m], c, entry, initial, j) == CutExit(FirstExit(days, weekly, c, entry, initial, j), m)
    decreases m - j
  {
    if j < m {
      var stop := StopBefore(days, c, entry, initial, j);
      var here := ExitOn(days, weekly, c, stop, j);
      StopOnPrefix(days, c, entry, initial, j, m);
      ExitOnPrefix(days, weekly, c, stop, j, m);
      FirstExitIs(days, weekly, c, entry, initial, j, here);
      FirstExitIs(days[..m], weekly[..m], c, entry, initial, j, here);
      if here.None? {
        FirstExitOnPrefix(days, weekly, c, entry, initial, j + 1, m);
      }
    }
  }

  lemma InitialStopOnPrefix(days: seq<Candle>, entry: nat, candles: nat, m: nat)
    requires entry < m <= |days| && candles > 0
    ensures InitialStop(days[..m], entry, candles) == InitialStop(days, entry, candles)
  {
    if entry >= candles - 1 {
      assert Lows(days[..m], entry - (candles - 1), entry + 1) == Lows(days, entry - (candles - 1), entry + 1);
    }
  }

  lemma ChooseCut(price: real, stop: Option<real>, exit: Option<Exit>, risk: real, m: nat)
    ensures Choose(price, stop, CutExit(exit, m), risk) == CutDecision(Choose(price, stop, exit, risk), m)
  {
  }

  lemma DecideIs(days: seq<Candle>, weekly: seq<Option<real>>, c: Config, i: nat, stop: Option<real>, exit: Option<Exit>)
    requires c.trailCandles > 0 && c.initialStopCandles > 0 && i + 1 < |days| == |weekly|
    requires stop == InitialStop(days, i + 1, c.initialStopCandles) && exit == ExitAfter(days, weekly, c, i + 1, stop)
    ensures Decide(days, weekly, c, i) == Choose(days[i + 1].close, stop, exit, c.riskPerTrade)
  {
  }

  lemma ExitAfterOnPrefix(days: seq<Candle>, weekly: seq<Option<real>>, c: Config, entry: nat, stop: Option<real>, m: nat)
    requires c.trailCandles > 0 && entry < m <= |days| == |weekly|
    ensures ExitAfter(days[..m], weekly[..m], c, entry, stop) == CutExit(ExitAfter(days, weekly, c, entry, stop), m)
  {
    if stop.Some? {
      FirstExitOnPrefix(days, weekly, c, entry, stop.value, entry + 1, m);
    }
  }

  lemma DecisionsAgree(days: seq<Candle>, weekly: seq<Option<real>>, cut: seq<Candle>, cutWeekly: seq<Option<real>>,
                       c: Config, i: nat, m: nat, stop: Option<real>, exit: Option<Exit>)
    requires c.trailCandles > 0 && c.initialStopCandles > 0
    requires i + 1 < |cut| == |cutWeekly| && i + 1 < |days| == |weekly| && cut[i + 1] == days[i + 1]
    requires stop == InitialStop(days, i + 1, c.initialStopCandles) == InitialStop(cut, i + 1, c.initialStopCandles)
    requires exit == ExitAfter(days, weekly, c, i + 1, stop) && CutExit(exit, m) == ExitAfter(cut, cutWeekly, c, i + 1, stop)
    ensures Decide(cut, cutWeekly, c, i) == CutDecision(Decide(days, weekly, c, i), m)
  {
    DecideIs(days, weekly, c, i, stop, exit);
    DecideIs(cut, cutWeekly, c, i, stop, CutExit(exit, m));
    ChooseCut(days[i + 1].close, stop, exit, c.riskPerTrade, m);
  }

  lemma DecideOnPrefix(days: seq<Candle>, weekly: seq<Option<real>>, c: Config, i: nat, m: nat)
    requires c.trailCandles > 0 && c.initialStopCandles > 0 && i + 1 < m <= |days| == |weekly|
    ensures Decide(days[..m], weekly[..m], c, i) == CutDecision(Decide(days, weekly, c, i), m)
  {
    var stop := InitialStop(days, i + 1, c.initialStopCandles);
    InitialStopOnPrefix(days, i + 1, c.initialStopCandles, m);
    ExitAfterOnPrefix(days, weekly, c, i + 1, stop, m);
    DecisionsAgree(days, weekly, days[..m], weekly[..m], c, i, m, stop, ExitAfter(days, weekly, c, i + 1, stop));
  }

  lemma DecidersAgree(days: seq<Candle>, weekly: seq<Option<real>>, c: Config, m: nat)
    requires c.trailCandles > 0 && c.initialStopCandles > 0 && m <= |days| == |weekly|
    ensures SamePast(Decider(days[..m], weekly[..m], c), Decider(days, weekly, c), m)
  {
    forall i: nat | i + 1 < m
      ensures Decider(days[..m], weekly[..m], c)(i) == CutDecision(Decider(days, weekly, c)(i), m)
    {
      DecideOnPrefix(days, weekly, c, i, m);
    }
  }

  /** No look-ahead across timeframes: a run on the candles up to any date reports exactly the longer run's trades
      and skips cut at that date, so at most its last trade differs, by being still open. */
  lemma GfsNoLookAhead(days: seq<Candle>, c: Config, from: Option<int>, m: nat)
    requires c.Usable() && Ascending(days) && c.rsiPeriod + 2 <= m <= |days|
    ensures Entries(days[..m], c, from) == Cut(Entries(days, c, from), m)
  {
    var weekly := WeeklySeries(days, c);
    FlagsOnPrefix(days, c, from, m);
    WeeklySeriesOnPrefix(days, c, m);
    DecidersAgree(days, weekly, c, m);
    ScanNoLookAhead(AcceptedFlags(days, c, from), Decider(days[..m], weekly[..m], c), Decider(days, weekly, c), m, 1);
  }
}
