/** The System One trade simulation: RSI crossing signals, a stop at the previous candle's moving average
    (system_one_backtest.py). */
module SystemOne {
  import opened Common
  import opened Rsi
  import opened Resample
  import opened BacktestScan
  import Gfs

  datatype Config = Config(rsiPeriod: nat, rsiEntryLevel: real, maPeriod: nat, riskPerTrade: real)
  {
    predicate Usable() {
      rsiPeriod > 0 && maPeriod > 0
    }

    function MinCandles(): nat {
      if rsiPeriod + 2 >= maPeriod + 1 then rsiPeriod + 2 else maPeriod + 1
    }
  }

  function Total(closes: seq<real>, lo: nat, hi: nat): real
    requires lo <= hi <= |closes|
  {
    if lo == hi then 0.0 else Total(closes, lo, hi - 1) + closes[hi - 1]
  }

  /** Simple moving average, undefined until a full window is there. */
  function Sma(closes: seq<real>, period: nat, k: nat): Option<real>
    requires period > 0 && k < |closes|
  {
    if k + 1 < period then None else Some(Total(closes, k + 1 - period, k + 1) / period as real)
  }

  function SmaSeries(closes: seq<real>, period: nat): (ma: seq<Option<real>>)
    requires period > 0
    ensures |ma| == |closes| && forall k :: 0 <= k < |closes| ==> ma[k] == Sma(closes, period, k)
  {
    seq(|closes|, k requires 0 <= k < |closes| => Sma(closes, period, k))
  }

  /** The RSI crosses above the level from one candle to the next. */
  predicate Crosses(before: Option<real>, now: Option<real>, level: real) {
    before.Some? && now.Some? && before.value <= level < now.value
  }

  function CrossSignals(rsi: seq<Option<real>>, level: real): (flags: seq<bool>)
    ensures |flags| == |rsi|
    ensures forall j, k :: 0 <= j < k < |rsi| && k == j + 1 ==> flags[k] == Crosses(rsi[j], rsi[k], level)
    ensures rsi != [] ==> !flags[0]
  {
    seq(|rsi|, k requires 0 <= k < |rsi| => k >= 1 && Crosses(rsi[k - 1], rsi[k], level))
  }

  function Signals(days: seq<Candle>, c: Config): (flags: seq<bool>)
    requires c.Usable()
    ensures |flags| == |days| && (days != [] ==> !flags[0])
  {
    CrossSignals(RsiSeries(Closes(days), c.rsiPeriod), c.rsiEntryLevel)
  }

  /** Candle `j` against a stop known before it opens; an undefined stop stops nothing. */
  function ExitOn(day: Candle, stop: Option<real>, j: nat): (exit: Option<Exit>)
    ensures exit.Some? ==> exit.value.index == j
  {
    if stop.None? then None
    else if day.open < stop.value then Some(Exit(j, day.open, GapOpenBelowMa))
    else if day.low <= stop.value then Some(Exit(j, stop.value, StopAtMa))
    else None
  }

  function FirstExit(days: seq<Candle>, ma: seq<Option<real>>, j: nat): (exit: Option<Exit>)
    requires 0 < j <= |days| == |ma|
    ensures exit.Some? ==> j <= exit.value.index < |days|
    decreases |days| - j
  {
    if j == |days| then None
    else if ExitOn(days[j], ma[j - 1], j).Some? then ExitOn(days[j], ma[j - 1], j)
    else FirstExit(days, ma, j + 1)
  }

  function Decide(days: seq<Candle>, ma: seq<Option<real>>, risk: real, i: nat): Decision
    requires |days| == |ma|
  {
    if i + 1 >= |days| then Refuse(NoNextCandle)
    else Gfs.Choose(days[i + 1].close, ma[i + 1], FirstExit(days, ma, i + 2), risk)
  }

  ghost function Decider(days: seq<Candle>, ma: seq<Option<real>>, risk: real): (d: nat -> Decision)
    requires |days| == |ma|
    ensures Forward(d)
  {
    (i: nat) => Decide(days, ma, risk, i)
  }

  function AcceptedFlags(days: seq<Candle>, c: Config, from: Option<int>): (flags: seq<bool>)
    requires c.Usable()
    ensures |flags| == |days| && (days != [] ==> !flags[0])
  {
    Accepted(days, Signals(days, c), from)
  }

  /** Everything a run reports. */
  ghost function Entries(days: seq<Candle>, c: Config, from: Option<int>): seq<Entry>
    requires c.Usable()
  {
    if |days| < c.MinCandles() then []
    else Scan(AcceptedFlags(days, c, from), Decider(days, SmaSeries(Closes(days), c.maPeriod), c.riskPerTrade), 1)
  }

  // ---- No look-ahead ---------------------------------------------------------------------

  lemma {:induction false} TotalPrefix(closes: seq<real>, lo: nat, hi: nat, m: nat)
    requires lo <= hi <= m <= |closes|
    ensures Total(closes[..m], lo, hi) == Total(closes, lo, hi)
  {
    if lo < hi {
      TotalPrefix(closes, lo, hi - 1, m);
    }
  }

  lemma SmaPrefix(closes: seq<real>, period: nat, m: nat)
    requires period > 0 && m <= |closes|
    ensures SmaSeries(closes[..m], period) == SmaSeries(closes, period)[..m]
  {
    forall k | 0 <= k < m
      ensures Sma(closes[..m], period, k) == Sma(closes, period, k)
    {
      if k + 1 >= period {
        TotalPrefix(closes, k + 1 - period, k + 1, m);
      }
    }
  }

  lemma CrossPrefix(rsi: seq<Option<real>>, level: real, m: nat)
    requires m <= |rsi|
    ensures CrossSignals(rsi[..m], level) == CrossSignals(rsi, level)[..m]
  {
  }

  lemma ClosesPrefix(days: seq<Candle>, m: nat)
    requires m <= |days|
    ensures Closes(days[..m]) == Closes(days)[..m]
  {
  }

  lemma FlagsPrefix(days: seq<Candle>, c: Config, from: Option<int>, m: nat)
    requires c.Usable() && m <= |days|
    ensures AcceptedFlags(days[..m], c, from) == AcceptedFlags(days, c, from)[..m]
  {
    ClosesPrefix(days, m);
    RsiPrefix(Closes(days), c.rsiPeriod, m);
    CrossPrefix(RsiSeries(Closes(days), c.rsiPeriod), c.rsiEntryLevel, m);
    AcceptedPrefix(days, Signals(days, c), from, m);
  }

  lemma {:induction false} FirstExitPrefix(days: seq<Candle>, ma: seq<Option<real>>, j: nat, m: nat)
    requires 0 < j <= m <= |days| == |ma|
    ensures FirstExit(days[..m], ma[..m], j) == Gfs.CutExit(FirstExit(days, ma, j), m)
    decreases m - j
  {
    if j < m {
      FirstExitPrefix(days, ma, j + 1, m);
    }
  }

  lemma DecidersAgree(days: seq<Candle>, ma: seq<Option<real>>, risk: real, m: nat)
    requires m <= |days| == |ma|
    ensures SamePast(Decider(days[..m], ma[..m], risk), Decider(days, ma, risk), m)
  {
    forall i: nat | i + 1 < m
      ensures Decide(days[..m], ma[..m], risk, i) == CutDecision(Decide(days, ma, risk, i), m)
    {
      FirstExitPrefix(days, ma, i + 2, m);
      Gfs.ChooseCut(days[i + 1].close, ma[i + 1], FirstExit(days, ma, i + 2), risk, m);
    }
  }

  /** A run on fewer candles reports the longer run's trades and skips, cut where its candles end. */
  lemma SystemOneNoLookAhead(days: seq<Candle>, c: Config, from: Option<int>, m: nat)
    requires c.Usable() && c.MinCandles() <= m <= |days|
    ensures Entries(days[..m], c, from) == Cut(Entries(days, c, from), m)
  {
    var ma := SmaSeries(Closes(days), c.maPeriod);
    ClosesPrefix(days, m);
    SmaPrefix(Closes(days), c.maPeriod, m);
    FlagsPrefix(days, c, from, m);
    DecidersAgree(days, ma, c.riskPerTrade, m);
    ScanNoLookAhead(AcceptedFlags(days, c, from), Decider(days[..m], ma[..m], c.riskPerTrade),
                    Decider(days, ma, c.riskPerTrade), m, 1);
  }

  // ---- Accounting ------------------------------------------------------------------------

  /** Every accepted signal is a trade's signal, a recorded skip, or falls inside one trade. */
  lemma EverySignalIsAccountedFor(days: seq<Candle>, c: Config, from: Option<int>, k: nat)
    requires c.Usable() && |days| >= c.MinCandles() && k < |days| && AcceptedFlags(days, c, from)[k]
    ensures CoveredOnce(Entries(days, c, from), k)
  {
    ExactlyOnce(AcceptedFlags(days, c, from), Decider(days, SmaSeries(Closes(days), c.maPeriod), c.riskPerTrade), k);
  }

  /** signal < entry < exit < next signal, and only the last trade may be open. */
  lemma TradesFollowEachOther(days: seq<Candle>, c: Config, from: Option<int>)
    requires c.Usable()
    ensures InOrder(Entries(days, c, from), 1)
  {
    if |days| >= c.MinCandles() {
      ScanInOrder(AcceptedFlags(days, c, from), Decider(days, SmaSeries(Closes(days), c.maPeriod), c.riskPerTrade), 1);
    }
  }

  /** Between two signals the RSI has been back at or below the level. */
  lemma {:induction false} SignalsAreFresh(rsi: seq<Option<real>>, level: real, a: nat, b: nat)
    requires a < b < |rsi| && CrossSignals(rsi, level)[a] && CrossSignals(rsi, level)[b]
    ensures exists k :: a < k < b && rsi[k].Some? && rsi[k].value <= level
  {
    assert Crosses(rsi[b - 1], rsi[b], level);
    assert a >= 1 && Crosses(rsi[a - 1], rsi[a], level);
    assert a < b - 1;
  }
}
