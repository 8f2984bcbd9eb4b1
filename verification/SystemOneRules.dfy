/** The System One rules (system_one_backtest.py:1-33), read off candles and moving averages, and that every reported
    entry obeys them. */
module SystemOneRules {
  import opened Common
  import opened Rsi
  import opened Resample
  import opened BacktestScan
  import opened SystemOne
  import Gfs
  import GfsRules

  // ---- The moving average ----------------------------------------------------------------

  /** The average moves by the close that enters the window and the one that leaves it. */
  lemma SmaSlides(closes: seq<real>, period: nat, k: nat)
    requires 0 < period <= k + 1 < |closes|
    ensures Sma(closes, period, k).Some? && Sma(closes, period, k + 1).Some?
    ensures Sma(closes, period, k + 1).value * period as real
            == Sma(closes, period, k).value * period as real + closes[k + 1] - closes[k + 1 - period]
  {
    TotalSlides(closes, k + 1 - period, k + 1);
    Multiplied(Total(closes, k + 1 - period, k + 1), period as real);
    Multiplied(Total(closes, k + 2 - period, k + 2), period as real);
  }

  lemma Multiplied(a: real, b: real)
    requires b > 0.0
    ensures a / b * b == a
  {
  }

  lemma {:induction false} TotalSlides(closes: seq<real>, lo: nat, hi: nat)
    requires lo < hi < |closes|
    ensures Total(closes, lo + 1, hi + 1) == Total(closes, lo, hi) + closes[hi] - closes[lo]
  {
    TotalFront(closes, lo, hi);
  }

  lemma {:induction false} TotalFront(closes: seq<real>, lo: nat, hi: nat)
    requires lo < hi <= |closes|
    ensures Total(closes, lo, hi) == closes[lo] + Total(closes, lo + 1, hi)
  {
    if lo + 1 < hi {
      TotalFront(closes, lo, hi - 1);
    }
  }

  /** It is there once a full window is, and lies between the least and the greatest close of the window. */
  lemma SmaBetween(closes: seq<real>, period: nat, k: nat, low: real, high: real)
    requires period > 0 && k < |closes|
    requires forall i :: 0 <= i && k + 1 - period <= i <= k ==> low <= closes[i] <= high
    ensures Sma(closes, period, k).Some? <==> period <= k + 1
    ensures period <= k + 1 ==> low <= Sma(closes, period, k).value <= high
  {
    if period <= k + 1 {
      var lo, hi := k + 1 - period, k + 1;
      TotalBetween(closes, lo, hi, low, high);
      assert hi - lo == period;
      DividedBetween(Total(closes, lo, hi), period as real, low, high);
    }
  }

  lemma DividedBetween(total: real, n: real, low: real, high: real)
    requires n > 0.0 && low * n <= total <= high * n
    ensures low <= total / n <= high
  {
    var x := total / n;
    Multiplied(total, n);
    if x < low {
      Strictly(x, low, n);
    }
    if high < x {
      Strictly(high, x, n);
    }
  }

  lemma Strictly(a: real, b: real, f: real)
    requires a < b && f > 0.0
    ensures a * f < b * f
  {
  }

  lemma {:induction false} TotalBetween(closes: seq<real>, lo: nat, hi: nat, low: real, high: real)
    requires lo <= hi <= |closes| && forall i :: lo <= i < hi ==> low <= closes[i] <= high
    ensures low * (hi - lo) as real <= Total(closes, lo, hi) <= high * (hi - lo) as real
  {
    if lo == hi {
      assert (hi - lo) as real == 0.0;
    } else {
      TotalBetween(closes, lo, hi - 1, low, high);
      OneMore(low, hi - 1 - lo);
      OneMore(high, hi - 1 - lo);
      assert Total(closes, lo, hi) == Total(closes, lo, hi - 1) + closes[hi - 1];
    }
  }

  lemma OneMore(x: real, n: nat)
    ensures x * (n + 1) as real == x * n as real + x
  {
    assert (n + 1) as real == n as real + 1.0;
  }

  // ---- Signals ---------------------------------------------------------------------------

  /** A signal is accepted exactly where the RSI crosses above the level, from the given date on. */
  lemma AcceptedIff(days: seq<Candle>, c: Config, from: Option<int>, k: nat)
    requires c.Usable() && k < |days|
    ensures AcceptedFlags(days, c, from)[k] <==>
            && k >= 1 && (from.Some? ==> days[k].date >= from.value)
            && var before, now := RsiAt(Closes(days), c.rsiPeriod, k - 1), RsiAt(Closes(days), c.rsiPeriod, k);
               before.Some? && before.value <= c.rsiEntryLevel && now.Some? && now.value > c.rsiEntryLevel
  {
    hide RsiAt, RsiSeries;
  }

  // ---- Exits -----------------------------------------------------------------------------

  /** The average in force on candle `j`: that of the candle before. */
  function StopOn(days: seq<Candle>, c: Config, j: nat): Option<real>
    requires c.Usable() && 0 < j <= |days|
  {
    Sma(Closes(days), c.maPeriod, j - 1)
  }

  predicate HoldsOn(days: seq<Candle>, c: Config, j: nat)
    requires c.Usable() && 0 < j < |days|
  {
    var stop := StopOn(days, c, j);
    stop.None? || (days[j].open >= stop.value && days[j].low > stop.value)
  }

  predicate LeavesOn(days: seq<Candle>, c: Config, exit: Exit)
    requires c.Usable() && 0 < exit.index < |days|
  {
    var stop := StopOn(days, c, exit.index);
    && stop.Some?
    && match exit.reason
       case GapOpenBelowMa => days[exit.index].open < stop.value && exit.price == days[exit.index].open
       case StopAtMa => days[exit.index].open >= stop.value && days[exit.index].low <= stop.value && exit.price == stop.value
       case _ => false
  }

  /** Held on every candle from `j` on, and left by the rules on the exit candle, if there is one. */
  ghost predicate ManagedByTheRules(days: seq<Candle>, c: Config, j: nat, exit: Option<Exit>)
    requires c.Usable() && 0 < j <= |days|
  {
    var end := if exit.Some? then exit.value.index else |days|;
    && j <= end <= |days|
    && (forall k :: j <= k < end ==> HoldsOn(days, c, k))
    && (exit.Some? ==> end < |days| && LeavesOn(days, c, exit.value))
  }

  lemma ExitOnMeans(days: seq<Candle>, c: Config, ma: seq<Option<real>>, j: nat)
    requires c.Usable() && 0 < j < |days| && ma == SmaSeries(Closes(days), c.maPeriod)
    ensures ExitOn(days[j], ma[j - 1], j).None? <==> HoldsOn(days, c, j)
    ensures ExitOn(days[j], ma[j - 1], j).Some? ==> LeavesOn(days, c, ExitOn(days[j], ma[j - 1], j).value)
  {
    hide Sma;
  }

  lemma {:induction false} FirstExitManages(days: seq<Candle>, c: Config, ma: seq<Option<real>>, j: nat)
    requires c.Usable() && 0 < j <= |days| && ma == SmaSeries(Closes(days), c.maPeriod)
    ensures ManagedByTheRules(days, c, j, FirstExit(days, ma, j))
    decreases |days| - j
  {
    hide ExitOn, HoldsOn, LeavesOn, SmaSeries;
    if j < |days| {
      ExitOnMeans(days, c, ma, j);
      if ExitOn(days[j], ma[j - 1], j).None? {
        FirstExitManages(days, c, ma, j + 1);
      }
    }
  }

  // ---- Every entry -----------------------------------------------------------------------

  ghost predicate TradeRule(days: seq<Candle>, c: Config, signal: nat, plan: Plan)
    requires c.Usable()
  {
    var entry := signal + 1;
    && entry < |days|
    && plan.entryPrice == days[entry].close
    && Sma(Closes(days), c.maPeriod, entry) == Some(plan.stop)
    && plan.riskPerShare == plan.entryPrice - plan.stop > 0.0
    && plan.quantity >= 1 && GfsRules.Sized(plan.quantity, c.riskPerTrade, plan.riskPerShare)
    && ManagedByTheRules(days, c, entry + 1, plan.exit)
  }

  ghost predicate SkipRule(days: seq<Candle>, c: Config, signal: nat, reason: SkipReason)
    requires c.Usable()
  {
    var entry := signal + 1;
    if entry >= |days| then entry == |days| && reason == NoNextCandle
    else
      var stop, price := Sma(Closes(days), c.maPeriod, entry), days[entry].close;
      match reason
      case NoNextCandle => false
      case NoStopAvailable => stop.None?
      case EntryNotAboveStop => stop.Some? && price <= stop.value
      case QuantityZero =>
        stop.Some? && price > stop.value && price - stop.value > c.riskPerTrade + Gfs.FLOOR_EPSILON * (price - stop.value)
  }

  ghost predicate EntryRule(days: seq<Candle>, c: Config, e: Entry)
    requires c.Usable()
  {
    match e
    case Trade(signal, plan) => TradeRule(days, c, signal, plan)
    case Skipped(signal, reason) => SkipRule(days, c, signal, reason)
  }

  lemma DecidedObeys(days: seq<Candle>, c: Config, ma: seq<Option<real>>, i: nat)
    requires c.Usable() && i + 1 < |days| && ma == SmaSeries(Closes(days), c.maPeriod)
    ensures match Decide(days, ma, c.riskPerTrade, i)
            case Take(plan) => TradeRule(days, c, i, plan)
            case Refuse(reason) => SkipRule(days, c, i, reason)
  {
    hide FirstExit, Sma, Gfs.Quantity, GfsRules.Sized, ManagedByTheRules, SmaSeries;
    var stop, price := ma[i + 1], days[i + 1].close;
    FirstExitManages(days, c, ma, i + 2);
    if stop.Some? && price > stop.value {
      var riskPerShare := price - stop.value;
      GfsRules.SizedIs(c.riskPerTrade, riskPerShare);
      if Gfs.Quantity(c.riskPerTrade, riskPerShare) < 1 {
        GfsRules.SmallQuantity(Gfs.Quantity(c.riskPerTrade, riskPerShare), c.riskPerTrade, riskPerShare);
      }
    }
  }

  /** Every entry of a run has an accepted signal and obeys the rules. */
  lemma EntriesObey(days: seq<Candle>, c: Config, from: Option<int>, e: Entry)
    requires c.Usable() && e in Entries(days, c, from)
    ensures e.signal < |days| && AcceptedFlags(days, c, from)[e.signal] && EntryRule(days, c, e)
  {
    hide TradeRule, Decide;
    var flags, ma := AcceptedFlags(days, c, from), SmaSeries(Closes(days), c.maPeriod);
    ScanReportsAccepted(flags, Decider(days, ma, c.riskPerTrade), 1, e);
    ScanFollowsDecisions(flags, Decider(days, ma, c.riskPerTrade), 1, e);
    if e.signal + 1 < |days| {
      DecidedObeys(days, c, ma, e.signal);
    }
  }

  // ---- No look-ahead inside a candle -----------------------------------------------------

  /** The same candles before `j`, and candle `j` with the same open and low. Its close, and all that follows, may
      differ. */
  ghost predicate SameUntil(days: seq<Candle>, other: seq<Candle>, j: nat) {
    && j < |days| && j < |other| && days[..j] == other[..j]
    && days[j].open == other[j].open && days[j].low == other[j].low
  }

  lemma SameAverages(days: seq<Candle>, other: seq<Candle>, c: Config, j: nat, k: nat)
    requires c.Usable() && SameUntil(days, other, j) && k < j
    ensures SmaSeries(Closes(days), c.maPeriod)[k] == SmaSeries(Closes(other), c.maPeriod)[k]
  {
    ClosesPrefix(days, j);
    ClosesPrefix(other, j);
    SmaPrefix(Closes(days), c.maPeriod, j);
    SmaPrefix(Closes(other), c.maPeriod, j);
    assert SmaSeries(Closes(days), c.maPeriod)[..j][k] == SmaSeries(Closes(other), c.maPeriod)[..j][k];
  }

  /** The same exit is found, up to and including candle `j`. */
  lemma {:induction false} SameExits(days: seq<Candle>, other: seq<Candle>, c: Config, ma: seq<Option<real>>, ma': seq<Option<real>>, k: nat, j: nat)
    requires c.Usable() && SameUntil(days, other, j) && 0 < k <= j + 1
    requires ma == SmaSeries(Closes(days), c.maPeriod) && ma' == SmaSeries(Closes(other), c.maPeriod)
    ensures Gfs.CutExit(FirstExit(days, ma, k), j + 1) == Gfs.CutExit(FirstExit(other, ma', k), j + 1)
    decreases j + 1 - k
  {
    hide SmaSeries;
    if k <= j {
      SameAverages(days, other, c, j, k - 1);
      assert k < j ==> days[k] == days[..j][k] == other[..j][k] == other[k];
      SameExits(days, other, c, ma, ma', k + 1, j);
    }
  }

  lemma SamePlans(price: real, stop: Option<real>, exit: Option<Exit>, exit': Option<Exit>, risk: real, m: nat)
    requires Gfs.CutExit(exit, m) == Gfs.CutExit(exit', m)
    ensures CutDecision(Gfs.Choose(price, stop, exit, risk), m) == CutDecision(Gfs.Choose(price, stop, exit', risk), m)
  {
    Gfs.ChooseCut(price, stop, exit, risk, m);
    Gfs.ChooseCut(price, stop, exit', risk, m);
  }

  lemma SameDecisions(days: seq<Candle>, other: seq<Candle>, c: Config, ma: seq<Option<real>>, ma': seq<Option<real>>, i: nat, j: nat)
    requires c.Usable() && SameUntil(days, other, j) && i + 1 < j
    requires ma == SmaSeries(Closes(days), c.maPeriod) && ma' == SmaSeries(Closes(other), c.maPeriod)
    ensures CutDecision(Decide(days, ma, c.riskPerTrade, i), j + 1) == CutDecision(Decide(other, ma', c.riskPerTrade, i), j + 1)
  {
    hide SmaSeries, FirstExit, Gfs.Choose, CutDecision;
    SameExits(days, other, c, ma, ma', i + 2, j);
    SameAverages(days, other, c, j, i + 1);
    assert days[i + 1] == days[..j][i + 1] == other[..j][i + 1] == other[i + 1];
    SamePlans(days[i + 1].close, ma[i + 1], FirstExit(days, ma, i + 2), FirstExit(other, ma', i + 2), c.riskPerTrade, j + 1);
  }

  lemma TradeWasDecided(days: seq<Candle>, c: Config, from: Option<int>, ma: seq<Option<real>>, e: Entry)
    requires c.Usable() && ma == SmaSeries(Closes(days), c.maPeriod) && e in Entries(days, c, from) && e.Trade?
    ensures Decide(days, ma, c.riskPerTrade, e.signal) == Take(e.plan)
  {
    hide Decide;
    ScanFollowsDecisions(AcceptedFlags(days, c, from), Decider(days, ma, c.riskPerTrade), 1, e);
  }

  /** The other run has an entry for the same signal. */
  lemma Twin(days: seq<Candle>, other: seq<Candle>, c: Config, from: Option<int>, j: nat, e: Entry) returns (twin: Entry)
    requires c.Usable() && SameUntil(days, other, j) && c.MinCandles() <= j
    requires e in Entries(days, c, from) && e.Trade? && e.signal + 1 < j
    ensures twin in Entries(other, c, from) && twin.Trade? && twin.signal == e.signal
  {
    hide Entries;
    SystemOneNoLookAhead(days, c, from, j);
    SystemOneNoLookAhead(other, c, from, j);
    TradesFollowEachOther(days, c, from);
    CutKeeps(Entries(days, c, from), j, 1, e);
    assert days[..j] == other[..j];
    twin := CutComesFrom(Entries(other, c, from), j, Trade(e.signal, CutPlan(e.plan, j)));
  }

  /** A trade entered before candle `j` has the same entry, size and, up to that candle, the same exit and price,
      whatever candle `j` closes at and whatever follows. */
  lemma ExitsIgnoreTheirCandlesClose(days: seq<Candle>, other: seq<Candle>, c: Config, from: Option<int>, j: nat, e: Entry)
    returns (plan: Plan)
    requires c.Usable() && SameUntil(days, other, j) && c.MinCandles() <= j
    requires e in Entries(days, c, from) && e.Trade? && e.signal + 1 < j
    ensures Trade(e.signal, plan) in Entries(other, c, from) && CutPlan(plan, j + 1) == CutPlan(e.plan, j + 1)
  {
    hide Entries, Decide, SmaSeries, SameUntil;
    var twin := Twin(days, other, c, from, j, e);
    var ma, ma' := SmaSeries(Closes(days), c.maPeriod), SmaSeries(Closes(other), c.maPeriod);
    TradeWasDecided(days, c, from, ma, e);
    TradeWasDecided(other, c, from, ma', twin);
    SameDecisions(days, other, c, ma, ma', e.signal, j);
    plan := twin.plan;
  }
}
