/** What the GFS simulation promises about risk: the stop only rises, never passes the last close, and bounds the loss. */
module GfsTheorems {
  import opened Common
  import opened Resample
  import opened BacktestScan
  import opened Gfs

  /** A candle closes no lower than its low. */
  ghost predicate SoundCandles(days: seq<Candle>) {
    forall k :: 0 <= k < |days| ==> days[k].low <= days[k].close
  }

  /** Candle `k` closes no trade that carries this stop. */
  predicate Survives(days: seq<Candle>, weekly: seq<Option<real>>, c: Config, entry: nat, initial: real, k: nat)
    requires c.trailCandles > 0 && entry < k < |days| == |weekly|
  {
    ExitOn(days, weekly, c, StopBefore(days, c, entry, initial, k), k).None?
  }

  /** The exit found by walking the candles is the only one no earlier candle forestalls. */
  lemma {:induction false} FirstExitIsFirst(days: seq<Candle>, weekly: seq<Option<real>>, c: Config, entry: nat,
                                            initial: real, j: nat)
    requires c.trailCandles > 0 && entry < j <= |days| == |weekly|
    ensures var exit := FirstExit(days, weekly, c, entry, initial, j);
            var end := if exit.Some? then exit.value.index else |days|;
            && (forall k :: j <= k < end ==> Survives(days, weekly, c, entry, initial, k))
            && (exit.Some? ==> exit == ExitOn(days, weekly, c, StopBefore(days, c, entry, initial, end), end))
    decreases |days| - j
  {
    if j < |days| && Survives(days, weekly, c, entry, initial, j) {
      FirstExitIsFirst(days, weekly, c, entry, initial, j + 1);
    }
  }

  // ---- The stop --------------------------------------------------------------------------

  /** The stop is never lowered. */
  lemma {:induction false} StopNeverFalls(days: seq<Candle>, c: Config, entry: nat, initial: real, j: nat, k: nat)
    requires c.trailCandles > 0 && entry < j <= k <= |days|
    ensures StopBefore(days, c, entry, initial, j) <= StopBefore(days, c, entry, initial, k)
  {
    if j < k {
      StopNeverFalls(days, c, entry, initial, j, k - 1);
    }
  }

  lemma {:induction false} RisingLows(days: seq<Candle>, j: nat, count: nat, k: nat)
    requires count > 0 && count - 1 <= j < |days| && LowsRise(days, j, count) && j - count + 1 <= k <= j
    ensures days[j - count + 1].low <= days[k].low
  {
    if k > j - count + 1 {
      RisingLows(days, j, count, k - 1);
    }
  }

  /** One raise keeps the stop at or below the close that caused it. */
  lemma RaiseBelowClose(days: seq<Candle>, c: Config, entryPrice: real, risk: real, stop: real, j: nat)
    requires c.trailCandles > 0 && j < |days| && days[j].low <= days[j].close
    requires c.breakevenR >= 0.0 && risk >= 0.0 && stop <= days[j].close
    ensures Raise(days, c, entryPrice, risk, stop, j) <= days[j].close
  {
    NonNegative(c.breakevenR, risk);
    if j >= c.trailCandles - 1 && LowsRise(days, j, c.trailCandles) {
      RisingLows(days, j, c.trailCandles, j);
    }
  }

  lemma NonNegative(a: real, b: real)
    requires a >= 0.0 && b >= 0.0
    ensures a * b >= 0.0
  {
  }

  /** While the trade lives, the stop for the next candle lies at or below the last processed close. */
  lemma StopBelowLastClose(days: seq<Candle>, weekly: seq<Option<real>>, c: Config, entry: nat, initial: real, j: nat)
    requires c.trailCandles > 0 && c.breakevenR >= 0.0 && SoundCandles(days) && entry < j <= |days| == |weekly|
    requires initial <= days[entry].close
    requires j > entry + 1 ==> Survives(days, weekly, c, entry, initial, j - 1)
    ensures StopBefore(days, c, entry, initial, j) <= days[j - 1].close
  {
    if j > entry + 1 {
      RaiseBelowClose(days, c, days[entry].close, days[entry].close - initial, StopBefore(days, c, entry, initial, j - 1), j - 1);
    }
  }

  /** Once a surviving candle closed at the breakeven level, the stop protects the entry price. */
  lemma BreakevenStop(days: seq<Candle>, c: Config, entry: nat, initial: real, k: nat, j: nat, risk: real)
    requires c.trailCandles > 0 && entry < k < j <= |days|
    requires risk == days[entry].close - initial && AtBreakeven(days[k].close, days[entry].close, risk, c)
    ensures StopBefore(days, c, entry, initial, j) >= days[entry].close
  {
    StopNeverFalls(days, c, entry, initial, k + 1, j);
    assert StopBefore(days, c, entry, initial, k + 1) ==
           Raise(days, c, days[entry].close, risk, StopBefore(days, c, entry, initial, k), k);
  }

  // ---- Exits and money -------------------------------------------------------------------

  function Pnl(plan: Plan): real
    requires plan.exit.Some?
  {
    (plan.exit.value.price - plan.entryPrice) * plan.quantity as real
  }

  /** An exit that is not a gap fills at or above the stop in force, a gap strictly below it. */
  lemma ExitAtOrAboveStop(days: seq<Candle>, weekly: seq<Option<real>>, c: Config, stop: real, j: nat)
    requires j < |days| == |weekly| && SoundCandles(days) && ExitOn(days, weekly, c, stop, j).Some?
    ensures var exit := ExitOn(days, weekly, c, stop, j).value;
            exit.price >= stop <==> exit.reason != GapOpenBelowStop
  {
  }

  lemma DivideBack(a: real, b: real)
    requires b > 0.0
    ensures a / b * b == a
  {
  }

  /** The whole-share quantity risks no more than planned, up to the floor guard. */
  lemma QuantityRisk(risk: real, riskPerShare: real)
    requires riskPerShare > 0.0
    ensures Quantity(risk, riskPerShare) as real * riskPerShare <= risk + FLOOR_EPSILON * riskPerShare
    ensures (Quantity(risk, riskPerShare) + 1) as real * riskPerShare > risk
  {
    var x := risk / riskPerShare;
    var q := Quantity(risk, riskPerShare) as real;
    DivideBack(risk, riskPerShare);
    Scale(q, x + FLOOR_EPSILON, riskPerShare);
    Scale(x, q + 1.0, riskPerShare);
    assert (x + FLOOR_EPSILON) * riskPerShare == x * riskPerShare + FLOOR_EPSILON * riskPerShare;
    assert x * riskPerShare < (q + 1.0) * riskPerShare by {
      assert x < q + 1.0;
    }
  }

  lemma Scale(a: real, b: real, f: real)
    requires a <= b && f > 0.0
    ensures a * f <= b * f
    ensures a < b ==> a * f < b * f
  {
  }

  /** What a taken trade is: entered above its stop, sized to the risk, closed by its first exit. */
  ghost predicate WellPlanned(days: seq<Candle>, weekly: seq<Option<real>>, c: Config, signal: nat, plan: Plan)
    requires c.trailCandles > 0 && |days| == |weekly|
  {
    && signal + 1 < |days|
    && plan.entryPrice == days[signal + 1].close
    && plan.riskPerShare == plan.entryPrice - plan.stop > 0.0
    && plan.quantity == Quantity(c.riskPerTrade, plan.riskPerShare) >= 1
    && plan.exit == FirstExit(days, weekly, c, signal + 1, plan.stop, signal + 2)
  }

  lemma TakenIsWellPlanned(days: seq<Candle>, weekly: seq<Option<real>>, c: Config, i: nat, plan: Plan)
    requires c.trailCandles > 0 && c.initialStopCandles > 0 && |days| == |weekly|
    requires Decide(days, weekly, c, i) == Take(plan)
    ensures WellPlanned(days, weekly, c, i, plan)
  {
    var stop := InitialStop(days, i + 1, c.initialStopCandles);
    DecideIs(days, weekly, c, i, stop, ExitAfter(days, weekly, c, i + 1, stop));
  }

  /** A closed trade that is not a gap exit fills at or above the stop in force that day, and survived all days before. */
  lemma FillsAtOrAboveStop(days: seq<Candle>, weekly: seq<Option<real>>, c: Config, signal: nat, plan: Plan)
    requires c.trailCandles > 0 && |days| == |weekly| && SoundCandles(days)
    requires WellPlanned(days, weekly, c, signal, plan) && plan.exit.Some? && plan.exit.value.reason != GapOpenBelowStop
    ensures signal + 1 < plan.exit.value.index < |days|
    ensures plan.exit.value.price >= StopBefore(days, c, signal + 1, plan.stop, plan.exit.value.index)
  {
    var x := plan.exit.value.index;
    FirstExitIsFirst(days, weekly, c, signal + 1, plan.stop, signal + 2);
    ExitAtOrAboveStop(days, weekly, c, StopBefore(days, c, signal + 1, plan.stop, x), x);
  }

  /** So it never fills below its initial stop. */
  lemma ExitAboveInitialStop(days: seq<Candle>, weekly: seq<Option<real>>, c: Config, signal: nat, plan: Plan)
    requires c.trailCandles > 0 && |days| == |weekly| && SoundCandles(days)
    requires WellPlanned(days, weekly, c, signal, plan) && plan.exit.Some? && plan.exit.value.reason != GapOpenBelowStop
    ensures plan.exit.value.price >= plan.stop
  {
    FillsAtOrAboveStop(days, weekly, c, signal, plan);
    StopNeverFalls(days, c, signal + 1, plan.stop, signal + 2, plan.exit.value.index);
  }

  lemma LossIsBounded(plan: Plan, risk: real)
    requires plan.exit.Some? && plan.exit.value.price >= plan.stop
    requires plan.riskPerShare == plan.entryPrice - plan.stop > 0.0 && plan.quantity == Quantity(risk, plan.riskPerShare) >= 1
    ensures Pnl(plan) >= -(risk + FLOOR_EPSILON * plan.riskPerShare)
  {
    QuantityRisk(risk, plan.riskPerShare);
    Scale(-plan.riskPerShare, plan.exit.value.price - plan.entryPrice, plan.quantity as real);
  }

  /** Every trade of a run, closed otherwise than by a gap, loses at most the planned risk (and the floor guard). */
  lemma ClosedTradesLoseAtMostTheRisk(days: seq<Candle>, c: Config, from: Option<int>, e: Entry)
    requires c.Usable() && SoundCandles(days) && e in Entries(days, c, from)
    requires e.Trade? && e.plan.exit.Some? && e.plan.exit.value.reason != GapOpenBelowStop
    ensures Pnl(e.plan) >= -(c.riskPerTrade + FLOOR_EPSILON * e.plan.riskPerShare)
  {
    var weekly := WeeklySeries(days, c);
    TradeIsWellPlanned(days, c, from, e);
    ExitAboveInitialStop(days, weekly, c, e.signal, e.plan);
    LossIsBounded(e.plan, c.riskPerTrade);
  }

  lemma TradeIsWellPlanned(days: seq<Candle>, c: Config, from: Option<int>, e: Entry)
    requires c.Usable() && e in Entries(days, c, from) && e.Trade?
    ensures WellPlanned(days, WeeklySeries(days, c), c, e.signal, e.plan)
  {
    var weekly := WeeklySeries(days, c);
    ScanFollowsDecisions(AcceptedFlags(days, c, from), Decider(days, weekly, c), 1, e);
    assert Decider(days, weekly, c)(e.signal) == Decide(days, weekly, c, e.signal);
    TakenIsWellPlanned(days, weekly, c, e.signal, e.plan);
  }

  lemma ExitAboveEntry(days: seq<Candle>, weekly: seq<Option<real>>, c: Config, signal: nat, plan: Plan, k: nat)
    requires c.trailCandles > 0 && |days| == |weekly| && SoundCandles(days)
    requires WellPlanned(days, weekly, c, signal, plan) && plan.exit.Some? && plan.exit.value.reason != GapOpenBelowStop
    requires signal + 1 < k < plan.exit.value.index && k < |days| && AtBreakeven(days[k].close, plan.entryPrice, plan.riskPerShare, c)
    ensures plan.exit.value.price >= plan.entryPrice
  {
    FillsAtOrAboveStop(days, weekly, c, signal, plan);
    BreakevenStop(days, c, signal + 1, plan.stop, k, plan.exit.value.index, plan.riskPerShare);
  }

  lemma PnlSign(plan: Plan)
    requires plan.exit.Some? && plan.exit.value.price >= plan.entryPrice && plan.quantity >= 1
    ensures Pnl(plan) >= 0.0
  {
    NonNegative(plan.exit.value.price - plan.entryPrice, plan.quantity as real);
  }

  /** After a candle inside the trade has closed at breakeven, no exit but a gap loses money. */
  lemma NoLossAfterBreakeven(days: seq<Candle>, c: Config, from: Option<int>, e: Entry, k: nat)
    requires c.Usable() && SoundCandles(days) && e in Entries(days, c, from)
    requires e.Trade? && e.plan.exit.Some? && e.plan.exit.value.reason != GapOpenBelowStop
    requires e.signal + 1 < k < e.plan.exit.value.index && k < |days| && AtBreakeven(days[k].close, e.plan.entryPrice, e.plan.riskPerShare, c)
    ensures Pnl(e.plan) >= 0.0
  {
    TradeIsWellPlanned(days, c, from, e);
    ExitAboveEntry(days, WeeklySeries(days, c), c, e.signal, e.plan, k);
    PnlSign(e.plan);
  }

  // ---- Signal accounting of a whole run --------------------------------------------------

  /** Every signal in the accepted window is a trade's signal, a recorded skip, or falls inside one trade. */
  lemma EverySignalIsAccountedFor(days: seq<Candle>, c: Config, from: Option<int>, k: nat)
    requires c.Usable() && |days| >= c.rsiPeriod + 2 && k < |days| && AcceptedFlags(days, c, from)[k]
    ensures CoveredOnce(Entries(days, c, from), k)
  {
    EntriesIs(days, c, from, AcceptedFlags(days, c, from), WeeklySeries(days, c));
    AcceptedNotFirst(days, Signals(Setups(days, c)), from, k);
    ExactlyOnce(AcceptedFlags(days, c, from), Decider(days, WeeklySeries(days, c), c), k);
  }

  lemma EntriesIs(days: seq<Candle>, c: Config, from: Option<int>, flags: seq<bool>, weekly: seq<Option<real>>)
    requires c.Usable() && |days| >= c.rsiPeriod + 2
    requires flags == AcceptedFlags(days, c, from) && weekly == WeeklySeries(days, c)
    ensures Entries(days, c, from) == Scan(flags, Decider(days, weekly, c), 1)
  {
  }

  lemma AcceptedNotFirst(days: seq<Candle>, signals: seq<bool>, from: Option<int>, k: nat)
    requires |signals| == |days| && k < |days| && !signals[0] && Accepted(days, signals, from)[k]
    ensures k >= 1
  {
  }

  /** signal < entry < exit < next signal, and only the last trade may be open. */
  lemma TradesFollowEachOther(days: seq<Candle>, c: Config, from: Option<int>)
    requires c.Usable()
    ensures InOrder(Entries(days, c, from), 1)
  {
    if |days| >= c.rsiPeriod + 2 {
      ScanInOrder(AcceptedFlags(days, c, from), Decider(days, WeeklySeries(days, c), c), 1);
    }
  }

  // ---- Truncated runs --------------------------------------------------------------------

  /** The trades a run reports when it ends at `to`. */
  ghost function TradesUpTo(days: seq<Candle>, c: Config, from: Option<int>, to: Option<int>): seq<Entry>
    requires c.Usable()
  {
    Trades(Entries(UpTo(days, to), c, from))
  }

  /** Before the daily RSI is defined no candle is a setup, so no trade can have its signal there. */
  lemma NoEarlySignal(days: seq<Candle>, c: Config, from: Option<int>, e: Entry)
    requires c.Usable() && e in Entries(days, c, from)
    ensures e.signal >= c.rsiPeriod
  {
    var flags, weekly := AcceptedFlags(days, c, from), WeeklySeries(days, c);
    EntriesIs(days, c, from, flags, weekly);
    ScanReportsAccepted(flags, Decider(days, weekly, c), 1, e);
    SetupNeedsRsi(days, c, e.signal);
  }

  lemma SetupNeedsRsi(days: seq<Candle>, c: Config, k: nat)
    requires c.rsiPeriod > 0 && k < |days| && Setup(days, c, k)
    ensures k >= c.rsiPeriod
  {
  }

  lemma {:induction false} NoTrades(entries: seq<Entry>)
    requires forall e :: e in entries ==> !e.Trade?
    ensures Trades(entries) == []
  {
    if entries != [] {
      NoTrades(entries[..|entries| - 1]);
    }
  }

  lemma CutHasNoTrades(entries: seq<Entry>, first: nat, m: nat)
    requires m <= first + 1 && forall e :: e in entries ==> e.signal >= first
    ensures forall e :: e in Cut(entries, m) ==> !e.Trade?
  {
  }

  /** At every length, too short ones included, a truncated run has the longer run's trades. */
  lemma TradesNoLookAhead(days: seq<Candle>, c: Config, from: Option<int>, m: nat)
    requires c.Usable() && Ascending(days) && m <= |days|
    ensures Trades(Entries(days[..m], c, from)) == Trades(Cut(Entries(days, c, from), m))
  {
    if m >= c.rsiPeriod + 2 {
      GfsNoLookAhead(days, c, from, m);
    } else {
      forall e | e in Entries(days, c, from)
        ensures e.signal >= c.rsiPeriod
      {
        NoEarlySignal(days, c, from, e);
      }
      CutHasNoTrades(Entries(days, c, from), c.rsiPeriod, m);
      NoTrades(Cut(Entries(days, c, from), m));
    }
  }

  /** A run that ends earlier reports the trades of the one that ends later: those entered by then, the last of them
      still open when its exit lies beyond. */
  lemma EarlierEndSameTrades(days: seq<Candle>, c: Config, from: Option<int>, early: int, late: Option<int>)
    requires c.Usable() && Ascending(days) && (late.Some? ==> early <= late.value)
    ensures TradesUpTo(days, c, from, Some(early)) ==
            Trades(Cut(Entries(UpTo(days, late), c, from), Visible(days, early)))
  {
    if late.Some? {
      VisibleWithin(days, early, late.value);
    }
    var v := Visible(days, early);
    assert UpTo(days, late)[..v] == days[..v];
    TradesNoLookAhead(UpTo(days, late), c, from, v);
  }
}
