/** run_top_bottom_backtest in the source's own form: every bar refilters the complete list of
    confirmed swings, and the open trade record is updated in place. It is proved equal to the
    online machine of TopBottomMachine. */
module TopBottomEngine {
  import opened Common
  import opened TopBottomSwings
  import TopBottomRules
  import opened TopBottomMachine

  class Trade {
    const direction: Direction
    const entryDate: int
    const entryPrice: real
    const systemPoint: real
    const initialSl: real
    var activeStop: real
    var exitDate: Option<int>
    var exitPrice: Option<real>
    var exitReason: Option<ExitReason>
    var stopHistory: seq<(int, real)>

    function Value(): TradeValue
      reads this
    {
      TradeValue(direction, entryDate, entryPrice, systemPoint, initialSl, activeStop, exitDate, exitPrice, exitReason, stopHistory)
    }

    constructor (direction: Direction, systemPoint: real, initialSl: real, date: int)
      ensures Value() == Opened(direction, systemPoint, initialSl, date)
    {
      this.direction := direction;
      this.entryDate := date;
      this.entryPrice := systemPoint;
      this.systemPoint := systemPoint;
      this.initialSl := initialSl;
      this.activeStop := initialSl;
      this.exitDate := None;
      this.exitPrice := None;
      this.exitReason := None;
      this.stopHistory := [(date, initialSl)];
    }

    /** Move the stop towards the latest opposite level, never away from the price. */
    method TrailTo(level: Option<real>, date: int)
      modifies this
      ensures Value() == (
        if level.None? then old(Value())
        else
          var stop := Tighter(direction, old(activeStop), level.value);
          if stop == old(activeStop) then old(Value())
          else old(Value()).(activeStop := stop, stopHistory := old(stopHistory) + [(date, stop)]))
    {
      if level.Some? {
        var stop := if direction == Buy then Max(activeStop, level.value) else Min(activeStop, level.value);
        if stop != activeStop {
          activeStop := stop;
          stopHistory := stopHistory + [(date, stop)];
        }
      }
    }

    method CloseAt(date: int, price: real, reason: ExitReason)
      modifies this
      ensures Value() == old(Value()).Close(date, price, reason)
    {
      exitDate := Some(date);
      exitPrice := Some(price);
      exitReason := Some(reason);
    }
  }

  function Bars(dates: seq<int>, closes: seq<real>): (bars: seq<Bar>)
    requires |dates| == |closes|
    ensures |bars| == |closes|
    ensures forall k :: 0 <= k < |closes| ==> bars[k] == Bar(dates[k], closes[k])
  {
    seq(|closes|, k requires 0 <= k < |closes| => Bar(dates[k], closes[k]))
  }

  /** Latest level of a kind among the swings confirmed before bar `m`. */
  ghost function Latest(dates: seq<int>, closes: seq<real>, kind: Kind, m: nat): Option<real>
    requires |dates| == |closes| && m <= |closes|
  {
    LastPrice(OfKind(Confirmed(dates, closes, 1, 1, m), kind))
  }

  lemma LastOfKindAppend(swings: seq<SwingPoint>, next: seq<SwingPoint>, kind: Kind)
    requires |next| <= 1
    ensures LastPrice(OfKind(swings + next, kind)) ==
            if next != [] && next[0].kind == kind then Some(next[0].price) else LastPrice(OfKind(swings, kind))
  {
    if next == [] {
      assert swings + next == swings;
    } else {
      assert (swings + next)[..|swings|] == swings;
    }
  }

  /** One bar further, a level changes exactly when the bar before is a strict extreme of three closes. */
  lemma LatestStep(dates: seq<int>, closes: seq<real>, kind: Kind, m: nat)
    requires |dates| == |closes| && 3 <= m <= |closes|
    ensures Latest(dates, closes, kind, m) ==
            if kind == Top && closes[m - 2] > closes[m - 3] && closes[m - 2] > closes[m - 1] then Some(closes[m - 2])
            else if kind == Bottom && closes[m - 2] < closes[m - 3] && closes[m - 2] < closes[m - 1] then Some(closes[m - 2])
            else Latest(dates, closes, kind, m - 1)
  {
    var next := SwingAt(dates, closes, 1, 1, m - 2);
    LastOfKindAppend(Confirmed(dates, closes, 1, 1, m - 1), next, kind);
    assert IsTop(closes, m - 2, 1, 1) <==> closes[m - 2] > closes[m - 3] && closes[m - 2] > closes[m - 1];
    assert IsBottom(closes, m - 2, 1, 1) <==> closes[m - 2] < closes[m - 3] && closes[m - 2] < closes[m - 1];
  }

  /** The machine's two levels are the last swings of the refiltered history, at every bar. */
  lemma {:induction false} OnlineLevels(dates: seq<int>, closes: seq<real>, m: nat)
    requires |dates| == |closes| && m <= |closes|
    ensures LevelsAfter(Bars(dates, closes), m) == Levels(
              if m >= 1 then Some(closes[m - 1]) else None,
              if m >= 2 then Some(closes[m - 2]) else None,
              Latest(dates, closes, Top, m),
              Latest(dates, closes, Bottom, m))
  {
    var bars := Bars(dates, closes);
    if m > 0 {
      OnlineLevels(dates, closes, m - 1);
      if m >= 3 {
        LatestStep(dates, closes, Top, m);
        LatestStep(dates, closes, Bottom, m);
      }
    }
  }

  /** The level of a kind that is visible at bar `i` in the complete list of swings. */
  function Seen(allSwings: seq<SwingPoint>, kind: Kind, i: nat): Option<real> {
    LastPrice(OfKind(SwingsConfirmedBy(allSwings, i), kind))
  }

  ghost predicate SeesLevel(bars: seq<Bar>, allSwings: seq<SwingPoint>, i: nat)
    requires i < |bars|
  {
    Seen(allSwings, Top, i) == LevelsAfter(bars, i + 1).top && Seen(allSwings, Bottom, i) == LevelsAfter(bars, i + 1).bottom
  }

  /** Filtered bar by bar, the complete list shows the levels of the machine. */
  ghost predicate SeesLevels(bars: seq<Bar>, allSwings: seq<SwingPoint>) {
    forall i :: 0 <= i < |bars| ==> SeesLevel(bars, allSwings, i)
  }

  lemma ConfirmedSeesLevels(dates: seq<int>, closes: seq<real>)
    requires |dates| == |closes|
    ensures SeesLevels(Bars(dates, closes), Confirmed(dates, closes, 1, 1, |closes|))
  {
    forall i | 0 <= i < |closes|
      ensures SeesLevel(Bars(dates, closes), Confirmed(dates, closes, 1, 1, |closes|), i)
    {
      RefilterIsConfirmed(dates, closes, 1, 1, |closes|, i);
      OnlineLevels(dates, closes, i + 1);
    }
  }

  /** The latest top and bottom at bar `i`, by filtering the complete list of swings. */
  method LatestLevels(allSwings: seq<SwingPoint>, i: nat, ghost bars: seq<Bar>) returns (top: Option<real>, bottom: Option<real>)
    requires i < |bars| && SeesLevels(bars, allSwings)
    ensures top == LevelsAfter(bars, i + 1).top && bottom == LevelsAfter(bars, i + 1).bottom
  {
    var confirmed := SwingsConfirmedBy(allSwings, i);
    top := LastPrice(OfKind(confirmed, Top));
    bottom := LastPrice(OfKind(confirmed, Bottom));
    assert SeesLevel(bars, allSwings, i);
  }

  /** The "in a position" half of the loop body: trail, then exit and reverse on a breach.
      `left` is the trade still open afterwards, `done` the one that was closed, if any. */
  method ManageOpen(open: Trade, top: Option<real>, bottom: Option<real>, date: int, close: real, i: nat)
    returns (done: bool, left: Trade?, signal: Option<Signal>)
    modifies open
    ensures left != null && left != open ==> fresh(left)
    ensures var trailed := Trail(old(open.Value()), Levels(None, None, top, bottom), date);
            if !StopHit(open.direction, trailed.activeStop, close) then
              !done && left == open && open.Value() == trailed && signal == None
            else
              var anchor := if open.direction == Buy then top else bottom;
              && done
              && open.Value() == trailed.Close(date, trailed.activeStop, TrailingStopReversal)
              && (anchor.None? ==> left == null && signal == None)
              && (anchor.Some? ==>
                    && left != null && left != open
                    && left.Value() == Opened(Opposite(open.direction), trailed.activeStop, anchor.value, date)
                    && signal == Some(Signal(Opposite(open.direction), i, date, trailed.activeStop, trailed.activeStop)))
  {
    open.TrailTo(if open.direction == Buy then bottom else top, date);
    if !StopHit(open.direction, open.activeStop, close) {
      return false, open, None;
    }
    var stopLevel := open.activeStop;
    open.CloseAt(date, stopLevel, TrailingStopReversal);
    var reverse := if open.direction == Buy then Sell else Buy;
    var newSl := if reverse == Sell then top else bottom;
    if newSl.None? {
      return true, null, None;
    }
    var reversed := new Trade(reverse, stopLevel, newSl.value, date);
    return true, reversed, Some(Signal(reverse, i, date, stopLevel, stopLevel));
  }

  /** The flat half of the loop body: the first breakout, whichever side it is on. */
  method TryEnter(top: Option<real>, bottom: Option<real>, date: int, close: real, i: nat)
    returns (entered: Trade?, signal: Option<Signal>)
    ensures entered != null ==> fresh(entered)
    ensures match FirstEntry(Levels(None, None, top, bottom), close)
            case None => entered == null && signal == None
            case Some(Buy) => entered != null && entered.Value() == Opened(Buy, top.value, bottom.value, date)
                              && signal == Some(Signal(Buy, i, date, top.value, top.value))
            case Some(Sell) => entered != null && entered.Value() == Opened(Sell, bottom.value, top.value, date)
                               && signal == Some(Signal(Sell, i, date, bottom.value, bottom.value))
  {
    entered, signal := null, None;
    if top.Some? && close > top.value {
      if bottom.Some? {
        signal := Some(Signal(Buy, i, date, top.value, top.value));
        entered := new Trade(Buy, top.value, bottom.value, date);
      }
    } else if bottom.Some? && close < bottom.value {
      if top.Some? {
        signal := Some(Signal(Sell, i, date, bottom.value, bottom.value));
        entered := new Trade(Sell, bottom.value, top.value, date);
      }
    }
  }

  /** The loop body: one bar of the online machine `m`, carried out on the records. */
  method OnBar(ghost m: Machine, open: Trade?, trades: seq<Trade>, signals: seq<Signal>,
               top: Option<real>, bottom: Option<real>, date: int, close: real, i: nat)
    returns (nextOpen: Trade?, nextTrades: seq<Trade>, nextSignals: seq<Signal>)
    requires Matches(trades, open, m) && signals == m.signals && m.seen == i
    requires top == m.levels.Next(close).top && bottom == m.levels.Next(close).bottom
    modifies open
    ensures Matches(nextTrades, nextOpen, Step(m, Bar(date, close)))
    ensures nextSignals == Step(m, Bar(date, close)).signals
    ensures nextOpen != null && nextOpen != open ==> fresh(nextOpen)
    ensures forall t :: t in nextTrades ==> t in trades || t == open
  {
    nextTrades, nextSignals := trades, signals;
    var signal: Option<Signal>;
    if open == null {
      nextOpen, signal := TryEnter(top, bottom, date, close, i);
    } else {
      var done;
      done, nextOpen, signal := ManageOpen(open, top, bottom, date, close, i);
      if done {
        nextTrades := trades + [open];
      }
    }
    if signal.Some? {
      nextSignals := signals + [signal.value];
    }
  }

  /** The event loop. */
  method RunBars(dates: seq<int>, closes: seq<real>, allSwings: seq<SwingPoint>)
    returns (signals: seq<Signal>, trades: seq<Trade>, open: Trade?)
    requires |dates| == |closes|
    requires SeesLevels(Bars(dates, closes), allSwings)
    ensures signals == Run(Bars(dates, closes)).signals
    ensures Matches(trades, open, Run(Bars(dates, closes)))
    ensures forall t :: t in trades ==> fresh(t)
    ensures open != null ==> fresh(open)
  {
    ghost var bars := Bars(dates, closes);
    ghost var m := RunTo(bars, 0);
    signals, trades, open := [], [], null;
    assert Matches(trades, open, m) && Run(bars) == RunTo(bars, |closes|);
    hide *;
    for i := 0 to |closes|
      invariant m == RunTo(bars, i) && signals == m.signals && Matches(trades, open, m)
      invariant forall t :: t in trades ==> fresh(t)
      invariant open != null ==> fresh(open)
    {
      var latestTop, latestBottom := LatestLevels(allSwings, i, bars);
      NextBar(bars, i);
      open, trades, signals := OnBar(m, open, trades, signals, latestTop, latestBottom, dates[i], closes[i], i);
      m := RunTo(bars, i + 1);
    }
  }

  lemma NextBar(bars: seq<Bar>, i: nat)
    requires i < |bars|
    ensures RunTo(bars, i).seen == i && RunTo(bars, i + 1) == Step(RunTo(bars, i), bars[i])
    ensures LevelsAfter(bars, i + 1) == RunTo(bars, i).levels.Next(bars[i].close)
  {
  }

  /** A trade still open at the end is closed at the last close. */
  method CloseAtEnd(trades: seq<Trade>, open: Trade?, date: int, close: real, ghost m: Machine) returns (all: seq<Trade>)
    requires Matches(trades, open, m)
    modifies open
    ensures Mirrors(all, if m.open.None? then m.trades else m.trades + [m.open.value.Close(date, close, EndOfBacktest)])
    ensures forall t :: t in all ==> t in trades || t == open
  {
    all := trades;
    if open != null {
      open.CloseAt(date, close, EndOfBacktest);
      all := trades + [open];
    }
  }

  /** Without bars there is nothing to close. */
  lemma ReportIs(bars: seq<Bar>)
    ensures var m := Run(bars);
            Report(bars) == if bars == [] || m.open.None? then m.trades
                            else m.trades + [m.open.value.Close(bars[|bars| - 1].date, bars[|bars| - 1].close, EndOfBacktest)]
    ensures bars == [] ==> Run(bars) == START
  {
  }

  /** The event loop and the close behind it. */
  method Simulate(dates: seq<int>, closes: seq<real>, allSwings: seq<SwingPoint>)
    returns (signals: seq<Signal>, all: seq<Trade>)
    requires |dates| == |closes| && SeesLevels(Bars(dates, closes), allSwings)
    ensures signals == Run(Bars(dates, closes)).signals
    ensures Mirrors(all, Report(Bars(dates, closes)))
    ensures forall t :: t in all ==> fresh(t)
  {
    hide *;
    ReportIs(Bars(dates, closes));
    var trades, open;
    signals, trades, open := RunBars(dates, closes, allSwings);
    if |closes| > 0 {
      all := CloseAtEnd(trades, open, dates[|dates| - 1], closes[|closes| - 1], Run(Bars(dates, closes)));
    } else {
      all := trades;
      MirrorsNothing(trades, open, Run(Bars(dates, closes)));
    }
  }

  /** The whole backtest: the source's answer is the online machine's. */
  method RunTopBottomBacktest(dates: seq<int>, closes: seq<real>)
    returns (r: Result<(seq<Signal>, seq<Trade>)>)
    ensures r.Ok? <==> |dates| == |closes|
    ensures r.Ok? ==> r.value.0 == Run(Bars(dates, closes)).signals
    ensures r.Ok? ==> TopBottomRules.SignalsObey(Bars(dates, closes), r.value.0, |closes|)
    ensures r.Ok? ==> Mirrors(r.value.1, Report(Bars(dates, closes)))
    ensures r.Ok? ==> forall t :: t in r.value.1 ==> fresh(t)
  {
    if |dates| != |closes| {
      return Err("dates and closes must be the same length");
    }
    hide *;
    TopBottomRules.SignalsIff(Bars(dates, closes), Run(Bars(dates, closes)).signals);
    var detected := DetectConfirmedSwings(dates, closes, 1, 1);
    ConfirmedSeesLevels(dates, closes);
    var signals, trades := Simulate(dates, closes, detected.value);
    r := Ok((signals, trades));
  }

  lemma MirrorsNothing(trades: seq<Trade>, open: Trade?, m: Machine)
    requires Matches(trades, open, m) && m == START
    ensures Mirrors(trades, m.trades)
  {
  }

  ghost predicate Mirrors(trades: seq<Trade>, values: seq<TradeValue>)
    reads trades
  {
    |trades| == |values| && forall k :: 0 <= k < |trades| ==> trades[k].Value() == values[k]
  }

  /** The records on the heap are those of the machine; the open one is not among the closed ones. */
  ghost predicate Matches(trades: seq<Trade>, open: Trade?, m: Machine)
    reads trades, open
  {
    && Mirrors(trades, m.trades)
    && (open == null <==> m.open.None?)
    && (open != null ==> open.Value() == m.open.value && open !in trades)
  }
}
