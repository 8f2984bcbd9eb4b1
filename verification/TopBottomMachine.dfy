/** The always-reversing engine as an online machine: it keeps the last two closes, the
    latest confirmed top and bottom and the open trade, and never looks at the list of swings. */
module TopBottomMachine {
  import opened Common

  datatype Direction = Buy | Sell

  datatype ExitReason = TrailingStopReversal | EndOfBacktest

  datatype Signal = Signal(direction: Direction, signalIndex: nat, signalDate: int, systemPoint: real, entryPrice: real)

  /** The value of a trade record at one moment. */
  datatype TradeValue = TradeValue(
    direction: Direction,
    entryDate: int,
    entryPrice: real,
    systemPoint: real,
    initialSl: real,
    activeStop: real,
    exitDate: Option<int>,
    exitPrice: Option<real>,
    exitReason: Option<ExitReason>,
    stopHistory: seq<(int, real)>)
  {
    function PnlPoints(): Option<real> {
      if exitPrice.None? then None
      else Some(if direction == Buy then exitPrice.value - entryPrice else entryPrice - exitPrice.value)
    }

    function Close(date: int, price: real, reason: ExitReason): TradeValue {
      this.(exitDate := Some(date), exitPrice := Some(price), exitReason := Some(reason))
    }
  }

  function Opened(direction: Direction, systemPoint: real, initialSl: real, date: int): TradeValue {
    TradeValue(direction, date, systemPoint, systemPoint, initialSl, initialSl, None, None, None, [(date, initialSl)])
  }

  datatype Bar = Bar(date: int, close: real)

  /** What the close series alone determines: the last two closes and the latest levels. */
  datatype Levels = Levels(last: Option<real>, beforeLast: Option<real>, top: Option<real>, bottom: Option<real>)
  {
    predicate Both() {
      top.Some? && bottom.Some?
    }

    function Next(close: real): Levels {
      Levels(
        Some(close),
        last,
        if beforeLast.Some? && last.Some? && last.value > beforeLast.value && last.value > close then last else top,
        if beforeLast.Some? && last.Some? && last.value < beforeLast.value && last.value < close then last else bottom)
    }
  }

  const NO_LEVELS := Levels(None, None, None, None)

  /** Levels after the first `n` bars. */
  function LevelsAfter(bars: seq<Bar>, n: nat): Levels
    requires n <= |bars|
  {
    if n == 0 then NO_LEVELS else LevelsAfter(bars, n - 1).Next(bars[n - 1].close)
  }

  datatype Machine = Machine(
    seen: nat,
    levels: Levels,
    open: Option<TradeValue>,
    signals: seq<Signal>,
    trades: seq<TradeValue>)

  const START := Machine(0, NO_LEVELS, None, [], [])

  predicate StopHit(direction: Direction, stop: real, close: real) {
    if direction == Buy then close < stop else close > stop
  }

  /** The tighter of two stops. */
  function Tighter(direction: Direction, a: real, b: real): real {
    if direction == Buy then Max(a, b) else Min(a, b)
  }

  /** The level that protects a trade of this direction. */
  function Anchor(direction: Direction, lv: Levels): Option<real> {
    if direction == Buy then lv.bottom else lv.top
  }

  function Opposite(direction: Direction): Direction {
    if direction == Buy then Sell else Buy
  }

  function Trail(t: TradeValue, lv: Levels, date: int): TradeValue {
    var anchor := Anchor(t.direction, lv);
    if anchor.None? then t
    else
      var stop := Tighter(t.direction, t.activeStop, anchor.value);
      if stop == t.activeStop then t
      else t.(activeStop := stop, stopHistory := t.stopHistory + [(date, stop)])
  }

  /** The entry a flat machine makes on this close, if any. */
  function FirstEntry(lv: Levels, close: real): Option<Direction> {
    if lv.top.Some? && close > lv.top.value then
      if lv.bottom.Some? then Some(Buy) else None
    else if lv.bottom.Some? && close < lv.bottom.value then
      if lv.top.Some? then Some(Sell) else None
    else None
  }

  function Enter(m: Machine, direction: Direction, systemPoint: real, stop: real, bar: Bar): Machine {
    m.(open := Some(Opened(direction, systemPoint, stop, bar.date)),
       signals := m.signals + [Signal(direction, m.seen, bar.date, systemPoint, systemPoint)])
  }

  function WhileFlat(m: Machine, lv: Levels, bar: Bar): Machine {
    match FirstEntry(lv, bar.close)
    case None => m
    case Some(Buy) => Enter(m, Buy, lv.top.value, lv.bottom.value, bar)
    case Some(Sell) => Enter(m, Sell, lv.bottom.value, lv.top.value, bar)
  }

  function WhileOpen(m: Machine, t: TradeValue, lv: Levels, bar: Bar): Machine {
    var trailed := Trail(t, lv, bar.date);
    if !StopHit(t.direction, trailed.activeStop, bar.close) then m.(open := Some(trailed))
    else
      var level := trailed.activeStop;
      var closed := m.(open := None, trades := m.trades + [trailed.Close(bar.date, level, TrailingStopReversal)]);
      var anchor := Anchor(Opposite(t.direction), lv);
      if anchor.None? then closed
      else Enter(closed, Opposite(t.direction), level, anchor.value, bar)
  }

  /** One bar. */
  function Step(m: Machine, bar: Bar): Machine {
    var lv := m.levels.Next(bar.close);
    var moved := if m.open.None? then WhileFlat(m, lv, bar) else WhileOpen(m, m.open.value, lv, bar);
    moved.(seen := m.seen + 1, levels := lv)
  }

  /** The machine after the first `n` bars. */
  function RunTo(bars: seq<Bar>, n: nat): (m: Machine)
    requires n <= |bars|
    ensures m.seen == n && m.levels == LevelsAfter(bars, n)
  {
    if n == 0 then START else Step(RunTo(bars, n - 1), bars[n - 1])
  }

  function Run(bars: seq<Bar>): Machine {
    RunTo(bars, |bars|)
  }

  /** The trades reported at the end: an open one is closed at the last close. */
  function Report(bars: seq<Bar>): seq<TradeValue> {
    var m := Run(bars);
    if m.open.None? || bars == [] then m.trades
    else m.trades + [m.open.value.Close(bars[|bars| - 1].date, bars[|bars| - 1].close, EndOfBacktest)]
  }

  /** The trades of a machine, the open one last. */
  function AllTrades(m: Machine): seq<TradeValue> {
    if m.open.None? then m.trades else m.trades + [m.open.value]
  }
}
