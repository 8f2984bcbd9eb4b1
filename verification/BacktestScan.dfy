/** The skeleton shared by the GFS and System One backtests: walk the accepted signals, refuse or take each, and
    after a taken one go on behind its exit. */
module BacktestScan {
  import opened Common
  import opened Resample

  /** Signals are accepted on or after `from` only; earlier candles warm up the indicators. */
  predicate InWindow(day: Candle, from: Option<int>) {
    from.None? || day.date >= from.value
  }

  function Accepted(days: seq<Candle>, signals: seq<bool>, from: Option<int>): (flags: seq<bool>)
    requires |signals| == |days|
    ensures |flags| == |days| && forall k :: 0 <= k < |days| ==> flags[k] == (signals[k] && InWindow(days[k], from))
  {
    seq(|days|, k requires 0 <= k < |days| => signals[k] && InWindow(days[k], from))
  }

  lemma AcceptedPrefix(days: seq<Candle>, signals: seq<bool>, from: Option<int>, m: nat)
    requires |signals| == |days| && m <= |days|
    ensures Accepted(days[..m], signals[..m], from) == Accepted(days, signals, from)[..m]
  {
  }

  datatype ExitReason = StopHit | GapOpenBelowStop | WeeklyRsiExit | StopAtMa | GapOpenBelowMa

  datatype Exit = Exit(index: nat, price: real, reason: ExitReason)

  /** A taken trade: entered at the close of the candle after its signal. */
  datatype Plan = Plan(entryPrice: real, stop: real, riskPerShare: real, quantity: int, exit: Option<Exit>)

  datatype SkipReason = NoNextCandle | NoStopAvailable | EntryNotAboveStop | QuantityZero

  datatype Decision = Refuse(reason: SkipReason) | Take(plan: Plan)

  datatype Entry = Trade(signal: nat, plan: Plan) | Skipped(signal: nat, reason: SkipReason)

  /** An exit lies behind the entry candle. */
  ghost predicate Forward(decide: nat -> Decision) {
    forall i: nat :: decide(i).Take? && decide(i).plan.exit.Some? ==> i + 1 < decide(i).plan.exit.value.index
  }

  /** The loop from candle `i`; `accepted` marks the signals inside the requested window. */
  ghost function Scan(accepted: seq<bool>, decide: nat -> Decision, i: nat): seq<Entry>
    requires Forward(decide)
    decreases |accepted| - i
  {
    if i >= |accepted| then []
    else if !accepted[i] then Scan(accepted, decide, i + 1)
    else if i + 1 >= |accepted| then [Skipped(i, NoNextCandle)]
    else
      match decide(i)
      case Refuse(reason) => [Skipped(i, reason)] + Scan(accepted, decide, i + 1)
      case Take(plan) =>
        [Trade(i, plan)] + (if plan.exit.Some? then Scan(accepted, decide, plan.exit.value.index + 1) else [])
  }

  function Trades(entries: seq<Entry>): seq<Entry> {
    if entries == [] then []
    else Trades(entries[..|entries| - 1]) + (if entries[|entries| - 1].Trade? then [entries[|entries| - 1]] else [])
  }

  function Skips(entries: seq<Entry>): seq<Entry> {
    if entries == [] then []
    else Skips(entries[..|entries| - 1]) + (if entries[|entries| - 1].Skipped? then [entries[|entries| - 1]] else [])
  }

  // ---- Signal accounting -----------------------------------------------------------------

  /** The candles this entry keeps busy: its signal, and for a trade everything to its exit (or for ever). */
  predicate Covers(e: Entry, i: nat) {
    match e
    case Skipped(signal, _) => i == signal
    case Trade(signal, plan) => signal <= i && (plan.exit.Some? ==> i <= plan.exit.value.index)
  }

  /** Every entry lies wholly before the next one; an open trade comes last. */
  ghost predicate InOrder(entries: seq<Entry>, from: nat) {
    && (forall j :: 0 <= j < |entries| ==> from <= entries[j].signal && ForwardExit(entries[j]))
    && (forall j, k :: 0 <= j < k < |entries| ==> EndsBefore(entries[j], entries[k].signal))
  }

  /** Signal, then entry on the next candle, then the exit. */
  predicate ForwardExit(e: Entry) {
    e.Trade? && e.plan.exit.Some? ==> e.signal + 1 < e.plan.exit.value.index
  }

  predicate EndsBefore(e: Entry, signal: nat) {
    match e
    case Skipped(s, _) => s < signal
    case Trade(s, plan) => plan.exit.Some? && plan.exit.value.index < signal
  }

  lemma InOrderCons(e: Entry, rest: seq<Entry>, from: nat, next: nat)
    requires InOrder(rest, next) && from <= e.signal < next && ForwardExit(e)
    requires e.Trade? ==> e.plan.exit.Some? && e.plan.exit.value.index < next
    ensures InOrder([e] + rest, from)
  {
  }

  /** signal < entry < exit < next signal; at most the last trade is open. */
  lemma {:induction false} ScanInOrder(accepted: seq<bool>, decide: nat -> Decision, i: nat)
    requires Forward(decide)
    ensures InOrder(Scan(accepted, decide, i), i)
    decreases |accepted| - i
  {
    if i < |accepted| {
      if !accepted[i] {
        ScanInOrder(accepted, decide, i + 1);
      } else if i + 1 < |accepted| {
        var d := decide(i);
        if d.Refuse? {
          hide InOrder;
          ScanInOrder(accepted, decide, i + 1);
          InOrderCons(Skipped(i, d.reason), Scan(accepted, decide, i + 1), i, i + 1);
        } else if d.plan.exit.Some? {
          hide InOrder;
          var next := d.plan.exit.value.index + 1;
          ScanInOrder(accepted, decide, next);
          InOrderCons(Trade(i, d.plan), Scan(accepted, decide, next), i, next);
        }
      }
    }
  }

  /** Only accepted signals are reported. */
  lemma {:induction false} ScanReportsAccepted(accepted: seq<bool>, decide: nat -> Decision, i: nat, e: Entry)
    requires Forward(decide) && e in Scan(accepted, decide, i)
    ensures e.signal < |accepted| && accepted[e.signal]
    decreases |accepted| - i
  {
    if !accepted[i] {
      ScanReportsAccepted(accepted, decide, i + 1, e);
    } else if i + 1 < |accepted| && e.signal != i {
      var d := decide(i);
      ScanReportsAccepted(accepted, decide, if d.Refuse? then i + 1 else d.plan.exit.value.index + 1, e);
    }
  }

  /** Every entry reports what was decided on its signal; a signal on the last candle has no next one. */
  lemma {:induction false} ScanFollowsDecisions(accepted: seq<bool>, decide: nat -> Decision, i: nat, e: Entry)
    requires Forward(decide) && e in Scan(accepted, decide, i)
    ensures e.Trade? ==> e.signal + 1 < |accepted| && decide(e.signal) == Take(e.plan)
    ensures e.Skipped? ==> if e.signal + 1 < |accepted| then decide(e.signal) == Refuse(e.reason) else e.reason == NoNextCandle
    decreases |accepted| - i
  {
    if !accepted[i] {
      ScanFollowsDecisions(accepted, decide, i + 1, e);
    } else if i + 1 < |accepted| {
      match decide(i)
      case Refuse(reason) =>
        if e != Skipped(i, reason) {
          ScanFollowsDecisions(accepted, decide, i + 1, e);
        }
      case Take(plan) =>
        if e != Trade(i, plan) {
          ScanFollowsDecisions(accepted, decide, plan.exit.value.index + 1, e);
        }
    }
  }

  ghost predicate Covered(entries: seq<Entry>, i: nat) {
    exists j :: 0 <= j < |entries| && Covers(entries[j], i)
  }

  lemma CoveredCons(e: Entry, rest: seq<Entry>, i: nat)
    requires Covers(e, i) || Covered(rest, i)
    ensures Covered([e] + rest, i)
  {
    if Covers(e, i) {
      assert ([e] + rest)[0] == e;
    } else {
      var j :| 0 <= j < |rest| && Covers(rest[j], i);
      assert ([e] + rest)[j + 1] == rest[j];
    }
  }

  /** No accepted signal is lost: it is a trade's signal, a recorded skip, or inside a trade. */
  lemma {:induction false} EverySignalCovered(accepted: seq<bool>, decide: nat -> Decision, i: nat, k: nat)
    requires Forward(decide) && i <= k < |accepted| && accepted[k]
    ensures Covered(Scan(accepted, decide, i), k)
    decreases |accepted| - i
  {
    if !accepted[i] {
      EverySignalCovered(accepted, decide, i + 1, k);
    } else if i + 1 >= |accepted| {
      assert Covers(Scan(accepted, decide, i)[0], k);
    } else {
      match decide(i)
      case Refuse(reason) =>
        if k > i {
          EverySignalCovered(accepted, decide, i + 1, k);
        }
        CoveredCons(Skipped(i, reason), Scan(accepted, decide, i + 1), k);
      case Take(plan) =>
        if plan.exit.Some? {
          if plan.exit.value.index < k {
            EverySignalCovered(accepted, decide, plan.exit.value.index + 1, k);
          }
          CoveredCons(Trade(i, plan), Scan(accepted, decide, plan.exit.value.index + 1), k);
        } else {
          assert Covers(Scan(accepted, decide, i)[0], k);
        }
    }
  }

  ghost predicate OnlyCover(entries: seq<Entry>, j: nat, k: nat)
    requires j < |entries|
  {
    Covers(entries[j], k) && forall l :: 0 <= l < |entries| && l != j ==> !Covers(entries[l], k)
  }

  ghost predicate CoveredOnce(entries: seq<Entry>, k: nat) {
    exists j: nat :: j < |entries| && OnlyCover(entries, j, k)
  }

  /** The account of one accepted signal: it belongs to exactly one entry. */
  lemma ExactlyOnce(accepted: seq<bool>, decide: nat -> Decision, k: nat)
    requires Forward(decide) && 1 <= k < |accepted| && accepted[k]
    ensures CoveredOnce(Scan(accepted, decide, 1), k)
  {
    var entries := Scan(accepted, decide, 1);
    EverySignalCovered(accepted, decide, 1, k);
    ScanInOrder(accepted, decide, 1);
    var j :| 0 <= j < |entries| && Covers(entries[j], k);
    forall l | 0 <= l < |entries| && l != j
      ensures !Covers(entries[l], k)
    {
      if l < j {
        assert EndsBefore(entries[l], entries[j].signal);
      } else {
        assert EndsBefore(entries[j], entries[l].signal);
      }
    }
    assert OnlyCover(entries, j, k);
  }

  // ---- Truncation ------------------------------------------------------------------------

  /** The plan as a run on the first `m` candles sees it: an exit at `m` or later has not happened. */
  function CutPlan(plan: Plan, m: nat): Plan {
    if plan.exit.Some? && plan.exit.value.index >= m then plan.(exit := None) else plan
  }

  function CutDecision(d: Decision, m: nat): Decision {
    if d.Take? then Take(CutPlan(d.plan, m)) else d
  }

  /** A decider of the shorter run that decides from the same past. */
  ghost predicate SamePast(short: nat -> Decision, full: nat -> Decision, m: nat) {
    forall i: nat :: i + 1 < m ==>
      short(i) == CutDecision(full(i), m)
  }

  /** What the shorter run reports of the longer one's entries. */
  function Cut(entries: seq<Entry>, m: nat): seq<Entry> {
    if entries == [] || entries[0].signal >= m then []
    else if entries[0].signal == m - 1 then [Skipped(m - 1, NoNextCandle)]
    else match entries[0]
      case Skipped(_, _) => [entries[0]] + Cut(entries[1..], m)
      case Trade(signal, plan) => [Trade(signal, CutPlan(plan, m))] + Cut(entries[1..], m)
  }

  /** Of ordered entries every trade entered before `m` stays, with its exit cut. */
  lemma {:induction false} CutKeeps(entries: seq<Entry>, m: nat, from: nat, e: Entry)
    requires InOrder(entries, from) && e in entries && e.Trade? && e.signal + 1 < m
    ensures Trade(e.signal, CutPlan(e.plan, m)) in Cut(entries, m)
  {
    if entries[0] != e {
      var k :| 0 <= k < |entries| && entries[k] == e;
      assert EndsBefore(entries[0], entries[k].signal);
      assert entries[1..][k - 1] == e;
      CutKeeps(entries[1..], m, from, e);
    }
  }

  /** And nothing else becomes a trade. */
  lemma {:induction false} CutComesFrom(entries: seq<Entry>, m: nat, x: Entry) returns (e: Entry)
    requires x in Cut(entries, m) && x.Trade?
    ensures e in entries && e.Trade? && e.signal == x.signal && x.plan == CutPlan(e.plan, m)
  {
    if entries[0].Trade? && x == Trade(entries[0].signal, CutPlan(entries[0].plan, m)) {
      e := entries[0];
    } else {
      e := CutComesFrom(entries[1..], m, x);
    }
  }

  /** Trades and skips are entries. */
  lemma {:induction false} ListedAreEntries(entries: seq<Entry>)
    ensures forall e :: e in Trades(entries) <==> e in entries && e.Trade?
    ensures forall e :: e in Skips(entries) <==> e in entries && e.Skipped?
  {
    if entries != [] {
      ListedAreEntries(entries[..|entries| - 1]);
      assert entries == entries[..|entries| - 1] + [entries[|entries| - 1]];
    }
  }

  lemma CutLate(entries: seq<Entry>, m: nat, from: nat)
    requires InOrder(entries, from) && m <= from
    ensures Cut(entries, m) == []
  {
  }

  lemma CutCons(e: Entry, rest: seq<Entry>, m: nat)
    requires e.signal + 1 < m
    ensures Cut([e] + rest, m) == [if e.Trade? then Trade(e.signal, CutPlan(e.plan, m)) else e] + Cut(rest, m)
  {
    assert ([e] + rest)[1..] == rest;
  }

  /** A run on the first `m` candles reports exactly the longer run's entries cut at `m`: the same trades, except
      that one whose exit lies beyond is still open, and a signal on the last candle has no next candle yet. */
  lemma {:induction false} ScanNoLookAhead(accepted: seq<bool>, short: nat -> Decision, full: nat -> Decision, m: nat, i: nat)
    requires Forward(short) && Forward(full) && m <= |accepted| && SamePast(short, full, m)
    ensures Scan(accepted[..m], short, i) == Cut(Scan(accepted, full, i), m)
    decreases |accepted| - i
  {
    ScanInOrder(accepted, full, i);
    if i >= m {
      CutLate(Scan(accepted, full, i), m, i);
    } else if !accepted[i] {
      ScanNoLookAhead(accepted, short, full, m, i + 1);
    } else if i + 1 == m {
      assert Scan(accepted[..m], short, i) == [Skipped(i, NoNextCandle)];
    } else {
      match full(i)
      case Refuse(reason) =>
        ScanNoLookAhead(accepted, short, full, m, i + 1);
        CutCons(Skipped(i, reason), Scan(accepted, full, i + 1), m);
      case Take(plan) =>
        if plan.exit.Some? {
          var next := plan.exit.value.index + 1;
          ScanNoLookAhead(accepted, short, full, m, next);
          CutCons(Trade(i, plan), Scan(accepted, full, next), m);
          if plan.exit.value.index >= m {
            ScanInOrder(accepted, full, next);
            CutLate(Scan(accepted, full, next), m, next);
          }
        }
    }
  }

  // ---- One step of the loop --------------------------------------------------------------

  lemma Regroup(x: seq<Entry>, y: seq<Entry>, z: seq<Entry>)
    ensures x + (y + z) == x + y + z
  {
  }

  lemma TradesSnoc(front: seq<Entry>, last: Entry)
    ensures Trades(front + [last]) == Trades(front) + (if last.Trade? then [last] else [])
    ensures Skips(front + [last]) == Skips(front) + (if last.Skipped? then [last] else [])
  {
    assert (front + [last])[..|front|] == front;
  }

  lemma TradesOfOne(e: Entry)
    ensures Trades([e]) == if e.Trade? then [e] else []
    ensures Skips([e]) == if e.Skipped? then [e] else []
    ensures Trades([]) == [] && Skips([]) == []
  {
    TradesSnoc([], e);
    assert [] + [e] == [e];
  }

  lemma {:induction false} TradesCons(e: Entry, rest: seq<Entry>)
    ensures Trades([e] + rest) == Trades([e]) + Trades(rest)
    ensures Skips([e] + rest) == Skips([e]) + Skips(rest)
  {
    hide Trades, Skips;
    if rest == [] {
      TradesOfOne(e);
      assert [e] + rest == [e];
    } else {
      var front, last := rest[..|rest| - 1], rest[|rest| - 1];
      assert rest == front + [last];
      TradesCons(e, front);
      Regroup([e], front, [last]);
      TradesSnoc(front, last);
      TradesSnoc([e] + front, last);
      Regroup(Trades([e]), Trades(front), if last.Trade? then [last] else []);
      Regroup(Skips([e]), Skips(front), if last.Skipped? then [last] else []);
    }
  }

  /** The two lists the loop appends to, from candle `i` on. */
  ghost predicate Appends(accepted: seq<bool>, decide: nat -> Decision, i: nat, trades: seq<Entry>, skips: seq<Entry>, next: nat)
    requires Forward(decide)
  {
    && Trades(Scan(accepted, decide, i)) == trades + Trades(Scan(accepted, decide, next))
    && Skips(Scan(accepted, decide, i)) == skips + Skips(Scan(accepted, decide, next))
  }

  lemma AppendsThen(accepted: seq<bool>, decide: nat -> Decision, i: nat, trades: seq<Entry>, skips: seq<Entry>,
                    j: nat, trades': seq<Entry>, skips': seq<Entry>, k: nat)
    requires Forward(decide) && Appends(accepted, decide, i, trades, skips, j) && Appends(accepted, decide, j, trades', skips', k)
    ensures Appends(accepted, decide, i, trades + trades', skips + skips', k)
  {
  }

  /** Behind the last candle nothing is reported. */
  lemma AppendsAll(accepted: seq<bool>, decide: nat -> Decision, trades: seq<Entry>, skips: seq<Entry>, n: nat)
    requires Forward(decide) && |accepted| <= n && Appends(accepted, decide, 1, trades, skips, n)
    ensures trades == Trades(Scan(accepted, decide, 1)) && skips == Skips(Scan(accepted, decide, 1))
  {
  }

  lemma SkipStep(accepted: seq<bool>, decide: nat -> Decision, i: nat)
    requires Forward(decide) && i < |accepted| && !accepted[i]
    ensures Appends(accepted, decide, i, [], [], i + 1)
  {
  }

  lemma RefuseStep(accepted: seq<bool>, decide: nat -> Decision, i: nat, reason: SkipReason)
    requires Forward(decide) && i < |accepted| && accepted[i]
    requires if i + 1 < |accepted| then decide(i) == Refuse(reason) else reason == NoNextCandle
    ensures Appends(accepted, decide, i, [], [Skipped(i, reason)], if i + 1 < |accepted| then i + 1 else |accepted|)
  {
    TradesOfOne(Skipped(i, reason));
    TradesCons(Skipped(i, reason), Scan(accepted, decide, i + 1));
  }

  lemma TakeStep(accepted: seq<bool>, decide: nat -> Decision, i: nat, plan: Plan)
    requires Forward(decide) && i + 1 < |accepted| && accepted[i] && decide(i) == Take(plan)
    ensures Appends(accepted, decide, i, [Trade(i, plan)], [],
                    if plan.exit.Some? then plan.exit.value.index + 1 else |accepted|)
  {
    TradesOfOne(Trade(i, plan));
    TradesCons(Trade(i, plan), Scan(accepted, decide, if plan.exit.Some? then plan.exit.value.index + 1 else |accepted|));
  }
}
