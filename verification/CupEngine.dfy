/** The detector's loops and branches, tied to the functions of module Cup and to the rules. */
module CupEngine {
  import opened Common
  import opened Resample
  import opened Swings
  import opened Cup
  import opened CupTheorems
  import opened CupRules

  /** What the loop body makes of one candidate, with its early exits. */
  method Examine(months: seq<Candle>, c: Config, rim: nat) returns (v: Verdict)
    requires rim < |months|
    ensures v == Judge(months, c, rim)
    ensures forall low: nat :: CupLow(months, rim, low) ==> VerdictRule(months, c, rim, low, v)
  {
    AllVerdicts(months, c, rim);
    hide VerdictRule, CupLow;
    var level := months[rim].high;
    if level <= 0.0 {
      return Invalid(None);
    }
    if rim + 1 >= |months| {
      return Invalid(None);
    }
    var low, last := LowestLow(months, rim + 1, |months|), |months| - 1;
    if exists k :: rim < k < low && months[k].high > level {
      return Invalid(None);
    }
    var range := level - months[low].low;
    var depth := Percent(range, level);
    var deep := false;
    if c.minDepth <= depth <= c.maxDepth {
    } else if c.maxDepth < depth <= c.deepMaxDepth {
      var reason, _, _ := ClassifyDeepCup(months, c, low, range);
      if reason.Some? {
        return Invalid(reason);
      }
      deep := true;
    } else {
      return Invalid(Some(DepthOutOfRange));
    }
    var recovery := if range > 0.0 then Percent(months[last].close - months[low].low, range) else 0.0;
    if low == last || recovery < c.minRecovery {
      return Invalid(Some(NoRecovery));
    }
    if c.requireUptrend && !Uptrend(months, c, rim) {
      return Invalid(Some(NoUptrend));
    }
    v := Valid(Structure(rim, low, level, deep, Distance(level, months[last].close)));
  }

  lemma AllVerdicts(months: seq<Candle>, c: Config, rim: nat)
    requires rim < |months|
    ensures forall low: nat :: CupLow(months, rim, low) ==> VerdictRule(months, c, rim, low, Judge(months, c, rim))
  {
    forall low: nat | CupLow(months, rim, low)
      ensures VerdictRule(months, c, rim, low, Judge(months, c, rim))
    {
      JudgeObeys(months, c, rim, low);
    }
  }

  /** The search loop with its best candidate so far. */
  method FindCupStructure(months: seq<Candle>, c: Config) returns (s: Search)
    ensures s == FindCup(months, c)
  {
    var highs := HighMask(Highs(months), LOOKBACK);
    var age := RequiredAge(c, |months|);
    ghost var vs := Verdicts(months, c);
    var best, reason := None, None;
    for i := 0 to |months|
      invariant Search(best, reason) == Pick(vs, i)
    {
      if !highs[i] || i + age > |months| - 1 {
        continue;
      }
      var verdict := Examine(months, c, i);
      if verdict.Invalid? {
        if verdict.reason.Some? {
          reason := verdict.reason;
        }
        continue;
      }
      if best.None? || verdict.cup.distance < best.value.distance {
        best := Some(verdict.cup);
      }
    }
    s := Search(best, reason);
  }

  /** The first completed month from `from` on that closed above the level. */
  method FirstBreakout(months: seq<Candle>, from: nat, level: real) returns (p: Option<nat>)
    ensures p == FirstAbove(months, from, level)
  {
    var i := from;
    while i < |months|
      invariant from <= i && FirstAbove(months, i, level) == FirstAbove(months, from, level)
    {
      if months[i].close > level {
        return Some(i);
      }
      i := i + 1;
    }
    p := None;
  }

  /** The status decision, branch by branch as the detector takes them. */
  method DecideStatus(months: seq<Candle>, c: Config, cup: Structure, live: Option<Live>) returns (status: Status)
    requires cup.low + 1 < |months| && cup.level > 0.0
    ensures status == CupStatus(months, c, cup, live)
  {
    hide FirstAbove, HighestClose, RolledOver;
    var last := |months| - 1;
    var close := months[last].close;
    var breakout := FirstBreakout(months, cup.low + 1, cup.level);
    var price := if live.Some? then live.value.close else close;
    if breakout.Some? {
      var age := last - breakout.value;
      if age == 0 {
        return BreakoutConfirmed;
      }
      if 0 < age <= c.recentMonths {
        return RecentBreakout;
      }
      if close > cup.level {
        return NoSignal(StaleBreakout);
      }
      if Percent(price - cup.level, cup.level) > c.nearBreakout {
        return NoSignal(StaleBreakout);
      }
    }
    if live.Some? {
      if live.value.high >= cup.level && close <= cup.level {
        if Percent(price - cup.level, cup.level) <= c.nearBreakout {
          return BreakoutForming;
        }
        return NoSignal(LiveTooFar);
      }
    }
    var right := HighestClose(months, cup.low + 1, |months|);
    if RolledOver(months, c, right) {
      return NoSignal(FailedRollover);
    }
    if Percent(cup.level - months[right].close, cup.level) > c.maxRimDifference {
      return NoSignal(RimMismatch);
    }
    var distance := Percent(cup.level - close, cup.level);
    if close < cup.level && distance <= c.nearBreakout {
      return NearBreakout;
    }
    if distance > c.maxDistance {
      return NoSignal(TooFar);
    }
    status := EarlyCup;
  }

  /** The whole detector. */
  method Detect(months: seq<Candle>, c: Config, live: Option<Live>) returns (status: Status)
    ensures status == DetectCup(months, c, live)
    ensures status.InsufficientHistory? <==> |months| < 6 || |months| <= c.minMonths
    ensures !status.InsufficientHistory? && FindCup(months, c).best.Some? ==>
              StatusRule(months, c, FindCup(months, c).best.value, live, status)
    ensures !status.InsufficientHistory? && FindCup(months, c).best.None? ==>
              status == NoSignal(NoStructure(FindCup(months, c).reason))
  {
    hide StatusRule, CupStatus, FindCup;
    if !EnoughHistory(months, c) {
      return InsufficientHistory;
    }
    var found := FindCupStructure(months, c);
    if found.best.None? {
      return NoSignal(NoStructure(found.reason));
    }
    StatusOfFound(months, c, live);
    status := DecideStatus(months, c, found.best.value, live);
    StatusObeys(months, c, found.best.value, live);
    NeverInsufficient(months, c, found.best.value, live);
  }

  lemma {:induction false} BottomExtends(months: seq<Candle>, low: nat, i: nat, band: real)
    requires low <= i <= |months| && forall k :: low <= k < i ==> months[k].close <= band
    ensures BottomMonths(months, low, band) == i - low + BottomMonths(months, i, band)
    decreases i - low
  {
    if low < i {
      BottomExtends(months, low + 1, i, band);
    }
  }

  /** Both counting loops and the three tests. */
  method ClassifyDeepCup(months: seq<Candle>, c: Config, low: nat, range: real)
    returns (reason: Option<Reason>, bottom: nat, recovery: nat)
    requires low < |months|
    ensures reason == DeepVerdict(months, c, low, range)
    ensures recovery == |months| - 1 - low
    ensures bottom == BottomMonths(months, low, Band(months[low].low, c))
  {
    var band := Band(months[low].low, c);
    bottom := 0;
    while low + bottom < |months| && months[low + bottom].close <= band
      invariant low + bottom <= |months|
      invariant forall k :: low <= k < low + bottom ==> months[k].close <= band
    {
      bottom := bottom + 1;
    }
    BottomExtends(months, low, low + bottom, band);
    recovery := |months| - 1 - low;
    var share := LargestMove(months, low, range);
    if bottom < c.deepMinBottom {
      return Some(BottomTooShort), bottom, recovery;
    }
    if recovery < c.deepMinRecovery {
      return Some(RecoveryTooShort), bottom, recovery;
    }
    if share > c.deepMaxShare {
      return Some(TooSharp), bottom, recovery;
    }
    reason := None;
  }

  method LargestMove(months: seq<Candle>, low: nat, range: real) returns (share: real)
    requires low < |months|
    ensures share == if range > 0.0 then LargestShare(months, low, |months|, range) else 0.0
  {
    share := 0.0;
    if range > 0.0 {
      var i := low + 1;
      while i < |months|
        invariant low < i <= |months| && share == LargestShare(months, low, i, range)
      {
        share := Max(share, Percent(Move(months, i), range));
        i := i + 1;
      }
    }
  }
}
