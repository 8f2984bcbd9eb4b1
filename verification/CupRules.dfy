/** The cup rules (cup.py:11-24, 48-82, 107-165, 313-360, 500-637), read off the months, and that verdicts and statuses
    are exactly what they say. */
module CupRules {
  import opened Common
  import opened Resample
  import opened Cup
  import opened CupTheorems

  // ---- Status ----------------------------------------------------------------------------

  /** Month `i` is the first behind the cup low to close above the level. */
  predicate FirstAboveAt(months: seq<Candle>, cup: Structure, i: nat) {
    && cup.low < i < |months| && months[i].close > cup.level
    && forall k :: cup.low < k < i ==> months[k].close <= cup.level
  }

  /** The level was broken, and no longer ago than counts as recent. */
  ghost predicate JustBroke(months: seq<Candle>, c: Config, cup: Structure) {
    exists i: nat :: FirstAboveAt(months, cup, i) && |months| - 1 - i <= c.recentMonths
  }

  ghost predicate BrokeLongAgo(months: seq<Candle>, c: Config, cup: Structure) {
    exists i: nat :: FirstAboveAt(months, cup, i) && |months| - 1 - i > c.recentMonths
  }

  /** More than so many percent of the level above it. */
  predicate FarAbove(price: real, level: real, percent: real) {
    price - level > level * (percent / 100.0)
  }

  predicate FarBelow(price: real, level: real, percent: real) {
    level - price > level * (percent / 100.0)
  }

  /** Broke out long ago and did not come back to the level, neither in completed months nor now. */
  ghost predicate Stale(months: seq<Candle>, c: Config, cup: Structure, live: Option<Live>)
    requires months != []
  {
    var close := months[|months| - 1].close;
    && BrokeLongAgo(months, c, cup)
    && (close > cup.level || FarAbove(if live.Some? then live.value.close else close, cup.level, c.nearBreakout))
  }

  /** The running month reaches the level, and the last completed one did not close above it. */
  predicate Reaches(months: seq<Candle>, cup: Structure, live: Option<Live>)
    requires months != []
  {
    live.Some? && live.value.high >= cup.level && months[|months| - 1].close <= cup.level
  }

  /** Month `r` is the first with the highest close behind the cup low: the right rim. */
  predicate RightRim(months: seq<Candle>, cup: Structure, r: nat) {
    && cup.low < r < |months|
    && (forall k :: cup.low < k < |months| ==> months[k].close <= months[r].close)
    && (forall k :: cup.low < k < r ==> months[k].close < months[r].close)
  }

  /** The price has rolled over from that rim: it lies back, much of it is lost, and closes fall since. */
  predicate RolledFrom(months: seq<Candle>, c: Config, r: nat)
    requires r < |months|
  {
    var last := |months| - 1;
    var since := last - r + 1;
    && since > c.rolloverMinMonths && since >= 3
    && months[r].close > 0.0
    && months[r].close - months[last].close >= months[r].close * (c.rolloverMinPullback / 100.0)
    && months[last].close < months[r + since / 2].close < months[r].close
  }

  ghost predicate Rolled(months: seq<Candle>, c: Config, cup: Structure) {
    exists r: nat :: RightRim(months, cup, r) && RolledFrom(months, c, r)
  }

  /** The right rim stayed too far below the level. */
  ghost predicate Mismatched(months: seq<Candle>, c: Config, cup: Structure) {
    exists r: nat :: RightRim(months, cup, r) && FarBelow(months[r].close, cup.level, c.maxRimDifference)
  }

  /** Neither broken out nor reaching the level: watched by its shape and its distance. */
  ghost predicate Watched(months: seq<Candle>, c: Config, cup: Structure, live: Option<Live>)
    requires months != []
  {
    !JustBroke(months, c, cup) && !Stale(months, c, cup, live) && !Reaches(months, cup, live)
  }

  /** When a cup has which status. */
  ghost predicate StatusRule(months: seq<Candle>, c: Config, cup: Structure, live: Option<Live>, status: Status)
    requires months != []
  {
    var close, last := months[|months| - 1].close, |months| - 1;
    var watched := Watched(months, c, cup, live);
    var shaped := watched && !Rolled(months, c, cup) && !Mismatched(months, c, cup);
    match status
    case BreakoutConfirmed => FirstAboveAt(months, cup, last)
    case RecentBreakout => exists i: nat :: FirstAboveAt(months, cup, i) && 0 < last - i <= c.recentMonths
    case NoSignal(StaleBreakout) => Stale(months, c, cup, live)
    case BreakoutForming =>
      Reaches(months, cup, live) && !JustBroke(months, c, cup) && !FarAbove(live.value.close, cup.level, c.nearBreakout)
    case NoSignal(LiveTooFar) =>
      && Reaches(months, cup, live) && !JustBroke(months, c, cup) && !BrokeLongAgo(months, c, cup)
      && FarAbove(live.value.close, cup.level, c.nearBreakout)
    case NoSignal(FailedRollover) => watched && Rolled(months, c, cup)
    case NoSignal(RimMismatch) => watched && !Rolled(months, c, cup) && Mismatched(months, c, cup)
    case NearBreakout => shaped && close < cup.level && !FarBelow(close, cup.level, c.nearBreakout)
    case NoSignal(TooFar) =>
      shaped && !(close < cup.level && !FarBelow(close, cup.level, c.nearBreakout)) && FarBelow(close, cup.level, c.maxDistance)
    case EarlyCup =>
      shaped && !(close < cup.level && !FarBelow(close, cup.level, c.nearBreakout)) && !FarBelow(close, cup.level, c.maxDistance)
    case _ => false
  }

  lemma FirstAboveIs(months: seq<Candle>, cup: Structure)
    ensures var first := FirstAbove(months, cup.low + 1, cup.level);
            forall i: nat :: FirstAboveAt(months, cup, i) <==> first == Some(i)
  {
  }

  lemma BreaksAre(months: seq<Candle>, c: Config, cup: Structure, first: Option<nat>)
    requires first == FirstAbove(months, cup.low + 1, cup.level)
    ensures JustBroke(months, c, cup) <==> first.Some? && |months| - 1 - first.value <= c.recentMonths
    ensures BrokeLongAgo(months, c, cup) <==> first.Some? && |months| - 1 - first.value > c.recentMonths
  {
    hide FirstAbove, FirstAboveAt;
    FirstAboveIs(months, cup);
    if first.Some? {
      assert FirstAboveAt(months, cup, first.value);
    }
  }

  lemma FarIs(price: real, level: real, percent: real)
    requires level > 0.0
    ensures FarAbove(price, level, percent) <==> Percent(price - level, level) > percent
    ensures FarBelow(price, level, percent) <==> Percent(level - price, level) > percent
  {
    PercentAtMost(price - level, level, percent);
    PercentAtMost(level - price, level, percent);
  }

  lemma BreakoutVerdictIs(months: seq<Candle>, c: Config, cup: Structure, live: Option<Live>)
    requires cup.low + 1 < |months| && cup.level > 0.0
    ensures var v := BreakoutVerdict(months, c, cup, live);
            && (v == Some(BreakoutConfirmed) <==> FirstAboveAt(months, cup, |months| - 1))
            && (v == Some(RecentBreakout) <==> exists i: nat :: FirstAboveAt(months, cup, i) && 0 < |months| - 1 - i <= c.recentMonths)
            && (v == Some(NoSignal(StaleBreakout)) <==> Stale(months, c, cup, live))
            && (v.None? <==> !JustBroke(months, c, cup) && !Stale(months, c, cup, live))
            && (v.Some? ==> v.value in {BreakoutConfirmed, RecentBreakout, NoSignal(StaleBreakout)})
  {
    hide FirstAbove, FirstAboveAt, FarAbove, Percent, JustBroke, BrokeLongAgo;
    var first := FirstAbove(months, cup.low + 1, cup.level);
    FirstAboveIs(months, cup);
    BreaksAre(months, c, cup, first);
    FarIs(LivePrice(months, live), cup.level, c.nearBreakout);
    if first.Some? {
      assert FirstAboveAt(months, cup, first.value);
    }
  }

  lemma FormingVerdictIs(months: seq<Candle>, c: Config, cup: Structure, live: Option<Live>)
    requires months != [] && cup.level > 0.0
    ensures var v := FormingVerdict(months, c, cup, live);
            && (v == Some(BreakoutForming) <==> Reaches(months, cup, live) && !FarAbove(live.value.close, cup.level, c.nearBreakout))
            && (v == Some(NoSignal(LiveTooFar)) <==> Reaches(months, cup, live) && FarAbove(live.value.close, cup.level, c.nearBreakout))
            && (v.None? <==> !Reaches(months, cup, live))
            && (v.Some? ==> v.value in {BreakoutForming, NoSignal(LiveTooFar)})
  {
    hide Percent, FarAbove;
    if live.Some? {
      FarIs(live.value.close, cup.level, c.nearBreakout);
    }
  }

  lemma RolledIs(months: seq<Candle>, c: Config, r: nat)
    requires r < |months|
    ensures RolledOver(months, c, r) <==> RolledFrom(months, c, r)
  {
    if months[r].close > 0.0 {
      var lost := months[r].close - months[|months| - 1].close;
      AtLeast(lost, months[r].close, c.rolloverMinPullback);
    }
  }

  lemma AtLeast(part: real, whole: real, p: real)
    requires whole > 0.0
    ensures Percent(part, whole) >= p <==> part >= whole * (p / 100.0)
  {
    var q := part / whole;
    assert q * whole == part;
    Scaled(p / 100.0, q, whole);
  }

  lemma RightRimIs(months: seq<Candle>, cup: Structure)
    requires cup.low + 1 < |months|
    ensures forall r: nat :: RightRim(months, cup, r) <==> r == HighestClose(months, cup.low + 1, |months|)
  {
  }

  lemma ShapeIs(months: seq<Candle>, c: Config, cup: Structure, right: nat)
    requires cup.low + 1 < |months| && cup.level > 0.0 && right == HighestClose(months, cup.low + 1, |months|)
    ensures Rolled(months, c, cup) <==> RolledOver(months, c, right)
    ensures Mismatched(months, c, cup) <==> Percent(cup.level - months[right].close, cup.level) > c.maxRimDifference
  {
    hide HighestClose, RolledOver, RolledFrom, Percent, FarBelow, RightRim;
    RightRimIs(months, cup);
    RolledIs(months, c, right);
    FarIs(months[right].close, cup.level, c.maxRimDifference);
    assert RightRim(months, cup, right);
  }

  lemma DistanceVerdictIs(months: seq<Candle>, c: Config, cup: Structure)
    requires cup.low + 1 < |months| && cup.level > 0.0
    ensures var close := months[|months| - 1].close;
            var near, far := close < cup.level && !FarBelow(close, cup.level, c.nearBreakout), FarBelow(close, cup.level, c.maxDistance);
            DistanceVerdict(months, c, cup) ==
              if Rolled(months, c, cup) then NoSignal(FailedRollover)
              else if Mismatched(months, c, cup) then NoSignal(RimMismatch)
              else if near then NearBreakout
              else if far then NoSignal(TooFar)
              else EarlyCup
  {
    hide HighestClose, RolledOver, Percent, FarBelow, Rolled, Mismatched;
    var close := months[|months| - 1].close;
    ShapeIs(months, c, cup, HighestClose(months, cup.low + 1, |months|));
    FarIs(close, cup.level, c.nearBreakout);
    FarIs(close, cup.level, c.maxDistance);
  }

  /** A price far above a level that was broken long ago is stale, however the month began. */
  lemma ReachingPrice(months: seq<Candle>, c: Config, cup: Structure, live: Option<Live>)
    requires months != [] && Reaches(months, cup, live)
    ensures Stale(months, c, cup, live) <==> BrokeLongAgo(months, c, cup) && FarAbove(live.value.close, cup.level, c.nearBreakout)
  {
  }

  lemma CupStatusIs(months: seq<Candle>, c: Config, cup: Structure, live: Option<Live>, breakout: Option<Status>, forming: Option<Status>)
    requires cup.low + 1 < |months| && cup.level > 0.0
    requires breakout == BreakoutVerdict(months, c, cup, live) && forming == FormingVerdict(months, c, cup, live)
    ensures CupStatus(months, c, cup, live) ==
            if breakout.Some? then breakout.value else if forming.Some? then forming.value else DistanceVerdict(months, c, cup)
  {
  }

  lemma StatusObeys(months: seq<Candle>, c: Config, cup: Structure, live: Option<Live>)
    requires cup.low + 1 < |months| && cup.level > 0.0
    ensures StatusRule(months, c, cup, live, CupStatus(months, c, cup, live))
  {
    hide CupStatus, BreakoutVerdict, FormingVerdict, DistanceVerdict, FirstAboveAt, FarAbove, FarBelow, Stale, Reaches, Rolled,
      Mismatched, JustBroke, BrokeLongAgo;
    BreakoutVerdictIs(months, c, cup, live);
    FormingVerdictIs(months, c, cup, live);
    DistanceVerdictIs(months, c, cup);
    CupStatusIs(months, c, cup, live, BreakoutVerdict(months, c, cup, live), FormingVerdict(months, c, cup, live));
    if Reaches(months, cup, live) {
      ReachingPrice(months, c, cup, live);
    }
  }

  /** No two statuses fit the same cup. */
  lemma OneStatus(months: seq<Candle>, c: Config, cup: Structure, live: Option<Live>, s: Status, t: Status)
    requires cup.low + 1 < |months| && StatusRule(months, c, cup, live, s) && StatusRule(months, c, cup, live, t)
    ensures s == t
  {
    hide FarAbove, FarBelow, Rolled, Mismatched;
    var first := FirstAbove(months, cup.low + 1, cup.level);
    FirstAboveIs(months, cup);
    BreaksAre(months, c, cup, first);
    hide FirstAbove, FirstAboveAt, JustBroke, BrokeLongAgo;
  }

  /** A cup has a status if and only if the rule for that status fits it. */
  lemma StatusIff(months: seq<Candle>, c: Config, cup: Structure, live: Option<Live>, status: Status)
    requires cup.low + 1 < |months| && cup.level > 0.0
    ensures CupStatus(months, c, cup, live) == status <==> StatusRule(months, c, cup, live, status)
  {
    hide StatusRule, CupStatus;
    StatusObeys(months, c, cup, live);
    if StatusRule(months, c, cup, live, status) {
      OneStatus(months, c, cup, live, status, CupStatus(months, c, cup, live));
    }
  }

  lemma NeverInsufficient(months: seq<Candle>, c: Config, cup: Structure, live: Option<Live>)
    requires cup.low + 1 < |months| && cup.level > 0.0
    ensures !CupStatus(months, c, cup, live).InsufficientHistory?
  {
    StatusObeys(months, c, cup, live);
  }

  // ---- Deep cups -------------------------------------------------------------------------

  predicate BaseHolds(months: seq<Candle>, c: Config, low: nat)
    requires low < |months|
  {
    low + c.deepMinBottom <= |months| &&
    forall k :: low <= k < low + c.deepMinBottom ==> months[k].close <= months[low].low * (1.0 + c.deepBottomBand / 100.0)
  }

  /** No month made up more of the recovery than allowed. */
  predicate NoJump(months: seq<Candle>, c: Config, low: nat, range: real)
    requires low < |months|
  {
    0.0 <= c.deepMaxShare &&
    (range > 0.0 ==> forall k :: low < k < |months| ==> Percent(Move(months, k), range) <= c.deepMaxShare)
  }

  lemma {:induction false} BaseIs(months: seq<Candle>, i: nat, band: real, wanted: nat)
    requires i <= |months|
    ensures BottomMonths(months, i, band) >= wanted <==>
            i + wanted <= |months| && forall k :: i <= k < i + wanted ==> months[k].close <= band
    decreases wanted
  {
    if wanted > 0 && i < |months| && months[i].close <= band {
      BaseIs(months, i + 1, band, wanted - 1);
    }
  }

  lemma {:induction false} ShareIs(months: seq<Candle>, low: nat, to: nat, range: real, share: real)
    requires low < to <= |months| && range > 0.0
    ensures LargestShare(months, low, to, range) <= share <==>
            0.0 <= share && forall k :: low < k < to ==> Percent(Move(months, k), range) <= share
  {
    if to > low + 1 {
      ShareIs(months, low, to - 1, range, share);
    }
  }

  /** A deep cup is refused for the first of three reasons, and for no other. */
  lemma DeepIs(months: seq<Candle>, c: Config, low: nat, range: real)
    requires low < |months|
    ensures DeepVerdict(months, c, low, range) ==
            if !BaseHolds(months, c, low) then Some(BottomTooShort)
            else if |months| - 1 - low < c.deepMinRecovery then Some(RecoveryTooShort)
            else if !NoJump(months, c, low, range) then Some(TooSharp)
            else None
  {
    hide Percent, Move;
    BaseIs(months, low, Band(months[low].low, c), c.deepMinBottom);
    if range > 0.0 {
      ShareIs(months, low, |months|, range, c.deepMaxShare);
    }
  }

  // ---- The uptrend before the rim --------------------------------------------------------

  /** The rim is well above the lowest low before it. */
  ghost predicate GainedBefore(months: seq<Candle>, c: Config, start: nat, rim: nat)
    requires rim < |months|
  {
    exists b: nat :: LowestIn(months, start, rim, b) && months[b].low > 0.0 && Gained(months[b].low, months[rim].high, c.trendMinGain)
  }

  /** From one price to the other by at least so many percent. */
  predicate Gained(low: real, high: real, percent: real) {
    high - low >= low * (percent / 100.0)
  }

  predicate LowestIn(months: seq<Candle>, from: nat, to: nat, b: nat)
    requires to <= |months|
  {
    from <= b < to && forall k :: from <= k < to ==> months[b].low <= months[k].low
  }

  /** The mean close of the second half lies above that of the first. */
  predicate SecondHalfHigher(months: seq<Candle>, start: nat, rim: nat)
    requires start + 2 <= rim <= |months|
  {
    var mid := (rim - start) / 2;
    CloseSum(months, start + mid, rim) / (rim - start - mid) as real > CloseSum(months, start, start + mid) / mid as real
  }

  /** Enough months before the rim, a gain from their lowest low, and a second half that closes higher than the first. */
  ghost predicate RisesInto(months: seq<Candle>, c: Config, rim: nat)
    requires rim < |months|
  {
    var start := if rim > c.trendLookback then rim - c.trendLookback else 0;
    && rim - start >= c.trendMinHistory && rim > start
    && GainedBefore(months, c, start, rim)
    && (rim - start >= 4 ==> SecondHalfHigher(months, start, rim))
  }

  lemma GainIs(months: seq<Candle>, c: Config, start: nat, rim: nat, low: nat)
    requires start < rim < |months| && low == LowestLow(months, start, rim)
    ensures GainedBefore(months, c, start, rim) <==>
            months[low].low > 0.0 && Percent(months[rim].high - months[low].low, months[low].low) >= c.trendMinGain
  {
    if months[low].low > 0.0 {
      AtLeast(months[rim].high - months[low].low, months[low].low, c.trendMinGain);
    }
    assert months[low].low > 0.0 ==>
             (Gained(months[low].low, months[rim].high, c.trendMinGain)
              <==> Percent(months[rim].high - months[low].low, months[low].low) >= c.trendMinGain);
    hide Percent, Gained, LowestLow;
    assert LowestIn(months, start, rim, low);
    forall b: nat | LowestIn(months, start, rim, b)
      ensures months[b].low == months[low].low
    {
    }
  }

  lemma UptrendParts(months: seq<Candle>, c: Config, rim: nat, start: nat, low: nat)
    requires rim < |months| && start == (if rim > c.trendLookback then rim - c.trendLookback else 0)
    requires start < rim && low == LowestLow(months, start, rim)
    ensures Uptrend(months, c, rim) <==>
            && rim - start >= c.trendMinHistory && months[low].low > 0.0
            && Percent(months[rim].high - months[low].low, months[low].low) >= c.trendMinGain
            && (rim - start >= 4 ==> SecondHalfHigher(months, start, rim))
  {
    hide CloseSum, LowestLow, Percent;
  }

  lemma UptrendIs(months: seq<Candle>, c: Config, rim: nat)
    requires rim < |months|
    ensures Uptrend(months, c, rim) <==> RisesInto(months, c, rim)
  {
    var start := if rim > c.trendLookback then rim - c.trendLookback else 0;
    if rim > start {
      hide Uptrend, LowestLow, Percent, GainedBefore, SecondHalfHigher;
      UptrendParts(months, c, rim, start, LowestLow(months, start, rim));
      GainIs(months, c, start, rim, LowestLow(months, start, rim));
    }
  }

  // ---- One candidate ---------------------------------------------------------------------

  /** The cup low of a rim: the first of the lowest lows behind it. */
  predicate CupLow(months: seq<Candle>, rim: nat, low: nat) {
    && rim < low < |months|
    && (forall k :: rim < k < |months| ==> months[low].low <= months[k].low)
    && (forall k :: rim < k < low ==> months[low].low < months[k].low)
  }

  /** Depth in percent of the rim lies between the two limits, both included. */
  predicate DepthWithin(level: real, low: real, least: real, most: real) {
    level * (least / 100.0) <= level - low <= level * (most / 100.0)
  }

  /** A standard depth. */
  predicate Standard(months: seq<Candle>, c: Config, rim: nat, low: nat)
    requires rim < |months| && low < |months|
  {
    DepthWithin(months[rim].high, months[low].low, c.minDepth, c.maxDepth)
  }

  /** Deeper than standard, and no deeper than the deep limit. */
  predicate Deep(months: seq<Candle>, c: Config, rim: nat, low: nat)
    requires rim < |months| && low < |months|
  {
    var fall, level := months[rim].high - months[low].low, months[rim].high;
    fall > level * (c.maxDepth / 100.0) && fall <= level * (c.deepMaxDepth / 100.0)
  }

  /** The latest close has made good enough of the fall. */
  predicate Recovered(months: seq<Candle>, c: Config, rim: nat, low: nat)
    requires rim < |months| && low < |months|
  {
    var fall, gain := months[rim].high - months[low].low, months[|months| - 1].close - months[low].low;
    if fall > 0.0 then gain >= fall * (c.minRecovery / 100.0) else 0.0 >= c.minRecovery
  }

  /** What a candidate rim with this cup low amounts to. */
  ghost predicate VerdictRule(months: seq<Candle>, c: Config, rim: nat, low: nat, v: Verdict)
    requires rim < |months| && CupLow(months, rim, low)
  {
    var level, fall := months[rim].high, months[rim].high - months[low].low;
    var dominated := exists k :: rim < k < low && months[k].high > level;
    var deep := !Standard(months, c, rim, low) && Deep(months, c, rim, low);
    var fits := Standard(months, c, rim, low) || (deep && DeepVerdict(months, c, low, fall).None?);
    var recovers := low < |months| - 1 && Recovered(months, c, rim, low);
    if level <= 0.0 || dominated then v == Invalid(None)
    else if !Standard(months, c, rim, low) && !deep then v == Invalid(Some(DepthOutOfRange))
    else if !fits then v == Invalid(DeepVerdict(months, c, low, fall))
    else if !recovers then v == Invalid(Some(NoRecovery))
    else if c.requireUptrend && !RisesInto(months, c, rim) then v == Invalid(Some(NoUptrend))
    else
      && v.Valid? && v.cup.rim == rim && v.cup.low == low && v.cup.level == level && (v.cup.deep <==> deep)
      && v.cup.distance * level == 100.0 * (if months[|months| - 1].close <= level then level - months[|months| - 1].close
                                            else months[|months| - 1].close - level)
  }

  lemma DepthIs(level: real, low: real, least: real, most: real)
    requires level > 0.0
    ensures least <= Percent(level - low, level) <= most <==> DepthWithin(level, low, least, most)
  {
    AtLeast(level - low, level, least);
    PercentAtMost(level - low, level, most);
  }

  lemma DepthVerdictIs(months: seq<Candle>, c: Config, rim: nat, low: nat)
    requires rim < low < |months| && months[rim].high > 0.0
    ensures DepthVerdict(months, c, rim, low) ==
            if Standard(months, c, rim, low) then None
            else if Deep(months, c, rim, low) then DeepVerdict(months, c, low, months[rim].high - months[low].low)
            else Some(DepthOutOfRange)
    ensures IsDeep(months, c, rim, low) <==> !Standard(months, c, rim, low)
  {
    hide DeepVerdict, Percent;
    var level, bottom := months[rim].high, months[low].low;
    DepthIs(level, bottom, c.minDepth, c.maxDepth);
    PercentAtMost(level - bottom, level, c.maxDepth);
    PercentAtMost(level - bottom, level, c.deepMaxDepth);
  }

  lemma RecoveryIs(months: seq<Candle>, c: Config, rim: nat, low: nat)
    requires rim < |months| && low < |months|
    ensures Recovery(months, rim, low) >= c.minRecovery <==> Recovered(months, c, rim, low)
  {
    var range := months[rim].high - months[low].low;
    if range > 0.0 {
      AtLeast(months[|months| - 1].close - months[low].low, range, c.minRecovery);
    }
  }

  lemma DistanceIs(level: real, close: real)
    requires level > 0.0
    ensures Distance(level, close) * level == 100.0 * (if close <= level then level - close else close - level)
  {
    var q := (level - close) / level;
    assert q * level == level - close;
    assert q * 100.0 * level == 100.0 * (q * level);
  }

  lemma CupLowIs(months: seq<Candle>, rim: nat, low: nat)
    requires CupLow(months, rim, low)
    ensures LowestLow(months, rim + 1, |months|) == low
  {
  }

  /** The search's verdict on a swing high is the one the rules give it. */
  lemma JudgeObeys(months: seq<Candle>, c: Config, rim: nat, low: nat)
    requires CupLow(months, rim, low)
    ensures VerdictRule(months, c, rim, low, Judge(months, c, rim))
  {
    hide LowestLow, DepthVerdict, DeepVerdict, Standard, Deep, Recovery, Recovered, Uptrend, RisesInto, Distance, IsDeep, CupLow;
    CupLowIs(months, rim, low);
    CupLowBehind(months, rim, low);
    if months[rim].high > 0.0 {
      DepthVerdictIs(months, c, rim, low);
      RecoveryIs(months, c, rim, low);
      UptrendIs(months, c, rim);
      DistanceIs(months[rim].high, months[|months| - 1].close);
    }
  }

  lemma CupLowBehind(months: seq<Candle>, rim: nat, low: nat)
    requires CupLow(months, rim, low)
    ensures rim < low < |months|
  {
  }

  /** Every rim with a later month has such a low, and only one. */
  lemma CupLowExists(months: seq<Candle>, rim: nat) returns (low: nat)
    requires rim + 1 < |months|
    ensures CupLow(months, rim, low)
    ensures forall l: nat :: CupLow(months, rim, l) ==> l == low
  {
    low := LowestLow(months, rim + 1, |months|);
  }

  /** Months a rim must be old: the full number, or with short histories a share of what there is. */
  lemma RequiredAgeMeans(c: Config, n: nat)
    ensures !c.relaxShortHistory ==> RequiredAge(c, n) == c.minMonths
    ensures c.relaxShortHistory && c.shortRatio >= 0.0 ==>
              && RequiredAge(c, n) <= c.minMonths
              && (RequiredAge(c, n) < c.minMonths ==> RequiredAge(c, n) >= c.shortMinMonths && RequiredAge(c, n) as real + 1.0 > n as real * c.shortRatio)
              && (RequiredAge(c, n) > c.shortMinMonths ==> RequiredAge(c, n) as real <= n as real * c.shortRatio)
  {
    if c.shortRatio > 0.0 {
      Share(n as real, c.shortRatio);
    }
  }

  lemma Share(a: real, b: real)
    requires a >= 0.0 && b > 0.0
    ensures a * b >= 0.0
  {
  }
}
