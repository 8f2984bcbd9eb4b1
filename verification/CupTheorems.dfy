/** What each cup status promises. */
module CupTheorems {
  import opened Common
  import opened Resample
  import opened Cup

  const MIN_HISTORY := 6

  predicate EnoughHistory(months: seq<Candle>, c: Config) {
    |months| >= MIN_HISTORY && |months| >= c.minMonths + 1
  }

  /** Structure and status of a series of completed months, with the month still forming if there is one. */
  function DetectCup(months: seq<Candle>, c: Config, live: Option<Live>): Status {
    if !EnoughHistory(months, c) then InsufficientHistory
    else
      var found := FindCup(months, c);
      if found.best.None? then NoSignal(NoStructure(found.reason))
      else
        FoundCupIsGenuine(months, c);
        CupStatus(months, c, found.best.value, live)
  }

  /** A status other than the two refusals is the status of the cup that was found. */
  lemma StatusOfFound(months: seq<Candle>, c: Config, live: Option<Live>)
    requires EnoughHistory(months, c) && FindCup(months, c).best.Some?
    ensures var cup := FindCup(months, c).best.value;
            && GenuineCup(months, c, cup) && cup.low + 1 < |months| && cup.level > 0.0
            && DetectCup(months, c, live) == CupStatus(months, c, cup, live)
  {
    FoundCupIsGenuine(months, c);
  }

  // ---- Distances -------------------------------------------------------------------------

  lemma PercentAtMost(part: real, whole: real, p: real)
    requires whole > 0.0
    ensures Percent(part, whole) <= p <==> part <= whole * (p / 100.0)
  {
    var q := part / whole;
    assert q * whole == part;
    Scaled(q, p / 100.0, whole);
  }

  lemma Scaled(a: real, b: real, f: real)
    requires f > 0.0
    ensures a <= b <==> a * f <= b * f
  {
    if a <= b {
      assert (b - a) * f >= 0.0;
    } else {
      assert (a - b) * f > 0.0;
    }
  }

  // ---- The watched cups ------------------------------------------------------------------

  /** No cup that is still watched has a latest completed close above its level: where a month closed above, an earlier
      branch has returned. */
  lemma WatchedCupsAreNotAbove(months: seq<Candle>, c: Config, cup: Structure, live: Option<Live>)
    requires cup.low + 1 < |months| && cup.level > 0.0
    requires CupStatus(months, c, cup, live) in {EarlyCup, NearBreakout, BreakoutForming}
    ensures months[|months| - 1].close <= cup.level
  {
    var breakout := FirstAbove(months, cup.low + 1, cup.level);
    if breakout.None? {
      assert months[|months| - 1].close <= cup.level;
    }
  }

  lemma EarlyOrNearIs(months: seq<Candle>, c: Config, cup: Structure, live: Option<Live>)
    requires cup.low + 1 < |months| && cup.level > 0.0
    ensures var close := months[|months| - 1].close;
            var distance := Percent(cup.level - close, cup.level);
            && (CupStatus(months, c, cup, live) == EarlyCup ==>
                  distance <= c.maxDistance && (close >= cup.level || distance > c.nearBreakout))
            && (CupStatus(months, c, cup, live) == NearBreakout ==> distance <= c.nearBreakout && close < cup.level)
  {
  }

  /** The facts about a watched cup before they are turned into prices. */
  lemma WatchedCup(months: seq<Candle>, c: Config, live: Option<Live>)
    requires DetectCup(months, c, live) in {EarlyCup, NearBreakout}
    ensures FindCup(months, c).best.Some? && months != []
    ensures FindCup(months, c).best.value.level > 0.0
    ensures var level, close := FindCup(months, c).best.value.level, months[|months| - 1].close;
            && close <= level
            && (DetectCup(months, c, live) == EarlyCup ==>
                  Percent(level - close, level) <= c.maxDistance && (close >= level || Percent(level - close, level) > c.nearBreakout))
            && (DetectCup(months, c, live) == NearBreakout ==> Percent(level - close, level) <= c.nearBreakout && close < level)
  {
    StatusOfFound(months, c, live);
    WatchedCupsAreNotAbove(months, c, FindCup(months, c).best.value, live);
    EarlyOrNearIs(months, c, FindCup(months, c).best.value, live);
  }

  /** Below the level by at most `far` percent of it, and unless exactly at it by more than `near`. */
  predicate InEarlyBand(level: real, close: real, far: real, near: real) {
    && level - level * (far / 100.0) <= close <= level
    && (close == level || close < level - level * (near / 100.0))
  }

  predicate InNearBand(level: real, close: real, near: real) {
    level - level * (near / 100.0) <= close < level
  }

  lemma EarlyBand(level: real, close: real, far: real, near: real)
    requires level > 0.0 && close <= level && Percent(level - close, level) <= far
    requires close >= level || Percent(level - close, level) > near
    ensures InEarlyBand(level, close, far, near)
  {
    PercentAtMost(level - close, level, far);
    PercentAtMost(level - close, level, near);
  }

  lemma NearBand(level: real, close: real, near: real)
    requires level > 0.0 && close < level && Percent(level - close, level) <= near
    ensures InNearBand(level, close, near)
  {
    PercentAtMost(level - close, level, near);
  }

  /** An early cup lies within the allowed distance below its level, never above; and unless it closed exactly at the
      level it is farther away than a near breakout. */
  lemma EarlyCupBand(months: seq<Candle>, c: Config, live: Option<Live>)
    requires DetectCup(months, c, live) == EarlyCup
    ensures FindCup(months, c).best.Some? && months != []
    ensures InEarlyBand(FindCup(months, c).best.value.level, months[|months| - 1].close, c.maxDistance, c.nearBreakout)
  {
    WatchedCup(months, c, live);
    EarlyBand(FindCup(months, c).best.value.level, months[|months| - 1].close, c.maxDistance, c.nearBreakout);
  }

  /** With the default distance: between three quarters of the level and the level. */
  lemma EarlyCupWithinAQuarter(months: seq<Candle>, c: Config, live: Option<Live>)
    requires DetectCup(months, c, live) == EarlyCup && c.maxDistance == 25.0
    ensures FindCup(months, c).best.Some? && months != []
    ensures var level, close := FindCup(months, c).best.value.level, months[|months| - 1].close;
            0.75 * level <= close <= level
  {
    EarlyCupBand(months, c, live);
  }

  lemma NearBreakoutBand(months: seq<Candle>, c: Config, live: Option<Live>)
    requires DetectCup(months, c, live) == NearBreakout
    ensures FindCup(months, c).best.Some? && months != []
    ensures InNearBand(FindCup(months, c).best.value.level, months[|months| - 1].close, c.nearBreakout)
  {
    WatchedCup(months, c, live);
    NearBand(FindCup(months, c).best.value.level, months[|months| - 1].close, c.nearBreakout);
  }

  /** Among watched cups within the near distance, the early ones are exactly those that closed at the level itself. */
  lemma EarlyWithinReachIffAtLevel(months: seq<Candle>, c: Config, cup: Structure, live: Option<Live>)
    requires cup.low + 1 < |months| && cup.level > 0.0 && c.nearBreakout <= c.maxDistance
    requires CupStatus(months, c, cup, live) in {EarlyCup, NearBreakout}
    requires Percent(cup.level - months[|months| - 1].close, cup.level) <= c.nearBreakout
    ensures CupStatus(months, c, cup, live) == EarlyCup <==> months[|months| - 1].close == cup.level
  {
  }

  // ---- Right rims ------------------------------------------------------------------------

  /** A cup whose latest close is the highest of its recovery is never taken for one that rolled over. */
  lemma RisingCupsNeverRollOver(months: seq<Candle>, c: Config, cup: Structure, live: Option<Live>)
    requires cup.low + 1 < |months| && cup.level > 0.0
    requires forall k :: cup.low < k < |months| - 1 ==> months[k].close < months[|months| - 1].close
    ensures CupStatus(months, c, cup, live) != NoSignal(FailedRollover)
  {
    var right := HighestClose(months, cup.low + 1, |months|);
    assert right == |months| - 1;
  }

  lemma PercentMonotone(a: real, b: real, whole: real)
    requires whole > 0.0 && a <= b
    ensures Percent(a, whole) <= Percent(b, whole)
  {
    var x, y := a / whole, b / whole;
    assert x * whole == a && y * whole == b;
    Scaled(x, y, whole);
  }

  /** The right rim is at least as close to the level as the latest close, so a cup within the near distance is never
      rejected for a rim mismatch when that limit is no tighter. */
  lemma NearCupsHaveNearRims(months: seq<Candle>, c: Config, cup: Structure, live: Option<Live>)
    requires cup.low + 1 < |months| && cup.level > 0.0 && c.nearBreakout <= c.maxRimDifference
    requires Percent(cup.level - months[|months| - 1].close, cup.level) <= c.nearBreakout
    ensures CupStatus(months, c, cup, live) != NoSignal(RimMismatch)
  {
    var right := HighestClose(months, cup.low + 1, |months|);
    PercentMonotone(cup.level - months[right].close, cup.level - months[|months| - 1].close, cup.level);
  }

  // ---- Breakouts -------------------------------------------------------------------------

  /** No month behind the cup low and before `i` closed above the level. */
  ghost predicate NoneAboveBefore(months: seq<Candle>, cup: Structure, i: nat) {
    forall k :: cup.low < k < i && k < |months| ==> months[k].close <= cup.level
  }

  /** Confirmed: exactly if the latest completed month is the first to close above the level. */
  lemma ConfirmedIff(months: seq<Candle>, c: Config, cup: Structure, live: Option<Live>)
    requires cup.low + 1 < |months| && cup.level > 0.0
    ensures CupStatus(months, c, cup, live) == BreakoutConfirmed <==>
            months[|months| - 1].close > cup.level && NoneAboveBefore(months, cup, |months| - 1)
  {
    var breakout := FirstAbove(months, cup.low + 1, cup.level);
    if months[|months| - 1].close > cup.level && NoneAboveBefore(months, cup, |months| - 1) {
      assert breakout.value == |months| - 1;
    }
  }

  /** Recent: exactly if the first month to close above the level is one to `recentMonths` months old. */
  lemma RecentIff(months: seq<Candle>, c: Config, cup: Structure, live: Option<Live>)
    requires cup.low + 1 < |months| && cup.level > 0.0
    ensures CupStatus(months, c, cup, live) == RecentBreakout <==>
            exists i :: cup.low < i < |months| - 1 && |months| - 1 - i <= c.recentMonths &&
                        months[i].close > cup.level && NoneAboveBefore(months, cup, i)
  {
    var breakout := FirstAbove(months, cup.low + 1, cup.level);
    if i :| cup.low < i < |months| - 1 && |months| - 1 - i <= c.recentMonths && months[i].close > cup.level && NoneAboveBefore(months, cup, i) {
      assert breakout.Some?;
      assert breakout.value == i;
    }
  }

  /** Both depend on completed months only: whatever the running month does, the status is the same. */
  lemma BreakoutsIgnoreTheRunningMonth(months: seq<Candle>, c: Config, live: Option<Live>, other: Option<Live>)
    requires DetectCup(months, c, live) in {BreakoutConfirmed, RecentBreakout}
    ensures DetectCup(months, c, other) == DetectCup(months, c, live)
  {
    StatusOfFound(months, c, live);
    StatusOfFound(months, c, other);
    var cup := FindCup(months, c).best.value;
    ConfirmedIff(months, c, cup, live);
    ConfirmedIff(months, c, cup, other);
    RecentIff(months, c, cup, live);
    RecentIff(months, c, cup, other);
  }

  /** A day joining an unfinished bar leaves the finished ones alone. */
  lemma AddToUnfinished(bars: seq<Candle>, day: Candle, periodEnd: int, before: int)
    requires bars != [] && bars[|bars| - 1].date == periodEnd && periodEnd > day.date && periodEnd > before
    ensures Finished(AddDay(bars, day, periodEnd), day.date) == Finished(bars, before)
  {
    assert AddDay(bars, day, periodEnd)[..|bars| - 1] == bars[..|bars| - 1];
  }

  lemma UnfinishedStep(days: seq<Candle>, end: Calendar, n: nat, periodEnd: int)
    requires 1 < n <= |days| && end(days[n - 1].date) == end(days[n - 2].date) == periodEnd
    requires periodEnd > days[n - 1].date && periodEnd > days[n - 2].date
    ensures Completed(days, end, n) == Completed(days, end, n - 1)
  {
    AddToUnfinished(Group(days, end, n - 1), days[n - 1], periodEnd, days[n - 2].date);
  }

  lemma SamePeriod(end: Calendar, d: int, e: int)
    requires IsCalendar(end) && d <= e < end(d)
    ensures end(e) == end(d)
  {
  }

  lemma {:induction false} UnfinishedDays(days: seq<Candle>, end: Calendar, k: nat, n: nat, periodEnd: int)
    requires 0 < k <= n <= |days|
    requires forall j :: k - 1 <= j < n ==> end(days[j].date) == periodEnd && days[j].date < periodEnd
    ensures Completed(days, end, n) == Completed(days, end, k)
  {
    if k < n {
      UnfinishedDays(days, end, k, n - 1, periodEnd);
      UnfinishedStep(days, end, n, periodEnd);
    }
  }

  /** Days of a month that has not ended add nothing to the completed months. */
  lemma RunningMonthAddsNothing(days: seq<Candle>, end: Calendar, k: nat, n: nat)
    requires IsCalendar(end) && Ascending(days) && 0 < k <= n <= |days|
    requires end(days[k - 1].date) > days[n - 1].date
    ensures Completed(days, end, n) == Completed(days, end, k)
  {
    forall j | k - 1 <= j < n
      ensures end(days[j].date) == end(days[k - 1].date) && days[j].date < end(days[k - 1].date)
    {
      assert days[k - 1].date <= days[j].date <= days[n - 1].date;
      SamePeriod(end, days[k - 1].date, days[j].date);
    }
    UnfinishedDays(days, end, k, n, end(days[k - 1].date));
  }

  /** So further days of the running month never change a confirmed or recent breakout. */
  lemma BreakoutsSurviveTheRunningMonth(days: seq<Candle>, end: Calendar, c: Config, k: nat, n: nat, live: Option<Live>, other: Option<Live>)
    requires IsCalendar(end) && Ascending(days) && 0 < k <= n <= |days| && end(days[k - 1].date) > days[n - 1].date
    requires DetectCup(Completed(days, end, k), c, live) in {BreakoutConfirmed, RecentBreakout}
    ensures DetectCup(Completed(days, end, n), c, other) == DetectCup(Completed(days, end, k), c, live)
  {
    RunningMonthAddsNothing(days, end, k, n);
    BreakoutsIgnoreTheRunningMonth(Completed(days, end, k), c, live, other);
  }

  // ---- Deep cups -------------------------------------------------------------------------

  /** A deep cup is a rounded one: every month of its first `deepMinBottom` closes near the low, and no later move makes
      up more than the allowed share. */
  lemma DeepCupsAreRounded(months: seq<Candle>, c: Config, low: nat, range: real)
    requires low < |months| && range > 0.0 && DeepVerdict(months, c, low, range).None?
    ensures low + c.deepMinBottom <= |months| && c.deepMinRecovery <= |months| - 1 - low
    ensures forall k :: low <= k < low + c.deepMinBottom ==> months[k].close <= Band(months[low].low, c)
    ensures forall k :: low < k < |months| ==> Percent(Move(months, k), range) <= c.deepMaxShare
  {
    var band := Band(months[low].low, c);
    BottomCloses(months, low, band);
    forall k | low < k < |months|
      ensures Percent(Move(months, k), range) <= c.deepMaxShare
    {
      ShareBounds(months, low, |months|, range, k);
    }
  }

  lemma {:induction false} BottomCloses(months: seq<Candle>, i: nat, band: real)
    requires i <= |months|
    ensures i + BottomMonths(months, i, band) <= |months|
    ensures forall k :: i <= k < i + BottomMonths(months, i, band) ==> months[k].close <= band
    decreases |months| - i
  {
    if i < |months| && months[i].close <= band {
      BottomCloses(months, i + 1, band);
    }
  }

  lemma {:induction false} ShareBounds(months: seq<Candle>, low: nat, to: nat, range: real, k: nat)
    requires low < k < to <= |months| && range > 0.0
    ensures Percent(Move(months, k), range) <= LargestShare(months, low, to, range)
  {
    if k < to - 1 {
      ShareBounds(months, low, to - 1, range, k);
    }
  }
}
