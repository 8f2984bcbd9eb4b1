/** Daily candles grouped into calendar periods, unfinished last period dropped (resample.py), and the
    period indicator carried back onto each daily candle (gfs_backtest.py). */
module Resample {
  import opened Common
  import opened Rsi

  datatype Candle = Candle(date: int, open: real, high: real, low: real, close: real)

  /** A calendar: the label of a day is the last day of its period. */
  type Calendar = int -> int

  ghost predicate IsCalendar(end: Calendar) {
    && (forall d :: d <= end(d))
    && (forall d, e :: d <= e <= end(d) ==> end(e) == end(d))
  }

  ghost predicate Ascending(days: seq<Candle>) {
    forall i, j :: 0 <= i < j < |days| ==> days[i].date < days[j].date
  }

  /** One more day of the same period: first open, highest high, lowest low, last close. */
  function Merge(bar: Candle, day: Candle): Candle {
    bar.(high := Max(bar.high, day.high), low := Min(bar.low, day.low), close := day.close)
  }

  /** One more day whose period has this periodEnd: into the last bar, or into a new one. */
  function AddDay(bars: seq<Candle>, day: Candle, periodEnd: int): (added: seq<Candle>)
    ensures added != [] && added[|added| - 1].date == periodEnd
  {
    if bars != [] && bars[|bars| - 1].date == periodEnd then bars[..|bars| - 1] + [Merge(bars[|bars| - 1], day)]
    else bars + [day.(date := periodEnd)]
  }

  /** The period bars of the first `n` days; `date` of a bar is its label. */
  function Group(days: seq<Candle>, end: Calendar, n: nat): (bars: seq<Candle>)
    requires n <= |days|
    ensures |bars| > 0 <==> n > 0
    ensures n > 0 ==> bars[|bars| - 1].date == end(days[n - 1].date)
  {
    if n == 0 then [] else AddDay(Group(days, end, n - 1), days[n - 1], end(days[n - 1].date))
  }

  /** The bars whose period has ended by `date`, given that only the last one can still be open. */
  function Finished(bars: seq<Candle>, date: int): seq<Candle> {
    if bars != [] && bars[|bars| - 1].date > date then bars[..|bars| - 1] else bars
  }

  /** The bars of the first `n` days whose period has ended by the last of them. */
  function Completed(days: seq<Candle>, end: Calendar, n: nat): seq<Candle>
    requires n <= |days|
  {
    if n == 0 then [] else Finished(Group(days, end, n), days[n - 1].date)
  }

  function Closes(bars: seq<Candle>): (c: seq<real>)
    ensures |c| == |bars| && forall i :: 0 <= i < |bars| ==> c[i] == bars[i].close
  {
    seq(|bars|, i requires 0 <= i < |bars| => bars[i].close)
  }

  /** Number of leading bars labelled no later than `date`. */
  function Visible(bars: seq<Candle>, date: int): (v: nat)
    ensures v <= |bars|
  {
    if bars == [] then 0
    else if bars[|bars| - 1].date <= date then |bars|
    else Visible(bars[..|bars| - 1], date)
  }

  /** An indicator gives one value, or none, for every close. */
  type Indicator = seq<real> -> seq<Option<real>>

  /** The value at the last of the first `v` bars. */
  function At(values: seq<Option<real>>, v: nat): Option<real> {
    if 0 < v <= |values| then values[v - 1] else None
  }

  /** The period indicator seen on day `k`, as the source computes it: that of all completed bars of the data set,
      read at the last bar labelled no later than that day. */
  function Carried(days: seq<Candle>, end: Calendar, f: Indicator, k: nat): Option<real>
    requires k < |days|
  {
    var bars := Completed(days, end, |days|);
    At(f(Closes(bars)), Visible(bars, days[k].date))
  }

  function RsiIndicator(period: nat): Indicator
    requires period > 0
  {
    (closes: seq<real>) => RsiSeries(closes, period)
  }

  function CarriedRsi(days: seq<Candle>, end: Calendar, period: nat, k: nat): Option<real>
    requires period > 0 && k < |days|
  {
    Carried(days, end, RsiIndicator(period), k)
  }

  // ---- No look-ahead ---------------------------------------------------------------------

  /** A later day is in the same period, or after the end of the earlier one's. */
  lemma SamePeriodOrLater(end: Calendar, d: int, e: int)
    requires IsCalendar(end) && d < e
    ensures end(d) == end(e) || end(d) < e
  {
  }

  /** All but the last of `bars` are labelled before `date`. */
  ghost predicate EndedBefore(bars: seq<Candle>, date: int) {
    forall i :: 0 <= i < |bars| - 1 ==> bars[i].date < date
  }

  lemma EndedBeforeStep(before: seq<Candle>, prev: int, day: Candle, periodEnd: int)
    requires EndedBefore(before, prev) && prev < day.date && |before| > 0
    requires before[|before| - 1].date == periodEnd || before[|before| - 1].date < day.date
    ensures EndedBefore(AddDay(before, day, periodEnd), day.date)
  {
  }

  /** All periods but the last one have ended before the last day. */
  lemma {:induction false} LabelsBefore(days: seq<Candle>, end: Calendar, n: nat)
    requires IsCalendar(end) && Ascending(days) && 0 < n <= |days|
    ensures EndedBefore(Group(days, end, n), days[n - 1].date)
  {
    if n > 1 {
      LabelsBefore(days, end, n - 1);
      assert days[n - 2].date < days[n - 1].date;
      SamePeriodOrLater(end, days[n - 2].date, days[n - 1].date);
      EndedBeforeStep(Group(days, end, n - 1), days[n - 2].date, days[n - 1], end(days[n - 1].date));
    }
  }

  /** `bars` starts with the finished bars `done`, and every further bar is labelled after `date`. */
  ghost predicate Continues(done: seq<Candle>, bars: seq<Candle>, date: int) {
    && done <= bars
    && (forall i :: 0 <= i < |done| ==> bars[i].date <= date)
    && (forall i :: |done| <= i < |bars| ==> bars[i].date > date)
  }

  lemma EndedContinues(bars: seq<Candle>, date: int)
    requires EndedBefore(bars, date) && |bars| > 0
    ensures Continues(Finished(bars, date), bars, date)
  {
  }

  lemma FinishedContinues(done: seq<Candle>, bars: seq<Candle>, date: int, later: int)
    requires Continues(done, bars, date) && date <= later
    ensures Continues(done, Finished(bars, later), date)
  {
  }

  lemma GroupStep(done: seq<Candle>, before: seq<Candle>, day: Candle, periodEnd: int, date: int)
    requires Continues(done, before, date) && date < day.date <= periodEnd && |before| > 0
    ensures Continues(done, AddDay(before, day, periodEnd), date)
  {
    if before[|before| - 1].date == periodEnd {
      assert |done| < |before|;
    }
  }

  /** Bars that ended by day `k` are never touched again, and all others are labelled later. */
  lemma {:induction false} CompletedStays(days: seq<Candle>, end: Calendar, k: nat, n: nat)
    requires IsCalendar(end) && Ascending(days) && k < n <= |days|
    ensures Continues(Completed(days, end, k + 1), Group(days, end, n), days[k].date)
  {
    if n == k + 1 {
      LabelsBefore(days, end, n);
      EndedContinues(Group(days, end, n), days[k].date);
    } else {
      CompletedStays(days, end, k, n - 1);
      GroupStep(Completed(days, end, k + 1), Group(days, end, n - 1), days[n - 1], end(days[n - 1].date), days[k].date);
    }
  }

  lemma CompletedContinues(days: seq<Candle>, end: Calendar, k: nat, n: nat)
    requires IsCalendar(end) && Ascending(days) && k < n <= |days|
    ensures Continues(Completed(days, end, k + 1), Completed(days, end, n), days[k].date)
  {
    CompletedStays(days, end, k, n);
    assert days[k].date <= days[n - 1].date;
    FinishedContinues(Completed(days, end, k + 1), Group(days, end, n), days[k].date, days[n - 1].date);
  }

  lemma {:induction false} VisibleIs(done: seq<Candle>, bars: seq<Candle>, date: int)
    requires Continues(done, bars, date)
    ensures Visible(bars, date) == |done|
  {
    if |bars| > |done| {
      VisibleIs(done, bars[..|bars| - 1], date);
    }
  }

  lemma {:induction false} GroupOnPrefix(days: seq<Candle>, end: Calendar, m: nat, n: nat)
    requires n <= m <= |days|
    ensures Group(days[..m], end, n) == Group(days, end, n)
  {
    if n > 0 {
      GroupOnPrefix(days, end, m, n - 1);
    }
  }

  /** What day `k` sees, without mentioning any later day: the indicator of the bars completed by then. */
  function KnownOn(days: seq<Candle>, end: Calendar, f: Indicator, k: nat): Option<real>
    requires k < |days|
  {
    var done := Completed(days, end, k + 1);
    At(f(Closes(done)), |done|)
  }

  /** Later closes change no earlier value. */
  ghost predicate PrefixStable(f: Indicator) {
    forall closes: seq<real>, n: nat :: n <= |closes| ==> StableAt(f, closes, n)
  }

  ghost predicate StableAt(f: Indicator, closes: seq<real>, n: nat)
    requires n <= |closes|
  {
    |f(closes)| == |closes| && f(closes[..n]) == f(closes)[..n]
  }

  lemma AtPrefix(done: seq<Candle>, bars: seq<Candle>, f: Indicator)
    requires PrefixStable(f) && done <= bars
    ensures At(f(Closes(bars)), |done|) == At(f(Closes(done)), |done|)
  {
    assert StableAt(f, Closes(bars), |done|);
    assert Closes(done) == Closes(bars)[..|done|];
  }

  lemma CarriedFrom(days: seq<Candle>, end: Calendar, f: Indicator, k: nat, bars: seq<Candle>, done: seq<Candle>)
    requires PrefixStable(f) && k < |days| && bars == Completed(days, end, |days|) && done == Completed(days, end, k + 1)
    requires done <= bars && Visible(bars, days[k].date) == |done|
    ensures Carried(days, end, f, k) == KnownOn(days, end, f, k)
  {
    AtPrefix(done, bars, f);
  }

  /** The carried value depends only on the candles up to its own day. */
  lemma CarriedIsKnown(days: seq<Candle>, end: Calendar, f: Indicator, k: nat)
    requires IsCalendar(end) && Ascending(days) && PrefixStable(f) && k < |days|
    ensures Carried(days, end, f, k) == KnownOn(days, end, f, k)
  {
    CompletedContinues(days, end, k, |days|);
    VisibleIs(Completed(days, end, k + 1), Completed(days, end, |days|), days[k].date);
    CarriedFrom(days, end, f, k, Completed(days, end, |days|), Completed(days, end, k + 1));
  }

  lemma CompletedOnPrefix(days: seq<Candle>, end: Calendar, k: nat, m: nat)
    requires k < m <= |days|
    ensures Completed(days[..m], end, k + 1) == Completed(days, end, k + 1)
  {
    GroupOnPrefix(days, end, m, k + 1);
    CompletedIs(days, end, k + 1, Group(days, end, k + 1));
    CompletedIs(days[..m], end, k + 1, Group(days, end, k + 1));
  }

  lemma CompletedIs(days: seq<Candle>, end: Calendar, n: nat, bars: seq<Candle>)
    requires 0 < n <= |days| && bars == Group(days, end, n)
    ensures Completed(days, end, n) == Finished(bars, days[n - 1].date)
  {
  }

  /** Hence cutting the data off after any later day changes nothing on day `k`. */
  lemma CarriedNoLookAhead(days: seq<Candle>, end: Calendar, f: Indicator, k: nat, m: nat)
    requires IsCalendar(end) && Ascending(days) && PrefixStable(f) && k < m <= |days|
    ensures Carried(days[..m], end, f, k) == Carried(days, end, f, k)
  {
    CarriedIsKnown(days, end, f, k);
    CarriedIsKnown(days[..m], end, f, k);
    CompletedOnPrefix(days, end, k, m);
  }

  lemma RsiIsStable(period: nat)
    requires period > 0
    ensures PrefixStable(RsiIndicator(period))
  {
    forall closes: seq<real>, n: nat | n <= |closes|
      ensures StableAt(RsiIndicator(period), closes, n)
    {
      RsiPrefix(closes, period, n);
    }
  }

  lemma CarriedRsiNoLookAhead(days: seq<Candle>, end: Calendar, period: nat, k: nat, m: nat)
    requires IsCalendar(end) && Ascending(days) && period > 0 && k < m <= |days|
    ensures CarriedRsi(days[..m], end, period, k) == CarriedRsi(days, end, period, k)
  {
    RsiIsStable(period);
    CarriedNoLookAhead(days, end, RsiIndicator(period), k, m);
  }

  // ---- Truncated data --------------------------------------------------------------------

  /** The candles of a run that ends at `to`. */
  function UpTo(days: seq<Candle>, to: Option<int>): seq<Candle> {
    if to.None? then days else days[..Visible(days, to.value)]
  }

  lemma {:induction false} VisibleWithin(days: seq<Candle>, early: int, late: int)
    requires early <= late
    ensures Visible(days, early) <= Visible(days, late)
    ensures Visible(days[..Visible(days, late)], early) == Visible(days, early)
  {
    if days != [] && days[|days| - 1].date > late {
      var rest := days[..|days| - 1];
      VisibleWithin(rest, early, late);
      assert days[..Visible(days, late)] == rest[..Visible(rest, late)];
    } else if days != [] {
      assert days[..|days|] == days;
    }
  }

  /** In date order these are the candles dated no later than `to`. */
  lemma {:induction false} UpToMeans(days: seq<Candle>, to: int)
    requires Ascending(days)
    ensures UpTo(days, Some(to)) <= days
    ensures forall i :: 0 <= i < |days| ==> (i < |UpTo(days, Some(to))| <==> days[i].date <= to)
  {
    if days != [] && days[|days| - 1].date > to {
      var rest := days[..|days| - 1];
      UpToMeans(rest, to);
      assert UpTo(days, Some(to)) == UpTo(rest, Some(to));
      assert forall i :: 0 <= i < |rest| ==> rest[i] == days[i];
    } else if days != [] {
      assert days[..|days|] == days;
    }
  }

  // ---- What a bar is ---------------------------------------------------------------------

  /** A bar sums up the days from `lo` to `hi`: label, first open, last close, highest high, lowest low. */
  ghost predicate SumsUp(bar: Candle, days: seq<Candle>, end: Calendar, lo: nat, hi: nat) {
    && lo < hi <= |days|
    && (forall d :: lo <= d < hi ==> end(days[d].date) == bar.date && bar.low <= days[d].low && days[d].high <= bar.high)
    && bar.open == days[lo].open && bar.close == days[hi - 1].close
    && (exists d :: lo <= d < hi && days[d].high == bar.high)
    && (exists d :: lo <= d < hi && days[d].low == bar.low)
  }

  /** The bars cut the days into neighbouring stretches, one period each. */
  ghost predicate Cuts(bars: seq<Candle>, days: seq<Candle>, end: Calendar, n: nat, cuts: seq<nat>) {
    && |cuts| == |bars| + 1 && cuts[0] == 0 && cuts[|bars|] == n
    && (forall i :: 0 <= i < |bars| ==> SumsUp(bars[i], days, end, cuts[i], cuts[i + 1]))
    && (forall i, j :: 0 <= i && j == i + 1 && j < |bars| ==> bars[i].date != bars[j].date)
  }

  lemma MergedSumsUp(bar: Candle, days: seq<Candle>, end: Calendar, lo: nat, n: nat)
    requires n < |days| && SumsUp(bar, days, end, lo, n) && end(days[n].date) == bar.date
    ensures SumsUp(Merge(bar, days[n]), days, end, lo, n + 1)
  {
    var merged := Merge(bar, days[n]);
    var h :| lo <= h < n && days[h].high == bar.high;
    var l :| lo <= l < n && days[l].low == bar.low;
    assert days[h].high == merged.high || days[n].high == merged.high;
    assert days[l].low == merged.low || days[n].low == merged.low;
  }

  lemma OneDaySumsUp(days: seq<Candle>, end: Calendar, n: nat)
    requires n < |days|
    ensures SumsUp(days[n].(date := end(days[n].date)), days, end, n, n + 1)
  {
    assert days[n].high == days[n].high && days[n].low == days[n].low;
  }

  lemma CutsExtended(bars: seq<Candle>, days: seq<Candle>, end: Calendar, n: nat, cuts: seq<nat>)
    requires n < |days| && Cuts(bars, days, end, n, cuts) && bars != [] && bars[|bars| - 1].date == end(days[n].date)
    ensures Cuts(AddDay(bars, days[n], bars[|bars| - 1].date), days, end, n + 1, cuts[..|bars|] + [n + 1])
  {
    var last := |bars| - 1;
    MergedSumsUp(bars[last], days, end, cuts[last], n);
    var added := AddDay(bars, days[n], bars[last].date);
    assert added[last] == Merge(bars[last], days[n]) && added[last].date == bars[last].date;
    assert forall i :: 0 <= i < last ==> added[i] == bars[i];
    hide SumsUp, Merge, AddDay;
    var cuts' := cuts[..|bars|] + [n + 1];
    forall i | 0 <= i < |bars|
      ensures SumsUp(added[i], days, end, cuts'[i], cuts'[i + 1])
    {
      assert cuts'[i] == cuts[i];
      assert i < last ==> cuts'[i + 1] == cuts[i + 1];
    }
  }

  lemma CutsAppended(bars: seq<Candle>, days: seq<Candle>, end: Calendar, n: nat, cuts: seq<nat>)
    requires n < |days| && Cuts(bars, days, end, n, cuts) && (bars != [] ==> bars[|bars| - 1].date != end(days[n].date))
    ensures Cuts(AddDay(bars, days[n], end(days[n].date)), days, end, n + 1, cuts + [n + 1])
  {
    OneDaySumsUp(days, end, n);
    hide SumsUp;
    var added, cuts' := AddDay(bars, days[n], end(days[n].date)), cuts + [n + 1];
    forall i | 0 <= i < |bars|
      ensures SumsUp(added[i], days, end, cuts'[i], cuts'[i + 1])
    {
      assert added[i] == bars[i] && cuts'[i] == cuts[i] && cuts'[i + 1] == cuts[i + 1];
    }
  }

  /** Every bar of the first `n` days sums up one stretch of them, and the stretches leave out no day. */
  lemma {:induction false} GroupCuts(days: seq<Candle>, end: Calendar, n: nat) returns (cuts: seq<nat>)
    requires n <= |days|
    ensures Cuts(Group(days, end, n), days, end, n, cuts)
  {
    if n == 0 {
      cuts := [0];
    } else {
      hide Cuts, AddDay;
      var bars := Group(days, end, n - 1);
      var before := GroupCuts(days, end, n - 1);
      if bars != [] && bars[|bars| - 1].date == end(days[n - 1].date) {
        CutsExtended(bars, days, end, n - 1, before);
        CutsLength(bars, days, end, n - 1, before);
        cuts := before[..|bars|] + [n];
      } else {
        CutsAppended(bars, days, end, n - 1, before);
        cuts := before + [n];
      }
    }
  }

  lemma CutsLength(bars: seq<Candle>, days: seq<Candle>, end: Calendar, n: nat, cuts: seq<nat>)
    requires Cuts(bars, days, end, n, cuts)
    ensures |cuts| == |bars| + 1
  {
  }

  /** Completed are exactly the bars whose period has ended by the last day. */
  lemma CompletedAre(days: seq<Candle>, end: Calendar, n: nat)
    requires IsCalendar(end) && Ascending(days) && 0 < n <= |days|
    ensures Completed(days, end, n) <= Group(days, end, n)
    ensures forall i :: 0 <= i < |Group(days, end, n)| ==>
              (i < |Completed(days, end, n)| <==> Group(days, end, n)[i].date <= days[n - 1].date)
  {
    hide Group;
    LabelsBefore(days, end, n);
    CompletedIs(days, end, n, Group(days, end, n));
  }

  /** What a day sees of a period RSI is the RSI of the bars completed by then, at the last of them. */
  lemma CarriedRsiMeans(days: seq<Candle>, end: Calendar, period: nat, k: nat)
    requires IsCalendar(end) && Ascending(days) && period > 0 && k < |days|
    ensures var done := Completed(days, end, k + 1);
            CarriedRsi(days, end, period, k) == if done == [] then None else RsiAt(Closes(done), period, |done| - 1)
  {
    hide Completed, RsiAt;
    RsiIsStable(period);
    CarriedIsKnown(days, end, RsiIndicator(period), k);
  }
}
