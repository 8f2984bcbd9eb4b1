/** The monthly cup pattern: search for the structure, then its status (strategies/cup.py). */
module Cup {
  import opened Common
  import opened Resample
  import opened Swings

  datatype Config = Config(
    minDepth: real, maxDepth: real, deepMaxDepth: real,
    minMonths: nat, relaxShortHistory: bool, shortMinMonths: nat, shortRatio: real,
    deepBottomBand: real, deepMinBottom: nat, deepMinRecovery: nat, deepMaxShare: real,
    minRecovery: real,
    requireUptrend: bool, trendLookback: nat, trendMinHistory: nat, trendMinGain: real,
    recentMonths: nat, nearBreakout: real, maxDistance: real, maxRimDifference: real,
    rolloverMinMonths: nat, rolloverMinPullback: real)

  datatype Reason = BottomTooShort | RecoveryTooShort | TooSharp | DepthOutOfRange | NoRecovery | NoUptrend

  datatype Structure = Structure(rim: nat, low: nat, level: real, deep: bool, distance: real)

  datatype Verdict = Valid(cup: Structure) | Invalid(reason: Option<Reason>)

  // ---- Searching a stretch of months -----------------------------------------------------

  /** First month of the lowest low in `[from, to)`. */
  function LowestLow(months: seq<Candle>, from: nat, to: nat): (p: nat)
    requires from < to <= |months|
    ensures from <= p < to
    ensures forall k :: from <= k < to ==> months[p].low <= months[k].low
    ensures forall k :: from <= k < p ==> months[p].low < months[k].low
  {
    if to == from + 1 then from
    else
      var p := LowestLow(months, from, to - 1);
      if months[to - 1].low < months[p].low then to - 1 else p
  }

  /** First month of the highest close in `[from, to)`. */
  function HighestClose(months: seq<Candle>, from: nat, to: nat): (p: nat)
    requires from < to <= |months|
    ensures from <= p < to
    ensures forall k :: from <= k < to ==> months[k].close <= months[p].close
    ensures forall k :: from <= k < p ==> months[k].close < months[p].close
  {
    if to == from + 1 then from
    else
      var p := HighestClose(months, from, to - 1);
      if months[to - 1].close > months[p].close then to - 1 else p
  }

  /** First month from `from` on that closes above the level. */
  function FirstAbove(months: seq<Candle>, from: nat, level: real): (p: Option<nat>)
    ensures p.Some? ==> from <= p.value < |months| && months[p.value].close > level
    ensures p.Some? ==> forall k :: from <= k < p.value ==> months[k].close <= level
    ensures p.None? ==> forall k :: from <= k < |months| ==> months[k].close <= level
    decreases |months| - from
  {
    if from >= |months| then None
    else if months[from].close > level then Some(from)
    else FirstAbove(months, from + 1, level)
  }

  function Highs(months: seq<Candle>): (h: seq<real>)
    ensures |h| == |months| && forall k :: 0 <= k < |months| ==> h[k] == months[k].high
  {
    seq(|months|, k requires 0 <= k < |months| => months[k].high)
  }

  /** (a - b) as a percentage of a whole. */
  function Percent(part: real, whole: real): real
    requires whole != 0.0
  {
    part / whole * 100.0
  }

  // ---- Deep cups -------------------------------------------------------------------------

  /** Consecutive months from `i` on that close no higher than the band. */
  function BottomMonths(months: seq<Candle>, i: nat, band: real): (count: nat)
    ensures i + count <= |months| || count == 0
    decreases |months| - i
  {
    if i < |months| && months[i].close <= band then 1 + BottomMonths(months, i + 1, band) else 0
  }

  function Move(months: seq<Candle>, i: nat): real
    requires 0 < i < |months|
  {
    if months[i].close >= months[i - 1].close then months[i].close - months[i - 1].close
    else months[i - 1].close - months[i].close
  }

  /** Largest close-to-close move in `(low, to)`, as a share of the recovery range. */
  function LargestShare(months: seq<Candle>, low: nat, to: nat, range: real): (share: real)
    requires low < to <= |months| && range > 0.0
    ensures share >= 0.0
  {
    if to == low + 1 then 0.0
    else Max(LargestShare(months, low, to - 1, range), Percent(Move(months, to - 1), range))
  }

  /** Closes up to this price still belong to the bottom. */
  function Band(low: real, c: Config): real {
    low * (1.0 + c.deepBottomBand / 100.0)
  }

  /** A real base, an unhurried climb, and no month that makes up most of it. */
  function DeepVerdict(months: seq<Candle>, c: Config, low: nat, range: real): Option<Reason>
    requires low < |months|
  {
    if BottomMonths(months, low, Band(months[low].low, c)) < c.deepMinBottom then Some(BottomTooShort)
    else if |months| - 1 - low < c.deepMinRecovery then Some(RecoveryTooShort)
    else if range > 0.0 && LargestShare(months, low, |months|, range) > c.deepMaxShare then Some(TooSharp)
    else if range <= 0.0 && 0.0 > c.deepMaxShare then Some(TooSharp)
    else None
  }

  // ---- The uptrend before the cup --------------------------------------------------------

  function CloseSum(months: seq<Candle>, from: nat, to: nat): real
    requires from <= to <= |months|
  {
    if from == to then 0.0 else CloseSum(months, from, to - 1) + months[to - 1].close
  }

  predicate Uptrend(months: seq<Candle>, c: Config, rim: nat)
    requires rim < |months|
  {
    var start := if rim > c.trendLookback then rim - c.trendLookback else 0;
    if rim - start < c.trendMinHistory || start == rim then false
    else
      var base := months[LowestLow(months, start, rim)].low;
      var mid := (rim - start) / 2;
      && base > 0.0
      && Percent(months[rim].high - base, base) >= c.trendMinGain
      && (rim - start >= 4 ==>
            CloseSum(months, start + mid, rim) / (rim - start - mid) as real > CloseSum(months, start, start + mid) / mid as real)
  }

  // ---- One candidate ---------------------------------------------------------------------

  /** A month between rim and low that rises above the rim. */
  predicate Dominated(months: seq<Candle>, rim: nat, low: nat)
    requires rim < low < |months|
  {
    exists k :: rim < k < low && months[k].high > months[rim].high
  }

  function Distance(level: real, close: real): real
    requires level > 0.0
  {
    var d := Percent(level - close, level);
    if d < 0.0 then -d else d
  }

  /** Depth within range, or deep and rounded; the reason if neither. */
  function DepthVerdict(months: seq<Candle>, c: Config, rim: nat, low: nat): Option<Reason>
    requires rim < low < |months| && months[rim].high > 0.0
  {
    var depth := Percent(months[rim].high - months[low].low, months[rim].high);
    if c.minDepth <= depth <= c.maxDepth then None
    else if c.maxDepth < depth <= c.deepMaxDepth then DeepVerdict(months, c, low, months[rim].high - months[low].low)
    else Some(DepthOutOfRange)
  }

  function Recovery(months: seq<Candle>, rim: nat, low: nat): real
    requires rim < |months| && low < |months|
  {
    var range := months[rim].high - months[low].low;
    if range > 0.0 then Percent(months[|months| - 1].close - months[low].low, range) else 0.0
  }

  /** What the search makes of one swing high. */
  function Judge(months: seq<Candle>, c: Config, rim: nat): Verdict
    requires rim < |months|
  {
    if months[rim].high <= 0.0 || rim + 1 >= |months| then Invalid(None)
    else
      var low := LowestLow(months, rim + 1, |months|);
      if Dominated(months, rim, low) then Invalid(None)
      else if DepthVerdict(months, c, rim, low).Some? then Invalid(DepthVerdict(months, c, rim, low))
      else if low == |months| - 1 || Recovery(months, rim, low) < c.minRecovery then Invalid(Some(NoRecovery))
      else if c.requireUptrend && !Uptrend(months, c, rim) then Invalid(Some(NoUptrend))
      else Valid(Structure(rim, low, months[rim].high, IsDeep(months, c, rim, low), Distance(months[rim].high, months[|months| - 1].close)))
  }

  predicate IsDeep(months: seq<Candle>, c: Config, rim: nat, low: nat)
    requires rim < |months| && low < |months| && months[rim].high > 0.0
  {
    !(c.minDepth <= Percent(months[rim].high - months[low].low, months[rim].high) <= c.maxDepth)
  }

  // ---- The search ------------------------------------------------------------------------

  /** Months a rim must be old; with a short history proportionally fewer. */
  function RequiredAge(c: Config, n: nat): (age: nat)
    ensures age <= c.minMonths
    ensures !c.relaxShortHistory ==> age == c.minMonths
  {
    if !c.relaxShortHistory then c.minMonths
    else
      var scaled := if c.shortRatio > 0.0 then (n as real * c.shortRatio).Floor else 0;
      var wanted := if scaled > c.shortMinMonths then scaled else c.shortMinMonths;
      if wanted < c.minMonths then wanted else c.minMonths
  }

  const LOOKBACK := 2

  /** A swing high old enough to be a rim. */
  predicate Candidate(months: seq<Candle>, c: Config, i: nat)
    requires i < |months|
  {
    HighMask(Highs(months), LOOKBACK)[i] && i + RequiredAge(c, |months|) <= |months| - 1
  }

  /** The verdict on every month; a month that is no candidate has none. */
  function Verdicts(months: seq<Candle>, c: Config): (vs: seq<Verdict>)
    ensures |vs| == |months|
    ensures forall i :: 0 <= i < |months| ==> vs[i] == if Candidate(months, c, i) then Judge(months, c, i) else Invalid(None)
  {
    seq(|months|, i requires 0 <= i < |months| => if Candidate(months, c, i) then Judge(months, c, i) else Invalid(None))
  }

  datatype Search = Search(best: Option<Structure>, reason: Option<Reason>)

  /** One more candidate: only a strictly smaller distance replaces the best so far. */
  function Improve(s: Search, v: Verdict): Search {
    match v
    case Invalid(reason) => if reason.Some? then s.(reason := reason) else s
    case Valid(cup) => if s.best.None? || cup.distance < s.best.value.distance then s.(best := Some(cup)) else s
  }

  /** The search over the first `n` verdicts. */
  function Pick(vs: seq<Verdict>, n: nat): Search
    requires n <= |vs|
  {
    if n == 0 then Search(None, None) else Improve(Pick(vs, n - 1), vs[n - 1])
  }

  function FindCup(months: seq<Candle>, c: Config): Search {
    Pick(Verdicts(months, c), |months|)
  }

  // ---- Status ----------------------------------------------------------------------------

  /** The month still forming: its latest close and its high so far. */
  datatype Live = Live(close: real, high: real)

  datatype NoSignalReason = NoStructure(reason: Option<Reason>) | StaleBreakout | LiveTooFar | FailedRollover | RimMismatch | TooFar

  datatype Status =
    | InsufficientHistory
    | NoSignal(why: NoSignalReason)
    | EarlyCup
    | NearBreakout
    | BreakoutForming
    | BreakoutConfirmed
    | RecentBreakout

  /** Rolled over: the highest recovery close lies back, the price has lost much of it, and closes fall since. */
  predicate RolledOver(months: seq<Candle>, c: Config, rim: nat)
    requires rim < |months|
  {
    var last := |months| - 1;
    var mid := rim + (last - rim + 1) / 2;
    && last - rim >= c.rolloverMinMonths && months[rim].close > 0.0
    && Percent(months[rim].close - months[last].close, months[rim].close) >= c.rolloverMinPullback
    && last - rim + 1 >= 3
    && months[last].close < months[mid].close < months[rim].close
  }

  /** A breakout in a completed month decides, unless it is old and the price has come back to the level. */
  function BreakoutVerdict(months: seq<Candle>, c: Config, cup: Structure, live: Option<Live>): Option<Status>
    requires cup.low + 1 < |months| && cup.level > 0.0
  {
    var last := |months| - 1;
    var breakout := FirstAbove(months, cup.low + 1, cup.level);
    if breakout.None? then None
    else if last == breakout.value then Some(BreakoutConfirmed)
    else if last - breakout.value <= c.recentMonths then Some(RecentBreakout)
    else if months[last].close > cup.level then Some(NoSignal(StaleBreakout))
    else if Percent(LivePrice(months, live) - cup.level, cup.level) > c.nearBreakout then Some(NoSignal(StaleBreakout))
    else None
  }

  function LivePrice(months: seq<Candle>, live: Option<Live>): real
    requires months != []
  {
    if live.Some? then live.value.close else months[|months| - 1].close
  }

  /** The running month has reached the level that no completed month closed above. */
  function FormingVerdict(months: seq<Candle>, c: Config, cup: Structure, live: Option<Live>): Option<Status>
    requires months != [] && cup.level > 0.0
  {
    if live.Some? && live.value.high >= cup.level && months[|months| - 1].close <= cup.level then
      if Percent(live.value.close - cup.level, cup.level) <= c.nearBreakout then Some(BreakoutForming)
      else Some(NoSignal(LiveTooFar))
    else None
  }

  /** What remains is judged by its shape and its distance from the level. */
  function DistanceVerdict(months: seq<Candle>, c: Config, cup: Structure): Status
    requires cup.low + 1 < |months| && cup.level > 0.0
  {
    var last := |months| - 1;
    var right := HighestClose(months, cup.low + 1, |months|);
    var distance := Percent(cup.level - months[last].close, cup.level);
    if RolledOver(months, c, right) then NoSignal(FailedRollover)
    else if Percent(cup.level - months[right].close, cup.level) > c.maxRimDifference then NoSignal(RimMismatch)
    else if months[last].close < cup.level && distance <= c.nearBreakout then NearBreakout
    else if distance > c.maxDistance then NoSignal(TooFar)
    else EarlyCup
  }

  function CupStatus(months: seq<Candle>, c: Config, cup: Structure, live: Option<Live>): Status
    requires cup.low + 1 < |months| && cup.level > 0.0
  {
    var breakout := BreakoutVerdict(months, c, cup, live);
    if breakout.Some? then breakout.value
    else
      var forming := FormingVerdict(months, c, cup, live);
      if forming.Some? then forming.value else DistanceVerdict(months, c, cup)
  }

  // ---- What the search finds -------------------------------------------------------------

  /** A structure as the documentation describes it. */
  ghost predicate GenuineCup(months: seq<Candle>, c: Config, cup: Structure) {
    && cup.rim < cup.low < |months| - 1
    && cup.level == months[cup.rim].high > 0.0
    && (forall k :: cup.rim < k < |months| ==> months[cup.low].low <= months[k].low)
    && (forall k :: cup.rim < k < cup.low ==> months[cup.low].low < months[k].low && months[k].high <= cup.level)
    && Recovery(months, cup.rim, cup.low) >= c.minRecovery
    && DepthVerdict(months, c, cup.rim, cup.low).None?
    && (c.requireUptrend ==> Uptrend(months, c, cup.rim))
    && cup.distance == Distance(cup.level, months[|months| - 1].close)
  }

  lemma JudgedIsGenuine(months: seq<Candle>, c: Config, rim: nat)
    requires rim < |months| && Judge(months, c, rim).Valid?
    ensures GenuineCup(months, c, Judge(months, c, rim).cup) && Judge(months, c, rim).cup.rim == rim
  {
  }

  /** The structure at the smallest distance among the first `n` valid verdicts, the oldest of equals. */
  ghost predicate Nearest(vs: seq<Verdict>, at: nat, n: nat)
    requires n <= |vs|
  {
    && at < n && vs[at].Valid?
    && (forall i :: 0 <= i < n && vs[i].Valid? ==> vs[at].cup.distance <= vs[i].cup.distance)
    && (forall i :: 0 <= i < at && vs[i].Valid? ==> vs[at].cup.distance < vs[i].cup.distance)
  }

  /** A verdict that is not nearer changes nothing; a nearer one, or the first, takes over. */
  lemma NearestStep(vs: seq<Verdict>, at: nat, n: nat)
    requires n < |vs| && Nearest(vs, at, n)
    ensures if vs[n].Valid? && vs[n].cup.distance < vs[at].cup.distance then Nearest(vs, n, n + 1) else Nearest(vs, at, n + 1)
  {
  }

  ghost predicate NoneValid(vs: seq<Verdict>, n: nat)
    requires n <= |vs|
  {
    forall i :: 0 <= i < n ==> !vs[i].Valid?
  }

  lemma FirstIsNearest(vs: seq<Verdict>, n: nat)
    requires n < |vs| && NoneValid(vs, n)
    ensures if vs[n].Valid? then Nearest(vs, n, n + 1) else NoneValid(vs, n + 1)
  {
  }

  /** What the search keeps is the nearest verdict, and it keeps nothing only if none is valid. */
  lemma {:induction false} PickIsNearest(vs: seq<Verdict>, n: nat) returns (at: nat)
    requires n <= |vs|
    ensures Pick(vs, n).best.Some? ==> Nearest(vs, at, n) && Pick(vs, n).best.value == vs[at].cup
    ensures Pick(vs, n).best.None? ==> NoneValid(vs, n)
  {
    at := 0;
    if n > 0 {
      at := PickIsNearest(vs, n - 1);
      if Pick(vs, n - 1).best.Some? {
        NearestStep(vs, at, n - 1);
      } else {
        FirstIsNearest(vs, n - 1);
      }
      if vs[n - 1].Valid? && (Pick(vs, n - 1).best.None? || vs[n - 1].cup.distance < vs[at].cup.distance) {
        at := n - 1;
      }
    }
  }

  /** Every other bar within two months is strictly lower, and the rim is old enough. */
  lemma CandidateIs(months: seq<Candle>, c: Config, i: nat)
    requires i < |months|
    ensures Candidate(months, c, i) <==>
            && 2 <= i && i + 2 < |months|
            && (forall j :: i - 2 <= j <= i + 2 && j != i ==> months[j].high < months[i].high)
            && |months| - 1 - i >= RequiredAge(c, |months|)
  {
    if LOOKBACK <= i && i + LOOKBACK < |months| {
      HighIsStrict(Highs(months), i, LOOKBACK);
    }
  }

  /** What is reported is a genuine cup on an old enough swing high, nearest to its level among all valid ones. */
  lemma FoundCupIsGenuine(months: seq<Candle>, c: Config)
    requires FindCup(months, c).best.Some?
    ensures var cup := FindCup(months, c).best.value;
            && GenuineCup(months, c, cup) && Candidate(months, c, cup.rim)
            && (forall i :: 0 <= i < |months| && Candidate(months, c, i) && Judge(months, c, i).Valid? ==>
                  cup.distance <= Judge(months, c, i).cup.distance)
  {
    var vs := Verdicts(months, c);
    var at := PickIsNearest(vs, |months|);
    JudgedIsGenuine(months, c, at);
  }

  /** And nothing is reported only if no candidate is valid. */
  lemma NothingFoundMeansNoneValid(months: seq<Candle>, c: Config)
    requires FindCup(months, c).best.None?
    ensures forall i :: 0 <= i < |months| && Candidate(months, c, i) ==> Judge(months, c, i).Invalid?
  {
    var vs := Verdicts(months, c);
    var at := PickIsNearest(vs, |months|);
    assert forall i :: 0 <= i < |months| && Candidate(months, c, i) ==> vs[i] == Judge(months, c, i);
  }
}
