/** Ticks folded into candles of any timeframe (live/candle_builder.py). */
module Candles {
  import opened Common

  /** A trade price with the day's cumulative volume counter, if the feed sent one. */
  datatype Tick = Tick(time: int, price: real, counter: Option<real>)

  datatype Bar = Bar(key: int, start: int, open: real, high: real, low: real, close: real, volume: real)

  /** The period a moment falls into, named by its end. */
  type Bucket = int -> int

  /** What a tick brings to a builder: its period and the volume it adds. */
  datatype Entry = Entry(key: int, time: int, price: real, volume: real)

  /** The last counter value of some ticks. */
  function LastCounter(ticks: seq<Tick>): Option<real> {
    if ticks == [] then None
    else if ticks[|ticks| - 1].counter.Some? then ticks[|ticks| - 1].counter
    else LastCounter(ticks[..|ticks| - 1])
  }

  /** The counter's rise, or its whole value when it is the first or has been reset. */
  function Added(last: Option<real>, counter: Option<real>): real {
    if counter.None? then 0.0
    else if last.None? || counter.value < last.value then Max(counter.value, 0.0)
    else Max(counter.value - last.value, 0.0)
  }

  function EntryOf(t: Tick, bucket: Bucket, last: Option<real>): Entry {
    Entry(bucket(t.time), t.time, t.price, Added(last, t.counter))
  }

  function Entries(ticks: seq<Tick>, bucket: Bucket): (es: seq<Entry>)
    ensures |es| == |ticks|
    ensures forall i :: 0 <= i < |ticks| ==> es[i].key == bucket(ticks[i].time) && es[i].time == ticks[i].time
  {
    if ticks == [] then []
    else
      var before := ticks[..|ticks| - 1];
      Entries(before, bucket) + [EntryOf(ticks[|ticks| - 1], bucket, LastCounter(before))]
  }

  // ---- Candles ---------------------------------------------------------------------------

  function NewBar(e: Entry): Bar {
    Bar(e.key, e.time, e.price, e.price, e.price, e.price, e.volume)
  }

  function Extend(b: Bar, e: Entry): Bar {
    b.(high := Max(b.high, e.price), low := Min(b.low, e.price), close := e.price, volume := b.volume + e.volume)
  }

  /** One entry: into the last candle if it is in the same period, else into a new one. */
  function Fold(bars: seq<Bar>, e: Entry): seq<Bar> {
    if bars != [] && bars[|bars| - 1].key == e.key then bars[..|bars| - 1] + [Extend(bars[|bars| - 1], e)]
    else bars + [NewBar(e)]
  }

  /** Every candle of some entries. */
  function Bars(es: seq<Entry>): (bars: seq<Bar>)
    ensures bars == [] <==> es == []
    ensures es != [] ==> bars[|bars| - 1].key == es[|es| - 1].key
  {
    if es == [] then [] else Fold(Bars(es[..|es| - 1]), es[|es| - 1])
  }

  // ---- The builder -----------------------------------------------------------------------

  datatype LiveCandle = LiveCandle(bar: Bar, complete: bool)

  function BarsOf(candles: seq<LiveCandle>): (bars: seq<Bar>)
    ensures |bars| == |candles| && forall i :: 0 <= i < |candles| ==> bars[i] == candles[i].bar
  {
    seq(|candles|, i requires 0 <= i < |candles| => candles[i].bar)
  }

  class CandleBuilder {
    const bucket: Bucket
    const maxHistory: nat
    var current: Option<LiveCandle>
    var history: seq<LiveCandle>
    var lastCounter: Option<real>
    ghost var evicted: seq<LiveCandle>
    ghost var seen: seq<Tick>

    /** Evicted, kept and current candles in a row. */
    ghost function Contents(): seq<Bar>
      reads this
    {
      BarsOf(evicted + history) + if current.Some? then [current.value.bar] else []
    }

    /** Whatever was ever seen is accounted for, though only a bounded part of it is still kept. */
    ghost predicate Valid()
      reads this
    {
      && |history| <= maxHistory
      && lastCounter == LastCounter(seen)
      && Contents() == Bars(Entries(seen, bucket))
      && (current.None? ==> history == [] && evicted == [])
      && forall c :: c in evicted + history ==> c.complete
    }

    constructor (bucket: Bucket, maxHistory: nat)
      ensures Valid() && seen == [] && this.bucket == bucket && this.maxHistory == maxHistory
    {
      this.bucket, this.maxHistory := bucket, maxHistory;
      current, history, lastCounter := None, [], None;
      evicted, seen := [], [];
    }

    method OnTick(t: Tick)
      requires Valid()
      modifies this
      ensures Valid() && seen == old(seen) + [t]
      ensures current.Some? && current.value.bar.key == bucket(t.time) && current.value.bar.close == t.price
      ensures current.value.complete <==> old(current.Some? && current.value.bar.key == bucket(t.time) && current.value.complete)
    {
      hide Bars, Entries, Fold, BarsOf;
      var e := EntryOf(t, bucket, lastCounter);
      TicksAppend(seen, t, bucket);
      BarsAppend(Entries(seen, bucket), e);
      if t.counter.Some? {
        lastCounter := t.counter;
      }
      TakeEntry(e);
      seen := seen + [t];
    }

    /** Extend the current candle, or complete it and open the next. */
    method TakeEntry(e: Entry)
      requires |history| <= maxHistory && (forall c :: c in evicted + history ==> c.complete)
      requires current.None? ==> history == [] && evicted == []
      modifies this`current, this`history, this`evicted
      ensures Contents() == Fold(old(Contents()), e)
      ensures |history| <= maxHistory && (forall c :: c in evicted + history ==> c.complete)
      ensures current.Some? && current.value.bar.key == e.key && current.value.bar.close == e.price
      ensures current.value.complete <==> old(current.Some? && current.value.bar.key == e.key && current.value.complete)
    {
      if current.None? {
        current := Some(LiveCandle(NewBar(e), false));
      } else if current.value.bar.key != e.key {
        Remember(current.value.(complete := true));
        current := Some(LiveCandle(NewBar(e), false));
      } else {
        FoldLast(BarsOf(evicted + history), current.value.bar, e);
        current := Some(current.value.(bar := Extend(current.value.bar, e)));
      }
    }

    /** Append to the bounded history; the oldest falls out. */
    method Remember(c: LiveCandle)
      requires |history| <= maxHistory
      modifies this`history, this`evicted
      ensures |history| <= maxHistory && evicted + history == old(evicted + history) + [c]
      ensures BarsOf(evicted + history) == BarsOf(old(evicted + history)) + [c.bar]
    {
      history := history + [c];
      if |history| > maxHistory {
        evicted := evicted + [history[0]];
        history := history[1..];
      }
    }

    /** At a period's end the current candle is marked complete without waiting for the next tick. */
    method FinalizeIfPeriodEnded(now: int) returns (finalized: Option<LiveCandle>)
      requires Valid()
      modifies this`current
      ensures Valid() && Contents() == old(Contents())
      ensures finalized.Some? <==> current.Some? && current.value.bar.key == bucket(now)
      ensures finalized.Some? ==> finalized == current && current.value.complete
      ensures finalized.None? ==> current == old(current)
    {
      finalized := None;
      if current.Some? && bucket(now) == current.value.bar.key {
        current := Some(current.value.(complete := true));
        finalized := current;
      }
    }
  }

  lemma TicksAppend(ticks: seq<Tick>, t: Tick, bucket: Bucket)
    ensures Entries(ticks + [t], bucket) == Entries(ticks, bucket) + [EntryOf(t, bucket, LastCounter(ticks))]
    ensures LastCounter(ticks + [t]) == if t.counter.Some? then t.counter else LastCounter(ticks)
  {
    assert (ticks + [t])[..|ticks|] == ticks;
  }

  lemma BarsAppend(es: seq<Entry>, e: Entry)
    ensures Bars(es + [e]) == Fold(Bars(es), e)
  {
    assert (es + [e])[..|es|] == es;
  }

  lemma FoldLast(done: seq<Bar>, last: Bar, e: Entry)
    requires last.key == e.key
    ensures Fold(done + [last], e) == done + [Extend(last, e)]
  {
    assert (done + [last])[..|done|] == done;
  }

  // ---- Group by bucket -------------------------------------------------------------------

  /** The prices of one period, in order. */
  function PricesIn(es: seq<Entry>, key: int): seq<real> {
    if es == [] then []
    else PricesIn(es[..|es| - 1], key) + if es[|es| - 1].key == key then [es[|es| - 1].price] else []
  }

  function VolumeIn(es: seq<Entry>, key: int): real {
    if es == [] then 0.0
    else VolumeIn(es[..|es| - 1], key) + if es[|es| - 1].key == key then es[|es| - 1].volume else 0.0
  }

  /** A candle sums up prices: first, highest, lowest, last. */
  ghost predicate SumsUp(b: Bar, prices: seq<real>, volume: real) {
    && prices != []
    && b.open == prices[0] && b.close == prices[|prices| - 1]
    && b.high in prices && b.low in prices
    && (forall i :: 0 <= i < |prices| ==> b.low <= prices[i] <= b.high)
    && b.volume == volume
  }

  lemma ExtendSumsUp(b: Bar, prices: seq<real>, volume: real, e: Entry)
    requires SumsUp(b, prices, volume)
    ensures SumsUp(Extend(b, e), prices + [e.price], volume + e.volume)
  {
  }

  ghost predicate KeysRise(bars: seq<Bar>) {
    forall i, j :: 0 <= i < j < |bars| ==> bars[i].key < bars[j].key
  }

  predicate HasKey(bars: seq<Bar>, key: int) {
    exists j :: 0 <= j < |bars| && bars[j].key == key
  }

  /** One candle per period, in order, each summing up exactly the entries of its period; no other period has any. */
  ghost predicate Accounts(bars: seq<Bar>, es: seq<Entry>) {
    && KeysRise(bars)
    && (forall j :: 0 <= j < |bars| ==> SumsUp(bars[j], PricesIn(es, bars[j].key), VolumeIn(es, bars[j].key)))
    && (forall key :: !HasKey(bars, key) ==> PricesIn(es, key) == [] && VolumeIn(es, key) == 0.0)
  }

  lemma InAppend(es: seq<Entry>, e: Entry, key: int)
    ensures PricesIn(es + [e], key) == if e.key == key then PricesIn(es, key) + [e.price] else PricesIn(es, key)
    ensures VolumeIn(es + [e], key) == if e.key == key then VolumeIn(es, key) + e.volume else VolumeIn(es, key)
  {
    assert (es + [e])[..|es|] == es;
  }

  lemma FoldKeys(bars: seq<Bar>, e: Entry)
    requires KeysRise(bars) && (bars != [] ==> bars[|bars| - 1].key <= e.key)
    ensures KeysRise(Fold(bars, e))
    ensures forall key :: HasKey(Fold(bars, e), key) <==> key == e.key || HasKey(bars, key)
  {
    var after := Fold(bars, e);
    assert after[|after| - 1].key == e.key;
    assert forall j :: 0 <= j < |bars| ==> after[j].key == bars[j].key;
  }

  /** The candle an entry extends, or the one it opens, sums up its period again. */
  lemma LastSums(bars: seq<Bar>, es: seq<Entry>, e: Entry)
    requires bars != [] && bars[|bars| - 1].key == e.key ==>
               SumsUp(bars[|bars| - 1], PricesIn(es, e.key), VolumeIn(es, e.key))
    requires bars == [] || bars[|bars| - 1].key != e.key ==> PricesIn(es, e.key) == [] && VolumeIn(es, e.key) == 0.0
    ensures var after := Fold(bars, e);
            SumsUp(after[|after| - 1], PricesIn(es + [e], e.key), VolumeIn(es + [e], e.key))
  {
    InAppend(es, e, e.key);
    if bars != [] && bars[|bars| - 1].key == e.key {
      ExtendSumsUp(bars[|bars| - 1], PricesIn(es, e.key), VolumeIn(es, e.key), e);
    }
  }

  lemma NoKeyYet(bars: seq<Bar>, key: int)
    requires KeysRise(bars) && (bars != [] ==> bars[|bars| - 1].key < key)
    ensures !HasKey(bars, key)
  {
    forall j | 0 <= j < |bars|
      ensures bars[j].key != key
    {
      assert j < |bars| - 1 ==> bars[j].key < bars[|bars| - 1].key;
    }
  }

  lemma FoldSums(bars: seq<Bar>, es: seq<Entry>, e: Entry, j: nat)
    requires Accounts(bars, es) && (bars != [] ==> bars[|bars| - 1].key <= e.key) && j < |Fold(bars, e)|
    ensures SumsUp(Fold(bars, e)[j], PricesIn(es + [e], Fold(bars, e)[j].key), VolumeIn(es + [e], Fold(bars, e)[j].key))
  {
    var after := Fold(bars, e);
    if j == |after| - 1 {
      if bars == [] || bars[|bars| - 1].key != e.key {
        NoKeyYet(bars, e.key);
      }
      LastSums(bars, es, e);
    } else {
      assert after[j] == bars[j];
      assert j < |bars| - 1 ==> bars[j].key < bars[|bars| - 1].key;
      InAppend(es, e, bars[j].key);
    }
  }

  lemma FoldAccounts(bars: seq<Bar>, es: seq<Entry>, e: Entry)
    requires Accounts(bars, es) && (bars != [] ==> bars[|bars| - 1].key <= e.key)
    ensures Accounts(Fold(bars, e), es + [e])
  {
    FoldKeys(bars, e);
    forall j | 0 <= j < |Fold(bars, e)|
      ensures SumsUp(Fold(bars, e)[j], PricesIn(es + [e], Fold(bars, e)[j].key), VolumeIn(es + [e], Fold(bars, e)[j].key))
    {
      FoldSums(bars, es, e, j);
    }
    forall key | !HasKey(Fold(bars, e), key)
      ensures PricesIn(es + [e], key) == [] && VolumeIn(es + [e], key) == 0.0
    {
      InAppend(es, e, key);
    }
  }

  ghost predicate Ordered(es: seq<Entry>) {
    forall i, j :: 0 <= i < j < |es| ==> es[i].key <= es[j].key
  }

  lemma {:induction false} BarsAccount(es: seq<Entry>)
    requires Ordered(es)
    ensures Accounts(Bars(es), es)
  {
    if es != [] {
      var before := es[..|es| - 1];
      BarsAccount(before);
      FoldAccounts(Bars(before), before, es[|es| - 1]);
      assert before + [es[|es| - 1]] == es;
    }
  }

  ghost predicate TimeOrdered(ticks: seq<Tick>) {
    forall i, j :: 0 <= i < j < |ticks| ==> ticks[i].time <= ticks[j].time
  }

  ghost predicate Monotone(bucket: Bucket) {
    forall a, b :: a <= b ==> bucket(a) <= bucket(b)
  }

  /** For time-ordered ticks a builder's evicted, kept and current candles are the batch group-by-bucket aggregation. */
  lemma BuilderGroupsByBucket(ticks: seq<Tick>, bucket: Bucket)
    requires TimeOrdered(ticks) && Monotone(bucket)
    ensures Accounts(Bars(Entries(ticks, bucket)), Entries(ticks, bucket))
  {
    BarsAccount(Entries(ticks, bucket));
  }

  /** The candle of a period starts with the first entry of it. */
  ghost predicate StartsAt(es: seq<Entry>, key: int, start: int) {
    exists i :: 0 <= i < |es| && es[i].key == key && es[i].time == start && forall k :: 0 <= k < i ==> es[k].key != key
  }

  lemma StartsLater(es: seq<Entry>, e: Entry, key: int, start: int)
    requires StartsAt(es, key, start)
    ensures StartsAt(es + [e], key, start)
  {
    var i :| 0 <= i < |es| && es[i].key == key && es[i].time == start && forall k :: 0 <= k < i ==> es[k].key != key;
    assert (es + [e])[i] == es[i];
  }

  lemma {:induction false} NoPricesNoEntries(es: seq<Entry>, key: int)
    requires PricesIn(es, key) == []
    ensures forall i :: 0 <= i < |es| ==> es[i].key != key
  {
    if es != [] {
      NoPricesNoEntries(es[..|es| - 1], key);
    }
  }

  lemma {:induction false} BarsStart(es: seq<Entry>)
    requires Ordered(es)
    ensures forall j :: 0 <= j < |Bars(es)| ==> StartsAt(es, Bars(es)[j].key, Bars(es)[j].start)
  {
    if es != [] {
      var before, e := es[..|es| - 1], es[|es| - 1];
      var bars := Bars(before);
      BarsStart(before);
      BarsAccount(before);
      assert before + [e] == es;
      FoldStarts(bars, before, e);
    }
  }

  lemma FoldStarts(bars: seq<Bar>, es: seq<Entry>, e: Entry)
    requires Accounts(bars, es) && (bars != [] ==> bars[|bars| - 1].key <= e.key)
    requires forall j :: 0 <= j < |bars| ==> StartsAt(es, bars[j].key, bars[j].start)
    ensures forall j :: 0 <= j < |Fold(bars, e)| ==> StartsAt(es + [e], Fold(bars, e)[j].key, Fold(bars, e)[j].start)
  {
    var after := Fold(bars, e);
    forall j | 0 <= j < |after|
      ensures StartsAt(es + [e], after[j].key, after[j].start)
    {
      if j < |bars| {
        StartsLater(es, e, bars[j].key, bars[j].start);
      } else {
        NoKeyYet(bars, e.key);
        NoPricesNoEntries(es, e.key);
        assert (es + [e])[|es|] == e;
      }
    }
  }

  // ---- A coarser timeframe ---------------------------------------------------------------

  /** A finer candle joined to a coarser one. */
  function Join(b: Bar, fine: Bar): Bar {
    b.(high := Max(b.high, fine.high), low := Min(b.low, fine.low), close := fine.close, volume := b.volume + fine.volume)
  }

  /** One more finer candle: joined to the last coarser one, or the first of the next. */
  function JoinLast(merged: seq<Bar>, b: Bar, key: int): (joined: seq<Bar>)
    ensures joined != [] && joined[|joined| - 1].key == key
  {
    if merged != [] && merged[|merged| - 1].key == key then merged[..|merged| - 1] + [Join(merged[|merged| - 1], b)]
    else merged + [b.(key := key)]
  }

  /** Candles of a finer timeframe merged by the coarser period they lie in. */
  function Merged(bars: seq<Bar>, coarse: Bucket): (merged: seq<Bar>)
    ensures merged == [] <==> bars == []
    ensures bars != [] ==> merged[|merged| - 1].key == coarse(bars[|bars| - 1].key)
  {
    if bars == [] then []
    else JoinLast(Merged(bars[..|bars| - 1], coarse), bars[|bars| - 1], coarse(bars[|bars| - 1].key))
  }

  /** Every coarser period is made of whole finer ones. */
  ghost predicate Nested(fine: Bucket, coarse: Bucket) {
    forall t :: coarse(fine(t)) == coarse(t)
  }

  lemma JoinExtend(b: Bar, fine: Bar, e: Entry)
    ensures Join(b, Extend(fine, e)) == Extend(Join(b, fine), e)
    ensures Join(b, NewBar(e)) == Extend(b, e)
  {
  }

  lemma MergedAppend(bars: seq<Bar>, b: Bar, coarse: Bucket)
    ensures Merged(bars + [b], coarse) == JoinLast(Merged(bars, coarse), b, coarse(b.key))
  {
    assert (bars + [b])[..|bars|] == bars;
  }

  lemma JoinLastExtend(merged: seq<Bar>, last: Bar, key: int, e: Entry)
    requires e.key == key
    ensures JoinLast(merged, Extend(last, e), key) == Fold(JoinLast(merged, last, key), e)
  {
    if merged != [] && merged[|merged| - 1].key == key {
      var b := merged[|merged| - 1];
      JoinExtend(b, last, e);
      FoldLast(merged[..|merged| - 1], Join(b, last), e);
    } else {
      FoldLast(merged, last.(key := key), e);
    }
  }

  lemma MergedExtend(done: seq<Bar>, last: Bar, coarse: Bucket, e: Entry)
    requires last.key == e.key
    ensures Merged(done + [Extend(last, e)], coarse) == Fold(Merged(done + [last], coarse), e.(key := coarse(e.key)))
  {
    MergedAppend(done, last, coarse);
    MergedAppend(done, Extend(last, e), coarse);
    ExtendIgnoresKey(last, e, coarse(e.key));
    JoinLastExtend(Merged(done, coarse), last, coarse(e.key), e.(key := coarse(e.key)));
  }

  lemma ExtendIgnoresKey(b: Bar, e: Entry, key: int)
    ensures Extend(b, e.(key := key)) == Extend(b, e)
  {
  }

  lemma MergedNew(bars: seq<Bar>, coarse: Bucket, e: Entry)
    ensures Merged(bars + [NewBar(e)], coarse) == Fold(Merged(bars, coarse), e.(key := coarse(e.key)))
  {
    MergedAppend(bars, NewBar(e), coarse);
    var m := Merged(bars, coarse);
    if m != [] && m[|m| - 1].key == coarse(e.key) {
      JoinExtend(m[|m| - 1], m[|m| - 1], e);
    }
  }

  /** One more entry: merging after folding is folding after merging. */
  lemma MergedFold(bars: seq<Bar>, coarse: Bucket, e: Entry)
    ensures Merged(Fold(bars, e), coarse) == Fold(Merged(bars, coarse), e.(key := coarse(e.key)))
  {
    if bars != [] && bars[|bars| - 1].key == e.key {
      MergedExtend(bars[..|bars| - 1], bars[|bars| - 1], coarse, e);
      assert bars == bars[..|bars| - 1] + [bars[|bars| - 1]];
    } else {
      MergedNew(bars, coarse, e);
    }
  }

  /** The entries of the coarser timeframe. */
  function Recoded(es: seq<Entry>, coarse: Bucket): (r: seq<Entry>)
    ensures |r| == |es| && forall i :: 0 <= i < |es| ==> r[i] == es[i].(key := coarse(es[i].key))
  {
    seq(|es|, i requires 0 <= i < |es| => es[i].(key := coarse(es[i].key)))
  }

  lemma {:induction false} MergedBars(es: seq<Entry>, coarse: Bucket)
    ensures Merged(Bars(es), coarse) == Bars(Recoded(es, coarse))
  {
    if es != [] {
      var before := es[..|es| - 1];
      MergedBars(before, coarse);
      MergedFold(Bars(before), coarse, es[|es| - 1]);
      assert Recoded(es, coarse)[..|es| - 1] == Recoded(before, coarse);
    }
  }

  lemma {:induction false} EntriesRecoded(ticks: seq<Tick>, fine: Bucket, coarse: Bucket)
    requires Nested(fine, coarse)
    ensures Entries(ticks, coarse) == Recoded(Entries(ticks, fine), coarse)
  {
    if ticks != [] {
      EntriesRecoded(ticks[..|ticks| - 1], fine, coarse);
    }
  }

  /** Each hour candle is the merge of its quarter-hour candles: for any nested timeframes and any ticks. */
  lemma CoarseIsMergeOfFine(ticks: seq<Tick>, fine: Bucket, coarse: Bucket)
    requires Nested(fine, coarse)
    ensures Bars(Entries(ticks, coarse)) == Merged(Bars(Entries(ticks, fine)), coarse)
  {
    EntriesRecoded(ticks, fine, coarse);
    MergedBars(Entries(ticks, fine), coarse);
  }

  /** Rounding up to the next multiple of a span, as both intraday timeframes do. */
  function CeilTo(span: nat, t: int): int
    requires span > 0
  {
    if t % span == 0 then t else t - t % span + span
  }

  /** The multiple that ends the span of `t`. */
  predicate EndsSpan(span: nat, t: int, k: int) {
    span * (k - 1) < t <= span * k
  }

  lemma SpanOf(span: nat, t: int) returns (k: int)
    requires span > 0
    ensures EndsSpan(span, t, k) && CeilTo(span, t) == span * k
  {
    k := if t % span == 0 then t / span else t / span + 1;
    assert t == span * (t / span) + t % span;
    assert span * (t / span + 1) == span * (t / span) + span;
    assert span * (t / span - 1) == span * (t / span) - span;
  }

  lemma OneSpan(span: nat, t: int, j: int, k: int)
    requires span > 0 && EndsSpan(span, t, j) && EndsSpan(span, t, k)
    ensures j == k
  {
    if j < k {
      MulMonotone(span, j, k - 1);
    } else if k < j {
      MulMonotone(span, k, j - 1);
    }
  }

  lemma MulMonotone(span: nat, a: int, b: int)
    requires a <= b
    ensures span * a <= span * b
  {
    assert span * (b - a) >= 0;
    assert span * b == span * a + span * (b - a);
  }

  lemma MulLess(span: nat, a: int, b: int)
    requires span * a < span * b
    ensures a < b
  {
    if b <= a {
      MulMonotone(span, b, a);
    }
  }

  /** The end of a fine span lies in the same coarse span as the moment itself. */
  lemma SpanWithin(fine: nat, n: nat, t: int, k: int, j: int)
    requires fine > 0 && n > 0 && EndsSpan(fine, t, k) && EndsSpan(fine * n, fine * k, j)
    ensures EndsSpan(fine * n, t, j)
  {
    assert fine * n * (j - 1) == fine * (n * (j - 1));
    MulLess(fine, n * (j - 1), k);
    MulMonotone(fine, n * (j - 1), k - 1);
  }

  /** Rounding up to a span never leaves the coarser span that it divides, whatever the unit of time. */
  lemma CeilNests(fine: nat, n: nat, t: int)
    requires fine > 0 && n > 0 && fine * n > 0
    ensures CeilTo(fine * n, CeilTo(fine, t)) == CeilTo(fine * n, t)
  {
    var k := SpanOf(fine, t);
    var j := SpanOf(fine * n, fine * k);
    var j' := SpanOf(fine * n, t);
    SpanWithin(fine, n, t, k, j);
    OneSpan(fine * n, t, j, j');
  }

  /** Quarter hours nest in hours, at any resolution of the clock. */
  lemma QuartersNestInHours(perMinute: nat)
    requires perMinute > 0
    ensures Nested(t => CeilTo(15 * perMinute, t), t => CeilTo(60 * perMinute, t))
  {
    forall t: int
      ensures CeilTo(60 * perMinute, CeilTo(15 * perMinute, t)) == CeilTo(60 * perMinute, t)
    {
      assert 15 * perMinute * 4 == 60 * perMinute;
      CeilNests(15 * perMinute, 4, t);
    }
  }

  // ---- Volume ----------------------------------------------------------------------------

  function TotalVolume(bars: seq<Bar>): real {
    if bars == [] then 0.0 else TotalVolume(bars[..|bars| - 1]) + bars[|bars| - 1].volume
  }

  /** What the ticks add in all. */
  function TicksVolume(ticks: seq<Tick>): real {
    if ticks == [] then 0.0
    else TicksVolume(ticks[..|ticks| - 1]) + Added(LastCounter(ticks[..|ticks| - 1]), ticks[|ticks| - 1].counter)
  }

  lemma FoldVolume(bars: seq<Bar>, e: Entry)
    ensures TotalVolume(Fold(bars, e)) == TotalVolume(bars) + e.volume
  {
    var after := Fold(bars, e);
    assert after[..|after| - 1] == if |after| == |bars| then bars[..|bars| - 1] else bars;
  }

  /** Every timeframe sees the same total volume. */
  lemma {:induction false} VolumeAgrees(ticks: seq<Tick>, bucket: Bucket)
    ensures TotalVolume(Bars(Entries(ticks, bucket))) == TicksVolume(ticks)
  {
    if ticks != [] {
      hide Bars, Entries, Fold, TotalVolume;
      var before, t := ticks[..|ticks| - 1], ticks[|ticks| - 1];
      VolumeAgrees(before, bucket);
      TicksAppend(before, t, bucket);
      assert before + [t] == ticks;
      var e := EntryOf(t, bucket, LastCounter(before));
      BarsAppend(Entries(before, bucket), e);
      FoldVolume(Bars(Entries(before, bucket)), e);
    }
  }

  /** The counter values that were sent. */
  function Counters(ticks: seq<Tick>): seq<real> {
    if ticks == [] then []
    else Counters(ticks[..|ticks| - 1]) + if ticks[|ticks| - 1].counter.Some? then [ticks[|ticks| - 1].counter.value] else []
  }

  /** The values just before a fall of the counter, added up. */
  function FallsFrom(values: seq<real>): real {
    if |values| <= 1 then 0.0
    else
      var last, previous := values[|values| - 1], values[|values| - 2];
      FallsFrom(values[..|values| - 1]) + if last < previous then previous else 0.0
  }

  /** The final values of the counter's non-decreasing stretches: those before a fall, and the last one. */
  function StretchEnds(values: seq<real>): real {
    if values == [] then 0.0 else FallsFrom(values) + values[|values| - 1]
  }

  ghost predicate NonNegative(values: seq<real>) {
    forall i :: 0 <= i < |values| ==> values[i] >= 0.0
  }

  lemma {:induction false} LastCounterIsLast(ticks: seq<Tick>)
    ensures LastCounter(ticks) == if Counters(ticks) == [] then None else Some(Counters(ticks)[|Counters(ticks)| - 1])
  {
    if ticks != [] {
      LastCounterIsLast(ticks[..|ticks| - 1]);
    }
  }

  lemma StretchStep(values: seq<real>, v: real)
    requires v >= 0.0
    ensures StretchEnds(values + [v]) ==
            StretchEnds(values) + Added(if values == [] then None else Some(values[|values| - 1]), Some(v))
  {
    assert (values + [v])[..|values|] == values;
  }

  lemma CountersAppend(ticks: seq<Tick>, t: Tick)
    ensures Counters(ticks + [t]) == if t.counter.Some? then Counters(ticks) + [t.counter.value] else Counters(ticks)
    ensures TicksVolume(ticks + [t]) == TicksVolume(ticks) + Added(LastCounter(ticks), t.counter)
  {
    assert (ticks + [t])[..|ticks|] == ticks;
  }

  /** And that total is the sum of the final values of the counter's non-decreasing stretches, one for each reset and
      one for the end. */
  lemma {:induction false} VolumeIsStretchEnds(ticks: seq<Tick>)
    requires NonNegative(Counters(ticks))
    ensures TicksVolume(ticks) == StretchEnds(Counters(ticks))
  {
    if ticks != [] {
      var before, t := ticks[..|ticks| - 1], ticks[|ticks| - 1];
      CountersAppend(before, t);
      assert before + [t] == ticks;
      assert Counters(before) <= Counters(ticks);
      VolumeIsStretchEnds(before);
      LastCounterIsLast(before);
      if t.counter.Some? {
        assert Counters(ticks)[|Counters(before)|] == t.counter.value;
        StretchStep(Counters(before), t.counter.value);
      }
    }
  }
}
