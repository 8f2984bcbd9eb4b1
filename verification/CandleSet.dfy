/** The builders of one symbol, fed by the same ticks (live/candle_builder.py, SymbolCandleSet). */
module CandleSet {
  import opened Common
  import opened Candles

  /** A builder that has taken exactly these ticks. */
  ghost predicate Took(b: CandleBuilder, ticks: seq<Tick>)
    reads b
  {
    b.Valid() && b.seen == ticks
  }

  /** It has taken `t` last, so its current candle is in the period of `t`. */
  ghost predicate TookLast(b: CandleBuilder, ticks: seq<Tick>, t: Tick)
    reads b
  {
    Took(b, ticks + [t]) && b.current.Some? && b.current.value.bar.key == b.bucket(t.time)
  }

  method Feed(b: CandleBuilder, t: Tick, ghost ticks: seq<Tick>)
    requires Took(b, ticks)
    modifies b
    ensures TookLast(b, ticks, t)
  {
    b.OnTick(t);
  }

  method FreshBuilder(bucket: Bucket, maxHistory: nat) returns (b: CandleBuilder)
    ensures fresh(b) && Took(b, []) && b.bucket == bucket
  {
    b := new CandleBuilder(bucket, maxHistory);
  }

  class SymbolCandleSet {
    const builders: seq<CandleBuilder>
    ghost var seen: seq<Tick>

    /** Different builders, all of which have taken the same ticks. */
    ghost predicate Valid()
      reads this, builders
    {
      && (forall i, j :: 0 <= i < j < |builders| ==> builders[i] != builders[j])
      && (forall i :: 0 <= i < |builders| ==> Took(builders[i], seen))
    }

    constructor (buckets: seq<Bucket>, maxHistory: nat)
      ensures Valid() && seen == [] && |builders| == |buckets| && fresh(builders)
      ensures forall i :: 0 <= i < |builders| ==> builders[i].bucket == buckets[i]
    {
      hide Took;
      var made: seq<CandleBuilder> := [];
      for i := 0 to |buckets|
        invariant |made| == i && fresh(made)
        invariant forall k :: 0 <= k < i ==> Took(made[k], []) && made[k].bucket == buckets[k]
        invariant forall j, k :: 0 <= j < k < i ==> made[j] != made[k]
      {
        var builder := FreshBuilder(buckets[i], maxHistory);
        made := made + [builder];
      }
      builders := made;
      seen := [];
    }

    /** The first `n` builders have taken the tick already. */
    ghost predicate TakenBy(n: nat, t: Tick)
      requires n <= |builders|
      reads this, builders
    {
      && (forall i, j :: 0 <= i < j < |builders| ==> builders[i] != builders[j])
      && (forall k :: 0 <= k < n ==> TookLast(builders[k], seen, t))
      && (forall k :: n <= k < |builders| ==> Took(builders[k], seen))
    }

    method FeedNext(n: nat, t: Tick)
      requires n < |builders| && TakenBy(n, t)
      modifies builders[n]
      ensures TakenBy(n + 1, t)
    {
      hide Took, TookLast;
      Feed(builders[n], t, seen);
    }

    /** Every builder takes the tick. */
    method FeedAll(t: Tick)
      requires Valid()
      modifies this, builders
      ensures Valid() && seen == old(seen) + [t]
      ensures forall k :: 0 <= k < |builders| ==> TookLast(builders[k], old(seen), t)
    {
      hide Took, TookLast;
      for n := 0 to |builders|
        invariant TakenBy(n, t) && seen == old(seen)
      {
        FeedNext(n, t);
      }
      AllTaken(t);
      seen := seen + [t];
    }

    lemma AllTaken(t: Tick)
      requires TakenBy(|builders|, t)
      ensures forall k :: 0 <= k < |builders| ==> TookLast(builders[k], seen, t)
      ensures forall k :: 0 <= k < |builders| ==> Took(builders[k], seen + [t])
    {
    }

    /** A tick for all timeframes; the current candles come back, each in the period of the tick. */
    method OnTick(t: Tick) returns (candles: seq<LiveCandle>)
      requires Valid()
      modifies this, builders
      ensures Valid() && seen == old(seen) + [t]
      ensures |candles| == |builders|
      ensures forall k :: 0 <= k < |builders| ==>
                builders[k].current == Some(candles[k]) && candles[k].bar.key == builders[k].bucket(t.time)
    {
      FeedAll(t);
      candles := [];
      for i := 0 to |builders|
        invariant |candles| == i
        invariant forall k :: 0 <= k < i ==> builders[k].current == Some(candles[k])
      {
        assert TookLast(builders[i], old(seen), t);
        candles := candles + [builders[i].current.value];
      }
      forall k | 0 <= k < |builders|
        ensures candles[k].bar.key == builders[k].bucket(t.time)
      {
        assert TookLast(builders[k], old(seen), t);
      }
    }

    /** All timeframes have the same total volume, and it is what the counter's stretches add up to. */
    lemma TimeframesAgree(i: nat, j: nat)
      requires Valid() && i < |builders| && j < |builders|
      ensures TotalVolume(builders[i].Contents()) == TotalVolume(builders[j].Contents())
      ensures NonNegative(Counters(seen)) ==> TotalVolume(builders[i].Contents()) == StretchEnds(Counters(seen))
    {
      VolumeAgrees(seen, builders[i].bucket);
      VolumeAgrees(seen, builders[j].bucket);
      if NonNegative(Counters(seen)) {
        VolumeIsStretchEnds(seen);
      }
    }

    /** A timeframe that nests another one holds its merged candles. */
    lemma CoarserIsMerged(fine: nat, coarse: nat)
      requires Valid() && fine < |builders| && coarse < |builders|
      requires Nested(builders[fine].bucket, builders[coarse].bucket)
      ensures builders[coarse].Contents() == Merged(builders[fine].Contents(), builders[coarse].bucket)
    {
      CoarseIsMergeOfFine(seen, builders[fine].bucket, builders[coarse].bucket);
    }
  }
}
