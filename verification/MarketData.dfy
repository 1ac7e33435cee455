/** Price and funding lookups of the simulator, over series in time order. */
module MarketData {
  import opened Arith
  import opened Sorting

  const BUCKET_SECS := 900
  const STABILITY_WINDOW_SECS := 259200

  datatype PricePoint = PricePoint(t: int, px: real)

  /** A funding snapshot: rate in percent and, when known, the next settlement time. */
  datatype FundingPoint = FundingPoint(t: int, ratePct: real, next: Option<int>)

  // ----- Points at or before a time -----

  function PricesUpTo(s: seq<PricePoint>, ts: int): (n: nat)
    ensures n <= |s|
  {
    if s == [] || s[0].t > ts then 0 else 1 + PricesUpTo(s[1..], ts)
  }

  function FundingUpTo(s: seq<FundingPoint>, ts: int): (n: nat)
    ensures n <= |s|
  {
    if s == [] || s[0].t > ts then 0 else 1 + FundingUpTo(s[1..], ts)
  }

  function FundingBefore(s: seq<FundingPoint>, ts: int): (n: nat)
    ensures n <= |s|
  {
    if s == [] || s[0].t >= ts then 0 else 1 + FundingBefore(s[1..], ts)
  }

  function PastPrices(s: seq<PricePoint>, ts: int): seq<PricePoint> { s[..PricesUpTo(s, ts)] }

  function PastFunding(s: seq<FundingPoint>, ts: int): seq<FundingPoint> { s[..FundingUpTo(s, ts)] }

  // ----- Lookups -----

  /** The last price at or before `ts`, unless it is too old or not positive. */
  function LatestPrice(s: seq<PricePoint>, ts: int, maxAge: int): Option<real> {
    var n := PricesUpTo(s, ts);
    if n == 0 || ts - s[n - 1].t > maxAge || s[n - 1].px <= 0.0 then None else Some(s[n - 1].px)
  }

  datatype Carry = Carry(prevNext: Option<int>, lastKnown: Option<real>)

  function StepCarry(c: Carry, p: FundingPoint): Carry {
    match (p.next, c.prevNext)
    case (Some(next), Some(prev)) =>
      var hours := (next - prev) as real / 3600.0;
      Carry(p.next, if next != prev && 0.5 <= hours <= 24.0 then Some(hours) else c.lastKnown)
    case (Some(_), None) => c.(prevNext := p.next)
    case (None, _) => c
  }

  function CarryAfter(s: seq<FundingPoint>): Carry {
    if s == [] then Carry(None, None) else StepCarry(CarryAfter(s[..|s| - 1]), s[|s| - 1])
  }

  /** The settlement interval known at each point: the last plausible step between next-settlement times. */
  function Intervals(s: seq<FundingPoint>): (r: seq<Option<real>>)
    ensures |r| == |s|
  {
    if s == [] then [] else Intervals(s[..|s| - 1]) + [CarryAfter(s).lastKnown]
  }

  function Known(sample: seq<Option<real>>): seq<real> {
    if sample == [] then []
    else
      var n := |sample| - 1;
      Known(sample[..n]) + match sample[n] case Some(x) => (if x > 0.0 then [x] else []) case None => []
  }

  function Median(sample: seq<real>): real
    requires sample != []
  {
    var sorted := Sort(sample, (a: real, b: real) => a < b);
    SortMultiset(sample, (a: real, b: real) => a < b);
    var mid := |sorted| / 2;
    if |sorted| % 2 == 1 then sorted[mid] else (sorted[mid - 1] + sorted[mid]) / 2.0
  }

  /** The interval used at `idx`, and whether it is only inferred. */
  function InferInterval(intervals: seq<Option<real>>, idx: nat): (real, bool)
    requires idx < |intervals|
  {
    if intervals[idx].Some? && intervals[idx].value > 0.0 then (intervals[idx].value, false)
    else
      var sample := Known(intervals[MaxI(0, idx - 16)..idx + 1]);
      if sample != [] && Median(sample) > 0.0 then (Median(sample), true) else (8.0, true)
  }

  function BucketOfTime(t: int): int { t - t % BUCKET_SECS }

  /** The last rate of each 15-minute bucket, oldest bucket first. */
  function RatesByBucket(s: seq<FundingPoint>): seq<real> {
    if s == [] then []
    else
      var n := |s| - 1;
      var before := RatesByBucket(s[..n]);
      if n > 0 && before != [] && BucketOfTime(s[n].t) == BucketOfTime(s[n - 1].t)
      then before[..|before| - 1] + [s[n].ratePct]
      else before + [s[n].ratePct]
  }

  datatype Funding = Funding(
    ratePct: real, intervalHours: real, periodsPerDay: real, inferred: bool, secsToFunding: Option<int>,
    stabilityRates: seq<real>)

  const NO_FUNDING := Funding(0.0, 8.0, 3.0, true, None, [])

  /** The rates of the last three days up to the first `n` snapshots. */
  function StabilityRates(s: seq<FundingPoint>, ts: int, n: nat): seq<real>
    requires n <= |s|
  {
    var left := FundingBefore(s, ts - STABILITY_WINDOW_SECS);
    if left < n then RatesByBucket(s[left..n]) else []
  }

  function FundingSnapshot(s: seq<FundingPoint>, ts: int): Funding {
    var n := FundingUpTo(s, ts);
    if n == 0 then NO_FUNDING
    else
      var idx := n - 1;
      var (hours, inferred) := InferInterval(Intervals(s), idx);
      var raw := 24.0 / MaxR(hours, 0.000000001);
      var plausible := 1.0 <= raw <= 24.0;
      var rates := StabilityRates(s, ts, n);
      Funding(s[idx].ratePct, hours, if plausible then raw else 3.0, inferred || !plausible,
              match s[idx].next case Some(next) => (if next > ts then Some(next - ts) else None) case None => None,
              if rates == [] then [s[idx].ratePct] else rates)
  }

  // ----- The loading loops -----

  /** The interval column, filled in one pass over the snapshots. */
  method LoadIntervals(s: seq<FundingPoint>) returns (intervals: seq<Option<real>>)
    ensures intervals == Intervals(s)
  {
    intervals := [];
    var prevNext: Option<int>, lastKnown: Option<real> := None, None;
    for i := 0 to |s|
      invariant intervals == Intervals(s[..i]) && Carry(prevNext, lastKnown) == CarryAfter(s[..i])
    {
      assert s[..i + 1][..i] == s[..i];
      var next := s[i].next;
      if next.Some? && prevNext.Some? && next.value != prevNext.value {
        var hours := (next.value - prevNext.value) as real / 3600.0;
        if 0.5 <= hours <= 24.0 {
          lastKnown := Some(hours);
        }
      }
      intervals := intervals + [lastKnown];
      if next.Some? {
        prevNext := next;
      }
    }
    assert s[..|s|] == s;
  }

  /** The bucket start times from `start` to `end`: every 15 minutes, none skipped. */
  method IterBucketEpochs(start: int, end: int) returns (buckets: seq<int>)
    ensures forall i :: 0 <= i < |buckets| ==> buckets[i] == start + i * BUCKET_SECS <= end
    ensures start + |buckets| * BUCKET_SECS > end
  {
    buckets := [];
    var t := start;
    while t <= end
      invariant t == start + |buckets| * BUCKET_SECS
      invariant forall i :: 0 <= i < |buckets| ==> buckets[i] == start + i * BUCKET_SECS <= end
    {
      buckets := buckets + [t];
      t := t + BUCKET_SECS;
    }
  }

  // ----- Lookups never see the future -----

  lemma {:induction false} PricesUpToPast(s: seq<PricePoint>, ts: int, later: int)
    requires ts <= later
    ensures PricesUpTo(s, ts) == PricesUpTo(PastPrices(s, later), ts) <= PricesUpTo(s, later)
  {
    if s == [] || s[0].t > ts {
    } else {
      PricesUpToPast(s[1..], ts, later);
      assert PastPrices(s, later)[1..] == PastPrices(s[1..], later);
    }
  }

  /** A price lookup depends only on the points at or before its time. */
  lemma {:induction false} PriceFromPast(s: seq<PricePoint>, ts: int, later: int, maxAge: int)
    requires ts <= later
    ensures LatestPrice(s, ts, maxAge) == LatestPrice(PastPrices(s, later), ts, maxAge)
  {
    PricesUpToPast(s, ts, later);
  }

  lemma {:induction false} FundingUpToPast(s: seq<FundingPoint>, ts: int, later: int)
    requires ts <= later
    ensures FundingUpTo(s, ts) == FundingUpTo(PastFunding(s, later), ts) <= FundingUpTo(s, later)
  {
    if s == [] || s[0].t > ts {
    } else {
      FundingUpToPast(s[1..], ts, later);
      assert PastFunding(s, later)[1..] == PastFunding(s[1..], later);
    }
  }

  lemma {:induction false} FundingBeforePast(s: seq<FundingPoint>, ts: int, later: int)
    requires ts <= later
    ensures FundingBefore(s, ts) == FundingBefore(PastFunding(s, later), ts) <= FundingUpTo(s, later)
  {
    if s == [] || s[0].t >= ts {
    } else {
      FundingBeforePast(s[1..], ts, later);
      assert PastFunding(s, later)[1..] == PastFunding(s[1..], later);
    }
  }

  lemma {:induction false} IntervalsPrefix(s: seq<FundingPoint>, k: nat)
    requires k <= |s|
    ensures Intervals(s)[..k] == Intervals(s[..k])
  {
    if k == |s| {
      assert s[..k] == s;
    } else {
      IntervalsPrefix(s[..|s| - 1], k);
      assert s[..|s| - 1][..k] == s[..k];
    }
  }

  lemma {:induction false} InferFromPast(s: seq<FundingPoint>, k: nat, idx: nat)
    requires idx < k <= |s|
    ensures InferInterval(Intervals(s), idx) == InferInterval(Intervals(s[..k]), idx)
  {
    hide Intervals, Known, Median;
    IntervalsPrefix(s, k);
    var all, past := Intervals(s), Intervals(s[..k]);
    var lo := MaxI(0, idx - 16);
    assert past[idx] == all[..k][idx] == all[idx];
    assert all[..k][lo..idx + 1] == all[lo..idx + 1];
  }

  lemma {:induction false} StabilityFromPast(s: seq<FundingPoint>, ts: int, later: int)
    requires ts <= later
    ensures FundingUpTo(s, ts) <= |PastFunding(s, later)|
    ensures StabilityRates(s, ts, FundingUpTo(s, ts)) == StabilityRates(PastFunding(s, later), ts, FundingUpTo(s, ts))
  {
    FundingUpToPast(s, ts, later);
    FundingBeforePast(s, ts - STABILITY_WINDOW_SECS, later);
    var past, n := PastFunding(s, later), FundingUpTo(s, ts);
    hide FundingUpTo, FundingBefore, RatesByBucket;
    var left := FundingBefore(s, ts - STABILITY_WINDOW_SECS);
    if left < n {
      assert past[left..n] == s[left..n];
    }
  }

  /** So does a funding lookup, the interval inference and the stability window included. */
  lemma {:induction false} FundingFromPast(s: seq<FundingPoint>, ts: int, later: int)
    requires ts <= later
    ensures FundingSnapshot(s, ts) == FundingSnapshot(PastFunding(s, later), ts)
  {
    FundingUpToPast(s, ts, later);
    StabilityFromPast(s, ts, later);
    hide FundingUpTo, StabilityRates, InferInterval, Intervals;
    var n := FundingUpTo(s, ts);
    if n > 0 {
      InferFromPast(s, FundingUpTo(s, later), n - 1);
      assert PastFunding(s, later)[n - 1] == s[n - 1];
    }
  }

  // ----- The interval inference -----

  lemma {:induction false} KnownNone(sample: seq<Option<real>>)
    requires forall i :: 0 <= i < |sample| ==> sample[i].None?
    ensures Known(sample) == []
  {
    if sample != [] {
      KnownNone(sample[..|sample| - 1]);
    }
  }

  /** A known interval is carried forward and always plausible. */
  lemma {:induction false} IntervalsPersist(s: seq<FundingPoint>, i: nat, j: nat)
    requires i <= j < |s|
    ensures Intervals(s)[i].Some? ==> Intervals(s)[j].Some?
    ensures Intervals(s)[j].Some? ==> 0.5 <= Intervals(s)[j].value <= 24.0
  {
    var n := |s| - 1;
    if j < n {
      IntervalsPersist(s[..n], i, j);
    } else if n > 0 {
      IntervalsPersist(s[..n], if i < n then i else n - 1, n - 1);
      assert Intervals(s[..n])[n - 1] == CarryAfter(s[..n]).lastKnown;
    }
  }

  /** The median over the last 17 intervals is never reached: an interval is either known
      directly, or no earlier one is known and 8 hours is assumed. */
  lemma {:induction false} MedianIsNeverUsed(s: seq<FundingPoint>, idx: nat)
    requires idx < |s|
    ensures InferInterval(Intervals(s), idx) ==
      match Intervals(s)[idx] case Some(hours) => (hours, false) case None => (8.0, true)
  {
    IntervalsPersist(s, idx, idx);
    if Intervals(s)[idx].None? {
      var lo := MaxI(0, idx - 16);
      var sample := Intervals(s)[lo..idx + 1];
      forall i | 0 <= i < |sample| ensures sample[i].None? {
        IntervalsPersist(s, lo + i, idx);
      }
      KnownNone(sample);
    }
  }

  // ----- Agreement on the past, stated pointwise -----

  ghost predicate InOrder(s: seq<PricePoint>) { forall i, j :: 0 <= i < j < |s| ==> s[i].t <= s[j].t }

  ghost predicate FundingInOrder(s: seq<FundingPoint>) { forall i, j :: 0 <= i < j < |s| ==> s[i].t <= s[j].t }

  function KeepPrices(s: seq<PricePoint>, ts: int): seq<PricePoint> {
    if s == [] then [] else (if s[0].t <= ts then [s[0]] else []) + KeepPrices(s[1..], ts)
  }

  function KeepFunding(s: seq<FundingPoint>, ts: int): seq<FundingPoint> {
    if s == [] then [] else (if s[0].t <= ts then [s[0]] else []) + KeepFunding(s[1..], ts)
  }

  /** In time order, the points at or before `ts` are the leading ones. */
  lemma {:induction false} PastIsKept(s: seq<PricePoint>, ts: int)
    requires InOrder(s)
    ensures PastPrices(s, ts) == KeepPrices(s, ts)
  {
    if s == [] {
    } else if s[0].t <= ts {
      PastIsKept(s[1..], ts);
    } else {
      assert KeepPrices(s, ts) == KeepPrices(s[1..], ts);
      PastIsKept(s[1..], ts);
    }
  }

  lemma {:induction false} PastFundingIsKept(s: seq<FundingPoint>, ts: int)
    requires FundingInOrder(s)
    ensures PastFunding(s, ts) == KeepFunding(s, ts)
  {
    if s == [] {
    } else if s[0].t <= ts {
      PastFundingIsKept(s[1..], ts);
    } else {
      assert KeepFunding(s, ts) == KeepFunding(s[1..], ts);
      PastFundingIsKept(s[1..], ts);
    }
  }
}
