/** The simulator never uses a price, a funding snapshot or a universe of the future. */
module NoLookAhead {
  import opened Arith
  import opened MarketData
  import opened Backtest
  import DeltaPlan

  function StoredPrices(w: World, k: PriceKey): seq<PricePoint> { if k in w.prices then w.prices[k] else [] }

  function StoredFunding(w: World, k: FundKey): seq<FundingPoint> { if k in w.funding then w.funding[k] else [] }

  /** Stored rows come in time order. */
  ghost predicate Ordered(w: World) {
    && (forall k: PriceKey :: InOrder(StoredPrices(w, k)))
    && (forall k: FundKey :: FundingInOrder(StoredFunding(w, k)))
  }

  /** The two worlds hold the same points at or before `t`, and the same universes up to that day.
      Later points, later days, and which series exist at all may differ. */
  ghost predicate AgreeUpTo(w1: World, w2: World, t: int) {
    && (forall k: PriceKey :: KeepPrices(StoredPrices(w1, k), t) == KeepPrices(StoredPrices(w2, k), t))
    && (forall k: FundKey :: KeepFunding(StoredFunding(w1, k), t) == KeepFunding(StoredFunding(w2, k), t))
    && (forall d: int :: d <= Day(t) ==>
          (d in w1.universe <==> d in w2.universe) && (d in w1.universe ==> w1.universe[d] == w2.universe[d]))
  }

  /** The pair occurs in a universe of day `Day(t)` or before. */
  ghost predicate Listed(w: World, t: int, symbol: string, spotSymbol: string, perpEx: int, spotEx: int) {
    exists d, u :: d in w.universe && d <= Day(t) && u in w.universe[d]
      && u.symbol == symbol && u.spotSymbol == spotSymbol && u.perpEx == perpEx && u.spotEx == spotEx
  }

  ghost predicate AllListed(w: World, t: int, ps: seq<Position>) {
    forall p :: p in ps ==> Listed(w, t, p.symbol, p.spotSymbol, p.perpEx, p.spotEx)
  }

  // ----- Lookups -----

  lemma {:induction false} ListedIsLoaded(w: World, t: int, symbol: string, spotSymbol: string, perpEx: int,
                                          spotEx: int)
    requires Listed(w, t, symbol, spotSymbol, perpEx, spotEx)
    ensures PriceLoaded(w, PriceKey(perpEx, symbol, true)) && PriceLoaded(w, PriceKey(spotEx, spotSymbol, false))
  {
    var d, u :| d in w.universe && d <= Day(t) && u in w.universe[d]
      && u.symbol == symbol && u.spotSymbol == spotSymbol && u.perpEx == perpEx && u.spotEx == spotEx;
    assert PerpKey(u) == PriceKey(perpEx, symbol, true) && SpotKey(u) == PriceKey(spotEx, spotSymbol, false);
    assert Mentions(w.universe[d], PerpKey(u)) && Mentions(w.universe[d], SpotKey(u));
  }

  lemma {:induction false} ListedInBoth(w1: World, w2: World, t: int, symbol: string, spotSymbol: string, perpEx: int,
                                        spotEx: int)
    requires AgreeUpTo(w1, w2, t) && Listed(w1, t, symbol, spotSymbol, perpEx, spotEx)
    ensures Listed(w2, t, symbol, spotSymbol, perpEx, spotEx)
  {
    var d, u :| d in w1.universe && d <= Day(t) && u in w1.universe[d]
      && u.symbol == symbol && u.spotSymbol == spotSymbol && u.perpEx == perpEx && u.spotEx == spotEx;
    assert d in w2.universe && u in w2.universe[d];
  }

  lemma {:induction false} SamePrice(w1: World, w2: World, t: int, k: PriceKey, ts: int, maxAge: int)
    requires Ordered(w1) && Ordered(w2) && AgreeUpTo(w1, w2, t) && ts <= t
    requires PriceLoaded(w1, k) && PriceLoaded(w2, k)
    ensures LatestPrice(PriceSeries(w1, k), ts, maxAge) == LatestPrice(PriceSeries(w2, k), ts, maxAge)
  {
    var a, b := StoredPrices(w1, k), StoredPrices(w2, k);
    assert PriceSeries(w1, k) == a && PriceSeries(w2, k) == b;
    PastIsKept(a, t);
    PastIsKept(b, t);
    PriceFromPast(a, ts, t, maxAge);
    PriceFromPast(b, ts, t, maxAge);
  }

  lemma {:induction false} SameFunding(w1: World, w2: World, t: int, k: FundKey, ts: int)
    requires Ordered(w1) && Ordered(w2) && AgreeUpTo(w1, w2, t) && ts <= t
    requires PriceLoaded(w1, PriceKey(k.ex, k.symbol, true)) && PriceLoaded(w2, PriceKey(k.ex, k.symbol, true))
    ensures FundingSnapshot(FundingSeries(w1, k), ts) == FundingSnapshot(FundingSeries(w2, k), ts)
  {
    var a, b := StoredFunding(w1, k), StoredFunding(w2, k);
    assert FundingSeries(w1, k) == a && FundingSeries(w2, k) == b;
    PastFundingIsKept(a, t);
    PastFundingIsKept(b, t);
    FundingFromPast(a, ts, t);
    FundingFromPast(b, ts, t);
  }

  /** For a listed pair every lookup of a bucket at or before `t` gives the same answer. */
  lemma {:induction false} SameLookups(w1: World, w2: World, t: int, symbol: string, spotSymbol: string, perpEx: int,
                                       spotEx: int,
                                       ts: int, ages: int)
    requires Ordered(w1) && Ordered(w2) && AgreeUpTo(w1, w2, t) && ts <= t
    requires Listed(w1, t, symbol, spotSymbol, perpEx, spotEx)
    ensures PerpPrice(w1, perpEx, symbol, ts, ages) == PerpPrice(w2, perpEx, symbol, ts, ages)
    ensures SpotPrice(w1, spotEx, spotSymbol, ts, ages) == SpotPrice(w2, spotEx, spotSymbol, ts, ages)
    ensures FundingSnapshot(FundingSeries(w1, FundKey(perpEx, symbol)), ts)
         == FundingSnapshot(FundingSeries(w2, FundKey(perpEx, symbol)), ts)
  {
    ListedInBoth(w1, w2, t, symbol, spotSymbol, perpEx, spotEx);
    ListedIsLoaded(w1, t, symbol, spotSymbol, perpEx, spotEx);
    ListedIsLoaded(w2, t, symbol, spotSymbol, perpEx, spotEx);
    SamePrice(w1, w2, t, PriceKey(perpEx, symbol, true), ts, BUCKET_SECS * ages);
    SamePrice(w1, w2, t, PriceKey(spotEx, spotSymbol, false), ts, BUCKET_SECS * ages);
    SameFunding(w1, w2, t, FundKey(perpEx, symbol), ts);
  }

  // ----- Marking -----

  lemma {:induction false} SameMarks(w1: World, w2: World, t: int, ps: seq<Position>, ts: int)
    requires Ordered(w1) && Ordered(w2) && AgreeUpTo(w1, w2, t) && ts <= t && AllListed(w1, t, ps)
    ensures MarkedPositions(w1, ps, ts) == MarkedPositions(w2, ps, ts)
    ensures BasisGain(w1, ps, ts) == BasisGain(w2, ps, ts) && FundingGain(w1, ps, ts) == FundingGain(w2, ps, ts)
    ensures AllListed(w1, t, MarkedPositions(w1, ps, ts))
  {
    if ps != [] {
      var n := |ps| - 1;
      var p := ps[n];
      SameMarks(w1, w2, t, ps[..n], ts);
      assert p in ps;
      SameLookups(w1, w2, t, p.symbol, p.spotSymbol, p.perpEx, p.spotEx, ts, 4);
    }
  }

  lemma {:induction false} RemoveSubset(ps: seq<Position>, id: int)
    ensures forall p :: p in Remove(ps, id) ==> p in ps
  {
    if ps != [] {
      RemoveSubset(ps[1..], id);
    }
  }

  lemma {:induction false} CloseSubset(s: State, ids: seq<int>, action: Action, ts: int)
    ensures forall p :: p in CloseMany(s, ids, action, ts).positions ==> p in s.positions
  {
    if ids != [] {
      CloseSubset(s, ids[..|ids| - 1], action, ts);
      RemoveSubset(CloseMany(s, ids[..|ids| - 1], action, ts).positions, ids[|ids| - 1]);
    }
  }

  // ----- Rows -----

  ghost predicate RowsListed(w: World, t: int, rows: seq<Scored>) {
    forall x :: x in rows ==> Listed(w, t, x.row.symbol, x.row.spotSymbol, x.row.perpEx, x.row.spotEx)
  }

  lemma {:induction false} SameRow(w1: World, w2: World, t: int, mod: Model, u: UniRow, ts: int)
    requires Ordered(w1) && Ordered(w2) && AgreeUpTo(w1, w2, t) && ts <= t
    requires Listed(w1, t, u.symbol, u.spotSymbol, u.perpEx, u.spotEx)
    ensures RowFor(w1, mod, u, ts) == RowFor(w2, mod, u, ts)
    ensures RowFor(w1, mod, u, ts).Some? ==> var r := RowFor(w1, mod, u, ts).value;
      Listed(w1, t, r.symbol, r.spotSymbol, r.perpEx, r.spotEx)
  {
    SameLookups(w1, w2, t, u.symbol, u.spotSymbol, u.perpEx, u.spotEx, ts, 3);
  }

  lemma {:induction false} SameRows(w1: World, w2: World, t: int, mod: Model, us: seq<UniRow>, nav: real, ts: int)
    requires Ordered(w1) && Ordered(w2) && AgreeUpTo(w1, w2, t) && ts <= t
    requires forall i :: 0 <= i < |us| ==> Listed(w1, t, us[i].symbol, us[i].spotSymbol, us[i].perpEx, us[i].spotEx)
    ensures RowsFor(w1, mod, us, nav, ts) == RowsFor(w2, mod, us, nav, ts)
    ensures RowsListed(w1, t, RowsFor(w1, mod, us, nav, ts))
  {
    if us != [] {
      var n := |us| - 1;
      SameRows(w1, w2, t, mod, us[..n], nav, ts);
      SameRow(w1, w2, t, mod, us[n], ts);
    }
  }

  lemma {:induction false} SameDayRows(w1: World, w2: World, t: int, ts: int)
    requires AgreeUpTo(w1, w2, t) && ts <= t
    ensures DayRows(w1, ts) == DayRows(w2, ts)
    ensures forall u :: u in DayRows(w1, ts) ==> Listed(w1, t, u.symbol, u.spotSymbol, u.perpEx, u.spotEx)
  {
    assert Day(ts) <= Day(t);
  }

  lemma {:induction false} FoundRowIsListed(rows: seq<Scored>, id: string)
    ensures FindRow(rows, id).Some? ==> FindRow(rows, id).value in rows
  {
    if rows != [] {
      FoundRowIsListed(rows[..|rows| - 1], id);
    }
  }

  lemma {:induction false} OpensAreListed(w: World, t: int, s: State, rows: seq<Scored>, os: seq<DeltaPlan.OpenItem>,
                                          ts: int)
    requires AllListed(w, t, s.positions) && RowsListed(w, t, rows)
    ensures AllListed(w, t, OpenMany(s, rows, os, ts).positions)
  {
    if os != [] {
      var n := |os| - 1;
      OpensAreListed(w, t, s, rows, os[..n], ts);
      FoundRowIsListed(rows, os[n].rowId);
    }
  }

  // ----- Buckets and runs -----

  lemma {:induction false} SameMarking(w1: World, w2: World, t: int, p: Params, s: State, ts: int)
    requires Ordered(w1) && Ordered(w2) && AgreeUpTo(w1, w2, t) && ts <= t && AllListed(w1, t, s.positions)
    ensures AfterMark(w1, p, s, ts) == AfterMark(w2, p, s, ts)
    ensures AllListed(w1, t, AfterMark(w1, p, s, ts).positions)
  {
    SameMarks(w1, w2, t, s.positions, ts);
    hide MarkedPositions, BasisGain, FundingGain, AgreeUpTo, Ordered, CloseMany, StaleIds, Listed;
    var marked := Mark(w1, s, ts);
    assert marked == Mark(w2, s, ts);
    hide Mark;
    CloseSubset(marked, StaleIds(marked.positions, p.staleMax), ForceCloseStale, ts);
  }

  lemma {:induction false} SameCandidates(w1: World, w2: World, t: int, mod: Model, nav: real, ts: int)
    requires Ordered(w1) && Ordered(w2) && AgreeUpTo(w1, w2, t) && ts <= t
    ensures RowsFor(w1, mod, DayRows(w1, ts), nav, ts) == RowsFor(w2, mod, DayRows(w2, ts), nav, ts)
    ensures RowsListed(w1, t, RowsFor(w1, mod, DayRows(w1, ts), nav, ts))
  {
    SameDayRows(w1, w2, t, ts);
    SameRows(w1, w2, t, mod, DayRows(w1, ts), nav, ts);
  }

  lemma {:induction false} CountKeepsPositions(s: State, d: Decision, ts: int)
    ensures Count(s, d, ts).positions == s.positions
  {}

  /** What follows a decision opens listed pairs only. */
  lemma {:induction false} ConcludeKeepsListed(w: World, t: int, p: Params, s: State, d: Decision, ts: int)
    requires AllListed(w, t, s.positions) && RowsListed(w, t, d.rows)
    ensures AllListed(w, t, Conclude(p, s, d, ts).positions)
  {
    hide Count, CloseMany, OpenMany, RiskCheck, Listed, FingerprintOf;
    CountKeepsPositions(s, d, ts);
    var counted := Count(s, d, ts);
    var fewer := CloseMany(counted.(rebalances := counted.rebalances + 1), ClosedBy(d.plan.closes), Close, ts);
    CloseSubset(counted.(rebalances := counted.rebalances + 1), ClosedBy(d.plan.closes), Close, ts);
    OpensAreListed(w, t, fewer, d.rows, d.plan.opens, ts);
    RiskKeepsListed(w, t, p, Rebalanced(p, s, d, ts), ts);
  }

  lemma {:induction false} RiskKeepsListed(w: World, t: int, p: Params, s: State, ts: int)
    requires AllListed(w, t, s.positions)
    ensures AllListed(w, t, RiskCheck(p, s, ts).positions)
  {
    var noted := NotePeak(s);
    CloseSubset(noted.(halted := true, hardStops := noted.hardStops + 1), PositionIds(noted.positions),
                ForceCloseDrawdown, ts);
  }

  lemma {:induction false} SameDecision(w1: World, w2: World, t: int, p: Params, mod: Model, s: State, ts: int)
    requires Ordered(w1) && Ordered(w2) && AgreeUpTo(w1, w2, t) && ts <= t
    ensures Decide(w1, p, mod, s, ts) == Decide(w2, p, mod, s, ts)
    ensures RowsListed(w1, t, Decide(w1, p, mod, s, ts).rows)
  {
    SameCandidates(w1, w2, t, mod, MaxR(0.0, s.equity), ts);
  }

  lemma {:induction false} SameStep(w1: World, w2: World, t: int, p: Params, mod: Model, s: State, ts: int)
    requires Ordered(w1) && Ordered(w2) && AgreeUpTo(w1, w2, t) && ts <= t && AllListed(w1, t, s.positions)
    ensures Step(w1, p, mod, s, ts) == Step(w2, p, mod, s, ts)
    ensures AllListed(w1, t, Step(w1, p, mod, s, ts).positions)
  {
    SameMarking(w1, w2, t, p, s, ts);
    var marked := AfterMark(w1, p, s, ts);
    SameDecision(w1, w2, t, p, mod, marked, ts);
    ConcludeKeepsListed(w1, t, p, marked, Decide(w1, p, mod, marked, ts), ts);
  }

  /** No look-ahead: two worlds that agree on everything at or before `t` give the same simulator
      state (positions, equity, counters, events and curve) after any buckets at or before `t`. */
  lemma {:induction false} RunSeesOnlyThePast(w1: World, w2: World, t: int, p: Params, mod: Model, buckets: seq<int>)
    requires Ordered(w1) && Ordered(w2) && AgreeUpTo(w1, w2, t) && forall i :: 0 <= i < |buckets| ==> buckets[i] <= t
    ensures Run(w1, p, mod, buckets) == Run(w2, p, mod, buckets)
    ensures AllListed(w1, t, Run(w1, p, mod, buckets).positions)
  {
    hide Step;
    if buckets != [] {
      var n := |buckets| - 1;
      RunSeesOnlyThePast(w1, w2, t, p, mod, buckets[..n]);
      SameStep(w1, w2, t, p, mod, Run(w1, p, mod, buckets[..n]), buckets[n]);
    }
  }

  lemma {:induction false} CloseKeepsCurve(s: State, ids: seq<int>, action: Action, ts: int)
    ensures CloseMany(s, ids, action, ts).curve == s.curve
  {
    if ids != [] {
      CloseKeepsCurve(s, ids[..|ids| - 1], action, ts);
    }
  }

  lemma {:induction false} OpenKeepsCurve(s: State, rows: seq<Scored>, os: seq<DeltaPlan.OpenItem>, ts: int)
    ensures OpenMany(s, rows, os, ts).curve == s.curve
  {
    if os != [] {
      OpenKeepsCurve(s, rows, os[..|os| - 1], ts);
    }
  }

  lemma {:induction false} ConcludeExtendsCurve(p: Params, s: State, d: Decision, ts: int)
    ensures |Conclude(p, s, d, ts).curve| == |s.curve| + 1
    ensures Conclude(p, s, d, ts).curve[..|s.curve|] == s.curve
  {
    var counted := Count(s, d, ts);
    var more := counted.(rebalances := counted.rebalances + 1);
    CloseKeepsCurve(more, ClosedBy(d.plan.closes), Close, ts);
    OpenKeepsCurve(CloseMany(more, ClosedBy(d.plan.closes), Close, ts), d.rows, d.plan.opens, ts);
    var noted := NotePeak(Rebalanced(p, s, d, ts));
    CloseKeepsCurve(noted.(halted := true, hardStops := noted.hardStops + 1), PositionIds(noted.positions),
                    ForceCloseDrawdown, ts);
  }

  /** Each bucket adds one sample and rewrites none. */
  lemma {:induction false} StepExtendsCurve(w: World, p: Params, mod: Model, s: State, ts: int)
    ensures |Step(w, p, mod, s, ts).curve| == |s.curve| + 1
    ensures Step(w, p, mod, s, ts).curve[..|s.curve|] == s.curve
  {
    var marked := Mark(w, s, ts);
    CloseKeepsCurve(marked, StaleIds(marked.positions, p.staleMax), ForceCloseStale, ts);
    var after := AfterMark(w, p, s, ts);
    ConcludeExtendsCurve(p, after, Decide(w, p, mod, after, ts), ts);
  }

  /** A chain of lists, each extending the one before by one element. */
  lemma {:induction false} ChainPrefix(c: int -> seq<Sample>, k: nat, n: nat)
    requires k <= n && c(0) == []
    requires forall i :: 0 <= i < n ==> |c(i + 1)| == |c(i)| + 1 && c(i + 1)[..|c(i)|] == c(i)
    ensures |c(n)| == n && |c(k)| == k && c(n)[..k] == c(k)
  {
    if n == 0 {
    } else if k == n {
      ChainPrefix(c, n - 1, n - 1);
      assert |c(n - 1 + 1)| == |c(n - 1)| + 1;
    } else {
      ChainPrefix(c, k, n - 1);
      assert |c(n - 1 + 1)| == |c(n - 1)| + 1 && c(n - 1 + 1)[..|c(n - 1)|] == c(n - 1);
      assert c(n)[..k] == c(n)[..n - 1][..k];
    }
  }

  lemma {:induction false} CurveOfPrefix(w: World, p: Params, mod: Model, buckets: seq<int>, k: nat)
    requires k <= |buckets|
    ensures |Run(w, p, mod, buckets).curve| == |buckets|
    ensures Run(w, p, mod, buckets).curve[..k] == Run(w, p, mod, buckets[..k]).curve
  {
    hide Step;
    var c := (i: int) => if 0 <= i <= |buckets| then Run(w, p, mod, buckets[..i]).curve else [];
    forall i | 0 <= i < |buckets| ensures |c(i + 1)| == |c(i)| + 1 && c(i + 1)[..|c(i)|] == c(i) {
      assert buckets[..i + 1][..i] == buckets[..i];
      StepExtendsCurve(w, p, mod, Run(w, p, mod, buckets[..i]), buckets[i]);
    }
    ChainPrefix(c, k, |buckets|);
    assert buckets[..|buckets|] == buckets;
  }

  /** Hence the published equity curves of the two complete backtests coincide up to `t`, whatever
      comes later in either world. */
  lemma {:induction false} PublishedCurvesAgree(w1: World, w2: World, t: int, p: Params, mod: Model, buckets: seq<int>,
                                                k: nat)
    requires Ordered(w1) && Ordered(w2) && AgreeUpTo(w1, w2, t)
    requires k <= |buckets| && buckets != [] && forall i :: 0 <= i < k ==> buckets[i] <= t
    ensures |Backtested(w1, p, mod, buckets).curve| == |Backtested(w2, p, mod, buckets).curve| == |buckets|
    ensures Backtested(w1, p, mod, buckets).curve[..k] == Backtested(w2, p, mod, buckets).curve[..k]
  {
    hide Run, AgreeUpTo, Ordered;
    CurveOfPrefix(w1, p, mod, buckets, k);
    CurveOfPrefix(w2, p, mod, buckets, k);
    RunSeesOnlyThePast(w1, w2, t, p, mod, buckets[..k]);
    var last := buckets[|buckets| - 1];
    var a, b := Run(w1, p, mod, buckets), Run(w2, p, mod, buckets);
    CloseKeepsCurve(a, PositionIds(a.positions), CloseEnd, last);
    CloseKeepsCurve(b, PositionIds(b.positions), CloseEnd, last);
  }
}
