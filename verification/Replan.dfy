/** What a rebalance plan does to the portfolio: which pairs it closes, where it
    lands, and that planning again afterwards changes nothing. */
module Replan {
  import opened Sorting
  import opened PairRows
  import opened KeepSubset
  import opened DeltaPlan

  /** Strategy ids are database keys: no two rows share one. */
  ghost predicate DistinctIds(rows: seq<PairRow>) {
    forall i, j :: 0 <= i < j < |rows| ==> rows[i].strategyId != rows[j].strategyId
  }

  ghost predicate DistinctTargets(targets: seq<Target>) {
    forall i, j :: 0 <= i < j < |targets| && Effective(targets[i]) && Effective(targets[j]) ==>
      targets[i].rowId != targets[j].rowId
  }

  ghost function ClosedIds(closes: seq<CloseItem>): set<int> { set c | c in closes :: c.strategyId }

  function DroppedOf(current: seq<PairRow>, t: Target): seq<PairRow> {
    var bucket := BucketOf(current, t.rowId);
    Dropped(bucket, KeepBits(bucket, t.cents))
  }

  // ----- Buckets as multisets -----

  lemma {:induction false} BucketCounts(current: seq<PairRow>, id: string, x: PairRow)
    ensures multiset(BucketOf(current, id))[x] == if x.rowId == id then multiset(current)[x] else 0
    ensures |BucketOf(current, id)| <= |current|
  {
    FilterMultiset(current, HasId(id), x);
    SortMultiset(RowsOf(current, id), LargerRow);
  }

  lemma {:induction false} InBucket(current: seq<PairRow>, id: string, x: PairRow)
    ensures x in BucketOf(current, id) <==> x in current && x.rowId == id
  {
    BucketCounts(current, id, x);
    assert x in current <==> x in multiset(current);
    assert x in BucketOf(current, id) <==> x in multiset(BucketOf(current, id));
  }

  /** Within a bucket too, a strategy id names one row. */
  lemma {:induction false} BucketDistinct(current: seq<PairRow>, id: string)
    requires DistinctIds(current)
    ensures DistinctIds(BucketOf(current, id))
  {
    var b := BucketOf(current, id);
    forall i, j | 0 <= i < j < |b| ensures b[i].strategyId != b[j].strategyId {
      InBucket(current, id, b[i]);
      InBucket(current, id, b[j]);
      if b[i] == b[j] {
        CountTwice(b, i, j);
        BucketCounts(current, id, b[i]);
        DistinctCounts(current, b[i]);
      }
    }
  }

  // ----- Which pairs are closed -----

  ghost predicate SizedIn(rows: seq<PairRow>, sid: int) {
    exists r :: r in rows && r.cents > 0 && r.strategyId == sid
  }

  lemma {:induction false} ClosesOfIds(rows: seq<PairRow>, reason: CloseReason, sid: int)
    ensures sid in ClosedIds(ClosesOf(rows, reason)) <==> SizedIn(rows, sid)
  {
    if rows == [] {
    } else {
      var n := |rows| - 1;
      var x := rows[n];
      ClosesOfIds(rows[..n], reason, sid);
      assert rows == rows[..n] + [x];
      var c := ClosesOf(rows[..n], reason);
      if x.cents > 0 {
        ClosedIdsConcat(c, [CloseItem(x.strategyId, x.rowId, x.cents, x.feePct, x.holdDays, x.legRisk, reason)]);
      } else {
        assert c + [] == c;
      }
    }
  }

  lemma {:induction false} ClosedIdsConcat(a: seq<CloseItem>, b: seq<CloseItem>)
    ensures ClosedIds(a + b) == ClosedIds(a) + ClosedIds(b)
  {}

  ghost predicate DroppedByTarget(current: seq<PairRow>, targets: seq<Target>, sid: int) {
    exists t :: t in targets && Effective(t) && SizedIn(DroppedOf(current, t), sid)
  }

  lemma {:induction false} TargetClosedIds(current: seq<PairRow>, targets: seq<Target>, minTopUp: real, sid: int)
    requires minTopUp >= 0.0 && DistinctTargets(targets)
    ensures sid in ClosedIds(ProcessTargets(current, targets, minTopUp).closes)
       <==> DroppedByTarget(current, targets, sid)
  {
    if targets == [] {
    } else {
      var n := |targets| - 1;
      var t := targets[n];
      var before := targets[..n];
      assert targets == before + [t];
      TargetClosedIds(current, before, minTopUp, sid);
      if Effective(t) {
        assert t.rowId !in Popped(before);
        ClosesOfIds(DroppedOf(current, t), ExcessOverTarget, sid);
        ClosedIdsConcat(ProcessTargets(current, before, minTopUp).closes,
                        ClosesOf(DroppedOf(current, t), ExcessOverTarget));
      }
    }
  }

  lemma {:induction false} LeftoverClosedIds(current: seq<PairRow>, keys: seq<string>, popped: set<string>, sid: int)
    ensures sid in ClosedIds(Leftovers(current, keys, popped)) <==>
      exists r :: r in current && r.cents > 0 && r.strategyId == sid && r.rowId in keys && r.rowId !in popped
  {
    if keys == [] {
    } else {
      var n := |keys| - 1;
      LeftoverClosedIds(current, keys[..n], popped, sid);
      assert keys == keys[..n] + [keys[n]];
      if keys[n] !in popped {
        BucketClosedIds(current, keys[n], sid);
        ClosedIdsConcat(Leftovers(current, keys[..n], popped), ClosesOf(BucketOf(current, keys[n]), NotInTarget));
      }
      hide ClosedIds, ClosesOf, BucketOf;
    }
  }

  lemma {:induction false} BucketClosedIds(current: seq<PairRow>, key: string, sid: int)
    ensures sid in ClosedIds(ClosesOf(BucketOf(current, key), NotInTarget)) <==>
      exists r :: r in current && r.cents > 0 && r.strategyId == sid && r.rowId == key
  {
    var b := BucketOf(current, key);
    ClosesOfIds(b, NotInTarget, sid);
    hide ClosedIds, ClosesOf, BucketOf;
    forall r ensures r in b <==> r in current && r.rowId == key {
      InBucket(current, key, r);
    }
  }

  lemma {:induction false} KeysCoverRows(current: seq<PairRow>)
    ensures forall r :: r in current ==> r.rowId in KeyOrder(current)
  {
    if current == [] {
    } else {
      var n := |current| - 1;
      KeysCoverRows(current[..n]);
      assert current == current[..n] + [current[n]];
    }
  }

  lemma {:induction false} InDroppedOf(current: seq<PairRow>, t: Target, r: PairRow)
    requires r in DroppedOf(current, t)
    ensures r in current && r.rowId == t.rowId
  {
    var b := BucketOf(current, t.rowId);
    InDropped(b, KeepBits(b, t.cents), r);
    InBucket(current, t.rowId, r);
  }

  /** A pair with any size is closed exactly when no target names its row id, or the subset
      choice for that target dropped it. */
  lemma {:induction false} ClosedExactly(current: seq<PairRow>, targets: seq<Target>, minPairUsd: real, x: PairRow)
    requires DistinctIds(current) && DistinctTargets(targets)
    requires x in current
    ensures x.strategyId in ClosedIds(BuildPlan(current, targets, minPairUsd).closes) <==>
      x.cents > 0 && (forall t :: t in targets && Effective(t) && t.rowId == x.rowId ==> x in DroppedOf(current, t))
  {
    var minTopUp, sid := MinTopUp(minPairUsd), x.strategyId;
    var plan := ProcessTargets(current, targets, minTopUp);
    var left := Leftovers(current, KeyOrder(current), Popped(targets));
    ClosedIdsConcat(plan.closes, left);
    TargetClosedIds(current, targets, minTopUp, sid);
    LeftoverClosedIds(current, KeyOrder(current), Popped(targets), sid);
    KeysCoverRows(current);
    assert sid in ClosedIds(left) <==> x.cents > 0 && x.rowId !in Popped(targets);
    DroppedByTargetExactly(current, targets, x);
  }

  lemma {:induction false} SizedInDropped(current: seq<PairRow>, t: Target, x: PairRow)
    requires DistinctIds(current) && x in current
    ensures SizedIn(DroppedOf(current, t), x.strategyId) <==> x.cents > 0 && x in DroppedOf(current, t)
  {
    var d := DroppedOf(current, t);
    if SizedIn(d, x.strategyId) {
      var r :| r in d && r.cents > 0 && r.strategyId == x.strategyId;
      InDroppedOf(current, t, r);
      assert r == x;
    }
  }

  lemma {:induction false} DroppedByTargetExactly(current: seq<PairRow>, targets: seq<Target>, x: PairRow)
    requires DistinctIds(current) && x in current
    ensures DroppedByTarget(current, targets, x.strategyId) <==>
      x.cents > 0 && exists t :: t in targets && Effective(t) && t.rowId == x.rowId && x in DroppedOf(current, t)
  {
    forall t ensures SizedIn(DroppedOf(current, t), x.strategyId) <==> x.cents > 0 && x in DroppedOf(current, t) {
      SizedInDropped(current, t, x);
    }
    forall t | x in DroppedOf(current, t) ensures x.rowId == t.rowId {
      InDroppedOf(current, t, x);
    }
  }

  // ----- Where the plan lands -----

  lemma {:induction false} OpensOfId(current: seq<PairRow>, targets: seq<Target>, minTopUp: real, i: nat)
    requires minTopUp >= 0.0 && DistinctTargets(targets)
    requires i < |ProcessTargets(current, targets, minTopUp).opens|
    ensures ProcessTargets(current, targets, minTopUp).opens[i].rowId in Popped(targets)
  {
    var n := |targets| - 1;
    assert targets[..n + 1] == targets;
    PoppedSnoc(targets, n);
    OpensSnoc(current, targets, minTopUp);
    hide ProcessTargets, Popped, OpensFor, TakeBucket;
    if i < |ProcessTargets(current, targets[..n], minTopUp).opens| {
      OpensOfId(current, targets[..n], minTopUp, i);
    }
  }

  lemma {:induction false} OpensSnoc(current: seq<PairRow>, targets: seq<Target>, minTopUp: real)
    requires minTopUp >= 0.0 && targets != []
    ensures var (n, t) := (|targets| - 1, targets[|targets| - 1]);
      var more := OpensFor(TakeBucket(current, Popped(targets[..n]), t.rowId), t, minTopUp);
      && ProcessTargets(current, targets, minTopUp).opens
         == ProcessTargets(current, targets[..n], minTopUp).opens + (if Effective(t) then more else [])
      && forall i :: 0 <= i < |more| ==> more[i].rowId == t.rowId
  {
    hide KeepSum, KeepBits, Kept, Dropped, ClosesOf, Popped;
  }

  /** The sizes opened for one row id. */
  function OpensOf(opens: seq<OpenItem>, id: string): seq<OpenItem> {
    if opens == [] then []
    else
      var n := |opens| - 1;
      OpensOf(opens[..n], id) + if opens[n].rowId == id then [opens[n]] else []
  }

  lemma {:induction false} NoOpensOf(opens: seq<OpenItem>, id: string)
    requires forall i :: 0 <= i < |opens| ==> opens[i].rowId != id
    ensures OpensOf(opens, id) == []
  {
    if opens != [] {
      NoOpensOf(opens[..|opens| - 1], id);
    }
  }

  /** Each target gets its own gap opened, at most once, when the gap is worth it. */
  lemma {:induction false} OpensForTarget(current: seq<PairRow>, targets: seq<Target>, minTopUp: real, t: Target)
    requires minTopUp >= 0.0 && DistinctTargets(targets) && t in targets && Effective(t)
    ensures OpensOf(ProcessTargets(current, targets, minTopUp).opens, t.rowId)
         == OpensFor(BucketOf(current, t.rowId), t, minTopUp)
  {
    var n := |targets| - 1;
    var before, last := targets[..n], targets[n];
    assert targets == before + [last];
    var opens := ProcessTargets(current, before, minTopUp).opens;
    if last == t {
      assert t.rowId !in Popped(before);
      forall i | 0 <= i < |opens| ensures opens[i].rowId != t.rowId {
        OpensOfId(current, before, minTopUp, i);
      }
      NoOpensOf(opens, t.rowId);
      OpensOfGap(opens, BucketOf(current, t.rowId), t, minTopUp, t.rowId);
    } else {
      OpensForTarget(current, before, minTopUp, t);
      if Effective(last) {
        OpensOfGap(opens, TakeBucket(current, Popped(before), last.rowId), last, minTopUp, t.rowId);
      }
    }
  }

  lemma {:induction false} OpensOfGap(opens: seq<OpenItem>, bucket: seq<PairRow>, t: Target, minTopUp: real, id: string)
    requires minTopUp >= 0.0
    ensures var more := OpensFor(bucket, t, minTopUp);
      OpensOf(opens + more, id) == OpensOf(opens, id) + if t.rowId == id then more else []
  {
    hide KeepSum, Kept, KeepBits;
    var more := OpensFor(bucket, t, minTopUp);
    if more == [] {
      assert opens + more == opens;
    } else {
      assert (opens + more)[..|opens|] == opens;
    }
  }

  ghost predicate Opened(rows: seq<PairRow>, opens: seq<OpenItem>) {
    && |rows| == |opens|
    && forall i :: 0 <= i < |rows| ==> rows[i].rowId == opens[i].rowId && rows[i].cents == opens[i].cents
  }

  lemma {:induction false} OpenedTotal(rows: seq<PairRow>, opens: seq<OpenItem>, id: string)
    requires Opened(rows, opens)
    ensures |RowsOf(rows, id)| == |OpensOf(opens, id)|
    ensures |OpensOf(opens, id)| == 1 ==> Total(RowsOf(rows, id)) == OpensOf(opens, id)[0].cents
  {
    if rows == [] {
    } else {
      var n := |rows| - 1;
      OpenedTotal(rows[..n], opens[..n], id);
      TotalSnoc(RowsOf(rows[..n], id), rows[n]);
      assert RowsOf(rows[..n], id) + [] == RowsOf(rows[..n], id);
      assert OpensOf(opens[..n], id) + [] == OpensOf(opens[..n], id);
    }
  }

  function NotClosed(closed: set<int>): PairRow -> bool { (r: PairRow) => r.strategyId !in closed }

  /** The portfolio after the plan: the rows whose ids were not closed, and one new row of the
      planned row id and size for each opening, in any order. */
  ghost predicate Executed(current: seq<PairRow>, plan: Plan, news: seq<PairRow>, after: seq<PairRow>) {
    && Opened(news, plan.opens)
    && multiset(after) == multiset(FilterRows(current, NotClosed(ClosedIds(plan.closes)))) + multiset(news)
  }

  lemma {:induction false} AfterBucket(current: seq<PairRow>, plan: Plan, news: seq<PairRow>, after: seq<PairRow>,
                                       id: string)
    requires Executed(current, plan, news, after)
    ensures var p := NotClosed(ClosedIds(plan.closes));
      multiset(BucketOf(after, id)) == multiset(FilterRows(BucketOf(current, id), p)) + multiset(RowsOf(news, id))
  {
    var p := NotClosed(ClosedIds(plan.closes));
    var b := BucketOf(current, id);
    forall x ensures multiset(BucketOf(after, id))[x]
                  == multiset(FilterRows(b, p))[x] + multiset(RowsOf(news, id))[x]
    {
      BucketCounts(after, id, x);
      BucketCounts(current, id, x);
      FilterMultiset(b, p, x);
      FilterMultiset(current, p, x);
      FilterMultiset(news, HasId(id), x);
    }
  }

  /** The surviving rows of a targeted bucket add up to what the subset choice kept. */
  lemma {:induction false} SurvivorsKeepSum(current: seq<PairRow>, targets: seq<Target>, minPairUsd: real, t: Target)
    requires DistinctIds(current) && DistinctTargets(targets) && t in targets && Effective(t)
    ensures var p := NotClosed(ClosedIds(BuildPlan(current, targets, minPairUsd).closes));
      Total(FilterRows(BucketOf(current, t.rowId), p)) == KeepSum(BucketOf(current, t.rowId), t.cents)
  {
    var b := BucketOf(current, t.rowId);
    var bits := KeepBits(b, t.cents);
    var p := NotClosed(ClosedIds(BuildPlan(current, targets, minPairUsd).closes));
    BucketDistinct(current, t.rowId);
    forall i | 0 <= i < |b| ensures if bits[i] then p(b[i]) else !p(b[i]) || b[i].cents == 0 {
      InBucket(current, t.rowId, b[i]);
      ClosedExactly(current, targets, minPairUsd, b[i]);
      InDropped(b, bits, b[i]);
      forall u | u in targets && Effective(u) && u.rowId == t.rowId ensures u == t {}
    }
    SurvivorTotal(b, bits, p);
  }

  ghost function Remaining(current: seq<PairRow>, plan: Plan, id: string): seq<PairRow> {
    FilterRows(BucketOf(current, id), NotClosed(ClosedIds(plan.closes)))
  }

  /** After the plan, a targeted row id holds exactly its target when the gap was worth opening,
      and what was kept otherwise. */
  lemma {:induction false} LandsOnTarget(current: seq<PairRow>, targets: seq<Target>, minPairUsd: real, t: Target,
                                         news: seq<PairRow>, after: seq<PairRow>)
    requires DistinctIds(current) && DistinctTargets(targets) && t in targets && Effective(t)
    requires Executed(current, BuildPlan(current, targets, minPairUsd), news, after)
    ensures var b, b' := BucketOf(current, t.rowId), BucketOf(after, t.rowId);
      if WorthOpening(Gap(b, t), MinTopUp(minPairUsd))
      then Total(b') == t.cents
      else Total(b') == KeepSum(b, t.cents) && multiset(b') <= multiset(b) && |b'| <= |b|
  {
    var minTopUp, id := MinTopUp(minPairUsd), t.rowId;
    var plan := BuildPlan(current, targets, minPairUsd);
    var b, b' := BucketOf(current, id), BucketOf(after, id);
    var rest, added := Remaining(current, plan, id), RowsOf(news, id);
    AfterBucket(current, plan, news, after, id);
    SurvivorsKeepSum(current, targets, minPairUsd, t);
    OpensForTarget(current, targets, minTopUp, t);
    OpenedTotal(news, plan.opens, id);
    TotalPermutation(b', rest + added);
    TotalSplit(rest, added);
    if !WorthOpening(Gap(b, t), minTopUp) {
      assert added == [];
      assert multiset(b') == multiset(rest);
      var p := NotClosed(ClosedIds(plan.closes));
      forall x ensures multiset(b')[x] <= multiset(b)[x] {
        FilterMultiset(b, p, x);
      }
      SameLength(b', rest);
      if b != [] {
        FilterMultiset(b, p, b[0]);
      }
    }
  }

  // ----- Nothing is lost -----

  function KeptTotal(keeps: seq<KeepItem>): nat {
    if keeps == [] then 0 else KeptTotal(keeps[..|keeps| - 1]) + keeps[|keeps| - 1].keptCents
  }

  function ClosedTotal(closes: seq<CloseItem>): nat {
    if closes == [] then 0 else ClosedTotal(closes[..|closes| - 1]) + closes[|closes| - 1].cents
  }

  lemma {:induction false} ClosedTotalConcat(a: seq<CloseItem>, b: seq<CloseItem>)
    ensures ClosedTotal(a + b) == ClosedTotal(a) + ClosedTotal(b)
  {
    if b == [] {
      assert a + b == a;
    } else {
      var n := |b| - 1;
      assert (a + b)[..|a + b| - 1] == a + b[..n];
      ClosedTotalConcat(a, b[..n]);
    }
  }

  lemma {:induction false} ClosesOfTotal(rows: seq<PairRow>, reason: CloseReason)
    ensures ClosedTotal(ClosesOf(rows, reason)) == Total(rows)
  {
    if rows != [] {
      var n := |rows| - 1;
      ClosesOfTotal(rows[..n], reason);
      var c := ClosesOf(rows[..n], reason);
      if rows[n].cents > 0 {
        assert ClosesOf(rows, reason)[..|c|] == c;
      } else {
        assert c + [] == c;
      }
    }
  }

  /** The size held under row ids other than `ids`. */
  function TotalOutside(rows: seq<PairRow>, ids: set<string>): nat {
    if rows == [] then 0
    else
      var n := |rows| - 1;
      TotalOutside(rows[..n], ids) + if rows[n].rowId in ids then 0 else rows[n].cents
  }

  /** Taking one more row id out removes exactly its rows. */
  lemma {:induction false} OutsideShrinks(rows: seq<PairRow>, ids: set<string>, id: string)
    requires id !in ids
    ensures TotalOutside(rows, ids) == TotalOutside(rows, ids + {id}) + Total(RowsOf(rows, id))
  {
    if rows != [] {
      var n := |rows| - 1;
      OutsideShrinks(rows[..n], ids, id);
      TotalSnoc(RowsOf(rows[..n], id), rows[n]);
      assert RowsOf(rows[..n], id) + [] == RowsOf(rows[..n], id);
    }
  }

  lemma {:induction false} OutsideNothing(rows: seq<PairRow>)
    ensures TotalOutside(rows, {}) == Total(rows)
  {
    if rows != [] {
      OutsideNothing(rows[..|rows| - 1]);
    }
  }

  lemma {:induction false} OutsideEverything(rows: seq<PairRow>, ids: set<string>)
    requires forall r :: r in rows ==> r.rowId in ids
    ensures TotalOutside(rows, ids) == 0
  {
    if rows != [] {
      var n := |rows| - 1;
      assert rows == rows[..n] + [rows[n]];
      OutsideEverything(rows[..n], ids);
    }
  }

  function KeySet(keys: seq<string>): set<string> { set k | k in keys }

  lemma {:induction false} BucketTotal(rows: seq<PairRow>, id: string)
    ensures Total(BucketOf(rows, id)) == Total(RowsOf(rows, id))
  {
    SortMultiset(RowsOf(rows, id), LargerRow);
    TotalPermutation(BucketOf(rows, id), RowsOf(rows, id));
  }

  lemma {:induction false} TargetsAccountFor(current: seq<PairRow>, targets: seq<Target>, minTopUp: real)
    requires minTopUp >= 0.0
    ensures var plan := ProcessTargets(current, targets, minTopUp);
      KeptTotal(plan.keeps) + ClosedTotal(plan.closes) + TotalOutside(current, Popped(targets))
      == Total(current)
  {
    if targets == [] {
      assert Popped(targets) == {};
      OutsideNothing(current);
    } else {
      var n := |targets| - 1;
      var t := targets[n];
      TargetsAccountFor(current, targets[..n], minTopUp);
      var plan := ProcessTargets(current, targets[..n], minTopUp);
      PoppedSnoc(targets, n);
      assert targets[..n + 1] == targets;
      if Effective(t) {
        var b := TakeBucket(current, Popped(targets[..n]), t.rowId);
        var bits := KeepBits(b, t.cents);
        PickBounds(b, bits);
        ClosesOfTotal(Dropped(b, bits), ExcessOverTarget);
        ClosedTotalConcat(plan.closes, ClosesOf(Dropped(b, bits), ExcessOverTarget));
        var item := KeepItem(t.rowId, t.cents, KeepSum(b, t.cents), Ids(Kept(b, bits)), t.e24);
        assert (plan.keeps + [item])[..|plan.keeps|] == plan.keeps;
        if t.rowId !in Popped(targets[..n]) {
          OutsideShrinks(current, Popped(targets[..n]), t.rowId);
          BucketTotal(current, t.rowId);
        } else {
          assert Popped(targets) == Popped(targets[..n]);
        }
      } else {
        assert Popped(targets) == Popped(targets[..n]);
      }
    }
  }

  lemma {:induction false} SeenSnoc(keys: seq<string>, popped: set<string>)
    requires keys != [] && Distinct(keys)
    ensures var n := |keys| - 1;
      && popped + KeySet(keys) == (popped + KeySet(keys[..n])) + {keys[n]}
      && keys[n] !in KeySet(keys[..n])
  {
    var n := |keys| - 1;
    assert keys == keys[..n] + [keys[n]];
  }

  lemma {:induction false} LeftoverBucketTotal(current: seq<PairRow>, closes: seq<CloseItem>, id: string)
    ensures ClosedTotal(closes + ClosesOf(BucketOf(current, id), NotInTarget))
         == ClosedTotal(closes) + Total(RowsOf(current, id))
  {
    BucketTotal(current, id);
    ClosesOfTotal(BucketOf(current, id), NotInTarget);
    ClosedTotalConcat(closes, ClosesOf(BucketOf(current, id), NotInTarget));
  }

  lemma {:induction false} LeftoversTotal(current: seq<PairRow>, keys: seq<string>, popped: set<string>)
    requires Distinct(keys)
    ensures ClosedTotal(Leftovers(current, keys, popped)) + TotalOutside(current, popped + KeySet(keys))
         == TotalOutside(current, popped)
  {
    if keys == [] {
      assert popped + KeySet(keys) == popped;
    } else {
      var n := |keys| - 1;
      var seen := popped + KeySet(keys[..n]);
      LeftoversTotal(current, keys[..n], popped);
      SeenSnoc(keys, popped);
      var closes := Leftovers(current, keys[..n], popped);
      if keys[n] !in popped {
        OutsideShrinks(current, seen, keys[n]);
        LeftoverBucketTotal(current, closes, keys[n]);
      } else {
        assert seen + {keys[n]} == seen;
        assert closes + [] == closes;
      }
    }
  }

  lemma {:induction false} KeysDistinct(current: seq<PairRow>)
    ensures Distinct(KeyOrder(current))
  {
    if current != [] {
      KeysDistinct(current[..|current| - 1]);
    }
  }

  /** Every cent of the current portfolio is either kept or closed, and none of it twice,
      whatever the targets are. */
  lemma {:induction false} EveryCentIsKeptOrClosed(current: seq<PairRow>, targets: seq<Target>, minPairUsd: real)
    ensures var plan := BuildPlan(current, targets, minPairUsd);
      KeptTotal(plan.keeps) + ClosedTotal(plan.closes) == Total(current)
  {
    var minTopUp := MinTopUp(minPairUsd);
    var keys, popped := KeyOrder(current), Popped(targets);
    TargetsAccountFor(current, targets, minTopUp);
    ClosedTotalConcat(ProcessTargets(current, targets, minTopUp).closes, Leftovers(current, keys, popped));
    KeysDistinct(current);
    LeftoversTotal(current, keys, popped);
    KeysCoverRows(current);
    OutsideEverything(current, popped + KeySet(keys));
  }

  // ----- Planning again -----

  /** Choosing again from the bucket the plan left behind keeps all of it. */
  lemma {:induction false} KeepsAllAgain(current: seq<PairRow>, targets: seq<Target>, minPairUsd: real, t: Target,
                                         news: seq<PairRow>, after: seq<PairRow>)
    requires DistinctIds(current) && DistinctTargets(targets) && t in targets && Effective(t)
    requires |BucketOf(current, t.rowId)| <= EXHAUSTIVE_LIMIT
    requires Executed(current, BuildPlan(current, targets, minPairUsd), news, after)
    ensures KeepSum(BucketOf(after, t.rowId), t.cents) == Total(BucketOf(after, t.rowId))
    ensures !WorthOpening(Gap(BucketOf(after, t.rowId), t), MinTopUp(minPairUsd))
  {
    LandsOnTarget(current, targets, minPairUsd, t, news, after);
    var b, b' := BucketOf(current, t.rowId), BucketOf(after, t.rowId);
    if Total(b') <= t.cents {
      EverythingUnderTargetIsKept(b', t.cents);
    } else {
      OvershootIsStable(b, b', t.cents);
    }
  }

  /** The next plan closes and opens nothing of that row id. */
  ghost predicate Quiet(rows: seq<PairRow>, t: Target, minTopUp: real) {
    var b := BucketOf(rows, t.rowId);
    KeepSum(b, t.cents) == Total(b) && !WorthOpening(Gap(b, t), minTopUp)
  }

  lemma {:induction false} NothingClosedExactly(rows: seq<PairRow>, reason: CloseReason)
    ensures ClosesOf(rows, reason) == [] <==> Total(rows) == 0
  {
    if rows != [] {
      NothingClosedExactly(rows[..|rows| - 1], reason);
    }
  }

  /** The targets plan nothing exactly when each of them is quiet. */
  lemma {:induction false} QuietTargetsExactly(rows: seq<PairRow>, targets: seq<Target>, minTopUp: real)
    requires minTopUp >= 0.0 && DistinctTargets(targets)
    ensures var plan := ProcessTargets(rows, targets, minTopUp);
      plan.opens == [] && plan.closes == []
      <==> forall t :: t in targets && Effective(t) ==> Quiet(rows, t, minTopUp)
  {
    hide BucketOf, WorthOpening, Quiet, ClosesOf;
    if targets != [] {
      var n := |targets| - 1;
      var t := targets[n];
      assert targets == targets[..n] + [t];
      QuietTargetsExactly(rows, targets[..n], minTopUp);
      if Effective(t) {
        assert t.rowId !in Popped(targets[..n]);
        QuietTarget(rows, ProcessTargets(rows, targets[..n], minTopUp), t, minTopUp);
        hide AddTarget;
      }
    }
  }

  lemma {:induction false} QuietTarget(rows: seq<PairRow>, plan: Plan, t: Target, minTopUp: real)
    requires minTopUp >= 0.0
    ensures var next := AddTarget(plan, BucketOf(rows, t.rowId), t, minTopUp);
      next.opens == [] && next.closes == [] <==> plan.opens == [] && plan.closes == [] && Quiet(rows, t, minTopUp)
  {
    var b := BucketOf(rows, t.rowId);
    var bits := KeepBits(b, t.cents);
    PickBounds(b, bits);
    NothingClosedExactly(Dropped(b, bits), ExcessOverTarget);
    hide BucketOf, KeepBits, ClosesOf, Dropped, Total;
  }

  lemma {:induction false} QuietLeftovers(rows: seq<PairRow>, keys: seq<string>, popped: set<string>)
    requires forall r :: r in rows && r.rowId !in popped ==> r.cents == 0
    ensures Leftovers(rows, keys, popped) == []
  {
    if keys != [] {
      var n := |keys| - 1;
      QuietLeftovers(rows, keys[..n], popped);
      if keys[n] !in popped {
        var b := BucketOf(rows, keys[n]);
        forall r | r in b ensures r.cents == 0 {
          InBucket(rows, keys[n], r);
        }
        TotalZero(b);
        NothingClosedExactly(b, NotInTarget);
      }
    }
  }

  /** Outside the target row ids nothing of any size is left. */
  lemma {:induction false} NothingOutsideTargets(current: seq<PairRow>, targets: seq<Target>, minPairUsd: real,
                                                 news: seq<PairRow>, after: seq<PairRow>)
    requires DistinctIds(current) && DistinctTargets(targets)
    requires Executed(current, BuildPlan(current, targets, minPairUsd), news, after)
    ensures forall r :: r in after && r.rowId !in Popped(targets) ==> r.cents == 0
  {
    var plan := BuildPlan(current, targets, minPairUsd);
    var p := NotClosed(ClosedIds(plan.closes));
    forall r | r in after && r.rowId !in Popped(targets) ensures r.cents == 0 {
      assert r in multiset(after);
      if r in news {
        var i :| 0 <= i < |news| && news[i] == r;
        OpensOfId(current, targets, MinTopUp(minPairUsd), i);
      } else {
        assert r !in multiset(news);
        assert r in FilterRows(current, p);
        InFilter(current, p, r);
        ClosedExactly(current, targets, minPairUsd, r);
      }
    }
  }

  /** Replanning is a fixpoint: once the plan has been carried out, planning again for the same
      target closes nothing and opens nothing. */
  lemma {:induction false} ReplanIsFixpoint(current: seq<PairRow>, targets: seq<Target>, minPairUsd: real,
                                            news: seq<PairRow>, after: seq<PairRow>)
    requires DistinctIds(current) && DistinctTargets(targets)
    requires forall t :: t in targets && Effective(t) ==> |BucketOf(current, t.rowId)| <= EXHAUSTIVE_LIMIT
    requires Executed(current, BuildPlan(current, targets, minPairUsd), news, after)
    ensures BuildPlan(after, targets, minPairUsd).opens == []
    ensures BuildPlan(after, targets, minPairUsd).closes == []
  {
    forall t | t in targets && Effective(t) ensures Quiet(after, t, MinTopUp(minPairUsd)) {
      KeepsAllAgain(current, targets, minPairUsd, t, news, after);
    }
    QuietTargetsExactly(after, targets, MinTopUp(minPairUsd));
    NothingOutsideTargets(current, targets, minPairUsd, news, after);
    QuietLeftovers(after, KeyOrder(after), Popped(targets));
  }
}
