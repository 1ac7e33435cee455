/** The rebalance plan: what to close and what to open to get from the current
    pairs to the target portfolio. */
module DeltaPlan {
  import opened Arith
  import opened Sorting
  import opened PairRows
  import opened KeepSubset

  datatype Target = Target(
    rowId: string, cents: nat, e24: real, openFee: real, holdDays: real, legRisk: real)

  datatype CloseReason = ExcessOverTarget | NotInTarget

  datatype CloseItem = CloseItem(
    strategyId: int, rowId: string, cents: nat, closeFee: real, holdDays: real, legRisk: real,
    reason: CloseReason)

  datatype OpenItem = OpenItem(
    rowId: string, cents: nat, e24: real, openFee: real, holdDays: real, legRisk: real, topUp: bool)

  datatype KeepItem = KeepItem(
    rowId: string, targetCents: nat, keptCents: nat, keptIds: seq<int>, e24: real)

  /** `smallGaps` counts the targets left short because the gap is below the minimum top-up. */
  datatype Plan = Plan(
    opens: seq<OpenItem>, closes: seq<CloseItem>, keeps: seq<KeepItem>, resizeGap: nat, smallGaps: nat)

  const EMPTY_PLAN := Plan([], [], [], 0, 0)

  /** The smallest gap worth opening, in dollars. */
  function MinTopUp(minPairUsd: real): real { MaxR(10.0, MaxR(1.0, minPairUsd) * 0.05) }

  predicate LargerRow(a: PairRow, b: PairRow) { a.cents > b.cents }

  function HasId(id: string): PairRow -> bool { (r: PairRow) => r.rowId == id }

  function RowsOf(current: seq<PairRow>, id: string): seq<PairRow> { FilterRows(current, HasId(id)) }

  /** The current pairs of one row id, largest first. */
  function BucketOf(current: seq<PairRow>, id: string): seq<PairRow> { Sort(RowsOf(current, id), LargerRow) }

  /** Row ids in the order in which they first occur. */
  function KeyOrder(current: seq<PairRow>): seq<string> {
    if current == [] then []
    else
      var n := |current| - 1;
      var keys := KeyOrder(current[..n]);
      if current[n].rowId in keys then keys else keys + [current[n].rowId]
  }

  function ClosesOf(rows: seq<PairRow>, reason: CloseReason): seq<CloseItem> {
    if rows == [] then []
    else
      var n := |rows| - 1;
      var r := rows[n];
      ClosesOf(rows[..n], reason)
      + if r.cents == 0 then []
        else [CloseItem(r.strategyId, r.rowId, r.cents, r.feePct, r.holdDays, r.legRisk, reason)]
  }

  function Ids(rows: seq<PairRow>): seq<int> {
    if rows == [] then [] else Ids(rows[..|rows| - 1]) + [rows[|rows| - 1].strategyId]
  }

  /** Targets without a row id or without a size are passed over. */
  predicate Effective(t: Target) { t.rowId != "" && t.cents > 0 }

  function Gap(bucket: seq<PairRow>, t: Target): int { t.cents - KeepSum(bucket, t.cents) }

  predicate WorthOpening(gap: int, minTopUp: real) { Usd(gap) > minTopUp }

  function OpenFor(bucket: seq<PairRow>, t: Target): OpenItem
    requires Gap(bucket, t) >= 0
  {
    OpenItem(t.rowId, Gap(bucket, t), t.e24, MaxR(0.0, t.openFee), MaxR(1.0, t.holdDays), MaxR(0.0, t.legRisk),
             Kept(bucket, KeepBits(bucket, t.cents)) != [])
  }

  function OpensFor(bucket: seq<PairRow>, t: Target, minTopUp: real): seq<OpenItem>
    requires minTopUp >= 0.0
  {
    if WorthOpening(Gap(bucket, t), minTopUp) then [OpenFor(bucket, t)] else []
  }

  function AddTarget(plan: Plan, bucket: seq<PairRow>, t: Target, minTopUp: real): Plan
    requires minTopUp >= 0.0
  {
    var bits := KeepBits(bucket, t.cents);
    var gap := Gap(bucket, t);
    Plan(plan.opens + OpensFor(bucket, t, minTopUp),
         plan.closes + ClosesOf(Dropped(bucket, bits), ExcessOverTarget),
         plan.keeps + [KeepItem(t.rowId, t.cents, KeepSum(bucket, t.cents), Ids(Kept(bucket, bits)), t.e24)],
         plan.resizeGap + (if gap >= 0 then gap else -gap),
         plan.smallGaps + (if gap > 0 && !WorthOpening(gap, minTopUp) then 1 else 0))
  }

  /** The row ids whose bucket has been taken out of the dictionary. */
  function Popped(targets: seq<Target>): set<string> {
    set t | t in targets && Effective(t) :: t.rowId
  }

  function TakeBucket(current: seq<PairRow>, popped: set<string>, id: string): seq<PairRow> {
    if id in popped then [] else BucketOf(current, id)
  }

  function ProcessTargets(current: seq<PairRow>, targets: seq<Target>, minTopUp: real): Plan
    requires minTopUp >= 0.0
  {
    if targets == [] then EMPTY_PLAN
    else
      var n := |targets| - 1;
      var plan := ProcessTargets(current, targets[..n], minTopUp);
      var t := targets[n];
      if !Effective(t) then plan
      else AddTarget(plan, TakeBucket(current, Popped(targets[..n]), t.rowId), t, minTopUp)
  }

  /** Closing whatever the targets did not claim. */
  function Leftovers(current: seq<PairRow>, keys: seq<string>, popped: set<string>): seq<CloseItem> {
    if keys == [] then []
    else
      var n := |keys| - 1;
      Leftovers(current, keys[..n], popped)
      + if keys[n] in popped then [] else ClosesOf(BucketOf(current, keys[n]), NotInTarget)
  }

  function BuildPlan(current: seq<PairRow>, targets: seq<Target>, minPairUsd: real): Plan {
    var plan := ProcessTargets(current, targets, MinTopUp(minPairUsd));
    plan.(closes := plan.closes + Leftovers(current, KeyOrder(current), Popped(targets)))
  }

  // ----- The program -----

  ghost predicate Groups(buckets: map<string, seq<PairRow>>, current: seq<PairRow>) {
    && (forall id :: id in buckets ==> buckets[id] == RowsOf(current, id))
    && (forall id :: id !in buckets ==> RowsOf(current, id) == [])
  }

  lemma {:induction false} RowsSnoc(current: seq<PairRow>, i: nat)
    requires i < |current|
    ensures forall id :: RowsOf(current[..i + 1], id)
                         == RowsOf(current[..i], id) + if current[i].rowId == id then [current[i]] else []
  {
    assert current[..i + 1][..i] == current[..i];
  }

  /** Grouping the current rows by row id, in order of first occurrence. */
  method GroupRows(current: seq<PairRow>) returns (buckets: map<string, seq<PairRow>>, keys: seq<string>)
    ensures keys == KeyOrder(current) && Distinct(keys)
    ensures forall k :: k in keys <==> k in buckets
    ensures Groups(buckets, current)
  {
    hide RowsOf, Distinct;
    buckets, keys := map[], [];
    NoRows();
    for i := 0 to |current|
      invariant keys == KeyOrder(current[..i]) && Distinct(keys)
      invariant forall k :: k in keys <==> k in buckets
      invariant Groups(buckets, current[..i])
    {
      var row := current[i];
      assert current[..i + 1][..i] == current[..i];
      RowsSnoc(current, i);
      if row.rowId !in buckets {
        buckets := buckets[row.rowId := []];
        DistinctSnoc(keys, row.rowId);
        keys := keys + [row.rowId];
      }
      buckets := buckets[row.rowId := buckets[row.rowId] + [row]];
    }
    assert current[..|current|] == current;
  }

  lemma {:induction false} NoRows()
    ensures Distinct<string>([]) && forall id :: RowsOf([], id) == []
  {}

  lemma {:induction false} DistinctSnoc(keys: seq<string>, k: string)
    requires Distinct(keys) && k !in keys
    ensures Distinct(keys + [k])
  {}

  /** Sorting each group by size, largest first. */
  method SortGroups(current: seq<PairRow>, groups: map<string, seq<PairRow>>, keys: seq<string>)
    returns (buckets: map<string, seq<PairRow>>)
    requires Groups(groups, current) && Distinct(keys)
    requires forall k :: k in keys <==> k in groups
    ensures forall id :: id in buckets <==> id in keys
    ensures forall id :: id in buckets ==> buckets[id] == BucketOf(current, id)
  {
    buckets := groups;
    for k := 0 to |keys|
      invariant forall id :: id in buckets <==> id in keys
      invariant forall j :: 0 <= j < k ==> buckets[keys[j]] == BucketOf(current, keys[j])
      invariant forall j :: k <= j < |keys| ==> buckets[keys[j]] == RowsOf(current, keys[j])
    {
      buckets := buckets[keys[k] := Sort(buckets[keys[k]], LargerRow)];
    }
  }

  /** One target: choose what to keep of its bucket, close the rest, open the gap. */
  method PlanTarget(plan: Plan, bucket: seq<PairRow>, t: Target, minTopUp: real) returns (next: Plan)
    requires minTopUp >= 0.0
    ensures next == AddTarget(plan, bucket, t, minTopUp)
  {
    hide KeepBits, Kept, Dropped, PickSum, ClosesOf, Ids;
    var keep, close, keepSum := PickKeepSubset(bucket, t.cents);
    var gap: int := t.cents - keepSum;
    next := plan.(
      closes := plan.closes + ClosesOf(close, ExcessOverTarget),
      resizeGap := plan.resizeGap + if gap >= 0 then gap else -gap,
      keeps := plan.keeps + [KeepItem(t.rowId, t.cents, keepSum, Ids(keep), t.e24)]);
    if Usd(gap) > minTopUp {
      var open := OpenItem(t.rowId, gap, t.e24, MaxR(0.0, t.openFee), MaxR(1.0, t.holdDays),
                           MaxR(0.0, t.legRisk), keep != []);
      next := next.(opens := next.opens + [open]);
    } else if gap > 0 {
      next := next.(smallGaps := next.smallGaps + 1);
    }
  }

  /** Closing the buckets no target took. */
  method CloseLeftovers(current: seq<PairRow>, buckets: map<string, seq<PairRow>>, keys: seq<string>,
                        ghost popped: set<string>)
    returns (closes: seq<CloseItem>)
    requires forall id :: id in keys ==> (id in buckets <==> id !in popped)
    requires forall id :: id in buckets ==> buckets[id] == BucketOf(current, id)
    ensures closes == Leftovers(current, keys, popped)
  {
    closes := [];
    for k := 0 to |keys|
      invariant closes == Leftovers(current, keys[..k], popped)
    {
      assert keys[..k + 1][..k] == keys[..k];
      if keys[k] in buckets {
        closes := closes + ClosesOf(buckets[keys[k]], NotInTarget);
      }
    }
    assert keys[..|keys|] == keys;
  }

  lemma {:induction false} PoppedSnoc(targets: seq<Target>, k: nat)
    requires k < |targets|
    ensures Popped(targets[..k + 1]) == Popped(targets[..k]) + if Effective(targets[k]) then {targets[k].rowId} else {}
  {
    assert targets[..k + 1] == targets[..k] + [targets[k]];
  }

  method BuildRebalanceDeltaPlan(current: seq<PairRow>, targets: seq<Target>, minPairUsd: real)
    returns (plan: Plan)
    ensures plan == BuildPlan(current, targets, minPairUsd)
  {
    var minTopUp := MinTopUp(minPairUsd);
    var groups, keys := GroupRows(current);
    var buckets := SortGroups(current, groups, keys);
    plan := EMPTY_PLAN;
    assert targets[..0] == [];
    for k := 0 to |targets|
      invariant plan == ProcessTargets(current, targets[..k], minTopUp)
      invariant forall id :: id in buckets <==> id in keys && id !in Popped(targets[..k])
      invariant forall id :: id in buckets ==> buckets[id] == BucketOf(current, id)
    {
      var t := targets[k];
      assert targets[..k + 1][..k] == targets[..k];
      PoppedSnoc(targets, k);
      if t.rowId == "" || t.cents <= 0 {
        continue;
      }
      var bucket := if t.rowId in buckets then buckets[t.rowId] else [];
      assert bucket == TakeBucket(current, Popped(targets[..k]), t.rowId) by {
        if t.rowId !in keys {
          assert RowsOf(current, t.rowId) == [];
        }
      }
      buckets := buckets - {t.rowId};
      plan := PlanTarget(plan, bucket, t, minTopUp);
    }
    assert targets[..|targets|] == targets;
    var left := CloseLeftovers(current, buckets, keys, Popped(targets));
    plan := plan.(closes := plan.closes + left);
  }
}
