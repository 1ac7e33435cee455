/** A reduction takes off what was asked for, largest rows first, and leaves at most one row in part. */
module RepairBounds {
  import opened Arith
  import opened Sorting
  import opened MismatchGuard
  import opened Repair

  function Total(rows: seq<Row>): (t: real)
    ensures t >= 0.0
  {
    if rows == [] then 0.0 else Total(rows[..|rows| - 1]) + Positive(rows[|rows| - 1].size)
  }

  function Taken(ts: seq<Touch>): real { if ts == [] then 0.0 else Taken(ts[..|ts| - 1]) + ts[|ts| - 1].dec }

  lemma {:induction false} TotalUpdate(rows: seq<Row>, i: nat, r: Row)
    requires i < |rows|
    ensures Total(rows[i := r]) == Total(rows) - Positive(rows[i].size) + Positive(r.size)
  {
    var n := |rows| - 1;
    if i == n {
      assert rows[i := r][..n] == rows[..n];
    } else {
      TotalUpdate(rows[..n], i, r);
      assert rows[i := r][..n] == rows[..n][i := r];
    }
  }

  /** Reduced, but not emptied. */
  predicate Partly(was: Row, now: Row) { now == was.(size := now.size) && DUST < now.size < was.size }

  predicate InOrder(order: seq<Rank>, i: nat) { exists k :: 0 <= k < |order| && order[k].index == i }

  ghost predicate ProperOrder(rows: seq<Row>, order: seq<Rank>) {
    && (forall k :: 0 <= k < |order| ==>
          order[k].index < |rows| && order[k].size == Positive(rows[order[k].index].size))
    && (forall j, k :: 0 <= j < k < |order| ==> order[j].index != order[k].index && order[j].size >= order[k].size)
  }

  // What holds of a reduction after the rows in `order`.

  /** What was taken and what is left make up the request; the rows lost that much, and dust. */
  ghost predicate Accounted(rows: seq<Row>, req: real, r: Reduction) {
    && r.left >= 0.0 && r.left + Taken(r.touched) == req
    && 0.0 <= Total(rows) - Taken(r.touched) - Total(r.rows) <= DUST
    && (r.left > ENOUGH ==> Total(rows) == Taken(r.touched) + Total(r.rows))
  }

  /** Rows are as they were, emptied, or, once nothing is left to take, one of them is reduced in part. */
  ghost predicate Fates(rows: seq<Row>, r: Reduction) {
    && |r.rows| == |rows|
    && (forall i :: 0 <= i < |rows| ==>
          r.rows[i] == rows[i] || r.rows[i] == Emptied(rows[i]) || (r.left == 0.0 && Partly(rows[i], r.rows[i])))
    && (forall i, j :: 0 <= i < j < |rows| ==> !(Partly(rows[i], r.rows[i]) && Partly(rows[j], r.rows[j])))
  }

  /** Rows not reached are unchanged; while there is still something to take, rows reached are emptied. */
  ghost predicate Reached(rows: seq<Row>, order: seq<Rank>, r: Reduction)
    requires |r.rows| == |rows| && ProperOrder(rows, order)
  {
    && (forall i :: 0 <= i < |rows| && !InOrder(order, i) ==> r.rows[i] == rows[i])
    && (r.left > ENOUGH ==> forall k :: 0 <= k < |order| && order[k].size > 0.0 ==>
          r.rows[order[k].index] == Emptied(rows[order[k].index]))
    && (forall j, k :: 0 <= j < k < |order| && r.rows[order[k].index] != rows[order[k].index] ==>
          r.rows[order[j].index] != rows[order[j].index])
  }

  predicate Acting(r: Reduction, i: nat) { i < |r.rows| && r.left > ENOUGH && r.rows[i].size > 0.0 }

  lemma {:induction false} TakenSnoc(ts: seq<Touch>, t: Touch)
    ensures Taken(ts + [t]) == Taken(ts) + t.dec
  {
    assert (ts + [t])[..|ts|] == ts;
  }

  lemma {:induction false} StepAccounts(rows: seq<Row>, req: real, r: Reduction, i: nat)
    requires |r.rows| == |rows| && Accounted(rows, req, r)
    ensures Accounted(rows, req, ReduceAt(r, i))
  {
    if Acting(r, i) {
      var dec := MinR(r.rows[i].size, r.left);
      TakenSnoc(r.touched, Touch(r.rows[i].id, dec));
      TotalUpdate(r.rows, i, Less(r.rows[i], dec));
      hide Total, Taken;
    }
  }

  lemma {:induction false} StepFates(rows: seq<Row>, r: Reduction, i: nat)
    requires Fates(rows, r) && i < |rows| && (Acting(r, i) ==> r.rows[i] == rows[i])
    ensures Fates(rows, ReduceAt(r, i))
  {
    if Acting(r, i) {
      var s := ReduceAt(r, i);
      assert s.rows[i] == Emptied(rows[i]) || (s.left == 0.0 && Partly(rows[i], s.rows[i]));
      assert forall j :: 0 <= j < |rows| && j != i ==> s.rows[j] == r.rows[j] && !Partly(rows[j], r.rows[j]);
    }
  }

  lemma {:induction false} StepReaches(rows: seq<Row>, order: seq<Rank>, r: Reduction)
    requires order != [] && ProperOrder(rows, order) && Fates(rows, r)
    requires ProperOrder(rows, order[..|order| - 1]) && Reached(rows, order[..|order| - 1], r)
    ensures Reached(rows, order, ReduceAt(r, order[|order| - 1].index))
  {
    var n := |order| - 1;
    var i := order[n].index;
    var s := ReduceAt(r, i);
    NotYet(rows, order);
    assert r.rows[i] == rows[i];
    assert forall k :: 0 <= k < n ==> order[..n][k] == order[k];
    forall j | 0 <= j < |rows| && !InOrder(order, j) ensures s.rows[j] == rows[j] {
      PrefixInOrder(order, j);
      assert order[n].index != j;
    }
    if Acting(r, i) {
      assert s.left > ENOUGH ==> s.rows[i] == Emptied(rows[i]);
      assert forall k :: 0 <= k < n ==> order[k].index != i && order[k].size >= order[n].size > 0.0;
    }
  }

  lemma {:induction false} PrefixInOrder(order: seq<Rank>, j: nat)
    requires order != []
    ensures InOrder(order[..|order| - 1], j) ==> InOrder(order, j)
  {
    var n := |order| - 1;
    assert forall k :: 0 <= k < n ==> order[..n][k] == order[k];
  }

  lemma {:induction false} NotYet(rows: seq<Row>, order: seq<Rank>)
    requires order != [] && ProperOrder(rows, order)
    ensures !InOrder(order[..|order| - 1], order[|order| - 1].index)
  {
    var n := |order| - 1;
    assert forall k :: 0 <= k < n ==> order[..n][k] == order[k];
  }

  lemma {:induction false} AlongKeeps(rows: seq<Row>, req: real, order: seq<Rank>)
    requires req >= 0.0 && ProperOrder(rows, order)
    ensures var r := ReduceAlong(Reduction(rows, req, []), order);
      |r.rows| == |rows| && Accounted(rows, req, r) && Fates(rows, r) && Reached(rows, order, r)
  {
    if order == [] {
      NothingReduced(rows, req);
    } else {
      var n := |order| - 1;
      var r := ReduceAlong(Reduction(rows, req, []), order[..n]);
      assert ProperOrder(rows, order[..n]);
      AlongKeeps(rows, req, order[..n]);
      NotYet(rows, order);
      var i := order[n].index;
      assert r.rows[i] == rows[i];
      hide Accounted, Fates, Reached, ReduceAt, InOrder;
      StepAccounts(rows, req, r, i);
      StepFates(rows, r, i);
      StepReaches(rows, order, r);
    }
  }

  lemma {:induction false} NothingReduced(rows: seq<Row>, req: real)
    requires req >= 0.0
    ensures var r := Reduction(rows, req, []);
      Accounted(rows, req, r) && Fates(rows, r) && Reached(rows, [], r)
  {}

  lemma {:induction false} SortedRanksAreProper(rows: seq<Row>)
    ensures var order := Sort(Ranks(rows), Bigger);
      ProperOrder(rows, order) && forall i :: 0 <= i < |rows| ==> InOrder(order, i)
  {
    var rs := Ranks(rows);
    SortMultiset(rs, Bigger);
    SortSorted(rs, Bigger);
    PermutedRanks(rows, rs, Sort(rs, Bigger));
  }

  lemma {:induction false} PermutedRanks(rows: seq<Row>, rs: seq<Rank>, order: seq<Rank>)
    requires |rs| == |rows| && forall i :: 0 <= i < |rs| ==> rs[i] == Rank(i, Positive(rows[i].size))
    requires multiset(order) == multiset(rs) && Sorted(order, Bigger)
    ensures ProperOrder(rows, order) && forall i :: 0 <= i < |rows| ==> InOrder(order, i)
  {
    hide Positive, InOrder;
    assert Distinct(rs);
    DistinctPermutation(rs, order);
    forall k | 0 <= k < |order|
      ensures order[k].index < |rows| && order[k].size == Positive(rows[order[k].index].size)
    {
      assert order[k] in multiset(rs);
      assert order[k] in rs;
    }
    forall i | 0 <= i < |rows| ensures InOrder(order, i) {
      assert rs[i] in multiset(order);
      Holds(order, rs[i]);
    }
    hide Distinct;
    forall j, k | 0 <= j < k < |order| ensures order[j].index != order[k].index && order[j].size >= order[k].size {
      assert !Bigger(order[k], order[j]);
      DistinctAt(order, j, k);
    }
  }

  lemma {:induction false} DistinctAt(order: seq<Rank>, j: nat, k: nat)
    requires Distinct(order) && j < k < |order|
    ensures order[j] != order[k]
  {}

  lemma {:induction false} Holds(order: seq<Rank>, r: Rank)
    requires r in order
    ensures InOrder(order, r.index)
  {
    var k :| 0 <= k < |order| && order[k] == r;
  }

  lemma {:induction false} AllZero(rows: seq<Row>)
    requires forall i :: 0 <= i < |rows| ==> rows[i].size <= 0.0
    ensures Total(rows) == 0.0
  {
    if rows != [] {
      AllZero(rows[..|rows| - 1]);
    }
  }

  /** The decrements total what was asked for or what there is, whichever is less, to within 1e-12; the
      rows lose exactly that, and at most 1e-10 of dust; and at most one row is left reduced in part. */
  lemma {:induction false} ReduceTakesWhatIsAsked(rows: seq<Row>, base: real)
    ensures var (r, want) := (Reduce(rows, base), MinR(Positive(base), Total(rows)));
      && want - ENOUGH <= Taken(r.touched) <= want
      && 0.0 <= Total(rows) - Taken(r.touched) - Total(r.rows) <= DUST
      && Fates(rows, r)
  {
    var order, r := Sort(Ranks(rows), Bigger), Reduce(rows, base);
    SortedRanksAreProper(rows);
    AlongKeeps(rows, Positive(base), order);
    hide Reduce, ReduceAlong, Sort, Ranks, Fates;
    if r.left > ENOUGH {
      forall i | 0 <= i < |rows| ensures r.rows[i].size <= 0.0 {
        assert InOrder(order, i);
        var k :| 0 <= k < |order| && order[k].index == i;
        AlongRow(rows, r, i);
      }
      AllZero(r.rows);
    }
  }

  lemma {:induction false} AlongRow(rows: seq<Row>, r: Reduction, i: nat)
    requires Fates(rows, r) && i < |rows| && r.left > ENOUGH
    ensures r.rows[i] == rows[i] || r.rows[i] == Emptied(rows[i])
  {}

  /** Largest first: a row that is changed is at least as large as any that is not. */
  lemma {:induction false} LargestRowsGoFirst(rows: seq<Row>, base: real, i: nat, j: nat)
    requires i < |rows| && j < |rows|
    requires Reduce(rows, base).rows[i] != rows[i] && Reduce(rows, base).rows[j] == rows[j]
    ensures Positive(rows[i].size) >= Positive(rows[j].size)
  {
    var order, r := Sort(Ranks(rows), Bigger), Reduce(rows, base);
    SortedRanksAreProper(rows);
    AlongKeeps(rows, Positive(base), order);
    hide Reduce, ReduceAlong, Sort, Ranks, Fates, Accounted;
    assert InOrder(order, i) && InOrder(order, j);
    var p :| 0 <= p < |order| && order[p].index == i;
    var q :| 0 <= q < |order| && order[q].index == j;
    assert p != q;
  }
}
