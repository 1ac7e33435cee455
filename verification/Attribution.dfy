/** Splitting one funding payment over the strategies that held the contract. */
module Attribution {
  import opened Arith
  import opened Sorting

  datatype Candidate = Candidate(strategyId: int, positionId: Option<int>, notional: real, createdAt: int)

  /** One strategy with all its candidates merged. */
  datatype Row = Row(strategyId: int, positionId: Option<int>, notional: real, createdAt: int)

  datatype Allocation = Allocation(strategyId: int, positionId: Option<int>, ratio: real)

  function FindStrategy(rows: seq<Row>, s: int): (i: int)
    ensures -1 <= i < |rows| && (i >= 0 ==> rows[i].strategyId == s)
    ensures i == -1 <==> forall j :: 0 <= j < |rows| ==> rows[j].strategyId != s
  {
    if rows == [] then -1
    else if rows[|rows| - 1].strategyId == s then |rows| - 1
    else FindStrategy(rows[..|rows| - 1], s)
  }

  function MergeOne(rows: seq<Row>, c: Candidate): seq<Row> {
    var i := FindStrategy(rows, c.strategyId);
    if i < 0 then rows + [Row(c.strategyId, c.positionId, MaxR(0.0, c.notional), c.createdAt)]
    else
      var r := rows[i];
      rows[i := Row(c.strategyId,
                    if r.positionId.None? then c.positionId else r.positionId,
                    r.notional + MaxR(0.0, c.notional),
                    MinI(r.createdAt, c.createdAt))]
  }

  function Merge(cs: seq<Candidate>): seq<Row> {
    if cs == [] then [] else MergeOne(Merge(cs[..|cs| - 1]), cs[|cs| - 1])
  }

  /** Larger notional first, then the older strategy, then the smaller id. */
  predicate Before(x: Row, y: Row) {
    x.notional > y.notional
    || (x.notional == y.notional && (x.createdAt < y.createdAt
                                     || (x.createdAt == y.createdAt && x.strategyId < y.strategyId)))
  }

  function Total(rows: seq<Row>): real {
    if rows == [] then 0.0 else Total(rows[..|rows| - 1]) + rows[|rows| - 1].notional
  }

  function Fraction(x: real, total: real): real
    requires total > 0.0
  {
    x / total
  }

  function Shares(rows: seq<Row>, total: real): (shares: seq<Allocation>)
    requires total > 0.0
    ensures |shares| == |rows|
  {
    if rows == [] then []
    else
      var r := rows[|rows| - 1];
      Shares(rows[..|rows| - 1], total) + [Allocation(r.strategyId, r.positionId, Fraction(r.notional, total))]
  }

  function Split(rows: seq<Row>): seq<Allocation> {
    if rows == [] then []
    else if Total(rows) <= 0.0 then [Allocation(rows[0].strategyId, rows[0].positionId, 1.0)]
    else Shares(rows, Total(rows))
  }

  function Allocations(cs: seq<Candidate>): seq<Allocation> { Split(Sort(Merge(cs), Before)) }

  method ResolveAssignmentAllocations(candidates: seq<Candidate>) returns (allocations: seq<Allocation>)
    ensures allocations == Allocations(candidates)
  {
    if candidates == [] {
      return [];
    }
    var merged: seq<Row> := [];
    for i := 0 to |candidates|
      invariant merged == Merge(candidates[..i])
    {
      assert candidates[..i + 1][..i] == candidates[..i];
      merged := MergeOne(merged, candidates[i]);
    }
    assert candidates[..|candidates|] == candidates;
    MergeRow(candidates, candidates[0].strategyId);
    var rows := Sort(merged, Before);
    SortMultiset(merged, Before);
    allocations := SplitRows(rows);
  }

  method SplitRows(rows: seq<Row>) returns (allocations: seq<Allocation>)
    requires rows != []
    ensures allocations == Split(rows)
  {
    var total := 0.0;
    for i := 0 to |rows|
      invariant total == Total(rows[..i])
    {
      assert rows[..i + 1][..i] == rows[..i];
      total := total + rows[i].notional;
    }
    assert rows[..|rows|] == rows;
    if total <= 0.0 {
      return [Allocation(rows[0].strategyId, rows[0].positionId, 1.0)];
    }
    allocations := [];
    for i := 0 to |rows|
      invariant allocations == Shares(rows[..i], total)
    {
      assert rows[..i + 1][..i] == rows[..i];
      allocations := allocations + [Allocation(rows[i].strategyId, rows[i].positionId, rows[i].notional / total)];
    }
  }

  // ----- What a strategy's merged row holds -----

  function NotionalOf(cs: seq<Candidate>, s: int): (n: real)
    ensures n >= 0.0
  {
    if cs == [] then 0.0
    else
      var c := cs[|cs| - 1];
      NotionalOf(cs[..|cs| - 1], s) + if c.strategyId == s then MaxR(0.0, c.notional) else 0.0
  }

  /** Its first position id, in the order of the candidates. */
  function PositionOf(cs: seq<Candidate>, s: int): Option<int> {
    if cs == [] then None
    else
      var p, c := PositionOf(cs[..|cs| - 1], s), cs[|cs| - 1];
      if p.Some? then p else if c.strategyId == s then c.positionId else None
  }

  predicate Mentions(cs: seq<Candidate>, s: int) { exists i :: 0 <= i < |cs| && cs[i].strategyId == s }

  /** When its earliest candidate says the strategy was created. */
  predicate CreatedAt(cs: seq<Candidate>, s: int, t: int) {
    && (exists i :: 0 <= i < |cs| && cs[i].strategyId == s && cs[i].createdAt == t)
    && (forall i :: 0 <= i < |cs| && cs[i].strategyId == s ==> t <= cs[i].createdAt)
  }

  ghost predicate DistinctStrategies(rows: seq<Row>) {
    forall i, j :: 0 <= i < j < |rows| ==> rows[i].strategyId != rows[j].strategyId
  }

  predicate RowOf(r: Row, cs: seq<Candidate>) {
    && Mentions(cs, r.strategyId) && CreatedAt(cs, r.strategyId, r.createdAt)
    && r.positionId == PositionOf(cs, r.strategyId) && r.notional == NotionalOf(cs, r.strategyId)
  }

  ghost predicate RowsOf(rows: seq<Row>, cs: seq<Candidate>) {
    && DistinctStrategies(rows)
    && (forall i :: 0 <= i < |rows| ==> RowOf(rows[i], cs))
    && (forall s :: Mentions(cs, s) ==> FindStrategy(rows, s) >= 0)
  }

  /** Each strategy among the candidates has exactly one merged row, and it holds the sum of its
      positive notionals, its earliest creation time and its first position id. */
  lemma {:induction false} MergedRows(cs: seq<Candidate>)
    ensures RowsOf(Merge(cs), cs)
  {
    if cs == [] {
    } else {
      var n := |cs| - 1;
      MergedRows(cs[..n]);
      MergeOneRow(cs[..n], Merge(cs[..n]), cs[n]);
      assert cs[..n] + [cs[n]] == cs;
    }
  }

  lemma {:induction false} MergeOneRow(cs: seq<Candidate>, rows: seq<Row>, c: Candidate)
    requires RowsOf(rows, cs)
    ensures RowsOf(MergeOne(rows, c), cs + [c])
  {
    var r, ds, k := MergeOne(rows, c), cs + [c], FindStrategy(rows, c.strategyId);
    hide Mentions, CreatedAt, NotionalOf, PositionOf;
    forall s ensures Mentions(ds, s) <==> Mentions(cs, s) || s == c.strategyId {
      MentionsSnoc(cs, c, s);
    }
    forall i | 0 <= i < |r| ensures RowOf(r[i], ds) {
      MergedRowAt(cs, rows, c, i);
    }
    MergeKeepsDistinct(rows, c);
    hide RowOf, MergeOne, FindStrategy, DistinctStrategies;
  }

  lemma {:induction false} MergeKeepsDistinct(rows: seq<Row>, c: Candidate)
    requires DistinctStrategies(rows)
    ensures DistinctStrategies(MergeOne(rows, c))
    ensures forall s :: FindStrategy(rows, s) >= 0 || s == c.strategyId ==> FindStrategy(MergeOne(rows, c), s) >= 0
  {
    var r, k := MergeOne(rows, c), FindStrategy(rows, c.strategyId);
    forall s | FindStrategy(rows, s) >= 0 || s == c.strategyId ensures FindStrategy(r, s) >= 0 {
      if s != c.strategyId {
        assert r[FindStrategy(rows, s)].strategyId == s;
      } else {
        assert r[if k < 0 then |rows| else k].strategyId == s;
      }
    }
  }

  lemma {:induction false} MergedRowAt(cs: seq<Candidate>, rows: seq<Row>, c: Candidate, i: nat)
    requires RowsOf(rows, cs) && i < |MergeOne(rows, c)|
    ensures RowOf(MergeOne(rows, c)[i], cs + [c])
  {
    var r, k := MergeOne(rows, c)[i], FindStrategy(rows, c.strategyId);
    hide Mentions, CreatedAt, NotionalOf, PositionOf;
    MentionsSnoc(cs, c, r.strategyId);
    if r.strategyId != c.strategyId {
      assert r == rows[i];
      CreatedSnoc(cs, c, r.strategyId, r.createdAt);
    } else if k < 0 {
      assert !Mentions(cs, c.strategyId);
      NothingOf(cs, c.strategyId);
      CreatedFirst(cs, c);
    } else {
      assert i == k;
      CreatedSnoc(cs, c, r.strategyId, rows[k].createdAt);
    }
  }

  lemma {:induction false} MentionsSnoc(cs: seq<Candidate>, c: Candidate, s: int)
    ensures Mentions(cs + [c], s) <==> Mentions(cs, s) || s == c.strategyId
    ensures NotionalOf(cs + [c], s) == NotionalOf(cs, s) + if c.strategyId == s then MaxR(0.0, c.notional) else 0.0
    ensures PositionOf(cs + [c], s) ==
      if PositionOf(cs, s).Some? then PositionOf(cs, s) else if c.strategyId == s then c.positionId else None
  {
    assert (cs + [c])[..|cs|] == cs && (cs + [c])[|cs|] == c;
    if Mentions(cs, s) {
      var i :| 0 <= i < |cs| && cs[i].strategyId == s;
      assert (cs + [c])[i].strategyId == s;
    }
  }

  lemma {:induction false} CreatedSnoc(cs: seq<Candidate>, c: Candidate, s: int, t: int)
    requires CreatedAt(cs, s, t)
    ensures CreatedAt(cs + [c], s, if c.strategyId == s then MinI(t, c.createdAt) else t)
  {
    var i :| 0 <= i < |cs| && cs[i].strategyId == s && cs[i].createdAt == t;
    assert (cs + [c])[i] == cs[i] && (cs + [c])[|cs|] == c;
  }

  lemma {:induction false} CreatedFirst(cs: seq<Candidate>, c: Candidate)
    requires !Mentions(cs, c.strategyId)
    ensures CreatedAt(cs + [c], c.strategyId, c.createdAt)
  {
    var ds := cs + [c];
    assert ds[|cs|] == c;
    assert forall i :: 0 <= i < |cs| ==> ds[i] == cs[i] && cs[i].strategyId != c.strategyId;
  }

  lemma {:induction false} NothingOf(cs: seq<Candidate>, s: int)
    requires !Mentions(cs, s)
    ensures NotionalOf(cs, s) == 0.0 && PositionOf(cs, s) == None
  {
    if cs != [] {
      assert cs == cs[..|cs| - 1] + [cs[|cs| - 1]];
      MentionsSnoc(cs[..|cs| - 1], cs[|cs| - 1], s);
      NothingOf(cs[..|cs| - 1], s);
    }
  }

  lemma {:induction false} MergeRow(cs: seq<Candidate>, s: int)
    requires Mentions(cs, s)
    ensures Merge(cs) != []
  {
    MergedRows(cs);
  }

  // ----- Shares -----

  /** The positive notional of all candidates together. */
  function PositiveTotal(cs: seq<Candidate>): (t: real)
    ensures t >= 0.0
  {
    if cs == [] then 0.0 else PositiveTotal(cs[..|cs| - 1]) + MaxR(0.0, cs[|cs| - 1].notional)
  }

  lemma {:induction false} TotalWithout(rows: seq<Row>, j: nat)
    requires j < |rows|
    ensures Total(rows) == Total(Without(rows, j)) + rows[j].notional
  {
    var n := |rows| - 1;
    if j == n {
      assert Without(rows, j) == rows[..n];
    } else {
      TotalWithout(rows[..n], j);
      assert Without(rows, j)[..n - 1] == Without(rows[..n], j);
    }
  }

  lemma {:induction false} TotalOfMultiset(a: seq<Row>, b: seq<Row>)
    requires multiset(a) == multiset(b)
    ensures Total(a) == Total(b)
  {
    SameLength(a, b);
    if a != [] {
      var n := |a| - 1;
      var j := FindIn(a, n, b);
      WithoutMultiset(a, n);
      WithoutMultiset(b, j);
      TotalWithout(b, j);
      assert Without(a, n) == a[..n];
      TotalOfMultiset(a[..n], Without(b, j));
    }
  }

  lemma {:induction false} TotalOfMerge(cs: seq<Candidate>)
    ensures Total(Merge(cs)) == PositiveTotal(cs)
  {
    if cs != [] {
      var n := |cs| - 1;
      var rows, c := Merge(cs[..n]), cs[n];
      TotalOfMerge(cs[..n]);
      var k, r := FindStrategy(rows, c.strategyId), MergeOne(rows, c);
      if k < 0 {
        assert r[..|rows|] == rows;
      } else {
        TotalWithout(rows, k);
        TotalWithout(r, k);
        assert Without(rows, k) == Without(r, k);
      }
    }
  }

  /** The merged rows in the documented order; the split is taken of these. */
  lemma {:induction false} OrderedRows(cs: seq<Candidate>) returns (rows: seq<Row>)
    ensures rows == Sort(Merge(cs), Before) && Allocations(cs) == Split(rows)
    ensures multiset(rows) == multiset(Merge(cs)) && |rows| == |Merge(cs)|
    ensures RowsOf(rows, cs) && StrictlyOrdered(rows, Before) && Total(rows) == PositiveTotal(cs)
  {
    var merged := Merge(cs);
    rows := Sort(merged, Before);
    MergedRows(cs);
    TotalOfMerge(cs);
    SortMultiset(merged, Before);
    SortSorted(merged, Before);
    TotalOfMultiset(rows, merged);
    hide *;
    SameRows(merged, rows, cs);
    OrderIsStrict(rows, cs);
  }

  lemma {:induction false} OrderIsStrict(rows: seq<Row>, cs: seq<Candidate>)
    requires RowsOf(rows, cs) && Sorted(rows, Before)
    ensures StrictlyOrdered(rows, Before)
  {
    hide RowOf, Mentions;
    forall i, j | 0 <= i < j < |rows| ensures Before(rows[i], rows[j]) {
      assert rows[i].strategyId != rows[j].strategyId && !Before(rows[j], rows[i]);
    }
  }

  lemma {:induction false} SameRows(a: seq<Row>, b: seq<Row>, cs: seq<Candidate>)
    requires RowsOf(a, cs) && multiset(a) == multiset(b)
    ensures RowsOf(b, cs)
  {
    hide RowOf, Mentions;
    assert forall x :: x in a <==> x in multiset(a);
    assert forall x :: x in b <==> x in multiset(b);
    forall i, j | 0 <= i < j < |b| ensures b[i].strategyId != b[j].strategyId {
      assert b[i] in a && b[j] in a;
      if b[i].strategyId == b[j].strategyId {
        assert b[i] == b[j];
        CountTwice(b, i, j);
        DistinctCounts(a, b[i]);
      }
    }
    forall i | 0 <= i < |b| ensures RowOf(b[i], cs) {
      assert b[i] in a;
    }
    forall s | Mentions(cs, s) ensures FindStrategy(b, s) >= 0 {
      var x := a[FindStrategy(a, s)];
      assert x in b;
      var j :| 0 <= j < |b| && b[j] == x;
      assert b[j].strategyId == s;
    }
  }

  function SumRatios(shares: seq<Allocation>): real {
    if shares == [] then 0.0 else SumRatios(shares[..|shares| - 1]) + shares[|shares| - 1].ratio
  }

  lemma {:induction false} ShareAt(rows: seq<Row>, total: real, i: nat)
    requires total > 0.0 && i < |rows|
    ensures Shares(rows, total)[i] ==
      Allocation(rows[i].strategyId, rows[i].positionId, Fraction(rows[i].notional, total))
  {
    hide Fraction;
    if i < |rows| - 1 {
      ShareAt(rows[..|rows| - 1], total, i);
    }
  }

  lemma {:induction false} SharesTotal(rows: seq<Row>, total: real)
    requires total > 0.0
    ensures SumRatios(Shares(rows, total)) == Fraction(Total(rows), total)
  {
    hide *;
    if rows == [] {
      NoShares(total);
    } else {
      var n := |rows| - 1;
      var r := rows[n];
      var last := Allocation(r.strategyId, r.positionId, Fraction(r.notional, total));
      SharesSnoc(rows, total);
      SharesTotal(rows[..n], total);
      RatioSnoc(Shares(rows[..n], total), last);
      DivideSum(Total(rows[..n]), r.notional, total);
    }
  }

  lemma {:induction false} NoShares(total: real)
    requires total > 0.0
    ensures SumRatios(Shares([], total)) == Fraction(Total([]), total)
  {
    NothingOfTotal(total);
  }

  lemma {:induction false} SharesSnoc(rows: seq<Row>, total: real)
    requires total > 0.0 && rows != []
    ensures var (n, r) := (|rows| - 1, rows[|rows| - 1]);
      && Total(rows) == Total(rows[..n]) + r.notional
      && Shares(rows, total) ==
         Shares(rows[..n], total) + [Allocation(r.strategyId, r.positionId, Fraction(r.notional, total))]
  {
    hide Fraction;
  }

  lemma {:induction false} RatioSnoc(shares: seq<Allocation>, a: Allocation)
    ensures SumRatios(shares + [a]) == SumRatios(shares) + a.ratio
  {
    assert (shares + [a])[..|shares|] == shares;
  }

  lemma {:induction false} SharesOf(rows: seq<Row>, total: real)
    requires total > 0.0
    ensures var a := Shares(rows, total);
      && (forall i :: 0 <= i < |a| ==>
            a[i] == Allocation(rows[i].strategyId, rows[i].positionId, Fraction(rows[i].notional, total)))
      && SumRatios(a) == Fraction(Total(rows), total)
  {
    hide *;
    SharesTotal(rows, total);
    forall i | 0 <= i < |rows|
      ensures Shares(rows, total)[i] ==
        Allocation(rows[i].strategyId, rows[i].positionId, Fraction(rows[i].notional, total))
    {
      ShareAt(rows, total, i);
    }
  }

  lemma {:induction false} NothingOfTotal(total: real)
    requires total > 0.0
    ensures Fraction(0.0, total) == 0.0
  {}

  lemma {:induction false} DivideSum(x: real, y: real, t: real)
    requires t > 0.0
    ensures Fraction(x, t) + Fraction(y, t) == Fraction(x + y, t)
  {}

  /** No row holds more than the total of non-negative rows. */
  lemma {:induction false} RowBelowTotal(rows: seq<Row>, i: nat)
    requires i < |rows| && forall j :: 0 <= j < |rows| ==> rows[j].notional >= 0.0
    ensures 0.0 <= rows[i].notional <= Total(rows)
  {
    TotalNonNegative(rows[..|rows| - 1]);
    if i < |rows| - 1 {
      RowBelowTotal(rows[..|rows| - 1], i);
    }
  }

  lemma {:induction false} TotalNonNegative(rows: seq<Row>)
    requires forall j :: 0 <= j < |rows| ==> rows[j].notional >= 0.0
    ensures Total(rows) >= 0.0
  {
    if rows != [] {
      TotalNonNegative(rows[..|rows| - 1]);
    }
  }

  lemma {:induction false} FractionInUnit(x: real, t: real)
    requires 0.0 <= x <= t && t > 0.0
    ensures 0.0 <= Fraction(x, t) <= 1.0
  {}

  lemma {:induction false} WholeOverItself(t: real)
    requires t > 0.0
    ensures Fraction(t, t) == 1.0
  {}

  /** The ratios lie in [0, 1] and sum to 1. With any positive notional every strategy gets its share
      of it; with none, everything goes to the oldest strategy, the smallest id among those. */
  lemma {:induction false} RatiosShareOutTheWhole(cs: seq<Candidate>)
    requires cs != []
    ensures var a := Allocations(cs);
      && (forall i :: 0 <= i < |a| ==> 0.0 <= a[i].ratio <= 1.0)
      && SumRatios(a) == 1.0
      && (forall i :: 0 <= i < |a| ==>
            Mentions(cs, a[i].strategyId) && a[i].positionId == PositionOf(cs, a[i].strategyId))
      && (forall i, j :: 0 <= i < j < |a| ==> a[i].strategyId != a[j].strategyId)
    ensures PositiveTotal(cs) > 0.0 ==> EveryStrategyGetsItsShare(Allocations(cs), cs)
    ensures PositiveTotal(cs) == 0.0 ==> OldestTakesAll(Allocations(cs), cs)
  {
    var rows := OrderedRows(cs);
    assert Mentions(cs, cs[0].strategyId);
    assert rows != [];
    if PositiveTotal(cs) > 0.0 {
      hide Merge, Sort, RowOf, FindStrategy;
      PositiveShares(rows, cs);
    } else {
      RowsNonNegative(rows, cs);
      hide Merge, Sort, Total;
      forall i | 0 <= i < |rows| ensures rows[i].notional == 0.0 {
        RowBelowTotal(rows, i);
      }
      var a := Allocations(cs);
      assert a == [Allocation(rows[0].strategyId, rows[0].positionId, 1.0)];
      assert SumRatios(a[..0]) == 0.0;
      NoneBefore(rows, cs);
    }
  }

  ghost predicate EveryStrategyGetsItsShare(a: seq<Allocation>, cs: seq<Candidate>)
    requires PositiveTotal(cs) > 0.0
  {
    && (forall i :: 0 <= i < |a| ==> a[i].ratio == Fraction(NotionalOf(cs, a[i].strategyId), PositiveTotal(cs)))
    && (forall s :: Mentions(cs, s) ==> exists i :: 0 <= i < |a| && a[i].strategyId == s)
  }

  ghost predicate OldestTakesAll(a: seq<Allocation>, cs: seq<Candidate>) {
    && |a| == 1 && a[0].ratio == 1.0
    && exists t :: CreatedAt(cs, a[0].strategyId, t) &&
         forall s, u :: CreatedAt(cs, s, u) ==> t < u || (t == u && a[0].strategyId <= s)
  }

  lemma {:induction false} RowsNonNegative(rows: seq<Row>, cs: seq<Candidate>)
    requires RowsOf(rows, cs)
    ensures forall i :: 0 <= i < |rows| ==> rows[i].notional >= 0.0
  {
    forall i | 0 <= i < |rows| ensures rows[i].notional >= 0.0 {
      assert RowOf(rows[i], cs);
    }
  }

  lemma {:induction false} PositiveShares(rows: seq<Row>, cs: seq<Candidate>)
    requires RowsOf(rows, cs) && Total(rows) == PositiveTotal(cs) > 0.0
    ensures var a := Split(rows);
      && EveryStrategyGetsItsShare(a, cs) && SumRatios(a) == 1.0
      && (forall i :: 0 <= i < |a| ==>
            && 0.0 <= a[i].ratio <= 1.0
            && Mentions(cs, a[i].strategyId) && a[i].positionId == PositionOf(cs, a[i].strategyId))
      && (forall i, j :: 0 <= i < j < |a| ==> a[i].strategyId != a[j].strategyId)
  {
    var total, a := Total(rows), Split(rows);
    SplitIsShares(rows);
    SharesOf(rows, total);
    WholeOverItself(total);
    RowsNonNegative(rows, cs);
    hide Total, Shares, Split, PositiveTotal, SumRatios, Fraction;
    hide RowOf, Mentions, NotionalOf, PositionOf, FindStrategy;
    forall i | 0 <= i < |a|
      ensures 0.0 <= a[i].ratio <= 1.0 && a[i].ratio == Fraction(NotionalOf(cs, a[i].strategyId), PositiveTotal(cs))
      ensures Mentions(cs, a[i].strategyId) && a[i].positionId == PositionOf(cs, a[i].strategyId)
    {
      RowFacts(rows, cs, i);
      RowBelowTotal(rows, i);
      FractionInUnit(rows[i].notional, total);
    }
    forall s | Mentions(cs, s) ensures exists i :: 0 <= i < |a| && a[i].strategyId == s {
      assert a[FindStrategy(rows, s)].strategyId == s;
    }
  }

  lemma {:induction false} SplitIsShares(rows: seq<Row>)
    requires Total(rows) > 0.0
    ensures Split(rows) == Shares(rows, Total(rows))
  {
    hide Shares;
  }

  lemma {:induction false} RowFacts(rows: seq<Row>, cs: seq<Candidate>, i: nat)
    requires RowsOf(rows, cs) && i < |rows|
    ensures var r := rows[i];
      && Mentions(cs, r.strategyId) && r.positionId == PositionOf(cs, r.strategyId)
      && r.notional == NotionalOf(cs, r.strategyId)
  {
    assert RowOf(rows[i], cs);
  }

  lemma {:induction false} NoneBefore(rows: seq<Row>, cs: seq<Candidate>)
    requires RowsOf(rows, cs) && StrictlyOrdered(rows, Before) && rows != []
    requires forall i :: 0 <= i < |rows| ==> rows[i].notional == 0.0
    ensures Mentions(cs, rows[0].strategyId) && rows[0].positionId == PositionOf(cs, rows[0].strategyId)
    ensures OldestTakesAll([Allocation(rows[0].strategyId, rows[0].positionId, 1.0)], cs)
  {
    assert RowOf(rows[0], cs);
    var t := rows[0].createdAt;
    forall s, u | CreatedAt(cs, s, u) ensures t < u || (t == u && rows[0].strategyId <= s) {
      var i := FindStrategy(rows, s);
      assert RowOf(rows[i], cs);
      assert u == rows[i].createdAt;
      assert i > 0 ==> Before(rows[0], rows[i]);
    }
  }

  // ----- The order of the candidates does not matter -----

  function Anonymous(rows: seq<Row>): (out: seq<Row>)
    ensures |out| == |rows| && forall i :: 0 <= i < |out| ==> out[i] == rows[i].(positionId := None)
  {
    if rows == [] then [] else Anonymous(rows[..|rows| - 1]) + [rows[|rows| - 1].(positionId := None)]
  }

  /** Permuting the candidates changes neither which strategies are paid, in which order, nor how much. */
  lemma {:induction false} OrderDoesNotMatter(cs: seq<Candidate>, ds: seq<Candidate>)
    requires multiset(cs) == multiset(ds)
    ensures var (a, b) := (Allocations(cs), Allocations(ds));
      && |a| == |b|
      && forall i :: 0 <= i < |a| ==> a[i].strategyId == b[i].strategyId && a[i].ratio == b[i].ratio
  {
    var x := OrderedRows(cs);
    var y := OrderedRows(ds);
    hide Merge, Sort, Allocations, RowOf, Split, Anonymous, Before;
    SameAnonymous(cs, ds, x, y);
    AnonymousOrdered(x);
    AnonymousOrdered(y);
    assert forall r: Row, q: Row :: Before(r, q) ==> !Before(q, r) by {
      BeforeAsymmetric();
    }
    SortedUnique(Anonymous(x), Anonymous(y), Before);
    AnonymousSplit(x, y);
  }

  lemma {:induction false} AnonymousOrdered(x: seq<Row>)
    requires StrictlyOrdered(x, Before)
    ensures StrictlyOrdered(Anonymous(x), Before)
  {
    forall i, j | 0 <= i < j < |x| ensures Before(Anonymous(x)[i], Anonymous(x)[j]) {
      assert Before(x[i], x[j]);
    }
  }

  lemma {:induction false} BeforeAsymmetric()
    ensures forall r: Row, q: Row :: Before(r, q) ==> !Before(q, r)
  {}

  lemma {:induction false} AnonymousSplit(x: seq<Row>, y: seq<Row>)
    requires Anonymous(x) == Anonymous(y)
    ensures var (a, b) := (Split(x), Split(y));
      && |a| == |b|
      && forall i :: 0 <= i < |a| ==> a[i].strategyId == b[i].strategyId && a[i].ratio == b[i].ratio
  {
    forall i | 0 <= i < |x| ensures x[i].(positionId := None) == y[i].(positionId := None) {
      assert Anonymous(x)[i] == Anonymous(y)[i];
    }
    SameTotals(x, y);
    if x != [] && Total(x) > 0.0 {
      SharesOf(x, Total(x));
      SharesOf(y, Total(y));
    }
  }

  lemma {:induction false} SameTotals(x: seq<Row>, y: seq<Row>)
    requires |x| == |y| && forall i :: 0 <= i < |x| ==> x[i].(positionId := None) == y[i].(positionId := None)
    ensures Total(x) == Total(y)
  {
    if x != [] {
      SameTotals(x[..|x| - 1], y[..|y| - 1]);
    }
  }

  lemma {:induction false} SameAnonymous(cs: seq<Candidate>, ds: seq<Candidate>, x: seq<Row>, y: seq<Row>)
    requires multiset(cs) == multiset(ds) && RowsOf(x, cs) && RowsOf(y, ds)
    ensures multiset(Anonymous(x)) == multiset(Anonymous(y))
  {
    var a, b := Anonymous(x), Anonymous(y);
    AnonymousIn(cs, ds, x, y);
    AnonymousIn(ds, cs, y, x);
    forall r ensures multiset(a)[r] == multiset(b)[r] {
      DistinctCounts(a, r);
      DistinctCounts(b, r);
      assert r in multiset(a) <==> r in a;
      assert r in multiset(b) <==> r in b;
    }
  }

  lemma {:induction false} AnonymousIn(cs: seq<Candidate>, ds: seq<Candidate>, x: seq<Row>, y: seq<Row>)
    requires multiset(cs) == multiset(ds) && RowsOf(x, cs) && RowsOf(y, ds)
    ensures forall r :: r in Anonymous(x) ==> r in Anonymous(y)
    ensures Distinct(Anonymous(x))
  {
    forall i | 0 <= i < |x| ensures Anonymous(x)[i] in Anonymous(y) {
      var j := SameRow(cs, ds, x[i], y);
      assert Anonymous(y)[j] == Anonymous(x)[i];
    }
    hide RowOf, Mentions, FindStrategy;
    forall i, j | 0 <= i < j < |x| ensures Anonymous(x)[i] != Anonymous(x)[j] {
      assert x[i].strategyId != x[j].strategyId;
    }
  }

  lemma {:induction false} SameRow(cs: seq<Candidate>, ds: seq<Candidate>, r: Row, y: seq<Row>) returns (j: nat)
    requires multiset(cs) == multiset(ds) && RowOf(r, cs) && RowsOf(y, ds)
    ensures j < |y| && y[j].(positionId := None) == r.(positionId := None)
  {
    SameFacts(cs, ds, r.strategyId, r.createdAt);
    j := FindStrategy(y, r.strategyId);
    assert RowOf(y[j], ds);
  }

  /** Sums and minima over the candidates of a strategy do not depend on their order. */
  lemma {:induction false} SameFacts(cs: seq<Candidate>, ds: seq<Candidate>, s: int, t: int)
    requires multiset(cs) == multiset(ds) && CreatedAt(cs, s, t)
    ensures NotionalOf(cs, s) == NotionalOf(ds, s) && CreatedAt(ds, s, t) && Mentions(ds, s)
  {
    SameNotional(cs, ds, s);
    assert forall c :: c in cs <==> c in multiset(cs);
    assert forall c :: c in ds <==> c in multiset(ds);
    var i :| 0 <= i < |cs| && cs[i].strategyId == s && cs[i].createdAt == t;
    assert cs[i] in ds;
    forall k | 0 <= k < |ds| && ds[k].strategyId == s ensures t <= ds[k].createdAt {
      assert ds[k] in cs;
    }
  }

  lemma {:induction false} NotionalWithout(cs: seq<Candidate>, j: nat, s: int)
    requires j < |cs|
    ensures NotionalOf(cs, s) ==
      NotionalOf(Without(cs, j), s) + if cs[j].strategyId == s then MaxR(0.0, cs[j].notional) else 0.0
  {
    var n := |cs| - 1;
    if j == n {
      assert Without(cs, j) == cs[..n];
    } else {
      NotionalWithout(cs[..n], j, s);
      assert Without(cs, j)[..n - 1] == Without(cs[..n], j);
    }
  }

  lemma {:induction false} SameNotional(cs: seq<Candidate>, ds: seq<Candidate>, s: int)
    requires multiset(cs) == multiset(ds)
    ensures NotionalOf(cs, s) == NotionalOf(ds, s)
  {
    SameLength(cs, ds);
    if cs != [] {
      var n := |cs| - 1;
      var j := FindIn(cs, n, ds);
      WithoutMultiset(cs, n);
      WithoutMultiset(ds, j);
      NotionalWithout(ds, j, s);
      assert Without(cs, n) == cs[..n];
      SameNotional(cs[..n], Without(ds, j), s);
    }
  }

  // ----- Representative positions -----

  /** All known position ids of the strategy's candidates are the same. */
  predicate OnePosition(cs: seq<Candidate>, s: int) {
    forall i, j :: 0 <= i < |cs| && 0 <= j < |cs| && Known(cs[i], s) && Known(cs[j], s) ==>
      cs[i].positionId == cs[j].positionId
  }

  predicate Known(c: Candidate, s: int) { c.strategyId == s && c.positionId.Some? }

  ghost predicate StablePosition(cs: seq<Candidate>, s: int) {
    forall ds: seq<Candidate> :: multiset(ds) == multiset(cs) ==> PositionOf(ds, s) == PositionOf(cs, s)
  }

  /** The representative is one of the known position ids, if any is known. */
  lemma {:induction false} PositionIsKnown(cs: seq<Candidate>, s: int)
    ensures if PositionOf(cs, s).Some?
            then exists i :: 0 <= i < |cs| && Known(cs[i], s) && cs[i].positionId == PositionOf(cs, s)
            else forall i :: 0 <= i < |cs| ==> !Known(cs[i], s)
  {
    if cs != [] {
      var n := |cs| - 1;
      PositionIsKnown(cs[..n], s);
      assert forall i :: 0 <= i < n ==> cs[..n][i] == cs[i];
      if PositionOf(cs[..n], s).Some? {
        var i :| 0 <= i < n && Known(cs[..n][i], s) && cs[..n][i].positionId == PositionOf(cs[..n], s);
        assert Known(cs[i], s);
      } else if PositionOf(cs, s).Some? {
        assert Known(cs[n], s);
      }
    }
  }

  /** A candidate with a known position id decides when it comes first. */
  lemma {:induction false} FirstDecides(c: Candidate, rest: seq<Candidate>, s: int)
    requires Known(c, s)
    ensures PositionOf([c] + rest, s) == c.positionId
  {
    var cs := [c] + rest;
    if rest == [] {
      assert cs[..0] == [] && cs[0] == c;
    } else {
      assert cs[..|cs| - 1] == [c] + rest[..|rest| - 1];
      FirstDecides(c, rest[..|rest| - 1], s);
    }
  }

  lemma {:induction false} MovedToFront(cs: seq<Candidate>, i: nat, s: int)
    requires i < |cs| && Known(cs[i], s) && StablePosition(cs, s)
    ensures PositionOf(cs, s) == cs[i].positionId
  {
    var rest := Without(cs, i);
    WithoutMultiset(cs, i);
    assert multiset([cs[i]] + rest) == multiset(cs);
    FirstDecides(cs[i], rest, s);
  }

  /** The representative position id survives every permutation exactly when the known ids agree. */
  lemma {:induction false} PositionStableExactly(cs: seq<Candidate>, s: int)
    ensures StablePosition(cs, s) <==> OnePosition(cs, s)
  {
    if StablePosition(cs, s) {
      forall i, j | 0 <= i < |cs| && 0 <= j < |cs| && Known(cs[i], s) && Known(cs[j], s)
        ensures cs[i].positionId == cs[j].positionId
      {
        MovedToFront(cs, i, s);
        MovedToFront(cs, j, s);
      }
    }
    if OnePosition(cs, s) {
      forall ds: seq<Candidate> | multiset(ds) == multiset(cs) ensures PositionOf(ds, s) == PositionOf(cs, s) {
        SamePosition(cs, ds, s);
      }
    }
  }

  lemma {:induction false} SamePosition(cs: seq<Candidate>, ds: seq<Candidate>, s: int)
    requires multiset(ds) == multiset(cs) && OnePosition(cs, s)
    ensures PositionOf(ds, s) == PositionOf(cs, s)
  {
    PositionIsKnown(cs, s);
    PositionIsKnown(ds, s);
    hide PositionOf;
    assert forall c :: c in cs <==> c in multiset(cs);
    assert forall c :: c in ds <==> c in multiset(ds);
    if i :| 0 <= i < |cs| && Known(cs[i], s) && cs[i].positionId == PositionOf(cs, s) {
      assert cs[i] in ds;
    }
    if j :| 0 <= j < |ds| && Known(ds[j], s) && ds[j].positionId == PositionOf(ds, s) {
      assert ds[j] in cs;
    }
  }

  ghost predicate StableAllocations(cs: seq<Candidate>) {
    forall ds: seq<Candidate> :: multiset(ds) == multiset(cs) ==> Allocations(ds) == Allocations(cs)
  }

  /** No candidate was created earlier than one of this strategy, nor at the same time with a smaller id. */
  predicate Oldest(cs: seq<Candidate>, s: int) {
    exists i :: 0 <= i < |cs| && cs[i].strategyId == s && forall j :: 0 <= j < |cs| ==>
      cs[i].createdAt < cs[j].createdAt || (cs[i].createdAt == cs[j].createdAt && s <= cs[j].strategyId)
  }

  /** With any positive notional every strategy is paid, else the oldest. */
  predicate Paid(cs: seq<Candidate>, s: int) { Mentions(cs, s) && (PositiveTotal(cs) > 0.0 || Oldest(cs, s)) }

  /** Every strategy that is paid has one known position id at most. */
  predicate PaidFromOnePosition(cs: seq<Candidate>) {
    forall i :: 0 <= i < |cs| && Paid(cs, cs[i].strategyId) ==> OnePosition(cs, cs[i].strategyId)
  }

  predicate Allocated(a: seq<Allocation>, s: int) { exists i :: 0 <= i < |a| && a[i].strategyId == s }

  lemma {:induction false} OldestIsAllocated(a: seq<Allocation>, cs: seq<Candidate>, s: int)
    requires OldestTakesAll(a, cs)
    ensures Allocated(a, s) <==> Oldest(cs, s)
  {
    var w := a[0].strategyId;
    var t :| CreatedAt(cs, w, t) &&
      forall u, v :: CreatedAt(cs, u, v) ==> t < v || (t == v && w <= u);
    var k :| 0 <= k < |cs| && cs[k].strategyId == w && cs[k].createdAt == t;
    forall j | 0 <= j < |cs| ensures t < cs[j].createdAt || (t == cs[j].createdAt && w <= cs[j].strategyId) {
      var v := EarliestOf(cs, cs[j].strategyId, j);
      assert CreatedAt(cs, cs[j].strategyId, v);
    }
    assert Oldest(cs, w);
    if Oldest(cs, s) {
      var i :| 0 <= i < |cs| && cs[i].strategyId == s && forall j :: 0 <= j < |cs| ==>
        cs[i].createdAt < cs[j].createdAt || (cs[i].createdAt == cs[j].createdAt && s <= cs[j].strategyId);
      assert s == w;
    }
    assert Allocated(a, w);
  }

  lemma {:induction false} EarliestOf(cs: seq<Candidate>, s: int, j: nat) returns (t: int)
    requires j < |cs| && cs[j].strategyId == s
    ensures CreatedAt(cs, s, t)
    decreases |cs|
  {
    var n := |cs| - 1;
    assert cs == cs[..n] + [cs[n]];
    if Mentions(cs[..n], s) {
      var i :| 0 <= i < n && cs[..n][i].strategyId == s;
      t := EarliestOf(cs[..n], s, i);
      CreatedSnoc(cs[..n], cs[n], s, t);
      t := if cs[n].strategyId == s then MinI(t, cs[n].createdAt) else t;
    } else {
      assert forall k :: 0 <= k < n ==> cs[..n][k].strategyId == cs[k].strategyId;
      CreatedFirst(cs[..n], cs[n]);
      t := cs[n].createdAt;
    }
  }

  /** A strategy appears among the allocations exactly when it is paid. */
  lemma {:induction false} AllocatedExactly(cs: seq<Candidate>, s: int)
    ensures Allocated(Allocations(cs), s) <==> Paid(cs, s)
  {
    if cs != [] {
      RatiosShareOutTheWhole(cs);
      OldestIsMentioned(cs, s);
      hide Allocations, Mentions, Oldest, PositiveTotal;
      if PositiveTotal(cs) == 0.0 {
        OldestIsAllocated(Allocations(cs), cs, s);
      }
    }
  }

  lemma {:induction false} OldestIsMentioned(cs: seq<Candidate>, s: int)
    ensures Oldest(cs, s) ==> Mentions(cs, s)
  {}

  /** Each allocation names the representative position of its strategy, whatever the order. */
  lemma {:induction false} AllocatedPosition(cs: seq<Candidate>, ds: seq<Candidate>, i: nat)
    requires multiset(ds) == multiset(cs) && i < |Allocations(cs)|
    ensures var (a, b) := (Allocations(cs), Allocations(ds));
      && |a| == |b|
      && a[i].positionId == PositionOf(cs, a[i].strategyId) && b[i].positionId == PositionOf(ds, a[i].strategyId)
  {
    SameLength(cs, ds);
    OrderDoesNotMatter(cs, ds);
    if cs != [] {
      RatiosShareOutTheWhole(cs);
      RatiosShareOutTheWhole(ds);
      hide Allocations, PositionOf, SumRatios;
    }
  }

  /** The allocations, position ids included, are the same for every permutation of the candidates
      exactly when the known position ids of each paid strategy agree. */
  lemma {:induction false} OrderMattersExactly(cs: seq<Candidate>)
    ensures StableAllocations(cs) <==> PaidFromOnePosition(cs)
  {
    hide Allocations, OnePosition, PositionOf, Paid;
    var a := Allocations(cs);
    if StableAllocations(cs) {
      forall j | 0 <= j < |cs| && Paid(cs, cs[j].strategyId) ensures OnePosition(cs, cs[j].strategyId) {
        AllocatedExactly(cs, cs[j].strategyId);
        var i :| 0 <= i < |a| && a[i].strategyId == cs[j].strategyId;
        StableWhenAllocated(cs, i);
        PositionStableExactly(cs, a[i].strategyId);
      }
    }
    if PaidFromOnePosition(cs) {
      forall ds: seq<Candidate> | multiset(ds) == multiset(cs) ensures Allocations(ds) == a {
        SameAllocations(cs, ds);
      }
    }
  }

  lemma {:induction false} StableWhenAllocated(cs: seq<Candidate>, i: nat)
    requires StableAllocations(cs) && i < |Allocations(cs)|
    ensures StablePosition(cs, Allocations(cs)[i].strategyId)
  {
    hide Allocations, PositionOf;
    var s := Allocations(cs)[i].strategyId;
    forall ds: seq<Candidate> | multiset(ds) == multiset(cs) ensures PositionOf(ds, s) == PositionOf(cs, s) {
      AllocatedPosition(cs, ds, i);
    }
  }

  lemma {:induction false} SameAllocations(cs: seq<Candidate>, ds: seq<Candidate>)
    requires multiset(ds) == multiset(cs) && PaidFromOnePosition(cs)
    ensures Allocations(ds) == Allocations(cs)
  {
    hide Allocations, OnePosition, PositionOf, Oldest, PositiveTotal;
    var a, b := Allocations(cs), Allocations(ds);
    OrderDoesNotMatter(cs, ds);
    forall i | 0 <= i < |a| ensures a[i] == b[i] {
      AllocatedPosition(cs, ds, i);
      assert Allocated(a, a[i].strategyId);
      AllocatedExactly(cs, a[i].strategyId);
      var j :| 0 <= j < |cs| && cs[j].strategyId == a[i].strategyId;
      SamePosition(cs, ds, a[i].strategyId);
    }
  }

  /** The order does matter for two candidates of one strategy with different position ids. */
  lemma {:induction false} PositionDependsOnOrder()
    ensures var (c, d) := (Candidate(1, Some(11), 5.0, 0), Candidate(1, Some(12), 5.0, 0));
      Allocations([c, d]) == [Allocation(1, Some(11), 1.0)] && Allocations([d, c]) == [Allocation(1, Some(12), 1.0)]
  {
    var c, d := Candidate(1, Some(11), 5.0, 0), Candidate(1, Some(12), 5.0, 0);
    TwoOfOne(c, d);
    TwoOfOne(d, c);
  }

  lemma {:induction false} TwoOfOne(c: Candidate, d: Candidate)
    requires c.strategyId == d.strategyId && c.notional > 0.0 && d.notional > 0.0 && c.positionId.Some?
    ensures Allocations([c, d]) == [Allocation(c.strategyId, c.positionId, 1.0)]
  {
    assert [c, d][..1] == [c] && [c][..0] == [];
    var r := Row(c.strategyId, c.positionId, c.notional, c.createdAt);
    assert Merge([c]) == [r];
    assert FindStrategy([r], d.strategyId) == 0;
    var m := [Row(c.strategyId, c.positionId, c.notional + d.notional, MinI(c.createdAt, d.createdAt))];
    assert Merge([c, d]) == m;
    assert Sort(m, Before) == m;
    assert m[..0] == [];
    var total := Total(m);
    assert Total(m[..|m| - 1]) == 0.0;
    assert total == c.notional + d.notional;
    WholeOverItself(total);
    assert Shares(m, total) == [Allocation(c.strategyId, c.positionId, Fraction(total, total))];
  }

  // ----- Rounding the shares -----

  /** Rounding half away from zero, as `ROUND_HALF_UP` of the decimal type does. */
  function RoundHalfAway(x: real): int { if x >= 0.0 then (x + 0.5).Floor else -(-x + 0.5).Floor }

  /** A share of `units` (whole units of 1e-12), rounded to whole units. */
  function Portion(units: int, ratio: real): int { RoundHalfAway(units as real * ratio) }

  /** What each allocation is paid. */
  function Assigned(units: int, shares: seq<Allocation>): (out: seq<int>)
    ensures |out| == |shares|
  {
    if shares == [] then []
    else Assigned(units, shares[..|shares| - 1]) + [Portion(units, shares[|shares| - 1].ratio)]
  }

  function SumInts(xs: seq<int>): int { if xs == [] then 0 else SumInts(xs[..|xs| - 1]) + xs[|xs| - 1] }

  lemma {:induction false} RoundError(x: real)
    ensures -0.5 <= RoundHalfAway(x) as real - x <= 0.5
  {}

  /** `paid` differs from that share of `units` by at most half a unit for each of `n` payments. */
  predicate Close(units: int, n: nat, paid: int, share: real) {
    -(n as real) / 2.0 <= paid as real - units as real * share <= n as real / 2.0
  }

  lemma {:induction false} AssignedError(units: int, shares: seq<Allocation>)
    ensures Close(units, |shares|, SumInts(Assigned(units, shares)), SumRatios(shares))
  {
    hide Close, Portion;
    if shares == [] {
      CloseToNothing(units);
    } else {
      var n := |shares| - 1;
      AssignedError(units, shares[..n]);
      AssignedSnoc(units, shares);
      hide Assigned, SumInts, SumRatios;
      ErrorAdds(units, n, SumInts(Assigned(units, shares[..n])), SumRatios(shares[..n]), shares[n].ratio);
    }
  }

  lemma {:induction false} CloseToNothing(units: int)
    ensures Close(units, 0, 0, 0.0)
  {}

  lemma {:induction false} AssignedSnoc(units: int, shares: seq<Allocation>)
    requires shares != []
    ensures var (init, last) := (shares[..|shares| - 1], shares[|shares| - 1].ratio);
      && SumInts(Assigned(units, shares)) == SumInts(Assigned(units, init)) + Portion(units, last)
      && SumRatios(shares) == SumRatios(init) + last
  {
    assert Assigned(units, shares)[..|shares| - 1] == Assigned(units, shares[..|shares| - 1]);
  }

  lemma {:induction false} ErrorAdds(units: int, n: nat, paid: int, ratios: real, r: real)
    requires Close(units, n, paid, ratios)
    ensures Close(units, n + 1, paid + Portion(units, r), ratios + r)
  {
    var u, last := units as real, Portion(units, r);
    RoundError(u * r);
    assert u * (ratios + r) == u * ratios + u * r;
    assert (paid + last) as real == paid as real + last as real;
  }

  /** The payments made for one event differ from its amount by at most half a unit per strategy. */
  lemma {:induction false} AssignedTotalIsClose(units: int, cs: seq<Candidate>)
    requires cs != []
    ensures var paid := Assigned(units, Allocations(cs));
      -|paid| <= 2 * (SumInts(paid) - units) <= |paid|
  {
    RatiosShareOutTheWhole(cs);
    AssignedError(units, Allocations(cs));
  }
}
