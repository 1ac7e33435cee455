/** Taking a repair off the position rows of a strategy. */
module Repair {
  import opened Arith
  import opened Sorting
  import opened MismatchGuard

  const ENOUGH: real := 0.000000000001
  const DUST: real := 0.0000000001

  /** An open position row of one leg. */
  datatype Row = Row(id: int, size: real, isOpen: bool)

  datatype Touch = Touch(id: int, dec: real)

  // ----- Spreading a reduction over the rows -----

  datatype Rank = Rank(index: nat, size: real)

  predicate Bigger(x: Rank, y: Rank) { x.size > y.size }

  function Ranks(rows: seq<Row>): (rs: seq<Rank>)
    ensures |rs| == |rows| && forall i :: 0 <= i < |rs| ==> rs[i] == Rank(i, Positive(rows[i].size))
  {
    if rows == [] then []
    else Ranks(rows[..|rows| - 1]) + [Rank(|rows| - 1, Positive(rows[|rows| - 1].size))]
  }

  function Emptied(r: Row): Row { r.(size := 0.0, isOpen := false) }

  function Less(r: Row, dec: real): Row {
    var size := Positive(Positive(r.size) - dec);
    if size <= DUST then Emptied(r) else r.(size := size)
  }

  datatype Reduction = Reduction(rows: seq<Row>, left: real, touched: seq<Touch>)

  function ReduceAt(r: Reduction, i: nat): (s: Reduction)
    ensures |s.rows| == |r.rows|
  {
    if i >= |r.rows| || r.left <= ENOUGH || r.rows[i].size <= 0.0 then r
    else
      var dec := MinR(r.rows[i].size, r.left);
      Reduction(r.rows[i := Less(r.rows[i], dec)], r.left - dec, r.touched + [Touch(r.rows[i].id, dec)])
  }

  function ReduceAlong(r: Reduction, order: seq<Rank>): (s: Reduction)
    ensures |s.rows| == |r.rows|
  {
    if order == [] then r else ReduceAt(ReduceAlong(r, order[..|order| - 1]), order[|order| - 1].index)
  }

  /** Largest rows first. */
  function Reduce(rows: seq<Row>, base: real): Reduction {
    ReduceAlong(Reduction(rows, Positive(base), []), Sort(Ranks(rows), Bigger))
  }

  /** Changes the rows in place; the list of rows and what was taken off each is returned. */
  method ApplyReduceOnPositions(positions: array<Row>, base: real) returns (touched: seq<Touch>)
    modifies positions
    ensures var r := Reduce(old(positions[..]), base);
      positions[..] == r.rows && touched == r.touched
  {
    var left := Positive(base);
    touched := [];
    ghost var start := Reduction(positions[..], left, []);
    var order := Sort(Ranks(positions[..]), Bigger);
    RanksInRange(positions[..]);
    hide Sort, Ranks, ReduceAt;
    var k := 0;
    while k < |order| && left > ENOUGH
      invariant k <= |order| && Reduction(positions[..], left, touched) == ReduceAlong(start, order[..k])
    {
      assert order[..k + 1][..k] == order[..k];
      left, touched := ReduceRow(positions, order[k].index, left, touched);
      k := k + 1;
    }
    assert order[..k] + order[k..] == order;
    AlongConcat(start, order[..k], order[k..]);
    if k < |order| {
      NothingLeft(ReduceAlong(start, order[..k]), order[k..]);
    }
  }

  method ReduceRow(positions: array<Row>, i: nat, left: real, touched: seq<Touch>) returns (left': real,
                   touched': seq<Touch>)
    requires i < positions.Length && left > ENOUGH
    modifies positions
    ensures Reduction(positions[..], left', touched') == ReduceAt(Reduction(old(positions[..]), left, touched), i)
  {
    left', touched' := left, touched;
    var p := positions[i];
    var cur := Positive(p.size);
    if cur <= 0.0 {
      return;
    }
    var dec := MinR(cur, left);
    positions[i] := p.(size := Positive(cur - dec));
    left' := left - dec;
    touched' := touched + [Touch(p.id, dec)];
    if positions[i].size <= DUST {
      positions[i] := positions[i].(size := 0.0, isOpen := false);
    }
    assert positions[..] == old(positions[..])[i := Less(p, dec)];
  }

  lemma {:induction false} RanksInRange(rows: seq<Row>)
    ensures forall k :: 0 <= k < |Sort(Ranks(rows), Bigger)| ==> Sort(Ranks(rows), Bigger)[k].index < |rows|
  {
    var rs := Ranks(rows);
    SortMultiset(rs, Bigger);
    var out := Sort(rs, Bigger);
    forall k | 0 <= k < |out| ensures out[k].index < |rows| {
      assert out[k] in multiset(rs);
    }
  }

  lemma {:induction false} NothingLeft(r: Reduction, order: seq<Rank>)
    requires r.left <= ENOUGH
    ensures ReduceAlong(r, order) == r
  {
    if order != [] {
      NothingLeft(r, order[..|order| - 1]);
    }
  }

  lemma {:induction false} AlongConcat(r: Reduction, a: seq<Rank>, b: seq<Rank>)
    ensures ReduceAlong(r, a + b) == ReduceAlong(ReduceAlong(r, a), b)
  {
    if b == [] {
      assert a + b == a;
    } else {
      AlongConcat(r, a, b[..|b| - 1]);
      assert (a + b)[..|a + b| - 1] == a + b[..|b| - 1];
    }
  }

  // ----- What an order has filled -----

  /** The order result: whether there was nothing left to close, and the amounts it reports. */
  datatype Order = Order(alreadyClosed: bool, filled: real, amount: real)

  function RawAmount(o: Order): real { if Positive(o.filled) > 0.0 then o.filled else Positive(o.amount) }

  /** Of two readings of a perp amount, the one nearer to the request; the first on a tie. */
  function Nearer(x: real, y: real, req: real): real { if AbsR(y - req) < AbsR(x - req) then y else x }

  function InBase(contracts: real, contractSize: real): real { contracts * MaxR(0.000000001, contractSize) }

  /** Base units filled. A perp amount may count contracts or base units; without market data it is
      taken as it is. */
  function ExtractFilled(contractSize: Option<real>, order: Option<Order>, requested: real, isSpot: bool): (f: real)
    ensures 0.0 <= f <= Positive(requested)
  {
    var req := Positive(requested);
    if req <= 0.0 || order.None? then 0.0
    else if order.value.alreadyClosed then req
    else
      var raw := RawAmount(order.value);
      if raw <= 0.0 then 0.0
      else if isSpot || contractSize.None? then MinR(req, raw)
      else Positive(MinR(req, Nearer(raw, InBase(raw, contractSize.value), req)))
  }

  /** A complete fill is recognised in either unit. */
  lemma {:induction false} CompleteFillIsRecognised(contractSize: real, o: Order, req: real)
    requires req > 0.0 && contractSize >= 0.000000001 && RawAmount(o) > 0.0
    requires RawAmount(o) == req || RawAmount(o) * contractSize == req
    ensures ExtractFilled(Some(contractSize), Some(o), req, false) == req
  {}

  /** A fill reported in contracts is read correctly exactly when the base reading is strictly nearer to
      the request, or both readings cap at the same quantity. */
  lemma {:induction false} ContractFillReadCorrectly(contractSize: real, o: Order, req: real)
    requires req > 0.0 && contractSize >= 0.000000001 && RawAmount(o) > 0.0 && !o.alreadyClosed
    ensures var (raw, base) := (RawAmount(o), RawAmount(o) * contractSize);
      ExtractFilled(Some(contractSize), Some(o), req, false) == MinR(req, base)
      <==> (AbsR(base - req) < AbsR(raw - req) || MinR(req, raw) == MinR(req, base))
  {
    hide RawAmount, Nearer, AbsR, MinR, InBase;
    InBaseIsProduct(RawAmount(o), contractSize);
    ReadingsCompared(RawAmount(o), InBase(RawAmount(o), contractSize), req);
  }

  lemma {:induction false} InBaseIsProduct(contracts: real, contractSize: real)
    requires contracts > 0.0 && contractSize >= 0.000000001
    ensures InBase(contracts, contractSize) == contracts * contractSize > 0.0
  {}

  lemma {:induction false} ReadingsCompared(raw: real, base: real, req: real)
    requires req > 0.0 && raw > 0.0 && base > 0.0
    ensures Positive(MinR(req, Nearer(raw, base, req))) == MinR(req, base)
      <==> (AbsR(base - req) < AbsR(raw - req) || MinR(req, raw) == MinR(req, base))
    ensures Positive(MinR(req, Nearer(raw, base, req))) == MinR(req, raw)
      <==> (AbsR(raw - req) <= AbsR(base - req) || MinR(req, raw) == MinR(req, base))
  {}

  /** A fill reported in base units is read correctly exactly when the contract reading is not strictly
      nearer to the request, or both readings cap at the same quantity. */
  lemma {:induction false} BaseFillReadCorrectly(contractSize: real, o: Order, req: real)
    requires req > 0.0 && contractSize >= 0.000000001 && RawAmount(o) > 0.0 && !o.alreadyClosed
    ensures var (raw, scaled) := (RawAmount(o), RawAmount(o) * contractSize);
      ExtractFilled(Some(contractSize), Some(o), req, false) == MinR(req, raw)
      <==> (AbsR(raw - req) <= AbsR(scaled - req) || MinR(req, raw) == MinR(req, scaled))
  {
    hide RawAmount, Nearer, AbsR, MinR, InBase;
    InBaseIsProduct(RawAmount(o), contractSize);
    ReadingsCompared(RawAmount(o), InBase(RawAmount(o), contractSize), req);
  }

  /** Half a unit filled out of a request for 5, with contracts of 10, is read as the whole request. */
  lemma {:induction false} BaseFillCanBeMisread()
    ensures ExtractFilled(Some(10.0), Some(Order(false, 0.5, 5.0)), 5.0, false) == 5.0
  {}

  /** One contract of 0.01 filled out of a request for 1 is read as the whole request. */
  lemma {:induction false} PartialFillCanBeMisread()
    ensures ExtractFilled(Some(0.01), Some(Order(false, 1.0, 100.0)), 1.0, false) == 1.0
  {}
}
