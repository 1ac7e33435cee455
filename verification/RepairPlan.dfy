/** Carrying out a repair plan: each item places one order, and the fill is taken off the open rows. */
module RepairPlan {
  import opened Arith
  import opened Sorting
  import opened MismatchGuard
  import opened Repair
  import opened RepairBounds

  datatype Status = Active | Closing | Error | Closed | Other

  /** A strategy with the open rows of its two legs, and whether its exchanges are known. */
  datatype Strategy = Strategy(status: Status, spot: seq<Row>, perp: seq<Row>, spotKnown: bool, perpKnown: bool)

  datatype Item = Item(sid: int, side: Option<Side>, base: real)

  /** What the exchange answers to the order of an item, and the contract size, if it can be read. */
  datatype Reply = Reply(order: Option<Order>, contractSize: Option<real>)

  type Book = map<int, Strategy>

  function OpenRows(rows: seq<Row>): seq<Row> {
    if rows == [] then []
    else OpenRows(rows[..|rows| - 1]) + if rows[|rows| - 1].isOpen then [rows[|rows| - 1]] else []
  }

  function Rows(s: Strategy, side: Side): seq<Row> { if side.SpotSide? then s.spot else s.perp }

  predicate Repairable(s: Strategy) { s.status.Active? || s.status.Closing? || s.status.Error? }

  predicate Valid(it: Item) { it.sid > 0 && it.side.Some? && it.base > 0.0 }

  /** The quantity ordered: no more than the leg has. */
  function Requested(s: Strategy, it: Item): real
    requires Valid(it)
  {
    MinR(it.base, Total(Rows(s, it.side.value)))
  }

  function Filled(s: Strategy, it: Item, r: Reply): real
    requires Valid(it)
  {
    ExtractFilled(r.contractSize, r.order, Requested(s, it), it.side.value.SpotSide?)
  }

  predicate Fails(s: Strategy, it: Item, r: Reply)
    requires Valid(it)
  {
    var side := it.side.value;
    || Rows(s, side) == [] || !(if side.SpotSide? then s.spotKnown else s.perpKnown)
    || Requested(s, it) <= 0.0 || r.order.None? || Filled(s, it, r) <= 0.0
  }

  function Repaired(s: Strategy, it: Item, r: Reply): Strategy
    requires Valid(it)
  {
    var left := OpenRows(Reduce(Rows(s, it.side.value), Filled(s, it, r)).rows);
    var t := if it.side.value.SpotSide? then s.(spot := left) else s.(perp := left);
    t.(status := if t.spot == [] && t.perp == [] then Closed else Active)
  }

  datatype Outcome = Outcome(book: Book, repaired: seq<int>, failed: seq<int>, fallback: seq<int>)

  function WithFallback(fallback: seq<int>, sid: int): seq<int> {
    if sid in fallback then fallback else fallback + [sid]
  }

  function RepairOne(o: Outcome, it: Item, r: Reply): Outcome {
    if !Valid(it) then
      o.(failed := o.failed + [it.sid], fallback := if it.sid > 0 then WithFallback(o.fallback, it.sid) else o.fallback)
    else if it.sid !in o.book || !Repairable(o.book[it.sid]) then o.(failed := o.failed + [it.sid])
    else if Fails(o.book[it.sid], it, r) then
      o.(failed := o.failed + [it.sid], fallback := WithFallback(o.fallback, it.sid))
    else o.(book := o.book[it.sid := Repaired(o.book[it.sid], it, r)], repaired := o.repaired + [it.sid])
  }

  function RepairAll(o: Outcome, plan: seq<Item>, replies: seq<Reply>): Outcome
    requires |plan| == |replies|
  {
    if plan == [] then o
    else
      var n := |plan| - 1;
      RepairOne(RepairAll(o, plan[..n], replies[..n]), plan[n], replies[n])
  }

  class Orchestrator {
    var book: Book

    constructor (book: Book)
      ensures this.book == book
    {
      this.book := book;
    }

    method ExecuteMismatchRepairPlan(plan: seq<Item>, replies: seq<Reply>)
      returns (repaired: seq<int>, failed: seq<int>, fallback: seq<int>)
      requires |plan| == |replies|
      modifies this
      ensures Outcome(book, repaired, failed, fallback) == RepairAll(Outcome(old(book), [], [], []), plan, replies)
    {
      repaired, failed, fallback := [], [], [];
      for i := 0 to |plan|
        invariant Outcome(book, repaired, failed, fallback) ==
          RepairAll(Outcome(old(book), [], [], []), plan[..i], replies[..i])
      {
        assert plan[..i + 1][..i] == plan[..i] && replies[..i + 1][..i] == replies[..i];
        var it := plan[i];
        if !(it.sid > 0 && it.side.Some? && it.base > 0.0) {
          failed := failed + [it.sid];
          if it.sid > 0 && it.sid !in fallback {
            fallback := fallback + [it.sid];
          }
          continue;
        }
        if it.sid !in book || !Repairable(book[it.sid]) {
          failed := failed + [it.sid];
          continue;
        }
        var ok := ReduceLeg(it, replies[i]);
        if ok {
          repaired := repaired + [it.sid];
        } else {
          failed := failed + [it.sid];
          if it.sid !in fallback {
            fallback := fallback + [it.sid];
          }
        }
      }
      assert plan[..|plan|] == plan && replies[..|replies|] == replies;
    }

    /** One item: the order, the fill, the rows, and the strategy's status after them. */
    method ReduceLeg(it: Item, r: Reply) returns (ok: bool)
      requires Valid(it) && it.sid in book
      modifies this
      ensures ok <==> !Fails(old(book)[it.sid], it, r)
      ensures book == if ok then old(book)[it.sid := Repaired(old(book)[it.sid], it, r)] else old(book)
    {
      hide Reduce, ExtractFilled, Total, OpenRows;
      var s := book[it.sid];
      var side := it.side.value;
      var rows := if side.SpotSide? then s.spot else s.perp;
      if rows == [] || !(if side.SpotSide? then s.spotKnown else s.perpKnown) {
        return false;
      }
      var requested := MinR(it.base, Total(rows));
      if requested <= 0.0 || r.order.None? {
        return false;
      }
      var filled := ExtractFilled(r.contractSize, r.order, requested, side.SpotSide?);
      if filled <= 0.0 {
        return false;
      }
      var positions := new Row[|rows|](i requires 0 <= i < |rows| => rows[i]);
      assert positions[..] == rows;
      var touched := ApplyReduceOnPositions(positions, filled);
      var left := OpenRows(positions[..]);
      var t := if side.SpotSide? then s.(spot := left) else s.(perp := left);
      if t.spot != [] || t.perp != [] {
        t := t.(status := Active);
      } else {
        t := t.(status := Closed);
      }
      book := book[it.sid := t];
      return true;
    }
  }

  // ----- What a plan can do -----

  ghost predicate Accounted(o: Outcome, book: Book, n: nat) {
    && |o.repaired| + |o.failed| == n
    && Distinct(o.fallback)
    && (forall sid :: sid in o.fallback ==> sid in o.failed && sid > 0)
    && (forall sid :: sid in o.book <==> sid in book)
    && (forall sid :: sid in book && sid !in o.repaired ==> o.book[sid] == book[sid])
  }

  lemma {:induction false} ItemIsAccountedFor(o: Outcome, book: Book, n: nat, it: Item, r: Reply)
    requires Accounted(o, book, n)
    ensures Accounted(RepairOne(o, it, r), book, n + 1)
  {
    hide Fails, Repaired, Filled, Requested;
    var q := RepairOne(o, it, r);
    if q.fallback != o.fallback {
      assert it.sid !in o.fallback;
      hide RepairOne;
      assert Distinct(o.fallback + [it.sid]);
    }
  }

  /** Every item ends up repaired or failed; a strategy is handed over for closing at most once, and only
      after a failure; and only repaired strategies change. */
  lemma {:induction false} PlanIsAccountedFor(book: Book, plan: seq<Item>, replies: seq<Reply>)
    requires |plan| == |replies|
    ensures Accounted(RepairAll(Outcome(book, [], [], []), plan, replies), book, |plan|)
  {
    if plan != [] {
      var n := |plan| - 1;
      PlanIsAccountedFor(book, plan[..n], replies[..n]);
      hide Accounted, RepairOne;
      ItemIsAccountedFor(RepairAll(Outcome(book, [], [], []), plan[..n], replies[..n]), book, n, plan[n], replies[n]);
    }
  }

  // ----- No repair over-corrects -----

  lemma {:induction false} TotalOfOpen(rows: seq<Row>)
    requires forall i :: 0 <= i < |rows| && !rows[i].isOpen ==> rows[i].size <= 0.0
    ensures Total(OpenRows(rows)) == Total(rows)
  {
    if rows != [] {
      var n := |rows| - 1;
      TotalOfOpen(rows[..n]);
      if rows[n].isOpen {
        assert OpenRows(rows)[..|OpenRows(rows)| - 1] == OpenRows(rows[..n]);
      } else {
        assert OpenRows(rows) == OpenRows(rows[..n]);
      }
    }
  }

  ghost predicate AllOpen(rows: seq<Row>) { forall i :: 0 <= i < |rows| ==> rows[i].isOpen }

  /** A repair takes the fill off its leg, to within 1e-12 and 1e-10 of dust, and leaves the other leg alone. */
  lemma {:induction false} RepairTakesTheFill(s: Strategy, it: Item, r: Reply)
    requires Valid(it) && !Fails(s, it, r) && AllOpen(Rows(s, it.side.value))
    ensures var (t, side) := (Repaired(s, it, r), it.side.value);
      && Total(Rows(s, side)) - Filled(s, it, r) - DUST <= Total(Rows(t, side))
                                                         <= Total(Rows(s, side)) - Filled(s, it, r) + ENOUGH
      && (side.SpotSide? ==> t.perp == s.perp) && (side.PerpSide? ==> t.spot == s.spot)
      && 0.0 < Filled(s, it, r) <= it.base
      && (t.status.Closed? <==> t.spot == [] && t.perp == [])
  {
    var rows, f := Rows(s, it.side.value), Filled(s, it, r);
    ReduceTakesWhatIsAsked(rows, f);
    var out := Reduce(rows, f).rows;
    hide Reduce, Taken;
    forall i | 0 <= i < |out| && !out[i].isOpen ensures out[i].size <= 0.0 {
      assert rows[i].isOpen;
      FateOfRow(rows, Reduce(rows, f), i);
    }
    TotalOfOpen(out);
  }

  lemma {:induction false} FateOfRow(rows: seq<Row>, r: Reduction, i: nat)
    requires Fates(rows, r) && i < |rows| && rows[i].isOpen && !r.rows[i].isOpen
    ensures r.rows[i].size == 0.0
  {}

  /** The rounding slack of a planned quantity. */
  const ROUNDING: real := 0.00000000005

  /** When the exchange holds what the database says, a planned repair shrinks the mismatch by what was
      filled and never turns it round, but for rounding and dust of at most 1.5e-10. */
  lemma {:induction false} RepairNeverOverCorrects(ws: Watches, now: real, c: Config, h: Hold, s: Strategy, r: Reply)
    requires Observe(ws, now, c, h).decision.Repair?
    requires AllOpen(s.spot) && AllOpen(s.perp)
    requires h.spot == Some(Total(s.spot)) && h.perp == Some(Total(s.perp))
    requires h.leg.spotSize == Total(s.spot) && h.leg.perpSize == Total(s.perp)
    requires var d := Observe(ws, now, c, h).decision;
      var it := Item(d.sid, Some(d.side), d.base);
      Valid(it) && !Fails(s, it, r)
    ensures var d := Observe(ws, now, c, h).decision;
      var it := Item(d.sid, Some(d.side), d.base);
      var (t, f) := (Repaired(s, it, r), Filled(s, it, r));
      var (large, small) := (Total(Rows(s, d.side)), Total(Rows(s, Opposite(d.side))));
      var (large', small') := (Total(Rows(t, d.side)), Total(Rows(t, Opposite(d.side))));
      && small' == small && large > small
      && -(DUST + ROUNDING) <= large' - small' <= large - small - f + ENOUGH
  {
    var d := Observe(ws, now, c, h).decision;
    RepairIsTheExcess(ws, now, c, h);
    var it := Item(d.sid, Some(d.side), d.base);
    RepairTakesTheFill(s, it, r);
    RequestWithinExcess(s, it, r);
    hide Observe, Repaired, Filled, Fails, Total, Requested;
  }

  function Opposite(side: Side): Side { if side.SpotSide? then PerpSide else SpotSide }

  lemma {:induction false} RequestWithinExcess(s: Strategy, it: Item, r: Reply)
    requires Valid(it)
    ensures Filled(s, it, r) <= MaxR(0.0, MinR(it.base, Total(Rows(s, it.side.value))))
  {}
}
