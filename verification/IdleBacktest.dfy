/** The simulator as shipped never trades: its rows carry no absolute basis, the
    allocator reads a missing one as zero, and rejects every row whose absolute
    basis is not positive. */
module IdleBacktest {
  import opened Arith
  import opened Sorting
  import opened Backtest
  import DeltaPlan
  import Allocator

  /** The model of the code as it stands. */
  ghost predicate SuppliesNoBasis(mod: Model) { forall r: Row :: mod.basisAbs(r) == 0.0 }

  lemma {:induction false} EligibleHasBasis(rows: seq<Allocator.OpenRow>, held: set<string>, cfg: Allocator.Config,
                                            nav: Allocator.Nav, caps: Allocator.Caps)
    ensures forall r :: r in Allocator.EligibleRows(rows, held, cfg, nav, caps) ==> r.basisAbs > 0.0 && r.basisPct > 0.0
  {
    if rows != [] {
      EligibleHasBasis(rows[..|rows| - 1], held, cfg, nav, caps);
    }
  }

  lemma {:induction false} SelectedAreRanked(start: Allocator.Progress, rows: seq<Allocator.OpenRow>,
                                             cfg: Allocator.Config, caps: Allocator.Caps, desired: nat)
    requires start.picks == []
    ensures forall k :: k in Allocator.Select(start, rows, cfg, caps, desired).picks ==> k.row in rows
  {
    if rows != [] {
      assert rows == rows[..|rows| - 1] + [rows[|rows| - 1]];
      SelectedAreRanked(start, rows[..|rows| - 1], cfg, caps, desired);
    }
  }

  /** Whatever is picked had a positive absolute basis. */
  lemma {:induction false} PicksHaveBasis(rows: seq<Allocator.OpenRow>, holds: seq<Allocator.Hold>,
                                          cfg: Allocator.Config,
                                          nav: Allocator.Nav, caps: Allocator.Caps)
    ensures forall k :: k in Allocator.Allocate(rows, holds, cfg, nav, caps).picks ==> k.row.basisAbs > 0.0
  {
    var eligible := Allocator.EligibleRows(rows, Allocator.HeldIds(holds), cfg, nav, caps);
    var ranked := Allocator.Ranked(rows, holds, cfg, nav, caps);
    EligibleHasBasis(rows, Allocator.HeldIds(holds), cfg, nav, caps);
    SortMultiset(eligible, Allocator.Preferred);
    var start := Allocator.Start(holds, cfg, nav, caps);
    SelectedAreRanked(start, ranked, cfg, caps, Allocator.DesiredNew(cfg, nav, |holds|, |ranked|));
    forall k | k in Allocator.Allocate(rows, holds, cfg, nav, caps).picks ensures k.row.basisAbs > 0.0 {
      assert k.row in multiset(ranked);
      assert k.row in eligible;
    }
  }

  lemma {:induction false} EligibleIsListed(rows: seq<Allocator.OpenRow>, held: set<string>, cfg: Allocator.Config,
                                            nav: Allocator.Nav, caps: Allocator.Caps)
    requires forall r :: r in rows ==> r.basisAbs <= 0.0
    ensures Allocator.EligibleRows(rows, held, cfg, nav, caps) == []
  {
    if rows != [] {
      assert rows == rows[..|rows| - 1] + [rows[|rows| - 1]];
      EligibleIsListed(rows[..|rows| - 1], held, cfg, nav, caps);
    }
  }

  lemma {:induction false} NoBasisOpenRows(mod: Model, rows: seq<Scored>)
    requires SuppliesNoBasis(mod)
    ensures forall r :: r in OpenRows(mod, rows) ==> r.basisAbs <= 0.0
  {
    if rows != [] {
      NoBasisOpenRows(mod, rows[..|rows| - 1]);
    }
  }

  lemma {:induction false} NoTargets(p: Params, mod: Model, rows: seq<Scored>, nav: real)
    requires SuppliesNoBasis(mod)
    ensures Targets(p, mod, rows, nav) == []
  {
    var open := OpenRows(mod, SelectRows(p, rows));
    NoBasisOpenRows(mod, SelectRows(p, rows));
    EligibleIsListed(open, Allocator.HeldIds([]), p.alloc, Allocator.Nav(MaxR(0.0, nav), false), map[]);
  }

  /** Nothing held, nothing gained or lost, nothing recorded. */
  predicate Idle(p: Params, s: State) {
    && s.positions == [] && s.equity == InitialNav(p) && s.openCount == 0 && s.closeCount == 0 && s.events == []
    && s.peak == InitialNav(p) && s.maxDd == 0.0
  }

  lemma {:induction false} EmptyPlan(targets: seq<DeltaPlan.Target>, minPair: real)
    requires targets == []
    ensures var plan := DeltaPlan.BuildPlan([], targets, minPair);
      plan.opens == [] && plan.closes == []
  {}

  lemma {:induction false} IdleDecision(w: World, p: Params, mod: Model, s: State, ts: int)
    requires SuppliesNoBasis(mod) && Idle(p, s)
    ensures !Decide(w, p, mod, s, ts).signal.raw
  {
    var rows := RowsFor(w, mod, DayRows(w, ts), MaxR(0.0, s.equity), ts);
    if !s.halted {
      NoTargets(p, mod, rows, s.equity);
      EmptyPlan([], p.alloc.minPairUsd);
      hide Targets, RowsFor, DeltaPlan.BuildPlan;
      assert CurrentRows(rows, s.positions) == [];
    }
  }

  lemma {:induction false} NoDrawdown(x: real)
    ensures DdPct(x, x) == 0.0
  {}

  lemma {:induction false} IdleRisk(p: Params, s: State, ts: int)
    requires Idle(p, s)
    ensures Idle(p, RiskCheck(p, s, ts))
  {
    hide DdPct;
    NoDrawdown(s.equity);
    var noted := NotePeak(s);
    assert Idle(p, noted) && PositionIds(noted.positions) == [];
  }

  lemma {:induction false} IdleConclude(p: Params, s: State, d: Decision, ts: int)
    requires Idle(p, s) && !d.signal.raw
    ensures Idle(p, Conclude(p, s, d, ts))
  {
    var counted := Count(s, d, ts);
    assert Idle(p, counted) && Rebalanced(p, s, d, ts) == counted;
    IdleRisk(p, counted, ts);
    hide Count, RiskCheck, Rebalanced;
  }

  /** So the shipped backtest opens nothing and reports a flat equity on every data set. */
  lemma {:induction false} ShippedBacktestNeverTrades(w: World, p: Params, mod: Model, buckets: seq<int>)
    requires SuppliesNoBasis(mod)
    ensures Idle(p, Run(w, p, mod, buckets))
  {
    if buckets != [] {
      var n := |buckets| - 1;
      ShippedBacktestNeverTrades(w, p, mod, buckets[..n]);
      var s, ts := Run(w, p, mod, buckets[..n]), buckets[n];
      IdleMark(w, p, s, ts);
      IdleDecision(w, p, mod, s, ts);
      hide Decide, Conclude, AfterMark;
      IdleConclude(p, s, Decide(w, p, mod, s, ts), ts);
    }
  }

  lemma {:induction false} IdleMark(w: World, p: Params, s: State, ts: int)
    requires s.positions == []
    ensures AfterMark(w, p, s, ts) == s
  {}

  // ----- When a bucket does have targets -----

  lemma {:induction false} SomeEligible(rows: seq<Allocator.OpenRow>, held: set<string>, cfg: Allocator.Config,
                                        nav: Allocator.Nav, caps: Allocator.Caps)
    ensures Allocator.EligibleRows(rows, held, cfg, nav, caps) != [] <==>
      exists r :: r in rows && Allocator.RejectReasons(r, held, cfg, nav, caps) == []
  {
    hide Allocator.RejectReasons;
    if rows != [] {
      assert rows == rows[..|rows| - 1] + [rows[|rows| - 1]];
      SomeEligible(rows[..|rows| - 1], held, cfg, nav, caps);
    }
  }

  lemma {:induction false} WorthAPair(budget: real, lo: real)
    requires lo >= 1.0
    ensures (budget / lo).Floor >= 1 <==> budget >= lo
  {
    var q := budget / lo;
    assert q * lo == budget;
    if q >= 1.0 {
      assert q * lo >= lo;
    } else {
      assert q * lo < lo;
    }
  }

  lemma {:induction false} FirstRowIsPicked(start: Allocator.Progress, rows: seq<Allocator.OpenRow>,
                                            cfg: Allocator.Config,
                                            desired: nat)
    requires start.picks == [] && rows != [] && Allocator.Open(start, cfg, desired)
    ensures Allocator.Select(start, rows, cfg, map[], desired).picks != []
  {
    var n := |rows| - 1;
    if n == 0 {
      assert rows[..0] == [];
    } else {
      FirstRowIsPicked(start, rows[..n], cfg, desired);
    }
  }

  lemma {:induction false} OpenRowsMembers(mod: Model, rows: seq<Scored>)
    ensures forall r :: r in OpenRows(mod, rows) <==> exists x :: x in rows && OpenRow(mod, x) == r
  {
    if rows != [] {
      assert rows == rows[..|rows| - 1] + [rows[|rows| - 1]];
      OpenRowsMembers(mod, rows[..|rows| - 1]);
    }
  }

  lemma {:induction false} TargetCount(rows: seq<Scored>, picks: seq<Allocator.Pick>)
    ensures |TargetsOf(rows, picks)| == |picks|
  {
    if picks != [] {
      TargetCount(rows, picks[..|picks| - 1]);
    }
  }

  /** A selectable row the allocator has no reason to reject. */
  predicate Tradable(p: Params, mod: Model, x: Scored, nav: real) {
    Allocator.RejectReasons(OpenRow(mod, x), {}, p.alloc, Allocator.Nav(MaxR(0.0, nav), false), map[]) == []
  }

  /** A bucket has targets exactly when the budget covers one minimum pair and some selectable row is
      tradable, which takes a positive absolute basis. */
  lemma {:induction false} TargetsExactlyWhenTradable(p: Params, mod: Model, rows: seq<Scored>, nav: real)
    ensures Targets(p, mod, rows, nav) != [] <==>
      && Allocator.TargetBudget(p.alloc, Allocator.Nav(MaxR(0.0, nav), false)) >= Allocator.MinPair(p.alloc)
      && exists x :: x in SelectRows(p, rows) && Tradable(p, mod, x, nav)
    ensures forall x :: Tradable(p, mod, x, nav) ==> mod.basisAbs(x.row) > 0.0
  {
    var cfg, n := p.alloc, Allocator.Nav(MaxR(0.0, nav), false);
    var open := OpenRows(mod, SelectRows(p, rows));
    var eligible, ranked := Allocator.EligibleRows(open, {}, cfg, n, map[]), Allocator.Ranked(open, [], cfg, n, map[]);
    OpenRowsMembers(mod, SelectRows(p, rows));
    SomeEligible(open, {}, cfg, n, map[]);
    assert Allocator.HeldIds([]) == {};
    SortMultiset(eligible, Allocator.Preferred);
    WorthAPair(Allocator.TargetBudget(cfg, n), Allocator.MinPair(cfg));
    TargetCount(SelectRows(p, rows), Picks(p, mod, rows, nav));
    hide Allocator.RejectReasons, Allocator.EligibleRows, Allocator.TargetBudget, Allocator.MinPair;
    hide OpenRows, SelectRows;
    PicksExactly(open, cfg, n);
    assert forall x :: x in SelectRows(p, rows) ==>
      (Tradable(p, mod, x, nav) <==> Allocator.RejectReasons(OpenRow(mod, x), {}, cfg, n, map[]) == []);
    TradableHasBasis(p, mod, nav);
  }

  lemma {:induction false} TradableHasBasis(p: Params, mod: Model, nav: real)
    ensures forall x :: Tradable(p, mod, x, nav) ==> mod.basisAbs(x.row) > 0.0
  {}

  lemma {:induction false} PicksExactly(open: seq<Allocator.OpenRow>, cfg: Allocator.Config, nav: Allocator.Nav)
    ensures Allocator.Allocate(open, [], cfg, nav, map[]).picks != [] <==>
      Allocator.TargetBudget(cfg, nav) >= Allocator.MinPair(cfg)
      && Allocator.EligibleRows(open, Allocator.HeldIds([]), cfg, nav, map[]) != []
  {
    var eligible := Allocator.EligibleRows(open, Allocator.HeldIds([]), cfg, nav, map[]);
    var ranked := Allocator.Ranked(open, [], cfg, nav, map[]);
    SortMultiset(eligible, Allocator.Preferred);
    WorthAPair(Allocator.TargetBudget(cfg, nav), Allocator.MinPair(cfg));
    var start := Allocator.Start([], cfg, nav, map[]);
    var desired := Allocator.DesiredNew(cfg, nav, 0, |ranked|);
    hide Allocator.EligibleRows, Allocator.TargetBudget;
    if ranked != [] && Allocator.Open(start, cfg, desired) {
      FirstRowIsPicked(start, ranked, cfg, desired);
    } else {
      Allocator.ClosedStaysClosed(start, ranked, cfg, map[], desired);
    }
  }
}
