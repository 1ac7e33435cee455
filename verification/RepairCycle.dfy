/** A whole scan and the repair plan that follows it: what happens to every strategy. */
module RepairCycle {
  import opened Arith
  import opened MismatchGuard
  import opened Repair
  import opened RepairBounds
  import opened RepairPlan

  function ItemOf(d: Decision): Item
    requires d.Repair?
  {
    Item(d.sid, Some(d.side), d.base)
  }

  /** The repairs among the decisions of a scan, in order. */
  function PlanOf(ds: seq<Decision>): seq<Item> {
    if ds == [] then []
    else PlanOf(ds[..|ds| - 1]) + if ds[|ds| - 1].Repair? then [ItemOf(ds[|ds| - 1])] else []
  }

  predicate About(d: Decision, sid: int) { d.Repair? && d.sid == sid }

  /** Item `i`, if any, is the only one of its strategy. */
  predicate OnlyItem(plan: seq<Item>, sid: int, i: int) {
    -1 <= i < |plan| && forall k :: 0 <= k < |plan| ==> (plan[k].sid == sid <==> k == i)
  }

  /** A strategy after its item. */
  function AfterItem(s: Strategy, it: Item, r: Reply): Strategy {
    if !Valid(it) || !Repairable(s) || Fails(s, it, r) then s else Repaired(s, it, r)
  }

  /** Items of other strategies do not matter. */
  lemma {:induction false} StrategyAfterPlan(book: Book, plan: seq<Item>, replies: seq<Reply>, sid: int, i: int)
    requires |plan| == |replies| && sid in book && OnlyItem(plan, sid, i)
    ensures var out := RepairAll(Outcome(book, [], [], []), plan, replies).book;
      sid in out && out[sid] == if i < 0 then book[sid] else AfterItem(book[sid], plan[i], replies[i])
  {
    if plan != [] {
      var n := |plan| - 1;
      StrategyAfterPlan(book, plan[..n], replies[..n], sid, if i == n then -1 else i);
      hide Fails, Repaired;
    }
  }

  lemma {:induction false} PlanLacks(ds: seq<Decision>, sid: int)
    requires forall k :: 0 <= k < |ds| ==> !About(ds[k], sid)
    ensures OnlyItem(PlanOf(ds), sid, -1)
  {
    if ds != [] {
      var n := |ds| - 1;
      PlanLacks(ds[..n], sid);
      assert !About(ds[n], sid);
    }
  }

  lemma {:induction false} PlanHas(ds: seq<Decision>, sid: int, j: nat) returns (i: int)
    requires j < |ds| && About(ds[j], sid)
    requires forall k :: 0 <= k < |ds| && k != j ==> !About(ds[k], sid)
    ensures OnlyItem(PlanOf(ds), sid, i) && i >= 0 && PlanOf(ds)[i] == ItemOf(ds[j])
  {
    var n := |ds| - 1;
    if j == n {
      PlanLacks(ds[..n], sid);
      i := |PlanOf(ds[..n])|;
    } else {
      i := PlanHas(ds[..n], sid, j);
      assert !About(ds[n], sid);
    }
  }

  predicate DistinctHolds(hs: seq<Hold>) { forall i, j :: 0 <= i < j < |hs| ==> hs[i].sid != hs[j].sid }

  /** The exchange holds what the database says. */
  ghost predicate InStep(h: Hold, s: Strategy) {
    && AllOpen(s.spot) && AllOpen(s.perp)
    && h.spot == Some(Total(s.spot)) && h.perp == Some(Total(s.perp))
    && h.leg.spotSize == Total(s.spot) && h.leg.perpSize == Total(s.perp)
  }

  function Gap(s: Strategy): real { Total(s.spot) - Total(s.perp) }

  /** The gap between the legs has not grown, nor turned round, but for rounding and dust. */
  predicate NoWider(before: real, after: real) {
    if before >= 0.0 then -(DUST + ROUNDING) <= after <= before + ENOUGH
    else before - ENOUGH <= after <= DUST + ROUNDING
  }

  function DecisionsOf(ws: Watches, call: Call): seq<Decision> { Scan(ws, call.now, call.c, call.holds).decisions }

  lemma {:induction false} ItemNarrows(ws: Watches, now: real, c: Config, h: Hold, s: Strategy, r: Reply)
    requires InStep(h, s) && Observe(ws, now, c, h).decision.Repair?
    ensures NoWider(Gap(s), Gap(AfterItem(s, ItemOf(Observe(ws, now, c, h).decision), r)))
  {
    var it := ItemOf(Observe(ws, now, c, h).decision);
    if Valid(it) && !Fails(s, it, r) {
      RepairNeverOverCorrects(ws, now, c, h, s, r);
      RepairTakesTheFill(s, it, r);
      hide Observe, Fails, Repaired, Filled, Total;
    }
  }

  lemma {:induction false} DecisionNamesItsHold(ws: Watches, now: real, c: Config, h: Hold)
    ensures Observe(ws, now, c, h).decision.Repair? ==> Observe(ws, now, c, h).decision.sid == h.sid
  {
    hide Breach, Due, HeldBack, ReduceBase, LegSize, Round10, ReduceUsd;
  }

  /** Only hold `j` can lead to a repair of its strategy. */
  lemma {:induction false} OnlyItsHold(ws: Watches, call: Call, j: nat)
    requires DistinctHolds(call.holds) && j < |call.holds|
    ensures |DecisionsOf(ws, call)| == |call.holds|
    ensures forall k :: 0 <= k < |call.holds| && k != j ==> !About(DecisionsOf(ws, call)[k], call.holds[j].sid)
    ensures DecisionsOf(ws, call)[j].Repair? ==> About(DecisionsOf(ws, call)[j], call.holds[j].sid)
  {
    hide Observe, ObserveAll;
    DecisionsOfScan(ws, call.now, call.c, call.holds, j);
    forall k | 0 <= k < |call.holds|
      ensures DecisionsOf(ws, call)[k].Repair? ==> DecisionsOf(ws, call)[k].sid == call.holds[k].sid
    {
      DecisionsOfScan(ws, call.now, call.c, call.holds, k);
      DecisionNamesItsHold(ObserveAll(ws, call.now, call.c, call.holds[..k]).ws, call.now, call.c, call.holds[k]);
    }
  }

  /** A scan and its repair plan over distinct strategies: whatever the orders answer, the gap of every
      strategy whose legs agree with the exchange ends no wider and never turned round. */
  lemma {:induction false} CycleNeverOverCorrects(ws: Watches, call: Call, book: Book, replies: seq<Reply>, j: nat)
    requires DistinctHolds(call.holds) && j < |call.holds|
    requires var h := call.holds[j]; h.sid in book && InStep(h, book[h.sid])
    requires |replies| == |PlanOf(DecisionsOf(ws, call))|
    ensures var out := RepairAll(Outcome(book, [], [], []), PlanOf(DecisionsOf(ws, call)), replies).book;
      call.holds[j].sid in out && NoWider(Gap(book[call.holds[j].sid]), Gap(out[call.holds[j].sid]))
  {
    var h, ds := call.holds[j], DecisionsOf(ws, call);
    OnlyItsHold(ws, call, j);
    if ds[j].Repair? {
      var i := PlanHas(ds, h.sid, j);
      StrategyAfterPlan(book, PlanOf(ds), replies, h.sid, i);
      DecisionsOfScan(ws, call.now, call.c, call.holds, j);
      hide Observe, ObserveAll, RepairAll, AfterItem, InStep, Gap, NoWider, PlanOf;
      ItemNarrows(ObserveAll(ws, call.now, call.c, call.holds[..j]).ws, call.now, call.c, h, book[h.sid], replies[i]);
    } else {
      hide Observe, ObserveAll, RepairAll, AfterItem, InStep, Gap, PlanOf;
      PlanLacks(ds, h.sid);
      StrategyAfterPlan(book, PlanOf(ds), replies, h.sid, -1);
    }
  }

  /** A strategy that was not scanned is left alone. */
  lemma {:induction false} UnscannedIsUntouched(ws: Watches, call: Call, book: Book, replies: seq<Reply>, sid: int)
    requires sid in book && forall j :: 0 <= j < |call.holds| ==> call.holds[j].sid != sid
    requires |replies| == |PlanOf(DecisionsOf(ws, call))|
    ensures var out := RepairAll(Outcome(book, [], [], []), PlanOf(DecisionsOf(ws, call)), replies).book;
      sid in out && out[sid] == book[sid]
  {
    var ds := DecisionsOf(ws, call);
    if call.holds != [] {
      DecisionsOfScan(ws, call.now, call.c, call.holds, 0);
    }
    hide Observe, ObserveAll, RepairAll, AfterItem, PlanOf;
    forall k | 0 <= k < |ds| ensures !About(ds[k], sid) {
      DecisionsOfScan(ws, call.now, call.c, call.holds, k);
      DecisionNamesItsHold(ObserveAll(ws, call.now, call.c, call.holds[..k]).ws, call.now, call.c, call.holds[k]);
    }
    PlanLacks(ds, sid);
    StrategyAfterPlan(book, PlanOf(ds), replies, sid, -1);
  }
}
