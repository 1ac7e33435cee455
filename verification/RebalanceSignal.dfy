/** Whether a rebalance plan pays: its expected gain against fees, leg risk and the deadbands. */
module RebalanceSignal {
  import opened Arith
  import opened DeltaPlan

  /** The configured deadbands, before clamping at zero. */
  datatype Deadband = Deadband(relPct: real, absUsdDay: real)

  datatype Signal = Signal(
    gross: real, fees: real, switchCost: real, adv: real, meetsAbs: bool, meetsRel: bool, hasDelta: bool, raw: bool)

  function SumBy<T>(items: seq<T>, f: T -> real): real {
    if items == [] then 0.0 else SumBy(items[..|items| - 1], f) + f(items[|items| - 1])
  }

  function KeepExpected(k: KeepItem): real { Usd(k.keptCents) * k.e24 / 100.0 }

  function OpenExpected(o: OpenItem): real { Usd(o.cents) * o.e24 / 100.0 }

  function OpenFee(o: OpenItem): real { Usd(o.cents) * MaxR(0.0, o.openFee) / 100.0 }

  function CloseFee(c: CloseItem): real { Usd(c.cents) * MaxR(0.0, c.closeFee) / 100.0 }

  function OpenRisk(o: OpenItem): real { Usd(o.cents) * MaxR(0.0, o.legRisk) / 100.0 }

  function CloseRisk(c: CloseItem): real { Usd(c.cents) * MaxR(0.0, c.legRisk) / 100.0 }

  function OpenDays(o: OpenItem): real { Usd(o.cents) * MaxR(1.0, o.holdDays) }

  function CloseDays(c: CloseItem): real { Usd(c.cents) * MaxR(1.0, c.holdDays) }

  function OpenUsd(o: OpenItem): real { Usd(o.cents) }

  function CloseUsd(c: CloseItem): real { Usd(c.cents) }

  function Per(x: real, days: real): real
    requires days > 0.0
  {
    x / days
  }

  function PctOf(x: real, base: real): real
    requires base > 0.0
  {
    x / base * 100.0
  }

  /** Size-weighted holding time of the legs being switched, between 1 and 14 days. */
  function HoldDays(plan: Plan): real {
    var days := SumBy(plan.opens, OpenDays) + SumBy(plan.closes, CloseDays);
    var weight := SumBy(plan.opens, OpenUsd) + SumBy(plan.closes, CloseUsd);
    MaxR(1.0, MinR(14.0, if weight > 0.0 then Per(days, weight) else 2.0))
  }

  function OneTimeFees(plan: Plan): real { SumBy(plan.closes, CloseFee) + SumBy(plan.opens, OpenFee) }

  function OperationRisk(plan: Plan): real { SumBy(plan.opens, OpenRisk) + SumBy(plan.closes, CloseRisk) }

  function Evaluate(plan: Plan, currentExpected: real, band: Deadband): Signal {
    var gross := SumBy(plan.keeps, KeepExpected) + SumBy(plan.opens, OpenExpected) - currentExpected;
    var fees := OneTimeFees(plan);
    var cost := Per(fees, HoldDays(plan)) + OperationRisk(plan);
    var adv := gross - cost;
    var relMin, absMin := MaxR(0.0, band.relPct), MaxR(0.0, band.absUsdDay);
    var base := AbsR(currentExpected);
    var meetsAbs := adv >= absMin;
    var meetsRel := if base > 0.000000001 then PctOf(adv, base) >= relMin else meetsAbs;
    var hasDelta := |plan.opens| + |plan.closes| > 0;
    Signal(gross, fees, cost, adv, meetsAbs, meetsRel, hasDelta, hasDelta && meetsAbs && meetsRel)
  }

  lemma {:induction false} SumNonNegative<T>(items: seq<T>, f: T -> real)
    requires forall x :: x in items ==> f(x) >= 0.0
    ensures SumBy(items, f) >= 0.0
  {
    if items != [] {
      var n := |items| - 1;
      assert items == items[..n] + [items[n]];
      SumNonNegative(items[..n], f);
    }
  }

  lemma {:induction false} ShareNonNegative(cents: nat, pct: real)
    requires pct >= 0.0
    ensures Usd(cents) * pct / 100.0 >= 0.0
  {}

  /** A rebalance is signalled only when the day's gain covers at least a fourteenth of the
      one-time fees on top of the absolute deadband; so never for an expected loss. */
  lemma {:induction false} SignalPaysForItself(plan: Plan, currentExpected: real, band: Deadband)
    requires Evaluate(plan, currentExpected, band).raw
    ensures var s := Evaluate(plan, currentExpected, band);
      s.fees >= 0.0 && s.gross >= MaxR(0.0, band.absUsdDay) + s.fees / 14.0
    ensures plan.opens != [] || plan.closes != []
  {
    var s := Evaluate(plan, currentExpected, band);
    forall o | o in plan.opens ensures OpenFee(o) >= 0.0 && OpenRisk(o) >= 0.0 {
      ShareNonNegative(o.cents, MaxR(0.0, o.openFee));
      ShareNonNegative(o.cents, MaxR(0.0, o.legRisk));
    }
    forall c | c in plan.closes ensures CloseFee(c) >= 0.0 && CloseRisk(c) >= 0.0 {
      ShareNonNegative(c.cents, MaxR(0.0, c.closeFee));
      ShareNonNegative(c.cents, MaxR(0.0, c.legRisk));
    }
    SumNonNegative(plan.opens, OpenFee);
    SumNonNegative(plan.closes, CloseFee);
    SumNonNegative(plan.opens, OpenRisk);
    SumNonNegative(plan.closes, CloseRisk);
    var h := HoldDays(plan);
    FeesPerDay(s.fees, h);
  }

  lemma {:induction false} FeesPerDay(fees: real, days: real)
    requires fees >= 0.0 && 1.0 <= days <= 14.0
    ensures fees / days >= fees / 14.0
  {
    assert fees / days * days == fees;
    var q := fees / days;
    assert q >= 0.0;
    assert q * 14.0 >= q * days;
  }

  /** The evaluation, with the running totals the program keeps. */
  method EvaluatePlan(plan: Plan, currentExpected: real, band: Deadband) returns (s: Signal)
    ensures s == Evaluate(plan, currentExpected, band)
  {
    hide KeepExpected, OpenExpected, OpenFee, CloseFee, OpenRisk, CloseRisk, OpenDays, CloseDays, Usd, AbsR, Per, PctOf;
    var keepExpected := 0.0;
    for i := 0 to |plan.keeps|
      invariant keepExpected == SumBy(plan.keeps[..i], KeepExpected)
    {
      assert plan.keeps[..i + 1][..i] == plan.keeps[..i];
      keepExpected := keepExpected + KeepExpected(plan.keeps[i]);
    }
    assert plan.keeps[..|plan.keeps|] == plan.keeps;
    var openExpected, openFee, days, weight, risk := 0.0, 0.0, 0.0, 0.0, 0.0;
    for i := 0 to |plan.opens|
      invariant openExpected == SumBy(plan.opens[..i], OpenExpected) && openFee == SumBy(plan.opens[..i], OpenFee)
      invariant days == SumBy(plan.opens[..i], OpenDays) && weight == SumBy(plan.opens[..i], OpenUsd)
      invariant risk == SumBy(plan.opens[..i], OpenRisk)
    {
      assert plan.opens[..i + 1][..i] == plan.opens[..i];
      var o := plan.opens[i];
      openExpected, openFee := openExpected + OpenExpected(o), openFee + OpenFee(o);
      days, weight, risk := days + OpenDays(o), weight + Usd(o.cents), risk + OpenRisk(o);
    }
    assert plan.opens[..|plan.opens|] == plan.opens;
    ghost var days0, weight0, risk0 := days, weight, risk;
    var closeFee := 0.0;
    for i := 0 to |plan.closes|
      invariant closeFee == SumBy(plan.closes[..i], CloseFee)
      invariant days == days0 + SumBy(plan.closes[..i], CloseDays)
      invariant weight == weight0 + SumBy(plan.closes[..i], CloseUsd)
      invariant risk == risk0 + SumBy(plan.closes[..i], CloseRisk)
    {
      assert plan.closes[..i + 1][..i] == plan.closes[..i];
      var c := plan.closes[i];
      closeFee, days := closeFee + CloseFee(c), days + CloseDays(c);
      weight, risk := weight + Usd(c.cents), risk + CloseRisk(c);
    }
    assert plan.closes[..|plan.closes|] == plan.closes;
    hide SumBy;
    var holdDays := MaxR(1.0, MinR(14.0, if weight > 0.0 then Per(days, weight) else 2.0));
    assert holdDays == HoldDays(plan);
    var gross := keepExpected + openExpected - currentExpected;
    var fees := closeFee + openFee;
    var cost := Per(fees, holdDays) + risk;
    var adv := gross - cost;
    var base := AbsR(currentExpected);
    var meetsAbs := adv >= MaxR(0.0, band.absUsdDay);
    var meetsRel := if base > 0.000000001 then PctOf(adv, base) >= MaxR(0.0, band.relPct) else meetsAbs;
    var hasDelta := |plan.opens| + |plan.closes| > 0;
    s := Signal(gross, fees, cost, adv, meetsAbs, meetsRel, hasDelta, hasDelta && meetsAbs && meetsRel);
  }
}
