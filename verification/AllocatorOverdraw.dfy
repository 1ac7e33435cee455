/** When the greedy selection charges a unified account beyond its cap. */
module AllocatorOverdraw {
  import opened Arith
  import opened Sorting
  import opened Allocator
  import opened AllocatorBounds

  function InUse(p: Pools, ex: int): real { Get(p.unified, ex) }

  /** What a row is given when it is picked. */
  function SizeAt(s: Progress, row: OpenRow, cfg: Config, caps: Caps): real {
    Clamp(row.hintUsd, MinPair(cfg), DynMax(s, row, cfg, caps))
  }

  function Margin(usd: real, coeff: real): real { usd * coeff }

  predicate Takes(s: Progress, row: OpenRow, cfg: Config, caps: Caps, desired: nat) {
    Open(s, cfg, desired) && DynMax(s, row, cfg, caps) >= MinPair(cfg)
  }

  /** The row is picked with both legs on `ex`, and both together need more than is left there. */
  predicate Exceeds(s: Progress, row: OpenRow, cfg: Config, caps: Caps, desired: nat, ex: int)
    requires IsUnified(caps, ex)
  {
    && Takes(s, row, cfg, caps, desired) && row.spotEx == row.perpEx == ex
    && SizeAt(s, row, cfg, caps) + Margin(SizeAt(s, row, cfg, caps), Coeff(cfg)) > caps[ex].usable - InUse(s.pools, ex)
  }

  /** Row `i` exceeds the account at the moment it is considered. */
  predicate ExceedsAt(start: Progress, rows: seq<OpenRow>, i: int, cfg: Config, caps: Caps, desired: nat, ex: int)
    requires IsUnified(caps, ex)
  {
    0 <= i < |rows| && Exceeds(Select(start, rows[..i], cfg, caps, desired), rows[i], cfg, caps, desired, ex)
  }

  ghost predicate SomeRowExceeds(start: Progress, rows: seq<OpenRow>, cfg: Config, caps: Caps, desired: nat, ex: int)
    requires IsUnified(caps, ex)
  {
    exists i :: ExceedsAt(start, rows, i, cfg, caps, desired, ex)
  }

  predicate Overdrawn(start: Progress, s: Progress, caps: Caps, ex: int)
    requires IsUnified(caps, ex)
  {
    InUse(s.pools, ex) > MaxR(InUse(start.pools, ex), caps[ex].usable)
  }

  /** What one row adds to the use of a unified account. */
  lemma {:induction false} UseOfStep(s: Progress, row: OpenRow, cfg: Config, caps: Caps, desired: nat, ex: int)
    requires IsUnified(caps, ex)
    ensures var (now, usd) := (InUse(Consider(s, row, cfg, caps, desired).pools, ex), SizeAt(s, row, cfg, caps));
      var margin := Margin(usd, Coeff(cfg));
      if !Takes(s, row, cfg, caps, desired) then now == InUse(s.pools, ex)
      else
        && usd > 0.0 && margin > 0.0
        && now == InUse(s.pools, ex) + (if row.spotEx == ex then usd else 0.0)
                                     + (if row.perpEx == ex then margin else 0.0)
        && (row.spotEx == ex ==> usd <= caps[ex].usable - InUse(s.pools, ex))
        && (row.perpEx == ex ==> margin <= caps[ex].usable - InUse(s.pools, ex))
  {
    if Takes(s, row, cfg, caps, desired) {
      HeadroomCoversAlloc(s, row, cfg, caps, desired);
      var usd := SizeAt(s, row, cfg, caps);
      var q := Use(s.pools, caps, Coeff(cfg), row.spotEx, row.perpEx, usd);
      assert Consider(s, row, cfg, caps, desired).pools == q;
      hide Consider, DynMax, SizeAt, Use, Open, Takes, Clamp, Coeff;
      UseOfPair(s.pools, caps, Coeff(cfg), row.spotEx, row.perpEx, usd, ex);
    }
  }

  lemma {:induction false} UseOfPair(p: Pools, caps: Caps, coeff: real, spotEx: int, perpEx: int, usd: real, ex: int)
    requires IsUnified(caps, ex) && 0.0 < coeff && 0.0 < usd <= Headroom(p, caps, coeff, spotEx, perpEx)
    ensures var margin := Margin(usd, coeff);
      && margin > 0.0
      && InUse(Use(p, caps, coeff, spotEx, perpEx, usd), ex) ==
         InUse(p, ex) + (if spotEx == ex then usd else 0.0) + (if perpEx == ex then margin else 0.0)
      && (spotEx == ex ==> usd <= caps[ex].usable - InUse(p, ex))
      && (perpEx == ex ==> margin <= caps[ex].usable - InUse(p, ex))
  {
    DrawsWithinHeadroom(p, caps, coeff, spotEx, perpEx, usd);
    UseAmounts(p, caps, coeff, spotEx, perpEx, usd, ex);
    hide Headroom, Use, Get;
    assert usd * coeff > 0.0;
  }

  /** One row makes an account overdrawn exactly when it was already, or the row exceeds it. */
  lemma {:induction false} OverdrawStep(start: Progress, s: Progress, row: OpenRow, cfg: Config, caps: Caps,
                                        desired: nat, ex: int)
    requires IsUnified(caps, ex) && InUse(start.pools, ex) <= InUse(s.pools, ex)
    ensures Overdrawn(start, Consider(s, row, cfg, caps, desired), caps, ex)
      <==> Overdrawn(start, s, caps, ex) || Exceeds(s, row, cfg, caps, desired, ex)
  {
    hide Consider, SizeAt, Takes, Margin, InUse, Coeff;
    UseOfStep(s, row, cfg, caps, desired, ex);
  }

  lemma {:induction false} ExceedsSnoc(start: Progress, rows: seq<OpenRow>, cfg: Config, caps: Caps, desired: nat,
                                       ex: int)
    requires IsUnified(caps, ex) && rows != []
    ensures var n := |rows| - 1;
      SomeRowExceeds(start, rows, cfg, caps, desired, ex)
      <==> SomeRowExceeds(start, rows[..n], cfg, caps, desired, ex)
           || Exceeds(Select(start, rows[..n], cfg, caps, desired), rows[n], cfg, caps, desired, ex)
  {
    hide Select, Exceeds;
    var n := |rows| - 1;
    assert forall i :: 0 <= i < n ==> rows[..n][i] == rows[i] && rows[..n][..i] == rows[..i];
    assert forall i :: ExceedsAt(start, rows[..n], i, cfg, caps, desired, ex) ==>
      ExceedsAt(start, rows, i, cfg, caps, desired, ex);
    assert ExceedsAt(start, rows, n, cfg, caps, desired, ex)
      <==> Exceeds(Select(start, rows[..n], cfg, caps, desired), rows[n], cfg, caps, desired, ex);
    assert forall i :: i != n && ExceedsAt(start, rows, i, cfg, caps, desired, ex) ==>
      ExceedsAt(start, rows[..n], i, cfg, caps, desired, ex);
  }

  lemma {:induction false} OverdrawnExactly(start: Progress, rows: seq<OpenRow>, cfg: Config, caps: Caps, desired: nat,
                                            ex: int)
    requires IsUnified(caps, ex) && start.picks == [] && start.left >= 0.0 && NonNegative(start.pools)
    ensures Overdrawn(start, Select(start, rows, cfg, caps, desired), caps, ex)
      <==> SomeRowExceeds(start, rows, cfg, caps, desired, ex)
  {
    if rows == [] {
    } else {
      var n := |rows| - 1;
      OverdrawnExactly(start, rows[..n], cfg, caps, desired, ex);
      SelectIsSound(start, rows[..n], cfg, caps, desired);
      ExceedsSnoc(start, rows, cfg, caps, desired, ex);
      hide SomeRowExceeds, Exceeds, Overdrawn, Consider, NonNegative, PoolsBounded;
      OverdrawStep(start, Select(start, rows[..n], cfg, caps, desired), rows[n], cfg, caps, desired, ex);
    }
  }

  /** A unified account ends above both its cap and its use by the held pairs exactly when some new pair
      with both legs on it needed more than was left there when it was picked. */
  lemma {:induction false} UnifiedOverdrawExactly(rows: seq<OpenRow>, holds: seq<Hold>, cfg: Config, nav: Nav,
                                                  caps: Caps, ex: int)
    requires IsUnified(caps, ex)
    ensures var ranked := Ranked(rows, holds, cfg, nav, caps);
      Overdrawn(Start(holds, cfg, nav, caps), Allocate(rows, holds, cfg, nav, caps), caps, ex)
      <==> SomeRowExceeds(Start(holds, cfg, nav, caps), ranked, cfg, caps, DesiredNew(cfg, nav, |holds|, |ranked|), ex)
  {
    HoldsNonNegative(holds, caps, Coeff(cfg));
    var ranked := Ranked(rows, holds, cfg, nav, caps);
    hide Ranked, Select, SomeRowExceeds, Overdrawn, DesiredNew;
    OverdrawnExactly(Start(holds, cfg, nav, caps), ranked, cfg, caps, DesiredNew(cfg, nav, |holds|, |ranked|), ex);
  }

  // ----- The bound is attained -----

  /** Leverage 2, pairs of up to $3000, no reserve, and everything may be used. */
  const HALF: Config := Config(0.0, 0.0, 5, 100.0, 100.0, 0.0, 0.0, 0.0, 0.0, 300.0, 3000.0, 0.0, 1.0, 2.0)

  const RICH: Nav := Nav(5000.0, false)

  const ACCOUNT: Caps := map[1 := Unified(1000.0)]

  /** A pair with both legs on account 1. */
  const BOTH: OpenRow := OpenRow("r", 1, 1, 1.0, 1.0, 1.0, 1.0, 0.0, 1.0, 1.0, 1000.0)

  lemma {:induction false} OnlyRow()
    ensures Ranked([BOTH], [], HALF, RICH, ACCOUNT) == [BOTH]
  {
    assert RoundTo(1.0, 1000000.0) == 1.0 && RoundTo(1000.0, 100.0) == 1000.0;
    assert Brief(BOTH, HALF) == BOTH;
    assert HeldIds([]) == {};
    assert RejectReasons(BOTH, {}, HALF, RICH, ACCOUNT) == [];
    assert [BOTH][..0] == [];
    assert EligibleRows([BOTH][..0], {}, HALF, RICH, ACCOUNT) == [];
    assert EligibleRows([BOTH], {}, HALF, RICH, ACCOUNT) == [BOTH];
    assert Sort([BOTH], Preferred) == [BOTH];
  }

  lemma {:induction false} OneIsWanted()
    ensures TargetBudget(HALF, RICH) == 5000.0 && DesiredNew(HALF, RICH, 0, 1) == 1
  {
    assert EffectivePct(HALF) == 100.0;
    assert 5000.0 * 100.0 / 100.0 == 5000.0;
    assert 16.0 <= 5000.0 / 300.0 < 17.0;
  }

  /** A cap of $1000 at leverage 2 ends at $1500, the most the bound allows: one pair of $1000 with both
      legs on the account finds room for each leg taken alone. */
  lemma {:induction false} CapIsExceeded()
    ensures var r := Allocate([BOTH], [], HALF, RICH, ACCOUNT);
      r.picks == [Pick(BOTH, 1000.0)] && InUse(r.pools, 1) == 1500.0 == 1000.0 * (1.0 + Coeff(HALF))
  {
    OnlyRow();
    OneIsWanted();
    hide Ranked, TargetBudget, DesiredNew;
    var start := Start([], HALF, RICH, ACCOUNT);
    assert start == Progress([], Pools(map[], map[], map[]), 5000.0);
    assert Coeff(HALF) == 0.5;
    assert Headroom(start.pools, ACCOUNT, 0.5, 1, 1) == 1000.0;
    assert Clamp(1000.0, MinPair(HALF), DynMax(start, BOTH, HALF, ACCOUNT)) == 1000.0;
    assert [BOTH][..0] == [];
    assert Select(start, [BOTH][..0], HALF, ACCOUNT, 1) == start;
    UseAmounts(start.pools, ACCOUNT, 0.5, 1, 1, 1000.0, 1);
    hide Use;
    assert Select(start, [BOTH], HALF, ACCOUNT, 1) == Consider(start, BOTH, HALF, ACCOUNT, 1);
  }
}
