/** What the greedy selection guarantees: it stays within the budget and every
    capital pool, and it stops only when nothing more fits. */
module AllocatorBounds {
  import opened Arith
  import opened Sorting
  import opened Allocator

  function PickedUsd(picks: seq<Pick>): real {
    if picks == [] then 0.0 else PickedUsd(picks[..|picks| - 1]) + picks[|picks| - 1].usd
  }

  /** Some selected pair has both legs on exchange `ex`. */
  ghost predicate BothLegsOn(picks: seq<Pick>, ex: int) {
    exists p :: p in picks && p.row.spotEx == ex && p.row.perpEx == ex
  }

  ghost predicate NonNegative(p: Pools) {
    forall ex: int :: Get(p.unified, ex) >= 0.0 && Get(p.spot, ex) >= 0.0 && Get(p.perp, ex) >= 0.0
  }

  /** `q` uses at least as much of every pool as `p`. */
  ghost predicate Uses(q: Pools, p: Pools) {
    forall ex: int :: Get(q.unified, ex) >= Get(p.unified, ex) && Get(q.spot, ex) >= Get(p.spot, ex)
                      && Get(q.perp, ex) >= Get(p.perp, ex)
  }

  /** What a pair adds to each pool of exchange `ex`. */
  lemma {:induction false} UseAmounts(p: Pools, caps: Caps, coeff: real, spotEx: int, perpEx: int, usd: real, ex: int)
    requires usd > 0.0
    ensures var q := Use(p, caps, coeff, spotEx, perpEx, usd);
      var onSpot, onPerp := 0 < spotEx == ex, 0 < perpEx == ex;
      var u := IsUnified(caps, ex);
      && Get(q.unified, ex) == Get(p.unified, ex) + (if u && onSpot then usd else 0.0)
                                                  + (if u && onPerp then usd * coeff else 0.0)
      && Get(q.spot, ex) == Get(p.spot, ex) + (if !u && onSpot then usd else 0.0)
      && Get(q.perp, ex) == Get(p.perp, ex) + (if !u && onPerp then usd * coeff else 0.0)
  {
    var margin := usd * coeff;
    var s := UseSpot(p, caps, spotEx, usd);
    var q := UsePerp(s, caps, perpEx, margin);
    hide UseSpot, UsePerp;
    assert q == Use(p, caps, coeff, spotEx, perpEx, usd);
    SpotAmounts(p, caps, spotEx, usd, ex);
    PerpAmounts(s, caps, perpEx, margin, ex);
  }

  lemma {:induction false} SpotAmounts(p: Pools, caps: Caps, spotEx: int, usd: real, ex: int)
    ensures var q := UseSpot(p, caps, spotEx, usd);
      var mine := if 0 < spotEx == ex then usd else 0.0;
      && Get(q.unified, ex) == Get(p.unified, ex) + (if IsUnified(caps, ex) then mine else 0.0)
      && Get(q.spot, ex) == Get(p.spot, ex) + (if IsUnified(caps, ex) then 0.0 else mine)
      && Get(q.perp, ex) == Get(p.perp, ex)
  {}

  lemma {:induction false} PerpAmounts(p: Pools, caps: Caps, perpEx: int, margin: real, ex: int)
    ensures var q := UsePerp(p, caps, perpEx, margin);
      var mine := if 0 < perpEx == ex then margin else 0.0;
      && Get(q.unified, ex) == Get(p.unified, ex) + (if IsUnified(caps, ex) then mine else 0.0)
      && Get(q.perp, ex) == Get(p.perp, ex) + (if IsUnified(caps, ex) then 0.0 else mine)
      && Get(q.spot, ex) == Get(p.spot, ex)
  {}

  lemma {:induction false} UseGrows(p: Pools, caps: Caps, coeff: real, spotEx: int, perpEx: int, usd: real)
    requires NonNegative(p) && coeff > 0.0
    ensures NonNegative(Use(p, caps, coeff, spotEx, perpEx, usd))
    ensures Uses(Use(p, caps, coeff, spotEx, perpEx, usd), p)
  {
    if usd > 0.0 {
      assert usd * coeff > 0.0;
      var q := Use(p, caps, coeff, spotEx, perpEx, usd);
      forall ex: int
        ensures Get(q.unified, ex) >= Get(p.unified, ex) && Get(q.spot, ex) >= Get(p.spot, ex)
                && Get(q.perp, ex) >= Get(p.perp, ex)
      {
        UseAmounts(p, caps, coeff, spotEx, perpEx, usd, ex);
      }
    }
  }

  lemma {:induction false} DivMonotone(a: real, b: real, c: real)
    requires a <= b && c > 0.0
    ensures a / c <= b / c
  {}

  /** Headroom never grows as usage grows. */
  lemma {:induction false} HeadroomShrinks(p: Pools, q: Pools, caps: Caps, coeff: real, spotEx: int, perpEx: int)
    requires Uses(q, p) && coeff > 0.0
    ensures Headroom(q, caps, coeff, spotEx, perpEx) <= Headroom(p, caps, coeff, spotEx, perpEx)
  {
    if perpEx in caps {
      match caps[perpEx]
      case Unified(usable) =>
        DivMonotone(MaxR(0.0, usable - Get(q.unified, perpEx)), MaxR(0.0, usable - Get(p.unified, perpEx)), coeff);
      case Split(_, usable) =>
        DivMonotone(MaxR(0.0, usable - Get(q.perp, perpEx)), MaxR(0.0, usable - Get(p.perp, perpEx)), coeff);
    }
  }

  // ----- One step -----

  lemma {:induction false} DivBound(x: real, remain: real, c: real)
    requires c > 0.0 && x <= remain / c
    ensures x * c <= remain
  {
    assert remain / c * c == remain;
    assert x * c <= remain / c * c;
  }

  /** A pair no larger than its headroom draws no more than what is left in each pool it touches. */
  lemma {:induction false} DrawsWithinHeadroom(p: Pools, caps: Caps, coeff: real, spotEx: int, perpEx: int, usd: real)
    requires 0.0 < coeff && 0.0 < usd <= Headroom(p, caps, coeff, spotEx, perpEx)
    ensures 0 < spotEx && spotEx in caps && 0 < perpEx && perpEx in caps
    ensures usd <= SpotLeft(p, caps[spotEx], spotEx) && usd * coeff <= PerpLeft(p, caps[perpEx], perpEx)
  {
    DivBound(usd, MaxR(0.0, PerpLeft(p, caps[perpEx], perpEx)), coeff);
    assert usd * coeff > 0.0;
  }

  /** The bound the pools of one exchange keep, given their usage before any new pair. */
  ghost predicate PoolBounded(start: Pools, now: Pools, both: bool, cap: Cap, ex: int, coeff: real) {
    match cap
    case Split(s, m) =>
      && Get(now.spot, ex) <= MaxR(Get(start.spot, ex), s)
      && Get(now.perp, ex) <= MaxR(Get(start.perp, ex), m)
    case Unified(u) =>
      && Get(now.unified, ex) <= MaxR(Get(start.unified, ex), u + MaxR(0.0, u) * coeff)
      && (!both ==> Get(now.unified, ex) <= MaxR(Get(start.unified, ex), u))
  }

  ghost predicate PoolsBounded(start: Pools, now: Pools, picks: seq<Pick>, caps: Caps, coeff: real) {
    forall ex :: ex in caps ==> PoolBounded(start, now, BothLegsOn(picks, ex), caps[ex], ex, coeff)
  }

  /** One draw from a unified pool of size `u`: `margin` for the perp leg, at most `slack` when
      the spot leg is drawn with it. */
  lemma {:induction false} UnifiedDraw(start: real, used: real, u: real, usd: real, margin: real, slack: real,
                                       onSpot: bool, onPerp: bool, both: bool)
    requires 0.0 <= used && 0.0 < usd && 0.0 < margin && 0.0 <= slack && (usd <= u ==> margin <= slack)
    requires used <= MaxR(start, u + slack) && (!both ==> used <= MaxR(start, u))
    requires (onSpot ==> usd <= u - used) && (onPerp ==> margin <= u - used)
    ensures var after := used + (if onSpot then usd else 0.0) + (if onPerp then margin else 0.0);
      && after <= MaxR(start, u + slack)
      && (!(both || (onSpot && onPerp)) ==> after <= MaxR(start, u))
  {}

  lemma {:induction false} MarginWithin(u: real, usd: real, coeff: real, margin: real, slack: real)
    requires 0.0 < coeff && 0.0 < usd
    requires margin == usd * coeff && slack == MaxR(0.0, u) * coeff
    ensures 0.0 < margin && 0.0 <= slack && (usd <= u ==> margin <= slack)
  {
    if usd <= u {
      assert usd * coeff <= u * coeff;
    }
  }

  /** What is left in the pool each leg draws from. */
  function SpotLeft(p: Pools, cap: Cap, ex: int): real {
    match cap case Unified(u) => u - Get(p.unified, ex) case Split(s, _) => s - Get(p.spot, ex)
  }

  function PerpLeft(p: Pools, cap: Cap, ex: int): real {
    match cap case Unified(u) => u - Get(p.unified, ex) case Split(_, m) => m - Get(p.perp, ex)
  }

  lemma {:induction false} PoolDraw(start: Pools, now: Pools, after: Pools, cap: Cap, ex: int, coeff: real, usd: real,
                                    margin: real, onSpot: bool, onPerp: bool, both: bool)
    requires PoolBounded(start, now, both, cap, ex, coeff) && NonNegative(now)
    requires 0.0 < usd && 0.0 < coeff && margin == usd * coeff
    requires var s, m := if onSpot then usd else 0.0, if onPerp then margin else 0.0;
      match cap
      case Unified(_) => Get(after.unified, ex) == Get(now.unified, ex) + s + m
      case Split(_, _) => Get(after.spot, ex) == Get(now.spot, ex) + s && Get(after.perp, ex) == Get(now.perp, ex) + m
    requires (onSpot ==> usd <= SpotLeft(now, cap, ex)) && (onPerp ==> margin <= PerpLeft(now, cap, ex))
    ensures PoolBounded(start, after, both || (onSpot && onPerp), cap, ex, coeff)
  {
    hide PoolBounded, NonNegative;
    DrawIsPaid(cap, usd, coeff);
    PaidDraw(start, now, after, cap, ex, coeff, usd, margin, onSpot, onPerp, both);
  }

  /** How far a unified account can be charged beyond its cap. */
  function Slack(cap: Cap, coeff: real): real { if cap.Unified? then MaxR(0.0, cap.usable) * coeff else 0.0 }

  lemma {:induction false} DrawIsPaid(cap: Cap, usd: real, coeff: real)
    requires 0.0 < usd && 0.0 < coeff
    ensures 0.0 < usd * coeff && 0.0 <= Slack(cap, coeff)
    ensures cap.Unified? && usd <= cap.usable ==> usd * coeff <= Slack(cap, coeff)
  {
    var u := if cap.Unified? then cap.usable else 0.0;
    MarginWithin(u, usd, coeff, usd * coeff, MaxR(0.0, u) * coeff);
  }

  lemma {:induction false} PaidDraw(start: Pools, now: Pools, after: Pools, cap: Cap, ex: int, coeff: real, usd: real,
                                    margin: real, onSpot: bool, onPerp: bool, both: bool)
    requires PoolBounded(start, now, both, cap, ex, coeff) && NonNegative(now)
    requires 0.0 < usd && 0.0 < margin && 0.0 <= Slack(cap, coeff)
    requires cap.Unified? && usd <= cap.usable ==> margin <= Slack(cap, coeff)
    requires var s, m := if onSpot then usd else 0.0, if onPerp then margin else 0.0;
      match cap
      case Unified(_) => Get(after.unified, ex) == Get(now.unified, ex) + s + m
      case Split(_, _) => Get(after.spot, ex) == Get(now.spot, ex) + s && Get(after.perp, ex) == Get(now.perp, ex) + m
    requires (onSpot ==> usd <= SpotLeft(now, cap, ex)) && (onPerp ==> margin <= PerpLeft(now, cap, ex))
    ensures PoolBounded(start, after, both || (onSpot && onPerp), cap, ex, coeff)
  {
    if cap.Unified? {
      hide Slack, PoolBounded;
      UnifiedPool(start, now, both, cap, ex, coeff);
      UnifiedPool(start, after, both || (onSpot && onPerp), cap, ex, coeff);
      UnifiedDraw(Get(start.unified, ex), Get(now.unified, ex), cap.usable, usd, margin, Slack(cap, coeff),
                  onSpot, onPerp, both);
    }
  }

  lemma {:induction false} UnifiedPool(start: Pools, now: Pools, both: bool, cap: Cap, ex: int, coeff: real)
    requires cap.Unified?
    ensures PoolBounded(start, now, both, cap, ex, coeff) <==>
      && Get(now.unified, ex) <= MaxR(Get(start.unified, ex), cap.usable + Slack(cap, coeff))
      && (!both ==> Get(now.unified, ex) <= MaxR(Get(start.unified, ex), cap.usable))
  {}

  lemma {:induction false} StepKeepsPoolBound(start: Pools, now: Pools, both: bool, caps: Caps, coeff: real,
                                              spotEx: int, perpEx: int,
                                              usd: real, ex: int)
    requires ex in caps && PoolBounded(start, now, both, caps[ex], ex, coeff) && NonNegative(now)
    requires 0.0 < coeff && 0.0 < usd <= Headroom(now, caps, coeff, spotEx, perpEx)
    ensures PoolBounded(start, Use(now, caps, coeff, spotEx, perpEx, usd), both || spotEx == perpEx == ex, caps[ex], ex,
                        coeff)
  {
    DrawsWithinHeadroom(now, caps, coeff, spotEx, perpEx, usd);
    UseAmounts(now, caps, coeff, spotEx, perpEx, usd, ex);
    PoolDraw(start, now, Use(now, caps, coeff, spotEx, perpEx, usd), caps[ex], ex, coeff, usd, usd * coeff,
             spotEx == ex, perpEx == ex, both);
  }

  lemma {:induction false} BothLegsSnoc(picks: seq<Pick>, p: Pick, ex: int)
    ensures BothLegsOn(picks + [p], ex) <==> BothLegsOn(picks, ex) || p.row.spotEx == p.row.perpEx == ex
  {
    if BothLegsOn(picks, ex) {
      var q :| q in picks && q.row.spotEx == ex && q.row.perpEx == ex;
      assert q in picks + [p];
    }
    assert p in picks + [p];
  }

  lemma {:induction false} StepKeepsPoolBounds(start: Pools, now: Pools, picks: seq<Pick>, caps: Caps, coeff: real,
                                               row: OpenRow, usd: real)
    requires PoolsBounded(start, now, picks, caps, coeff) && NonNegative(now)
    requires 0.0 < coeff && 0.0 < usd <= Headroom(now, caps, coeff, row.spotEx, row.perpEx)
    ensures PoolsBounded(start, Use(now, caps, coeff, row.spotEx, row.perpEx, usd), picks + [Pick(row, usd)], caps,
                         coeff)
  {
    forall ex | ex in caps
      ensures PoolBounded(start, Use(now, caps, coeff, row.spotEx, row.perpEx, usd),
                          BothLegsOn(picks + [Pick(row, usd)], ex), caps[ex], ex, coeff)
    {
      StepKeepsPoolBound(start, now, BothLegsOn(picks, ex), caps, coeff, row.spotEx, row.perpEx, usd, ex);
      BothLegsSnoc(picks, Pick(row, usd), ex);
    }
  }

  lemma {:induction false} AllocInRange(hint: real, lo: real, top: real)
    requires lo <= top
    ensures lo <= Clamp(hint, lo, top) <= top
  {}

  lemma {:induction false} HeadroomCoversAlloc(s: Progress, row: OpenRow, cfg: Config, caps: Caps, desired: nat)
    requires Open(s, cfg, desired) && DynMax(s, row, cfg, caps) >= MinPair(cfg)
    ensures var usd := Clamp(row.hintUsd, MinPair(cfg), DynMax(s, row, cfg, caps));
      && MinPair(cfg) <= usd <= MaxPair(cfg) && usd <= s.left && 0.0 < usd
      && (caps != map[] ==> usd <= Headroom(s.pools, caps, Coeff(cfg), row.spotEx, row.perpEx))
  {
    AllocInRange(row.hintUsd, MinPair(cfg), DynMax(s, row, cfg, caps));
  }

  // ----- Whole selections -----

  ghost predicate Sound(start: Progress, s: Progress, cfg: Config, caps: Caps, desired: nat) {
    && |s.picks| <= desired && 0.0 <= s.left && s.left + PickedUsd(s.picks) == start.left
    && NonNegative(s.pools) && Uses(s.pools, start.pools)
    && (forall p :: p in s.picks ==> MinPair(cfg) <= p.usd <= MaxPair(cfg))
    && PoolsBounded(start.pools, s.pools, s.picks, caps, Coeff(cfg))
  }

  lemma {:induction false} SelectIsSound(start: Progress, rows: seq<OpenRow>, cfg: Config, caps: Caps, desired: nat)
    requires start.picks == [] && start.left >= 0.0 && NonNegative(start.pools)
    ensures Sound(start, Select(start, rows, cfg, caps, desired), cfg, caps, desired)
  {
    if rows == [] {
    } else {
      var n := |rows| - 1;
      SelectIsSound(start, rows[..n], cfg, caps, desired);
      ConsiderIsSound(start, Select(start, rows[..n], cfg, caps, desired), rows[n], cfg, caps, desired);
    }
  }

  lemma {:induction false} ConsiderIsSound(start: Progress, s: Progress, row: OpenRow, cfg: Config, caps: Caps,
                                           desired: nat)
    requires Sound(start, s, cfg, caps, desired)
    ensures Sound(start, Consider(s, row, cfg, caps, desired), cfg, caps, desired)
    ensures Uses(Consider(s, row, cfg, caps, desired).pools, s.pools)
    ensures Consider(s, row, cfg, caps, desired).left <= s.left
  {
    var top := DynMax(s, row, cfg, caps);
    if Open(s, cfg, desired) && top >= MinPair(cfg) {
      HeadroomCoversAlloc(s, row, cfg, caps, desired);
      var usd := Clamp(row.hintUsd, MinPair(cfg), top);
      UseGrows(s.pools, caps, Coeff(cfg), row.spotEx, row.perpEx, usd);
      if caps != map[] {
        StepKeepsPoolBounds(start.pools, s.pools, s.picks, caps, Coeff(cfg), row, usd);
      }
      assert (s.picks + [Pick(row, usd)])[..|s.picks|] == s.picks;
    }
  }

  lemma {:induction false} HoldsNonNegative(holds: seq<Hold>, caps: Caps, coeff: real)
    requires coeff > 0.0
    ensures NonNegative(UseHolds(holds, caps, coeff)) && HeldUsd(holds) >= 0.0
  {
    if holds != [] {
      var n := |holds| - 1;
      HoldsNonNegative(holds[..n], caps, coeff);
      UseGrows(UseHolds(holds[..n], caps, coeff), caps, coeff, holds[n].spotEx, holds[n].perpEx,
               MaxR(0.0, holds[n].notionalUsd));
    }
  }

  /** Held pairs and new pairs together stay within the target budget, or within the held pairs
      when those already exceed it; each new pair is within the pair limits; each pool stays within
      its cap or its usage by the held pairs. A unified account can be overdrawn only by the margin
      of a pair with both legs on it, hence by at most its cap divided by the leverage. */
  lemma {:induction false} AllocationWithinLimits(rows: seq<OpenRow>, holds: seq<Hold>, cfg: Config, nav: Nav,
                                                  caps: Caps)
    ensures var r := Allocate(rows, holds, cfg, nav, caps);
      && HeldUsd(holds) + PickedUsd(r.picks) <= MaxR(TargetBudget(cfg, nav), HeldUsd(holds))
      && (forall p :: p in r.picks ==> MinPair(cfg) <= p.usd <= MaxPair(cfg))
      && PoolsBounded(UseHolds(holds, caps, Coeff(cfg)), r.pools, r.picks, caps, Coeff(cfg))
  {
    HoldsNonNegative(holds, caps, Coeff(cfg));
    var ranked := Ranked(rows, holds, cfg, nav, caps);
    SelectIsSound(Start(holds, cfg, nav, caps), ranked, cfg, caps, DesiredNew(cfg, nav, |holds|, |ranked|));
  }

  lemma {:induction false} DesiredIsAffordable(cfg: Config, nav: Nav, held: nat, eligible: nat)
    ensures var d := DesiredNew(cfg, nav, held, eligible);
      && d <= eligible
      && (d > 0 ==> held + d <= MaxOpen(cfg) && (held + d) as real * MinPair(cfg) <= TargetBudget(cfg, nav))
  {
    var d := DesiredNew(cfg, nav, held, eligible);
    var budget, lo := TargetBudget(cfg, nav), MinPair(cfg);
    if d > 0 {
      assert held + d <= (budget / lo).Floor;
      DivBound((held + d) as real, budget, lo);
    }
  }

  lemma {:induction false} PicksCount(rows: seq<OpenRow>, holds: seq<Hold>, cfg: Config, nav: Nav, caps: Caps)
    ensures |Allocate(rows, holds, cfg, nav, caps).picks|
         <= DesiredNew(cfg, nav, |holds|, |Ranked(rows, holds, cfg, nav, caps)|)
  {
    HoldsNonNegative(holds, caps, Coeff(cfg));
    var ranked := Ranked(rows, holds, cfg, nav, caps);
    SelectIsSound(Start(holds, cfg, nav, caps), ranked, cfg, caps, DesiredNew(cfg, nav, |holds|, |ranked|));
  }

  /** The number of new pairs: never more than allowed, eligible or affordable at the minimum size. */
  lemma {:induction false} PairCountWithinLimits(rows: seq<OpenRow>, holds: seq<Hold>, cfg: Config, nav: Nav,
                                                 caps: Caps)
    ensures var k := |Allocate(rows, holds, cfg, nav, caps).picks|;
      && k <= |Ranked(rows, holds, cfg, nav, caps)|
      && (k > 0 ==> |holds| + k <= MaxOpen(cfg) && (|holds| + k) as real * MinPair(cfg) <= TargetBudget(cfg, nav))
  {
    hide Allocate, DesiredNew, TargetBudget, MinPair, MaxOpen, Ranked;
    PicksCount(rows, holds, cfg, nav, caps);
    var eligible := |Ranked(rows, holds, cfg, nav, caps)|;
    DesiredIsAffordable(cfg, nav, |holds|, eligible);
    CountTimesMin(|holds| + |Allocate(rows, holds, cfg, nav, caps).picks|,
                  |holds| + DesiredNew(cfg, nav, |holds|, eligible), cfg);
  }

  lemma {:induction false} CountTimesMin(a: nat, b: nat, cfg: Config)
    requires a <= b
    ensures a as real * MinPair(cfg) <= b as real * MinPair(cfg)
  {
    var x, y, lo := a as real, b as real, MinPair(cfg);
    assert x <= y && lo >= 0.0;
  }

  // ----- Maximality and priority -----

  /** Row `i` of the ranking was selected. */
  predicate Picked(start: Progress, rows: seq<OpenRow>, i: nat, cfg: Config, caps: Caps, desired: nat)
    requires i < |rows|
  {
    |Select(start, rows[..i + 1], cfg, caps, desired).picks| > |Select(start, rows[..i], cfg, caps, desired).picks|
  }

  lemma {:induction false} SelectGrows(start: Progress, rows: seq<OpenRow>, k: nat, cfg: Config, caps: Caps,
                                       desired: nat)
    requires start.picks == [] && start.left >= 0.0 && NonNegative(start.pools) && k <= |rows|
    ensures var a, b := Select(start, rows[..k], cfg, caps, desired), Select(start, rows, cfg, caps, desired);
      a.picks <= b.picks && Uses(b.pools, a.pools) && b.left <= a.left
  {
    if k == |rows| {
      assert rows[..k] == rows;
    } else {
      var n := |rows| - 1;
      SelectGrows(start, rows[..n], k, cfg, caps, desired);
      assert rows[..n][..k] == rows[..k];
      SelectIsSound(start, rows[..n], cfg, caps, desired);
      ConsiderIsSound(start, Select(start, rows[..n], cfg, caps, desired), rows[n], cfg, caps, desired);
    }
  }

  ghost predicate NoRoom(r: Progress, row: OpenRow, cfg: Config, caps: Caps) {
    caps != map[] && Headroom(r.pools, caps, Coeff(cfg), row.spotEx, row.perpEx) < MinPair(cfg)
  }

  lemma {:induction false} SkippedForAReason(start: Progress, rows: seq<OpenRow>, i: nat, cfg: Config, caps: Caps,
                                             desired: nat)
    requires start.picks == [] && start.left >= 0.0 && NonNegative(start.pools) && i < |rows|
    requires !Picked(start, rows, i, cfg, caps, desired)
    ensures var r := Select(start, rows, cfg, caps, desired);
      !Open(Select(start, rows[..i], cfg, caps, desired), cfg, desired) || NoRoom(r, rows[i], cfg, caps)
  {
    var s := Select(start, rows[..i], cfg, caps, desired);
    var r := Select(start, rows, cfg, caps, desired);
    assert rows[..i + 1][..i] == rows[..i];
    SelectGrows(start, rows, i, cfg, caps, desired);
    if Open(s, cfg, desired) {
      assert DynMax(s, rows[i], cfg, caps) < MinPair(cfg);
      HeadroomShrinks(s.pools, r.pools, caps, Coeff(cfg), rows[i].spotEx, rows[i].perpEx);
    }
  }

  /** Row `i` of the ranking is passed over. */
  predicate PassedOver(rows: seq<OpenRow>, holds: seq<Hold>, cfg: Config, nav: Nav, caps: Caps, i: nat) {
    var ranked := Ranked(rows, holds, cfg, nav, caps);
    i < |ranked|
    && !Picked(Start(holds, cfg, nav, caps), ranked, i, cfg, caps, DesiredNew(cfg, nav, |holds|, |ranked|))
  }

  /** Row `i` of the ranking becomes a new pair. */
  predicate Chosen(rows: seq<OpenRow>, holds: seq<Hold>, cfg: Config, nav: Nav, caps: Caps, i: nat) {
    var ranked := Ranked(rows, holds, cfg, nav, caps);
    i < |ranked|
    && Picked(Start(holds, cfg, nav, caps), ranked, i, cfg, caps, DesiredNew(cfg, nav, |holds|, |ranked|))
  }

  /** The selection is maximal: with fewer pairs than wanted, either the leftover budget is below the
      minimum pair, or no unselected eligible row has room for a minimum pair any more. */
  lemma {:induction false} AllocationIsMaximal(rows: seq<OpenRow>, holds: seq<Hold>, cfg: Config, nav: Nav, caps: Caps,
                                               i: nat)
    ensures var r := Allocate(rows, holds, cfg, nav, caps);
      var ranked := Ranked(rows, holds, cfg, nav, caps);
      PassedOver(rows, holds, cfg, nav, caps, i) && |r.picks| < DesiredNew(cfg, nav, |holds|, |ranked|) ==>
        r.left < MinPair(cfg) || NoRoom(r, ranked[i], cfg, caps)
  {
    if PassedOver(rows, holds, cfg, nav, caps, i) {
      HoldsNonNegative(holds, caps, Coeff(cfg));
      var start, ranked := Start(holds, cfg, nav, caps), Ranked(rows, holds, cfg, nav, caps);
      var desired := DesiredNew(cfg, nav, |holds|, |ranked|);
      SkippedForAReason(start, ranked, i, cfg, caps, desired);
      SelectGrows(start, ranked, i, cfg, caps, desired);
    }
  }

  /** Higher-ranked rows go first: a row is passed over in favour of a later one only when its
      accounts have no room for a minimum pair. */
  lemma {:induction false} RankingIsRespected(rows: seq<OpenRow>, holds: seq<Hold>, cfg: Config, nav: Nav, caps: Caps,
                                              i: nat, j: nat)
    requires i < j
    ensures var ranked := Ranked(rows, holds, cfg, nav, caps);
      PassedOver(rows, holds, cfg, nav, caps, i) && Chosen(rows, holds, cfg, nav, caps, j) ==>
        NoRoom(Allocate(rows, holds, cfg, nav, caps), ranked[i], cfg, caps) && !Preferred(ranked[j], ranked[i])
  {
    if PassedOver(rows, holds, cfg, nav, caps, i) && Chosen(rows, holds, cfg, nav, caps, j) {
      HoldsNonNegative(holds, caps, Coeff(cfg));
      var start, ranked := Start(holds, cfg, nav, caps), Ranked(rows, holds, cfg, nav, caps);
      var desired := DesiredNew(cfg, nav, |holds|, |ranked|);
      SkippedForAReason(start, ranked, i, cfg, caps, desired);
      var s := Select(start, ranked[..i], cfg, caps, desired);
      if !Open(s, cfg, desired) {
        NothingAfterClosing(start, ranked, i, j, cfg, caps, desired);
      }
      SortSorted(EligibleRows(rows, HeldIds(holds), cfg, nav, caps), Preferred);
    }
  }

  lemma {:induction false} NothingAfterClosing(start: Progress, rows: seq<OpenRow>, i: nat, j: nat, cfg: Config,
                                               caps: Caps, desired: nat)
    requires i < j < |rows| && !Open(Select(start, rows[..i], cfg, caps, desired), cfg, desired)
    ensures !Picked(start, rows, j, cfg, caps, desired)
  {
    var s := Select(start, rows[..i], cfg, caps, desired);
    forall k | i <= k <= |rows| ensures Select(start, rows[..k], cfg, caps, desired) == s {
      SelectSplit(start, rows[..i], rows[i..k], cfg, caps, desired);
      assert rows[..i] + rows[i..k] == rows[..k];
      ClosedStaysClosed(s, rows[i..k], cfg, caps, desired);
    }
  }
}
