/** How the live executor draws down its balance caches. */
module ExecutorPools {
  import opened Arith
  import opened OpenExecutor

  /** 98%, plus the effect of recording the price ratio to 8 digits only. */
  const DRAW_SHARE := 0.9800005

  /** A live plan names two known exchanges, and each balance it needs was read before or can be read
      now; one account needs no spot read. */
  predicate ReadsSucceed(m: Market, c: Caches, plan: OpenPlan, reply: Reply) {
    Requested(m, plan) <= 0.0
    || (plan.longId > 0 && plan.shortId > 0 && plan.longId in m.known && plan.shortId in m.known
        && (plan.shortId in c.perp || reply.perpFree.Some?)
        && (OneAccount(m, plan) || plan.longId in c.spot || reply.spotFree.Some?))
  }

  predicate OneAccount(m: Market, plan: OpenPlan) { plan.longId == plan.shortId && m.unified(plan.shortId) }

  /** What is free in an account: what the cache says, or else the reading, never negative. */
  function Free(c: map<int, real>, ex: int, read: Option<real>): real {
    if ex in c then MaxR(0.0, c[ex]) else Initial(read)
  }

  ghost predicate UnifiedKnown(m: Market, c: Caches) {
    forall ex :: ex in c.unified ==> c.unified[ex] == m.unified(ex)
  }

  function Initial(read: Option<real>): real { match read case None => 0.0 case Some(v) => MaxR(0.0, v) }

  /** What an opened pair takes from its perp pool. */
  function PerpDraw(m: Market, o: Opened): real {
    var margin := MarginDraw(o.usd, DrawRatio(o.ratio), Leverage(m));
    if OneAccount(m, o.plan) then o.usd + margin else margin
  }

  function PerpDrawn(m: Market, log: seq<Opened>, ex: int): real {
    if log == [] then 0.0
    else
      var o := log[|log| - 1];
      PerpDrawn(m, log[..|log| - 1], ex) + if o.plan.shortId == ex then PerpDraw(m, o) else 0.0
  }

  function SpotDrawn(log: seq<Opened>, ex: int): real {
    if log == [] then 0.0
    else
      var o := log[|log| - 1];
      SpotDrawn(log[..|log| - 1], ex) + if o.plan.longId == ex then o.usd else 0.0
  }

  // ----- One draw -----

  lemma {:induction false} RoundedRatio(ratio: real)
    requires ratio >= 0.01
    ensures 0.01 <= DrawRatio(Some(Round8(ratio))) <= ratio * 1.0000005
  {}

  lemma {:induction false} MulMono(a: real, b: real, c: real)
    requires 0.0 <= a && b <= c
    ensures a * b <= a * c
  {}

  lemma {:induction false} DivMul(a: real, b: real)
    requires b > 0.0
    ensures a / b * b == a
  {}

  lemma {:induction false} DivLe(a: real, b: real, c: real)
    requires c > 0.0 && a <= b * c
    ensures a / c <= b
  {}

  lemma {:induction false} MarginFits(usd: real, free: real, ratio: real, lev: real, drawRatio: real)
    requires ratio >= 0.01 && lev >= 1.0 && 0.0 <= free
    requires 0.0 <= usd <= MaxByPerp(free, ratio, lev)
    requires drawRatio <= ratio * 1.0000005
    ensures MarginDraw(usd, drawRatio, lev) <= DRAW_SHARE * free
  {
    var room := free * lev * 0.98;
    DivMul(room, ratio);
    MulMono(ratio, usd, room / ratio);
    assert usd * ratio <= room;
    MulMono(usd, drawRatio, ratio * 1.0000005);
    assert usd * drawRatio <= usd * ratio * 1.0000005 <= room * 1.0000005;
    assert free * lev >= 0.0;
    assert room * 1.0000005 <= DRAW_SHARE * (free * lev);
    DivLe(usd * drawRatio, DRAW_SHARE * free, lev);
  }

  lemma {:induction false} UnifiedFits(usd: real, free: real, ratio: real, lev: real, drawRatio: real)
    requires ratio >= 0.01 && lev >= 1.0
    requires 0.0 <= usd <= MaxUnified(free, ratio, lev) && 0.0 <= free
    requires drawRatio <= ratio * 1.0000005
    ensures usd + MarginDraw(usd, drawRatio, lev) <= DRAW_SHARE * free
  {
    var share := ratio / lev;
    assert share >= 0.0;
    var whole := 1.0 + share;
    DivMul(free, whole);
    var most := free / whole;
    MulMono(whole, usd, most * 0.98);
    assert usd * whole <= free * 0.98;
    DivMul(ratio, lev);
    DivLe(drawRatio, share * 1.0000005, lev);
    var drawShare := drawRatio / lev;
    MulMono(usd, drawShare, share * 1.0000005);
    var margin, atShare := usd * drawRatio / lev, usd * share;
    assert margin == usd * drawShare;
    assert margin <= atShare * 1.0000005;
    assert usd + atShare <= free * 0.98;
  }

  /** A capped size leaves room in the pools it is drawn from. */
  lemma {:induction false} CappedDrawFits(m: Market, c: Caches, plan: OpenPlan, reply: Reply)
    requires UnifiedKnown(m, c) && Requested(m, plan) > 0.0 && ReadsSucceed(m, c, plan, reply)
    requires CapOpenSize(m, c, plan, reply, Requested(m, plan)).usd > 0.0
    ensures var r := CapOpenSize(m, c, plan, reply, Requested(m, plan));
      var (perp, spot) := (Free(c.perp, plan.shortId, reply.perpFree), Free(c.spot, plan.longId, reply.spotFree));
      && plan.shortId in r.caches.perp && plan.shortId in r.caches.unified && r.caches.perp[plan.shortId] == perp
      && 0.0 <= PerpDraw(m, Opened(plan, r.usd, r.ratio)) <= DRAW_SHARE * perp
      && (!OneAccount(m, plan) ==>
            plan.longId in r.caches.spot && r.caches.spot[plan.longId] == spot && r.usd <= 0.98 * spot)
  {
    var ratio, lev := Ratio(m, plan), Leverage(m);
    RoundedRatio(ratio);
    var drawRatio := DrawRatio(Some(Round8(ratio)));
    CapShape(m, c, plan, reply);
    var r := CapOpenSize(m, c, plan, reply, Requested(m, plan));
    var free := Free(c.perp, plan.shortId, reply.perpFree);
    hide CapOpenSize, MaxUnified, MaxByPerp, MarginDraw, Round8, DrawRatio, Free;
    if OneAccount(m, plan) {
      UnifiedFits(r.usd, free, ratio, lev, drawRatio);
    } else {
      MarginFits(r.usd, free, ratio, lev, drawRatio);
    }
    MarginPositive(r.usd, drawRatio, lev);
  }

  lemma {:induction false} MarginPositive(usd: real, drawRatio: real, lev: real)
    requires usd >= 0.0 && drawRatio >= 0.0 && lev >= 1.0
    ensures MarginDraw(usd, drawRatio, lev) >= 0.0
  {
    assert usd * drawRatio >= 0.0;
  }

  /** Where a positive capped size comes from. */
  lemma {:induction false} CapShape(m: Market, c: Caches, plan: OpenPlan, reply: Reply)
    requires UnifiedKnown(m, c) && Requested(m, plan) > 0.0 && ReadsSucceed(m, c, plan, reply)
    requires CapOpenSize(m, c, plan, reply, Requested(m, plan)).usd > 0.0
    ensures var r := CapOpenSize(m, c, plan, reply, Requested(m, plan));
      var (perp, spot) := (Free(c.perp, plan.shortId, reply.perpFree), Free(c.spot, plan.longId, reply.spotFree));
      && r.ratio == Some(Round8(Ratio(m, plan))) && perp > 0.0
      && plan.shortId in r.caches.perp && plan.shortId in r.caches.unified && r.caches.perp[plan.shortId] == perp
      && if OneAccount(m, plan) then r.usd == MinR(Requested(m, plan), MaxUnified(perp, Ratio(m, plan), Leverage(m)))
         else
           && r.usd == MinR(Wanted(m, c, plan, reply), MaxByPerp(perp, Ratio(m, plan), Leverage(m)))
           && plan.longId in r.caches.spot && r.caches.spot[plan.longId] == spot > 0.0 && r.usd <= 0.98 * spot
  {
    hide MaxUnified, MaxByPerp, Round8, Requested, Ratio, Leverage;
  }

  // ----- When 98% of a pool is exceeded -----

  /** What the pair would be opened at if only its perp pool were large enough. */
  function Wanted(m: Market, c: Caches, plan: OpenPlan, reply: Reply): real {
    if OneAccount(m, plan) then Requested(m, plan)
    else MinR(Requested(m, plan), 0.98 * Free(c.spot, plan.longId, reply.spotFree))
  }

  /** What a size takes from the perp pool at the price ratio as recorded. */
  function Need(m: Market, plan: OpenPlan, usd: real): real {
    var margin := MarginDraw(usd, Round8(Ratio(m, plan)), Leverage(m));
    if OneAccount(m, plan) then usd + margin else margin
  }

  lemma {:induction false} MulStrict(a: real, b: real, c: real)
    requires 0.0 < a && b < c
    ensures a * b < a * c
  {}

  /** A size capped for the factor `a` oversteps at the factor `b` exactly when `b` is larger and the
      wanted size oversteps at it. */
  lemma {:induction false} OverstepsExactly(usd: real, want: real, most: real, a: real, b: real, top: real)
    requires a > 0.0 && b > 0.0 && most * a == top && usd == MinR(want, most) > 0.0
    ensures usd * b > top <==> b > a && want * b > top
  {
    MulMono(a, usd, most);
    MulMono(b, usd, want);
    if b > a {
      MulStrict(usd, a, b);
    } else {
      MulMono(usd, b, a);
    }
  }

  lemma {:induction false} RoundedAboveFloor(ratio: real)
    requires ratio >= 0.01
    ensures Round8(ratio) >= 0.01 && DrawRatio(Some(Round8(ratio))) == Round8(ratio)
  {}

  lemma {:induction false} SplitOversteps(usd: real, want: real, free: real, ratio: real, lev: real, rounded: real)
    requires ratio >= 0.01 && rounded >= 0.01 && lev >= 1.0 && usd == MinR(want, MaxByPerp(free, ratio, lev)) > 0.0
    ensures MarginDraw(usd, rounded, lev) > 0.98 * free
      <==> rounded > ratio && MarginDraw(want, rounded, lev) > 0.98 * free
  {
    var top := free * lev * 0.98;
    DivMul(top, ratio);
    OverstepsExactly(usd, want, top / ratio, ratio, rounded, top);
    DivAbove(usd * rounded, 0.98 * free, lev);
    DivAbove(want * rounded, 0.98 * free, lev);
  }

  lemma {:induction false} DivAbove(x: real, y: real, lev: real)
    requires lev >= 1.0
    ensures x / lev > y <==> x > y * lev
  {
    DivMul(x, lev);
    var q := x / lev;
    if q > y {
      MulStrict(lev, y, q);
    } else {
      MulMono(lev, q, y);
    }
  }

  lemma {:induction false} UnifiedOversteps(usd: real, want: real, free: real, ratio: real, lev: real, rounded: real)
    requires ratio >= 0.01 && rounded >= 0.01 && lev >= 1.0 && usd == MinR(want, MaxUnified(free, ratio, lev)) > 0.0
    ensures usd + MarginDraw(usd, rounded, lev) > 0.98 * free
      <==> rounded > ratio && want + MarginDraw(want, rounded, lev) > 0.98 * free
  {
    assert ratio / lev > 0.0 && rounded / lev > 0.0;
    var a, b := 1.0 + ratio / lev, 1.0 + rounded / lev;
    DivMul(free, a);
    assert free / a * 0.98 * a == 0.98 * free;
    OverstepsExactly(usd, want, free / a * 0.98, a, b, 0.98 * free);
    DivAbove(rounded, ratio / lev, lev);
    DivMul(ratio, lev);
    Factored(usd, rounded, lev);
    Factored(want, rounded, lev);
  }

  lemma {:induction false} Factored(x: real, rounded: real, lev: real)
    requires lev >= 1.0
    ensures x + MarginDraw(x, rounded, lev) == x * (1.0 + rounded / lev)
  {
    assert x * rounded / lev == x * (rounded / lev);
  }

  /** An opened pair takes more than 98% of its perp pool exactly when recording the price ratio to
      eight digits rounds it up and the wanted size, at that ratio, needs more than 98% of the pool. */
  lemma {:induction false} CapExceededExactly(m: Market, c: Caches, plan: OpenPlan, reply: Reply)
    requires UnifiedKnown(m, c) && Requested(m, plan) > 0.0 && ReadsSucceed(m, c, plan, reply)
    requires CapOpenSize(m, c, plan, reply, Requested(m, plan)).usd > 0.0
    ensures var r := CapOpenSize(m, c, plan, reply, Requested(m, plan));
      var limit := 0.98 * Free(c.perp, plan.shortId, reply.perpFree);
      PerpDraw(m, Opened(plan, r.usd, r.ratio)) > limit
      <==> Round8(Ratio(m, plan)) > Ratio(m, plan) && Need(m, plan, Wanted(m, c, plan, reply)) > limit
  {
    var ratio, lev := Ratio(m, plan), Leverage(m);
    CapShape(m, c, plan, reply);
    RoundedAboveFloor(ratio);
    var r := CapOpenSize(m, c, plan, reply, Requested(m, plan));
    var free, want := Free(c.perp, plan.shortId, reply.perpFree), Wanted(m, c, plan, reply);
    hide CapOpenSize, MaxUnified, MaxByPerp, MarginDraw, Round8, DrawRatio, Free;
    if OneAccount(m, plan) {
      UnifiedOversteps(r.usd, want, free, ratio, lev, Round8(ratio));
    } else {
      SplitOversteps(r.usd, want, free, ratio, lev, Round8(ratio));
    }
  }

  /** With $1000 free, leverage 1 and a price ratio of 1.000000006 the margin is above $980. */
  lemma {:induction false} CapIsExceeded()
    ensures var m := Market({1, 2}, (ex: int) => false, (a: int, b: int, k: string) => 1.000000006, 1.0, 2000.0);
      var (plan, reply) := (OpenPlan("r", "s", 1, 2, 2000.0), Reply(Some(1000.0), Some(100000.0), true));
      var r := CapOpenSize(m, START.caches, plan, reply, Requested(m, plan));
      r.usd > 0.0 && PerpDraw(m, Opened(plan, r.usd, r.ratio)) > 0.98 * 1000.0
  {
    var m := Market({1, 2}, (ex: int) => false, (a: int, b: int, k: string) => 1.000000006, 1.0, 2000.0);
    var plan, reply := OpenPlan("r", "s", 1, 2, 2000.0), Reply(Some(1000.0), Some(100000.0), true);
    assert Ratio(m, plan) == 1.000000006 && Leverage(m) == 1.0 && Requested(m, plan) == 2000.0;
    assert Round8(1.000000006) == 1.00000001;
    assert MaxByPerp(1000.0, 1.000000006, 1.0) == 980.0 / 1.000000006 > 0.0;
    assert CapOpenSize(m, START.caches, plan, reply, 2000.0).usd > 0.0;
    assert MarginDraw(2000.0, 1.00000001, 1.0) == 2000.00002;
    hide Round8, CapOpenSize, MarginDraw;
    CapExceededExactly(m, START.caches, plan, reply);
  }

  // ----- Whole runs -----

  /** The reading a perp pool was first filled from. */
  function FirstPerp(m: Market, plans: seq<OpenPlan>, replies: seq<Reply>, ex: int): real
    requires |replies| == |plans|
  {
    if plans == [] then 0.0
    else
      var n := |plans| - 1;
      if ex in Run(m, plans[..n], replies[..n]).caches.perp then FirstPerp(m, plans[..n], replies[..n], ex)
      else Initial(replies[n].perpFree)
  }

  function FirstSpot(m: Market, plans: seq<OpenPlan>, replies: seq<Reply>, ex: int): real
    requires |replies| == |plans|
  {
    if plans == [] then 0.0
    else
      var n := |plans| - 1;
      if ex in Run(m, plans[..n], replies[..n]).caches.spot then FirstSpot(m, plans[..n], replies[..n], ex)
      else Initial(replies[n].spotFree)
  }

  ghost predicate PerpLedger(m: Market, s: Progress, first: real, ex: int) {
    if ex in s.caches.perp then 0.0 <= s.caches.perp[ex] == first - PerpDrawn(m, s.log, ex)
    else PerpDrawn(m, s.log, ex) == 0.0
  }

  ghost predicate SpotLedger(s: Progress, first: real, ex: int) {
    if ex in s.caches.spot then 0.0 <= s.caches.spot[ex] == first - SpotDrawn(s.log, ex)
    else SpotDrawn(s.log, ex) == 0.0
  }

  /** A cache after a read of account `ex`: nothing known changes, and what is new is the reading. */
  ghost predicate Extends(c: map<int, real>, d: map<int, real>, ex: int, read: Option<real>) {
    && (forall x :: x in c ==> x in d && d[x] == c[x])
    && (forall x :: x in d && x !in c ==> x == ex && read.Some? && d[x] == Initial(read))
  }

  lemma {:induction false} CacheExtends(c: map<int, real>, ex: int, read: Option<real>)
    ensures Extends(c, c, ex, read)
    ensures Cache(c, ex, read).Some? ==> Extends(c, Cache(c, ex, read).value, ex, read)
  {}

  lemma {:induction false} SpotCapKeepsCaches(c: Caches, plan: OpenPlan, reply: Reply, requested: real, byPerp: real,
                                              noted: Option<real>)
    ensures var d := CapBySpot(c, plan, reply, requested, byPerp, noted).caches;
      && d.perp == c.perp && d.unified == c.unified && Extends(c.spot, d.spot, plan.longId, reply.spotFree)
  {
    CacheExtends(c.spot, plan.longId, reply.spotFree);
  }

  lemma {:induction false} CapKeepsCaches(m: Market, c: Caches, plan: OpenPlan, reply: Reply, requested: real)
    requires UnifiedKnown(m, c)
    ensures var d := CapOpenSize(m, c, plan, reply, requested).caches;
      && UnifiedKnown(m, d)
      && Extends(c.perp, d.perp, plan.shortId, reply.perpFree) && Extends(c.spot, d.spot, plan.longId, reply.spotFree)
  {
    CacheExtends(c.perp, plan.shortId, reply.perpFree);
    CacheExtends(c.spot, plan.longId, reply.spotFree);
    hide CapBySpot, MaxUnified, MaxByPerp, Cache, Settle, Round8;
    SettleKeepsCaches();
    forall c1: Caches, byPerp, noted
      ensures var d := CapBySpot(c1, plan, reply, requested, byPerp, noted).caches;
        && d.perp == c1.perp && d.unified == c1.unified
        && Extends(c1.spot, d.spot, plan.longId, reply.spotFree)
    {
      SpotCapKeepsCaches(c1, plan, reply, requested, byPerp, noted);
    }
  }

  lemma {:induction false} SettleKeepsCaches()
    ensures forall maxFinal, requested, noted, c :: Settle(maxFinal, requested, noted, c).caches == c
  {}

  lemma {:induction false} StepPerpLedger(m: Market, s: Progress, plan: OpenPlan, reply: Reply, first: real, ex: int)
    requires UnifiedKnown(m, s.caches) && ReadsSucceed(m, s.caches, plan, reply) && PerpLedger(m, s, first, ex)
    ensures PerpLedger(m, Step(m, s, plan, reply), if ex in s.caches.perp then first else Initial(reply.perpFree), ex)
    ensures UnifiedKnown(m, Step(m, s, plan, reply).caches)
  {
    var requested := Requested(m, plan);
    var capped := CapOpenSize(m, s.caches, plan, reply, requested);
    CapKeepsCaches(m, s.caches, plan, reply, requested);
    hide CapOpenSize, PerpDraw;
    if requested > 0.0 && capped.usd >= 5.0 && reply.success {
      CappedDrawFits(m, s.caches, plan, reply);
      var o := Opened(plan, capped.usd, capped.ratio);
      assert (s.log + [o])[..|s.log|] == s.log;
    }
  }

  lemma {:induction false} StepSpotLedger(m: Market, s: Progress, plan: OpenPlan, reply: Reply, first: real, ex: int)
    requires UnifiedKnown(m, s.caches) && ReadsSucceed(m, s.caches, plan, reply)
    requires SpotLedger(s, first, ex) && !(OneAccount(m, plan) && plan.longId == ex)
    ensures SpotLedger(Step(m, s, plan, reply), if ex in s.caches.spot then first else Initial(reply.spotFree), ex)
  {
    var requested := Requested(m, plan);
    var capped := CapOpenSize(m, s.caches, plan, reply, requested);
    CapKeepsCaches(m, s.caches, plan, reply, requested);
    hide CapOpenSize, PerpDraw;
    if requested > 0.0 && capped.usd >= 5.0 && reply.success {
      CappedDrawFits(m, s.caches, plan, reply);
      var o := Opened(plan, capped.usd, capped.ratio);
      assert (s.log + [o])[..|s.log|] == s.log;
    }
  }

  /** Every balance a plan of the run needs was read before or can be read when its turn comes. */
  ghost predicate AllReadsSucceed(m: Market, plans: seq<OpenPlan>, replies: seq<Reply>)
    requires |replies| == |plans|
  {
    forall i :: 0 <= i < |plans| ==>
      ReadsSucceed(m, Run(m, plans[..i], replies[..i]).caches, plans[i], replies[i])
  }

  lemma {:induction false} ReadsOfPrefix(m: Market, plans: seq<OpenPlan>, replies: seq<Reply>)
    requires |replies| == |plans| && plans != [] && AllReadsSucceed(m, plans, replies)
    ensures var n := |plans| - 1;
      && AllReadsSucceed(m, plans[..n], replies[..n])
      && ReadsSucceed(m, Run(m, plans[..n], replies[..n]).caches, plans[n], replies[n])
  {
    hide ReadsSucceed, Run;
    var n := |plans| - 1;
    forall i | 0 <= i < n
      ensures ReadsSucceed(m, Run(m, plans[..n][..i], replies[..n][..i]).caches, plans[..n][i], replies[..n][i])
    {
      assert plans[..n][..i] == plans[..i] && replies[..n][..i] == replies[..i];
    }
  }

  /** When every balance read succeeds, clipping at zero never happens: each perp pool ends at its
      first reading minus exactly what the opened pairs drew from it. */
  lemma {:induction false} PerpPoolsBalance(m: Market, plans: seq<OpenPlan>, replies: seq<Reply>, ex: int)
    requires |replies| == |plans| && AllReadsSucceed(m, plans, replies)
    ensures PerpLedger(m, Run(m, plans, replies), FirstPerp(m, plans, replies, ex), ex)
    ensures UnifiedKnown(m, Run(m, plans, replies).caches)
  {
    if plans != [] {
      var n := |plans| - 1;
      ReadsOfPrefix(m, plans, replies);
      PerpPoolsBalance(m, plans[..n], replies[..n], ex);
      hide Step, PerpLedger, ReadsSucceed;
      var first := FirstPerp(m, plans[..n], replies[..n], ex);
      StepPerpLedger(m, Run(m, plans[..n], replies[..n]), plans[n], replies[n], first, ex);
    }
  }

  /** The same for the spot pool of an account that no pair uses as its one unified account. */
  lemma {:induction false} SpotPoolsBalance(m: Market, plans: seq<OpenPlan>, replies: seq<Reply>, ex: int)
    requires |replies| == |plans| && AllReadsSucceed(m, plans, replies)
    requires forall i :: 0 <= i < |plans| ==> !(OneAccount(m, plans[i]) && plans[i].longId == ex)
    ensures SpotLedger(Run(m, plans, replies), FirstSpot(m, plans, replies, ex), ex)
  {
    if plans != [] {
      var n := |plans| - 1;
      ReadsOfPrefix(m, plans, replies);
      SpotPoolsBalance(m, plans[..n], replies[..n], ex);
      PerpPoolsBalance(m, plans[..n], replies[..n], ex);
      hide Step, SpotLedger, ReadsSucceed, PerpLedger;
      var first := FirstSpot(m, plans[..n], replies[..n], ex);
      StepSpotLedger(m, Run(m, plans[..n], replies[..n]), plans[n], replies[n], first, ex);
    }
  }
}
