/** Live opening of planned pairs: each size is capped by the balances still
    available, and the balance caches are drawn down as opens succeed. */
module OpenExecutor {
  import opened Arith

  datatype OpenPlan = OpenPlan(rowId: string, symbol: string, longId: int, shortId: int, sizeUsd: real)

  /** What stays the same during a run; `ratio` is the perp/spot price ratio before the 0.01 floor. */
  datatype Market = Market(
    known: set<int>,
    unified: int -> bool,
    ratio: (int, int, string) -> real,
    leverage: real,
    maxPairUsd: real)

  /** What the outside world answers to one plan: the free balances of its short and long account, if
      they are asked for and can be read, and whether the open succeeds. */
  datatype Reply = Reply(perpFree: Option<real>, spotFree: Option<real>, success: bool)

  datatype Caches = Caches(perp: map<int, real>, spot: map<int, real>, unified: map<int, bool>)

  /** The capped size, and the price ratio recorded beside it (rounded to 8 digits) if one was. */
  datatype Capped = Capped(usd: real, ratio: Option<real>, caches: Caches)

  function Leverage(m: Market): (l: real)
    ensures l >= 1.0
  {
    MaxR(1.0, m.leverage)
  }

  function Ratio(m: Market, plan: OpenPlan): (r: real)
    ensures r >= 0.01
  {
    MaxR(0.01, m.ratio(plan.longId, plan.shortId, plan.symbol))
  }

  function Round8(x: real): real { RoundHalfUp(x * 100000000.0) as real / 100000000.0 }

  predicate SameUnified(c: Caches, plan: OpenPlan) {
    plan.longId == plan.shortId && plan.shortId in c.unified && c.unified[plan.shortId]
  }

  /** Reading an account's free balance, once per run. */
  function Cache(c: map<int, real>, ex: int, read: Option<real>): Option<map<int, real>> {
    if ex in c then Some(c)
    else match read
      case None => None
      case Some(v) => Some(c[ex := MaxR(0.0, v)])
  }

  function MaxByPerp(free: real, ratio: real, lev: real): real
    requires ratio >= 0.01
  {
    free * lev * 0.98 / ratio
  }

  function MaxUnified(free: real, ratio: real, lev: real): real
    requires ratio >= 0.01 && lev >= 1.0
  {
    assert ratio / lev >= 0.0;
    free / (1.0 + ratio / lev) * 0.98
  }

  function CapOpenSize(m: Market, c: Caches, plan: OpenPlan, reply: Reply, requested: real): Capped {
    if requested <= 0.0 then Capped(0.0, None, c)
    else if plan.longId <= 0 || plan.shortId <= 0 then Capped(requested, None, c)
    else if plan.longId !in m.known || plan.shortId !in m.known then Capped(requested, None, c)
    else CapByPerp(m, c, plan, reply, requested)
  }

  function CapByPerp(m: Market, c: Caches, plan: OpenPlan, reply: Reply, requested: real): Capped {
    var ratio := Ratio(m, plan);
    var noted := Some(Round8(ratio));
    match Cache(c.perp, plan.shortId, reply.perpFree)
    case None => Capped(requested, None, c)
    case Some(perp) =>
      var c1 := c.(perp := perp);
      var free := MaxR(0.0, Get(perp, plan.shortId));
      if free <= 0.0 then Capped(0.0, noted, c1)
      else
        var c2 := if plan.shortId in c1.unified then c1
                  else c1.(unified := c1.unified[plan.shortId := m.unified(plan.shortId)]);
        if SameUnified(c2, plan) then Settle(MaxUnified(free, ratio, Leverage(m)), requested, noted, c2)
        else CapBySpot(c2, plan, reply, requested, MaxByPerp(free, ratio, Leverage(m)), noted)
  }

  function CapBySpot(c: Caches, plan: OpenPlan, reply: Reply, requested: real, maxByPerp: real,
                     noted: Option<real>): Capped
  {
    match Cache(c.spot, plan.longId, reply.spotFree)
    case None => Capped(requested, noted, c)
    case Some(spot) =>
      var c1 := c.(spot := spot);
      var free := MaxR(0.0, Get(spot, plan.longId));
      if free <= 0.0 then Capped(0.0, noted, c1)
      else Settle(MinR(maxByPerp, free * 0.98), requested, noted, c1)
  }

  function Settle(maxFinal: real, requested: real, noted: Option<real>, c: Caches): Capped {
    if maxFinal <= 0.0 then Capped(0.0, noted, c) else Capped(MinR(requested, maxFinal), noted, c)
  }

  /** The margin ratio used when drawing the caches down: the recorded one, or 1 if none was. */
  function DrawRatio(noted: Option<real>): real {
    MaxR(0.01, match noted case Some(r) => r case None => 1.0)
  }

  function MarginDraw(usd: real, ratio: real, lev: real): real
    requires lev >= 1.0
  {
    usd * ratio / lev
  }

  function Draw(c: map<int, real>, ex: int, usd: real): map<int, real> {
    if ex in c then c[ex := MaxR(0.0, c[ex] - usd)] else c
  }

  function Consume(m: Market, c: Caches, plan: OpenPlan, usd: real, noted: Option<real>): Caches {
    if usd <= 0.0 || plan.longId <= 0 || plan.shortId <= 0 then c
    else
      var margin := MarginDraw(usd, DrawRatio(noted), Leverage(m));
      if SameUnified(c, plan) then
        var remain := MaxR(0.0, Get(c.perp, plan.shortId) - (usd + margin));
        c.(perp := c.perp[plan.shortId := remain], spot := c.spot[plan.longId := remain])
      else c.(perp := Draw(c.perp, plan.shortId, margin), spot := Draw(c.spot, plan.longId, usd))
  }

  datatype Opened = Opened(plan: OpenPlan, usd: real, ratio: Option<real>)

  datatype Progress = Progress(caches: Caches, log: seq<Opened>)

  function Requested(m: Market, plan: OpenPlan): real { MinR(MaxR(0.0, plan.sizeUsd), MaxR(1.0, m.maxPairUsd)) }

  /** One plan. */
  function Step(m: Market, s: Progress, plan: OpenPlan, reply: Reply): Progress {
    var requested := Requested(m, plan);
    if requested <= 0.0 then s
    else
      var capped := CapOpenSize(m, s.caches, plan, reply, requested);
      if capped.usd < 5.0 || !reply.success then s.(caches := capped.caches)
      else Progress(Consume(m, capped.caches, plan, capped.usd, capped.ratio),
                    s.log + [Opened(plan, capped.usd, capped.ratio)])
  }

  const START := Progress(Caches(map[], map[], map[]), [])

  function Run(m: Market, plans: seq<OpenPlan>, replies: seq<Reply>): Progress
    requires |replies| == |plans|
  {
    if plans == [] then START
    else
      var n := |plans| - 1;
      Step(m, Run(m, plans[..n], replies[..n]), plans[n], replies[n])
  }

  // ----- The program -----

  class BalanceCaches {
    const m: Market
    var perp: map<int, real>
    var spot: map<int, real>
    var unified: map<int, bool>

    constructor (m: Market)
      ensures this.m == m && Value() == START.caches
    {
      this.m := m;
      perp, spot, unified := map[], map[], map[];
    }

    function Value(): Caches
      reads this
    {
      Caches(perp, spot, unified)
    }

    method CapOpenSizeByAvailableMargin(plan: OpenPlan, reply: Reply, requested: real)
      returns (usd: real, noted: Option<real>)
      modifies this
      ensures Capped(usd, noted, Value()) == CapOpenSize(m, old(Value()), plan, reply, requested)
    {
      hide MaxUnified, MaxByPerp, Round8, Ratio, Leverage, MaxR, MinR;
      if requested <= 0.0 {
        return 0.0, None;
      }
      if plan.longId <= 0 || plan.shortId <= 0 || plan.longId !in m.known || plan.shortId !in m.known {
        return requested, None;
      }
      var ratio := Ratio(m, plan);
      if plan.shortId !in perp {
        var read := reply.perpFree;
        if read.None? {
          return requested, None;
        }
        perp := perp[plan.shortId := MaxR(0.0, read.value)];
      }
      noted := Some(Round8(ratio));
      var free := MaxR(0.0, perp[plan.shortId]);
      if free <= 0.0 {
        return 0.0, noted;
      }
      if plan.shortId !in unified {
        unified := unified[plan.shortId := m.unified(plan.shortId)];
      }
      var maxFinal := MaxByPerp(free, ratio, Leverage(m));
      if plan.longId == plan.shortId && unified[plan.shortId] {
        maxFinal := MaxUnified(free, ratio, Leverage(m));
      } else {
        if plan.longId !in spot {
          var read := reply.spotFree;
          if read.None? {
            return requested, noted;
          }
          spot := spot[plan.longId := MaxR(0.0, read.value)];
        }
        var spotFree := MaxR(0.0, spot[plan.longId]);
        if spotFree <= 0.0 {
          return 0.0, noted;
        }
        maxFinal := MinR(maxFinal, spotFree * 0.98);
      }
      usd := if maxFinal <= 0.0 then 0.0 else MinR(requested, maxFinal);
    }

    method ConsumeAvailableAfterOpen(plan: OpenPlan, usd: real, noted: Option<real>)
      modifies this
      ensures Value() == Consume(m, old(Value()), plan, usd, noted)
    {
      hide MarginDraw, DrawRatio, Leverage;
      if usd <= 0.0 || plan.longId <= 0 || plan.shortId <= 0 {
        return;
      }
      var margin := MarginDraw(usd, DrawRatio(noted), Leverage(m));
      if plan.longId == plan.shortId && plan.shortId in unified && unified[plan.shortId] {
        var remain := MaxR(0.0, Get(perp, plan.shortId) - (usd + margin));
        perp := perp[plan.shortId := remain];
        spot := spot[plan.longId := remain];
        return;
      }
      if plan.shortId in perp {
        perp := perp[plan.shortId := MaxR(0.0, perp[plan.shortId] - margin)];
      }
      if plan.longId in spot {
        spot := spot[plan.longId := MaxR(0.0, spot[plan.longId] - usd)];
      }
    }
  }

  method ExecuteOpenPlan(m: Market, plans: seq<OpenPlan>, replies: seq<Reply>) returns (log: seq<Opened>, left: Caches)
    requires |replies| == |plans|
    ensures Progress(left, log) == Run(m, plans, replies)
  {
    var book := new BalanceCaches(m);
    log := [];
    for i := 0 to |plans|
      invariant book.m == m && Progress(book.Value(), log) == Run(m, plans[..i], replies[..i])
    {
      assert plans[..i + 1][..i] == plans[..i] && replies[..i + 1][..i] == replies[..i];
      var plan := plans[i];
      var requested := MinR(MaxR(0.0, plan.sizeUsd), MaxR(1.0, m.maxPairUsd));
      if requested <= 0.0 {
        continue;
      }
      var usd, noted := book.CapOpenSizeByAvailableMargin(plan, replies[i], requested);
      if usd <= 0.0 || usd < 5.0 {
        continue;
      }
      if replies[i].success {
        book.ConsumeAvailableAfterOpen(plan, usd, noted);
        log := log + [Opened(plan, usd, noted)];
      }
    }
    assert plans[..|plans|] == plans && replies[..|plans|] == replies;
    left := book.Value();
  }
}
