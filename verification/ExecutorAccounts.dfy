/** A unified account has one balance, but its perp and spot pools are read and drawn separately: what a
    run takes from such an account altogether. */
module ExecutorAccounts {
  import opened Arith
  import opened OpenExecutor
  import opened ExecutorPools

  /** What an opened pair takes from account `ex`: the margin as its short account, the spot leg as its long one. */
  function Takes(m: Market, o: Opened, ex: int): real {
    (if o.plan.shortId == ex then PerpDraw(m, o) else 0.0)
    + if o.plan.longId == ex && !OneAccount(m, o.plan) then o.usd else 0.0
  }

  function Taken(m: Market, log: seq<Opened>, ex: int): real {
    if log == [] then 0.0 else Taken(m, log[..|log| - 1], ex) + Takes(m, log[|log| - 1], ex)
  }

  predicate Sized(log: seq<Opened>) { forall i :: 0 <= i < |log| ==> log[i].usd >= 5.0 }

  lemma {:induction false} OpensAreSized(m: Market, plans: seq<OpenPlan>, replies: seq<Reply>)
    requires |replies| == |plans|
    ensures Sized(Run(m, plans, replies).log)
  {
    if plans != [] {
      var n := |plans| - 1;
      OpensAreSized(m, plans[..n], replies[..n]);
      hide CapOpenSize;
    }
  }

  lemma {:induction false} TakesNonNegative(m: Market, o: Opened, ex: int)
    requires o.usd >= 0.0
    ensures Takes(m, o, ex) >= 0.0
  {
    MarginPositive(o.usd, DrawRatio(o.ratio), Leverage(m));
    hide MarginDraw;
  }

  // ----- What one plan does to the pools of an account -----

  function PoolOf(c: map<int, real>, ex: int): Option<real> { if ex in c then Some(c[ex]) else None }

  /** The open the plan leads to, if any. */
  function OpenOf(m: Market, s: Progress, plan: OpenPlan, reply: Reply): Option<Opened> {
    var requested := Requested(m, plan);
    var capped := CapOpenSize(m, s.caches, plan, reply, requested);
    if requested <= 0.0 || capped.usd < 5.0 || !reply.success then None
    else Some(Opened(plan, capped.usd, capped.ratio))
  }

  /** Nothing opened: a pool is as it was, or it has just been read. */
  predicate Looked(before: Option<real>, after: Option<real>, read: Option<real>) {
    after == before || (before.None? && read.Some? && after == Some(Initial(read)))
  }

  lemma {:induction false} NoOpenPools(m: Market, s: Progress, plan: OpenPlan, reply: Reply, ex: int)
    requires UnifiedKnown(m, s.caches) && OpenOf(m, s, plan, reply).None?
    ensures var t := Step(m, s, plan, reply);
      && t.log == s.log && UnifiedKnown(m, t.caches)
      && Looked(PoolOf(s.caches.perp, ex), PoolOf(t.caches.perp, ex), reply.perpFree)
      && Looked(PoolOf(s.caches.spot, ex), PoolOf(t.caches.spot, ex), reply.spotFree)
      && (plan.shortId != ex ==> PoolOf(t.caches.perp, ex) == PoolOf(s.caches.perp, ex))
      && (plan.longId != ex ==> PoolOf(t.caches.spot, ex) == PoolOf(s.caches.spot, ex))
  {
    CapKeepsCaches(m, s.caches, plan, reply, Requested(m, plan));
    hide CapOpenSize, Requested;
  }

  lemma {:induction false} OpenPools(m: Market, s: Progress, plan: OpenPlan, reply: Reply, ex: int)
    requires UnifiedKnown(m, s.caches) && ReadsSucceed(m, s.caches, plan, reply) && m.unified(ex)
    requires OpenOf(m, s, plan, reply).Some?
    ensures var (t, o) := (Step(m, s, plan, reply), OpenOf(m, s, plan, reply).value);
      var (perp, spot) := (Free(s.caches.perp, ex, reply.perpFree), Free(s.caches.spot, ex, reply.spotFree));
      && t.log == s.log + [o] && o.plan == plan && o.usd >= 5.0 && UnifiedKnown(m, t.caches)
      && (if plan.shortId == ex
          then PoolOf(t.caches.perp, ex) == Some(perp - PerpDraw(m, o)) && PerpDraw(m, o) <= DRAW_SHARE * perp
          else PoolOf(t.caches.perp, ex) == PoolOf(s.caches.perp, ex))
      && (if plan.longId != ex then PoolOf(t.caches.spot, ex) == PoolOf(s.caches.spot, ex)
          else if plan.shortId == ex then PoolOf(t.caches.spot, ex) == PoolOf(t.caches.perp, ex)
          else PoolOf(t.caches.spot, ex) == Some(spot - o.usd) && o.usd <= 0.98 * spot)
  {
    var requested := Requested(m, plan);
    CapKeepsCaches(m, s.caches, plan, reply, requested);
    CappedDrawFits(m, s.caches, plan, reply);
    hide CapOpenSize, Requested, MarginDraw, DrawRatio;
  }

  // ----- The pools against the balance -----

  /** What the run has left of a balance. */
  function Left(m: Market, s: Progress, ex: int, balance: real): real { balance - Taken(m, s.log, ex) }

  /** A pool of the account that is read now shows what is left. */
  predicate TruthfulReply(m: Market, s: Progress, plan: OpenPlan, reply: Reply, ex: int, balance: real) {
    && (plan.shortId == ex && ex !in s.caches.perp && reply.perpFree.Some? ==>
          reply.perpFree.value == Left(m, s, ex, balance))
    && (plan.longId == ex && ex !in s.caches.spot && reply.spotFree.Some? ==>
          reply.spotFree.value == Left(m, s, ex, balance))
  }

  /** What each pool of the account has not been told of: what the other role took since it was read. */
  datatype Lag = Lag(perp: real, spot: real)

  /** An open inside the account tells the perp pool everything and copies it over the spot pool. */
  function LagAfter(m: Market, s: Progress, plan: OpenPlan, reply: Reply, lag: Lag, ex: int): Lag {
    var o := OpenOf(m, s, plan, reply);
    var byLong := if o.Some? && plan.longId == ex && plan.shortId != ex then o.value.usd else 0.0;
    var byShort := if o.Some? && plan.shortId == ex && plan.longId != ex then PerpDraw(m, o.value) else 0.0;
    var perp := if ex in s.caches.perp then lag.perp + byLong else 0.0;
    Lag(perp,
        if o.Some? && plan.shortId == plan.longId == ex then perp
        else if ex in s.caches.spot then lag.spot + byShort else 0.0)
  }

  function LagOf(m: Market, plans: seq<OpenPlan>, replies: seq<Reply>, ex: int): Lag
    requires |replies| == |plans|
  {
    if plans == [] then Lag(0.0, 0.0)
    else
      var n := |plans| - 1;
      LagAfter(m, Run(m, plans[..n], replies[..n]), plans[n], replies[n], LagOf(m, plans[..n], replies[..n], ex), ex)
  }

  /** A pool shows what is left of the balance, plus its lag. */
  predicate Shows(pool: Option<real>, left: real, lag: real) {
    lag >= 0.0 && match pool case None => lag == 0.0 case Some(v) => v == left + lag
  }

  ghost predicate Tracks(m: Market, s: Progress, lag: Lag, ex: int, balance: real) {
    && UnifiedKnown(m, s.caches)
    && Shows(PoolOf(s.caches.perp, ex), Left(m, s, ex, balance), lag.perp)
    && Shows(PoolOf(s.caches.spot, ex), Left(m, s, ex, balance), lag.spot)
  }

  /** The pair is opened, and takes more than its pool shows less the lag of that pool. */
  predicate Oversteps(m: Market, s: Progress, plan: OpenPlan, reply: Reply, lag: Lag, ex: int) {
    var o := OpenOf(m, s, plan, reply);
    o.Some? &&
    if plan.shortId == ex then PerpDraw(m, o.value) > Free(s.caches.perp, ex, reply.perpFree) - lag.perp
    else plan.longId == ex && o.value.usd > Free(s.caches.spot, ex, reply.spotFree) - lag.spot
  }

  lemma {:induction false} TakenSnoc(m: Market, log: seq<Opened>, o: Opened, ex: int)
    ensures Taken(m, log + [o], ex) == Taken(m, log, ex) + Takes(m, o, ex)
  {
    assert (log + [o])[..|log|] == log;
  }

  /** What is free in a pool is what is left of the balance, plus its lag, read now or earlier. */
  lemma {:induction false} FreeShows(c: map<int, real>, ex: int, read: Option<real>, left: real, lag: real)
    requires left >= 0.0 && Shows(PoolOf(c, ex), left, lag)
    requires ex in c || read == Some(left)
    ensures Free(c, ex, read) == left + lag
  {}

  lemma {:induction false} LookedShows(before: Option<real>, after: Option<real>, read: Option<real>, left: real,
                                       lag: real)
    requires left >= 0.0 && Looked(before, after, read) && Shows(before, left, lag)
    requires before.None? && read.Some? ==> read.value == left || after == before
    ensures Shows(after, left, if before.Some? then lag else 0.0)
  {}

  lemma {:induction false} TracksWithoutOpen(m: Market, s: Progress, plan: OpenPlan, reply: Reply, lag: Lag, ex: int,
                                             balance: real)
    requires Tracks(m, s, lag, ex, balance) && Left(m, s, ex, balance) >= 0.0 && OpenOf(m, s, plan, reply).None?
    requires TruthfulReply(m, s, plan, reply, ex, balance)
    ensures var t := Step(m, s, plan, reply);
      && Tracks(m, t, LagAfter(m, s, plan, reply, lag, ex), ex, balance)
      && Left(m, t, ex, balance) == Left(m, s, ex, balance)
  {
    var t, left := Step(m, s, plan, reply), Left(m, s, ex, balance);
    NoOpenPools(m, s, plan, reply, ex);
    hide Step, OpenOf, Taken, UnifiedKnown, Shows, Looked, Initial;
    LookedShows(PoolOf(s.caches.perp, ex), PoolOf(t.caches.perp, ex), reply.perpFree, left, lag.perp);
    LookedShows(PoolOf(s.caches.spot, ex), PoolOf(t.caches.spot, ex), reply.spotFree, left, lag.spot);
  }

  lemma {:induction false} TracksAfterOpen(m: Market, s: Progress, plan: OpenPlan, reply: Reply, lag: Lag, ex: int,
                                           balance: real)
    requires Tracks(m, s, lag, ex, balance) && Left(m, s, ex, balance) >= 0.0 && OpenOf(m, s, plan, reply).Some?
    requires ReadsSucceed(m, s.caches, plan, reply) && TruthfulReply(m, s, plan, reply, ex, balance) && m.unified(ex)
    ensures var (t, o) := (Step(m, s, plan, reply), OpenOf(m, s, plan, reply).value);
      && Tracks(m, t, LagAfter(m, s, plan, reply, lag, ex), ex, balance)
      && Left(m, t, ex, balance) == Left(m, s, ex, balance) - Takes(m, o, ex) && Takes(m, o, ex) >= 0.0
      && (Left(m, t, ex, balance) < 0.0 <==> Oversteps(m, s, plan, reply, lag, ex))
  {
    var o, left := OpenOf(m, s, plan, reply).value, Left(m, s, ex, balance);
    OpenPools(m, s, plan, reply, ex);
    TakenSnoc(m, s.log, o, ex);
    TakesNonNegative(m, o, ex);
    assert Requested(m, plan) > 0.0;
    hide Step, OpenOf, Taken, UnifiedKnown, PerpDraw, Free, Requested;
    if plan.shortId == ex {
      FreeShows(s.caches.perp, ex, reply.perpFree, left, lag.perp);
    } else if plan.longId == ex {
      FreeShows(s.caches.spot, ex, reply.spotFree, left, lag.spot);
    }
  }

  // ----- Whole runs -----

  /** Whenever a pool of the account is read, it shows what the pairs opened before have left of the balance. */
  ghost predicate Truthful(m: Market, plans: seq<OpenPlan>, replies: seq<Reply>, ex: int, balance: real)
    requires |replies| == |plans|
  {
    forall i :: 0 <= i < |plans| ==>
      TruthfulReply(m, Run(m, plans[..i], replies[..i]), plans[i], replies[i], ex, balance)
  }

  predicate OverstepsAt(m: Market, plans: seq<OpenPlan>, replies: seq<Reply>, i: int, ex: int)
    requires |replies| == |plans|
  {
    && 0 <= i < |plans|
    && Oversteps(m, Run(m, plans[..i], replies[..i]), plans[i], replies[i], LagOf(m, plans[..i], replies[..i], ex), ex)
  }

  ghost predicate SomeOversteps(m: Market, plans: seq<OpenPlan>, replies: seq<Reply>, ex: int)
    requires |replies| == |plans|
  {
    exists i :: OverstepsAt(m, plans, replies, i, ex)
  }

  lemma {:induction false} OverstepsSnoc(m: Market, plans: seq<OpenPlan>, replies: seq<Reply>, ex: int)
    requires |replies| == |plans| && plans != []
    ensures var n := |plans| - 1;
      SomeOversteps(m, plans, replies, ex)
      <==> SomeOversteps(m, plans[..n], replies[..n], ex) || OverstepsAt(m, plans, replies, n, ex)
  {
    hide Run, LagOf, Oversteps;
    var n := |plans| - 1;
    assert forall i :: 0 <= i < n ==> plans[..n][..i] == plans[..i] && replies[..n][..i] == replies[..i];
    assert forall i :: OverstepsAt(m, plans[..n], replies[..n], i, ex) ==> OverstepsAt(m, plans, replies, i, ex);
    assert forall i :: i != n && OverstepsAt(m, plans, replies, i, ex) ==>
      OverstepsAt(m, plans[..n], replies[..n], i, ex);
  }

  lemma {:induction false} TruthfulPrefix(m: Market, plans: seq<OpenPlan>, replies: seq<Reply>, ex: int, balance: real)
    requires |replies| == |plans| && plans != [] && Truthful(m, plans, replies, ex, balance)
    ensures var n := |plans| - 1;
      && Truthful(m, plans[..n], replies[..n], ex, balance)
      && TruthfulReply(m, Run(m, plans[..n], replies[..n]), plans[n], replies[n], ex, balance)
  {
    hide TruthfulReply, Run;
    var n := |plans| - 1;
    forall i | 0 <= i < n
      ensures TruthfulReply(m, Run(m, plans[..n][..i], replies[..n][..i]), plans[..n][i], replies[..n][i], ex, balance)
    {
      assert plans[..n][..i] == plans[..i] && replies[..n][..i] == replies[..i];
    }
  }

  /** As long as the balance lasts, each pool shows what is left of it plus its lag. */
  lemma {:induction false} RunTracks(m: Market, plans: seq<OpenPlan>, replies: seq<Reply>, ex: int, balance: real)
    requires |replies| == |plans| && AllReadsSucceed(m, plans, replies)
    requires m.unified(ex) && balance >= 0.0 && Truthful(m, plans, replies, ex, balance)
    ensures var s := Run(m, plans, replies);
      && (Left(m, s, ex, balance) < 0.0 <==> SomeOversteps(m, plans, replies, ex))
      && (Left(m, s, ex, balance) >= 0.0 ==> Tracks(m, s, LagOf(m, plans, replies, ex), ex, balance))
  {
    if plans == [] {
      assert !SomeOversteps(m, plans, replies, ex);
    } else {
      var n := |plans| - 1;
      var s, lag := Run(m, plans[..n], replies[..n]), LagOf(m, plans[..n], replies[..n], ex);
      ReadsOfPrefix(m, plans, replies);
      TruthfulPrefix(m, plans, replies, ex, balance);
      OverstepsSnoc(m, plans, replies, ex);
      RunTracks(m, plans[..n], replies[..n], ex, balance);
      StepOnlyTakes(m, s, plans[n], replies[n], ex, balance);
      assert OverstepsAt(m, plans, replies, n, ex) <==> Oversteps(m, s, plans[n], replies[n], lag, ex);
      hide SomeOversteps, OverstepsAt, Truthful, AllReadsSucceed, ReadsSucceed, TruthfulReply;
      hide Step, Tracks, Left, LagAfter;
      if Left(m, s, ex, balance) >= 0.0 {
        if OpenOf(m, s, plans[n], replies[n]).Some? {
          TracksAfterOpen(m, s, plans[n], replies[n], lag, ex, balance);
        } else {
          TracksWithoutOpen(m, s, plans[n], replies[n], lag, ex, balance);
        }
      }
    }
  }

  /** No step gives anything back. */
  lemma {:induction false} StepOnlyTakes(m: Market, s: Progress, plan: OpenPlan, reply: Reply, ex: int, balance: real)
    ensures Left(m, Step(m, s, plan, reply), ex, balance) <= Left(m, s, ex, balance)
  {
    var t := Step(m, s, plan, reply);
    if t.log != s.log {
      var o := t.log[|s.log|];
      assert t.log == s.log + [o] && o.usd >= 5.0;
      hide Step, Takes;
      TakenSnoc(m, s.log, o, ex);
      TakesNonNegative(m, o, ex);
    }
  }

  /** When every reading of a unified account shows what is left of its balance, a run takes more than the
      balance exactly when some pair takes more than its pool shows less the lag of that pool: what the
      other role has taken since the pool was read. */
  lemma {:induction false} AccountOvertakenExactly(m: Market, plans: seq<OpenPlan>, replies: seq<Reply>, ex: int,
                                                   balance: real)
    requires |replies| == |plans| && AllReadsSucceed(m, plans, replies)
    requires m.unified(ex) && balance >= 0.0 && Truthful(m, plans, replies, ex, balance)
    ensures Taken(m, Run(m, plans, replies).log, ex) > balance <==> SomeOversteps(m, plans, replies, ex)
  {
    RunTracks(m, plans, replies, ex, balance);
    hide Run, SomeOversteps, Taken, Tracks;
  }

  // ----- A pool without lag is safe -----

  /** The pool the pair draws on lags by more than the margin its cap leaves. */
  predicate Stale(m: Market, s: Progress, plan: OpenPlan, reply: Reply, lag: Lag, ex: int) {
    if plan.shortId == ex then lag.perp > (1.0 - DRAW_SHARE) * Free(s.caches.perp, ex, reply.perpFree)
    else plan.longId == ex && lag.spot > 0.02 * Free(s.caches.spot, ex, reply.spotFree)
  }

  lemma {:induction false} OverstepNeedsStalePool(m: Market, s: Progress, plan: OpenPlan, reply: Reply, lag: Lag,
                                                  ex: int)
    requires UnifiedKnown(m, s.caches) && ReadsSucceed(m, s.caches, plan, reply) && m.unified(ex)
    requires Oversteps(m, s, plan, reply, lag, ex)
    ensures Stale(m, s, plan, reply, lag, ex)
  {
    OpenPools(m, s, plan, reply, ex);
    hide OpenOf, Step, PerpDraw, Free, ReadsSucceed;
  }

  /** A run whose pairs only draw on pools that lag by no more than that stays within the balance. */
  lemma {:induction false} FreshPoolsAreSafe(m: Market, plans: seq<OpenPlan>, replies: seq<Reply>, ex: int,
                                             balance: real)
    requires |replies| == |plans| && AllReadsSucceed(m, plans, replies)
    requires m.unified(ex) && balance >= 0.0 && Truthful(m, plans, replies, ex, balance)
    requires forall i :: 0 <= i < |plans| ==>
      !Stale(m, Run(m, plans[..i], replies[..i]), plans[i], replies[i], LagOf(m, plans[..i], replies[..i], ex), ex)
    ensures Taken(m, Run(m, plans, replies).log, ex) <= balance
  {
    AccountOvertakenExactly(m, plans, replies, ex, balance);
    if SomeOversteps(m, plans, replies, ex) {
      var i :| OverstepsAt(m, plans, replies, i, ex);
      ReadsAt(m, plans, replies, i);
      hide Run, LagOf, Oversteps, Stale, AllReadsSucceed, Truthful;
      OverstepNeedsStalePool(m, Run(m, plans[..i], replies[..i]), plans[i], replies[i],
                             LagOf(m, plans[..i], replies[..i], ex), ex);
    }
  }

  lemma {:induction false} ReadsAt(m: Market, plans: seq<OpenPlan>, replies: seq<Reply>, i: nat)
    requires |replies| == |plans| && AllReadsSucceed(m, plans, replies) && i < |plans|
    ensures var s := Run(m, plans[..i], replies[..i]);
      UnifiedKnown(m, s.caches) && ReadsSucceed(m, s.caches, plans[i], replies[i])
  {
    hide Run, ReadsSucceed;
    forall k | 0 <= k < i
      ensures ReadsSucceed(m, Run(m, plans[..i][..k], replies[..i][..k]).caches, plans[..i][k], replies[..i][k])
    {
      assert plans[..i][..k] == plans[..k] && replies[..i][..k] == replies[..k];
    }
    PerpPoolsBalance(m, plans[..i], replies[..i], 0);
  }

  // ----- A pair inside the account -----

  /** A pair opened inside the account copies the perp pool over the spot pool. That raises the spot pool
      exactly when the perp pool lags by more than the spot pool does and the pair takes together. */
  lemma {:induction false} SpotPoolRaisedExactly(m: Market, s: Progress, plan: OpenPlan, reply: Reply, lag: Lag,
                                                 ex: int, balance: real)
    requires Tracks(m, s, lag, ex, balance) && Left(m, s, ex, balance) >= 0.0 && OpenOf(m, s, plan, reply).Some?
    requires ReadsSucceed(m, s.caches, plan, reply) && TruthfulReply(m, s, plan, reply, ex, balance) && m.unified(ex)
    requires plan.shortId == plan.longId == ex && ex in s.caches.spot
    ensures var (t, o) := (Step(m, s, plan, reply), OpenOf(m, s, plan, reply).value);
      && ex in t.caches.spot
      && (t.caches.spot[ex] > s.caches.spot[ex] <==> lag.perp > lag.spot + Takes(m, o, ex))
  {
    var o := OpenOf(m, s, plan, reply).value;
    OpenPools(m, s, plan, reply, ex);
    TracksAfterOpen(m, s, plan, reply, lag, ex, balance);
    hide Step, OpenOf, Taken, UnifiedKnown, PerpDraw, Free;
    var t := Step(m, s, plan, reply);
    assert PoolOf(t.caches.spot, ex).Some?;
  }

  // ----- One role at a time -----

  /** No pair has `ex` as its long account, except inside one unified account. */
  predicate NeverLong(m: Market, plans: seq<OpenPlan>, ex: int) {
    forall i :: 0 <= i < |plans| ==> plans[i].longId != ex || OneAccount(m, plans[i])
  }

  predicate NeverShort(plans: seq<OpenPlan>, ex: int) { forall i :: 0 <= i < |plans| ==> plans[i].shortId != ex }

  predicate FromPlans(log: seq<Opened>, plans: seq<OpenPlan>) {
    forall i :: 0 <= i < |log| ==> log[i].plan in plans
  }

  lemma {:induction false} OpensComeFromPlans(m: Market, plans: seq<OpenPlan>, replies: seq<Reply>)
    requires |replies| == |plans|
    ensures FromPlans(Run(m, plans, replies).log, plans)
  {
    if plans != [] {
      var n := |plans| - 1;
      OpensComeFromPlans(m, plans[..n], replies[..n]);
      assert plans == plans[..n] + [plans[n]];
      hide CapOpenSize;
    }
  }

  lemma {:induction false} TakenByRole(m: Market, log: seq<Opened>, plans: seq<OpenPlan>, ex: int)
    requires FromPlans(log, plans) && Sized(log)
    ensures 0.0 <= Taken(m, log, ex) <= PerpDrawn(m, log, ex) + SpotDrawn(log, ex)
    ensures NeverLong(m, plans, ex) ==> Taken(m, log, ex) == PerpDrawn(m, log, ex)
    ensures NeverShort(plans, ex) ==> Taken(m, log, ex) == SpotDrawn(log, ex)
  {
    if log != [] {
      var n := |log| - 1;
      TakenByRole(m, log[..n], plans, ex);
      TakesNonNegative(m, log[n], ex);
      hide PerpDraw;
      var i :| 0 <= i < |plans| && plans[i] == log[n].plan;
    }
  }

  lemma {:induction false} PerpDrawnWithin(m: Market, plans: seq<OpenPlan>, replies: seq<Reply>, ex: int)
    requires |replies| == |plans| && AllReadsSucceed(m, plans, replies)
    ensures PerpDrawn(m, Run(m, plans, replies).log, ex) <= FirstPerp(m, plans, replies, ex)
  {
    PerpPoolsBalance(m, plans, replies, ex);
    FirstPerpNonNegative(m, plans, replies, ex);
    hide Run, FirstPerp, PerpDrawn;
  }

  lemma {:induction false} FirstPerpNonNegative(m: Market, plans: seq<OpenPlan>, replies: seq<Reply>, ex: int)
    requires |replies| == |plans|
    ensures FirstPerp(m, plans, replies, ex) >= 0.0
  {
    hide Run;
    if plans != [] {
      FirstPerpNonNegative(m, plans[..|plans| - 1], replies[..|plans| - 1], ex);
    }
  }

  lemma {:induction false} FirstSpotNonNegative(m: Market, plans: seq<OpenPlan>, replies: seq<Reply>, ex: int)
    requires |replies| == |plans|
    ensures FirstSpot(m, plans, replies, ex) >= 0.0
  {
    hide Run;
    if plans != [] {
      FirstSpotNonNegative(m, plans[..|plans| - 1], replies[..|plans| - 1], ex);
    }
  }

  lemma {:induction false} SpotDrawnWithin(m: Market, plans: seq<OpenPlan>, replies: seq<Reply>, ex: int)
    requires |replies| == |plans| && AllReadsSucceed(m, plans, replies)
    requires forall i :: 0 <= i < |plans| ==> !(OneAccount(m, plans[i]) && plans[i].longId == ex)
    ensures SpotDrawn(Run(m, plans, replies).log, ex) <= FirstSpot(m, plans, replies, ex)
  {
    SpotPoolsBalance(m, plans, replies, ex);
    FirstSpotNonNegative(m, plans, replies, ex);
    hide Run, FirstSpot, SpotDrawn;
  }

  /** An account in one role only never gives more than it was read to have; one in both roles, never more
      than both readings together. */
  lemma {:induction false} OneRoleFits(m: Market, plans: seq<OpenPlan>, replies: seq<Reply>, ex: int)
    requires |replies| == |plans| && AllReadsSucceed(m, plans, replies)
    ensures var taken := Taken(m, Run(m, plans, replies).log, ex);
      && (NeverLong(m, plans, ex) ==> taken <= FirstPerp(m, plans, replies, ex))
      && (NeverShort(plans, ex) ==> taken <= FirstSpot(m, plans, replies, ex))
      && ((forall i :: 0 <= i < |plans| ==> !(OneAccount(m, plans[i]) && plans[i].longId == ex)) ==>
            taken <= FirstPerp(m, plans, replies, ex) + FirstSpot(m, plans, replies, ex))
  {
    OpensAreSized(m, plans, replies);
    OpensComeFromPlans(m, plans, replies);
    TakenByRole(m, Run(m, plans, replies).log, plans, ex);
    PerpDrawnWithin(m, plans, replies, ex);
    hide Run, Taken, PerpDrawn, SpotDrawn, FirstPerp, FirstSpot, AllReadsSucceed, Sized, FromPlans;
    if forall i :: 0 <= i < |plans| ==> !(OneAccount(m, plans[i]) && plans[i].longId == ex) {
      SpotDrawnWithin(m, plans, replies, ex);
    } else if NeverShort(plans, ex) {
      assert false;
    }
  }

  lemma {:induction false} NoLag(m: Market, plans: seq<OpenPlan>, replies: seq<Reply>, ex: int)
    requires |replies| == |plans| && m.unified(ex)
    ensures NeverLong(m, plans, ex) ==> LagOf(m, plans, replies, ex).perp == 0.0
    ensures NeverShort(plans, ex) ==> LagOf(m, plans, replies, ex).spot == 0.0
  {
    hide Run, OpenOf, PerpDraw;
    if plans != [] {
      var n := |plans| - 1;
      assert forall i :: 0 <= i < n ==> plans[..n][i] == plans[i];
      NoLag(m, plans[..n], replies[..n], ex);
    }
  }

  /** In one role only, a unified account is never overtaken. */
  lemma {:induction false} OneRoleStaysWithin(m: Market, plans: seq<OpenPlan>, replies: seq<Reply>, ex: int,
                                              balance: real)
    requires |replies| == |plans| && AllReadsSucceed(m, plans, replies)
    requires m.unified(ex) && balance >= 0.0 && Truthful(m, plans, replies, ex, balance)
    requires NeverLong(m, plans, ex) || NeverShort(plans, ex)
    ensures Taken(m, Run(m, plans, replies).log, ex) <= balance
  {
    forall i | 0 <= i < |plans|
      ensures !Stale(m, Run(m, plans[..i], replies[..i]), plans[i], replies[i],
                     LagOf(m, plans[..i], replies[..i], ex), ex)
    {
      NoLag(m, plans[..i], replies[..i], ex);
      hide Run, LagOf;
    }
    hide Run, Taken, Stale, LagOf, Truthful, AllReadsSucceed, NeverLong, NeverShort;
    FreshPoolsAreSafe(m, plans, replies, ex, balance);
  }

  // ----- Concrete runs -----

  /** Leverage 1 and equal prices; account 3 is unified and has $1000. */
  const EVEN: Market := Market({1, 2, 3}, (ex: int) => true, (a: int, b: int, s: string) => 1.0, 1.0, 5000.0)

  function AsShort(usd: real): OpenPlan { OpenPlan("p", "s", 1, 3, usd) }

  function AsLong(usd: real): OpenPlan { OpenPlan("q", "s", 3, 2, usd) }

  function Inside(usd: real): OpenPlan { OpenPlan("r", "s", 3, 3, usd) }

  function Answer(perp: real, spot: real): Reply { Reply(Some(perp), Some(spot), true) }

  const CACHED := Reply(None, None, true)

  function At(usd: real, plan: OpenPlan): Opened { Opened(plan, usd, Some(1.0)) }

  /** Account 1 holds the other side of `AsShort`, account 2 that of `AsLong`. */
  function Books(perp3: real, spot1: real): Caches { Caches(map[3 := perp3], map[1 := spot1], map[3 := true]) }

  function WithLong(c: Caches, perp2: real, spot3: real): Caches {
    Caches(c.perp[2 := perp2], c.spot[3 := spot3], c.unified[2 := true])
  }

  lemma {:induction false} ShortOpens(usd: real)
    requires 5.0 <= usd <= 980.0
    ensures Step(EVEN, START, AsShort(usd), Answer(1000.0, 10000.0))
      == Progress(Books(1000.0 - usd, 10000.0 - usd), [At(usd, AsShort(usd))])
  {
    assert Round8(1.0) == 1.0;
  }

  lemma {:induction false} LongOpens(c: Caches, log: seq<Opened>, left: real)
    requires 10.0 <= left <= 1000.0 && 2 !in c.perp && 2 !in c.unified && 3 !in c.spot
    ensures var usd := left * 0.98;
      Step(EVEN, Progress(c, log), AsLong(5000.0), Answer(10000.0, left))
      == Progress(WithLong(c, 10000.0 - usd, left - usd), log + [At(usd, AsLong(5000.0))])
  {
    var usd := left * 0.98;
    assert Round8(1.0) == 1.0 && MaxByPerp(10000.0, 1.0, 1.0) == 9800.0;
    assert MarginDraw(usd, 1.0, 1.0) == usd && 5.0 <= usd <= 980.0;
    hide Round8, MaxByPerp, MarginDraw, MaxUnified;
    var capped := CapOpenSize(EVEN, c, AsLong(5000.0), Answer(10000.0, left), 5000.0);
    assert capped == Capped(usd, Some(1.0), WithLong(c, 10000.0, left));
    hide CapOpenSize;
  }

  lemma {:induction false} RunOfThree(m: Market, plans: seq<OpenPlan>, replies: seq<Reply>)
    requires |plans| == |replies| == 3
    ensures Run(m, plans[..0], replies[..0]) == START
    ensures Run(m, plans[..1], replies[..1]) == Step(m, START, plans[0], replies[0])
    ensures Run(m, plans[..2], replies[..2]) == Step(m, Run(m, plans[..1], replies[..1]), plans[1], replies[1])
    ensures Run(m, plans, replies) == Step(m, Run(m, plans[..2], replies[..2]), plans[2], replies[2])
  {
    hide Step;
    assert plans[..1][..0] == plans[..0] && replies[..1][..0] == replies[..0];
    assert plans[..2][..1] == plans[..1] && replies[..2][..1] == replies[..1];
  }

  const LAG_PLANS := [AsShort(400.0), AsLong(5000.0), AsShort(5000.0)]
  const LAG_REPLIES := [Answer(1000.0, 10000.0), Answer(10000.0, 600.0), CACHED]

  /** $400 as the short side, $588 of the $600 then read as the long side, and $588 more as the short side
      from a pool that still shows $600: $1576 out of $1000, every reading truthful. */
  lemma {:induction false} TwoRolesOvertake()
    ensures AllReadsSucceed(EVEN, LAG_PLANS, LAG_REPLIES) && Truthful(EVEN, LAG_PLANS, LAG_REPLIES, 3, 1000.0)
    ensures Taken(EVEN, Run(EVEN, LAG_PLANS, LAG_REPLIES).log, 3) == 1576.0
  {
    LagRun();
    hide Run, Taken, CapOpenSize;
    TakenInTurn(400.0, 588.0, At(588.0, AsShort(5000.0)));
    LagTakes();
    hide PerpDraw, Takes;
    forall i | 0 <= i < 3
      ensures ReadsSucceed(EVEN, Run(EVEN, LAG_PLANS[..i], LAG_REPLIES[..i]).caches, LAG_PLANS[i], LAG_REPLIES[i])
      ensures TruthfulReply(EVEN, Run(EVEN, LAG_PLANS[..i], LAG_REPLIES[..i]), LAG_PLANS[i], LAG_REPLIES[i], 3, 1000.0)
    {
      if i == 0 {
        assert LAG_PLANS[i] == AsShort(400.0);
      } else if i == 1 {
        assert LAG_PLANS[i] == AsLong(5000.0);
      } else {
        assert LAG_PLANS[i] == AsShort(5000.0);
      }
    }
  }

  lemma {:induction false} LagRun()
    ensures var log := [At(400.0, AsShort(400.0)), At(588.0, AsLong(5000.0))];
      && Run(EVEN, LAG_PLANS[..0], LAG_REPLIES[..0]) == START
      && Run(EVEN, LAG_PLANS[..1], LAG_REPLIES[..1]) == Progress(Books(600.0, 9600.0), log[..1])
      && Run(EVEN, LAG_PLANS[..2], LAG_REPLIES[..2]) == Progress(WithLong(Books(600.0, 9600.0), 9412.0, 12.0), log)
      && Run(EVEN, LAG_PLANS, LAG_REPLIES).log == log + [At(588.0, AsShort(5000.0))]
  {
    hide Step, Run, At, AsShort, AsLong, Answer, WithLong;
    RunOfThree(EVEN, LAG_PLANS, LAG_REPLIES);
    ShortOpens(400.0);
    LongOpens(Books(600.0, 9600.0), [At(400.0, AsShort(400.0))], 600.0);
    ThirdOpens();
  }

  lemma {:induction false} LagTakes()
    ensures Takes(EVEN, At(588.0, AsShort(5000.0)), 3) == 588.0
  {}

  lemma {:induction false} ThirdOpens()
    ensures var log := [At(400.0, AsShort(400.0)), At(588.0, AsLong(5000.0))];
      Step(EVEN, Progress(WithLong(Books(600.0, 9600.0), 9412.0, 12.0), log), AsShort(5000.0), CACHED).log
      == log + [At(588.0, AsShort(5000.0))]
  {
    assert Round8(1.0) == 1.0;
  }

  lemma {:induction false} TakenInTurn(a: real, b: real, o: Opened)
    ensures var log := [At(a, AsShort(a)), At(b, AsLong(5000.0))];
      && Taken(EVEN, [], 3) == 0.0 && Taken(EVEN, log[..1], 3) == a && Taken(EVEN, log, 3) == a + b
      && Taken(EVEN, log + [o], 3) == a + b + Takes(EVEN, o, 3)
  {
    var log := [At(a, AsShort(a)), At(b, AsLong(5000.0))];
    assert log[..1][..0] == [] && (log + [o])[..2] == log;
  }

  const COPY_PLANS := [AsShort(10.0), AsLong(5000.0), Inside(100.0)]
  const COPY_REPLIES := [Answer(1000.0, 10000.0), Answer(10000.0, 990.0), CACHED]

  /** With $19.80 left, a pair of $100 inside the account raises the spot pool from $19.80 to $790. */
  lemma {:induction false} SpotPoolRaised()
    ensures AllReadsSucceed(EVEN, COPY_PLANS, COPY_REPLIES) && Truthful(EVEN, COPY_PLANS, COPY_REPLIES, 3, 1000.0)
    ensures PoolOf(Run(EVEN, COPY_PLANS[..2], COPY_REPLIES[..2]).caches.spot, 3) == Some(19.8)
    ensures PoolOf(Run(EVEN, COPY_PLANS, COPY_REPLIES).caches.spot, 3) == Some(790.0)
  {
    var p, r := COPY_PLANS, COPY_REPLIES;
    RunOfThree(EVEN, p, r);
    ShortOpens(10.0);
    LongOpens(Books(990.0, 9990.0), [At(10.0, AsShort(10.0))], 990.0);
    InsideOpens([At(10.0, AsShort(10.0)), At(970.2, AsLong(5000.0))]);
    hide Step, Run;
    TakenInTurn(10.0, 970.2, At(100.0, Inside(100.0)));
  }

  lemma {:induction false} InsideOpens(log: seq<Opened>)
    ensures PoolOf(Step(EVEN, Progress(WithLong(Books(990.0, 9990.0), 9029.8, 19.8), log), Inside(100.0), CACHED)
                     .caches.spot, 3) == Some(790.0)
  {
    assert Round8(1.0) == 1.0;
    assert MaxUnified(990.0, 1.0, 1.0) == 485.1;
  }
}
