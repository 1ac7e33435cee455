/** Confirmation of a rebalance over consecutive cycles: the live counter, which
    forgets after a time-to-live, and the simulator's inline counter, which does not. */
module ConfirmRounds {
  import opened Arith

  const TTL_SECS := 1800.0

  /** One call; `fp` is `None` for the empty fingerprint. */
  datatype Call<F(==)> = Call(raw: bool, fp: Option<F>, now: real)

  datatype Confirm<F(==)> = Confirm(fp: Option<F>, count: nat, updatedAt: real)

  predicate Signalled<F>(c: Call<F>) { c.raw && c.fp.Some? }

  function Forget<F(==)>(s: Confirm<F>, now: real): Confirm<F> {
    if s.updatedAt > 0.0 && now - s.updatedAt > TTL_SECS then Confirm(None, 0, 0.0) else s
  }

  function Inline<F(==)>(s: Confirm<F>, c: Call<F>): Confirm<F> {
    if !Signalled(c) then Confirm(None, 0, c.now)
    else Confirm(c.fp, if s.fp == c.fp then s.count + 1 else 1, c.now)
  }

  function Live<F(==)>(s: Confirm<F>, c: Call<F>): Confirm<F> { Inline(Forget(s, c.now), c) }

  function RunLive<F(==)>(calls: seq<Call<F>>): Confirm<F> {
    if calls == [] then Confirm(None, 0, 0.0)
    else Live(RunLive(calls[..|calls| - 1]), calls[|calls| - 1])
  }

  function RunInline<F(==)>(calls: seq<Call<F>>): Confirm<F> {
    if calls == [] then Confirm(None, 0, 0.0)
    else Inline(RunInline(calls[..|calls| - 1]), calls[|calls| - 1])
  }

  /** The last `k` calls were all signalled, with the fingerprint of the last one, no more than
      the time-to-live apart. */
  predicate IsRun<F(==)>(calls: seq<Call<F>>, k: nat) {
    var n := |calls|;
    && k <= n
    && (forall i :: n - k <= i < n ==> Signalled(calls[i]) && calls[i].fp == calls[n - 1].fp)
    && (forall i :: n - k < i < n ==> calls[i].now - calls[i - 1].now <= TTL_SECS)
  }

  /** A run of length k + 1 is a run of length k before the last call, joined to it. */
  lemma {:induction false} RunSnoc<F>(calls: seq<Call<F>>, k: nat)
    requires |calls| >= 2 && k >= 1
    ensures var n := |calls| - 1;
      IsRun(calls, k + 1) <==>
        && IsRun(calls[..n], k) && Signalled(calls[n]) && calls[n - 1].fp == calls[n].fp
        && calls[n].now - calls[n - 1].now <= TTL_SECS
  {
    var n := |calls| - 1;
    if IsRun(calls, k + 1) {
      assert n - 1 >= |calls| - (k + 1);
      assert forall i :: n - k <= i < n ==> calls[..n][i] == calls[i];
    }
    if IsRun(calls[..n], k) {
      assert forall i :: n - k <= i < n ==> calls[..n][i] == calls[i];
    }
  }

  lemma {:induction false} RunBase<F>(calls: seq<Call<F>>)
    ensures IsRun(calls, 0)
    ensures IsRun(calls, 1) <==> calls != [] && Signalled(calls[|calls| - 1])
    ensures |calls| == 1 ==> !IsRun(calls, 2)
  {}

  /** What one more call does to the longest run. */
  lemma {:induction false} RunStep<F>(calls: seq<Call<F>>, k: nat)
    requires calls != [] && IsRun(calls[..|calls| - 1], k) && !IsRun(calls[..|calls| - 1], k + 1)
    ensures var n := |calls| - 1;
      var next := if !Signalled(calls[n]) then 0
                  else if k > 0 && calls[n - 1].fp == calls[n].fp && calls[n].now - calls[n - 1].now <= TTL_SECS
                  then k + 1
                  else 1;
      IsRun(calls, next) && !IsRun(calls, next + 1)
  {
    RunBase(calls);
    RunBase(calls[..|calls| - 1]);
    if |calls| >= 2 {
      RunSnoc(calls, k + 1);
      RunSnoc(calls, 1);
      if k > 0 {
        RunSnoc(calls, k);
      }
    }
    hide IsRun;
  }

  /** The live count is the length of the longest such run. Clock readings are positive. */
  lemma {:induction false} LiveCountIsTrailingRun<F>(calls: seq<Call<F>>)
    requires forall i :: 0 <= i < |calls| ==> calls[i].now > 0.0
    ensures var s := RunLive(calls);
      && IsRun(calls, s.count)
      && !IsRun(calls, s.count + 1)
      && s.fp == (if s.count > 0 then calls[|calls| - 1].fp else None)
      && s.updatedAt == (if calls == [] then 0.0 else calls[|calls| - 1].now)
  {
    if calls == [] {
    } else {
      var n := |calls| - 1;
      LiveCountIsTrailingRun(calls[..n]);
      RunStep(calls, RunLive(calls[..n]).count);
      hide IsRun;
    }
  }

  /** Call `i` repeats the signal of the call before it, but only after the time-to-live. */
  predicate Lapse<F(==)>(calls: seq<Call<F>>, i: int) {
    && 0 < i < |calls| && Signalled(calls[i - 1]) && Signalled(calls[i])
    && calls[i - 1].fp == calls[i].fp && calls[i].now - calls[i - 1].now > TTL_SECS
  }

  ghost predicate Lapses<F>(calls: seq<Call<F>>) { exists i :: Lapse(calls, i) }

  ghost predicate AlwaysAgree<F>(calls: seq<Call<F>>) {
    forall k :: 0 <= k <= |calls| ==> RunLive(calls[..k]) == RunInline(calls[..k])
  }

  /** What the simulator's counter remembers of the last call. */
  lemma {:induction false} InlineRemembersLast<F>(calls: seq<Call<F>>)
    requires calls != []
    ensures var (s, c) := (RunInline(calls), calls[|calls| - 1]);
      && s.updatedAt == c.now
      && s.fp == (if Signalled(c) then c.fp else None)
      && (Signalled(c) ==> s.count >= 1)
  {}

  /** Counters that agree so far stay in agreement exactly when the last call is no lapse. */
  lemma {:induction false} AgreementStep<F>(calls: seq<Call<F>>)
    requires calls != [] && calls[|calls| - 1].now > 0.0
    requires |calls| >= 2 ==> calls[|calls| - 2].now > 0.0
    requires RunLive(calls[..|calls| - 1]) == RunInline(calls[..|calls| - 1])
    ensures RunLive(calls) == RunInline(calls) <==> !Lapse(calls, |calls| - 1)
  {
    if |calls| >= 2 {
      InlineRemembersLast(calls[..|calls| - 1]);
    }
  }

  lemma {:induction false} AgreementSnoc<F>(calls: seq<Call<F>>)
    requires calls != []
    ensures AlwaysAgree(calls) <==> AlwaysAgree(calls[..|calls| - 1]) && RunLive(calls) == RunInline(calls)
    ensures Lapses(calls) <==> Lapses(calls[..|calls| - 1]) || Lapse(calls, |calls| - 1)
  {
    var n := |calls| - 1;
    hide RunLive, RunInline;
    assert calls[..|calls|] == calls;
    assert forall k :: 0 <= k <= n ==> calls[..n][..k] == calls[..k];
    assert forall k :: 0 <= k <= |calls| && k > n ==> calls[..k] == calls;
    assert forall i :: Lapse(calls[..n], i) ==> Lapse(calls, i);
    assert forall i :: Lapse(calls, i) && i < n ==> Lapse(calls[..n], i);
  }

  /** The two counters agree at every point of a run exactly when no call repeats the signal just
      before it after more than the time-to-live. Clock readings are positive. */
  lemma {:induction false} CountersAgreeExactly<F>(calls: seq<Call<F>>)
    requires forall i :: 0 <= i < |calls| ==> calls[i].now > 0.0
    ensures AlwaysAgree(calls) <==> !Lapses(calls)
  {
    hide RunLive, RunInline, AlwaysAgree, Lapses, Lapse;
    if calls == [] {
      NothingLapses<F>();
    } else {
      CountersAgreeExactly(calls[..|calls| - 1]);
      AgreementSnoc(calls);
      if AlwaysAgree(calls[..|calls| - 1]) {
        AgreesAtTheEnd(calls[..|calls| - 1]);
        AgreementStep(calls);
      }
    }
  }

  lemma {:induction false} AgreesAtTheEnd<F>(calls: seq<Call<F>>)
    requires AlwaysAgree(calls)
    ensures RunLive(calls) == RunInline(calls)
  {
    assert calls[..|calls|] == calls;
  }

  lemma {:induction false} NothingLapses<F>()
    ensures AlwaysAgree<F>([]) && !Lapses<F>([])
  {}

  /** Such a lapse: two equal signals an hour apart. */
  lemma {:induction false} CountersDisagreeAfterGap()
    ensures var calls := [Call(true, Some(7), 1.0), Call(true, Some(7), 3601.0)];
      RunLive(calls).count == 1 && RunInline(calls).count == 2
  {
    var calls := [Call(true, Some(7), 1.0), Call(true, Some(7), 3601.0)];
    assert calls[..1] == [calls[0]];
    assert calls[..1][..0] == [];
  }

  /** The live counter as the engine keeps it. */
  class RebalanceConfirm<F(==)> {
    var fingerprint: Option<F>
    var count: nat
    var updatedAt: real

    constructor ()
      ensures Value() == RunLive([])
    {
      fingerprint, count, updatedAt := None, 0, 0.0;
    }

    function Value(): Confirm<F>
      reads this
    {
      Confirm(fingerprint, count, updatedAt)
    }

    method Cleanup(now: real)
      modifies this
      ensures Value() == Forget(old(Value()), now)
    {
      if updatedAt <= 0.0 {
        return;
      }
      if now - updatedAt > TTL_SECS {
        fingerprint, count, updatedAt := None, 0, 0.0;
      }
    }

    method ApplyRounds(raw: bool, fp: Option<F>, required: int, now: real) returns (allowed: bool, rounds: nat)
      modifies this
      ensures Value() == Live(old(Value()), Call(raw, fp, now))
      ensures rounds == Value().count && (allowed <==> rounds >= MaxI(1, required))
    {
      Cleanup(now);
      if !raw || fp.None? {
        fingerprint, count, updatedAt := None, 0, now;
        return false, 0;
      }
      count := if fingerprint == fp then count + 1 else 1;
      fingerprint, updatedAt := fp, now;
      return count >= MaxI(1, required), count;
    }
  }
}
