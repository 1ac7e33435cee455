/** The retry queue stays small, never forgets how often an item was tried, and drains. */
module RetryBounds {
  import opened Arith
  import opened Sorting
  import opened RetryQueue

  /** What holds between any two calls under a retry limit of `limit` rounds. */
  ghost predicate Sound(q: Queue, limit: nat) {
    DistinctKeys(q) && |q| <= MAX_ITEMS && forall i :: 0 <= i < |q| ==> q[i].round <= limit
  }

  // ----- Enqueueing -----

  ghost predicate Rounds(q: Queue, limit: nat) { forall i :: 0 <= i < |q| ==> q[i].round <= limit }

  /** Every item of `r` is new with round 0, or carries over its round and creation time from `q`. */
  ghost predicate CarriesOver(q: Queue, r: Queue) { forall i :: 0 <= i < |r| ==> Carries(q, r[i]) }

  predicate Carries(q: Queue, x: Item) {
    var j := IndexOf(q, x.key);
    if j >= 0 then x.round == q[j].round && x.createdAt == q[j].createdAt else x.round == 0
  }

  lemma {:induction false} EnqueueOneCarries(q: Queue, b: Batch, p: Payload)
    requires DistinctKeys(q)
    ensures var r := EnqueueOne(q, b, p);
      && DistinctKeys(r) && |q| <= |r| && (forall i :: 0 <= i < |q| ==> r[i].key == q[i].key)
      && CarriesOver(q, r)
  {
    var r := EnqueueOne(q, b, p);
    forall i | 0 <= i < |q| ensures IndexOf(q, q[i].key) == i {
      IndexIsUnique(q, i);
    }
  }

  lemma {:induction false} CarriesTransitively(a: Queue, b: Queue, c: Queue)
    requires DistinctKeys(a) && DistinctKeys(b) && |a| <= |b| && forall i :: 0 <= i < |a| ==> b[i].key == a[i].key
    requires CarriesOver(a, b) && CarriesOver(b, c)
    ensures CarriesOver(a, c)
  {
    forall i | 0 <= i < |c| ensures Carries(a, c[i]) {
      assert Carries(b, c[i]);
      var j, k := IndexOf(a, c[i].key), IndexOf(b, c[i].key);
      if j >= 0 {
        assert b[j].key == c[i].key;
        assert k == j;
      } else if k >= 0 {
        assert b[k].key == c[i].key;
      }
    }
  }

  lemma {:induction false} CarriesReflexive(q: Queue)
    requires DistinctKeys(q)
    ensures CarriesOver(q, q)
  {
    forall i | 0 <= i < |q| ensures IndexOf(q, q[i].key) == i {
      IndexIsUnique(q, i);
    }
  }

  lemma {:induction false} EnqueueAllCarries(q: Queue, b: Batch, ps: seq<Payload>)
    requires DistinctKeys(q)
    ensures var r := EnqueueAll(q, b, ps);
      && DistinctKeys(r) && |q| <= |r| && (forall i :: 0 <= i < |q| ==> r[i].key == q[i].key)
      && CarriesOver(q, r)
  {
    if ps == [] {
      CarriesReflexive(q);
    } else {
      var mid := EnqueueAll(q, b, ps[..|ps| - 1]);
      EnqueueAllCarries(q, b, ps[..|ps| - 1]);
      EnqueueOneCarries(mid, b, ps[|ps| - 1]);
      hide EnqueueOne, CarriesOver, IndexOf;
      CarriesTransitively(q, mid, EnqueueAll(q, b, ps));
    }
  }

  lemma {:induction false} SubListDistinct(q: Queue, r: Queue)
    requires DistinctKeys(q) && multiset(r) <= multiset(q)
    ensures DistinctKeys(r)
  {
    forall i, j | 0 <= i < j < |r| ensures r[i].key != r[j].key {
      assert r[i] in multiset(r) && r[j] in multiset(r);
      assert r[i] in q && r[j] in q;
      if r[i].key == r[j].key {
        assert r[i] == r[j];
        CountTwice(r, i, j);
        DistinctCounts(q, r[i]);
      }
    }
  }

  /** Trimming keeps at most 200 items, and drops none that is newer than one it keeps. */
  lemma {:induction false} TrimKeepsNewest(q: Queue)
    ensures |Trim(q)| <= MAX_ITEMS && multiset(Trim(q)) <= multiset(q)
    ensures |q| > MAX_ITEMS ==> |Trim(q)| == MAX_ITEMS
    ensures forall x, y :: x in Trim(q) && y in multiset(q) - multiset(Trim(q)) ==> !Newer(y, x)
  {
    if |q| > MAX_ITEMS {
      SortMultiset(q, Newer);
      SortSorted(q, Newer);
      var s := Sort(q, Newer);
      hide Sort, Sorted;
      CutParts(s, MAX_ITEMS);
      forall x, y | x in s[..MAX_ITEMS] && y in multiset(s[MAX_ITEMS..]) ensures !Newer(y, x) {
        AcrossTheCut(s, MAX_ITEMS, x, y);
      }
    }
  }

  lemma {:induction false} AcrossTheCut(s: Queue, m: nat, x: Item, y: Item)
    requires m <= |s| && Sorted(s, Newer) && x in s[..m] && y in multiset(s[m..])
    ensures !Newer(y, x)
  {
    hide Newer;
    var i :| 0 <= i < m && s[i] == x;
    assert y in s[m..];
    var j :| m <= j < |s| && s[j] == y;
  }

  lemma {:induction false} CutParts(s: Queue, m: nat)
    requires m <= |s|
    ensures multiset(s[..m]) <= multiset(s) && multiset(s) - multiset(s[..m]) == multiset(s[m..])
  {
    assert s == s[..m] + s[m..];
  }

  lemma {:induction false} TrimCarries(q: Queue, all: Queue)
    requires DistinctKeys(all) && CarriesOver(q, all)
    ensures DistinctKeys(Trim(all)) && |Trim(all)| <= MAX_ITEMS && CarriesOver(q, Trim(all))
  {
    TrimKeepsNewest(all);
    var r := Trim(all);
    hide Trim, Carries;
    SubListDistinct(all, r);
    forall i | 0 <= i < |r| ensures Carries(q, r[i]) {
      assert r[i] in multiset(r);
      var j :| 0 <= j < |all| && all[j] == r[i];
    }
  }

  lemma {:induction false} CarriedRounds(q: Queue, r: Queue, limit: nat)
    requires Rounds(q, limit) && CarriesOver(q, r)
    ensures Rounds(r, limit)
  {
    forall i | 0 <= i < |r| ensures r[i].round <= limit {
      assert Carries(q, r[i]);
    }
  }

  /** After every enqueueing call: keys distinct, at most 200 items, and an item that was already
      waiting keeps its round and its creation time. */
  lemma {:induction false} EnqueueIsSound(q: Queue, b: Batch, ps: seq<Payload>, limit: nat)
    requires Sound(q, limit)
    ensures Sound(Enqueue(q, b, ps), limit) && CarriesOver(q, Enqueue(q, b, ps))
  {
    if b.maxRounds <= 0 {
      CarriesReflexive(q);
    } else {
      EnqueueAllCarries(q, b, ps);
      TrimCarries(q, EnqueueAll(q, b, ps));
    }
    assert CarriesOver(q, Enqueue(q, b, ps));
    hide Enqueue;
    CarriedRounds(q, Enqueue(q, b, ps), limit);
  }

  // ----- Processing -----

  /** Rounds still to go, at least one for every waiting item. */
  function Fuel(q: Queue, limit: nat): int {
    if q == [] then 0 else Fuel(q[..|q| - 1], limit) + (limit + 1 - q[|q| - 1].round)
  }

  /** Keys of due items are waiting keys, each once. */
  lemma {:induction false} DueIsWaiting(q: Queue, now: real)
    requires DistinctKeys(q)
    ensures DistinctKeys(DueItems(q, now))
    ensures forall i :: 0 <= i < |DueItems(q, now)| ==> DueItems(q, now)[i] in q && DueItems(q, now)[i].nextTs <= now
    ensures forall x :: x in q && x.nextTs <= now ==> x in DueItems(q, now)
  {
    if q != [] {
      DueIsWaiting(q[..|q| - 1], now);
      assert q == q[..|q| - 1] + [q[|q| - 1]];
    }
  }

  /** What becomes of the waiting item `x` when the items in `due` are processed. */
  function Fate(x: Item, due: Queue, oks: seq<bool>, c: Config, now: real): Option<Item>
    requires |oks| == |due|
  {
    var i := IndexOf(due, x.key);
    if i < 0 then Some(x)
    else if Leaves(due[i], oks[i], c) then None
    else Some(Requeued(x, c, now))
  }

  lemma {:induction false} PutBackAt(q: Queue, k: Key, c: Config, now: real)
    requires DistinctKeys(q)
    ensures var r := PutBack(q, k, c, now);
      && |r| == |q|
      && forall i :: 0 <= i < |q| ==> r[i] == if q[i].key == k then Requeued(q[i], c, now) else q[i]
  {
    if q != [] && q[0].key != k {
      PutBackAt(q[1..], k, c, now);
    }
  }

  /** After processing `due`, each waiting item is untouched, put back, or marked to leave. */
  lemma {:induction false} ProcessItemsFates(q: Queue, due: Queue, oks: seq<bool>, c: Config, now: real)
    requires DistinctKeys(q) && DistinctKeys(due) && |oks| == |due| && forall i :: 0 <= i < |due| ==> due[i] in q
    ensures var s := ProcessItems(q, due, oks, c, now);
      && |s.q| == |q|
      && forall i :: 0 <= i < |q| ==>
           && s.q[i].key == q[i].key
           && (q[i].key in s.gone <==> Fate(q[i], due, oks, c, now).None?)
           && (q[i].key !in s.gone ==> Some(s.q[i]) == Fate(q[i], due, oks, c, now))
           && (IndexOf(due, q[i].key) < 0 ==> s.q[i] == q[i])
  {
    if due != [] {
      var n := |due| - 1;
      var before := ProcessItems(q, due[..n], oks[..n], c, now);
      ProcessItemsFates(q, due[..n], oks[..n], c, now);
      assert DistinctKeys(before.q);
      PutBackAt(before.q, due[n].key, c, now);
      forall i | 0 <= i < |q| ensures q[i].key == due[n].key ==> q[i] == due[n] {
        assert due[n] in q;
      }
      hide Fate, IndexOf, PutBack, Leaves, Requeued, DistinctKeys;
      var s := ProcessItems(q, due, oks, c, now);
      forall i | 0 <= i < |q|
        ensures s.q[i].key == q[i].key
        ensures q[i].key in s.gone <==> Fate(q[i], due, oks, c, now).None?
        ensures q[i].key !in s.gone ==> Some(s.q[i]) == Fate(q[i], due, oks, c, now)
        ensures IndexOf(due, q[i].key) < 0 ==> s.q[i] == q[i]
      {
        FateSnoc(q[i], due, oks, c, now);
        RequeuedKey(q[i], c, now);
      }
    }
  }

  lemma {:induction false} RequeuedKey(x: Item, c: Config, now: real)
    ensures Requeued(x, c, now).key == x.key
  {}

  /** Only its own due entry decides the fate of a waiting item. */
  lemma {:induction false} FateSnoc(x: Item, due: Queue, oks: seq<bool>, c: Config, now: real)
    requires DistinctKeys(due) && |oks| == |due| > 0 && (x.key == due[|due| - 1].key ==> x == due[|due| - 1])
    ensures var n := |due| - 1;
      if x.key == due[n].key then
        && IndexOf(due, x.key) == n && IndexOf(due[..n], x.key) < 0
        && Fate(x, due[..n], oks[..n], c, now) == Some(x)
        && Fate(x, due, oks, c, now) == if Leaves(due[n], oks[n], c) then None else Some(Requeued(x, c, now))
      else
        && IndexOf(due, x.key) == IndexOf(due[..n], x.key)
        && Fate(x, due, oks, c, now) == Fate(x, due[..n], oks[..n], c, now)
  {}

  lemma {:induction false} KeepMembers(q: Queue, gone: set<Key>)
    ensures forall x :: x in Keep(q, gone) <==> x in q && x.key !in gone
    ensures |Keep(q, gone)| <= |q|
    ensures DistinctKeys(q) ==> DistinctKeys(Keep(q, gone))
  {
    if q != [] {
      KeepMembers(q[1..], gone);
      hide DistinctKeys;
      assert q == [q[0]] + q[1..];
      if DistinctKeys(q) {
        HeadIsNew(q);
        if q[0].key !in gone {
          DistinctCons(q[0], Keep(q[1..], gone));
        }
      }
    }
  }

  lemma {:induction false} HeadIsNew(q: Queue)
    requires q != [] && DistinctKeys(q)
    ensures DistinctKeys(q[1..]) && forall x :: x in q[1..] ==> x.key != q[0].key
  {}

  lemma {:induction false} DistinctCons(x: Item, q: Queue)
    requires DistinctKeys(q) && forall y :: y in q ==> y.key != x.key
    ensures DistinctKeys([x] + q)
  {}

  /** The queue after a call holds exactly the fates of the items before it: an item that was not
      due is unchanged; a due one is gone if it cannot be executed, succeeded or ran out of rounds,
      and otherwise waits with one more round. */
  lemma {:induction false} ProcessExactly(q: Queue, oks: seq<bool>, c: Config, now: real)
    requires DistinctKeys(q) && |oks| == |Due(q, now)|
    ensures forall y :: y in Process(q, oks, c, now) <==>
      exists x :: x in q && Fate(x, Due(q, now), oks, c, now) == Some(y)
    ensures DistinctKeys(Process(q, oks, c, now)) && |Process(q, oks, c, now)| <= |q|
  {
    var due := Due(q, now);
    DueIsWaiting(q, now);
    ProcessItemsFates(q, due, oks, c, now);
    var s := ProcessItems(q, due, oks, c, now);
    hide ProcessItems, Fate, Due, IndexOf;
    KeepMembers(s.q, s.gone);
    assert DistinctKeys(s.q);
    hide Keep, DistinctKeys;
    forall y ensures y in Process(q, oks, c, now) <==> exists x :: x in q && Fate(x, due, oks, c, now) == Some(y) {
      if y in s.q && y.key !in s.gone {
        var i :| 0 <= i < |s.q| && s.q[i] == y;
        assert q[i] in q && Fate(q[i], due, oks, c, now) == Some(y);
      }
      if x :| x in q && Fate(x, due, oks, c, now) == Some(y) {
        var i :| 0 <= i < |q| && q[i] == x;
        assert s.q[i] == y;
      }
    }
  }

  /** What the items of `q` cost: the fuel each loses, all of it when it leaves. */
  lemma {:induction false} FuelAfter(q: Queue, r: Queue, gone: set<Key>, due: Queue, oks: seq<bool>, c: Config,
                                     now: real)
    requires |r| == |q| && |oks| == |due| && Rounds(q, Limit(c))
    requires forall i :: 0 <= i < |q| ==>
      && r[i].key == q[i].key
      && (q[i].key in gone <==> Fate(q[i], due, oks, c, now).None?)
      && (q[i].key !in gone ==> Some(r[i]) == Fate(q[i], due, oks, c, now))
      && (IndexOf(due, q[i].key) >= 0 ==> due[IndexOf(due, q[i].key)] == q[i])
    ensures Fuel(Keep(r, gone), Limit(c)) + Touched(q, due) <= Fuel(q, Limit(c))
    ensures Rounds(Keep(r, gone), Limit(c))
  {
    hide Fate, IndexOf, Limit;
    if q != [] {
      var n := |q| - 1;
      FuelAfter(q[..n], r[..n], gone, due, oks, c, now);
      KeepSnoc(r, gone);
      ItemFuel(q[n], due, oks, c, now);
      FuelSnoc(Keep(r[..n], gone), r[n], Limit(c));
      RoundsSnoc(Keep(r[..n], gone), r[n], Limit(c));
      assert Fuel(q, Limit(c)) == Fuel(q[..n], Limit(c)) + (Limit(c) + 1 - q[n].round);
      assert Touched(q, due) == Touched(q[..n], due) + if IndexOf(due, q[n].key) >= 0 then 1 else 0;
      hide Keep, Fuel, Touched, Rounds;
      assert Keep(r[..n], gone) + [] == Keep(r[..n], gone);
    }
  }

  lemma {:induction false} RoundsSnoc(q: Queue, x: Item, limit: nat)
    ensures Rounds(q + [x], limit) <==> Rounds(q, limit) && x.round <= limit
  {
    if Rounds(q + [x], limit) {
      assert (q + [x])[|q|] == x;
      assert forall i :: 0 <= i < |q| ==> (q + [x])[i] == q[i];
    }
  }

  /** One item burns a round when it is due, and all it had left when it leaves. */
  lemma {:induction false} ItemFuel(x: Item, due: Queue, oks: seq<bool>, c: Config, now: real)
    requires |oks| == |due| && x.round <= Limit(c)
    requires IndexOf(due, x.key) >= 0 ==> due[IndexOf(due, x.key)] == x
    ensures match Fate(x, due, oks, c, now)
            case None => true
            case Some(y) =>
              && y.key == x.key && y.round <= Limit(c)
              && (IndexOf(due, x.key) >= 0 ==> Executable(x))
              && y.round == x.round + if IndexOf(due, x.key) >= 0 then 1 else 0
  {}

  /** How many waiting items are among the due ones. */
  function Touched(q: Queue, due: Queue): nat {
    if q == [] then 0 else Touched(q[..|q| - 1], due) + if IndexOf(due, q[|q| - 1].key) >= 0 then 1 else 0
  }

  lemma {:induction false} KeepAppend(q: Queue, x: Item, gone: set<Key>)
    ensures Keep(q + [x], gone) == Keep(q, gone) + if x.key in gone then [] else [x]
  {
    if q == [] {
      assert [] + [x] == [x];
      assert [x][1..] == [];
    } else {
      KeepAppend(q[1..], x, gone);
      KeepHead(q, gone);
      KeepHead(q + [x], gone);
      assert (q + [x])[1..] == q[1..] + [x];
      hide Keep;
    }
  }

  lemma {:induction false} KeepHead(q: Queue, gone: set<Key>)
    requires q != []
    ensures Keep(q, gone) == (if q[0].key in gone then [] else [q[0]]) + Keep(q[1..], gone)
  {}

  lemma {:induction false} KeepSnoc(q: Queue, gone: set<Key>)
    requires q != []
    ensures Keep(q, gone) == Keep(q[..|q| - 1], gone) + if q[|q| - 1].key in gone then [] else [q[|q| - 1]]
  {
    var n := |q| - 1;
    assert q == q[..n] + [q[n]];
    KeepAppend(q[..n], q[n], gone);
    hide Keep;
  }

  lemma {:induction false} FuelSnoc(q: Queue, x: Item, limit: nat)
    ensures Fuel(q + [x], limit) == Fuel(q, limit) + (limit + 1 - x.round)
  {
    assert (q + [x])[..|q|] == q;
  }

  lemma {:induction false} DueItemsTouched(q: Queue, due: Queue)
    requires DistinctKeys(q) && DistinctKeys(due)
    requires forall i :: 0 <= i < |due| ==> due[i] in q
    ensures Touched(q, due) == |due|
  {
    if q != [] {
      var n := |q| - 1;
      var i := IndexOf(due, q[n].key);
      if i < 0 {
        NoneIsLast(q, due);
        DueItemsTouched(q[..n], due);
      } else {
        OthersAreEarlier(q, due, i);
        hide IndexOf, DistinctKeys, Without;
        DueItemsTouched(q[..n], Without(due, i));
        SameTouched(q[..n], due, i);
      }
    }
  }

  lemma {:induction false} NoneIsLast(q: Queue, due: Queue)
    requires q != [] && DistinctKeys(q) && IndexOf(due, q[|q| - 1].key) < 0
    requires forall i :: 0 <= i < |due| ==> due[i] in q
    ensures DistinctKeys(q[..|q| - 1]) && forall i :: 0 <= i < |due| ==> due[i] in q[..|q| - 1]
  {
    assert q == q[..|q| - 1] + [q[|q| - 1]];
  }

  lemma {:induction false} OthersAreEarlier(q: Queue, due: Queue, i: nat)
    requires q != [] && DistinctKeys(q) && DistinctKeys(due) && i < |due| && due[i].key == q[|q| - 1].key
    requires forall j :: 0 <= j < |due| ==> due[j] in q
    ensures var (init, rest) := (q[..|q| - 1], Without(due, i));
      && DistinctKeys(init) && (forall j :: 0 <= j < |init| ==> init[j].key != due[i].key)
      && DistinctKeys(rest) && |rest| == |due| - 1 && forall j :: 0 <= j < |rest| ==> rest[j] in init
  {
    var init, rest := q[..|q| - 1], Without(due, i);
    assert q == init + [q[|q| - 1]];
    forall j | 0 <= j < |rest| ensures rest[j] in init {
      assert rest[j] == due[if j < i then j else j + 1];
    }
  }

  lemma {:induction false} SameTouched(q: Queue, due: Queue, i: nat)
    requires i < |due| && DistinctKeys(due) && forall j :: 0 <= j < |q| ==> q[j].key != due[i].key
    ensures Touched(q, due) == Touched(q, Without(due, i))
  {
    if q != [] {
      var n := |q| - 1;
      SameTouched(q[..n], due, i);
      KeyWithout(due, i, q[n].key);
      hide IndexOf, Without, DistinctKeys;
    }
  }

  lemma {:induction false} KeyWithout(due: Queue, i: nat, k: Key)
    requires i < |due| && due[i].key != k
    ensures IndexOf(due, k) >= 0 <==> IndexOf(Without(due, i), k) >= 0
  {
    hide IndexOf, Without;
    var rest := Without(due, i);
    WithoutAt(due, i);
    var a, b := IndexOf(due, k), IndexOf(rest, k);
    if a >= 0 {
      assert rest[if a < i then a else a - 1] == due[a];
    }
    if b >= 0 {
      assert due[if b < i then b else b + 1] == rest[b];
    }
  }

  lemma {:induction false} WithoutAt(due: Queue, i: nat)
    requires i < |due|
    ensures var rest := Without(due, i);
      |rest| == |due| - 1 && forall m :: 0 <= m < |rest| ==> rest[m] == due[if m < i then m else m + 1]
  {}

  /** Each call burns at least one round per due item: the rounds still to go fall by at least the
      number of items processed, and no waiting item ever exceeds the limit. */
  lemma {:induction false} ProcessBurnsFuel(q: Queue, oks: seq<bool>, c: Config, now: real)
    requires Sound(q, Limit(c)) && |oks| == |Due(q, now)|
    ensures Sound(Process(q, oks, c, now), Limit(c))
    ensures Fuel(Process(q, oks, c, now), Limit(c)) + |Due(q, now)| <= Fuel(q, Limit(c))
  {
    var due := Due(q, now);
    DueIsWaiting(q, now);
    ProcessExactly(q, oks, c, now);
    ProcessItemsFates(q, due, oks, c, now);
    DueItemsTouched(q, due);
    var s := ProcessItems(q, due, oks, c, now);
    hide ProcessItems, Due, Fate, Keep, Touched, Fuel;
    forall i | 0 <= i < |q| && IndexOf(due, q[i].key) >= 0 ensures due[IndexOf(due, q[i].key)] == q[i] {
      assert due[IndexOf(due, q[i].key)] in q;
    }
    FuelAfter(q, s.q, s.gone, due, oks, c, now);
  }

  // ----- Runs -----

  /** One event of a run under a fixed configuration. */
  datatype Op = EnqueueOp(b: Batch, ps: seq<Payload>) | ProcessOp(oks: seq<bool>, now: real)

  /** The queue together with, per key, the attempts made since it last entered the queue. */
  datatype Traced = Traced(q: Queue, tries: map<Key, nat>)

  ghost predicate Applicable(q: Queue, op: Op) { op.ProcessOp? ==> |op.oks| == |Due(q, op.now)| }

  ghost function Apply(s: Traced, op: Op, c: Config): Traced
    requires Applicable(s.q, op)
  {
    match op
    case EnqueueOp(b, ps) =>
      var r := Enqueue(s.q, b, ps);
      Traced(r, s.tries + map k | k in KeySet(r) && IndexOf(s.q, k) < 0 :: 0)
    case ProcessOp(oks, now) =>
      var due := Due(s.q, now);
      Traced(Process(s.q, oks, c, now),
             map k | k in s.tries ::
               s.tries[k] + if IndexOf(due, k) >= 0 && Executable(due[IndexOf(due, k)]) then 1 else 0)
  }

  function KeySet(q: Queue): set<Key> { set i | 0 <= i < |q| :: q[i].key }

  /** Waiting items have been tried exactly `round` times, and no item more than limit + 1 times. */
  ghost predicate TriesBounded(s: Traced, c: Config) {
    && Sound(s.q, Limit(c))
    && (forall i :: 0 <= i < |s.q| ==> s.q[i].key in s.tries && s.tries[s.q[i].key] == s.q[i].round)
    && (forall k :: k in s.tries ==> s.tries[k] <= Limit(c) + 1)
  }

  /** A run of calls from the empty queue, each answered with as many results as items were due. */
  ghost predicate Legal(ops: seq<Op>, c: Config)
    decreases ops, 0
  {
    ops == [] || (Legal(ops[..|ops| - 1], c) && Applicable(RunOps(ops[..|ops| - 1], c).q, ops[|ops| - 1]))
  }

  ghost function RunOps(ops: seq<Op>, c: Config): Traced
    requires Legal(ops, c)
    decreases ops, 1
  {
    if ops == [] then Traced([], map[]) else Apply(RunOps(ops[..|ops| - 1], c), ops[|ops| - 1], c)
  }

  /** Under a fixed configuration, over every run of enqueueing and processing calls: keys stay
      distinct, at most 200 items wait, and between entering and leaving the queue an item is tried
      at most max_rounds + 1 times. */
  lemma {:induction false} TriesBoundedOverRuns(ops: seq<Op>, c: Config)
    requires Legal(ops, c)
    ensures TriesBounded(RunOps(ops, c), c)
  {
    hide Apply;
    if ops != [] {
      TriesBoundedOverRuns(ops[..|ops| - 1], c);
      TriesStayBounded(RunOps(ops[..|ops| - 1], c), ops[|ops| - 1], c);
    }
  }

  lemma {:induction false} TriesStayBounded(s: Traced, op: Op, c: Config)
    requires TriesBounded(s, c) && Applicable(s.q, op)
    ensures TriesBounded(Apply(s, op, c), c)
  {
    match op
    case EnqueueOp(b, ps) =>
      EnqueueIsSound(s.q, b, ps, Limit(c));
      var r := Enqueue(s.q, b, ps);
      hide Enqueue;
      forall i | 0 <= i < |r|
        ensures r[i].key in Apply(s, op, c).tries && Apply(s, op, c).tries[r[i].key] == r[i].round
      {
        assert r[i].key in KeySet(r);
      }
    case ProcessOp(oks, now) =>
      ProcessTries(s, oks, c, now);
  }

  /** Due items are the waiting ones of their key. */
  lemma {:induction false} DueIsTheWaitingOne(q: Queue, now: real, x: Item)
    requires DistinctKeys(q) && x in q
    ensures var i := IndexOf(Due(q, now), x.key);
      i >= 0 ==> Due(q, now)[i] == x
  {
    DueIsWaiting(q, now);
    var i := IndexOf(Due(q, now), x.key);
    if i >= 0 {
      assert Due(q, now)[i] in q;
    }
  }

  lemma {:induction false} ProcessTries(s: Traced, oks: seq<bool>, c: Config, now: real)
    requires TriesBounded(s, c) && |oks| == |Due(s.q, now)|
    ensures TriesBounded(Apply(s, ProcessOp(oks, now), c), c)
  {
    var due, r := Due(s.q, now), Apply(s, ProcessOp(oks, now), c);
    ProcessBurnsFuel(s.q, oks, c, now);
    ProcessExactly(s.q, oks, c, now);
    DueIsWaiting(s.q, now);
    hide Process, Fuel, Due, IndexOf, Fate, Executable, Limit;
    forall i | 0 <= i < |r.q| ensures r.q[i].key in r.tries && r.tries[r.q[i].key] == r.q[i].round {
      assert r.q[i] in r.q;
      var x :| x in s.q && Fate(x, due, oks, c, now) == Some(r.q[i]);
      DueIsTheWaitingOne(s.q, now, x);
      ItemFuel(x, due, oks, c, now);
    }
    TriesOfDue(s, oks, c, now);
  }

  lemma {:induction false} TriesOfDue(s: Traced, oks: seq<bool>, c: Config, now: real)
    requires TriesBounded(s, c) && |oks| == |Due(s.q, now)|
    ensures var r := Apply(s, ProcessOp(oks, now), c);
      forall k :: k in r.tries ==> r.tries[k] <= Limit(c) + 1
  {
    var due, r := Due(s.q, now), Apply(s, ProcessOp(oks, now), c);
    DueIsWaiting(s.q, now);
    hide Process, Due, Executable, Limit;
    forall k | k in r.tries ensures r.tries[k] <= Limit(c) + 1 {
      var j := IndexOf(due, k);
      if j >= 0 {
        assert due[j] in s.q;
        assert due[j].key == k;
      }
    }
  }

  /** A run of processing calls: the queue after it and the number of items handled. */
  ghost predicate Draining(q: Queue, ops: seq<Op>, c: Config)
    decreases ops
  {
    ops == []
    || (ops[0].ProcessOp? && Applicable(q, ops[0])
        && Draining(Process(q, ops[0].oks, c, ops[0].now), ops[1..], c))
  }

  function Handled(q: Queue, ops: seq<Op>, c: Config): nat
    requires Draining(q, ops, c)
    decreases ops
  {
    if ops == [] then 0
    else |Due(q, ops[0].now)| + Handled(Process(q, ops[0].oks, c, ops[0].now), ops[1..], c)
  }

  function After(q: Queue, ops: seq<Op>, c: Config): Queue
    requires Draining(q, ops, c)
    decreases ops
  {
    if ops == [] then q else After(Process(q, ops[0].oks, c, ops[0].now), ops[1..], c)
  }

  lemma {:induction false} FuelBounds(q: Queue, limit: nat)
    requires Rounds(q, limit)
    ensures |q| <= Fuel(q, limit) <= |q| * (limit + 1)
  {
    if q != [] {
      FuelBounds(q[..|q| - 1], limit);
    }
  }

  lemma {:induction false} DrainAccount(q: Queue, ops: seq<Op>, c: Config)
    requires Sound(q, Limit(c)) && Draining(q, ops, c)
    ensures Sound(After(q, ops, c), Limit(c))
    ensures Handled(q, ops, c) + Fuel(After(q, ops, c), Limit(c)) <= Fuel(q, Limit(c))
    decreases ops
  {
    if ops != [] {
      ProcessBurnsFuel(q, ops[0].oks, c, ops[0].now);
      hide Process, Due, Fuel;
      DrainAccount(Process(q, ops[0].oks, c, ops[0].now), ops[1..], c);
    }
  }

  /** Every call of the run finds something due. */
  ghost predicate AlwaysDue(q: Queue, ops: seq<Op>, c: Config)
    requires Draining(q, ops, c)
    decreases ops
  {
    ops == [] || (Due(q, ops[0].now) != [] && AlwaysDue(Process(q, ops[0].oks, c, ops[0].now), ops[1..], c))
  }

  lemma {:induction false} OnePerCall(q: Queue, ops: seq<Op>, c: Config)
    requires Draining(q, ops, c) && AlwaysDue(q, ops, c)
    ensures |ops| <= Handled(q, ops, c)
    decreases ops
  {
    if ops != [] {
      OnePerCall(Process(q, ops[0].oks, c, ops[0].now), ops[1..], c);
    }
  }

  /** The queue drains: with nothing enqueued, no run can handle more than 200 * (max_rounds + 1)
      items, nor have more calls than that with something due. */
  lemma {:induction false} QueueDrains(q: Queue, ops: seq<Op>, c: Config)
    requires Sound(q, Limit(c)) && Draining(q, ops, c)
    ensures Handled(q, ops, c) + |After(q, ops, c)| <= |q| * (Limit(c) + 1) <= MAX_ITEMS * (Limit(c) + 1)
    ensures AlwaysDue(q, ops, c) ==> |ops| <= |q| * (Limit(c) + 1)
  {
    DrainAccount(q, ops, c);
    FuelBounds(q, Limit(c));
    FuelBounds(After(q, ops, c), Limit(c));
    if AlwaysDue(q, ops, c) {
      OnePerCall(q, ops, c);
    }
    hide Handled, After, AlwaysDue, Draining, Fuel, Sound, Limit;
    TimesMonotone(|q|, MAX_ITEMS, Limit(c) + 1);
  }

  lemma {:induction false} TimesMonotone(a: nat, b: nat, k: nat)
    requires a <= b
    ensures a * k <= b * k
  {}
}
