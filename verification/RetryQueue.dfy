/** The bounded queue of failed opens and closes waiting to be retried. */
module RetryQueue {
  import opened Arith
  import opened Sorting

  const MAX_ITEMS: nat := 200
  const MAX_DUE: nat := 30

  datatype Payload = Payload(strategyId: int, rowId: string, longId: int, shortId: int, cents: nat)

  datatype Key = CloseKey(strategyId: int) | OpenKey(rowId: string, longId: int, shortId: int)

  datatype Item = Item(
    key: Key, kind: string, payload: Payload, round: nat, maxRounds: int,
    nextTs: real, updatedAt: real, createdAt: real)

  type Queue = seq<Item>

  function KeyOf(kind: string, p: Payload): Key {
    if kind == "close" then CloseKey(p.strategyId) else OpenKey(p.rowId, p.longId, p.shortId)
  }

  /** Only the fields that kind needs are kept. */
  function Compact(kind: string, p: Payload): Payload {
    if kind == "close" then Payload(p.strategyId, p.rowId, 0, 0, p.cents)
    else Payload(0, p.rowId, p.longId, p.shortId, p.cents)
  }

  predicate Blank(k: Key) { k == CloseKey(0) || k == OpenKey("", 0, 0) }

  function IndexOf(q: Queue, k: Key): (i: int)
    ensures -1 <= i < |q| && (i >= 0 ==> q[i].key == k)
    ensures i == -1 <==> forall j :: 0 <= j < |q| ==> q[j].key != k
  {
    if q == [] then -1
    else if q[|q| - 1].key == k then |q| - 1
    else IndexOf(q[..|q| - 1], k)
  }

  /** The settings of one enqueueing call. */
  datatype Batch = Batch(kind: string, now: real, maxRounds: int, backoff: int)

  function Record(b: Batch, p: Payload): Item {
    var c := Compact(b.kind, p);
    Item(KeyOf(b.kind, c), b.kind, c, 0, b.maxRounds, b.now + MaxI(1, b.backoff) as real, b.now, b.now)
  }

  function EnqueueOne(q: Queue, b: Batch, p: Payload): Queue {
    var r := Record(b, p);
    var i := IndexOf(q, r.key);
    if Blank(r.key) then q
    else if i >= 0 then q[i := r.(createdAt := q[i].createdAt, round := q[i].round)]
    else q + [r]
  }

  function EnqueueAll(q: Queue, b: Batch, ps: seq<Payload>): Queue {
    if ps == [] then q else EnqueueOne(EnqueueAll(q, b, ps[..|ps| - 1]), b, ps[|ps| - 1])
  }

  predicate Newer(x: Item, y: Item) { x.updatedAt > y.updatedAt }

  function Trim(q: Queue): Queue {
    if |q| <= MAX_ITEMS then q
    else
      SortMultiset(q, Newer);
      Sort(q, Newer)[..MAX_ITEMS]
  }

  function Enqueue(q: Queue, b: Batch, ps: seq<Payload>): Queue {
    if b.maxRounds <= 0 then q else Trim(EnqueueAll(q, b, ps))
  }

  // ----- Processing -----

  /** The retry settings in force, and the time of the call. */
  datatype Config = Config(maxRounds: int, backoff: int)

  function Limit(c: Config): nat { MaxI(0, c.maxRounds) }

  function DueItems(q: Queue, now: real): Queue {
    if q == [] then []
    else DueItems(q[..|q| - 1], now) + if q[|q| - 1].nextTs <= now then [q[|q| - 1]] else []
  }

  function Due(q: Queue, now: real): Queue {
    var due := DueItems(q, now);
    due[..MinI(MAX_DUE, |due|)]
  }

  predicate Executable(x: Item) { x.kind == "open" || x.kind == "close" }

  /** The item leaves the queue: it cannot be executed, it succeeded, or it has used up its rounds. */
  predicate Leaves(x: Item, ok: bool, c: Config) { !Executable(x) || ok || x.round + 1 > Limit(c) }

  function Requeued(x: Item, c: Config, now: real): Item {
    x.(round := x.round + 1, nextTs := now + MaxI(1, c.backoff) as real, updatedAt := now)
  }

  /** The queue with the item of that key, if waiting, put back for another round. */
  function PutBack(q: Queue, k: Key, c: Config, now: real): Queue {
    if q == [] then []
    else if q[0].key == k then [Requeued(q[0], c, now)] + q[1..]
    else [q[0]] + PutBack(q[1..], k, c, now)
  }

  datatype Pass = Pass(q: Queue, gone: set<Key>)

  function ProcessItems(q: Queue, due: Queue, oks: seq<bool>, c: Config, now: real): Pass
    requires |oks| == |due|
  {
    if due == [] then Pass(q, {})
    else
      var n := |due| - 1;
      var s := ProcessItems(q, due[..n], oks[..n], c, now);
      if Leaves(due[n], oks[n], c) then s.(gone := s.gone + {due[n].key})
      else s.(q := PutBack(s.q, due[n].key, c, now))
  }

  function Keep(q: Queue, gone: set<Key>): Queue {
    if q == [] then [] else (if q[0].key in gone then [] else [q[0]]) + Keep(q[1..], gone)
  }

  /** One processing call; `oks` are the results of the retried orders. */
  function Process(q: Queue, oks: seq<bool>, c: Config, now: real): Queue
    requires |oks| == |Due(q, now)|
  {
    var s := ProcessItems(q, Due(q, now), oks, c, now);
    Keep(s.q, s.gone)
  }

  // ----- The program -----

  class RetryList {
    var items: Queue

    constructor ()
      ensures items == []
    {
      items := [];
    }

    method TrimIfNeeded()
      modifies this
      ensures items == Trim(old(items))
    {
      if |items| <= MAX_ITEMS {
        return;
      }
      SortMultiset(items, Newer);
      items := Sort(items, Newer);
      items := items[..MAX_ITEMS];
    }

    /** `added` counts the keys that were not waiting before. */
    method EnqueueItems(b: Batch, ps: seq<Payload>) returns (added: nat)
      requires DistinctKeys(items)
      modifies this
      ensures items == Enqueue(old(items), b, ps)
      ensures added == if b.maxRounds <= 0 then 0 else |EnqueueAll(old(items), b, ps)| - |old(items)|
    {
      added := 0;
      if b.maxRounds <= 0 {
        return;
      }
      var keyToIdx: map<Key, nat> := IndexKeys();
      for j := 0 to |ps|
        invariant items == EnqueueAll(old(items), b, ps[..j]) && DistinctKeys(items)
        invariant Indexes(keyToIdx, items)
        invariant added == |items| - |old(items)|
      {
        assert ps[..j + 1][..j] == ps[..j];
        var record := Record(b, ps[j]);
        ghost var q := items;
        Lookup(keyToIdx, items, record);
        if !Blank(record.key) {
          if record.key in keyToIdx {
            var i: nat := keyToIdx[record.key];
            items := items[i := record.(createdAt := items[i].createdAt, round := items[i].round)];
          } else {
            items := items + [record];
            keyToIdx := keyToIdx[record.key := |items| - 1];
            added := added + 1;
          }
        }
        assert items == EnqueueOne(q, b, ps[j]);
      }
      assert ps[..|ps|] == ps;
      TrimIfNeeded();
    }

    method IndexKeys() returns (keyToIdx: map<Key, nat>)
      requires DistinctKeys(items)
      ensures Indexes(keyToIdx, items)
    {
      keyToIdx := map[];
      for i := 0 to |items|
        invariant Indexes(keyToIdx, items[..i])
      {
        keyToIdx := keyToIdx[items[i].key := i];
      }
      assert items[..|items|] == items;
    }

    method RequeueByKey(k: Key, c: Config, now: real)
      modifies this
      ensures items == PutBack(old(items), k, c, now)
    {
      ghost var q := items;
      for i := 0 to |items|
        invariant items == q && PutBack(q, k, c, now) == q[..i] + PutBack(q[i..], k, c, now)
      {
        if items[i].key == k {
          items := items[i := Requeued(items[i], c, now)];
          assert items == q[..i] + ([Requeued(q[i], c, now)] + q[i + 1..]);
          assert q[i..][1..] == q[i + 1..];
          return;
        }
        assert q[i..][1..] == q[i + 1..];
        assert q[..i] + ([q[i]] + PutBack(q[i + 1..], k, c, now)) == q[..i + 1] + PutBack(q[i + 1..], k, c, now);
      }
      assert q[|q|..] == [] && q[..|q|] + [] == q;
    }

    method ProcessDueRetries(oks: seq<bool>, c: Config, now: real) returns (dueCount: nat)
      requires |oks| == |Due(items, now)|
      modifies this
      ensures items == Process(old(items), oks, c, now) && dueCount == |Due(old(items), now)|
    {
      var due := Due(items, now);
      dueCount := |due|;
      var gone: set<Key> := {};
      for i := 0 to |due|
        invariant Pass(items, gone) == ProcessItems(old(items), due[..i], oks[..i], c, now)
      {
        assert due[..i + 1][..i] == due[..i] && oks[..i + 1][..i] == oks[..i];
        var item := due[i];
        if !(item.kind == "open" || item.kind == "close") {
          gone := gone + {item.key};
          continue;
        }
        if oks[i] {
          gone := gone + {item.key};
          continue;
        }
        var round := item.round + 1;
        if round > Limit(c) {
          gone := gone + {item.key};
        } else {
          RequeueByKey(item.key, c, now);
        }
      }
      assert due[..|due|] == due && oks[..|due|] == oks;
      items := Keep(items, gone);
    }
  }

  ghost predicate DistinctKeys(q: Queue) {
    forall i, j :: 0 <= i < j < |q| ==> q[i].key != q[j].key
  }

  lemma {:induction false} IndexIsUnique(q: Queue, i: nat)
    requires DistinctKeys(q) && i < |q|
    ensures IndexOf(q, q[i].key) == i
  {
    var j := IndexOf(q, q[i].key);
    assert q[j].key == q[i].key;
  }

  /** The index map of a queue: every waiting key, and where it waits. */
  ghost predicate Indexes(m: map<Key, nat>, q: Queue) {
    && (forall k :: k in m ==> m[k] < |q| && q[m[k]].key == k)
    && (forall i :: 0 <= i < |q| ==> q[i].key in m)
  }

  /** Looking a record's key up, and what replacing or appending it does to the index map. */
  lemma {:induction false} Lookup(m: map<Key, nat>, q: Queue, r: Item)
    requires Indexes(m, q) && DistinctKeys(q)
    ensures r.key in m ==> m[r.key] < |q| && IndexOf(q, r.key) == m[r.key]
    ensures r.key in m ==>
      var i, x := m[r.key], r.(createdAt := q[m[r.key]].createdAt, round := q[m[r.key]].round);
      Indexes(m, q[i := x]) && DistinctKeys(q[i := x])
    ensures r.key !in m ==>
      IndexOf(q, r.key) < 0 && DistinctKeys(q + [r]) && Indexes(m[r.key := |q|], q + [r])
  {
    if r.key in m {
      IndexIsUnique(q, m[r.key]);
    }
  }
}
