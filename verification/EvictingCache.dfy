/**
 The JavaScript message cache: bounded, with a sweep of stale entries and then eviction of
 the oldest when a new message needs room.
 */
module EvictingCache {
  const MAX_SIZE := 256
  const MAX_AGE := 300000

  // `created`: _cache_created_at; 0 where it is missing, as after a failed processing.
  // The parts are a JavaScript array, which may have holes below its length.
  datatype Entry = Entry(created: nat, length: nat, parts: map<nat, string>)

  type Cache = map<string, Entry>

  predicate Stale(e: Entry, now: int) { e.created > 0 && now - e.created > MAX_AGE }

  function Sweep(cache: Cache, now: int): Cache {
    map k | k in cache && !Stale(cache[k], now) :: cache[k]
  }

  // Object.keys(cache) sorted by creation time, as Array.sort leaves it (ties in any order).
  ghost predicate SortedKeys(order: seq<string>, cache: Cache) {
    && (forall k :: k in order <==> k in cache)
    && (forall i, j | 0 <= i < j < |order| :: order[i] != order[j])
    && (forall i, j | 0 <= i < j < |order| :: cache[order[i]].created <= cache[order[j]].created)
  }

  function Members(order: seq<string>): set<string> { set k | k in order }

  lemma {:induction false} DistinctSize(order: seq<string>)
    requires forall i, j | 0 <= i < j < |order| :: order[i] != order[j]
    ensures |Members(order)| == |order|
    decreases |order|
  {
    if order != [] {
      var n := |order| - 1;
      DistinctSize(order[..n]);
      assert order == order[..n] + [order[n]];
      assert Members(order) == Members(order[..n]) + {order[n]};
    }
  }

  // The oldest ones, just enough to leave room for one more.
  function Oldest(order: seq<string>): set<string>
    requires |order| >= MAX_SIZE
  {
    Members(order[..|order| - MAX_SIZE + 1])
  }

  // The cache after making room; `order` matters only when the sweep was not enough.
  function MakeRoom(cache: Cache, now: int, order: seq<string>): Cache {
    if |cache| < MAX_SIZE then cache
    else
      var swept := Sweep(cache, now);
      if |swept| < MAX_SIZE || |order| < MAX_SIZE then swept else swept - Oldest(order)
  }

  ghost predicate OrderOk(cache: Cache, now: int, order: seq<string>) {
    |cache| >= MAX_SIZE && |Sweep(cache, now)| >= MAX_SIZE ==> SortedKeys(order, Sweep(cache, now))
  }

  lemma SortedKeysSize(order: seq<string>, cache: Cache)
    requires SortedKeys(order, cache)
    ensures |order| == |cache| && Members(order) == cache.Keys
  {
    assert Members(order) == cache.Keys;
    DistinctSize(order);
  }

  lemma OldestSize(order: seq<string>)
    requires |order| >= MAX_SIZE
    requires forall i, j | 0 <= i < j < |order| :: order[i] != order[j]
    ensures |Oldest(order)| == |order| - MAX_SIZE + 1
    ensures Oldest(order) <= Members(order)
  {
    var first := order[..|order| - MAX_SIZE + 1];
    DistinctSize(first);
    forall k | k in Members(first) ensures k in Members(order) { assert k in order; }
  }

  lemma EvictionSize(cache: Cache, out: set<string>)
    requires out <= cache.Keys
    ensures |cache - out| == |cache| - |out|
  {
    assert (cache - out).Keys == cache.Keys - out;
  }

  // MAIN: making room always leaves at most 255 entries, whatever was in the cache before, and
  // an entry that is not stale goes only when exactly 255 have to stay.
  lemma RoomIsMade(cache: Cache, now: int, order: seq<string>)
    requires OrderOk(cache, now, order)
    ensures |MakeRoom(cache, now, order)| < MAX_SIZE
    ensures (forall k | k in cache && k !in MakeRoom(cache, now, order) ::
               cache[k].created > 0 && now - cache[k].created > 300000)
            || |MakeRoom(cache, now, order)| == 255
  {
    var swept := Sweep(cache, now);
    if |cache| >= MAX_SIZE && |swept| >= MAX_SIZE {
      SortedKeysSize(order, swept);
      OldestSize(order);
      EvictionSize(swept, Oldest(order));
    }
  }

  // With 256 entries or more every one older than five minutes goes, whatever room is needed.
  lemma StaleEntriesGo(cache: Cache, now: int, order: seq<string>, k: string)
    requires OrderOk(cache, now, order) && |cache| >= 256
    requires k in cache && cache[k].created > 0 && now - cache[k].created > 300000
    ensures k !in MakeRoom(cache, now, order)
  {
  }

  // A key that is not evicted comes after every evicted one in the sorted order.
  lemma SurvivorsComeLater(order: seq<string>, i: nat, j: nat)
    requires |order| >= MAX_SIZE && i < |order| && j < |order|
    requires order[i] in Oldest(order) && order[j] !in Oldest(order)
    requires forall a, b | 0 <= a < b < |order| :: order[a] != order[b]
    ensures i < j
  {
    var m := |order| - MAX_SIZE + 1;
    assert forall a | 0 <= a < m :: order[a] in Oldest(order) by {
      assert forall a | 0 <= a < m :: order[a] == order[..m][a];
    }
    var a :| 0 <= a < m && order[..m][a] == order[i];
    assert order[a] == order[i];
  }

  // MAIN: no survivor with a time stamp is older than an evicted entry, and none is changed.
  lemma OldestGoFirst(cache: Cache, now: int, order: seq<string>, kept: string, gone: string)
    requires OrderOk(cache, now, order)
    requires kept in MakeRoom(cache, now, order) && gone in cache && gone !in MakeRoom(cache, now, order)
    ensures kept in cache && MakeRoom(cache, now, order)[kept] == cache[kept]
    ensures cache[kept].created > 0 ==> cache[gone].created <= cache[kept].created
  {
    var swept := Sweep(cache, now);
    if gone in swept {
      SortedKeysSize(order, swept);
      assert gone in order && kept in order;
      var i :| 0 <= i < |order| && order[i] == gone;
      var j :| 0 <= j < |order| && order[j] == kept;
      SurvivorsComeLater(order, i, j);
    }
  }

  // ---------------------------------------------------------------- runs

  // `alive` is false when the operation asks for a heartbeat and its session is gone.
  datatype Op =
    | Create(key: string, alive: bool, overwrite: bool, now: nat, stamp: nat, order: seq<string>)
    | Append(key: string, alive: bool, data: string)
    | SetPart(key: string, alive: bool, index: nat, data: string)
    | Process(key: string, alive: bool)
    | ProcessFails(key: string, alive: bool)
    | Remove(key: string)

  predicate Refused(op: Op) { !op.Remove? && !op.alive }

  ghost predicate Possible(cache: Cache, op: Op) {
    op.Create? && op.alive ==> OrderOk(cache, op.now, op.order)
  }

  function Apply(cache: Cache, op: Op): Cache {
    if Refused(op) then cache
    else
      match op
      case Create(key, _, overwrite, now, stamp, order) =>
        var c := MakeRoom(cache, now, order);
        if !overwrite && key in c then c else c[key := Entry(stamp, 0, map[])]
      case Append(key, _, data) =>
        if key in cache then cache[key := With(cache[key], cache[key].length, data)] else cache
      case SetPart(key, _, index, data) => if key in cache then cache[key := With(cache[key], index, data)] else cache
      case Process(key, _) => cache - {key}
      case ProcessFails(key, _) => if key in cache then cache[key := Entry(0, 0, map[])] else cache
      case Remove(key) => cache - {key}
  }

  // cache[key][index] = data
  function With(e: Entry, index: nat, data: string): Entry {
    Entry(e.created, if index < e.length then e.length else index + 1, e.parts[index := data])
  }

  // What the operations do to the entry they name, and that they leave the others alone, but for
  // the eviction when a message is created.
  lemma TakesEffect(cache: Cache, op: Op, other: string)
    requires Possible(cache, op) && other != op.key
    ensures var r := Apply(cache, op); var key := op.key;
      && (op.Create? && op.alive && (op.overwrite || key !in MakeRoom(cache, op.now, op.order)) ==>
            key in r && r[key] == Entry(op.stamp, 0, map[]))
      && (op.Append? && op.alive && key in cache ==>
            && key in r && r[key].created == cache[key].created && r[key].length == cache[key].length + 1
            && r[key].parts == cache[key].parts[cache[key].length := op.data])
      && (op.SetPart? && op.alive && key in cache ==>
            && key in r && r[key].created == cache[key].created && r[key].length > op.index
            && r[key].parts == cache[key].parts[op.index := op.data])
      && ((op.Process? && op.alive) || op.Remove? ==> key !in r)
      && (op.ProcessFails? && op.alive && key in cache ==> key in r && r[key] == Entry(0, 0, map[]))
      && (!op.Remove? && !op.alive ==> r == cache)
      && (!op.Create? ==> (other in r <==> other in cache) && (other in cache ==> r[other] == cache[other]))
      && (op.Create? && op.alive ==> (other in r <==> other in MakeRoom(cache, op.now, op.order)))
      && (op.Create? && other in r ==> other in cache && r[other] == cache[other])
  {
    if op.Create? && op.alive && other in MakeRoom(cache, op.now, op.order) { assert other in cache; }
  }

  ghost predicate IsRun(cache: Cache, ops: seq<Op>)
    decreases |ops|
  {
    ops == [] || (Possible(cache, ops[0]) && IsRun(Apply(cache, ops[0]), ops[1..]))
  }

  ghost function Run(cache: Cache, ops: seq<Op>): Cache
    decreases |ops|
  {
    if ops == [] then cache else Run(Apply(cache, ops[0]), ops[1..])
  }

  lemma SmallerWithout(cache: Cache, key: string)
    ensures |cache - {key}| <= |cache|
  {
    assert (cache - {key}).Keys == cache.Keys - {key};
  }

  lemma OneMoreAtMost(cache: Cache, key: string, e: Entry)
    ensures |cache[key := e]| <= |cache| + 1
    ensures key in cache ==> |cache[key := e]| == |cache|
  {
    assert cache[key := e].Keys == cache.Keys + {key};
  }

  lemma ApplyStaysBounded(cache: Cache, op: Op)
    requires Possible(cache, op) && |cache| <= MAX_SIZE
    ensures |Apply(cache, op)| <= MAX_SIZE
  {
    match op
    case Create(key, alive, _, now, stamp, order) =>
      if alive {
        RoomIsMade(cache, now, order);
        OneMoreAtMost(MakeRoom(cache, now, order), key, Entry(stamp, 0, map[]));
      }
    case Append(key, _, data) =>
      if key in cache { OneMoreAtMost(cache, key, With(cache[key], cache[key].length, data)); }
    case SetPart(key, _, index, data) =>
      if key in cache { OneMoreAtMost(cache, key, With(cache[key], index, data)); }
    case ProcessFails(key, _) => if key in cache { OneMoreAtMost(cache, key, Entry(0, 0, map[])); }
    case Process(key, _) => SmallerWithout(cache, key);
    case Remove(key) => SmallerWithout(cache, key);
  }

  // MAIN: in every run the cache never holds more than 256 messages.
  lemma {:induction false} CacheIsBounded(cache: Cache, ops: seq<Op>)
    requires IsRun(cache, ops) && |cache| <= MAX_SIZE
    ensures |Run(cache, ops)| <= MAX_SIZE
    decreases |ops|
  {
    if ops != [] {
      ApplyStaysBounded(cache, ops[0]);
      CacheIsBounded(Apply(cache, ops[0]), ops[1..]);
    }
  }

  /** The cache object; keys are deleted one by one, as the code does. */
  class MessageCache {
    var cache: Cache

    constructor ()
      ensures cache == map[]
    {
      cache := map[];
    }

    // `sorted` is what Array.sort makes of the keys left after the sweep; the clock is read twice.
    method CreateMessage(
        key: string, heartbeat: bool, sessions: set<string>, overwrite: bool, now: nat, stamp: nat, sorted: seq<string>)
      returns (ok: bool)
      requires (heartbeat ==> key in sessions) ==> OrderOk(cache, now, sorted)
      modifies this
      ensures var alive := heartbeat ==> key in sessions;
        && cache == Apply(old(cache), Create(key, alive, overwrite, now, stamp, sorted))
        && (ok <==> alive && (overwrite || key !in MakeRoom(old(cache), now, sorted)))
    {
      if heartbeat && key !in sessions { return false; }
      EvictEntries(now, sorted);
      ok := overwrite || key !in cache;
      if ok { cache := cache[key := Entry(stamp, 0, map[])]; }
    }

    method EvictEntries(now: nat, sorted: seq<string>)
      requires OrderOk(cache, now, sorted)
      modifies this
      ensures cache == MakeRoom(old(cache), now, sorted)
    {
      if |cache| >= MAX_SIZE {
        SweepStale(now);
        if |cache| >= MAX_SIZE {
          SortedKeysSize(sorted, cache);
          DeleteKeys(sorted[..|sorted| - MAX_SIZE + 1]);
        }
      }
    }

    method SweepStale(now: nat)
      modifies this
      ensures cache == Sweep(old(cache), now)
    {
      var todo := cache.Keys;
      while todo != {}
        invariant todo <= old(cache).Keys
        invariant cache == map k | k in old(cache) && (k in todo || !Stale(old(cache)[k], now)) :: old(cache)[k]
        decreases todo
      {
        var k :| k in todo;
        if Stale(cache[k], now) { cache := cache - {k}; }
        todo := todo - {k};
      }
    }

    method DeleteKeys(keys: seq<string>)
      modifies this
      ensures cache == old(cache) - Members(keys)
    {
      assert Members(keys[..0]) == {};
      for i := 0 to |keys|
        invariant cache == old(cache) - Members(keys[..i])
      {
        assert Members(keys[..i + 1]) == Members(keys[..i]) + {keys[i]};
        cache := cache - {keys[i]};
      }
      assert keys[..|keys|] == keys;
    }
  }
}
