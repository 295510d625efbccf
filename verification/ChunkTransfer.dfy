/**
 Long messages travel in chunks through the receiver's message cache: the sender's split, the
 cache operations in any order and interleaving, and the reassembly.
 */
module ChunkTransfer {
  import opened Wrappers
  import opened Frames

  // ---------------------------------------------------------------- splitting

  // package[start : start + size] for start = 0, size, 2 * size, ...
  function Chunks(package: bytes, size: nat): seq<bytes>
    requires size > 0
  {
    if |package| == 0 then []
    else if |package| <= size then [package]
    else [package[..size]] + Chunks(package[size..], size)
  }

  // math.ceil(total_size / chunk_size)
  function CeilDiv(n: nat, size: nat): nat
    requires size > 0
  {
    if n == 0 then 0 else if n <= size then 1 else 1 + CeilDiv(n - size, size)
  }

  lemma {:induction false} CeilDivMeaning(n: nat, size: nat)
    requires size > 0
    ensures n <= CeilDiv(n, size) * size
    ensures n > 0 ==> (CeilDiv(n, size) - 1) * size < n
    decreases n
  {
    if n > size {
      CeilDivMeaning(n - size, size);
      var c := CeilDiv(n - size, size);
      assert (c + 1) * size == c * size + size && c * size == (c - 1) * size + size;
    }
  }

  // MAIN: the split loses nothing: ceil(n / size) chunks, none empty or too long, that
  // concatenate to the package.
  lemma {:induction false} SplitIsLossless(package: bytes, size: nat)
    requires size > 0
    ensures Concat(Chunks(package, size)) == package
    ensures |Chunks(package, size)| == CeilDiv(|package|, size)
    ensures forall i | 0 <= i < |Chunks(package, size)| :: 0 < |Chunks(package, size)[i]| <= size
    decreases |package|
  {
    if |package| > size {
      SplitIsLossless(package[size..], size);
      assert package == package[..size] + package[size..];
    } else if |package| > 0 {
      assert Chunks(package, size) == [package];
      assert Concat([package]) == package + Concat([]);
    }
  }

  function Clamp(i: nat, package: bytes): (r: nat)
    ensures r <= |package|
  {
    if i <= |package| then i else |package|
  }

  // A slice of Python clamps its bounds to the length.
  function Slice(package: bytes, start: nat, end: nat): bytes {
    if start <= end then package[Clamp(start, package)..Clamp(end, package)] else []
  }

  // idx * size
  ghost function Offset(idx: nat, size: nat): nat {
    if idx == 0 then 0 else Offset(idx - 1, size) + size
  }

  lemma {:induction false} ChunkAt(package: bytes, size: nat, idx: nat, start: nat)
    requires size > 0 && idx < |Chunks(package, size)| && start == Offset(idx, size)
    ensures Chunks(package, size)[idx] == Slice(package, start, start + size)
    decreases idx
  {
    if idx > 0 {
      var rest := package[size..];
      ChunkAt(rest, size, idx - 1, start - size);
      ShiftedSlice(package, size, start);
    }
  }

  lemma ShiftedSlice(package: bytes, size: nat, start: nat)
    requires size <= |package| && size <= start
    ensures Slice(package[size..], start - size, start) == Slice(package, start, start + size)
  {
    assert Clamp(start - size, package[size..]) == Clamp(start, package) - size;
    assert Clamp(start, package[size..]) == Clamp(start + size, package) - size;
  }

  // The sender's loop; `start` is idx * size.
  method SplitPackage(package: bytes, size: nat) returns (chunks: seq<bytes>)
    requires size > 0
    ensures chunks == Chunks(package, size)
  {
    SplitIsLossless(package, size);
    ghost var all := Chunks(package, size);
    var chunkNum := CeilDiv(|package|, size);
    chunks := [];
    var start := 0;
    for idx := 0 to chunkNum
      invariant |chunks| == idx && chunks <= all && start == Offset(idx, size)
    {
      var chunk := NextChunk(package, size, start, idx);
      chunks := chunks + [chunk];
      start := start + size;
    }
  }

  method NextChunk(package: bytes, size: nat, start: nat, ghost idx: nat) returns (chunk: bytes)
    requires size > 0 && idx < |Chunks(package, size)| && start == Offset(idx, size)
    ensures chunk == Chunks(package, size)[idx]
  {
    ChunkAt(package, size, idx, start);
    chunk := Slice(package, start, start + size);
  }

  // ---------------------------------------------------------------- the cache

  datatype Error = NoSession | AlreadyExists | NoMessage | MissingChunk | NotDelivered

  type Parts = map<int, bytes>

  type Cache = map<string, Parts>

  // `heartbeat` makes an operation fail when the session of that id is gone; `delivered`: the
  // joined message could be unpacked and its handler returned.
  datatype Op =
    | CreateOp(key: string, overwrite: bool, heartbeat: bool)
    | AppendOp(key: string, data: bytes, heartbeat: bool)
    | SetOp(key: string, index: int, data: bytes, heartbeat: bool)
    | ProcessOp(key: string, heartbeat: bool, delivered: bool)
    | RemoveOp(key: string)

  predicate Contiguous(parts: Parts) {
    forall i | 0 <= i < |parts| :: i in parts
  }

  // b"".join(data[i] for i in range(len(data)))
  function JoinTo(parts: Parts, n: nat): bytes
    requires forall i | 0 <= i < n :: i in parts
  {
    if n == 0 then [] else JoinTo(parts, n - 1) + parts[n - 1]
  }

  function Joined(parts: Parts): bytes
    requires Contiguous(parts)
  {
    JoinTo(parts, |parts|)
  }

  predicate Guarded(op: Op, sessions: set<string>) {
    op.RemoveOp? || !op.heartbeat || op.key in sessions
  }

  // The session whose timer an operation resets, also when it fails afterwards.
  function Beats(op: Op, sessions: set<string>): seq<string> {
    if !op.RemoveOp? && op.heartbeat && op.key in sessions then [op.key] else []
  }

  // The cache after an operation, and what it returns: the message, for a successful process.
  function Apply(cache: Cache, op: Op, sessions: set<string>): (r: (Cache, Result<Option<bytes>, Error>)) {
    if !Guarded(op, sessions) then (cache, Err(NoSession))
    else
      match op
      case CreateOp(key, overwrite, _) =>
        if !overwrite && key in cache then (cache, Err(AlreadyExists)) else (cache[key := map[]], Ok(None))
      case AppendOp(key, data, _) =>
        if key !in cache then (cache, Err(NoMessage))
        else (cache[key := cache[key][|cache[key]| := data]], Ok(None))
      case SetOp(key, index, data, _) =>
        if key !in cache then (cache, Err(NoMessage)) else (cache[key := cache[key][index := data]], Ok(None))
      case ProcessOp(key, _, delivered) =>
        if key !in cache then (cache, Err(NoMessage))
        else if !Contiguous(cache[key]) then (cache, Err(MissingChunk))
        else if !delivered then (cache, Err(NotDelivered))
        else (cache - {key}, Ok(Some(Joined(cache[key]))))
      case RemoveOp(key) =>
        if key !in cache then (cache, Err(NoMessage)) else (cache - {key}, Ok(None))
  }

  function ApplyAll(cache: Cache, ops: seq<Op>, sessions: set<string>): Cache {
    if ops == [] then cache else Apply(ApplyAll(cache, ops[..|ops| - 1], sessions), ops[|ops| - 1], sessions).0
  }

  // Everything done to `key` is setting chunks of this package; other keys are free.
  predicate SetsOnly(ops: seq<Op>, key: string, chunks: seq<bytes>) {
    forall op <- ops :: op.key == key ==> op.SetOp? && 0 <= op.index < |chunks| && op.data == chunks[op.index]
  }

  // No operation on `key` finds its session gone.
  predicate Uninterrupted(ops: seq<Op>, sessions: set<string>, key: string) {
    forall op <- ops :: op.key == key ==> Guarded(op, sessions)
  }

  function Indices(ops: seq<Op>, key: string): set<int> {
    set op | op in ops && op.key == key && op.SetOp? :: op.index
  }

  lemma OtherKeyKept(cache: Cache, op: Op, sessions: set<string>, key: string)
    requires op.key != key
    ensures key in Apply(cache, op, sessions).0 <==> key in cache
    ensures key in cache ==> Apply(cache, op, sessions).0[key] == cache[key]
  {
  }

  // A missing index below the number of parts.
  ghost predicate HasGap(parts: Parts) { exists i :: 0 <= i < |parts| && i !in parts }

  // When an operation fails, and with what; a failed one leaves the cache as it was.
  lemma FailsIff(cache: Cache, op: Op, sessions: set<string>)
    ensures var r := Apply(cache, op, sessions); var key := op.key;
      var gone := !op.RemoveOp? && op.heartbeat && key !in sessions;
      && (r.1 == Err(NoSession) <==> gone)
      && (r.1 == Err(AlreadyExists) <==> !gone && op.CreateOp? && !op.overwrite && key in cache)
      && (r.1 == Err(NoMessage) <==> !gone && !op.CreateOp? && key !in cache)
      && (r.1 == Err(MissingChunk) <==> !gone && op.ProcessOp? && key in cache && HasGap(cache[key]))
      && (r.1 == Err(NotDelivered) <==>
            !gone && op.ProcessOp? && key in cache && !HasGap(cache[key]) && !op.delivered)
      && (r.1.Err? ==> r.0 == cache)
  {
  }

  // After a successful operation the message is there, or gone, as it asks.
  lemma TakesEffect(cache: Cache, op: Op, sessions: set<string>)
    requires Apply(cache, op, sessions).1.Ok?
    ensures var c := Apply(cache, op, sessions).0;
      && (op.key in c <==> !op.ProcessOp? && !op.RemoveOp?)
      && (op.CreateOp? ==> c[op.key] == map[])
      && (op.SetOp? ==> op.index in c[op.key] && c[op.key][op.index] == op.data)
      && (op.AppendOp? ==> op.data in c[op.key].Values)
  {
    if op.AppendOp? {
      var c := Apply(cache, op, sessions).0;
      assert c[op.key][|cache[op.key]|] == op.data;
    }
  }

  // An operation resets a timer exactly when it names a heartbeat session that exists, and one that
  // fails for another reason resets it as well; a removal never does.
  lemma BeatsIff(cache: Cache, op: Op, sessions: set<string>, key: string)
    ensures key in Beats(op, sessions) <==> !op.RemoveOp? && op.heartbeat && op.key == key && key in sessions
    ensures |Beats(op, sessions)| <= 1
    ensures !op.RemoveOp? && op.heartbeat ==>
              (Beats(op, sessions) == [] <==> Apply(cache, op, sessions).1 == Err(NoSession))
  {
  }

  // The create call of a transfer goes through.
  predicate Begins(cache: Cache, key: string, overwrite: bool, heartbeat: bool, sessions: set<string>) {
    (heartbeat ==> key in sessions) && (overwrite || key !in cache)
  }

  // The cache after creating the message and then the operations, whatever was there before.
  function Transfer(cache: Cache, key: string, overwrite: bool, heartbeat: bool, ops: seq<Op>, sessions: set<string>):
    Cache
  {
    ApplyAll(Apply(cache, CreateOp(key, overwrite, heartbeat), sessions).0, ops, sessions)
  }

  // The parts are these chunks, at these indices.
  ghost predicate Holds(parts: Parts, indices: set<int>, chunks: seq<bytes>) {
    && parts.Keys == indices
    && forall i | i in parts :: 0 <= i < |chunks| && parts[i] == chunks[i]
  }

  lemma {:induction false} PartsAfterSets(
      cache: Cache, ops: seq<Op>, sessions: set<string>, key: string, chunks: seq<bytes>)
    requires key in cache && cache[key] == map[] && Uninterrupted(ops, sessions, key) && SetsOnly(ops, key, chunks)
    ensures key in ApplyAll(cache, ops, sessions)
    ensures Holds(ApplyAll(cache, ops, sessions)[key], Indices(ops, key), chunks)
    decreases |ops|
  {
    if ops != [] {
      var init, op := ops[..|ops| - 1], ops[|ops| - 1];
      assert ops == init + [op];
      assert forall o | o in init :: o in ops;
      PartsAfterSets(cache, init, sessions, key, chunks);
      IndicesStep(init, op, key);
      if op.key != key {
        OtherKeyKept(ApplyAll(cache, init, sessions), op, sessions, key);
      } else {
        assert op in ops;
      }
    }
  }

  lemma IndicesStep(init: seq<Op>, op: Op, key: string)
    ensures Indices(init + [op], key) == Indices(init, key) + (if op.key == key && op.SetOp? then {op.index} else {})
  {
    var ops := init + [op];
    assert forall o :: o in ops <==> o in init || o == op;
    forall i | i in Indices(ops, key)
      ensures i in Indices(init, key) + (if op.key == key && op.SetOp? then {op.index} else {})
    {
      var o :| o in ops && o.key == key && o.SetOp? && o.index == i;
    }
    forall i | i in Indices(init, key) ensures i in Indices(ops, key) {
      var o :| o in init && o.key == key && o.SetOp? && o.index == i;
      assert o in ops;
    }
    if op.key == key && op.SetOp? { assert op in ops; }
  }

  // All the chunks, at the indices 0, 1, 2, ...
  ghost predicate Whole(parts: Parts, chunks: seq<bytes>) {
    (forall i :: i in parts <==> 0 <= i < |chunks|) && forall i | i in parts :: parts[i] == chunks[i]
  }

  lemma {:induction false} RangeSize(n: nat, s: set<int>)
    requires forall i :: i in s <==> 0 <= i < n
    ensures |s| == n
  {
    if n > 0 {
      RangeSize(n - 1, s - {n - 1});
    } else {
      assert forall x :: x !in s;
      assert s == {};
    }
  }

  lemma PrefixConcat(chunks: seq<bytes>, i: nat)
    requires i < |chunks|
    ensures Concat(chunks[..i + 1]) == Concat(chunks[..i]) + chunks[i]
  {
    assert chunks[..i + 1] == chunks[..i] + [chunks[i]];
    ConcatAppend(chunks[..i], [chunks[i]]);
    assert Concat([chunks[i]]) == chunks[i] + Concat([]);
  }

  lemma {:induction false} JoinToConcat(parts: Parts, chunks: seq<bytes>, n: nat)
    requires Whole(parts, chunks) && n <= |chunks|
    ensures JoinTo(parts, n) == Concat(chunks[..n])
  {
    if n > 0 {
      JoinToConcat(parts, chunks, n - 1);
      PrefixConcat(chunks, n - 1);
    }
  }

  lemma WholePartsJoin(parts: Parts, chunks: seq<bytes>)
    requires Whole(parts, chunks)
    ensures Contiguous(parts) && Joined(parts) == Concat(chunks)
  {
    RangeSize(|chunks|, parts.Keys);
    JoinToConcat(parts, chunks, |chunks|);
    assert chunks[..|chunks|] == chunks;
  }

  // MAIN: from an arbitrary cache: the message is created, over an older one or not; whatever the
  // order and repetition of the set operations and whatever happens under other keys, processing
  // gives back exactly the package once every chunk has been set, and nothing of the older
  // message; if it cannot be delivered, the parts stay for another attempt.
  lemma TransferIsLossless(
      cache: Cache, overwrite: bool, heartbeat: bool, ops: seq<Op>, sessions: set<string>, key: string,
      package: bytes, size: nat)
    requires size > 0 && Begins(cache, key, overwrite, heartbeat, sessions)
    requires Uninterrupted(ops, sessions, key) && SetsOnly(ops, key, Chunks(package, size))
    requires forall i | 0 <= i < CeilDiv(|package|, size) :: i in Indices(ops, key)
    ensures Apply(cache, CreateOp(key, overwrite, heartbeat), sessions).1 == Ok(None)
    ensures var c := Transfer(cache, key, overwrite, heartbeat, ops, sessions);
            key in c && Apply(c, ProcessOp(key, heartbeat, true), sessions) == (c - {key}, Ok(Some(package)))
    ensures var c := Transfer(cache, key, overwrite, heartbeat, ops, sessions);
            Apply(c, ProcessOp(key, heartbeat, false), sessions) == (c, Err(NotDelivered))
  {
    var chunks := Chunks(package, size);
    var created := Apply(cache, CreateOp(key, overwrite, heartbeat), sessions).0;
    SplitIsLossless(package, size);
    PartsAfterSets(created, ops, sessions, key, chunks);
    WholePartsJoin(ApplyAll(created, ops, sessions)[key], chunks);
  }

  // While a chunk is missing, processing gives an error and keeps the parts, unless the chunks
  // set so far are exactly the first ones.
  lemma IncompleteIsNotProcessed(
      cache: Cache, overwrite: bool, heartbeat: bool, ops: seq<Op>, sessions: set<string>, key: string,
      chunks: seq<bytes>, delivered: bool)
    requires Begins(cache, key, overwrite, heartbeat, sessions)
    requires Uninterrupted(ops, sessions, key) && SetsOnly(ops, key, chunks)
    ensures var c := Transfer(cache, key, overwrite, heartbeat, ops, sessions);
            var r := Apply(c, ProcessOp(key, heartbeat, delivered), sessions);
            if forall i | 0 <= i < |Indices(ops, key)| :: i in Indices(ops, key)
            then r.1.Ok? == delivered else r == (c, Err(MissingChunk))
  {
    PartsAfterSets(Apply(cache, CreateOp(key, overwrite, heartbeat), sessions).0, ops, sessions, key, chunks);
  }

  // The appends to `key`, in order.
  function Appended(ops: seq<Op>, key: string): seq<bytes> {
    if ops == [] then []
    else
      var op := ops[|ops| - 1];
      Appended(ops[..|ops| - 1], key) + if op.key == key && op.AppendOp? then [op.data] else []
  }

  lemma {:induction false} PartsAfterAppends(cache: Cache, ops: seq<Op>, sessions: set<string>, key: string)
    requires key in cache && cache[key] == map[] && Uninterrupted(ops, sessions, key)
    requires forall op <- ops :: op.key == key ==> op.AppendOp?
    ensures key in ApplyAll(cache, ops, sessions)
    ensures Whole(ApplyAll(cache, ops, sessions)[key], Appended(ops, key))
    decreases |ops|
  {
    if ops != [] {
      var init, op := ops[..|ops| - 1], ops[|ops| - 1];
      assert op in ops && forall o | o in init :: o in ops;
      PartsAfterAppends(cache, init, sessions, key);
      var before := ApplyAll(cache, init, sessions);
      if op.key != key {
        OtherKeyKept(before, op, sessions, key);
      } else {
        RangeSize(|Appended(init, key)|, before[key].Keys);
      }
    }
  }

  // MAIN: the legacy transfer, one append after the other, gives the same message.
  lemma LegacyTransferIsLossless(
      cache: Cache, overwrite: bool, heartbeat: bool, ops: seq<Op>, sessions: set<string>, key: string,
      package: bytes, size: nat)
    requires size > 0 && Begins(cache, key, overwrite, heartbeat, sessions) && Uninterrupted(ops, sessions, key)
    requires forall op <- ops :: op.key == key ==> op.AppendOp?
    requires Appended(ops, key) == Chunks(package, size)
    ensures var c := Transfer(cache, key, overwrite, heartbeat, ops, sessions);
            key in c && Apply(c, ProcessOp(key, heartbeat, true), sessions) == (c - {key}, Ok(Some(package)))
  {
    var created := Apply(cache, CreateOp(key, overwrite, heartbeat), sessions).0;
    SplitIsLossless(package, size);
    PartsAfterAppends(created, ops, sessions, key);
    WholePartsJoin(ApplyAll(created, ops, sessions)[key], Chunks(package, size));
  }

  /** The receiver's side, `message_cache` of the built-in service. */
  class MessageCache {
    var cache: Cache
    var resets: seq<string>  // the sessions whose timer was reset, in order

    constructor ()
      ensures cache == map[] && resets == []
    {
      cache, resets := map[], [];
    }

    // With a heartbeat the operation needs the session of that id, and resets its timer.
    method Beat(key: string, heartbeat: bool, sessions: set<string>) returns (ok: bool)
      modifies this`resets
      ensures ok <==> !heartbeat || key in sessions
      ensures resets == old(resets) + if heartbeat && key in sessions then [key] else []
    {
      ok := !heartbeat || key in sessions;
      if heartbeat && ok { resets := resets + [key]; }
    }

    method CreateMessage(key: string, heartbeat: bool, overwrite: bool, sessions: set<string>)
      returns (r: Result<Option<bytes>, Error>)
      modifies this
      ensures (cache, r) == Apply(old(cache), CreateOp(key, overwrite, heartbeat), sessions)
      ensures r.Ok? ==> key in cache && cache[key] == map[]
      ensures resets == old(resets) + Beats(CreateOp(key, overwrite, heartbeat), sessions)
    {
      var ok := Beat(key, heartbeat, sessions);
      if !ok { return Err(NoSession); }
      if !overwrite && key in cache { return Err(AlreadyExists); }
      cache := cache[key := map[]];
      r := Ok(None);
    }

    method AppendMessage(key: string, data: bytes, heartbeat: bool, sessions: set<string>)
      returns (r: Result<Option<bytes>, Error>)
      modifies this
      ensures (cache, r) == Apply(old(cache), AppendOp(key, data, heartbeat), sessions)
      ensures resets == old(resets) + Beats(AppendOp(key, data, heartbeat), sessions)
    {
      var ok := Beat(key, heartbeat, sessions);
      if !ok { return Err(NoSession); }
      if key !in cache { return Err(NoMessage); }
      var parts := cache[key];
      cache := cache[key := parts[|parts| := data]];
      r := Ok(None);
    }

    method SetMessage(key: string, index: int, data: bytes, heartbeat: bool, sessions: set<string>)
      returns (r: Result<Option<bytes>, Error>)
      modifies this
      ensures (cache, r) == Apply(old(cache), SetOp(key, index, data, heartbeat), sessions)
      ensures resets == old(resets) + Beats(SetOp(key, index, data, heartbeat), sessions)
    {
      var ok := Beat(key, heartbeat, sessions);
      if !ok { return Err(NoSession); }
      if key !in cache { return Err(NoMessage); }
      cache := cache[key := cache[key][index := data]];
      r := Ok(None);
    }

    method ProcessMessage(key: string, heartbeat: bool, delivered: bool, sessions: set<string>)
      returns (r: Result<Option<bytes>, Error>)
      modifies this
      ensures (cache, r) == Apply(old(cache), ProcessOp(key, heartbeat, delivered), sessions)
      ensures resets == old(resets) + Beats(ProcessOp(key, heartbeat, delivered), sessions)
    {
      var ok := Beat(key, heartbeat, sessions);
      if !ok { return Err(NoSession); }
      if key !in cache { return Err(NoMessage); }
      var parts := cache[key];
      var data: bytes := [];
      for i := 0 to |parts|
        invariant forall k | 0 <= k < i :: k in parts
        invariant data == JoinTo(parts, i)
      {
        if i !in parts {
          assert !Contiguous(parts);
          return Err(MissingChunk);
        }
        data := data + parts[i];
      }
      if !delivered { return Err(NotDelivered); }
      cache := cache - {key};
      r := Ok(Some(data));
    }

    method RemoveMessage(key: string, sessions: set<string>) returns (r: Result<Option<bytes>, Error>)
      modifies this
      ensures (cache, r) == Apply(old(cache), RemoveOp(key), sessions) && resets == old(resets)
    {
      if key !in cache { return Err(NoMessage); }
      cache := cache - {key};
      r := Ok(None);
    }
  }
}
