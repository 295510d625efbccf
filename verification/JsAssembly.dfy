/**
 Assembly in the JavaScript client. A message is an array that is set by index, so it may have
 holes, and `map` and `reduce` skip them: an incomplete message is joined without an error.
 */
module JsAssembly {
  import opened Wrappers
  import opened Frames
  import CT = ChunkTransfer

  type Parts = seq<Option<bytes>>

  // cache[key][index] = data, which lengthens the array with holes if needed.
  function SetPart(parts: Parts, index: nat, data: bytes): (r: Parts)
    ensures |r| == if index < |parts| then |parts| else index + 1
    ensures r[index] == Some(data)
    ensures forall i | 0 <= i < |r| && i != index :: r[i] == if i < |parts| then parts[i] else None
  {
    if index < |parts| then parts[index := Some(data)]
    else parts + seq(index - |parts|, i => None) + [Some(data)]
  }

  // What `map` and `reduce` visit.
  function Present(parts: Parts): seq<bytes> {
    if parts == [] then []
    else
      var n := |parts| - 1;
      if parts[n].Some? then Present(parts[..n]) + [parts[n].value] else Present(parts[..n])
  }

  lemma ConcatOne(a: seq<bytes>, b: bytes)
    ensures Concat(a + [b]) == Concat(a) + b
  {
    ConcatAppend(a, [b]);
    assert Concat([b]) == b + Concat([]);
  }

  lemma PresentPrefix(parts: Parts, i: nat)
    requires i < |parts|
    ensures Present(parts[..i + 1]) ==
              if parts[i].Some? then Present(parts[..i]) + [parts[i].value] else Present(parts[..i])
  {
    assert parts[..i + 1][..i] == parts[..i];
  }

  lemma {:induction false} PrefixFits(parts: Parts, i: nat)
    requires i <= |parts|
    ensures |Concat(Present(parts[..i]))| <= |Concat(Present(parts))|
    decreases |parts| - i
  {
    if i < |parts| {
      PresentPrefix(parts, i);
      if parts[i].Some? { ConcatOne(Present(parts[..i]), parts[i].value); }
      assert |Concat(Present(parts[..i]))| <= |Concat(Present(parts[..i + 1]))|;
      PrefixFits(parts, i + 1);
    } else {
      assert parts[..i] == parts;
    }
  }

  // `concatArrayBuffers`: one array for all that is there, each buffer written at the running offset.
  method ConcatArrayBuffers(buffers: Parts) returns (joined: array<byte>)
    ensures joined[..] == Concat(Present(buffers))
  {
    var total := 0;
    for i := 0 to |buffers|
      invariant total == |Concat(Present(buffers[..i]))|
    {
      PresentPrefix(buffers, i);
      if buffers[i].Some? {
        ConcatOne(Present(buffers[..i]), buffers[i].value);
        total := total + |buffers[i].value|;
      }
    }
    assert buffers[..|buffers|] == buffers;
    joined := new byte[total];
    var p := 0;
    for i := 0 to |buffers|
      invariant p == |Concat(Present(buffers[..i]))| <= total
      invariant joined[..p] == Concat(Present(buffers[..i]))
    {
      PresentPrefix(buffers, i);
      PrefixFits(buffers, i + 1);
      if buffers[i].Some? {
        ConcatOne(Present(buffers[..i]), buffers[i].value);
        WriteAt(joined, p, buffers[i].value);
        p := p + |buffers[i].value|;
      }
    }
  }

  // unit8Arr.set(buffer, p)
  method WriteAt(a: array<byte>, p: nat, data: bytes)
    requires p + |data| <= a.Length
    modifies a
    ensures a[..p + |data|] == old(a[..p]) + data
  {
    forall k | 0 <= k < |data| { a[p + k] := data[k]; }
  }

  // ---------------------------------------------------------------- when it is the whole message

  // The array after setting the chunks with these indices, in this order.
  function AfterSets(chunks: seq<bytes>, indices: seq<nat>): (r: Parts)
    requires forall i <- indices :: i < |chunks|
    ensures |r| <= |chunks|
    ensures forall i | 0 <= i < |chunks| :: i in indices <==> i < |r| && r[i].Some?
    ensures forall i | 0 <= i < |r| && r[i].Some? :: r[i].value == chunks[i]
  {
    if indices == [] then []
    else
      var n := |indices| - 1;
      assert indices == indices[..n] + [indices[n]];
      assert forall i <- indices[..n] :: i in indices;
      assert indices[n] in indices;
      SetPart(AfterSets(chunks, indices[..n]), indices[n], chunks[indices[n]])
  }

  // Joined up to position i the array has at most the bytes of the chunks, and fewer after a gap.
  lemma {:induction false} GapsShorten(chunks: seq<bytes>, parts: Parts, i: nat)
    requires i <= |parts| <= |chunks|
    requires forall k | 0 <= k < |parts| && parts[k].Some? :: parts[k].value == chunks[k]
    requires forall c <- chunks :: |c| > 0
    ensures |Concat(Present(parts[..i]))| <= |Concat(chunks[..i])|
    ensures (forall k | 0 <= k < i :: parts[k].Some?) ==> Concat(Present(parts[..i])) == Concat(chunks[..i])
    ensures (exists k | 0 <= k < i :: parts[k].None?) ==> |Concat(Present(parts[..i]))| < |Concat(chunks[..i])|
    decreases i
  {
    if i > 0 {
      var n := i - 1;
      GapsShorten(chunks, parts, n);
      PresentPrefix(parts, n);
      assert chunks[..i] == chunks[..n] + [chunks[n]] && chunks[n] in chunks;
      ConcatOne(chunks[..n], chunks[n]);
      if parts[n].Some? { ConcatOne(Present(parts[..n]), parts[n].value); }
    }
  }

  lemma NotEmpty(chunks: seq<bytes>, n: nat)
    requires n < |chunks| && forall c <- chunks :: |c| > 0
    ensures |Concat(chunks[n..])| > 0
  {
    assert chunks[n] in chunks;
    assert Concat(chunks[n..]) == chunks[n] + Concat(chunks[n..][1..]);
  }

  lemma WholeIff(chunks: seq<bytes>, parts: Parts)
    requires |parts| <= |chunks|
    requires forall k | 0 <= k < |parts| && parts[k].Some? :: parts[k].value == chunks[k]
    requires forall c <- chunks :: |c| > 0
    ensures Concat(Present(parts)) == Concat(chunks) <==>
              |parts| == |chunks| && forall k | 0 <= k < |parts| :: parts[k].Some?
  {
    var n := |parts|;
    GapsShorten(chunks, parts, n);
    assert parts[..n] == parts && chunks == chunks[..n] + chunks[n..];
    ConcatAppend(chunks[..n], chunks[n..]);
    if n < |chunks| { NotEmpty(chunks, n); } else { assert chunks[n..] == []; }
  }

  // MAIN: setting chunks of a package in any order, with repetitions, and joining gives the package
  // exactly when no chunk was left out; otherwise something shorter is processed in its place.
  lemma JoinIsWholeIff(package: bytes, size: nat, indices: seq<nat>)
    requires size > 0 && forall i <- indices :: i < |CT.Chunks(package, size)|
    ensures var joined := Concat(Present(AfterSets(CT.Chunks(package, size), indices)));
      joined == package <==> forall i | 0 <= i < CT.CeilDiv(|package|, size) :: i in indices
  {
    var chunks := CT.Chunks(package, size);
    CT.SplitIsLossless(package, size);
    forall c | c in chunks ensures |c| > 0 {}
    var parts := AfterSets(chunks, indices);
    WholeIff(chunks, parts);
    if forall i | 0 <= i < |chunks| :: i in indices {
      assert |chunks| > 0 ==> |chunks| - 1 in indices;
      assert forall k | 0 <= k < |parts| :: k in indices;
    }
  }
}
