/**
 The two readers of the HTTP stream. Python appends each chunk to an immutable buffer;
 JavaScript keeps one array that doubles on demand, cuts frames at a running offset and
 shifts the rest to the front. Both cut exactly the frames of the one-shot parse.
 */
module Deframer {
  import opened Frames

  // Half way through a buffer: `frames` are cut off the front of `whole`, `rest` is to be read.
  ghost predicate Leaves(frames: seq<bytes>, rest: bytes, whole: bytes) {
    Parse(whole) == Cut(frames + Parse(rest).frames, Parse(rest).tail)
  }

  lemma LeavesStep(frames: seq<bytes>, rest: bytes, whole: bytes)
    requires Complete(rest) && Leaves(frames, rest, whole)
    ensures Leaves(frames + [First(rest)], Rest(rest), whole)
  {
    assert frames + Parse(rest).frames == (frames + [First(rest)]) + Parse(Rest(rest)).frames;
  }

  lemma LeavesAtEnd(frames: seq<bytes>, rest: bytes, whole: bytes)
    requires !Complete(rest) && Leaves(frames, rest, whole)
    ensures Parse(whole) == Cut(frames, rest)
  {
  }

  // One more chunk, after the stream so far left a tail.
  lemma NextChunk(chunks: seq<bytes>, i: nat, frames: seq<bytes>, tail: bytes)
    requires i < |chunks| && Parse(Concat(chunks[..i])) == Cut(frames, tail)
    ensures Concat(chunks[..i + 1]) == Concat(chunks[..i]) + chunks[i]
    ensures Leaves(frames, tail + chunks[i], Concat(chunks[..i + 1]))
  {
    var a, c := chunks[..i], chunks[i];
    assert chunks[..i + 1] == a + [c];
    ConcatAppend(a, [c]);
    assert Concat([c]) == c + Concat([]);
    ParseAppend(Concat(a), c);
  }

  // `buffer += chunk`, then cut from the front. The reader hands every frame on; `chunks` are
  // the reads until the stream ends.
  method ProcessStreamPy(chunks: seq<bytes>) returns (frames: seq<bytes>, buffer: bytes)
    ensures Cut(frames, buffer) == Parse(Concat(chunks))
  {
    frames, buffer := [], [];
    for i := 0 to |chunks|
      invariant Parse(Concat(chunks[..i])) == Cut(frames, buffer)
    {
      ghost var whole := Concat(chunks[..i + 1]);
      NextChunk(chunks, i, frames, buffer);
      buffer := buffer + chunks[i];
      while |buffer| >= 4
        invariant Leaves(frames, buffer, whole)
        decreases |buffer|
      {
        var length := Length(buffer[..4]);
        assert length == Length(buffer);
        if |buffer| < 4 + length { break; }
        LeavesStep(frames, buffer, whole);
        frames := frames + [buffer[4..4 + length]];
        buffer := buffer[4 + length..];
      }
      LeavesAtEnd(frames, buffer, whole);
    }
    assert chunks[..|chunks|] == chunks;
  }

  // ---------------------------------------------------------------- capacity

  const INITIAL_SIZE := 4096

  // Double until it fits.
  function GrowTo(size: nat, needed: nat): (r: nat)
    requires size > 0
    ensures r >= size && r >= needed
    decreases needed - size
  {
    if size >= needed then size else GrowTo(2 * size, needed)
  }

  function Max(a: nat, b: nat): nat { if a >= b then a else b }

  // The most the reader ever has to hold: the unparsed tail and the next chunk.
  function Peak(tail: bytes, chunks: seq<bytes>): nat
    decreases |chunks|
  {
    if chunks == [] then 0
    else Max(|tail| + |chunks[0]|, Peak(Parse(tail + chunks[0]).tail, chunks[1..]))
  }

  function Capacity(chunks: seq<bytes>): (r: nat) { GrowTo(INITIAL_SIZE, Peak([], chunks)) }

  ghost predicate IsDoubling(base: nat, r: nat) {
    r == base || (r % 2 == 0 && r / 2 >= base && r / 2 < r && IsDoubling(base, r / 2))
  }

  lemma {:induction false} GrowToDoubles(base: nat, size: nat, needed: nat)
    requires base > 0 && IsDoubling(base, size) && size > 0
    ensures IsDoubling(base, GrowTo(size, needed))
    ensures GrowTo(size, needed) == size || GrowTo(size, needed) < 2 * needed
    decreases needed - size
  {
    if size < needed {
      assert (2 * size) / 2 == size && (2 * size) % 2 == 0;
      assert size >= base by { DoublingAtLeast(base, size); }
      GrowToDoubles(base, 2 * size, needed);
    }
  }

  lemma {:induction false} DoublingAtLeast(base: nat, r: nat)
    requires IsDoubling(base, r)
    ensures r >= base
    decreases r
  {
    if r != base { DoublingAtLeast(base, r / 2); }
  }

  lemma {:induction false} GrowTwice(size: nat, a: nat, b: nat)
    requires size > 0
    ensures GrowTo(GrowTo(size, a), b) == GrowTo(size, Max(a, b))
    decreases a - size
  {
    if size < a { GrowTwice(2 * size, a, b); }
  }

  // MAIN: the array has 4096 * 2^k bytes, enough for the largest need, and unless it never
  // grew it is smaller than twice that need.
  lemma CapacityIsTight(chunks: seq<bytes>)
    ensures IsDoubling(INITIAL_SIZE, Capacity(chunks))
    ensures Peak([], chunks) <= Capacity(chunks)
    ensures Capacity(chunks) == INITIAL_SIZE || Capacity(chunks) < 2 * Peak([], chunks)
  {
    GrowToDoubles(INITIAL_SIZE, INITIAL_SIZE, Peak([], chunks));
  }

  // ---------------------------------------------------------------- the array reader

  method Grow(buffer: array<byte>, bufferLen: nat, needed: nat) returns (grown: array<byte>)
    requires 0 < buffer.Length && bufferLen <= buffer.Length && bufferLen <= needed
    ensures grown.Length == GrowTo(buffer.Length, needed)
    ensures grown == buffer || fresh(grown)
    ensures grown[..bufferLen] == buffer[..bufferLen]
  {
    grown := buffer;
    if needed > buffer.Length {
      var newSize := buffer.Length;
      while newSize < needed
        invariant newSize >= buffer.Length && GrowTo(buffer.Length, needed) == GrowTo(newSize, needed)
        decreases needed - newSize
      {
        newSize := newSize * 2;
      }
      grown := new byte[newSize];
      forall i | 0 <= i < bufferLen { grown[i] := buffer[i]; }
    }
  }

  method ReadLength(buffer: array<byte>, offset: nat, bufferLen: nat) returns (length: int)
    requires offset + 4 <= bufferLen <= buffer.Length
    ensures length == SignedLength(buffer[offset..bufferLen])
  {
    length := SignedLength([buffer[offset], buffer[offset + 1], buffer[offset + 2], buffer[offset + 3]]);
  }

  // `slice` copies the payload out of the buffer.
  method CutOne(buffer: array<byte>, offset: nat, bufferLen: nat, length: nat) returns (frame: bytes)
    requires offset + 4 + length <= bufferLen <= buffer.Length
    requires length == Length(buffer[offset..bufferLen])
    ensures frame == First(buffer[offset..bufferLen])
    ensures buffer[offset + 4 + length..bufferLen] == Rest(buffer[offset..bufferLen])
  {
    frame := buffer[offset + 4..offset + 4 + length];
    ghost var s := buffer[offset..bufferLen];
    forall k | 0 <= k < length ensures frame[k] == s[4..4 + length][k] {}
  }

  // The inner loop: cut frames at `offset` until what is left is incomplete.
  method CutFrames(buffer: array<byte>, bufferLen: nat) returns (frames: seq<bytes>, offset: nat)
    requires bufferLen <= buffer.Length && ShortFrames(buffer[..bufferLen])
    ensures offset <= bufferLen
    ensures Cut(frames, buffer[offset..bufferLen]) == Parse(buffer[..bufferLen])
  {
    frames, offset := [], 0;
    ghost var whole := buffer[..bufferLen];
    ghost var rest := whole;
    while bufferLen - offset >= 4
      invariant offset <= bufferLen && rest == buffer[offset..bufferLen]
      invariant ShortFrames(rest) && Leaves(frames, rest, whole)
      decreases bufferLen - offset
    {
      var length := ReadLength(buffer, offset, bufferLen);
      LengthsAgreeIff(rest);
      if bufferLen - offset < 4 + length { break; }
      LeavesStep(frames, rest, whole);
      var frame := CutOne(buffer, offset, bufferLen, length);
      frames := frames + [frame];
      offset := offset + 4 + length;
      rest := Rest(rest);
    }
    LeavesAtEnd(frames, rest, whole);
  }

  // copyWithin to the front.
  method Compact(buffer: array<byte>, offset: nat, bufferLen: nat)
    requires offset <= bufferLen <= buffer.Length
    modifies buffer
    ensures buffer[..bufferLen - offset] == old(buffer[offset..bufferLen])
  {
    forall i | 0 <= i < bufferLen - offset { buffer[i] := buffer[offset + i]; }
  }

  // Make room, then copy the chunk in.
  method Append(buffer: array<byte>, bufferLen: nat, value: bytes) returns (grown: array<byte>)
    requires 0 < buffer.Length && bufferLen <= buffer.Length
    modifies buffer
    ensures grown == buffer || fresh(grown)
    ensures grown.Length == GrowTo(buffer.Length, bufferLen + |value|)
    ensures grown[..bufferLen + |value|] == old(buffer[..bufferLen]) + value
  {
    grown := Grow(buffer, bufferLen, bufferLen + |value|);
    forall i | 0 <= i < |value| { grown[bufferLen + i] := value[i]; }
  }

  // One pass of the read loop.
  method ReadChunk(buffer: array<byte>, bufferLen: nat, value: bytes)
    returns (grown: array<byte>, newLen: nat, frames: seq<bytes>)
    requires 0 < buffer.Length && bufferLen <= buffer.Length
    requires ShortFrames(buffer[..bufferLen] + value)
    modifies buffer
    ensures grown == buffer || fresh(grown)
    ensures grown.Length == GrowTo(buffer.Length, bufferLen + |value|) && newLen <= grown.Length
    ensures Cut(frames, grown[..newLen]) == Parse(old(buffer[..bufferLen]) + value)
  {
    newLen := bufferLen + |value|;
    grown := Append(buffer, bufferLen, value);
    var offset;
    frames, offset := CutFrames(grown, newLen);
    if offset > 0 {
      Compact(grown, offset, newLen);
      newLen := newLen - offset;
    }
  }

  lemma PeakStep(size: nat, tail: bytes, chunks: seq<bytes>, i: nat)
    requires size > 0 && i < |chunks|
    ensures GrowTo(size, Peak(tail, chunks[i..]))
         == GrowTo(GrowTo(size, |tail| + |chunks[i]|), Peak(Parse(tail + chunks[i]).tail, chunks[i + 1..]))
  {
    assert chunks[i..][1..] == chunks[i + 1..];
    GrowTwice(size, |tail| + |chunks[i]|, Peak(Parse(tail + chunks[i]).tail, chunks[i + 1..]));
  }

  lemma RestIsShort(chunks: seq<bytes>, i: nat)
    requires i < |chunks| && ShortFrames(Concat(chunks))
    ensures ShortFrames(Parse(Concat(chunks[..i])).tail + chunks[i])
  {
    var a, b := Concat(chunks[..i]), Concat(chunks[i + 1..]);
    SplitStream(chunks, i);
    ShortFramesPrefix(a + chunks[i], b);
    ShortFramesTail(a, chunks[i]);
  }

  lemma SplitStream(chunks: seq<bytes>, i: nat)
    requires i < |chunks|
    ensures Concat(chunks) == (Concat(chunks[..i]) + chunks[i]) + Concat(chunks[i + 1..])
  {
    assert chunks == chunks[..i] + chunks[i..];
    ConcatAppend(chunks[..i], chunks[i..]);
    assert chunks[i..][1..] == chunks[i + 1..];
  }

  // After i chunks: what is cut, what is left, and the capacity still to come.
  ghost predicate Progress(chunks: seq<bytes>, i: nat, frames: seq<bytes>, tail: bytes, size: nat)
    requires i <= |chunks|
  {
    && size > 0
    && Parse(Concat(chunks[..i])) == Cut(frames, tail)
    && Capacity(chunks) == GrowTo(size, Peak(tail, chunks[i..]))
  }

  lemma ProgressStep(chunks: seq<bytes>, i: nat, frames: seq<bytes>, tail: bytes, size: nat)
    requires i < |chunks| && ShortFrames(Concat(chunks)) && Progress(chunks, i, frames, tail, size)
    ensures ShortFrames(tail + chunks[i])
    ensures var cut := Parse(tail + chunks[i]);
      Progress(chunks, i + 1, frames + cut.frames, cut.tail, GrowTo(size, |tail| + |chunks[i]|))
  {
    NextChunk(chunks, i, frames, tail);
    RestIsShort(chunks, i);
    PeakStep(size, tail, chunks, i);
  }

  // The two ends of a run.
  lemma ProgressEnds(chunks: seq<bytes>, frames: seq<bytes>, tail: bytes, size: nat)
    ensures Progress(chunks, 0, [], [], INITIAL_SIZE)
    ensures Progress(chunks, |chunks|, frames, tail, size) ==>
              Parse(Concat(chunks)) == Cut(frames, tail) && Capacity(chunks) == size
  {
    assert chunks[..|chunks|] == chunks && chunks[0..] == chunks;
  }

  // One turn of the read loop.
  method ReadNext(chunks: seq<bytes>, i: nat, frames: seq<bytes>, buffer: array<byte>, bufferLen: nat)
    returns (more: seq<bytes>, grown: array<byte>, newLen: nat)
    requires i < |chunks| && ShortFrames(Concat(chunks)) && bufferLen <= buffer.Length
    requires Progress(chunks, i, frames, buffer[..bufferLen], buffer.Length)
    modifies buffer
    ensures grown == buffer || fresh(grown)
    ensures newLen <= grown.Length
    ensures Progress(chunks, i + 1, more, grown[..newLen], grown.Length)
  {
    ProgressStep(chunks, i, frames, buffer[..bufferLen], buffer.Length);
    var cut;
    grown, newLen, cut := ReadChunk(buffer, bufferLen, chunks[i]);
    more := frames + cut;
  }

  // MAIN: for every stream of frames shorter than 2^31 bytes and every way it is cut into
  // chunks, the array reader cuts the frames of the one-shot parse, keeps exactly the
  // unparsed tail, and ends with the tight capacity.
  method ProcessStreamJs(chunks: seq<bytes>) returns (frames: seq<bytes>, buffer: array<byte>, bufferLen: nat)
    requires ShortFrames(Concat(chunks))
    ensures bufferLen <= buffer.Length
    ensures Cut(frames, buffer[..bufferLen]) == Parse(Concat(chunks))
    ensures buffer.Length == Capacity(chunks)
  {
    buffer := new byte[INITIAL_SIZE];
    frames, bufferLen := [], 0;
    assert buffer[..0] == [];
    ProgressEnds(chunks, frames, [], INITIAL_SIZE);
    for i := 0 to |chunks|
      invariant fresh(buffer) && bufferLen <= buffer.Length
      invariant Progress(chunks, i, frames, buffer[..bufferLen], buffer.Length)
    {
      frames, buffer, bufferLen := ReadNext(chunks, i, frames, buffer, bufferLen);
    }
    ProgressEnds(chunks, frames, buffer[..bufferLen], buffer.Length);
  }
}
