/**
 The cutting loop of the JavaScript reader on any bytes at all, frames of 2^31 bytes and more
 included: lengths are signed, offsets can go backwards and below zero, reading outside the
 array gives zero, and `slice` counts negative positions from the end.
 */
module LongFrames {
  import opened Frames

  // buffer[i] in the bitwise arithmetic, where undefined counts as 0.
  function At(buf: bytes, i: int): byte { if 0 <= i < |buf| then buf[i] else 0 }

  function LengthAt(buf: bytes, offset: int): int {
    SignedLength([At(buf, offset), At(buf, offset + 1), At(buf, offset + 2), At(buf, offset + 3)])
  }

  function Position(buf: bytes, i: int): (p: nat)
    ensures p <= |buf|
  {
    if i < 0 then if |buf| + i < 0 then 0 else |buf| + i
    else if i <= |buf| then i else |buf|
  }

  // TypedArray.prototype.slice
  function Slice(buf: bytes, start: int, end: int): bytes {
    var a, b := Position(buf, start), Position(buf, end);
    if a < b then buf[a..b] else []
  }

  predicate Cuts(buf: bytes, used: nat, offset: int) {
    used - offset >= 4 && used - offset >= 4 + LengthAt(buf, offset)
  }

  // The frames of at most n turns of the loop.
  function LoopFrames(buf: bytes, used: nat, offset: int, n: nat): seq<bytes>
    decreases n
  {
    if n == 0 || !Cuts(buf, used, offset) then []
    else
      var next := offset + 4 + LengthAt(buf, offset);
      [Slice(buf, offset + 4, next)] + LoopFrames(buf, used, next, n - 1)
  }

  lemma HeaderAt(buf: bytes, used: nat, offset: nat)
    requires offset + 4 <= used <= |buf|
    ensures LengthAt(buf, offset) == SignedLength(buf[offset..used])
  {
  }

  lemma SliceOfSlice(buf: bytes, a: nat, b: nat, i: nat, j: nat)
    requires a <= b <= |buf| && i <= j <= b - a
    ensures buf[a..b][i..j] == buf[a + i..a + j]
    ensures buf[a..b][j..] == buf[a + j..b]
  {
    var s := buf[a..b];
    forall k | 0 <= k < j - i ensures s[i..j][k] == buf[a + i..a + j][k] {}
    forall k | 0 <= k < b - a - j ensures s[j..][k] == buf[a + j..b][k] {}
  }

  lemma ShortHeaderCuts(buf: bytes, used: nat, offset: nat)
    requires offset <= used <= |buf|
    requires var s := buf[offset..used]; |s| >= HEADER ==> Length(s) < 0x8000_0000
    ensures var s := buf[offset..used]; Cuts(buf, used, offset) <==> Complete(s)
    ensures var s := buf[offset..used];
      Complete(s) ==>
        var next := offset + 4 + LengthAt(buf, offset);
        && offset <= next <= used
        && Slice(buf, offset + 4, next) == First(s)
        && buf[next..used] == Rest(s)
  {
    var s := buf[offset..used];
    if |s| >= HEADER {
      HeaderAt(buf, used, offset);
      LengthsAgreeIff(s);
      if Complete(s) { SliceOfSlice(buf, offset, used, HEADER, HEADER + Length(s)); }
    }
  }

  lemma ParseUnfolds(s: bytes)
    requires Complete(s)
    ensures Parse(s).frames == [First(s)] + Parse(Rest(s)).frames
  {
  }

  lemma LoopUnfolds(buf: bytes, used: nat, offset: int, n: nat)
    requires Cuts(buf, used, offset)
    ensures var next := offset + 4 + LengthAt(buf, offset);
      LoopFrames(buf, used, offset, n + 1) == [Slice(buf, offset + 4, next)] + LoopFrames(buf, used, next, n)
  {
  }

  // The loop stands before the bytes `s` of the array.
  ghost predicate Before(buf: bytes, used: nat, offset: int, s: bytes) {
    0 <= offset <= used <= |buf| && s == buf[offset..used]
  }

  lemma ShortTurn(buf: bytes, used: nat, offset: int, s: bytes)
    requires Before(buf, used, offset, s) && ShortFrames(s)
    ensures Cuts(buf, used, offset) <==> Complete(s)
    ensures Complete(s) ==>
              var next := offset + 4 + LengthAt(buf, offset);
              Slice(buf, offset + 4, next) == First(s) && Before(buf, used, next, Rest(s)) && ShortFrames(Rest(s))
  {
    ShortHeaderCuts(buf, used, offset);
  }

  // The loop cuts exactly these frames and stops.
  predicate CutsAll(buf: bytes, used: nat, offset: int, frames: seq<bytes>)
    decreases |frames|
  {
    if frames == [] then !Cuts(buf, used, offset)
    else
      var next := offset + 4 + LengthAt(buf, offset);
      Cuts(buf, used, offset) && Slice(buf, offset + 4, next) == frames[0] && CutsAll(buf, used, next, frames[1..])
  }

  lemma {:induction false} AllAreFrames(buf: bytes, used: nat, offset: int, frames: seq<bytes>, n: nat)
    requires CutsAll(buf, used, offset, frames) && n >= |frames|
    ensures LoopFrames(buf, used, offset, n) == frames
    decreases |frames|
  {
    if frames != [] {
      AllAreFrames(buf, used, offset + 4 + LengthAt(buf, offset), frames[1..], n - 1);
      LoopUnfolds(buf, used, offset, n - 1);
    }
  }

  lemma OneMore(buf: bytes, used: nat, offset: int, frame: bytes, more: seq<bytes>)
    requires Cuts(buf, used, offset) && Slice(buf, offset + 4, offset + 4 + LengthAt(buf, offset)) == frame
    requires CutsAll(buf, used, offset + 4 + LengthAt(buf, offset), more)
    ensures CutsAll(buf, used, offset, [frame] + more)
  {
    assert ([frame] + more)[1..] == more;
  }

  // While headers are short, these are the frames of the parse.
  lemma {:induction false} ParseIsCut(buf: bytes, used: nat, offset: int, s: bytes)
    requires Before(buf, used, offset, s) && ShortFrames(s)
    ensures CutsAll(buf, used, offset, Parse(s).frames)
    decreases |s|
  {
    ShortTurn(buf, used, offset, s);
    if Complete(s) {
      ParseIsCut(buf, used, offset + 4 + LengthAt(buf, offset), Rest(s));
      OneMore(buf, used, offset, First(s), Parse(Rest(s)).frames);
    }
  }

  // A long header is cut at once, and not into what the parse cuts there, if anything.
  lemma LongHeaderMiscuts(buf: bytes, used: nat, offset: nat)
    requires offset + 4 <= used <= |buf| && |buf| != 0x1_0000_0000
    requires Length(buf[offset..used]) >= 0x8000_0000
    ensures Cuts(buf, used, offset)
    ensures var s := buf[offset..used];
      Complete(s) ==> Slice(buf, offset + 4, offset + 4 + LengthAt(buf, offset)) != First(s)
  {
    var s := buf[offset..used];
    HeaderAt(buf, used, offset);
    LengthsAgreeIff(s);
    if Complete(s) {
      assert |First(s)| == Length(s);
      assert |Slice(buf, offset + 4, offset + 4 + LengthAt(buf, offset))| != Length(s);
    }
  }

  lemma LongHeaderDiffers(buf: bytes, used: nat, offset: nat)
    requires offset + 4 <= used <= |buf| && |buf| != 0x1_0000_0000
    requires Length(buf[offset..used]) >= 0x8000_0000
    ensures var frames := Parse(buf[offset..used]).frames;
      LoopFrames(buf, used, offset, |frames| + 1) != frames
  {
    LongHeaderMiscuts(buf, used, offset);
    var frames := Parse(buf[offset..used]).frames;
    var cut := LoopFrames(buf, used, offset, |frames| + 1);
    assert |cut| > 0 && cut[0] == Slice(buf, offset + 4, offset + 4 + LengthAt(buf, offset));
    assert Complete(buf[offset..used]) ==> frames[0] == First(buf[offset..used]);
    assert !Complete(buf[offset..used]) ==> frames == [];
  }

  lemma TailsDiffer(x: bytes, y: bytes, a: seq<bytes>, b: seq<bytes>)
    requires a != b
    ensures [x] + a != [y] + b
  {
    assert ([x] + a)[1..] == a && ([y] + b)[1..] == b;
  }

  // One frame that both cut, before what only one of them cuts.
  lemma FrameBefore(buf: bytes, used: nat, offset: nat, next: nat)
    requires offset <= used <= |buf| && Complete(buf[offset..used]) && Cuts(buf, used, offset)
    requires offset <= next <= used && next == offset + 4 + LengthAt(buf, offset)
    requires buf[next..used] == Rest(buf[offset..used])
    requires var frames := Parse(buf[next..used]).frames; LoopFrames(buf, used, next, |frames| + 1) != frames
    ensures var frames := Parse(buf[offset..used]).frames; LoopFrames(buf, used, offset, |frames| + 1) != frames
  {
    var rest := Parse(buf[next..used]).frames;
    ParseUnfolds(buf[offset..used]);
    LoopUnfolds(buf, used, offset, |rest| + 1);
    TailsDiffer(Slice(buf, offset + 4, next), First(buf[offset..used]), LoopFrames(buf, used, next, |rest| + 1), rest);
  }

  lemma {:induction false} LongDiffers(buf: bytes, used: nat, offset: nat)
    requires offset <= used <= |buf| && |buf| != 0x1_0000_0000
    requires !ShortFrames(buf[offset..used])
    ensures var frames := Parse(buf[offset..used]).frames;
      LoopFrames(buf, used, offset, |frames| + 1) != frames
    decreases used - offset
  {
    if Length(buf[offset..used]) < 0x8000_0000 {
      ShortHeaderCuts(buf, used, offset);
      var next := offset + 4 + LengthAt(buf, offset);
      HeaderAt(buf, used, offset);
      LengthsAgreeIff(buf[offset..used]);
      LongDiffers(buf, used, next);
      FrameBefore(buf, used, offset, next);
    } else {
      LongHeaderDiffers(buf, used, offset);
    }
  }

  // MAIN: the loop ends with the frames of the parse exactly when no header it meets announces
  // 2^31 bytes or more. (In an array of exactly 2^32 bytes one such slice comes out right.)
  lemma LoopAgreesIff(buf: bytes, used: nat)
    requires used <= |buf| && |buf| != 0x1_0000_0000
    ensures var frames := Parse(buf[..used]).frames;
      ShortFrames(buf[..used]) <==> forall n: nat | n >= |frames| :: LoopFrames(buf, used, 0, n) == frames
  {
    var s := buf[..used];
    var frames := Parse(s).frames;
    assert buf[0..used] == s;
    if ShortFrames(s) {
      ParseIsCut(buf, used, 0, s);
      forall n: nat | n >= |frames| ensures LoopFrames(buf, used, 0, n) == frames {
        AllAreFrames(buf, used, 0, frames, n);
      }
    } else {
      LongDiffers(buf, used, 0);
    }
  }

  // MAIN: over a stream, the reader goes wrong with the first chunk that brings in a long header,
  // and only then: `a` is the stream before it, `buf` the array with the tail and the chunk.
  lemma StreamAgreesIff(a: bytes, chunk: bytes, buf: bytes)
    requires ShortFrames(a) && |buf| != 0x1_0000_0000
    requires var used := |Parse(a).tail| + |chunk|; used <= |buf| && buf[..used] == Parse(a).tail + chunk
    ensures var used := |Parse(a).tail| + |chunk|;
      ShortFrames(a + chunk) <==>
        forall n: nat | n >= |Parse(buf[..used]).frames| ::
          Parse(a).frames + LoopFrames(buf, used, 0, n) == Parse(a + chunk).frames
  {
    var used := |Parse(a).tail| + |chunk|;
    var more := Parse(Parse(a).tail + chunk).frames;
    ParseAppend(a, chunk);
    LoopAgreesIff(buf, used);
    if ShortFrames(a + chunk) { ShortFramesTail(a, chunk); }
    if ShortFrames(buf[..used]) { ShortFramesJoin(a, chunk); }
    forall n: nat ensures Parse(a).frames + LoopFrames(buf, used, 0, n) == Parse(a + chunk).frames
                     <==> LoopFrames(buf, used, 0, n) == more
    {
      SamePrefix(Parse(a).frames, LoopFrames(buf, used, 0, n), more);
    }
  }

  lemma SamePrefix(a: seq<bytes>, b: seq<bytes>, c: seq<bytes>)
    ensures a + b == a + c <==> b == c
  {
    assert b == (a + b)[|a|..] && c == (a + c)[|a|..];
  }

  // What comes out in place of a long frame. Where the announced end lies before the array, the
  // slice is counted from the end of the array, bytes that were never received included; where it
  // lies behind its own beginning, nothing comes out.
  lemma MiscutFrame(buf: bytes, used: nat, offset: nat)
    requires offset + 4 <= used <= |buf| && Length(buf[offset..used]) >= 0x8000_0000
    ensures var end := offset + 4 + Length(buf[offset..used]) - 0x1_0000_0000;
      var frame := Slice(buf, offset + 4, offset + 4 + LengthAt(buf, offset));
      && (end < 0 && |buf| + end > offset + 4 ==> frame == buf[offset + 4..|buf| + end])
      && (end < 0 && |buf| + end <= offset + 4 ==> frame == [])
      && (end >= 0 ==> frame == [])
  {
    HeaderAt(buf, used, offset);
    LengthsAgreeIff(buf[offset..used]);
  }

  // Before the array there are only zeros: an empty frame, and four bytes further.
  lemma BeforeTheArray(buf: bytes, used: nat, offset: int)
    requires offset <= -4
    ensures Cuts(buf, used, offset) && LengthAt(buf, offset) == 0
    ensures Slice(buf, offset + 4, offset + 4) == []
  {
  }

  // One turn of the loop takes it from `offset` to `next`.
  predicate Turns(buf: bytes, used: nat, offset: int, next: int) {
    Cuts(buf, used, offset) && next == offset + 4 + LengthAt(buf, offset)
  }

  // The first header announces this length.
  predicate Announces(buf: bytes, used: nat, length: int) { 4 <= used <= |buf| && Length(buf[..used]) == length }

  // Where the loop comes by: the header, and k places in front of the array.
  predicate OnTheWay(offset: int, k: nat) { -4 * k <= offset <= 0 && offset % 4 == 0 }

  function NextOnTheWay(offset: int, k: nat): int { if offset == 0 then -4 * k else offset + 4 }

  lemma TurnBack(buf: bytes, used: nat, k: nat)
    requires k < 0x2000_0000 && Announces(buf, used, 0xFFFF_FFFC - 4 * k)
    ensures Turns(buf, used, 0, -4 * k)
  {
    assert buf[0..used] == buf[..used];
    HeaderAt(buf, used, 0);
    LengthsAgreeIff(buf[..used]);
  }

  lemma TurnForward(buf: bytes, used: nat, offset: int)
    requires offset <= -4
    ensures Turns(buf, used, offset, offset + 4)
  {
    BeforeTheArray(buf, used, offset);
  }

  lemma StaysOnTheWay(offset: int, k: nat)
    requires OnTheWay(offset, k)
    ensures OnTheWay(NextOnTheWay(offset, k), k)
    ensures offset == 0 || offset <= -4
  {
  }

  lemma TurnOnTheWay(buf: bytes, used: nat, k: nat, offset: int)
    requires k < 0x2000_0000 && Announces(buf, used, 0xFFFF_FFFC - 4 * k) && OnTheWay(offset, k)
    ensures Turns(buf, used, offset, NextOnTheWay(offset, k))
  {
    StaysOnTheWay(offset, k);
    if offset == 0 { TurnBack(buf, used, k); } else { TurnForward(buf, used, offset); }
  }

  lemma OneMoreTurn(buf: bytes, used: nat, offset: int, next: int, n: nat)
    requires Turns(buf, used, offset, next) && |LoopFrames(buf, used, next, n)| == n
    ensures |LoopFrames(buf, used, offset, n + 1)| == n + 1
  {
    LoopUnfolds(buf, used, offset, n);
  }

  // Every fourth of the long lengths makes the loop run for ever: in front of the array it comes back to
  // the header in steps of four, with an empty frame for each; 2^32 - 4 makes it stand still.
  lemma {:induction false} NeverEnds(buf: bytes, used: nat, k: nat, offset: int, n: nat)
    requires k < 0x2000_0000 && Announces(buf, used, 0xFFFF_FFFC - 4 * k) && OnTheWay(offset, k)
    ensures |LoopFrames(buf, used, offset, n)| == n
    decreases n
  {
    if n > 0 {
      TurnOnTheWay(buf, used, k, offset);
      StaysOnTheWay(offset, k);
      NeverEnds(buf, used, k, NextOnTheWay(offset, k), n - 1);
      OneMoreTurn(buf, used, offset, NextOnTheWay(offset, k), n - 1);
    }
  }

  // One header makes the loop stand still for ever.
  lemma {:induction false} StandsStill(buf: bytes, used: nat, offset: nat, n: nat)
    requires offset + 4 <= used <= |buf| && Length(buf[offset..used]) == 0xFFFF_FFFC
    ensures |LoopFrames(buf, used, offset, n)| == n
    decreases n
  {
    HeaderAt(buf, used, offset);
    LengthsAgreeIff(buf[offset..used]);
    if n > 0 { StandsStill(buf, used, offset, n - 1); }
  }
}
