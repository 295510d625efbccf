/**
 The framing of the HTTP stream: a 4-byte big-endian length and that many bytes of payload.
 The one-shot parse of a whole stream is the reference for the incremental readers.
 */
module Frames {
  newtype byte = b: int | 0 <= b < 256

  type bytes = seq<byte>

  const HEADER := 4

  // int.from_bytes(header, "big").
  function Length(header: bytes): (n: nat)
    requires |header| >= HEADER
    ensures n < 0x1_0000_0000
  {
    header[0] as int * 0x100_0000 + header[1] as int * 0x1_0000 + header[2] as int * 0x100 + header[3] as int
  }

  // The same from JavaScript's shifts and ors: the four lanes are disjoint, so the or is their
  // sum, and the result is a signed Int32.
  function SignedLength(header: bytes): (n: int)
    requires |header| >= HEADER
    ensures -0x8000_0000 <= n < 0x8000_0000
  {
    var top := header[0] as int;
    (if top >= 0x80 then top - 0x100 else top) * 0x100_0000
    + header[1] as int * 0x1_0000 + header[2] as int * 0x100 + header[3] as int
  }

  lemma LengthsAgreeIff(header: bytes)
    requires |header| >= HEADER
    ensures SignedLength(header) == Length(header) <==> Length(header) < 0x8000_0000
    ensures Length(header) >= 0x8000_0000 ==> SignedLength(header) == Length(header) - 0x1_0000_0000
  {
  }

  // The first byte weighs most: of two lengths the one with the larger first byte is larger, and each
  // further byte is worth 256 times less.
  lemma BigEndian(header: bytes, other: bytes)
    requires |header| >= HEADER && |other| >= HEADER
    ensures Length([0, 0, 0, header[3]]) == header[3] as int
    ensures header[0] > other[0] ==> Length(header) > Length(other)
    ensures Length(header) / 0x100 == Length([0, header[0], header[1], header[2]])
    ensures Length(header) % 0x100 == header[3] as int
  {
    var high := header[0] as int * 0x1_0000 + header[1] as int * 0x100 + header[2] as int;
    assert Length(header) == 0x100 * high + header[3] as int;
  }

  datatype Cut = Cut(frames: seq<bytes>, tail: bytes)

  predicate Complete(s: bytes) {
    |s| >= HEADER && |s| >= HEADER + Length(s)
  }

  function First(s: bytes): bytes
    requires Complete(s)
  {
    s[HEADER..HEADER + Length(s)]
  }

  function Rest(s: bytes): bytes
    requires Complete(s)
  {
    s[HEADER + Length(s)..]
  }

  // The one-shot parse: every complete frame, and what is left.
  function Parse(s: bytes): Cut
    decreases |s|
  {
    if Complete(s) then
      var r := Parse(Rest(s));
      Cut([First(s)] + r.frames, r.tail)
    else Cut([], s)
  }

  // What a sender writes for one payload.
  function Header(n: nat): (h: bytes)
    requires n < 0x1_0000_0000
    ensures |h| == HEADER && Length(h) == n
  {
    var high := n / 0x100;
    var higher := high / 0x100;
    [(higher / 0x100) as byte, (higher % 0x100) as byte, (high % 0x100) as byte, (n % 0x100) as byte]
  }

  function Frame(payload: bytes): (f: bytes)
    requires |payload| < 0x1_0000_0000
  {
    Header(|payload|) + payload
  }

  function Written(payloads: seq<bytes>): bytes
    requires forall p <- payloads :: |p| < 0x1_0000_0000
  {
    if payloads == [] then [] else Frame(payloads[0]) + Written(payloads[1..])
  }

  function Concat(chunks: seq<bytes>): bytes {
    if chunks == [] then [] else chunks[0] + Concat(chunks[1..])
  }

  lemma LengthOfPrefix(a: bytes, b: bytes)
    requires |a| >= HEADER
    ensures Length(a + b) == Length(a)
  {
    assert (a + b)[0] == a[0] && (a + b)[1] == a[1] && (a + b)[2] == a[2] && (a + b)[3] == a[3];
  }

  lemma CompletePrefix(a: bytes, b: bytes)
    requires Complete(a)
    ensures Complete(a + b) && First(a + b) == First(a) && Rest(a + b) == Rest(a) + b
  {
    LengthOfPrefix(a, b);
  }

  ghost function Then(c: Cut, b: bytes): Cut {
    Cut(c.frames + Parse(c.tail + b).frames, Parse(c.tail + b).tail)
  }

  lemma ThenAfterOne(frame: bytes, c: Cut, b: bytes)
    ensures Then(Cut([frame] + c.frames, c.tail), b) == Cut([frame] + Then(c, b).frames, Then(c, b).tail)
  {
  }

  // Parsing in two goes is parsing at once: the tail of the first goes before the second.
  lemma {:induction false} ParseAppend(a: bytes, b: bytes)
    ensures Parse(a + b) == Then(Parse(a), b)
    decreases |a|
  {
    if Complete(a) {
      CompletePrefix(a, b);
      ParseAppend(Rest(a), b);
      ThenAfterOne(First(a), Parse(Rest(a)), b);
    }
  }

  lemma {:induction false} ConcatAppend(a: seq<bytes>, b: seq<bytes>)
    ensures Concat(a + b) == Concat(a) + Concat(b)
  {
    if a == [] {
      assert a + b == b;
    } else {
      assert (a + b)[1..] == a[1..] + b;
      ConcatAppend(a[1..], b);
    }
  }

  lemma CutFirstFrame(p: bytes, more: bytes)
    requires |p| < 0x1_0000_0000
    ensures Complete(Frame(p) + more) && First(Frame(p) + more) == p && Rest(Frame(p) + more) == more
  {
    var h := Header(|p|);
    var s := Frame(p) + more;
    LengthOfPrefix(h, p + more);
    assert s == h + (p + more);
    assert s[HEADER..] == p + more;
  }

  // MAIN: parsing undoes writing, whatever payloads were written and wherever the stream stops.
  lemma {:induction false} ParseInvertsWritten(payloads: seq<bytes>, tail: bytes)
    requires forall p <- payloads :: |p| < 0x1_0000_0000
    requires !Complete(tail)
    ensures Parse(Written(payloads) + tail) == Cut(payloads, tail)
    decreases |payloads|
  {
    if payloads == [] {
      assert Written(payloads) + tail == tail;
    } else {
      var more := Written(payloads[1..]) + tail;
      assert Written(payloads) + tail == Frame(payloads[0]) + more;
      CutFirstFrame(payloads[0], more);
      ParseInvertsWritten(payloads[1..], tail);
      assert payloads == [payloads[0]] + payloads[1..];
    }
  }

  // No frame of the stream, nor the one still incomplete, announces 2^31 bytes or more.
  predicate ShortFrames(s: bytes)
    decreases |s|
  {
    |s| >= HEADER ==> Length(s) < 0x8000_0000 && (Complete(s) ==> ShortFrames(Rest(s)))
  }

  lemma {:induction false} ShortFramesPrefix(a: bytes, b: bytes)
    requires ShortFrames(a + b)
    ensures ShortFrames(a)
    decreases |a|
  {
    if |a| >= HEADER {
      LengthOfPrefix(a, b);
      if Complete(a) {
        CompletePrefix(a, b);
        ShortFramesPrefix(Rest(a), b);
      }
    }
  }

  lemma {:induction false} ShortFramesTail(a: bytes, b: bytes)
    requires ShortFrames(a + b)
    ensures ShortFrames(Parse(a).tail + b)
    decreases |a|
  {
    if Complete(a) {
      CompletePrefix(a, b);
      ShortFramesTail(Rest(a), b);
    }
  }

  // The other way round: short frames so far and from their tail on.
  lemma {:induction false} ShortFramesJoin(a: bytes, b: bytes)
    requires ShortFrames(a) && ShortFrames(Parse(a).tail + b)
    ensures ShortFrames(a + b)
    decreases |a|
  {
    if Complete(a) {
      CompletePrefix(a, b);
      LengthOfPrefix(a, b);
      ShortFramesJoin(Rest(a), b);
    } else {
      assert Parse(a).tail == a;
    }
  }
}
