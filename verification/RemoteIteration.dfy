/**
 Remote iteration: a generator is encoded as two session entries, `next` and `close`, and the
 consumer's proxy pulls items through the first until it sees a stop_iteration mark.
 */
module RemoteIteration {
  // What travels in a reply: ordinary data, or a dictionary whose _rtype is stop_iteration.
  datatype Value = Data(payload: int) | StopMark

  // How the generator finishes after its last item.
  datatype Ending = Exhausts | Raises

  datatype Generator = Generator(items: seq<Value>, ending: Ending, nextId: string, closeId: string)

  // A session entry: one of the two methods of the generator, or anything else.
  datatype Entry = NextMethod | CloseMethod | Other(id: int)

  // The producer's side: its session store and where the generator stands.
  datatype Side = Side(store: map<string, Entry>, pos: nat, raised: bool)

  datatype Request = Next | Close

  datatype Reply = Item(value: Value) | Failed | NotFound | Closed

  ghost predicate WellFormed(g: Generator, s: Side) {
    && g.nextId != g.closeId
    && s.pos <= |g.items|
    && (g.nextId in s.store <==> g.closeId in s.store)
  }

  function Pop(g: Generator, store: map<string, Entry>): map<string, Entry> {
    store - {g.nextId} - {g.closeId}
  }

  // One incoming call, resolved through the store.
  function Serve(g: Generator, s: Side, r: Request): (Side, Reply) {
    match r
    case Next =>
      if g.nextId !in s.store then (s, NotFound)
      else if s.pos < |g.items| then (s.(pos := s.pos + 1), Item(g.items[s.pos]))
      else if g.ending == Raises && !s.raised then (s.(raised := true), Failed)
      else (s.(store := Pop(g, s.store)), Item(StopMark))
    case Close =>
      if g.closeId !in s.store then (s, NotFound)
      else (s.(store := Pop(g, s.store)), Closed)
  }

  // ---------------------------------------------------------------- every run of calls

  function Run(g: Generator, s: Side, requests: seq<Request>): (Side, seq<Reply>)
    decreases |requests|
  {
    if requests == [] then (s, [])
    else
      var (s', reply) := Serve(g, s, requests[0]);
      var (end, replies) := Run(g, s', requests[1..]);
      (end, [reply] + replies)
  }

  // The replies that carry an item of the generator, in order; the mark sent at the end is not one.
  function Delivered(g: Generator, s: Side, requests: seq<Request>): seq<Value>
    decreases |requests|
  {
    if requests == [] then []
    else
      var (s', reply) := Serve(g, s, requests[0]);
      (if s'.pos > s.pos && reply.Item? then [reply.value] else []) + Delivered(g, s', requests[1..])
  }

  lemma {:induction false} RemovedCallsFindNothing(g: Generator, s: Side, requests: seq<Request>)
    requires WellFormed(g, s) && g.nextId !in s.store
    ensures Run(g, s, requests).0 == s
    ensures |Run(g, s, requests).1| == |requests|
    ensures forall i | 0 <= i < |requests| :: Run(g, s, requests).1[i] == NotFound
    decreases |requests|
  {
    if requests != [] { RemovedCallsFindNothing(g, s, requests[1..]); }
  }

  ghost predicate Follows(g: Generator, s: Side, end: Side, delivered: seq<Value>) {
    && WellFormed(g, end)
    && s.pos <= end.pos <= |g.items|
    && delivered == g.items[s.pos..end.pos]
    && Pop(g, end.store) == Pop(g, s.store)
    && (g.nextId in end.store ==> end.store == s.store)
  }

  lemma ServeFollows(g: Generator, s: Side, r: Request)
    requires WellFormed(g, s)
    ensures var (s', reply) := Serve(g, s, r);
      Follows(g, s, s', if s'.pos > s.pos && reply.Item? then [reply.value] else [])
  {
    var (s', reply) := Serve(g, s, r);
    assert Pop(g, Pop(g, s.store)) == Pop(g, s.store);
    if s'.pos > s.pos { assert g.items[s.pos..s.pos + 1] == [g.items[s.pos]]; }
  }

  lemma FollowsChains(g: Generator, a: Side, b: Side, c: Side, first: seq<Value>, second: seq<Value>)
    requires Follows(g, a, b, first)
    requires Follows(g, b, c, second)
    ensures Follows(g, a, c, first + second)
  {
    assert g.items[a.pos..c.pos] == g.items[a.pos..b.pos] + g.items[b.pos..c.pos];
  }

  // MAIN: whatever calls arrive, in whatever order, the items handed out are the generator's
  // own, in order and without a gap; the two entries live and die together; and no other
  // entry of the session is touched.
  lemma {:induction false} RunDeliversInOrder(g: Generator, s: Side, requests: seq<Request>)
    requires WellFormed(g, s)
    ensures Follows(g, s, Run(g, s, requests).0, Delivered(g, s, requests))
    decreases |requests|
  {
    if requests != [] {
      var (s', reply) := Serve(g, s, requests[0]);
      var first := if s'.pos > s.pos && reply.Item? then [reply.value] else [];
      ServeFollows(g, s, requests[0]);
      RunDeliversInOrder(g, s', requests[1..]);
      FollowsChains(g, s, s', Run(g, s', requests[1..]).0, first, Delivered(g, s', requests[1..]));
    }
  }

  // A second close, or a close after exhaustion, changes nothing and is told so.
  lemma ClosedOnce(g: Generator, s: Side, first: Request, second: Request)
    requires WellFormed(g, s)
    requires g.nextId in s.store && g.nextId !in Serve(g, s, first).0.store
    ensures Serve(g, Serve(g, s, first).0, second) == (Serve(g, s, first).0, NotFound)
    ensures Serve(g, s, first).0.store.Keys == s.store.Keys - {g.nextId, g.closeId}
    ensures first == Next ==> s.pos == |g.items|
  {
  }

  // As long as items are left, every call gets the next one, and the store stays as it is.
  lemma {:induction false} EachCallGetsTheNext(g: Generator, s: Side, n: nat)
    requires WellFormed(g, s) && g.nextId in s.store && s.pos + n <= |g.items|
    ensures var (end, replies) := Run(g, s, seq(n, i => Next));
      && end == s.(pos := s.pos + n)
      && |replies| == n && forall i | 0 <= i < n :: replies[i] == Item(g.items[s.pos + i])
    decreases n
  {
    var requests := seq(n, i => Next);
    if n > 0 {
      assert requests[1..] == seq(n - 1, i => Next);
      EachCallGetsTheNext(g, s.(pos := s.pos + 1), n - 1);
    }
  }

  // A close that finds the entries takes exactly these two away.
  lemma CloseRemoves(g: Generator, s: Side)
    requires WellFormed(g, s) && g.closeId in s.store
    ensures var (end, reply) := Serve(g, s, Close);
      reply == Closed && end.pos == s.pos && end.store.Keys == s.store.Keys - {g.nextId, g.closeId}
  {
  }

  // A generator that raises fails one call and keeps its entries; the call after that, like the one
  // after the last item of any other, gets the mark and takes both entries away.
  lemma AfterTheLastItem(g: Generator, s: Side)
    requires WellFormed(g, s) && g.nextId in s.store && s.pos == |g.items|
    ensures g.ending == Raises && !s.raised ==>
              && Serve(g, s, Next) == (s.(raised := true), Failed)
              && Serve(g, s.(raised := true), Next).1 == Item(StopMark)
    ensures g.ending == Exhausts || s.raised ==>
              var (end, reply) := Serve(g, s, Next);
              reply == Item(StopMark) && end.store.Keys == s.store.Keys - {g.nextId, g.closeId}
  {
  }

  // ---------------------------------------------------------------- the two sides at work

  // What becomes of a call on its way: answered, never served, or served with the answer lost.
  datatype Link = Answered | Lost | AnswerLost

  datatype Exit = Ended | Broken | Left

  class Producer {
    const g: Generator
    var store: map<string, Entry>
    var pos: nat
    var raised: bool

    ghost function View(): Side reads this { Side(store, pos, raised) }

    // _encode registers both methods in the session store.
    constructor (g: Generator, session: map<string, Entry>)
      requires g.nextId != g.closeId && g.nextId !in session && g.closeId !in session
      ensures this.g == g
      ensures View() == Side(session[g.nextId := NextMethod][g.closeId := CloseMethod], 0, false)
      ensures WellFormed(g, View())
    {
      this.g := g;
      store := session[g.nextId := NextMethod][g.closeId := CloseMethod];
      pos := 0;
      raised := false;
    }

    method NextItem() returns (reply: Reply)
      requires WellFormed(g, View())
      modifies this
      ensures (View(), reply) == Serve(g, old(View()), Next)
    {
      if g.nextId !in store { return NotFound; }
      if pos < |g.items| {
        reply := Item(g.items[pos]);
        pos := pos + 1;
      } else if g.ending == Raises && !raised {
        raised := true;
        reply := Failed;
      } else {
        store := store - {g.nextId};
        store := store - {g.closeId};
        reply := Item(StopMark);
      }
    }

    method CloseGenerator() returns (reply: Reply)
      requires WellFormed(g, View())
      modifies this
      ensures (View(), reply) == Serve(g, old(View()), Close)
    {
      if g.closeId !in store { return NotFound; }
      store := store - {g.nextId};
      store := store - {g.closeId};
      reply := Closed;
    }

    // A remote next over a link; `Failed` is what the consumer sees of any trouble.
    method RemoteNext(link: Link) returns (reply: Reply)
      requires WellFormed(g, View())
      modifies this
      ensures View() == if link == Lost then old(View()) else Serve(g, old(View()), Next).0
      ensures reply == if link == Answered then Serve(g, old(View()), Next).1 else Failed
    {
      reply := Failed;
      if link != Lost {
        var answer := NextItem();
        if link == Answered { reply := answer; }
      }
    }
  }

  /**
   MAIN: async_generator_proxy. The consumer asks for `wanted` items and then leaves; `link(i)`
   is the fate of its i-th next call and `closing` that of its close call.

   It sees the longest prefix of the items that its own wish, the links and the first item
   that is itself a stop mark allow. The entries are gone afterwards exactly when the
   generator was seen to exhaust or a close call was served, so they stay behind when the
   proxy was never started, when an item imitates the mark, and when the close is lost.
   */
  method Consume(p: Producer, wanted: nat, link: nat -> Link, closing: Link) returns (seen: seq<Value>, exit: Exit)
    requires WellFormed(p.g, p.View()) && p.pos == 0 && !p.raised && p.g.nextId in p.store
    modifies p
    ensures |seen| <= |p.g.items| && |seen| <= wanted && seen == p.g.items[..|seen|]
    ensures forall i | 0 <= i < |seen| :: p.g.items[i] != StopMark && link(i) == Answered
    ensures exit == Left <==> |seen| == wanted
    ensures exit == Ended <==>
              && |seen| < wanted
              && link(|seen|) == Answered
              && (if |seen| < |p.g.items| then p.g.items[|seen|] == StopMark else p.g.ending == Exhausts)
    ensures exit == Broken <==>
              && |seen| < wanted
              && (link(|seen|) != Answered || (|seen| == |p.g.items| && p.g.ending == Raises))
    ensures exit == Ended && StopMark !in p.g.items ==> seen == p.g.items
    ensures p.g.nextId in p.store <==> p.g.closeId in p.store
    ensures p.g.nextId !in p.store <==>
              && wanted > 0
              && (|| (exit != Ended && closing != Lost)
                  || (|seen| == |p.g.items| < wanted && p.g.ending == Exhausts && link(|seen|) != Lost))
    ensures Pop(p.g, p.store) == Pop(p.g, old(p.store))
    ensures p.g.nextId in p.store ==> p.store == old(p.store)
  {
    seen, exit := [], Left;
    if wanted == 0 { return; }
    ghost var g := p.g;
    var served := 0;
    while |seen| < wanted && exit == Left
      invariant |seen| <= wanted && |seen| <= |g.items| && seen == g.items[..|seen|]
      invariant forall i | 0 <= i < |seen| :: g.items[i] != StopMark && link(i) == Answered
      invariant WellFormed(g, p.View()) && Pop(g, p.store) == Pop(g, old(p.store))
      invariant exit == Left ==> p.pos == |seen| && p.store == old(p.store) && !p.raised
      invariant exit != Left ==> |seen| < wanted
      invariant exit == Ended ==>
                  && link(|seen|) == Answered
                  && (if |seen| < |g.items| then g.items[|seen|] == StopMark else g.ending == Exhausts)
      invariant exit == Broken ==> link(|seen|) != Answered || (|seen| == |g.items| && g.ending == Raises)
      invariant exit != Left ==>
                  if |seen| == |g.items| && g.ending == Exhausts && link(|seen|) != Lost
                  then p.store == Pop(g, old(p.store)) else p.store == old(p.store)
      decreases wanted - |seen|, if exit == Left then 1 else 0
    {
      var reply := p.RemoteNext(link(|seen|));
      match reply
      case Item(v) =>
        if v == StopMark {
          exit := Ended;
        } else {
          seen := seen + [v];
        }
      case _ => exit := Broken;
    }
    if exit != Ended && closing != Lost {
      var _ := p.CloseGenerator();
    }
  }
}
