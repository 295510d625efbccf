/**
 `unmunchify`: copying a graph of mappings and lists that may share objects and run in
 cycles. The memo `seen` maps every object met to its copy, which is filled in later.
 */
module GraphCopy {
  import opened Wrappers

  // A Munch is any mapping that is not a plain dict; the copy has none left.
  datatype Kind = Munch | PlainDict | PyList

  datatype Value = Atom(n: int) | Ref(obj: Obj)

  class Obj {
    const kind: Kind
    var keys: seq<string>   // of a mapping; a list has none
    var vals: seq<Value>

    constructor (kind: Kind)
      ensures this.kind == kind && keys == [] && vals == []
    {
      this.kind, keys, vals := kind, [], [];
    }
  }

  function CopyKind(k: Kind): Kind { if k.PyList? then PyList else PlainDict }

  ghost predicate WellFormed(o: Obj)
    reads o
  {
    if o.kind.PyList? then o.keys == []
    else |o.keys| == |o.vals| && forall i, j | 0 <= i < j < |o.keys| :: o.keys[i] != o.keys[j]
  }

  // A set of objects that no reference leaves.
  ghost predicate Closed(graph: set<Obj>)
    reads graph
  {
    forall o | o in graph :: WellFormed(o) && forall v | v in o.vals && v.Ref? :: v.obj in graph
  }

  // The objects reachable from a value, as the least closed set that holds it.
  ghost predicate Reachable(graph: set<Obj>, v: Value)
    reads graph
  {
    && Closed(graph) && (v.Ref? ==> v.obj in graph)
    && forall c: set<Obj> | c <= graph && Closed(c) && (v.Ref? ==> v.obj in c) :: c == graph
  }

  type Memo = map<Obj, Obj>

  ghost predicate Covers(seen: Memo, v: Value) { v.Ref? ==> v.obj in seen }

  function Copied(seen: Memo, v: Value): Value {
    if v.Ref? && v.obj in seen then Ref(seen[v.obj]) else v
  }

  ghost predicate Injective(seen: Memo) {
    forall a, b | a in seen && b in seen && seen[a] == seen[b] :: a == b
  }

  // The copy of `o` is complete: same keys, same values up to copying.
  ghost predicate CopyDone(seen: Memo, o: Obj)
    requires o in seen
    reads o, seen[o]
  {
    && seen[o].kind == CopyKind(o.kind)
    && seen[o].keys == o.keys
    && |seen[o].vals| == |o.vals|
    && forall i | 0 <= i < |o.vals| :: Covers(seen, o.vals[i]) && seen[o].vals[i] == Copied(seen, o.vals[i])
  }

  // The copy is an isomorphic image of the graph.
  ghost predicate Isomorphic(graph: set<Obj>, m: Memo)
    reads graph, m.Values
  {
    m.Keys == graph && Injective(m) && forall o | o in graph :: CopyDone(m, o)
  }

  ghost predicate Grows(a: Memo, b: Memo) {
    forall o | o in a :: o in b && b[o] == a[o]
  }

  // Copies are new objects, one for each object met.
  ghost predicate MemoOk(seen: Memo, graph: set<Obj>) {
    seen.Keys <= graph && Injective(seen) && seen.Values !! graph
  }

  // What the copy is for: lists stay lists, and everything else becomes a plain dictionary.
  lemma NoMunchLeft(graph: set<Obj>, m: Memo)
    requires Isomorphic(graph, m)
    ensures forall o | o in graph :: if o.kind.PyList? then m[o].kind.PyList? else m[o].kind.PlainDict?
    ensures forall o | o in m.Values :: !o.kind.Munch?
  {
    forall o | o in graph ensures if o.kind.PyList? then m[o].kind.PyList? else m[o].kind.PlainDict? {
      assert CopyDone(m, o);
    }
  }

  lemma MemoExtended(seen: Memo, graph: set<Obj>, obj: Obj, partial: Obj)
    requires MemoOk(seen, graph) && obj in graph && obj !in seen && partial !in graph && partial !in seen.Values
    ensures MemoOk(seen[obj := partial], graph)
  {
    assert seen[obj := partial].Values <= seen.Values + {partial};
    forall a | a in seen ensures seen[a] in seen.Values {}
  }

  // The first i values of `obj` have been copied into `partial`.
  ghost predicate FilledTo(seen: Memo, partial: Obj, obj: Obj, i: nat)
    reads partial, obj
  {
    && WellFormed(obj) && i <= |obj.vals|
    && partial.kind == CopyKind(obj.kind)
    && |partial.vals| == i && partial.keys == (if obj.kind.PyList? then [] else obj.keys[..i])
    && forall k | 0 <= k < i :: Covers(seen, obj.vals[k]) && partial.vals[k] == Copied(seen, obj.vals[k])
  }

  lemma FilledStays(a: Memo, b: Memo, partial: Obj, obj: Obj, i: nat)
    requires Grows(a, b) && FilledTo(a, partial, obj, i)
    ensures FilledTo(b, partial, obj, i)
  {
  }

  class Unmunchifier {
    var seen: Memo

    constructor ()
      ensures seen == map[]
    {
      seen := map[];
    }

    method UnmunchifyCycles(v: Value, ghost graph: set<Obj>) returns (r: Value)
      requires Closed(graph) && (v.Ref? ==> v.obj in graph) && MemoOk(seen, graph)
      modifies this
      ensures Grows(old(seen), seen) && Covers(seen, v) && r == Copied(seen, v) && MemoOk(seen, graph)
      ensures forall o | o in seen && o !in old(seen) :: fresh(seen[o]) && CopyDone(seen, o)
      decreases graph - seen.Keys, 0, 0
    {
      if v.Atom? { return v; }
      if v.obj in seen { return Ref(seen[v.obj]); }
      var partial := new Obj(CopyKind(v.obj.kind));
      MemoExtended(seen, graph, v.obj, partial);
      assert v.obj in graph - seen.Keys;
      seen := seen[v.obj := partial];
      assert v.obj !in graph - seen.Keys;
      PostUnmunchify(partial, v.obj, graph);
      r := Ref(partial);
    }

    // Fills in the skeleton, reusing copies that are already made or still being made.
    method PostUnmunchify(partial: Obj, obj: Obj, ghost graph: set<Obj>)
      requires Closed(graph) && obj in graph && MemoOk(seen, graph) && obj in seen && seen[obj] == partial
      requires partial.kind == CopyKind(obj.kind) && partial.keys == [] && partial.vals == []
      modifies this, partial
      ensures Grows(old(seen), seen) && MemoOk(seen, graph) && CopyDone(seen, obj)
      ensures forall o | o in seen && o !in old(seen) :: fresh(seen[o]) && CopyDone(seen, o)
      decreases graph - seen.Keys, 1, 0
    {
      ghost var before := seen;
      var i := 0;
      while i < |obj.vals|
        invariant i <= |obj.vals| && Grows(before, seen) && MemoOk(seen, graph)
        invariant FilledTo(seen, partial, obj, i)
        invariant forall o | o in seen && o !in before :: fresh(seen[o]) && CopyDone(seen, o)
        decreases |obj.vals| - i
      {
        FillOne(partial, obj, i, graph);
        i := i + 1;
      }
      assert !obj.kind.PyList? ==> obj.keys[..|obj.vals|] == obj.keys;
    }

    method FillOne(partial: Obj, obj: Obj, i: nat, ghost graph: set<Obj>)
      requires Closed(graph) && obj in graph && MemoOk(seen, graph) && obj in seen && seen[obj] == partial
      requires i < |obj.vals| && FilledTo(seen, partial, obj, i)
      modifies this, partial
      ensures Grows(old(seen), seen) && MemoOk(seen, graph) && FilledTo(seen, partial, obj, i + 1)
      ensures forall o | o in seen && o !in old(seen) :: fresh(seen[o]) && CopyDone(seen, o)
      ensures forall o | o in old(seen) && o != obj && old(CopyDone(seen, o)) :: CopyDone(seen, o)
      decreases graph - seen.Keys, 0, 1
    {
      assert obj.vals[i] in obj.vals;
      ghost var mid := seen;
      assert partial in seen.Values;
      var c := UnmunchifyCycles(obj.vals[i], graph);
      FilledStays(mid, seen, partial, obj, i);
      assert partial in seen.Values by { assert seen[obj] == partial; }
      partial.vals := partial.vals + [c];
      if !obj.kind.PyList? { partial.keys := partial.keys + [obj.keys[i]]; }
      forall o | o in seen && o != obj ensures o != partial && seen[o] != partial {
        assert o in graph && seen[obj] == partial;
      }
      forall o | o in mid && o != obj && old(CopyDone(seen, o)) ensures CopyDone(seen, o) {
        assert o != partial && mid[o] != partial;
      }
    }

    // MAIN: on every finite graph, cycles and sharing included, the copy terminates and is an
    // isomorphic image made of new objects; the input is left as it was.
    method Unmunchify(v: Value, ghost graph: set<Obj>) returns (r: Value)
      requires Reachable(graph, v) && seen == map[]
      modifies this
      ensures Isomorphic(graph, seen) && r == Copied(seen, v)
      ensures fresh(seen.Values)
      ensures forall o | o in graph :: if o.kind.PyList? then seen[o].kind.PyList? else seen[o].kind.PlainDict?
    {
      r := UnmunchifyCycles(v, graph);
      assert Closed(seen.Keys) by {
        forall o, x | o in seen.Keys && x in o.vals && x.Ref? ensures x.obj in seen.Keys {
          assert CopyDone(seen, o);
          var i :| 0 <= i < |o.vals| && o.vals[i] == x;
        }
      }
      assert seen.Keys == graph;
      NoMunchLeft(graph, seen);
    }
  }

  // ---------------------------------------------------------------- what isomorphic means

  // Following positions from a value; None off the end or through an atom.
  ghost function Follow(graph: set<Obj>, v: Value, steps: seq<nat>): Option<Value>
    reads graph
    decreases |steps|
  {
    if steps == [] then Some(v)
    else if v.Atom? || v.obj !in graph || steps[0] >= |v.obj.vals| then None
    else Follow(graph, v.obj.vals[steps[0]], steps[1..])
  }

  // MAIN: every walk through the copy mirrors the same walk through the original, so no
  // observer that follows keys and positions can tell them apart, except by kind.
  lemma {:induction false} CopyIsIndistinguishable(graph: set<Obj>, m: Memo, v: Value, steps: seq<nat>)
    requires Closed(graph) && Isomorphic(graph, m) && (v.Ref? ==> v.obj in graph)
    ensures var a := Follow(graph, v, steps); var b := Follow(m.Values, Copied(m, v), steps);
            && a.Some? == b.Some?
            && (a.Some? ==> b.value == Copied(m, a.value) && a.value.Atom? == b.value.Atom?)
            && (a.Some? && a.value.Ref? ==>
                  && a.value.obj in graph
                  && b.value.obj.keys == a.value.obj.keys
                  && (b.value.obj.kind == if a.value.obj.kind.PyList? then PyList else PlainDict))
    decreases |steps|
  {
    if v.Ref? {
      assert CopyDone(m, v.obj);
      assert m[v.obj] in m.Values;
      if steps != [] && steps[0] < |v.obj.vals| {
        assert v.obj.vals[steps[0]] in v.obj.vals;
        CopyIsIndistinguishable(graph, m, v.obj.vals[steps[0]], steps[1..]);
      }
    }
  }

  // Two walks meet in the copy exactly when they meet in the original: sharing is kept.
  lemma SharingIsKept(graph: set<Obj>, m: Memo, v: Value, s1: seq<nat>, s2: seq<nat>)
    requires Closed(graph) && Isomorphic(graph, m) && (v.Ref? ==> v.obj in graph)
    requires Follow(graph, v, s1).Some? && Follow(graph, v, s2).Some?
    ensures Follow(graph, v, s1) == Follow(graph, v, s2)
       <==> Follow(m.Values, Copied(m, v), s1) == Follow(m.Values, Copied(m, v), s2)
  {
    CopyIsIndistinguishable(graph, m, v, s1);
    CopyIsIndistinguishable(graph, m, v, s2);
  }
}
