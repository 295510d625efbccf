/**
 From one side to the other: what a value holding callables and generators is once it has been
 encoded, sent and decoded, and that its references lead back to what was stored.
 */
module Delivery {
  import opened Wrappers
  import opened Frames
  import opened Values
  import opened Codec
  import opened CallbackRefs
  import OS = ObjectStore

  // No registered codec takes a kind that the encoder writes.
  predicate OwnKindsFree(codecs: set<string>) {
    KindsFree(codecs) && "method" !in codecs && "generator" !in codecs
  }

  // ---------------------------------------------------------------- single references

  // MAIN: the reference of a callable decodes to a remote function with the same path.
  lemma MethodRefDecodes(codecs: set<string>, path: string, fast: bool)
    requires "method" !in codecs
    ensures Decode(MethodRef(path), codecs, fast) == Some(Remote(path))
  {
    var keys, vals := [RTYPE, RMETHOD], [Str("method"), Str(path)];
    assert IndexOf(keys, RTYPE) == 0 && IndexOf(keys, RMETHOD) == 1 + IndexOf(keys[1..], RMETHOD) == 1;
    assert Decode(MethodRef(path), codecs, fast) == DecodeTyped(keys, vals, Str("method"), codecs, fast);
  }

  // MAIN: and that of a generator to one with the same two paths.
  lemma GeneratorRefDecodes(codecs: set<string>, next: string, close: string, fast: bool)
    requires "generator" !in codecs
    ensures Decode(GeneratorRef(next, close), codecs, fast) == Some(RemoteGenerator(next, Some(close)))
  {
    var keys, vals := [RTYPE, RMETHOD, RCLOSE], [Str("generator"), Str(next), Str(close)];
    assert IndexOf(keys, RTYPE) == 0 && IndexOf(keys, RMETHOD) == 1 + IndexOf(keys[1..], RMETHOD) == 1;
    assert keys[1..][1..] == [RCLOSE];
    assert IndexOf(keys, RCLOSE) == 1 + IndexOf(keys[1..], RCLOSE) == 2 + IndexOf([RCLOSE], RCLOSE) == 2;
    assert Decode(GeneratorRef(next, close), codecs, fast) == DecodeTyped(keys, vals, Str("generator"), codecs, fast);
  }

  // A generator of an older client, without a close method.
  lemma OldGeneratorRefDecodes(codecs: set<string>, next: string, fast: bool)
    requires "generator" !in codecs
    ensures Decode(Dict([RTYPE, RMETHOD], [Str("generator"), Str(next)]), codecs, fast)
         == Some(RemoteGenerator(next, None))
  {
    var keys, vals := [RTYPE, RMETHOD], [Str("generator"), Str(next)];
    assert IndexOf(keys, RTYPE) == 0 && IndexOf(keys, RMETHOD) == 1 + IndexOf(keys[1..], RMETHOD) == 1;
    assert RCLOSE !in keys;
    assert Decode(Dict(keys, vals), codecs, fast) == DecodeTyped(keys, vals, Str("generator"), codecs, fast);
  }

  // A method of a service that is annotated already arrives under its method id, and the session is
  // left alone: nothing is stored for it.
  lemma AnnotatedArrives(codecs: set<string>, env: Env, id: nat, name: string, st: Session, fast: bool)
    requires "method" !in codecs && id in env.notes
    ensures var r := Encode(env, Function(id, name), st, fast);
      r.1 == st && Decode(r.0, codecs, fast) == Some(Remote(env.notes[id]))
  {
    MethodRefDecodes(codecs, env.notes[id], fast);
  }

  // A remote function that is passed on keeps its path.
  lemma RemotePassedOn(codecs: set<string>, env: Env, path: string, st: Session, fast: bool)
    requires "method" !in codecs
    ensures var r := Encode(env, Remote(path), st, fast); r.1 == st && Decode(r.0, codecs, fast) == Some(Remote(path))
  {
    MethodRefDecodes(codecs, path, fast);
  }

  // A set written as a string, which no encoder of this side does, is the set of its characters.
  lemma SetOfString(codecs: set<string>, s: string, k: nat)
    requires KindsFree(codecs) && k < |s|
    ensures var d := Decode(SetRef(Str(s)), codecs, false);
      d.Some? && d.value.Set? && |d.value.items| == |s| && d.value.items[k] == Str([s[k]])
  {
    DecodeSetRef(codecs, Str(s));
  }

  // Tuples and lists on the wire arrive alike.
  lemma TuplesArriveAsLists(codecs: set<string>, items: seq<Py>, fast: bool)
    ensures Decode(Tuple(items), codecs, fast) == Decode(List(items), codecs, fast)
    ensures var d := Decode(Tuple(items), codecs, fast); d.Some? ==> d.value.List? && |d.value.items| == |items|
  {
  }

  // A foreign type of the protocol, taken by no codec, reaches its own decoder as it came.
  lemma ForeignReachesDecoder(codecs: set<string>, keys: seq<string>, vals: seq<Py>, name: string)
    requires name in {"ndarray", "iostream", "typedarray", "orderedmap", "error"} && name !in codecs
    requires RTYPE !in keys && |vals| == |keys|
    ensures var (ks, vs) := (keys + [RTYPE], vals + [Str(name)]);
      Decode(Dict(ks, vs), codecs, false) == Some(Foreign(Dict(ks, vs)))
  {
    TypeLast(codecs, keys, vals, Str(name));
  }

  // A registered codec is asked before the built-in kinds, whatever its name, and gets the decoded rest.
  lemma CodecsComeFirst(codecs: set<string>, keys: seq<string>, es: seq<Py>, name: string)
    requires name in codecs && RTYPE !in keys && |es| == |keys|
    ensures Decode(Dict(keys + [RTYPE], es + [Str(name)]), codecs, false) ==
      match DecodeAll(es, codecs, false)
      case Some(vs) => Some(Foreign(Proxy(keys, vs)))
      case None => None
  {
    TypeLast(codecs, keys, es, Str(name));
  }

  // ---------------------------------------------------------------- whole values

  // Values as they are passed to calls: data, callables, generators and remote functions, in
  // containers that do not use the reserved key.
  predicate Sendable(v: Py) {
    match v
    case List(items) => forall x <- items :: Sendable(x)
    case Tuple(items) => forall x <- items :: Sendable(x)
    case Set(items) => forall x <- items :: Sendable(x)
    case Dict(keys, vals) => RTYPE !in keys && forall x <- vals :: Sendable(x)
    case Proxy(keys, vals) => RTYPE !in keys && forall x <- vals :: Sendable(x)
    case _ => Single(v)
  }

  // What a set can hold on arrival.
  predicate Single(v: Py) {
    Primitive(v) || v.MemoryView? || v.Function? || v.Generator? || v.Remote?
  }

  // No set holds a container.
  predicate Deliverable(v: Py) {
    match v
    case List(items) => forall x <- items :: Deliverable(x)
    case Tuple(items) => forall x <- items :: Deliverable(x)
    case Set(items) => forall x <- items :: Single(x)
    case Dict(_, vals) => forall x <- vals :: Deliverable(x)
    case Proxy(_, vals) => forall x <- vals :: Deliverable(x)
    case _ => true
  }

  // `d` is what arrives of `v`: the same data in the same places, and remote functions and
  // generators whose paths lead through the sender's store to the originals.
  ghost predicate Arrived(root: OS.Tree, v: Py, d: Py)
    decreases v, 1
  {
    match v
    case Function(id, _) => d.Remote? && LeadsTo(root, d.path, OS.User(id))
    case Generator(id) =>
      && d.RemoteGenerator? && d.close.Some?
      && LeadsTo(root, d.next, OS.NextItem(id)) && LeadsTo(root, d.close.value, OS.CloseGenerator(id))
    case List(items) => d.List? && AllArrived(root, items, d.items)
    case Tuple(items) => d.List? && AllArrived(root, items, d.items)
    case Set(items) => d.Set? && AllArrived(root, items, d.items)
    case Dict(keys, vals) => d.Proxy? && d.keys == keys && AllArrived(root, vals, d.vals)
    case Proxy(keys, vals) => d.Proxy? && d.keys == keys && AllArrived(root, vals, d.vals)
    case _ => d == v
  }

  ghost predicate AllArrived(root: OS.Tree, items: seq<Py>, ds: seq<Py>)
    decreases items, 0
  {
    |items| == |ds| && forall i | 0 <= i < |items| :: Arrived(root, items[i], ds[i])
  }

  // Decoded, or failed where a set cannot be built again.
  ghost predicate Delivered(root: OS.Tree, v: Py, d: Option<Py>) {
    if Deliverable(v) then d.Some? && Arrived(root, v, d.value) else d.None?
  }

  ghost predicate AllDelivered(root: OS.Tree, items: seq<Py>, ds: Option<seq<Py>>) {
    if forall x <- items :: Deliverable(x) then ds.Some? && AllArrived(root, items, ds.value) else ds.None?
  }

  lemma FunctionArrives(codecs: set<string>, root: OS.Tree, v: Py, e: Py)
    requires OwnKindsFree(codecs) && v.Function? && Resolves(root, v, e)
    ensures Delivered(root, v, Decode(e, codecs, false))
  {
    var path :| e == MethodRef(path) && LeadsTo(root, path, OS.User(v.id));
    MethodRefDecodes(codecs, path, false);
  }

  lemma GeneratorArrives(codecs: set<string>, root: OS.Tree, v: Py, e: Py)
    requires OwnKindsFree(codecs) && v.Generator? && Resolves(root, v, e)
    ensures Delivered(root, v, Decode(e, codecs, false))
  {
    var next, close :| e == GeneratorRef(next, close)
      && LeadsTo(root, next, OS.NextItem(v.id)) && LeadsTo(root, close, OS.CloseGenerator(v.id));
    GeneratorRefDecodes(codecs, next, close, false);
  }

  lemma ViewDecodes(codecs: set<string>, data: bytes)
    requires KindsFree(codecs)
    ensures Decode(ViewRef(data), codecs, false) == Some(MemoryView(data))
  {
    var keys, vals := [RTYPE, RVALUE], [Str("memoryview"), Bytes(data)];
    assert IndexOf(keys, RTYPE) == 0 && IndexOf(keys, RVALUE) == 1 + IndexOf(keys[1..], RVALUE) == 1;
    assert Decode(ViewRef(data), codecs, false) == DecodeTyped(keys, vals, Str("memoryview"), codecs, false);
  }

  // What arrived of an item can be put into a set exactly when the item was no container.
  lemma SettableIff(root: OS.Tree, v: Py, d: Py)
    requires Sendable(v) && Arrived(root, v, d)
    ensures Hashable(d) <==> Single(v)
  {
  }

  lemma SetArrives(codecs: set<string>, root: OS.Tree, items: seq<Py>, es: seq<Py>)
    requires OwnKindsFree(codecs) && (forall x <- items :: Sendable(x)) && |items| == |es|
    requires AllDelivered(root, items, DecodeAll(es, codecs, false))
    ensures Delivered(root, Set(items), Decode(SetRef(List(es)), codecs, false))
  {
    DecodeSetRef(codecs, List(es));
    var ds := DecodeAll(es, codecs, false);
    if ds.Some? {
      forall i | 0 <= i < |items| ensures Hashable(ds.value[i]) <==> Single(items[i]) {
        assert items[i] in items;
        SettableIff(root, items[i], ds.value[i]);
      }
      HashableAll(items, ds.value);
    } else {
      assert exists x :: x in items && !Deliverable(x);
    }
  }

  lemma HashableAll(items: seq<Py>, ds: seq<Py>)
    requires |items| == |ds| && forall i | 0 <= i < |items| :: Hashable(ds[i]) <==> Single(items[i])
    ensures (forall d <- ds :: Hashable(d)) <==> (forall x <- items :: Single(x))
  {
    if forall d <- ds :: Hashable(d) {
      forall x | x in items ensures Single(x) {
        var i :| 0 <= i < |items| && items[i] == x;
        assert ds[i] in ds;
      }
    }
    if forall x <- items :: Single(x) {
      forall d | d in ds ensures Hashable(d) {
        var i :| 0 <= i < |ds| && ds[i] == d;
        assert items[i] in items;
      }
    }
  }

  lemma {:induction false} RefsArrive(codecs: set<string>, root: OS.Tree, v: Py, e: Py)
    requires OwnKindsFree(codecs) && Sendable(v) && Resolves(root, v, e)
    ensures Delivered(root, v, Decode(e, codecs, false))
    decreases v, 1
  {
    match v
    case Function(_, _) => FunctionArrives(codecs, root, v, e);
    case Generator(_) => GeneratorArrives(codecs, root, v, e);
    case Remote(path) => MethodRefDecodes(codecs, path, false);
    case MemoryView(data) => ViewDecodes(codecs, data);
    case List(items) => AllRefsArrive(codecs, root, items, e.items);
    case Tuple(items) => AllRefsArrive(codecs, root, items, e.items);
    case Dict(keys, vals) => DictArrives(codecs, root, keys, vals, e);
    case Proxy(keys, vals) => DictArrives(codecs, root, keys, vals, e);
    case Set(items) =>
      var es :| e == SetRef(List(es)) && AllResolve(root, items, es);
      AllRefsArrive(codecs, root, items, es);
      SetArrives(codecs, root, items, es);
    case _ =>
  }

  lemma {:induction false} DictArrives(codecs: set<string>, root: OS.Tree, keys: seq<string>, vals: seq<Py>, e: Py)
    requires OwnKindsFree(codecs) && RTYPE !in keys && (forall x <- vals :: Sendable(x))
    requires DictResolves(root, keys, vals, e)
    ensures Delivered(root, Dict(keys, vals), Decode(e, codecs, false))
    ensures Delivered(root, Proxy(keys, vals), Decode(e, codecs, false))
    decreases vals, 1
  {
    assert IndexOf(keys, RTYPE) == |keys|;
    AllRefsArrive(codecs, root, vals, e.vals);
    assert Decode(e, codecs, false) == DecodeDict(keys, e.vals, codecs, false);
  }

  lemma {:induction false} AllRefsArrive(codecs: set<string>, root: OS.Tree, items: seq<Py>, es: seq<Py>)
    requires OwnKindsFree(codecs) && (forall x <- items :: Sendable(x)) && AllResolve(root, items, es)
    ensures AllDelivered(root, items, DecodeAll(es, codecs, false))
    decreases items, 0
  {
    if items != [] {
      var n := |items| - 1;
      assert items == items[..n] + [items[n]] && es == es[..n] + [es[n]];
      assert forall x :: x in items <==> x in items[..n] || x == items[n];
      AllRefsArrive(codecs, root, items[..n], es[..n]);
      RefsArrive(codecs, root, items[n], es[n]);
      DecodeSnoc(codecs, es[..n], es[n]);
    }
  }

  // MAIN: any value with any number of callables and generators, encoded and decoded, fast paths and
  // all: everything arrives in its place, each remote function leads through the sender's store to
  // the callable at the same position and each remote generator to both its methods; decoding
  // fails exactly when a set holds a container.
  lemma EncodedValuesArrive(codecs: set<string>, env: Env, v: Py, st: Session)
    requires OwnKindsFree(codecs) && Sendable(v) && Ready(env, st) && NamesOk(env, v)
    ensures var r := Encode(env, v, st, true);
      Delivered(r.1.root, v, Decode(r.0, codecs, true))
  {
    EncodeFastIsSlow(env, v, st);
    EncodedRefsResolve(env, v, st);
    var r := Encode(env, v, st, false);
    RefsArrive(codecs, r.1.root, v, r.0);
    DecodeFastIsSlow(codecs, r.0);
  }
}
