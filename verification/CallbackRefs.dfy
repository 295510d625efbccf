/**
 The callables inside encoded arguments: each is stored in the session under a fresh id, and
 the reference sent to the peer leads back to it through the store.
 */
module CallbackRefs {
  import opened Wrappers
  import opened Values
  import opened Codec
  import OS = ObjectStore

  const ID_LENGTH := 22

  // shortuuid: ids of one length, without dots, never the same twice.
  ghost predicate GoodSupply(uuid: nat -> string) {
    && (forall i: nat :: |uuid(i)| == ID_LENGTH && OS.DotFree(uuid(i)))
    && (forall i: nat, j: nat | i != j :: uuid(i) != uuid(j))
  }

  // No entry of the session was made with an id still to come.
  ghost predicate NoClash(env: Env, st: Session)
    requires Open(st.root, Levels(env), env.now)
  {
    forall k, i: nat | k in Opened(st.root, Levels(env), env.now) && st.next <= i :: !(env.uuid(i) <= k)
  }

  // Every entry that resolved still resolves to the same.
  ghost predicate Extends(a: OS.Tree, b: OS.Tree) {
    forall q: OS.Path, x | q != [] && OS.Lookup(a, q) == Some(OS.Leaf(x)) :: OS.Lookup(b, q) == Some(OS.Leaf(x))
  }

  // A dotted reference leads to this callable.
  predicate LeadsTo(root: OS.Tree, path: string, f: OS.Function) {
    OS.Lookup(root, OS.Split(path)) == Some(OS.Leaf(OS.Callable(f)))
  }

  ghost predicate NotesResolve(env: Env, root: OS.Tree) {
    forall id | id in env.notes :: LeadsTo(root, env.notes[id], OS.User(id))
  }

  // The references in `e` lead to the callables at the same positions of `v`.
  ghost predicate Resolves(root: OS.Tree, v: Py, e: Py)
    decreases v, 1
  {
    match v
    case Function(id, _) => exists path :: e == MethodRef(path) && LeadsTo(root, path, OS.User(id))
    case Generator(id) =>
      exists next, close :: e == GeneratorRef(next, close)
        && LeadsTo(root, next, OS.NextItem(id)) && LeadsTo(root, close, OS.CloseGenerator(id))
    case List(items) => e.List? && AllResolve(root, items, e.items)
    case Tuple(items) => e.List? && AllResolve(root, items, e.items)
    case Set(items) => exists es :: e == SetRef(List(es)) && AllResolve(root, items, es)
    case Dict(keys, vals) => DictResolves(root, keys, vals, e)
    case Proxy(keys, vals) => DictResolves(root, keys, vals, e)
    case MemoryView(data) => e == ViewRef(data)
    case Remote(path) => e == MethodRef(path)
    case _ => e == v
  }

  // A dictionary keeps its keys in place; an `_rtype` entry moves to the end unencoded.
  ghost predicate DictResolves(root: OS.Tree, keys: seq<string>, vals: seq<Py>, e: Py)
    decreases vals, 1
  {
    var i := IndexOf(keys, RTYPE);
    if i < |keys| && i < |vals| then
      exists es :: e == Dict(DropAt(keys, i) + [RTYPE], es + [vals[i]]) && AllResolve(root, DropAt(vals, i), es)
    else e.Dict? && e.keys == keys && AllResolve(root, vals, e.vals)
  }

  ghost predicate AllResolve(root: OS.Tree, items: seq<Py>, es: seq<Py>)
    decreases items, 0
  {
    |items| == |es| && forall i | 0 <= i < |items| :: Resolves(root, items[i], es[i])
  }

  // The names that become part of an object id hold no dot.
  predicate NamesOk(env: Env, v: Py)
    decreases v, 1
  {
    match v
    case Function(id, name) => id in env.notes || OS.DotFree(name)
    case List(items) => AllNamesOk(env, items)
    case Tuple(items) => AllNamesOk(env, items)
    case Set(items) => AllNamesOk(env, items)
    case Dict(_, vals) => AllNamesOk(env, vals)
    case Proxy(_, vals) => AllNamesOk(env, vals)
    case _ => true
  }

  predicate AllNamesOk(env: Env, items: seq<Py>)
    decreases items, 0
  {
    forall i | 0 <= i < |items| :: NamesOk(env, items[i])
  }

  // ---------------------------------------------------------------- storing one entry

  lemma {:induction false} DictOnTheWay(d: OS.Tree, path: OS.Path, q: OS.Path)
    requires OS.DictAt(d, path).Some? && q != [] && q <= path
    ensures OS.Lookup(d, q).Some? && OS.Lookup(d, q).value.Dict?
    decreases |q|
  {
    if |q| > 1 {
      OS.PrefixStep(q, path);
      DictOnTheWay(d[path[0]].entries, path[1..], q[1..]);
    }
  }

  lemma {:induction false} LeafBlocks(d: OS.Tree, path: OS.Path, q: OS.Path, top: bool, now: int)
    requires q != [] && q < path && OS.Lookup(d, q).Some? && OS.Lookup(d, q).value.Leaf?
    ensures OS.Create(d, path, top, now).None?
    decreases |q|
  {
    if |q| > 1 {
      OS.PrefixStep(q, path);
      LeafBlocks(d[path[0]].entries, path[1..], q[1..], false, now);
    }
  }

  lemma CreateExtends(root: OS.Tree, path: OS.Path, now: int)
    requires path != [] && Open(root, path, now)
    ensures Extends(root, OS.Create(root, path, true, now).value)
  {
    var c := OS.Create(root, path, true, now).value;
    OS.CreateLaw(root, path, true, now);
    forall q: OS.Path, x | q != [] && OS.Lookup(root, q) == Some(OS.Leaf(x))
      ensures OS.Lookup(c, q) == Some(OS.Leaf(x))
    {
      if q < path {
        LeafBlocks(root, path, q, true, now);
      } else if path <= q {
        PrefixPresent(root, path, q);
      } else {
        OS.CreateElsewhere(root, path, true, now, q);
      }
    }
  }

  lemma {:induction false} PrefixPresent(d: OS.Tree, path: OS.Path, q: OS.Path)
    requires path != [] && path <= q && OS.Present(d, q)
    ensures OS.Present(d, path)
    decreases |path|
  {
    if |path| > 1 {
      OS.PrefixStep(path, q);
      PrefixPresent(d[path[0]].entries, path[1..], q[1..]);
    }
  }

  // MAIN: storing under a new key makes exactly that key resolve, and disturbs no entry.
  lemma PutLaw(root: OS.Tree, path: OS.Path, now: int, key: string, item: OS.Item)
    requires path != [] && Open(root, path, now) && key !in Opened(root, path, now)
    ensures var r := Put(root, path, now, key, item);
            && OS.Lookup(r, path + [key]) == Some(OS.Leaf(item))
            && Extends(root, r)
            && Open(r, path, now)
            && Opened(r, path, now) == Opened(root, path, now)[key := OS.Leaf(item)]
  {
    var c := OS.Create(root, path, true, now).value;
    var before := Opened(root, path, now);
    var after := before[key := OS.Leaf(item)];
    var r := Put(root, path, now, key, item);
    CreateExtends(root, path, now);
    OS.SetAtInside(c, path, after, [key]);
    OS.DictAtSetAt(c, path, after);
    OS.DictAtIsLookup(r, path);
    CreatePresent(r, path, now);
    forall q: OS.Path, x | q != [] && OS.Lookup(c, q) == Some(OS.Leaf(x)) ensures OS.Lookup(r, q) == Some(OS.Leaf(x)) {
      if q <= path {
        DictOnTheWay(c, path, q);
      } else if path <= q {
        var below := q[|path|..];
        assert q == path + below;
        OS.SetAtInside(c, path, after, below);
        OS.LookupSplits(c, path, below);
      } else {
        OS.SetAtElsewhere(c, path, after, q);
      }
    }
  }

  lemma CreatePresent(d: OS.Tree, path: OS.Path, now: int)
    requires path != [] && OS.DictAt(d, path).Some?
    ensures OS.Create(d, path, true, now) == Some(d)
  {
    OS.DictAtIsLookup(d, path);
    CreatePresentSome(d, path, true, now);
    OS.CreateLaw(d, path, true, now);
  }

  lemma {:induction false} CreatePresentSome(d: OS.Tree, path: OS.Path, top: bool, now: int)
    requires path != [] && OS.Present(d, path)
    ensures OS.Create(d, path, top, now).Some?
    decreases |path|
  {
    if |path| > 1 { CreatePresentSome(d[path[0]].entries, path[1..], false, now); }
  }

  // ---------------------------------------------------------------- encoding

  ghost predicate Ready(env: Env, st: Session) {
    && GoodSupply(env.uuid)
    && Open(st.root, Levels(env), env.now)
    && NoClash(env, st)
    && NotesResolve(env, st.root)
  }

  // What one piece of encoding does to the session.
  ghost predicate Grown(env: Env, st: Session, st': Session) {
    Ready(env, st') && Extends(st.root, st'.root) && st.next <= st'.next
  }

  lemma SamePrefix(a: string, b: string, k: string)
    ensures a <= k && b <= k && |a| == |b| ==> a == b
  {
  }

  // One entry stored under an id just drawn.
  lemma StoreOne(env: Env, st: Session, root: OS.Tree, key: string, f: OS.Function)
    requires Ready(env, st) && Open(root, Levels(env), env.now) && Extends(st.root, root)
    requires env.uuid(st.next) <= key && key !in Opened(root, Levels(env), env.now)
    requires forall k, i: nat | k in Opened(root, Levels(env), env.now) && st.next + 1 <= i :: !(env.uuid(i) <= k)
    ensures var r := Put(root, Levels(env), env.now, key, OS.Callable(f));
            && Grown(env, st, Session(r, st.next + 1))
            && Extends(root, r)
            && Opened(r, Levels(env), env.now) == Opened(root, Levels(env), env.now)[key := OS.Leaf(OS.Callable(f))]
            && (OS.DotFree(key) ==> LeadsTo(r, env.session + "." + key, f))
  {
    PutLaw(root, Levels(env), env.now, key, OS.Callable(f));
    var r := Put(root, Levels(env), env.now, key, OS.Callable(f));
    forall k, i: nat | k in Opened(r, Levels(env), env.now) && st.next + 1 <= i ensures !(env.uuid(i) <= k) {
      SamePrefix(env.uuid(i), env.uuid(st.next), k);
    }
    if OS.DotFree(key) {
      OS.SplitConcat(env.session, key);
      OS.SplitDotFree(key);
    }
  }

  lemma DotFreeConcat(a: string, b: string)
    ensures OS.DotFree(a + b) <==> OS.DotFree(a) && OS.DotFree(b)
  {
    assert forall c :: c in a + b <==> c in a || c in b;
  }

  // MAIN: the reference to a stored callable resolves exactly when its name holds no dot.
  lemma FunctionResolvesIff(env: Env, id: nat, name: string, st: Session)
    requires Ready(env, st) && id !in env.notes
    ensures var r := EncodeFunction(env, id, name, st);
            && Grown(env, st, r.1)
            && r.0.Dict? && |r.0.vals| == 2 && r.0.vals[1].Str?
            && (LeadsTo(r.1.root, r.0.vals[1].s, OS.User(id)) <==> OS.DotFree(name))
  {
    var u := env.uuid(st.next);
    var key := ObjectId(u, name);
    assert u <= key;
    StoreOne(env, st, st.root, key, OS.User(id));
    DotFreeConcat(u, "#");
    DotFreeConcat(u + "#", name);
    assert u + "#" + name == (u + "#") + name;
    if !OS.DotFree(name) {
      var r := EncodeFunction(env, id, name, st);
      OS.SplitConcat(env.session, key);
      OS.SplitDotted(key);
      SplitStarts(u, "#" + name);
      assert u + ("#" + name) == key;
      DottedIsLost(r.1.root, Levels(env), OS.Split(key), env, st, key, OS.User(id));
    }
  }

  lemma {:induction false} SplitStarts(u: string, rest: string)
    requires OS.DotFree(u)
    ensures u <= OS.Split(u + rest)[0]
  {
    if u != "" {
      SplitStarts(u[1..], rest);
      assert (u + rest)[1..] == u[1..] + rest;
    }
  }

  // The first level of a dotted key is a proper piece of it, and no such entry exists.
  lemma DottedIsLost(root: OS.Tree, path: OS.Path, levels: OS.Path, env: Env, st: Session, key: string, f: OS.Function)
    requires Ready(env, st) && path == Levels(env) && levels == OS.Split(key) && |levels| > 1
    requires env.uuid(st.next) <= levels[0]
    requires root == Put(st.root, path, env.now, key, OS.Callable(f)) && env.uuid(st.next) <= key
    ensures OS.Lookup(root, path + levels).None?
  {
    PutLaw(st.root, path, env.now, key, OS.Callable(f));
    PrefixPresent(root, path, path + [key]);
    CreateLawAt(root, path, env.now);
    OS.LookupSplits(root, path, levels);
    var d := OS.DictAt(root, path).value;
    if levels[0] in d {
      OS.SplitLevelsDotFree(key);
      if levels[0] == key { OS.SplitDotted(key); }
    }
  }

  lemma CreateLawAt(root: OS.Tree, path: OS.Path, now: int)
    requires path != [] && Open(root, path, now) && OS.Present(root, path)
    ensures OS.DictAt(root, path).Some? && Opened(root, path, now) == OS.DictAt(root, path).value
  {
    OS.CreateLaw(root, path, true, now);
  }

  lemma LeadsToStays(a: OS.Tree, b: OS.Tree, path: string, f: OS.Function)
    requires Extends(a, b) && LeadsTo(a, path, f)
    ensures LeadsTo(b, path, f)
  {
  }

  // The close entry, stored after the next entry.
  lemma StoreClose(env: Env, id: nat, st: Session, root: OS.Tree)
    requires Ready(env, st)
    requires root == Put(st.root, Levels(env), env.now, env.uuid(st.next), OS.Callable(OS.NextItem(id)))
    ensures var close := env.uuid(st.next) + ":close";
      var r := Put(root, Levels(env), env.now, close, OS.Callable(OS.CloseGenerator(id)));
      && Grown(env, st, Session(r, st.next + 1)) && Extends(root, r)
      && LeadsTo(root, env.session + "." + env.uuid(st.next), OS.NextItem(id))
      && LeadsTo(r, env.session + "." + close, OS.CloseGenerator(id))
  {
    var key := env.uuid(st.next);
    StoreOne(env, st, st.root, key, OS.NextItem(id));
    assert key <= key + ":close";
    StoreOne(env, st, root, key + ":close", OS.CloseGenerator(id));
    DotFreeConcat(key, ":close");
  }

  lemma GeneratorResolves(env: Env, id: nat, st: Session)
    requires Ready(env, st)
    ensures var r := EncodeGenerator(env, id, st);
            Grown(env, st, r.1) && Resolves(r.1.root, Generator(id), r.0)
  {
    var key := env.uuid(st.next);
    var root := Put(st.root, Levels(env), env.now, key, OS.Callable(OS.NextItem(id)));
    StoreClose(env, id, st, root);
    LeadsToStays(root, EncodeGenerator(env, id, st).1.root, env.session + "." + key, OS.NextItem(id));
  }

  // Later entries do not disturb references already made.
  lemma {:induction false} ResolvesStays(a: OS.Tree, b: OS.Tree, v: Py, e: Py)
    requires Extends(a, b) && Resolves(a, v, e)
    ensures Resolves(b, v, e)
    decreases v, 1
  {
    match v
    case List(items) => AllStays(a, b, items, e.items);
    case Tuple(items) => AllStays(a, b, items, e.items);
    case Set(items) =>
      var es :| e == SetRef(List(es)) && AllResolve(a, items, es);
      AllStays(a, b, items, es);
    case Dict(keys, vals) => DictStays(a, b, keys, vals, e);
    case Proxy(keys, vals) => DictStays(a, b, keys, vals, e);
    case Function(id, _) =>
      var path :| e == MethodRef(path) && LeadsTo(a, path, OS.User(id));
      assert LeadsTo(b, path, OS.User(id));
    case Generator(id) =>
      var next, close :| e == GeneratorRef(next, close)
        && LeadsTo(a, next, OS.NextItem(id)) && LeadsTo(a, close, OS.CloseGenerator(id));
      assert LeadsTo(b, next, OS.NextItem(id)) && LeadsTo(b, close, OS.CloseGenerator(id));
    case _ =>
  }

  lemma {:induction false} DictStays(a: OS.Tree, b: OS.Tree, keys: seq<string>, vals: seq<Py>, e: Py)
    requires Extends(a, b) && DictResolves(a, keys, vals, e)
    ensures DictResolves(b, keys, vals, e)
    decreases vals, 1
  {
    var i := IndexOf(keys, RTYPE);
    if i < |keys| && i < |vals| {
      var es :| e == Dict(DropAt(keys, i) + [RTYPE], es + [vals[i]]) && AllResolve(a, DropAt(vals, i), es);
      AllStays(a, b, DropAt(vals, i), es);
    } else {
      AllStays(a, b, vals, e.vals);
    }
  }

  lemma {:induction false} AllStays(a: OS.Tree, b: OS.Tree, items: seq<Py>, es: seq<Py>)
    requires Extends(a, b) && AllResolve(a, items, es)
    ensures AllResolve(b, items, es)
    decreases items, 0
  {
    forall i | 0 <= i < |items| ensures Resolves(b, items[i], es[i]) {
      ResolvesStays(a, b, items[i], es[i]);
    }
  }

  // MAIN: after encoding any nested value, every reference in the output leads through the
  // store to the callable at the same position, and every older entry resolves as before.
  lemma {:induction false} EncodedRefsResolve(env: Env, v: Py, st: Session)
    requires Ready(env, st) && NamesOk(env, v)
    ensures var r := Encode(env, v, st, false);
            Grown(env, st, r.1) && Resolves(r.1.root, v, r.0)
    decreases v, 2
  {
    match v
    case List(items) => EncodedAllResolve(env, items, st);
    case Tuple(items) => EncodedAllResolve(env, items, st);
    case Set(items) => EncodedAllResolve(env, items, st);
    case Dict(keys, vals) => EncodedDictResolves(env, keys, vals, st);
    case Proxy(keys, vals) => EncodedDictResolves(env, keys, vals, st);
    case Function(id, name) =>
      if id in env.notes {
        assert LeadsTo(st.root, env.notes[id], OS.User(id));
      } else {
        FunctionResolvesIff(env, id, name, st);
      }
    case Generator(id) => GeneratorResolves(env, id, st);
    case _ =>
  }

  lemma {:induction false} EncodedDictResolves(env: Env, keys: seq<string>, vals: seq<Py>, st: Session)
    requires Ready(env, st) && AllNamesOk(env, vals)
    ensures var r := EncodeDict(env, keys, vals, st, false);
            Grown(env, st, r.1) && DictResolves(r.1.root, keys, vals, r.0)
    decreases vals, 1
  {
    var i := IndexOf(keys, RTYPE);
    if i < |keys| && i < |vals| {
      assert AllNamesOk(env, DropAt(vals, i));
      EncodedAllResolve(env, DropAt(vals, i), st);
    } else {
      EncodedAllResolve(env, vals, st);
    }
  }

  lemma {:induction false} EncodedAllResolve(env: Env, items: seq<Py>, st: Session)
    requires Ready(env, st) && AllNamesOk(env, items)
    ensures var r := EncodeAll(env, items, st, false);
            Grown(env, st, r.1) && AllResolve(r.1.root, items, r.0)
    decreases items, 0
  {
    if items != [] {
      var n := |items| - 1;
      EncodedAllResolve(env, items[..n], st);
      var init := EncodeAll(env, items[..n], st, false);
      EncodedRefsResolve(env, items[n], init.1);
      var last := Encode(env, items[n], init.1, false);
      AllStays(init.1.root, last.1.root, items[..n], init.0);
      forall i | 0 <= i < |items| ensures Resolves(last.1.root, items[i], (init.0 + [last.0])[i]) {
        if i < n { assert items[i] == items[..n][i]; }
      }
    }
  }

  // ---------------------------------------------------------------- the code

  /** The encoder as it runs: the store is written while the value is walked. */
  class Encoder {
    const env: Env
    var root: OS.Tree
    var next: nat

    ghost function State(): Session
      reads this
    {
      Session(root, next)
    }

    constructor (env: Env, root: OS.Tree, next: nat)
      ensures this.env == env && State() == Session(root, next)
    {
      this.env, this.root, this.next := env, root, next;
    }

    // store = self._get_session_store(session_id, create=True); store[key] = item
    method StoreItem(key: string, item: OS.Item)
      requires Open(root, Levels(env), env.now)
      modifies this`root
      ensures root == Put(old(root), Levels(env), env.now, key, item)
    {
      var created := OS.Create(root, Levels(env), true, env.now);
      var store := OS.DictAt(created.value, Levels(env));
      root := OS.SetAt(created.value, Levels(env), store.value[key := OS.Leaf(item)]);
    }

    method EncodeValue(v: Py) returns (e: Py)
      requires Ready(env, State()) && NamesOk(env, v)
      modifies this`root, this`next
      ensures (e, State()) == Encode(env, v, old(State()), true)
      ensures Grown(env, old(State()), State()) && Resolves(root, v, e)
      decreases v, 2
    {
      EncodeFastIsSlow(env, v, State());
      EncodedRefsResolve(env, v, State());
      match v
      case List(items) => e := EncodeItems(items);
      case Tuple(items) => e := EncodeItems(items);
      case Set(items) =>
        var list := EncodeItems(items);
        e := SetRef(list);
      case Dict(keys, vals) => e := EncodeEntries(keys, vals);
      case Proxy(keys, vals) => e := EncodeEntries(keys, vals);
      case MemoryView(data) => e := ViewRef(data);
      case Remote(path) => e := MethodRef(path);
      case Function(id, name) =>
        if id in env.notes {
          e := MethodRef(env.notes[id]);
        } else {
          var key := ObjectId(env.uuid(next), name);
          e := MethodRef(env.session + "." + key);
          StoreItem(key, OS.Callable(OS.User(id)));
          next := next + 1;
        }
      case Generator(id) =>
        var key := env.uuid(next);
        GeneratorOpen(env, id, State());
        StoreItem(key, OS.Callable(OS.NextItem(id)));
        StoreItem(key + ":close", OS.Callable(OS.CloseGenerator(id)));
        next := next + 1;
        e := GeneratorRef(env.session + "." + key, env.session + "." + (key + ":close"));
      case _ => e := v;
    }

    method EncodeItems(items: seq<Py>) returns (e: Py)
      requires Ready(env, State()) && AllNamesOk(env, items)
      modifies this`root, this`next
      ensures (e, State()) == EncodeList(env, items, old(State()), true)
      decreases items, 1
    {
      if AllPrimitives(items) { return List(items); }
      var es := EncodeEach(items);
      e := List(es);
    }

    method EncodeEntries(keys: seq<string>, vals: seq<Py>) returns (e: Py)
      requires Ready(env, State()) && AllNamesOk(env, vals)
      modifies this`root, this`next
      ensures (e, State()) == EncodeDict(env, keys, vals, old(State()), true)
      decreases vals, 1
    {
      var i := IndexOf(keys, RTYPE);
      if i < |keys| && i < |vals| {
        var rest := DropAt(vals, i);
        assert AllNamesOk(env, rest);
        var es := rest;
        if !AllPrimitives(rest) { es := EncodeEach(rest); }
        e := Dict(DropAt(keys, i) + [RTYPE], es + [vals[i]]);
      } else if AllPrimitives(vals) {
        e := Dict(keys, vals);
      } else {
        var es := EncodeEach(vals);
        e := Dict(keys, es);
      }
    }

    method EncodeEach(items: seq<Py>) returns (es: seq<Py>)
      requires Ready(env, State()) && AllNamesOk(env, items)
      modifies this`root, this`next
      ensures (es, State()) == EncodeAll(env, items, old(State()), true)
      decreases items, 0
    {
      es := [];
      ghost var begin := State();
      for i := 0 to |items|
        invariant Ready(env, State())
        invariant (es, State()) == EncodeAll(env, items[..i], begin, true)
      {
        assert items[..i + 1][..i] == items[..i];
        var e := EncodeValue(items[i]);
        es := es + [e];
      }
      assert items[..|items|] == items;
    }
  }

  lemma GeneratorOpen(env: Env, id: nat, st: Session)
    requires Ready(env, st)
    ensures var next := OS.Callable(OS.NextItem(id));
      Open(Put(st.root, Levels(env), env.now, env.uuid(st.next), next), Levels(env), env.now)
  {
    assert env.uuid(st.next) !in Opened(st.root, Levels(env), env.now);
    PutLaw(st.root, Levels(env), env.now, env.uuid(st.next), OS.Callable(OS.NextItem(id)));
  }
}
