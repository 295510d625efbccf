/**
 `_encode` and `_decode`: the recursive descent, the fast paths for primitive data, and the
 callables and generators that encoding leaves in the session store.
 */
module Codec {
  import opened Wrappers
  import opened Values
  import opened Frames
  import OS = ObjectStore

  // ---------------------------------------------------------------- the fast-path tests

  // `_all_primitives_list` and `_all_primitives_dict` (of its values).
  predicate AllPrimitives(items: seq<Py>) {
    forall v <- items :: PrimitiveDeep(v)
  }

  predicate PrimitiveDeep(v: Py) {
    Primitive(v)
    || (v.List? && AllPrimitives(v.items))
    || (v.Dict? && RTYPE !in v.keys && AllPrimitives(v.vals))
  }

  // `_all_scalars_list`: dictionaries disqualify.
  predicate AllScalars(items: seq<Py>) {
    forall v <- items :: Primitive(v) || (v.List? && AllScalars(v.items))
  }

  // ---------------------------------------------------------------- encoding

  // `uuid`: the ids shortuuid hands out; `notes`: the method ids of service methods.
  datatype Env = Env(uuid: nat -> string, session: string, notes: map<nat, string>, now: int)

  datatype Session = Session(root: OS.Tree, next: nat)

  function Levels(env: Env): OS.Path { OS.Split(env.session) }

  // The session's dictionary can be reached or created.
  predicate Open(root: OS.Tree, path: OS.Path, now: int)
    requires path != []
  {
    var c := OS.Create(root, path, true, now);
    c.Some? && OS.DictAt(c.value, path).Some?
  }

  function Opened(root: OS.Tree, path: OS.Path, now: int): OS.Tree
    requires path != [] && Open(root, path, now)
  {
    OS.DictAt(OS.Create(root, path, true, now).value, path).value
  }

  // store = self._get_session_store(session_id, create=True); store[key] = item
  function Put(root: OS.Tree, path: OS.Path, now: int, key: string, item: OS.Item): OS.Tree
    requires path != []
  {
    if Open(root, path, now) then
      OS.SetAt(OS.Create(root, path, true, now).value, path, Opened(root, path, now)[key := OS.Leaf(item)])
    else root
  }

  function ObjectId(id: string, name: string): string {
    if name == "" then id else id + "#" + name
  }

  function EncodeFunction(env: Env, id: nat, name: string, st: Session): (Py, Session) {
    if id in env.notes then (MethodRef(env.notes[id]), st)
    else
      var key := ObjectId(env.uuid(st.next), name);
      (MethodRef(env.session + "." + key),
       Session(Put(st.root, Levels(env), env.now, key, OS.Callable(OS.User(id))), st.next + 1))
  }

  function EncodeGenerator(env: Env, id: nat, st: Session): (Py, Session) {
    var key := env.uuid(st.next);
    var close := key + ":close";
    var root := Put(st.root, Levels(env), env.now, key, OS.Callable(OS.NextItem(id)));
    (GeneratorRef(env.session + "." + key, env.session + "." + close),
     Session(Put(root, Levels(env), env.now, close, OS.Callable(OS.CloseGenerator(id))), st.next + 1))
  }

  // The recursive descent; with `fast`, primitive lists and dictionaries are returned as they are.
  function Encode(env: Env, v: Py, st: Session, fast: bool): (Py, Session)
    decreases v, 2
  {
    match v
    case List(items) => EncodeList(env, items, st, fast)
    case Tuple(items) => EncodeList(env, items, st, fast)
    case Dict(keys, vals) => EncodeDict(env, keys, vals, st, fast)
    case Proxy(keys, vals) => EncodeDict(env, keys, vals, st, fast)
    case Set(items) => var r := EncodeList(env, items, st, fast); (SetRef(r.0), r.1)
    case MemoryView(data) => (ViewRef(data), st)
    case Function(id, name) => EncodeFunction(env, id, name, st)
    case Generator(id) => EncodeGenerator(env, id, st)
    case Remote(path) => (MethodRef(path), st)
    case _ => (v, st)
  }

  function EncodeList(env: Env, items: seq<Py>, st: Session, fast: bool): (Py, Session)
    decreases items, 1
  {
    if fast && AllPrimitives(items) then (List(items), st)
    else var r := EncodeAll(env, items, st, fast); (List(r.0), r.1)
  }

  // A dictionary that is already typed keeps its type, which is set aside meanwhile.
  function EncodeDict(env: Env, keys: seq<string>, vals: seq<Py>, st: Session, fast: bool): (Py, Session)
    decreases vals, 1
  {
    var i := IndexOf(keys, RTYPE);
    if i < |keys| && i < |vals| then
      var rest := DropAt(vals, i);
      var r := if fast && AllPrimitives(rest) then (rest, st) else EncodeAll(env, rest, st, fast);
      (Dict(DropAt(keys, i) + [RTYPE], r.0 + [vals[i]]), r.1)
    else if fast && AllPrimitives(vals) then (Dict(keys, vals), st)
    else var r := EncodeAll(env, vals, st, fast); (Dict(keys, r.0), r.1)
  }

  function EncodeAll(env: Env, items: seq<Py>, st: Session, fast: bool): (r: (seq<Py>, Session))
    ensures |r.0| == |items|
    decreases items, 0
  {
    if items == [] then ([], st)
    else
      var n := |items| - 1;
      var init := EncodeAll(env, items[..n], st, fast);
      var last := Encode(env, items[n], init.1, fast);
      (init.0 + [last.0], last.1)
  }

  // Primitive data passes the descent unchanged and leaves the store alone.
  lemma {:induction false} PrimitivesPass(env: Env, v: Py, st: Session)
    requires PrimitiveDeep(v)
    ensures Encode(env, v, st, false) == (v, st)
    decreases v, 1
  {
    if v.List? { PrimitivesAllPass(env, v.items, st); }
    if v.Dict? { PrimitivesAllPass(env, v.vals, st); }
  }

  lemma {:induction false} PrimitivesAllPass(env: Env, items: seq<Py>, st: Session)
    requires AllPrimitives(items)
    ensures EncodeAll(env, items, st, false) == (items, st)
    decreases items, 0
  {
    if items != [] {
      var n := |items| - 1;
      PrimitivesAllPass(env, items[..n], st);
      PrimitivesPass(env, items[n], st);
      assert items[..n] + [items[n]] == items;
    }
  }

  // MAIN: the fast path gives every value the encoding, and the store, of the full descent.
  lemma {:induction false} EncodeFastIsSlow(env: Env, v: Py, st: Session)
    ensures Encode(env, v, st, true) == Encode(env, v, st, false)
    decreases v, 1
  {
    match v
    case List(items) => EncodeAllFastIsSlow(env, items, st);
    case Tuple(items) => EncodeAllFastIsSlow(env, items, st);
    case Set(items) => EncodeAllFastIsSlow(env, items, st);
    case Dict(keys, vals) => EncodeDictFastIsSlow(env, keys, vals, st);
    case Proxy(keys, vals) => EncodeDictFastIsSlow(env, keys, vals, st);
    case _ =>
  }

  lemma {:induction false} EncodeDictFastIsSlow(env: Env, keys: seq<string>, vals: seq<Py>, st: Session)
    ensures EncodeDict(env, keys, vals, st, true) == EncodeDict(env, keys, vals, st, false)
    decreases vals, 1
  {
    var i := IndexOf(keys, RTYPE);
    if i < |keys| && i < |vals| {
      EncodeAllFastIsSlow(env, DropAt(vals, i), st);
    } else {
      EncodeAllFastIsSlow(env, vals, st);
    }
  }

  // With the fast path or without it: the items one by one, or all at once when primitive.
  lemma {:induction false} EncodeAllFastIsSlow(env: Env, items: seq<Py>, st: Session)
    ensures EncodeAll(env, items, st, true) == EncodeAll(env, items, st, false)
    ensures AllPrimitives(items) ==> EncodeAll(env, items, st, false) == (items, st)
    decreases items, 0
  {
    if AllPrimitives(items) { PrimitivesAllPass(env, items, st); }
    if items != [] {
      var n := |items| - 1;
      EncodeAllFastIsSlow(env, items[..n], st);
      EncodeFastIsSlow(env, items[n], EncodeAll(env, items[..n], st, false).1);
    }
  }

  // ---------------------------------------------------------------- decoding

  const FOREIGN := {"ndarray", "iostream", "typedarray", "orderedmap", "error"}

  // What Python can put into a set after decoding.
  predicate Hashable(v: Py) {
    Primitive(v) || v.MemoryView? || v.Remote? || v.RemoteGenerator?
  }

  // What set(...) iterates over; None where the value is not iterable.
  function Elements(v: Py): Option<seq<Py>> {
    match v
    case List(items) => Some(items)
    case Set(items) => Some(items)
    case Str(s) => Some(seq(|s|, i requires 0 <= i < |s| => Str([s[i]])))
    case Bytes(data) => Some(seq(|data|, i requires 0 <= i < |data| => Int(data[i] as int)))
    case MemoryView(data) => Some(seq(|data|, i requires 0 <= i < |data| => Int(data[i] as int)))
    case Proxy(keys, _) => Some(seq(|keys|, i requires 0 <= i < |keys| => Str(keys[i])))
    case _ => None
  }

  // The types that a decoder of this model stands for.
  const RECOGNISED := {"method", "memoryview", "set", "generator"} + FOREIGN

  predicate Recognised(codecs: set<string>, rtype: Py) { rtype.Str? && rtype.s in RECOGNISED + codecs }

  // No registered codec takes a kind that the encoder itself writes for plain data.
  predicate KindsFree(codecs: set<string>) { "set" !in codecs && "memoryview" !in codecs }

  // What can be looked up among the codecs at all.
  predicate HashableType(v: Py) {
    match v
    case Tuple(items) => forall x <- items :: HashableType(x)
    case _ => !v.List? && !v.Dict? && !v.Proxy? && !v.Set?
  }

  // ObjectProxy.fromDict, on plain data.
  function ToProxy(v: Py): Py {
    match v
    case Dict(keys, vals) => Proxy(keys, ToProxies(vals))
    case List(items) => List(ToProxies(items))
    case _ => v
  }

  function ToProxies(items: seq<Py>): (r: seq<Py>)
    ensures |r| == |items|
    decreases items, 0
  {
    if items == [] then []
    else ToProxies(items[..|items| - 1]) + [ToProxy(items[|items| - 1])]
  }

  function MakeSet(v: Py): Option<Py> {
    match Elements(v)
    case Some(items) => if forall x <- items :: Hashable(x) then Some(Set(items)) else None
    case None => None
  }

  // A dictionary with `_rtype`; None where Python raises. The registered codecs (`pydantic_model` is
  // one where pydantic can be imported) are asked first, on the decoded rest of the dictionary.
  function DecodeTyped(keys: seq<string>, vals: seq<Py>, rtype: Py, codecs: set<string>, fast: bool): Option<Py>
    requires IndexOf(keys, RTYPE) < |keys| && IndexOf(keys, RTYPE) < |vals|
    decreases vals, 1
  {
    var path := Field(keys, vals, RMETHOD);
    var i := IndexOf(keys, RVALUE);
    if rtype.Str? && rtype.s in codecs then
      var t := IndexOf(keys, RTYPE);
      match DecodeDict(DropAt(keys, t), DropAt(vals, t), codecs, fast)
      case Some(v) => Some(Foreign(v))
      case None => None
    else if rtype == Str("method") then if path.Str? then Some(Remote(path.s)) else None
    else if rtype == Str("memoryview") then
      if i < |vals| && vals[i].Bytes? then Some(MemoryView(vals[i].data)) else None
    else if rtype == Str("set") then
      if i < |vals| then
        match Decode(vals[i], codecs, fast)
        case Some(v) => MakeSet(v)
        case None => None
      else None
    else if rtype == Str("generator") then
      var close := Field(keys, vals, RCLOSE);
      if !path.Str? then None
      else if IndexOf(keys, RCLOSE) >= |vals| then Some(RemoteGenerator(path.s, None))
      else if close.Str? then Some(RemoteGenerator(path.s, Some(close.s)))
      else None
    else if rtype.Str? && rtype.s in FOREIGN then Some(Foreign(Dict(keys, vals)))
    else if !HashableType(rtype) then None
    else
      var t := IndexOf(keys, RTYPE);
      match DecodeDict(DropAt(keys, t), DropAt(vals, t), codecs, fast)
      case Some(Proxy(ks, vs)) => Some(Proxy(ks + [RTYPE], vs + [vals[t]]))
      case _ => None
  }

  function DecodeDict(keys: seq<string>, vals: seq<Py>, codecs: set<string>, fast: bool): Option<Py>
    decreases vals, 1
  {
    if fast && AllPrimitives(vals) then Some(Proxy(keys, ToProxies(vals)))
    else
      match DecodeAll(vals, codecs, fast)
      case Some(vs) => Some(Proxy(keys, vs))
      case None => None
  }

  function Decode(w: Py, codecs: set<string>, fast: bool): Option<Py>
    decreases w, 2
  {
    match w
    case Dict(keys, vals) =>
      var i := IndexOf(keys, RTYPE);
      if i < |keys| && i < |vals| then DecodeTyped(keys, vals, vals[i], codecs, fast)
      else DecodeDict(keys, vals, codecs, fast)
    case List(items) => DecodeList(items, codecs, fast)
    case Tuple(items) => DecodeList(items, codecs, fast)
    case _ => Some(w)
  }

  function DecodeList(items: seq<Py>, codecs: set<string>, fast: bool): Option<Py>
    decreases items, 1
  {
    if fast && AllScalars(items) then Some(List(items))
    else
      match DecodeAll(items, codecs, fast)
      case Some(vs) => Some(List(vs))
      case None => None
  }

  function DecodeAll(items: seq<Py>, codecs: set<string>, fast: bool): (r: Option<seq<Py>>)
    ensures r.Some? ==> |r.value| == |items|
    decreases items, 0
  {
    if items == [] then Some([])
    else
      match (DecodeAll(items[..|items| - 1], codecs, fast), Decode(items[|items| - 1], codecs, fast))
      case (Some(vs), Some(v)) => Some(vs + [v])
      case _ => None
  }

  lemma DecodeSnoc(codecs: set<string>, init: seq<Py>, last: Py)
    ensures DecodeAll(init + [last], codecs, false) ==
      match (DecodeAll(init, codecs, false), Decode(last, codecs, false))
      case (Some(vs), Some(v)) => Some(vs + [v])
      case _ => None
  {
    assert (init + [last])[..|init|] == init;
  }

  lemma DecodeSetRef(codecs: set<string>, list: Py)
    requires KindsFree(codecs)
    ensures Decode(SetRef(list), codecs, false) ==
      match Decode(list, codecs, false)
      case Some(v) => MakeSet(v)
      case None => None
  {
    var keys, vals := [RTYPE, RVALUE], [Str("set"), list];
    assert IndexOf(keys, RTYPE) == 0;
    assert IndexOf(keys, RVALUE) == 1 + IndexOf(keys[1..], RVALUE) == 1;
    assert Decode(SetRef(list), codecs, false) == DecodeTyped(keys, vals, Str("set"), codecs, false);
  }

  lemma {:induction false} ScalarPasses(codecs: set<string>, v: Py)
    requires Primitive(v) || (v.List? && AllScalars(v.items))
    ensures Decode(v, codecs, false) == Some(v)
    decreases v, 1
  {
    if v.List? { ScalarsPass(codecs, v.items); }
  }

  lemma {:induction false} ScalarsPass(codecs: set<string>, items: seq<Py>)
    requires AllScalars(items)
    ensures DecodeAll(items, codecs, false) == Some(items)
    decreases items, 0
  {
    if items != [] {
      var n := |items| - 1;
      assert items[n] in items && forall x <- items[..n] :: x in items;
      ScalarsPass(codecs, items[..n]);
      ScalarPasses(codecs, items[n]);
      DecodeSnoc(codecs, items[..n], items[n]);
      assert items[..n] + [items[n]] == items;
    }
  }

  lemma {:induction false} PrimitivesBecomeProxies(codecs: set<string>, v: Py)
    requires PrimitiveDeep(v)
    ensures Decode(v, codecs, false) == Some(ToProxy(v))
    decreases v, 1
  {
    if v.List? { AllBecomeProxies(codecs, v.items); }
    if v.Dict? { AllBecomeProxies(codecs, v.vals); }
  }

  lemma {:induction false} AllBecomeProxies(codecs: set<string>, items: seq<Py>)
    requires AllPrimitives(items)
    ensures DecodeAll(items, codecs, false) == Some(ToProxies(items))
    decreases items, 0
  {
    if items != [] {
      AllBecomeProxies(codecs, items[..|items| - 1]);
      PrimitivesBecomeProxies(codecs, items[|items| - 1]);
    }
  }

  // MAIN: the fast paths of decoding agree with the full descent on every wire value.
  lemma {:induction false} DecodeFastIsSlow(codecs: set<string>, w: Py)
    ensures Decode(w, codecs, true) == Decode(w, codecs, false)
    decreases w, 2
  {
    match w
    case List(items) => DecodeListFastIsSlow(codecs, items);
    case Tuple(items) => DecodeListFastIsSlow(codecs, items);
    case Dict(keys, vals) =>
      var i := IndexOf(keys, RTYPE);
      if i < |keys| && i < |vals| { DecodeTypedFastIsSlow(codecs, keys, vals); }
      else { DecodeDictFastIsSlow(codecs, keys, vals); }
    case _ =>
  }

  lemma {:induction false} DecodeTypedFastIsSlow(codecs: set<string>, keys: seq<string>, vals: seq<Py>)
    requires IndexOf(keys, RTYPE) < |keys| && IndexOf(keys, RTYPE) < |vals|
    ensures var rtype := vals[IndexOf(keys, RTYPE)];
      DecodeTyped(keys, vals, rtype, codecs, true) == DecodeTyped(keys, vals, rtype, codecs, false)
    decreases vals, 1
  {
    var i, j := IndexOf(keys, RTYPE), IndexOf(keys, RVALUE);
    if j < |vals| { DecodeFastIsSlow(codecs, vals[j]); }
    DecodeDictFastIsSlow(codecs, DropAt(keys, i), DropAt(vals, i));
  }

  lemma {:induction false} DecodeListFastIsSlow(codecs: set<string>, items: seq<Py>)
    ensures DecodeList(items, codecs, true) == DecodeList(items, codecs, false)
    decreases items, 1
  {
    if AllScalars(items) { ScalarsPass(codecs, items); } else { DecodeAllFastIsSlow(codecs, items); }
  }

  lemma {:induction false} DecodeDictFastIsSlow(codecs: set<string>, keys: seq<string>, vals: seq<Py>)
    ensures DecodeDict(keys, vals, codecs, true) == DecodeDict(keys, vals, codecs, false)
    decreases vals, 1
  {
    if AllPrimitives(vals) { AllBecomeProxies(codecs, vals); } else { DecodeAllFastIsSlow(codecs, vals); }
  }

  lemma {:induction false} DecodeAllFastIsSlow(codecs: set<string>, items: seq<Py>)
    ensures DecodeAll(items, codecs, true) == DecodeAll(items, codecs, false)
    decreases items, 0
  {
    if items != [] {
      DecodeAllFastIsSlow(codecs, items[..|items| - 1]);
      DecodeFastIsSlow(codecs, items[|items| - 1]);
    }
  }

  // ---------------------------------------------------------------- round trip

  // Plain data: primitives, byte views and containers of them, no `_rtype` key.
  predicate Plain(v: Py) {
    match v
    case List(items) => AllPlain(items)
    case Tuple(items) => AllPlain(items)
    case Set(items) => AllPlain(items)
    case Dict(keys, vals) => RTYPE !in keys && AllPlain(vals)
    case Proxy(keys, vals) => RTYPE !in keys && AllPlain(vals)
    case MemoryView(_) => true
    case _ => Primitive(v)
  }

  predicate AllPlain(items: seq<Py>) {
    forall v <- items :: Plain(v)
  }

  // No set holds a tuple: a tuple comes back as a list, which no set can hold.
  predicate SetsSurvive(v: Py) {
    match v
    case List(items) => AllSurvive(items)
    case Tuple(items) => AllSurvive(items)
    case Dict(_, vals) => AllSurvive(vals)
    case Proxy(_, vals) => AllSurvive(vals)
    case Set(items) => forall x <- items :: Primitive(x) || x.MemoryView?
    case _ => true
  }

  predicate AllSurvive(items: seq<Py>) {
    forall v <- items :: SetsSurvive(v)
  }

  // What arrives: tuples as lists, dictionaries as ObjectProxy.
  function Arrives(v: Py): Py {
    match v
    case List(items) => List(AllArrive(items))
    case Tuple(items) => List(AllArrive(items))
    case Set(items) => Set(AllArrive(items))
    case Dict(keys, vals) => Proxy(keys, AllArrive(vals))
    case Proxy(keys, vals) => Proxy(keys, AllArrive(vals))
    case _ => v
  }

  function AllArrive(items: seq<Py>): (r: seq<Py>)
    ensures |r| == |items|
    ensures forall i | 0 <= i < |items| :: r[i] == Arrives(items[i])
    decreases items, 0
  {
    if items == [] then []
    else AllArrive(items[..|items| - 1]) + [Arrives(items[|items| - 1])]
  }

  // MAIN: decoding undoes encoding for all plain data, up to what Arrives says, and fails
  // exactly when a set holds a tuple. Encoding it does not touch the session.
  lemma {:induction false} RoundTripIff(codecs: set<string>, env: Env, v: Py, st: Session)
    requires KindsFree(codecs)
    requires Plain(v)
    ensures Encode(env, v, st, false).1 == st
    ensures Decode(Encode(env, v, st, false).0, codecs, false) == if SetsSurvive(v) then Some(Arrives(v)) else None
    decreases v, 1
  {
    match v
    case List(items) => RoundTripAll(codecs, env, items, st);
    case Tuple(items) => RoundTripAll(codecs, env, items, st);
    case Dict(keys, vals) => RoundTripDict(codecs, env, keys, vals, st);
    case Proxy(keys, vals) => RoundTripDict(codecs, env, keys, vals, st);
    case Set(items) => RoundTripSet(codecs, env, items, st);
    case _ =>
  }

  lemma {:induction false} RoundTripDict(codecs: set<string>, env: Env, keys: seq<string>, vals: seq<Py>, st: Session)
    requires KindsFree(codecs)
    requires RTYPE !in keys && AllPlain(vals)
    ensures Encode(env, Dict(keys, vals), st, false).1 == st
    ensures Decode(Encode(env, Dict(keys, vals), st, false).0, codecs, false) ==
              if AllSurvive(vals) then Some(Proxy(keys, AllArrive(vals))) else None
    decreases vals, 1
  {
    RoundTripAll(codecs, env, vals, st);
  }

  lemma {:induction false} RoundTripSet(codecs: set<string>, env: Env, items: seq<Py>, st: Session)
    requires KindsFree(codecs)
    requires AllPlain(items)
    ensures Encode(env, Set(items), st, false).1 == st
    ensures Decode(Encode(env, Set(items), st, false).0, codecs, false) ==
              if SetsSurvive(Set(items)) then Some(Set(AllArrive(items))) else None
    decreases items, 1
  {
    RoundTripAll(codecs, env, items, st);
    SetOfArrived(items);
    var es := EncodeAll(env, items, st, false).0;
    DecodeSetRef(codecs, List(es));
    assert Decode(List(es), codecs, false) == if AllSurvive(items) then Some(List(AllArrive(items))) else None;
  }

  lemma SetOfArrived(items: seq<Py>)
    requires AllPlain(items)
    ensures !AllSurvive(items) ==> !SetsSurvive(Set(items))
    ensures AllSurvive(items) ==>
              MakeSet(List(AllArrive(items))) == if SetsSurvive(Set(items)) then Some(Set(AllArrive(items))) else None
  {
    SetItems(items);
  }

  lemma SetItems(items: seq<Py>)
    requires AllPlain(items)
    ensures (forall x <- items :: Primitive(x) || x.MemoryView?) <==>
              AllSurvive(items) && (forall x <- AllArrive(items) :: Hashable(x))
  {
    var rs := AllArrive(items);
    if forall x <- rs :: Hashable(x) {
      forall x | x in items ensures Primitive(x) || x.MemoryView? {
        var i :| 0 <= i < |items| && items[i] == x;
        assert rs[i] in rs && rs[i] == Arrives(x);
      }
    }
    if forall x <- items :: Primitive(x) || x.MemoryView? {
      forall y | y in rs ensures Hashable(y) {
        var i :| 0 <= i < |items| && rs[i] == y;
        assert items[i] in items;
      }
    }
  }

  lemma SurviveSplit(items: seq<Py>)
    requires items != []
    ensures AllSurvive(items) <==> AllSurvive(items[..|items| - 1]) && SetsSurvive(items[|items| - 1])
    ensures AllPlain(items) <==> AllPlain(items[..|items| - 1]) && Plain(items[|items| - 1])
  {
    var n := |items| - 1;
    assert forall x :: x in items <==> x in items[..n] || x == items[n] by {
      assert items == items[..n] + [items[n]];
    }
  }

  lemma {:induction false} RoundTripAll(codecs: set<string>, env: Env, items: seq<Py>, st: Session)
    requires KindsFree(codecs)
    requires AllPlain(items)
    ensures EncodeAll(env, items, st, false).1 == st
    ensures DecodeAll(EncodeAll(env, items, st, false).0, codecs, false) ==
              if AllSurvive(items) then Some(AllArrive(items)) else None
    decreases items, 0
  {
    if items != [] {
      var n := |items| - 1;
      SurviveSplit(items);
      RoundTripAll(codecs, env, items[..n], st);
      RoundTripIff(codecs, env, items[n], st);
      var init := EncodeAll(env, items[..n], st, false).0;
      var last := Encode(env, items[n], st, false).0;
      DecodeSnoc(codecs, init, last);
    }
  }

  // The whole law, for the code with its fast paths.
  lemma RoundTripFast(codecs: set<string>, env: Env, v: Py, st: Session)
    requires KindsFree(codecs)
    requires Plain(v)
    ensures Decode(Encode(env, v, st, true).0, codecs, true) == if SetsSurvive(v) then Some(Arrives(v)) else None
  {
    EncodeFastIsSlow(env, v, st);
    RoundTripIff(codecs, env, v, st);
    DecodeFastIsSlow(codecs, Encode(env, v, st, true).0);
  }

  // A dictionary that is typed already: the type moves last, the other values arrive as usual.
  function TypedArrives(keys: seq<string>, vals: seq<Py>): Py
    requires IndexOf(keys, RTYPE) < |vals|
  {
    var i := IndexOf(keys, RTYPE);
    Proxy(DropAt(keys, i) + [RTYPE], AllArrive(DropAt(vals, i)) + [vals[i]])
  }

  lemma {:induction false} IndexOfLast(keys: seq<string>, key: string)
    requires key !in keys
    ensures IndexOf(keys + [key], key) == |keys|
    decreases |keys|
  {
    if keys != [] {
      assert (keys + [key])[1..] == keys[1..] + [key];
      IndexOfLast(keys[1..], key);
    }
  }

  lemma TypedIsNoProxy(codecs: set<string>, keys: seq<string>, vals: seq<Py>, rtype: Py)
    requires IndexOf(keys, RTYPE) < |keys| && IndexOf(keys, RTYPE) < |vals|
    requires Recognised(codecs, rtype) || !HashableType(rtype)
    ensures var r := DecodeTyped(keys, vals, rtype, codecs, false); r.None? || !r.value.Proxy?
  {
  }

  lemma OtherTypesPass(codecs: set<string>, keys: seq<string>, vals: seq<Py>, rtype: Py)
    requires IndexOf(keys, RTYPE) < |keys| && IndexOf(keys, RTYPE) < |vals|
    requires !Recognised(codecs, rtype) && HashableType(rtype)
    ensures var t := IndexOf(keys, RTYPE);
      DecodeTyped(keys, vals, rtype, codecs, false) ==
        match DecodeAll(DropAt(vals, t), codecs, false)
        case Some(vs) => Some(Proxy(DropAt(keys, t) + [RTYPE], vs + [vals[t]]))
        case None => None
  {
    assert rtype.Str? ==> rtype.s !in RECOGNISED;
  }

  lemma TypeLast(codecs: set<string>, keys: seq<string>, es: seq<Py>, rtype: Py)
    requires RTYPE !in keys && |es| == |keys|
    ensures var ks, ws := keys + [RTYPE], es + [rtype];
      && IndexOf(ks, RTYPE) == |keys| && DropAt(ks, |keys|) == keys && DropAt(ws, |keys|) == es
      && Decode(Dict(ks, ws), codecs, false) == DecodeTyped(ks, ws, rtype, codecs, false)
  {
    var ks, ws := keys + [RTYPE], es + [rtype];
    IndexOfLast(keys, RTYPE);
    assert ks[..|keys|] == keys && ws[..|es|] == es;
  }

  // MAIN: `_rtype` is a reserved key. Data that uses it comes back, type last, exactly when the type
  // can be looked up and no decoder takes it for its own, and the other values survive.
  lemma TypedReturnsIff(codecs: set<string>, env: Env, keys: seq<string>, vals: seq<Py>, st: Session)
    requires KindsFree(codecs) && |keys| == |vals| && RTYPE in keys
    requires var i := IndexOf(keys, RTYPE); RTYPE !in DropAt(keys, i) && AllPlain(DropAt(vals, i))
    ensures var rtype := vals[IndexOf(keys, RTYPE)];
      Decode(Encode(env, Dict(keys, vals), st, true).0, codecs, true) == Some(TypedArrives(keys, vals)) <==>
        && !Recognised(codecs, rtype) && HashableType(rtype)
        && AllSurvive(DropAt(vals, IndexOf(keys, RTYPE)))
  {
    var i := IndexOf(keys, RTYPE);
    var rest := DropAt(vals, i);
    var es := EncodeAll(env, rest, st, false).0;
    EncodeFastIsSlow(env, Dict(keys, vals), st);
    assert Encode(env, Dict(keys, vals), st, false).0 == Dict(DropAt(keys, i) + [RTYPE], es + [vals[i]]);
    DecodeFastIsSlow(codecs, Dict(DropAt(keys, i) + [RTYPE], es + [vals[i]]));
    RoundTripAll(codecs, env, rest, st);
    TypeLast(codecs, DropAt(keys, i), es, vals[i]);
    var ks, ws := DropAt(keys, i) + [RTYPE], es + [vals[i]];
    if Recognised(codecs, vals[i]) || !HashableType(vals[i]) {
      TypedIsNoProxy(codecs, ks, ws, vals[i]);
    } else {
      OtherTypesPass(codecs, ks, ws, vals[i]);
    }
  }
}
