/**
 The values that calls carry, before and after encoding. Dictionaries keep their keys in
 insertion order; fields of a reference that no decoder reads are not represented.
 */
module Values {
  import opened Wrappers
  import opened Frames

  datatype Py =
    | Null | Int(i: int) | Float(r: real) | Bool(b: bool) | Str(s: string) | Bytes(data: bytes)
    | List(items: seq<Py>)
    | Tuple(items: seq<Py>)
    | Dict(keys: seq<string>, vals: seq<Py>)
    | Proxy(keys: seq<string>, vals: seq<Py>)     // ObjectProxy
    | Set(items: seq<Py>)                         // in iteration order
    | MemoryView(data: bytes)
    | Function(id: nat, name: string)             // name "" for a callable without __name__
    | Generator(id: nat)
    | Remote(path: string)                        // a RemoteFunction
    | RemoteGenerator(next: string, close: Option<string>)
    | Foreign(wire: Py)                           // decoded by code outside this model

  predicate Primitive(v: Py) {
    v.Null? || v.Int? || v.Float? || v.Bool? || v.Str? || v.Bytes?
  }

  function IndexOf(keys: seq<string>, key: string): (i: nat)
    ensures i <= |keys|
    ensures i < |keys| ==> keys[i] == key
    ensures i == |keys| <==> key !in keys
  {
    if keys == [] || keys[0] == key then 0 else 1 + IndexOf(keys[1..], key)
  }

  function DropAt<T>(s: seq<T>, i: nat): seq<T> {
    if i < |s| then s[..i] + s[i + 1..] else s
  }

  // The value of a key, when the dictionary has it.
  function Field(keys: seq<string>, vals: seq<Py>, key: string): (r: Py)
    ensures r in vals || r == Null
  {
    var i := IndexOf(keys, key);
    if i < |vals| then vals[i] else Null
  }

  const RTYPE := "_rtype"
  const RMETHOD := "_rmethod"
  const RCLOSE := "_rclose_method"
  const RVALUE := "_rvalue"

  // The four kinds of wire dictionaries the encoder makes.
  function MethodRef(path: string): Py { Dict([RTYPE, RMETHOD], [Str("method"), Str(path)]) }

  function GeneratorRef(next: string, close: string): Py {
    Dict([RTYPE, RMETHOD, RCLOSE], [Str("generator"), Str(next), Str(close)])
  }

  function SetRef(list: Py): Py { Dict([RTYPE, RVALUE], [Str("set"), list]) }

  function ViewRef(data: bytes): Py { Dict([RTYPE, RVALUE], [Str("memoryview"), Bytes(data)]) }
}
