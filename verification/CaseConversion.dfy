/** toCamelCase, toSnakeCase and convertCase, on ASCII keys. */
module CaseConversion {
  import V = Values

  predicate Ascii(s: string) { forall c <- s :: c < 128 as char }

  predicate IsUpper(c: char) { 'A' <= c <= 'Z' }

  predicate IsLower(c: char) { 'a' <= c <= 'z' }

  function Upper(c: char): char { if IsLower(c) then (c as int - 32) as char else c }

  function Lower(c: char): char { if IsUpper(c) then (c as int + 32) as char else c }

  // What '.' does not match.
  predicate LineEnd(c: char) { c == '\n' || c == '\r' }

  // str.replace(/_./g, (match) => match[1].toUpperCase())
  function Camelize(s: string): string {
    if s == [] then []
    else if s[0] == '_' && |s| >= 2 && !LineEnd(s[1]) then [Upper(s[1])] + Camelize(s[2..])
    else [s[0]] + Camelize(s[1..])
  }

  function ToCamelCase(s: string): string {
    if '_' !in s then s else Camelize(s)
  }

  // str.replace(/([A-Z])/g, "_$1").toLowerCase()
  function ToSnakeCase(s: string): string {
    if s == [] then []
    else (if IsUpper(s[0]) then ['_', Lower(s[0])] else [s[0]]) + ToSnakeCase(s[1..])
  }

  lemma {:induction false} CamelizeWithout(s: string)
    ensures ToCamelCase(s) == Camelize(s)
    decreases |s|
  {
    if '_' !in s && s != [] { CamelizeWithout(s[1..]); }
  }

  // ---------------------------------------------------------------- snake, then camel

  // Every underscore is one that the camel pattern does not match.
  predicate UnderscoresInert(s: string) {
    forall i | 0 <= i < |s| && s[i] == '_' :: i + 1 == |s| || LineEnd(s[i + 1])
  }

  function There(s: string): string { Camelize(ToSnakeCase(s)) }

  lemma ThereSteps(s: string)
    requires s != []
    ensures IsUpper(s[0]) ==> There(s) == [s[0]] + There(s[1..])
    ensures s[0] != '_' && !IsUpper(s[0]) ==> There(s) == [s[0]] + There(s[1..])
    ensures s[0] == '_' && (|s| == 1 || LineEnd(s[1])) ==> There(s) == ['_'] + There(s[1..])
    ensures s[0] == '_' && |s| > 1 && IsUpper(s[1]) ==> There(s) == ['_', Lower(s[1])] + There(s[2..])
    ensures s[0] == '_' && |s| > 1 && !IsUpper(s[1]) && !LineEnd(s[1]) ==> There(s) == [Upper(s[1])] + There(s[2..])
  {
    var rest := ToSnakeCase(s[1..]);
    if IsUpper(s[0]) {
      assert ToSnakeCase(s) == ['_', Lower(s[0])] + rest;
      assert ToSnakeCase(s)[2..] == rest;
    } else {
      assert ToSnakeCase(s) == [s[0]] + rest;
      assert ToSnakeCase(s)[1..] == rest;
      if s[0] == '_' && |s| > 1 {
        var more := ToSnakeCase(s[2..]);
        assert s[1..][1..] == s[2..];
        if IsUpper(s[1]) {
          assert rest == ['_', Lower(s[1])] + more;
          assert ToSnakeCase(s)[2..] == [Lower(s[1])] + more;
          var tail := [Lower(s[1])] + more;
          assert tail[1..] == more && Camelize(tail) == [tail[0]] + Camelize(more);
          assert Camelize(ToSnakeCase(s)) == ['_'] + Camelize(tail);
        } else {
          assert rest == [s[1]] + more;
          assert ToSnakeCase(s)[2..] == more;
        }
      }
    }
  }

  lemma InertTail(s: string)
    requires s != []
    ensures UnderscoresInert(s) <==> (s[0] == '_' && |s| > 1 ==> LineEnd(s[1])) && UnderscoresInert(s[1..])
  {
    var t := s[1..];
    forall i | UnderscoresInert(s) && 0 <= i < |t| && t[i] == '_' ensures i + 1 == |t| || LineEnd(t[i + 1]) {
      assert s[i + 1] == '_';
    }
    forall i | UnderscoresInert(t) && 0 < i < |s| && s[i] == '_' ensures i + 1 == |s| || LineEnd(s[i + 1]) {
      assert t[i - 1] == '_';
    }
  }

  lemma {:induction false} ThereNeverGrows(s: string)
    ensures |There(s)| <= |s|
    decreases |s|
  {
    if s != [] {
      ThereSteps(s);
      ThereNeverGrows(s[1..]);
      if |s| > 1 { ThereNeverGrows(s[2..]); }
    }
  }

  // MAIN: going to snake case and back is the identity on exactly the strings whose underscores
  // are last or before a line end; in particular on all without underscore.
  lemma {:induction false} CamelAfterSnakeIff(s: string)
    requires Ascii(s)
    ensures ToCamelCase(ToSnakeCase(s)) == s <==> UnderscoresInert(s)
    decreases |s|
  {
    CamelizeWithout(ToSnakeCase(s));
    if s != [] {
      ThereSteps(s);
      InertTail(s);
      CamelizeWithout(ToSnakeCase(s[1..]));
      assert forall c <- s[1..] :: c in s;
      CamelAfterSnakeIff(s[1..]);
      assert s == [s[0]] + s[1..];
      if s[0] == '_' && |s| > 1 && !LineEnd(s[1]) {
        if IsUpper(s[1]) {
          assert There(s)[1] != s[1];
        } else {
          ThereNeverGrows(s[2..]);
        }
      }
    }
  }

  // ---------------------------------------------------------------- camel, then snake

  predicate NoUpper(s: string) { forall c <- s :: !IsUpper(c) }

  // Every underscore is followed by a lower-case letter, or not matched at all.
  predicate UnderscoresLead(s: string) {
    forall i | 0 <= i < |s| && s[i] == '_' :: i + 1 == |s| || LineEnd(s[i + 1]) || IsLower(s[i + 1])
  }

  function Back(s: string): string { ToSnakeCase(Camelize(s)) }

  lemma LeadTail(s: string)
    requires s != []
    ensures UnderscoresLead(s) <==>
              && (s[0] == '_' && |s| > 1 ==> LineEnd(s[1]) || IsLower(s[1]))
              && UnderscoresLead(s[1..])
  {
    var t := s[1..];
    forall i | UnderscoresLead(s) && 0 <= i < |t| && t[i] == '_'
      ensures i + 1 == |t| || LineEnd(t[i + 1]) || IsLower(t[i + 1])
    {
      assert s[i + 1] == '_';
    }
    forall i | UnderscoresLead(t) && 0 < i < |s| && s[i] == '_'
      ensures i + 1 == |s| || LineEnd(s[i + 1]) || IsLower(s[i + 1])
    {
      assert t[i - 1] == '_';
    }
  }

  lemma {:induction false} SnakeHasNoUpper(s: string)
    ensures NoUpper(ToSnakeCase(s))
    decreases |s|
  {
    if s != [] { SnakeHasNoUpper(s[1..]); }
  }

  lemma BackSteps(s: string)
    requires s != []
    ensures s[0] == '_' && |s| >= 2 && IsLower(s[1]) ==> Back(s) == ['_', s[1]] + Back(s[2..])
    ensures s[0] == '_' && |s| >= 2 && !IsLower(s[1]) && !IsUpper(s[1]) && !LineEnd(s[1]) ==>
              Back(s) == [s[1]] + Back(s[2..])
    ensures !IsUpper(s[0]) && !(s[0] == '_' && |s| >= 2 && !LineEnd(s[1])) ==> Back(s) == [s[0]] + Back(s[1..])
  {
    assert forall c: char, t: string :: ([c] + t)[0] == c && ([c] + t)[1..] == t;
  }

  lemma {:induction false} BackNeverGrows(s: string)
    requires NoUpper(s)
    ensures |Back(s)| <= |s|
    decreases |s|
  {
    if s != [] {
      BackSteps(s);
      BackNeverGrows(s[1..]);
      if |s| >= 2 { BackNeverGrows(s[2..]); }
    }
  }

  lemma BackPair(s: string)
    requires NoUpper(s) && |s| >= 2 && s[0] == '_' && !LineEnd(s[1])
    ensures Back(s) == s <==> IsLower(s[1]) && Back(s[2..]) == s[2..]
  {
    BackSteps(s);
    BackNeverGrows(s[2..]);
    assert s == ['_', s[1]] + s[2..];
    assert s[1] in s;
  }

  lemma LeadPair(s: string)
    requires |s| >= 2 && s[0] == '_' && !LineEnd(s[1])
    ensures UnderscoresLead(s) <==> IsLower(s[1]) && UnderscoresLead(s[2..])
  {
    LeadTail(s);
    LeadTail(s[1..]);
    assert s[1..][1..] == s[2..];
  }

  lemma {:induction false} BackIff(s: string)
    requires NoUpper(s)
    ensures Back(s) == s <==> UnderscoresLead(s)
    decreases |s|
  {
    if s != [] {
      if s[0] == '_' && |s| >= 2 && !LineEnd(s[1]) {
        BackPair(s);
        LeadPair(s);
        BackIff(s[2..]);
      } else {
        BackSteps(s);
        LeadTail(s);
        BackIff(s[1..]);
        assert s == [s[0]] + s[1..] && s[0] in s;
      }
    }
  }

  // MAIN: going to camel case and back is the identity on exactly the strings without capitals
  // whose underscores each lead a letter (or stand where the pattern does not match).
  lemma SnakeAfterCamelIff(s: string)
    requires Ascii(s)
    ensures ToSnakeCase(ToCamelCase(s)) == s <==> NoUpper(s) && UnderscoresLead(s)
  {
    CamelizeWithout(s);
    SnakeHasNoUpper(Camelize(s));
    if NoUpper(s) { BackIff(s); }
  }

  // ---------------------------------------------------------------- nested objects

  // Arrays and objects, the latter with their keys in the order `for in` visits them;
  // everything else is an atom.
  datatype Json =
    | Atom(id: int)
    | Arr(items: seq<Json>)
    | Obj(keys: seq<string>, vals: seq<Json>)

  // caseType: a falsy one, "camel", "snake", or another string that may include either word.
  datatype CaseType = Untouched | Camel | Snake | Other(camel: bool, snake: bool)

  // newObj[key] = value
  function Put(keys: seq<string>, vals: seq<Json>, key: string, value: Json): (r: (seq<string>, seq<Json>))
    requires |keys| == |vals|
    ensures |r.0| == |r.1|
    ensures |r.0| == if key in keys then |keys| else |keys| + 1
  {
    var i := V.IndexOf(keys, key);
    if i < |keys| then (keys, vals[i := value]) else (keys + [key], vals + [value])
  }

  function Convert(v: Json, kind: CaseType): Json
    decreases v, 1
  {
    match v
    case Atom(_) => v
    case Arr(items) =>
      if kind == Untouched then v else if kind == Other(false, false) then Arr([]) else Arr(ConvertItems(items, kind))
    case Obj(keys, vals) => if kind == Untouched then v else var r := ConvertEntries(keys, vals, kind); Obj(r.0, r.1)
  }

  function ConvertItems(items: seq<Json>, kind: CaseType): (r: seq<Json>)
    ensures |r| == |items|
    decreases items, 0
  {
    if items == [] then []
    else
      var last := items[|items| - 1];
      ConvertItems(items[..|items| - 1], kind) + [Convert(last, ItemKind(kind))]
  }

  // Both words in the case type: the snake form is written last, over the camel one.
  function ItemKind(kind: CaseType): CaseType {
    match kind
    case Other(camel, snake) => if snake then Snake else Camel
    case _ => kind
  }

  function Key(key: string, kind: CaseType): string {
    if kind == Camel then ToCamelCase(key) else ToSnakeCase(key)
  }

  function ConvertEntries(keys: seq<string>, vals: seq<Json>, kind: CaseType): (r: (seq<string>, seq<Json>))
    ensures |r.0| == |r.1|
    decreases vals, 0
  {
    if vals == [] || |keys| != |vals| then ([], [])
    else
      var n := |vals| - 1;
      var key, value := keys[n], vals[n];
      var r := ConvertEntries(keys[..n], vals[..n], kind);
      AddEntry(r.0, r.1, key, value, kind)
  }

  // The entry or entries that one key leads to.
  function AddEntry(keys: seq<string>, vals: seq<Json>, key: string, value: Json, kind: CaseType):
    (r: (seq<string>, seq<Json>))
    requires |keys| == |vals|
    ensures |r.0| == |r.1|
    decreases value, 2
  {
    match kind
    case Untouched => (keys, vals)
    case Other(camel, snake) =>
      var c := if camel then Put(keys, vals, ToCamelCase(key), Convert(value, Camel)) else (keys, vals);
      if snake then Put(c.0, c.1, ToSnakeCase(key), Convert(value, Snake)) else c
    case _ => Put(keys, vals, Key(key, kind), Convert(value, kind))
  }

  ghost predicate Distinct(keys: seq<string>) {
    forall i, j | 0 <= i < j < |keys| :: keys[i] != keys[j]
  }

  // Keys of an object are distinct; ASCII is this model's alphabet.
  ghost predicate WellFormed(v: Json) {
    match v
    case Atom(_) => true
    case Arr(items) => forall x <- items :: WellFormed(x)
    case Obj(keys, vals) =>
      && |keys| == |vals| && Distinct(keys)
      && (forall k <- keys :: Ascii(k))
      && (forall x <- vals :: WellFormed(x))
  }

  function Opposite(kind: CaseType): CaseType { if kind == Camel then Snake else Camel }

  // The keys that survive a conversion to `kind` and back.
  predicate KeyReturns(key: string, kind: CaseType) {
    if kind == Camel then NoUpper(key) && UnderscoresLead(key) else UnderscoresInert(key)
  }

  ghost predicate AllKeysReturn(v: Json, kind: CaseType) {
    match v
    case Atom(_) => true
    case Arr(items) => forall x <- items :: AllKeysReturn(x, kind)
    case Obj(keys, vals) =>
      (forall k <- keys :: KeyReturns(k, kind)) && (forall x <- vals :: AllKeysReturn(x, kind))
  }

  lemma KeyReturnsIff(key: string, kind: CaseType)
    requires Ascii(key) && (kind == Camel || kind == Snake)
    ensures Key(Key(key, kind), Opposite(kind)) == key <==> KeyReturns(key, kind)
  {
    if kind == Camel { SnakeAfterCamelIff(key); } else { CamelAfterSnakeIff(key); }
  }

  lemma {:induction false} ItemsAt(items: seq<Json>, kind: CaseType, i: nat)
    requires i < |items|
    ensures ConvertItems(items, kind)[i] == Convert(items[i], ItemKind(kind))
    decreases |items|
  {
    if i < |items| - 1 { ItemsAt(items[..|items| - 1], kind, i); }
  }

  // When no entry is lost, the entries are converted one by one, in place.
  ghost predicate OneByOne(keys: seq<string>, vals: seq<Json>, kind: CaseType, r: (seq<string>, seq<Json>))
    requires |keys| == |vals|
  {
    && |r.0| == |keys| == |r.1|
    && (forall i | 0 <= i < |keys| :: r.0[i] == Key(keys[i], kind))
    && (forall i | 0 <= i < |keys| :: r.1[i] == Convert(vals[i], kind))
  }

  lemma OneMore(keys: seq<string>, vals: seq<Json>, kind: CaseType, r: (seq<string>, seq<Json>))
    requires |keys| == |vals| > 0
    requires OneByOne(keys[..|keys| - 1], vals[..|keys| - 1], kind, r)
    ensures var n := |keys| - 1;
      OneByOne(keys, vals, kind, (r.0 + [Key(keys[n], kind)], r.1 + [Convert(vals[n], kind)]))
  {
    var n := |keys| - 1;
    assert forall i | 0 <= i < n :: keys[..n][i] == keys[i] && vals[..n][i] == vals[i];
  }

  lemma {:induction false} EntriesLostOrKept(keys: seq<string>, vals: seq<Json>, kind: CaseType)
    requires |keys| == |vals| && (kind == Camel || kind == Snake)
    ensures |ConvertEntries(keys, vals, kind).0| <= |keys|
    ensures |ConvertEntries(keys, vals, kind).0| == |keys| ==>
              OneByOne(keys, vals, kind, ConvertEntries(keys, vals, kind))
    decreases |keys|
  {
    if keys != [] {
      var n := |keys| - 1;
      EntriesLostOrKept(keys[..n], vals[..n], kind);
      var r := ConvertEntries(keys[..n], vals[..n], kind);
      assert ConvertEntries(keys, vals, kind) == Put(r.0, r.1, Key(keys[n], kind), Convert(vals[n], kind));
      if |ConvertEntries(keys, vals, kind).0| == |keys| { OneMore(keys, vals, kind, r); }
    }
  }

  ghost predicate NoneCollide(keys: seq<string>, kind: CaseType) {
    forall i, j | 0 <= i < j < |keys| :: Key(keys[i], kind) != Key(keys[j], kind)
  }

  lemma {:induction false} NoCollision(keys: seq<string>, vals: seq<Json>, kind: CaseType)
    requires |keys| == |vals| && (kind == Camel || kind == Snake)
    requires NoneCollide(keys, kind)
    ensures OneByOne(keys, vals, kind, ConvertEntries(keys, vals, kind))
    decreases |keys|
  {
    if keys != [] {
      var n := |keys| - 1;
      NoCollision(keys[..n], vals[..n], kind);
      var r := ConvertEntries(keys[..n], vals[..n], kind);
      forall i | 0 <= i < n ensures r.0[i] != Key(keys[n], kind) {
        assert keys[..n][i] == keys[i];
      }
      OneMore(keys, vals, kind, r);
    }
  }

  // Keys that come back did not collide on the way there, nor do they on the way back.
  lemma ReturningKeysStayApart(keys: seq<string>, there: seq<string>, kind: CaseType)
    requires Distinct(keys) && |there| == |keys| && (kind == Camel || kind == Snake)
    requires forall i | 0 <= i < |keys| :: there[i] == Key(keys[i], kind)
    requires forall i | 0 <= i < |keys| :: Key(there[i], Opposite(kind)) == keys[i]
    ensures NoneCollide(keys, kind) && NoneCollide(there, Opposite(kind))
  {
    forall i, j | 0 <= i < j < |keys| ensures Key(keys[i], kind) != Key(keys[j], kind) {
      assert there[i] != there[j] by { assert Key(there[i], Opposite(kind)) != Key(there[j], Opposite(kind)); }
    }
  }

  // Converting entries `there` and `back` returns them.
  ghost predicate EntriesReturn(keys: seq<string>, vals: seq<Json>, kind: CaseType) {
    var r := ConvertEntries(keys, vals, kind);
    ConvertEntries(r.0, r.1, Opposite(kind)) == (keys, vals)
  }

  ghost predicate Returns(v: Json, kind: CaseType) {
    Convert(Convert(v, kind), Opposite(kind)) == v
  }

  lemma ReturningEntries(keys: seq<string>, vals: seq<Json>, kind: CaseType)
    requires |keys| == |vals| && Distinct(keys) && (kind == Camel || kind == Snake)
    requires forall k <- keys :: Key(Key(k, kind), Opposite(kind)) == k
    requires forall x <- vals :: Returns(x, kind)
    ensures EntriesReturn(keys, vals, kind)
  {
    var there := seq(|keys|, i requires 0 <= i < |keys| => Key(keys[i], kind));
    forall i | 0 <= i < |keys| ensures Key(there[i], Opposite(kind)) == keys[i] { assert keys[i] in keys; }
    ReturningKeysStayApart(keys, there, kind);
    NoCollision(keys, vals, kind);
    var r := ConvertEntries(keys, vals, kind);
    assert r.0 == there;
    NoCollision(r.0, r.1, Opposite(kind));
    var back := ConvertEntries(r.0, r.1, Opposite(kind));
    assert back.0 == keys;
    forall i | 0 <= i < |vals| ensures back.1[i] == vals[i] { assert Returns(vals[i], kind); }
    assert back.1 == vals;
  }

  lemma ReturnedEntries(keys: seq<string>, vals: seq<Json>, kind: CaseType)
    requires |keys| == |vals| && (kind == Camel || kind == Snake)
    requires EntriesReturn(keys, vals, kind)
    ensures forall i | 0 <= i < |keys| :: Key(Key(keys[i], kind), Opposite(kind)) == keys[i]
    ensures forall i | 0 <= i < |vals| :: Returns(vals[i], kind)
  {
    var r := ConvertEntries(keys, vals, kind);
    EntriesLostOrKept(keys, vals, kind);
    EntriesLostOrKept(r.0, r.1, Opposite(kind));
    assert OneByOne(keys, vals, kind, r) && OneByOne(r.0, r.1, Opposite(kind), (keys, vals));
  }

  lemma EntriesReturnIff(keys: seq<string>, vals: seq<Json>, kind: CaseType)
    requires |keys| == |vals| && Distinct(keys) && (kind == Camel || kind == Snake)
    requires forall k <- keys :: Ascii(k)
    ensures EntriesReturn(keys, vals, kind) <==>
              (forall k <- keys :: KeyReturns(k, kind)) && (forall x <- vals :: Returns(x, kind))
  {
    forall k | k in keys ensures Key(Key(k, kind), Opposite(kind)) == k <==> KeyReturns(k, kind) {
      KeyReturnsIff(k, kind);
    }
    if EntriesReturn(keys, vals, kind) {
      ReturnedEntries(keys, vals, kind);
    } else if (forall k <- keys :: KeyReturns(k, kind)) && (forall x <- vals :: Returns(x, kind)) {
      ReturningEntries(keys, vals, kind);
    }
  }

  lemma ItemsReturnIff(items: seq<Json>, kind: CaseType)
    requires kind == Camel || kind == Snake
    ensures ConvertItems(ConvertItems(items, kind), Opposite(kind)) == items <==>
              forall x <- items :: Returns(x, kind)
  {
    var there := ConvertItems(items, kind);
    var back := ConvertItems(there, Opposite(kind));
    forall i | 0 <= i < |items| ensures back[i] == items[i] <==> Returns(items[i], kind) {
      ItemsAt(items, kind, i);
      ItemsAt(there, Opposite(kind), i);
    }
    if forall x <- items :: Returns(x, kind) {
      forall i | 0 <= i < |items| ensures back[i] == items[i] { assert items[i] in items; }
    }
  }

  // MAIN: converting every key of a nested value and converting back is the identity exactly
  // when every key survives by itself; no two keys then collide on the way.
  lemma {:induction false} ConvertReturnsIff(v: Json, kind: CaseType)
    requires WellFormed(v) && (kind == Camel || kind == Snake)
    ensures Returns(v, kind) <==> AllKeysReturn(v, kind)
    decreases v
  {
    match v
    case Atom(_) =>
    case Arr(items) =>
      forall x | x in items ensures Returns(x, kind) <==> AllKeysReturn(x, kind) { ConvertReturnsIff(x, kind); }
      ItemsReturnIff(items, kind);
    case Obj(keys, vals) =>
      forall x | x in vals ensures Returns(x, kind) <==> AllKeysReturn(x, kind) { ConvertReturnsIff(x, kind); }
      EntriesReturnIff(keys, vals, kind);
  }

  // With a case type that names neither, one or both forms, exactly the keys of those forms result.
  lemma {:induction false} KeysOfForms(keys: seq<string>, vals: seq<Json>, camel: bool, snake: bool, k: string)
    requires |keys| == |vals|
    ensures k in ConvertEntries(keys, vals, Other(camel, snake)).0 <==>
      exists i :: 0 <= i < |keys| && ((camel && k == ToCamelCase(keys[i])) || (snake && k == ToSnakeCase(keys[i])))
    decreases |keys|
  {
    if keys != [] {
      var n := |keys| - 1;
      KeysOfForms(keys[..n], vals[..n], camel, snake, k);
      assert forall i | 0 <= i < n :: keys[..n][i] == keys[i];
    }
  }

  // A falsy case type leaves everything as it is.
  lemma UntouchedStays(v: Json)
    ensures Convert(v, Untouched) == v
  {
  }

  // In an array the snake form is written last, over the camel one; with neither form no item is
  // written at all.
  lemma {:induction false} ItemsOfForms(items: seq<Json>, camel: bool, snake: bool, i: nat)
    requires i < |items|
    ensures var r := Convert(Arr(items), Other(camel, snake));
      && r.Arr?
      && (!camel && !snake ==> r.items == [])
      && (camel || snake ==>
            |r.items| == |items| && r.items[i] == if snake then Convert(items[i], Snake) else Convert(items[i], Camel))
  {
    ItemsAt(items, Other(camel, snake), i);
  }

  // And an object with a single key holds each form of its value under that form of the key; where
  // they coincide, the snake form.
  lemma BothForms(key: string, value: Json)
    ensures var r := ConvertEntries([key], [value], Other(true, true));
      && (ToCamelCase(key) != ToSnakeCase(key) ==>
            r == ([ToCamelCase(key), ToSnakeCase(key)], [Convert(value, Camel), Convert(value, Snake)]))
      && (ToCamelCase(key) == ToSnakeCase(key) ==> r == ([ToSnakeCase(key)], [Convert(value, Snake)]))
  {
    assert [key][..0] == [] && [value][..0] == [];
    assert ConvertEntries([], [], Other(true, true)) == ([], []);
    assert ConvertEntries([key], [value], Other(true, true)) == AddEntry([], [], key, value, Other(true, true));
    var c, w := ToCamelCase(key), Convert(value, Camel);
    var ks: seq<string>, ws: seq<Json> := [], [];
    assert ks + [c] == [c] && ws + [w] == [w] && V.IndexOf(ks, c) == 0;
    assert Put(ks, ws, c, w) == ([c], [w]);
    var k, x := ToSnakeCase(key), Convert(value, Snake);
    assert [c] + [k] == [c, k] && [w] + [x] == [w, x];
    assert [w][0 := x] == [x] && V.IndexOf([c], k) == if c == k then 0 else 1;
  }

  /** The loop over the keys, building a fresh array or object. */
  method ConvertCase(v: Json, kind: CaseType) returns (r: Json)
    ensures r == Convert(v, kind)
    decreases v, 2
  {
    if v.Atom? || kind == Untouched { return v; }
    match v
    case Arr(items) =>
      if kind == Other(false, false) { return Arr([]); }
      var newItems := ConvertArray(items, kind);
      r := Arr(newItems);
    case Obj(keys, vals) =>
      var newKeys, newVals := ConvertObject(keys, vals, kind);
      r := Obj(newKeys, newVals);
  }

  method ConvertArray(items: seq<Json>, kind: CaseType) returns (r: seq<Json>)
    ensures r == ConvertItems(items, kind)
    decreases items, 1
  {
    r := [];
    for i := 0 to |items|
      invariant r == ConvertItems(items[..i], kind)
    {
      var item := ConvertCase(items[i], ItemKind(kind));
      assert items[..i + 1][..i] == items[..i];
      r := r + [item];
    }
    assert items[..|items|] == items;
  }

  method ConvertObject(keys: seq<string>, vals: seq<Json>, kind: CaseType) returns (k: seq<string>, w: seq<Json>)
    requires kind != Untouched
    ensures (k, w) == ConvertEntries(keys, vals, kind)
    decreases vals, 1
  {
    k, w := [], [];
    if |keys| != |vals| { return; }
    for i := 0 to |vals|
      invariant (k, w) == ConvertEntries(keys[..i], vals[..i], kind)
    {
      assert keys[..i + 1][..i] == keys[..i] && vals[..i + 1][..i] == vals[..i];
      k, w := ConvertEntry(k, w, keys[i], vals[i], kind);
    }
    assert keys[..|keys|] == keys && vals[..|vals|] == vals;
  }

  method ConvertEntry(keys: seq<string>, vals: seq<Json>, key: string, value: Json, kind: CaseType)
    returns (k: seq<string>, w: seq<Json>)
    requires |keys| == |vals| && kind != Untouched
    ensures (k, w) == AddEntry(keys, vals, key, value, kind)
    decreases value, 3
  {
    k, w := keys, vals;
    if kind == Camel || (kind.Other? && kind.camel) {
      var converted := ConvertCase(value, Camel);
      var put := Put(k, w, ToCamelCase(key), converted);
      k, w := put.0, put.1;
    }
    if kind == Snake || (kind.Other? && kind.snake) {
      var converted := ConvertCase(value, Snake);
      var put := Put(k, w, ToSnakeCase(key), converted);
      k, w := put.0, put.1;
    }
  }
}
