/**
 The object store of an RPC client: nested dictionaries addressed by dotted session ids.
 `_get_session_store`, `index_object`, `_delete_session_completely` and
 `_cleanup_empty_parent_containers`, with the laws they obey.
 */
module ObjectStore {
  import opened Wrappers

  // What is stored: containers, callables, and the plain entries of a session.
  datatype Function = User(id: nat) | NextItem(generator: nat) | CloseGenerator(generator: nat)

  datatype Item = Callable(f: Function) | Text(text: string) | Stamp(time: int)

  datatype Node = Dict(entries: Tree) | Leaf(item: Item)

  type Tree = map<string, Node>

  type Path = seq<string>

  const SYSTEM := {"services", "message_cache"}

  // ---------------------------------------------------------------- dotted ids

  // str.split(".")
  function Split(s: string): (p: Path)
    ensures |p| >= 1
  {
    if s == "" then [""]
    else
      var rest := Split(s[1..]);
      Prepend(s[0], rest)
  }

  predicate DotFree(s: string) { '.' !in s }

  lemma {:induction false} SplitDotFree(s: string)
    requires DotFree(s)
    ensures Split(s) == [s]
  {
    if s != "" {
      SplitDotFree(s[1..]);
      assert [s[0]] + s[1..] == s;
    }
  }

  lemma {:induction false} SplitDotted(s: string)
    ensures |Split(s)| == 1 <==> DotFree(s)
  {
    if s != "" { SplitDotted(s[1..]); }
  }

  lemma {:induction false} SplitLevelsDotFree(s: string)
    ensures forall i | 0 <= i < |Split(s)| :: DotFree(Split(s)[i])
  {
    if s != "" { SplitLevelsDotFree(s[1..]); }
  }

  function Prepend(c: char, p: Path): Path
    requires p != []
  {
    if c == '.' then [""] + p else [[c] + p[0]] + p[1..]
  }

  lemma PrependConcat(c: char, p: Path, q: Path)
    requires p != []
    ensures Prepend(c, p) + q == Prepend(c, p + q)
  {
  }

  // The levels of "a.b" are those of a, then those of b.
  lemma {:induction false} SplitConcat(a: string, b: string)
    ensures Split(a + "." + b) == Split(a) + Split(b)
  {
    var s := a + "." + b;
    if a == "" {
      assert s[1..] == b;
      assert Split(s) == [""] + Split(b);
    } else {
      SplitConcat(a[1..], b);
      assert s[1..] == a[1..] + "." + b;
      PrependConcat(a[0], Split(a[1..]), Split(b));
    }
  }

  lemma PrefixStep(p: Path, q: Path)
    requires p != [] && q != [] && p[0] == q[0]
    ensures p <= q <==> p[1..] <= q[1..]
    ensures q <= p <==> q[1..] <= p[1..]
  {
    if p[1..] <= q[1..] { assert p == [p[0]] + p[1..] && q == [q[0]] + q[1..]; }
    if q[1..] <= p[1..] { assert p == [p[0]] + p[1..] && q == [q[0]] + q[1..]; }
  }

  // ---------------------------------------------------------------- reading

  // `index_object` on dictionaries; None where Python raises.
  function Lookup(d: Tree, path: Path): Option<Node>
    requires path != []
    decreases |path|
  {
    if path[0] !in d then None
    else if |path| == 1 then Some(d[path[0]])
    else
      match d[path[0]]
      case Dict(e) => Lookup(e, path[1..])
      case Leaf(_) => None
  }

  predicate Present(d: Tree, path: Path)
    requires path != []
  {
    Lookup(d, path).Some?
  }

  // The dictionary at a path, the root for the empty one.
  function DictAt(d: Tree, path: Path): Option<Tree>
    decreases |path|
  {
    if path == [] then Some(d)
    else if path[0] in d && d[path[0]].Dict? then DictAt(d[path[0]].entries, path[1..])
    else None
  }

  lemma {:induction false} DictAtIsLookup(d: Tree, path: Path)
    requires path != []
    ensures DictAt(d, path).Some? <==> Lookup(d, path).Some? && Lookup(d, path).value.Dict?
    ensures DictAt(d, path).Some? ==> Lookup(d, path) == Some(Dict(DictAt(d, path).value))
    decreases |path|
  {
    if |path| > 1 && path[0] in d && d[path[0]].Dict? { DictAtIsLookup(d[path[0]].entries, path[1..]); }
  }

  lemma {:induction false} LookupSplits(d: Tree, p: Path, q: Path)
    requires q != [] && DictAt(d, p).Some?
    ensures Lookup(d, p + q) == Lookup(DictAt(d, p).value, q)
    decreases |p|
  {
    if p == [] { assert p + q == q; }
    else {
      assert (p + q)[1..] == p[1..] + q;
      LookupSplits(d[p[0]].entries, p[1..], q);
    }
  }

  // ---------------------------------------------------------------- writing in place

  // Assigning the dictionary at an existing path.
  function SetAt(d: Tree, path: Path, e: Tree): Tree
    requires DictAt(d, path).Some?
    decreases |path|
  {
    if path == [] then e else d[path[0] := Dict(SetAt(d[path[0]].entries, path[1..], e))]
  }

  lemma {:induction false} DictAtSetAt(d: Tree, path: Path, e: Tree)
    requires DictAt(d, path).Some?
    ensures DictAt(SetAt(d, path, e), path) == Some(e)
    decreases |path|
  {
    if path != [] { DictAtSetAt(d[path[0]].entries, path[1..], e); }
  }

  // A path that does not lead into the assigned dictionary keeps its meaning.
  lemma {:induction false} SetAtElsewhere(d: Tree, path: Path, e: Tree, q: Path)
    requires DictAt(d, path).Some? && q != [] && !(path <= q) && !(q <= path)
    ensures Lookup(SetAt(d, path, e), q) == Lookup(d, q)
    decreases |path|
  {
    if q[0] == path[0] {
      PrefixStep(path, q);
      SetAtElsewhere(d[path[0]].entries, path[1..], e, q[1..]);
    }
  }

  lemma {:induction false} SetAtInside(d: Tree, path: Path, e: Tree, q: Path)
    requires DictAt(d, path).Some? && q != []
    ensures Lookup(SetAt(d, path, e), path + q) == Lookup(e, q)
  {
    DictAtSetAt(d, path, e);
    LookupSplits(SetAt(d, path, e), path, q);
  }

  // ---------------------------------------------------------------- create

  // A fresh top-level session carries its creation and activity times.
  function Fresh(top: bool, now: int): Tree {
    if top then map["_created_at" := Leaf(Stamp(now)), "_last_activity_at" := Leaf(Stamp(now))] else map[]
  }

  // `_get_session_store(create=True)`; None where a level is not a dictionary (TypeError).
  function Create(d: Tree, path: Path, top: bool, now: int): Option<Tree>
    requires path != []
    decreases |path|
  {
    var k := path[0];
    if |path| == 1 then
      Some(if k in d then d else d[k := Dict(Fresh(top, now))])
    else
      var child := if k in d then d[k] else Dict(map[]);
      match child
      case Leaf(_) => None
      case Dict(e) =>
        match Create(e, path[1..], false, now)
        case None => None
        case Some(c) => Some(d[k := Dict(c)])
  }

  // MAIN: creating makes the path resolvable and keeps what was there.
  lemma {:induction false} CreateLaw(d: Tree, path: Path, top: bool, now: int)
    requires path != [] && Create(d, path, top, now).Some?
    ensures var d' := Create(d, path, top, now).value;
            && Present(d', path)
            && (Present(d, path) ==> d' == d)
            && (!Present(d, path) ==> Lookup(d', path) == Some(Dict(Fresh(top && |path| == 1, now))))
            && (!Present(d, path) ==>
                  var made := DictAt(d', path);
                  made.Some? && made.value.Keys
                    == if top && |path| == 1 then {"_created_at", "_last_activity_at"} else {})
    decreases |path|
  {
    if |path| > 1 {
      var k := path[0];
      var e := if k in d then d[k].entries else map[];
      CreateLaw(e, path[1..], false, now);
      if Present(d, path) { assert d[k := Dict(e)] == d; }
    }
  }

  // Every path that is not a prefix of it and does not lead below it means what it meant.
  lemma {:induction false} CreateElsewhere(d: Tree, path: Path, top: bool, now: int, q: Path)
    requires path != [] && Create(d, path, top, now).Some?
    requires q != [] && !(q <= path) && !(path <= q)
    ensures Lookup(Create(d, path, top, now).value, q) == Lookup(d, q)
    decreases |path|
  {
    if q[0] == path[0] {
      PrefixStep(path, q);
      if |path| > 1 {
        var e := if path[0] in d then d[path[0]].entries else map[];
        CreateElsewhere(e, path[1..], false, now, q[1..]);
      }
    }
  }

  // A container on the way gains at most the next level.
  lemma {:induction false} CreateContainers(d: Tree, path: Path, top: bool, now: int, n: nat)
    requires n < |path| && Create(d, path, top, now).Some?
    ensures var d' := Create(d, path, top, now).value;
            && DictAt(d', path[..n]).Some?
            && (DictAt(d, path[..n]).Some? ==>
                  DictAt(d', path[..n]).value.Keys == DictAt(d, path[..n]).value.Keys + {path[n]})
            && (DictAt(d, path[..n]).None? ==> DictAt(d', path[..n]).value.Keys == {path[n]})
    decreases |path|
  {
    var k := path[0];
    if n > 0 {
      var e := if k in d then d[k].entries else map[];
      CreateContainers(e, path[1..], false, now, n - 1);
      assert path[..n][1..] == path[1..][..n - 1];
      if k !in d && n > 1 { assert DictAt(map[], path[1..][..n - 1]).None?; }
    }
  }

  // Making the missing container of one level first changes nothing.
  lemma {:induction false} CreateAbsorbs(d: Tree, path: Path, top: bool, now: int, i: nat)
    requires i + 1 < |path| && DictAt(d, path[..i]).Some? && path[i] !in DictAt(d, path[..i]).value
    ensures var cur := DictAt(d, path[..i]).value;
            Create(SetAt(d, path[..i], cur[path[i] := Dict(map[])]), path, top, now) == Create(d, path, top, now)
    decreases i
  {
    var cur := DictAt(d, path[..i]).value;
    var d1 := SetAt(d, path[..i], cur[path[i] := Dict(map[])]);
    if i == 0 {
      match Create(map[], path[1..], false, now)
      case None =>
      case Some(c) => assert d1[path[0] := Dict(c)] == d[path[0] := Dict(c)];
    } else {
      assert path[..i][1..] == path[1..][..i - 1];
      CreateAbsorbs(d[path[0]].entries, path[1..], false, now, i - 1);
      match Create(d[path[0]].entries, path[1..], false, now)
      case None =>
      case Some(c) => assert d1[path[0] := Dict(c)] == d[path[0] := Dict(c)];
    }
  }

  lemma {:induction false} CreateLast(d: Tree, path: Path, top: bool, now: int)
    requires path != [] && DictAt(d, path[..|path| - 1]).Some?
    ensures var cur, k := DictAt(d, path[..|path| - 1]).value, path[|path| - 1];
            Create(d, path, top, now)
            == Some(if k in cur then d
                    else SetAt(d, path[..|path| - 1], cur[k := Dict(Fresh(top && |path| == 1, now))]))
    decreases |path|
  {
    var n := |path| - 1;
    if n > 0 {
      assert path[..n][1..] == path[1..][..n - 1];
      CreateLast(d[path[0]].entries, path[1..], false, now);
      assert d[path[0] := d[path[0]]] == d;
    }
  }

  lemma {:induction false} CreateWhenAbsent(d: Tree, path: Path, top: bool, now: int, i: nat)
    requires i < |path| && DictAt(d, path[..i]).Some? && path[i] !in DictAt(d, path[..i]).value
    ensures Create(d, path, top, now).Some?
    decreases |path|
  {
    if i > 0 {
      assert path[..i][1..] == path[1..][..i - 1];
      CreateWhenAbsent(d[path[0]].entries, path[1..], false, now, i - 1);
    } else if |path| > 1 {
      CreateWhenAbsent(map[], path[1..], false, now, 0);
    }
  }

  lemma {:induction false} DictAtChild(d: Tree, path: Path, i: nat)
    requires i < |path| && DictAt(d, path[..i]).Some?
    requires path[i] in DictAt(d, path[..i]).value && DictAt(d, path[..i]).value[path[i]].Dict?
    ensures DictAt(d, path[..i + 1]) == Some(DictAt(d, path[..i]).value[path[i]].entries)
    decreases i
  {
    if i > 0 {
      assert path[..i][1..] == path[1..][..i - 1];
      assert path[..i + 1][1..] == path[1..][..i];
      DictAtChild(d[path[0]].entries, path[1..], i - 1);
    } else {
      assert path[..1][1..] == [];
    }
  }

  lemma {:induction false} CreateBlocked(d: Tree, path: Path, top: bool, now: int, i: nat)
    requires i + 1 < |path| && DictAt(d, path[..i]).Some?
    requires path[i] in DictAt(d, path[..i]).value && DictAt(d, path[..i]).value[path[i]].Leaf?
    ensures Create(d, path, top, now) == None
    decreases i
  {
    if i > 0 {
      assert path[..i][1..] == path[1..][..i - 1];
      CreateBlocked(d[path[0]].entries, path[1..], false, now, i - 1);
    }
  }

  // ---------------------------------------------------------------- delete

  // "Empty" for the clean-up: nothing but system stores.
  predicate OnlySystem(d: Tree) { d.Keys <= SYSTEM }

  // Deleting an entry that is there, then each ancestor it leaves empty. The flag says
  // whether the clean-up still goes on above this level.
  function Prune(d: Tree, path: Path): (r: (Tree, bool))
    requires path != [] && Present(d, path)
    decreases |path|
  {
    var k := path[0];
    if |path| == 1 then (d - {k}, true)
    else
      var below := Prune(d[k].entries, path[1..]);
      if below.1 && OnlySystem(below.0) then (d - {k}, true) else (d[k := Dict(below.0)], false)
  }

  // `_delete_session_completely` on the store: nothing happens when the path is broken.
  function Delete(d: Tree, path: Path): Tree
    requires path != []
  {
    if Present(d, path) then Prune(d, path).0 else d
  }

  // Removing one subtree, nothing else.
  function RemoveAt(d: Tree, path: Path): Tree
    requires path != [] && Present(d, path)
    decreases |path|
  {
    if |path| == 1 then d - {path[0]} else d[path[0] := Dict(RemoveAt(d[path[0]].entries, path[1..]))]
  }

  // How much of the path stays: the subtree at path[..CutLevel] is what goes.
  function CutLevel(d: Tree, path: Path): (m: nat)
    requires path != [] && Present(d, path)
    ensures 1 <= m <= |path|
    decreases |path|
  {
    if |path| == 1 then 1
    else
      var m := CutLevel(d[path[0]].entries, path[1..]);
      if m == 1 && OnlySystem(d[path[0]].entries - {path[1]}) then 1 else m + 1
  }

  lemma {:induction false} PresentPrefix(d: Tree, path: Path, n: nat)
    requires path != [] && Present(d, path) && 0 < n <= |path|
    ensures Present(d, path[..n])
    ensures n < |path| ==> DictAt(d, path[..n]).Some? && path[n] in DictAt(d, path[..n]).value
    decreases n
  {
    if n > 1 {
      assert path[..n][1..] == path[1..][..n - 1];
      PresentPrefix(d[path[0]].entries, path[1..], n - 1);
    } else if n < |path| {
      var p, e := path[..1], d[path[0]].entries;
      assert Lookup(e, path[1..]).Some?;
      assert path[1..][0] in e;
      assert p[1..] == [] && DictAt(e, p[1..]) == Some(e);
    }
  }

  // MAIN: deletion removes exactly one subtree, the one at the cut level ...
  lemma {:induction false} PruneRemovesOneSubtree(d: Tree, path: Path)
    requires path != [] && Present(d, path)
    ensures Present(d, path[..CutLevel(d, path)])
    ensures Prune(d, path) == (RemoveAt(d, path[..CutLevel(d, path)]), CutLevel(d, path) == 1)
    decreases |path|
  {
    var m := CutLevel(d, path);
    PresentPrefix(d, path, m);
    if |path| > 1 {
      var e, rest := d[path[0]].entries, path[1..];
      PruneRemovesOneSubtree(e, rest);
      assert path[..m][1..] == rest[..m - 1];
      if CutLevel(e, rest) == 1 { assert rest[..1] == [path[1]]; }
    } else {
      assert path[..m] == path;
    }
  }

  // ... and that is the maximal chain of containers that would be left empty.
  lemma {:induction false} CutLevelIsMaximal(d: Tree, path: Path)
    requires path != [] && Present(d, path)
    ensures var m := CutLevel(d, path);
            && (forall i | m <= i < |path| ::
                  DictAt(d, path[..i]).Some?
                  && DictAt(d, path[..i]).value.Keys - {path[i]} <= {"services", "message_cache"})
            && (m > 1 ==>
                  DictAt(d, path[..m - 1]).Some?
                  && !(DictAt(d, path[..m - 1]).value.Keys - {path[m - 1]} <= {"services", "message_cache"}))
    decreases |path|
  {
    var m := CutLevel(d, path);
    if |path| > 1 {
      var e, rest := d[path[0]].entries, path[1..];
      CutLevelIsMaximal(e, rest);
      forall i | m <= i < |path|
        ensures DictAt(d, path[..i]).Some?
        ensures DictAt(d, path[..i]).value.Keys - {path[i]} <= {"services", "message_cache"}
      {
        assert path[..i][1..] == rest[..i - 1];
        assert DictAt(d, path[..i]) == DictAt(e, rest[..i - 1]);
        if i == 1 { assert rest[..0] == []; }
      }
      if m > 1 {
        assert path[..m - 1][1..] == rest[..m - 2];
        assert DictAt(d, path[..m - 1]) == DictAt(e, rest[..m - 2]);
        if m == 2 { assert rest[..0] == []; }
      }
    }
  }

  // What removing one subtree means for every path.
  lemma {:induction false} RemoveAtLaw(d: Tree, path: Path, q: Path)
    requires path != [] && Present(d, path) && q != []
    ensures path <= q ==> !Present(RemoveAt(d, path), q)
    ensures !(path <= q) && !(q <= path) ==> Lookup(RemoveAt(d, path), q) == Lookup(d, q)
    ensures q < path ==>
              && DictAt(d, q).Some? && DictAt(RemoveAt(d, path), q).Some?
              && DictAt(RemoveAt(d, path), q).value.Keys
                 == if |q| + 1 == |path| then DictAt(d, q).value.Keys - {path[|q|]} else DictAt(d, q).value.Keys
    decreases |path|
  {
    if q[0] == path[0] {
      PrefixStep(path, q);
      if |path| > 1 {
        var e := d[path[0]].entries;
        if |q| > 1 {
          RemoveAtLaw(e, path[1..], q[1..]);
        } else {
          assert q[1..] == [];
          assert Lookup(e, path[1..]).Some?;
          assert path[1..][0] in e;
        }
      }
    }
  }

  // ---------------------------------------------------------------- create, then delete

  // No container that was there on the way is empty already: only the deepest one matters.
  predicate Restorable(d: Tree, path: Path)
    requires path != []
    decreases |path|
  {
    |path| == 1 || path[0] !in d || d[path[0]].Leaf?
    || (var e := d[path[0]].entries;
        if path[1] in e then Restorable(e, path[1..]) else !OnlySystem(e))
  }

  lemma {:induction false} PruneCreated(d: Tree, path: Path, top: bool, now: int)
    requires path != [] && !Present(d, path) && Create(d, path, top, now).Some?
    ensures Present(Create(d, path, top, now).value, path)
    ensures var r := Prune(Create(d, path, top, now).value, path);
            && (r.0 == d <==> Restorable(d, path))
            && (path[0] !in d ==> r == (d, true))
            && (path[0] in d && Restorable(d, path) ==> !r.1)
    decreases |path|
  {
    var k := path[0];
    var d' := Create(d, path, top, now).value;
    CreateLaw(d, path, top, now);
    if |path| == 1 {
      assert d' - {k} == d;
    } else {
      var e := if k in d then d[k].entries else map[];
      PruneCreated(e, path[1..], false, now);
      var below := Prune(d'[k].entries, path[1..]);
      if k !in d {
        assert below.0 == map[];
        assert d' - {k} == d;
      } else {
        if below.1 && OnlySystem(below.0) { assert k !in Prune(d', path).0; }
        else { assert below.0 == e ==> d'[k := Dict(below.0)] == d; }
      }
    }
  }

  // A container that was on the path and gets the first new level holds more than system stores.
  ghost predicate DeepestHasContent(d: Tree, path: Path) {
    forall i | 1 <= i < |path| && DictAt(d, path[..i]).Some? && path[i] !in DictAt(d, path[..i]).value ::
      !(DictAt(d, path[..i]).value.Keys <= {"services", "message_cache"})
  }

  lemma {:induction false} RestorableMeaning(d: Tree, path: Path)
    requires path != []
    ensures Restorable(d, path) <==> DeepestHasContent(d, path)
    decreases |path|
  {
    if |path| > 1 && path[0] in d && d[path[0]].Dict? {
      var e, rest := d[path[0]].entries, path[1..];
      assert DictAt(d, path[..1]) == Some(e) by { assert path[..1][1..] == []; }
      forall i | 1 <= i < |rest| ensures DictAt(d, path[..i + 1]) == DictAt(e, rest[..i]) && path[i + 1] == rest[i] {
        assert path[..i + 1][1..] == rest[..i];
      }
      if path[1] in e {
        RestorableMeaning(e, rest);
        DeeperOnly(d, path, e, rest);
      } else {
        MissingBelow(e, rest);
      }
    } else {
      forall i | 1 <= i < |path| ensures DictAt(d, path[..i]).None? {}
    }
  }

  lemma DeeperOnly(d: Tree, path: Path, e: Tree, rest: Path)
    requires |path| > 1 && rest == path[1..] && path[1] in e && DictAt(d, path[..1]) == Some(e)
    requires forall i | 1 <= i < |rest| :: DictAt(d, path[..i + 1]) == DictAt(e, rest[..i]) && path[i + 1] == rest[i]
    ensures DeepestHasContent(d, path) <==> DeepestHasContent(e, rest)
  {
    forall i | DeepestHasContent(e, rest) && 1 <= i < |path|
        && DictAt(d, path[..i]).Some? && path[i] !in DictAt(d, path[..i]).value
      ensures !(DictAt(d, path[..i]).value.Keys <= {"services", "message_cache"})
    {
      assert i > 1 && DictAt(d, path[..(i - 1) + 1]) == DictAt(e, rest[..i - 1]);
    }
    forall i | DeepestHasContent(d, path) && 1 <= i < |rest|
        && DictAt(e, rest[..i]).Some? && rest[i] !in DictAt(e, rest[..i]).value
      ensures !(DictAt(e, rest[..i]).value.Keys <= {"services", "message_cache"})
    {
      assert DictAt(d, path[..i + 1]) == DictAt(e, rest[..i]);
    }
  }

  lemma MissingBelow(e: Tree, rest: Path)
    requires rest != [] && rest[0] !in e
    ensures forall i | 1 <= i < |rest| :: DictAt(e, rest[..i]).None?
  {
  }

  // MAIN: creating an absent nested session and deleting it again restores the store exactly
  // when the deepest container that was on its path is not empty.
  lemma CreateDeleteRestoresIff(d: Tree, path: Path, top: bool, now: int)
    requires path != [] && !Present(d, path) && Create(d, path, top, now).Some?
    ensures Delete(Create(d, path, top, now).value, path) == d <==> DeepestHasContent(d, path)
  {
    PruneCreated(d, path, top, now);
    RestorableMeaning(d, path);
  }

  // ---------------------------------------------------------------- the clean-up as a loop

  // `_cleanup_empty_parent_containers` from level i up: stop at the first container with content.
  function Climb(d: Tree, path: Path, i: nat): Tree
    requires i < |path|
    decreases i
  {
    if i == 0 || DictAt(d, path[..i - 1]).None? then d
    else if DictAt(d, path[..i]).None? then Climb(d, path, i - 1)
    else if !OnlySystem(DictAt(d, path[..i]).value) then d
    else
      assert Present(d, path[..i]) by { DictAtIsLookup(d, path[..i]); }
      Climb(RemoveAt(d, path[..i]), path, i - 1)
  }

  // Going up from the bottom is what the recursion does on its way back.
  lemma {:induction false} ClimbIsPrune(d: Tree, path: Path)
    requires path != [] && Present(d, path)
    ensures Climb(RemoveAt(d, path), path, |path| - 1) == Prune(d, path).0
  {
    var n := |path|;
    PruneRemovesOneSubtree(d, path);
    CutLevelIsMaximal(d, path);
    assert path[..n] == path;
    ClimbFrom(d, path, n, CutLevel(d, path));
  }

  // After the subtree at level i is gone, climbing ends with the one at the cut level gone.
  lemma {:induction false} ClimbFrom(d: Tree, path: Path, i: nat, m: nat)
    requires path != [] && Present(d, path) && m == CutLevel(d, path) && m <= i <= |path|
    ensures Present(d, path[..i]) && Present(d, path[..m])
    ensures Climb(RemoveAt(d, path[..i]), path, i - 1) == RemoveAt(d, path[..m])
    decreases i
  {
    PresentPrefix(d, path, i);
    PresentPrefix(d, path, m);
    if i > 1 {
      CutLevelIsMaximal(d, path);
      ParentAfterRemoval(d, path, i);
      var d' := RemoveAt(d, path[..i]);
      if m < i {
        assert OnlySystem(DictAt(d, path[..i - 1]).value - {path[i - 1]});
        assert Climb(d', path, i - 1) == Climb(RemoveAt(d, path[..i - 1]), path, i - 2);
        ClimbFrom(d, path, i - 1, m);
      }
    }
  }

  lemma ParentAfterRemoval(d: Tree, path: Path, i: nat)
    requires 1 < i <= |path| && Present(d, path)
    ensures Present(d, path[..i]) && Present(d, path[..i - 1]) && DictAt(d, path[..i - 1]).Some?
    ensures var d' := RemoveAt(d, path[..i]);
            && DictAt(d', path[..i - 2]).Some?
            && DictAt(d', path[..i - 1]) == Some(DictAt(d, path[..i - 1]).value - {path[i - 1]})
            && Present(d', path[..i - 1])
            && RemoveAt(d', path[..i - 1]) == RemoveAt(d, path[..i - 1])
  {
    PresentPrefix(d, path, i);
    PresentPrefix(d, path, i - 1);
    RemovedParent(d, path[..i]);
    assert path[..i][..i - 1] == path[..i - 1];
    if i > 2 {
      PresentPrefix(RemoveAt(d, path[..i]), path[..i - 1], i - 2);
      assert path[..i - 1][..i - 2] == path[..i - 2];
    }
  }

  lemma {:induction false} RemovedParent(d: Tree, path: Path)
    requires |path| > 1 && Present(d, path)
    ensures var p := path[..|path| - 1];
            && DictAt(d, p).Some? && Present(d, p)
            && DictAt(RemoveAt(d, path), p) == Some(DictAt(d, p).value - {path[|path| - 1]})
            && Present(RemoveAt(d, path), p)
            && RemoveAt(RemoveAt(d, path), p) == RemoveAt(d, p)
    decreases |path|
  {
    var p := path[..|path| - 1];
    PresentPrefix(d, path, |p|);
    var e := d[path[0]].entries;
    if |path| == 2 {
      assert p[1..] == [] && path[1..] == [path[1]];
      assert RemoveAt(d, path) - {path[0]} == d - {path[0]};
    } else {
      assert p[1..] == path[1..][..|path| - 2];
      RemovedParent(e, path[1..]);
      assert RemoveAt(d, path)[p[0] := Dict(RemoveAt(e, p[1..]))] == d[p[0] := Dict(RemoveAt(e, p[1..]))];
    }
  }

  /** The store as the client holds it: one dictionary, updated in place level by level. */
  class Store {
    var root: Tree

    constructor ()
      ensures root == map[]
    {
      root := map[];
    }

    // `_get_session_store(session_id, create=True)`: walks down, adding what is missing.
    method GetSessionStore(levels: Path, now: int) returns (ok: bool)
      requires levels != []
      modifies this
      ensures ok <==> Create(old(root), levels, true, now).Some?
      ensures root == if ok then Create(old(root), levels, true, now).value else old(root)
    {
      var n := |levels| - 1;
      var i := 0;
      ghost var begin := root;
      while i < n
        invariant i <= n && DictAt(root, levels[..i]).Some?
        invariant Create(root, levels, true, now) == Create(begin, levels, true, now)
        invariant root == begin || Create(begin, levels, true, now).Some?
      {
        var cursor := DictAt(root, levels[..i]).value;
        if levels[i] !in cursor {
          CreateAbsorbs(root, levels, true, now, i);
          CreateWhenAbsent(root, levels, true, now, i);
          DictAtSetAt(root, levels[..i], cursor[levels[i] := Dict(map[])]);
          root := SetAt(root, levels[..i], cursor[levels[i] := Dict(map[])]);
          DictAtChild(root, levels, i);
        } else if cursor[levels[i]].Leaf? {
          CreateBlocked(root, levels, true, now, i);
          return false;
        } else {
          DictAtChild(root, levels, i);
        }
        i := i + 1;
      }
      CreateLast(root, levels, true, now);
      var cursor := DictAt(root, levels[..n]).value;
      if levels[n] !in cursor {
        root := SetAt(root, levels[..n], cursor[levels[n] := Dict(Fresh(|levels| == 1, now))]);
      }
      return true;
    }

    // `_delete_session_completely`, then its clean-up loop.
    method DeleteSessionCompletely(levels: Path)
      requires levels != []
      modifies this
      ensures root == Delete(old(root), levels)
      ensures !Present(old(root), levels) ==> root == old(root)
    {
      if !Present(root, levels) { return; }
      ClimbIsPrune(root, levels);
      root := RemoveAt(root, levels);
      CleanupEmptyParents(levels);
    }

    method CleanupEmptyParents(levels: Path)
      requires levels != []
      modifies this
      ensures root == Climb(old(root), levels, |levels| - 1)
    {
      var i := |levels| - 1;
      while i > 0
        invariant 0 <= i < |levels|
        invariant Climb(old(root), levels, |levels| - 1) == Climb(root, levels, i)
      {
        if DictAt(root, levels[..i - 1]).None? { return; }
        var container := DictAt(root, levels[..i]);
        if container.Some? {
          if !OnlySystem(container.value) { return; }
          DictAtIsLookup(root, levels[..i]);
          root := RemoveAt(root, levels[..i]);
        }
        i := i - 1;
      }
    }
  }
}
