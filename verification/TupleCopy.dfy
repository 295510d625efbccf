/**
 What `unmunchify` makes of tuples, on trees of values, where the memo plays no part.

 A tuple's skeleton already holds finished copies of its items, and finishing the tuple then
 finishes each item once more: dictionaries are updated with what they have, but lists are
 extended again.
 */
module TupleCopy {
  datatype Value =
    | Atom(id: int)
    | List(items: seq<Value>)
    | Tuple(items: seq<Value>)
    | Dict(keys: seq<string>, vals: seq<Value>)

  // unmunchify_cycles: the skeleton, then the rest.
  function Copy(v: Value): Value
    decreases v, 3
  {
    Finish(Skeleton(v), v)
  }

  // pre_unmunchify
  function Skeleton(v: Value): (r: Value)
    ensures r.Tuple? <==> v.Tuple?
    ensures v.Tuple? ==> |r.items| == |v.items|
    decreases v, 1
  {
    match v
    case Atom(_) => v
    case List(_) => List([])
    case Tuple(items) => Tuple(CopyAll(items))
    case Dict(_, _) => Dict([], [])
  }

  // post_unmunchify. Updating a dictionary that has all the keys already changes no value.
  function Finish(partial: Value, v: Value): Value
    decreases v, 2
  {
    match v
    case Atom(_) => partial
    case List(items) => if partial.List? then List(partial.items + CopyAll(items)) else partial
    case Tuple(items) =>
      if partial.Tuple? && |partial.items| == |items| then Tuple(FinishAll(partial.items, items)) else partial
    case Dict(keys, vals) => Dict(keys, CopyAll(vals))
  }

  function CopyAll(items: seq<Value>): (r: seq<Value>)
    ensures |r| == |items|
    ensures forall i | 0 <= i < |items| :: r[i] == Copy(items[i])
    decreases items, 0
  {
    if items == [] then [] else CopyAll(items[..|items| - 1]) + [Copy(items[|items| - 1])]
  }

  function FinishAll(partials: seq<Value>, items: seq<Value>): (r: seq<Value>)
    requires |partials| == |items|
    ensures |r| == |items|
    ensures forall i | 0 <= i < |items| :: r[i] == Finish(partials[i], items[i])
    decreases items, 0
  {
    if items == [] then []
    else
      var n := |items| - 1;
      FinishAll(partials[..n], items[..n]) + [Finish(partials[n], items[n])]
  }

  // Finishing k times more than a value by itself is finished: what k tuples directly around it do.
  function Finished(v: Value, k: nat): Value {
    if k == 0 then Copy(v) else Finish(Finished(v, k - 1), v)
  }

  // A list directly inside a tuple holds nothing.
  ghost predicate TupleListsEmpty(v: Value) {
    match v
    case Atom(_) => true
    case List(items) => forall x <- items :: TupleListsEmpty(x)
    case Tuple(items) => forall x <- items :: TupleListsEmpty(x) && (x.List? ==> x.items == [])
    case Dict(_, vals) => forall x <- vals :: TupleListsEmpty(x)
  }

  lemma {:induction false} FinishedTuple(items: seq<Value>, k: nat)
    ensures var r := Finished(Tuple(items), k);
      r.Tuple? && |r.items| == |items| && forall i | 0 <= i < |items| :: r.items[i] == Finished(items[i], k + 1)
    decreases k
  {
    var v := Tuple(items);
    forall i | 0 <= i < |items| ensures Finished(items[i], k + 1) == Finish(Finished(items[i], k), items[i]) {}
    if k > 0 {
      FinishedTuple(items, k - 1);
      assert Finished(v, k) == Finish(Finished(v, k - 1), v);
    } else {
      assert Skeleton(v) == Tuple(CopyAll(items));
      assert Finished(v, 0) == Finish(Skeleton(v), v);
    }
  }

  // k + 1 times `s`.
  function Repeated<T>(s: seq<T>, k: nat): seq<T> {
    if k == 0 then s else Repeated(s, k - 1) + s
  }

  lemma {:induction false} RepeatedGrows<T>(s: seq<T>, k: nat)
    ensures |Repeated(s, k)| >= |s|
    ensures k > 0 && s != [] ==> |Repeated(s, k)| > |s|
    ensures s == [] ==> Repeated(s, k) == []
    decreases k
  {
    if k > 0 { RepeatedGrows(s, k - 1); }
  }

  // A list directly inside k nested tuples comes back with its items k + 1 times over.
  lemma {:induction false} ListsAreRepeated(items: seq<Value>, k: nat)
    ensures Finished(List(items), k) == List(Repeated(CopyAll(items), k))
    decreases k
  {
    var v := List(items);
    if k > 0 {
      ListsAreRepeated(items, k - 1);
      assert Finished(v, k) == Finish(Finished(v, k - 1), v);
    } else {
      assert Finished(v, 0) == Finish(Skeleton(v), v);
      assert [] + CopyAll(items) == CopyAll(items);
    }
  }

  lemma {:induction false} FinishedDict(keys: seq<string>, vals: seq<Value>, k: nat)
    ensures Finished(Dict(keys, vals), k) == Dict(keys, CopyAll(vals))
    decreases k
  {
    var v := Dict(keys, vals);
    if k > 0 {
      FinishedDict(keys, vals, k - 1);
      assert Finished(v, k) == Finish(Finished(v, k - 1), v);
    } else {
      assert Finished(v, 0) == Finish(Skeleton(v), v);
    }
  }

  lemma {:induction false} FinishedAtom(v: Value, k: nat)
    requires v.Atom?
    ensures Finished(v, k) == v
    decreases k
  {
    if k > 0 {
      FinishedAtom(v, k - 1);
    } else {
      assert Finished(v, 0) == Finish(Skeleton(v), v);
    }
  }

  lemma CopiesThemselves(items: seq<Value>)
    requires forall x <- items :: Copy(x) == x <==> TupleListsEmpty(x)
    ensures CopyAll(items) == items <==> forall x <- items :: TupleListsEmpty(x)
  {
    if forall x <- items :: TupleListsEmpty(x) {
      forall i | 0 <= i < |items| ensures CopyAll(items)[i] == items[i] { assert items[i] in items; }
    } else {
      var i :| 0 <= i < |items| && !TupleListsEmpty(items[i]);
      assert items[i] in items && CopyAll(items)[i] != items[i];
    }
  }

  lemma {:induction false} FinishedIff(v: Value, k: nat)
    ensures Finished(v, k) == v <==> TupleListsEmpty(v) && (k > 0 && v.List? ==> v.items == [])
    decreases v
  {
    match v
    case Atom(_) => FinishedAtom(v, k);
    case List(items) =>
      ListsAreRepeated(items, k);
      RepeatedGrows(CopyAll(items), k);
      forall x | x in items ensures Copy(x) == x <==> TupleListsEmpty(x) { FinishedIff(x, 0); }
      CopiesThemselves(items);
    case Dict(keys, vals) =>
      FinishedDict(keys, vals, k);
      forall x | x in vals ensures Copy(x) == x <==> TupleListsEmpty(x) { FinishedIff(x, 0); }
      CopiesThemselves(vals);
    case Tuple(items) =>
      FinishedTuple(items, k);
      var r := Finished(v, k).items;
      forall i | 0 <= i < |items|
        ensures r[i] == items[i] <==> TupleListsEmpty(items[i]) && (items[i].List? ==> items[i].items == [])
      {
        FinishedIff(items[i], k + 1);
      }
      if forall x <- items :: TupleListsEmpty(x) && (x.List? ==> x.items == []) {
        forall i | 0 <= i < |items| ensures r[i] == items[i] { assert items[i] in items; }
      }
  }

  // MAIN: a tree of plain dictionaries, lists and tuples is copied to itself exactly when no list
  // directly inside a tuple has items.
  lemma CopyIsFaithfulIff(v: Value)
    ensures Copy(v) == v <==> TupleListsEmpty(v)
  {
    FinishedIff(v, 0);
  }
}
