/**
 Auto-registered `_rintf` services and the index of them by allowed caller.

 The index is what a disconnect is answered from; the services are the truth. The two are
 updated apart, by encoding, by `_dispose` (run when the remote side asks, or later than the
 clean-up that scheduled it), by unregister_service and by the disconnect itself.
 */
module RintfIndex {
  import opened Wrappers

  const PREFIX := "_rintf_"

  // A service made by encoding an `_rintf` dictionary, with its allowed caller (None for a
  // missing or empty one), or a service registered by hand.
  datatype Service = Auto(caller: Option<string>) | Manual(id: int)

  type Index = map<string, set<string>>

  datatype State = State(services: map<string, Service>, index: Index)

  predicate IsPrefixed(id: string) { PREFIX <= id }

  // target_id of the session the dictionary is sent on; the empty string counts as none.
  function AllowedCaller(target: Option<string>): Option<string> {
    if target == Some("") then None else target
  }

  ghost predicate Owns(services: map<string, Service>, c: string, id: string) {
    id in services && services[id] == Auto(Some(c))
  }

  // The index agrees exactly with the services, and holds no empty bucket.
  ghost predicate IndexAgrees(s: State) {
    && (forall c, id :: (c in s.index && id in s.index[c]) <==> Owns(s.services, c, id))
    && (forall c | c in s.index :: s.index[c] != {})
  }

  // Ids of automatic services are uuids behind the prefix, without ':' or '@'.
  ghost predicate AutoIdsPlain(services: map<string, Service>) {
    forall id | id in services && services[id].Auto? :: IsPrefixed(id) && ':' !in id && '@' !in id
  }

  // No service has the empty string for a caller.
  ghost predicate CallersNamed(services: map<string, Service>) {
    forall id | id in services :: services[id] != Auto(Some(""))
  }

  ghost predicate Inv(s: State) {
    IndexAgrees(s) && AutoIdsPlain(s.services) && CallersNamed(s.services)
  }

  // At most one index agrees with given services: the full scan of them.
  lemma IndexIsAScan(s: State, t: State)
    requires IndexAgrees(s) && IndexAgrees(t) && s.services == t.services
    ensures s.index == t.index
  {
    forall c | c in s.index ensures c in t.index && s.index[c] == t.index[c] {
      var id :| id in s.index[c];
      assert Owns(s.services, c, id);
      assert forall k :: k in s.index[c] <==> Owns(s.services, c, k);
      assert forall k :: k in t.index[c] <==> Owns(s.services, c, k);
    }
    forall c | c in t.index ensures c in s.index {
      var id :| id in t.index[c];
      assert Owns(s.services, c, id);
    }
  }

  // ---------------------------------------------------------------- the operations

  // The part of `id` that unregister_service looks up: between the first and second ':',
  // then up to the first '@'.
  function UpTo(s: string, stop: char): (r: string)
    ensures r <= s && stop !in r
    ensures stop !in s ==> r == s
  {
    if s == [] || s[0] == stop then [] else [s[0]] + UpTo(s[1..], stop)
  }

  function After(s: string, stop: char): string {
    if s == [] then [] else if s[0] == stop then s[1..] else After(s[1..], stop)
  }

  function LocalId(given: string): string {
    var middle := if ':' in given then UpTo(After(given, ':'), ':') else given;
    UpTo(middle, '@')
  }

  predicate Plain(s: string) { ':' !in s && '@' !in s }

  lemma {:induction false} UpToStops(a: string, stop: char, rest: string)
    requires stop !in a
    ensures UpTo(a + [stop] + rest, stop) == a && After(a + [stop] + rest, stop) == rest
    decreases |a|
  {
    if a != [] {
      UpToStops(a[1..], stop, rest);
      assert (a + [stop] + rest)[1..] == a[1..] + [stop] + rest;
    } else {
      assert (a + [stop] + rest)[1..] == rest;
    }
  }

  // The id that is looked up for "ws/client:name@app", and for its shorter forms.
  lemma LocalIdOfParts(a: string, b: string, c: string)
    requires Plain(a) && Plain(b) && Plain(c)
    ensures LocalId(b) == b
    ensures LocalId(a + ":" + b) == b
    ensures LocalId(b + "@" + c) == b
    ensures LocalId(a + ":" + b + "@" + c) == b
    ensures LocalId(a + ":" + b + ":" + c) == b
  {
    assert a + ":" + b == a + [':'] + b && b + "@" + c == b + ['@'] + c;
    UpToStops(a, ':', b);
    UpToStops(b, '@', c);
    var tail := b + "@" + c;
    assert ':' !in tail && a + ":" + b + "@" + c == a + [':'] + tail;
    UpToStops(a, ':', tail);
    var more := b + ":" + c;
    assert a + ":" + b + ":" + c == a + [':'] + more && more == b + [':'] + c;
    UpToStops(a, ':', more);
    UpToStops(b, ':', c);
  }

  // Discarding one id from a bucket, and the bucket with it when it was the last.
  function Discard(index: Index, c: string, id: string): Index {
    if c !in index then index
    else if index[c] - {id} == {} then index - {c}
    else index[c := index[c] - {id}]
  }

  // Discarding one id from every bucket.
  function DiscardAll(index: Index, id: string): Index {
    map c | c in index && index[c] - {id} != {} :: index[c] - {id}
  }

  function Enter(index: Index, c: string, id: string): Index {
    index[c := (if c in index then index[c] else {}) + {id}]
  }

  datatype Op =
    | Register(id: string, target: Option<string>)
    | AddManual(id: string, api: int)
    | Dispose(id: string, caller: Option<string>)
    | Unregister(given: string)
    | ManagerReplied(id: string)
    | Disconnect(client: string)

  // An automatic service that some caller's bucket lists.
  predicate Claimed(s: State, id: string) {
    id in s.services && s.services[id].Auto? && s.services[id].caller.Some?
  }

  // `made` remembers the caller each `_dispose` closure captured.
  ghost predicate Possible(s: State, made: map<string, Option<string>>, op: Op) {
    match op
    case Register(id, _) => id !in made && id !in s.services && IsPrefixed(id) && ':' !in id && '@' !in id
    case ManagerReplied(id) => !IsPrefixed(id)
    case Dispose(id, caller) => id in made && made[id] == caller
    case _ => true
  }

  function Step(s: State, op: Op): State {
    match op
    case Register(id, target) =>
      var caller := AllowedCaller(target);
      State(s.services[id := Auto(caller)], if caller.Some? then Enter(s.index, caller.value, id) else s.index)
    case AddManual(id, api) => s.(services := s.services[id := Manual(api)])
    case Dispose(id, caller) =>
      State(s.services - {id}, if caller.Some? then Discard(s.index, caller.value, id) else s.index)
    // unregister_service at once for an automatic id; for another it asks the manager first,
    // and deletes what it finds when the reply is there
    case Unregister(given) =>
      var id := LocalId(given);
      if id !in s.services then s
      else if IsPrefixed(id) then State(s.services - {id}, DiscardAll(s.index, id))
      else s
    case ManagerReplied(id) => s.(services := s.services - {id})
    case Disconnect(client) =>
      if client in s.index then State(s.services - s.index[client], s.index - {client}) else s
  }

  ghost function Remember(made: map<string, Option<string>>, op: Op): map<string, Option<string>> {
    if op.Register? then made[op.id := AllowedCaller(op.target)] else made
  }

  // Every automatic service still carries the caller its `_dispose` closure captured.
  ghost predicate ClosuresMatch(s: State, made: map<string, Option<string>>) {
    forall id | id in s.services && s.services[id].Auto? :: id in made && made[id] == s.services[id].caller
  }

  lemma RegisterKeepsInv(s: State, id: string, target: Option<string>)
    requires Inv(s) && id !in s.services && IsPrefixed(id) && ':' !in id && '@' !in id
    ensures Inv(Step(s, Register(id, target)))
  {
    var t := Step(s, Register(id, target));
    var caller := AllowedCaller(target);
    forall c, k ensures (c in t.index && k in t.index[c]) <==> Owns(t.services, c, k) {
      assert (c in s.index && k in s.index[c]) <==> Owns(s.services, c, k);
    }
  }

  lemma DisposeKeepsInv(s: State, id: string, caller: Option<string>)
    requires Inv(s)
    requires id in s.services && s.services[id].Auto? ==> s.services[id].caller == caller
    ensures Inv(Step(s, Dispose(id, caller)))
    ensures id !in s.services ==> Step(s, Dispose(id, caller)) == s
  {
    var t := Step(s, Dispose(id, caller));
    assert forall c :: !Owns(s.services, c, id) <== Some(c) != caller;
    if caller.Some? && caller.value in s.index && id !in s.services {
      assert !Owns(s.services, caller.value, id);
      assert s.index[caller.value] - {id} == s.index[caller.value];
    }
    forall c, k ensures (c in t.index && k in t.index[c]) <==> Owns(t.services, c, k) {
      assert (c in s.index && k in s.index[c]) <==> Owns(s.services, c, k);
      if caller.Some? && caller.value in s.index && c == caller.value && k != id && k in s.index[c] {
        assert k in s.index[c] - {id};
      }
    }
  }

  lemma ManagerRepliedKeepsInv(s: State, id: string)
    requires Inv(s) && !IsPrefixed(id)
    ensures Inv(Step(s, ManagerReplied(id)))
  {
    var t := Step(s, ManagerReplied(id));
    forall c, k ensures (c in t.index && k in t.index[c]) <==> Owns(t.services, c, k) {
      assert (c in s.index && k in s.index[c]) <==> Owns(s.services, c, k);
    }
  }

  // Registering a service by hand keeps the agreement exactly when it does not take the id of an
  // automatic service that has a caller: the caller's bucket would go on listing it.
  lemma AddManualKeepsInvIff(s: State, id: string, api: int)
    requires Inv(s)
    ensures Inv(Step(s, AddManual(id, api))) <==> !Claimed(s, id)
  {
    var t := Step(s, AddManual(id, api));
    if Claimed(s, id) {
      var c := s.services[id].caller.value;
      assert Owns(s.services, c, id) && c in t.index && id in t.index[c];
      assert !Owns(t.services, c, id);
    } else {
      forall c, k ensures (c in t.index && k in t.index[c]) <==> Owns(t.services, c, k) {
        assert (c in s.index && k in s.index[c]) <==> Owns(s.services, c, k);
      }
    }
  }

  lemma UnregisterKeepsInv(s: State, given: string)
    requires Inv(s)
    ensures Inv(Step(s, Unregister(given)))
  {
    var t := Step(s, Unregister(given));
    var id := LocalId(given);
    forall c, k ensures (c in t.index && k in t.index[c]) <==> Owns(t.services, c, k) {
      assert (c in s.index && k in s.index[c]) <==> Owns(s.services, c, k);
      if id in s.services && IsPrefixed(id) && c in s.index && k in s.index[c] && k != id {
        assert k in s.index[c] - {id};
      }
    }
  }

  // A disconnect removes exactly the services whose allowed caller it was.
  lemma DisconnectRemovesExactly(s: State, client: string)
    requires Inv(s)
    ensures var t := Step(s, Disconnect(client));
      && Inv(t)
      && (forall id :: id in t.services <==> id in s.services && !Owns(s.services, client, id))
      && (forall id | id in t.services :: t.services[id] == s.services[id])
  {
    var t := Step(s, Disconnect(client));
    forall id ensures id in t.services <==> id in s.services && !Owns(s.services, client, id) {
      assert (client in s.index && id in s.index[client]) <==> Owns(s.services, client, id);
    }
    forall c, k ensures (c in t.index && k in t.index[c]) <==> Owns(t.services, c, k) {
      assert (c in s.index && k in s.index[c]) <==> Owns(s.services, c, k);
    }
  }

  lemma StepKeepsInv(s: State, made: map<string, Option<string>>, op: Op)
    requires Inv(s) && ClosuresMatch(s, made) && Possible(s, made, op)
    requires op.AddManual? ==> !Claimed(s, op.id)
    ensures Inv(Step(s, op)) && ClosuresMatch(Step(s, op), Remember(made, op))
  {
    match op
    case Register(id, target) => RegisterKeepsInv(s, id, target);
    case Dispose(id, caller) => DisposeKeepsInv(s, id, caller);
    case Unregister(given) => UnregisterKeepsInv(s, given);
    case Disconnect(client) => DisconnectRemovesExactly(s, client);
    case AddManual(id, api) => AddManualKeepsInvIff(s, id, api);
    case ManagerReplied(id) => ManagerRepliedKeepsInv(s, id);
  }

  // Which services an operation adds and removes.
  lemma ServicesEvolve(s: State, op: Op, id: string)
    requires Inv(s)
    ensures var r := Step(s, op);
      && (id in r.services <==>
            match op
            case Register(x, _) => x == id || id in s.services
            case AddManual(x, _) => x == id || id in s.services
            case Dispose(x, _) => id in s.services && x != id
            case Unregister(given) => id in s.services && !(LocalId(given) == id && "_rintf_" <= id)
            case ManagerReplied(x) => id in s.services && x != id
            case Disconnect(client) => id in s.services && s.services[id] != Auto(Some(client)))
      && (op.Register? && op.id == id ==>
            r.services[id] == Auto(if op.target == Some("") then None else op.target))
      && (op.AddManual? && op.id == id ==> r.services[id] == Manual(op.api))
      && (id in r.services && id in s.services && !(op.Register? && op.id == id) && !(op.AddManual? && op.id == id) ==>
            r.services[id] == s.services[id])
  {
    if op.Disconnect? { DisconnectRemovesExactly(s, op.client); }
  }

  // unregister_service with the id of an automatic service finds it and forgets it.
  lemma UnregisterFindsAuto(s: State, id: string)
    requires Inv(s) && id in s.services && s.services[id].Auto?
    ensures var t := Step(s, Unregister(id));
      && t.services == s.services - {id}
      && (forall c | c in t.index :: id !in t.index[c])
  {
    UnregisterKeepsInv(s, id);
    var t := Step(s, Unregister(id));
    forall c | c in t.index ensures id !in t.index[c] {
      assert (c in t.index && id in t.index[c]) <==> Owns(t.services, c, id);
    }
  }

  // ---------------------------------------------------------------- every run

  ghost predicate IsRun(s: State, made: map<string, Option<string>>, ops: seq<Op>)
    decreases |ops|
  {
    ops == [] || (Possible(s, made, ops[0]) && IsRun(Step(s, ops[0]), Remember(made, ops[0]), ops[1..]))
  }

  ghost function Run(s: State, ops: seq<Op>): State
    decreases |ops|
  {
    if ops == [] then s else Run(Step(s, ops[0]), ops[1..])
  }

  // ---------------------------------------------------------------- ids taken by hand

  // The ids registered by hand over a claimed automatic service, with that service's caller, until
  // the id is disposed of, unregistered or cleaned up.
  type Held = map<string, string>

  function NextHeld(s: State, held: Held, op: Op): Held {
    match op
    case AddManual(id, _) => if Claimed(s, id) then held[id := s.services[id].caller.value] else held
    case Dispose(id, _) => held - {id}
    case Unregister(given) => if IsPrefixed(LocalId(given)) then held - {LocalId(given)} else held
    case Disconnect(client) => if client in s.index then held - s.index[client] else held
    case _ => held
  }

  // The state as if those ids had not been taken.
  function Shadow(s: State, held: Held): State {
    State(map id | id in s.services :: if id in held then Auto(Some(held[id])) else s.services[id], s.index)
  }

  // Taken ids are manual services behind the prefix.
  ghost predicate HeldOk(s: State, held: Held) {
    forall id | id in held :: id in s.services && s.services[id].Manual? && IsPrefixed(id)
  }

  // What every run keeps: taken ids are manual services behind the prefix, and as if they had
  // not been taken, the index agrees and the closures match.
  ghost predicate RunInv(s: State, made: map<string, Option<string>>, held: Held) {
    && HeldOk(s, held)
    && Inv(Shadow(s, held)) && ClosuresMatch(Shadow(s, held), made)
  }

  lemma ShadowWithout(s: State, held: Held, out: set<string>, index: Index)
    requires HeldOk(s, held)
    ensures Shadow(State(s.services - out, index), held - out) == State(Shadow(s, held).services - out, index)
    ensures HeldOk(State(s.services - out, index), held - out)
  {
  }

  lemma ShadowManual(s: State, held: Held, id: string, api: int)
    requires HeldOk(s, held) && AutoIdsPlain(s.services)
    ensures var r, h := Step(s, AddManual(id, api)), NextHeld(s, held, AddManual(id, api));
      && HeldOk(r, h)
      && Shadow(r, h) == if id in held || Claimed(s, id) then Shadow(s, held)
                         else Step(Shadow(s, held), AddManual(id, api))
  {
    var r, h := Step(s, AddManual(id, api)), NextHeld(s, held, AddManual(id, api));
    var t := Shadow(s, held);
    if id in held || Claimed(s, id) {
      assert Shadow(r, h).services == t.services;
    } else {
      assert Shadow(r, h).services == t.services[id := Manual(api)];
    }
  }

  lemma ShadowRegister(s: State, held: Held, id: string, target: Option<string>)
    requires HeldOk(s, held) && id !in s.services
    ensures var r := Step(s, Register(id, target));
      HeldOk(r, held) && Shadow(r, held) == Step(Shadow(s, held), Register(id, target))
  {
    assert id !in held;
    var r := Step(s, Register(id, target));
    assert Shadow(r, held).services == Shadow(s, held).services[id := Auto(AllowedCaller(target))];
  }

  lemma PlainShadow(s: State, held: Held)
    requires HeldOk(s, held) && AutoIdsPlain(Shadow(s, held).services)
    ensures AutoIdsPlain(s.services)
  {
    forall id | id in s.services && s.services[id].Auto? ensures IsPrefixed(id) && ':' !in id && '@' !in id {
      assert Shadow(s, held).services[id] == s.services[id];
    }
  }

  lemma SameWithout<T>(m: map<string, T>, id: string)
    requires id !in m
    ensures m - {id} == m
  {
  }

  lemma ShadowSteps(s: State, made: map<string, Option<string>>, held: Held, op: Op)
    requires RunInv(s, made, held) && Possible(s, made, op)
    ensures var t, h := Shadow(s, held), NextHeld(s, held, op);
      Shadow(Step(s, op), h) ==
        if op.AddManual? && (op.id in held || Claimed(s, op.id)) then t else Step(t, op)
    ensures HeldOk(Step(s, op), NextHeld(s, held, op))
  {
    match op
    case Register(id, target) => ShadowRegister(s, held, id, target);
    case AddManual(id, api) =>
      PlainShadow(s, held);
      ShadowManual(s, held, id, api);
    case Dispose(id, caller) => ShadowWithout(s, held, {id}, Step(s, op).index);
    case Unregister(given) =>
      var id := LocalId(given);
      ShadowWithout(s, held, {id}, DiscardAll(s.index, id));
      if id !in s.services { SameWithout(held, id); }
    case ManagerReplied(id) =>
      ShadowWithout(s, held, {id}, s.index);
      SameWithout(held, id);
    case Disconnect(client) =>
      if client in s.index { ShadowWithout(s, held, s.index[client], s.index - {client}); }
  }

  lemma StepKeepsRunInv(s: State, made: map<string, Option<string>>, held: Held, op: Op)
    requires RunInv(s, made, held) && Possible(s, made, op)
    ensures RunInv(Step(s, op), Remember(made, op), NextHeld(s, held, op))
  {
    ShadowSteps(s, made, held, op);
    var t := Shadow(s, held);
    if !(op.AddManual? && (op.id in held || Claimed(s, op.id))) { StepKeepsInv(t, made, op); }
  }

  ghost function RunHeld(s: State, held: Held, ops: seq<Op>): Held
    decreases |ops|
  {
    if ops == [] then held else RunHeld(Step(s, ops[0]), NextHeld(s, held, ops[0]), ops[1..])
  }

  ghost function Memory(made: map<string, Option<string>>, ops: seq<Op>): map<string, Option<string>>
    decreases |ops|
  {
    if ops == [] then made else Memory(Remember(made, ops[0]), ops[1..])
  }

  lemma {:induction false} RunKeepsInv(s: State, made: map<string, Option<string>>, held: Held, ops: seq<Op>)
    requires RunInv(s, made, held) && IsRun(s, made, ops)
    ensures RunInv(Run(s, ops), Memory(made, ops), RunHeld(s, held, ops))
    decreases |ops|
  {
    if ops != [] {
      StepKeepsRunInv(s, made, held, ops[0]);
      RunKeepsInv(Step(s, ops[0]), Remember(made, ops[0]), NextHeld(s, held, ops[0]), ops[1..]);
    }
  }

  // MAIN: in every reachable state, an id is in a caller's bucket exactly when it is an automatic
  // service of that caller, or was one when it was taken by hand; and no bucket is empty.
  lemma IndexInEveryRun(ops: seq<Op>, c: string, id: string)
    requires IsRun(State(map[], map[]), map[], ops)
    ensures var r := Run(State(map[], map[]), ops); var held := RunHeld(State(map[], map[]), map[], ops);
      && ((c in r.index && id in r.index[c]) <==> Owns(r.services, c, id) || (id in held && held[id] == c))
      && (c in r.index ==> c != "" && r.index[c] != {})
  {
    var s := State(map[], map[]);
    RunKeepsInv(s, map[], map[], ops);
    var r, held := Run(s, ops), RunHeld(s, map[], ops);
    var t := Shadow(r, held);
    assert (c in t.index && id in t.index[c]) <==> Owns(t.services, c, id);
  }

  // MAIN: so the index is the full scan of the services exactly when no taken id is left.
  lemma IndexAgreesIff(ops: seq<Op>)
    requires IsRun(State(map[], map[]), map[], ops)
    ensures IndexAgrees(Run(State(map[], map[]), ops)) <==> RunHeld(State(map[], map[]), map[], ops) == map[]
  {
    var s := State(map[], map[]);
    RunKeepsInv(s, map[], map[], ops);
    var r, held := Run(s, ops), RunHeld(s, map[], ops);
    var t := Shadow(r, held);
    if held == map[] {
      assert t.services == r.services;
    } else {
      var id :| id in held;
      assert Owns(t.services, held[id], id) && !Owns(r.services, held[id], id);
    }
  }

  lemma StaysRemoved(s: State, made: map<string, Option<string>>, op: Op, id: string)
    requires id in made && id !in s.services && Possible(s, made, op)
    requires op.AddManual? ==> op.id != id
    ensures id !in Step(s, op).services && id in Remember(made, op) && Remember(made, op)[id] == made[id]
  {
  }

  lemma RemovedDispose(s: State, made: map<string, Option<string>>, held: Held, id: string)
    requires RunInv(s, made, held) && id in made && id !in s.services
    ensures Step(s, Dispose(id, made[id])) == s
  {
    var t := Shadow(s, held);
    DisposeKeepsInv(t, id, made[id]);
    assert Step(t, Dispose(id, made[id])) == t;
    assert s.services - {id} == s.services;
  }

  // MAIN: once a service is gone, its `_dispose` may run after any further history, as the one
  // a disconnect schedules does, and changes nothing.
  lemma {:induction false} DelayedDisposeIsHarmless(
      s: State, made: map<string, Option<string>>, held: Held, ops: seq<Op>, id: string)
    requires RunInv(s, made, held) && IsRun(s, made, ops)
    requires id in made && id !in s.services
    requires forall i | 0 <= i < |ops| :: ops[i].AddManual? ==> ops[i].id != id
    ensures Step(Run(s, ops), Dispose(id, made[id])) == Run(s, ops)
    decreases |ops|
  {
    if ops == [] {
      RemovedDispose(s, made, held, id);
    } else {
      StepKeepsRunInv(s, made, held, ops[0]);
      StaysRemoved(s, made, ops[0], id);
      DelayedDisposeIsHarmless(
        Step(s, ops[0]), Remember(made, ops[0]), NextHeld(s, held, ops[0]), ops[1..], id);
    }
  }

  // ---------------------------------------------------------------- the registry in place

  lemma HowManyOut(services: map<string, Service>, ids: set<string>)
    ensures |services.Keys * ids| + |services - ids| == |services|
  {
    assert (services - ids).Keys == services.Keys - ids;
    assert services.Keys == services.Keys * ids + (services.Keys - ids);
  }

  lemma OneMoreOut(services: map<string, Service>, done: set<string>, id: string)
    ensures services - (done + {id}) == (services - done) - {id}
  {
  }

  function Bucket(index: Index, client: string): set<string> { if client in index then index[client] else {} }

  lemma ListedAreOwned(s: State, client: string)
    requires IndexAgrees(s)
    ensures s.services.Keys * Bucket(s.index, client)
         == set id | id in s.services && Owns(s.services, client, id)
    ensures forall id :: id in Step(s, Disconnect(client)).services <==>
              id in s.services && !Owns(s.services, client, id)
  {
    forall id ensures (client in s.index && id in s.index[client]) <==> Owns(s.services, client, id) {}
  }

  class Registry {
    var services: map<string, Service>
    var callerIndex: Index

    ghost function View(): State reads this { State(services, callerIndex) }

    constructor ()
      ensures View() == State(map[], map[])
    {
      services, callerIndex := map[], map[];
    }

    // add_service for a service registered by hand.
    method AddService(id: string, api: int)
      modifies this
      ensures View() == Step(old(View()), AddManual(id, api))
    {
      services := services[id := Manual(api)];
    }

    method EncodeRintf(id: string, target: Option<string>)
      modifies this
      ensures View() == Step(old(View()), Register(id, target))
    {
      var caller := AllowedCaller(target);
      services := services[id := Auto(caller)];
      if caller.Some? {
        if caller.value !in callerIndex { callerIndex := callerIndex[caller.value := {}]; }
        callerIndex := callerIndex[caller.value := callerIndex[caller.value] + {id}];
      }
    }

    method UnregisterRintfService(id: string, caller: Option<string>)
      requires caller != Some("")
      modifies this
      ensures View() == Step(old(View()), Dispose(id, caller))
    {
      if id in services { services := services - {id}; }
      if caller.Some? && caller.value in callerIndex {
        callerIndex := callerIndex[caller.value := callerIndex[caller.value] - {id}];
        if callerIndex[caller.value] == {} { callerIndex := callerIndex - {caller.value}; }
      }
    }

    method DiscardFromAll(id: string)
      modifies this`callerIndex
      ensures callerIndex == DiscardAll(old(callerIndex), id)
    {
      var todo := callerIndex.Keys;
      while todo != {}
        invariant todo <= old(callerIndex).Keys
        invariant forall c :: c in callerIndex <==>
          c in old(callerIndex) && (c in todo || old(callerIndex)[c] - {id} != {})
        invariant forall c | c in callerIndex ::
          callerIndex[c] == if c in todo then old(callerIndex)[c] else old(callerIndex)[c] - {id}
        decreases todo
      {
        var c :| c in todo;
        callerIndex := callerIndex[c := callerIndex[c] - {id}];
        if callerIndex[c] == {} { callerIndex := callerIndex - {c}; }
        todo := todo - {c};
      }
    }

    // Up to the await; `asks` when the manager has to be told first.
    method UnregisterService(given: string) returns (found: bool, asks: bool)
      modifies this
      ensures View() == Step(old(View()), Unregister(given))
      ensures found <==> LocalId(given) in old(services)
      ensures asks <==> found && !IsPrefixed(LocalId(given))
    {
      var id := LocalId(given);
      found, asks := id in services, false;
      if !found { return; }
      if IsPrefixed(id) {
        DiscardFromAll(id);
        services := services - {id};
      } else {
        asks := true;
      }
    }

    // After the await; the service may have gone meanwhile, which is a KeyError.
    method FinishUnregister(id: string) returns (ok: bool)
      modifies this
      ensures View() == Step(old(View()), ManagerReplied(id))
      ensures ok <==> id in old(services)
    {
      ok := id in services;
      if ok { services := services - {id}; }
    }

    // `svc = self._services.get(sid)`, and if it is there it goes.
    method RemoveIfThere(id: string, ghost before: map<string, Service>, ghost done: set<string>) returns (there: bool)
      requires services == before - done && id !in done
      modifies this`services
      ensures services == before - (done + {id})
      ensures |services| == |old(services)| - if there then 1 else 0
    {
      OneMoreOut(before, done, id);
      there := id in services;
      if there {
        HowManyOut(services, {id});
        assert services.Keys * {id} == {id};
        services := services - {id};
      } else {
        SameWithout(services, id);
      }
    }

    // The loop over a bucket.
    method RemoveListed(ids: set<string>) returns (cleaned: nat)
      modifies this`services
      ensures services == old(services) - ids
      ensures cleaned == |old(services).Keys * ids|
    {
      ghost var before := services;
      var todo := ids;
      cleaned := 0;
      assert ids - todo == {};
      while todo != {}
        invariant todo <= ids
        invariant services == before - (ids - todo)
        invariant cleaned + |services| == |before|
        decreases todo
      {
        var id :| id in todo;
        assert ids - (todo - {id}) == (ids - todo) + {id};
        var there := RemoveIfThere(id, before, ids - todo);
        if there { cleaned := cleaned + 1; }
        todo := todo - {id};
      }
      assert ids - todo == ids;
      HowManyOut(before, ids);
    }

    /** MAIN: the passive clean-up removes what the caller's bucket lists and returns how many services
     that were; when the index agrees, these are exactly the caller's. */
    method CleanupRintfForCaller(client: string) returns (cleaned: nat)
      modifies this
      ensures View() == Step(old(View()), Disconnect(client))
      ensures cleaned == |old(services).Keys * Bucket(old(callerIndex), client)|
      ensures old(IndexAgrees(View())) ==>
                && (forall id :: id in services <==> id in old(services) && !Owns(old(services), client, id))
                && cleaned == |set id | id in old(services) && Owns(old(services), client, id)|
    {
      if IndexAgrees(View()) { ListedAreOwned(View(), client); }
      cleaned := 0;
      if client in callerIndex {
        var ids := callerIndex[client];
        callerIndex := callerIndex - {client};
        cleaned := RemoveListed(ids);
      }
    }
  }
}
