/**
 * The scope store and its change notifier: the module-level `state`
 * dictionary from scope id to scope tree, and the window listeners that
 * `State.on` registers for `state:update:<scope>` events. Dispatch is
 * synchronous and in registration order; the callbacks a handler runs are
 * recorded as deliveries.
 */
module Store {
  import opened Values
  import opened Subtract

  datatype Option<T> = None | Some(value: T)

  /** The name of the event a scope's updates are dispatched under. */
  function EventName(scope: string): (name: string)
    ensures |name| == |scope| + 13 && name[..13] == "state:update:" && name[13..] == scope
  {
    "state:update:" + scope
  }

  /** Distinct scopes have distinct events, so a handler only hears its own scope. */
  lemma EventNameInjective(s1: string, s2: string)
    ensures EventName(s1) == EventName(s2) ==> s1 == s2
  {
    if EventName(s1) == EventName(s2) {
      assert s1 == EventName(s1)[13..] == EventName(s2)[13..] == s2;
    }
  }

  /** A listener added by `State.on`: its handle, its event, and the `lastState` its handler keeps. */
  datatype Listener = Listener(handle: nat, event: string, lastState: Value)

  /** One call of a subscriber's callback, with the changes it was given. */
  datatype Delivery = Delivery(handle: nat, changes: Value)

  /** `state[scope] || {}`: the stored scope tree, or a new empty object (allocated in epoch `e`). */
  function ScopeTree(state: map<string, Value>, scope: string, e: nat): (t: Value)
    ensures scope in state ==> t == state[scope]
    ensures scope !in state ==> t.Obj? && t.props == map[]
  {
    if scope in state then state[scope] else Obj(Ref(e, []), map[])
  }

  /** The JSON text of a scope: the same whichever epoch a missing scope's `{}` would get. */
  function ScopeJson(state: map<string, Value>, scope: string): Json {
    if scope in state then ToJson(state[scope]) else JObj(map[])
  }

  /** Every listener's `lastState` is an object. */
  ghost predicate SnapshotsAreObjects(ls: seq<Listener>) {
    forall i | 0 <= i < |ls| :: ls[i].lastState.Obj?
  }

  /** Every scope tree is an object. */
  ghost predicate TreesAreObjects(state: map<string, Value>) {
    forall s | s in state :: state[s].Obj?
  }

  /** How many of the listeners `ls` listen to the scope: each of them runs its handler once per dispatch. */
  function Runs(ls: seq<Listener>, scope: string): (n: nat)
    ensures n <= |ls|
    decreases |ls|
  {
    if ls == [] then 0
    else Runs(ls[..|ls| - 1], scope) + (if ls[|ls| - 1].event == EventName(scope) then 1 else 0)
  }

  /** A listener after its handler ran on `tree`: its `lastState` is a deep copy of the tree, made in epoch `e + 2`. */
  function Run(l: Listener, tree: Value, e: nat): (r: Listener)
    ensures r.handle == l.handle && r.event == l.event
    ensures ToJson(r.lastState) == ToJson(tree) && AllocatedIn(r.lastState, e + 2)
  {
    CopyKeepsContent(tree, e + 2, []);
    CopyIsFresh(tree, e + 2, []);
    l.(lastState := Copy(tree, e + 2, []))
  }

  /**
   * Listener `i` after dispatching `EventName(scope)` to `ls` in order, the
   * first allocation in epoch `e`. Each handler run takes three epochs: the
   * `{}` of a missing scope (`state[scope] || {}`), the changes, and the deep
   * copy of the tree that becomes the new `lastState`.
   */
  function Snapshot(ls: seq<Listener>, i: nat, scope: string, state: map<string, Value>, e: nat): Listener
    requires i < |ls|
  {
    if ls[i].event != EventName(scope) then ls[i]
    else
      var e1 := e + 3 * Runs(ls[..i], scope);
      Run(ls[i], ScopeTree(state, scope, e1), e1)
  }

  /** The listeners after a dispatch; it ends in epoch `e + 3 * Runs(ls, scope)`. */
  function Dispatch(ls: seq<Listener>, scope: string, state: map<string, Value>, e: nat): (r: seq<Listener>)
    ensures |r| == |ls|
  {
    seq(|ls|, i requires 0 <= i < |ls| => Snapshot(ls, i, scope, state, e))
  }

  /** The handler's callback: `subtractState(lastState, tree)`, passed on only when it has a key. */
  function Call(l: Listener, tree: Value, e: nat): (r: seq<Delivery>)
    requires l.lastState.IsContainer() && tree.IsContainer()
    ensures |r| <= 1
    ensures r != [] ==> r[0].handle == l.handle && r[0].changes.Obj? && r[0].changes.props != map[]
    ensures r != [] ==> r[0].changes == SubtractState(l.lastState, tree, e, [])
    ensures r == [] <==> SubtractState(l.lastState, tree, e, []).props == map[]
  {
    var changes := SubtractState(l.lastState, tree, e, []);
    if changes.props != map[] then [Delivery(l.handle, changes)] else []
  }

  /**
   * The handler `on` registers, run once on the scope tree `tree` (the first
   * of its three epochs is `e`): diff the tree against `lastState`, keep a deep
   * copy of the tree as the new `lastState`, and call back with the changes
   * only when they have a key.
   */
  method Handle(l: Listener, tree: Value, e: nat) returns (next: Listener, out: seq<Delivery>)
    requires l.lastState.IsContainer() && tree.IsContainer()
    ensures next == Run(l, tree, e) && out == Call(l, tree, e + 1)
    ensures next.handle == l.handle && next.event == l.event
    ensures out == [] || (|out| == 1 && out[0].handle == l.handle && out[0].changes.Obj? && out[0].changes.props != map[])
  {
    var changes := SubtractState(l.lastState, tree, e + 1, []);
    next := l.(lastState := Copy(tree, e + 2, []));
    out := [];
    if changes.props != map[] {
      out := [Delivery(l.handle, changes)];
    }
  }

  /** The callbacks a dispatch makes, in order. */
  function Calls(ls: seq<Listener>, scope: string, state: map<string, Value>, e: nat): (r: seq<Delivery>)
    requires SnapshotsAreObjects(ls) && TreesAreObjects(state)
    ensures |r| <= Runs(ls, scope)
    decreases |ls|
  {
    if ls == [] then []
    else
      var front := ls[..|ls| - 1];
      var l := ls[|ls| - 1];
      var e1 := e + 3 * Runs(front, scope);
      Calls(front, scope, state, e) + (if l.event == EventName(scope) then Call(l, ScopeTree(state, scope, e1), e1 + 1) else [])
  }

  /** One more listener adds one run exactly when it listens to the scope. */
  lemma RunsStep(ls: seq<Listener>, i: nat, scope: string)
    requires i < |ls|
    ensures Runs(ls[..i + 1], scope) == Runs(ls[..i], scope) + (if ls[i].event == EventName(scope) then 1 else 0)
  {
    assert ls[..i + 1][..i] == ls[..i];
  }

  /**
   * One more listener, whose handler run would start at epoch `e`: the
   * callbacks for `ls[..i + 1]` extend those for `ls[..i]` by its callback.
   */
  lemma CallsStep(ls: seq<Listener>, i: nat, scope: string, state: map<string, Value>, e0: nat, e: nat)
    requires i < |ls| && SnapshotsAreObjects(ls) && TreesAreObjects(state)
    requires e == e0 + 3 * Runs(ls[..i], scope)
    ensures Calls(ls[..i + 1], scope, state, e0)
            == Calls(ls[..i], scope, state, e0)
               + (if ls[i].event == EventName(scope) then Call(ls[i], ScopeTree(state, scope, e), e + 1) else [])
  {
    assert ls[..i + 1][..i] == ls[..i];
  }

  /** A listener's snapshot depends only on the listeners up to it. */
  lemma SnapshotPrefix(ls: seq<Listener>, n: nat, j: nat, scope: string, state: map<string, Value>, e0: nat)
    requires j < n <= |ls|
    ensures Snapshot(ls[..n], j, scope, state, e0) == Snapshot(ls, j, scope, state, e0)
  {
    assert ls[..n][..j] == ls[..j];
  }

  /** Dispatching to one more listener extends the dispatch of the ones before it. */
  lemma DispatchExtends(ls: seq<Listener>, i: nat, scope: string, state: map<string, Value>, e0: nat)
    requires i < |ls|
    ensures Dispatch(ls[..i + 1], scope, state, e0) == Dispatch(ls[..i], scope, state, e0) + [Snapshot(ls, i, scope, state, e0)]
  {
    var a := Dispatch(ls[..i], scope, state, e0);
    var b := Dispatch(ls[..i + 1], scope, state, e0);
    SnapshotPrefix(ls, i + 1, i, scope, state, e0);
    forall j | 0 <= j < i ensures b[j] == a[j] {
      SnapshotPrefix(ls, i + 1, j, scope, state, e0);
      SnapshotPrefix(ls, i, j, scope, state, e0);
    }
  }

  /** Listener `i` after a dispatch, when its handler run would start at epoch `e`. */
  lemma SnapshotAt(ls: seq<Listener>, i: nat, scope: string, state: map<string, Value>, e0: nat, e: nat)
    requires i < |ls| && e == e0 + 3 * Runs(ls[..i], scope)
    ensures Snapshot(ls, i, scope, state, e0)
            == if ls[i].event == EventName(scope) then Run(ls[i], ScopeTree(state, scope, e), e) else ls[i]
  {
  }

  /**
   * One more listener, whose handler run would start at epoch `e`: the
   * listeners part-way through a dispatch, with listener `i` done.
   */
  lemma DispatchStep(ls: seq<Listener>, i: nat, scope: string, state: map<string, Value>, e0: nat, e: nat)
    requires i < |ls| && e == e0 + 3 * Runs(ls[..i], scope)
    ensures var next := if ls[i].event == EventName(scope) then Run(ls[i], ScopeTree(state, scope, e), e) else ls[i];
            (Dispatch(ls[..i], scope, state, e0) + ls[i..])[i := next] == Dispatch(ls[..i + 1], scope, state, e0) + ls[i + 1..]
  {
    DispatchExtends(ls, i, scope, state, e0);
    SnapshotAt(ls, i, scope, state, e0, e);
    assert ls[i..] == [ls[i]] + ls[i + 1..];
  }

  /** The handles of the listeners of a scope. */
  function Subscribed(ls: seq<Listener>, scope: string): set<nat> {
    set i | 0 <= i < |ls| && ls[i].event == EventName(scope) :: ls[i].handle
  }

  /**
   * What a dispatch does to the listeners: same handles and events in the
   * same order; a listener of another scope is untouched; a listener of the
   * scope ends with an object snapshot that has the scope's JSON text.
   */
  lemma DispatchSnapshots(ls: seq<Listener>, scope: string, state: map<string, Value>, e: nat)
    requires TreesAreObjects(state)
    ensures var r := Dispatch(ls, scope, state, e);
            |r| == |ls|
            && (forall i | 0 <= i < |ls| :: r[i].handle == ls[i].handle && r[i].event == ls[i].event)
            && (forall i | 0 <= i < |ls| && ls[i].event != EventName(scope) :: r[i] == ls[i])
            && (forall i | 0 <= i < |ls| && ls[i].event == EventName(scope) ::
                  r[i].lastState.Obj? && ToJson(r[i].lastState) == ScopeJson(state, scope))
  {
    var r := Dispatch(ls, scope, state, e);
    forall i | 0 <= i < |ls| && ls[i].event == EventName(scope)
      ensures r[i].lastState.Obj? && ToJson(r[i].lastState) == ScopeJson(state, scope)
    {
      var e1 := e + 3 * Runs(ls[..i], scope);
      CopyKeepsContent(ScopeTree(state, scope, e1), e1 + 2, []);
      CopyShape(ScopeTree(state, scope, e1), e1 + 2, []);
    }
  }

  /** A listener of the scope comes after at most `Runs(ls, scope) - 1` others. */
  lemma {:induction false} RunsBefore(ls: seq<Listener>, i: nat, scope: string)
    requires i < |ls| && ls[i].event == EventName(scope)
    ensures Runs(ls[..i], scope) < Runs(ls, scope)
    decreases |ls|
  {
    var n := |ls| - 1;
    assert ls[..n][..i] == ls[..i] by { if i < n { } }
    if i < n {
      RunsBefore(ls[..n], i, scope);
    } else {
      assert ls[..i] == ls[..n];
    }
  }

  /**
   * Every array and object a dispatch allocates is new: when the snapshots
   * were allocated before epoch `e`, the snapshots after it were allocated
   * before the epoch the dispatch ends in.
   */
  lemma DispatchAllocates(ls: seq<Listener>, scope: string, state: map<string, Value>, e: nat)
    requires forall i | 0 <= i < |ls| :: AllocatedBefore(ls[i].lastState, e)
    ensures var r := Dispatch(ls, scope, state, e);
            forall i | 0 <= i < |r| :: AllocatedBefore(r[i].lastState, e + 3 * Runs(ls, scope))
  {
    var r := Dispatch(ls, scope, state, e);
    var end := e + 3 * Runs(ls, scope);
    forall i | 0 <= i < |r| ensures AllocatedBefore(r[i].lastState, end) {
      if ls[i].event == EventName(scope) {
        var e1 := e + 3 * Runs(ls[..i], scope);
        RunsBefore(ls, i, scope);
        CopyIsFresh(ScopeTree(state, scope, e1), e1 + 2, []);
        AllocatedInBefore(r[i].lastState, e1 + 2, end);
      } else {
        AllocatedBeforeLater(ls[i].lastState, e, end);
      }
    }
  }

  /**
   * The snapshot a dispatch leaves a listener of the scope shares no array or
   * object with anything allocated before the dispatch, the live scope tree
   * included: it is a deep copy.
   */
  lemma DispatchSnapshotsAreCopies(ls: seq<Listener>, scope: string, state: map<string, Value>, e: nat)
    ensures var r := Dispatch(ls, scope, state, e);
            forall i, s: nat | 0 <= i < |ls| && ls[i].event == EventName(scope) && s < e :: AvoidsEpoch(r[i].lastState, s)
  {
    var r := Dispatch(ls, scope, state, e);
    forall i, s: nat | 0 <= i < |ls| && ls[i].event == EventName(scope) && s < e
      ensures AvoidsEpoch(r[i].lastState, s)
    {
      var e1 := e + 3 * Runs(ls[..i], scope);
      CopyIsFresh(ScopeTree(state, scope, e1), e1 + 2, []);
      AllocatedInAvoids(r[i].lastState, e1 + 2, s);
    }
  }

  /**
   * The callbacks of a dispatch: at most one per listener, each to a
   * listener of this scope, and never with changes that have no key.
   */
  lemma {:induction false} DispatchCalls(ls: seq<Listener>, scope: string, state: map<string, Value>, e: nat)
    requires SnapshotsAreObjects(ls) && TreesAreObjects(state)
    ensures var r := Calls(ls, scope, state, e);
            |r| <= Runs(ls, scope)
            && forall j | 0 <= j < |r| ::
                 r[j].changes.Obj? && r[j].changes.props != map[] && r[j].handle in Subscribed(ls, scope)
    decreases |ls|
  {
    if ls != [] {
      var n := |ls| - 1;
      var front := ls[..n];
      DispatchCalls(front, scope, state, e);
      assert forall i | 0 <= i < n :: front[i] == ls[i];
      assert Subscribed(front, scope) <= Subscribed(ls, scope);
      if ls[n].event == EventName(scope) {
        assert ls[n].handle in Subscribed(ls, scope);
      }
    }
  }

  /** A dispatch to no listener of the scope changes nothing, allocates nothing and calls nobody. */
  lemma {:induction false} DispatchUnsubscribed(ls: seq<Listener>, scope: string, state: map<string, Value>, e: nat)
    requires SnapshotsAreObjects(ls) && TreesAreObjects(state)
    requires forall i | 0 <= i < |ls| :: ls[i].event != EventName(scope)
    ensures Dispatch(ls, scope, state, e) == ls
    ensures Runs(ls, scope) == 0
    ensures Calls(ls, scope, state, e) == []
    decreases |ls|
  {
    if ls != [] {
      DispatchUnsubscribed(ls[..|ls| - 1], scope, state, e);
    }
  }

  /** `listeners` without the one `remove()` of `handle` takes out. */
  function Without(ls: seq<Listener>, handle: nat): (r: seq<Listener>)
    ensures forall l :: l in r <==> l in ls && l.handle != handle
    ensures |r| <= |ls|
    ensures (forall i | 0 <= i < |ls| :: ls[i].handle != handle) ==> r == ls
  {
    if ls == [] then []
    else if ls[0].handle == handle then Without(ls[1..], handle)
    else [ls[0]] + Without(ls[1..], handle)
  }

  /** `remove()` keeps the order of the remaining listeners: it takes the handle out of each part of the list separately. */
  lemma {:induction false} WithoutAppend(ls: seq<Listener>, more: seq<Listener>, handle: nat)
    ensures Without(ls + more, handle) == Without(ls, handle) + Without(more, handle)
  {
    if ls == [] {
      assert ls + more == more;
    } else {
      assert (ls + more)[0] == ls[0] && (ls + more)[1..] == ls[1..] + more;
      WithoutAppend(ls[1..], more, handle);
    }
  }

  /** After `remove()` the handler is called back no more: no callback of a later dispatch goes to its handle. */
  lemma RemoveSilences(ls: seq<Listener>, handle: nat, scope: string, state: map<string, Value>, e: nat)
    requires SnapshotsAreObjects(ls) && TreesAreObjects(state)
    ensures SnapshotsAreObjects(Without(ls, handle))
    ensures var r := Calls(Without(ls, handle), scope, state, e);
            forall j | 0 <= j < |r| :: r[j].handle != handle
  {
    var w := Without(ls, handle);
    forall i | 0 <= i < |w| ensures w[i].lastState.Obj? && w[i].handle != handle {
      assert w[i] in w;
      var k :| 0 <= k < |ls| && ls[k] == w[i];
    }
    DispatchCalls(w, scope, state, e);
  }

  /** `remove()` twice is the same as once. */
  lemma RemoveTwice(ls: seq<Listener>, handle: nat)
    ensures Without(Without(ls, handle), handle) == Without(ls, handle)
  {
    var r := Without(ls, handle);
    assert forall i | 0 <= i < |r| :: r[i] in r;
  }

  /** The new state of a scope after `Object.assign(target, source)` with a deep-copied source. */
  function AssignSource(v: Value): (m: map<Key, Value>)
    ensures v != Null ==> m.Keys == OwnKeys(v)
    ensures v == Null ==> m == map[]
  {
    match v
    case Arr(_, _, props) => props
    case Obj(_, props) => props
    case Prim(Text(s)) => map k | k in Indices(|s|) :: Prim(Text([s[k.n]]))
    case _ => map[]
  }

  /**
   * What `set` writes into a scope: an object's keys, an array's indices
   * (holes as null) or a string's characters, each with its JSON text; a
   * null, number or boolean writes nothing.
   */
  lemma AssignSourceOfCopy(v: Value, e: nat, p: seq<Key>)
    ensures var m := AssignSource(Copy(v, e, p));
            (v.Obj? ==> m.Keys == v.props.Keys && forall k | k in m :: ToJson(m[k]) == ToJson(v.props[k]))
            && (v.Arr? ==> (m.Keys == Indices(v.len)
                  && forall k | k in m :: ToJson(m[k]) == if k in v.props then ToJson(v.props[k]) else JNull))
            && (v.Prim? && v.s.Text? ==>
                  m.Keys == Indices(|v.s.s|) && forall k | k in m :: m[k] == Prim(Text([v.s.s[k.n]])))
            && (v.Null? || (v.Prim? && !v.s.Text?) ==> m == map[])
  {
    CopyShape(v, e, p);
    CopyKeepsContent(v, e, p);
    var c := Copy(v, e, p);
    if v.Obj? {
      forall k | k in c.props ensures ToJson(c.props[k]) == ToJson(v.props[k]) {
        assert ToJson(c).fields[k] == ToJson(v).fields[k];
      }
    } else if v.Arr? {
      forall k | k in c.props
        ensures ToJson(c.props[k]) == if k in v.props then ToJson(v.props[k]) else JNull
      {
        assert ToJson(c).items[k.n] == ToJson(v).items[k.n];
      }
    }
  }

  /**
   * The window dispatching `EventName(scope)`: every listener, in
   * registration order, whose event it is runs its handler on the scope tree
   * `state[scope] || {}`. Returns the listeners after, the callbacks made,
   * and the next free epoch.
   */
  method Broadcast(ls0: seq<Listener>, scope: string, state: map<string, Value>, e0: nat)
    returns (ls: seq<Listener>, calls: seq<Delivery>, e: nat)
    requires SnapshotsAreObjects(ls0) && TreesAreObjects(state)
    ensures ls == Dispatch(ls0, scope, state, e0)
    ensures e == e0 + 3 * Runs(ls0, scope)
    ensures calls == Calls(ls0, scope, state, e0)
  {
    ls, calls, e := ls0, [], e0;
    var i := 0;
    assert ls0[..0] == [] && ls0[0..] == ls0;
    while i < |ls0|
      invariant 0 <= i <= |ls0|
      invariant ls == Dispatch(ls0[..i], scope, state, e0) + ls0[i..]
      invariant e == e0 + 3 * Runs(ls0[..i], scope)
      invariant calls == Calls(ls0[..i], scope, state, e0)
    {
      RunsStep(ls0, i, scope);
      CallsStep(ls0, i, scope, state, e0, e);
      DispatchStep(ls0, i, scope, state, e0, e);
      var l := ls[i];
      if l.event == EventName(scope) {
        var next, out := Handle(l, ScopeTree(state, scope, e), e);
        ls := ls[i := next];
        calls := calls + out;
        e := e + 3;
      }
      i := i + 1;
    }
    assert ls0[..i] == ls0 && ls0[i..] == [];
  }

  /** No two listeners share a handle. */
  ghost predicate DistinctHandles(ls: seq<Listener>) {
    forall i, j | 0 <= i < j < |ls| :: ls[i].handle != ls[j].handle
  }

  /**
   * The invariant of the store: scope trees and snapshots are objects
   * allocated before epoch `e`; handles are distinct and below `next`.
   */
  ghost predicate Consistent(state: map<string, Value>, ls: seq<Listener>, e: nat, next: nat) {
    TreesAreObjects(state) && SnapshotsAreObjects(ls)
    && (forall s | s in state :: AllocatedBefore(state[s], e))
    && (forall i | 0 <= i < |ls| :: AllocatedBefore(ls[i].lastState, e))
    && (forall i | 0 <= i < |ls| :: ls[i].handle < next)
    && DistinctHandles(ls)
  }

  /** Moving the allocation counter on keeps the store consistent. */
  lemma ConsistentLater(state: map<string, Value>, ls: seq<Listener>, e: nat, later: nat, next: nat)
    requires Consistent(state, ls, e, next) && e <= later
    ensures Consistent(state, ls, later, next)
  {
    forall s | s in state ensures AllocatedBefore(state[s], later) {
      AllocatedBeforeLater(state[s], e, later);
    }
    forall i | 0 <= i < |ls| ensures AllocatedBefore(ls[i].lastState, later) {
      AllocatedBeforeLater(ls[i].lastState, e, later);
    }
  }

  /** A dispatch keeps the store consistent. */
  lemma DispatchConsistent(state: map<string, Value>, ls: seq<Listener>, e: nat, next: nat, scope: string)
    requires Consistent(state, ls, e, next)
    ensures Consistent(state, Dispatch(ls, scope, state, e), e + 3 * Runs(ls, scope), next)
  {
    var r := Dispatch(ls, scope, state, e);
    DispatchSnapshots(ls, scope, state, e);
    DispatchAllocates(ls, scope, state, e);
    assert SnapshotsAreObjects(r);
    ConsistentAfter(state, ls, r, e, e + 3 * Runs(ls, scope), next);
  }

  /**
   * Replacing the snapshots by objects allocated before `later`, handle for
   * handle, keeps the store consistent.
   */
  lemma ConsistentAfter(state: map<string, Value>, ls: seq<Listener>, r: seq<Listener>, e: nat, later: nat, next: nat)
    requires Consistent(state, ls, e, next) && e <= later
    requires |r| == |ls| && forall i | 0 <= i < |ls| :: r[i].handle == ls[i].handle
    requires SnapshotsAreObjects(r) && forall i | 0 <= i < |r| :: AllocatedBefore(r[i].lastState, later)
    ensures Consistent(state, r, later, next)
  {
    forall s | s in state ensures AllocatedBefore(state[s], later) {
      AllocatedBeforeLater(state[s], e, later);
    }
  }

  /**
   * The scope object `set` leaves: the scope's object (a new `{}` in epoch
   * `e + 1` when the scope is missing) with the top-level keys of a deep copy
   * of `v`, made in epoch `e`, assigned into it.
   */
  function Assign(state: map<string, Value>, scope: string, v: Value, e: nat): (w: Value)
    requires TreesAreObjects(state)
    ensures w.Obj?
    ensures scope in state ==> w.id == state[scope].id
  {
    var target := ScopeTree(state, scope, e + 1);
    Obj(target.id, target.props + AssignSource(Copy(v, e, [])))
  }

  /**
   * `Object.assign` overwrites only the keys the new value has: every key of
   * the copied source carries the copy's value, every other key of the old
   * scope tree keeps its old value, and no other key appears.
   */
  lemma AssignKeepsOtherKeys(state: map<string, Value>, scope: string, v: Value, e: nat)
    requires TreesAreObjects(state)
    ensures var w := Assign(state, scope, v, e);
            var src := AssignSource(Copy(v, e, []));
            (forall k | k in src :: k in w.props && w.props[k] == src[k])
            && (scope in state ==> forall k | k in state[scope].props && k !in src ::
                  k in w.props && w.props[k] == state[scope].props[k])
            && (forall k | k in w.props :: k in src || (scope in state && k in state[scope].props))
  {
    var target := ScopeTree(state, scope, e + 1);
    assert scope in state ==> target == state[scope];
    assert scope !in state ==> target.props == map[];
  }

  /** What `set` writes is allocated before the two epochs it uses end, so the store stays consistent. */
  lemma AssignConsistent(state: map<string, Value>, ls: seq<Listener>, e: nat, next: nat, scope: string, v: Value)
    requires Consistent(state, ls, e, next)
    ensures Consistent(state[scope := Assign(state, scope, v, e)], ls, e + 2, next)
  {
    ConsistentLater(state, ls, e, e + 2, next);
    var copy := Copy(v, e, []);
    var target := ScopeTree(state, scope, e + 1);
    CopyIsFresh(v, e, []);
    AssignFresh(target, copy, e);
  }

  /**
   * The store: `state`, the window's listeners in registration order, the
   * callbacks made so far, the allocation counter that gives every array
   * and object a new identity, and the next listener handle.
   */
  class Store {
    var state: map<string, Value>
    var listeners: seq<Listener>
    var delivered: seq<Delivery>
    var epoch: nat
    var nextHandle: nat

    /** Scope trees and snapshots are objects allocated before `epoch`; handles are distinct and issued. */
    ghost predicate Valid()
      reads this
    {
      Consistent(state, listeners, epoch, nextHandle)
    }

    /** An empty store: no scope, no listener. */
    constructor ()
      ensures Valid()
      ensures state == map[] && listeners == [] && delivered == []
    {
      state := map[];
      listeners := [];
      delivered := [];
      epoch := 0;
      nextHandle := 0;
    }

    /** `get(scope)`: the stored tree, or `{}` for a scope that does not exist. */
    function Get(scope: string): (t: Value)
      reads this
      ensures scope in state ==> t == state[scope]
      ensures scope !in state ==> t.Obj? && t.props == map[]
    {
      ScopeTree(state, scope, epoch)
    }

    /**
     * `emitChange(scope)`: dispatch the scope's event to every listener in
     * registration order. Only the listeners, the callbacks and the
     * allocation counter change.
     */
    method EmitChange(scope: string)
      requires Valid()
      modifies this
      ensures Valid()
      ensures state == old(state) && nextHandle == old(nextHandle)
      ensures listeners == Dispatch(old(listeners), scope, old(state), old(epoch))
      ensures epoch == old(epoch) + 3 * Runs(old(listeners), scope)
      ensures delivered == old(delivered) + Calls(old(listeners), scope, old(state), old(epoch))
    {
      var ls, out, e := Broadcast(listeners, scope, state, epoch);
      DispatchConsistent(state, listeners, epoch, nextHandle, scope);
      listeners, delivered, epoch := ls, delivered + out, e;
    }

    /**
     * The assignment `set` makes: the top-level keys of a deep copy of
     * `newState` go into the scope's object (created as `{}` when missing).
     * Nobody is notified yet.
     */
    method AssignScope(scope: string, newState: Value)
      requires Valid()
      modifies this
      ensures Valid()
      ensures state == old(state)[scope := Assign(old(state), scope, newState, old(epoch))]
      ensures epoch == old(epoch) + 2
      ensures listeners == old(listeners) && delivered == old(delivered) && nextHandle == old(nextHandle)
    {
      var written := Assign(state, scope, newState, epoch);
      AssignConsistent(state, listeners, epoch, nextHandle, scope, newState);
      state, epoch := state[scope := written], epoch + 2;
    }

    /**
     * `set(scope, newState)`: assign the top-level keys of a deep copy of
     * `newState` into the scope's object (created as `{}` when missing), then
     * notify the scope.
     */
    method Set(scope: string, newState: Value)
      requires Valid()
      modifies this
      ensures Valid()
      ensures state == old(state)[scope := Assign(old(state), scope, newState, old(epoch))]
      ensures listeners == Dispatch(old(listeners), scope, state, old(epoch) + 2)
      ensures epoch == old(epoch) + 2 + 3 * Runs(old(listeners), scope)
      ensures delivered == old(delivered) + Calls(old(listeners), scope, state, old(epoch) + 2)
      ensures nextHandle == old(nextHandle)
    {
      AssignScope(scope, newState);
      EmitChange(scope);
    }

    /**
     * `delete(scope, stateKey)`: remove one key of the scope's object, then
     * notify the scope. For a scope that does not exist `state[scope]` is
     * undefined and the deletion throws a TypeError before anything changes;
     * `thrown` reports that.
     */
    method Delete(scope: string, key: Key) returns (thrown: bool)
      requires Valid()
      modifies this
      ensures Valid()
      ensures thrown <==> scope !in old(state)
      ensures thrown ==> state == old(state) && listeners == old(listeners) && delivered == old(delivered)
                         && epoch == old(epoch)
      ensures !thrown ==> state == old(state)[scope := Obj(old(state)[scope].id, old(state)[scope].props - {key})]
      ensures !thrown ==> listeners == Dispatch(old(listeners), scope, state, old(epoch))
                          && epoch == old(epoch) + 3 * Runs(old(listeners), scope)
                          && delivered == old(delivered) + Calls(old(listeners), scope, state, old(epoch))
      ensures nextHandle == old(nextHandle)
    {
      if scope !in state {
        return true;
      }
      var tree := state[scope];
      state := state[scope := Obj(tree.id, tree.props - {key})];
      EmitChange(scope);
      thrown := false;
    }

    /** `deleteScope(scope)`: remove the whole scope (nothing happens to a missing one), then notify it. */
    method DeleteScope(scope: string)
      requires Valid()
      modifies this
      ensures Valid()
      ensures state == old(state) - {scope}
      ensures listeners == Dispatch(old(listeners), scope, state, old(epoch))
      ensures epoch == old(epoch) + 3 * Runs(old(listeners), scope)
      ensures delivered == old(delivered) + Calls(old(listeners), scope, state, old(epoch))
      ensures nextHandle == old(nextHandle)
    {
      state := state - {scope};
      EmitChange(scope);
    }

    /** `on(scope, callback)`: add a listener whose `lastState` starts as `{}`; returns its handle. */
    method On(scope: string) returns (handle: nat)
      requires Valid()
      modifies this
      ensures Valid()
      ensures handle == old(nextHandle) && nextHandle == handle + 1
      ensures forall i | 0 <= i < |old(listeners)| :: old(listeners)[i].handle != handle
      ensures listeners == old(listeners) + [Listener(handle, EventName(scope), Obj(Ref(old(epoch), []), map[]))]
      ensures state == old(state) && delivered == old(delivered) && epoch == old(epoch) + 1
    {
      handle := nextHandle;
      ConsistentLater(state, listeners, epoch, epoch + 1, nextHandle);
      listeners := listeners + [Listener(handle, EventName(scope), Obj(Ref(epoch, []), map[]))];
      epoch := epoch + 1;
      nextHandle := nextHandle + 1;
    }

    /** The handle's `remove()`: take its listener out; a second call does nothing. */
    method Remove(handle: nat)
      requires Valid()
      modifies this`listeners
      ensures Valid()
      ensures listeners == Without(old(listeners), handle)
    {
      WithoutDistinct(listeners, handle);
      var before := listeners;
      listeners := Without(listeners, handle);
      forall i | 0 <= i < |listeners|
        ensures listeners[i].lastState.Obj? && AllocatedBefore(listeners[i].lastState, epoch)
        ensures listeners[i].handle < nextHandle
      {
        assert listeners[i] in listeners;
        var k :| 0 <= k < |before| && before[k] == listeners[i];
      }
    }

    /** `scope(scope)` reads the scope; `scope(scope, value)` sets it and returns nothing. */
    method Scope(scope: string, value: Option<Value>) returns (r: Option<Value>)
      requires Valid()
      modifies this
      ensures Valid()
      ensures value.None? ==> r == Some(old(Get(scope))) && state == old(state) && listeners == old(listeners)
                              && delivered == old(delivered) && epoch == old(epoch)
      ensures value.Some? ==> r.None?
      ensures value.Some? ==> state == old(state)[scope := Assign(old(state), scope, value.value, old(epoch))]
      ensures value.Some? ==> listeners == Dispatch(old(listeners), scope, state, old(epoch) + 2)
                              && epoch == old(epoch) + 2 + 3 * Runs(old(listeners), scope)
                              && delivered == old(delivered) + Calls(old(listeners), scope, state, old(epoch) + 2)
      ensures nextHandle == old(nextHandle)
    {
      if value.None? {
        r := Some(Get(scope));
      } else {
        Set(scope, value.value);
        r := None;
      }
    }
  }

  /** The scope object `set` writes is allocated before the two epochs `set` uses end. */
  lemma AssignFresh(target: Value, copy: Value, e: nat)
    requires target.Obj? && AllocatedBefore(target, e + 2) && AllocatedIn(copy, e)
    ensures AllocatedBefore(Obj(target.id, target.props + AssignSource(copy)), e + 2)
  {
    var m := target.props + AssignSource(copy);
    forall k | k in m ensures AllocatedBefore(m[k], e + 2) {
      if k in AssignSource(copy) && copy.IsContainer() {
        AllocatedInBefore(copy.props[k], e, e + 2);
      }
    }
  }

  /** A listener whose handle no other has can go in front. */
  lemma DistinctCons(x: Listener, w: seq<Listener>)
    requires DistinctHandles(w) && forall j | 0 <= j < |w| :: w[j].handle != x.handle
    ensures DistinctHandles([x] + w)
  {
    var r := [x] + w;
    forall i, j | 0 <= i < j < |r| ensures r[i].handle != r[j].handle {
      assert r[j] == w[j - 1];
      if i > 0 { assert r[i] == w[i - 1]; }
    }
  }

  /** `remove()` keeps the remaining handles distinct. */
  lemma {:induction false} WithoutDistinct(ls: seq<Listener>, handle: nat)
    requires DistinctHandles(ls)
    ensures DistinctHandles(Without(ls, handle))
  {
    if ls != [] {
      var rest := ls[1..];
      assert DistinctHandles(rest) by {
        forall i, j | 0 <= i < j < |rest| ensures rest[i].handle != rest[j].handle {
          assert rest[i] == ls[i + 1] && rest[j] == ls[j + 1];
        }
      }
      WithoutDistinct(rest, handle);
      var w := Without(rest, handle);
      if ls[0].handle != handle {
        forall j | 0 <= j < |w| ensures w[j].handle != ls[0].handle {
          assert w[j] in w;
          var k :| 0 <= k < |rest| && rest[k] == w[j];
          assert ls[k + 1] == w[j];
        }
        DistinctCons(ls[0], w);
      }
    }
  }
}
