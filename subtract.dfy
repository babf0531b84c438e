/**
 * `State.subtractState(A, B)`: the changes from A to B, as an object holding
 * every key that changed, with null marking a key B no longer has.
 */
module Subtract {
  import opened Values

  /**
   * What the loop of `itterateKeys(objectA, objectB)` writes into `local` for
   * one key of either side. Two arrays are compared by reference and two state
   * objects always recurse; any other pair is compared with `!==`. A key on
   * one side only yields a deep copy of B's value, or the null marker.
   */
  function DeltaAt(a: Value, b: Value, k: Key, e: nat, p: seq<Key>): (w: Write)
    requires a.IsContainer() && b.IsContainer()
    requires k in a.props || k in b.props
    ensures k in a.props && k !in b.props ==> w == Put(Null)
    ensures k !in a.props ==> w.Put? && (w.v == Null <==> b.props[k] == Null)
    ensures k in a.props && k in b.props && w.Skip? ==> StrictEq(a.props[k], b.props[k])
    decreases a, 0
  {
    if k in a.props && k in b.props then
      var x, y := a.props[k], b.props[k];
      if y.Arr? && x.Arr? then
        if !StrictEq(x, y) then Put(y) else Skip
      else if IsStateObject(y) && IsStateObject(x) then
        Put(SubtractState(x, y, e, p + [k]))
      else
        if !StrictEq(x, y) then Put(y) else Skip
    else if k in b.props && b.props[k] != Null then
      Put(Copy(b.props[k], e, p + [k]))
    else
      Put(Null)
  }

  /**
   * `subtractState(stateA, stateB)`; the result and the copies in it are
   * allocated in epoch `e` below path `p`. The result is always a plain
   * object, whatever the kinds of A and B.
   */
  function SubtractState(a: Value, b: Value, e: nat, p: seq<Key>): (r: Value)
    requires a.IsContainer() && b.IsContainer()
    ensures r.Obj? && r.id == Ref(e, p)
    ensures r.props.Keys <= a.props.Keys + b.props.Keys
    decreases a, 2
  {
    Obj(Ref(e, p), Delta(a, b, e, p))
  }

  /** The properties of `local` once the loop over `allKeys` is done. */
  function Delta(a: Value, b: Value, e: nat, p: seq<Key>): (m: map<Key, Value>)
    requires a.IsContainer() && b.IsContainer()
    ensures m.Keys <= a.props.Keys + b.props.Keys
    decreases a, 1
  {
    map k | k in a.props.Keys + b.props.Keys && DeltaAt(a, b, k, e, p).Put? :: DeltaAt(a, b, k, e, p).v
  }

  /** A key is in the result exactly when the loop writes it, with the value written. */
  lemma SubtractAt(a: Value, b: Value, e: nat, p: seq<Key>, k: Key)
    requires a.IsContainer() && b.IsContainer()
    ensures k in SubtractState(a, b, e, p).props <==> (k in a.props || k in b.props) && DeltaAt(a, b, k, e, p).Put?
    ensures k in SubtractState(a, b, e, p).props ==> SubtractState(a, b, e, p).props[k] == DeltaAt(a, b, k, e, p).v
  {
  }

  /**
   * Keys on one side only: a key B no longer has is marked with null, and a
   * key only B has carries B's content.
   */
  lemma SubtractOneSided(a: Value, b: Value, e: nat, p: seq<Key>)
    requires a.IsContainer() && b.IsContainer()
    ensures var r := SubtractState(a, b, e, p);
            (forall k | k in a.props && k !in b.props :: k in r.props && r.props[k] == Null)
            && (forall k | k in b.props && k !in a.props :: k in r.props && ToJson(r.props[k]) == ToJson(b.props[k]))
  {
    var r := SubtractState(a, b, e, p);
    forall k | k in a.props && k !in b.props ensures k in r.props && r.props[k] == Null {
      SubtractAt(a, b, e, p, k);
    }
    forall k | k in b.props && k !in a.props ensures k in r.props && ToJson(r.props[k]) == ToJson(b.props[k]) {
      SubtractAt(a, b, e, p, k);
      if b.props[k] != Null { CopyKeepsContent(b.props[k], e, p + [k]); }
    }
  }

  /**
   * A key on both sides whose values are not both state objects, or are two
   * arrays: it is left out exactly when the two are `===`, and otherwise
   * carries B's value itself (B's null stays null).
   */
  lemma SubtractCompared(a: Value, b: Value, e: nat, p: seq<Key>, k: Key)
    requires a.IsContainer() && b.IsContainer()
    requires k in a.props && k in b.props
    requires (a.props[k].Arr? && b.props[k].Arr?) || !(IsStateObject(a.props[k]) && IsStateObject(b.props[k]))
    ensures k in SubtractState(a, b, e, p).props <==> !StrictEq(a.props[k], b.props[k])
    ensures k in SubtractState(a, b, e, p).props ==> SubtractState(a, b, e, p).props[k] == b.props[k]
  {
    SubtractAt(a, b, e, p, k);
  }

  /**
   * A key whose values are both state objects (and not both arrays) is always
   * in the result, with the changes between them, even when there are none.
   */
  lemma SubtractRecurses(a: Value, b: Value, e: nat, p: seq<Key>, k: Key)
    requires a.IsContainer() && b.IsContainer()
    requires k in a.props && k in b.props
    requires IsStateObject(a.props[k]) && IsStateObject(b.props[k]) && !(a.props[k].Arr? && b.props[k].Arr?)
    ensures k in SubtractState(a, b, e, p).props
    ensures SubtractState(a, b, e, p).props[k] == SubtractState(a.props[k], b.props[k], e, p + [k])
  {
    SubtractAt(a, b, e, p, k);
  }

  /** The copies a result makes for keys new in B are new: they share nothing with older values. */
  lemma SubtractCopiesAreFresh(a: Value, b: Value, e: nat, p: seq<Key>, k: Key)
    requires a.IsContainer() && b.IsContainer()
    requires k in b.props && k !in a.props
    ensures k in SubtractState(a, b, e, p).props
    ensures AllocatedIn(SubtractState(a, b, e, p).props[k], e)
  {
    SubtractAt(a, b, e, p, k);
    if b.props[k] != Null { CopyIsFresh(b.props[k], e, p + [k]); }
  }

  /** Two `===` values have the same JSON text, provided a reference names one object only. */
  predicate SameObjectSameValue(x: Value, y: Value) {
    StrictEq(x, y) ==> x == y
  }

  /**
   * No change is missed: a key on both sides whose JSON text differs is in
   * the result, provided `===` values at that key are the same value.
   */
  lemma SubtractComplete(a: Value, b: Value, e: nat, p: seq<Key>, k: Key)
    requires a.IsContainer() && b.IsContainer()
    requires k in a.props && k in b.props && SameObjectSameValue(a.props[k], b.props[k])
    requires ToJson(a.props[k]) != ToJson(b.props[k])
    ensures k in SubtractState(a, b, e, p).props
  {
    SubtractAt(a, b, e, p, k);
  }

  /**
   * `subtractState(T, T)` holds exactly the keys of T whose value is a
   * non-empty object or a mix of object and array: two arrays and every
   * other pair are `===` to themselves.
   */
  lemma SubtractSelf(t: Value, e: nat, p: seq<Key>)
    requires t.IsContainer()
    ensures SubtractState(t, t, e, p).props.Keys == set k | k in t.props && IsStateObject(t.props[k]) && !t.props[k].Arr?
  {
    var r := SubtractState(t, t, e, p);
    forall k | k in t.props
      ensures k in r.props <==> IsStateObject(t.props[k]) && !t.props[k].Arr?
    {
      SubtractAt(t, t, e, p, k);
      var x := t.props[k];
      assert StrictEq(x, x);
      if x.Arr? || !IsStateObject(x) {
        assert DeltaAt(t, t, k, e, p) == Skip;
      } else {
        assert DeltaAt(t, t, k, e, p).Put?;
      }
    }
  }

  /** A tree without nested non-empty objects has no changes against itself. */
  lemma SubtractSelfFlat(t: Value, e: nat, p: seq<Key>)
    requires t.IsContainer()
    requires forall k | k in t.props :: !t.props[k].Obj? || t.props[k].props == map[]
    ensures SubtractState(t, t, e, p).props == map[]
  {
    SubtractSelf(t, e, p);
  }

  /**
   * A tree with a nested object is not empty against itself:
   * `subtractState({a: {x: 1}}, same)` is `{a: {}}`.
   */
  lemma SubtractSelfNested(e: nat, p: seq<Key>)
    ensures var inner := Obj(Ref(0, [Name("a")]), map[Name("x") := Prim(Num(1.0))]);
            var t := Obj(Ref(0, []), map[Name("a") := inner]);
            SubtractState(t, t, e, p) == Obj(Ref(e, p), map[Name("a") := Obj(Ref(e, p + [Name("a")]), map[])])
  {
    var inner := Obj(Ref(0, [Name("a")]), map[Name("x") := Prim(Num(1.0))]);
    var t := Obj(Ref(0, []), map[Name("a") := inner]);
    SubtractSelf(inner, e, p + [Name("a")]);
    SubtractSelf(t, e, p);
    assert IsStateObject(inner);
    SubtractRecurses(t, t, e, p, Name("a"));
  }

  /**
   * Against a snapshot that is a deep copy of B (new references), the result
   * holds exactly the keys whose value is an array or an object: containers
   * are never `===` to their copies, primitives and null always are.
   */
  lemma {:induction false} SubtractCopy(b: Value, s: nat, q: seq<Key>, e: nat, p: seq<Key>)
    requires b.Obj? && AvoidsEpoch(b, s)
    ensures SubtractState(Copy(b, s, q), b, e, p).props.Keys == set k | k in b.props && b.props[k].IsContainer()
  {
    var a := Copy(b, s, q);
    var r := SubtractState(a, b, e, p);
    forall k | k in b.props
      ensures k in r.props <==> b.props[k].IsContainer()
    {
      SubtractAt(a, b, e, p, k);
      var x, y := a.props[k], b.props[k];
      assert x == Copy(y, s, q + [k]);
      if y.IsContainer() {
        assert x.id.epoch == s && y.id.epoch != s;
        assert DeltaAt(a, b, k, e, p).Put?;
      } else {
        assert DeltaAt(a, b, k, e, p) == Skip;
      }
    }
  }
}
