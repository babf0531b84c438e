/**
 * `State.mergeState(A, B)`: a new tree that starts as a deep copy of A and
 * takes B's keys over it, recursing where both sides are state objects.
 */
module Merge {
  import opened Values

  /** One past the largest index key in `ks` (0 if it has none): the length an array needs to hold them. */
  ghost function IndexBound(ks: set<Key>): (n: nat)
    ensures forall k | k in ks && k.Index? :: k.n < n
    ensures n > 0 ==> Index(n - 1) in ks
    decreases ks
  {
    if ks == {} then 0
    else
      var k :| k in ks;
      var rest := IndexBound(ks - {k});
      if k.Index? && k.n + 1 > rest then k.n + 1 else rest
  }

  /** The bigger of two lengths. */
  function Max(x: nat, y: nat): nat { if x < y then y else x }

  /**
   * What the loop of `itterateKeys(objectA, objectB)` writes into `local` for
   * one key of either side. Keys on both sides recurse when both values are
   * state objects and otherwise take B's value itself; a key on one side only
   * is set to a deep copy of `objectA[key] || objectB[key]` unless that is
   * null or undefined.
   */
  ghost function MergeAt(a: Value, b: Value, k: Key, e: nat, p: seq<Key>): (w: Write)
    requires a.IsContainer() && b.IsContainer()
    requires k in a.props || k in b.props
    ensures k in a.props && k in b.props ==> w.Put?
    ensures k !in b.props ==> (w.Put? <==> Truthy(a.props[k]))
    ensures k !in a.props ==> (w.Put? <==> b.props[k] != Null)
    decreases a, 0
  {
    if k in a.props && k in b.props then
      if IsStateObject(b.props[k]) && IsStateObject(a.props[k])
      then Put(MergeState(a.props[k], b.props[k], e, p + [k]))
      else Put(b.props[k])
    else if k in a.props then
      // `objectA[key] || undefined`: a falsy value of A is not written again
      if Truthy(a.props[k]) then Put(Copy(a.props[k], e, p + [k])) else Skip
    else
      // `undefined || objectB[key]`
      if b.props[k] != Null then Put(Copy(b.props[k], e, p + [k])) else Skip
  }

  /**
   * `mergeState(stateA, stateB)`; new arrays and objects are allocated in
   * epoch `e` below path `p`. `local` is a deep copy of A, so the result has
   * A's kind: an array result grows to hold every index written into it.
   */
  ghost function MergeState(a: Value, b: Value, e: nat, p: seq<Key>): (r: Value)
    requires a.IsContainer() && b.IsContainer()
    ensures r.Obj? <==> a.Obj?
    ensures r.IsContainer() && r.id == Ref(e, p)
    ensures r.props.Keys == Copy(a, e, p).props.Keys + Written(a, b, e, p).Keys
    decreases a, 2
  {
    var local := Copy(a, e, p);
    var written := Written(a, b, e, p);
    if local.Arr? then Arr(local.id, Max(local.len, IndexBound(written.Keys)), local.props + written)
    else Obj(local.id, local.props + written)
  }

  /** Everything the loop writes into `local`, key by key. */
  ghost function Written(a: Value, b: Value, e: nat, p: seq<Key>): (m: map<Key, Value>)
    requires a.IsContainer() && b.IsContainer()
    ensures m.Keys <= a.props.Keys + b.props.Keys
    ensures a.props.Keys * b.props.Keys <= m.Keys
    decreases a, 1
  {
    map k | k in a.props.Keys + b.props.Keys && MergeAt(a, b, k, e, p).Put? :: MergeAt(a, b, k, e, p).v
  }

  /** Where a key of the result gets its value: the loop's write, else the copy of A. */
  lemma MergeValueAt(a: Value, b: Value, e: nat, p: seq<Key>, k: Key)
    requires a.IsContainer() && b.IsContainer()
    ensures var r := MergeState(a, b, e, p);
            var put := (k in a.props || k in b.props) && MergeAt(a, b, k, e, p).Put?;
            (k in r.props <==> put || k in Copy(a, e, p).props)
            && (put ==> r.props[k] == MergeAt(a, b, k, e, p).v)
            && (!put && k in Copy(a, e, p).props ==> r.props[k] == Copy(a, e, p).props[k])
  {
    assert MergeState(a, b, e, p).props == Copy(a, e, p).props + Written(a, b, e, p);
  }

  /**
   * A key on both sides: when both values are state objects the result holds
   * their merge; otherwise B's value replaces A's wholesale, as the very same
   * value (null, a primitive, an empty object, an array of holes, ...).
   */
  lemma MergeBoth(a: Value, b: Value, e: nat, p: seq<Key>, k: Key)
    requires a.IsContainer() && b.IsContainer()
    requires k in a.props && k in b.props
    ensures k in MergeState(a, b, e, p).props
    ensures IsStateObject(a.props[k]) && IsStateObject(b.props[k]) ==>
              MergeState(a, b, e, p).props[k] == MergeState(a.props[k], b.props[k], e, p + [k])
    ensures !(IsStateObject(a.props[k]) && IsStateObject(b.props[k])) ==>
              MergeState(a, b, e, p).props[k] == b.props[k]
  {
    MergeValueAt(a, b, e, p, k);
  }

  /**
   * A key of A that B lacks keeps A's content (as a deep copy). For an array A
   * that holds for its index keys; a falsy named property of an array is lost,
   * since the copy of the array drops it and the loop does not write it back.
   */
  lemma MergeOnlyA(a: Value, b: Value, e: nat, p: seq<Key>, k: Key)
    requires a.IsContainer() && b.IsContainer() && (a.Arr? ==> WellFormed(a))
    requires k in a.props && k !in b.props
    requires a.Obj? || k.Index? || Truthy(a.props[k])
    ensures k in MergeState(a, b, e, p).props
    ensures ToJson(MergeState(a, b, e, p).props[k]) == ToJson(a.props[k])
  {
    var local := Copy(a, e, p);
    CopyShape(a, e, p);
    MergeValueAt(a, b, e, p, k);
    if Truthy(a.props[k]) {
      CopyKeepsContent(a.props[k], e, p + [k]);
    } else {
      JsonRoundTrip(ToJson(a), e, p);
      if a.Obj? {
        assert ToJson(local).fields[k] == ToJson(a).fields[k];
      } else {
        assert ToJson(local).items[k.n] == ToJson(a).items[k.n];
      }
    }
  }

  /**
   * A key of B that A lacks: a non-null value is added as a deep copy; a null
   * is not written, so into an object it is dropped (into an array it leaves
   * what the copy of A holds there: a hole of A reads as null).
   */
  lemma MergeOnlyB(a: Value, b: Value, e: nat, p: seq<Key>, k: Key)
    requires a.IsContainer() && b.IsContainer()
    requires k !in a.props && k in b.props
    ensures b.props[k] != Null ==>
              k in MergeState(a, b, e, p).props && ToJson(MergeState(a, b, e, p).props[k]) == ToJson(b.props[k])
    ensures b.props[k] == Null && a.Obj? ==> k !in MergeState(a, b, e, p).props
  {
    CopyShape(a, e, p);
    MergeValueAt(a, b, e, p, k);
    if b.props[k] != Null {
      CopyKeepsContent(b.props[k], e, p + [k]);
    }
  }

  /**
   * Two non-empty arrays under the same key merge index by index, so A's
   * elements beyond B's survive: `{t: [1, 2]}` merged with `{t: [9]}` keeps
   * the 2. The result there is an array at least as long as A's.
   */
  lemma MergeArraysByIndex(a: Value, b: Value, e: nat, p: seq<Key>, k: Key, i: nat)
    requires a.IsContainer() && b.IsContainer() && k in a.props && k in b.props
    requires a.props[k].Arr? && b.props[k].Arr? && a.props[k].props != map[] && b.props[k].props != map[]
    requires WellFormed(a.props[k])
    requires Index(i) in a.props[k].props && Index(i) !in b.props[k].props
    ensures k in MergeState(a, b, e, p).props
    ensures var m := MergeState(a, b, e, p).props[k];
            m.Arr? && m.len >= a.props[k].len && Index(i) in m.props
            && ToJson(m.props[Index(i)]) == ToJson(a.props[k].props[Index(i)])
  {
    MergeBoth(a, b, e, p, k);
    MergeOnlyA(a.props[k], b.props[k], e, p + [k], Index(i));
    CopyShape(a.props[k], e, p + [k]);
  }

  /**
   * An empty B at the top level changes nothing: the result has the JSON
   * text of A (`{a: 1}` merged with `{}` is `{a: 1}`).
   */
  lemma MergeEmptyRight(a: Value, b: Value, e: nat, p: seq<Key>)
    requires a.Obj? && b.IsContainer() && b.props == map[]
    ensures ToJson(MergeState(a, b, e, p)) == ToJson(a)
  {
    var r := MergeState(a, b, e, p);
    CopyShape(a, e, p);
    assert r.props.Keys == a.props.Keys;
    forall k | k in a.props ensures ToJson(r.props[k]) == ToJson(a.props[k]) {
      MergeOnlyA(a, b, e, p, k);
    }
  }

  /**
   * Merging into an empty object copies B without its null-valued keys, so
   * `mergeState({}, T)` is T only when T has no null at the top.
   */
  lemma MergeIntoEmpty(a: Value, b: Value, e: nat, p: seq<Key>)
    requires a.Obj? && a.props == map[] && b.IsContainer()
    ensures var r := MergeState(a, b, e, p);
            r.props.Keys == (set k | k in b.props && b.props[k] != Null)
            && forall k | k in r.props :: ToJson(r.props[k]) == ToJson(b.props[k])
  {
    var r := MergeState(a, b, e, p);
    CopyShape(a, e, p);
    forall k | k in b.props ensures (k in r.props <==> b.props[k] != Null) {
      MergeOnlyB(a, b, e, p, k);
    }
    forall k | k in r.props ensures ToJson(r.props[k]) == ToJson(b.props[k]) {
      MergeOnlyB(a, b, e, p, k);
    }
  }

  /** Merging keeps arrays well formed: an array result is long enough for every index it holds. */
  lemma {:induction false} MergeWellFormed(a: Value, b: Value, e: nat, p: seq<Key>)
    requires a.IsContainer() && b.IsContainer() && WellFormed(a) && WellFormed(b)
    ensures WellFormed(MergeState(a, b, e, p))
    decreases a, 1
  {
    var r := MergeState(a, b, e, p);
    CopyShape(a, e, p);
    CopyWellFormed(a, e, p);
    forall k | k in r.props ensures WellFormed(r.props[k]) {
      MergeValueAt(a, b, e, p, k);
      if k in a.props || k in b.props {
        MergeAtWellFormed(a, b, k, e, p);
      }
    }
  }

  /** What the loop writes for one key is well formed. */
  lemma {:induction false} MergeAtWellFormed(a: Value, b: Value, k: Key, e: nat, p: seq<Key>)
    requires a.IsContainer() && b.IsContainer() && WellFormed(a) && WellFormed(b)
    requires k in a.props || k in b.props
    ensures MergeAt(a, b, k, e, p).Put? ==> WellFormed(MergeAt(a, b, k, e, p).v)
    decreases a, 0
  {
    if k in a.props && k in b.props {
      if IsStateObject(b.props[k]) && IsStateObject(a.props[k]) {
        MergeWellFormed(a.props[k], b.props[k], e, p + [k]);
      }
    } else if k in a.props {
      CopyWellFormed(a.props[k], e, p + [k]);
    } else {
      CopyWellFormed(b.props[k], e, p + [k]);
    }
  }

  /** A deep copy is well formed: its arrays are dense. */
  lemma {:induction false} CopyWellFormed(v: Value, e: nat, p: seq<Key>)
    ensures WellFormed(Copy(v, e, p))
  {
    if v.IsContainer() {
      var c := Copy(v, e, p);
      forall k | k in c.props ensures WellFormed(c.props[k]) {
        if k in v.props { CopyWellFormed(v.props[k], e, p + [k]); }
      }
    }
  }
}
