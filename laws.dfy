/**
 * How `mergeState` and `subtractState` fit together, and worked examples of
 * both on concrete trees.
 */
module Laws {
  import opened Values
  import opened Merge
  import opened Subtract

  /**
   * Applying the changes from A to B onto A with `mergeState` gives every key
   * of B that holds a primitive exactly B's value (A a plain object).
   */
  lemma MergeSubtractPrimitive(a: Value, b: Value, e: nat, p: seq<Key>, e2: nat, p2: seq<Key>, k: Key)
    requires a.Obj? && b.IsContainer()
    requires k in b.props && b.props[k].Prim?
    ensures var m := MergeState(a, SubtractState(a, b, e, p), e2, p2);
            k in m.props && m.props[k] == b.props[k]
  {
    var d := SubtractState(a, b, e, p);
    var y := b.props[k];
    CopyShape(a, e2, p2);
    CopyShape(y, e, p + [k]);
    CopyShape(y, e2, p2 + [k]);
    SubtractAt(a, b, e, p, k);
    MergeValueAt(a, d, e2, p2, k);
    if k in a.props {
      var x := a.props[k];
      if StrictEq(x, y) {
        assert x == y;
        assert DeltaAt(a, b, k, e, p) == Skip;
        assert k !in d.props;
        CopyShape(x, e2, p2 + [k]);
        if !Truthy(x) {
          assert Copy(a, e2, p2).props[k] == Copy(x, e2, p2 + [k]);
        }
      } else {
        SubtractCompared(a, b, e, p, k);
        MergeBoth(a, d, e2, p2, k);
      }
    } else {
      assert d.props[k] == Copy(y, e, p + [k]) == y;
    }
  }

  /**
   * The null marker is not a deletion for `mergeState`: a key A has and B
   * lacks comes back from merging the changes as a key holding null.
   */
  lemma MergeSubtractRemoved(a: Value, b: Value, e: nat, p: seq<Key>, e2: nat, p2: seq<Key>, k: Key)
    requires a.IsContainer() && b.IsContainer()
    requires k in a.props && k !in b.props
    ensures var m := MergeState(a, SubtractState(a, b, e, p), e2, p2);
            k in m.props && m.props[k] == Null
  {
    var d := SubtractState(a, b, e, p);
    SubtractAt(a, b, e, p, k);
    MergeBoth(a, d, e2, p2, k);
  }

  /**
   * Merging back the changes loses a nested object that did not change: the
   * changes hold an empty object at that key (subtractState recurses and
   * finds nothing), and for mergeState an empty object is not a state object,
   * so it replaces the nested object wholesale.
   */
  lemma MergeSubtractEmptiesUnchanged(a: Value, b: Value, e: nat, p: seq<Key>, e2: nat, p2: seq<Key>, k: Key)
    requires a.IsContainer() && b.IsContainer()
    requires k in a.props && k in b.props
    requires IsStateObject(a.props[k]) && IsStateObject(b.props[k]) && !(a.props[k].Arr? && b.props[k].Arr?)
    requires SubtractState(a.props[k], b.props[k], e, p + [k]).props == map[]
    ensures var m := MergeState(a, SubtractState(a, b, e, p), e2, p2);
            k in m.props && ToJson(m.props[k]) == JObj(map[]) && ToJson(m.props[k]) != ToJson(b.props[k])
  {
    var d := SubtractState(a, b, e, p);
    SubtractRecurses(a, b, e, p, k);
    MergeBoth(a, d, e2, p2, k);
    var y := b.props[k];
    if y.Obj? {
      var j := ToJson(y);
      var k' :| k' in y.props;
      assert k' in j.fields;
    }
  }

  /**
   * In particular `mergeState(T, subtractState(T, T))` empties every nested
   * object of T whose own values are not non-empty objects:
   * `{user: {name: "Ann"}}` becomes `{user: {}}`.
   */
  lemma MergeSubtractSelfEmpties(t: Value, e: nat, p: seq<Key>, e2: nat, p2: seq<Key>, k: Key)
    requires t.IsContainer() && k in t.props && t.props[k].Obj? && t.props[k].props != map[]
    requires forall k' | k' in t.props[k].props :: !t.props[k].props[k'].Obj? || t.props[k].props[k'].props == map[]
    ensures var m := MergeState(t, SubtractState(t, t, e, p), e2, p2);
            k in m.props && ToJson(m.props[k]) == JObj(map[]) && ToJson(m.props[k]) != ToJson(t.props[k])
  {
    SubtractSelfFlat(t.props[k], e, p + [k]);
    MergeSubtractEmptiesUnchanged(t, t, e, p, e2, p2, k);
  }
}
