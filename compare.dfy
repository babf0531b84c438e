/**
 * `State.compareState(A, B)`: equality of the two JSON texts. The model
 * compares the JSON trees, so the order in which keys were inserted is not
 * part of it.
 */
module Compare {
  import opened Values

  /** `JSON.stringify(stateA) == JSON.stringify(stateB)`. */
  function CompareState(a: Value, b: Value): (r: bool)
    ensures r && a.Obj? ==> b.Obj? && a.props.Keys == b.props.Keys
    ensures r && a.Arr? ==> b.Arr? && a.len == b.len
    ensures a.Null? || a.Prim? ==> (r <==> a == b)
  {
    ToJson(a) == ToJson(b)
  }

  /** A deep copy compares equal to its original, though none of its arrays or objects is `===` to one of the original's. */
  lemma CompareCopy(v: Value, e: nat, p: seq<Key>)
    ensures CompareState(v, Copy(v, e, p))
  {
    CopyKeepsContent(v, e, p);
  }

  /** A key holding null is not the same as a missing key: `{a: 1, b: null}` and `{a: 1}` differ. */
  lemma CompareNullIsNotAbsent(a: Value, id: Ref, k: Key)
    requires a.Obj? && k !in a.props
    ensures !CompareState(Obj(id, a.props[k := Null]), a)
  {
    assert k in ToJson(Obj(id, a.props[k := Null])).fields;
  }

  /** An array hole serialises as null: it compares equal to an explicit null. */
  lemma CompareHoleIsNull(a: Value, id: Ref, i: nat)
    requires a.Arr? && i < a.len && Index(i) !in a.props
    ensures CompareState(Arr(id, a.len, a.props[Index(i) := Null]), a)
  {
    var b := Arr(id, a.len, a.props[Index(i) := Null]);
    assert forall n | 0 <= n < a.len :: ToJson(b).items[n] == ToJson(a).items[n];
  }

  /** Named properties of an array are not serialised, so they do not affect the comparison. */
  lemma CompareIgnoresArrayNames(a: Value, id: Ref, s: string, v: Value)
    requires a.Arr?
    ensures CompareState(Arr(id, a.len, a.props[Name(s) := v]), a)
  {
    var b := Arr(id, a.len, a.props[Name(s) := v]);
    assert forall n | 0 <= n < a.len :: ToJson(b).items[n] == ToJson(a).items[n];
  }
}
