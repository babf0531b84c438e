/**
 * The values a state tree is made of, as the JavaScript store sees them:
 * null, primitives, arrays and plain objects. Arrays and objects have an
 * identity (a reference), because the diff algorithm compares some of them
 * with `!==`; a JSON round trip (`JSON.parse(JSON.stringify(v))`) is the
 * store's deep copy and yields new references.
 */
module Values {

  /** A JSON primitive. Numbers are reals: NaN, infinities and -0 are not modelled. */
  datatype Scalar = Num(x: real) | Bool(b: bool) | Text(s: string)

  /**
   * A property key. A key that is a canonical array index ("0", "1", ...)
   * is written Index(n); every other key is Name(s).
   */
  datatype Key = Index(n: nat) | Name(s: string)

  /**
   * The identity of an array or object: the allocation (epoch) that created
   * it and its path from the root of that allocation. Two containers with the
   * same Ref are the same JavaScript object.
   */
  datatype Ref = Ref(epoch: nat, path: seq<Key>)

  /**
   * A JavaScript value of the store. An array has a length and its own
   * enumerable properties: index keys below the length (missing ones are
   * holes) and, possibly, named properties.
   */
  datatype Value =
    | Null
    | Prim(s: Scalar)
    | Arr(id: Ref, len: nat, props: map<Key, Value>)
    | Obj(id: Ref, props: map<Key, Value>)
  {
    predicate IsContainer() { Arr? || Obj? }
  }

  /** What one pass of a `for (const key of allKeys)` loop does to the result object. */
  datatype Write = Skip | Put(v: Value)

  /** The index keys 0 .. n-1. */
  function Indices(n: nat): (ks: set<Key>)
    ensures forall k | k in ks :: k.Index? && k.n < n
  {
    set i | 0 <= i < n :: Index(i)
  }

  /** `Object.keys(v)` for a value that is not null. */
  function OwnKeys(v: Value): (ks: set<Key>)
    requires v != Null
    ensures v.IsContainer() ==> ks == v.props.Keys
    ensures v.Prim? && v.s.Text? ==> forall k | k in ks :: k.Index? && k.n < |v.s.s|
    ensures v.Prim? && v.s.Text? && v.s.s != [] ==> Index(0) in ks && Index(|v.s.s| - 1) in ks
    ensures v.Prim? && v.s.Text? ==> forall i | 0 <= i < |v.s.s| :: Index(i) in ks
    ensures v.Prim? && !v.s.Text? ==> ks == {}
  {
    match v
    case Prim(Text(s)) => Indices(|s|)
    case Prim(_) => {}
    case Arr(_, _, props) => props.Keys
    case Obj(_, props) => props.Keys
  }

  /**
   * `isAnStateObject`: not null, not a string, not NaN, and at least one own
   * value. Only an array or object with an own enumerable property passes, so
   * an empty object or an array of holes counts as a scalar.
   */
  predicate IsStateObject(v: Value): (r: bool)
    ensures r <==> v.IsContainer() && v.props != map[]
  {
    v != Null && !(v.Prim? && v.s.Text?) && |OwnKeys(v)| > 0
  }

  /** JavaScript truthiness. */
  predicate Truthy(v: Value): (r: bool)
    ensures v.IsContainer() ==> r
    ensures v.Null? ==> !r
  {
    match v
    case Null => false
    case Prim(Num(x)) => x != 0.0
    case Prim(Bool(b)) => b
    case Prim(Text(s)) => s != ""
    case _ => true
  }

  /** `===`: primitives by value, arrays and objects by reference. */
  predicate StrictEq(a: Value, b: Value): (r: bool)
    ensures !a.IsContainer() ==> (r <==> a == b)
    ensures a.IsContainer() && r ==> b.IsContainer() && b.id == a.id
  {
    match a
    case Null => b.Null?
    case Prim(s) => b.Prim? && b.s == s
    case Arr(id, _, _) => b.Arr? && b.id == id
    case Obj(id, _) => b.Obj? && b.id == id
  }

  /** An array holds no index key at or beyond its length, at any depth. */
  predicate WellFormed(v: Value) {
    match v
    case Arr(_, len, props) =>
      (forall k | k in props :: k.Index? ==> k.n < len) &&
      (forall k | k in props :: WellFormed(props[k]))
    case Obj(_, props) => forall k | k in props :: WellFormed(props[k])
    case _ => true
  }

  /**
   * The text `JSON.stringify` produces, as a tree: array holes become null,
   * named array properties are dropped. Key order is not part of the model.
   */
  datatype Json = JNull | JPrim(s: Scalar) | JArr(items: seq<Json>) | JObj(fields: map<Key, Json>)

  /** `JSON.stringify(v)`, read back as a tree. */
  function ToJson(v: Value): (j: Json)
    ensures v.Null? <==> j.JNull?
    ensures v.Prim? <==> j.JPrim?
    ensures v.Prim? ==> j.s == v.s
    ensures v.Arr? <==> j.JArr?
    ensures v.Arr? ==> |j.items| == v.len
    ensures v.Obj? <==> j.JObj?
    ensures v.Obj? ==> j.fields.Keys == v.props.Keys
  {
    match v
    case Null => JNull
    case Prim(s) => JPrim(s)
    case Arr(_, len, props) =>
      JArr(seq(len, i requires 0 <= i < len => if Index(i) in props then ToJson(props[Index(i)]) else JNull))
    case Obj(_, props) => JObj(map k | k in props :: ToJson(props[k]))
  }

  /**
   * `JSON.parse(text)`: every array and object it builds is new; they are
   * identified by the allocation epoch `e` and their path below `p`.
   */
  function FromJson(j: Json, e: nat, p: seq<Key>): (v: Value)
    ensures v.Null? <==> j.JNull?
    ensures j.JPrim? ==> v == Prim(j.s)
    ensures j.JArr? ==> v.Arr? && v.id == Ref(e, p) && v.len == |j.items| && v.props.Keys == Indices(|j.items|)
    ensures j.JObj? ==> v.Obj? && v.id == Ref(e, p) && v.props.Keys == j.fields.Keys
  {
    match j
    case JNull => Null
    case JPrim(s) => Prim(s)
    case JArr(items) =>
      Arr(Ref(e, p), |items|, map k | k in Indices(|items|) :: FromJson(items[k.n], e, p + [k]))
    case JObj(fields) => Obj(Ref(e, p), map k | k in fields :: FromJson(fields[k], e, p + [k]))
  }

  /**
   * The store's deep copy, `JSON.parse(JSON.stringify(v))`, allocated in
   * epoch `e`: arrays become dense (holes read back as null) and lose their
   * named properties. `CopyIsJsonRoundTrip` shows it is that round trip.
   */
  function Copy(v: Value, e: nat, p: seq<Key>): (r: Value)
    ensures v.Obj? ==> r.Obj? && r.id == Ref(e, p)
  {
    match v
    case Null => Null
    case Prim(s) => Prim(s)
    case Arr(_, len, props) =>
      Arr(Ref(e, p), len, map k | k in Indices(len) :: if k in props then Copy(props[k], e, p + [k]) else Null)
    case Obj(_, props) => Obj(Ref(e, p), map k | k in props :: Copy(props[k], e, p + [k]))
  }

  /** The deep copy is exactly what parsing the serialised text builds. */
  lemma {:induction false} CopyIsJsonRoundTrip(v: Value, e: nat, p: seq<Key>)
    ensures Copy(v, e, p) == FromJson(ToJson(v), e, p)
  {
    match v
    case Null =>
    case Prim(_) =>
    case Arr(_, len, props) =>
      var c, f := Copy(v, e, p), FromJson(ToJson(v), e, p);
      forall k | k in Indices(len) ensures c.props[k] == f.props[k] {
        if k in props { CopyIsJsonRoundTrip(props[k], e, p + [k]); }
      }
    case Obj(_, props) =>
      var c, f := Copy(v, e, p), FromJson(ToJson(v), e, p);
      forall k | k in props ensures c.props[k] == f.props[k] {
        CopyIsJsonRoundTrip(props[k], e, p + [k]);
      }
  }

  /** Reading back what was parsed gives the same JSON tree. */
  lemma {:induction false} JsonRoundTrip(j: Json, e: nat, p: seq<Key>)
    ensures ToJson(FromJson(j, e, p)) == j
  {
    match j
    case JNull =>
    case JPrim(_) =>
    case JArr(items) =>
      var v := FromJson(j, e, p);
      forall i | 0 <= i < |items| ensures ToJson(v).items[i] == items[i] {
        assert Index(i) in v.props && v.props[Index(i)] == FromJson(items[i], e, p + [Index(i)]);
        JsonRoundTrip(items[i], e, p + [Index(i)]);
      }
    case JObj(fields) =>
      var v := FromJson(j, e, p);
      forall k | k in fields ensures ToJson(v).fields[k] == fields[k] {
        JsonRoundTrip(fields[k], e, p + [k]);
      }
  }

  /** A deep copy has the same JSON text as its original. */
  lemma CopyKeepsContent(v: Value, e: nat, p: seq<Key>)
    ensures ToJson(Copy(v, e, p)) == ToJson(v)
  {
    CopyIsJsonRoundTrip(v, e, p);
    JsonRoundTrip(ToJson(v), e, p);
  }

  /** A deep copy keeps the kind of its original; an object keeps its keys, an array its length and becomes dense. */
  lemma CopyShape(v: Value, e: nat, p: seq<Key>)
    ensures v.Null? <==> Copy(v, e, p).Null?
    ensures v.Prim? ==> Copy(v, e, p) == v
    ensures v.Obj? ==> Copy(v, e, p).Obj? && Copy(v, e, p).id == Ref(e, p) && Copy(v, e, p).props.Keys == v.props.Keys
    ensures v.Arr? ==> Copy(v, e, p).Arr? && Copy(v, e, p).id == Ref(e, p)
                       && Copy(v, e, p).len == v.len && Copy(v, e, p).props.Keys == Indices(v.len)
  {
    CopyIsJsonRoundTrip(v, e, p);
  }

  /** Every array and object inside `v` was allocated in epoch `e`. */
  predicate AllocatedIn(v: Value, e: nat) {
    match v
    case Arr(id, _, props) => id.epoch == e && forall k | k in props :: AllocatedIn(props[k], e)
    case Obj(id, props) => id.epoch == e && forall k | k in props :: AllocatedIn(props[k], e)
    case _ => true
  }

  /** Every array and object inside `v` was allocated before epoch `e`. */
  predicate AllocatedBefore(v: Value, e: nat) {
    match v
    case Arr(id, _, props) => id.epoch < e && forall k | k in props :: AllocatedBefore(props[k], e)
    case Obj(id, props) => id.epoch < e && forall k | k in props :: AllocatedBefore(props[k], e)
    case _ => true
  }

  /** No array or object inside `v` was allocated in epoch `e`. */
  predicate AvoidsEpoch(v: Value, e: nat) {
    match v
    case Arr(id, _, props) => id.epoch != e && forall k | k in props :: AvoidsEpoch(props[k], e)
    case Obj(id, props) => id.epoch != e && forall k | k in props :: AvoidsEpoch(props[k], e)
    case _ => true
  }

  /** Everything `JSON.parse` builds is new: it belongs to the epoch of the parse. */
  lemma {:induction false} FromJsonAllocatedIn(j: Json, e: nat, p: seq<Key>)
    ensures AllocatedIn(FromJson(j, e, p), e)
  {
    match j
    case JNull =>
    case JPrim(_) =>
    case JArr(items) =>
      var v := FromJson(j, e, p);
      forall k | k in v.props ensures AllocatedIn(v.props[k], e) {
        FromJsonAllocatedIn(items[k.n], e, p + [k]);
      }
    case JObj(fields) =>
      var v := FromJson(j, e, p);
      forall k | k in v.props ensures AllocatedIn(v.props[k], e) {
        FromJsonAllocatedIn(fields[k], e, p + [k]);
      }
  }

  /** A deep copy shares no array or object with anything allocated before it. */
  lemma CopyIsFresh(v: Value, e: nat, p: seq<Key>)
    ensures AllocatedIn(Copy(v, e, p), e)
  {
    CopyIsJsonRoundTrip(v, e, p);
    FromJsonAllocatedIn(ToJson(v), e, p);
  }

  /** A value allocated in one epoch is allocated before every later one. */
  lemma {:induction false} AllocatedInBefore(v: Value, e: nat, later: nat)
    requires AllocatedIn(v, e) && e < later
    ensures AllocatedBefore(v, later)
  {
    if v.IsContainer() {
      forall k | k in v.props ensures AllocatedBefore(v.props[k], later) {
        AllocatedInBefore(v.props[k], e, later);
      }
    }
  }

  /** Allocating more does not make an old value new. */
  lemma {:induction false} AllocatedBeforeLater(v: Value, e: nat, later: nat)
    requires AllocatedBefore(v, e) && e <= later
    ensures AllocatedBefore(v, later)
  {
    if v.IsContainer() {
      forall k | k in v.props ensures AllocatedBefore(v.props[k], later) {
        AllocatedBeforeLater(v.props[k], e, later);
      }
    }
  }

  /** A value allocated before `e` has nothing from epoch `e` or after. */
  lemma {:induction false} AllocatedBeforeAvoids(v: Value, e: nat, s: nat)
    requires AllocatedBefore(v, e) && e <= s
    ensures AvoidsEpoch(v, s)
  {
    if v.IsContainer() {
      forall k | k in v.props ensures AvoidsEpoch(v.props[k], s) {
        AllocatedBeforeAvoids(v.props[k], e, s);
      }
    }
  }

  /** A value allocated in one epoch avoids every other. */
  lemma {:induction false} AllocatedInAvoids(v: Value, e: nat, s: nat)
    requires AllocatedIn(v, e) && e != s
    ensures AvoidsEpoch(v, s)
  {
    if v.IsContainer() {
      forall k | k in v.props ensures AvoidsEpoch(v.props[k], s) {
        AllocatedInAvoids(v.props[k], e, s);
      }
    }
  }
}
