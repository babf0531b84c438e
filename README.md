# app-state: the `State` store, modelled in Dafny

`src/State.ts` of atrium-ui/app-state is a global state store for web
components. It holds one module-level dictionary from a *scope* id to a
*scope tree*, a plain object of JSON-like values. On top of it sit:

- `set`, `get`, `delete`, `deleteScope` and `scope`, which read and write
  scopes;
- a change notifier: `on(scope, callback)` registers a window listener for
  the event `state:update:<scope>`. Its handler diffs the scope tree against
  the last snapshot it took, then re-snapshots the tree. It calls back with
  the changes only when they have a key;
- three pure helpers on trees: `mergeState(A, B)` (A + B, recursive),
  `subtractState(A, B)` (the changes from A to B, with `null` marking a
  removed key) and `compareState(A, B)` (JSON text equality).

## How the model is built

- `values.dfy` (module `Values`) holds the JavaScript values a tree is made
  of:
  - null, primitives, sparse arrays with a length, and objects.
  - Every array and object carries a reference (`Ref`). The diff compares
    some values with `===` and `!==`, so identity matters.
  - `JSON.parse(JSON.stringify(v))` is the store's deep copy. It is `Copy`,
    which allocates new references in a fresh *epoch*.
  - `ToJson` is the text `JSON.stringify` produces, as a tree. `FromJson`
    parses it back.
- `merge.dfy`, `subtract.dfy` and `compare.dfy` hold the three tree
  operations. Each `itterateKeys` loop is a map comprehension over
  `allKeys`, with one function (`MergeAt`, `DeltaAt`) giving what the loop
  body writes for one key.
- `laws.dfy` states how `mergeState` and `subtractState` fit together.
- `store.dfy` (module `Store`) holds the store and its listeners:
  - `class Store` holds the scope dictionary, the window's listeners in
    registration order, a log of the callbacks made (`delivered`), the
    allocation counter and the next listener handle. Its members model
    these members of `State`: `Get` is `get`, `Set` is `set` (made of
    `AssignScope`, the `Object.assign` line, then `EmitChange`), `Delete`
    is `delete`, `DeleteScope` is `deleteScope`, `Scope` is `scope`,
    `EmitChange` is `emitChange` and `On` is `on`. `Remove` is the
    `remove()` closure that `on` returns, called through the listener's
    handle. The static `mergeState`, `subtractState` and `compareState`
    use no state of the store, so they are the functions `MergeState`,
    `SubtractState` and `CompareState` of their own modules.
  - Event dispatch is the loop in `Broadcast`. The store invariant,
    `Consistent`, says:
    - every scope tree and snapshot is an object allocated before the
      counter;
    - handles are distinct and below the next handle.
  - Every method keeps `Consistent`.

## Model

| member | source | states |
|---|---|---|
| Values.OwnKeys | src/State.ts:46 | `Object.keys` of an array or object is its own property keys; of a string, its character indices from 0 to the last; of a number or boolean, nothing |
| Values.IsStateObject | src/State.ts:41-48 | a value is a state object exactly when it is an array or object with at least one own enumerable property; strings, numbers, booleans, null, `{}` and an array of holes are not |
| Values.ToJson | src/State.ts:223 | `JSON.stringify` keeps the kind of every value, an array's length and an object's keys |
| Values.FromJson | src/State.ts:126 | `JSON.parse` builds dense arrays and objects with the keys of the text; the root gets the new reference of the parse |
| Values.FromJsonAllocatedIn | src/State.ts:126 | every array and object `JSON.parse` builds, at any depth, belongs to the parse's own allocation |
| Values.CopyIsJsonRoundTrip | src/State.ts:97 | the deep copy `Copy` is exactly `JSON.parse(JSON.stringify(v))` |
| Values.JsonRoundTrip | src/State.ts:126 | serialising what was parsed gives back the same JSON text |
| Values.CopyKeepsContent | src/State.ts:147 | a deep copy has the JSON text of its original |
| Values.CopyShape | src/State.ts:164 | a deep copy keeps primitives and null as they are; arrays and objects get new references; arrays become dense with the same length; objects keep their keys |
| Values.CopyIsFresh | src/State.ts:206 | every array and object in a deep copy belongs to the copy's own allocation |
| Values.Copy | src/State.ts:126 | the deep copy of an object is an object with a new reference, the root of the copy's allocation |
| Values.StrictEq | src/State.ts:192 | `===` compares null and primitives by value, and an array or object only to one with the same reference |
| Values.Truthy | src/State.ts:162 | in `objectA[key] \|\| objectB[key]`, an array or object is truthy and null is not |
| Merge.IndexBound | src/State.ts:157-164 | writing `local[key]` for index keys grows an array to one past the largest index written: every written index lies below the bound, and the bound's last index was written |
| Merge.Written | src/State.ts:151-167 | the loop writes only keys of A or B, and always writes a key both have |
| Merge.MergeState | src/State.ts:145-173 | the result has A's kind and a new reference; its keys are those of the copy of A plus those the loop writes |
| Merge.MergeAt | src/State.ts:152-166 | the loop always writes a key on both sides; a key only A has is written exactly when A's value is truthy; a key only B has exactly when B's value is not null |
| Merge.MergeValueAt | src/State.ts:151-167 | a key of the result holds what the loop wrote for it; otherwise it holds the copy of A's value |
| Merge.MergeBoth | src/State.ts:152-160 | a key on both sides recurses when both values are state objects; otherwise it holds B's value itself |
| Merge.MergeOnlyA | src/State.ts:161-166 | a key only A has keeps A's JSON text, for an object A and for an array's indices |
| Merge.MergeOnlyB | src/State.ts:161-166 | a key only B has is added with B's JSON text when not null; a null is dropped from an object |
| Merge.MergeArraysByIndex | src/State.ts:156-157 | two non-empty arrays merge index by index, so elements of A beyond B's survive |
| Merge.MergeEmptyRight | src/State.ts:145-173 | merging an empty B into an object A gives A's JSON text |
| Merge.MergeIntoEmpty | src/State.ts:147-166 | merging into `{}` gives B without its null-valued keys |
| Merge.MergeWellFormed | src/State.ts:145-173 | merging well-formed trees gives a well-formed tree: no array holds an index at or past its length |
| Merge.MergeAtWellFormed | src/State.ts:152-166 | what the loop writes for one key is well formed |
| Merge.CopyWellFormed | src/State.ts:147 | a deep copy is well formed |
| Subtract.SubtractState | src/State.ts:178-217 | the result is always a new plain object whose keys come from A or B |
| Subtract.Delta | src/State.ts:182-213 | the loop writes only keys of A or B |
| Subtract.DeltaAt | src/State.ts:187-210 | the loop writes null for a key only A has, and for a key only B has a value that is null exactly when B's is (`SubtractOneSided` gives its JSON text); it skips a key on both sides only when the two values are `===` |
| Subtract.SubtractAt | src/State.ts:186-211 | a key is in the result exactly when the loop writes it, and holds what was written |
| Subtract.SubtractOneSided | src/State.ts:202-210 | a key B no longer has becomes null; a key only B has carries B's JSON text |
| Subtract.SubtractCompared | src/State.ts:191-201 | for two arrays, or two values that are not both state objects, the key is present exactly when they are `!==`, and holds B's value |
| Subtract.SubtractRecurses | src/State.ts:195-196 | a key holding two state objects (not both arrays) is always present, with their own difference |
| Subtract.SubtractCopiesAreFresh | src/State.ts:204-206 | a value new in B is delivered as a new copy, sharing no reference with older values |
| Subtract.SubtractComplete | src/State.ts:186-201 | no change is missed: a key on both sides whose JSON text differs is in the result |
| Subtract.SubtractSelf | src/State.ts:186-201 | `subtractState(T, T)` holds exactly T's keys whose value is a non-empty object (not an array) |
| Subtract.SubtractSelfFlat | src/State.ts:186-201 | a tree without nested non-empty objects has no changes against itself |
| Subtract.SubtractSelfNested | src/State.ts:195-196 | `subtractState({a: {x: 1}}, same)` is `{a: {}}` |
| Subtract.SubtractCopy | src/State.ts:123-126 | against a deep-copied snapshot, the changes hold exactly the keys whose value is an array or object |
| Compare.CompareState | src/State.ts:222-224 | equal states have the same kind, the same keys and the same array lengths; null and primitives compare by value |
| Compare.CompareCopy | src/State.ts:222-224 | a deep copy compares equal to its original |
| Compare.CompareNullIsNotAbsent | src/State.ts:222-224 | a key holding null differs from a missing key |
| Compare.CompareHoleIsNull | src/State.ts:222-224 | an array hole compares equal to an explicit null |
| Compare.CompareIgnoresArrayNames | src/State.ts:222-224 | named properties of an array do not affect the comparison |
| Laws.MergeSubtractPrimitive | src/State.ts:152-166 | for a plain-object A, merging the changes from A to B back onto A restores every top-level key of B that holds a primitive; primitives inside a nested object that did not change are lost (`MergeSubtractSelfEmpties`) |
| Laws.MergeSubtractRemoved | src/State.ts:202-209 | a key B no longer has comes back from that merge holding null, not deleted |
| Laws.MergeSubtractEmptiesUnchanged | src/State.ts:195-196 | a nested object that did not change comes back from that merge as `{}` |
| Laws.MergeSubtractSelfEmpties | src/State.ts:156-159 | `mergeState(T, subtractState(T, T))` empties every nested object whose values are flat |
| Store.EventName | src/State.ts:122 | an event name is `state:update:` followed by the scope |
| Store.EventNameInjective | src/State.ts:112 | distinct scopes have distinct event names |
| Store.ScopeTree | src/State.ts:105 | `state[scope] \|\| {}` is the stored tree, or an empty object |
| Store.Run | src/State.ts:126 | a handler run keeps the listener's handle and event, and its new `lastState` has the tree's JSON text and is a new allocation |
| Store.Call | src/State.ts:125-130 | a handler run makes at most one callback, to its own listener, carrying `subtractState(lastState, tree)`, an object with a key; it makes none exactly when those changes have no key |
| Store.Dispatch | src/State.ts:111-114 | a dispatch leaves as many listeners as it found |
| Store.Calls | src/State.ts:111-114 | a dispatch makes at most one callback per listener of the scope |
| Store.Handle | src/State.ts:123-131 | one handler run: the new `lastState` is a deep copy of the tree; at most one callback, to this listener, with changes that are an object with a key |
| Store.Broadcast | src/State.ts:111-114 | dispatch runs every listener of the scope once, in registration order; it returns the listeners after the dispatch and the callbacks made |
| Store.DispatchSnapshots | src/State.ts:123-126 | after a dispatch, listeners keep their order, handles and events; listeners of other scopes are untouched; each listener of the scope holds an object with the scope's JSON text |
| Store.DispatchAllocates | src/State.ts:126 | every snapshot after a dispatch was allocated before the epoch the dispatch ends in |
| Store.DispatchSnapshotsAreCopies | src/State.ts:126 | the snapshot a dispatch leaves a listener of the scope shares no array or object with anything allocated before the dispatch, the live scope tree included |
| Store.DispatchCalls | src/State.ts:127-130 | a dispatch makes at most one callback per listener of the scope; each goes to such a listener and carries an object with a key |
| Store.DispatchUnsubscribed | src/State.ts:111-114 | a dispatch to a scope nobody listens to changes nothing and calls nobody |
| Store.DispatchConsistent | src/State.ts:111-114 | a dispatch keeps the store invariant |
| Store.Without | src/State.ts:136-138 | removing a handle's listener keeps every other listener and only those |
| Store.WithoutAppend | src/State.ts:136-138 | removing a handle from a list is removing it from each part, so the remaining listeners keep their registration order |
| Store.RemoveSilences | src/State.ts:136-138 | after `remove()`, no callback of a later dispatch goes to the removed handle |
| Store.RemoveTwice | src/State.ts:136-138 | `remove()` twice is the same as once |
| Store.WithoutDistinct | src/State.ts:136-138 | removing a listener keeps handles distinct |
| Store.AssignSource | src/State.ts:97 | `Object.assign` copies exactly the source's own keys (`Object.keys`), and nothing from null |
| Store.AssignKeepsOtherKeys | src/State.ts:97 | `set` overwrites only the keys of the new value: those carry the copy's value, every other key of the scope tree keeps its old value, and no other key appears |
| Store.AssignSourceOfCopy | src/State.ts:97 | `set` writes an object's keys, an array's indices (holes as null) or a string's characters, each with its JSON text; a number, boolean or null writes nothing |
| Store.Assign | src/State.ts:97 | the scope's new tree is an object, and the same object as before when the scope existed |
| Store.AssignConsistent | src/State.ts:97 | what `set` writes keeps the store invariant |
| Store.Store.constructor | src/State.ts:53 | the store starts with no scope, no listener and no callback |
| Store.Store.Get | src/State.ts:104-106 | `get` returns the stored tree, or an empty object for a missing scope |
| Store.Store.EmitChange | src/State.ts:111-114 | only the listeners, callbacks and allocation counter change, as the dispatch prescribes |
| Store.Store.AssignScope | src/State.ts:97 | the scope's tree becomes the assignment of a deep copy of the new state; listeners and callbacks are untouched |
| Store.Store.Set | src/State.ts:94-99 | the scope's tree becomes the assignment of a deep copy of the new state, then the scope is notified |
| Store.Store.Delete | src/State.ts:86-89 | one key leaves an existing scope, then the scope is notified; a missing scope throws and nothing changes |
| Store.Store.DeleteScope | src/State.ts:78-81 | the scope leaves the store, then the scope is notified |
| Store.Store.On | src/State.ts:119-140 | a listener with a new handle and an empty `lastState` is appended; nothing else changes |
| Store.Store.Remove | src/State.ts:136-138 | exactly the handle's listener leaves the list |
| Store.Store.Scope | src/State.ts:66-73 | one argument reads the scope and changes nothing; two arguments do exactly what `set` does: the new tree, the dispatch, the callbacks and the epochs |

## Behaviours kept

Behaviours of the code that are easy to mistake, which the model keeps:

- `isAnStateObject` is true of a non-empty array. `mergeState` therefore
  merges two non-empty arrays index by index (`MergeArraysByIndex`) and
  does not replace them wholesale.
- `mergeState({a: 1}, {})` keeps `a` (`MergeEmptyRight`).
- `mergeState({}, T)` drops T's null-valued keys (`MergeIntoEmpty`).
- `compareState` does not ignore null-valued keys (`CompareNullIsNotAbsent`).
- `subtractState(T, T)` is not empty when T has a nested non-empty object
  (`SubtractSelfNested`).
- A dispatch whose scope tree is unchanged since the last snapshot (a
  `delete` of a missing key, or `set(scope, {})`) still calls back with
  every key holding an array or object. The snapshot is a deep copy of that
  very tree, so those are never `===` to it (`SubtractCopy`, which covers
  exactly this case). After `set(scope, sameValue)` the tree's arrays and
  objects are new copies too, so they also differ from the snapshot by
  reference.
- `mergeState(A, subtractState(A, B))` is not B:
  - unchanged nested objects come back empty (`MergeSubtractEmptiesUnchanged`);
  - removed keys come back as null (`MergeSubtractRemoved`).

## Left out

What the store does that the model does not:

- Key order is not modelled: objects are maps. `compareState` compares JSON
  trees, so two objects with the same entries in a different insertion
  order compare equal here, but not in JavaScript.
- Numbers are reals. NaN, infinities and -0 are not modelled, nor are
  `undefined`, functions, symbols, `Date` or `toJSON`, which
  `JSON.stringify` treats specially. So `set(scope, undefined)`, which
  throws in `JSON.parse`, is not modelled.
- `JSON.stringify` throws a TypeError on a cyclic structure or a BigInt. In
  `set` that happens before the scope is assigned, so nothing changes and
  nobody is notified; the same throw can come out of `mergeState`,
  `subtractState` and the handler's snapshot. A `Value` is a finite tree
  and `Scalar` has no BigInt, so this error path is not modelled.
- Store.AssignSourceOfCopy: a Dafny `string` is a sequence of Unicode scalar
  values, while `Object.assign` on a string writes one key per UTF-16 code
  unit. A character outside the Basic Multilingual Plane is written as one
  key here but as two surrogate halves in JavaScript, and a lone surrogate
  cannot be represented at all.
- Values.OwnKeys: for the same reason a string's keys are one index per
  Unicode scalar value, where `Object.keys` of a one-character string holding U+1F600 is `["0", "1"]`.
- Store.AssignSource: likewise writes one key per Unicode scalar value of a
  string, not one per UTF-16 code unit.
- Merge.MergeState, Subtract.SubtractState: both require two arrays or
  objects, the `StateObject` type the source declares. Called in
  JavaScript with other values they throw (`Object.keys(null)` at
  src/State.ts:149 and :184, `key in 5` at :152 and :187 when the other
  side has a key) or pass the value through (`mergeState(5, {})` returns
  5). Those paths are not modelled.
- Values.Key: `Name(s)` and `Index(n)` are meant to be disjoint, a name that
  spells a canonical array index ("0", "1", ...) being written `Index(n)`.
  The model does not enforce this, so `Name("0")` next to `Index(0)` would be
  two keys where JavaScript has one.
- The prototype chain is not modelled. `key in object` also sees inherited
  names such as `constructor` and an array's `length`, and `__proto__` is
  special. The model treats such keys like any other.
- The window and its event system are reduced to the listener list and a
  synchronous loop. The reentrancy of a callback that calls the store
  during a dispatch is not modelled. A callback that throws is not
  modelled either. A callback is recorded as a `Delivery` and has no
  effect on the store.
- `window.State = State` (the development global) and the `currentState`
  getter are not modelled. The store's `state` field plays the getter's
  part.
- Store.Store.Get: a missing scope's `{}` is given the current allocation
  epoch without advancing the counter. The model does not capture that a
  caller may mutate the live tree that `get` returns.
- Merge.MergeState: it is a ghost function. Growing an array result to
  hold every written index picks an element of a set of keys, which is
  not compiled.
- Store.Store.Remove: `remove()` is modelled by the listener's handle,
  not as a closure returned by `On`.
