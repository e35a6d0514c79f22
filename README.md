# recombobulator, modelled in Dafny

recombobulator diffs and patches JSON documents in which some arrays are
unordered collections identified by a key field. Its `JSONPatchRecombobulator`
class is built with `orderIndependentCollections`, a map from dotted paths
to `{ key, isDate }`, and offers five operations:

- `flatten` turns every configured array into an object named by each
  element's key, and writes each Date property value as its ISO string; a
  Date that is an array element or the whole document is kept as a Date.
- `unflatten` turns those objects back into arrays.
- `remodelDates` turns the strings at `isDate` paths back into Dates.
- `compare` diffs two flattened documents with fast-json-patch.
- `apply` diffs the user's old and new versions, drops the operations whose
  path matches `ignore`, patches the flattened stored (`db`) document and
  unflattens the result.

The model has two layers. The value layer is made of pure recursive functions
over a `Json` datatype: `Flattened`, `Unflattened`, `Remodeled`, `Compared`
and `Applied`, and the lemmas are stated about them. The class layer is
`Recombobulator.JsonPatchRecombobulator`. Its methods walk the document the
way the source does: a `reduce` into a memo, a `map`, a `forEach` that
rewrites properties in place, a `for..in`, and `push` into a local array.
Each method is proved equal to its function, so every lemma about the
functions also holds for the methods.

Modules, one per file:

- `JsonModel` (json.dfy): documents, objects as lists of properties in
  iteration order, the configuration, paths, JavaScript truthiness and the
  `${v}` coercion.
- `Canonical` (flatten.dfy): flatten.
- `Decanonical` (unflatten.dfy): unflatten.
- `RoundTrip` (roundtrip.dfy): unflatten undoes flatten.
- `Remodel` (remodel.dfy): remodelDates.
- `Pipeline` (pipeline.dfy): compare, the ignore filter and apply.
- `Recombobulator` (recombobulator.dfy): the class.
- `Scenarios` (scenarios.dfy): documents from the library's tests.

The source throws in two places, and the model returns these as `Err`
results:

- `NullPropertyRead`: flatten reads the key field of a null element of a
  keyed collection.
- `NullKeys`: unflatten calls `Object.keys` on null at a keyed path.

A patch the patch library rejects becomes `Err` as well.

Three kinds of outside behaviour are parameters of the model:

- The date library (`DateLib`): `moment(d).toISOString()`, `String(d)`,
  `Date.parse` and `moment(v).toDate()`.
- The patch library (`PatchLib`): `jsonPatch.compare` and `jsonPatch.apply`.
- The `ignore` regular expression: a predicate on paths.

## Model

| member | source | states |
|---|---|---|
| Recombobulator.JsonPatchRecombobulator.constructor | lib/index.js:22-24 | the instance keeps the options it was given |
| Recombobulator.JsonPatchRecombobulator.Flatten | lib/index.js:83-121 | flatten's walk returns exactly `Flattened` of the document at that location, including its error |
| Recombobulator.JsonPatchRecombobulator.FlattenKeyed | lib/index.js:94-101 | the `reduce` over a keyed collection builds the memo `KeyedMemo`, or throws at the first null element |
| Recombobulator.JsonPatchRecombobulator.FlattenEach | lib/index.js:104-109 | the `map` over an unkeyed array flattens each element at the array's own location |
| Recombobulator.JsonPatchRecombobulator.FlattenProps | lib/index.js:113-117 | the `forEach` rewrites each property in place: a Date becomes its ISO string, and anything else is flattened at `loc.k` |
| Recombobulator.JsonPatchRecombobulator.Unflatten | lib/index.js:190-250 | unflatten returns exactly `Unflattened` of the document below `parent` |
| Recombobulator.JsonPatchRecombobulator.UnflattenIndices | lib/index.js:223-246 | the `for..in` over an array visits the indices "0", "1", … and rewrites each element in place |
| Recombobulator.JsonPatchRecombobulator.UnflattenProps | lib/index.js:223-246 | the `for..in` over an object rewrites each property value in place at `parent.property` |
| Recombobulator.JsonPatchRecombobulator.UnflattenProperty | lib/index.js:225-245 | one property: at a keyed path it goes through `unflattenProp`; an array goes through `unflattenEach`; an object, null or Date is unflattened; anything else is kept |
| Recombobulator.JsonPatchRecombobulator.UnflattenProp | lib/index.js:197-210 | `push` of `unflatten(prop[key], path)` for each key of `Object.keys(prop)`: an object gives its values, an array its elements, a string its characters, null throws, and any other value gives [] |
| Recombobulator.JsonPatchRecombobulator.UnflattenEach | lib/index.js:212-221 | `forEach` unflattens every element at the array's own path, in place |
| Recombobulator.JsonPatchRecombobulator.RemodelDates | lib/index.js:134-163 | the walk returns `Remodeled`: arrays are mapped at their own path, properties at `loc.k`, and a parsable scalar at an `isDate` path becomes a Date |
| Recombobulator.JsonPatchRecombobulator.Compare | lib/index.js:37-48 | diffs flatten(old) against flatten(new) at the root; a throwing flatten is passed on |
| Recombobulator.JsonPatchRecombobulator.Apply | lib/index.js:267-294 | `options.db` (or `userOld` when it is falsy) is flattened, patched with the filtered diff of the user's versions, and unflattened; each stage's failure is passed on |
| JsonModel.Truthy | lib/index.js:271 | the truthiness `||` tests: null, false, 0 and "" are falsy and everything else, an empty object or list included, is truthy |
| JsonModel.Member | lib/index.js:95 | `item[field]` for an own property: an object's named property, an array's or a string's `length`, and the element (for a string, the character) at a numeral index below the length; nothing for other values |
| JsonModel.MemberAtIndex | lib/index.js:95 | the numeral of i reads element i of an array or a string when i is below its length, and nothing otherwise |
| JsonModel.IndexOfDecimal | lib/index.js:95 | a property name denotes the array index i exactly when it is the decimal numeral of i, so "07" and "" denote none |
| JsonModel.Put | lib/index.js:96 | `memo[key] = v`: an existing name keeps its place and takes the new value, and a new name is appended |
| JsonModel.PutEach | lib/index.js:94-101 | the memo after `memo[key] = v` for each element in turn, starting from `{}` |
| JsonModel.Coerce | lib/index.js:95 | the template-literal coercion `${v}`: "null", "true"/"false", the decimal numeral, the string itself, `String(d)` for a Date, the comma-joined elements for an array and "[object Object]" for an object |
| JsonModel.Join | lib/index.js:95 | `Array.prototype.join(',')` under `${v}`, with a null element written as nothing |
| JsonModel.IntToDecimal | lib/index.js:95 | how `${n}` writes an integer: its decimal numeral, with "-" for a negative one |
| JsonModel.Extend | lib/index.js:225 | the child path `parent ? parent + '.' + name : name`, also formed at line 116 and line 151, so an empty or missing parent gives the bare name |
| JsonModel.LookupName | lib/index.js:90 | the name `orderIndependentCollections[currentLocation]` reads: "undefined" at the root |
| JsonModel.KeyField | lib/index.js:90-92 | the collection key configured for a location, or none when the entry or its `key` is missing or empty; a key is only found under a configured name |
| JsonModel.IsDatePath | lib/index.js:153 | a location whose configuration entry has a truthy `isDate` |
| Canonical.KeyName | lib/index.js:95 | the name an element is filed under: the ISO string of a Date key value, `${v}` of any other, and "undefined" when the element has no own property `field` |
| Canonical.KeyOf | lib/index.js:95 | reading the key field of a null element throws `NullPropertyRead`, and any other element gives its key name |
| Canonical.Flattened | lib/index.js:83-121 | flatten: a keyed array becomes its memo, any other array is mapped at its own location, an object has its properties flattened below their names, and every other value is returned as it is |
| Canonical.KeyedMemo | lib/index.js:94-101 | the `reduce` accumulator after the first n elements: key read, element flattened, then assigned; it throws at the first element that throws |
| Canonical.FlattenedElements | lib/index.js:104-109 | the `map` over an unkeyed array, each element flattened at the array's location |
| Canonical.FlattenedProps | lib/index.js:113-117 | the `forEach` over `Object.keys(obj)`, each value flattened at `loc.k` |
| Canonical.FlattenedProperty | lib/index.js:115-116 | one property value: a Date is replaced by its ISO string, anything else is flattened |
| Decanonical.Unflattened | lib/index.js:190-250 | unflatten: a list or an object has each of its `for..in` properties unflattened below `parent`, and every other value is returned as it is |
| Decanonical.IndexNames | lib/index.js:223 | the property names `for..in` gives a list: "0", "1", … in order |
| Decanonical.UnflattenedIndices | lib/index.js:223-246 | the `for..in` over a list, element i rewritten as property "i" |
| Decanonical.UnflattenedProps | lib/index.js:223-246 | the `for..in` over an object, each value rewritten at `parent.property` |
| Decanonical.UnflattenedProperty | lib/index.js:225-245 | one property: at a keyed path it is collected, a list has each element unflattened at the path, and anything else is unflattened below the path, scalars coming back as they are |
| Decanonical.Collected | lib/index.js:197-210 | `unflattenProp`: `Object.keys(prop)` mapped to the unflattened values; an object gives its values, a list its elements, a string its characters, null throws `NullKeys`, and any other value gives [] |
| Decanonical.CollectedValues | lib/index.js:201-207 | the `push` of each unflattened value in key order |
| Decanonical.UnflattenedEach | lib/index.js:212-221 | `unflattenEach`: every element unflattened at the list's own path |
| Remodel.ParsesAsDate | lib/index.js:155 | `Date.parse(v)` is truthy: it gives a time value other than NaN and 0 |
| Remodel.Remodeled | lib/index.js:134-163 | remodelDates: a list is mapped at its own path, an object's properties at `loc.k`, and a value at an `isDate` path that parses becomes `moment(v).toDate()` |
| Pipeline.Compared | lib/index.js:37-48 | compare: flatten old, then new, at the root, and diff the two; a throwing flatten is passed on |
| Pipeline.Filtered | lib/index.js:279-283 | the filter applies only when `ignore` is given |
| Pipeline.StoredOrOld | lib/index.js:271 | `options.db || userOld` |
| Pipeline.Applied | lib/index.js:267-294 | apply: diff the user's versions, filter, flatten `db || userOld`, patch, unflatten, each failure passed on in that order |
| JsonModel.Get | lib/index.js:95 | `obj[name]` finds a value exactly when the name is an own property, and the value found belongs to that name |
| JsonModel.GetDistinct | lib/index.js:95 | in an object with distinct names, each property is read back by its own name |
| JsonModel.PutNames | lib/index.js:96 | `memo[key] = v` adds the key to the memo's names and nothing else |
| JsonModel.PutGet | lib/index.js:96 | after `memo[key] = v`, reading `key` gives v and every other name reads as before |
| JsonModel.PutDistinct | lib/index.js:96 | assignment never duplicates a property name |
| JsonModel.PutEachNames | lib/index.js:94-101 | the memo after n steps has exactly the first n keys as names |
| JsonModel.PutEachLast | lib/index.js:94-101 | the memo holds, under each key, the value of the last element with that key |
| JsonModel.PutEachInOrder | lib/index.js:94-101 | with distinct keys, the memo lists the elements' keys and values in array order |
| JsonModel.SameEntriesSameMap | lib/index.js:94-101 | two objects with distinct names and the same entries are the same mapping whatever their order |
| Canonical.KeyNameCases | lib/index.js:95 | the key of an element is `${item[key]}`: "undefined" when the field is missing, the ISO string for a Date, the string itself, or the numeral of an integer |
| Canonical.KeyNameOfListOrString | lib/index.js:95 | an array or string element is filed under its `length`, or under its element (a character for a string, an ISO string for a Date) at a numeral index, and under "undefined" otherwise; a boolean, number or Date element is filed under "undefined" |
| Canonical.FlattenScalar | lib/index.js:88-120 | scalars, null and Dates outside an object come back unchanged |
| Canonical.KeyedMemoOk | lib/index.js:94-101 | the `reduce` succeeds exactly when no element is null and every element flattens |
| Canonical.KeyedMemoIsPutEach | lib/index.js:94-101 | the memo is the result of assigning each element's flattened value under its key, in order |
| Canonical.FlattenKeyedCollection | lib/index.js:90-101 | a keyed collection flattens, if and only if every element is non-null and flattens, to an object with distinct names. Its names are exactly the elements' keys, each key maps to the last element with that key, and with distinct keys the properties follow the array order (insertion order; see the property-order line under Left out) |
| Canonical.FlattenKeyedDistinct | lib/index.js:90-101 | with distinct keys, the flattened collection has one property per element, in insertion order (see the property-order line under Left out), keyed by `${item[key]}` |
| Canonical.FlattenKeyedPermutation | lib/index.js:90-101 | two orderings of a keyed collection with distinct keys flatten to the same mapping |
| Canonical.KeyedEntriesIncluded | lib/index.js:90-101 | every entry of a flattened collection is in the flattening of any superset with distinct keys |
| Canonical.FlattenUnkeyedArray | lib/index.js:103-110 | an unkeyed array flattens, if and only if every element flattens, to an array of the same length holding each element flattened at the array's path |
| Canonical.FlattenObject | lib/index.js:112-117 | an object flattens, if and only if every property flattens, to an object with the same names in the same order; a Date property becomes its ISO string |
| Canonical.FlattenDatePropertyAsIso | lib/index.js:115 | flattening a Date property is the same as flattening its ISO string |
| Canonical.FlattenSucceedsIff | lib/index.js:94-96 | flatten throws exactly when some keyed collection in the document holds a null element |
| Canonical.FlattenKeepsWellFormed | lib/index.js:83-121 | flatten never produces an object with a repeated name |
| Canonical.LastOccurrence | lib/index.js:96 | every key has a last element carrying it |
| Decanonical.UnflattenKeyedProperty | lib/index.js:197-210 | at a keyed path, an object unflattens, if and only if each value does, to an array of its values in iteration order; null throws `NullKeys` |
| Decanonical.UnflattenKeyedList | lib/index.js:201-207 | at a keyed path, an array becomes the array of its unflattened elements |
| Decanonical.UnflattenUnkeyedArray | lib/index.js:212-221 | at an unkeyed path, an array keeps its length and each element is unflattened at the array's own path |
| Decanonical.UnflattenArray | lib/index.js:223-246 | an array being unflattened has each element rewritten at `parent.i`, where i is the element's index as a numeral |
| Decanonical.UnflattenObject | lib/index.js:223-246 | an object keeps its names in order and each value is replaced by its unflattened property |
| Decanonical.UnflattenScalar | lib/index.js:232-245 | scalars, null and Dates come back unchanged, and a date string is never turned back into a Date |
| Decanonical.UnflattenSucceedsIff | lib/index.js:201 | unflatten throws exactly when some keyed path holds null |
| Decanonical.UnflattenKeepsWellFormed | lib/index.js:190-250 | unflatten never produces an object with a repeated name |
| RoundTrip.UnflattenFlatten | lib/index.js:83-250 | unflatten(flatten(d)) == d for documents with no Dates, no list directly inside a list or at the root, and at every keyed path a list of objects with distinct keys; the exact order it restores rests on insertion-ordered objects (see the property-order line under Left out) |
| RoundTrip.PropertyRoundTrip | lib/index.js:225-245 | one property flattened at its path (lines 113-116) comes back from unflatten at the same path |
| Remodel.RemodelLeaf | lib/index.js:153-160 | a leaf changes if and only if it is a non-Date at an `isDate` path whose `Date.parse` is truthy, and it then becomes `moment(v).toDate()` |
| Remodel.RemodelKeepsShape | lib/index.js:140-152 | remodelling keeps every array's length and every object's names in order |
| Remodel.RemodelIdempotent | lib/index.js:134-163 | remodelling twice is the same as remodelling once |
| Remodel.RemodelIdentity | lib/index.js:134-163 | a document with no scalar at an `isDate` path comes back unchanged |
| Remodel.NoDatePathsNoReach | lib/index.js:153 | with no path configured `isDate`, no scalar is at such a path |
| Remodel.RemodelKeepsWellFormed | lib/index.js:147-152 | remodelling never produces an object with a repeated name |
| Pipeline.Kept | lib/index.js:279-283 | the filter keeps exactly the operations whose path does not match, and never adds one |
| Pipeline.KeptConcat | lib/index.js:280-282 | the filter keeps the surviving operations in their original order |
| Pipeline.KeptExtremes | lib/index.js:280-282 | when no path matches, the filter keeps everything; when every path matches, it keeps nothing |
| Pipeline.KeptIdempotent | lib/index.js:280-282 | filtering twice is the same as filtering once |
| Pipeline.AllIgnored | lib/index.js:279-283 | when every operation is ignored, nothing is applied |
| Pipeline.ApplyDefaultsToUserOld | lib/index.js:271 | a missing or falsy `db` is the same as passing `userOld` |
| Pipeline.ReorderedKeepsKind | lib/index.js:88-118 | documents that differ only in collection order have the same kind at the top: both null, both lists or both objects |
| Pipeline.FlattenReordered | lib/index.js:88-118 | documents that differ only in the order of their keyed collections, with distinct keys, flatten to equivalent trees, that is, equal up to object property order |
| Pipeline.ReorderedKeepsWellFormed | lib/index.js:37-48 | a reordering of a document whose objects name each property once is such a document too, so the diff hypothesis below ranges over real objects only |
| Pipeline.CompareReordered | lib/index.js:37-48 | compare gives no operations for two such orderings, for a diff that gives none on equivalent trees whose objects name each property once |
| Pipeline.ApplyWithNothingToDo | lib/index.js:267-294 | with nothing left to apply, apply returns the stored document as it was, for a restorable stored document (as in RoundTrip.UnflattenFlatten: otherwise, say, a Date property comes back as its ISO string) |
| Pipeline.ApplyYieldsUserNew | lib/index.js:267-294 | with `db` omitted or equal to `userOld`, and nothing ignored, apply returns `userNew` for a restorable `userNew` (as in RoundTrip.UnflattenFlatten) and a patch that takes flatten(old) to flatten(new) |
| Pipeline.ApplyReordered | lib/index.js:267-294 | a change that only reorders keyed collections leaves the stored document unchanged, for a restorable stored document (as in RoundTrip.UnflattenFlatten) |
| Pipeline.ApplyKeepsUntouched | lib/index.js:267-294 | a stored root property that no operation of the filtered diff reaches (for instance one neither user document carries) comes back from a successful apply as it was stored, for a restorable property (as in RoundTrip.RestorableProperty) and a patch library that keeps untouched properties |
| Scenarios.FlattenNested | test/flatten.js:46-85 | a keyed collection inside a keyed collection flattens to the object the test expects, with the number 9 named "9" |
| Scenarios.FlattenDateKey | test/flatten.js:88-119 | a collection keyed on a Date is named by the Date's ISO string, and the Date property becomes that string |
| Scenarios.UnflattenNested | test/flatten.js:46-85 | the flattened test document unflattens back to the original one |
| Scenarios.FlattenPairs | lib/index.js:94-101 | with `{ pairs: { key: '0' } }`, the list `[['a'], ['b']]` is filed under its elements' first items: `{ a: { a: 'a' }, b: { b: 'b' } }` |
| Scenarios.RootListNotRestored | lib/index.js:223-225 | a list at the root is not restored: flatten (lines 104-107) looks up its elements' collections below the root, and unflatten looks them up below "0" |

## Left out

- Property order: an object is its list of own properties in insertion
  order. JavaScript lists integer-like names first, in numeric order; the
  model does not, so a memo whose keys are "10" and then "9" unflattens in
  that insertion order rather than as "9", "10". The order conclusions of
  Canonical.FlattenKeyedCollection, Canonical.FlattenKeyedDistinct and
  RoundTrip.UnflattenFlatten are about this insertion order. The entries
  are always the same in both; only their order can differ, and only when
  some keys are integer-like. Order-blind results such as
  Canonical.FlattenKeyedPermutation are unaffected.
- Prototype details: `__proto__`, inherited enumerable properties, and
  `for..in` over strings and typed arrays. The model's documents hold only
  objects, arrays and scalars.
- Canonical.KeyName: reads own properties only. A key field naming an
  inherited member (`toString`, `constructor`, a Date's methods) reads the
  member's function text in the source and "undefined" in the model.
- `ArrayBuffer.isView` (lib/index.js:238): the model has no typed arrays.
- Numbers are integers. Fractions, exponent notation, NaN and infinities are
  not modelled, and `${n}` is the decimal numeral.
- Strings are sequences of characters, not UTF-16 code units, so the
  `length` and indices of a string element (Canonical.KeyName) count
  characters.
- `hoek.clone` is the identity: the model works on values, so the source's
  copies before in-place updates are not observable.
- Aliasing is not modelled. The source's in-place rewrites are modelled as
  rewriting a local copy of the property list or element list, and that copy
  is then returned.
- The diagnostic `console.log` for an unparsable date (lib/index.js:158) is
  left out; the value is kept, as in the source.
- Invalid Dates are not modelled: a Date is an integer instant and
  `isoString` always gives a string, whereas moment's `toISOString()` of an
  invalid Date gives null (or throws, in older versions), so a property
  holding `new Date("x")` flattens to null in the source, and an element
  keyed on such a Date is filed under the name "null". The other date
  primitives (moment's parsing and `Date.parse`) are parameters, so formats
  are whatever the parameters say.
- The patch library is a parameter. The lemmas about compare and apply rely on
  only what they state of it: no operations on equivalent trees, the empty
  patch is the identity, or a patch that takes one tree to another. The source
  ignores `jsonPatch.apply`'s return value and keeps the object it patched in
  place (lib/index.js:289). The model's `patch` returns that patched object
  directly, so a patch that replaces the root is not modelled.
- The JSON Pointer paths of operations are produced by the patch library.
  The model writes a root property's pointer (`~0`, `~1` escaping, section 3
  of RFC 6901) only to state the hypothesis of
  Pipeline.ApplyKeepsUntouched: that the patch keeps a root property no
  operation's path reaches.
- `ignore` is a predicate on paths. A regular expression is always truthy. A
  falsy `ignore` such as `""`, which the source treats as "no filter", is
  modelled as `None`.
- RoundTrip.UnflattenFlatten: holds only for the restorable documents named
  above. A Date property comes back as its ISO string; Dates elsewhere,
  which flatten keeps, are excluded as well. Every keyed path must hold a
  list of objects: anything else there is not restored, since null throws
  `NullKeys`, a string comes back as its characters, a number as [] and an
  object as the list of its values. A list directly inside a list, or at the
  root, has its elements' paths formed differently by the two walks (see
  Scenarios.RootListNotRestored). A keyed collection with repeated keys loses
  elements.
- Pipeline.FlattenReordered: holds only for keyed collections with distinct
  keys and no null element. With repeated keys, the last element wins, so
  order matters.
- Recombobulator.JsonPatchRecombobulator.FlattenProps: a Date property's ISO
  string is stored without flattening it again. The source flattens the
  string, which leaves it unchanged.
