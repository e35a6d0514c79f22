/**
 * `compare` and `apply`: JSON Patch (RFC 6902) diffs computed between
 * flattened documents, so that reordering a keyed collection is not a
 * change, and patches applied to a flattened copy of the stored document.
 * The patch library is a parameter: its diff and its patch are functions
 * the model does not look inside.
 */
module Pipeline {
  import opened JsonModel
  import opened Canonical
  import opened Decanonical
  import opened RoundTrip

  /** The operation kinds the diff emits (sections 4.1-4.3 of RFC 6902). */
  datatype OpKind = Add | Remove | Replace

  /** One JSON Patch operation; `path` is a JSON Pointer into the flattened document. */
  datatype Operation = Operation(op: OpKind, path: string, value: Json)

  /** `jsonPatch.compare(a, b)` and `jsonPatch.apply(doc, ops)` (the patched document, or the error it throws). */
  datatype PatchLib = PatchLib(
    diff: (Json, Json) -> seq<Operation>,
    patch: (Json, seq<Operation>) -> Result<Json>)

  /** `compare`: the diff between flatten(oldObj) and flatten(newObj), old flattened first. */
  function Compared(cfg: Config, lib: DateLib, plib: PatchLib, oldObj: Json, newObj: Json): Result<seq<Operation>> {
    var a :- Flattened(cfg, lib, oldObj, None);
    var b :- Flattened(cfg, lib, newObj, None);
    Ok(plib.diff(a, b))
  }

  /** `userDiff.filter(patch => !patch.path.match(ignore))`. */
  function Kept(ops: seq<Operation>, matches: string -> bool): (r: seq<Operation>)
    ensures |r| <= |ops|
    ensures forall op :: op in r <==> op in ops && !matches(op.path)
  {
    if ops == [] then []
    else if matches(ops[|ops| - 1].path) then Kept(ops[..|ops| - 1], matches)
    else Kept(ops[..|ops| - 1], matches) + [ops[|ops| - 1]]
  }

  /** The operations that survive `ignore` (a falsy `ignore` filters nothing). */
  function Filtered(ops: seq<Operation>, ignore: Option<string -> bool>): seq<Operation> {
    if ignore.Some? then Kept(ops, ignore.value) else ops
  }

  /** `options.db || userOld`. */
  function StoredOrOld(db: Option<Json>, userOld: Json): Json {
    if db.Some? && Truthy(db.value) then db.value else userOld
  }

  /**
   * `apply`: diff the user's two versions, drop the ignored operations,
   * patch a flattened copy of the stored document and unflatten it. The
   * clones the source takes are the identity on values, so the caller's
   * documents are never changed.
   */
  function Applied(cfg: Config, lib: DateLib, plib: PatchLib, userOld: Json, userNew: Json,
                   db: Option<Json>, ignore: Option<string -> bool>): Result<Json>
  {
    var base := StoredOrOld(db, userOld);
    var userDiff :- Compared(cfg, lib, plib, userOld, userNew);
    var ops := Filtered(userDiff, ignore);
    var flatDb :- Flattened(cfg, lib, base, None);
    var patched :- plib.patch(flatDb, ops);
    Unflattened(cfg, patched, None)
  }

  /** `apply` throws what `compare` throws. */
  lemma AppliedDiffFails(cfg: Config, lib: DateLib, plib: PatchLib, userOld: Json, userNew: Json,
                         db: Option<Json>, ignore: Option<string -> bool>)
    requires Compared(cfg, lib, plib, userOld, userNew).Err?
    ensures Applied(cfg, lib, plib, userOld, userNew, db, ignore) ==
            Err(Compared(cfg, lib, plib, userOld, userNew).error)
  {
  }

  /** Once the diff is made, `apply` throws what flattening the stored document throws. */
  lemma AppliedStoreFails(cfg: Config, lib: DateLib, plib: PatchLib, userOld: Json, userNew: Json,
                          db: Option<Json>, ignore: Option<string -> bool>)
    requires Compared(cfg, lib, plib, userOld, userNew).Ok?
    requires Flattened(cfg, lib, StoredOrOld(db, userOld), None).Err?
    ensures Applied(cfg, lib, plib, userOld, userNew, db, ignore) ==
            Err(Flattened(cfg, lib, StoredOrOld(db, userOld), None).error)
  {
  }

  /** Otherwise `apply` throws what the patch throws, or returns its result unflattened. */
  lemma AppliedPatched(cfg: Config, lib: DateLib, plib: PatchLib, userOld: Json, userNew: Json,
                       db: Option<Json>, ignore: Option<string -> bool>, ops: seq<Operation>, flatDb: Json)
    requires Compared(cfg, lib, plib, userOld, userNew).Ok?
    requires ops == Filtered(Compared(cfg, lib, plib, userOld, userNew).value, ignore)
    requires Flattened(cfg, lib, StoredOrOld(db, userOld), None) == Ok(flatDb)
    ensures var patched := plib.patch(flatDb, ops);
            Applied(cfg, lib, plib, userOld, userNew, db, ignore) ==
            if patched.Err? then Err(patched.error) else Unflattened(cfg, patched.value, None)
  {
  }

  // ------------------------------------------------- what a patch leaves alone

  /** A property name as a JSON Pointer reference token: `~` becomes `~0` and `/` becomes `~1` (section 3 of RFC 6901). */
  function PointerToken(name: string): string {
    if name == [] then []
    else (if name[0] == '~' then "~0" else if name[0] == '/' then "~1" else [name[0]]) + PointerToken(name[1..])
  }

  /** The operation's path is the root property `name` or lies below it. */
  predicate Touches(op: Operation, name: string) {
    var p := "/" + PointerToken(name);
    op.path == p || p + "/" <= op.path
  }

  predicate Untouched(ops: seq<Operation>, name: string) {
    forall i :: 0 <= i < |ops| ==> !Touches(ops[i], name)
  }

  /**
   * A patch library that keeps a root property no operation touches:
   * patching an object that names each property once yields such an object,
   * holding the same value under that name.
   */
  ghost predicate KeepsUntouched(plib: PatchLib, name: string) {
    forall x: Json, ops: seq<Operation> ::
      x.JObj? && DistinctNames(x.props) && Untouched(ops, name) && plib.patch(x, ops).Ok? ==>
        && plib.patch(x, ops).value.JObj?
        && DistinctNames(plib.patch(x, ops).value.props)
        && Get(plib.patch(x, ops).value.props, name) == Get(x.props, name)
  }

  /** An object's property under `name`, after unflatten. */
  lemma UnflattenedGet(cfg: Config, props: seq<(string, Json)>, name: string, val: Json)
    requires DistinctNames(props)
    requires Get(props, name) == Some(val)
    requires Unflattened(cfg, JObj(props), None).Ok?
    ensures var r := Unflattened(cfg, JObj(props), None).value;
            && r.JObj?
            && UnflattenedProperty(cfg, val, name).Ok?
            && Get(r.props, name) == Some(UnflattenedProperty(cfg, val, name).value)
  {
    UnflattenObject(cfg, props, None);
    var r := Unflattened(cfg, JObj(props), None).value;
    var j :| 0 <= j < |props| && props[j] == (name, val);
    assert DistinctNames(r.props) by {
      forall a, b | 0 <= a < b < |r.props| ensures r.props[a].0 != r.props[b].0 { assert props[a].0 != props[b].0; }
    }
    assert r.props[j] == (name, UnflattenedProperty(cfg, val, name).value);
    GetDistinct(r.props, j);
  }

  /** An object's property under its name, after flatten. */
  lemma FlattenedGet(cfg: Config, lib: DateLib, props: seq<(string, Json)>, i: nat)
    requires DistinctNames(props) && i < |props|
    requires Flattened(cfg, lib, JObj(props), None).Ok?
    ensures var r := Flattened(cfg, lib, JObj(props), None).value;
            && r.JObj?
            && DistinctNames(r.props)
            && FlattenedProperty(cfg, lib, props[i].1, props[i].0).Ok?
            && Get(r.props, props[i].0) == Some(FlattenedProperty(cfg, lib, props[i].1, props[i].0).value)
  {
    FlattenObject(cfg, lib, props, None);
    var r := Flattened(cfg, lib, JObj(props), None).value;
    assert DistinctNames(r.props) by {
      forall a, b | 0 <= a < b < |r.props| ensures r.props[a].0 != r.props[b].0 { assert props[a].0 != props[b].0; }
    }
    GetDistinct(r.props, i);
  }

  /**
   * A stored field the user's change does not reach is kept: when no
   * operation of the filtered diff lies at or below root property i of the
   * stored document (for instance a field neither of the user's documents
   * carries), a successful `apply` returns that property as it was stored,
   * for a patch library that keeps untouched properties.
   */
  lemma ApplyKeepsUntouched(cfg: Config, lib: DateLib, plib: PatchLib, userOld: Json, userNew: Json,
                            db: Option<Json>, ignore: Option<string -> bool>, i: nat)
    requires var base := StoredOrOld(db, userOld);
             base.JObj? && DistinctNames(base.props) && i < |base.props|
    requires var p := StoredOrOld(db, userOld).props[i];
             RestorableProperty(cfg, lib, p.1, p.0)
    requires Compared(cfg, lib, plib, userOld, userNew).Ok?
    requires Untouched(Filtered(Compared(cfg, lib, plib, userOld, userNew).value, ignore), StoredOrOld(db, userOld).props[i].0)
    requires KeepsUntouched(plib, StoredOrOld(db, userOld).props[i].0)
    ensures var r := Applied(cfg, lib, plib, userOld, userNew, db, ignore);
            var p := StoredOrOld(db, userOld).props[i];
            r.Ok? ==> r.value.JObj? && Get(r.value.props, p.0) == Some(p.1)
  {
    var base := StoredOrOld(db, userOld);
    var name, val := base.props[i].0, base.props[i].1;
    var ops := Filtered(Compared(cfg, lib, plib, userOld, userNew).value, ignore);
    var r := Applied(cfg, lib, plib, userOld, userNew, db, ignore);
    if r.Ok? {
      var flatDb := Flattened(cfg, lib, base, None).value;
      FlattenedGet(cfg, lib, base.props, i);
      PropertyRoundTrip(cfg, lib, val, name);
      var fv := FlattenedProperty(cfg, lib, val, name).value;
      var patched := plib.patch(flatDb, ops).value;
      assert Get(patched.props, name) == Some(fv);
      assert r == Unflattened(cfg, patched, None);
      UnflattenedGet(cfg, patched.props, name, fv);
    }
  }

  // ----------------------------------------------------------------- the filter

  /** The filter keeps the surviving operations in their original order. */
  lemma {:induction false} KeptConcat(a: seq<Operation>, b: seq<Operation>, matches: string -> bool)
    ensures Kept(a + b, matches) == Kept(a, matches) + Kept(b, matches)
    decreases |b|
  {
    if b == [] {
      assert a + b == a;
    } else {
      var b' := b[..|b| - 1];
      assert (a + b)[..|a + b| - 1] == a + b';
      KeptConcat(a, b', matches);
    }
  }

  /** An operation list none of whose paths match passes whole; one whose every path matches is emptied. */
  lemma {:induction false} KeptExtremes(ops: seq<Operation>, matches: string -> bool)
    ensures (forall i :: 0 <= i < |ops| ==> !matches(ops[i].path)) ==> Kept(ops, matches) == ops
    ensures (forall i :: 0 <= i < |ops| ==> matches(ops[i].path)) ==> Kept(ops, matches) == []
    decreases |ops|
  {
    if ops != [] {
      KeptExtremes(ops[..|ops| - 1], matches);
      assert ops[..|ops| - 1] + [ops[|ops| - 1]] == ops;
    }
  }

  /** Filtering twice is filtering once. */
  lemma {:induction false} KeptIdempotent(ops: seq<Operation>, matches: string -> bool)
    ensures Kept(Kept(ops, matches), matches) == Kept(ops, matches)
  {
    var r := Kept(ops, matches);
    assert forall i :: 0 <= i < |r| ==> !matches(r[i].path) by {
      forall i | 0 <= i < |r| ensures !matches(r[i].path) { assert r[i] in r; }
    }
    KeptExtremes(r, matches);
  }

  // -------------------------------------------------------- the stored document

  /** An omitted or falsy `db` is the same as passing `userOld`. */
  lemma ApplyDefaultsToUserOld(cfg: Config, lib: DateLib, plib: PatchLib, userOld: Json, userNew: Json,
                               db: Option<Json>, ignore: Option<string -> bool>)
    requires db.None? || !Truthy(db.value)
    ensures Applied(cfg, lib, plib, userOld, userNew, db, ignore) ==
            Applied(cfg, lib, plib, userOld, userNew, Some(userOld), ignore)
  {
  }

  // ------------------------------------------------------- order-insensitivity

  /**
   * Two flattened documents that are the same JSON value once the order of
   * each object's properties is disregarded: a diff of such documents has
   * nothing to report. (For objects that name each property once, matching
   * every entry to a same-named one in a list of the same length is a
   * one-to-one correspondence.)
   */
  ghost predicate Equivalent(a: Json, b: Json)
    decreases a
  {
    match a
    case JArr(xs) =>
      b.JArr? && |b.items| == |xs| && forall i :: 0 <= i < |xs| ==> Equivalent(xs[i], b.items[i])
    case JObj(ps) =>
      && b.JObj?
      && |b.props| == |ps|
      && forall i :: 0 <= i < |ps| ==>
           exists j :: 0 <= j < |b.props| && b.props[j].0 == ps[i].0 && Equivalent(ps[i].1, b.props[j].1)
    case _ => a == b
  }

  /**
   * `p` files each element of `xs` against an element of `ys` with the same
   * key, and every element of `ys` is the partner of some element.
   */
  predicate KeyMatching(lib: DateLib, xs: seq<Json>, ys: seq<Json>, p: seq<nat>, field: string) {
    && |p| == |xs|
    && (forall i :: 0 <= i < |xs| ==> p[i] < |ys| && KeyName(lib, ys[p[i]], field) == KeyName(lib, xs[i], field))
    && forall j :: 0 <= j < |ys| ==> j in p
  }

  /**
   * Two documents that differ only in the order of the elements of their
   * keyed collections: each such collection has distinct keys and no null
   * element, and the elements of the two that share a key are themselves
   * reorderings of each other.
   */
  ghost predicate Reordered(cfg: Config, lib: DateLib, a: Json, b: Json, loc: Location)
    decreases a
  {
    match a
    case JArr(xs) =>
      && b.JArr?
      && |b.items| == |xs|
      && if KeyField(cfg, loc) != "" then
           var field := KeyField(cfg, loc);
           var ys := b.items;
           && DistinctKeys(lib, xs, field) && DistinctKeys(lib, ys, field)
           && (forall i :: 0 <= i < |xs| ==> !xs[i].JNull?)
           && exists p :: KeyMatching(lib, xs, ys, p, field) &&
                forall i :: 0 <= i < |xs| ==> Reordered(cfg, lib, xs[i], ys[p[i]], loc)
         else
           forall i :: 0 <= i < |xs| ==> Reordered(cfg, lib, xs[i], b.items[i], loc)
    case JObj(ps) =>
      && b.JObj?
      && |b.props| == |ps|
      && forall i :: 0 <= i < |ps| ==>
           ps[i].0 == b.props[i].0 && Reordered(cfg, lib, ps[i].1, b.props[i].1, Some(Extend(loc, ps[i].0)))
    case _ => a == b
  }

  /** A reordering never turns a value into null or an object into a list. */
  lemma ReorderedKeepsKind(cfg: Config, lib: DateLib, a: Json, b: Json, loc: Location)
    requires Reordered(cfg, lib, a, b, loc)
    ensures a.JNull? <==> b.JNull?
    ensures a.JArr? <==> b.JArr?
    ensures a.JObj? <==> b.JObj?
  {
  }

  /** A reordering of a document whose objects name each property once is such a document too. */
  lemma {:induction false} ReorderedKeepsWellFormed(cfg: Config, lib: DateLib, a: Json, b: Json, loc: Location)
    requires WellFormed(a)
    requires Reordered(cfg, lib, a, b, loc)
    ensures WellFormed(b)
    decreases a
  {
    match a
    case JArr(xs) =>
      var ys := b.items;
      if KeyField(cfg, loc) != "" {
        var field := KeyField(cfg, loc);
        var p :| KeyMatching(lib, xs, ys, p, field) && forall i :: 0 <= i < |xs| ==> Reordered(cfg, lib, xs[i], ys[p[i]], loc);
        forall j | 0 <= j < |ys| ensures WellFormed(ys[j]) {
          assert j in p;
          var i :| 0 <= i < |p| && p[i] == j;
          ReorderedKeepsWellFormed(cfg, lib, xs[i], ys[j], loc);
        }
      } else {
        forall j | 0 <= j < |ys| { ReorderedKeepsWellFormed(cfg, lib, xs[j], ys[j], loc); }
      }
    case JObj(ps) =>
      var qs := b.props;
      forall j | 0 <= j < |qs| {
        ReorderedKeepsWellFormed(cfg, lib, ps[j].1, qs[j].1, Some(Extend(loc, ps[j].0)));
      }
      assert DistinctNames(qs) by {
        forall i, j | 0 <= i < j < |qs| ensures qs[i].0 != qs[j].0 { assert ps[i].0 != ps[j].0; }
      }
    case _ =>
  }

  /** Flattening maps reordered documents to equivalent ones. */
  lemma {:induction false} FlattenReordered(cfg: Config, lib: DateLib, a: Json, b: Json, loc: Location)
    requires WellFormed(a)
    requires Reordered(cfg, lib, a, b, loc)
    requires Flattened(cfg, lib, a, loc).Ok?
    ensures Flattened(cfg, lib, b, loc).Ok?
    ensures Equivalent(Flattened(cfg, lib, a, loc).value, Flattened(cfg, lib, b, loc).value)
    decreases a, 2
  {
    if a.JArr? && KeyField(cfg, loc) != "" {
      FlattenReorderedKeyed(cfg, lib, a, b, loc);
    } else if a.JArr? {
      FlattenReorderedList(cfg, lib, a, b, loc);
    } else if a.JObj? {
      FlattenReorderedObject(cfg, lib, a, b, loc);
    }
  }

  lemma {:induction false} FlattenReorderedList(cfg: Config, lib: DateLib, a: Json, b: Json, loc: Location)
    requires a.JArr? && KeyField(cfg, loc) == ""
    requires WellFormed(a)
    requires Reordered(cfg, lib, a, b, loc)
    requires Flattened(cfg, lib, a, loc).Ok?
    ensures Flattened(cfg, lib, b, loc).Ok?
    ensures Equivalent(Flattened(cfg, lib, a, loc).value, Flattened(cfg, lib, b, loc).value)
    decreases a, 0
  {
    var xs, ys := a.items, b.items;
    FlattenUnkeyedArray(cfg, lib, xs, loc);
    forall i | 0 <= i < |xs| { FlattenReordered(cfg, lib, xs[i], ys[i], loc); }
    FlattenUnkeyedArray(cfg, lib, ys, loc);
  }

  /**
   * Two property lists of the same length are equivalent objects when each
   * entry of the first has an entry of the same name in the second holding
   * an equivalent value.
   */
  lemma EquivalentByMatching(ma: seq<(string, Json)>, mb: seq<(string, Json)>)
    requires |ma| == |mb|
    requires forall i :: 0 <= i < |ma| ==>
               exists j :: 0 <= j < |mb| && mb[j].0 == ma[i].0 && Equivalent(ma[i].1, mb[j].1)
    ensures Equivalent(JObj(ma), JObj(mb))
  {
    var a, b := JObj(ma), JObj(mb);
    forall i | 0 <= i < |ma|
      ensures exists j :: 0 <= j < |b.props| && b.props[j].0 == ma[i].0 && Equivalent(ma[i].1, b.props[j].1)
    {
      var j :| 0 <= j < |mb| && mb[j].0 == ma[i].0 && Equivalent(ma[i].1, mb[j].1);
      assert 0 <= j < |b.props| && b.props[j].0 == ma[i].0 && Equivalent(ma[i].1, b.props[j].1);
    }
    assert a.props == ma;
    assert forall i :: 0 <= i < |a.props| ==>
             exists j :: 0 <= j < |b.props| && b.props[j].0 == a.props[i].0 && Equivalent(a.props[i].1, b.props[j].1);
  }

  /** Reordered property values flatten to equivalent ones, a Date to the same ISO string. */
  lemma {:induction false} FlattenReorderedProperty(cfg: Config, lib: DateLib, a: Json, b: Json, path: string)
    requires WellFormed(a)
    requires Reordered(cfg, lib, a, b, Some(path))
    requires FlattenedProperty(cfg, lib, a, path).Ok?
    ensures FlattenedProperty(cfg, lib, b, path).Ok?
    ensures Equivalent(FlattenedProperty(cfg, lib, a, path).value, FlattenedProperty(cfg, lib, b, path).value)
    decreases a, 3
  {
    if !a.JDate? { FlattenReordered(cfg, lib, a, b, Some(path)); }
  }

  lemma {:induction false} FlattenReorderedObject(cfg: Config, lib: DateLib, a: Json, b: Json, loc: Location)
    requires a.JObj?
    requires WellFormed(a)
    requires Reordered(cfg, lib, a, b, loc)
    requires Flattened(cfg, lib, a, loc).Ok?
    ensures Flattened(cfg, lib, b, loc).Ok?
    ensures Equivalent(Flattened(cfg, lib, a, loc).value, Flattened(cfg, lib, b, loc).value)
    decreases a, 0
  {
    var ps, qs := a.props, b.props;
    FlattenObject(cfg, lib, ps, loc);
    forall i | 0 <= i < |ps| {
      FlattenReorderedProperty(cfg, lib, ps[i].1, qs[i].1, Extend(loc, ps[i].0));
    }
    FlattenObject(cfg, lib, qs, loc);
    var fa := Flattened(cfg, lib, a, loc).value.props;
    var fb := Flattened(cfg, lib, b, loc).value.props;
    forall i | 0 <= i < |fa|
      ensures exists j :: 0 <= j < |fb| && fb[j].0 == fa[i].0 && Equivalent(fa[i].1, fb[j].1)
    {
      assert fb[i].0 == fa[i].0 && Equivalent(fa[i].1, fb[i].1);
    }
    EquivalentByMatching(fa, fb);
  }

  /** The elements of a reordered keyed collection all flatten. */
  lemma {:induction false} FlattenReorderedKeyedOk(cfg: Config, lib: DateLib, a: Json, b: Json, loc: Location)
    requires a.JArr? && KeyField(cfg, loc) != ""
    requires WellFormed(a)
    requires Reordered(cfg, lib, a, b, loc)
    requires Flattened(cfg, lib, a, loc).Ok?
    ensures forall j :: 0 <= j < |b.items| ==> !b.items[j].JNull? && Flattened(cfg, lib, b.items[j], loc).Ok?
    decreases a, 0
  {
    var field := KeyField(cfg, loc);
    var xs, ys := a.items, b.items;
    KeyedMemoOk(cfg, lib, xs, |xs|, loc, field);
    var p :| KeyMatching(lib, xs, ys, p, field) && forall i :: 0 <= i < |xs| ==> Reordered(cfg, lib, xs[i], ys[p[i]], loc);
    forall j | 0 <= j < |ys| ensures !ys[j].JNull? && Flattened(cfg, lib, ys[j], loc).Ok? {
      assert j in p;
      var i :| 0 <= i < |p| && p[i] == j;
      assert xs[i] < a by { assert a == JArr(xs) && xs[i] in xs; }
      FlattenReordered(cfg, lib, xs[i], ys[j], loc);
      ReorderedKeepsKind(cfg, lib, xs[i], ys[j], loc);
    }
  }

  /** The keyed-collection case: the two mappings list the same keys, holding equivalent entries. */
  lemma {:induction false} FlattenReorderedKeyed(cfg: Config, lib: DateLib, a: Json, b: Json, loc: Location)
    requires a.JArr? && KeyField(cfg, loc) != ""
    requires WellFormed(a)
    requires Reordered(cfg, lib, a, b, loc)
    requires Flattened(cfg, lib, a, loc).Ok?
    ensures Flattened(cfg, lib, b, loc).Ok?
    ensures Equivalent(Flattened(cfg, lib, a, loc).value, Flattened(cfg, lib, b, loc).value)
    decreases a, 1
  {
    var field := KeyField(cfg, loc);
    var xs, ys := a.items, b.items;
    FlattenReorderedKeyedOk(cfg, lib, a, b, loc);
    KeyedMemoOk(cfg, lib, ys, |ys|, loc, field);
    FlattenKeyedDistinct(cfg, lib, xs, loc);
    FlattenKeyedDistinct(cfg, lib, ys, loc);
    var ma := Flattened(cfg, lib, a, loc).value.props;
    var mb := Flattened(cfg, lib, b, loc).value.props;
    var p :| KeyMatching(lib, xs, ys, p, field) && forall i :: 0 <= i < |xs| ==> Reordered(cfg, lib, xs[i], ys[p[i]], loc);
    forall i | 0 <= i < |ma|
      ensures exists j :: 0 <= j < |mb| && mb[j].0 == ma[i].0 && Equivalent(ma[i].1, mb[j].1)
    {
      var j := p[i];
      assert xs[i] < a by { assert a == JArr(xs) && xs[i] in xs; }
      FlattenReordered(cfg, lib, xs[i], ys[j], loc);
      assert mb[j].0 == ma[i].0 && Equivalent(ma[i].1, mb[j].1);
    }
    EquivalentByMatching(ma, mb);
  }

  /**
   * `compare` reports nothing for documents that differ only in the order
   * of their keyed collections, for a diff that reports nothing between
   * equivalent documents.
   */
  lemma CompareReordered(cfg: Config, lib: DateLib, plib: PatchLib, oldObj: Json, newObj: Json)
    requires WellFormed(oldObj)
    requires Reordered(cfg, lib, oldObj, newObj, None)
    requires Flattened(cfg, lib, oldObj, None).Ok?
    requires forall a, b :: WellFormed(a) && WellFormed(b) && Equivalent(a, b) ==> plib.diff(a, b) == []
    ensures Compared(cfg, lib, plib, oldObj, newObj) == Ok([])
  {
    FlattenReordered(cfg, lib, oldObj, newObj, None);
    ReorderedKeepsWellFormed(cfg, lib, oldObj, newObj, None);
    FlattenKeepsWellFormed(cfg, lib, oldObj, None);
    FlattenKeepsWellFormed(cfg, lib, newObj, None);
  }

  // ------------------------------------------------------------- applying

  /**
   * When every operation of the user's diff is ignored, or the diff is
   * empty, `apply` returns the stored document as it was, for a patch
   * library that leaves a document alone under an empty patch.
   */
  lemma ApplyWithNothingToDo(cfg: Config, lib: DateLib, plib: PatchLib, userOld: Json, userNew: Json,
                             db: Option<Json>, ignore: Option<string -> bool>)
    requires Compared(cfg, lib, plib, userOld, userNew).Ok?
    requires Filtered(Compared(cfg, lib, plib, userOld, userNew).value, ignore) == []
    requires Restorable(cfg, lib, StoredOrOld(db, userOld), None)
    requires forall x :: plib.patch(x, []) == Ok(x)
    ensures Applied(cfg, lib, plib, userOld, userNew, db, ignore) == Ok(StoredOrOld(db, userOld))
  {
    UnflattenFlatten(cfg, lib, StoredOrOld(db, userOld), None);
  }

  /** The filter empties the diff when each of its operations has an ignored path. */
  lemma AllIgnored(ops: seq<Operation>, matches: string -> bool)
    requires forall i :: 0 <= i < |ops| ==> matches(ops[i].path)
    ensures Filtered(ops, Some(matches)) == []
  {
    KeptExtremes(ops, matches);
  }

  /**
   * The intended use: with the stored copy omitted or equal to the user's
   * old document and nothing ignored, applying the user's change yields
   * their new document, for a patch that takes flatten(old) to flatten(new).
   */
  lemma ApplyYieldsUserNew(cfg: Config, lib: DateLib, plib: PatchLib, userOld: Json, userNew: Json, db: Option<Json>)
    requires db.None? || db.value == userOld
    requires Restorable(cfg, lib, userNew, None)
    requires var a := Flattened(cfg, lib, userOld, None);
             var b := Flattened(cfg, lib, userNew, None);
             a.Ok? && b.Ok? && plib.patch(a.value, plib.diff(a.value, b.value)) == Ok(b.value)
    ensures Applied(cfg, lib, plib, userOld, userNew, db, None) == Ok(userNew)
  {
    assert StoredOrOld(db, userOld) == userOld;
    UnflattenFlatten(cfg, lib, userNew, None);
  }

  /**
   * Applying a change whose two sides are reorderings of each other leaves
   * the stored document as it was.
   */
  lemma ApplyReordered(cfg: Config, lib: DateLib, plib: PatchLib, userOld: Json, userNew: Json,
                       db: Option<Json>, ignore: Option<string -> bool>)
    requires WellFormed(userOld)
    requires Reordered(cfg, lib, userOld, userNew, None)
    requires Flattened(cfg, lib, userOld, None).Ok?
    requires Restorable(cfg, lib, StoredOrOld(db, userOld), None)
    requires forall a, b :: WellFormed(a) && WellFormed(b) && Equivalent(a, b) ==> plib.diff(a, b) == []
    requires forall x :: plib.patch(x, []) == Ok(x)
    ensures Applied(cfg, lib, plib, userOld, userNew, db, ignore) == Ok(StoredOrOld(db, userOld))
  {
    CompareReordered(cfg, lib, plib, userOld, userNew);
    if ignore.Some? { KeptExtremes([], ignore.value); }
    ApplyWithNothingToDo(cfg, lib, plib, userOld, userNew, db, ignore);
  }
}
