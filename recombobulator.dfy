/**
 * The JSONPatchRecombobulator class: the constructor stores the options,
 * and each method walks a document the way the source does (`reduce` into
 * a memo, `map`, `forEach` rewriting properties in place, `for..in`, `push`).
 * Each method is proved to compute its specification function, so the
 * lemmas of the Canonical, Decanonical, Remodel and Pipeline modules are
 * statements about these methods.
 */
module Recombobulator {
  import opened JsonModel
  import opened Canonical
  import opened Decanonical
  import opened Remodel
  import opened Pipeline

  class JsonPatchRecombobulator {
    const options: Options

    constructor(options: Options)
      ensures this.options == options
    {
      this.options := options;
    }

    // ---------------------------------------------------------------- flatten

    method Flatten(lib: DateLib, obj: Json, currentLocation: Location) returns (r: Result<Json>)
      ensures r == Flattened(options.orderIndependentCollections, lib, obj, currentLocation)
      decreases obj, 2
    {
      var cfg := options.orderIndependentCollections;
      match obj {
        case JArr(items) =>
          var field := KeyField(cfg, currentLocation);
          if field != "" {
            var memo := FlattenKeyed(lib, items, currentLocation, field);
            if memo.Err? { return Err(memo.error); }
            return Ok(JObj(memo.value));
          } else {
            var xs := FlattenEach(lib, items, currentLocation);
            if xs.Err? { return Err(xs.error); }
            return Ok(JArr(xs.value));
          }
        case JObj(props) =>
          var ps := FlattenProps(lib, props, currentLocation);
          if ps.Err? { return Err(ps.error); }
          return Ok(JObj(ps.value));
        case _ =>
          return Ok(obj);
      }
    }

    /** `obj.reduce((memo, item) => { memo[key] = flatten(item); return memo }, {})`. */
    method FlattenKeyed(lib: DateLib, items: seq<Json>, loc: Location, field: string)
      returns (r: Result<seq<(string, Json)>>)
      ensures r == KeyedMemo(options.orderIndependentCollections, lib, items, |items|, loc, field)
      decreases JArr(items), 1
    {
      var cfg := options.orderIndependentCollections;
      var memo: seq<(string, Json)> := [];
      var i := 0;
      while i < |items|
        invariant 0 <= i <= |items|
        invariant KeyedMemo(cfg, lib, items, i, loc, field) == Ok(memo)
      {
        var item := items[i];
        if item.JNull? {
          KeyedMemoStops(cfg, lib, items, i, |items|, loc, field);
          return Err(NullPropertyRead(field));
        }
        var key := KeyName(lib, item, field);
        var f := Flatten(lib, item, loc);
        if f.Err? {
          KeyedMemoStops(cfg, lib, items, i, |items|, loc, field);
          return Err(f.error);
        }
        KeyedMemoStep(cfg, lib, items, i, loc, field, memo, f.value);
        memo := Put(memo, key, f.value);
        i := i + 1;
      }
      return Ok(memo);
    }

    /** `obj.map(o => flatten(o))`, at the array's own location. */
    method FlattenEach(lib: DateLib, items: seq<Json>, loc: Location) returns (r: Result<seq<Json>>)
      ensures r == FlattenedElements(options.orderIndependentCollections, lib, items, |items|, loc)
      decreases JArr(items), 1
    {
      var cfg := options.orderIndependentCollections;
      var xs: seq<Json> := [];
      var i := 0;
      while i < |items|
        invariant 0 <= i <= |items|
        invariant FlattenedElements(cfg, lib, items, i, loc) == Ok(xs)
      {
        var f := Flatten(lib, items[i], loc);
        if f.Err? {
          FlattenedElementsStop(cfg, lib, items, i, |items|, loc);
          return Err(f.error);
        }
        xs := xs + [f.value];
        i := i + 1;
      }
      return Ok(xs);
    }

    /** `Object.keys(obj).forEach(k => obj[k] = flatten(...))`: each property is rewritten in place. */
    method FlattenProps(lib: DateLib, props: seq<(string, Json)>, loc: Location)
      returns (r: Result<seq<(string, Json)>>)
      ensures r == FlattenedProps(options.orderIndependentCollections, lib, props, |props|, loc)
      decreases JObj(props), 1
    {
      var cfg := options.orderIndependentCollections;
      var obj := props;
      var i := 0;
      while i < |obj|
        invariant 0 <= i <= |obj| == |props|
        invariant FlattenedProps(cfg, lib, props, i, loc) == Ok(obj[..i])
        invariant obj[i..] == props[i..]
      {
        assert obj[i] == props[i];
        var k := obj[i].0;
        var path := Extend(loc, k);
        var f: Result<Json>;
        if obj[i].1.JDate? {
          // flatten of the ISO string is the string itself
          f := Ok(JStr(lib.isoString(obj[i].1.t)));
        } else {
          f := Flatten(lib, obj[i].1, Some(path));
        }
        if f.Err? {
          FlattenedPropsStop(cfg, lib, props, i, |props|, loc);
          return Err(f.error);
        }
        ghost var done := obj[..i];
        obj := obj[i := (k, f.value)];
        assert obj[..i + 1] == done + [(k, f.value)];
        i := i + 1;
      }
      assert obj[..|obj|] == obj;
      return Ok(obj);
    }

    // -------------------------------------------------------------- unflatten

    /** `for (property in obj)`: each property, or each array index, is rewritten in place. */
    method Unflatten(obj: Json, parent: Location) returns (r: Result<Json>)
      ensures r == Unflattened(options.orderIndependentCollections, obj, parent)
      decreases obj, 1
    {
      match obj {
        case JArr(items) =>
          var xs := UnflattenIndices(items, parent);
          if xs.Err? { return Err(xs.error); }
          return Ok(JArr(xs.value));
        case JObj(props) =>
          var ps := UnflattenProps(props, parent);
          if ps.Err? { return Err(ps.error); }
          return Ok(JObj(ps.value));
        case _ =>
          return Ok(obj);
      }
    }

    /** The `for..in` over an array: its indices are the property names "0", "1", ... */
    method UnflattenIndices(items: seq<Json>, parent: Location) returns (r: Result<seq<Json>>)
      ensures r == UnflattenedIndices(options.orderIndependentCollections, items, IndexNames(|items|), |items|, parent)
      decreases JArr(items), 0
    {
      var cfg := options.orderIndependentCollections;
      var names := IndexNames(|items|);
      var xs := items;
      var i := 0;
      while i < |xs|
        invariant 0 <= i <= |xs| == |items|
        invariant UnflattenedIndices(cfg, items, names, i, parent) == Ok(xs[..i])
        invariant xs[i..] == items[i..]
      {
        assert xs[i] == items[i];
        var x := UnflattenProperty(xs[i], Extend(parent, names[i]));
        if x.Err? {
          UnflattenedIndicesStop(cfg, items, names, i, |items|, parent);
          return Err(x.error);
        }
        ghost var done := xs[..i];
        xs := xs[i := x.value];
        assert xs[..i + 1] == done + [x.value];
        i := i + 1;
      }
      assert xs[..|xs|] == xs;
      return Ok(xs);
    }

    /** The `for..in` over an object's own properties, each value replaced in place. */
    method UnflattenProps(props: seq<(string, Json)>, parent: Location) returns (r: Result<seq<(string, Json)>>)
      ensures r == UnflattenedProps(options.orderIndependentCollections, props, |props|, parent)
      decreases JObj(props), 0
    {
      var cfg := options.orderIndependentCollections;
      var ps := props;
      var i := 0;
      while i < |ps|
        invariant 0 <= i <= |ps| == |props|
        invariant UnflattenedProps(cfg, props, i, parent) == Ok(ps[..i])
        invariant ps[i..] == props[i..]
      {
        assert ps[i] == props[i];
        var property := ps[i].0;
        var x := UnflattenProperty(ps[i].1, Extend(parent, property));
        if x.Err? {
          UnflattenedPropsStop(cfg, props, i, |props|, parent);
          return Err(x.error);
        }
        ghost var done := ps[..i];
        ps := ps[i := (property, x.value)];
        assert ps[..i + 1] == done + [(property, x.value)];
        i := i + 1;
      }
      assert ps[..|ps|] == ps;
      return Ok(ps);
    }

    /** The body of the `for..in`: the new value of one property at `path`. */
    method UnflattenProperty(prop: Json, path: string) returns (r: Result<Json>)
      ensures r == UnflattenedProperty(options.orderIndependentCollections, prop, path)
      decreases prop, 2
    {
      var cfg := options.orderIndependentCollections;
      if KeyField(cfg, Some(path)) != "" {
        r := UnflattenProp(prop, path);
      } else if prop.JArr? {
        var xs := UnflattenEach(prop.items, path);
        if xs.Err? { return Err(xs.error); }
        r := Ok(JArr(xs.value));
      } else if prop.JObj? || prop.JNull? || prop.JDate? {
        r := Unflatten(prop, Some(path));
      } else {
        r := Ok(prop);
      }
    }

    /** `unflattenProp`: push `unflatten(prop[key])` for each key of `Object.keys(prop)`. */
    method UnflattenProp(prop: Json, path: string) returns (r: Result<Json>)
      ensures r == Collected(options.orderIndependentCollections, prop, path)
      decreases prop, 1
    {
      var cfg := options.orderIndependentCollections;
      var unflattenedLocalCollection: seq<Json> := [];
      match prop {
        case JNull =>
          return Err(NullKeys(path));
        case JObj(props) =>
          var i := 0;
          while i < |props|
            invariant 0 <= i <= |props|
            invariant CollectedValues(cfg, props, i, path) == Ok(unflattenedLocalCollection)
          {
            var x := Unflatten(props[i].1, Some(path));
            if x.Err? {
              CollectedValuesStop(cfg, props, i, |props|, path);
              return Err(x.error);
            }
            unflattenedLocalCollection := unflattenedLocalCollection + [x.value];
            i := i + 1;
          }
        case JArr(items) =>
          var i := 0;
          while i < |items|
            invariant 0 <= i <= |items|
            invariant UnflattenedEach(cfg, items, i, path) == Ok(unflattenedLocalCollection)
          {
            var x := Unflatten(items[i], Some(path));
            if x.Err? {
              UnflattenedEachStop(cfg, items, i, |items|, path);
              return Err(x.error);
            }
            unflattenedLocalCollection := unflattenedLocalCollection + [x.value];
            i := i + 1;
          }
        case JStr(s) =>
          var i := 0;
          while i < |s|
            invariant 0 <= i <= |s|
            invariant unflattenedLocalCollection == seq(i, k requires 0 <= k < i => JStr([s[k]]))
          {
            // the character `prop[key]` is a string, which unflatten returns as it is
            unflattenedLocalCollection := unflattenedLocalCollection + [JStr([s[i]])];
            i := i + 1;
          }
        case _ =>
      }
      return Ok(JArr(unflattenedLocalCollection));
    }

    /** `unflattenEach`: `prop.forEach(newObj => unflatten(newObj, path))`, each element rewritten in place. */
    method UnflattenEach(items: seq<Json>, path: string) returns (r: Result<seq<Json>>)
      ensures r == UnflattenedEach(options.orderIndependentCollections, items, |items|, path)
      decreases JArr(items), 1
    {
      var cfg := options.orderIndependentCollections;
      var xs := items;
      var i := 0;
      while i < |xs|
        invariant 0 <= i <= |xs| == |items|
        invariant UnflattenedEach(cfg, items, i, path) == Ok(xs[..i])
        invariant xs[i..] == items[i..]
      {
        assert xs[i] == items[i];
        var x := Unflatten(xs[i], Some(path));
        if x.Err? {
          UnflattenedEachStop(cfg, items, i, |items|, path);
          return Err(x.error);
        }
        ghost var done := xs[..i];
        xs := xs[i := x.value];
        assert xs[..i + 1] == done + [x.value];
        i := i + 1;
      }
      assert xs[..|xs|] == xs;
      return Ok(xs);
    }

    // ----------------------------------------------------------- remodelDates

    method RemodelDates(lib: DateLib, obj: Json, currentLocation: Location) returns (r: Json)
      ensures r == Remodeled(options.orderIndependentCollections, lib, obj, currentLocation)
      decreases obj
    {
      var cfg := options.orderIndependentCollections;
      match obj {
        case JArr(items) =>
          // obj.map(o => remodelDates(o)), at the array's own location
          var xs: seq<Json> := [];
          var i := 0;
          while i < |items|
            invariant 0 <= i <= |items|
            invariant |xs| == i
            invariant forall k :: 0 <= k < i ==> xs[k] == Remodeled(cfg, lib, items[k], currentLocation)
          {
            var x := RemodelDates(lib, items[i], currentLocation);
            xs := xs + [x];
            i := i + 1;
          }
          r := JArr(xs);
        case JObj(props) =>
          // Object.keys(obj).forEach(k => obj[k] = remodelDates(obj[k])), in place
          var ps := props;
          var i := 0;
          while i < |ps|
            invariant 0 <= i <= |ps| == |props|
            invariant forall k :: 0 <= k < i ==>
                        ps[k] == (props[k].0, Remodeled(cfg, lib, props[k].1, Some(Extend(currentLocation, props[k].0))))
            invariant ps[i..] == props[i..]
          {
            assert ps[i] == props[i];
            var k := ps[i].0;
            var x := RemodelDates(lib, ps[i].1, Some(Extend(currentLocation, k)));
            ps := ps[i := (k, x)];
            i := i + 1;
          }
          r := JObj(ps);
        case JDate(_) =>
          r := obj;
        case _ =>
          if IsDatePath(cfg, currentLocation) {
            var parsed := lib.parse(obj);
            if parsed.Some? && parsed.value != 0 {
              r := JDate(lib.toDate(obj));
            } else {
              // the source logs that the value cannot be parsed
              r := obj;
            }
          } else {
            r := obj;
          }
      }
    }

    // -------------------------------------------------------- compare, apply

    method Compare(lib: DateLib, plib: PatchLib, oldObj: Json, newObj: Json) returns (r: Result<seq<Operation>>)
      ensures r == Compared(options.orderIndependentCollections, lib, plib, oldObj, newObj)
    {
      var a := Flatten(lib, oldObj, None);
      if a.Err? { return Err(a.error); }
      var b := Flatten(lib, newObj, None);
      if b.Err? { return Err(b.error); }
      return Ok(plib.diff(a.value, b.value));
    }

    method Apply(lib: DateLib, plib: PatchLib, userOld: Json, userNew: Json, db: Option<Json>,
                 ignore: Option<string -> bool>) returns (r: Result<Json>)
      ensures r == Applied(options.orderIndependentCollections, lib, plib, userOld, userNew, db, ignore)
    {
      var cfg := options.orderIndependentCollections;
      var base := if db.Some? && Truthy(db.value) then db.value else userOld;
      var userDiff := Compare(lib, plib, userOld, userNew);
      if userDiff.Err? {
        AppliedDiffFails(cfg, lib, plib, userOld, userNew, db, ignore);
        return Err(userDiff.error);
      }
      var ops := userDiff.value;
      if ignore.Some? {
        ops := Kept(ops, ignore.value);
      }
      var flatDb := Flatten(lib, base, None);
      if flatDb.Err? {
        AppliedStoreFails(cfg, lib, plib, userOld, userNew, db, ignore);
        return Err(flatDb.error);
      }
      AppliedPatched(cfg, lib, plib, userOld, userNew, db, ignore, ops, flatDb.value);
      var patched := plib.patch(flatDb.value, ops);
      if patched.Err? { return Err(patched.error); }
      r := Unflatten(patched.value, None);
    }
  }
}
