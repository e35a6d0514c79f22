/**
 * `unflatten` undoes `flatten` on the documents the pair is meant for:
 * no Dates (flatten writes a Date property as its ISO string and nothing
 * turns it back; Dates elsewhere, which flatten keeps, are excluded too),
 * a list at every keyed path whose elements are objects with distinct keys,
 * and no list directly inside a list or at the root (flatten keeps such
 * elements at the list's own path, while `for..in` gives them `path.i`).
 */
module RoundTrip {
  import opened JsonModel
  import opened Canonical
  import opened Decanonical

  /** A document below `loc` that flatten and unflatten restore. */
  ghost predicate Restorable(cfg: Config, lib: DateLib, v: Json, loc: Location)
    decreases v, 1
  {
    match v
    case JDate(_) => false
    case JArr(_) => false
    case JObj(props) =>
      forall i :: 0 <= i < |props| ==> RestorableProperty(cfg, lib, props[i].1, Extend(loc, props[i].0))
    case _ => true
  }

  /** A property value at `path` that flatten and unflatten restore. */
  ghost predicate RestorableProperty(cfg: Config, lib: DateLib, val: Json, path: string)
    decreases val, 2
  {
    if KeyField(cfg, Some(path)) != "" then
      && val.JArr?
      && DistinctKeys(lib, val.items, KeyField(cfg, Some(path)))
      && forall i :: 0 <= i < |val.items| ==>
           val.items[i].JObj? && Restorable(cfg, lib, val.items[i], Some(path))
    else if val.JArr? then
      forall i :: 0 <= i < |val.items| ==> Restorable(cfg, lib, val.items[i], Some(path))
    else Restorable(cfg, lib, val, Some(path))
  }

  /** unflatten(flatten(d)) == d. */
  lemma {:induction false} UnflattenFlatten(cfg: Config, lib: DateLib, v: Json, loc: Location)
    requires Restorable(cfg, lib, v, loc)
    ensures Flattened(cfg, lib, v, loc).Ok?
    ensures Unflattened(cfg, Flattened(cfg, lib, v, loc).value, loc) == Ok(v)
    decreases v, 1
  {
    match v
    case JObj(props) =>
      forall i | 0 <= i < |props| {
        PropertyRoundTrip(cfg, lib, props[i].1, Extend(loc, props[i].0));
      }
      FlattenObject(cfg, lib, props, loc);
      var fps := Flattened(cfg, lib, v, loc).value.props;
      UnflattenObject(cfg, fps, loc);
      var ups := Unflattened(cfg, JObj(fps), loc).value.props;
      assert ups == props by {
        forall i | 0 <= i < |props| ensures ups[i] == props[i] {
          assert fps[i].0 == props[i].0;
        }
      }
    case _ =>
  }

  /** One property: flattened at `path` and unflattened at `path`, it comes back as it was. */
  lemma {:induction false} PropertyRoundTrip(cfg: Config, lib: DateLib, val: Json, path: string)
    requires RestorableProperty(cfg, lib, val, path)
    ensures FlattenedProperty(cfg, lib, val, path).Ok?
    ensures UnflattenedProperty(cfg, FlattenedProperty(cfg, lib, val, path).value, path) == Ok(val)
    decreases val, 2
  {
    var loc := Some(path);
    if KeyField(cfg, loc) != "" {
      var items := val.items;
      forall i | 0 <= i < |items| { UnflattenFlatten(cfg, lib, items[i], loc); }
      FlattenKeyedCollection(cfg, lib, items, loc);
      FlattenKeyedDistinct(cfg, lib, items, loc);
      var memo := Flattened(cfg, lib, val, loc).value.props;
      UnflattenKeyedProperty(cfg, memo, path);
      var back := UnflattenedProperty(cfg, JObj(memo), path).value.items;
      assert back == items by {
        forall i | 0 <= i < |items| ensures back[i] == items[i] {
          assert memo[i].1 == Flattened(cfg, lib, items[i], loc).value;
        }
      }
    } else if val.JArr? {
      var items := val.items;
      forall i | 0 <= i < |items| { UnflattenFlatten(cfg, lib, items[i], loc); }
      FlattenUnkeyedArray(cfg, lib, items, loc);
      var flat := Flattened(cfg, lib, val, loc).value.items;
      UnflattenUnkeyedArray(cfg, flat, path);
      var back := UnflattenedProperty(cfg, JArr(flat), path).value.items;
      assert back == items;
    } else {
      UnflattenFlatten(cfg, lib, val, loc);
      assert !Flattened(cfg, lib, val, loc).value.JArr?;
    }
  }
}
