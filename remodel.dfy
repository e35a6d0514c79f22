/**
 * `remodelDates`: turns the date strings a flattened or unflattened document
 * holds at paths configured `isDate` back into Dates. Arrays are walked at
 * their own path, object properties below it, and a scalar at an `isDate`
 * path becomes a Date when `Date.parse` gives a truthy time value.
 */
module Remodel {
  import opened JsonModel

  /** `Date.parse(v)` is truthy: neither NaN nor 0. */
  predicate ParsesAsDate(lib: DateLib, v: Json) {
    var p := lib.parse(v);
    p.Some? && p.value != 0
  }

  /**
   * The document after `remodelDates`. A Date is an object with no own
   * properties, so it comes back as it is; null fails `obj !== null` and is
   * treated as a scalar.
   */
  function Remodeled(cfg: Config, lib: DateLib, v: Json, loc: Location): Json
    decreases v
  {
    match v
    case JArr(items) =>
      JArr(seq(|items|, i requires 0 <= i < |items| => Remodeled(cfg, lib, items[i], loc)))
    case JObj(props) =>
      JObj(seq(|props|, i requires 0 <= i < |props| =>
        (props[i].0, Remodeled(cfg, lib, props[i].1, Some(Extend(loc, props[i].0))))))
    case JDate(_) => v
    case _ => if IsDatePath(cfg, loc) && ParsesAsDate(lib, v) then JDate(lib.toDate(v)) else v
  }

  /** Two documents have the same arrays and objects, with the same names in the same places. */
  predicate SameShape(a: Json, b: Json)
    decreases a
  {
    match a
    case JArr(xs) =>
      b.JArr? && |b.items| == |xs| && forall i :: 0 <= i < |xs| ==> SameShape(xs[i], b.items[i])
    case JObj(ps) =>
      b.JObj? && |b.props| == |ps| &&
      forall i :: 0 <= i < |ps| ==> ps[i].0 == b.props[i].0 && SameShape(ps[i].1, b.props[i].1)
    case _ => !b.JArr? && !b.JObj?
  }

  /**
   * Only a scalar at an `isDate` path whose parse is truthy changes, and it
   * becomes the Date `moment(v).toDate()`; any other leaf is untouched.
   */
  lemma RemodelLeaf(cfg: Config, lib: DateLib, v: Json, loc: Location)
    requires !v.JArr? && !v.JObj?
    ensures Remodeled(cfg, lib, v, loc) != v <==>
              !v.JDate? && IsDatePath(cfg, loc) && ParsesAsDate(lib, v)
    ensures Remodeled(cfg, lib, v, loc) != v ==> Remodeled(cfg, lib, v, loc) == JDate(lib.toDate(v))
  {
  }

  /** The tree keeps its shape: arrays their length, objects their names in order. */
  lemma {:induction false} RemodelKeepsShape(cfg: Config, lib: DateLib, v: Json, loc: Location)
    ensures SameShape(v, Remodeled(cfg, lib, v, loc))
    decreases v
  {
    match v
    case JArr(items) =>
      forall i | 0 <= i < |items| { RemodelKeepsShape(cfg, lib, items[i], loc); }
    case JObj(props) =>
      forall i | 0 <= i < |props| { RemodelKeepsShape(cfg, lib, props[i].1, Some(Extend(loc, props[i].0))); }
    case _ =>
  }

  /** Remodelling twice is remodelling once: a Date is never parsed again. */
  lemma {:induction false} RemodelIdempotent(cfg: Config, lib: DateLib, v: Json, loc: Location)
    ensures Remodeled(cfg, lib, Remodeled(cfg, lib, v, loc), loc) == Remodeled(cfg, lib, v, loc)
    decreases v
  {
    var r := Remodeled(cfg, lib, v, loc);
    match v
    case JArr(items) =>
      forall i | 0 <= i < |items| { RemodelIdempotent(cfg, lib, items[i], loc); }
      assert Remodeled(cfg, lib, r, loc).items == r.items;
    case JObj(props) =>
      forall i | 0 <= i < |props| { RemodelIdempotent(cfg, lib, props[i].1, Some(Extend(loc, props[i].0))); }
      assert Remodeled(cfg, lib, r, loc).props == r.props;
    case _ =>
  }

  /** The paths of a document, as `remodelDates` forms them, that are configured `isDate`. */
  ghost predicate ReachesDatePath(cfg: Config, v: Json, loc: Location)
    decreases v
  {
    match v
    case JArr(items) => exists i :: 0 <= i < |items| && ReachesDatePath(cfg, items[i], loc)
    case JObj(props) =>
      exists i :: 0 <= i < |props| && ReachesDatePath(cfg, props[i].1, Some(Extend(loc, props[i].0)))
    case JDate(_) => false
    case _ => IsDatePath(cfg, loc)
  }

  /** A document with no scalar at an `isDate` path comes back unchanged. */
  lemma {:induction false} RemodelIdentity(cfg: Config, lib: DateLib, v: Json, loc: Location)
    requires !ReachesDatePath(cfg, v, loc)
    ensures Remodeled(cfg, lib, v, loc) == v
    decreases v
  {
    match v
    case JArr(items) =>
      forall i | 0 <= i < |items| { RemodelIdentity(cfg, lib, items[i], loc); }
      assert Remodeled(cfg, lib, v, loc).items == items;
    case JObj(props) =>
      forall i | 0 <= i < |props| { RemodelIdentity(cfg, lib, props[i].1, Some(Extend(loc, props[i].0))); }
      assert Remodeled(cfg, lib, v, loc).props == props;
    case _ =>
  }

  /** With no path configured `isDate`, remodelDates changes nothing. */
  lemma {:induction false} NoDatePathsNoReach(cfg: Config, v: Json, loc: Location)
    requires forall p :: p in cfg ==> !cfg[p].isDate
    ensures !ReachesDatePath(cfg, v, loc)
    decreases v
  {
    match v
    case JArr(items) =>
      forall i | 0 <= i < |items| { NoDatePathsNoReach(cfg, items[i], loc); }
    case JObj(props) =>
      forall i | 0 <= i < |props| { NoDatePathsNoReach(cfg, props[i].1, Some(Extend(loc, props[i].0))); }
    case _ =>
  }

  /** Remodelling keeps every object's property names distinct. */
  lemma {:induction false} RemodelKeepsWellFormed(cfg: Config, lib: DateLib, v: Json, loc: Location)
    requires WellFormed(v)
    ensures WellFormed(Remodeled(cfg, lib, v, loc))
    decreases v
  {
    match v
    case JArr(items) =>
      forall i | 0 <= i < |items| { RemodelKeepsWellFormed(cfg, lib, items[i], loc); }
    case JObj(props) =>
      forall i | 0 <= i < |props| { RemodelKeepsWellFormed(cfg, lib, props[i].1, Some(Extend(loc, props[i].0))); }
      var ps := Remodeled(cfg, lib, v, loc).props;
      assert forall i :: 0 <= i < |ps| ==> ps[i].0 == props[i].0;
    case _ =>
  }
}
