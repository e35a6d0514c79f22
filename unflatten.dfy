/**
 * The de-canonicaliser: `unflatten` as a function of the configuration, the
 * document and the parent path. A property at a keyed path is replaced by
 * the list of its mapping's values; other arrays and objects are walked in
 * place; nothing is converted back into a Date.
 */
module Decanonical {
  import opened JsonModel

  /**
   * One call of `unflatten`: `for (property in obj)` visits the names of an
   * object and the indices of an array; null, Dates and scalars come back
   * as they are.
   */
  function Unflattened(cfg: Config, v: Json, parent: Location): Result<Json>
    decreases v, 1
  {
    match v
    case JArr(items) =>
      var xs :- UnflattenedIndices(cfg, items, IndexNames(|items|), |items|, parent);
      Ok(JArr(xs))
    case JObj(props) =>
      var ps :- UnflattenedProps(cfg, props, |props|, parent);
      Ok(JObj(ps))
    case _ => Ok(v)
  }

  /** The property names `for..in` visits on an array of length n: "0", "1", ... */
  function IndexNames(n: nat): (names: seq<string>)
    ensures |names| == n
  {
    seq(n, i requires 0 <= i < n => NatToDecimal(i))
  }

  /** The first n entries of an array visited by `for..in`, under the property names `names`. */
  function UnflattenedIndices(cfg: Config, items: seq<Json>, names: seq<string>, n: nat, parent: Location)
    : Result<seq<Json>>
    requires n <= |items| == |names|
    decreases JArr(items), 0, n
  {
    if n == 0 then Ok([])
    else
      var xs :- UnflattenedIndices(cfg, items, names, n - 1, parent);
      var x :- UnflattenedProperty(cfg, items[n - 1], Extend(parent, names[n - 1]));
      Ok(xs + [x])
  }

  /** The first n properties of an object visited by `for..in`. */
  function UnflattenedProps(cfg: Config, props: seq<(string, Json)>, n: nat, parent: Location)
    : Result<seq<(string, Json)>>
    requires n <= |props|
    decreases JObj(props), 0, n
  {
    if n == 0 then Ok([])
    else
      var ps :- UnflattenedProps(cfg, props, n - 1, parent);
      var x :- UnflattenedProperty(cfg, props[n - 1].1, Extend(parent, props[n - 1].0));
      Ok(ps + [(props[n - 1].0, x)])
  }

  /**
   * The new value of one property at `path`: collected into a list when the
   * path is keyed, otherwise an array has each element unflattened at the
   * same path and anything else is unflattened below the path.
   */
  function UnflattenedProperty(cfg: Config, val: Json, path: string): Result<Json>
    decreases val, 2
  {
    if KeyField(cfg, Some(path)) != "" then Collected(cfg, val, path)
    else if val.JArr? then
      var xs :- UnflattenedEach(cfg, val.items, |val.items|, path);
      Ok(JArr(xs))
    else Unflattened(cfg, val, Some(path))
  }

  /**
   * `unflattenProp`: the values `prop[key]` for `key` in `Object.keys(prop)`,
   * each unflattened at `path`. `Object.keys(null)` throws; a string has its
   * indices as keys and a number, boolean or Date has none.
   */
  function Collected(cfg: Config, val: Json, path: string): Result<Json>
    decreases val, 1
  {
    match val
    case JNull => Err(NullKeys(path))
    case JObj(props) =>
      var xs :- CollectedValues(cfg, props, |props|, path);
      Ok(JArr(xs))
    case JArr(items) =>
      var xs :- UnflattenedEach(cfg, items, |items|, path);
      Ok(JArr(xs))
    case JStr(s) => Ok(JArr(seq(|s|, i requires 0 <= i < |s| => JStr([s[i]]))))
    case _ => Ok(JArr([]))
  }

  /** `unflattenEach` and the array case of `unflattenProp`: the first n elements, unflattened at `path`. */
  function UnflattenedEach(cfg: Config, items: seq<Json>, n: nat, path: string): Result<seq<Json>>
    requires n <= |items|
    decreases JArr(items), 0, n
  {
    if n == 0 then Ok([])
    else
      var xs :- UnflattenedEach(cfg, items, n - 1, path);
      var x :- Unflattened(cfg, items[n - 1], Some(path));
      Ok(xs + [x])
  }

  /** The values of the first n entries of a keyed mapping, unflattened at `path`. */
  function CollectedValues(cfg: Config, props: seq<(string, Json)>, n: nat, path: string): Result<seq<Json>>
    requires n <= |props|
    decreases JObj(props), 0, n
  {
    if n == 0 then Ok([])
    else
      var xs :- CollectedValues(cfg, props, n - 1, path);
      var x :- Unflattened(cfg, props[n - 1].1, Some(path));
      Ok(xs + [x])
  }

  // ------------------------------------------------------------ error paths

  /** Once `unflattenProp` or a nested `unflatten` throws, the whole loop throws the same error. */
  lemma {:induction false} UnflattenedIndicesStop(cfg: Config, items: seq<Json>, names: seq<string>, i: nat, n: nat, parent: Location)
    requires i < n <= |items| == |names|
    requires UnflattenedIndices(cfg, items, names, i + 1, parent).Err?
    ensures UnflattenedIndices(cfg, items, names, n, parent) == UnflattenedIndices(cfg, items, names, i + 1, parent)
    decreases n
  {
    if n > i + 1 { UnflattenedIndicesStop(cfg, items, names, i, n - 1, parent); }
  }

  lemma {:induction false} UnflattenedPropsStop(cfg: Config, props: seq<(string, Json)>, i: nat, n: nat, parent: Location)
    requires i < n <= |props|
    requires UnflattenedProps(cfg, props, i + 1, parent).Err?
    ensures UnflattenedProps(cfg, props, n, parent) == UnflattenedProps(cfg, props, i + 1, parent)
    decreases n
  {
    if n > i + 1 { UnflattenedPropsStop(cfg, props, i, n - 1, parent); }
  }

  lemma {:induction false} UnflattenedEachStop(cfg: Config, items: seq<Json>, i: nat, n: nat, path: string)
    requires i < n <= |items|
    requires UnflattenedEach(cfg, items, i + 1, path).Err?
    ensures UnflattenedEach(cfg, items, n, path) == UnflattenedEach(cfg, items, i + 1, path)
    decreases n
  {
    if n > i + 1 { UnflattenedEachStop(cfg, items, i, n - 1, path); }
  }

  lemma {:induction false} CollectedValuesStop(cfg: Config, props: seq<(string, Json)>, i: nat, n: nat, path: string)
    requires i < n <= |props|
    requires CollectedValues(cfg, props, i + 1, path).Err?
    ensures CollectedValues(cfg, props, n, path) == CollectedValues(cfg, props, i + 1, path)
    decreases n
  {
    if n > i + 1 { CollectedValuesStop(cfg, props, i, n - 1, path); }
  }

  // ------------------------------------------------------------------ folds

  lemma {:induction false} UnflattenedIndicesEach(cfg: Config, items: seq<Json>, names: seq<string>, n: nat, parent: Location)
    requires n <= |items| == |names|
    ensures UnflattenedIndices(cfg, items, names, n, parent).Ok? <==>
              forall i :: 0 <= i < n ==> UnflattenedProperty(cfg, items[i], Extend(parent, names[i])).Ok?
    ensures UnflattenedIndices(cfg, items, names, n, parent).Ok? ==>
              var xs := UnflattenedIndices(cfg, items, names, n, parent).value;
              |xs| == n &&
              forall i :: 0 <= i < n ==> xs[i] == UnflattenedProperty(cfg, items[i], Extend(parent, names[i])).value
    decreases n
  {
    if n > 0 { UnflattenedIndicesEach(cfg, items, names, n - 1, parent); }
  }

  lemma {:induction false} UnflattenedPropsEach(cfg: Config, props: seq<(string, Json)>, n: nat, parent: Location)
    requires n <= |props|
    ensures UnflattenedProps(cfg, props, n, parent).Ok? <==>
              forall i :: 0 <= i < n ==> UnflattenedProperty(cfg, props[i].1, Extend(parent, props[i].0)).Ok?
    ensures UnflattenedProps(cfg, props, n, parent).Ok? ==>
              var ps := UnflattenedProps(cfg, props, n, parent).value;
              |ps| == n &&
              forall i :: 0 <= i < n ==>
                ps[i] == (props[i].0, UnflattenedProperty(cfg, props[i].1, Extend(parent, props[i].0)).value)
    decreases n
  {
    if n > 0 { UnflattenedPropsEach(cfg, props, n - 1, parent); }
  }

  lemma {:induction false} UnflattenedEachEach(cfg: Config, items: seq<Json>, n: nat, path: string)
    requires n <= |items|
    ensures UnflattenedEach(cfg, items, n, path).Ok? <==>
              forall i :: 0 <= i < n ==> Unflattened(cfg, items[i], Some(path)).Ok?
    ensures UnflattenedEach(cfg, items, n, path).Ok? ==>
              var xs := UnflattenedEach(cfg, items, n, path).value;
              |xs| == n && forall i :: 0 <= i < n ==> xs[i] == Unflattened(cfg, items[i], Some(path)).value
    decreases n
  {
    if n > 0 { UnflattenedEachEach(cfg, items, n - 1, path); }
  }

  lemma {:induction false} CollectedValuesEach(cfg: Config, props: seq<(string, Json)>, n: nat, path: string)
    requires n <= |props|
    ensures CollectedValues(cfg, props, n, path).Ok? <==>
              forall i :: 0 <= i < n ==> Unflattened(cfg, props[i].1, Some(path)).Ok?
    ensures CollectedValues(cfg, props, n, path).Ok? ==>
              var xs := CollectedValues(cfg, props, n, path).value;
              |xs| == n && forall i :: 0 <= i < n ==> xs[i] == Unflattened(cfg, props[i].1, Some(path)).value
    decreases n
  {
    if n > 0 { CollectedValuesEach(cfg, props, n - 1, path); }
  }

  // ------------------------------------------------------- keyed properties

  /**
   * A property at a keyed path becomes the list of its mapping's values, in
   * iteration order, each unflattened with that path as parent; a null there
   * makes `Object.keys` throw.
   */
  lemma UnflattenKeyedProperty(cfg: Config, props: seq<(string, Json)>, path: string)
    requires KeyField(cfg, Some(path)) != ""
    ensures UnflattenedProperty(cfg, JObj(props), path).Ok? <==>
              forall i :: 0 <= i < |props| ==> Unflattened(cfg, props[i].1, Some(path)).Ok?
    ensures var r := UnflattenedProperty(cfg, JObj(props), path);
            r.Ok? ==>
              && r.value.JArr?
              && |r.value.items| == |props|
              && forall i :: 0 <= i < |props| ==> r.value.items[i] == Unflattened(cfg, props[i].1, Some(path)).value
    ensures UnflattenedProperty(cfg, JNull, path) == Err(NullKeys(path))
  {
    CollectedValuesEach(cfg, props, |props|, path);
  }

  /** A list already at a keyed path is collected element by element, keeping length and order. */
  lemma UnflattenKeyedList(cfg: Config, items: seq<Json>, path: string)
    requires KeyField(cfg, Some(path)) != ""
    ensures UnflattenedProperty(cfg, JArr(items), path).Ok? <==>
              forall i :: 0 <= i < |items| ==> Unflattened(cfg, items[i], Some(path)).Ok?
    ensures var r := UnflattenedProperty(cfg, JArr(items), path);
            r.Ok? ==>
              && r.value.JArr?
              && |r.value.items| == |items|
              && forall i :: 0 <= i < |items| ==> r.value.items[i] == Unflattened(cfg, items[i], Some(path)).value
  {
    UnflattenedEachEach(cfg, items, |items|, path);
  }

  // ------------------------------------------------ everything else

  /** An array property at an unkeyed path keeps its length and order; each element is unflattened at the path. */
  lemma UnflattenUnkeyedArray(cfg: Config, items: seq<Json>, path: string)
    requires KeyField(cfg, Some(path)) == ""
    ensures UnflattenedProperty(cfg, JArr(items), path).Ok? <==>
              forall i :: 0 <= i < |items| ==> Unflattened(cfg, items[i], Some(path)).Ok?
    ensures var r := UnflattenedProperty(cfg, JArr(items), path);
            r.Ok? ==>
              && r.value.JArr?
              && |r.value.items| == |items|
              && forall i :: 0 <= i < |items| ==> r.value.items[i] == Unflattened(cfg, items[i], Some(path)).value
  {
    UnflattenedEachEach(cfg, items, |items|, path);
  }

  /**
   * `for..in` over an array visits its indices: the array keeps its length
   * and order, and the element at index i is a property at `parent.i`.
   */
  lemma UnflattenArray(cfg: Config, items: seq<Json>, parent: Location)
    ensures Unflattened(cfg, JArr(items), parent).Ok? <==>
              forall i :: 0 <= i < |items| ==> UnflattenedProperty(cfg, items[i], Extend(parent, NatToDecimal(i))).Ok?
    ensures var r := Unflattened(cfg, JArr(items), parent);
            r.Ok? ==>
              && r.value.JArr?
              && |r.value.items| == |items|
              && forall i :: 0 <= i < |items| ==>
                   r.value.items[i] == UnflattenedProperty(cfg, items[i], Extend(parent, NatToDecimal(i))).value
  {
    UnflattenedIndicesEach(cfg, items, IndexNames(|items|), |items|, parent);
  }

  /** An object keeps exactly its property names, in order; each value is rewritten as a property at `parent.name`. */
  lemma UnflattenObject(cfg: Config, props: seq<(string, Json)>, parent: Location)
    ensures Unflattened(cfg, JObj(props), parent).Ok? <==>
              forall i :: 0 <= i < |props| ==> UnflattenedProperty(cfg, props[i].1, Extend(parent, props[i].0)).Ok?
    ensures var r := Unflattened(cfg, JObj(props), parent);
            r.Ok? ==>
              && r.value.JObj?
              && |r.value.props| == |props|
              && forall i :: 0 <= i < |props| ==>
                   && r.value.props[i].0 == props[i].0
                   && r.value.props[i].1 == UnflattenedProperty(cfg, props[i].1, Extend(parent, props[i].0)).value
  {
    UnflattenedPropsEach(cfg, props, |props|, parent);
  }

  /**
   * Scalars, null and Dates are returned as they are, and at an unkeyed path
   * a string (a date string in particular) is never turned back into a Date.
   */
  lemma UnflattenScalar(cfg: Config, v: Json, parent: Location, path: string)
    requires !v.JArr? && !v.JObj?
    ensures Unflattened(cfg, v, parent) == Ok(v)
    ensures KeyField(cfg, Some(path)) == "" ==> UnflattenedProperty(cfg, v, path) == Ok(v)
  {
  }

  // ------------------------------------------------------------ whole documents

  /** No keyed path of the document holds null. */
  ghost predicate Unflattenable(cfg: Config, v: Json, parent: Location)
    decreases v, 1
  {
    match v
    case JArr(items) =>
      forall i :: 0 <= i < |items| ==> PropertyUnflattenable(cfg, items[i], Extend(parent, NatToDecimal(i)))
    case JObj(props) =>
      forall i :: 0 <= i < |props| ==> PropertyUnflattenable(cfg, props[i].1, Extend(parent, props[i].0))
    case _ => true
  }

  ghost predicate PropertyUnflattenable(cfg: Config, val: Json, path: string)
    decreases val, 2
  {
    && (KeyField(cfg, Some(path)) != "" ==> !val.JNull?)
    && match val
       case JArr(items) => forall i :: 0 <= i < |items| ==> Unflattenable(cfg, items[i], Some(path))
       case JObj(props) =>
         if KeyField(cfg, Some(path)) != "" then
           forall i :: 0 <= i < |props| ==> Unflattenable(cfg, props[i].1, Some(path))
         else Unflattenable(cfg, val, Some(path))
       case _ => true
  }

  /** unflatten throws exactly when `Object.keys` meets a null at a keyed path. */
  lemma {:induction false} UnflattenSucceedsIff(cfg: Config, v: Json, parent: Location)
    ensures Unflattened(cfg, v, parent).Ok? <==> Unflattenable(cfg, v, parent)
    decreases v, 1
  {
    match v
    case JArr(items) =>
      forall i | 0 <= i < |items| { PropertySucceedsIff(cfg, items[i], Extend(parent, NatToDecimal(i))); }
      UnflattenedIndicesEach(cfg, items, IndexNames(|items|), |items|, parent);
    case JObj(props) =>
      forall i | 0 <= i < |props| { PropertySucceedsIff(cfg, props[i].1, Extend(parent, props[i].0)); }
      UnflattenedPropsEach(cfg, props, |props|, parent);
    case _ =>
  }

  lemma {:induction false} PropertySucceedsIff(cfg: Config, val: Json, path: string)
    ensures UnflattenedProperty(cfg, val, path).Ok? <==> PropertyUnflattenable(cfg, val, path)
    decreases val, 2
  {
    match val
    case JArr(items) =>
      forall i | 0 <= i < |items| { UnflattenSucceedsIff(cfg, items[i], Some(path)); }
      UnflattenedEachEach(cfg, items, |items|, path);
    case JObj(props) =>
      if KeyField(cfg, Some(path)) != "" {
        forall i | 0 <= i < |props| { UnflattenSucceedsIff(cfg, props[i].1, Some(path)); }
        CollectedValuesEach(cfg, props, |props|, path);
      } else {
        UnflattenSucceedsIff(cfg, val, Some(path));
      }
    case _ =>
  }

  /** Unflattening keeps every object's property names distinct. */
  lemma {:induction false} UnflattenKeepsWellFormed(cfg: Config, v: Json, parent: Location)
    requires WellFormed(v)
    requires Unflattened(cfg, v, parent).Ok?
    ensures WellFormed(Unflattened(cfg, v, parent).value)
    decreases v, 1
  {
    match v
    case JArr(items) =>
      UnflattenedIndicesEach(cfg, items, IndexNames(|items|), |items|, parent);
      forall i | 0 <= i < |items| { PropertyKeepsWellFormed(cfg, items[i], Extend(parent, NatToDecimal(i))); }
    case JObj(props) =>
      UnflattenedPropsEach(cfg, props, |props|, parent);
      var ps := Unflattened(cfg, v, parent).value.props;
      forall i | 0 <= i < |props| { PropertyKeepsWellFormed(cfg, props[i].1, Extend(parent, props[i].0)); }
      assert Names(ps) == Names(props) by {
        forall k | k in Names(ps) ensures k in Names(props) { var i :| 0 <= i < |ps| && ps[i].0 == k; }
        forall k | k in Names(props) ensures k in Names(ps) { var i :| 0 <= i < |props| && props[i].0 == k; }
      }
    case _ =>
  }

  lemma {:induction false} PropertyKeepsWellFormed(cfg: Config, val: Json, path: string)
    requires WellFormed(val)
    requires UnflattenedProperty(cfg, val, path).Ok?
    ensures WellFormed(UnflattenedProperty(cfg, val, path).value)
    decreases val, 2
  {
    match val
    case JArr(items) =>
      UnflattenedEachEach(cfg, items, |items|, path);
      forall i | 0 <= i < |items| { UnflattenKeepsWellFormed(cfg, items[i], Some(path)); }
    case JObj(props) =>
      if KeyField(cfg, Some(path)) != "" {
        CollectedValuesEach(cfg, props, |props|, path);
        forall i | 0 <= i < |props| { UnflattenKeepsWellFormed(cfg, props[i].1, Some(path)); }
      } else {
        UnflattenKeepsWellFormed(cfg, val, Some(path));
      }
    case _ =>
  }
}
