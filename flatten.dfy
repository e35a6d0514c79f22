/**
 * The canonicaliser: `flatten` as a function of the configuration, the date
 * library, the document and the current dotted location. Keyed collections
 * become mappings from key to flattened element; every other array and
 * object is flattened in place; Date properties become ISO strings.
 */
module Canonical {
  import opened JsonModel

  /**
   * The name an element of a keyed collection is filed under: the element's
   * own property `field` written as its ISO string when it is a Date and by
   * `${...}` otherwise, or "undefined" when the element has no such property.
   */
  function KeyName(lib: DateLib, item: Json, field: string): string {
    match Member(item, field)
    case None => "undefined"
    case Some(JDate(t)) => lib.isoString(t)
    case Some(x) => Coerce(lib, x)
  }

  /** `item[field]` throws when the element is null. */
  function KeyOf(lib: DateLib, item: Json, field: string): Result<string> {
    if item.JNull? then Err(NullPropertyRead(field)) else Ok(KeyName(lib, item, field))
  }

  function Flattened(cfg: Config, lib: DateLib, v: Json, loc: Location): Result<Json>
    decreases v, 1
  {
    match v
    case JArr(items) =>
      var field := KeyField(cfg, loc);
      if field != "" then
        var memo :- KeyedMemo(cfg, lib, items, |items|, loc, field);
        Ok(JObj(memo))
      else
        var xs :- FlattenedElements(cfg, lib, items, |items|, loc);
        Ok(JArr(xs))
    case JObj(props) =>
      var ps :- FlattenedProps(cfg, lib, props, |props|, loc);
      Ok(JObj(ps))
    case _ => Ok(v)
  }

  /** The `reduce` accumulator after the first n elements of a keyed collection. */
  function KeyedMemo(cfg: Config, lib: DateLib, items: seq<Json>, n: nat, loc: Location, field: string)
    : Result<seq<(string, Json)>>
    requires n <= |items|
    decreases JArr(items), 0, n
  {
    if n == 0 then Ok([])
    else
      var memo :- KeyedMemo(cfg, lib, items, n - 1, loc, field);
      var key :- KeyOf(lib, items[n - 1], field);
      var f :- Flattened(cfg, lib, items[n - 1], loc);
      Ok(Put(memo, key, f))
  }

  /** The first n elements of an unkeyed array, each flattened at the array's own location. */
  function FlattenedElements(cfg: Config, lib: DateLib, items: seq<Json>, n: nat, loc: Location)
    : Result<seq<Json>>
    requires n <= |items|
    decreases JArr(items), 0, n
  {
    if n == 0 then Ok([])
    else
      var xs :- FlattenedElements(cfg, lib, items, n - 1, loc);
      var f :- Flattened(cfg, lib, items[n - 1], loc);
      Ok(xs + [f])
  }

  /** The first n properties of an object, each flattened below its own name. */
  function FlattenedProps(cfg: Config, lib: DateLib, props: seq<(string, Json)>, n: nat, loc: Location)
    : Result<seq<(string, Json)>>
    requires n <= |props|
    decreases JObj(props), 0, n
  {
    if n == 0 then Ok([])
    else
      var ps :- FlattenedProps(cfg, lib, props, n - 1, loc);
      var f :- FlattenedProperty(cfg, lib, props[n - 1].1, Extend(loc, props[n - 1].0));
      Ok(ps + [(props[n - 1].0, f)])
  }

  /** One property value: a Date becomes its ISO string before it is flattened. */
  function FlattenedProperty(cfg: Config, lib: DateLib, val: Json, path: string): Result<Json>
    decreases val, 2
  {
    if val.JDate? then Ok(JStr(lib.isoString(val.t))) else Flattened(cfg, lib, val, Some(path))
  }

  // ------------------------------------------------------------ error paths

  /** Once the `reduce` throws, the whole flatten throws the same error. */
  lemma {:induction false} KeyedMemoStops(cfg: Config, lib: DateLib, items: seq<Json>, i: nat, n: nat, loc: Location, field: string)
    requires i < n <= |items|
    requires KeyedMemo(cfg, lib, items, i + 1, loc, field).Err?
    ensures KeyedMemo(cfg, lib, items, n, loc, field) == KeyedMemo(cfg, lib, items, i + 1, loc, field)
    decreases n
  {
    if n > i + 1 { KeyedMemoStops(cfg, lib, items, i, n - 1, loc, field); }
  }

  /** One step of the `reduce`: the element is filed under its key. */
  lemma KeyedMemoStep(cfg: Config, lib: DateLib, items: seq<Json>, i: nat, loc: Location, field: string,
                      memo: seq<(string, Json)>, f: Json)
    requires i < |items| && !items[i].JNull?
    requires KeyedMemo(cfg, lib, items, i, loc, field) == Ok(memo)
    requires Flattened(cfg, lib, items[i], loc) == Ok(f)
    ensures KeyedMemo(cfg, lib, items, i + 1, loc, field) == Ok(Put(memo, KeyName(lib, items[i], field), f))
  {
    assert KeyOf(lib, items[i], field) == Ok(KeyName(lib, items[i], field));
  }

  lemma {:induction false} FlattenedElementsStop(cfg: Config, lib: DateLib, items: seq<Json>, i: nat, n: nat, loc: Location)
    requires i < n <= |items|
    requires FlattenedElements(cfg, lib, items, i + 1, loc).Err?
    ensures FlattenedElements(cfg, lib, items, n, loc) == FlattenedElements(cfg, lib, items, i + 1, loc)
    decreases n
  {
    if n > i + 1 { FlattenedElementsStop(cfg, lib, items, i, n - 1, loc); }
  }

  lemma {:induction false} FlattenedPropsStop(cfg: Config, lib: DateLib, props: seq<(string, Json)>, i: nat, n: nat, loc: Location)
    requires i < n <= |props|
    requires FlattenedProps(cfg, lib, props, i + 1, loc).Err?
    ensures FlattenedProps(cfg, lib, props, n, loc) == FlattenedProps(cfg, lib, props, i + 1, loc)
    decreases n
  {
    if n > i + 1 { FlattenedPropsStop(cfg, lib, props, i, n - 1, loc); }
  }

  // -------------------------------------------------------- keyed collections

  /**
   * The name an element is filed under: a missing field reads "undefined",
   * a Date its ISO string, a string itself and an integer its numeral.
   */
  lemma KeyNameCases(lib: DateLib, props: seq<(string, Json)>, field: string)
    ensures var k, g := KeyName(lib, JObj(props), field), Get(props, field);
            && (field !in Names(props) ==> k == "undefined")
            && (g.Some? && g.value.JDate? ==> k == lib.isoString(g.value.t))
            && (g.Some? && g.value.JStr? ==> k == g.value.s)
            && (g.Some? && g.value.JNum? ==> k == IntToDecimal(g.value.n))
  {
  }

  /**
   * An array or a string element is filed under its `length` or the element
   * at a numeral index (a character for a string), and under "undefined"
   * for any other field; a boolean, a number or a Date element has no own
   * property at all.
   */
  lemma KeyNameOfListOrString(lib: DateLib, item: Json, field: string)
    requires !item.JObj? && !item.JNull?
    ensures var k := KeyName(lib, item, field);
            && (!item.JArr? && !item.JStr? ==> k == "undefined")
            && ((item.JArr? || item.JStr?) && field == "length" ==>
                  k == IntToDecimal(if item.JArr? then |item.items| else |item.s|))
            && (forall i: nat {:trigger NatToDecimal(i)} :: field == NatToDecimal(i) ==>
                  && (item.JArr? && i < |item.items| ==>
                        k == if item.items[i].JDate? then lib.isoString(item.items[i].t) else Coerce(lib, item.items[i]))
                  && (item.JStr? && i < |item.s| ==> k == [item.s[i]])
                  && ((item.JArr? || item.JStr?) && i >= (if item.JArr? then |item.items| else |item.s|) ==>
                        k == "undefined"))
            && ((item.JArr? || item.JStr?) && field != "length" && IndexOf(field).None? ==> k == "undefined")
  {
    forall i: nat | field == NatToDecimal(i) && (item.JArr? || item.JStr?) {
      MemberAtIndex(item, i);
    }
  }

  /** No two elements of a collection are filed under the same key. */
  predicate DistinctKeys(lib: DateLib, items: seq<Json>, field: string) {
    forall i, j :: 0 <= i < j < |items| ==> KeyName(lib, items[i], field) != KeyName(lib, items[j], field)
  }

  /** No element after element i has its key. */
  predicate LastWithKey(lib: DateLib, items: seq<Json>, field: string, i: nat)
    requires i < |items|
  {
    forall j :: i < j < |items| ==> KeyName(lib, items[j], field) != KeyName(lib, items[i], field)
  }

  /** Some element with a given key is the last one with that key. */
  lemma {:induction false} LastOccurrence(lib: DateLib, items: seq<Json>, field: string, j: nat) returns (i: nat)
    requires j < |items|
    ensures i < |items| && KeyName(lib, items[i], field) == KeyName(lib, items[j], field)
    ensures LastWithKey(lib, items, field, i)
    decreases |items| - j
  {
    if LastWithKey(lib, items, field, j) {
      i := j;
    } else {
      var j' :| j < j' < |items| && KeyName(lib, items[j'], field) == KeyName(lib, items[j], field);
      i := LastOccurrence(lib, items, field, j');
    }
  }

  ghost function ElementKeys(lib: DateLib, items: seq<Json>, field: string): (ks: seq<string>)
    ensures |ks| == |items| && forall i :: 0 <= i < |items| ==> ks[i] == KeyName(lib, items[i], field)
  {
    seq(|items|, i requires 0 <= i < |items| => KeyName(lib, items[i], field))
  }

  ghost function FlattenedValues(cfg: Config, lib: DateLib, items: seq<Json>, loc: Location): (fs: seq<Json>)
    requires forall i :: 0 <= i < |items| ==> Flattened(cfg, lib, items[i], loc).Ok?
    ensures |fs| == |items| && forall i :: 0 <= i < |items| ==> fs[i] == Flattened(cfg, lib, items[i], loc).value
  {
    seq(|items|, i requires 0 <= i < |items| => Flattened(cfg, lib, items[i], loc).value)
  }

  /** The `reduce` succeeds exactly when every element has a key and flattens. */
  lemma {:induction false} KeyedMemoOk(cfg: Config, lib: DateLib, items: seq<Json>, n: nat, loc: Location, field: string)
    requires n <= |items|
    ensures KeyedMemo(cfg, lib, items, n, loc, field).Ok? <==>
              forall i :: 0 <= i < n ==> !items[i].JNull? && Flattened(cfg, lib, items[i], loc).Ok?
    decreases n
  {
    if n > 0 { KeyedMemoOk(cfg, lib, items, n - 1, loc, field); }
  }

  /** When it succeeds, the `reduce` assigns each element under its key in turn. */
  lemma {:induction false} KeyedMemoIsPutEach(cfg: Config, lib: DateLib, items: seq<Json>, n: nat, loc: Location, field: string)
    requires n <= |items|
    requires forall i :: 0 <= i < |items| ==> !items[i].JNull? && Flattened(cfg, lib, items[i], loc).Ok?
    ensures KeyedMemo(cfg, lib, items, n, loc, field) ==
            Ok(PutEach(ElementKeys(lib, items, field), FlattenedValues(cfg, lib, items, loc), n))
    decreases n
  {
    if n > 0 {
      KeyedMemoIsPutEach(cfg, lib, items, n - 1, loc, field);
      var ks, fs := ElementKeys(lib, items, field), FlattenedValues(cfg, lib, items, loc);
      assert KeyOf(lib, items[n - 1], field) == Ok(ks[n - 1]);
      assert Flattened(cfg, lib, items[n - 1], loc) == Ok(fs[n - 1]);
    }
  }

  /**
   * Flattening a keyed collection yields a mapping whose names are exactly
   * the elements' keys, each named once and holding the flattened element
   * that supplied it (the later one when two share a key); with distinct
   * keys the mapping lists the elements in collection order. It throws
   * exactly when an element is null or does not flatten.
   */
  lemma FlattenKeyedCollection(cfg: Config, lib: DateLib, items: seq<Json>, loc: Location)
    requires KeyField(cfg, loc) != ""
    ensures Flattened(cfg, lib, JArr(items), loc).Ok? <==>
              forall i :: 0 <= i < |items| ==> !items[i].JNull? && Flattened(cfg, lib, items[i], loc).Ok?
    ensures var field := KeyField(cfg, loc);
            var r := Flattened(cfg, lib, JArr(items), loc);
            r.Ok? ==>
              && r.value.JObj?
              && DistinctNames(r.value.props)
              && (forall k :: k in Names(r.value.props) <==>
                    exists i :: 0 <= i < |items| && KeyName(lib, items[i], field) == k)
              && (forall i :: 0 <= i < |items| && LastWithKey(lib, items, field, i) ==>
                    Get(r.value.props, KeyName(lib, items[i], field)) == Some(Flattened(cfg, lib, items[i], loc).value))
              && (DistinctKeys(lib, items, field) ==>
                    && |r.value.props| == |items|
                    && forall i :: 0 <= i < |items| ==>
                         r.value.props[i] == (KeyName(lib, items[i], field), Flattened(cfg, lib, items[i], loc).value))
  {
    var field := KeyField(cfg, loc);
    KeyedMemoOk(cfg, lib, items, |items|, loc, field);
    if Flattened(cfg, lib, JArr(items), loc).Ok? {
      var ks := ElementKeys(lib, items, field);
      var fs := FlattenedValues(cfg, lib, items, loc);
      KeyedMemoIsPutEach(cfg, lib, items, |items|, loc, field);
      var memo := PutEach(ks, fs, |items|);
      assert Flattened(cfg, lib, JArr(items), loc) == Ok(JObj(memo));
      PutEachNames(ks, fs, |items|);
      PutEachDistinct(ks, fs, |items|);
      forall k ensures k in Names(memo) <==> exists i :: 0 <= i < |items| && KeyName(lib, items[i], field) == k {
        if k in Names(memo) {
          var i :| 0 <= i < |items| && ks[i] == k;
        }
        if exists i :: 0 <= i < |items| && KeyName(lib, items[i], field) == k {
          var i :| 0 <= i < |items| && KeyName(lib, items[i], field) == k;
          assert ks[i] == k;
        }
      }
      forall i | 0 <= i < |items| && LastWithKey(lib, items, field, i)
        ensures Get(memo, KeyName(lib, items[i], field)) == Some(Flattened(cfg, lib, items[i], loc).value)
      {
        PutEachLast(ks, fs, |items|, i);
      }
      if DistinctKeys(lib, items, field) {
        FlattenKeyedDistinct(cfg, lib, items, loc);
      }
    }
  }

  /** With distinct keys a flattened collection lists its elements once each, in order. */
  lemma FlattenKeyedDistinct(cfg: Config, lib: DateLib, items: seq<Json>, loc: Location)
    requires KeyField(cfg, loc) != ""
    requires DistinctKeys(lib, items, KeyField(cfg, loc))
    requires Flattened(cfg, lib, JArr(items), loc).Ok?
    ensures forall i :: 0 <= i < |items| ==> Flattened(cfg, lib, items[i], loc).Ok?
    ensures var r := Flattened(cfg, lib, JArr(items), loc).value;
            && r.JObj?
            && DistinctNames(r.props)
            && |r.props| == |items|
            && forall i :: 0 <= i < |items| ==>
                 r.props[i] == (KeyName(lib, items[i], KeyField(cfg, loc)), Flattened(cfg, lib, items[i], loc).value)
  {
    var field := KeyField(cfg, loc);
    KeyedMemoOk(cfg, lib, items, |items|, loc, field);
    var ks := ElementKeys(lib, items, field);
    var fs := FlattenedValues(cfg, lib, items, loc);
    KeyedMemoIsPutEach(cfg, lib, items, |items|, loc, field);
    PutEachNames(ks, fs, |items|);
    PutEachDistinct(ks, fs, |items|);
    PutEachInOrder(ks, fs, |items|);
  }

  /**
   * Reordering a keyed collection whose keys are distinct does not change
   * its flattened mapping, as a map from key to element.
   */
  lemma FlattenKeyedPermutation(cfg: Config, lib: DateLib, items: seq<Json>, perm: seq<Json>, loc: Location)
    requires KeyField(cfg, loc) != ""
    requires forall x :: x in items <==> x in perm
    requires DistinctKeys(lib, items, KeyField(cfg, loc)) && DistinctKeys(lib, perm, KeyField(cfg, loc))
    requires Flattened(cfg, lib, JArr(items), loc).Ok?
    ensures Flattened(cfg, lib, JArr(perm), loc).Ok?
    ensures Flattened(cfg, lib, JArr(items), loc).value.JObj?
    ensures Flattened(cfg, lib, JArr(perm), loc).value.JObj?
    ensures AsMap(Flattened(cfg, lib, JArr(items), loc).value.props) ==
            AsMap(Flattened(cfg, lib, JArr(perm), loc).value.props)
  {
    var field := KeyField(cfg, loc);
    KeyedMemoOk(cfg, lib, items, |items|, loc, field);
    KeyedMemoOk(cfg, lib, perm, |perm|, loc, field);
    assert forall j :: 0 <= j < |perm| ==> perm[j] in items;
    FlattenKeyedDistinct(cfg, lib, items, loc);
    FlattenKeyedDistinct(cfg, lib, perm, loc);
    KeyedEntriesIncluded(cfg, lib, items, perm, loc);
    KeyedEntriesIncluded(cfg, lib, perm, items, loc);
    SameEntriesSameMap(Flattened(cfg, lib, JArr(items), loc).value.props, Flattened(cfg, lib, JArr(perm), loc).value.props);
  }

  /** Every entry of the mapping of a collection is an entry of the mapping of a collection holding its elements. */
  lemma KeyedEntriesIncluded(cfg: Config, lib: DateLib, items: seq<Json>, other: seq<Json>, loc: Location)
    requires KeyField(cfg, loc) != ""
    requires forall x :: x in items ==> x in other
    requires DistinctKeys(lib, items, KeyField(cfg, loc)) && DistinctKeys(lib, other, KeyField(cfg, loc))
    requires Flattened(cfg, lib, JArr(items), loc).Ok? && Flattened(cfg, lib, JArr(other), loc).Ok?
    ensures forall e :: e in Flattened(cfg, lib, JArr(items), loc).value.props ==>
              e in Flattened(cfg, lib, JArr(other), loc).value.props
  {
    FlattenKeyedDistinct(cfg, lib, items, loc);
    FlattenKeyedDistinct(cfg, lib, other, loc);
    var m1 := Flattened(cfg, lib, JArr(items), loc).value.props;
    var m2 := Flattened(cfg, lib, JArr(other), loc).value.props;
    forall e | e in m1 ensures e in m2 {
      var i :| 0 <= i < |m1| && m1[i] == e;
      assert items[i] in other;
      var j :| 0 <= j < |other| && other[j] == items[i];
      assert m2[j] == e;
    }
  }

  // ------------------------------------------------ unkeyed arrays and objects

  lemma {:induction false} FlattenedElementsEach(cfg: Config, lib: DateLib, items: seq<Json>, n: nat, loc: Location)
    requires n <= |items|
    ensures FlattenedElements(cfg, lib, items, n, loc).Ok? <==>
              forall i :: 0 <= i < n ==> Flattened(cfg, lib, items[i], loc).Ok?
    ensures FlattenedElements(cfg, lib, items, n, loc).Ok? ==>
              var xs := FlattenedElements(cfg, lib, items, n, loc).value;
              |xs| == n && forall i :: 0 <= i < n ==> xs[i] == Flattened(cfg, lib, items[i], loc).value
    decreases n
  {
    if n > 0 { FlattenedElementsEach(cfg, lib, items, n - 1, loc); }
  }

  /**
   * An array at a location with no key spec keeps its length and order, and
   * each element is flattened at the array's own location.
   */
  lemma FlattenUnkeyedArray(cfg: Config, lib: DateLib, items: seq<Json>, loc: Location)
    requires KeyField(cfg, loc) == ""
    ensures Flattened(cfg, lib, JArr(items), loc).Ok? <==>
              forall i :: 0 <= i < |items| ==> Flattened(cfg, lib, items[i], loc).Ok?
    ensures var r := Flattened(cfg, lib, JArr(items), loc);
            r.Ok? ==>
              && r.value.JArr?
              && |r.value.items| == |items|
              && forall i :: 0 <= i < |items| ==> r.value.items[i] == Flattened(cfg, lib, items[i], loc).value
  {
    FlattenedElementsEach(cfg, lib, items, |items|, loc);
  }

  lemma {:induction false} FlattenedPropsEach(cfg: Config, lib: DateLib, props: seq<(string, Json)>, n: nat, loc: Location)
    requires n <= |props|
    ensures FlattenedProps(cfg, lib, props, n, loc).Ok? <==>
              forall i :: 0 <= i < n ==> FlattenedProperty(cfg, lib, props[i].1, Extend(loc, props[i].0)).Ok?
    ensures FlattenedProps(cfg, lib, props, n, loc).Ok? ==>
              var ps := FlattenedProps(cfg, lib, props, n, loc).value;
              |ps| == n &&
              forall i :: 0 <= i < n ==>
                ps[i] == (props[i].0, FlattenedProperty(cfg, lib, props[i].1, Extend(loc, props[i].0)).value)
    decreases n
  {
    if n > 0 { FlattenedPropsEach(cfg, lib, props, n - 1, loc); }
  }

  /**
   * An object keeps exactly its property names, in order, and each value is
   * flattened at `loc.name` (at `name` at the root), a Date value becoming
   * its ISO string.
   */
  lemma FlattenObject(cfg: Config, lib: DateLib, props: seq<(string, Json)>, loc: Location)
    ensures Flattened(cfg, lib, JObj(props), loc).Ok? <==>
              forall i :: 0 <= i < |props| ==> FlattenedProperty(cfg, lib, props[i].1, Extend(loc, props[i].0)).Ok?
    ensures var r := Flattened(cfg, lib, JObj(props), loc);
            r.Ok? ==>
              && r.value.JObj?
              && |r.value.props| == |props|
              && forall i :: 0 <= i < |props| ==>
                   && r.value.props[i].0 == props[i].0
                   && r.value.props[i].1 == FlattenedProperty(cfg, lib, props[i].1, Extend(loc, props[i].0)).value
    ensures forall i :: 0 <= i < |props| && props[i].1.JDate? ==>
              FlattenedProperty(cfg, lib, props[i].1, Extend(loc, props[i].0)) == Ok(JStr(lib.isoString(props[i].1.t)))
  {
    FlattenedPropsEach(cfg, lib, props, |props|, loc);
  }

  lemma {:induction false} FlattenedPropsAgree(cfg: Config, lib: DateLib, p: seq<(string, Json)>, q: seq<(string, Json)>, n: nat, loc: Location)
    requires n <= |p| && n <= |q|
    requires forall i :: 0 <= i < n ==>
               p[i].0 == q[i].0 &&
               FlattenedProperty(cfg, lib, p[i].1, Extend(loc, p[i].0)) == FlattenedProperty(cfg, lib, q[i].1, Extend(loc, q[i].0))
    ensures FlattenedProps(cfg, lib, p, n, loc) == FlattenedProps(cfg, lib, q, n, loc)
    decreases n
  {
    if n > 0 { FlattenedPropsAgree(cfg, lib, p, q, n - 1, loc); }
  }

  /** Scalars, null and Dates outside an object are returned unchanged. */
  lemma FlattenScalar(cfg: Config, lib: DateLib, v: Json, loc: Location)
    requires !v.JArr? && !v.JObj?
    ensures Flattened(cfg, lib, v, loc) == Ok(v)
  {
  }

  /**
   * A Date property and its ISO string flatten alike, so two documents that
   * differ only in how a date property is held compare equal.
   */
  lemma FlattenDatePropertyAsIso(cfg: Config, lib: DateLib, props: seq<(string, Json)>, i: nat, loc: Location)
    requires i < |props| && props[i].1.JDate?
    ensures Flattened(cfg, lib, JObj(props[i := (props[i].0, JStr(lib.isoString(props[i].1.t)))]), loc) ==
            Flattened(cfg, lib, JObj(props), loc)
  {
    var q := props[i := (props[i].0, JStr(lib.isoString(props[i].1.t)))];
    FlattenedPropsAgree(cfg, lib, q, props, |props|, loc);
  }

  // ------------------------------------------------------------ whole documents

  /** A document contains no null element in any keyed collection. */
  ghost predicate Flattenable(cfg: Config, v: Json, loc: Location)
    decreases v
  {
    match v
    case JArr(items) =>
      forall i :: 0 <= i < |items| ==>
        (KeyField(cfg, loc) != "" ==> !items[i].JNull?) && Flattenable(cfg, items[i], loc)
    case JObj(props) =>
      forall i :: 0 <= i < |props| ==> Flattenable(cfg, props[i].1, Some(Extend(loc, props[i].0)))
    case _ => true
  }

  /** flatten throws exactly when a keyed collection somewhere holds a null element. */
  lemma {:induction false} FlattenSucceedsIff(cfg: Config, lib: DateLib, v: Json, loc: Location)
    ensures Flattened(cfg, lib, v, loc).Ok? <==> Flattenable(cfg, v, loc)
    decreases v
  {
    match v
    case JArr(items) =>
      forall i | 0 <= i < |items| { FlattenSucceedsIff(cfg, lib, items[i], loc); }
      if KeyField(cfg, loc) != "" {
        KeyedMemoOk(cfg, lib, items, |items|, loc, KeyField(cfg, loc));
      } else {
        FlattenedElementsEach(cfg, lib, items, |items|, loc);
      }
    case JObj(props) =>
      forall i | 0 <= i < |props| { FlattenSucceedsIff(cfg, lib, props[i].1, Some(Extend(loc, props[i].0))); }
      FlattenedPropsEach(cfg, lib, props, |props|, loc);
    case _ =>
  }

  /** Flattening keeps every object's property names distinct. */
  lemma {:induction false} FlattenKeepsWellFormed(cfg: Config, lib: DateLib, v: Json, loc: Location)
    requires WellFormed(v)
    requires Flattened(cfg, lib, v, loc).Ok?
    ensures WellFormed(Flattened(cfg, lib, v, loc).value)
    decreases v, 1
  {
    match v
    case JArr(items) =>
      if KeyField(cfg, loc) != "" {
        FlattenKeyedKeepsWellFormed(cfg, lib, items, loc);
      } else {
        FlattenedElementsEach(cfg, lib, items, |items|, loc);
        forall i | 0 <= i < |items| { FlattenKeepsWellFormed(cfg, lib, items[i], loc); }
      }
    case JObj(props) =>
      FlattenedPropsEach(cfg, lib, props, |props|, loc);
      forall i | 0 <= i < |props| && !props[i].1.JDate? {
        FlattenKeepsWellFormed(cfg, lib, props[i].1, Some(Extend(loc, props[i].0)));
      }
    case _ =>
  }

  lemma {:induction false} FlattenKeyedKeepsWellFormed(cfg: Config, lib: DateLib, items: seq<Json>, loc: Location)
    requires KeyField(cfg, loc) != ""
    requires WellFormed(JArr(items))
    requires Flattened(cfg, lib, JArr(items), loc).Ok?
    ensures WellFormed(Flattened(cfg, lib, JArr(items), loc).value)
    decreases JArr(items), 0
  {
    var field := KeyField(cfg, loc);
    FlattenKeyedCollection(cfg, lib, items, loc);
    var memo := Flattened(cfg, lib, JArr(items), loc).value.props;
    forall i | 0 <= i < |memo| ensures WellFormed(memo[i].1) {
      var k := memo[i].0;
      assert k in Names(memo);
      var j0: nat :| j0 < |items| && KeyName(lib, items[j0], field) == k;
      var j := LastOccurrence(lib, items, field, j0);
      assert items[j] < JArr(items) by { assert items[j] in items; }
      FlattenKeepsWellFormed(cfg, lib, items[j], loc);
      assert Get(memo, k) == Some(memo[i].1) by { GetDistinct(memo, i); }
    }
  }
}
