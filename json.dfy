/**
 * The value model shared by every transform of the recombobulator: JSON-like
 * documents, the per-path collection configuration, dotted paths, the dates
 * library and JavaScript's string coercion of key values.
 */
module JsonModel {

  datatype Option<+T> = None | Some(value: T)

  /** Why a transform threw. */
  datatype Failure =
    | NullPropertyRead(field: string)  // `item[key]` on a null collection element
    | NullKeys(path: string)           // `Object.keys(null)` for a keyed property
    | PatchRejected(reason: string)    // raised by the patch library

  datatype Result<+T> = Ok(value: T) | Err(error: Failure) {
    predicate IsFailure() { Err? }
    function PropagateFailure<U>(): Result<U> requires Err? { Err(error) }
    function Extract(): T requires Ok? { value }
  }

  /** Milliseconds since the epoch, the time value a JavaScript Date holds. */
  type Instant = int

  /**
   * A document. An object is the list of its own enumerable properties in
   * iteration order; a JavaScript object never holds a name twice, which
   * WellFormed states.
   */
  datatype Json =
    | JNull
    | JBool(b: bool)
    | JNum(n: int)
    | JStr(s: string)
    | JDate(t: Instant)
    | JArr(items: seq<Json>)
    | JObj(props: seq<(string, Json)>)

  /** JavaScript truthiness, as in `options.db || userOld`. */
  predicate Truthy(v: Json) {
    match v
    case JNull => false
    case JBool(b) => b
    case JNum(n) => n != 0
    case JStr(s) => s != ""
    case _ => true
  }

  // ---------------------------------------------------------------- properties

  function Names(props: seq<(string, Json)>): set<string> {
    set i | 0 <= i < |props| :: props[i].0
  }

  predicate DistinctNames(props: seq<(string, Json)>) {
    forall i, j :: 0 <= i < j < |props| ==> props[i].0 != props[j].0
  }

  /** `obj[name]` for an own property: the first entry with that name. */
  function Get(props: seq<(string, Json)>, name: string): (r: Option<Json>)
    ensures r.Some? <==> name in Names(props)
    ensures r.Some? ==> (name, r.value) in props
  {
    if props == [] then None
    else if props[0].0 == name then Some(props[0].1)
    else Get(props[1..], name)
  }

  /**
   * `v[name]` for an own property of a document: an object's named
   * property, and the `length` and the elements (an array's, or a string's
   * characters) at the indices of arrays and strings. Every other value has
   * no own property.
   */
  function Member(v: Json, name: string): Option<Json> {
    match v
    case JObj(props) => Get(props, name)
    case JArr(items) =>
      if name == "length" then Some(JNum(|items|))
      else
        var i := IndexOf(name);
        if i.Some? && i.value < |items| then Some(items[i.value]) else None
    case JStr(s) =>
      if name == "length" then Some(JNum(|s|))
      else
        var i := IndexOf(name);
        if i.Some? && i.value < |s| then Some(JStr([s[i.value]])) else None
    case _ => None
  }

  /** Element i of an array or a string is its property named by i's numeral; no other numeral names one. */
  lemma MemberAtIndex(v: Json, i: nat)
    requires v.JArr? || v.JStr?
    ensures var n := if v.JArr? then |v.items| else |v.s|;
            && (i < n ==> Member(v, NatToDecimal(i)) == Some(if v.JArr? then v.items[i] else JStr([v.s[i]])))
            && (i >= n ==> Member(v, NatToDecimal(i)) == None)
  {
    IndexOfDecimal(NatToDecimal(i), i);
    assert NatToDecimal(i) != "length" by { assert '0' <= NatToDecimal(i)[0] <= '9'; }
  }

  lemma {:induction false} GetDistinct(props: seq<(string, Json)>, i: nat)
    requires DistinctNames(props) && i < |props|
    ensures Get(props, props[i].0) == Some(props[i].1)
  {
    if i > 0 {
      assert DistinctNames(props[1..]);
      GetDistinct(props[1..], i - 1);
    }
  }

  /** Two objects with the same entries, each naming every property once, are the same map. */
  lemma SameEntriesSameMap(p: seq<(string, Json)>, q: seq<(string, Json)>)
    requires DistinctNames(p) && DistinctNames(q)
    requires forall e :: e in p <==> e in q
    ensures AsMap(p) == AsMap(q)
  {
    forall k | k in Names(p) ensures k in Names(q) && Get(p, k) == Get(q, k) {
      var i :| 0 <= i < |p| && p[i].0 == k;
      assert p[i] in q;
      var j :| 0 <= j < |q| && q[j] == p[i];
      GetDistinct(p, i);
      GetDistinct(q, j);
    }
    forall k | k in Names(q) ensures k in Names(p) {
      var j :| 0 <= j < |q| && q[j].0 == k;
      assert q[j] in p;
      var i :| 0 <= i < |p| && p[i] == q[j];
    }
  }

  /** The object as a map from name to value; for well-formed objects it loses nothing but order. */
  ghost function AsMap(props: seq<(string, Json)>): (m: map<string, Json>)
    ensures m.Keys == Names(props)
  {
    map k | k in Names(props) :: Get(props, k).value
  }

  /**
   * `memo[name] = v`: an existing property keeps its place and takes the new
   * value, a new one is appended.
   */
  function Put(props: seq<(string, Json)>, name: string, v: Json): (r: seq<(string, Json)>)
    ensures name !in Names(props) ==> r == props + [(name, v)]
  {
    if props == [] then [(name, v)]
    else if props[0].0 == name then [(name, v)] + props[1..]
    else [props[0]] + Put(props[1..], name, v)
  }

  lemma NamesOfPrepend(p: (string, Json), rest: seq<(string, Json)>)
    ensures Names([p] + rest) == {p.0} + Names(rest)
  {
    var r := [p] + rest;
    forall k ensures k in Names(r) <==> k in {p.0} + Names(rest) {
      if k in Names(r) {
        var i :| 0 <= i < |r| && r[i].0 == k;
        if i > 0 { assert rest[i - 1].0 == k; }
      }
      if k in Names(rest) {
        var i :| 0 <= i < |rest| && rest[i].0 == k;
        assert r[i + 1].0 == k;
      }
      if k == p.0 { assert r[0].0 == k; }
    }
  }

  lemma {:induction false} PutNames(props: seq<(string, Json)>, name: string, v: Json)
    ensures Names(Put(props, name, v)) == Names(props) + {name}
  {
    if props != [] {
      assert props == [props[0]] + props[1..];
      NamesOfPrepend(props[0], props[1..]);
      if props[0].0 != name {
        PutNames(props[1..], name, v);
        NamesOfPrepend(props[0], Put(props[1..], name, v));
        assert Put(props, name, v) == [props[0]] + Put(props[1..], name, v);
      } else {
        NamesOfPrepend((name, v), props[1..]);
      }
    } else {
      NamesOfPrepend((name, v), []);
      assert Names([]) == {};
    }
  }

  lemma {:induction false} PutGet(props: seq<(string, Json)>, name: string, v: Json, k: string)
    ensures Get(Put(props, name, v), k) == if k == name then Some(v) else Get(props, k)
  {
    if props != [] && props[0].0 != name {
      PutGet(props[1..], name, v, k);
      assert ([props[0]] + Put(props[1..], name, v))[1..] == Put(props[1..], name, v);
    } else if props != [] {
      assert ([(name, v)] + props[1..])[1..] == props[1..];
    }
  }

  lemma {:induction false} PutDistinct(props: seq<(string, Json)>, name: string, v: Json)
    requires DistinctNames(props)
    ensures DistinctNames(Put(props, name, v))
  {
    if props != [] && props[0].0 != name {
      PutDistinct(props[1..], name, v);
      PutNames(props[1..], name, v);
      var rest := Put(props[1..], name, v);
      assert props[0].0 !in Names(props[1..]);
      assert props[0].0 !in Names(rest);
      var r := [props[0]] + rest;
      forall i, j | 0 <= i < j < |r| ensures r[i].0 != r[j].0 {
        if i == 0 { assert r[j] == rest[j - 1]; }
        else { assert r[i] == rest[i - 1] && r[j] == rest[j - 1]; }
      }
    }
  }

  /** The properties after `memo[names[i]] = vals[i]` for each i < n in turn, starting from `{}`. */
  function PutEach(names: seq<string>, vals: seq<Json>, n: nat): seq<(string, Json)>
    requires n <= |names| && n <= |vals|
  {
    if n == 0 then [] else Put(PutEach(names, vals, n - 1), names[n - 1], vals[n - 1])
  }

  lemma {:induction false} PutEachDistinct(names: seq<string>, vals: seq<Json>, n: nat)
    requires n <= |names| && n <= |vals|
    ensures DistinctNames(PutEach(names, vals, n))
  {
    if n > 0 {
      PutEachDistinct(names, vals, n - 1);
      PutDistinct(PutEach(names, vals, n - 1), names[n - 1], vals[n - 1]);
    }
  }

  lemma {:induction false} PutEachNames(names: seq<string>, vals: seq<Json>, n: nat)
    requires n <= |names| && n <= |vals|
    ensures Names(PutEach(names, vals, n)) == set i | 0 <= i < n :: names[i]
  {
    if n > 0 {
      PutEachNames(names, vals, n - 1);
      PutNames(PutEach(names, vals, n - 1), names[n - 1], vals[n - 1]);
      var before := set i | 0 <= i < n - 1 :: names[i];
      var after := set i | 0 <= i < n :: names[i];
      forall k | k in after ensures k in before + {names[n - 1]} {
        var i :| 0 <= i < n && names[i] == k;
        if i < n - 1 { assert k in before; }
      }
      assert names[n - 1] in after;
      assert after == before + {names[n - 1]};
    }
  }

  /** A name holds the value of its last assignment. */
  lemma {:induction false} PutEachLast(names: seq<string>, vals: seq<Json>, n: nat, i: nat)
    requires i < n <= |names| && n <= |vals|
    requires forall j :: i < j < n ==> names[j] != names[i]
    ensures Get(PutEach(names, vals, n), names[i]) == Some(vals[i])
  {
    PutGet(PutEach(names, vals, n - 1), names[n - 1], vals[n - 1], names[i]);
    if i < n - 1 { PutEachLast(names, vals, n - 1, i); }
  }

  lemma AppendedPairs(prev: seq<(string, Json)>, names: seq<string>, vals: seq<Json>, n: nat)
    requires 0 < n <= |names| && n <= |vals|
    requires |prev| == n - 1 && forall i :: 0 <= i < n - 1 ==> prev[i] == (names[i], vals[i])
    ensures var cur := prev + [(names[n - 1], vals[n - 1])];
            |cur| == n && forall i :: 0 <= i < n ==> cur[i] == (names[i], vals[i])
  {
  }

  lemma PutEachFresh(names: seq<string>, vals: seq<Json>, n: nat)
    requires 0 < n <= |names| && n <= |vals|
    requires forall i :: 0 <= i < n - 1 ==> names[i] != names[n - 1]
    ensures names[n - 1] !in Names(PutEach(names, vals, n - 1))
    ensures PutEach(names, vals, n) == PutEach(names, vals, n - 1) + [(names[n - 1], vals[n - 1])]
  {
    PutEachNames(names, vals, n - 1);
  }

  /** Distinct names are appended one after another. */
  lemma {:induction false} PutEachInOrder(names: seq<string>, vals: seq<Json>, n: nat)
    requires n <= |names| && n <= |vals|
    requires forall i, j :: 0 <= i < j < n ==> names[i] != names[j]
    ensures |PutEach(names, vals, n)| == n
    ensures forall i :: 0 <= i < n ==> PutEach(names, vals, n)[i] == (names[i], vals[i])
  {
    if n > 0 {
      var prev := PutEach(names, vals, n - 1);
      PutEachInOrder(names, vals, n - 1);
      PutEachFresh(names, vals, n);
      AppendedPairs(prev, names, vals, n);
    }
  }

  /** Every object anywhere in the document names each property once. */
  ghost predicate WellFormed(v: Json) {
    match v
    case JArr(items) => forall i :: 0 <= i < |items| ==> WellFormed(items[i])
    case JObj(props) =>
      DistinctNames(props) && forall i :: 0 <= i < |props| ==> WellFormed(props[i].1)
    case _ => true
  }

  // ------------------------------------------------------------- configuration

  /**
   * One entry of `orderIndependentCollections`. The empty key stands for a
   * missing or falsy `key`; `isDate` is the truthiness of the flag.
   */
  datatype CollectionSpec = CollectionSpec(key: string, isDate: bool)

  /** What the JSONPatchRecombobulator constructor stores. */
  datatype Options = Options(orderIndependentCollections: map<string, CollectionSpec>)

  type Config = map<string, CollectionSpec>

  /** A dotted path from the root; None is JavaScript's `undefined` at the root. */
  type Location = Option<string>

  /** The property name a location is looked up under (`obj[undefined]` reads "undefined"). */
  function LookupName(loc: Location): string {
    if loc.None? then "undefined" else loc.value
  }

  /** The key field configured for a location, or "" when the location keys nothing. */
  function KeyField(cfg: Config, loc: Location): (k: string)
    ensures k != "" ==> LookupName(loc) in cfg
  {
    var name := LookupName(loc);
    if name in cfg then cfg[name].key else ""
  }

  predicate IsDatePath(cfg: Config, loc: Location) {
    var name := LookupName(loc);
    name in cfg && cfg[name].isDate
  }

  /** The path of property `name` below `loc`: `loc ? loc + '.' + name : name`. */
  function Extend(loc: Location, name: string): (p: string)
    ensures loc.None? || loc.value == "" ==> p == name
    ensures loc.Some? && loc.value != "" ==> p == loc.value + "." + name
  {
    if loc.Some? && loc.value != "" then loc.value + "." + name else name
  }

  // --------------------------------------------------------------------- dates

  /**
   * The date primitives the source calls: `moment(d).toISOString()`,
   * `String(d)`, `Date.parse(v)` (None for NaN) and `moment(v).toDate()`.
   */
  datatype DateLib = DateLib(
    isoString: Instant -> string,
    text: Instant -> string,
    parse: Json -> Option<int>,
    toDate: Json -> Instant)

  // ---------------------------------------------------------- string coercion

  function Digit(d: nat): char
    requires d < 10
  {
    ('0' as int + d) as char
  }

  function NatToDecimal(n: nat): (s: string)
    ensures |s| > 0
    ensures forall i :: 0 <= i < |s| ==> '0' <= s[i] <= '9'
  {
    if n < 10 then [Digit(n)] else NatToDecimal(n / 10) + [Digit(n % 10)]
  }

  predicate IsDigit(c: char) {
    '0' <= c <= '9'
  }

  /** The number a string of decimal digits denotes. */
  function DigitsValue(s: string): nat
    requires forall i :: 0 <= i < |s| ==> IsDigit(s[i])
  {
    if s == [] then 0
    else DigitsValue(s[..|s| - 1]) * 10 + DigitValue(s[|s| - 1])
  }

  function DigitValue(c: char): (d: nat)
    requires IsDigit(c)
    ensures d < 10 && Digit(d) == c
  {
    c as int - '0' as int
  }

  /**
   * The array index a property name stands for: a decimal numeral with no
   * leading zero ("0", "7", "12", but neither "07" nor "" nor "-1").
   */
  function IndexOf(name: string): Option<nat> {
    if name == [] || (|name| > 1 && name[0] == '0') then None
    else if forall i :: 0 <= i < |name| ==> IsDigit(name[i]) then Some(DigitsValue(name))
    else None
  }

  lemma {:induction false} DigitsValuePositive(s: string)
    requires s != [] && s[0] != '0'
    requires forall i :: 0 <= i < |s| ==> IsDigit(s[i])
    ensures DigitsValue(s) > 0
    decreases |s|
  {
    if |s| > 1 { DigitsValuePositive(s[..|s| - 1]); }
  }

  lemma {:induction false} DecimalOfDigits(s: string)
    requires s != [] && (|s| > 1 ==> s[0] != '0')
    requires forall i :: 0 <= i < |s| ==> IsDigit(s[i])
    ensures NatToDecimal(DigitsValue(s)) == s
    decreases |s|
  {
    var init := s[..|s| - 1];
    if |s| > 1 {
      DecimalOfDigits(init);
      DigitsValuePositive(init);
      assert s == init + [s[|s| - 1]];
    }
  }

  lemma {:induction false} DigitsOfDecimal(n: nat)
    ensures NatToDecimal(n)[0] != '0' || n == 0
    ensures DigitsValue(NatToDecimal(n)) == n
  {
    if n >= 10 {
      DigitsOfDecimal(n / 10);
      var s := NatToDecimal(n);
      assert s[..|s| - 1] == NatToDecimal(n / 10);
    }
  }

  /** A name is the index i exactly when it is how JavaScript writes i. */
  lemma IndexOfDecimal(name: string, i: nat)
    ensures IndexOf(name) == Some(i) <==> name == NatToDecimal(i)
  {
    if IndexOf(name) == Some(i) {
      DecimalOfDigits(name);
    }
    if name == NatToDecimal(i) {
      DigitsOfDecimal(i);
    }
  }

  /** How JavaScript writes an integral number. */
  function IntToDecimal(n: int): string {
    if n < 0 then "-" + NatToDecimal(-n) else NatToDecimal(n)
  }

  /** The template-literal coercion `${v}`. */
  function Coerce(lib: DateLib, v: Json): string
    decreases v, 1
  {
    match v
    case JNull => "null"
    case JBool(b) => if b then "true" else "false"
    case JNum(n) => IntToDecimal(n)
    case JStr(s) => s
    case JDate(t) => lib.text(t)
    case JArr(items) => Join(lib, items, |items|)
    case JObj(_) => "[object Object]"
  }

  /** `items.slice(0, n).join(',')`, where null elements are written as nothing. */
  function Join(lib: DateLib, items: seq<Json>, n: nat): string
    requires n <= |items|
    decreases JArr(items), 0, n
  {
    if n == 0 then ""
    else
      var last := if items[n - 1].JNull? then "" else Coerce(lib, items[n - 1]);
      if n == 1 then last else Join(lib, items, n - 1) + "," + last
  }
}
