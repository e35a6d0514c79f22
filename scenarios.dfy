/**
 * The documents of the library's own flatten tests, flattened and brought
 * back, for any date library.
 */
module Scenarios {
  import opened JsonModel
  import opened Canonical
  import opened Decanonical
  import opened RoundTrip

  /** "collection.nestedCollection", written as the path flatten forms. */
  const InnerPath := Extend(Some("collection"), "nestedCollection")

  const Collections: Config := map["collection" := CollectionSpec("collectionId", false)]
  const NestedCollections: Config := Collections[InnerPath := CollectionSpec("id", false)]

  const Element := JObj([("id", JNum(9)), ("name", JStr("whatever"))])
  const Outer := JObj([("collectionId", JStr("xxx-yyy-zzz")), ("nestedCollection", JArr([Element]))])
  const Nested := JObj([("collection", JArr([Outer]))])

  const FlatOuter := JObj([("collectionId", JStr("xxx-yyy-zzz")), ("nestedCollection", JObj([("9", Element)]))])
  const FlatNested := JObj([("collection", JObj([("xxx-yyy-zzz", FlatOuter)]))])

  /** The element of the inner collection has no collection below it and flattens to itself. */
  lemma FlattenElement(cfg: Config, lib: DateLib)
    requires Extend(Some(InnerPath), "id") !in cfg && Extend(Some(InnerPath), "name") !in cfg
    ensures Flattened(cfg, lib, Element, Some(InnerPath)) == Ok(Element)
  {
    var loc := Some(InnerPath);
    var ps := Element.props;
    assert ps[0] == ("id", JNum(9)) && ps[1] == ("name", JStr("whatever"));
    assert FlattenedProperty(cfg, lib, JNum(9), Extend(loc, "id")) == Ok(JNum(9));
    assert FlattenedProperty(cfg, lib, JStr("whatever"), Extend(loc, "name")) == Ok(JStr("whatever"));
    assert [] + [ps[0]] == [ps[0]];
    assert FlattenedProps(cfg, lib, ps, 1, loc) == Ok([ps[0]]);
    assert FlattenedProps(cfg, lib, ps, 2, loc) == Ok([ps[0]] + [(ps[1].0, ps[1].1)]);
    assert [ps[0]] + [ps[1]] == ps;
  }

  /** `${9}` is "9". */
  lemma ElementKey(lib: DateLib)
    ensures KeyName(lib, Element, "id") == "9"
  {
    assert Get(Element.props, "id") == Some(JNum(9));
    assert NatToDecimal(9) == "9";
  }

  /** The inner collection, keyed on `id`, becomes an object named by the ids. */
  lemma FlattenInner(lib: DateLib)
    ensures Flattened(NestedCollections, lib, JArr([Element]), Some(InnerPath)) == Ok(JObj([("9", Element)]))
  {
    var cfg, loc := NestedCollections, Some(InnerPath);
    FlattenElement(cfg, lib);
    ElementKey(lib);
    assert KeyField(cfg, loc) == "id";
    assert KeyedMemo(cfg, lib, [Element], 1, loc, "id") == Ok(Put([], "9", Element));
  }

  lemma OuterProperties(lib: DateLib)
    ensures var ps, fs := Outer.props, FlatOuter.props;
            && ps[0] == fs[0]
            && ps[1].0 == fs[1].0
            && FlattenedProperty(NestedCollections, lib, ps[0].1, Extend(Some("collection"), ps[0].0)) == Ok(fs[0].1)
            && FlattenedProperty(NestedCollections, lib, ps[1].1, Extend(Some("collection"), ps[1].0)) == Ok(fs[1].1)
  {
    var ps, fs := Outer.props, FlatOuter.props;
    FlattenInner(lib);
    assert ps[0] == fs[0] == ("collectionId", JStr("xxx-yyy-zzz"));
    assert ps[1] == ("nestedCollection", JArr([Element])) && fs[1] == ("nestedCollection", JObj([("9", Element)]));
  }

  /** The outer element: its key is a plain string and its nested collection is flattened below it. */
  lemma FlattenOuter(lib: DateLib)
    ensures Flattened(NestedCollections, lib, Outer, Some("collection")) == Ok(FlatOuter)
  {
    var cfg, loc := NestedCollections, Some("collection");
    var ps, fs := Outer.props, FlatOuter.props;
    OuterProperties(lib);
    FlattenObject(cfg, lib, ps, loc);
    var r := Flattened(cfg, lib, Outer, loc).value;
    assert r.props == fs by {
      assert |r.props| == 2 == |fs|;
      assert r.props[0] == fs[0] && r.props[1] == fs[1];
    }
  }

  /** flatten.js: a keyed collection inside a keyed collection, the number 9 becoming the name "9". */
  lemma FlattenNested(lib: DateLib)
    ensures Flattened(NestedCollections, lib, Nested, None) == Ok(FlatNested)
  {
    var cfg := NestedCollections;
    FlattenOuter(lib);
    assert KeyName(lib, Outer, "collectionId") == "xxx-yyy-zzz" by {
      assert Get(Outer.props, "collectionId") == Some(JStr("xxx-yyy-zzz"));
    }
    assert KeyedMemo(cfg, lib, [Outer], 1, Some("collection"), "collectionId") ==
           Ok(Put([], "xxx-yyy-zzz", FlatOuter));
    assert Flattened(cfg, lib, JArr([Outer]), Some("collection")) == Ok(JObj([("xxx-yyy-zzz", FlatOuter)]));
    var ps, fs := Nested.props, FlatNested.props;
    assert ps[0] == ("collection", JArr([Outer])) && fs[0] == ("collection", JObj([("xxx-yyy-zzz", FlatOuter)]));
    assert Extend(None, "collection") == "collection";
    assert FlattenedProperty(cfg, lib, JArr([Outer]), "collection") == Ok(fs[0].1);
    assert FlattenedProps(cfg, lib, ps, 1, None) == Ok([] + [fs[0]]);
    assert [] + [fs[0]] == fs;
  }

  lemma ElementRestorable(lib: DateLib)
    ensures Restorable(NestedCollections, lib, Element, Some(InnerPath))
  {
    var cfg, leaf := NestedCollections, Some(InnerPath);
    assert RestorableProperty(cfg, lib, JNum(9), Extend(leaf, "id"));
    assert RestorableProperty(cfg, lib, JStr("whatever"), Extend(leaf, "name"));
    assert Element.props[0] == ("id", JNum(9)) && Element.props[1] == ("name", JStr("whatever"));
  }

  lemma OuterRestorable(lib: DateLib)
    ensures Restorable(NestedCollections, lib, Outer, Some("collection"))
  {
    var cfg, outer := NestedCollections, Some("collection");
    ElementRestorable(lib);
    assert RestorableProperty(cfg, lib, JStr("xxx-yyy-zzz"), Extend(outer, "collectionId"));
    assert RestorableProperty(cfg, lib, JArr([Element]), InnerPath);
    assert Outer.props[0] == ("collectionId", JStr("xxx-yyy-zzz"));
    assert Outer.props[1] == ("nestedCollection", JArr([Element]));
  }

  /** The test document is one that unflatten restores. */
  lemma NestedRestorable(lib: DateLib)
    ensures Restorable(NestedCollections, lib, Nested, None)
  {
    OuterRestorable(lib);
    assert RestorableProperty(NestedCollections, lib, JArr([Outer]), Extend(None, "collection"));
  }

  /** The flattened document of the flatten test unflattens to the original. */
  lemma UnflattenNested(lib: DateLib)
    ensures Unflattened(NestedCollections, FlatNested, None) == Ok(Nested)
  {
    FlattenNested(lib);
    NestedRestorable(lib);
    UnflattenFlatten(NestedCollections, lib, Nested, None);
  }

  // ------------------------------------------------------------ a date as key

  const DateKeyed: Config := map["collection" := CollectionSpec("date", false)]

  function DateElement(t: Instant): Json {
    JObj([("date", JDate(t))])
  }

  /** The element after flatten: its Date property is written as the ISO string. */
  lemma FlattenDateElement(lib: DateLib, t: Instant)
    ensures Flattened(DateKeyed, lib, DateElement(t), Some("collection")) ==
            Ok(JObj([("date", JStr(lib.isoString(t)))]))
  {
    var ps := DateElement(t).props;
    assert ps[0] == ("date", JDate(t));
    var e := ("date", JStr(lib.isoString(t)));
    assert FlattenedProps(DateKeyed, lib, ps, 1, Some("collection")) == Ok([] + [e]);
    assert [] + [e] == [e];
  }

  /** flatten.js: a collection keyed on a Date is named by the Date's ISO string. */
  lemma FlattenDateKey(lib: DateLib, t: Instant)
    ensures Flattened(DateKeyed, lib, JObj([("collection", JArr([DateElement(t)]))]), None) ==
            Ok(JObj([("collection", JObj([(lib.isoString(t), JObj([("date", JStr(lib.isoString(t)))]))]))]))
  {
    var iso := lib.isoString(t);
    var flat := JObj([("date", JStr(iso))]);
    FlattenDateElement(lib, t);
    assert KeyName(lib, DateElement(t), "date") == iso by {
      assert Get(DateElement(t).props, "date") == Some(JDate(t));
    }
    assert KeyedMemo(DateKeyed, lib, [DateElement(t)], 1, Some("collection"), "date") == Ok(Put([], iso, flat));
    assert Flattened(DateKeyed, lib, JArr([DateElement(t)]), Some("collection")) == Ok(JObj([(iso, flat)]));
    var ps := [("collection", JArr([DateElement(t)]))];
    assert Extend(None, "collection") == "collection";
    var e := ("collection", JObj([(iso, flat)]));
    assert FlattenedProps(DateKeyed, lib, ps, 1, None) == Ok([] + [e]);
    assert [] + [e] == [e];
  }

  // ---------------------------------------------- lists and strings as elements

  /** Collections of pairs keyed on their first element, `{ pairs: { key: '0' } }`. */
  const Pairs: Config := map["pairs" := CollectionSpec("0", false)]

  /** `${['a'][0]}` and `${'a'[0]}` are both "a". */
  lemma PairKey(lib: DateLib, c: char)
    ensures KeyName(lib, JStr([c]), "0") == [c]
    ensures KeyName(lib, JArr([JStr([c])]), "0") == [c]
  {
    assert NatToDecimal(0) == "0";
    MemberAtIndex(JStr([c]), 0);
    MemberAtIndex(JArr([JStr([c])]), 0);
  }

  /** A one-element list at "pairs" is itself keyed: its string is filed under itself. */
  lemma FlattenPair(lib: DateLib, c: char)
    ensures Flattened(Pairs, lib, JArr([JStr([c])]), Some("pairs")) == Ok(JObj([([c], JStr([c]))]))
  {
    PairKey(lib, c);
    assert KeyField(Pairs, Some("pairs")) == "0";
    assert KeyedMemo(Pairs, lib, [JStr([c])], 1, Some("pairs"), "0") == Ok(Put([], [c], JStr([c])));
  }

  /**
   * Lists are filed under their element at index "0": `[['a'], ['b']]`
   * becomes `{ a: { a: 'a' }, b: { b: 'b' } }`.
   */
  lemma FlattenPairs(lib: DateLib)
    ensures Flattened(Pairs, lib, JArr([JArr([JStr("a")]), JArr([JStr("b")])]), Some("pairs")) ==
            Ok(JObj([("a", JObj([("a", JStr("a"))])), ("b", JObj([("b", JStr("b"))]))]))
  {
    var loc := Some("pairs");
    var items := [JArr([JStr("a")]), JArr([JStr("b")])];
    var fa, fb := JObj([("a", JStr("a"))]), JObj([("b", JStr("b"))]);
    FlattenPair(lib, 'a');
    FlattenPair(lib, 'b');
    PairKey(lib, 'a');
    PairKey(lib, 'b');
    assert items[0] == JArr([JStr(['a'])]) && items[1] == JArr([JStr(['b'])]);
    assert KeyOf(lib, items[0], "0") == Ok("a") && Flattened(Pairs, lib, items[0], loc) == Ok(fa);
    assert KeyOf(lib, items[1], "0") == Ok("b") && Flattened(Pairs, lib, items[1], loc) == Ok(fb);
    assert KeyedMemo(Pairs, lib, items, 1, loc, "0") == Ok([("a", fa)]);
    assert KeyedMemo(Pairs, lib, items, 2, loc, "0") == Ok(Put([("a", fa)], "b", fb));
    assert "b" != "a";
    assert Put([("a", fa)], "b", fb) == [("a", fa)] + Put([], "b", fb);
    assert [("a", fa)] + [("b", fb)] == [("a", fa), ("b", fb)];
    assert KeyField(Pairs, loc) == "0";
  }

  // ------------------------------------------------------ a list at the root

  const RootKeyed: Config := map["c" := CollectionSpec("id", false)]
  const Item := JObj([("id", JNum(1))])
  const RootList := JArr([JObj([("c", JArr([Item]))])])
  const FlatRootList := JArr([JObj([("c", JObj([("1", Item)]))])])

  lemma FlattenItem(lib: DateLib)
    ensures Flattened(RootKeyed, lib, Item, Some("c")) == Ok(Item)
  {
    var cfg, loc := RootKeyed, Some("c");
    assert Item.props[0] == ("id", JNum(1));
    assert FlattenedProperty(cfg, lib, JNum(1), Extend(loc, "id")) == Ok(JNum(1));
    assert FlattenedProps(cfg, lib, Item.props, 1, loc) == Ok([] + [Item.props[0]]);
    assert [] + [Item.props[0]] == Item.props;
  }

  lemma FlattenRootCollection(lib: DateLib)
    ensures Flattened(RootKeyed, lib, JArr([Item]), Some("c")) == Ok(JObj([("1", Item)]))
  {
    var cfg, loc := RootKeyed, Some("c");
    FlattenItem(lib);
    assert KeyName(lib, Item, "id") == "1" by {
      assert Get(Item.props, "id") == Some(JNum(1));
      assert NatToDecimal(1) == "1";
    }
    assert KeyedMemo(cfg, lib, [Item], 1, loc, "id") == Ok(Put([], "1", Item));
  }

  /** The list's element is flattened at the root, so its collection is found at "c". */
  lemma FlattenRootList(lib: DateLib)
    ensures Flattened(RootKeyed, lib, RootList, None) == Ok(FlatRootList)
  {
    var cfg := RootKeyed;
    FlattenRootCollection(lib);
    assert Extend(None, "c") == "c";
    var e := ("c", JObj([("1", Item)]));
    assert FlattenedProperty(cfg, lib, JArr([Item]), "c") == Ok(e.1);
    assert FlattenedProps(cfg, lib, [("c", JArr([Item]))], 1, None) == Ok([] + [e]);
    assert [] + [e] == [e];
    assert Flattened(cfg, lib, RootList.items[0], None) == Ok(JObj([e]));
    assert FlattenedElements(cfg, lib, RootList.items, 1, None) == Ok([] + [JObj([e])]);
    assert [] + [JObj([e])] == FlatRootList.items;
  }

  /**
   * `for..in` names the element "0", so unflatten looks for the collection
   * at "0.c", finds nothing configured there and leaves it an object: the
   * round trip needs its no-list-at-the-root restriction.
   */
  lemma RootListNotRestored(lib: DateLib)
    ensures Flattened(RootKeyed, lib, RootList, None).Ok?
    ensures Unflattened(RootKeyed, Flattened(RootKeyed, lib, RootList, None).value, None) != Ok(RootList)
  {
    var cfg := RootKeyed;
    FlattenRootList(lib);
    var elem := FlatRootList.items[0];
    UnflattenArray(cfg, FlatRootList.items, None);
    assert NatToDecimal(0) == "0";
    var path := Extend(None, "0");
    assert KeyField(cfg, Some(path)) == "";
    UnflattenObject(cfg, elem.props, Some(path));
    var inner := Extend(Some(path), "c");
    assert |inner| == 3;
    assert KeyField(cfg, Some(inner)) == "";
    var r := Unflattened(cfg, FlatRootList, None);
    if r.Ok? {
      assert r.value.items[0] == UnflattenedProperty(cfg, elem, path).value;
      assert UnflattenedProperty(cfg, elem, path) == Unflattened(cfg, elem, Some(path));
      assert !r.value.items[0].props[0].1.JArr?;
    }
  }
}
