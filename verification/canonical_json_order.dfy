/** When the canonical text does not depend on the order of object keys. */
module CanonicalOrder {
  import opened Wrappers
  import opened JsonText
  import opened StableSort
  import opened CanonicalJson
  import opened CanonicalReadback

  /** The comparator never calls two different keys equal. */
  ghost predicate Separates(le: Order) {
    forall a, b :: le(a, b) && le(b, a) ==> a == b
  }

  /** No object inside the value has two keys that the comparator calls equal. */
  predicate TieFree(le: Order, v: Value) {
    match v
    case Arr(items) => forall x :: x in items ==> TieFree(le, x)
    case Obj(members) => KeysTieFree(le, members) && forall m :: m in members ==> TieFree(le, m.value)
    case _ => true
  }

  predicate KeysTieFree(le: Order, ms: seq<Member>) {
    forall i, j :: 0 <= i < |ms| && 0 <= j < |ms| && le(ms[i].key, ms[j].key) && le(ms[j].key, ms[i].key)
                   ==> ms[i].key == ms[j].key
  }

  lemma SortedAscending(le: Order, ms: seq<Member>)
    requires TotalPreorder(le)
    ensures Ascending(ByKey(le), Sorted(le, ms))
  {
    var byKey := ByKey(le);
    assert forall m: Member, n: Member {:trigger byKey(m, n)} :: byKey(m, n) == le(m.key, n.key);
    SortAscending(byKey, ms);
  }

  // ----- members with the same meaning print the same -----

  lemma {:induction false} MeaningKeys(ms: seq<Member>, key: Text)
    ensures key in MembersMeaning(ms) <==> exists m :: m in ms && m.key == key
  {
    hide Meaning;
    if ms != [] {
      MeaningKeys(ms[1..], key);
      assert ms[0] in ms;
      if m :| m in ms && m.key == key {
        assert m == ms[0] || m in ms[1..];
      }
    }
  }

  lemma {:induction false} MembersSmaller(ms: seq<Member>, m: Member)
    requires m in ms
    ensures Size(m.value) < MembersSize(ms)
  {
    if m != ms[0] {
      MembersSmaller(ms[1..], m);
    }
  }

  lemma {:induction false} ItemsSmaller(items: seq<Value>, x: Value)
    requires x in items
    ensures Size(x) < ItemsSize(items)
  {
    if x != items[0] {
      ItemsSmaller(items[1..], x);
    }
  }

  ghost predicate SameText(le: Order, a: Value, b: Value) {
    Meaning(a) == Meaning(b) ==> Print(le, a) == Print(le, b)
  }

  /** The first key of an ascending list is the first key of any other ascending list with the same keys. */
  lemma SameFirstKey(le: Order, ms: seq<Member>, ns: seq<Member>)
    requires ms != [] && ns != [] && Ascending(ByKey(le), ms) && Ascending(ByKey(le), ns) && KeysTieFree(le, ms) && TotalPreorder(le)
    requires MembersMeaning(ms) == MembersMeaning(ns)
    ensures ms[0].key == ns[0].key
  {
    hide MembersMeaning;
    MeaningKeys(ms, ms[0].key);
    MeaningKeys(ns, ms[0].key);
    MeaningKeys(ns, ns[0].key);
    MeaningKeys(ms, ns[0].key);
    var n :| n in ns && n.key == ms[0].key;
    var m :| m in ms && m.key == ns[0].key;
    var i :| 0 <= i < |ns| && ns[i] == n;
    var j :| 0 <= j < |ms| && ms[j] == m;
    assert le(ns[0].key, ns[i].key) && le(ms[0].key, ms[j].key);
  }

  lemma DropFirstMember(ms: seq<Member>)
    requires ms != [] && DistinctKeys(ms)
    ensures DistinctKeys(ms[1..]) && MembersMeaning(ms[1..]) == MembersMeaning(ms) - {ms[0].key}
    ensures ms[0].key in MembersMeaning(ms) && MembersMeaning(ms)[ms[0].key] == Meaning(ms[0].value)
  {
    hide Meaning;
    MeaningKeys(ms[1..], ms[0].key);
    assert ms == [ms[0]] + ms[1..];
    DistinctCons(ms[0], ms[1..]);
  }

  lemma {:induction false} AscendingSameText(le: Order, ms: seq<Member>, ns: seq<Member>)
    requires TotalPreorder(le)
    requires DistinctKeys(ms) && Ascending(ByKey(le), ms) && KeysTieFree(le, ms)
    requires DistinctKeys(ns) && Ascending(ByKey(le), ns)
    requires MembersMeaning(ms) == MembersMeaning(ns)
    requires forall m, n :: m in ms && n in ns ==> SameText(le, m.value, n.value)
    ensures PrintMembers(le, ms) == PrintMembers(le, ns)
    decreases |ms|
  {
    hide Print, Meaning, DistinctKeys;
    if ms != [] && ns != [] {
      SameFirstKey(le, ms, ns);
      DropFirstMember(ms);
      DropFirstMember(ns);
      assert SameText(le, ms[0].value, ns[0].value);
      hide MembersMeaning;
      AscendingSameText(le, ms[1..], ns[1..]);
      SameEnd(ms[1..], ns[1..]);
    } else {
      SameEnd(ms, ns);
    }
  }

  lemma SameEnd(ms: seq<Member>, ns: seq<Member>)
    requires MembersMeaning(ms) == MembersMeaning(ns)
    ensures ms == [] <==> ns == []
  {
    hide Meaning;
    if ms != [] { assert ms[0].key in MembersMeaning(ms); }
    if ns != [] { assert ns[0].key in MembersMeaning(ns); }
  }

  lemma {:induction false} ItemsSameText(le: Order, xs: seq<Value>, ys: seq<Value>)
    requires Meanings(xs) == Meanings(ys)
    requires forall x, y :: x in xs && y in ys ==> SameText(le, x, y)
    ensures PrintItems(le, xs) == PrintItems(le, ys)
  {
    hide Print;
    assert |xs| == |ys|;
    if xs != [] {
      assert Meanings(xs)[0] == Meaning(xs[0]) && Meanings(xs)[1..] == Meanings(xs[1..]);
      assert Meanings(ys)[0] == Meaning(ys[0]) && Meanings(ys)[1..] == Meanings(ys[1..]);
      assert SameText(le, xs[0], ys[0]);
      ItemsSameText(le, xs[1..], ys[1..]);
    }
  }

  // ----- the theorem -----

  lemma {:induction false} SameMeaningSameText(le: Order, a: Value, b: Value)
    requires TotalPreorder(le) && Valid(a) && Valid(b) && TieFree(le, a) && Meaning(a) == Meaning(b)
    ensures Print(le, a) == Print(le, b)
    decreases Size(a)
  {
    if a.Arr? {
      SameArrays(le, a, b);
    } else if a.Obj? {
      SameObjects(le, a, b);
    }
  }

  function Kept(items: seq<Value>): seq<Value> {
    if items == [Undefined] then [] else items
  }

  lemma KeptSame(le: Order, items: seq<Value>)
    ensures PrintItems(le, Kept(items)) == PrintItems(le, items)
    ensures Meaning(Arr(items)) == JArr(Meanings(Kept(items)))
    ensures forall x :: x in Kept(items) ==> x in items
  {
    hide Print;
  }

  lemma SameArrays(le: Order, a: Value, b: Value)
    requires TotalPreorder(le) && Valid(a) && Valid(b) && TieFree(le, a) && Meaning(a) == Meaning(b) && a.Arr?
    ensures Print(le, a) == Print(le, b)
    decreases Size(a), -1
  {
    hide TotalPreorder;
    forall x, y | x in a.items && y in b.items ensures SameText(le, x, y) {
      ItemsSmaller(a.items, x);
      if Meaning(x) == Meaning(y) {
        SameMeaningSameText(le, x, y);
      }
    }
    KeptSame(le, a.items);
    KeptSame(le, b.items);
    ItemsSameText(le, Kept(a.items), Kept(b.items));
  }

  lemma SameObjects(le: Order, a: Value, b: Value)
    requires TotalPreorder(le) && Valid(a) && Valid(b) && TieFree(le, a) && Meaning(a) == Meaning(b) && a.Obj?
    ensures Print(le, a) == Print(le, b)
    decreases Size(a), -1
  {
    var ms, ns := Sorted(le, a.members), Sorted(le, b.members);
    SortedKeeps(le, a.members);
    SortedKeeps(le, b.members);
    SortedAscending(le, a.members);
    SortedAscending(le, b.members);
    SortedTieFree(le, a.members);
    hide TotalPreorder, Ascending, DistinctKeys, Sorted, KeysTieFree, PrintMembers;
    forall m, n | m in ms && n in ns ensures SameText(le, m.value, n.value) {
      MembersSmaller(a.members, m);
      if Meaning(m.value) == Meaning(n.value) {
        SameMeaningSameText(le, m.value, n.value);
      }
    }
    AscendingSameText(le, ms, ns);
  }

  lemma SortedTieFree(le: Order, ms: seq<Member>)
    requires KeysTieFree(le, ms) && DistinctKeys(ms)
    ensures KeysTieFree(le, Sorted(le, ms))
  {
    SortedKeeps(le, ms);
    hide Sorted;
    var r := Sorted(le, ms);
    forall i, j | 0 <= i < |r| && 0 <= j < |r| && le(r[i].key, r[j].key) && le(r[j].key, r[i].key)
      ensures r[i].key == r[j].key
    {
      assert r[i] in ms && r[j] in ms;
    }
  }

  /** Canonical texts agree exactly when the values agree up to the order of keys, as long as no two keys tie. */
  lemma CanonicalTextIff(le: Order, a: Value, b: Value)
    requires TotalPreorder(le) && Valid(a) && Valid(b) && TieFree(le, a)
    ensures Canonical(le, a) == Canonical(le, b) <==> Meaning(a) == Meaning(b)
  {
    if Canonical(le, a) == Canonical(le, b) {
      SameTextSameMeaning(le, a, b);
    } else if Meaning(a) == Meaning(b) {
      SameMeaningSameText(le, a, b);
    }
  }

  // ----- the comparators for which key order never matters -----

  ghost predicate KeyOrderIrrelevant(le: Order) {
    forall a, b :: Valid(a) && Valid(b) && Meaning(a) == Meaning(b) ==> Canonical(le, a) == Canonical(le, b)
  }

  lemma {:induction false} SeparatingTieFree(le: Order, v: Value)
    requires Separates(le)
    ensures TieFree(le, v)
  {
    match v
    case Arr(items) => forall x | x in items ensures TieFree(le, x) { SeparatingTieFree(le, x); }
    case Obj(members) => forall m | m in members ensures TieFree(le, m.value) { SeparatingTieFree(le, m.value); }
    case _ =>
  }

  function TwoNulls(k: Text, l: Text): Value {
    Obj([Member(k, Null), Member(l, Null)])
  }

  lemma SortedTwo(le: Order, m: Member, n: Member)
    requires le(m.key, n.key)
    ensures Sorted(le, [m, n]) == [m, n]
  {
    assert [n][1..] == [] && Sorted(le, []) == [];
    assert Sorted(le, [n]) == [n];
    assert [m, n][1..] == [n];
  }

  function AfterFirstKey(le: Order, l: Text): Text {
    [COLON] + NULL_TEXT + [COMMA] + PrintMembers(le, [Member(l, Null)]) + [CLOSE_OBJECT]
  }

  /** Tied keys keep their insertion order, so the text starts with the key inserted first. */
  lemma TiePrints(le: Order, k: Text, l: Text)
    requires le(k, l)
    ensures Print(le, TwoNulls(k, l)) == [OPEN_OBJECT] + Quote(k) + AfterFirstKey(le, l)
  {
    var m, n := Member(k, Null), Member(l, Null);
    SortedTwo(le, m, n);
    hide Sorted, Quote;
    assert [m, n][1..] == [n];
    assert PrintMembers(le, [m, n]) == PrintMember(le, m) + [COMMA] + PrintMembers(le, [n]);
    hide PrintMembers;
    assert PrintMember(le, m) == Quote(k) + ([COLON] + NULL_TEXT);
    assert Print(le, TwoNulls(k, l))
        == [OPEN_OBJECT] + (Quote(k) + ([COLON] + NULL_TEXT) + [COMMA] + PrintMembers(le, [n])) + [CLOSE_OBJECT];
  }

  lemma QuotesDiffer(k: Text, l: Text, r: Text, s: Text)
    requires [OPEN_OBJECT] + Quote(k) + r == [OPEN_OBJECT] + Quote(l) + s
    ensures k == l
  {
    QuoteRoundTrip(k, r);
    QuoteRoundTrip(l, s);
    hide ReadQuoted, Escape;
    assert ([OPEN_OBJECT] + Quote(k) + r)[2..] == Escape(k) + [QUOTE] + r;
    assert ([OPEN_OBJECT] + Quote(l) + s)[2..] == Escape(l) + [QUOTE] + s;
  }

  lemma TiedTextsDiffer(le: Order, k: Text, l: Text)
    requires le(k, l) && le(l, k) && k != l
    ensures Print(le, TwoNulls(k, l)) != Print(le, TwoNulls(l, k))
  {
    hide *;
    TiePrints(le, k, l);
    TiePrints(le, l, k);
    if Print(le, TwoNulls(k, l)) == Print(le, TwoNulls(l, k)) {
      QuotesDiffer(k, l, AfterFirstKey(le, l), AfterFirstKey(le, k));
    }
  }

  lemma TwoNullsMeaning(k: Text, l: Text)
    requires k != l
    ensures Valid(TwoNulls(k, l)) && Meaning(TwoNulls(k, l)) == JObj(map[k := JNull, l := JNull])
  {
    var m, n := Member(k, Null), Member(l, Null);
    assert [m, n][1..] == [n] && [n][1..] == [];
    assert MembersMeaning([n]) == map[l := JNull];
    assert Valid(m.value) && Valid(n.value);
  }

  /** The printer ignores key order for all values exactly when the comparator separates different keys. */
  lemma KeyOrderIrrelevantIff(le: Order)
    requires TotalPreorder(le)
    ensures KeyOrderIrrelevant(le) <==> Separates(le)
  {
    if Separates(le) {
      forall a, b | Valid(a) && Valid(b) && Meaning(a) == Meaning(b) ensures Canonical(le, a) == Canonical(le, b) {
        SeparatingTieFree(le, a);
        SameMeaningSameText(le, a, b);
      }
    } else {
      var k, l :| le(k, l) && le(l, k) && k != l;
      TwoNullsMeaning(k, l);
      TwoNullsMeaning(l, k);
      TiedTextsDiffer(le, k, l);
      hide Print, Meaning;
      assert map[k := JNull, l := JNull] == map[l := JNull, k := JNull];
      assert Canonical(le, TwoNulls(k, l)) == Some(Print(le, TwoNulls(k, l)));
      assert Canonical(le, TwoNulls(l, k)) == Some(Print(le, TwoNulls(l, k)));
    }
  }
}
