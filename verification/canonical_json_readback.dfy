/** The printer is unambiguous: a reader gets the meaning back from the text. */
module CanonicalReadback {
  import opened Wrappers
  import opened JsonText
  import opened StableSort
  import opened CanonicalJson

  /** What may follow a printed value. */
  predicate Delimited(t: Text) {
    t == [] || t[0] == COMMA || t[0] == CLOSE_LIST || t[0] == CLOSE_OBJECT
  }

  // ----- sorting keeps the meaning -----

  lemma DistinctCons(m: Member, ms: seq<Member>)
    ensures DistinctKeys([m] + ms) <==> DistinctKeys(ms) && forall x :: x in ms ==> x.key != m.key
  {
    var r := [m] + ms;
    assert forall i :: 0 <= i < |ms| ==> ms[i] == r[i + 1];
    if DistinctKeys(r) {
      forall x | x in ms ensures x.key != m.key {
        var i :| 0 <= i < |ms| && ms[i] == x;
        assert r[0].key != r[i + 1].key;
      }
    }
  }

  lemma InsertStep(le: Order, m: Member, ms: seq<Member>)
    ensures Insert(ByKey(le), m, ms)
         == if ms == [] || le(m.key, ms[0].key) then [m] + ms else [ms[0]] + Insert(ByKey(le), m, ms[1..])
  {
    assert ms == [] ==> [m] + ms == [m];
  }

  lemma {:induction false} InsertKeeps(le: Order, m: Member, ms: seq<Member>)
    requires DistinctKeys([m] + ms)
    ensures DistinctKeys(Insert(ByKey(le), m, ms)) && forall x :: x in Insert(ByKey(le), m, ms) <==> x == m || x in ms
    ensures MembersMeaning(Insert(ByKey(le), m, ms)) == MembersMeaning(ms)[m.key := Meaning(m.value)]
  {
    InsertStep(le, m, ms);
    hide Meaning, DistinctKeys, MembersSize, Insert;
    assert ([m] + ms)[1..] == ms;
    if ms != [] && !le(m.key, ms[0].key) {
      assert ms == [ms[0]] + ms[1..];
      DistinctCons(m, ms);
      DistinctCons(ms[0], ms[1..]);
      DistinctCons(m, ms[1..]);
      InsertKeeps(le, m, ms[1..]);
      var tail := Insert(ByKey(le), m, ms[1..]);
      DistinctCons(ms[0], tail);
      assert ([ms[0]] + tail)[1..] == tail;
    }
  }

  lemma {:induction false} SortedKeeps(le: Order, ms: seq<Member>)
    requires DistinctKeys(ms)
    ensures DistinctKeys(Sorted(le, ms)) && (forall x :: x in Sorted(le, ms) <==> x in ms)
    ensures MembersMeaning(Sorted(le, ms)) == MembersMeaning(ms)
  {
    if ms != [] {
      assert ms == [ms[0]] + ms[1..];
      DistinctCons(ms[0], ms[1..]);
      SortedKeeps(le, ms[1..]);
      DistinctCons(ms[0], Sorted(le, ms[1..]));
      InsertKeeps(le, ms[0], Sorted(le, ms[1..]));
    }
  }

  // ----- reading the parts -----

  lemma {:induction false} SpanOfNumber(n: Text, rest: Text)
    requires AllNumeric(n) && Delimited(rest)
    ensures Span(n + rest) == |n|
  {
    if n == [] {
      assert n + rest == rest;
    } else {
      assert (n + rest)[1..] == n[1..] + rest;
      SpanOfNumber(n[1..], rest);
    }
  }

  /** A value never starts with a comma or a closing bracket. */
  lemma FirstCode(le: Order, v: Value)
    requires Valid(v)
    ensures Print(le, v) != []
    ensures Print(le, v)[0] != COMMA && Print(le, v)[0] != CLOSE_LIST && Print(le, v)[0] != CLOSE_OBJECT
  {
    hide PrintItems, PrintMembers, Escape, Sorted;
    match v
    case Num(lexeme) => assert lexeme[0] in lexeme;
    case _ =>
  }

  lemma ReadNumber(lexeme: Text, rest: Text)
    requires lexeme != [] && AllNumeric(lexeme) && Delimited(rest)
    ensures ReadValue(lexeme + rest) == Done(JNum(lexeme), rest)
  {
    SpanOfNumber(lexeme, rest);
    assert lexeme[0] in lexeme;
    hide Span, ReadItems, ReadMembers, ReadQuoted, Keyword;
    assert (lexeme + rest)[..|lexeme|] == lexeme && (lexeme + rest)[|lexeme|..] == rest;
  }

  lemma ReadKeyword(word: Text, value: Json, rest: Text)
    ensures Keyword(word, value, word + rest) == Done(value, rest)
  {
    assert (word + rest)[|word|..] == rest;
  }

  lemma ReadString(s: Text, rest: Text)
    ensures ReadValue(Quote(s) + rest) == Done(JStr(s), rest)
  {
    QuoteRoundTrip(s, rest);
    hide ReadQuoted, ReadItems, ReadMembers, Keyword, Escape;
    assert (Quote(s) + rest)[1..] == Escape(s) + [QUOTE] + rest;
  }

  lemma {:induction false} ReadPrint(le: Order, v: Value, rest: Text)
    requires Valid(v) && Delimited(rest)
    ensures ReadValue(Print(le, v) + rest) == Done(Meaning(v), rest)
    decreases Size(v), 0
  {
    hide ReadItems, ReadMembers, ReadQuoted, Keyword, Escape, Sorted, PrintItems, PrintMembers;
    match v
    case Undefined => ReadKeyword(UNDEFINED_TEXT, JUndefined, rest);
    case Null => ReadKeyword(NULL_TEXT, JNull, rest);
    case Bool(b) => ReadKeyword(if b then TRUE_TEXT else FALSE_TEXT, JBool(b), rest);
    case Num(lexeme) => ReadNumber(lexeme, rest);
    case Str(s) => ReadString(s, rest);
    case Arr(items) => ReadArray(le, v, rest);
    case Obj(members) => ReadObject(le, v, rest);
  }

  lemma ReadPrintItem(le: Order, v: Value, rest: Text)
    requires Valid(v) && Delimited(rest) && rest != [] && rest[0] != CLOSE_OBJECT
    ensures ReadItem(PrintItem(le, v) + rest) == Done(Meaning(v), rest)
    decreases Size(v), 1
  {
    hide ReadValue, Print;
    if v.Undefined? {
      assert PrintItem(le, v) + rest == rest;
    } else {
      FirstCode(le, v);
      ReadPrint(le, v, rest);
    }
  }

  lemma {:induction false} ReadPrintItems(le: Order, items: seq<Value>, rest: Text)
    requires items != [] && forall x :: x in items ==> Valid(x)
    ensures ReadItems(PrintItems(le, items) + [CLOSE_LIST] + rest) == Done(Meanings(items), rest)
    decreases ItemsSize(items), 0
  {
    hide ReadItem, PrintItem, Meaning, Valid;
    var first := PrintItem(le, items[0]);
    if |items| == 1 {
      assert PrintItems(le, items) + [CLOSE_LIST] + rest == first + ([CLOSE_LIST] + rest);
      ReadPrintItem(le, items[0], [CLOSE_LIST] + rest);
      assert ([CLOSE_LIST] + rest)[1..] == rest;
      assert Meanings(items) == [Meaning(items[0])];
    } else {
      var tail := PrintItems(le, items[1..]) + [CLOSE_LIST] + rest;
      assert PrintItems(le, items) + [CLOSE_LIST] + rest == first + ([COMMA] + tail);
      ReadPrintItem(le, items[0], [COMMA] + tail);
      assert ([COMMA] + tail)[1..] == tail;
      ReadPrintItems(le, items[1..], rest);
    }
  }

  lemma ItemsStart(le: Order, items: seq<Value>)
    requires items != [] && items != [Undefined] && forall x :: x in items ==> Valid(x)
    ensures PrintItems(le, items) != [] && PrintItems(le, items)[0] != CLOSE_LIST
  {
    hide Print;
    if !items[0].Undefined? {
      FirstCode(le, items[0]);
    } else {
      assert items == [items[0]] + items[1..];
    }
  }

  lemma ReadArray(le: Order, v: Value, rest: Text)
    requires v.Arr? && Valid(v) && Delimited(rest)
    ensures ReadValue(Print(le, v) + rest) == Done(Meaning(v), rest)
    decreases Size(v), -1
  {
    hide ReadItems, ReadMembers, ReadQuoted, Keyword, Meanings, Span, ItemsSize;
    var text := Print(le, v) + rest;
    if v.items == [] || v.items == [Undefined] {
      assert PrintItems(le, v.items) == [];
      assert text == [OPEN_LIST, CLOSE_LIST] + rest;
      assert text[2..] == rest;
    } else {
      hide PrintItems;
      ItemsStart(le, v.items);
      var body := PrintItems(le, v.items) + [CLOSE_LIST] + rest;
      assert text == [OPEN_LIST] + body && text[1..] == body && text[1] == body[0] == PrintItems(le, v.items)[0];
      ReadPrintItems(le, v.items, rest);
    }
  }

  lemma ReadPrintMember(le: Order, m: Member, rest: Text)
    requires Valid(m.value) && Delimited(rest)
    ensures ReadMember(PrintMember(le, m) + rest) == Done((m.key, Meaning(m.value)), rest)
    decreases Size(m.value), 1
  {
    hide ReadValue, Print, Meaning, Valid, ReadQuoted, Escape;
    var tail := [COLON] + (Print(le, m.value) + rest);
    var text := PrintMember(le, m) + rest;
    assert text == [QUOTE] + (Escape(m.key) + [QUOTE] + tail);
    assert text[1..] == Escape(m.key) + [QUOTE] + tail;
    QuoteRoundTrip(m.key, tail);
    assert tail[1..] == Print(le, m.value) + rest;
    ReadPrint(le, m.value, rest);
  }

  lemma {:induction false} ReadPrintMembers(le: Order, ms: seq<Member>, rest: Text)
    requires ms != [] && forall m :: m in ms ==> Valid(m.value)
    ensures ReadMembers(PrintMembers(le, ms) + [CLOSE_OBJECT] + rest) == Done(MembersMeaning(ms), rest)
    decreases MembersSize(ms), 0
  {
    hide ReadMember, PrintMember, Meaning, Valid;
    var first := PrintMember(le, ms[0]);
    if |ms| == 1 {
      assert PrintMembers(le, ms) + [CLOSE_OBJECT] + rest == first + ([CLOSE_OBJECT] + rest);
      ReadPrintMember(le, ms[0], [CLOSE_OBJECT] + rest);
      assert ([CLOSE_OBJECT] + rest)[1..] == rest;
      assert MembersMeaning(ms[1..]) == map[];
    } else {
      var tail := PrintMembers(le, ms[1..]) + [CLOSE_OBJECT] + rest;
      assert PrintMembers(le, ms) + [CLOSE_OBJECT] + rest == first + ([COMMA] + tail);
      ReadPrintMember(le, ms[0], [COMMA] + tail);
      assert ([COMMA] + tail)[1..] == tail;
      ReadPrintMembers(le, ms[1..], rest);
    }
  }

  lemma MembersStart(le: Order, ms: seq<Member>)
    requires ms != []
    ensures PrintMembers(le, ms) != [] && PrintMembers(le, ms)[0] == QUOTE
  {
    hide Print, Escape;
    assert PrintMember(le, ms[0])[0] == QUOTE;
  }

  lemma ReadOpenObject(body: Text, rest: Text, ms: map<Text, Json>)
    requires body != [] && body[0] == QUOTE && ReadMembers(body) == Done(ms, rest)
    ensures ReadValue([OPEN_OBJECT] + body) == Done(JObj(ms), rest)
  {
    hide ReadItems, ReadMembers, ReadQuoted, Keyword, Span;
    var text := [OPEN_OBJECT] + body;
    assert text[1..] == body && text[1] == body[0];
  }

  lemma ReadEmptyObject(rest: Text)
    ensures ReadValue([OPEN_OBJECT, CLOSE_OBJECT] + rest) == Done(JObj(map[]), rest)
  {
    hide ReadItems, ReadMembers, ReadQuoted, Keyword, Span;
    assert ([OPEN_OBJECT, CLOSE_OBJECT] + rest)[2..] == rest;
  }

  lemma ReadObject(le: Order, v: Value, rest: Text)
    requires v.Obj? && Valid(v) && Delimited(rest)
    ensures ReadValue(Print(le, v) + rest) == Done(Meaning(v), rest)
    decreases Size(v), -1
  {
    hide ReadValue, ReadMembers, Sorted, MembersSize, DistinctKeys;
    SortedKeeps(le, v.members);
    var text, ms := Print(le, v) + rest, Sorted(le, v.members);
    if ms == [] {
      assert PrintMembers(le, ms) == [];
      assert text == [OPEN_OBJECT, CLOSE_OBJECT] + rest;
      ReadEmptyObject(rest);
    } else {
      hide PrintMembers, MembersMeaning;
      MembersStart(le, ms);
      var body := PrintMembers(le, ms) + [CLOSE_OBJECT] + rest;
      assert text == [OPEN_OBJECT] + body;
      ReadPrintMembers(le, ms, rest);
      ReadOpenObject(body, rest, MembersMeaning(ms));
    }
  }

  /** Two values with the same canonical text mean the same, whatever the key comparator does. */
  lemma SameTextSameMeaning(le: Order, a: Value, b: Value)
    requires Valid(a) && Valid(b) && Canonical(le, a) == Canonical(le, b)
    ensures Meaning(a) == Meaning(b)
  {
    ReadPrint(le, a, []);
    ReadPrint(le, b, []);
  }

  lemma ListText(le: Order, items: seq<Value>)
    ensures Canonical(le, Arr(items)) == Some([OPEN_LIST] + PrintItems(le, items) + [CLOSE_LIST])
  {
  }

  /** `join` writes nothing for `undefined`, so these two lists have one text. */
  lemma ListOfUndefined(le: Order)
    ensures Arr([Undefined]) != Arr([])
    ensures Canonical(le, Arr([Undefined])) == Canonical(le, Arr([])) == Some([OPEN_LIST, CLOSE_LIST])
    ensures Canonical(le, Arr([Undefined, Undefined])) == Some([OPEN_LIST, COMMA, CLOSE_LIST])
  {
    var none, one, two: seq<Value> := [], [Undefined], [Undefined, Undefined];
    assert two[1..] == one;
    assert PrintItems(le, none) == PrintItems(le, one) == [] && PrintItems(le, two) == [] + [COMMA] + [];
    assert [OPEN_LIST] + [] + [CLOSE_LIST] == [OPEN_LIST, CLOSE_LIST];
    assert [OPEN_LIST] + ([] + [COMMA] + []) + [CLOSE_LIST] == [OPEN_LIST, COMMA, CLOSE_LIST];
    ListText(le, none);
    ListText(le, one);
    ListText(le, two);
  }
}
