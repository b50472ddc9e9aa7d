/** The text that the canonical printer writes, as ECMA-262 and RFC 8259 describe it. */
module CanonicalForm {
  import opened Wrappers
  import opened JsonText
  import opened StableSort
  import opened CanonicalJson
  import opened CanonicalReadback
  import opened CanonicalOrder
  import opened ViewFingerprint

  // ----- strings -----

  predicate IsSurrogate(c: Code) { 0xD800 <= c <= 0xDFFF }

  /** A digit of a `\u` escape. */
  predicate IsDigitOf(c: Code, n: int) {
    if 0 <= n <= 9 then c == 0x30 + n else 10 <= n <= 15 && c == 0x61 + n - 10
  }

  /** How `JSON.stringify` writes one unit that is not part of a surrogate pair. */
  predicate IsUnitForm(c: Code, u: Text) {
    if c == 0x22 || c == 0x5C then u == [0x5C, c]
    else if c == 0x08 then u == [0x5C, 'b' as int]
    else if c == 0x09 then u == [0x5C, 't' as int]
    else if c == 0x0A then u == [0x5C, 'n' as int]
    else if c == 0x0C then u == [0x5C, 'f' as int]
    else if c == 0x0D then u == [0x5C, 'r' as int]
    else if c < 0x20 || IsSurrogate(c) then
      && |u| == 6 && u[0] == 0x5C && u[1] == 'u' as int
      && IsDigitOf(u[2], c / 4096) && IsDigitOf(u[3], c / 256 % 16) && IsDigitOf(u[4], c / 16 % 16) && IsDigitOf(u[5], c % 16)
    else u == [c]
  }

  /** A surrogate pair stands as it is; every other unit has its form. */
  ghost predicate IsEscaped(s: Text, t: Text)
    decreases |s|
  {
    if s == [] then t == []
    else if |s| >= 2 && 0xD800 <= s[0] <= 0xDBFF && 0xDC00 <= s[1] <= 0xDFFF then
      |t| >= 2 && t[..2] == s[..2] && IsEscaped(s[2..], t[2..])
    else exists n: nat :: n <= |t| && IsUnitForm(s[0], t[..n]) && IsEscaped(s[1..], t[n..])
  }

  lemma UnitForm(c: Code)
    ensures IsUnitForm(c, EscapeUnit(c))
  {
  }

  lemma {:induction false} EscapeForm(s: Text)
    ensures IsEscaped(s, Escape(s))
    decreases |s|
  {
    hide EscapeUnit, IsUnitForm;
    if s != [] {
      var t := Escape(s);
      if IsPair(s) {
        EscapeForm(s[2..]);
        assert t[..2] == s[..2] && t[2..] == Escape(s[2..]);
      } else {
        EscapeForm(s[1..]);
        UnitForm(s[0]);
        var n := |EscapeUnit(s[0])|;
        assert t[..n] == EscapeUnit(s[0]) && t[n..] == Escape(s[1..]);
      }
    }
  }

  lemma QuoteForm(s: Text)
    ensures |Quote(s)| >= 2 && Quote(s)[0] == 0x22 && Quote(s)[|Quote(s)| - 1] == 0x22
    ensures IsEscaped(s, Quote(s)[1..|Quote(s)| - 1])
  {
    hide Escape;
    EscapeForm(s);
    assert Quote(s)[1..|Quote(s)| - 1] == Escape(s);
  }

  // ----- values -----

  /** Texts with commas between them. */
  function Listed(ts: seq<Text>): Text {
    if ts == [] then [] else if |ts| == 1 then ts[0] else ts[0] + [0x2C] + Listed(ts[1..])
  }

  lemma {:induction false} ItemsForm(le: Order, items: seq<Value>) returns (ts: seq<Text>)
    ensures |ts| == |items| && PrintItems(le, items) == Listed(ts)
    ensures forall i :: 0 <= i < |ts| ==> ts[i] == if items[i].Undefined? then [] else Print(le, items[i])
  {
    hide Print;
    if items == [] {
      ts := [];
    } else {
      var rest := ItemsForm(le, items[1..]);
      ts := [PrintItem(le, items[0])] + rest;
      assert ts[1..] == rest;
    }
  }

  predicate IsMemberForm(le: Order, m: Member, t: Text) {
    t == Quote(m.key) + [0x3A] + Print(le, m.value)
  }

  lemma {:induction false} MembersForm(le: Order, ms: seq<Member>) returns (ts: seq<Text>)
    ensures |ts| == |ms| && PrintMembers(le, ms) == Listed(ts) && forall i :: 0 <= i < |ts| ==> IsMemberForm(le, ms[i], ts[i])
  {
    hide Print, Quote;
    if ms == [] {
      ts := [];
    } else {
      var rest := MembersForm(le, ms[1..]);
      ts := [PrintMember(le, ms[0])] + rest;
      assert ts[1..] == rest;
    }
  }

  /** The text of everything but lists and objects. */
  lemma ScalarForm(le: Order, v: Value)
    ensures v.Null? ==> Print(le, v) == Name("null")
    ensures v.Undefined? ==> Print(le, v) == Name("undefined") && Canonical(le, v) == None
    ensures v.Bool? ==> Print(le, v) == if v.b then Name("true") else Name("false")
    ensures v.Num? ==> Print(le, v) == v.lexeme
    ensures v.Str? ==> Print(le, v) == Quote(v.s)
    ensures !v.Undefined? ==> Canonical(le, v) == Some(Print(le, v))
  {
    hide Quote;
    WordsAre();
  }

  lemma WordsAre()
    ensures Name("null") == NULL_TEXT && Name("true") == TRUE_TEXT && Name("false") == FALSE_TEXT && Name("undefined") == UNDEFINED_TEXT
  {
    NullWord();
    TrueWord();
    FalseWord();
    UndefinedWord();
  }

  lemma NullWord()
    ensures Name("null") == NULL_TEXT
  {
    NameJoined("nu", "ll");
    assert "nu" + "ll" == "null";
    assert Name("nu") == [0x6E, 0x75] && Name("ll") == [0x6C, 0x6C];
  }

  lemma TrueWord()
    ensures Name("true") == TRUE_TEXT
  {
    NameJoined("tr", "ue");
    assert "tr" + "ue" == "true";
    assert Name("tr") == [0x74, 0x72] && Name("ue") == [0x75, 0x65];
  }

  lemma FalseWord()
    ensures Name("false") == FALSE_TEXT
  {
    NameJoined("fal", "se");
    assert "fal" + "se" == "false";
    assert Name("fal") == [0x66, 0x61, 0x6C] && Name("se") == [0x73, 0x65];
  }

  lemma UndefinedWord()
    ensures Name("undefined") == UNDEFINED_TEXT
  {
    NameJoined("und", "efined");
    NameJoined("efi", "ned");
    assert "und" + "efined" == "undefined" && "efi" + "ned" == "efined";
    assert Name("und") == [0x75, 0x6E, 0x64] && Name("efi") == [0x65, 0x66, 0x69] && Name("ned") == [0x6E, 0x65, 0x64];
  }

  /** A list: the texts of its items between brackets, with nothing for an item that is undefined. */
  lemma ListForm(le: Order, items: seq<Value>) returns (ts: seq<Text>)
    ensures |ts| == |items| && Print(le, Arr(items)) == [0x5B] + Listed(ts) + [0x5D]
    ensures forall i :: 0 <= i < |ts| ==> ts[i] == if items[i].Undefined? then [] else Print(le, items[i])
  {
    ts := ItemsForm(le, items);
    hide PrintItems, Listed, Quote;
  }

  /** An object: its members between braces, ascending by their keys, each a quoted key, a colon and a value. */
  lemma ObjectForm(le: Order, members: seq<Member>) returns (ms: seq<Member>, ts: seq<Text>)
    requires TotalPreorder(le)
    ensures multiset(ms) == multiset(members) && forall i, j :: 0 <= i < j < |ms| ==> le(ms[i].key, ms[j].key)
    ensures |ts| == |ms| && Print(le, Obj(members)) == [0x7B] + Listed(ts) + [0x7D]
    ensures forall i :: 0 <= i < |ts| ==> IsMemberForm(le, ms[i], ts[i])
  {
    ms := Sorted(le, members);
    SortMembers(ByKey(le), members);
    SortedKeys(le, members);
    hide Sort, Sorted, TotalPreorder, PrintMembers, Listed, IsMemberForm;
    ts := MembersForm(le, ms);
    MembersPrinted(le, members);
  }

  lemma MembersPrinted(le: Order, members: seq<Member>)
    ensures Print(le, Obj(members)) == [0x7B] + PrintMembers(le, Sorted(le, members)) + [0x7D]
  {
    hide Sorted, PrintMembers;
  }

  lemma SortedKeys(le: Order, ms: seq<Member>)
    requires TotalPreorder(le)
    ensures var r := Sorted(le, ms); forall i, j :: 0 <= i < j < |r| ==> le(r[i].key, r[j].key)
  {
    SortedAscending(le, ms);
    hide Sorted;
    var r, byKey := Sorted(le, ms), ByKey(le);
    forall i, j | 0 <= i < j < |r| ensures le(r[i].key, r[j].key) { assert byKey(r[i], r[j]); }
  }

  lemma FourMeanings(a: Member, b: Member, c: Member, d: Member)
    ensures MembersMeaning([a, b, c, d])
         == map[][d.key := Meaning(d.value)][c.key := Meaning(c.value)][b.key := Meaning(b.value)][a.key := Meaning(a.value)]
  {
    hide Meaning;
    assert [a, b, c, d][1..] == [b, c, d] && [b, c, d][1..] == [c, d] && [c, d][1..] == [d] && [d][1..] == [];
    assert MembersMeaning([d]) == map[][d.key := Meaning(d.value)];
    assert MembersMeaning([c, d]) == MembersMeaning([d])[c.key := Meaning(c.value)];
    assert MembersMeaning([b, c, d]) == MembersMeaning([c, d])[b.key := Meaning(b.value)];
  }

  /** What a snapshot is hashed as: version 1, the specification, the answer and the evidence, under their names. */
  lemma RecordForm(s: Snapshot)
    ensures Meaning(Record(s))
         == JObj(map[][Name("evidence") := Meaning(s.evidence)][Name("answer") := Meaning(s.answer)]
                      [Name("visualization_spec") := Meaning(s.spec)][Name("schema_version") := JNum([0x31])])
  {
    hide Name, MembersMeaning;
    var ms := Members(s);
    FourMeanings(ms[0], ms[1], ms[2], ms[3]);
    assert ms == [ms[0], ms[1], ms[2], ms[3]];
    assert Meaning(ms[0].value) == JNum([0x31]);
  }
}
