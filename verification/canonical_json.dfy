/**
 * The canonical printer behind fingerprints: `canonicalJson` in src/services/analysisViews.ts and
 * `stableJson` in src/services/automationWorkerShared.ts, which are the same function.
 */
module CanonicalJson {
  import opened Wrappers
  import opened JsonText
  import opened StableSort

  /**
   * A value as the printer meets it: the members of an object in insertion order, a number as the
   * text `JSON.stringify` gives it.
   */
  datatype Value =
    | Undefined
    | Null
    | Bool(b: bool)
    | Num(lexeme: Text)
    | Str(s: Text)
    | Arr(items: seq<Value>)
    | Obj(members: seq<Member>)

  datatype Member = Member(key: Text, value: Value)

  /** `left.localeCompare(right) <= 0`. */
  type Order = (Text, Text) -> bool

  /** Members are compared by their keys. */
  function ByKey(le: Order): (Member, Member) -> bool {
    (m: Member, n: Member) => le(m.key, n.key)
  }

  const NULL_TEXT: Text := [0x6E, 0x75, 0x6C, 0x6C]
  const TRUE_TEXT: Text := [0x74, 0x72, 0x75, 0x65]
  const FALSE_TEXT: Text := [0x66, 0x61, 0x6C, 0x73, 0x65]
  const UNDEFINED_TEXT: Text := [0x75, 0x6E, 0x64, 0x65, 0x66, 0x69, 0x6E, 0x65, 0x64]

  /** A character of a JSON number: digits, sign, point, exponent. */
  predicate IsNumeric(c: Code) {
    0x30 <= c <= 0x39 || c == 0x2B || c == 0x2D || c == 0x2E || c == 0x45 || c == 0x65
  }

  predicate AllNumeric(t: Text) { forall c :: c in t ==> IsNumeric(c) }

  predicate DistinctKeys(ms: seq<Member>) {
    forall i, j :: 0 <= i < j < |ms| ==> ms[i].key != ms[j].key
  }

  /** What JavaScript itself guarantees: an object has each key once, a number prints as a number. */
  predicate Valid(v: Value) {
    match v
    case Num(lexeme) => lexeme != [] && AllNumeric(lexeme)
    case Arr(items) => forall x :: x in items ==> Valid(x)
    case Obj(members) => DistinctKeys(members) && forall m :: m in members ==> Valid(m.value)
    case _ => true
  }

  // ----- the printer -----

  function Size(v: Value): nat {
    match v
    case Arr(items) => 1 + ItemsSize(items)
    case Obj(members) => 1 + MembersSize(members)
    case _ => 0
  }

  function ItemsSize(items: seq<Value>): nat {
    if items == [] then 0 else 1 + Size(items[0]) + ItemsSize(items[1..])
  }

  function MembersSize(ms: seq<Member>): nat {
    if ms == [] then 0 else 1 + Size(ms[0].value) + MembersSize(ms[1..])
  }

  lemma {:induction false} InsertSize(le: Order, m: Member, ms: seq<Member>)
    ensures MembersSize(Insert(ByKey(le), m, ms)) == MembersSize([m]) + MembersSize(ms)
  {
    if ms == [] {
    } else if le(m.key, ms[0].key) {
      assert ([m] + ms)[1..] == ms;
    } else {
      InsertSize(le, m, ms[1..]);
      var tail := Insert(ByKey(le), m, ms[1..]);
      assert ([ms[0]] + tail)[1..] == tail;
    }
  }

  lemma {:induction false} SortSize(le: Order, ms: seq<Member>)
    ensures MembersSize(Sort(ByKey(le), ms)) == MembersSize(ms)
  {
    if ms == [] {
    } else {
      SortSize(le, ms[1..]);
      InsertSize(le, ms[0], Sort(ByKey(le), ms[1..]));
    }
  }

  /** The stable sort of the entries by key. */
  function Sorted(le: Order, ms: seq<Member>): (r: seq<Member>)
    ensures MembersSize(r) == MembersSize(ms)
  {
    SortSize(le, ms);
    Sort(ByKey(le), ms)
  }

  /** The text of a value as a template literal writes it, `undefined` as that word. */
  function Print(le: Order, v: Value): Text
    decreases Size(v), 0
  {
    match v
    case Undefined => UNDEFINED_TEXT
    case Null => NULL_TEXT
    case Bool(b) => if b then TRUE_TEXT else FALSE_TEXT
    case Num(lexeme) => lexeme
    case Str(s) => Quote(s)
    case Arr(items) => [OPEN_LIST] + PrintItems(le, items) + [CLOSE_LIST]
    case Obj(members) => [OPEN_OBJECT] + PrintMembers(le, Sorted(le, members)) + [CLOSE_OBJECT]
  }

  /** `join` prints nothing for `undefined`. */
  function PrintItem(le: Order, v: Value): Text
    decreases Size(v), 1
  {
    if v.Undefined? then [] else Print(le, v)
  }

  function PrintItems(le: Order, items: seq<Value>): Text
    decreases ItemsSize(items), 0
  {
    if items == [] then []
    else if |items| == 1 then PrintItem(le, items[0])
    else PrintItem(le, items[0]) + [COMMA] + PrintItems(le, items[1..])
  }

  function PrintMember(le: Order, m: Member): Text
    decreases Size(m.value), 1
  {
    Quote(m.key) + [COLON] + Print(le, m.value)
  }

  function PrintMembers(le: Order, ms: seq<Member>): Text
    decreases MembersSize(ms), 0
  {
    if ms == [] then []
    else if |ms| == 1 then PrintMember(le, ms[0])
    else PrintMember(le, ms[0]) + [COMMA] + PrintMembers(le, ms[1..])
  }

  /** What the function returns: `JSON.stringify` gives no string for `undefined`. */
  function Canonical(le: Order, v: Value): Option<Text> {
    if v.Undefined? then None else Some(Print(le, v))
  }

  // ----- what a value means when key order does not matter -----

  datatype Json =
    | JUndefined
    | JNull
    | JBool(b: bool)
    | JNum(lexeme: Text)
    | JStr(s: Text)
    | JArr(items: seq<Json>)
    | JObj(members: map<Text, Json>)

  /** Objects without an order; the one-element array of `undefined` means the empty array. */
  function Meaning(v: Value): Json
    decreases Size(v), 0
  {
    match v
    case Undefined => JUndefined
    case Null => JNull
    case Bool(b) => JBool(b)
    case Num(lexeme) => JNum(lexeme)
    case Str(s) => JStr(s)
    case Arr(items) => JArr(if items == [Undefined] then [] else Meanings(items))
    case Obj(members) => JObj(MembersMeaning(members))
  }

  function Meanings(items: seq<Value>): (r: seq<Json>)
    ensures |r| == |items|
    decreases ItemsSize(items), 0
  {
    if items == [] then [] else [Meaning(items[0])] + Meanings(items[1..])
  }

  function MembersMeaning(ms: seq<Member>): map<Text, Json>
    decreases MembersSize(ms), 0
  {
    if ms == [] then map[] else MembersMeaning(ms[1..])[ms[0].key := Meaning(ms[0].value)]
  }

  // ----- a reader -----

  function Span(t: Text): (n: nat)
    ensures n <= |t|
  {
    if t != [] && IsNumeric(t[0]) then 1 + Span(t[1..]) else 0
  }

  function Keyword(word: Text, value: Json, t: Text): (r: Read<Json>)
    ensures r.Done? && word != [] ==> |r.rest| < |t|
  {
    if word <= t then Done(value, t[|word|..]) else Fail
  }

  function ReadValue(t: Text): (r: Read<Json>)
    ensures r.Done? ==> |r.rest| < |t|
    decreases |t|, 0
  {
    if t == [] then Fail
    else if t[0] == QUOTE then
      match ReadQuoted(t[1..]) { case Fail => Fail case Done(s, rest) => Done(JStr(s), rest) }
    else if t[0] == OPEN_LIST then
      if |t| > 1 && t[1] == CLOSE_LIST then Done(JArr([]), t[2..])
      else match ReadItems(t[1..]) { case Fail => Fail case Done(items, rest) => Done(JArr(items), rest) }
    else if t[0] == OPEN_OBJECT then
      if |t| > 1 && t[1] == CLOSE_OBJECT then Done(JObj(map[]), t[2..])
      else match ReadMembers(t[1..]) { case Fail => Fail case Done(ms, rest) => Done(JObj(ms), rest) }
    else if IsNumeric(t[0]) then Done(JNum(t[..Span(t)]), t[Span(t)..])
    else if t[0] == 0x6E then Keyword(NULL_TEXT, JNull, t)
    else if t[0] == 0x74 then Keyword(TRUE_TEXT, JBool(true), t)
    else if t[0] == 0x66 then Keyword(FALSE_TEXT, JBool(false), t)
    else Keyword(UNDEFINED_TEXT, JUndefined, t)
  }

  function ReadItem(t: Text): (r: Read<Json>)
    ensures r.Done? ==> |r.rest| <= |t|
    decreases |t|, 1
  {
    if t != [] && (t[0] == COMMA || t[0] == CLOSE_LIST) then Done(JUndefined, t) else ReadValue(t)
  }

  function ReadItems(t: Text): (r: Read<seq<Json>>)
    ensures r.Done? ==> |r.rest| < |t|
    decreases |t|, 2
  {
    match ReadItem(t)
    case Fail => Fail
    case Done(item, rest) =>
      if rest == [] then Fail
      else if rest[0] == CLOSE_LIST then Done([item], rest[1..])
      else if rest[0] != COMMA then Fail
      else match ReadItems(rest[1..]) { case Fail => Fail case Done(items, end) => Done([item] + items, end) }
  }

  function ReadMember(t: Text): (r: Read<(Text, Json)>)
    ensures r.Done? ==> |r.rest| < |t|
    decreases |t|, 1
  {
    if t == [] || t[0] != QUOTE then Fail
    else match ReadQuoted(t[1..])
      case Fail => Fail
      case Done(key, rest) =>
        if rest == [] || rest[0] != COLON then Fail
        else match ReadValue(rest[1..]) { case Fail => Fail case Done(value, end) => Done((key, value), end) }
  }

  function ReadMembers(t: Text): (r: Read<map<Text, Json>>)
    ensures r.Done? ==> |r.rest| < |t|
    decreases |t|, 2
  {
    match ReadMember(t)
    case Fail => Fail
    case Done(m, rest) =>
      if rest == [] then Fail
      else if rest[0] == CLOSE_OBJECT then Done(map[m.0 := m.1], rest[1..])
      else if rest[0] != COMMA then Fail
      else match ReadMembers(rest[1..]) { case Fail => Fail case Done(ms, end) => Done(ms[m.0 := m.1], end) }
  }
}
