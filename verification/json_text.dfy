/** JSON string quoting over UTF-16 code units (section 25.5.2.3 of ECMA-262, section 7 of RFC 8259). */
module JsonText {

  /** A UTF-16 code unit. */
  type Code = n: int | 0 <= n < 0x1_0000

  type Text = seq<Code>

  const QUOTE: Code := 0x22
  const BACKSLASH: Code := 0x5C
  const COMMA: Code := 0x2C
  const COLON: Code := 0x3A
  const OPEN_LIST: Code := 0x5B
  const CLOSE_LIST: Code := 0x5D
  const OPEN_OBJECT: Code := 0x7B
  const CLOSE_OBJECT: Code := 0x7D
  const LETTER_U: Code := 0x75

  datatype Read<T> = Fail | Done(value: T, rest: Text)

  /** The code units of an ASCII name. */
  function Name(s: string): (t: Text)
    ensures |t| == |s|
  {
    if s == "" then [] else [s[0] as int % 0x1_0000] + Name(s[1..])
  }

  lemma {:induction false} NameJoined(a: string, b: string)
    ensures Name(a + b) == Name(a) + Name(b)
  {
    if a == "" {
      assert a + b == b;
    } else {
      NameJoined(a[1..], b);
      assert (a + b)[1..] == a[1..] + b;
    }
  }

  predicate IsLead(c: Code) { 0xD800 <= c < 0xDC00 }
  predicate IsTrail(c: Code) { 0xDC00 <= c < 0xE000 }
  predicate IsPair(s: Text) { |s| >= 2 && IsLead(s[0]) && IsTrail(s[1]) }

  /** A lower-case hexadecimal digit. */
  function HexDigit(n: nat): Code
    requires n < 16
  {
    if n < 10 then 0x30 + n else 0x61 + (n - 10)
  }

  function HexValue(c: Code): (n: int)
    ensures n < 16
  {
    if 0x30 <= c <= 0x39 then c - 0x30 else if 0x61 <= c <= 0x66 then c - 0x61 + 10 else -1
  }

  function UnicodeEscape(c: Code): Text {
    [BACKSLASH, LETTER_U, HexDigit(c / 0x1000), HexDigit(c / 0x100 % 0x10), HexDigit(c / 0x10 % 0x10), HexDigit(c % 0x10)]
  }

  /** The letter of the two-character escapes; 0 for a unit that has none. */
  function ShortEscape(c: Code): Code {
    if c == 0x08 then 0x62
    else if c == 0x09 then 0x74
    else if c == 0x0A then 0x6E
    else if c == 0x0C then 0x66
    else if c == 0x0D then 0x72
    else if c == QUOTE || c == BACKSLASH then c
    else 0
  }

  function ShortEscaped(letter: Code): Read<Code> {
    if letter == 0x62 then Done(0x08, [])
    else if letter == 0x74 then Done(0x09, [])
    else if letter == 0x6E then Done(0x0A, [])
    else if letter == 0x66 then Done(0x0C, [])
    else if letter == 0x72 then Done(0x0D, [])
    else if letter == QUOTE || letter == BACKSLASH then Done(letter, [])
    else Fail
  }

  /** One unit that does not start a surrogate pair. */
  function EscapeUnit(c: Code): Text {
    if ShortEscape(c) != 0 then [BACKSLASH, ShortEscape(c)]
    else if c < 0x20 || IsLead(c) || IsTrail(c) then UnicodeEscape(c)
    else [c]
  }

  function Escape(s: Text): Text {
    if s == [] then []
    else if IsPair(s) then s[..2] + Escape(s[2..])
    else EscapeUnit(s[0]) + Escape(s[1..])
  }

  function Quote(s: Text): Text {
    [QUOTE] + Escape(s) + [QUOTE]
  }

  // ----- reading back -----

  function Prepend(c: Code, r: Read<Text>): Read<Text> {
    match r
    case Fail => Fail
    case Done(s, rest) => Done([c] + s, rest)
  }

  predicate IsUnicodeEscape(t: Text) {
    && |t| >= 6 && t[1] == LETTER_U
    && HexValue(t[2]) >= 0 && HexValue(t[3]) >= 0 && HexValue(t[4]) >= 0 && HexValue(t[5]) >= 0
  }

  function EscapedUnit(t: Text): Code
    requires IsUnicodeEscape(t)
  {
    HexValue(t[2]) * 0x1000 + HexValue(t[3]) * 0x100 + HexValue(t[4]) * 0x10 + HexValue(t[5])
  }

  /** The text after an opening quote, up to the closing one. */
  function ReadQuoted(t: Text): (r: Read<Text>)
    ensures r.Done? ==> |r.rest| < |t|
  {
    if t == [] then Fail
    else if t[0] == QUOTE then Done([], t[1..])
    else if t[0] != BACKSLASH then Prepend(t[0], ReadQuoted(t[1..]))
    else if IsUnicodeEscape(t) then Prepend(EscapedUnit(t), ReadQuoted(t[6..]))
    else if |t| < 2 || ShortEscaped(t[1]).Fail? then Fail
    else Prepend(ShortEscaped(t[1]).value, ReadQuoted(t[2..]))
  }

  lemma HexRoundTrip(n: nat)
    requires n < 16
    ensures HexValue(HexDigit(n)) == n
  {
  }

  lemma Nibbles(c: Code)
    ensures c / 0x1000 < 16
    ensures c == c / 0x1000 * 0x1000 + c / 0x100 % 0x10 * 0x100 + c / 0x10 % 0x10 * 0x10 + c % 0x10
  {
    var high, low := c / 0x100, c % 0x100;
    assert high == high / 0x10 * 0x10 + high % 0x10 && high / 0x10 == c / 0x1000;
    assert low == low / 0x10 * 0x10 + low % 0x10 && low / 0x10 == c / 0x10 % 0x10 && low % 0x10 == c % 0x10;
  }

  lemma UnicodeRoundTrip(c: Code, t: Text)
    ensures IsUnicodeEscape(UnicodeEscape(c) + t) && EscapedUnit(UnicodeEscape(c) + t) == c
  {
    Nibbles(c);
    hide HexValue, HexDigit;
    HexRoundTrip(c / 0x1000);
    HexRoundTrip(c / 0x100 % 0x10);
    HexRoundTrip(c / 0x10 % 0x10);
    HexRoundTrip(c % 0x10);
  }

  lemma ReadPlainUnit(c: Code, t: Text)
    requires c != QUOTE && c != BACKSLASH
    ensures ReadQuoted([c] + t) == Prepend(c, ReadQuoted(t))
  {
    assert ([c] + t)[1..] == t;
  }

  lemma ReadShortEscape(c: Code, t: Text)
    requires ShortEscape(c) != 0
    ensures ReadQuoted([BACKSLASH, ShortEscape(c)] + t) == Prepend(c, ReadQuoted(t))
  {
    hide HexValue, HexDigit;
    var e := [BACKSLASH, ShortEscape(c)] + t;
    assert e[0] == BACKSLASH && e[1] == ShortEscape(c) && e[2..] == t;
    assert ShortEscape(c) != LETTER_U && ShortEscaped(ShortEscape(c)) == Done(c, []);
  }

  lemma ReadUnicodeEscape(c: Code, t: Text)
    ensures ReadQuoted(UnicodeEscape(c) + t) == Prepend(c, ReadQuoted(t))
  {
    UnicodeRoundTrip(c, t);
    hide HexValue, HexDigit, IsUnicodeEscape, EscapedUnit, ShortEscaped;
    assert (UnicodeEscape(c) + t)[0] == BACKSLASH && (UnicodeEscape(c) + t)[6..] == t;
  }

  lemma ReadEscapedUnit(c: Code, t: Text)
    ensures ReadQuoted(EscapeUnit(c) + t) == Prepend(c, ReadQuoted(t))
  {
    assert ShortEscape(QUOTE) != 0 && ShortEscape(BACKSLASH) != 0;
    hide ReadQuoted, UnicodeEscape, ShortEscape;
    if ShortEscape(c) != 0 {
      ReadShortEscape(c, t);
    } else if c < 0x20 || IsLead(c) || IsTrail(c) {
      ReadUnicodeEscape(c, t);
    } else {
      ReadPlainUnit(c, t);
    }
  }

  lemma ReadPair(a: Code, b: Code, tail: Text)
    requires IsLead(a) && IsTrail(b)
    ensures ReadQuoted([a, b] + tail) == Prepend(a, Prepend(b, ReadQuoted(tail)))
  {
    assert [a, b] + tail == [a] + ([b] + tail);
    hide ReadQuoted;
    ReadPlainUnit(a, [b] + tail);
    ReadPlainUnit(b, tail);
  }

  /** The quoted text after its first unit or pair. */
  function After(s: Text, n: nat, rest: Text): Text
    requires n <= |s|
  {
    Escape(s[n..]) + [QUOTE] + rest
  }

  lemma EscapeStarts(s: Text, rest: Text)
    ensures s == [] ==> After(s, 0, rest) == [QUOTE] + rest
    ensures s != [] && IsPair(s) ==> After(s, 0, rest) == [s[0], s[1]] + After(s, 2, rest)
    ensures s != [] && !IsPair(s) ==> After(s, 0, rest) == EscapeUnit(s[0]) + After(s, 1, rest)
  {
    hide EscapeUnit;
    assert s[0..] == s;
    if IsPair(s) { assert s[..2] == [s[0], s[1]]; }
  }

  /** A quoted string reads back as itself, and the reader stops right after it. */
  lemma {:induction false} QuoteRoundTrip(s: Text, rest: Text)
    ensures ReadQuoted(Escape(s) + [QUOTE] + rest) == Done(s, rest)
  {
    EscapeStarts(s, rest);
    hide EscapeUnit, Escape, ReadQuoted;
    assert s[0..] == s;
    if s == [] {
      ReadClosing(rest);
    } else if IsPair(s) {
      QuoteRoundTrip(s[2..], rest);
      ReadPair(s[0], s[1], After(s, 2, rest));
      assert s == [s[0]] + ([s[1]] + s[2..]);
    } else {
      QuoteRoundTrip(s[1..], rest);
      ReadEscapedUnit(s[0], After(s, 1, rest));
      assert s == [s[0]] + s[1..];
    }
  }

  lemma ReadClosing(rest: Text)
    ensures ReadQuoted([QUOTE] + rest) == Done([], rest)
  {
    assert ([QUOTE] + rest)[1..] == rest;
  }
}
