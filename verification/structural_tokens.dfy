/** Hashed class and id tokens, the same code in src/replay/sanitize.ts and sdk/src/replayPrivacy.ts. */
module StructuralTokens {
  import opened JsonText

  const SPACE: Code := 0x20
  const HYPHEN: Code := 0x2D
  const LOWER_R: Code := 0x72
  const MAX_TOKENS := 20

  /** `\s` of an ECMAScript regular expression. */
  predicate IsSpace(c: Code) {
    || 0x09 <= c <= 0x0D || c == 0x20 || c == 0xA0 || c == 0x1680 || 0x2000 <= c <= 0x200A
    || c == 0x2028 || c == 0x2029 || c == 0x202F || c == 0x205F || c == 0x3000 || c == 0xFEFF
  }

  // ----- FNV-1a -----

  const OFFSET_BASIS: bv32 := 0x811c9dc5
  const PRIME: bv32 := 0x01000193

  function Mix(hash: bv32, c: Code): bv32 {
    (hash ^ (c as bv32)) * PRIME
  }

  function Hash(s: Text): bv32 {
    if s == [] then OFFSET_BASIS else Mix(Hash(s[..|s| - 1]), s[|s| - 1])
  }

  /** `toString(16)`: no leading zeros. */
  function Hex(n: nat): Text {
    if n < 16 then [HexDigit(n)] else Hex(n / 16) + [HexDigit(n % 16)]
  }

  /** `padStart(width, '0')`. */
  function PadStart(t: Text, width: nat): Text
    decreases width - |t|
  {
    if |t| >= width then t else PadStart([HexDigit(0)] + t, width)
  }

  lemma HashEmpty()
    ensures Hash([]) == OFFSET_BASIS
  {
  }

  lemma HashStep(value: Text, i: nat)
    requires i < |value|
    ensures Hash(value[..i + 1]) == Mix(Hash(value[..i]), value[i])
  {
    hide Mix;
    assert value[..i + 1][..i] == value[..i];
  }

  method Fnv1a(value: Text) returns (hex: Text)
    ensures hex == HashText(value)
  {
    hide Hash, Hex, PadStart;
    HashEmpty();
    var hash := OFFSET_BASIS;
    for index := 0 to |value|
      invariant hash == Hash(value[..index])
    {
      HashStep(value, index);
      hash := Mix(hash, value[index]);
    }
    assert value[..|value|] == value;
    hex := PadStart(Hex(hash as nat), 8);
  }

  function HashText(value: Text): Text {
    PadStart(Hex(Hash(value) as nat), 8)
  }

  predicate IsHex(t: Text) {
    forall c :: c in t ==> HexValue(c) >= 0
  }

  function ReadHex(t: Text): int
    requires IsHex(t)
  {
    if t == [] then 0 else ReadHex(t[..|t| - 1]) * 16 + HexValue(t[|t| - 1])
  }

  function Pow16(n: nat): nat {
    if n == 0 then 1 else 16 * Pow16(n - 1)
  }

  lemma {:induction false} HexSound(n: nat, digits: nat)
    requires 1 <= digits && n < Pow16(digits)
    ensures IsHex(Hex(n)) && 1 <= |Hex(n)| <= digits && ReadHex(Hex(n)) == n
    decreases digits
  {
    HexRoundTrip(n % 16);
    hide HexValue, HexDigit;
    if n < 16 {
      HexRoundTrip(n);
      assert Hex(n)[..0] == [];
    } else {
      assert digits >= 2 by { assert Pow16(1) == 16 * Pow16(0); }
      HexSound(n / 16, digits - 1);
      assert Hex(n)[..|Hex(n)| - 1] == Hex(n / 16);
    }
  }

  lemma {:induction false} PadSound(t: Text, width: nat)
    requires IsHex(t) && |t| <= width
    ensures IsHex(PadStart(t, width)) && |PadStart(t, width)| == width && ReadHex(PadStart(t, width)) == ReadHex(t)
    decreases width - |t|
  {
    if |t| < width {
      ZeroFirst(t);
      PadSound([HexDigit(0)] + t, width);
    }
  }

  lemma {:induction false} ZeroFirst(t: Text)
    requires IsHex(t)
    ensures IsHex([HexDigit(0)] + t) && ReadHex([HexDigit(0)] + t) == ReadHex(t)
  {
    HexRoundTrip(0);
    hide HexValue, HexDigit;
    var z := [HexDigit(0)] + t;
    if t == [] {
      assert z == [HexDigit(0)] && z[..0] == [];
    } else {
      ZeroFirst(t[..|t| - 1]);
      assert z[..|z| - 1] == [HexDigit(0)] + t[..|t| - 1];
    }
  }

  /** `fnv1a` always prints eight lower-case hexadecimal digits, and they are the 32-bit hash. */
  lemma HashTextSound(value: Text)
    ensures |HashText(value)| == 8 && IsHex(HashText(value)) && ReadHex(HashText(value)) == Hash(value) as nat
  {
    var n := Hash(value) as nat;
    assert Pow16(8) == 0x1_0000_0000 by {
      assert Pow16(4) == 0x1_0000 by { assert Pow16(2) == 0x100; }
      assert Pow16(6) == 0x100_0000;
    }
    HexSound(n, 8);
    PadSound(Hex(n), 8);
  }

  // ----- tokens -----

  function LowerAscii(c: Code): Code {
    if 0x41 <= c <= 0x5A then c + 0x20 else c
  }

  function LowerText(t: Text): (r: Text)
    ensures |r| == |t| && forall i :: 0 <= i < |t| ==> r[i] == LowerAscii(t[i])
  {
    if t == [] then [] else [LowerAscii(t[0])] + LowerText(t[1..])
  }

  /** A case-insensitive match of `rr-` and eight hexadecimal digits. */
  predicate IsCanonical(t: Text) {
    && |t| == 11 && LowerAscii(t[0]) == LOWER_R && LowerAscii(t[1]) == LOWER_R && t[2] == HYPHEN
    && forall i :: 3 <= i < 11 ==> HexValue(LowerAscii(t[i])) >= 0
  }

  /** `canonicalStructuralToken`. */
  function CanonicalToken(token: Text): Text {
    if IsCanonical(token) then LowerText(token) else [LOWER_R, LOWER_R, HYPHEN] + HashText(token)
  }

  predicate IsLowerCanonical(t: Text) {
    |t| == 11 && t[..3] == [LOWER_R, LOWER_R, HYPHEN] && IsHex(t[3..])
  }

  lemma LowerCanonical(t: Text)
    requires IsLowerCanonical(t)
    ensures IsCanonical(t) && LowerText(t) == t && forall c :: c in t ==> !IsSpace(c)
  {
    assert t[0] == t[..3][0] && t[1] == t[..3][1] && t[2] == t[..3][2];
    forall i | 3 <= i < 11 ensures HexValue(t[i]) >= 0 {
      assert t[i] == t[3..][i - 3];
    }
    forall c | c in t ensures !IsSpace(c) && LowerAscii(c) == c {
      var i :| 0 <= i < 11 && t[i] == c;
    }
  }

  /** Whatever the token, the result is `rr-` and eight lower-case digits, and a second pass leaves it alone. */
  lemma CanonicalTokenStable(token: Text)
    ensures IsLowerCanonical(CanonicalToken(token))
    ensures CanonicalToken(CanonicalToken(token)) == CanonicalToken(token)
  {
    HashTextSound(token);
    var r := CanonicalToken(token);
    if IsCanonical(token) {
      forall c | c in r[3..] ensures HexValue(c) >= 0 {
        var i :| 0 <= i < |r[3..]| && r[3..][i] == c;
        assert r[i + 3] == LowerAscii(token[i + 3]);
      }
    } else {
      assert r[3..] == HashText(token);
    }
    LowerCanonical(r);
  }

  // ----- lists of tokens -----

  /** `split(/\s+/).filter(Boolean)`: the maximal runs without white space. */
  function Words(t: Text): (ws: seq<Text>)
    decreases |t|
  {
    if t == [] then []
    else if IsSpace(t[0]) then Words(t[1..])
    else var n := WordLength(t); [t[..n]] + Words(t[n..])
  }

  function WordLength(t: Text): (n: nat)
    ensures n <= |t| && (t != [] && !IsSpace(t[0]) ==> n > 0)
  {
    if t == [] || IsSpace(t[0]) then 0 else 1 + WordLength(t[1..])
  }

  function JoinWords(ws: seq<Text>): Text {
    if ws == [] then [] else if |ws| == 1 then ws[0] else ws[0] + [SPACE] + JoinWords(ws[1..])
  }

  function Canonicalized(ws: seq<Text>): (r: seq<Text>)
    ensures |r| == |ws|
  {
    if ws == [] then [] else [CanonicalToken(ws[0])] + Canonicalized(ws[1..])
  }

  /** `structuralTokens`. */
  function Tokens(value: Text): Text {
    var ws := Words(value);
    JoinWords(Canonicalized(if |ws| > MAX_TOKENS then ws[..MAX_TOKENS] else ws))
  }

  predicate IsWord(w: Text) {
    w != [] && forall c :: c in w ==> !IsSpace(c)
  }

  lemma {:induction false} WordThenSpace(w: Text, rest: Text)
    requires (forall c :: c in w ==> !IsSpace(c)) && (rest == [] || IsSpace(rest[0]))
    ensures WordLength(w + rest) == |w|
  {
    hide IsSpace;
    if w == [] {
      assert w + rest == rest;
    } else {
      assert (w + rest)[1..] == w[1..] + rest && w[0] in w;
      WordThenSpace(w[1..], rest);
    }
  }

  lemma {:induction false} WordsOfJoin(ws: seq<Text>)
    requires forall w :: w in ws ==> IsWord(w)
    ensures Words(JoinWords(ws)) == ws
  {
    if ws != [] {
      var w := ws[0];
      assert IsWord(w) && w[0] in w;
      assert IsSpace(SPACE);
      hide IsSpace;
      if |ws| == 1 {
        WordThenSpace(w, []);
        assert w + [] == w && w[|w|..] == [] && Words([]) == [];
      } else {
        var rest := [SPACE] + JoinWords(ws[1..]);
        WordThenSpace(w, rest);
        var t := w + rest;
        assert JoinWords(ws) == t;
        assert t[..|w|] == w && t[|w|..] == rest && rest[1..] == JoinWords(ws[1..]);
        WordsOfJoin(ws[1..]);
      }
    }
  }

  lemma {:induction false} CanonicalizedStable(ws: seq<Text>)
    ensures forall w :: w in Canonicalized(ws) ==> IsLowerCanonical(w)
    ensures Canonicalized(Canonicalized(ws)) == Canonicalized(ws)
  {
    hide CanonicalToken, IsLowerCanonical;
    if ws != [] {
      CanonicalTokenStable(ws[0]);
      CanonicalizedStable(ws[1..]);
      var r := Canonicalized(ws);
      assert r[1..] == Canonicalized(ws[1..]);
    }
  }

  /** Tokens that one pass wrote are unchanged by the next: nothing is ever hashed twice. */
  lemma TokensStable(value: Text)
    ensures Tokens(Tokens(value)) == Tokens(value)
  {
    var ws := Words(value);
    var kept := if |ws| > MAX_TOKENS then ws[..MAX_TOKENS] else ws;
    CanonicalizedStable(kept);
    var r := Canonicalized(kept);
    hide Words, JoinWords, Canonicalized;
    forall w | w in r ensures IsWord(w) {
      LowerCanonical(w);
    }
    WordsOfJoin(r);
  }
}
