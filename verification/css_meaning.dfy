/** What the CSS sanitizer keeps of a text and what it leaves out, told on the text itself. */
module CssMeaning {
  import opened JsonText
  import opened StructuralTokens
  import opened CssScanner
  import opened CssSanitizer
  import opened CssGrammar

  // ----- keeping some of a list, in order -----

  /** `ys` is what is kept of `xs`: every element gives one that it keeps, or nothing if it keeps none. */
  ghost predicate Picks<A(!new), B(!new)>(xs: seq<A>, ys: seq<B>, keeps: (A, B) -> bool) {
    if xs == [] then ys == []
    else if exists y :: keeps(xs[0], y) then ys != [] && keeps(xs[0], ys[0]) && Picks(xs[1..], ys[1..], keeps)
    else Picks(xs[1..], ys, keeps)
  }

  /** One element gives this. */
  ghost predicate Gives<A(!new), B(!new)>(x: A, ys: seq<B>, keeps: (A, B) -> bool) {
    if exists y :: keeps(x, y) then |ys| == 1 && keeps(x, ys[0]) else ys == []
  }

  lemma PicksCons<A(!new), B(!new)>(xs: seq<A>, ys: seq<B>, zs: seq<B>, keeps: (A, B) -> bool)
    requires xs != [] && Gives(xs[0], zs, keeps) && Picks(xs[1..], ys, keeps)
    ensures Picks(xs, zs + ys, keeps)
  {
    if zs == [] {
      assert zs + ys == ys;
    } else {
      assert (zs + ys)[1..] == ys;
    }
  }

  lemma {:induction false} PicksAppend<A(!new), B(!new)>(xs: seq<A>, x: A, ys: seq<B>, zs: seq<B>, keeps: (A, B) -> bool)
    requires Picks(xs, ys, keeps) && Gives(x, zs, keeps)
    ensures Picks(xs + [x], ys + zs, keeps)
  {
    if xs == [] {
      assert Picks([], [], keeps);
      assert [] + [x] == [x] && [x][1..] == [] && [] + zs == zs == zs + [];
      PicksCons([x], [], zs, keeps);
    } else {
      assert (xs + [x])[1..] == xs[1..] + [x];
      if exists y :: keeps(xs[0], y) {
        PicksAppend(xs[1..], x, ys[1..], zs, keeps);
        assert (ys + zs)[1..] == ys[1..] + zs;
      } else {
        PicksAppend(xs[1..], x, ys, zs, keeps);
      }
    }
  }

  function First<T>(ts: seq<T>, n: nat): seq<T> { if |ts| <= n then ts else ts[..n] }

  // ----- white space at the ends -----

  lemma {:induction false} TrimStartAt(t: Text) returns (n: nat)
    ensures n <= |t| && TrimStart(t) == t[n..] && (forall i :: 0 <= i < n ==> IsSpace(t[i])) && (n < |t| ==> !IsSpace(t[n]))
  {
    hide IsSpace;
    n := 0;
    if t != [] && IsSpace(t[0]) {
      var m := TrimStartAt(t[1..]);
      n := m + 1;
      assert t[1..][m..] == t[n..];
      forall i | 0 <= i < n ensures IsSpace(t[i]) {
        if i > 0 { assert t[i] == t[1..][i - 1]; }
      }
    } else {
      assert t[0..] == t;
    }
  }

  lemma {:induction false} TrimEndAt(t: Text) returns (n: nat)
    ensures n <= |t| && TrimEnd(t) == t[..n] && (forall i :: n <= i < |t| ==> IsSpace(t[i])) && (n > 0 ==> !IsSpace(t[n - 1]))
  {
    hide IsSpace;
    n := |t|;
    if t != [] && IsSpace(t[|t| - 1]) {
      var front := t[..|t| - 1];
      n := TrimEndAt(front);
      assert front[..n] == t[..n];
      forall i | n <= i < |t| ensures IsSpace(t[i]) {
        if i < |t| - 1 { assert t[i] == front[i]; }
      }
    } else {
      assert t[..|t|] == t;
    }
  }

  /** `w` is the text between the white space at both ends of `t`. */
  ghost predicate IsTrimmed(t: Text, w: Text) {
    && (w != [] ==> !IsSpace(w[0]) && !IsSpace(w[|w| - 1]))
    && exists i, j :: 0 <= i <= j <= |t| && w == t[i..j] && (forall k :: 0 <= k < i || j <= k < |t| ==> IsSpace(t[k]))
  }

  lemma TrimIff(t: Text)
    ensures IsTrimmed(t, Trim(t))
  {
    hide IsSpace, TrimStart, TrimEnd, IsTrimmed;
    var i := TrimStartAt(t);
    var n := TrimEndAt(t[i..]);
    TrimmedAt(t, t[i..], i, n);
  }

  lemma TrimmedAt(t: Text, s: Text, i: int, n: int)
    requires 0 <= i <= |t| && s == t[i..] && 0 <= n <= |s|
    requires (forall k :: 0 <= k < i ==> IsSpace(t[k])) && (forall k :: n <= k < |s| ==> IsSpace(s[k]))
    requires s != [] ==> !IsSpace(s[0])
    requires n > 0 ==> !IsSpace(s[n - 1])
    ensures IsTrimmed(t, s[..n])
  {
    hide IsSpace;
    forall k | i + n <= k < |t| ensures IsSpace(t[k]) { assert t[k] == s[k - i]; }
    assert s[..n] == t[i..i + n];
  }

  // ----- declarations -----

  predicate IsAlphanumeric(c: Code) { 0x30 <= c <= 0x39 || 0x41 <= c <= 0x5A || 0x61 <= c <= 0x7A }

  /** What a value may hold besides letters, digits and white space: `#`, `_`, `.`, `,`, `(`, `)`, `%`, `/`, `+`, `*`, `:`, `!`, `-`. */
  const VALUE_SIGNS: Text := [0x23, 0x5F, 0x2E, 0x2C, 0x28, 0x29, 0x25, 0x2F, 0x2B, 0x2A, 0x3A, 0x21, 0x2D]

  /** A piece reads as a name, its first colon, and a value, both without the white space around them. */
  ghost predicate IsDeclaration(lists: Lists, piece: Text, d: Declaration) {
    exists name, value ::
      && name != [] && 0x3A !in name && piece == name + [0x3A] + value
      && IsKept(lists, lists.lower(Trim(name)), lists.hashVariables(Trim(value)), d)
  }

  /** An allowed property with an allowed value; a custom property is hashed, and secrets are written over. */
  predicate IsKept(lists: Lists, property: Text, value: Text, d: Declaration) {
    var custom := |property| >= 2 && property[0] == 0x2D && property[1] == 0x2D;
    && (custom || lists.safeProperty(property))
    && 1 <= |value| <= 4_000 && !lists.loadsContent(value)
    && AreValueUnits(value)
    && d.value == lists.redact(value)
    && d.property == if custom then [0x2D, 0x2D] + CanonicalToken(property[2..]) else property
  }

  lemma ValueCodeIff(c: Code)
    ensures IsValueCode(c) <==> IsAlphanumeric(c) || IsSpace(c) || c in VALUE_SIGNS
  {
    hide IsSpace;
  }

  predicate AreValueUnits(value: Text) {
    forall c :: c in value ==> IsAlphanumeric(c) || IsSpace(c) || c in VALUE_SIGNS
  }

  lemma SafeValueIff(lists: Lists, value: Text)
    ensures SafeValue(lists, value) <==> 1 <= |value| <= 4_000 && !lists.loadsContent(value) && AreValueUnits(value)
  {
    hide IsSpace, IsValueCode, IsAlphanumeric;
    forall c: Code ensures IsValueCode(c) <==> IsAlphanumeric(c) || IsSpace(c) || c in VALUE_SIGNS { ValueCodeIff(c); }
  }

  lemma KeptIff(lists: Lists, property: Text, value: Text, d: Declaration)
    ensures IsKept(lists, property, value, d)
       <==> && (IsCustom(property) || lists.safeProperty(property)) && SafeValue(lists, value)
            && d == Declaration(if IsCustom(property) then CustomProperty(property) else property, lists.redact(value))
  {
    SafeValueIff(lists, value);
    if IsCustom(property) { CustomIsToken(property); }
    hide SafeValue, AreValueUnits, CanonicalToken, CustomProperty;
  }

  lemma AtColon(name: Text, value: Text)
    requires name != [] && 0x3A !in name
    ensures var piece := name + [0x3A] + value; var colon := FirstFrom(piece, 0, COLON);
            colon == |name| && piece[..colon] == name && piece[colon + 1..] == value
  {
    var piece := name + [0x3A] + value;
    assert piece[|name|] == 0x3A;
    forall i | 0 <= i < |name| ensures piece[i] != 0x3A { assert piece[i] == name[i] && name[i] in name; }
  }

  /** `CleanDeclaration` keeps the declaration that a piece is, and nothing of any other piece. */
  lemma DeclarationKept(lists: Lists, piece: Text, d: Declaration)
    ensures CleanDeclaration(lists, piece) == [d] <==> IsDeclaration(lists, piece, d)
    ensures CleanDeclaration(lists, piece) != [] ==> exists x :: CleanDeclaration(lists, piece) == [x]
  {
    hide IsKept, Trim, SafeValue, CustomProperty, IsCustom, FirstFrom;
    var colon := FirstFrom(piece, 0, COLON);
    if IsDeclaration(lists, piece, d) {
      var name, value :| && name != [] && 0x3A !in name && piece == name + [0x3A] + value
                         && IsKept(lists, lists.lower(Trim(name)), lists.hashVariables(Trim(value)), d);
      AtColon(name, value);
      KeptIff(lists, lists.lower(Trim(name)), lists.hashVariables(Trim(value)), d);
    }
    if colon > 0 {
      var name, value := piece[..colon], piece[colon + 1..];
      assert piece == name + [0x3A] + value;
      KeptIff(lists, lists.lower(Trim(name)), lists.hashVariables(Trim(value)), d);
      assert CleanDeclaration(lists, piece) == [d] ==> IsKept(lists, lists.lower(Trim(name)), lists.hashVariables(Trim(value)), d);
    }
  }

  ghost function DeclarationRule(lists: Lists): (Text, Declaration) -> bool {
    (piece, d) => IsDeclaration(lists, piece, d)
  }

  lemma DeclarationGives(lists: Lists, piece: Text)
    ensures Gives(piece, CleanDeclaration(lists, piece), DeclarationRule(lists))
  {
    hide CleanDeclaration, IsDeclaration;
    var out := CleanDeclaration(lists, piece);
    forall d ensures out == [d] <==> IsDeclaration(lists, piece, d) { DeclarationKept(lists, piece, d); }
    if out != [] {
      DeclarationKept(lists, piece, out[0]);
    }
  }

  lemma {:induction false} PiecesPicked(lists: Lists, pieces: seq<Text>)
    ensures Picks(pieces, CleanPieces(lists, pieces), DeclarationRule(lists))
  {
    hide CleanDeclaration, DeclarationRule, Gives, Picks;
    if pieces == [] {
      NothingPicked(DeclarationRule(lists));
    } else {
      var last := |pieces| - 1;
      PiecesPicked(lists, pieces[..last]);
      DeclarationGives(lists, pieces[last]);
      PicksAppend(pieces[..last], pieces[last], CleanPieces(lists, pieces[..last]), CleanDeclaration(lists, pieces[last]), DeclarationRule(lists));
      assert pieces[..last] + [pieces[last]] == pieces;
    }
  }

  lemma NothingPicked<A(!new), B(!new)>(keeps: (A, B) -> bool)
    ensures Picks([], [], keeps)
  {
  }

  /** The declarations of a text: the first 500 that its pieces between semicolons are, in order. */
  lemma DeclarationsPicked(lists: Lists, input: Text, pieces: seq<Text>) returns (all: seq<Declaration>)
    requires IsSplit(pieces, input)
    ensures Picks(pieces, all, DeclarationRule(lists)) && Declarations(lists, input) == First(all, 500)
  {
    hide Picks, IsSplit, Split, CleanPieces;
    SplitUnique(pieces, input);
    all := CleanPieces(lists, pieces);
    PiecesPicked(lists, pieces);
  }

  // ----- selectors -----

  function Joined(ts: seq<Text>, separator: Code): Text {
    if ts == [] then [] else if |ts| == 1 then ts[0] else ts[0] + [separator] + Joined(ts[1..], separator)
  }

  /** The parts of a text between commas. */
  ghost predicate IsList(parts: seq<Text>, t: Text) {
    parts != [] && Joined(parts, 0x2C) == t && forall p :: p in parts ==> 0x2C !in p
  }

  /** What a selector may hold besides letters, digits and white space: `*`, `_`, `.`, `#`, `:`, `(`, `)`, `,`, `>`, `+`, `~`, `/`, `-`. */
  const SELECTOR_SIGNS: Text := [0x2A, 0x5F, 0x2E, 0x23, 0x3A, 0x28, 0x29, 0x2C, 0x3E, 0x2B, 0x7E, 0x2F, 0x2D]

  predicate IsNameUnit(c: Code) { IsAlphanumeric(c) || c == 0x5F || c == 0x2D }

  /** A class or an id begins here: a dot or a hash, and a letter or an underscore. */
  predicate BeginsName(t: Text) {
    |t| >= 2 && (t[0] == 0x2E || t[0] == 0x23) && IsNameUnit(t[1]) && t[1] != 0x2D && !(0x30 <= t[1] <= 0x39)
  }

  /** Class and id names are replaced by their tokens, as long as they go; all else stands. */
  ghost predicate IsHashed(t: Text, h: Text)
    decreases |t|
  {
    if t == [] then h == []
    else if BeginsName(t) then
      exists n: nat :: IsHashedName(t, n, h) && IsHashed(t[n..], h[12..])
    else h != [] && h[0] == t[0] && IsHashed(t[1..], h[1..])
  }

  predicate IsHashedName(t: Text, n: nat, h: Text) {
    && 2 <= n <= |t| && (forall i :: 1 <= i < n ==> IsNameUnit(t[i])) && (n < |t| ==> !IsNameUnit(t[n]))
    && |h| >= 12 && h[..12] == [t[0]] + CanonicalToken(t[1..n])
  }

  lemma {:induction false} HashNamesHashed(t: Text)
    ensures IsHashed(t, HashNames(t))
    decreases |t|
  {
    hide CanonicalToken;
    if t != [] {
      assert BeginsName(t) <==> StartsName(t);
      var h := HashNames(t);
      if StartsName(t) {
        var n := NameLength(t[1..]) + 1;
        HashNamesHashed(t[n..]);
        CanonicalTokenStable(t[1..n]);
        assert h == [t[0]] + CanonicalToken(t[1..n]) + HashNames(t[n..]);
        assert h[..12] == [t[0]] + CanonicalToken(t[1..n]) && h[12..] == HashNames(t[n..]);
        NameReaches(t, n);
        assert IsHashedName(t, n, h);
      } else {
        HashNamesHashed(t[1..]);
        assert h[1..] == HashNames(t[1..]);
      }
    }
  }

  lemma NameReaches(t: Text, n: nat)
    requires StartsName(t) && n == NameLength(t[1..]) + 1
    ensures 2 <= n <= |t| && (forall i :: 1 <= i < n ==> IsNameUnit(t[i])) && (n < |t| ==> !IsNameUnit(t[n]))
  {
    forall i | 1 <= i < n ensures IsNameUnit(t[i]) { assert t[i] == t[1..][i - 1]; }
    if n < |t| { assert t[n] == t[1..][n - 1]; }
  }

  /** Hashing has one result. */
  lemma {:induction false} HashedOnce(t: Text, a: Text, b: Text)
    requires IsHashed(t, a) && IsHashed(t, b)
    ensures a == b
    decreases |t|
  {
    hide CanonicalToken, IsNameUnit;
    if t != [] {
      if BeginsName(t) {
        var m: nat :| IsHashedName(t, m, a) && IsHashed(t[m..], a[12..]);
        var n: nat :| IsHashedName(t, n, b) && IsHashed(t[n..], b[12..]);
        assert m == n;
        HashedOnce(t[n..], a[12..], b[12..]);
        assert a == a[..12] + a[12..] && b == b[..12] + b[12..];
      } else {
        HashedOnce(t[1..], a[1..], b[1..]);
        assert a == [a[0]] + a[1..] && b == [b[0]] + b[1..];
      }
    }
  }

  ghost predicate IsSelectorOf(part: Text, s: Text) {
    var t := Trim(part);
    1 <= |t| <= 2_000 && (forall c :: c in t ==> IsAlphanumeric(c) || IsSpace(c) || c in SELECTOR_SIGNS) && IsHashed(t, s)
  }

  ghost function SelectorRule(): (Text, Text) -> bool {
    (part, s) => IsSelectorOf(part, s)
  }

  function CleanPart(part: Text): seq<Text> {
    if SafeSelector(Trim(part)) then [HashNames(Trim(part))] else []
  }

  lemma SelectorCodeIff(c: Code)
    ensures IsSelectorCode(c) <==> IsAlphanumeric(c) || IsSpace(c) || c in SELECTOR_SIGNS
  {
    hide IsSpace;
  }

  lemma SafeSelectorIff(t: Text)
    ensures SafeSelector(t) <==> 1 <= |t| <= 2_000 && forall c :: c in t ==> IsAlphanumeric(c) || IsSpace(c) || c in SELECTOR_SIGNS
  {
    hide IsSpace, IsSelectorCode, IsAlphanumeric;
    forall c: Code ensures IsSelectorCode(c) <==> IsAlphanumeric(c) || IsSpace(c) || c in SELECTOR_SIGNS { SelectorCodeIff(c); }
  }

  lemma PartGives(part: Text)
    ensures Gives(part, CleanPart(part), SelectorRule())
  {
    hide Trim, SafeSelector, HashNames, IsHashed, IsAlphanumeric, IsSpace;
    SafeSelectorIff(Trim(part));
    HashNamesHashed(Trim(part));
    forall s | IsHashed(Trim(part), s) ensures s == HashNames(Trim(part)) { HashedOnce(Trim(part), s, HashNames(Trim(part))); }
    var keeps := SelectorRule();
    if SafeSelector(Trim(part)) {
      assert keeps(part, HashNames(Trim(part)));
    } else {
      assert forall s :: !keeps(part, s);
    }
  }

  /** Parting at the first comma. */
  lemma CommaFirst(parts: seq<Text>, t: Text)
    requires IsList(parts, t)
    ensures |parts| == 1 ==> FirstFrom(t, 0, COMMA) == -1 && t == parts[0]
    ensures |parts| > 1 ==> FirstFrom(t, 0, COMMA) == |parts[0]| && t[..|parts[0]|] == parts[0]
                            && t[|parts[0]| + 1..] == Joined(parts[1..], 0x2C) && IsList(parts[1..], t[|parts[0]| + 1..])
  {
    var p := parts[0];
    assert p in parts && 0x2C !in p;
    if |parts| > 1 {
      assert t == p + [0x2C] + Joined(parts[1..], 0x2C);
      assert t[|p|] == 0x2C;
      forall i | 0 <= i < |p| ensures t[i] != 0x2C { assert t[i] == p[i] && p[i] in p; }
      assert forall x :: x in parts[1..] ==> x in parts;
    } else {
      assert forall i :: 0 <= i < |t| ==> t[i] in p;
    }
  }

  lemma ListNotEmpty(parts: seq<Text>, t: Text)
    requires IsList(parts, t)
    ensures parts != []
  {
  }

  lemma {:induction false} SelectorsPicked(parts: seq<Text>, t: Text)
    requires IsList(parts, t)
    ensures Picks(parts, CleanSelectors(t), SelectorRule())
    decreases |parts|
  {
    hide Trim, Gives, Picks, SelectorRule, IsList, FirstFrom, HashNames, SafeSelector, Joined;
    ListNotEmpty(parts, t);
    CommaFirst(parts, t);
    PartGives(parts[0]);
    if |parts| > 1 {
      SelectorsPicked(parts[1..], t[|parts[0]| + 1..]);
      PicksCons(parts, CleanSelectors(t[|parts[0]| + 1..]), CleanPart(parts[0]), SelectorRule());
    } else {
      NothingPicked(SelectorRule());
      assert parts[1..] == [];
      PicksCons(parts, [], CleanPart(parts[0]), SelectorRule());
      assert CleanPart(parts[0]) + [] == CleanPart(parts[0]);
      assert CleanSelectors(t) == CleanPart(parts[0]) + [];
    }
  }

  lemma {:induction false} JoinedSelectors(ts: seq<Text>)
    ensures JoinSelectors(ts) == Joined(ts, 0x2C)
  {
    if |ts| > 1 { JoinedSelectors(ts[1..]); }
  }

  /** A selector list: the first hundred parts between commas that are safe selectors, hashed, with commas between them. */
  lemma SelectorPicked(input: Text, parts: seq<Text>) returns (all: seq<Text>)
    requires IsList(parts, input)
    ensures Picks(parts, all, SelectorRule()) && CleanSelector(input) == Joined(First(all, 100), 0x2C)
  {
    hide Picks, IsList, CleanSelectors, JoinSelectors, Joined;
    all := CleanSelectors(input);
    SelectorsPicked(parts, input);
    JoinedSelectors(First(all, 100));
  }

  /** Every text is such a list. */
  lemma {:induction false} ListExists(t: Text) returns (parts: seq<Text>)
    ensures IsList(parts, t)
    decreases |t|
  {
    hide FirstFrom;
    var comma := FirstFrom(t, 0, COMMA);
    if comma == -1 {
      forall c | c in t ensures c != 0x2C { var i :| 0 <= i < |t| && t[i] == c; }
      parts := [t];
    } else {
      var rest := ListExists(t[comma + 1..]);
      forall c | c in t[..comma] ensures c != 0x2C { var i :| 0 <= i < comma && t[i] == c; }
      parts := [t[..comma]] + rest;
      assert parts[1..] == rest;
      assert t == t[..comma] + [0x2C] + t[comma + 1..];
    }
  }

  // ----- at-rules -----

  /** The text begins with this word in any case, and the word ends there. */
  predicate BeginsWith(t: Text, word: Text) {
    && |word| <= |t| && (forall i :: 0 <= i < |word| ==> LowerAscii(t[i]) == word[i])
    && (|t| > |word| ==> !IsAlphanumeric(t[|word|]) && t[|word|] != 0x5F)
  }

  predicate IsGroupHead(t: Text) {
    BeginsWith(t, Name("@media")) || BeginsWith(t, Name("@supports")) || BeginsWith(t, Name("@container")) || BeginsWith(t, Name("@layer"))
  }

  const PRELUDE_SIGNS: Text := [0x40, 0x28, 0x29, 0x3A, 0x2E, 0x2C, 0x2F, 0x25, 0x2B, 0x5F, 0x2D]

  lemma WordIff(t: Text, word: Text)
    ensures AtWord(t, word) <==> BeginsWith(t, word)
  {
    if |word| <= |t| {
      var head := LowerText(t[..|word|]);
      assert forall i :: 0 <= i < |word| ==> head[i] == LowerAscii(t[i]);
      if forall i :: 0 <= i < |word| ==> LowerAscii(t[i]) == word[i] { assert head == word; }
    }
  }

  lemma MediaName()
    ensures Name("@media") == MEDIA
  {
    NameJoined("@me", "dia");
    assert "@me" + "dia" == "@media";
    assert Name("@me") == [0x40, 0x6D, 0x65] && Name("dia") == [0x64, 0x69, 0x61];
  }

  lemma SupportsName()
    ensures Name("@supports") == SUPPORTS
  {
    NameJoined("@su", "pports");
    NameJoined("ppo", "rts");
    assert "@su" + "pports" == "@supports" && "ppo" + "rts" == "pports";
    assert Name("@su") == [0x40, 0x73, 0x75] && Name("ppo") == [0x70, 0x70, 0x6F] && Name("rts") == [0x72, 0x74, 0x73];
  }

  lemma ContainerName()
    ensures Name("@container") == CONTAINER
  {
    NameJoined("@con", "tainer");
    NameJoined("tai", "ner");
    assert "@con" + "tainer" == "@container" && "tai" + "ner" == "tainer";
    assert Name("@con") == [0x40, 0x63, 0x6F, 0x6E] && Name("tai") == [0x74, 0x61, 0x69] && Name("ner") == [0x6E, 0x65, 0x72];
  }

  lemma LayerName()
    ensures Name("@layer") == LAYER
  {
    NameJoined("@la", "yer");
    assert "@la" + "yer" == "@layer";
    assert Name("@la") == [0x40, 0x6C, 0x61] && Name("yer") == [0x79, 0x65, 0x72];
  }

  lemma GroupIff(t: Text)
    ensures IsGroup(t) <==> IsGroupHead(t)
  {
    hide Name, AtWord, BeginsWith;
    MediaName();
    SupportsName();
    ContainerName();
    LayerName();
    WordIff(t, MEDIA);
    WordIff(t, SUPPORTS);
    WordIff(t, CONTAINER);
    WordIff(t, LAYER);
  }

  /** The prelude of a group is kept when it is short, plain and no location; secrets are written over. */
  ghost predicate IsPreludeOf(lists: Lists, t: Text, prelude: Text) {
    && prelude != [] && IsGroupHead(t) && |t| <= 2_000 && !lists.urlLike(t)
    && (forall c :: c in t ==> IsAlphanumeric(c) || IsSpace(c) || c in PRELUDE_SIGNS)
    && prelude == lists.redact(t)
  }

  lemma PreludeCodeIff(c: Code)
    ensures IsPreludeCode(c) <==> IsAlphanumeric(c) || IsSpace(c) || c in PRELUDE_SIGNS
  {
    hide IsSpace;
  }

  lemma PreludeIff(lists: Lists, t: Text, prelude: Text)
    ensures prelude != [] && CleanPrelude(lists, t) == prelude <==> IsPreludeOf(lists, t, prelude)
  {
    hide IsSpace, IsPreludeCode, IsAlphanumeric, IsGroup, IsGroupHead;
    GroupIff(t);
    forall c: Code ensures IsPreludeCode(c) <==> IsAlphanumeric(c) || IsSpace(c) || c in PRELUDE_SIGNS { PreludeCodeIff(c); }
  }

  // ----- sheets -----

  /** The text before each outermost brace from `cursor` on, and the text inside it. */
  function BlocksFrom(css: Text, cursor: nat): seq<(Text, Text)>
    requires cursor <= |css|
    decreases |css| - cursor
  {
    var open := FirstFrom(css, cursor, 0x7B);
    if open == -1 then []
    else
      var close := ClosingFrom(css, open, open);
      if close == -1 then [] else [(css[cursor..open], css[open + 1..close])] + BlocksFrom(css, close + 1)
  }

  /** A block gives a group of the rules of its body, or a style rule, if something is kept of its head and of its body. */
  ghost predicate IsRuleOf(lists: Lists, depth: nat, head: Text, body: Text, rule: Rule)
    requires depth <= 6
  {
    var t := Trim(head);
    match rule
    case Group(prelude, inner) => IsPreludeOf(lists, t, prelude) && inner == Rules(lists, body, depth + 1) && inner != []
    case Style(selector, ds) =>
      && (t == [] || t[0] != 0x40)
      && selector == CleanSelector(t) && selector != [] && ds == Declarations(lists, body) && ds != []
  }

  ghost function BlockRule(lists: Lists, depth: nat): ((Text, Text), Rule) -> bool
    requires depth <= 6
  {
    (block: (Text, Text), rule) => IsRuleOf(lists, depth, block.0, block.1, rule)
  }

  lemma RenderedIff(rules: seq<Rule>, ds: seq<Declaration>)
    ensures Render(rules) != [] <==> rules != []
    ensures RenderDeclarations(ds) != [] <==> ds != []
  {
  }

  lemma BlockGives(lists: Lists, css: Text, cursor: nat, open: nat, close: nat, depth: nat)
    requires cursor <= open < close < |css| && depth <= 6
    ensures Gives((css[cursor..open], css[open + 1..close]), RuleAt(lists, css, cursor, open, close, depth), BlockRule(lists, depth))
  {
    hide RuleAt, IsRuleOf;
    var head, body := css[cursor..open], css[open + 1..close];
    var out := RuleAt(lists, css, cursor, open, close, depth);
    AtMostOneRule(lists, css, cursor, open, close, depth);
    forall rule ensures out == [rule] <==> IsRuleOf(lists, depth, head, body, rule) {
      RuleIs(lists, css, cursor, open, close, depth, rule);
    }
    var keeps := BlockRule(lists, depth);
    assert forall rule :: keeps((head, body), rule) <==> IsRuleOf(lists, depth, head, body, rule);
    if out != [] { assert out == [out[0]]; }
  }

  lemma GroupAt(t: Text)
    ensures IsGroup(t) <==> IsGroupHead(t)
    ensures IsGroup(t) ==> t != [] && t[0] == 0x40
  {
    hide IsGroup, IsGroupHead;
    GroupIff(t);
    if IsGroup(t) { GroupStartsWithAt(t); }
  }

  lemma AtMostOneRule(lists: Lists, css: Text, cursor: nat, open: nat, close: nat, depth: nat)
    requires cursor <= open < close < |css| && depth <= 6
    ensures |RuleAt(lists, css, cursor, open, close, depth)| <= 1
  {
    hide Trim, Rules, CleanPrelude, CleanSelector, Declarations, IsGroup, Render, RenderDeclarations, FirstFrom;
  }

  lemma RuleIs(lists: Lists, css: Text, cursor: nat, open: nat, close: nat, depth: nat, rule: Rule)
    requires cursor <= open < close < |css| && depth <= 6
    ensures RuleAt(lists, css, cursor, open, close, depth) == [rule]
       <==> IsRuleOf(lists, depth, css[cursor..open], css[open + 1..close], rule)
  {
    hide Trim, Rules, CleanPrelude, CleanSelector, Declarations, IsGroup, IsPreludeOf, Render, RenderDeclarations, IsGroupHead, FirstFrom;
    var head, body := css[cursor..open], css[open + 1..close];
    var t := Trim(head);
    RenderedIff(Rules(lists, body, depth + 1), Declarations(lists, body));
    GroupAt(t);
    if rule.Group? {
      PreludeIff(lists, t, rule.prelude);
      if IsPreludeOf(lists, t, rule.prelude) { PreludeGroup(lists, t, rule.prelude); }
    }
  }

  lemma PreludeGroup(lists: Lists, t: Text, prelude: Text)
    requires IsPreludeOf(lists, t, prelude)
    ensures IsGroupHead(t)
  {
  }

  lemma {:induction false} RulesFromPicked(lists: Lists, css: Text, cursor: nat, depth: nat)
    requires cursor <= |css| && depth <= 6
    ensures Picks(BlocksFrom(css, cursor), RulesFrom(lists, css, cursor, depth), BlockRule(lists, depth))
    decreases |css| - cursor
  {
    hide Picks, Gives, BlockRule, RuleAt, FirstFrom, ClosingFrom;
    if ScanEnds(css, cursor) {
      ScanEnded(lists, css, cursor, depth);
      NothingPicked(BlockRule(lists, depth));
    } else {
      var open := FirstFrom(css, cursor, OPEN_BRACE);
      var close := ClosingFrom(css, open, open);
      ScanStep(lists, css, cursor, open, close, depth, []);
      RulesFromPicked(lists, css, close + 1, depth);
      BlockGives(lists, css, cursor, open, close, depth);
      var blocks, rest := BlocksFrom(css, cursor), RulesFrom(lists, css, close + 1, depth);
      assert blocks[1..] == BlocksFrom(css, close + 1);
      var one := RuleAt(lists, css, cursor, open, close, depth);
      assert [] + RulesFrom(lists, css, cursor, depth) == ([] + one) + rest;
      assert [] + RulesFrom(lists, css, cursor, depth) == RulesFrom(lists, css, cursor, depth) && [] + one == one;
      PicksCons(blocks, rest, one, BlockRule(lists, depth));
    }
  }

  /**
   * Down to the seventh level the rules of a sheet are those that its outermost blocks give, in order, once
   * comments and statements are gone; below there are none.
   */
  lemma RulesPicked(lists: Lists, input: Text, depth: nat)
    requires depth <= 7
    ensures depth <= 6 ==> Picks(BlocksFrom(Clean(input), 0), Rules(lists, input, depth), BlockRule(lists, depth))
    ensures depth == 7 ==> Rules(lists, input, depth) == []
  {
    hide Picks, BlockRule, Clean, BlocksFrom;
    if depth <= 6 { RulesFromPicked(lists, Clean(input), 0, depth); }
  }

  // ----- comments and statements -----

  /** A comment from `a` to `b`, closed at the first chance. */
  predicate IsComment(t: Text, a: nat, b: nat) {
    && a + 4 <= b <= |t| && t[a] == 0x2F && t[a + 1] == 0x2A && t[b - 2] == 0x2A && t[b - 1] == 0x2F
    && forall k :: a + 2 <= k < b - 2 ==> !(t[k] == 0x2A && t[k + 1] == 0x2F)
  }

  /** Without its first comment a text is stripped as what stands before it and what stands after it, stripped. */
  lemma {:induction false} CommentGone(t: Text, a: nat, b: nat)
    requires IsComment(t, a, b) && forall i: nat, j: nat :: i < a ==> !IsComment(t, i, j)
    ensures StripComments(t) == t[..a] + StripComments(t[b..])
    decreases a
  {
    if a == 0 {
      CommentEndIs(t, 2, b);
      assert t[..0] + StripComments(t[b..]) == StripComments(t[b..]);
    } else {
      NoCommentFirst(t, a, b);
      CommentTail(t, a, b);
      CommentGone(t[1..], a - 1, b - 1);
      assert t[1..][b - 1..] == t[b..] && [t[0]] + t[1..][..a - 1] == t[..a];
    }
  }

  lemma {:induction false} CommentEndIs(t: Text, i: nat, b: nat)
    requires i + 2 <= b <= |t| && t[b - 2] == 0x2A && t[b - 1] == 0x2F
    requires forall k :: i <= k < b - 2 ==> !(t[k] == 0x2A && t[k + 1] == 0x2F)
    ensures CommentEnd(t, i) == b
    decreases b - i
  {
    if i < b - 2 { CommentEndIs(t, i + 1, b); }
  }

  lemma {:induction false} CommentEndFound(t: Text, i: nat)
    requires i <= |t| && CommentEnd(t, i) != -1
    ensures var b := CommentEnd(t, i);
            && i + 2 <= b <= |t| && t[b - 2] == 0x2A && t[b - 1] == 0x2F
            && forall k :: i <= k < b - 2 ==> !(t[k] == 0x2A && t[k + 1] == 0x2F)
    decreases |t| - i
  {
    if !(t[i] == ASTERISK && t[i + 1] == SLASH) { CommentEndFound(t, i + 1); }
  }

  lemma NoCommentFirst(t: Text, a: nat, b: nat)
    requires a > 0 && IsComment(t, a, b) && forall i: nat, j: nat :: i < a ==> !IsComment(t, i, j)
    ensures StripComments(t) == [t[0]] + StripComments(t[1..])
  {
    NoCommentAtStart(t);
  }

  lemma NoCommentAtStart(t: Text)
    requires t != [] && forall j: nat :: !IsComment(t, 0, j)
    ensures StripComments(t) == [t[0]] + StripComments(t[1..])
  {
    if |t| >= 2 && t[0] == SLASH && t[1] == ASTERISK && CommentEnd(t, 2) != -1 {
      CommentEndFound(t, 2);
      assert IsComment(t, 0, CommentEnd(t, 2));
    }
  }

  lemma CommentTail(t: Text, a: nat, b: nat)
    requires a > 0 && IsComment(t, a, b) && forall i: nat, j: nat :: i < a ==> !IsComment(t, i, j)
    ensures IsComment(t[1..], a - 1, b - 1) && forall i: nat, j: nat :: i < a - 1 ==> !IsComment(t[1..], i, j)
  {
    ShiftComment(t, a, b);
    forall i: nat, j: nat | i < a - 1 ensures !IsComment(t[1..], i, j) {
      ShiftComment(t, i + 1, j + 1);
    }
  }

  lemma ShiftComment(t: Text, a: nat, b: nat)
    requires t != [] && a > 0 && b > 0
    ensures IsComment(t[1..], a - 1, b - 1) <==> IsComment(t, a, b)
  {
    if a + 4 <= b <= |t| {
      forall k | a + 2 <= k < b - 1 ensures t[k] == t[1..][k - 1] {}
      if IsComment(t[1..], a - 1, b - 1) {
        forall k | a + 2 <= k < b - 2 ensures !(t[k] == 0x2A && t[k + 1] == 0x2F) {
          assert t[1..][k - 1] == t[k] && t[1..][k] == t[k + 1];
        }
      }
      if IsComment(t, a, b) {
        forall k | a + 1 <= k < b - 3 ensures !(t[1..][k] == 0x2A && t[1..][k + 1] == 0x2F) {
          assert t[1..][k] == t[k + 1] && t[1..][k + 1] == t[k + 2];
        }
      }
    }
  }

  /** A text without a comment is left as it is. */
  lemma {:induction false} NoComment(t: Text)
    requires forall i: nat, j: nat :: !IsComment(t, i, j)
    ensures StripComments(t) == t
  {
    if t != [] {
      NoCommentAtStart(t);
      forall i: nat, j: nat ensures !IsComment(t[1..], i, j) { ShiftComment(t, i + 1, j + 1); }
      NoComment(t[1..]);
    }
  }

  /** The text begins with this word in any case. */
  predicate HasWord(t: Text, word: Text) {
    |word| <= |t| && forall i :: 0 <= i < |word| ==> LowerAscii(t[i]) == word[i]
  }

  predicate BeginsStatement(t: Text) {
    HasWord(t, Name("@import")) || HasWord(t, Name("@charset")) || HasWord(t, Name("@namespace"))
  }

  predicate IsStop(c: Code) { c == 0x3B || c == 0x7B || c == 0x7D }

  /** The statement that begins a text goes up to the next semicolon, and takes it, or up to a brace or the end. */
  predicate IsStatement(t: Text, b: nat) {
    && BeginsStatement(t) && 7 <= b <= |t|
    && (|| (b > 7 && t[b - 1] == 0x3B && forall k :: 7 <= k < b - 1 ==> !IsStop(t[k]))
        || ((b == |t| || t[b] == 0x7B || t[b] == 0x7D) && forall k :: 7 <= k < b ==> !IsStop(t[k])))
  }

  lemma HasWordIff(t: Text, word: Text)
    ensures StartsWith(t, word) <==> HasWord(t, word)
  {
    if |word| <= |t| {
      var head := LowerText(t[..|word|]);
      assert forall i :: 0 <= i < |word| ==> head[i] == LowerAscii(t[i]);
      if HasWord(t, word) { assert head == word; }
    }
  }

  lemma ImportName()
    ensures Name("@import") == IMPORT
  {
    NameJoined("@im", "port");
    assert "@im" + "port" == "@import";
    assert Name("@im") == [0x40, 0x69, 0x6D] && Name("port") == [0x70, 0x6F, 0x72, 0x74];
  }

  lemma CharsetName()
    ensures Name("@charset") == CHARSET
  {
    NameJoined("@cha", "rset");
    assert "@cha" + "rset" == "@charset";
    assert Name("@cha") == [0x40, 0x63, 0x68, 0x61] && Name("rset") == [0x72, 0x73, 0x65, 0x74];
  }

  lemma NamespaceName()
    ensures Name("@namespace") == NAMESPACE
  {
    NameJoined("@nam", "espace");
    NameJoined("esp", "ace");
    assert "@nam" + "espace" == "@namespace" && "esp" + "ace" == "espace";
    assert Name("@nam") == [0x40, 0x6E, 0x61, 0x6D] && Name("esp") == [0x65, 0x73, 0x70] && Name("ace") == [0x61, 0x63, 0x65];
  }

  lemma StatementIff(t: Text)
    ensures StartsWith(t, IMPORT) || StartsWith(t, CHARSET) || StartsWith(t, NAMESPACE) <==> BeginsStatement(t)
    ensures BeginsStatement(t) ==> |t| >= 7
  {
    hide Name, StartsWith;
    ImportName();
    CharsetName();
    NamespaceName();
    HasWordIff(t, IMPORT);
    HasWordIff(t, CHARSET);
    HasWordIff(t, NAMESPACE);
  }

  lemma {:induction false} StatementEndIs(t: Text, i: nat, end: nat)
    requires i <= end <= |t| && (forall k :: i <= k < end ==> !IsStop(t[k])) && (end < |t| ==> IsStop(t[end]))
    ensures StatementEnd(t, i) == end
    decreases end - i
  {
    if i < end { StatementEndIs(t, i + 1, end); }
  }

  lemma FirstStatement(t: Text, b: nat)
    requires IsStatement(t, b)
    ensures StripStatements(t) == StripStatements(t[b..])
  {
    hide BeginsStatement, StartsWith;
    StatementIff(t);
    StatementEndIs(t, 7, if b > 7 && t[b - 1] == 0x3B then b - 1 else b);
  }

  lemma NoStatementFirst(t: Text)
    requires t != [] && !BeginsStatement(t)
    ensures StripStatements(t) == [t[0]] + StripStatements(t[1..])
  {
    hide BeginsStatement, StartsWith;
    StatementIff(t);
  }

  predicate NoneBefore(t: Text, a: nat)
    requires a <= |t|
  {
    forall i: nat :: i < a ==> !BeginsStatement(t[i..])
  }

  lemma NoneBeforeTail(t: Text, a: nat)
    requires 0 < a <= |t| && NoneBefore(t, a)
    ensures NoneBefore(t[1..], a - 1) && !BeginsStatement(t)
  {
    hide BeginsStatement;
    assert t[0..] == t;
    forall i: nat | i < a - 1 ensures !BeginsStatement(t[1..][i..]) { assert t[1..][i..] == t[i + 1..]; }
  }

  /** Without its first import, charset or namespace statement a text is stripped as what stands before and after it. */
  lemma {:induction false} StatementGone(t: Text, a: nat, b: nat)
    requires a + b <= |t| && IsStatement(t[a..], b) && NoneBefore(t, a)
    ensures StripStatements(t) == t[..a] + StripStatements(t[a + b..])
    decreases a
  {
    hide BeginsStatement, StripStatements, IsStatement, NoneBefore;
    if a == 0 {
      assert t[0..] == t;
      FirstStatement(t, b);
      assert t[..0] + StripStatements(t[b..]) == StripStatements(t[b..]);
    } else {
      NoneBeforeTail(t, a);
      NoStatementFirst(t);
      assert t[1..][a - 1..] == t[a..] && t[1..][a - 1 + b..] == t[a + b..];
      StatementGone(t[1..], a - 1, b);
      assert [t[0]] + t[1..][..a - 1] == t[..a];
    }
  }

  lemma {:induction false} NoStatement(t: Text)
    requires NoneBefore(t, |t|)
    ensures StripStatements(t) == t
  {
    hide BeginsStatement, NoneBefore;
    if t != [] {
      NoneBeforeTail(t, |t|);
      NoStatementFirst(t);
      NoStatement(t[1..]);
    }
  }

  /** A sheet is cut at 100,000 units, then its comments go, and then its statements. */
  lemma CleanIs(input: Text)
    ensures Clean(input) == StripStatements(StripComments(First(input, 100_000)))
  {
  }

  // ----- hashed names -----

  /** Two steps of the published values of the 32-bit FNV-1a hash. */
  lemma HashVectors()
    ensures Hash([]) == 0x811c9dc5
    ensures Hash([0x61]) == 0xe40c292c
  {
    assert [0x61][..0] == [];
    assert (0x61 as bv32) == 0x61;
    assert Hash([0x61]) == Mix(0x811c9dc5, 0x61);
  }

  /** `rr-` and eight hexadecimal digits, in any case. */
  predicate IsTokenText(t: Text) {
    |t| == 11 && LowerText(t[..3]) == [0x72, 0x72, 0x2D] && IsHex(LowerText(t[3..]))
  }

  lemma CanonicalIff(t: Text)
    ensures IsCanonical(t) <==> IsTokenText(t)
  {
    if |t| == 11 {
      var head, tail := LowerText(t[..3]), LowerText(t[3..]);
      assert head[0] == LowerAscii(t[0]) && head[1] == LowerAscii(t[1]) && head[2] == LowerAscii(t[2]);
      assert forall i :: 3 <= i < 11 ==> tail[i - 3] == LowerAscii(t[i]);
      if IsCanonical(t) {
        assert head == [0x72, 0x72, 0x2D];
        forall c | c in tail ensures HexValue(c) >= 0 { var i :| 0 <= i < 8 && tail[i] == c; assert tail[i + 3 - 3] == LowerAscii(t[i + 3]); }
      }
      if IsTokenText(t) {
        forall i | 3 <= i < 11 ensures HexValue(LowerAscii(t[i])) >= 0 { assert tail[i - 3] in tail; }
      }
    }
  }

  /** A token is its own, in lower case; any other text gives `rr-` and its hash in eight hexadecimal digits. */
  lemma TokenIs(t: Text)
    ensures var token := CanonicalToken(t);
            && |token| == 11 && token[..3] == [0x72, 0x72, 0x2D] && IsHex(token[3..])
            && if IsTokenText(t) then token == LowerText(t) else ReadHex(token[3..]) == Hash(t) as nat
  {
    CanonicalTokenStable(t);
    HashTextSound(t);
    CanonicalIff(t);
    hide Hash, HashText, HexValue, LowerAscii, IsTokenText, IsCanonical;
    if !IsCanonical(t) { assert CanonicalToken(t)[3..] == HashText(t); }
  }

  // ----- what is written -----

  function DeclarationTexts(ds: seq<Declaration>): seq<Text> {
    if ds == [] then [] else [ds[0].property + [0x3A] + ds[0].value] + DeclarationTexts(ds[1..])
  }

  /** Declarations are written as property, colon and value, with semicolons between them. */
  lemma {:induction false} DeclarationsWritten(ds: seq<Declaration>)
    ensures RenderDeclarations(ds) == Joined(DeclarationTexts(ds), 0x3B)
  {
    if ds != [] {
      DeclarationsWritten(ds[1..]);
      assert DeclarationTexts(ds)[1..] == DeclarationTexts(ds[1..]);
      if |ds| == 1 { assert DeclarationTexts(ds[1..]) == []; } else { assert |DeclarationTexts(ds[1..])| > 0; }
    }
  }

  lemma {:induction false} WordsWritten(ws: seq<Text>)
    ensures JoinWords(Canonicalized(ws)) == Joined(Canonicalized(ws), 0x20)
    ensures forall i :: 0 <= i < |ws| ==> Canonicalized(ws)[i] == CanonicalToken(ws[i])
  {
    hide CanonicalToken;
    if ws != [] {
      WordsWritten(ws[1..]);
      var r := Canonicalized(ws);
      assert r[1..] == Canonicalized(ws[1..]);
      forall i | 0 <= i < |ws| ensures r[i] == CanonicalToken(ws[i]) {
        if i > 0 { assert r[i] == r[1..][i - 1] && ws[i] == ws[1..][i - 1]; }
      }
    }
  }

  /** A class or id attribute becomes the tokens of its first 20 words, with spaces between them. */
  lemma TokensWritten(value: Text) returns (tokens: seq<Text>)
    ensures Tokens(value) == Joined(tokens, 0x20) && |tokens| == |First(Words(value), 20)|
    ensures forall i :: 0 <= i < |tokens| ==> tokens[i] == CanonicalToken(Words(value)[i])
  {
    hide Words, Joined, JoinWords, Canonicalized, CanonicalToken;
    WordsWritten(First(Words(value), 20));
    tokens := Canonicalized(First(Words(value), 20));
  }

  /** White space of ECMAScript: its white space characters and line terminators. */
  lemma SpaceIff(c: Code)
    ensures IsSpace(c)
       <==> || c in [0x09, 0x0B, 0x0C, 0x20, 0xA0, 0xFEFF] || c in [0x0A, 0x0D, 0x2028, 0x2029]
            || c in [0x1680, 0x2000, 0x2001, 0x2002, 0x2003, 0x2004, 0x2005, 0x2006, 0x2007, 0x2008, 0x2009, 0x200A, 0x202F, 0x205F, 0x3000]
  {
  }
}
