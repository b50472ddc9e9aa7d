/** What the CSS sanitizer can write: a grammar, balanced braces, and a text that reads back as the same rules. */
module CssGrammar {
  import opened JsonText
  import opened StructuralTokens
  import opened CssScanner
  import opened CssSanitizer

  const MAX_BRACES := 7

  // ----- the grammar -----

  predicate NoBrace(t: Text) {
    forall c :: c in t ==> Turn(c) == 0
  }

  predicate IsPropertyName(p: Text) {
    p != [] && forall c :: c in p ==> IsLetter(c) || IsDigit(c) || c == HYPHEN
  }

  predicate IsCleanValue(v: Text) {
    v != [] && forall c :: c in v ==> IsValueCode(c) || c == BULLET
  }

  predicate IsSelector(t: Text) {
    t != [] && forall c :: c in t ==> IsSelectorCode(c)
  }

  predicate IsGroupPrelude(t: Text) {
    t != [] && t[0] == AT && forall c :: c in t ==> IsPreludeCode(c) || c == BULLET
  }

  /** `levels` is how deep braces may still nest. */
  predicate WellFormed(r: Rule, levels: int) {
    match r
    case Style(selector, ds) =>
      levels >= 1 && IsSelector(selector) && 0 < |ds| <= MAX_DECLARATIONS
      && forall d :: d in ds ==> IsPropertyName(d.property) && IsCleanValue(d.value)
    case Group(prelude, body) =>
      levels >= 2 && IsGroupPrelude(prelude) && body != [] && forall b :: b in body ==> WellFormed(b, levels - 1)
  }

  // ----- declarations -----

  lemma HexIsWord(t: Text)
    requires IsHex(t)
    ensures forall c :: c in t ==> IsLetter(c) || IsDigit(c)
  {
  }

  lemma CanonicalCodes(t: Text)
    requires IsLowerCanonical(t)
    ensures forall c :: c in t ==> IsLetter(c) || IsDigit(c) || c == HYPHEN
  {
    HexIsWord(t[3..]);
    assert t == t[..3] + t[3..];
  }

  lemma {:induction false} LowerConcat(a: Text, b: Text)
    ensures LowerText(a + b) == LowerText(a) + LowerText(b)
  {
  }

  lemma CustomIsToken(property: Text)
    requires IsCustom(property)
    ensures CustomProperty(property) == [HYPHEN, HYPHEN] + CanonicalToken(property[2..])
  {
    hide HashText, IsCanonical;
    assert property == property[..2] + property[2..];
    LowerConcat(property[..2], property[2..]);
    assert LowerText(property[..2]) == [HYPHEN, HYPHEN];
  }

  lemma CustomPropertyOk(property: Text)
    requires IsCustom(property)
    ensures IsPropertyName(CustomProperty(property))
  {
    hide CustomProperty, CanonicalToken, IsLowerCanonical;
    CustomIsToken(property);
    CanonicalTokenStable(property[2..]);
    CanonicalCodes(CanonicalToken(property[2..]));
  }

  /** A kept declaration, as its name and its value became what they are. */
  lemma DeclarationMade(lists: Lists, raw: Text, d: Declaration) returns (property: Text, value: Text)
    requires d in CleanDeclaration(lists, raw)
    ensures IsCustom(property) || lists.safeProperty(property)
    ensures d.property == (if IsCustom(property) then CustomProperty(property) else property)
    ensures SafeValue(lists, value) && d.value == lists.redact(value)
  {
    hide CustomProperty, Trim, FirstFrom, SafeValue, IsCustom;
    var colon := FirstFrom(raw, 0, COLON);
    property := lists.lower(Trim(raw[..colon]));
    value := lists.hashVariables(Trim(raw[colon + 1..]));
  }

  lemma SafePropertyOk(lists: Lists, property: Text)
    requires Sound(lists) && lists.safeProperty(property)
    ensures IsPropertyName(property)
  {
  }

  lemma SafeValueOk(lists: Lists, value: Text)
    requires Sound(lists) && SafeValue(lists, value)
    ensures IsCleanValue(lists.redact(value))
  {
    hide IsValueCode;
  }

  lemma CleanDeclarationOk(lists: Lists, raw: Text)
    requires Sound(lists)
    ensures forall d :: d in CleanDeclaration(lists, raw) ==> IsPropertyName(d.property) && IsCleanValue(d.value)
  {
    hide *;
    forall d | d in CleanDeclaration(lists, raw) ensures IsPropertyName(d.property) && IsCleanValue(d.value) {
      var property, value := DeclarationMade(lists, raw, d);
      if IsCustom(property) { CustomPropertyOk(property); } else { SafePropertyOk(lists, property); }
      SafeValueOk(lists, value);
    }
  }

  lemma {:induction false} CleanPiecesOk(lists: Lists, pieces: seq<Text>)
    requires Sound(lists)
    ensures forall d :: d in CleanPieces(lists, pieces) ==> IsPropertyName(d.property) && IsCleanValue(d.value)
  {
    hide CleanDeclaration, IsPropertyName, IsCleanValue;
    if pieces != [] {
      CleanPiecesOk(lists, pieces[..|pieces| - 1]);
      CleanDeclarationOk(lists, pieces[|pieces| - 1]);
    }
  }

  // ----- selectors -----

  lemma {:induction false} HashNamesOk(t: Text)
    requires forall c :: c in t ==> IsSelectorCode(c)
    ensures t != [] ==> HashNames(t) != [] && HashNames(t)[0] == t[0]
    ensures forall c :: c in HashNames(t) ==> IsSelectorCode(c)
    decreases |t|
  {
    hide CanonicalToken;
    if t != [] {
      assert t[0] in t;
      if StartsName(t) {
        var n := NameLength(t[1..]);
        CanonicalTokenStable(t[1..n + 1]);
        CanonicalCodes(CanonicalToken(t[1..n + 1]));
        HashNamesOk(t[n + 1..]);
      } else {
        HashNamesOk(t[1..]);
      }
    }
  }

  lemma NameOfToken(token: Text, rest: Text)
    requires IsLowerCanonical(token) && (rest == [] || !IsNameCode(rest[0]))
    ensures NameLength(token + rest) == |token| && IsNameStart((token + rest)[0])
  {
    CanonicalCodes(token);
    assert token[..3][0] == LOWER_R;
    var n := NameLength(token + rest);
    assert forall i :: 0 <= i < |token| ==> (token + rest)[i] in token;
    assert n < |token| ==> !IsNameCode((token + rest)[n]);
    if rest != [] { assert (token + rest)[|token|] == rest[0]; }
  }

  lemma {:induction false} HashNamesStart(t: Text)
    ensures t != [] ==> HashNames(t) != [] && HashNames(t)[0] == t[0]
    ensures t == [] ==> HashNames(t) == []
  {
  }

  /** A hashed name, followed by anything that does not continue it, is hashed to itself. */
  lemma HashNamesOnce(c: Code, token: Text, rest: Text)
    requires (c == FULL_STOP || c == HASH_SIGN) && IsLowerCanonical(token) && CanonicalToken(token) == token
    requires rest == [] || !IsNameCode(rest[0])
    ensures HashNames([c] + token + rest) == [c] + token + HashNames(rest)
  {
    hide CanonicalToken, HashNames, IsNameCode, IsNameStart, NameLength;
    NameOfToken(token, rest);
    hide IsLowerCanonical;
    var h := [c] + token + rest;
    assert h[1..] == token + rest;
    assert h[0] == c && h[1] == (token + rest)[0] && |h| >= 2;
    assert h[1..|token| + 1] == token && h[|token| + 1..] == rest;
    HashNamesSplit(h);
  }

  lemma HashNamesSkip(t: Text)
    requires t != [] && !StartsName(t)
    ensures HashNames(t) == [t[0]] + HashNames(t[1..])
  {
    hide CanonicalToken;
  }

  /** Names that one pass hashed are unchanged by the next. */
  lemma {:induction false} HashNamesStable(t: Text)
    ensures HashNames(HashNames(t)) == HashNames(t)
    decreases |t|
  {
    hide HashNames, CanonicalToken, IsNameCode, IsNameStart, IsLowerCanonical;
    if t == [] {
      HashNamesStart(t);
    } else if StartsName(t) {
      var n := NameLength(t[1..]);
      HashNamesSplit(t);
      CanonicalTokenStable(t[1..n + 1]);
      HashNamesStable(t[n + 1..]);
      HashNamesStart(t[n + 1..]);
      HashNamesOnce(t[0], CanonicalToken(t[1..n + 1]), HashNames(t[n + 1..]));
    } else {
      HashNamesSkip(t);
      HashNamesStable(t[1..]);
      HashNamesStart(t[1..]);
      var h := HashNames(t);
      assert h[1..] == HashNames(t[1..]);
      HashNamesSkip(h);
    }
  }

  lemma HashNamesSplit(t: Text)
    requires StartsName(t)
    ensures var n := NameLength(t[1..]);
            HashNames(t) == [t[0]] + CanonicalToken(t[1..n + 1]) + HashNames(t[n + 1..])
  {
    hide CanonicalToken;
  }

  lemma {:induction false} CleanSelectorsOk(t: Text)
    ensures forall s :: s in CleanSelectors(t) ==> IsSelector(s)
    decreases |t|
  {
    var comma := FirstFrom(t, 0, COMMA);
    var candidate := Trim(if comma == -1 then t else t[..comma]);
    if SafeSelector(candidate) { HashNamesOk(candidate); }
    hide HashNames, Trim, IsSelectorCode;
    if comma != -1 { CleanSelectorsOk(t[comma + 1..]); }
  }

  lemma {:induction false} JoinSelectorsOk(ts: seq<Text>)
    requires forall s :: s in ts ==> IsSelector(s)
    ensures ts != [] ==> IsSelector(JoinSelectors(ts))
  {
    if |ts| > 1 {
      JoinSelectorsOk(ts[1..]);
      assert IsSelector(ts[0]) && IsSelectorCode(COMMA);
    } else if |ts| == 1 {
      assert ts[0] in ts;
    }
  }

  lemma CleanSelectorOk(input: Text)
    ensures CleanSelector(input) != [] ==> IsSelector(CleanSelector(input))
  {
    hide CleanSelectors, JoinSelectors, IsSelector;
    CleanSelectorsOk(input);
    var ts := CleanSelectors(input);
    var kept := if |ts| > MAX_SELECTORS then ts[..MAX_SELECTORS] else ts;
    JoinSelectorsOk(kept);
    if kept == [] { assert JoinSelectors([]) == [] by { NoSelectors(); } }
  }

  lemma NoSelectors()
    ensures JoinSelectors([]) == []
  {
  }

  // ----- sheets -----

  lemma PreludeOk(lists: Lists, prelude: Text)
    requires Sound(lists) && CleanPrelude(lists, prelude) != []
    ensures IsGroupPrelude(CleanPrelude(lists, prelude))
  {
    GroupStartsWithAt(prelude);
    hide IsGroup, IsPreludeCode;
  }

  lemma FirstLetter(t: Text, word: Text)
    requires word != [] && StartsWith(t, word)
    ensures t != [] && LowerAscii(t[0]) == word[0]
  {
    assert LowerText(t[..|word|])[0] == LowerAscii(t[0]);
  }

  lemma GroupStartsWithAt(prelude: Text)
    requires IsGroup(prelude)
    ensures prelude != [] && prelude[0] == AT
  {
    hide StartsWith;
    if StartsWith(prelude, MEDIA) { FirstLetter(prelude, MEDIA); }
    else if StartsWith(prelude, SUPPORTS) { FirstLetter(prelude, SUPPORTS); }
    else if StartsWith(prelude, CONTAINER) { FirstLetter(prelude, CONTAINER); }
    else { FirstLetter(prelude, LAYER); }
  }

  lemma DeclarationsOk(lists: Lists, body: Text)
    requires Sound(lists)
    ensures forall d :: d in Declarations(lists, body) ==> IsPropertyName(d.property) && IsCleanValue(d.value)
    ensures |Declarations(lists, body)| <= MAX_DECLARATIONS
  {
    hide CleanPieces, IsPropertyName, IsCleanValue, Split, Sound;
    CleanPiecesOk(lists, Split(body));
    assert forall d :: d in Declarations(lists, body) ==> d in CleanPieces(lists, Split(body));
  }

  lemma NoDeclarations()
    ensures RenderDeclarations([]) == []
  {
  }

  lemma StyleOk(lists: Lists, prelude: Text, body: Text, levels: int)
    requires Sound(lists) && levels >= 1
    ensures forall r :: r in StyleRule(lists, prelude, body) ==> WellFormed(r, levels)
  {
    hide CleanSelector, Declarations, RenderDeclarations, IsPropertyName, IsCleanValue, IsSelector, Sound;
    CleanSelectorOk(prelude);
    DeclarationsOk(lists, body);
    NoDeclarations();
  }

  lemma {:induction false} RulesWellFormed(lists: Lists, input: Text, depth: nat)
    requires Sound(lists) && depth <= MAX_NESTING + 1
    ensures forall r :: r in Rules(lists, input, depth) ==> WellFormed(r, MAX_BRACES - depth)
    decreases MAX_BRACES - depth, 1, 0
  {
    hide RulesFrom, WellFormed, Clean;
    if depth <= MAX_NESTING { RulesFromWellFormed(lists, Clean(input), 0, depth); }
  }

  lemma {:induction false} RulesFromWellFormed(lists: Lists, css: Text, cursor: nat, depth: nat)
    requires Sound(lists) && cursor <= |css| && depth <= MAX_NESTING
    ensures forall r :: r in RulesFrom(lists, css, cursor, depth) ==> WellFormed(r, MAX_BRACES - depth)
    decreases MAX_BRACES - depth, 0, |css| - cursor
  {
    hide RuleAt, WellFormed;
    if ScanEnds(css, cursor) {
      ScanEnded(lists, css, cursor, depth);
    } else {
      var open := FirstFrom(css, cursor, OPEN_BRACE);
      var close := ClosingFrom(css, open, open);
      ScanStep(lists, css, cursor, open, close, depth, []);
      RuleAtWellFormed(lists, css, cursor, open, close, depth);
      RulesFromWellFormed(lists, css, close + 1, depth);
    }
  }

  lemma RuleAtWellFormed(lists: Lists, css: Text, cursor: nat, open: nat, close: nat, depth: nat)
    requires Sound(lists) && cursor <= open < close < |css| && depth <= MAX_NESTING
    ensures forall r :: r in RuleAt(lists, css, cursor, open, close, depth) ==> WellFormed(r, MAX_BRACES - depth)
    decreases MAX_BRACES - depth, 0, 0
  {
    var prelude, body := Trim(css[cursor..open]), css[open + 1..close];
    RulesWellFormed(lists, body, depth + 1);
    StyleOk(lists, prelude, body, MAX_BRACES - depth);
    if CleanPrelude(lists, prelude) != [] { PreludeOk(lists, prelude); }
    if depth == MAX_NESTING { assert Rules(lists, body, depth + 1) == []; }
    hide Rules, CleanPrelude, StyleRule, IsGroup, IsGroupPrelude, Trim;
    RenderNone();
  }

  // ----- balanced braces -----

  /** Balanced, and never more than `n` braces deep. */
  ghost predicate Within(t: Text, n: int) {
    Depth(t) == 0 && forall i :: 0 <= i <= |t| ==> 0 <= Depth(t[..i]) <= n
  }

  lemma {:induction false} DepthConcat(a: Text, b: Text)
    ensures Depth(a + b) == Depth(a) + Depth(b)
  {
    if b == [] {
      assert a + b == a;
    } else {
      DepthConcat(a, b[..|b| - 1]);
      assert (a + b)[..|a + b| - 1] == a + b[..|b| - 1];
    }
  }

  lemma {:induction false} NoBraceDepth(t: Text)
    requires NoBrace(t)
    ensures Depth(t) == 0
  {
    if t != [] { NoBraceDepth(t[..|t| - 1]); }
  }

  lemma NoBraceWithin(t: Text, n: int)
    requires NoBrace(t) && n >= 0
    ensures Within(t, n)
  {
    hide Depth;
    NoBraceDepth(t);
    forall i | 0 <= i <= |t| ensures Depth(t[..i]) == 0 { NoBraceDepth(t[..i]); }
  }

  lemma WithinConcat(a: Text, b: Text, n: int)
    requires Within(a, n) && Within(b, n)
    ensures Within(a + b, n)
  {
    hide Depth;
    DepthConcat(a, b);
    forall i | 0 <= i <= |a + b| ensures 0 <= Depth((a + b)[..i]) <= n {
      if i <= |a| {
        assert (a + b)[..i] == a[..i];
      } else {
        assert (a + b)[..i] == a + b[..i - |a|];
        DepthConcat(a, b[..i - |a|]);
      }
    }
  }

  function Braced(t: Text): Text { [OPEN_BRACE] + t + [CLOSE_BRACE] }

  lemma DepthOne(c: Code)
    ensures Depth([c]) == Turn(c)
  {
    assert [c][..0] == [] && Depth([]) == 0;
  }

  /** Inside braces the depth is one more. */
  lemma DepthInside(t: Text, i: nat)
    requires i <= |t|
    ensures Depth([OPEN_BRACE] + t[..i]) == 1 + Depth(t[..i])
  {
    DepthOne(OPEN_BRACE);
    hide Depth;
    DepthConcat([OPEN_BRACE], t[..i]);
  }

  lemma BracedWithin(t: Text, n: int)
    requires Within(t, n)
    ensures Within(Braced(t), n + 1)
  {
    NoDepth();
    DepthOne(CLOSE_BRACE);
    hide Depth;
    var b := Braced(t);
    DepthInside(t, |t|);
    assert t[..|t|] == t;
    DepthConcat([OPEN_BRACE] + t, [CLOSE_BRACE]);
    forall i | 0 <= i <= |b| ensures 0 <= Depth(b[..i]) <= n + 1 {
      if i == 0 {
        assert b[..i] == [];
      } else if i <= |t| + 1 {
        assert b[..i] == [OPEN_BRACE] + t[..i - 1];
        DepthInside(t, i - 1);
      } else {
        assert b[..i] == b;
      }
    }
    assert b[..|t| + 1] == [OPEN_BRACE] + t;
  }

  lemma {:induction false} DeclarationsNoBrace(ds: seq<Declaration>)
    requires forall d :: d in ds ==> IsPropertyName(d.property) && IsCleanValue(d.value)
    ensures NoBrace(RenderDeclarations(ds))
  {
    if |ds| > 0 {
      assert ds[0] in ds;
      assert NoBrace(RenderDeclaration(ds[0]));
      if |ds| > 1 { DeclarationsNoBrace(ds[1..]); }
    }
  }

  lemma {:induction false} RenderWithin(rules: seq<Rule>, levels: nat)
    requires forall r :: r in rules ==> WellFormed(r, levels)
    ensures Within(Render(rules), levels)
  {
    hide Within, WellFormed, RenderRule;
    if rules == [] {
      NoBraceWithin([], levels);
    } else {
      RenderRuleWithin(rules[0], levels);
      RenderWithin(rules[1..], levels);
      WithinConcat(RenderRule(rules[0]), Render(rules[1..]), levels);
    }
  }

  function Head(r: Rule): Text {
    if r.Style? then r.selector else r.prelude
  }

  function Body(r: Rule): Text {
    if r.Style? then RenderDeclarations(r.declarations) else Render(r.body)
  }

  lemma RenderHeadBody(r: Rule)
    ensures RenderRule(r) == Head(r) + Braced(Body(r))
  {
  }

  lemma BodyWithin(r: Rule, levels: nat)
    requires WellFormed(r, levels)
    ensures levels >= 1 && NoBrace(Head(r)) && Within(Body(r), levels - 1)
    decreases r, 0
  {
    hide Within, Render, RenderDeclarations;
    match r
    case Style(_, ds) =>
      DeclarationsNoBrace(ds);
      NoBraceWithin(RenderDeclarations(ds), levels - 1);
    case Group(_, body) => RenderWithin(body, levels - 1);
  }

  lemma RenderRuleWithin(r: Rule, levels: nat)
    requires WellFormed(r, levels)
    ensures Within(RenderRule(r), levels)
    decreases r, 1
  {
    BodyWithin(r, levels);
    RenderHeadBody(r);
    hide Within, WellFormed, RenderRule;
    NoBraceWithin(Head(r), levels);
    BracedWithin(Body(r), levels - 1);
    WithinConcat(Head(r), Braced(Body(r)), levels);
  }

  // ----- reading back -----

  /** What a brace matcher makes of a text: the text before each outermost brace and the text inside. */
  function ReadBlocks(css: Text): seq<(Text, Text)>
    decreases |css|
  {
    var open := FirstFrom(css, 0, OPEN_BRACE);
    if open == -1 then []
    else
      var close := ClosingFrom(css, open, open);
      if close == -1 then [] else [(css[..open], css[open + 1..close])] + ReadBlocks(css[close + 1..])
  }

  function BlocksOf(rules: seq<Rule>): seq<(Text, Text)> {
    if rules == [] then [] else [(Head(rules[0]), Body(rules[0]))] + BlocksOf(rules[1..])
  }

  lemma OpenAfterHead(head: Text, rest: Text)
    requires NoBrace(head)
    ensures FirstFrom(head + [OPEN_BRACE] + rest, 0, OPEN_BRACE) == |head|
  {
    var css := head + [OPEN_BRACE] + rest;
    assert css[|head|] == OPEN_BRACE;
    forall i | 0 <= i < |head| ensures css[i] != OPEN_BRACE { assert css[i] in head; }
    hide FirstFrom;
  }

  function Embedded(head: Text, body: Text, rest: Text): Text {
    head + [OPEN_BRACE] + (body + [CLOSE_BRACE] + rest)
  }

  lemma NotClosedInside(head: Text, body: Text, rest: Text, n: int, i: nat)
    requires Within(body, n) && |head| <= i < |head| + 1 + |body|
    ensures !Closes(Embedded(head, body, rest), |head|, i)
  {
    var b := i - |head|;
    DepthInside(body, b);
    assert Embedded(head, body, rest)[|head|..i + 1] == [OPEN_BRACE] + body[..b];
    hide Depth;
  }

  lemma ClosedAfter(head: Text, body: Text, rest: Text, n: int)
    requires Within(body, n)
    ensures Closes(Embedded(head, body, rest), |head|, |head| + 1 + |body|)
  {
    BracedWithin(body, n);
    hide Depth;
    assert Embedded(head, body, rest)[|head|..|head| + 1 + |body| + 1] == Braced(body);
  }

  lemma CloseAfterBody(head: Text, body: Text, rest: Text, n: int)
    requires Within(body, n)
    ensures ClosingFrom(Embedded(head, body, rest), |head|, |head|) == |head| + 1 + |body|
  {
    hide ClosingFrom, Closes, Within;
    ClosedAfter(head, body, rest, n);
    forall i | |head| <= i < |head| + 1 + |body| ensures !Closes(Embedded(head, body, rest), |head|, i) {
      NotClosedInside(head, body, rest, n, i);
    }
  }

  lemma SplitEmbedded(head: Text, body: Text, rest: Text)
    ensures var css := Embedded(head, body, rest);
            && css[..|head|] == head && css[|head| + 1..|head| + 1 + |body|] == body
            && css[|head| + 1 + |body| + 1..] == rest && css == head + Braced(body) + rest
            && css == head + [OPEN_BRACE] + (body + [CLOSE_BRACE] + rest)
  {
  }

  lemma ReadOneBlock(head: Text, body: Text, rest: Text, n: int)
    requires NoBrace(head) && Within(body, n)
    ensures ReadBlocks(head + Braced(body) + rest) == [(head, body)] + ReadBlocks(rest)
  {
    hide Within, Closes, NoBrace, ClosingFrom, FirstFrom, Embedded, Braced;
    SplitEmbedded(head, body, rest);
    OpenAfterHead(head, body + [CLOSE_BRACE] + rest);
    CloseAfterBody(head, body, rest, n);
  }

  lemma {:induction false} RenderReadsBack(rules: seq<Rule>, levels: nat)
    requires forall r :: r in rules ==> WellFormed(r, levels)
    ensures ReadBlocks(Render(rules)) == BlocksOf(rules)
  {
    hide WellFormed, Within, RenderRule, ReadBlocks;
    if rules == [] {
      NothingToRead();
    } else {
      BodyWithin(rules[0], levels);
      RenderHeadBody(rules[0]);
      ReadOneBlock(Head(rules[0]), Body(rules[0]), Render(rules[1..]), levels - 1);
      RenderReadsBack(rules[1..], levels);
    }
  }

  lemma NothingToRead()
    ensures ReadBlocks([]) == []
  {
  }

  // ----- main results -----

  /**
   * For every text, however unbalanced: what the sanitizer writes is derived from the grammar of
   * rules, its braces balance and nest at most seven deep, and a brace matcher reads it back as
   * exactly the rules that were kept.
   */
  lemma OutputGrammar(lists: Lists, input: Text)
    requires Sound(lists)
    ensures var rules := Rules(lists, input, 0);
            && (forall r :: r in rules ==> WellFormed(r, MAX_BRACES))
            && Within(Render(rules), MAX_BRACES)
            && ReadBlocks(Render(rules)) == BlocksOf(rules)
  {
    hide Sound, Rules, Within, Render, ReadBlocks, BlocksOf, WellFormed;
    RulesWellFormed(lists, input, 0);
    RenderWithin(Rules(lists, input, 0), MAX_BRACES);
    RenderReadsBack(Rules(lists, input, 0), MAX_BRACES);
  }
}
