/** `sanitizeCssStylesheet` and what it calls, in src/replay/sanitize.ts (the same code as in sdk/src/replayPrivacy.ts). */
module CssSanitizer {
  import opened JsonText
  import opened StructuralTokens
  import opened CssScanner

  const AT: Code := 0x40
  const ASTERISK: Code := 0x2A
  const SLASH: Code := 0x2F
  const UNDERSCORE: Code := 0x5F
  const FULL_STOP: Code := 0x2E
  const HASH_SIGN: Code := 0x23
  const BULLET: Code := 0x2022
  const MAX_SHEET := 100_000
  const MAX_DECLARATIONS := 500
  const MAX_SELECTORS := 100
  const MAX_NESTING := 6

  /**
   * The allow lists and the Unicode case mapping: `lower` is `toLowerCase`, `safeProperty` is
   * SAFE_CSS_PROPERTY, `hashVariables` rewrites the names inside `var(`, `loadsContent` is the
   * expression that finds URLs and scripts in a value, `urlLike` is URL_LIKE, and `redact` writes
   * bullets over what SECRET_LIKE matches.
   */
  datatype Lists = Lists(
    lower: Text -> Text,
    safeProperty: Text -> bool,
    hashVariables: Text -> Text,
    loadsContent: Text -> bool,
    urlLike: Text -> bool,
    redact: Text -> Text)

  predicate IsLetter(c: Code) { 0x41 <= c <= 0x5A || 0x61 <= c <= 0x7A }
  predicate IsDigit(c: Code) { 0x30 <= c <= 0x39 }
  predicate IsWordCode(c: Code) { IsLetter(c) || IsDigit(c) || c == UNDERSCORE }

  /** What is used of the lists: property names are letters and hyphens, and redaction only writes bullets. */
  ghost predicate Sound(lists: Lists) {
    && (forall p :: lists.safeProperty(p) ==> p != [] && forall c :: c in p ==> IsLetter(c) || c == HYPHEN)
    && (forall t :: t != [] ==> lists.redact(t) != [])
    && (forall t, c :: c in lists.redact(t) ==> c in t || c == BULLET)
    && (forall t: Text :: t != [] && t[0] == AT ==> lists.redact(t) != [] && lists.redact(t)[0] == AT)
  }

  // ----- text helpers -----

  function TrimStart(t: Text): Text {
    if t != [] && IsSpace(t[0]) then TrimStart(t[1..]) else t
  }

  function TrimEnd(t: Text): Text {
    if t != [] && IsSpace(t[|t| - 1]) then TrimEnd(t[..|t| - 1]) else t
  }

  function Trim(t: Text): Text { TrimEnd(TrimStart(t)) }

  /** A case-insensitive match at the start of a text. */
  predicate StartsWith(t: Text, word: Text) {
    |word| <= |t| && LowerText(t[..|word|]) == word
  }

  /** Where the comment that starts `t` ends, or -1: the first asterisk and slash from `i` on. */
  function CommentEnd(t: Text, i: nat): (end: int)
    requires i <= |t|
    ensures end == -1 || i < end <= |t|
    decreases |t| - i
  {
    if i + 1 >= |t| then -1 else if t[i] == ASTERISK && t[i + 1] == SLASH then i + 2 else CommentEnd(t, i + 1)
  }

  function StripComments(t: Text): (r: Text)
    decreases |t|
  {
    if t == [] then []
    else if |t| >= 2 && t[0] == SLASH && t[1] == ASTERISK && CommentEnd(t, 2) != -1 then StripComments(t[CommentEnd(t, 2)..])
    else [t[0]] + StripComments(t[1..])
  }

  const IMPORT: Text := [0x40, 0x69, 0x6D, 0x70, 0x6F, 0x72, 0x74]
  const CHARSET: Text := [0x40, 0x63, 0x68, 0x61, 0x72, 0x73, 0x65, 0x74]
  const NAMESPACE: Text := [0x40, 0x6E, 0x61, 0x6D, 0x65, 0x73, 0x70, 0x61, 0x63, 0x65]

  /** The end of the run of units that are neither a semicolon nor a brace. */
  function StatementEnd(t: Text, i: nat): (end: nat)
    requires i <= |t|
    ensures i <= end <= |t|
    decreases |t| - i
  {
    if i == |t| || t[i] == SEMICOLON || Turn(t[i]) != 0 then i else StatementEnd(t, i + 1)
  }

  function StripStatements(t: Text): (r: Text)
    decreases |t|
  {
    if t == [] then []
    else if StartsWith(t, IMPORT) || StartsWith(t, CHARSET) || StartsWith(t, NAMESPACE) then
      var end := StatementEnd(t, 7);
      StripStatements(t[if end < |t| && t[end] == SEMICOLON then end + 1 else end..])
    else [t[0]] + StripStatements(t[1..])
  }

  function Clean(input: Text): Text {
    StripStatements(StripComments(if |input| > MAX_SHEET then input[..MAX_SHEET] else input))
  }

  // ----- declarations -----

  datatype Declaration = Declaration(property: Text, value: Text)

  predicate IsCustom(property: Text) {
    |property| >= 2 && property[0] == HYPHEN && property[1] == HYPHEN
  }

  /** `canonicalCustomProperty`. */
  function CustomProperty(property: Text): Text
    requires IsCustom(property)
  {
    if IsCanonical(property[2..]) then LowerText(property)
    else [HYPHEN, HYPHEN, LOWER_R, LOWER_R, HYPHEN] + HashText(property[2..])
  }

  predicate IsValueCode(c: Code) {
    || IsWordCode(c) || IsSpace(c) || c == HASH_SIGN || c == FULL_STOP || c == COMMA
    || c == OPEN_PARENTHESIS || c == CLOSE_PARENTHESIS || c == 0x25 || c == SLASH || c == 0x2B
    || c == ASTERISK || c == COLON || c == 0x21 || c == HYPHEN
  }

  predicate SafeValue(lists: Lists, value: Text) {
    value != [] && |value| <= 4_000 && !lists.loadsContent(value) && forall c :: c in value ==> IsValueCode(c)
  }

  /** One piece between semicolons; a piece that is not an allowed declaration gives nothing. */
  function CleanDeclaration(lists: Lists, raw: Text): seq<Declaration> {
    var colon := FirstFrom(raw, 0, COLON);
    if colon <= 0 then []
    else
      var property := lists.lower(Trim(raw[..colon]));
      var value := lists.hashVariables(Trim(raw[colon + 1..]));
      if !IsCustom(property) && !lists.safeProperty(property) then []
      else if !SafeValue(lists, value) then []
      else [Declaration(if IsCustom(property) then CustomProperty(property) else property, lists.redact(value))]
  }

  function CleanPieces(lists: Lists, pieces: seq<Text>): seq<Declaration> {
    if pieces == [] then [] else CleanPieces(lists, pieces[..|pieces| - 1]) + CleanDeclaration(lists, pieces[|pieces| - 1])
  }

  function FirstOnes(ds: seq<Declaration>): seq<Declaration> {
    if |ds| > MAX_DECLARATIONS then ds[..MAX_DECLARATIONS] else ds
  }

  /** The declarations that `sanitizeCssDeclarations` keeps. */
  function Declarations(lists: Lists, input: Text): seq<Declaration> {
    FirstOnes(CleanPieces(lists, Split(input)))
  }

  function RenderDeclaration(d: Declaration): Text {
    d.property + [COLON] + d.value
  }

  function RenderDeclarations(ds: seq<Declaration>): Text {
    if ds == [] then []
    else if |ds| == 1 then RenderDeclaration(ds[0])
    else RenderDeclaration(ds[0]) + [SEMICOLON] + RenderDeclarations(ds[1..])
  }

  lemma {:induction false} CleanPiecesPrefix(lists: Lists, pieces: seq<Text>, n: nat)
    requires n <= |pieces|
    ensures CleanPieces(lists, pieces[..n]) <= CleanPieces(lists, pieces)
  {
    hide CleanDeclaration;
    if n < |pieces| {
      CleanPiecesPrefix(lists, pieces[..|pieces| - 1], n);
      assert pieces[..|pieces| - 1][..n] == pieces[..n];
    } else {
      assert pieces[..n] == pieces;
    }
  }

  lemma OneMorePiece(lists: Lists, pieces: seq<Text>, k: nat)
    requires k < |pieces|
    ensures CleanPieces(lists, pieces[..k + 1]) == CleanPieces(lists, pieces[..k]) + CleanDeclaration(lists, pieces[k])
    ensures CleanPieces(lists, pieces[..k + 1]) <= CleanPieces(lists, pieces)
    ensures |CleanDeclaration(lists, pieces[k])| <= 1
  {
    assert pieces[..k + 1][..k] == pieces[..k];
    CleanPiecesPrefix(lists, pieces, k + 1);
    AtMostOne(lists, pieces[k]);
    hide CleanDeclaration;
  }

  method SanitizeDeclarations(lists: Lists, input: Text) returns (kept: seq<Declaration>)
    ensures kept == Declarations(lists, input)
  {
    hide CleanDeclaration, CleanPieces, Split, IsSplit;
    var pieces := SplitDeclarations(input);
    kept := [];
    NoPieces(lists);
    assert pieces[..0] == [];
    for k := 0 to |pieces|
      invariant kept == CleanPieces(lists, pieces[..k]) && |kept| < MAX_DECLARATIONS
    {
      OneMorePiece(lists, pieces, k);
      var found := CleanDeclaration(lists, pieces[k]);
      if found == [] { continue; }
      kept := kept + found;
      if |kept| >= MAX_DECLARATIONS { return; }
    }
    assert pieces[..|pieces|] == pieces;
  }

  lemma NoPieces(lists: Lists)
    ensures CleanPieces(lists, []) == []
  {
  }

  lemma AtMostOne(lists: Lists, raw: Text)
    ensures |CleanDeclaration(lists, raw)| <= 1
  {
  }

  // ----- selectors -----

  predicate IsNameStart(c: Code) { IsLetter(c) || c == UNDERSCORE }
  predicate IsNameCode(c: Code) { IsWordCode(c) || c == HYPHEN }

  function NameLength(t: Text): (n: nat)
    ensures n <= |t| && (n < |t| ==> !IsNameCode(t[n])) && forall i :: 0 <= i < n ==> IsNameCode(t[i])
  {
    if t == [] || !IsNameCode(t[0]) then 0 else 1 + NameLength(t[1..])
  }

  predicate StartsName(t: Text) {
    |t| >= 2 && (t[0] == FULL_STOP || t[0] == HASH_SIGN) && IsNameStart(t[1])
  }

  /** Every class and id name is replaced by its token. */
  function HashNames(t: Text): Text
    decreases |t|
  {
    if t == [] then []
    else if StartsName(t) then
      var n := NameLength(t[1..]);
      [t[0]] + CanonicalToken(t[1..n + 1]) + HashNames(t[n + 1..])
    else [t[0]] + HashNames(t[1..])
  }

  predicate IsSelectorCode(c: Code) {
    || IsWordCode(c) || IsSpace(c) || c == ASTERISK || c == FULL_STOP || c == HASH_SIGN || c == COLON
    || c == OPEN_PARENTHESIS || c == CLOSE_PARENTHESIS || c == COMMA || c == 0x3E || c == 0x2B || c == 0x7E
    || c == SLASH || c == HYPHEN
  }

  predicate SafeSelector(t: Text) {
    0 < |t| <= 2_000 && forall c :: c in t ==> IsSelectorCode(c)
  }

  function CleanSelectors(t: Text): seq<Text>
    decreases |t|
  {
    var comma := FirstFrom(t, 0, COMMA);
    var candidate := Trim(if comma == -1 then t else t[..comma]);
    (if SafeSelector(candidate) then [HashNames(candidate)] else [])
    + (if comma == -1 then [] else CleanSelectors(t[comma + 1..]))
  }

  function JoinSelectors(ts: seq<Text>): Text {
    if ts == [] then [] else if |ts| == 1 then ts[0] else ts[0] + [COMMA] + JoinSelectors(ts[1..])
  }

  /** `sanitizeCssSelector`. */
  function CleanSelector(input: Text): Text {
    var ts := CleanSelectors(input);
    JoinSelectors(if |ts| > MAX_SELECTORS then ts[..MAX_SELECTORS] else ts)
  }

  // ----- at-rules -----

  const MEDIA: Text := [0x40, 0x6D, 0x65, 0x64, 0x69, 0x61]
  const SUPPORTS: Text := [0x40, 0x73, 0x75, 0x70, 0x70, 0x6F, 0x72, 0x74, 0x73]
  const CONTAINER: Text := [0x40, 0x63, 0x6F, 0x6E, 0x74, 0x61, 0x69, 0x6E, 0x65, 0x72]
  const LAYER: Text := [0x40, 0x6C, 0x61, 0x79, 0x65, 0x72]

  predicate AtWord(t: Text, word: Text) {
    StartsWith(t, word) && (|t| > |word| ==> !IsWordCode(t[|word|]))
  }

  predicate IsGroup(prelude: Text) {
    AtWord(prelude, MEDIA) || AtWord(prelude, SUPPORTS) || AtWord(prelude, CONTAINER) || AtWord(prelude, LAYER)
  }

  predicate IsPreludeCode(c: Code) {
    || IsWordCode(c) || IsSpace(c) || c == AT || c == OPEN_PARENTHESIS || c == CLOSE_PARENTHESIS || c == COLON
    || c == FULL_STOP || c == COMMA || c == SLASH || c == 0x25 || c == 0x2B || c == HYPHEN
  }

  /** `sanitizeCssAtRulePrelude`. */
  function CleanPrelude(lists: Lists, input: Text): Text {
    if !IsGroup(input) || |input| > 2_000 then []
    else if (exists c :: c in input && !IsPreludeCode(c)) || lists.urlLike(input) then []
    else lists.redact(input)
  }

  // ----- sheets -----

  datatype Rule = Style(selector: Text, declarations: seq<Declaration>) | Group(prelude: Text, body: seq<Rule>)

  function RenderRule(r: Rule): Text {
    match r
    case Style(selector, declarations) => selector + [OPEN_BRACE] + RenderDeclarations(declarations) + [CLOSE_BRACE]
    case Group(prelude, body) => prelude + [OPEN_BRACE] + Render(body) + [CLOSE_BRACE]
  }

  function Render(rules: seq<Rule>): Text {
    if rules == [] then [] else RenderRule(rules[0]) + Render(rules[1..])
  }

  /** The rules that `sanitizeCssStylesheet` keeps of a sheet at a nesting depth. */
  function Rules(lists: Lists, input: Text, depth: nat): seq<Rule>
    requires depth <= MAX_NESTING + 1
    decreases MAX_NESTING + 1 - depth, 1, 0
  {
    if depth > MAX_NESTING then [] else RulesFrom(lists, Clean(input), 0, depth)
  }

  function StyleRule(lists: Lists, prelude: Text, body: Text): seq<Rule> {
    var selector, declarations := CleanSelector(prelude), Declarations(lists, body);
    if selector != [] && RenderDeclarations(declarations) != [] then [Style(selector, declarations)] else []
  }

  function GroupRule(lists: Lists, prelude: Text, body: seq<Rule>): seq<Rule> {
    if CleanPrelude(lists, prelude) != [] && Render(body) != [] then [Group(CleanPrelude(lists, prelude), body)] else []
  }

  function RulesFrom(lists: Lists, css: Text, cursor: nat, depth: nat): seq<Rule>
    requires cursor <= |css| && depth <= MAX_NESTING
    decreases MAX_NESTING + 1 - depth, 0, |css| - cursor
  {
    var open := FirstFrom(css, cursor, OPEN_BRACE);
    if open == -1 then []
    else
      var close := ClosingFrom(css, open, open);
      if close == -1 then []
      else RuleAt(lists, css, cursor, open, close, depth) + RulesFrom(lists, css, close + 1, depth)
  }

  function RuleAt(lists: Lists, css: Text, cursor: nat, open: nat, close: nat, depth: nat): seq<Rule>
    requires cursor <= open < close < |css| && depth <= MAX_NESTING
    decreases MAX_NESTING + 1 - depth, 0, 0
  {
    var prelude := Trim(css[cursor..open]);
    var body := css[open + 1..close];
    if IsGroup(prelude) then GroupRule(lists, prelude, Rules(lists, body, depth + 1))
    else if prelude != [] && prelude[0] == AT then []
    else StyleRule(lists, prelude, body)
  }

  lemma {:induction false} RenderAppend(a: seq<Rule>, b: seq<Rule>)
    ensures Render(a + b) == Render(a) + Render(b)
  {
    hide RenderRule;
    if a == [] {
      assert a + b == b;
    } else {
      RenderAppend(a[1..], b);
      assert (a + b)[1..] == a[1..] + b;
    }
  }

  lemma RenderOne(r: Rule)
    ensures Render([r]) == RenderRule(r)
  {
    assert Render([r]) == RenderRule(r) + Render([]);
  }

  /** The scan is over when there is no further brace, or nothing closes it. */
  predicate ScanEnds(css: Text, cursor: nat)
    requires cursor <= |css|
  {
    var open := FirstFrom(css, cursor, OPEN_BRACE);
    open == -1 || ClosingFrom(css, open, open) == -1
  }

  lemma ScanEnded(lists: Lists, css: Text, cursor: nat, depth: nat)
    requires cursor <= |css| && depth <= MAX_NESTING && ScanEnds(css, cursor)
    ensures RulesFrom(lists, css, cursor, depth) == []
  {
  }

  lemma ScanStep(lists: Lists, css: Text, cursor: nat, open: nat, close: nat, depth: nat, kept: seq<Rule>)
    requires cursor <= |css| && depth <= MAX_NESTING
    requires open == FirstFrom(css, cursor, OPEN_BRACE) && close == ClosingFrom(css, open, open)
    ensures cursor <= open < close < |css|
    ensures kept + RulesFrom(lists, css, cursor, depth)
         == (kept + RuleAt(lists, css, cursor, open, close, depth)) + RulesFrom(lists, css, close + 1, depth)
  {
    hide Depth, RuleAt;
  }

  /** The sanitizer itself: for any text at all it ends, and writes exactly the kept rules. */
  method SanitizeStylesheet(lists: Lists, input: Text, depth: nat) returns (output: Text)
    requires depth <= MAX_NESTING + 1
    ensures output == Render(Rules(lists, input, depth))
    decreases MAX_NESTING + 1 - depth, 1
  {
    hide Render, RenderRule, Clean, FirstFrom, ClosingFrom, RuleAt, RulesFrom;
    RenderNone();
    if depth > MAX_NESTING { return []; }
    var css := Clean(input);
    var cursor: nat := 0;
    output := [];
    ghost var kept: seq<Rule> := [];
    while cursor < |css|
      invariant cursor <= |css|
      invariant output == Render(kept)
      invariant RulesFrom(lists, css, 0, depth) == kept + RulesFrom(lists, css, cursor, depth)
    {
      var open := FindBrace(css, cursor, OPEN_BRACE);
      if open < 0 { break; }
      var close := MatchingBrace(css, open);
      if close < 0 { break; }
      ScanStep(lists, css, cursor, open, close, depth, kept);
      var text, rule := SanitizeRule(lists, css, cursor, open, close, depth);
      RenderAppend(kept, rule);
      output := output + text;
      kept := kept + rule;
      cursor := close + 1;
    }
    if cursor == |css| { NothingLeft(css); }
    ScanEnded(lists, css, cursor, depth);
    assert kept + [] == kept;
  }

  lemma NothingLeft(css: Text)
    ensures ScanEnds(css, |css|)
  {
  }

  lemma RenderNone()
    ensures Render([]) == []
  {
  }

  method SanitizeRule(lists: Lists, css: Text, cursor: nat, open: nat, close: nat, depth: nat)
    returns (text: Text, ghost rule: seq<Rule>)
    requires cursor <= open < close < |css| && depth <= MAX_NESTING
    ensures rule == RuleAt(lists, css, cursor, open, close, depth) && text == Render(rule)
    decreases MAX_NESTING + 1 - depth, 0
  {
    hide Closes, Rules, Clean, CleanSelector, CleanPrelude, Declarations, IsGroup, Trim;
    RenderNone();
    var prelude := Trim(css[cursor..open]);
    var body := css[open + 1..close];
    rule := RuleAt(lists, css, cursor, open, close, depth);
    text := [];
    if IsGroup(prelude) {
      var safePrelude := CleanPrelude(lists, prelude);
      var safeBody := SanitizeStylesheet(lists, body, depth + 1);
      if safePrelude != [] && safeBody != [] {
        RenderOne(Group(safePrelude, Rules(lists, body, depth + 1)));
        text := safePrelude + [OPEN_BRACE] + safeBody + [CLOSE_BRACE];
      }
    } else if prelude == [] || prelude[0] != AT {
      var selector := CleanSelector(prelude);
      var declarations := SanitizeDeclarations(lists, body);
      if selector != [] && RenderDeclarations(declarations) != [] {
        RenderOne(Style(selector, declarations));
        text := selector + [OPEN_BRACE] + RenderDeclarations(declarations) + [CLOSE_BRACE];
      }
    }
  }
}
