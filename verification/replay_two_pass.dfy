/** What the browser pass decided, the server pass leaves as it is. */
module ReplayTwoPass {
  import opened Wrappers
  import opened JsonText
  import opened StructuralTokens
  import opened CssScanner
  import opened CssSanitizer
  import opened CssGrammar
  import opened ReplayValues
  import opened ReplaySanitizer
  import opened ReplayPrivacy
  import ReplayMasking

  // ----- text -----

  lemma MaskedIsMask(t: Text)
    ensures IsMask(Masked(t))
  {
    hide IsSpace, Masked;
    forall c | c in Masked(t) ensures IsSpace(c) || c == BULLET {
      var i :| 0 <= i < |t| && Masked(t)[i] == c;
    }
  }

  /** Text that the browser masked is unchanged by the server, whatever the two policies are. */
  lemma MaskedTextKept(server: Env, policy: Policy, ctx: Context, t: Text)
    requires SoundEnv(server) && |t| <= MAX_STRING
    requires !IsCss(ctx) && ctx.key != Name("href") && ctx.key != Name("tagName") && !server.locationKey(ctx.key)
    ensures CleanString(server, policy, ctx, Masked(t)) == Masked(t)
  {
    hide SoundEnv, Name, StyleSheet, IsCss, Masked, IsMask;
    ReplayMasking.MaskedTwice(t);
    MaskedIsMask(t);
    MaskFacts(server, Masked(t));
  }

  /**
   * In masked mode the server writes every string outside style sheets just as the browser did,
   * when both use the same route and the same location keys.
   */
  lemma MaskedStringKept(client: Env, server: Env, cp: Policy, sp: Policy, ctx: Context, t: Text)
    requires SoundEnv(server) && cp.masked && sp.masked && cp.route == sp.route && |t| <= MAX_STRING
    requires client.locationKey(ctx.key) == server.locationKey(ctx.key)
    requires !IsCss(ctx) && ctx.key != Name("tagName")
    ensures CleanString(server, sp, ctx, CloneString(client, cp, ctx, t)) == CloneString(client, cp, ctx, t)
  {
    hide SoundEnv, Name, StyleSheet, IsCss, Masked;
    if ctx.key != Name("href") && !server.locationKey(ctx.key) {
      MaskedTextKept(server, sp, ctx, t);
    }
  }

  // ----- class and id tokens -----

  lemma {:induction false} JoinBounded(ws: seq<Text>)
    requires forall w :: w in ws ==> IsLowerCanonical(w)
    ensures |JoinWords(ws)| <= 12 * |ws| && OPEN_PARENTHESIS !in JoinWords(ws)
  {
    if ws != [] {
      CanonicalCodes(ws[0]);
      assert OPEN_PARENTHESIS !in ws[0];
      JoinBounded(ws[1..]);
    }
  }

  lemma TokensBounded(value: Text)
    ensures |Tokens(value)| <= MAX_ATTRIBUTE && OPEN_PARENTHESIS !in Tokens(value)
  {
    var ws := Words(value);
    var kept := if |ws| > MAX_TOKENS then ws[..MAX_TOKENS] else ws;
    CanonicalizedStable(kept);
    hide IsLowerCanonical, Canonicalized, Words;
    JoinBounded(Canonicalized(kept));
  }

  predicate IsLetters(s: string) {
    s == "" || ('a' <= s[0] <= 'z' && IsLetters(s[1..]))
  }

  lemma {:induction false} PlainName(s: string)
    requires IsLetters(s)
    ensures IsPlainName(Name(s))
  {
    if s != "" {
      PlainName(s[1..]);
    }
  }

  lemma TokenNamesPlain(name: Text)
    requires IsTokenAttribute(name)
    ensures IsPlainName(name) && OutputName(name) == name
  {
    hide Name, IsPlainName;
    PlainName("class");
    PlainName("id");
    assert |name| == 5 || |name| == 2;
  }

  /** What the server makes of tokens under a class or id attribute. */
  lemma ServerTokens(server: Env, forceMask: bool, name: Text, value: Text)
    requires SoundEnv(server) && IsTokenAttribute(name)
    ensures CleanAttribute(server, forceMask, Entry(name, Str(Tokens(value)))) == [Entry(name, Str(Tokens(value)))]
  {
    hide SoundEnv, Name, Tokens, DeclarationText, StyleSheet;
    TokenNamesPlain(name);
    hide IsPlainName;
    TokensStable(value);
    TokensBounded(value);
    LowerKept(server, name);
    TokenAttributeFacts(server, name, Tokens(value));
    assert AttributeText(server, forceMask, name, Str(Tokens(value))) == Some(Tokens(value));
  }

  /** Class and id tokens are hashed once: what the browser writes, the server writes again unchanged. */
  lemma TokensKept(client: Env, server: Env, policy: Policy, ctx: Context, forceMask: bool, e: Entry)
    requires SoundEnv(server)
    requires IsTokenAttribute(client.lower(e.key)) && !IsSkipped(client, e.key)
    ensures |CloneAttribute(client, policy, ctx, e)| == 1
    ensures var x := CloneAttribute(client, policy, ctx, e)[0];
            x.key == client.lower(e.key) && CleanAttribute(server, forceMask, x) == [x]
  {
    hide SoundEnv, Name, Tokens, IsSkipped, DeclarationText, StyleSheet, CleanAttribute;
    var name := client.lower(e.key);
    TokenNamesPlain(name);
    hide IsPlainName;
    ServerTokens(server, forceMask, name, Cut(client.text(e.value)));
    assert OwnText(client, name, e.value) == Some(Tokens(Cut(client.text(e.value))));
  }

  // ----- entries by key -----

  /** Keys of a JavaScript object are distinct. */
  predicate DistinctEntries(es: seq<Entry>) {
    es == [] || (Lookup(es[1..], es[0].key).None? && DistinctEntries(es[1..]))
  }

  function Yield(es: seq<Entry>): Option<Value> {
    if es == [] then None else Some(es[0].value)
  }

  /** At most one entry, under the given key. */
  predicate OneFor(es: seq<Entry>, key: Text) {
    |es| <= 1 && (es != [] ==> es[0].key == key)
  }

  lemma LookupJoin(first: seq<Entry>, key: Text, rest: seq<Entry>, k: Text)
    requires OneFor(first, key)
    ensures Lookup(first + rest, k) == if k == key && first != [] then Yield(first) else Lookup(rest, k)
  {
    if first == [] {
      assert first + rest == rest;
    } else {
      assert (first + rest)[1..] == rest;
    }
  }

  lemma CloneEntryKey(env: Env, policy: Policy, node: Node, ctx: Context, e: Entry)
    ensures OneFor(CloneEntry(env, policy, node, ctx, e), e.key)
  {
    hide Name, IsDropped, StyleSet, StyleRemove, Clone, CloneAttributes;
  }

  function CloneYield(env: Env, policy: Policy, node: Node, ctx: Context, key: Text, v: Option<Value>): Option<Value> {
    match v
    case None => None
    case Some(x) => Yield(CloneEntry(env, policy, node, ctx, Entry(key, x)))
  }

  lemma {:induction false} CloneLookup(env: Env, policy: Policy, node: Node, ctx: Context, es: seq<Entry>, k: Text)
    requires DistinctEntries(es)
    ensures Lookup(CloneEntries(env, policy, node, ctx, es), k) == CloneYield(env, policy, node, ctx, k, Lookup(es, k))
  {
    hide CloneEntry;
    if es != [] {
      CloneLookup(env, policy, node, ctx, es[1..], k);
      CloneEntryKey(env, policy, node, ctx, es[0]);
      LookupJoin(CloneEntry(env, policy, node, ctx, es[0]), es[0].key, CloneEntries(env, policy, node, ctx, es[1..]), k);
    }
  }

  lemma {:induction false} CloneDistinct(env: Env, policy: Policy, node: Node, ctx: Context, es: seq<Entry>)
    requires DistinctEntries(es)
    ensures DistinctEntries(CloneEntries(env, policy, node, ctx, es))
  {
    hide CloneEntry;
    if es != [] {
      CloneDistinct(env, policy, node, ctx, es[1..]);
      CloneEntryKey(env, policy, node, ctx, es[0]);
      CloneLookup(env, policy, node, ctx, es[1..], es[0].key);
      var first := CloneEntry(env, policy, node, ctx, es[0]);
      var rest := CloneEntries(env, policy, node, ctx, es[1..]);
      if first == [] {
        assert first + rest == rest;
      } else {
        assert (first + rest)[1..] == rest;
      }
    }
  }

  lemma SanitizeEntryKey(env: Env, policy: Policy, node: Node, e: Entry, depth: nat, nodes: nat)
    requires SanitizeEntry(env, policy, node, e, depth, nodes).Walked?
    ensures OneFor(SanitizeEntry(env, policy, node, e, depth, nodes).value, e.key)
  {
    hide Name, IsDropped, StyleSet, StyleRemove, Sanitize, CleanAttributes;
  }

  lemma {:induction false} SanitizeAbsent(env: Env, policy: Policy, node: Node, es: seq<Entry>, depth: nat, nodes: nat, k: Text)
    requires DistinctEntries(es) && SanitizeEntries(env, policy, node, es, depth, nodes).Walked? && Lookup(es, k).None?
    ensures Lookup(SanitizeEntries(env, policy, node, es, depth, nodes).value, k).None?
  {
    hide SanitizeEntry;
    if es != [] {
      SanitizeEntryKey(env, policy, node, es[0], depth, nodes);
      var first := SanitizeEntry(env, policy, node, es[0], depth, nodes);
      SanitizeAbsent(env, policy, node, es[1..], depth, first.nodes, k);
      LookupJoin(first.value, es[0].key, SanitizeEntries(env, policy, node, es[1..], depth, first.nodes).value, k);
    }
  }

  /** What the server writes under a key is what it makes of that entry, at some count of nodes. */
  lemma {:induction false} WalkedEntry(env: Env, policy: Policy, node: Node, es: seq<Entry>, depth: nat, nodes: nat, k: Text) returns (n: nat)
    requires DistinctEntries(es) && SanitizeEntries(env, policy, node, es, depth, nodes).Walked? && Lookup(es, k).Some?
    ensures var e := SanitizeEntry(env, policy, node, Entry(k, Lookup(es, k).value), depth, n);
            e.Walked? && Lookup(SanitizeEntries(env, policy, node, es, depth, nodes).value, k) == Yield(e.value)
  {
    hide SanitizeEntry;
    SanitizeEntryKey(env, policy, node, es[0], depth, nodes);
    var first := SanitizeEntry(env, policy, node, es[0], depth, nodes);
    var rest := SanitizeEntries(env, policy, node, es[1..], depth, first.nodes);
    LookupJoin(first.value, es[0].key, rest.value, k);
    if es[0].key == k {
      n := nodes;
      assert es[0] == Entry(k, es[0].value);
      SanitizeAbsent(env, policy, node, es[1..], depth, first.nodes, k);
    } else {
      n := WalkedEntry(env, policy, node, es[1..], depth, first.nodes, k);
    }
  }

  // ----- neutralised nodes -----

  lemma NodeKeysKept(env: Env, k: Text)
    requires SoundEnv(env) && IsNodeKey(k)
    ensures !IsDropped(env, k)
  {
    hide SoundEnv, Name;
    NodeKeyFacts(env, k);
    assert |k| == 7 || |k| == 10 || |k| == 11;
    NameFirst("textContent");
    NameFirst("constructor");
    assert |Name("__proto__")| == 9 && |Name("prototype")| == 9 && |Name("constructor")| == 11;
  }

  /** What a key of a neutralised node holds: the node is a marked `div` without children and without text. */
  function HuskValue(key: Text): Value {
    if key == Name("tagName") then Str(Name("div"))
    else if key == Name("attributes") then Marked()
    else if key == Name("childNodes") then Arr([])
    else Str([])
  }

  function Husk(es: seq<Entry>, key: Text): Option<Value> {
    if Lookup(es, key).None? then None else Some(HuskValue(key))
  }

  lemma ClientHuskEntry(env: Env, policy: Policy, node: Node, ctx: Context, k: Text, v: Value)
    requires SoundEnv(env) && node.executable && IsNodeKey(k) && (k == Name("attributes") ==> v.Obj?)
    ensures CloneEntry(env, policy, node, ctx, Entry(k, v)) == [Entry(k, HuskValue(k))]
  {
    hide SoundEnv, Name, IsDropped, StyleSet, StyleRemove, CloneAttributes, Clone, Marked;
    NodeKeysKept(env, k);
    KeysDiffer();
  }

  lemma ClientHusk(env: Env, policy: Policy, node: Node, ctx: Context, es: seq<Entry>, k: Text)
    requires SoundEnv(env) && DistinctEntries(es) && node.executable && IsNodeKey(k)
    requires k == Name("attributes") && Lookup(es, k).Some? ==> Lookup(es, k).value.Obj?
    ensures Lookup(CloneEntries(env, policy, node, ctx, es), k) == Husk(es, k)
  {
    hide SoundEnv, Name, IsNodeKey, CloneEntries, CloneEntry, Lookup, DistinctEntries, HuskValue;
    CloneLookup(env, policy, node, ctx, es, k);
    if Lookup(es, k).Some? {
      ClientHuskEntry(env, policy, node, ctx, k, Lookup(es, k).value);
    }
  }

  lemma DivIsDiv(env: Env)
    requires SoundEnv(env)
    ensures env.lower(Name("div")) == Name("div")
  {
    hide Name, SoundEnv, IsPlainName;
    PlainName("div");
    LowerKept(env, Name("div"));
  }

  lemma MarkedIsBlocked(env: Env, tag: Text, selectors: seq<Text>)
    ensures Marked().Obj? && IsBlocked(env, tag, Marked().entries, selectors)
  {
    hide Name, IsSensitiveInput, HasClass, MatchesSelector;
    var es := Marked().entries;
    assert es[0].key == MARKER && es[1..] == [];
    assert AttributeValues(env, es, MARKER) == [es[0].value] + AttributeValues(env, [], MARKER);
    assert HasAttribute(env, es, MARKER);
  }

  lemma EmptySheet(env: Env)
    ensures StyleSheet(env, []) == []
  {
    hide Name;
    assert Clean([]) == [];
    assert Rules(env.lists, [], 0) == RulesFrom(env.lists, [], 0, 0);
  }

  lemma EmptyTextKept(env: Env, policy: Policy, ctx: Context)
    requires SoundEnv(env) && ctx.key == Name("textContent")
    ensures CleanString(env, policy, ctx, []) == []
  {
    hide SoundEnv, Name, IsCss, StyleSheet, IsMask;
    KeysDiffer();
    NodeKeyFacts(env, ctx.key);
    EmptySheet(env);
    assert Masked([]) == [];
    MaskedIsMask([]);
    MaskFacts(env, []);
    assert |Name("href")| == 4 && |ctx.key| == 11;
  }

  // ----- a marker without a tag -----

  lemma MarkerName(env: Env)
    requires SoundEnv(env)
    ensures env.lower(MARKER) == MARKER && OutputName(MARKER) == MARKER && !IsAria(MARKER)
    ensures MARKER != Name("class") && MARKER != Name("id") && MARKER != Name("style") && MARKER != Name("_csstext")
    ensures MARKER != Name("contenteditable") && MARKER != Name("aria-hidden") && MARKER != Name("role") && MARKER != Name("type")
    ensures env.safeAttribute(MARKER) && !env.handlerKey(MARKER) && !env.networkAttribute(MARKER)
    ensures !env.booleanAttribute(MARKER) && !env.numericAttribute(MARKER)
  {
    MarkerPlain();
    hide Name, IsPlainName;
    LowerKept(env, MARKER);
    assert |MARKER| == 30;
    NameFirst("data-poolstatis-replay-blocked");
    NameFirst("aria-");
    assert MARKER[0] != Name("aria-")[0];
  }

  lemma MarkerPlain()
    ensures IsPlainName(MARKER)
  {
    hide Name, IsPlainName;
    PlainDashed("data-poolstatis-replay-blocked");
  }

  predicate IsDashed(s: string) {
    forall c :: c in s ==> 'a' <= c <= 'z' || c == '-'
  }

  lemma {:induction false} PlainDashed(s: string)
    requires IsDashed(s)
    ensures IsPlainName(Name(s))
  {
    if s != "" {
      assert s[0] in s && forall c :: c in s[1..] ==> c in s;
      PlainDashed(s[1..]);
    }
  }

  /** The marker, with its value written or masked. */
  predicate IsMarker(v: Value) {
    v == Marked() || v == Obj([Entry(MARKER, Str(MASK))])
  }

  lemma MarkerText(env: Env, forceMask: bool)
    requires SoundEnv(env)
    ensures AttributeText(env, forceMask, MARKER, Str(Name("true"))) in {Some(Name("true")), Some(MASK)}
  {
    MarkerName(env);
    PlainTrue(env);
    hide Name, SoundEnv, Tokens, DeclarationText, StyleSheet, IsAria;
    assert |Name("true")| == 4;
  }

  lemma PlainTrue(env: Env)
    requires SoundEnv(env)
    ensures env.text(Str(Name("true"))) == Name("true") && env.stripUrls(Name("true")) == Name("true")
  {
    hide Name;
    PlainName("true");
    assert OPEN_PARENTHESIS !in Name("true");
  }

  lemma CleanOne(env: Env, forceMask: bool, e: Entry)
    ensures CleanAttributes(env, forceMask, [e]) == CleanAttribute(env, forceMask, e)
  {
    hide CleanAttribute;
    assert [e][..0] == [] && CleanAttributes(env, forceMask, []) == [];
  }

  lemma MarkerCleaned(env: Env, forceMask: bool)
    requires SoundEnv(env)
    ensures IsMarker(Obj(CleanAttributes(env, forceMask, Marked().entries)))
  {
    hide Name, SoundEnv, AttributeText, OutputName, CleanAttributes;
    MarkerName(env);
    MarkerText(env, forceMask);
    CleanOne(env, forceMask, Entry(MARKER, Str(Name("true"))));
  }

  /** What the server makes of a key of a husk: the same, but for a marker on an object whose tag it does not see. */
  predicate HuskKept(key: Text, written: Value, tagged: bool) {
    if key == Name("attributes") && !tagged then IsMarker(written) else written == HuskValue(key)
  }

  lemma ServerHuskEntry(env: Env, policy: Policy, node: Node, depth: nat, nodes: nat, k: Text)
    requires SoundEnv(env) && IsNodeKey(k)
    requires k == Name("tagName") ==> node.tag == Some(Name("div"))
    requires SanitizeEntry(env, policy, node, Entry(k, HuskValue(k)), depth, nodes).Walked?
    ensures var out := SanitizeEntry(env, policy, node, Entry(k, HuskValue(k)), depth, nodes).value;
            |out| == 1 && out[0].key == k && HuskKept(k, out[0].value, node.executable)
  {
    hide SoundEnv, Name, IsDropped, StyleSet, StyleRemove, CleanAttributes, CleanString, SanitizeEntries, ServerNode, IsMarker;
    NodeKeysKept(env, k);
    KeysDiffer();
    assert Marked().Obj?;
    MarkerCleaned(env, node.forceMask);
    hide Marked;
    if k == Name("textContent") {
      EmptyTextKept(env, policy, Below(node, k));
    }
  }

  /** The server sees a `div`, and a marked one as blocked. */
  lemma HuskNode(env: Env, policy: Policy, es: seq<Entry>, ctx: Context)
    requires SoundEnv(env) && Lookup(es, Name("tagName")) == Some(Str(Name("div")))
    ensures ServerNode(env, policy, es, ctx).tag == Some(Name("div"))
    ensures Lookup(es, Name("attributes")) == Some(Marked()) ==> ServerNode(env, policy, es, ctx).executable
  {
    hide SoundEnv, Name, IsMasked, IsEditable, HasCollision, Lookup, Marked, IsBlocked, HasSource;
    DivIsDiv(env);
    MarkedIsBlocked(env, Name("div"), policy.blockSelectors);
  }

  /** An attribute list that is no object is copied and sanitized into something that is no object. */
  lemma NoObjectKept(client: Env, server: Env, cp: Policy, sp: Policy, v: Value, node: Node, cctx: Context, again: Node, depth: nat, n: nat)
    requires SoundEnv(client) && SoundEnv(server) && !v.Obj?
    ensures var copy := CloneEntry(client, cp, node, cctx, Entry(Name("attributes"), v));
            && |copy| == 1 && copy[0].key == Name("attributes") && !copy[0].value.Obj?
            && (SanitizeEntry(server, sp, again, copy[0], depth, n).Walked? ==>
                  var out := SanitizeEntry(server, sp, again, copy[0], depth, n).value;
                  |out| == 1 && out[0].key == Name("attributes") && !out[0].value.Obj?)
  {
    hide SoundEnv, Name, IsDropped, StyleSet, StyleRemove, CleanAttributes, CleanString, CloneString, CloneAttributes, ServerNode, ClientNode;
    KeysDiffer();
    NodeKeysKept(client, Name("attributes"));
    NodeKeysKept(server, Name("attributes"));
  }

  /** What the two passes leave under a key of a neutralised object that held `v`. */
  predicate Neutralised(key: Text, v: Value, written: Value, tagged: bool) {
    if key == Name("attributes") && !v.Obj? then !written.Obj? else HuskKept(key, written, tagged)
  }

  /** The key of a neutralised object after the copy, as the server meets it. */
  lemma CopyIsHusk(client: Env, server: Env, cp: Policy, sp: Policy, es: seq<Entry>, cctx: Context, sctx: Context, k: Text)
    requires SoundEnv(client) && SoundEnv(server) && DistinctEntries(es) && IsNodeKey(k) && Lookup(es, k).Some?
    requires ClientNode(client, cp, es, cctx).executable && (k == Name("attributes") ==> Lookup(es, k).value.Obj?)
    ensures var copy := CloneEntries(client, cp, ClientNode(client, cp, es, cctx), cctx, es);
            && Lookup(copy, k) == Some(HuskValue(k))
            && (k == Name("tagName") ==> ServerNode(server, sp, copy, sctx).tag == Some(Name("div")))
            && (k == Name("attributes") && Lookup(es, Name("tagName")).Some? ==> ServerNode(server, sp, copy, sctx).executable)
  {
    hide SoundEnv, Name, ClientNode, CloneEntries, ServerNode, DistinctEntries, Lookup, Marked;
    var node := ClientNode(client, cp, es, cctx);
    KeysDiffer();
    ClientHusk(client, cp, node, cctx, es, k);
    ClientHusk(client, cp, node, cctx, es, Name("tagName"));
    if Lookup(es, Name("tagName")).Some? {
      HuskNode(server, sp, CloneEntries(client, cp, node, cctx, es), sctx);
    }
  }

  lemma HuskWritten(env: Env, policy: Policy, copy: seq<Entry>, node: Node, depth: nat, nodes: nat, k: Text)
    requires SoundEnv(env) && IsNodeKey(k) && DistinctEntries(copy) && Lookup(copy, k) == Some(HuskValue(k))
    requires k == Name("tagName") ==> node.tag == Some(Name("div"))
    requires SanitizeEntries(env, policy, node, copy, depth, nodes).Walked?
    ensures var out := Lookup(SanitizeEntries(env, policy, node, copy, depth, nodes).value, k);
            out.Some? && HuskKept(k, out.value, node.executable)
  {
    hide SoundEnv, Name, IsNodeKey, HuskValue, SanitizeEntry, SanitizeEntries, Lookup, DistinctEntries, HuskKept;
    var n := WalkedEntry(env, policy, node, copy, depth, nodes, k);
    ServerHuskEntry(env, policy, node, depth, n, k);
  }

  lemma NoObjectWritten(client: Env, server: Env, cp: Policy, sp: Policy, es: seq<Entry>, node: Node, cctx: Context, again: Node, depth: nat, nodes: nat)
    requires SoundEnv(client) && SoundEnv(server) && DistinctEntries(es)
    requires Lookup(es, Name("attributes")).Some? && !Lookup(es, Name("attributes")).value.Obj?
    requires SanitizeEntries(server, sp, again, CloneEntries(client, cp, node, cctx, es), depth, nodes).Walked?
    ensures var out := Lookup(SanitizeEntries(server, sp, again, CloneEntries(client, cp, node, cctx, es), depth, nodes).value, Name("attributes"));
            out.Some? && !out.value.Obj?
  {
    hide SoundEnv, Name, SanitizeEntry, SanitizeEntries, Lookup, DistinctEntries, CloneEntries, CloneEntry;
    var copy, v := CloneEntries(client, cp, node, cctx, es), Lookup(es, Name("attributes")).value;
    CloneLookup(client, cp, node, cctx, es, Name("attributes"));
    CloneDistinct(client, cp, node, cctx, es);
    NoObjectKept(client, server, cp, sp, v, node, cctx, again, depth, 0);
    var n := WalkedEntry(server, sp, again, copy, depth, nodes, Name("attributes"));
    NoObjectKept(client, server, cp, sp, v, node, cctx, again, depth, n);
    var one := CloneEntry(client, cp, node, cctx, Entry(Name("attributes"), v));
    assert one[0] == Entry(Name("attributes"), Lookup(copy, Name("attributes")).value);
  }

  /**
   * An object that the browser blocked or neutralised comes out of the server pass as the same husk,
   * under any server policy and in any context: the tag `div`, the marker, no children, no text.
   * Attributes that were no object stay none, and on an object without a tag name, which the server
   * does not take for an element, the value of the marker may be masked.
   */
  lemma NeutralisedStays(client: Env, server: Env, cp: Policy, sp: Policy, es: seq<Entry>,
                         cctx: Context, sctx: Context, depth: nat, nodes: nat, k: Text)
    requires SoundEnv(client) && SoundEnv(server) && DistinctEntries(es) && IsNodeKey(k)
    requires ClientNode(client, cp, es, cctx).executable
    requires Sanitize(server, sp, Clone(client, cp, Obj(es), cctx), sctx, depth, nodes).Walked?
    ensures var out := Sanitize(server, sp, Clone(client, cp, Obj(es), cctx), sctx, depth, nodes).value;
            && out.Obj? && (Lookup(out.entries, k).Some? <==> Lookup(es, k).Some?)
            && (Lookup(es, k).Some? ==>
                  Neutralised(k, Lookup(es, k).value, Lookup(out.entries, k).value, Lookup(es, Name("tagName")).Some?))
  {
    hide SoundEnv, Name, IsNodeKey, ClientNode, CloneEntries, ServerNode, SanitizeEntries, DistinctEntries, Lookup, TagOf, HuskValue,
         IsMarker;
    var node := ClientNode(client, cp, es, cctx);
    var copy := CloneEntries(client, cp, node, cctx, es);
    var again := ServerNode(server, sp, copy, sctx);
    CloneDistinct(client, cp, node, cctx, es);
    if Lookup(es, k).None? {
      CloneLookup(client, cp, node, cctx, es, k);
      SanitizeAbsent(server, sp, again, copy, depth + 1, nodes + 1, k);
    } else if k == Name("attributes") && !Lookup(es, k).value.Obj? {
      NoObjectWritten(client, server, cp, sp, es, node, cctx, again, depth + 1, nodes + 1);
    } else {
      CopyIsHusk(client, server, cp, sp, es, cctx, sctx, k);
      HuskWritten(server, sp, copy, again, depth + 1, nodes + 1, k);
      MarkedIsMarker();
    }
  }

  lemma MarkedIsMarker()
    ensures IsMarker(Marked()) && HuskValue(Name("attributes")) == Marked()
  {
    KeysDiffer();
    hide Name;
  }
}
