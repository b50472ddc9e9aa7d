/** Which attributes, tags and style declarations of an unblocked element either pass writes, and what they become. */
module ReplayAttributes {
  import opened Wrappers
  import opened JsonText
  import opened StructuralTokens
  import opened CssScanner
  import opened CssSanitizer
  import opened ReplayValues
  import opened ReplaySanitizer
  import opened ReplayPrivacy
  import opened ReplayTwoPass
  import opened ReplayBlocking

  const BULLETS: Text := [0x2022, 0x2022, 0x2022, 0x2022]

  predicate HasPrefix(t: Text, prefix: Text) { |prefix| <= |t| && t[..|prefix|] == prefix }

  /** What describes an element to its user. */
  predicate Describes(name: Text) {
    || name == Name("name") || name == Name("title") || name == Name("alt") || name == Name("placeholder")
    || (HasPrefix(name, Name("aria-")) && name != Name("aria-hidden"))
  }

  /** The attributes with a form of their own. */
  predicate HasForm(env: Env, name: Text) {
    || name == Name("class") || name == Name("id") || name == Name("style") || name == Name("_csstext")
    || env.booleanAttribute(name) || env.numericAttribute(name)
    || name == Name("contenteditable") || name == Name("aria-hidden")
  }

  /** The form of such an attribute; it does not depend on the pass. */
  predicate IsFormed(env: Env, name: Text, raw: Value, value: Text, w: Text) {
    if name == Name("class") || name == Name("id") then w == Tokens(value)
    else if name == Name("style") then w == DeclarationText(env, value)
    else if name == Name("_csstext") then w == StyleSheet(env, value)
    else if env.booleanAttribute(name) then w == [] && (raw == Bool(true) || value == [] || env.lower(value) == name)
    else if env.numericAttribute(name) then env.boundedInteger(value) == Some(w)
    else
      var lower := env.lower(value);
      if name == Name("contenteditable") then w == if lower == Name("false") then Name("false") else Name("true")
      else w == if lower == Name("false") || lower == Name("true") then lower else BULLETS
  }

  predicate IsNamed(key: Text, name: Text) {
    key == if name == Name("_csstext") then Name("_cssText") else name
  }

  /** At most two thousand units of an attribute are looked at. */
  function Head(t: Text): Text { if |t| <= 2_000 then t else t[..2_000] }

  // ----- the server -----

  /** The server writes `e` for the attribute `a`. */
  predicate ServerKeeps(env: Env, masked: bool, a: Entry, e: Entry) {
    var name, value := env.lower(a.key), env.stripUrls(Head(env.text(a.value)));
    && env.safeAttribute(name) && !env.handlerKey(name) && !env.networkAttribute(name)
    && (a.value.Str? || a.value.Bool? || a.value.Num?)
    && IsNamed(e.key, name) && e.value.Str?
    && if HasForm(env, name) then IsFormed(env, name, a.value, value, e.value.s)
       else if || masked || Describes(name) || env.secretLike(value)
               || (name == Name("role") && !env.safeRole(value)) || (name == Name("type") && !env.safeInputType(value))
         then e.value.s == BULLETS
       else e.value.s == value
  }

  lemma ServerKeepsIff(env: Env, masked: bool, a: Entry, e: Entry)
    ensures e in CleanAttribute(env, masked, a) <==> ServerKeeps(env, masked, a, e)
  {
    hide Name, Tokens, DeclarationText, StyleSheet;
    assert MASK == BULLETS;
  }

  /** The server writes nothing but what it keeps of an attribute. */
  lemma {:induction false} ServerAttributesIff(env: Env, masked: bool, attributes: seq<Entry>, e: Entry)
    ensures e in CleanAttributes(env, masked, attributes) <==> exists a :: a in attributes && ServerKeeps(env, masked, a, e)
  {
    hide CleanAttribute, ServerKeeps;
    if attributes != [] {
      var last := |attributes| - 1;
      ServerAttributesIff(env, masked, attributes[..last], e);
      ServerKeepsIff(env, masked, attributes[last], e);
      assert attributes == attributes[..last] + [attributes[last]];
      assert attributes[last] in attributes;
      assert forall a :: a in attributes <==> a in attributes[..last] || a == attributes[last];
    }
  }

  // ----- the browser -----

  /** The browser writes `e` for the attribute `a`. */
  predicate BrowserKeeps(env: Env, policy: Policy, ctx: Context, a: Entry, e: Entry) {
    var name, value := env.lower(a.key), Head(env.text(a.value));
    && !env.handlerKey(a.key) && !env.networkAttribute(a.key) && env.safeAttribute(name)
    && name != Name("value") && (HasPrefix(name, Name("data-")) ==> name == Name("data-poolstatis-replay-blocked"))
    && IsNamed(e.key, name)
    && if Describes(name) && name != Name("class") && name != Name("id") then e.value == Str(BULLETS)
       else if HasForm(env, name) then e.value.Str? && IsFormed(env, name, a.value, value, e.value.s)
       else if name == Name("role") then e.value == Str(if env.safeRole(value) then env.lower(value) else BULLETS)
       else if name == Name("type") then e.value == Str(if env.safeInputType(value) then env.lower(value) else BULLETS)
       else e.value == Clone(env, policy, a.value, ctx.(key := name))
  }

  lemma SkippedIff(env: Env, key: Text)
    ensures var name := env.lower(key);
            !IsSkipped(env, key) <==>
              && !env.handlerKey(key) && !env.networkAttribute(key) && env.safeAttribute(name)
              && name != Name("value") && (HasPrefix(name, Name("data-")) ==> name == Name("data-poolstatis-replay-blocked"))
  {
    hide Name;
  }

  lemma LabelIff(name: Text)
    ensures IsLabel(name) <==> Describes(name)
  {
    hide Name;
  }

  /** The forms that both passes know, in the browser. */
  lemma OwnTextForm(env: Env, name: Text, raw: Value, w: Text)
    requires HasOwnRule(env, name)
    ensures var value := Head(env.text(raw));
            OwnText(env, name, raw) == Some(w) <==>
              if Describes(name) && name != Name("class") && name != Name("id") then w == BULLETS
              else if HasForm(env, name) then IsFormed(env, name, raw, value, w)
              else if name == Name("role") then w == (if env.safeRole(value) then env.lower(value) else BULLETS)
              else w == if env.safeInputType(value) then env.lower(value) else BULLETS
  {
    LabelIff(name);
    hide Name, Tokens, DeclarationText, StyleSheet, IsLabel, Describes;
    assert MASK == BULLETS;
  }

  lemma RuleIff(env: Env, name: Text)
    ensures HasOwnRule(env, name) <==> Describes(name) || HasForm(env, name) || name == Name("role") || name == Name("type")
  {
    LabelIff(name);
    hide Name, IsLabel, Describes;
  }

  lemma NameWritten(key: Text, name: Text)
    ensures IsNamed(key, name) <==> key == OutputName(name)
  {
    hide Name;
  }

  lemma BrowserKeepsIff(env: Env, policy: Policy, ctx: Context, a: Entry, e: Entry)
    ensures e in CloneAttribute(env, policy, ctx, a) <==> BrowserKeeps(env, policy, ctx, a, e)
  {
    var name := env.lower(a.key);
    SkippedIff(env, a.key);
    RuleIff(env, name);
    NameWritten(e.key, name);
    hide Name, Clone, OwnText, IsFormed, Describes, IsSkipped, HasOwnRule, OutputName, IsNamed;
    if HasOwnRule(env, name) && e.value.Str? { OwnTextForm(env, name, a.value, e.value.s); }
  }

  lemma {:induction false} BrowserAttributesIff(env: Env, policy: Policy, ctx: Context, attributes: seq<Entry>, e: Entry)
    ensures e in CloneAttributes(env, policy, ctx, attributes) <==> exists a :: a in attributes && BrowserKeeps(env, policy, ctx, a, e)
  {
    hide CloneAttribute, BrowserKeeps, Clone;
    if attributes != [] {
      BrowserAttributesIff(env, policy, ctx, attributes[1..], e);
      BrowserKeepsIff(env, policy, ctx, attributes[0], e);
      assert attributes == [attributes[0]] + attributes[1..];
      assert attributes[0] in attributes;
      assert forall a :: a in attributes <==> a in attributes[1..] || a == attributes[0];
    }
  }

  // ----- unblocked elements -----

  lemma ServerTagEntry(env: Env, policy: Policy, node: Node, v: Value, depth: nat, nodes: nat)
    requires SoundEnv(env)
    ensures SanitizeEntry(env, policy, node, Entry(Name("tagName"), v), depth, nodes)
         == Walked([Entry(Name("tagName"), Str(ServerTag(env, node)))], nodes)
  {
    hide SoundEnv, Name, IsDropped, StyleSet, StyleRemove, CleanAttributes, Sanitize, ServerTag;
    NodeKeysKept(env, Name("tagName"));
    KeysDiffer();
  }

  lemma BrowserTagEntry(env: Env, policy: Policy, node: Node, ctx: Context, v: Value)
    requires SoundEnv(env)
    ensures CloneEntry(env, policy, node, ctx, Entry(Name("tagName"), v)) == [Entry(Name("tagName"), Str(ClientTag(node)))]
  {
    hide SoundEnv, Name, IsDropped, StyleSet, StyleRemove, CloneAttributes, Clone, ClientTag;
    NodeKeysKept(env, Name("tagName"));
    KeysDiffer();
  }

  /** The attributes that are written are those that the pass keeps, in its form. */
  ghost predicate KeepsAttributes(env: Env, masked: bool, attributes: seq<Entry>, out: Option<Value>) {
    && out.Some? && out.value.Obj?
    && forall e :: e in out.value.entries <==> exists a :: a in attributes && ServerKeeps(env, masked, a, e)
  }

  ghost predicate CopiesAttributes(env: Env, policy: Policy, ctx: Context, attributes: seq<Entry>, out: Option<Value>) {
    && out.Some? && out.value.Obj?
    && forall e :: e in out.value.entries <==> exists a :: a in attributes && BrowserKeeps(env, policy, ctx, a, e)
  }

  lemma DecidedMask(env: Env, policy: Policy, es: seq<Entry>, attributes: seq<Entry>, ctx: Context, node: Node, browser: bool)
    requires Decides(env, policy, es, attributes, ctx, node, browser)
    ensures node.forceMask <==> ctx.forceMask || Masks(env, policy.maskSelectors, es, attributes, browser)
    ensures node.tag == TagOf(env, es)
  {
    hide Blocks, Masks, HasTag, TagOf, Name;
  }

  lemma TagFound(env: Env, es: seq<Entry>, attributes: seq<Entry>, tag: Text)
    requires Owns(es, attributes) && HasTag(env, es, tag)
    ensures TagOf(env, es) == Some(tag) && Lookup(es, Name("tagName")).Some?
  {
    TagIs(env, es, attributes, tag);
    hide Name, Lookup;
  }

  lemma ServerTagWritten(env: Env, policy: Policy, node: Node, es: seq<Entry>, tag: Text, depth: nat, nodes: nat)
    requires SoundEnv(env) && DistinctEntries(es) && Lookup(es, Name("tagName")).Some? && !node.executable && node.tag == Some(tag)
    requires SanitizeEntries(env, policy, node, es, depth, nodes).Walked?
    ensures Lookup(SanitizeEntries(env, policy, node, es, depth, nodes).value, Name("tagName"))
         == Some(Str(if env.structuralTag(tag) then tag else Name("div")))
  {
    hide SoundEnv, Name, SanitizeEntries, SanitizeEntry, Lookup, DistinctEntries;
    var n := WalkedEntry(env, policy, node, es, depth, nodes, Name("tagName"));
    ServerTagEntry(env, policy, node, Lookup(es, Name("tagName")).value, depth, n);
  }

  lemma ServerAttributesWritten(env: Env, policy: Policy, node: Node, es: seq<Entry>, attributes: seq<Entry>, depth: nat, nodes: nat)
    requires SoundEnv(env) && DistinctEntries(es) && !node.executable && Lookup(es, Name("attributes")) == Some(Obj(attributes))
    requires SanitizeEntries(env, policy, node, es, depth, nodes).Walked?
    ensures KeepsAttributes(env, node.forceMask, attributes,
                            Lookup(SanitizeEntries(env, policy, node, es, depth, nodes).value, Name("attributes")))
  {
    hide SoundEnv, Name, SanitizeEntries, SanitizeEntry, Lookup, DistinctEntries, ServerKeeps, CleanAttributes;
    var n := WalkedEntry(env, policy, node, es, depth, nodes, Name("attributes"));
    ServerAttributesEntry(env, policy, node, attributes, depth, n);
    forall e ensures e in CleanAttributes(env, node.forceMask, attributes)
                <==> exists a :: a in attributes && ServerKeeps(env, node.forceMask, a, e)
    {
      ServerAttributesIff(env, node.forceMask, attributes, e);
    }
  }

  /** An element that the server does not block keeps its tag, if it is a structural one, and its attributes in their form. */
  lemma ServerElement(env: Env, policy: Policy, es: seq<Entry>, attributes: seq<Entry>, tag: Text, ctx: Context, depth: nat, nodes: nat)
    requires SoundEnv(env) && Owns(es, attributes) && HasTag(env, es, tag) && !Blocks(env, policy.blockSelectors, es, attributes, false)
    requires Entry(Name("attributes"), Obj(attributes)) in es
    requires Sanitize(env, policy, Obj(es), ctx, depth, nodes).Walked?
    ensures Sanitize(env, policy, Obj(es), ctx, depth, nodes).value.Obj?
    ensures var out := Sanitize(env, policy, Obj(es), ctx, depth, nodes).value.entries;
            && Lookup(out, Name("tagName")) == Some(Str(if env.structuralTag(tag) then tag else Name("div")))
            && KeepsAttributes(env, ctx.forceMask || Masks(env, policy.maskSelectors, es, attributes, false), attributes,
                               Lookup(out, Name("attributes")))
  {
    hide *;
    OwnsDistinct(es, attributes);
    ServerObject(env, policy, es, ctx, depth, nodes);
    ServerDecides(env, policy, es, attributes, ctx);
    var node := ServerNode(env, policy, es, ctx);
    DecidedBlock(env, policy, es, attributes, ctx, node, false);
    DecidedMask(env, policy, es, attributes, ctx, node, false);
    TagFound(env, es, attributes, tag);
    OwnedAttributes(es, attributes);
    ServerTagWritten(env, policy, node, es, tag, depth + 1, nodes + 1);
    ServerAttributesWritten(env, policy, node, es, attributes, depth + 1, nodes + 1);
  }

  lemma BrowserTagWritten(env: Env, policy: Policy, node: Node, ctx: Context, es: seq<Entry>, tag: Text)
    requires SoundEnv(env) && DistinctEntries(es) && Lookup(es, Name("tagName")).Some? && !node.executable && node.tag == Some(tag)
    ensures Lookup(CloneEntries(env, policy, node, ctx, es), Name("tagName")) == Some(Str(tag))
  {
    hide SoundEnv, Name, CloneEntries, CloneEntry, Lookup, DistinctEntries;
    CloneLookup(env, policy, node, ctx, es, Name("tagName"));
    BrowserTagEntry(env, policy, node, ctx, Lookup(es, Name("tagName")).value);
  }

  lemma BrowserAttributesWritten(env: Env, policy: Policy, node: Node, ctx: Context, es: seq<Entry>, attributes: seq<Entry>)
    requires SoundEnv(env) && DistinctEntries(es) && !node.executable && Lookup(es, Name("attributes")) == Some(Obj(attributes))
    ensures CopiesAttributes(env, policy, ctx.(forceMask := node.forceMask), attributes,
                             Lookup(CloneEntries(env, policy, node, ctx, es), Name("attributes")))
  {
    hide SoundEnv, Name, CloneEntries, CloneEntry, Lookup, DistinctEntries, BrowserKeeps, CloneAttributes;
    CloneLookup(env, policy, node, ctx, es, Name("attributes"));
    ClientAttributesEntry(env, policy, node, ctx, attributes);
    var inner := ctx.(forceMask := node.forceMask);
    forall e ensures e in CloneAttributes(env, policy, inner, attributes)
                <==> exists a :: a in attributes && BrowserKeeps(env, policy, inner, a, e)
    {
      BrowserAttributesIff(env, policy, inner, attributes, e);
    }
  }

  /** The same of the browser; it keeps every tag. */
  lemma BrowserElement(env: Env, policy: Policy, es: seq<Entry>, attributes: seq<Entry>, tag: Text, ctx: Context)
    requires SoundEnv(env) && Owns(es, attributes) && HasTag(env, es, tag) && !Blocks(env, policy.blockSelectors, es, attributes, true)
    requires Entry(Name("attributes"), Obj(attributes)) in es
    ensures Clone(env, policy, Obj(es), ctx).Obj?
    ensures var out := Clone(env, policy, Obj(es), ctx).entries;
            && Lookup(out, Name("tagName")) == Some(Str(tag))
            && CopiesAttributes(env, policy, ctx.(forceMask := ctx.forceMask || Masks(env, policy.maskSelectors, es, attributes, true)),
                                attributes, Lookup(out, Name("attributes")))
  {
    hide *;
    OwnsDistinct(es, attributes);
    ClientObject(env, policy, es, ctx);
    BrowserDecides(env, policy, es, attributes, ctx);
    var node := ClientNode(env, policy, es, ctx);
    DecidedBlock(env, policy, es, attributes, ctx, node, true);
    DecidedMask(env, policy, es, attributes, ctx, node, true);
    TagFound(env, es, attributes, tag);
    OwnedAttributes(es, attributes);
    BrowserTagWritten(env, policy, node, ctx, es, tag);
    BrowserAttributesWritten(env, policy, node, ctx, es, attributes);
  }

  // ----- style declarations recorded one by one -----

  /** A declaration reads as a property without a colon, a colon, and a value. */
  predicate Reads(declaration: Text, property: Text, value: Text) {
    property != [] && 0x3A !in property && declaration == property + [0x3A] + value
  }

  /** A `set` record keeps a property and a value that the declarations of a style sheet may have. */
  ghost predicate KeepsSet(env: Env, es: seq<Entry>, kept: Value) {
    exists p, v, property, value :: IsKeptSet(env, es, p, v, property, value, kept)
  }

  predicate IsKeptSet(env: Env, es: seq<Entry>, p: Text, v: Value, property: Text, value: Text, kept: Value) {
    && Entry(Name("property"), Str(p)) in es && Entry(Name("value"), v) in es && (v.Null? || v.Str?)
    && Reads(DeclarationText(env, p + [0x3A] + if v.Str? then v.s else []), property, value)
    && kept == Obj([Entry(Name("property"), Str(property)),
                    Entry(Name("value"), if v.Null? then Null else Str(value)),
                    Entry(Name("priority"), Str(if Entry(Name("priority"), Str(Name("important"))) in es then Name("important") else []))])
  }

  lemma ReadsIff(declaration: Text, property: Text, value: Text)
    ensures var colon := FirstFrom(declaration, 0, 0x3A);
            Reads(declaration, property, value) <==> colon > 0 && property == declaration[..colon] && value == declaration[colon + 1..]
  {
    var colon := FirstFrom(declaration, 0, 0x3A);
    if colon > 0 && property == declaration[..colon] && value == declaration[colon + 1..] {
      assert declaration == declaration[..colon] + [declaration[colon]] + declaration[colon + 1..];
    }
    if Reads(declaration, property, value) {
      assert declaration[|property|] == 0x3A;
      forall i | 0 <= i < |property| ensures declaration[i] != 0x3A { assert declaration[i] == property[i]; assert property[i] in property; }
      assert colon == |property|;
      assert declaration[..colon] == property && declaration[colon + 1..] == value;
    }
  }

  lemma SetKept(env: Env, es: seq<Entry>, kept: Value)
    requires HasDistinctKeys(es)
    requires StyleSet(env, es) == Some(kept)
    ensures KeepsSet(env, es, kept)
  {
    hide Name, Lookup, DeclarationText, FirstFrom, HasDistinctKeys, Reads;
    var p, v := Lookup(es, Name("property")).value.s, Lookup(es, Name("value")).value;
    LookupIff(es, Name("property"), Str(p));
    LookupIff(es, Name("value"), v);
    LookupIff(es, Name("priority"), Str(Name("important")));
    var d := DeclarationText(env, p + [0x3A] + if v.Str? then v.s else []);
    var colon := FirstFrom(d, 0, 0x3A);
    ReadsIff(d, d[..colon], d[colon + 1..]);
    assert IsKeptSet(env, es, p, v, d[..colon], d[colon + 1..], kept);
  }

  lemma KeptSet(env: Env, es: seq<Entry>, kept: Value)
    requires HasDistinctKeys(es)
    requires KeepsSet(env, es, kept)
    ensures StyleSet(env, es) == Some(kept)
  {
    hide Name, Lookup, DeclarationText, FirstFrom, HasDistinctKeys, Reads;
    var p, v, property, value :| IsKeptSet(env, es, p, v, property, value, kept);
    LookupIff(es, Name("property"), Str(p));
    LookupIff(es, Name("value"), v);
    LookupIff(es, Name("priority"), Str(Name("important")));
    ReadsIff(DeclarationText(env, p + [0x3A] + if v.Str? then v.s else []), property, value);
  }

  lemma KeepsSetIff(env: Env, es: seq<Entry>, kept: Value)
    requires HasDistinctKeys(es)
    ensures StyleSet(env, es) == Some(kept) <==> KeepsSet(env, es, kept)
  {
    hide *;
    if StyleSet(env, es) == Some(kept) {
      SetKept(env, es, kept);
    }
    if KeepsSet(env, es, kept) {
      KeptSet(env, es, kept);
    }
  }

  /** A `remove` record keeps a property that the declarations of a style sheet may have. */
  ghost predicate KeepsRemove(env: Env, es: seq<Entry>, kept: Value) {
    exists s ::
      && Entry(Name("property"), Str(s)) in es
      && var property := env.lower(Trim(s));
      if HasPrefix(property, [0x2D, 0x2D]) then kept == Obj([Entry(Name("property"), Str(CustomProperty(property)))])
      else env.lists.safeProperty(property) && kept == Obj([Entry(Name("property"), Str(property))])
  }

  lemma KeepsRemoveIff(env: Env, es: seq<Entry>, kept: Value)
    requires HasDistinctKeys(es)
    ensures StyleRemove(env, es) == Some(kept) <==> KeepsRemove(env, es, kept)
  {
    hide Name, Lookup, CustomProperty, Trim, HasDistinctKeys;
    forall v ensures Lookup(es, Name("property")) == Some(v) <==> Entry(Name("property"), v) in es { LookupIff(es, Name("property"), v); }
  }
}
