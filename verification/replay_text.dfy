/** What either pass writes for a string anywhere in a recorded tree, told on the objects above it. */
module ReplayText {
  import opened Wrappers
  import opened JsonText
  import opened StructuralTokens
  import opened ReplayValues
  import opened ReplaySanitizer
  import opened ReplayPrivacy
  import opened ReplayTwoPass
  import opened ReplayWalk
  import opened ReplayBlocking

  // ----- the way to a string -----

  /** Neither dropped nor decided as a whole: a walk goes into this entry of an object. */
  ghost predicate Enters(env: Env, policy: Policy, es: seq<Entry>, k: Text, v: Value, browser: bool) {
    && k != Name("__proto__") && k != Name("prototype") && k != Name("constructor") && !env.handlerKey(k)
    && k != Name("tagName")
    && !(v.Obj? && k == Name("attributes"))
    && !(v.Obj? && (k == Name("set") || k == Name("remove")) && Entry(Name("source"), Num(13.0)) in es)
    && !((k == Name("childNodes") || k == Name("textContent"))
         && Blocks(env, policy.blockSelectors, es, Attributes(es), browser))
  }

  /** A walk comes to this place. */
  ghost predicate Reaches(env: Env, policy: Policy, v: Value, path: seq<Place>, browser: bool)
    decreases |path|
  {
    path == []
    || (match (v, path[0])
        case (Obj(es), Key(k)) =>
          && HasDistinctKeys(es) && Lookup(es, k).Some? && Enters(env, policy, es, k, Lookup(es, k).value, browser)
          && Reaches(env, policy, Lookup(es, k).value, path[1..], browser)
        case (Arr(items), Index(i)) => i < |items| && Reaches(env, policy, items[i], path[1..], browser)
        case _ => false)
  }

  datatype Quality = Masking | Styling | Ruling

  /** What an object says of the strings below it: they are masked, style text, or text of style rules. */
  ghost predicate Says(env: Env, policy: Policy, es: seq<Entry>, quality: Quality, browser: bool) {
    match quality
    case Masking => Masks(env, policy.maskSelectors, es, Attributes(es), browser)
    case Styling => Entry(Name("isStyle"), Bool(true)) in es || HasTag(env, es, Name("style"))
    case Ruling => Entry(Name("source"), Num(8.0)) in es || Entry(Name("source"), Num(15.0)) in es
  }

  /** Some object above the place says so. */
  ghost predicate Above(env: Env, policy: Policy, v: Value, path: seq<Place>, quality: Quality, browser: bool)
    decreases |path|
  {
    path != []
    && (match (v, path[0])
        case (Obj(es), Key(k)) =>
          || Says(env, policy, es, quality, browser)
          || (Lookup(es, k).Some? && Above(env, policy, Lookup(es, k).value, path[1..], quality, browser))
        case (Arr(items), Index(i)) => i < |items| && Above(env, policy, items[i], path[1..], quality, browser)
        case _ => false)
  }

  /** The last key on the way. */
  function KeyAt(key: Text, path: seq<Place>): Text
    decreases |path|
  {
    if path == [] then key else KeyAt(if path[0].Key? then path[0].key else key, path[1..])
  }

  // ----- what is written -----

  /** Every unit but white space is a bullet. */
  predicate IsShape(s: Text, w: Text) {
    |w| == |s| && forall i :: 0 <= i < |s| ==> w[i] == if IsSpace(s[i]) then s[i] else 0x2022
  }

  predicate IsSheet(key: Text, styled: bool, ruled: bool) {
    || key == Name("_cssText") || key == Name("cssText") || key == Name("rule")
    || (ruled && (key == Name("replace") || key == Name("replaceSync")))
    || (styled && key == Name("textContent"))
  }

  predicate IsWritten(env: Env, policy: Policy, key: Text, masked: bool, styled: bool, ruled: bool, s: Text, w: Text, browser: bool) {
    var bullets := [0x2022, 0x2022, 0x2022, 0x2022];
    if IsSheet(key, styled, ruled) then w == StyleSheet(env, s)
    else if key == Name("href") then w == Name("https://replay.invalid/") + policy.route
    else if env.locationKey(key) then w == bullets
    else if policy.masked || (masked && (key == Name("textContent") || key == Name("value") || key == Name("text"))) then IsShape(s, w)
    else if env.lists.urlLike(s) || env.relativeLocation(s) then w == bullets
    else if browser || |env.lists.redact(s)| <= 100_000 then w == env.lists.redact(s)
    else w == env.lists.redact(s)[..100_000]
  }

  lemma ShapeIff(s: Text, w: Text)
    ensures IsShape(s, w) <==> w == Masked(s)
  {
    hide IsSpace, Masked;
  }

  lemma ServerLeaf(env: Env, policy: Policy, ctx: Context, s: Text)
    requires ctx.key != Name("tagName")
    ensures IsWritten(env, policy, ctx.key, ctx.forceMask, ctx.cssText, ctx.cssRule, s, CleanString(env, policy, ctx, s), false)
  {
    hide Name, StyleSheet, Masked, IsShape;
    ShapeIff(s, Masked(s));
    assert MASK == [0x2022, 0x2022, 0x2022, 0x2022];
  }

  lemma BrowserLeaf(env: Env, policy: Policy, ctx: Context, s: Text)
    ensures IsWritten(env, policy, ctx.key, ctx.forceMask, ctx.cssText, ctx.cssRule, s, CloneString(env, policy, ctx, s), true)
  {
    hide Name, StyleSheet, Masked, IsShape;
    ShapeIff(s, Masked(s));
    assert MASK == [0x2022, 0x2022, 0x2022, 0x2022];
  }

  // ----- one object on the way -----

  lemma OwnsAttributes(es: seq<Entry>)
    requires HasDistinctKeys(es)
    ensures Owns(es, Attributes(es))
  {
    hide Name, Lookup;
    match Lookup(es, Name("attributes"))
    case Some(v) => LookupIff(es, Name("attributes"), v);
    case None => LookupIff(es, Name("attributes"), Null);
  }

  lemma ServerEnters(env: Env, policy: Policy, es: seq<Entry>, ctx: Context, k: Text)
    requires HasDistinctKeys(es) && Lookup(es, k).Some? && Enters(env, policy, es, k, Lookup(es, k).value, false)
    ensures Shallow(env, ServerNode(env, policy, es, ctx), Entry(k, Lookup(es, k).value)).None?
  {
    hide *;
    OwnsAttributes(es);
    ServerDecides(env, policy, es, Attributes(es), ctx);
    ShallowIff(env, policy, es, ServerNode(env, policy, es, ctx), ctx, Entry(k, Lookup(es, k).value));
  }

  lemma ShallowIff(env: Env, policy: Policy, es: seq<Entry>, node: Node, ctx: Context, e: Entry)
    requires Decides(env, policy, es, Attributes(es), ctx, node, false)
    ensures Shallow(env, node, e).None? <==> Enters(env, policy, es, e.key, e.value, false)
  {
    hide Name, Attributes, Blocks, Masks, HasTag, TagOf, StyleSet, StyleRemove, CleanAttributes;
    KeysDiffer();
  }

  lemma BrowserEnters(env: Env, policy: Policy, es: seq<Entry>, ctx: Context, k: Text)
    requires HasDistinctKeys(es) && Lookup(es, k).Some? && Enters(env, policy, es, k, Lookup(es, k).value, true)
    ensures ClientShallow(env, policy, ClientNode(env, policy, es, ctx), ctx, Entry(k, Lookup(es, k).value)).None?
  {
    hide *;
    OwnsAttributes(es);
    BrowserDecides(env, policy, es, Attributes(es), ctx);
    ClientShallowIff(env, policy, es, ClientNode(env, policy, es, ctx), ctx, Entry(k, Lookup(es, k).value));
  }

  lemma ClientShallowIff(env: Env, policy: Policy, es: seq<Entry>, node: Node, ctx: Context, e: Entry)
    requires Decides(env, policy, es, Attributes(es), ctx, node, true)
    ensures ClientShallow(env, policy, node, ctx, e).None? <==> Enters(env, policy, es, e.key, e.value, true)
  {
    hide Name, Attributes, Blocks, Masks, HasTag, TagOf, StyleSet, StyleRemove, CloneAttributes;
    KeysDiffer();
  }

  /** What a walk carries down is what it carried, and what this object says. */
  ghost predicate Carried(env: Env, policy: Policy, es: seq<Entry>, ctx: Context, below: Context, browser: bool) {
    && (below.forceMask <==> ctx.forceMask || Says(env, policy, es, Masking, browser))
    && (below.cssText <==> ctx.cssText || Says(env, policy, es, Styling, browser))
    && (below.cssRule <==> ctx.cssRule || Says(env, policy, es, Ruling, browser))
  }

  lemma DecidedCarried(env: Env, policy: Policy, es: seq<Entry>, ctx: Context, node: Node, k: Text, browser: bool)
    requires Decides(env, policy, es, Attributes(es), ctx, node, browser)
    ensures Carried(env, policy, es, ctx, Below(node, k), browser)
  {
    hide Name, Attributes, Blocks, Masks, HasTag, TagOf;
  }

  lemma ServerCarried(env: Env, policy: Policy, es: seq<Entry>, ctx: Context, k: Text)
    requires HasDistinctKeys(es)
    ensures Carried(env, policy, es, ctx, Below(ServerNode(env, policy, es, ctx), k), false)
  {
    hide *;
    OwnsAttributes(es);
    ServerDecides(env, policy, es, Attributes(es), ctx);
    DecidedCarried(env, policy, es, ctx, ServerNode(env, policy, es, ctx), k, false);
  }

  lemma BrowserCarried(env: Env, policy: Policy, es: seq<Entry>, ctx: Context, k: Text)
    requires HasDistinctKeys(es)
    ensures Carried(env, policy, es, ctx, Below(ClientNode(env, policy, es, ctx), k), true)
  {
    hide *;
    OwnsAttributes(es);
    BrowserDecides(env, policy, es, Attributes(es), ctx);
    DecidedCarried(env, policy, es, ctx, ClientNode(env, policy, es, ctx), k, true);
  }

  // ----- the theorems -----

  /** `w` is what stands for `s`, by the way to it. */
  ghost predicate IsWrittenAt(env: Env, policy: Policy, v: Value, ctx: Context, path: seq<Place>, s: Text, w: Option<Value>, browser: bool) {
    && w.Some? && w.value.Str?
    && IsWritten(env, policy, KeyAt(ctx.key, path), ctx.forceMask || Above(env, policy, v, path, Masking, browser),
                 ctx.cssText || Above(env, policy, v, path, Styling, browser), ctx.cssRule || Above(env, policy, v, path, Ruling, browser),
                 s, w.value.s, browser)
  }

  lemma StepKey(env: Env, policy: Policy, es: seq<Entry>, ctx: Context, below: Context, path: seq<Place>, s: Text, w: Option<Value>, browser: bool)
    requires path != [] && path[0].Key? && Lookup(es, path[0].key).Some? && below.key == path[0].key
    requires Carried(env, policy, es, ctx, below, browser)
    requires IsWrittenAt(env, policy, Lookup(es, path[0].key).value, below, path[1..], s, w, browser)
    ensures IsWrittenAt(env, policy, Obj(es), ctx, path, s, w, browser)
  {
    hide IsWritten, Says, Lookup;
  }

  lemma StepIndex(env: Env, policy: Policy, items: seq<Value>, ctx: Context, path: seq<Place>, s: Text, w: Option<Value>, browser: bool)
    requires path != [] && path[0].Index? && path[0].index < |items|
    requires IsWrittenAt(env, policy, items[path[0].index], ctx, path[1..], s, w, browser)
    ensures IsWrittenAt(env, policy, Arr(items), ctx, path, s, w, browser)
  {
    hide IsWritten, Says, Lookup;
  }

  lemma ServerChild(env: Env, policy: Policy, es: seq<Entry>, ctx: Context, k: Text, depth: nat, nodes: nat) returns (n: nat)
    requires HasDistinctKeys(es) && Lookup(es, k).Some? && Enters(env, policy, es, k, Lookup(es, k).value, false)
    requires Sanitize(env, policy, Obj(es), ctx, depth, nodes).Walked?
    ensures var child := Sanitize(env, policy, Lookup(es, k).value, Below(ServerNode(env, policy, es, ctx), k), depth + 1, n);
            var out := Sanitize(env, policy, Obj(es), ctx, depth, nodes).value;
            child.Walked? && out.Obj? && Lookup(out.entries, k) == Some(child.value)
  {
    ServerEnters(env, policy, es, ctx, k);
    ServerObject(env, policy, es, ctx, depth, nodes);
    KeysDistinct(es);
    hide Name, Lookup, HasDistinctKeys, DistinctEntries, Enters, ServerNode, Shallow, Sanitize, SanitizeEntries;
    n := WalkedEntry(env, policy, ServerNode(env, policy, es, ctx), es, depth + 1, nodes + 1, k);
  }

  lemma ServerItem(env: Env, policy: Policy, items: seq<Value>, ctx: Context, i: nat, depth: nat, nodes: nat) returns (n: nat)
    requires i < |items| && Sanitize(env, policy, Arr(items), ctx, depth, nodes).Walked?
    ensures var child := Sanitize(env, policy, items[i], ctx, depth + 1, n);
            var out := Sanitize(env, policy, Arr(items), ctx, depth, nodes).value;
            child.Walked? && out.Arr? && i < |out.items| && out.items[i] == child.value
  {
    hide SanitizeItems, SanitizeEntries, ServerNode, CleanString, Name;
    n := WalkedItem(env, policy, items, ctx, depth + 1, nodes, i);
  }

  lemma AtKey(v: Value, path: seq<Place>, x: Value)
    requires path != [] && path[0].Key? && v.Obj? && Lookup(v.entries, path[0].key) == Some(x)
    ensures At(v, path) == At(x, path[1..])
  {
    hide Lookup;
  }

  /** Whatever string the server reaches, it writes as the objects above it say. */
  lemma {:induction false} ServerWrites(env: Env, policy: Policy, v: Value, ctx: Context, path: seq<Place>, depth: nat, nodes: nat)
    requires ctx.key != Name("tagName") && Reaches(env, policy, v, path, false)
    requires At(v, path).Some? && At(v, path).value.Str?
    requires Sanitize(env, policy, v, ctx, depth, nodes).Walked?
    ensures IsWrittenAt(env, policy, v, ctx, path, At(v, path).value.s, At(Sanitize(env, policy, v, ctx, depth, nodes).value, path), false)
    decreases |path|
  {
    hide Name, Lookup, HasDistinctKeys, Says, ServerNode, SanitizeEntries, SanitizeItems, IsWritten, CleanString, Blocks, IsWrittenAt;
    if path == [] {
      LeafWritten(env, policy, v.s, ctx);
    } else {
      match (v, path[0])
      case (Obj(es), Key(k)) =>
        var x, below := Lookup(es, k).value, Below(ServerNode(env, policy, es, ctx), k);
        var n := ServerChild(env, policy, es, ctx, k, depth, nodes);
        ServerCarried(env, policy, es, ctx, k);
        ServerWrites(env, policy, x, below, path[1..], depth + 1, n);
        var out := Sanitize(env, policy, v, ctx, depth, nodes).value;
        AtKey(out, path, Sanitize(env, policy, x, below, depth + 1, n).value);
        AtKey(v, path, x);
        StepKey(env, policy, es, ctx, below, path, At(v, path).value.s, At(out, path), false);
      case (Arr(items), Index(i)) =>
        var n := ServerItem(env, policy, items, ctx, i, depth, nodes);
        ServerWrites(env, policy, items[i], ctx, path[1..], depth + 1, n);
        var out := Sanitize(env, policy, v, ctx, depth, nodes).value;
        StepIndex(env, policy, items, ctx, path, At(v, path).value.s, At(out, path), false);
    }
  }

  lemma LeafWritten(env: Env, policy: Policy, s: Text, ctx: Context)
    ensures ctx.key != Name("tagName") ==> IsWrittenAt(env, policy, Str(s), ctx, [], s, Some(Str(CleanString(env, policy, ctx, s))), false)
    ensures IsWrittenAt(env, policy, Str(s), ctx, [], s, Some(Str(CloneString(env, policy, ctx, s))), true)
  {
    hide Name, CleanString, CloneString, IsWritten;
    if ctx.key != Name("tagName") { ServerLeaf(env, policy, ctx, s); }
    BrowserLeaf(env, policy, ctx, s);
  }

  lemma BrowserChild(env: Env, policy: Policy, es: seq<Entry>, ctx: Context, k: Text)
    requires HasDistinctKeys(es) && Lookup(es, k).Some? && Enters(env, policy, es, k, Lookup(es, k).value, true)
    ensures var out := Clone(env, policy, Obj(es), ctx);
            out.Obj? && Lookup(out.entries, k) == Some(Clone(env, policy, Lookup(es, k).value, Below(ClientNode(env, policy, es, ctx), k)))
  {
    BrowserEnters(env, policy, es, ctx, k);
    ClientObject(env, policy, es, ctx);
    KeysDistinct(es);
    hide Name, Lookup, HasDistinctKeys, DistinctEntries, Enters, ClientNode, ClientShallow, Clone, CloneEntries;
    CloneLookup(env, policy, ClientNode(env, policy, es, ctx), ctx, es, k);
  }

  /** The same of the browser. */
  lemma {:induction false} BrowserWrites(env: Env, policy: Policy, v: Value, ctx: Context, path: seq<Place>)
    requires Reaches(env, policy, v, path, true)
    requires At(v, path).Some? && At(v, path).value.Str?
    ensures IsWrittenAt(env, policy, v, ctx, path, At(v, path).value.s, At(Clone(env, policy, v, ctx), path), true)
    decreases |path|
  {
    hide Name, Lookup, HasDistinctKeys, Says, ClientNode, CloneEntries, CloneItems, IsWritten, CloneString, Blocks, IsWrittenAt;
    if path == [] {
      LeafWritten(env, policy, v.s, ctx);
    } else {
      match (v, path[0])
      case (Obj(es), Key(k)) =>
        var x, below := Lookup(es, k).value, Below(ClientNode(env, policy, es, ctx), k);
        BrowserChild(env, policy, es, ctx, k);
        BrowserCarried(env, policy, es, ctx, k);
        BrowserWrites(env, policy, x, below, path[1..]);
        var out := Clone(env, policy, v, ctx);
        AtKey(out, path, Clone(env, policy, x, below));
        AtKey(v, path, x);
        StepKey(env, policy, es, ctx, below, path, At(v, path).value.s, At(out, path), true);
      case (Arr(items), Index(i)) =>
        ClonedItem(env, policy, items, ctx, i);
        BrowserWrites(env, policy, items[i], ctx, path[1..]);
        StepIndex(env, policy, items, ctx, path, At(v, path).value.s, At(Clone(env, policy, v, ctx), path), true);
    }
  }
}
