/** What the browser masked anywhere in a recorded tree stands unchanged at the same place after the server pass. */
module ReplayWalk {
  import opened Wrappers
  import opened JsonText
  import opened StructuralTokens
  import opened CssSanitizer
  import opened ReplayValues
  import opened ReplaySanitizer
  import opened ReplayPrivacy
  import opened ReplayTwoPass

  datatype Place = Key(key: Text) | Index(index: nat)

  /** The value at a place in a tree. */
  function At(v: Value, path: seq<Place>): Option<Value>
    decreases |path|
  {
    if path == [] then Some(v)
    else match (v, path[0])
      case (Obj(es), Key(k)) => (match Lookup(es, k) { case None => None case Some(x) => At(x, path[1..]) })
      case (Arr(items), Index(i)) => if i < |items| then At(items[i], path[1..]) else None
      case _ => None
  }

  /** Keys of JavaScript objects are distinct, all the way down the path. */
  predicate DistinctAlong(v: Value, path: seq<Place>)
    decreases |path|
  {
    path == []
    || (match (v, path[0])
        case (Obj(es), Key(k)) => DistinctEntries(es) && (Lookup(es, k).Some? ==> DistinctAlong(Lookup(es, k).value, path[1..]))
        case (Arr(items), Index(i)) => i < |items| ==> DistinctAlong(items[i], path[1..])
        case _ => true)
  }

  /** The browser masks a string it meets in this context. */
  predicate MasksHere(env: Env, policy: Policy, ctx: Context) {
    && !IsCss(ctx) && ctx.key != Name("href") && !env.locationKey(ctx.key)
    && (policy.masked || (IsText(ctx.key) && ctx.forceMask))
  }

  /** Walking the tree, the browser comes to this place and masks the string there. */
  predicate BrowserMasks(env: Env, policy: Policy, v: Value, ctx: Context, path: seq<Place>)
    decreases |path|
  {
    if path == [] then v.Str? && MasksHere(env, policy, ctx)
    else match (v, path[0])
      case (Obj(es), Key(k)) =>
        var node := ClientNode(env, policy, es, ctx);
        && Lookup(es, k).Some? && ClientShallow(env, policy, node, ctx, Entry(k, Lookup(es, k).value)).None?
        && BrowserMasks(env, policy, Lookup(es, k).value, Below(node, k), path[1..])
      case (Arr(items), Index(i)) => i < |items| && BrowserMasks(env, policy, items[i], ctx, path[1..])
      case _ => false
  }

  /** Walking the tree, the server comes to this place: it decides no entry above it as a whole. */
  predicate ServerReaches(env: Env, policy: Policy, v: Value, ctx: Context, path: seq<Place>)
    decreases |path|
  {
    path == []
    || (match (v, path[0])
        case (Obj(es), Key(k)) =>
          var node := ServerNode(env, policy, es, ctx);
          && Lookup(es, k).Some? && Shallow(env, node, Entry(k, Lookup(es, k).value)).None?
          && ServerReaches(env, policy, Lookup(es, k).value, Below(node, k), path[1..])
        case (Arr(items), Index(i)) => i < |items| && ServerReaches(env, policy, items[i], ctx, path[1..])
        case _ => false)
  }

  /** Both passes use the same conversion to lower case, and the server knows no more location keys. */
  ghost predicate SameConversions(client: Env, server: Env) {
    && (forall t :: server.lower(client.lower(t)) == client.lower(t))
    && (forall k :: server.locationKey(k) ==> client.locationKey(k))
  }

  // ----- the contexts of the two walks agree -----

  /** The server takes for style text only what the browser took for style text. */
  predicate Agree(cctx: Context, sctx: Context) {
    && sctx.key == cctx.key && sctx.key != Name("tagName")
    && (sctx.cssText ==> cctx.cssText) && (sctx.cssRule ==> cctx.cssRule)
  }

  lemma CopiedScalar(env: Env, policy: Policy, v: Value, ctx: Context)
    ensures var c := Clone(env, policy, v, ctx); (c.Num? || c.Bool? ==> c == v)
  {
  }

  /** A key under which a walk does nothing special. */
  predicate IsOrdinary(k: Text) {
    k != Name("tagName") && k != Name("attributes") && k != Name("set") && k != Name("remove")
    && k != Name("childNodes") && k != Name("textContent")
  }

  lemma OrdinaryEntry(env: Env, policy: Policy, node: Node, ctx: Context, e: Entry)
    requires IsOrdinary(e.key)
    ensures CloneEntry(env, policy, node, ctx, e) == if IsDropped(env, e.key) then [] else [Entry(e.key, Clone(env, policy, e.value, Below(node, e.key)))]
  {
    hide Name, Clone, IsDropped, StyleSet, StyleRemove, CloneAttributes;
  }

  /** An ordinary key of the copy holds the copy of what it held. */
  lemma CopiedKey(env: Env, policy: Policy, node: Node, ctx: Context, es: seq<Entry>, k: Text, v: Value)
    requires DistinctEntries(es) && IsOrdinary(k) && (v.Num? || v.Bool?)
    requires Lookup(CloneEntries(env, policy, node, ctx, es), k) == Some(v)
    ensures Lookup(es, k) == Some(v)
  {
    hide Lookup, CloneEntries, DistinctEntries, CloneEntry, IsOrdinary, Clone, IsDropped;
    CloneLookup(env, policy, node, ctx, es, k);
    var x := Lookup(es, k).value;
    OrdinaryEntry(env, policy, node, ctx, Entry(k, x));
    CopiedScalar(env, policy, x, Below(node, k));
  }

  lemma CssKeysOrdinary()
    ensures IsOrdinary(Name("isStyle")) && IsOrdinary(Name("source"))
  {
    hide Name;
    NameFirst("isStyle");
    NameFirst("tagName");
    NameFirst("source");
    NameFirst("remove");
  }

  lemma SourceCopied(env: Env, policy: Policy, node: Node, ctx: Context, es: seq<Entry>, source: real)
    requires DistinctEntries(es) && HasSource(CloneEntries(env, policy, node, ctx, es), source)
    ensures HasSource(es, source)
  {
    CssKeysOrdinary();
    hide Name, CloneEntries, DistinctEntries, IsOrdinary;
    CopiedKey(env, policy, node, ctx, es, Name("source"), Num(source));
  }

  lemma StyleFlagCopied(env: Env, policy: Policy, node: Node, ctx: Context, es: seq<Entry>)
    requires DistinctEntries(es) && Lookup(CloneEntries(env, policy, node, ctx, es), Name("isStyle")) == Some(Bool(true))
    ensures Lookup(es, Name("isStyle")) == Some(Bool(true))
  {
    CssKeysOrdinary();
    hide Name, CloneEntries, DistinctEntries, IsOrdinary;
    CopiedKey(env, policy, node, ctx, es, Name("isStyle"), Bool(true));
  }

  lemma TagEntry(env: Env, policy: Policy, node: Node, ctx: Context, x: Value)
    ensures CloneEntry(env, policy, node, ctx, Entry(Name("tagName"), x))
         == if IsDropped(env, Name("tagName")) then [] else [Entry(Name("tagName"), Str(ClientTag(node)))]
  {
    hide Name, Clone, IsDropped, StyleSet, StyleRemove, CloneAttributes, ClientTag;
  }

  /** The tag the server sees on a copied node. */
  lemma CopiedTag(client: Env, server: Env, policy: Policy, node: Node, ctx: Context, es: seq<Entry>)
    requires DistinctEntries(es) && TagOf(server, CloneEntries(client, policy, node, ctx, es)).Some?
    ensures TagOf(server, CloneEntries(client, policy, node, ctx, es)).value == server.lower(ClientTag(node))
  {
    hide Name, Lookup, CloneEntries, DistinctEntries, CloneEntry, IsDropped, ClientTag;
    CloneLookup(client, policy, node, ctx, es, Name("tagName"));
    var original := Lookup(es, Name("tagName"));
    if original.Some? { TagEntry(client, policy, node, ctx, original.value); }
  }

  lemma NodeTag(env: Env, policy: Policy, es: seq<Entry>, ctx: Context)
    ensures var node := ClientNode(env, policy, es, ctx);
            node.tag == TagOf(env, es) && (node.tag == Some(Name("style")) ==> node.cssText)
  {
    assert |Name("style")| == 5;
    hide Name, Lookup, IsBlocked, IsMasked, IsEditable, HasCollision, HasSource, Attributes, TagOf;
  }

  lemma ShortTags(env: Env)
    requires SoundEnv(env)
    ensures env.lower([]) != Name("style") && env.lower(Name("div")) != Name("style")
  {
    DivIsDiv(env);
    LowerKept(env, []);
    hide Name, SoundEnv;
    assert |Name("style")| == 5 && |Name("div")| == 3;
  }

  /** A node that the server takes for a style element was one for the browser. */
  lemma StyleTagCopied(client: Env, server: Env, policy: Policy, es: seq<Entry>, ctx: Context)
    requires SoundEnv(server) && SameConversions(client, server) && DistinctEntries(es)
    requires TagOf(server, CloneEntries(client, policy, ClientNode(client, policy, es, ctx), ctx, es)) == Some(Name("style"))
    ensures ClientNode(client, policy, es, ctx).cssText
  {
    hide Name, SoundEnv, SameConversions, TagOf, CloneEntries, DistinctEntries, ClientNode;
    var node := ClientNode(client, policy, es, ctx);
    CopiedTag(client, server, policy, node, ctx, es);
    ShortTags(server);
    NodeTag(client, policy, es, ctx);
    if !node.executable && node.tag.Some? {
      TagIsLower(client, server, es);
    }
  }

  lemma TagIsLower(client: Env, server: Env, es: seq<Entry>)
    requires SameConversions(client, server) && TagOf(client, es).Some?
    ensures server.lower(TagOf(client, es).value) == TagOf(client, es).value
  {
    hide Name, Lookup;
  }

  lemma CssFlags(env: Env, policy: Policy, es: seq<Entry>, ctx: Context)
    ensures var node := ServerNode(env, policy, es, ctx);
            && (node.cssText ==> ctx.cssText || Lookup(es, Name("isStyle")) == Some(Bool(true)) || TagOf(env, es) == Some(Name("style")))
            && (node.cssRule ==> ctx.cssRule || HasSource(es, 8.0) || HasSource(es, 15.0))
    ensures var node := ClientNode(env, policy, es, ctx);
            && (ctx.cssText || Lookup(es, Name("isStyle")) == Some(Bool(true)) ==> node.cssText)
            && (ctx.cssRule || HasSource(es, 8.0) || HasSource(es, 15.0) ==> node.cssRule)
  {
    hide Name, Lookup, IsBlocked, IsMasked, IsEditable, HasCollision, HasSource, Attributes;
  }

  lemma NodesAgree(client: Env, server: Env, cp: Policy, sp: Policy, es: seq<Entry>, cctx: Context, sctx: Context, k: Text)
    requires SoundEnv(server) && SameConversions(client, server) && DistinctEntries(es) && Agree(cctx, sctx) && k != Name("tagName")
    ensures var node := ClientNode(client, cp, es, cctx);
            Agree(Below(node, k), Below(ServerNode(server, sp, CloneEntries(client, cp, node, cctx, es), sctx), k))
  {
    hide Name, SoundEnv, SameConversions, Lookup, CloneEntries, ClientNode, ServerNode, HasSource, TagOf, DistinctEntries;
    var node := ClientNode(client, cp, es, cctx);
    var copy := CloneEntries(client, cp, node, cctx, es);
    CssFlags(client, cp, es, cctx);
    CssFlags(server, sp, copy, sctx);
    if Lookup(copy, Name("isStyle")) == Some(Bool(true)) { StyleFlagCopied(client, cp, node, cctx, es); }
    if HasSource(copy, 8.0) { SourceCopied(client, cp, node, cctx, es, 8.0); }
    if HasSource(copy, 15.0) { SourceCopied(client, cp, node, cctx, es, 15.0); }
    if TagOf(server, copy) == Some(Name("style")) { StyleTagCopied(client, server, cp, es, cctx); }
  }

  // ----- walking down -----

  lemma {:induction false} WalkedItem(env: Env, policy: Policy, items: seq<Value>, ctx: Context, depth: nat, nodes: nat, i: nat) returns (n: nat)
    requires SanitizeItems(env, policy, items, ctx, depth, nodes).Walked? && i < |items|
    ensures var out := SanitizeItems(env, policy, items, ctx, depth, nodes).value;
            i < |out| && Sanitize(env, policy, items[i], ctx, depth, n).Walked? && out[i] == Sanitize(env, policy, items[i], ctx, depth, n).value
    decreases i
  {
    hide Sanitize;
    var first := Sanitize(env, policy, items[0], ctx, depth, nodes);
    var rest := SanitizeItems(env, policy, items[1..], ctx, depth, first.nodes);
    assert SanitizeItems(env, policy, items, ctx, depth, nodes).value == [first.value] + rest.value;
    if i == 0 {
      n := nodes;
    } else {
      n := WalkedItem(env, policy, items[1..], ctx, depth, first.nodes, i - 1);
    }
  }

  lemma {:induction false} ClonedItem(env: Env, policy: Policy, items: seq<Value>, ctx: Context, i: nat)
    requires i < |items|
    ensures var out := CloneItems(env, policy, items, ctx); i < |out| && out[i] == Clone(env, policy, items[i], ctx)
    decreases i
  {
    hide Clone;
    if i > 0 { ClonedItem(env, policy, items[1..], ctx, i - 1); }
  }

  // ----- the theorem -----

  lemma ClonedMask(env: Env, policy: Policy, s: Text, ctx: Context)
    requires MasksHere(env, policy, ctx)
    ensures CloneString(env, policy, ctx, s) == Masked(s)
  {
    hide Name, Masked, IsCss;
  }

  lemma TextKept(client: Env, server: Env, cp: Policy, sp: Policy, s: Text, cctx: Context, sctx: Context)
    requires SoundEnv(server) && SameConversions(client, server) && Agree(cctx, sctx) && MasksHere(client, cp, cctx)
    requires |s| <= MAX_STRING
    ensures CloneString(client, cp, cctx, s) == Masked(s) == CleanString(server, sp, sctx, Masked(s))
  {
    hide SoundEnv, Name, Masked, StyleSheet;
    assert !IsCss(sctx) && sctx.key != Name("href") && !server.locationKey(sctx.key);
    hide IsCss, SameConversions;
    MaskedTextKept(server, sp, sctx, s);
  }

  /** Under a key that neither pass decides as a whole stands what the passes make of the value. */
  lemma KeyWalked(client: Env, server: Env, cp: Policy, sp: Policy, es: seq<Entry>, cctx: Context, sctx: Context,
                  k: Text, depth: nat, nodes: nat) returns (n: nat)
    requires DistinctEntries(es) && Lookup(es, k).Some?
    requires var node := ClientNode(client, cp, es, cctx);
             ClientShallow(client, cp, node, cctx, Entry(k, Lookup(es, k).value)).None?
    requires var copy := CloneEntries(client, cp, ClientNode(client, cp, es, cctx), cctx, es);
             var snode := ServerNode(server, sp, copy, sctx);
             && Lookup(copy, k).Some? && Shallow(server, snode, Entry(k, Lookup(copy, k).value)).None?
             && SanitizeEntries(server, sp, snode, copy, depth, nodes).Walked?
    ensures k != Name("tagName")
    ensures var node := ClientNode(client, cp, es, cctx);
            var copy := CloneEntries(client, cp, node, cctx, es);
            var snode := ServerNode(server, sp, copy, sctx);
            var child := Clone(client, cp, Lookup(es, k).value, Below(node, k));
            && Lookup(copy, k) == Some(child)
            && Sanitize(server, sp, child, Below(snode, k), depth, n).Walked?
            && Lookup(SanitizeEntries(server, sp, snode, copy, depth, nodes).value, k)
               == Some(Sanitize(server, sp, child, Below(snode, k), depth, n).value)
  {
    var node := ClientNode(client, cp, es, cctx);
    var copy := CloneEntries(client, cp, node, cctx, es);
    var snode := ServerNode(server, sp, copy, sctx);
    assert k != Name("tagName") by { NotTagName(server, snode, k, Lookup(copy, k).value); }
    hide Name, Lookup, DistinctEntries, CloneEntries, ClientNode, ServerNode, ClientShallow, Shallow, Clone, Sanitize, SanitizeEntries, Below;
    CloneLookup(client, cp, node, cctx, es, k);
    CloneDistinct(client, cp, node, cctx, es);
    n := WalkedEntry(server, sp, snode, copy, depth, nodes, k);
  }

  lemma NotTagName(env: Env, node: Node, k: Text, v: Value)
    requires Shallow(env, node, Entry(k, v)).None?
    ensures k != Name("tagName")
  {
    hide Name, IsDropped, StyleSet, StyleRemove, CleanAttributes;
  }

  /**
   * Text that the browser masked, anywhere in a recorded tree, stands unchanged at the same place in what
   * the server writes, whatever the two policies are, unless the server decides an entry above it as a whole.
   */
  lemma {:induction false} MaskedLeafKept(client: Env, server: Env, cp: Policy, sp: Policy, v: Value, cctx: Context, sctx: Context,
                                          path: seq<Place>, depth: nat, nodes: nat)
    requires SoundEnv(server) && SameConversions(client, server) && Agree(cctx, sctx)
    requires DistinctAlong(v, path) && BrowserMasks(client, cp, v, cctx, path)
    requires var c := Clone(client, cp, v, cctx);
             ServerReaches(server, sp, c, sctx, path) && Sanitize(server, sp, c, sctx, depth, nodes).Walked?
    ensures At(v, path).Some? && At(v, path).value.Str?
    ensures var c := Clone(client, cp, v, cctx);
            var masked := Str(Masked(At(v, path).value.s));
            At(c, path) == Some(masked) && At(Sanitize(server, sp, c, sctx, depth, nodes).value, path) == Some(masked)
    decreases |path|
  {
    hide Name, SoundEnv, SameConversions, ClientNode, ServerNode, ClientShallow, Shallow, CloneEntries, CloneItems, SanitizeEntries,
         SanitizeItems, Lookup, DistinctEntries, CleanString, CloneString, Agree, MasksHere, Masked;
    if path == [] {
      assert |Masked(v.s)| == |v.s|;
      ClonedMask(client, cp, v.s, cctx);
      TextKept(client, server, cp, sp, v.s, cctx, sctx);
    } else {
      match (v, path[0])
      case (Obj(es), Key(k)) =>
        var node := ClientNode(client, cp, es, cctx);
        var copy := CloneEntries(client, cp, node, cctx, es);
        var n := KeyWalked(client, server, cp, sp, es, cctx, sctx, k, depth + 1, nodes + 1);
        NodesAgree(client, server, cp, sp, es, cctx, sctx, k);
        MaskedLeafKept(client, server, cp, sp, Lookup(es, k).value, Below(node, k), Below(ServerNode(server, sp, copy, sctx), k),
                       path[1..], depth + 1, n);
      case (Arr(items), Index(i)) =>
        var copy := CloneItems(client, cp, items, cctx);
        ClonedItem(client, cp, items, cctx, i);
        var n := WalkedItem(server, sp, copy, sctx, depth + 1, nodes, i);
        MaskedLeafKept(client, server, cp, sp, items[i], cctx, sctx, path[1..], depth + 1, n);
    }
  }
}
