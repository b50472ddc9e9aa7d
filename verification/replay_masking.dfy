/** Masked text does not interfere with what either pass writes, nor with what both write together. */
module ReplayMasking {
  import opened Wrappers
  import opened JsonText
  import opened StructuralTokens
  import opened CssSanitizer
  import opened ReplayValues
  import opened ReplaySanitizer
  import opened ReplayPrivacy

  /** The same length and the same white space in the same places. */
  predicate SameShape(a: Text, b: Text) {
    && |a| == |b|
    && forall i :: 0 <= i < |a| ==> (IsSpace(a[i]) || IsSpace(b[i]) ==> a[i] == b[i])
  }

  /** Masking keeps the shape and nothing else. */
  lemma MaskedIff(a: Text, b: Text)
    ensures Masked(a) == Masked(b) <==> SameShape(a, b)
  {
    var x, y := Masked(a), Masked(b);
    assert !IsSpace(BULLET);
    hide IsSpace, Masked;
    if x == y {
      forall i | 0 <= i < |a| ensures IsSpace(a[i]) || IsSpace(b[i]) ==> a[i] == b[i] {
        assert x[i] == y[i];
      }
    }
    if SameShape(a, b) {
      assert x == y;
    }
  }

  /** What a second pass finds is already masked. */
  lemma MaskedTwice(t: Text)
    ensures Masked(Masked(t)) == Masked(t)
  {
    assert !IsSpace(BULLET);
    hide IsSpace, Masked;
    assert Masked(Masked(t)) == Masked(t);
  }

  /** Which of the two passes. */
  datatype Side = Browser | Server

  function NodeAt(side: Side, env: Env, policy: Policy, es: seq<Entry>, ctx: Context): Node {
    if side.Browser? then ClientNode(env, policy, es, ctx) else ServerNode(env, policy, es, ctx)
  }

  /** Strings that may stand for each other: style text and plain visible text only for themselves. */
  predicate AlikeText(side: Side, env: Env, policy: Policy, ctx: Context, a: Text, b: Text) {
    && (side.Server? ==> (|a| > MAX_STRING <==> |b| > MAX_STRING))
    && (if IsCss(ctx) then a == b
        else if ctx.key == Name("href") || env.locationKey(ctx.key) then true
        else if ctx.key == Name("tagName") then a == b
        else if policy.masked || (IsText(ctx.key) && ctx.forceMask) then SameShape(a, b)
        else a == b)
  }

  /** The same tag, attributes, style flag and event source. */
  predicate SameHeader(es: seq<Entry>, fs: seq<Entry>) {
    && Lookup(es, Name("tagName")) == Lookup(fs, Name("tagName"))
    && Attributes(es) == Attributes(fs)
    && (Lookup(es, Name("isStyle")) == Some(Bool(true)) <==> Lookup(fs, Name("isStyle")) == Some(Bool(true)))
    && (HasSource(es, 5.0) <==> HasSource(fs, 5.0)) && (HasSource(es, 8.0) <==> HasSource(fs, 8.0))
    && (HasSource(es, 13.0) <==> HasSource(fs, 13.0)) && (HasSource(es, 15.0) <==> HasSource(fs, 15.0))
  }

  /** An entry whose value decides nothing below it and is not walked into. */
  predicate IsReplaced(env: Env, node: Node, key: Text) {
    || IsDropped(env, key) || key == Name("tagName")
    || (node.executable && (key == Name("childNodes") || key == Name("textContent")))
  }

  /** An object that is handled as a whole: attributes, and the parts of a style declaration. */
  predicate IsWhole(node: Node, e: Entry) {
    e.value.Obj? && (e.key == Name("attributes") || (node.styleDeclaration && (e.key == Name("set") || e.key == Name("remove"))))
  }

  /**
   * Values that agree on structure, tags, attributes and style text, and otherwise differ at most in
   * strings that are masked, in the shape-preserving sense. What is dropped or replaced may differ freely.
   */
  predicate Alike(side: Side, env: Env, policy: Policy, ctx: Context, a: Value, b: Value)
    decreases Size(a), 1
  {
    hide SameHeader, NodeAt, AlikeText;
    match (a, b)
    case (Str(s), Str(t)) => AlikeText(side, env, policy, ctx, s, t)
    case (Arr(xs), Arr(ys)) => AlikeItems(side, env, policy, ctx, xs, ys)
    case (Obj(es), Obj(fs)) => SameHeader(es, fs) && AlikeEntries(side, env, policy, NodeAt(side, env, policy, es, ctx), es, fs)
    case _ => a == b
  }

  predicate AlikeItems(side: Side, env: Env, policy: Policy, ctx: Context, xs: seq<Value>, ys: seq<Value>)
    decreases ItemsSize(xs), 0
  {
    |xs| == |ys| && (xs == [] || (Alike(side, env, policy, ctx, xs[0], ys[0]) && AlikeItems(side, env, policy, ctx, xs[1..], ys[1..])))
  }

  predicate AlikeEntry(side: Side, env: Env, policy: Policy, node: Node, e: Entry, f: Entry)
    decreases Size(e.value), 2
  {
    && e.key == f.key
    && (IsReplaced(env, node, e.key)
        || (if IsWhole(node, e) || IsWhole(node, f) then e.value == f.value
            else Alike(side, env, policy, Below(node, e.key), e.value, f.value)))
  }

  predicate AlikeEntries(side: Side, env: Env, policy: Policy, node: Node, es: seq<Entry>, fs: seq<Entry>)
    decreases EntriesSize(es), 0
  {
    |es| == |fs| && (es == [] || (AlikeEntry(side, env, policy, node, es[0], fs[0]) && AlikeEntries(side, env, policy, node, es[1..], fs[1..])))
  }

  lemma SameText(env: Env, policy: Policy, ctx: Context, a: Text, b: Text)
    requires AlikeText(Server, env, policy, ctx, a, b)
    ensures CleanString(env, policy, ctx, a) == CleanString(env, policy, ctx, b)
  {
    hide Name, Masked, StyleSheet, SameShape;
    MaskedIff(a, b);
  }

  lemma SameNode(env: Env, policy: Policy, es: seq<Entry>, fs: seq<Entry>, ctx: Context)
    requires SameHeader(es, fs)
    ensures ServerNode(env, policy, es, ctx) == ServerNode(env, policy, fs, ctx)
  {
    hide Name, IsBlocked, IsMasked, IsEditable, HasCollision, HasSource, Lookup, Attributes;
    assert TagOf(env, es) == TagOf(env, fs);
    var tag := TagOf(env, es);
    var name := if tag.Some? then tag.value else [];
    var m := Inspect(env, policy, es, ctx, name, tag.Some?);
    var n := Inspect(env, policy, fs, ctx, name, tag.Some?);
    assert m.executable == n.executable && m.forceMask == n.forceMask;
    assert m.cssText == n.cssText && m.cssRule == n.cssRule && m.styleDeclaration == n.styleDeclaration;
    assert m == n;
  }

  lemma SameShallow(env: Env, node: Node, e: Entry, f: Entry)
    requires e.key == f.key && (IsReplaced(env, node, e.key) || ((IsWhole(node, e) || IsWhole(node, f)) && e.value == f.value))
    ensures Shallow(env, node, e) == Shallow(env, node, f) && Shallow(env, node, e).Some?
  {
    hide Name, IsDropped, StyleSet, StyleRemove, CleanAttributes;
    KeysDiffer();
  }

  lemma NotShallow(env: Env, node: Node, e: Entry)
    requires !IsReplaced(env, node, e.key) && !IsWhole(node, e)
    ensures Shallow(env, node, e).None?
  {
    hide Name, IsDropped, StyleSet, StyleRemove, CleanAttributes;
  }

  lemma {:induction false} AlikeSame(env: Env, policy: Policy, ctx: Context, a: Value, b: Value, depth: nat, nodes: nat)
    requires Alike(Server, env, policy, ctx, a, b)
    ensures Sanitize(env, policy, a, ctx, depth, nodes) == Sanitize(env, policy, b, ctx, depth, nodes)
    decreases Size(a), 1
  {
    hide ServerNode, CleanString, SameHeader, AlikeText, SanitizeItems, SanitizeEntries, AlikeItems, AlikeEntries, ItemsSize, EntriesSize;
    if depth <= MAX_DEPTH {
      match (a, b)
      case (Str(s), Str(t)) =>
        SameText(env, policy, ctx, s, t);
        assert |s| > MAX_STRING <==> |t| > MAX_STRING by { SameLimit(env, policy, ctx, s, t); }
      case (Arr(xs), Arr(ys)) =>
        AlikeItemsSame(env, policy, ctx, xs, ys, depth + 1, nodes);
      case (Obj(es), Obj(fs)) =>
        SameNode(env, policy, es, fs, ctx);
        AlikeEntriesSame(env, policy, ServerNode(env, policy, es, ctx), es, fs, depth + 1, nodes + 1);
      case _ =>
    }
  }

  lemma SameLimit(env: Env, policy: Policy, ctx: Context, a: Text, b: Text)
    requires AlikeText(Server, env, policy, ctx, a, b)
    ensures |a| > MAX_STRING <==> |b| > MAX_STRING
  {
  }

  lemma {:induction false} AlikeItemsSame(env: Env, policy: Policy, ctx: Context, xs: seq<Value>, ys: seq<Value>, depth: nat, nodes: nat)
    requires AlikeItems(Server, env, policy, ctx, xs, ys)
    ensures |xs| == |ys|
    ensures SanitizeItems(env, policy, xs, ctx, depth, nodes) == SanitizeItems(env, policy, ys, ctx, depth, nodes)
    decreases ItemsSize(xs), 0
  {
    hide Sanitize, Alike, Size;
    if xs != [] {
      AlikeSame(env, policy, ctx, xs[0], ys[0], depth, nodes);
      var first := Sanitize(env, policy, xs[0], ctx, depth, nodes);
      if first.Walked? {
        AlikeItemsSame(env, policy, ctx, xs[1..], ys[1..], depth, first.nodes);
      }
    }
  }

  lemma AlikeEntrySame(env: Env, policy: Policy, node: Node, e: Entry, f: Entry, depth: nat, nodes: nat)
    requires AlikeEntry(Server, env, policy, node, e, f)
    ensures SanitizeEntry(env, policy, node, e, depth, nodes) == SanitizeEntry(env, policy, node, f, depth, nodes)
    decreases Size(e.value), 2
  {
    hide Shallow, Sanitize, Alike, IsReplaced, IsWhole, Size;
    if IsReplaced(env, node, e.key) || IsWhole(node, e) || IsWhole(node, f) {
      SameShallow(env, node, e, f);
    } else {
      NotShallow(env, node, e);
      NotShallow(env, node, f);
      AlikeSame(env, policy, Below(node, e.key), e.value, f.value, depth, nodes);
    }
  }

  lemma {:induction false} AlikeEntriesSame(env: Env, policy: Policy, node: Node, es: seq<Entry>, fs: seq<Entry>, depth: nat, nodes: nat)
    requires AlikeEntries(Server, env, policy, node, es, fs)
    ensures SanitizeEntries(env, policy, node, es, depth, nodes) == SanitizeEntries(env, policy, node, fs, depth, nodes)
    decreases EntriesSize(es), 0
  {
    hide SanitizeEntry, AlikeEntry, Size;
    if es != [] {
      AlikeEntrySame(env, policy, node, es[0], fs[0], depth, nodes);
      var first := SanitizeEntry(env, policy, node, es[0], depth, nodes);
      if first.Walked? {
        AlikeEntriesSame(env, policy, node, es[1..], fs[1..], depth, first.nodes);
      }
    }
  }

  /**
   * Non-interference: recordings that differ only in masked text are sanitized to the same output,
   * or fail in the same way, whatever was counted before. In masked mode that is all ordinary text;
   * in visible mode, the text of inputs, editable and masked nodes and everything below them.
   */
  lemma NonInterference(env: Env, policy: Policy, a: Value, b: Value, nodes: nat)
    requires Alike(Server, env, policy, Context(Name("data"), false, false, false), a, b)
    ensures Sanitize(env, policy, a, Context(Name("data"), false, false, false), 0, nodes)
         == Sanitize(env, policy, b, Context(Name("data"), false, false, false), 0, nodes)
  {
    hide Name, Sanitize, Alike;
    AlikeSame(env, policy, Context(Name("data"), false, false, false), a, b, 0, nodes);
  }

  // ----- the browser pass -----

  lemma SameClonedText(env: Env, policy: Policy, ctx: Context, a: Text, b: Text)
    requires AlikeText(Browser, env, policy, ctx, a, b)
    ensures CloneString(env, policy, ctx, a) == CloneString(env, policy, ctx, b)
  {
    hide Name, Masked, StyleSheet, SameShape;
    MaskedIff(a, b);
  }

  lemma SameClientNode(env: Env, policy: Policy, es: seq<Entry>, fs: seq<Entry>, ctx: Context)
    requires SameHeader(es, fs)
    ensures ClientNode(env, policy, es, ctx) == ClientNode(env, policy, fs, ctx)
  {
    hide Name, IsBlocked, IsMasked, IsEditable, HasCollision, HasSource, Lookup, Attributes;
    assert TagOf(env, es) == TagOf(env, fs);
    var tag := TagOf(env, es);
    var name := if tag.Some? then tag.value else [];
    var m := Inspect(env, policy, es, ctx, name, name != []);
    var n := Inspect(env, policy, fs, ctx, name, name != []);
    assert m.executable == n.executable && m.forceMask == n.forceMask;
    assert m.cssText == n.cssText && m.cssRule == n.cssRule && m.styleDeclaration == n.styleDeclaration;
    assert m == n;
  }

  lemma SameClientShallow(env: Env, policy: Policy, node: Node, ctx: Context, e: Entry, f: Entry)
    requires e.key == f.key && (IsReplaced(env, node, e.key) || ((IsWhole(node, e) || IsWhole(node, f)) && e.value == f.value))
    ensures ClientShallow(env, policy, node, ctx, e) == ClientShallow(env, policy, node, ctx, f)
    ensures ClientShallow(env, policy, node, ctx, e).Some?
  {
    hide Name, IsDropped, StyleSet, StyleRemove, CloneAttributes;
    KeysDiffer();
  }

  lemma NotClientShallow(env: Env, policy: Policy, node: Node, ctx: Context, e: Entry)
    requires !IsReplaced(env, node, e.key) && !IsWhole(node, e)
    ensures ClientShallow(env, policy, node, ctx, e).None?
  {
    hide Name, IsDropped, StyleSet, StyleRemove, CloneAttributes;
  }

  lemma {:induction false} AlikeCloned(env: Env, policy: Policy, ctx: Context, a: Value, b: Value)
    requires Alike(Browser, env, policy, ctx, a, b)
    ensures Clone(env, policy, a, ctx) == Clone(env, policy, b, ctx)
    decreases Size(a), 1
  {
    hide ClientNode, CloneString, SameHeader, AlikeText, CloneItems, CloneEntries, AlikeItems, AlikeEntries, ItemsSize, EntriesSize;
    match (a, b)
    case (Str(s), Str(t)) => SameClonedText(env, policy, ctx, s, t);
    case (Arr(xs), Arr(ys)) => AlikeItemsCloned(env, policy, ctx, xs, ys);
    case (Obj(es), Obj(fs)) =>
      SameClientNode(env, policy, es, fs, ctx);
      AlikeEntriesCloned(env, policy, ClientNode(env, policy, es, ctx), ctx, es, fs);
    case _ =>
  }

  lemma {:induction false} AlikeItemsCloned(env: Env, policy: Policy, ctx: Context, xs: seq<Value>, ys: seq<Value>)
    requires AlikeItems(Browser, env, policy, ctx, xs, ys)
    ensures CloneItems(env, policy, xs, ctx) == CloneItems(env, policy, ys, ctx)
    decreases ItemsSize(xs), 0
  {
    hide Clone, Alike, Size;
    if xs != [] {
      AlikeCloned(env, policy, ctx, xs[0], ys[0]);
      AlikeItemsCloned(env, policy, ctx, xs[1..], ys[1..]);
    }
  }

  lemma AlikeEntryCloned(env: Env, policy: Policy, node: Node, ctx: Context, e: Entry, f: Entry)
    requires AlikeEntry(Browser, env, policy, node, e, f)
    ensures CloneEntry(env, policy, node, ctx, e) == CloneEntry(env, policy, node, ctx, f)
    decreases Size(e.value), 2
  {
    hide ClientShallow, Clone, Alike, IsReplaced, IsWhole, Size;
    if IsReplaced(env, node, e.key) || IsWhole(node, e) || IsWhole(node, f) {
      SameClientShallow(env, policy, node, ctx, e, f);
    } else {
      NotClientShallow(env, policy, node, ctx, e);
      NotClientShallow(env, policy, node, ctx, f);
      AlikeCloned(env, policy, Below(node, e.key), e.value, f.value);
    }
  }

  lemma {:induction false} AlikeEntriesCloned(env: Env, policy: Policy, node: Node, ctx: Context, es: seq<Entry>, fs: seq<Entry>)
    requires AlikeEntries(Browser, env, policy, node, es, fs)
    ensures CloneEntries(env, policy, node, ctx, es) == CloneEntries(env, policy, node, ctx, fs)
    decreases EntriesSize(es), 0
  {
    hide CloneEntry, AlikeEntry, Size;
    if es != [] {
      AlikeEntryCloned(env, policy, node, ctx, es[0], fs[0]);
      AlikeEntriesCloned(env, policy, node, ctx, es[1..], fs[1..]);
    }
  }

  /**
   * Non-interference of the browser pass, and so of the two passes together: recordings that differ only in
   * text that the browser masks leave the browser alike, and the server writes the same or fails alike.
   */
  lemma TwoPassNonInterference(client: Env, server: Env, cp: Policy, sp: Policy, cctx: Context, sctx: Context,
                               a: Value, b: Value, depth: nat, nodes: nat)
    requires Alike(Browser, client, cp, cctx, a, b)
    ensures Clone(client, cp, a, cctx) == Clone(client, cp, b, cctx)
    ensures Sanitize(server, sp, Clone(client, cp, a, cctx), sctx, depth, nodes)
         == Sanitize(server, sp, Clone(client, cp, b, cctx), sctx, depth, nodes)
  {
    hide Sanitize, Alike, Clone;
    AlikeCloned(client, cp, cctx, a, b);
  }
}
