/** The browser pass of sdk/src/replayPrivacy.ts over recorded values. */
module ReplayPrivacy {
  import opened Wrappers
  import opened JsonText
  import opened StructuralTokens
  import opened CssSanitizer
  import opened ReplayValues
  import opened ReplaySanitizer

  // ----- strings -----

  function CloneString(env: Env, policy: Policy, ctx: Context, s: Text): Text {
    if IsCss(ctx) then StyleSheet(env, s)
    else if ctx.key == Name("href") then Placeholder(policy)
    else if env.locationKey(ctx.key) then MASK
    else if IsText(ctx.key) && (ctx.forceMask || policy.masked) then Masked(s)
    else if policy.masked then Masked(s)
    else if env.lists.urlLike(s) then MASK
    else if env.relativeLocation(s) then MASK
    else env.lists.redact(s)
  }

  // ----- attributes -----

  predicate IsData(name: Text) { Name("data-") <= name }

  predicate IsSkipped(env: Env, key: Text) {
    var lower := env.lower(key);
    || env.handlerKey(key) || env.networkAttribute(key) || lower == Name("value")
    || (IsData(lower) && lower != MARKER) || !env.safeAttribute(lower)
  }

  predicate IsLabel(name: Text) {
    || name == Name("name") || name == Name("title") || name == Name("alt") || name == Name("placeholder")
    || (IsAria(name) && name != Name("aria-hidden"))
  }

  /** The attributes with a rule of their own; None for one that is dropped. */
  function OwnText(env: Env, name: Text, raw: Value): Option<Text> {
    var value := Cut(env.text(raw));
    if name == Name("class") || name == Name("id") then Some(Tokens(value))
    else if IsLabel(name) then Some(MASK)
    else if name == Name("style") then Some(DeclarationText(env, value))
    else if name == Name("_csstext") then Some(StyleSheet(env, value))
    else if env.booleanAttribute(name) then
      if raw == Bool(true) || value == [] || env.lower(value) == name then Some([]) else None
    else if env.numericAttribute(name) then env.boundedInteger(value)
    else if name == Name("contenteditable") then
      Some(if env.lower(value) == Name("false") then Name("false") else Name("true"))
    else if name == Name("aria-hidden") then
      Some(if env.lower(value) == Name("true") || env.lower(value) == Name("false") then env.lower(value) else MASK)
    else if name == Name("role") then Some(if env.safeRole(value) then env.lower(value) else MASK)
    else Some(if env.safeInputType(value) then env.lower(value) else MASK)
  }

  predicate HasOwnRule(env: Env, name: Text) {
    || name == Name("class") || name == Name("id") || IsLabel(name) || name == Name("style") || name == Name("_csstext")
    || env.booleanAttribute(name) || env.numericAttribute(name) || name == Name("contenteditable")
    || name == Name("aria-hidden") || name == Name("role") || name == Name("type")
  }

  function CloneAttribute(env: Env, policy: Policy, ctx: Context, e: Entry): seq<Entry>
    decreases Size(e.value), 2
  {
    var name := env.lower(e.key);
    if IsSkipped(env, e.key) then []
    else if HasOwnRule(env, name) then
      match OwnText(env, name, e.value) { case None => [] case Some(t) => [Entry(OutputName(name), Str(t))] }
    else [Entry(OutputName(name), Clone(env, policy, e.value, ctx.(key := name)))]
  }

  function CloneAttributes(env: Env, policy: Policy, ctx: Context, es: seq<Entry>): seq<Entry>
    decreases EntriesSize(es), 0
  {
    if es == [] then [] else CloneAttribute(env, policy, ctx, es[0]) + CloneAttributes(env, policy, ctx, es[1..])
  }

  // ----- values -----

  /** The tests for elements apply to every tag that is not the empty string. */
  function ClientNode(env: Env, policy: Policy, es: seq<Entry>, ctx: Context): Node {
    var tag := TagOf(env, es);
    var name := if tag.Some? then tag.value else [];
    Inspect(env, policy, es, ctx, name, name != [])
  }

  function ClientTag(node: Node): Text {
    if node.executable then Name("div") else if node.tag.Some? then node.tag.value else []
  }

  /** An entry that is decided without walking into it; None when the copy goes on below. */
  function ClientShallow(env: Env, policy: Policy, node: Node, ctx: Context, e: Entry): Option<seq<Entry>>
    decreases Size(e.value), 2
  {
    hide Name, IsDropped, StyleSet, StyleRemove;
    if IsDropped(env, e.key) then Some([])
    else if e.key == Name("tagName") then Some([Entry(e.key, Str(ClientTag(node)))])
    else if e.key == Name("attributes") && e.value.Obj? then
      Some([Entry(e.key, if node.executable then Marked()
                         else Obj(CloneAttributes(env, policy, ctx.(forceMask := node.forceMask), e.value.entries)))])
    else if node.styleDeclaration && e.key == Name("set") && e.value.Obj? then
      Some(match StyleSet(env, e.value.entries) { case Some(v) => [Entry(e.key, v)] case None => [] })
    else if node.styleDeclaration && e.key == Name("remove") && e.value.Obj? then
      Some(match StyleRemove(env, e.value.entries) { case Some(v) => [Entry(e.key, v)] case None => [] })
    else if node.executable && e.key == Name("childNodes") then Some([Entry(e.key, Arr([]))])
    else if node.executable && e.key == Name("textContent") then Some([Entry(e.key, Str([]))])
    else None
  }

  function CloneEntry(env: Env, policy: Policy, node: Node, ctx: Context, e: Entry): seq<Entry>
    decreases Size(e.value), 3
  {
    match ClientShallow(env, policy, node, ctx, e)
    case Some(kept) => kept
    case None => [Entry(e.key, Clone(env, policy, e.value, Below(node, e.key)))]
  }

  function CloneEntries(env: Env, policy: Policy, node: Node, ctx: Context, es: seq<Entry>): seq<Entry>
    decreases EntriesSize(es), 0
  {
    if es == [] then [] else CloneEntry(env, policy, node, ctx, es[0]) + CloneEntries(env, policy, node, ctx, es[1..])
  }

  function CloneItems(env: Env, policy: Policy, items: seq<Value>, ctx: Context): seq<Value>
    decreases ItemsSize(items), 0
  {
    if items == [] then [] else [Clone(env, policy, items[0], ctx)] + CloneItems(env, policy, items[1..], ctx)
  }

  /** `clone`. */
  function Clone(env: Env, policy: Policy, v: Value, ctx: Context): Value
    decreases Size(v), 1
  {
    hide CloneString, ClientNode, ItemsSize, EntriesSize;
    match v
    case Str(s) => Str(CloneString(env, policy, ctx, s))
    case Arr(items) => Arr(CloneItems(env, policy, items, ctx))
    case Obj(es) => Obj(CloneEntries(env, policy, ClientNode(env, policy, es, ctx), ctx, es))
    case _ => v
  }

  // ----- the loops of `clone` -----

  lemma {:induction false} EntriesAppend(env: Env, policy: Policy, node: Node, ctx: Context, es: seq<Entry>, e: Entry)
    ensures CloneEntries(env, policy, node, ctx, es + [e])
         == CloneEntries(env, policy, node, ctx, es) + CloneEntry(env, policy, node, ctx, e)
  {
    hide CloneEntry;
    if es == [] {
      assert [] + [e] == [e] && [e][1..] == [];
      assert CloneEntries(env, policy, node, ctx, []) == [];
    } else {
      EntriesAppend(env, policy, node, ctx, es[1..], e);
      assert (es + [e])[1..] == es[1..] + [e];
    }
  }

  lemma {:induction false} ItemsAppend(env: Env, policy: Policy, items: seq<Value>, ctx: Context, v: Value)
    ensures CloneItems(env, policy, items + [v], ctx) == CloneItems(env, policy, items, ctx) + [Clone(env, policy, v, ctx)]
  {
    hide Clone;
    if items == [] {
      assert [] + [v] == [v] && [v][1..] == [];
    } else {
      ItemsAppend(env, policy, items[1..], ctx, v);
      assert (items + [v])[1..] == items[1..] + [v];
    }
  }

  method CloneValue(env: Env, policy: Policy, v: Value, ctx: Context) returns (copy: Value)
    ensures copy == Clone(env, policy, v, ctx)
    decreases Size(v), 1
  {
    hide CloneString, ClientNode, ClientShallow;
    match v
    case Str(s) => return Str(CloneString(env, policy, ctx, s));
    case Arr(items) =>
      var output := [];
      for i := 0 to |items|
        invariant output == CloneItems(env, policy, items[..i], ctx)
      {
        ItemsSmaller(items, i);
        ItemsAppend(env, policy, items[..i], ctx, items[i]);
        assert items[..i + 1] == items[..i] + [items[i]];
        var item := CloneValue(env, policy, items[i], ctx);
        output := output + [item];
      }
      assert items[..|items|] == items;
      return Arr(output);
    case Obj(es) =>
      var node := ClientNode(env, policy, es, ctx);
      var output := [];
      for i := 0 to |es|
        invariant output == CloneEntries(env, policy, node, ctx, es[..i])
      {
        EntriesSmaller(es, i);
        EntriesAppend(env, policy, node, ctx, es[..i], es[i]);
        assert es[..i + 1] == es[..i] + [es[i]];
        var kept: seq<Entry>;
        var shallow := ClientShallow(env, policy, node, ctx, es[i]);
        if shallow.Some? {
          kept := shallow.value;
        } else {
          var child := CloneValue(env, policy, es[i].value, Below(node, es[i].key));
          kept := [Entry(es[i].key, child)];
        }
        output := output + kept;
      }
      assert es[..|es|] == es;
      return Obj(output);
    case _ => return v;
  }
}
