/** The server pass of src/replay/sanitize.ts over recorded values. */
module ReplaySanitizer {
  import opened Wrappers
  import opened JsonText
  import opened StructuralTokens
  import opened CssSanitizer
  import opened ReplayValues

  const MAX_DEPTH := 40
  const MAX_NODES := 50_000
  const MAX_ITEMS := 50_000
  const MAX_STRING := 100_000
  const MAX_ATTRIBUTE := 2_000

  datatype Error = TooDeep | TooManyNodes | ArrayTooLarge | StringTooLarge

  /** What a walk returns, with the nodes counted so far. */
  datatype Walk<T> = Walked(value: T, nodes: nat) | Failed(error: Error)

  // ----- attributes -----

  function Cut(t: Text): Text {
    if |t| > MAX_ATTRIBUTE then t[..MAX_ATTRIBUTE] else t
  }

  /** `startsWith('aria-')`. */
  predicate IsAria(name: Text) { Name("aria-") <= name }

  /** The value an allowed attribute gets; None when it is dropped. */
  function AttributeText(env: Env, forceMask: bool, name: Text, raw: Value): Option<Text> {
    var value := env.stripUrls(Cut(env.text(raw)));
    if name == Name("class") || name == Name("id") then Some(Tokens(value))
    else if name == Name("style") then Some(DeclarationText(env, value))
    else if name == Name("_csstext") then Some(StyleSheet(env, value))
    else if env.booleanAttribute(name) then
      if raw != Bool(true) && value != [] && env.lower(value) != name then None else Some([])
    else if env.numericAttribute(name) then env.boundedInteger(value)
    else if name == Name("contenteditable") then
      Some(if env.lower(value) == Name("false") then Name("false") else Name("true"))
    else if name == Name("aria-hidden") then
      Some(if env.lower(value) == Name("true") || env.lower(value) == Name("false") then env.lower(value) else MASK)
    else if name == Name("role") && !env.safeRole(value) then Some(MASK)
    else if name == Name("type") && !env.safeInputType(value) then Some(MASK)
    else if forceMask || name == Name("name") || name == Name("title") || name == Name("alt")
            || name == Name("placeholder") || IsAria(name) then Some(MASK)
    else if env.secretLike(value) then Some(MASK)
    else Some(value)
  }

  function OutputName(name: Text): Text {
    if name == Name("_csstext") then Name("_cssText") else name
  }

  function CleanAttribute(env: Env, forceMask: bool, e: Entry): seq<Entry> {
    var name := env.lower(e.key);
    if env.handlerKey(name) || env.networkAttribute(name) || !env.safeAttribute(name) then []
    else if !(e.value.Str? || e.value.Bool? || e.value.Num?) then []
    else match AttributeText(env, forceMask, name, e.value)
      case None => []
      case Some(t) => [Entry(OutputName(name), Str(t))]
  }

  function CleanAttributes(env: Env, forceMask: bool, attributes: seq<Entry>): seq<Entry> {
    if attributes == [] then []
    else CleanAttributes(env, forceMask, attributes[..|attributes| - 1])
         + CleanAttribute(env, forceMask, attributes[|attributes| - 1])
  }

  method SanitizeAttributes(env: Env, forceMask: bool, attributes: seq<Entry>) returns (output: seq<Entry>)
    ensures output == CleanAttributes(env, forceMask, attributes)
  {
    hide CleanAttribute;
    output := [];
    for i := 0 to |attributes|
      invariant output == CleanAttributes(env, forceMask, attributes[..i])
    {
      assert attributes[..i + 1][..i] == attributes[..i];
      output := output + CleanAttribute(env, forceMask, attributes[i]);
    }
    assert attributes[..|attributes|] == attributes;
  }

  // ----- strings -----

  function CleanString(env: Env, policy: Policy, ctx: Context, s: Text): Text {
    if IsCss(ctx) then StyleSheet(env, s)
    else if ctx.key == Name("href") then Placeholder(policy)
    else if env.locationKey(ctx.key) then MASK
    else if ctx.key == Name("tagName") then (if env.structuralTag(env.lower(s)) then env.lower(s) else Name("div"))
    else if IsText(ctx.key) && (ctx.forceMask || policy.masked) then Masked(s)
    else if policy.masked then Masked(s)
    else if env.lists.urlLike(s) then MASK
    else if env.relativeLocation(s) then MASK
    else var redacted := env.lists.redact(s); if |redacted| > MAX_STRING then redacted[..MAX_STRING] else redacted
  }

  // ----- values -----

  function ServerNode(env: Env, policy: Policy, es: seq<Entry>, ctx: Context): Node {
    var tag := TagOf(env, es);
    Inspect(env, policy, es, ctx, if tag.Some? then tag.value else [], tag.Some?)
  }

  function ServerTag(env: Env, node: Node): Text {
    if !node.executable && node.tag.Some? && env.structuralTag(node.tag.value) then node.tag.value else Name("div")
  }

  /** An entry that is decided without walking into it; None when the walk goes on below. */
  function Shallow(env: Env, node: Node, e: Entry): Option<seq<Entry>> {
    if IsDropped(env, e.key) then Some([])
    else if e.key == Name("tagName") then Some([Entry(e.key, Str(ServerTag(env, node)))])
    else if e.key == Name("attributes") && e.value.Obj? then
      Some([Entry(e.key, if node.executable then Marked() else Obj(CleanAttributes(env, node.forceMask, e.value.entries)))])
    else if node.styleDeclaration && e.key == Name("set") && e.value.Obj? then
      Some(match StyleSet(env, e.value.entries) { case Some(v) => [Entry(e.key, v)] case None => [] })
    else if node.styleDeclaration && e.key == Name("remove") && e.value.Obj? then
      Some(match StyleRemove(env, e.value.entries) { case Some(v) => [Entry(e.key, v)] case None => [] })
    else if node.executable && e.key == Name("childNodes") then Some([Entry(e.key, Arr([]))])
    else if node.executable && e.key == Name("textContent") then Some([Entry(e.key, Str([]))])
    else None
  }

  function Below(node: Node, key: Text): Context {
    Context(key, node.forceMask, node.cssText, node.cssRule)
  }

  /** `sanitizeValue`, from `nodes` counted nodes on. */
  function Sanitize(env: Env, policy: Policy, v: Value, ctx: Context, depth: nat, nodes: nat): Walk<Value>
    decreases Size(v), 1
  {
    hide ServerNode, CleanString, ItemsSize, EntriesSize;
    if depth > MAX_DEPTH then Failed(TooDeep)
    else match v
      case Null => Walked(v, nodes)
      case Bool(_) => Walked(v, nodes)
      case Num(_) => Walked(v, nodes)
      case Str(s) => if |s| > MAX_STRING then Failed(StringTooLarge) else Walked(Str(CleanString(env, policy, ctx, s)), nodes)
      case Arr(items) =>
        if |items| > MAX_ITEMS then Failed(ArrayTooLarge)
        else (match SanitizeItems(env, policy, items, ctx, depth + 1, nodes)
          case Failed(error) => Failed(error)
          case Walked(out, n) => Walked(Arr(out), n))
      case Obj(es) =>
        if nodes + 1 > MAX_NODES then Failed(TooManyNodes)
        else match SanitizeEntries(env, policy, ServerNode(env, policy, es, ctx), es, depth + 1, nodes + 1)
          case Failed(error) => Failed(error)
          case Walked(out, n) => Walked(Obj(out), n)
  }

  function Prepend<T>(first: seq<T>, rest: Walk<seq<T>>): Walk<seq<T>> {
    match rest
    case Failed(error) => Failed(error)
    case Walked(out, n) => Walked(first + out, n)
  }

  function SanitizeItems(env: Env, policy: Policy, items: seq<Value>, ctx: Context, depth: nat, nodes: nat): Walk<seq<Value>>
    decreases ItemsSize(items), 0
  {
    if items == [] then Walked([], nodes)
    else match Sanitize(env, policy, items[0], ctx, depth, nodes)
      case Failed(error) => Failed(error)
      case Walked(v, n) => Prepend([v], SanitizeItems(env, policy, items[1..], ctx, depth, n))
  }

  function SanitizeEntry(env: Env, policy: Policy, node: Node, e: Entry, depth: nat, nodes: nat): Walk<seq<Entry>>
    decreases Size(e.value), 2
  {
    match Shallow(env, node, e)
    case Some(kept) => Walked(kept, nodes)
    case None =>
      match Sanitize(env, policy, e.value, Below(node, e.key), depth, nodes)
      case Failed(error) => Failed(error)
      case Walked(v, n) => Walked([Entry(e.key, v)], n)
  }

  function SanitizeEntries(env: Env, policy: Policy, node: Node, es: seq<Entry>, depth: nat, nodes: nat): Walk<seq<Entry>>
    decreases EntriesSize(es), 0
  {
    if es == [] then Walked([], nodes)
    else match SanitizeEntry(env, policy, node, es[0], depth, nodes)
      case Failed(error) => Failed(error)
      case Walked(kept, n) => Prepend(kept, SanitizeEntries(env, policy, node, es[1..], depth, n))
  }

  // ----- the walk itself -----

  /** The node counter that one chunk shares over all its events. */
  class Counter {
    var nodes: nat

    constructor ()
      ensures nodes == 0
    {
      nodes := 0;
    }
  }

  lemma PrependTwice<T>(a: seq<T>, b: seq<T>, rest: Walk<seq<T>>)
    ensures Prepend(a, Prepend(b, rest)) == Prepend(a + b, rest)
  {
    if rest.Walked? { assert a + (b + rest.value) == (a + b) + rest.value; }
  }

  lemma PrependNothing<T>(rest: Walk<seq<T>>)
    ensures Prepend([], rest) == rest
  {
    if rest.Walked? { assert [] + rest.value == rest.value; }
  }

  lemma ItemsSmaller(items: seq<Value>, i: nat)
    requires i < |items|
    ensures Size(items[i]) < ItemsSize(items)
    decreases i
  {
    if i > 0 { ItemsSmaller(items[1..], i - 1); }
  }

  lemma EntriesSmaller(es: seq<Entry>, i: nat)
    requires i < |es|
    ensures Size(es[i].value) < EntriesSize(es)
    decreases i
  {
    if i > 0 { EntriesSmaller(es[1..], i - 1); }
  }

  method SanitizeValue(env: Env, policy: Policy, v: Value, ctx: Context, depth: nat, counter: Counter)
    returns (result: Walk<Value>)
    modifies counter
    ensures result == Sanitize(env, policy, v, ctx, depth, old(counter.nodes))
    ensures result.Walked? ==> counter.nodes == result.nodes
    decreases Size(v), 1
  {
    hide ServerNode, Shallow, CleanString;
    if depth > MAX_DEPTH { return Failed(TooDeep); }
    match v
    case Null => return Walked(v, counter.nodes);
    case Bool(_) => return Walked(v, counter.nodes);
    case Num(_) => return Walked(v, counter.nodes);
    case Str(s) =>
      if |s| > MAX_STRING { return Failed(StringTooLarge); }
      return Walked(Str(CleanString(env, policy, ctx, s)), counter.nodes);
    case Arr(items) =>
      if |items| > MAX_ITEMS { return Failed(ArrayTooLarge); }
      var out := WalkItems(env, policy, items, ctx, depth + 1, counter);
      if out.Failed? { return Failed(out.error); }
      return Walked(Arr(out.value), counter.nodes);
    case Obj(es) =>
      counter.nodes := counter.nodes + 1;
      if counter.nodes > MAX_NODES { return Failed(TooManyNodes); }
      var out := WalkEntries(env, policy, ServerNode(env, policy, es, ctx), es, depth + 1, counter);
      if out.Failed? { return Failed(out.error); }
      return Walked(Obj(out.value), counter.nodes);
  }

  method WalkItems(env: Env, policy: Policy, items: seq<Value>, ctx: Context, depth: nat, counter: Counter)
    returns (result: Walk<seq<Value>>)
    modifies counter
    ensures result == SanitizeItems(env, policy, items, ctx, depth, old(counter.nodes))
    ensures result.Walked? ==> counter.nodes == result.nodes
    decreases ItemsSize(items), 0
  {
    hide Sanitize;
    assert items[0..] == items;
    PrependNothing(SanitizeItems(env, policy, items, ctx, depth, counter.nodes));
    var output := [];
    for i := 0 to |items|
      invariant SanitizeItems(env, policy, items, ctx, depth, old(counter.nodes))
             == Prepend(output, SanitizeItems(env, policy, items[i..], ctx, depth, counter.nodes))
    {
      ItemsSmaller(items, i);
      assert items[i..][1..] == items[i + 1..] && items[i..][0] == items[i];
      var item := SanitizeValue(env, policy, items[i], ctx, depth, counter);
      if item.Failed? { return Failed(item.error); }
      PrependTwice(output, [item.value], SanitizeItems(env, policy, items[i + 1..], ctx, depth, counter.nodes));
      output := output + [item.value];
    }
    assert items[|items|..] == [] && output + [] == output;
    result := Walked(output, counter.nodes);
  }

  method WalkEntries(env: Env, policy: Policy, node: Node, es: seq<Entry>, depth: nat, counter: Counter)
    returns (result: Walk<seq<Entry>>)
    modifies counter
    ensures result == SanitizeEntries(env, policy, node, es, depth, old(counter.nodes))
    ensures result.Walked? ==> counter.nodes == result.nodes
    decreases EntriesSize(es), 0
  {
    hide Sanitize, Shallow;
    assert es[0..] == es;
    PrependNothing(SanitizeEntries(env, policy, node, es, depth, counter.nodes));
    var output := [];
    for i := 0 to |es|
      invariant SanitizeEntries(env, policy, node, es, depth, old(counter.nodes))
             == Prepend(output, SanitizeEntries(env, policy, node, es[i..], depth, counter.nodes))
    {
      EntriesSmaller(es, i);
      assert es[i..][1..] == es[i + 1..] && es[i..][0] == es[i];
      var kept: seq<Entry>;
      var shallow := Shallow(env, node, es[i]);
      if shallow.Some? {
        kept := shallow.value;
      } else {
        var child := SanitizeValue(env, policy, es[i].value, Below(node, es[i].key), depth, counter);
        if child.Failed? { return Failed(child.error); }
        kept := [Entry(es[i].key, child.value)];
      }
      PrependTwice(output, kept, SanitizeEntries(env, policy, node, es[i + 1..], depth, counter.nodes));
      output := output + kept;
    }
    assert es[|es|..] == [] && output + [] == output;
    result := Walked(output, counter.nodes);
  }
}
