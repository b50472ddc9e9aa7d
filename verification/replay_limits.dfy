/** Exactly which recorded values the server pass refuses, and which keys either pass writes. */
module ReplayLimits {
  import opened Wrappers
  import opened JsonText
  import opened ReplayValues
  import opened ReplaySanitizer
  import opened ReplayPrivacy
  import opened ReplayTwoPass
  import opened ReplayBlocking
  import opened ReplayText

  // ----- the part of a value that the server walks -----

  /** Keys of JavaScript objects are distinct, everywhere in a value. */
  ghost predicate HasKeys(v: Value)
    decreases Size(v), 1
  {
    match v
    case Arr(items) => ItemsHaveKeys(items)
    case Obj(es) => HasDistinctKeys(es) && EntriesHaveKeys(es)
    case _ => true
  }

  ghost predicate ItemsHaveKeys(items: seq<Value>)
    decreases ItemsSize(items), 0
  {
    items == [] || (HasKeys(items[0]) && ItemsHaveKeys(items[1..]))
  }

  ghost predicate EntriesHaveKeys(es: seq<Entry>)
    decreases EntriesSize(es), 0
  {
    es == [] || (HasKeys(es[0].value) && EntriesHaveKeys(es[1..]))
  }

  /** How many objects the server walks through. */
  ghost function Objects(env: Env, policy: Policy, v: Value): nat
    decreases Size(v), 1
  {
    match v
    case Arr(items) => ItemObjects(env, policy, items)
    case Obj(es) => 1 + EntryObjects(env, policy, es, es)
    case _ => 0
  }

  ghost function ItemObjects(env: Env, policy: Policy, items: seq<Value>): nat
    decreases ItemsSize(items), 0
  {
    if items == [] then 0 else Objects(env, policy, items[0]) + ItemObjects(env, policy, items[1..])
  }

  /** `rest` is the end of the entries `es` of one object. */
  ghost function EntryObjects(env: Env, policy: Policy, es: seq<Entry>, rest: seq<Entry>): nat
    decreases EntriesSize(rest), 0
  {
    if rest == [] then 0
    else (if Enters(env, policy, es, rest[0].key, rest[0].value, false) then Objects(env, policy, rest[0].value) else 0)
         + EntryObjects(env, policy, es, rest[1..])
  }

  /** Not too deep, no list too long, no string too long, wherever the server walks. */
  ghost predicate Fits(env: Env, policy: Policy, v: Value, depth: nat)
    decreases Size(v), 1
  {
    && depth <= 40
    && match v
       case Str(s) => |s| <= 100_000
       case Arr(items) => |items| <= 50_000 && ItemsFit(env, policy, items, depth + 1)
       case Obj(es) => EntriesFit(env, policy, es, es, depth + 1)
       case _ => true
  }

  ghost predicate ItemsFit(env: Env, policy: Policy, items: seq<Value>, depth: nat)
    decreases ItemsSize(items), 0
  {
    items == [] || (Fits(env, policy, items[0], depth) && ItemsFit(env, policy, items[1..], depth))
  }

  ghost predicate EntriesFit(env: Env, policy: Policy, es: seq<Entry>, rest: seq<Entry>, depth: nat)
    decreases EntriesSize(rest), 0
  {
    rest == []
    || ((Enters(env, policy, es, rest[0].key, rest[0].value, false) ==> Fits(env, policy, rest[0].value, depth))
        && EntriesFit(env, policy, es, rest[1..], depth))
  }

  // ----- when the server refuses a value -----

  ghost predicate Counts<T>(walk: Walk<T>, nodes: nat, objects: nat, fits: bool) {
    && (walk.Walked? <==> fits && nodes + objects <= 50_000)
    && (walk.Walked? ==> walk.nodes == nodes + objects)
  }

  lemma LeafCounts(env: Env, policy: Policy, v: Value, ctx: Context, depth: nat, nodes: nat)
    requires !v.Arr? && !v.Obj? && nodes <= 50_000
    ensures Counts(Sanitize(env, policy, v, ctx, depth, nodes), nodes, Objects(env, policy, v), Fits(env, policy, v, depth))
  {
    hide CleanString;
  }

  lemma ListCounts(env: Env, policy: Policy, items: seq<Value>, ctx: Context, depth: nat, nodes: nat)
    requires depth <= 40 && |items| <= 50_000 ==>
               Counts(SanitizeItems(env, policy, items, ctx, depth + 1, nodes), nodes, ItemObjects(env, policy, items),
                      ItemsFit(env, policy, items, depth + 1))
    ensures Counts(Sanitize(env, policy, Arr(items), ctx, depth, nodes), nodes, Objects(env, policy, Arr(items)),
                   Fits(env, policy, Arr(items), depth))
  {
    hide SanitizeItems, ItemObjects, ItemsFit;
  }

  lemma ObjectCounts(env: Env, policy: Policy, es: seq<Entry>, ctx: Context, depth: nat, nodes: nat)
    requires depth <= 40 && nodes + 1 <= 50_000 ==>
               Counts(SanitizeEntries(env, policy, ServerNode(env, policy, es, ctx), es, depth + 1, nodes + 1), nodes + 1,
                      EntryObjects(env, policy, es, es), EntriesFit(env, policy, es, es, depth + 1))
    ensures Counts(Sanitize(env, policy, Obj(es), ctx, depth, nodes), nodes, Objects(env, policy, Obj(es)),
                   Fits(env, policy, Obj(es), depth))
  {
    hide SanitizeEntries, EntryObjects, EntriesFit, ServerNode;
  }

  /**
   * The server refuses a value exactly if it is nested more than 40 deep, holds more than 50,000 objects, a list of
   * more than 50,000 items or a string of more than 100,000 units, in the part that it walks.
   */
  lemma {:induction false} RefusesIff(env: Env, policy: Policy, v: Value, ctx: Context, depth: nat, nodes: nat)
    requires HasKeys(v) && nodes <= 50_000
    ensures Counts(Sanitize(env, policy, v, ctx, depth, nodes), nodes, Objects(env, policy, v), Fits(env, policy, v, depth))
    decreases Size(v), 1
  {
    hide ServerNode, HasDistinctKeys, Sanitize, SanitizeItems, SanitizeEntries, Objects, Fits, Counts, ItemsFit, EntriesFit, ItemObjects,
         EntryObjects, Decides, Attributes;
    match v
    case Arr(items) =>
      if depth <= 40 && |items| <= 50_000 { ItemsRefusedIff(env, policy, items, ctx, depth + 1, nodes); }
      ListCounts(env, policy, items, ctx, depth, nodes);
    case Obj(es) =>
      if depth <= 40 && nodes + 1 <= 50_000 {
        OwnsAttributes(es);
        ServerDecides(env, policy, es, Attributes(es), ctx);
        EntriesRefusedIff(env, policy, ServerNode(env, policy, es, ctx), ctx, es, es, depth + 1, nodes + 1);
      }
      ObjectCounts(env, policy, es, ctx, depth, nodes);
    case _ => LeafCounts(env, policy, v, ctx, depth, nodes);
  }

  lemma {:induction false} ItemsRefusedIff(env: Env, policy: Policy, items: seq<Value>, ctx: Context, depth: nat, nodes: nat)
    requires ItemsHaveKeys(items) && nodes <= 50_000
    ensures Counts(SanitizeItems(env, policy, items, ctx, depth, nodes), nodes, ItemObjects(env, policy, items), ItemsFit(env, policy, items, depth))
    decreases ItemsSize(items), 0
  {
    hide Sanitize, Objects, Fits, HasKeys;
    if items != [] {
      RefusesIff(env, policy, items[0], ctx, depth, nodes);
      var first := Sanitize(env, policy, items[0], ctx, depth, nodes);
      if first.Walked? { ItemsRefusedIff(env, policy, items[1..], ctx, depth, first.nodes); }
    }
  }

  lemma {:induction false} EntriesRefusedIff(env: Env, policy: Policy, node: Node, ctx: Context, es: seq<Entry>, rest: seq<Entry>, depth: nat, nodes: nat)
    requires Decides(env, policy, es, Attributes(es), ctx, node, false) && EntriesHaveKeys(rest) && nodes <= 50_000
    ensures Counts(SanitizeEntries(env, policy, node, rest, depth, nodes), nodes, EntryObjects(env, policy, es, rest),
                   EntriesFit(env, policy, es, rest, depth))
    decreases EntriesSize(rest), 0
  {
    hide Sanitize, Objects, Fits, HasKeys, Enters, Shallow, Decides, Attributes;
    if rest != [] {
      ShallowIff(env, policy, es, node, ctx, rest[0]);
      if Shallow(env, node, rest[0]).None? { RefusesIff(env, policy, rest[0].value, Below(node, rest[0].key), depth, nodes); }
      var first := SanitizeEntry(env, policy, node, rest[0], depth, nodes);
      if first.Walked? { EntriesRefusedIff(env, policy, node, ctx, es, rest[1..], depth, first.nodes); }
    }
  }

  // ----- which keys are written -----

  /** Keys that could reach a prototype, and event handlers. */
  predicate IsUnsafeKey(env: Env, k: Text) {
    k == Name("__proto__") || k == Name("prototype") || k == Name("constructor") || env.handlerKey(k)
  }

  /** A style declaration record is written only if something of it is kept. */
  predicate IsRecord(es: seq<Entry>, k: Text) {
    Entry(Name("source"), Num(13.0)) in es && (k == Name("set") || k == Name("remove"))
  }

  lemma ServerEntryKept(env: Env, policy: Policy, es: seq<Entry>, node: Node, ctx: Context, e: Entry, depth: nat, nodes: nat)
    requires Decides(env, policy, es, Attributes(es), ctx, node, false) && SanitizeEntry(env, policy, node, e, depth, nodes).Walked?
    ensures var kept := SanitizeEntry(env, policy, node, e, depth, nodes).value;
            && (IsUnsafeKey(env, e.key) ==> kept == [])
            && (!IsUnsafeKey(env, e.key) && !IsRecord(es, e.key) ==> kept != [])
  {
    hide Name, Attributes, Blocks, Masks, HasTag, TagOf, StyleSet, StyleRemove, CleanAttributes, Sanitize;
  }

  lemma BrowserEntryKept(env: Env, policy: Policy, es: seq<Entry>, node: Node, ctx: Context, e: Entry)
    requires Decides(env, policy, es, Attributes(es), ctx, node, true)
    ensures var kept := CloneEntry(env, policy, node, ctx, e);
            && (IsUnsafeKey(env, e.key) ==> kept == [])
            && (!IsUnsafeKey(env, e.key) && !IsRecord(es, e.key) ==> kept != [])
  {
    hide Name, Attributes, Blocks, Masks, HasTag, TagOf, StyleSet, StyleRemove, CloneAttributes, Clone;
  }

  /** The server writes the keys of an object, but for unsafe ones and for style records that it empties. */
  lemma ServerKeysIff(env: Env, policy: Policy, es: seq<Entry>, ctx: Context, depth: nat, nodes: nat, k: Text)
    requires HasDistinctKeys(es) && Sanitize(env, policy, Obj(es), ctx, depth, nodes).Walked? && !IsRecord(es, k)
    ensures Sanitize(env, policy, Obj(es), ctx, depth, nodes).value.Obj?
    ensures Lookup(Sanitize(env, policy, Obj(es), ctx, depth, nodes).value.entries, k).Some?
       <==> Lookup(es, k).Some? && !IsUnsafeKey(env, k)
  {
    hide Name, Lookup, HasDistinctKeys, DistinctEntries, Decides, Attributes, Sanitize, SanitizeEntries, SanitizeEntry, IsUnsafeKey, IsRecord;
    OwnsAttributes(es);
    KeysDistinct(es);
    ServerDecides(env, policy, es, Attributes(es), ctx);
    ServerObject(env, policy, es, ctx, depth, nodes);
    var node := ServerNode(env, policy, es, ctx);
    if Lookup(es, k).None? {
      SanitizeAbsent(env, policy, node, es, depth + 1, nodes + 1, k);
    } else {
      var n := WalkedEntry(env, policy, node, es, depth + 1, nodes + 1, k);
      ServerEntryKept(env, policy, es, node, ctx, Entry(k, Lookup(es, k).value), depth + 1, n);
    }
  }

  lemma BrowserKeysIff(env: Env, policy: Policy, es: seq<Entry>, ctx: Context, k: Text)
    requires HasDistinctKeys(es) && !IsRecord(es, k)
    ensures Clone(env, policy, Obj(es), ctx).Obj?
    ensures Lookup(Clone(env, policy, Obj(es), ctx).entries, k).Some? <==> Lookup(es, k).Some? && !IsUnsafeKey(env, k)
  {
    hide Name, Lookup, HasDistinctKeys, DistinctEntries, Decides, Attributes, Clone, CloneEntries, CloneEntry, IsUnsafeKey, IsRecord;
    OwnsAttributes(es);
    KeysDistinct(es);
    BrowserDecides(env, policy, es, Attributes(es), ctx);
    ClientObject(env, policy, es, ctx);
    var node := ClientNode(env, policy, es, ctx);
    CloneLookup(env, policy, node, ctx, es, k);
    if Lookup(es, k).Some? { BrowserEntryKept(env, policy, es, node, ctx, Entry(k, Lookup(es, k).value)); }
  }
}
