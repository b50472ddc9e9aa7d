/** Recorded rrweb values, and the tests that both replay sanitizers make on a node. */
module ReplayValues {
  import opened Wrappers
  import Sequences
  import opened JsonText
  import opened StructuralTokens
  import opened CssScanner
  import opened CssSanitizer

  /** JSON values; the entries of an object are in insertion order. */
  datatype Value =
    | Null
    | Bool(b: bool)
    | Num(n: real)
    | Str(s: Text)
    | Arr(items: seq<Value>)
    | Obj(entries: seq<Entry>)

  datatype Entry = Entry(key: Text, value: Value)

  /**
   * The regular expressions and conversions of the two files: `lower` is `toLowerCase`, `text` is
   * `String(value)`, `attributeSelector` takes apart `[name="value"]`, `stripUrls` deletes `url(...)`,
   * `boundedInteger` is the text of a small integer, and the predicates are the expressions of the same names.
   */
  datatype Env = Env(
    lists: Lists,
    lower: Text -> Text,
    text: Value -> Text,
    handlerKey: Text -> bool,
    locationKey: Text -> bool,
    structuralTag: Text -> bool,
    networkAttribute: Text -> bool,
    safeAttribute: Text -> bool,
    booleanAttribute: Text -> bool,
    numericAttribute: Text -> bool,
    boundedInteger: Text -> Option<Text>,
    safeRole: Text -> bool,
    safeInputType: Text -> bool,
    secretLike: Text -> bool,
    relativeLocation: Text -> bool,
    stripUrls: Text -> Text,
    attributeSelector: Text -> Option<(Text, Option<Text>)>)

  datatype Policy = Policy(masked: bool, route: Text, maskSelectors: seq<Text>, blockSelectors: seq<Text>)

  predicate IsPlainName(t: Text) {
    forall c :: c in t ==> 0x61 <= c <= 0x7A || IsDigit(c) || c == HYPHEN || c == UNDERSCORE
  }

  /** White space and bullets only, as masking leaves a text. */
  predicate IsMask(t: Text) {
    forall c :: c in t ==> IsSpace(c) || c == BULLET
  }

  predicate IsNodeKey(k: Text) {
    k == Name("tagName") || k == Name("attributes") || k == Name("childNodes") || k == Name("textContent")
  }

  predicate IsTokenAttribute(k: Text) {
    k == Name("class") || k == Name("id")
  }

  /** What is used of the expressions: what they do to plain names, to bullets, and to the keys of a node. */
  ghost predicate SoundEnv(env: Env) {
    && (forall t :: IsPlainName(t) ==> env.lower(t) == t)
    && (forall s :: env.text(Str(s)) == s)
    && (forall t :: OPEN_PARENTHESIS !in t ==> env.stripUrls(t) == t)
    && (forall t :: IsMask(t) ==> !env.lists.urlLike(t) && !env.relativeLocation(t) && env.lists.redact(t) == t)
    && (forall k :: IsNodeKey(k) ==> !env.handlerKey(k) && !env.locationKey(k))
    && (forall k :: IsTokenAttribute(k) ==> env.safeAttribute(k) && !env.handlerKey(k) && !env.networkAttribute(k))
    && env.safeAttribute(MARKER) && !env.handlerKey(MARKER) && !env.networkAttribute(MARKER)
    && !env.booleanAttribute(MARKER) && !env.numericAttribute(MARKER)
  }

  lemma MaskFacts(env: Env, t: Text)
    requires SoundEnv(env) && IsMask(t)
    ensures !env.lists.urlLike(t) && !env.relativeLocation(t) && env.lists.redact(t) == t
  {
    hide IsMask, Name;
  }

  lemma LowerKept(env: Env, t: Text)
    requires SoundEnv(env) && IsPlainName(t)
    ensures env.lower(t) == t
  {
    hide IsPlainName, Name;
  }

  lemma NodeKeyFacts(env: Env, k: Text)
    requires SoundEnv(env) && IsNodeKey(k)
    ensures !env.handlerKey(k) && !env.locationKey(k)
  {
    hide IsNodeKey, Name;
  }

  lemma TokenAttributeFacts(env: Env, k: Text, value: Text)
    requires SoundEnv(env) && IsTokenAttribute(k) && OPEN_PARENTHESIS !in value
    ensures env.safeAttribute(k) && !env.handlerKey(k) && !env.networkAttribute(k)
    ensures env.text(Str(value)) == value && env.stripUrls(value) == value
  {
    hide IsTokenAttribute, Name;
  }

  const MASK: Text := [BULLET, BULLET, BULLET, BULLET]
  const SENSITIVE_TYPES := [Name("password"), Name("hidden")]
  const EXECUTABLE_TAGS := [Name("script"), Name("iframe"), Name("object"), Name("embed"), Name("form"), Name("base"), Name("meta")]

  // ----- sizes, for termination -----

  function Size(v: Value): nat {
    match v
    case Arr(items) => 1 + ItemsSize(items)
    case Obj(entries) => 1 + EntriesSize(entries)
    case _ => 0
  }

  function ItemsSize(items: seq<Value>): nat {
    if items == [] then 0 else 1 + Size(items[0]) + ItemsSize(items[1..])
  }

  function EntriesSize(es: seq<Entry>): nat {
    if es == [] then 0 else 1 + Size(es[0].value) + EntriesSize(es[1..])
  }

  // ----- looking at a node -----

  function Lookup(es: seq<Entry>, key: Text): Option<Value> {
    if es == [] then None else if es[0].key == key then Some(es[0].value) else Lookup(es[1..], key)
  }

  /** The attributes of a node; anything but an object counts as none. */
  function Attributes(es: seq<Entry>): seq<Entry> {
    match Lookup(es, Name("attributes"))
    case Some(Obj(attributes)) => attributes
    case _ => []
  }

  function AttributeValues(env: Env, attributes: seq<Entry>, name: Text): seq<Value> {
    if attributes == [] then []
    else (if env.lower(attributes[0].key) == env.lower(name) then [attributes[0].value] else [])
         + AttributeValues(env, attributes[1..], name)
  }

  predicate HasAttribute(env: Env, attributes: seq<Entry>, name: Text) {
    AttributeValues(env, attributes, name) != []
  }

  predicate HasClass(env: Env, attributes: seq<Entry>, name: Text) {
    exists v :: v in AttributeValues(env, attributes, Name("class")) && v.Str? && name in Words(v.s)
  }

  predicate HasCollision(env: Env, attributes: seq<Entry>) {
    exists i, j :: 0 <= i < j < |attributes| && env.lower(attributes[i].key) == env.lower(attributes[j].key)
  }

  predicate IsSensitiveInput(env: Env, attributes: seq<Entry>) {
    || (exists v :: v in AttributeValues(env, attributes, Name("type")) && v.Str? && env.lower(v.s) in SENSITIVE_TYPES)
    || (exists v :: v in AttributeValues(env, attributes, Name("autocomplete")) && v.Str?
          && (Sequences.Contains(env.lower(v.s), Name("cc-")) || Sequences.Contains(env.lower(v.s), Name("password"))
              || env.lower(v.s) == Name("one-time-code")))
  }

  predicate MatchesSelector(env: Env, tag: Text, attributes: seq<Entry>, selector: Text) {
    if selector != [] && selector[0] == FULL_STOP then HasClass(env, attributes, selector[1..])
    else if selector != [] && selector[0] == HASH_SIGN then
      exists v :: v in AttributeValues(env, attributes, Name("id")) && env.text(v) == selector[1..]
    else match env.attributeSelector(selector)
      case Some((name, None)) => HasAttribute(env, attributes, name)
      case Some((name, Some(wanted))) => exists v :: v in AttributeValues(env, attributes, name) && env.text(v) == wanted
      case None => tag == env.lower(selector)
  }

  const MARKER: Text := Name("data-poolstatis-replay-blocked")

  function Marked(): Value { Obj([Entry(MARKER, Str(Name("true")))]) }

  predicate IsBlocked(env: Env, tag: Text, attributes: seq<Entry>, selectors: seq<Text>) {
    || HasAttribute(env, attributes, MARKER)
    || HasAttribute(env, attributes, Name("data-poolstatis-block"))
    || HasClass(env, attributes, Name("rr-block"))
    || (tag == Name("input") && IsSensitiveInput(env, attributes))
    || HasAttribute(env, attributes, Name("data-payment"))
    || HasAttribute(env, attributes, Name("data-auth-token"))
    || exists s :: s in selectors && MatchesSelector(env, tag, attributes, s)
  }

  predicate IsMasked(env: Env, tag: Text, attributes: seq<Entry>, selectors: seq<Text>) {
    || tag == Name("input") || tag == Name("textarea")
    || HasAttribute(env, attributes, Name("data-poolstatis-mask"))
    || HasClass(env, attributes, Name("rr-mask"))
    || exists s :: s in selectors && MatchesSelector(env, tag, attributes, s)
  }

  predicate IsEditable(env: Env, attributes: seq<Entry>) {
    exists v :: v in AttributeValues(env, attributes, Name("contenteditable"))
                && v != Bool(false) && !(v.Str? && env.lower(v.s) == Name("false"))
  }

  /** What a walk carries down from the nodes above. */
  datatype Context = Context(key: Text, forceMask: bool, cssText: bool, cssRule: bool)

  /** What a walk decides about an object before it goes through the entries. */
  datatype Node = Node(tag: Option<Text>, executable: bool, forceMask: bool, cssText: bool, cssRule: bool, styleDeclaration: bool)

  function TagOf(env: Env, es: seq<Entry>): Option<Text> {
    match Lookup(es, Name("tagName"))
    case Some(Str(s)) => Some(env.lower(s))
    case _ => None
  }

  predicate HasSource(es: seq<Entry>, source: real) {
    Lookup(es, Name("source")) == Some(Num(source))
  }

  /** `element` says whether the tests for elements apply, and `tag` is the tag they see. */
  function Inspect(env: Env, policy: Policy, es: seq<Entry>, ctx: Context, tag: Text, element: bool): Node {
    var attributes := Attributes(es);
    var blocked := HasCollision(env, attributes) || (element && IsBlocked(env, tag, attributes, policy.blockSelectors));
    Node(
      TagOf(env, es),
      blocked || (element && tag in EXECUTABLE_TAGS),
      ctx.forceMask || (element && (tag == Name("input") || tag == Name("textarea"))) || IsEditable(env, attributes)
        || HasSource(es, 5.0) || (element && IsMasked(env, tag, attributes, policy.maskSelectors)),
      ctx.cssText || Lookup(es, Name("isStyle")) == Some(Bool(true)) || (element && tag == Name("style")),
      ctx.cssRule || HasSource(es, 8.0) || HasSource(es, 15.0),
      HasSource(es, 13.0))
  }

  predicate IsDropped(env: Env, key: Text) {
    key == Name("__proto__") || key == Name("prototype") || key == Name("constructor") || env.handlerKey(key)
  }

  predicate IsCss(ctx: Context) {
    || ctx.key == Name("_cssText") || ctx.key == Name("cssText") || ctx.key == Name("rule")
    || (ctx.cssRule && (ctx.key == Name("replace") || ctx.key == Name("replaceSync")))
    || (ctx.cssText && ctx.key == Name("textContent"))
  }

  predicate IsText(key: Text) {
    key == Name("textContent") || key == Name("value") || key == Name("text")
  }

  lemma NameFirst(s: string)
    requires s != ""
    ensures Name(s)[0] == s[0] as int % 0x1_0000
  {
  }

  /** The keys that the walks treat specially are different. */
  lemma KeysDiffer()
    ensures Name("tagName") != Name("attributes") && Name("tagName") != Name("childNodes") && Name("tagName") != Name("textContent")
    ensures Name("attributes") != Name("childNodes") && Name("attributes") != Name("textContent")
    ensures Name("childNodes") != Name("textContent")
    ensures Name("set") != Name("childNodes") && Name("set") != Name("textContent")
    ensures Name("set") != Name("tagName") && Name("set") != Name("attributes")
    ensures Name("remove") != Name("childNodes") && Name("remove") != Name("textContent")
    ensures Name("remove") != Name("tagName") && Name("remove") != Name("attributes")
  {
    hide Name;
    NameFirst("attributes");
    NameFirst("childNodes");
  }

  /** Every unit but white space becomes a bullet. */
  function Masked(t: Text): (r: Text)
    ensures |r| == |t|
    ensures forall i :: 0 <= i < |t| ==> r[i] == if IsSpace(t[i]) then t[i] else BULLET
  {
    if t == [] then [] else [if IsSpace(t[0]) then t[0] else BULLET] + Masked(t[1..])
  }

  function Placeholder(policy: Policy): Text {
    Name("https://replay.invalid/") + policy.route
  }

  function StyleSheet(env: Env, t: Text): Text {
    Render(Rules(env.lists, t, 0))
  }

  function DeclarationText(env: Env, t: Text): Text {
    RenderDeclarations(Declarations(env.lists, t))
  }

  // ----- style declarations recorded one by one -----

  /** `sanitizeStyleDeclarationSet`; None when nothing is kept. */
  function StyleSet(env: Env, es: seq<Entry>): Option<Value> {
    match (Lookup(es, Name("property")), Lookup(es, Name("value")))
    case (Some(Str(property)), Some(v)) =>
      if v.Null? || v.Str? then
        var declaration := DeclarationText(env, property + [COLON] + if v.Str? then v.s else []);
        var colon := FirstFrom(declaration, 0, COLON);
        if colon <= 0 then None
        else Some(Obj([Entry(Name("property"), Str(declaration[..colon])),
                       Entry(Name("value"), if v.Null? then Null else Str(declaration[colon + 1..])),
                       Entry(Name("priority"),
                             Str(if Lookup(es, Name("priority")) == Some(Str(Name("important"))) then Name("important") else []))]))
      else None
    case _ => None
  }

  /** `sanitizeStyleDeclarationRemove`. */
  function StyleRemove(env: Env, es: seq<Entry>): Option<Value> {
    match Lookup(es, Name("property"))
    case Some(Str(s)) =>
      var property := env.lower(Trim(s));
      if IsCustom(property) then Some(Obj([Entry(Name("property"), Str(CustomProperty(property)))]))
      else if env.lists.safeProperty(property) then Some(Obj([Entry(Name("property"), Str(property))]))
      else None
    case _ => None
  }
}
