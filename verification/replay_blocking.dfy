/** Which recorded elements either pass blocks, and which text it masks, told on the recorded entries. */
module ReplayBlocking {
  import opened Wrappers
  import Sequences
  import opened JsonText
  import opened StructuralTokens
  import opened CssSanitizer
  import opened ReplayValues
  import opened ReplaySanitizer
  import opened ReplayPrivacy
  import opened ReplayTwoPass
  import opened ReplayWalk

  // ----- words and parts -----

  /** `w` stands in `t` between white space or the ends. */
  ghost predicate Occurs(t: Text, w: Text) {
    exists i :: OccursAt(t, w, i)
  }

  predicate OccursAt(t: Text, w: Text, i: int) {
    && 0 <= i && i + |w| <= |t| && w != [] && t[i..i + |w|] == w
    && (forall c :: c in w ==> !IsSpace(c))
    && (i == 0 || IsSpace(t[i - 1])) && (i + |w| == |t| || IsSpace(t[i + |w|]))
  }

  lemma {:induction false} WordEnds(t: Text)
    ensures var n := WordLength(t);
            && (forall i :: 0 <= i < n ==> !IsSpace(t[i])) && (n < |t| ==> IsSpace(t[n]))
  {
    hide IsSpace;
    if t != [] && !IsSpace(t[0]) {
      WordEnds(t[1..]);
      forall i | 0 <= i < WordLength(t) ensures !IsSpace(t[i]) {
        if i > 0 { assert t[i] == t[1..][i - 1]; }
      }
    }
  }

  lemma ShiftedOccurs(t: Text, w: Text, i: int, n: nat)
    requires n <= |t| && n <= i
    requires n == 0 || n == |t| || IsSpace(t[n - 1]) || IsSpace(t[n])
    requires OccursAt(t, w, i)
    ensures i > n || n == 0 || IsSpace(t[n - 1]) ==> OccursAt(t[n..], w, i - n)
  {
    hide IsSpace;
    assert t[n..][i - n..i - n + |w|] == t[i..i + |w|];
  }

  lemma OccursShifted(t: Text, w: Text, i: int, n: nat)
    requires n <= |t| && OccursAt(t[n..], w, i) && (i > 0 || n == 0 || IsSpace(t[n - 1]))
    ensures OccursAt(t, w, i + n)
  {
    hide IsSpace;
    assert t[n..][i..i + |w|] == t[i + n..i + n + |w|];
  }

  /** The words of a text are what stands between white space. */
  lemma {:induction false} WordsIff(t: Text, w: Text)
    ensures w in Words(t) <==> Occurs(t, w)
    decreases |t|
  {
    hide IsSpace;
    if t == [] {
    } else if IsSpace(t[0]) {
      WordsIff(t[1..], w);
      forall i | OccursAt(t, w, i) ensures Occurs(t[1..], w) {
        assert w[0] == t[i];
        ShiftedOccurs(t, w, i, 1);
      }
      forall i | OccursAt(t[1..], w, i) ensures Occurs(t, w) {
        OccursShifted(t, w, i, 1);
      }
    } else {
      FirstWord(t, w);
    }
  }

  lemma {:induction false} FirstWord(t: Text, w: Text)
    requires t != [] && !IsSpace(t[0])
    ensures w in Words(t) <==> Occurs(t, w)
    decreases |t|, 0
  {
    hide IsSpace;
    var n := WordLength(t);
    WordEnds(t);
    WordsIff(t[n..], w);
    forall i | OccursAt(t, w, i) ensures w == t[..n] || Occurs(t[n..], w) {
      if i < n {
        assert i == 0;
        FirstOccurs(t, w, n);
      } else {
        assert w[0] == t[i];
        ShiftedOccurs(t, w, i, n);
      }
    }
    forall i | OccursAt(t[n..], w, i) ensures Occurs(t, w) {
      assert t[n..][i] == w[0];
      OccursShifted(t, w, i, n);
    }
    if w == t[..n] {
      assert t[0..0 + |w|] == w;
      assert OccursAt(t, w, 0);
    }
  }

  lemma FirstOccurs(t: Text, w: Text, n: nat)
    requires 0 < n <= |t| && OccursAt(t, w, 0)
    requires (forall i :: 0 <= i < n ==> !IsSpace(t[i])) && (n < |t| ==> IsSpace(t[n]))
    ensures w == t[..n]
  {
    hide IsSpace;
    assert forall i :: 0 <= i < |w| ==> w[i] == t[i];
    forall k | 0 <= k < |w| ensures !IsSpace(t[k]) { assert w[k] in w; }
  }

  /** `includes`. */
  ghost predicate HasPart(t: Text, part: Text) {
    exists i :: PartAt(t, part, i)
  }

  predicate PartAt(t: Text, part: Text, i: int) {
    0 <= i <= |t| - |part| && t[i..i + |part|] == part
  }

  lemma {:induction false} PartIff(t: Text, part: Text)
    ensures Sequences.Contains(t, part) <==> HasPart(t, part)
  {
    hide PartAt;
    if part <= t {
      PartFirst(t, part);
    } else if t != [] {
      PartIff(t[1..], part);
      forall i | PartAt(t, part, i) ensures PartAt(t[1..], part, i - 1) { PartDown(t, part, i); }
      forall i | PartAt(t[1..], part, i) ensures PartAt(t, part, i + 1) { PartUp(t, part, i); }
    } else {
      PartNowhere(part);
    }
  }

  lemma PartFirst(t: Text, part: Text)
    requires part <= t
    ensures PartAt(t, part, 0)
  {
  }

  lemma PartNowhere(part: Text)
    requires part != []
    ensures forall i :: !PartAt([], part, i)
  {
  }

  lemma PartDown(t: Text, part: Text, i: int)
    requires t != [] && !(part <= t) && PartAt(t, part, i)
    ensures PartAt(t[1..], part, i - 1)
  {
    assert i > 0;
    assert t[1..][i - 1..i - 1 + |part|] == t[i..i + |part|];
  }

  lemma PartUp(t: Text, part: Text, i: int)
    requires t != [] && PartAt(t[1..], part, i)
    ensures PartAt(t, part, i + 1)
  {
    assert t[1..][i..i + |part|] == t[i + 1..i + 1 + |part|];
  }

  // ----- attributes -----

  /** There is an attribute of this name, whatever the case. */
  ghost predicate Carries(env: Env, attributes: seq<Entry>, name: Text) {
    exists e :: e in attributes && env.lower(e.key) == env.lower(name)
  }

  /** The class list names `word`. */
  ghost predicate Classed(env: Env, attributes: seq<Entry>, word: Text) {
    exists e :: e in attributes && env.lower(e.key) == env.lower(Name("class")) && e.value.Str? && Occurs(e.value.s, word)
  }

  /** Two attributes have the same name but for case. */
  ghost predicate Collides(env: Env, attributes: seq<Entry>) {
    exists i, j :: 0 <= i < j < |attributes| && env.lower(attributes[i].key) == env.lower(attributes[j].key)
  }

  /** A `type` or an `autocomplete` of secrets. */
  ghost predicate IsSecretInput(env: Env, attributes: seq<Entry>) {
    exists e :: e in attributes && e.value.Str?
      && var value := env.lower(e.value.s);
      || (env.lower(e.key) == env.lower(Name("type")) && (value == Name("password") || value == Name("hidden")))
      || (env.lower(e.key) == env.lower(Name("autocomplete"))
          && (HasPart(value, Name("cc-")) || HasPart(value, Name("password")) || value == Name("one-time-code")))
  }

  ghost predicate IsEdited(env: Env, attributes: seq<Entry>) {
    exists e :: e in attributes && env.lower(e.key) == env.lower(Name("contenteditable")) && e.value != Bool(false)
                && !(e.value.Str? && env.lower(e.value.s) == Name("false"))
  }

  /** A selector is a class, an id, an attribute with or without its value, or a tag. */
  ghost predicate Selects(env: Env, tag: Text, attributes: seq<Entry>, selector: Text) {
    if selector != [] && selector[0] == 0x2E then Classed(env, attributes, selector[1..])
    else if selector != [] && selector[0] == 0x23 then
      exists e :: e in attributes && env.lower(e.key) == env.lower(Name("id")) && env.text(e.value) == selector[1..]
    else match env.attributeSelector(selector)
      case Some((name, None)) => Carries(env, attributes, name)
      case Some((name, Some(wanted))) =>
        exists e :: e in attributes && env.lower(e.key) == env.lower(name) && env.text(e.value) == wanted
      case None => tag == env.lower(selector)
  }

  lemma {:induction false} ValuesIff(env: Env, attributes: seq<Entry>, name: Text, v: Value)
    ensures v in AttributeValues(env, attributes, name)
       <==> exists e :: e in attributes && env.lower(e.key) == env.lower(name) && e.value == v
  {
    if attributes != [] {
      ValuesIff(env, attributes[1..], name, v);
      assert attributes == [attributes[0]] + attributes[1..];
      assert attributes[0] in attributes;
      assert forall e :: e in attributes <==> e == attributes[0] || e in attributes[1..];
    }
  }

  lemma AllValues(env: Env, attributes: seq<Entry>, name: Text)
    ensures forall v :: v in AttributeValues(env, attributes, name) ==>
              exists e :: e in attributes && env.lower(e.key) == env.lower(name) && e.value == v
    ensures forall e :: e in attributes && env.lower(e.key) == env.lower(name) ==> e.value in AttributeValues(env, attributes, name)
    ensures HasAttribute(env, attributes, name) <==> Carries(env, attributes, name)
  {
    forall v | v in AttributeValues(env, attributes, name)
      ensures exists e :: e in attributes && env.lower(e.key) == env.lower(name) && e.value == v
    {
      ValuesIff(env, attributes, name, v);
    }
    forall e | e in attributes && env.lower(e.key) == env.lower(name) ensures e.value in AttributeValues(env, attributes, name) {
      ValuesIff(env, attributes, name, e.value);
    }
    var vs := AttributeValues(env, attributes, name);
    hide AttributeValues, Name;
    if vs != [] { assert vs[0] in vs; }
  }

  lemma ClassIff(env: Env, attributes: seq<Entry>, word: Text)
    ensures HasClass(env, attributes, word) <==> Classed(env, attributes, word)
  {
    hide Name, AttributeValues, Words, Occurs;
    AllValues(env, attributes, Name("class"));
    forall t: Text ensures word in Words(t) <==> Occurs(t, word) { WordsIff(t, word); }
  }

  lemma SecretIff(env: Env, attributes: seq<Entry>)
    ensures IsSensitiveInput(env, attributes) <==> IsSecretInput(env, attributes)
  {
    hide Name, AttributeValues, Sequences.Contains, HasPart;
    AllValues(env, attributes, Name("type"));
    AllValues(env, attributes, Name("autocomplete"));
    forall t: Text ensures Sequences.Contains(t, Name("cc-")) <==> HasPart(t, Name("cc-")) { PartIff(t, Name("cc-")); }
    forall t: Text ensures Sequences.Contains(t, Name("password")) <==> HasPart(t, Name("password")) { PartIff(t, Name("password")); }
  }

  lemma EditedIff(env: Env, attributes: seq<Entry>)
    ensures IsEditable(env, attributes) <==> IsEdited(env, attributes)
  {
    hide Name, AttributeValues;
    AllValues(env, attributes, Name("contenteditable"));
  }

  lemma SelectsIff(env: Env, tag: Text, attributes: seq<Entry>, selector: Text)
    ensures MatchesSelector(env, tag, attributes, selector) <==> Selects(env, tag, attributes, selector)
  {
    hide Name, AttributeValues, HasClass, Classed, HasAttribute, Carries;
    if selector != [] { ClassIff(env, attributes, selector[1..]); }
    AllValues(env, attributes, Name("id"));
    match env.attributeSelector(selector)
    case Some((name, _)) => AllValues(env, attributes, name);
    case None =>
  }

  // ----- elements -----

  ghost predicate HasDistinctKeys(es: seq<Entry>) {
    forall i, j :: 0 <= i < j < |es| ==> es[i].key != es[j].key
  }

  /** The entries are those of a JavaScript object, and these are its attributes; anything but an object counts as none. */
  ghost predicate Owns(es: seq<Entry>, attributes: seq<Entry>) {
    && HasDistinctKeys(es)
    && (|| Entry(Name("attributes"), Obj(attributes)) in es
        || (attributes == [] && forall e :: e in es && e.key == Name("attributes") ==> !e.value.Obj?))
  }

  ghost predicate HasTag(env: Env, es: seq<Entry>, tag: Text) {
    exists e :: e in es && e.key == Name("tagName") && e.value.Str? && env.lower(e.value.s) == tag
  }

  /** What the server calls an element has a tag; for the browser the tag must not be empty. */
  ghost predicate IsElement(env: Env, es: seq<Entry>, tag: Text, browser: bool) {
    HasTag(env, es, tag) && (browser ==> tag != [])
  }

  predicate RunsCode(tag: Text) {
    || tag == Name("script") || tag == Name("iframe") || tag == Name("object") || tag == Name("embed")
    || tag == Name("form") || tag == Name("base") || tag == Name("meta")
  }

  /** What blocks an element with this tag. */
  ghost predicate BlocksElement(env: Env, selectors: seq<Text>, tag: Text, attributes: seq<Entry>) {
    || Carries(env, attributes, Name("data-poolstatis-replay-blocked"))
    || Carries(env, attributes, Name("data-poolstatis-block"))
    || Carries(env, attributes, Name("data-payment"))
    || Carries(env, attributes, Name("data-auth-token"))
    || Classed(env, attributes, Name("rr-block"))
    || (tag == Name("input") && IsSecretInput(env, attributes))
    || (exists s :: s in selectors && Selects(env, tag, attributes, s))
    || RunsCode(tag)
  }

  ghost predicate Blocks(env: Env, selectors: seq<Text>, es: seq<Entry>, attributes: seq<Entry>, browser: bool) {
    || Collides(env, attributes)
    || exists tag :: IsElement(env, es, tag, browser) && BlocksElement(env, selectors, tag, attributes)
  }

  /** What masks the text of an element with this tag. */
  ghost predicate MasksElement(env: Env, selectors: seq<Text>, tag: Text, attributes: seq<Entry>) {
    || tag == Name("input") || tag == Name("textarea")
    || Carries(env, attributes, Name("data-poolstatis-mask"))
    || Classed(env, attributes, Name("rr-mask"))
    || exists s :: s in selectors && Selects(env, tag, attributes, s)
  }

  ghost predicate Masks(env: Env, selectors: seq<Text>, es: seq<Entry>, attributes: seq<Entry>, browser: bool) {
    || IsEdited(env, attributes)
    || Entry(Name("source"), Num(5.0)) in es
    || exists tag :: IsElement(env, es, tag, browser) && MasksElement(env, selectors, tag, attributes)
  }

  lemma {:induction false} LookupIff(es: seq<Entry>, k: Text, v: Value)
    requires HasDistinctKeys(es)
    ensures Lookup(es, k) == Some(v) <==> Entry(k, v) in es
    ensures Lookup(es, k).None? <==> forall e :: e in es ==> e.key != k
  {
    if es != [] {
      var rest := es[1..];
      forall i, j | 0 <= i < j < |rest| ensures rest[i].key != rest[j].key {
        assert es[i + 1].key != es[j + 1].key;
      }
      LookupIff(rest, k, v);
      assert es == [es[0]] + rest;
      forall e | e in rest ensures e.key != es[0].key {
        var i :| 0 <= i < |rest| && rest[i] == e;
        assert es[i + 1] == e;
      }
      assert es[0] in es;
      assert forall e :: e in es <==> e == es[0] || e in rest;
    }
  }

  lemma AttributesAre(es: seq<Entry>, attributes: seq<Entry>)
    requires Owns(es, attributes)
    ensures Attributes(es) == attributes
  {
    hide Name, Lookup;
    LookupIff(es, Name("attributes"), Obj(attributes));
    match Lookup(es, Name("attributes"))
    case Some(v) => LookupIff(es, Name("attributes"), v);
    case None =>
  }

  lemma TagIs(env: Env, es: seq<Entry>, attributes: seq<Entry>, tag: Text)
    requires Owns(es, attributes)
    ensures HasTag(env, es, tag) <==> TagOf(env, es) == Some(tag)
  {
    hide Name, Lookup;
    if HasTag(env, es, tag) {
      var e :| e in es && e.key == Name("tagName") && e.value.Str? && env.lower(e.value.s) == tag;
      LookupIff(es, Name("tagName"), e.value);
    }
    match Lookup(es, Name("tagName"))
    case Some(v) => LookupIff(es, Name("tagName"), v);
    case None =>
  }

  predicate IsNeutral(env: Env, selectors: seq<Text>, tag: Text, attributes: seq<Entry>) {
    IsBlocked(env, tag, attributes, selectors) || tag in EXECUTABLE_TAGS
  }

  predicate IsShaped(env: Env, selectors: seq<Text>, tag: Text, attributes: seq<Entry>) {
    tag == Name("input") || tag == Name("textarea") || IsMasked(env, tag, attributes, selectors)
  }

  lemma BlocksElementIff(env: Env, selectors: seq<Text>, tag: Text, attributes: seq<Entry>)
    ensures IsNeutral(env, selectors, tag, attributes) <==> BlocksElement(env, selectors, tag, attributes)
  {
    hide Name, AttributeValues, HasClass, Classed, HasAttribute, Carries, MatchesSelector, Selects, IsSensitiveInput, IsSecretInput;
    AllValues(env, attributes, Name("data-poolstatis-replay-blocked"));
    AllValues(env, attributes, Name("data-poolstatis-block"));
    AllValues(env, attributes, Name("data-payment"));
    AllValues(env, attributes, Name("data-auth-token"));
    ClassIff(env, attributes, Name("rr-block"));
    SecretIff(env, attributes);
    forall s ensures MatchesSelector(env, tag, attributes, s) <==> Selects(env, tag, attributes, s) {
      SelectsIff(env, tag, attributes, s);
    }
    assert tag in EXECUTABLE_TAGS <==> RunsCode(tag);
  }

  lemma MasksElementIff(env: Env, selectors: seq<Text>, tag: Text, attributes: seq<Entry>)
    ensures IsShaped(env, selectors, tag, attributes) <==> MasksElement(env, selectors, tag, attributes)
  {
    hide Name, AttributeValues, HasClass, Classed, HasAttribute, Carries, MatchesSelector, Selects;
    AllValues(env, attributes, Name("data-poolstatis-mask"));
    ClassIff(env, attributes, Name("rr-mask"));
    forall s ensures MatchesSelector(env, tag, attributes, s) <==> Selects(env, tag, attributes, s) {
      SelectsIff(env, tag, attributes, s);
    }
  }

  lemma SourceIff(es: seq<Entry>, attributes: seq<Entry>, source: real)
    requires Owns(es, attributes)
    ensures HasSource(es, source) <==> Entry(Name("source"), Num(source)) in es
  {
    hide Name, Lookup;
    LookupIff(es, Name("source"), Num(source));
  }

  /** The tag that the tests of an element see, if they apply. */
  function ElementTag(env: Env, es: seq<Entry>, browser: bool): Option<Text> {
    match TagOf(env, es)
    case Some(tag) => if browser && tag == [] then None else Some(tag)
    case None => None
  }

  lemma ElementTagIs(env: Env, es: seq<Entry>, attributes: seq<Entry>, tag: Text, browser: bool)
    requires Owns(es, attributes)
    ensures IsElement(env, es, tag, browser) <==> ElementTag(env, es, browser) == Some(tag)
  {
    TagIs(env, es, attributes, tag);
    hide TagOf, HasTag, Owns;
  }

  lemma CollidesIff(env: Env, attributes: seq<Entry>)
    ensures HasCollision(env, attributes) <==> Collides(env, attributes)
  {
  }

  lemma BlocksIff(env: Env, selectors: seq<Text>, es: seq<Entry>, attributes: seq<Entry>, browser: bool)
    requires Owns(es, attributes)
    ensures Blocks(env, selectors, es, attributes, browser)
       <==> || HasCollision(env, attributes)
            || (ElementTag(env, es, browser).Some? && IsNeutral(env, selectors, ElementTag(env, es, browser).value, attributes))
  {
    hide Name, ElementTag, IsElement, BlocksElement, HasCollision, Collides, Owns, IsNeutral;
    CollidesIff(env, attributes);
    var tag := ElementTag(env, es, browser);
    forall t ensures IsElement(env, es, t, browser) <==> tag == Some(t) { ElementTagIs(env, es, attributes, t, browser); }
    if tag.Some? { BlocksElementIff(env, selectors, tag.value, attributes); }
  }

  lemma MasksIff(env: Env, selectors: seq<Text>, es: seq<Entry>, attributes: seq<Entry>, browser: bool)
    requires Owns(es, attributes)
    ensures Masks(env, selectors, es, attributes, browser)
       <==> || IsEditable(env, attributes) || HasSource(es, 5.0)
            || (ElementTag(env, es, browser).Some? && IsShaped(env, selectors, ElementTag(env, es, browser).value, attributes))
  {
    hide Name, ElementTag, IsElement, MasksElement, IsEditable, IsEdited, HasSource, Owns, IsShaped;
    EditedIff(env, attributes);
    SourceIff(es, attributes, 5.0);
    var tag := ElementTag(env, es, browser);
    forall t ensures IsElement(env, es, t, browser) <==> tag == Some(t) { ElementTagIs(env, es, attributes, t, browser); }
    if tag.Some? { MasksElementIff(env, selectors, tag.value, attributes); }
  }

  /** What either walk decides about an object, told on its entries. */
  ghost predicate Decides(env: Env, policy: Policy, es: seq<Entry>, attributes: seq<Entry>, ctx: Context, node: Node, browser: bool) {
    && (node.executable <==> Blocks(env, policy.blockSelectors, es, attributes, browser))
    && (node.forceMask <==> ctx.forceMask || Masks(env, policy.maskSelectors, es, attributes, browser))
    && (node.cssText <==> ctx.cssText || Entry(Name("isStyle"), Bool(true)) in es || HasTag(env, es, Name("style")))
    && (node.cssRule <==> ctx.cssRule || Entry(Name("source"), Num(8.0)) in es || Entry(Name("source"), Num(15.0)) in es)
    && (node.styleDeclaration <==> Entry(Name("source"), Num(13.0)) in es)
    && node.tag == TagOf(env, es)
  }

  lemma StyleIff(env: Env, es: seq<Entry>, attributes: seq<Entry>, browser: bool)
    requires Owns(es, attributes)
    ensures Lookup(es, Name("isStyle")) == Some(Bool(true)) <==> Entry(Name("isStyle"), Bool(true)) in es
    ensures HasTag(env, es, Name("style")) <==> ElementTag(env, es, browser) == Some(Name("style"))
  {
    hide Name, Lookup, TagOf, HasTag, HasDistinctKeys;
    LookupIff(es, Name("isStyle"), Bool(true));
    TagIs(env, es, attributes, Name("style"));
  }

  /** The tests of `Inspect`, one by one. */
  predicate Says(env: Env, policy: Policy, es: seq<Entry>, attributes: seq<Entry>, ctx: Context, node: Node, tag: Option<Text>) {
    && node.executable == (HasCollision(env, attributes) || (tag.Some? && IsNeutral(env, policy.blockSelectors, tag.value, attributes)))
    && node.forceMask == (ctx.forceMask || IsEditable(env, attributes) || HasSource(es, 5.0)
                          || (tag.Some? && IsShaped(env, policy.maskSelectors, tag.value, attributes)))
    && node.cssText == (ctx.cssText || Lookup(es, Name("isStyle")) == Some(Bool(true)) || tag == Some(Name("style")))
    && node.cssRule == (ctx.cssRule || HasSource(es, 8.0) || HasSource(es, 15.0))
    && node.styleDeclaration == HasSource(es, 13.0)
    && node.tag == TagOf(env, es)
  }

  lemma ServerSays(env: Env, policy: Policy, es: seq<Entry>, attributes: seq<Entry>, ctx: Context)
    requires Owns(es, attributes)
    ensures Says(env, policy, es, attributes, ctx, ServerNode(env, policy, es, ctx), ElementTag(env, es, false))
  {
    hide Name, Lookup, Attributes, IsBlocked, IsMasked, IsEditable, HasSource, TagOf, HasCollision, Owns;
    AttributesAre(es, attributes);
  }

  lemma ClientSays(env: Env, policy: Policy, es: seq<Entry>, attributes: seq<Entry>, ctx: Context)
    requires Owns(es, attributes)
    ensures Says(env, policy, es, attributes, ctx, ClientNode(env, policy, es, ctx), ElementTag(env, es, true))
  {
    hide Name, Lookup, Attributes, IsBlocked, IsMasked, IsEditable, HasSource, TagOf, HasCollision, Owns;
    AttributesAre(es, attributes);
  }

  lemma SaysDecides(env: Env, policy: Policy, es: seq<Entry>, attributes: seq<Entry>, ctx: Context, node: Node, browser: bool)
    requires Owns(es, attributes) && Says(env, policy, es, attributes, ctx, node, ElementTag(env, es, browser))
    ensures Decides(env, policy, es, attributes, ctx, node, browser)
  {
    hide Name, Lookup, IsNeutral, IsShaped, IsEditable, HasSource, TagOf, HasTag, HasCollision, Owns, Blocks, Masks, ElementTag;
    BlocksIff(env, policy.blockSelectors, es, attributes, browser);
    MasksIff(env, policy.maskSelectors, es, attributes, browser);
    StyleIff(env, es, attributes, browser);
    SourceIff(es, attributes, 8.0);
    SourceIff(es, attributes, 13.0);
    SourceIff(es, attributes, 15.0);
  }

  // ----- blocked elements -----

  /** An entry of a marked `div` without children and without text. */
  predicate IsNeutralEntry(e: Entry) {
    && (e.key == Name("tagName") ==> e.value == Str(Name("div")))
    && (e.key == Name("attributes") && e.value.Obj? ==>
          e.value == Obj([Entry(Name("data-poolstatis-replay-blocked"), Str(Name("true")))]))
    && (e.key == Name("childNodes") ==> e.value == Arr([]))
    && (e.key == Name("textContent") ==> e.value == Str([]))
  }

  /** Of the keys of a node, `out` has those of `es`; its values are those of a neutral node. */
  predicate IsNeutralNode(es: seq<Entry>, out: seq<Entry>) {
    && IsNeutralKey(es, out, Name("tagName")) && IsNeutralKey(es, out, Name("attributes"))
    && IsNeutralKey(es, out, Name("childNodes")) && IsNeutralKey(es, out, Name("textContent"))
  }

  predicate IsNeutralKey(es: seq<Entry>, out: seq<Entry>, k: Text) {
    && (Lookup(out, k).Some? <==> Lookup(es, k).Some?)
    && (Lookup(out, k).Some? ==> IsNeutralEntry(Entry(k, Lookup(out, k).value)))
  }

  lemma {:induction false} KeysDistinct(es: seq<Entry>)
    requires HasDistinctKeys(es)
    ensures DistinctEntries(es)
  {
    if es != [] {
      var rest := es[1..];
      assert forall i :: 0 <= i < |rest| ==> rest[i] == es[i + 1];
      KeysDistinct(rest);
      if Lookup(rest, es[0].key).Some? {
        var i := FoundAt(rest, es[0].key);
      }
    }
  }

  lemma {:induction false} FoundAt(es: seq<Entry>, k: Text) returns (i: nat)
    requires Lookup(es, k).Some?
    ensures i < |es| && es[i] == Entry(k, Lookup(es, k).value)
  {
    if es[0].key == k {
      i := 0;
    } else {
      i := FoundAt(es[1..], k);
      i := i + 1;
    }
  }

  lemma ServerNeutralEntry(env: Env, policy: Policy, node: Node, depth: nat, nodes: nat, k: Text, v: Value)
    requires SoundEnv(env) && node.executable && IsNodeKey(k) && (k == Name("attributes") ==> v.Obj?)
    requires SanitizeEntry(env, policy, node, Entry(k, v), depth, nodes).Walked?
    ensures SanitizeEntry(env, policy, node, Entry(k, v), depth, nodes).value == [Entry(k, HuskValue(k))]
  {
    hide SoundEnv, Name, IsDropped, StyleSet, StyleRemove, CleanAttributes, Sanitize, Marked;
    NodeKeysKept(env, k);
    KeysDiffer();
  }

  /** What is not an object does not become one. */
  lemma ServerScalar(env: Env, policy: Policy, node: Node, depth: nat, nodes: nat, v: Value)
    requires SoundEnv(env) && !v.Obj? && SanitizeEntry(env, policy, node, Entry(Name("attributes"), v), depth, nodes).Walked?
    ensures SanitizeEntry(env, policy, node, Entry(Name("attributes"), v), depth, nodes).value != []
    ensures forall e :: e in SanitizeEntry(env, policy, node, Entry(Name("attributes"), v), depth, nodes).value ==> !e.value.Obj?
  {
    hide SoundEnv, Name, IsDropped, CleanString, StyleSet, StyleRemove, CleanAttributes, SanitizeItems;
    NodeKeysKept(env, Name("attributes"));
    KeysDiffer();
  }

  lemma HuskIsNeutral(k: Text)
    requires IsNodeKey(k)
    ensures IsNeutralEntry(Entry(k, HuskValue(k)))
  {
    hide Name;
    KeysDiffer();
  }

  lemma ServerNeutralKey(env: Env, policy: Policy, node: Node, es: seq<Entry>, depth: nat, nodes: nat, k: Text)
    requires SoundEnv(env) && DistinctEntries(es) && node.executable && IsNodeKey(k)
    requires SanitizeEntries(env, policy, node, es, depth, nodes).Walked?
    ensures IsNeutralKey(es, SanitizeEntries(env, policy, node, es, depth, nodes).value, k)
  {
    hide SoundEnv, Name, DistinctEntries, IsNodeKey, SanitizeEntries, SanitizeEntry, Lookup, HuskValue, IsNeutralEntry;
    if Lookup(es, k).None? {
      SanitizeAbsent(env, policy, node, es, depth, nodes, k);
    } else {
      var n := WalkedEntry(env, policy, node, es, depth, nodes, k);
      var v := Lookup(es, k).value;
      if k == Name("attributes") && !v.Obj? {
        ServerScalar(env, policy, node, depth, n, v);
        NoObjectIsNeutral(Lookup(SanitizeEntries(env, policy, node, es, depth, nodes).value, k));
      } else {
        ServerNeutralEntry(env, policy, node, depth, n, k, v);
        HuskIsNeutral(k);
      }
    }
  }

  lemma NoObjectIsNeutral(v: Option<Value>)
    ensures v.Some? && !v.value.Obj? ==> IsNeutralEntry(Entry(Name("attributes"), v.value))
  {
    hide Name;
    KeysDiffer();
  }

  // ----- what is not blocked keeps its attributes -----

  lemma {:induction false} CleanKeys(env: Env, forceMask: bool, attributes: seq<Entry>, e: Entry)
    requires e in CleanAttributes(env, forceMask, attributes)
    ensures exists a :: a in attributes && e.key == OutputName(env.lower(a.key))
  {
    hide AttributeText, OutputName, Name;
    var last := |attributes| - 1;
    if e in CleanAttributes(env, forceMask, attributes[..last]) {
      CleanKeys(env, forceMask, attributes[..last], e);
      var a :| a in attributes[..last] && e.key == OutputName(env.lower(a.key));
      assert a in attributes;
    } else {
      assert e in CleanAttribute(env, forceMask, attributes[last]);
      assert attributes[last] in attributes;
    }
  }

  lemma {:induction false} CloneKeys(env: Env, policy: Policy, ctx: Context, attributes: seq<Entry>, e: Entry)
    requires e in CloneAttributes(env, policy, ctx, attributes)
    ensures exists a :: a in attributes && e.key == OutputName(env.lower(a.key))
  {
    hide OwnText, OutputName, Name, Clone, IsSkipped, HasOwnRule;
    if e in CloneAttributes(env, policy, ctx, attributes[1..]) {
      CloneKeys(env, policy, ctx, attributes[1..], e);
      var a :| a in attributes[1..] && e.key == OutputName(env.lower(a.key));
      assert a in attributes;
    } else {
      assert e in CloneAttribute(env, policy, ctx, attributes[0]);
      assert attributes[0] in attributes;
    }
  }

  lemma MarkerOnly(env: Env, attributes: seq<Entry>, a: Entry)
    requires SoundEnv(env) && a in attributes && OutputName(env.lower(a.key)) == MARKER
    ensures Carries(env, attributes, Name("data-poolstatis-replay-blocked"))
  {
    hide Name, SoundEnv;
    MarkerName(env);
    assert |MARKER| == 30 && |Name("_cssText")| == 8;
    assert env.lower(a.key) == MARKER;
  }

  lemma CleanNotMarked(env: Env, forceMask: bool, attributes: seq<Entry>)
    requires SoundEnv(env) && !Carries(env, attributes, Name("data-poolstatis-replay-blocked"))
    ensures Obj(CleanAttributes(env, forceMask, attributes)) != Marked()
  {
    hide Name, SoundEnv, CleanAttributes, Carries, OutputName;
    var mark := Entry(MARKER, Str(Name("true")));
    if mark in CleanAttributes(env, forceMask, attributes) {
      CleanKeys(env, forceMask, attributes, mark);
      var a :| a in attributes && mark.key == OutputName(env.lower(a.key));
      MarkerOnly(env, attributes, a);
    }
    assert mark in [mark];
  }

  lemma CloneNotMarked(env: Env, policy: Policy, ctx: Context, attributes: seq<Entry>)
    requires SoundEnv(env) && !Carries(env, attributes, Name("data-poolstatis-replay-blocked"))
    ensures Obj(CloneAttributes(env, policy, ctx, attributes)) != Marked()
  {
    hide Name, SoundEnv, CloneAttributes, Carries, OutputName;
    var mark := Entry(MARKER, Str(Name("true")));
    if mark in CloneAttributes(env, policy, ctx, attributes) {
      CloneKeys(env, policy, ctx, attributes, mark);
      var a :| a in attributes && mark.key == OutputName(env.lower(a.key));
      MarkerOnly(env, attributes, a);
    }
    assert mark in [mark];
  }

  lemma ServerAttributesEntry(env: Env, policy: Policy, node: Node, attributes: seq<Entry>, depth: nat, nodes: nat)
    requires SoundEnv(env) && !node.executable
    ensures SanitizeEntry(env, policy, node, Entry(Name("attributes"), Obj(attributes)), depth, nodes)
         == Walked([Entry(Name("attributes"), Obj(CleanAttributes(env, node.forceMask, attributes)))], nodes)
  {
    hide SoundEnv, Name, IsDropped, StyleSet, StyleRemove, CleanAttributes, Sanitize;
    NodeKeysKept(env, Name("attributes"));
    KeysDiffer();
  }

  lemma ClientAttributesEntry(env: Env, policy: Policy, node: Node, ctx: Context, attributes: seq<Entry>)
    requires SoundEnv(env) && !node.executable
    ensures CloneEntry(env, policy, node, ctx, Entry(Name("attributes"), Obj(attributes)))
         == [Entry(Name("attributes"), Obj(CloneAttributes(env, policy, ctx.(forceMask := node.forceMask), attributes)))]
  {
    hide SoundEnv, Name, IsDropped, StyleSet, StyleRemove, CloneAttributes, Clone;
    NodeKeysKept(env, Name("attributes"));
    KeysDiffer();
  }

  // ----- the theorems -----

  lemma UnblockedUnmarked(env: Env, selectors: seq<Text>, es: seq<Entry>, attributes: seq<Entry>, tag: Text, browser: bool)
    requires !Blocks(env, selectors, es, attributes, browser) && IsElement(env, es, tag, browser)
    ensures !Carries(env, attributes, Name("data-poolstatis-replay-blocked"))
  {
    hide Name, Carries, IsElement, Classed, IsSecretInput, Selects, RunsCode;
  }

  lemma ServerObject(env: Env, policy: Policy, es: seq<Entry>, ctx: Context, depth: nat, nodes: nat)
    requires Sanitize(env, policy, Obj(es), ctx, depth, nodes).Walked?
    ensures var walk := SanitizeEntries(env, policy, ServerNode(env, policy, es, ctx), es, depth + 1, nodes + 1);
            walk.Walked? && Sanitize(env, policy, Obj(es), ctx, depth, nodes).value == Obj(walk.value)
  {
    hide ServerNode, SanitizeEntries;
  }

  lemma ServerNeutral(env: Env, policy: Policy, node: Node, es: seq<Entry>, depth: nat, nodes: nat)
    requires SoundEnv(env) && DistinctEntries(es) && node.executable && SanitizeEntries(env, policy, node, es, depth, nodes).Walked?
    ensures IsNeutralNode(es, SanitizeEntries(env, policy, node, es, depth, nodes).value)
  {
    hide SoundEnv, Name, SanitizeEntries, DistinctEntries, IsNeutralKey;
    ServerNeutralKey(env, policy, node, es, depth, nodes, Name("tagName"));
    ServerNeutralKey(env, policy, node, es, depth, nodes, Name("attributes"));
    ServerNeutralKey(env, policy, node, es, depth, nodes, Name("childNodes"));
    ServerNeutralKey(env, policy, node, es, depth, nodes, Name("textContent"));
  }

  lemma ServerOpen(env: Env, policy: Policy, node: Node, es: seq<Entry>, attributes: seq<Entry>, depth: nat, nodes: nat)
    requires SoundEnv(env) && DistinctEntries(es) && !node.executable && SanitizeEntries(env, policy, node, es, depth, nodes).Walked?
    requires Lookup(es, Name("attributes")) == Some(Obj(attributes))
    requires !Carries(env, attributes, Name("data-poolstatis-replay-blocked"))
    ensures !IsNeutralNode(es, SanitizeEntries(env, policy, node, es, depth, nodes).value)
  {
    hide SoundEnv, Name, SanitizeEntries, SanitizeEntry, Lookup, DistinctEntries, IsNeutralKey, Carries;
    var n := WalkedEntry(env, policy, node, es, depth, nodes, Name("attributes"));
    ServerAttributesEntry(env, policy, node, attributes, depth, n);
    CleanNotMarked(env, node.forceMask, attributes);
    NotNeutral(es, SanitizeEntries(env, policy, node, es, depth, nodes).value, CleanAttributes(env, node.forceMask, attributes));
  }

  /** An element with attributes, as the two theorems mean it. */
  ghost predicate IsWhole(env: Env, es: seq<Entry>, attributes: seq<Entry>, browser: bool) {
    Entry(Name("attributes"), Obj(attributes)) in es && exists tag :: IsElement(env, es, tag, browser)
  }

  lemma WholeUnmarked(env: Env, selectors: seq<Text>, es: seq<Entry>, attributes: seq<Entry>, browser: bool)
    requires Owns(es, attributes) && IsWhole(env, es, attributes, browser) && !Blocks(env, selectors, es, attributes, browser)
    ensures !Carries(env, attributes, Name("data-poolstatis-replay-blocked")) && Lookup(es, Name("attributes")) == Some(Obj(attributes))
  {
    hide Name, Owns, Blocks, IsElement, Carries, Lookup;
    OwnedAttributes(es, attributes);
    var tag :| IsElement(env, es, tag, browser);
    UnblockedUnmarked(env, selectors, es, attributes, tag, browser);
  }

  lemma OwnsDistinct(es: seq<Entry>, attributes: seq<Entry>)
    requires Owns(es, attributes)
    ensures DistinctEntries(es)
  {
    KeysDistinct(es);
  }

  lemma ServerDecides(env: Env, policy: Policy, es: seq<Entry>, attributes: seq<Entry>, ctx: Context)
    requires Owns(es, attributes)
    ensures Decides(env, policy, es, attributes, ctx, ServerNode(env, policy, es, ctx), false)
  {
    hide *;
    ServerSays(env, policy, es, attributes, ctx);
    SaysDecides(env, policy, es, attributes, ctx, ServerNode(env, policy, es, ctx), false);
  }

  lemma BrowserDecides(env: Env, policy: Policy, es: seq<Entry>, attributes: seq<Entry>, ctx: Context)
    requires Owns(es, attributes)
    ensures Decides(env, policy, es, attributes, ctx, ClientNode(env, policy, es, ctx), true)
  {
    hide *;
    ClientSays(env, policy, es, attributes, ctx);
    SaysDecides(env, policy, es, attributes, ctx, ClientNode(env, policy, es, ctx), true);
  }

  lemma DecidedBlock(env: Env, policy: Policy, es: seq<Entry>, attributes: seq<Entry>, ctx: Context, node: Node, browser: bool)
    requires Decides(env, policy, es, attributes, ctx, node, browser)
    ensures node.executable <==> Blocks(env, policy.blockSelectors, es, attributes, browser)
  {
    hide Blocks, Masks, HasTag, TagOf, Name;
  }

  /**
   * An element leaves the server pass as the marked, childless, textless `div` exactly if it is blocked;
   * what has no tag or no attributes does so if it is blocked.
   */
  lemma ServerBlocksIff(env: Env, policy: Policy, es: seq<Entry>, attributes: seq<Entry>, ctx: Context, depth: nat, nodes: nat)
    requires SoundEnv(env) && Owns(es, attributes) && Sanitize(env, policy, Obj(es), ctx, depth, nodes).Walked?
    ensures Sanitize(env, policy, Obj(es), ctx, depth, nodes).value.Obj?
    ensures var out := Sanitize(env, policy, Obj(es), ctx, depth, nodes).value.entries;
            && (Blocks(env, policy.blockSelectors, es, attributes, false) ==> IsNeutralNode(es, out))
            && (IsWhole(env, es, attributes, false) && IsNeutralNode(es, out) ==> Blocks(env, policy.blockSelectors, es, attributes, false))
  {
    hide *;
    OwnsDistinct(es, attributes);
    ServerObject(env, policy, es, ctx, depth, nodes);
    ServerDecides(env, policy, es, attributes, ctx);
    var node := ServerNode(env, policy, es, ctx);
    DecidedBlock(env, policy, es, attributes, ctx, node, false);
    if node.executable {
      ServerNeutral(env, policy, node, es, depth + 1, nodes + 1);
    } else if IsWhole(env, es, attributes, false) {
      WholeUnmarked(env, policy.blockSelectors, es, attributes, false);
      ServerOpen(env, policy, node, es, attributes, depth + 1, nodes + 1);
    }
  }

  lemma OwnedAttributes(es: seq<Entry>, attributes: seq<Entry>)
    requires Owns(es, attributes) && Entry(Name("attributes"), Obj(attributes)) in es
    ensures Lookup(es, Name("attributes")) == Some(Obj(attributes))
  {
    hide Name, Lookup;
    LookupIff(es, Name("attributes"), Obj(attributes));
  }

  lemma NotNeutral(es: seq<Entry>, out: seq<Entry>, attributes: seq<Entry>)
    requires Lookup(out, Name("attributes")) == Some(Obj(attributes)) && Obj(attributes) != Marked()
    ensures !IsNeutralKey(es, out, Name("attributes"))
  {
    hide Name, Lookup;
  }

  lemma ClientScalar(env: Env, policy: Policy, node: Node, ctx: Context, v: Value)
    requires !v.Obj?
    ensures forall e :: e in CloneEntry(env, policy, node, ctx, Entry(Name("attributes"), v)) ==> !e.value.Obj?
  {
    hide Name, IsDropped, CloneString, StyleSet, StyleRemove, CloneAttributes, CloneItems;
    KeysDiffer();
  }

  lemma ClientNeutralKey(env: Env, policy: Policy, node: Node, ctx: Context, es: seq<Entry>, k: Text)
    requires SoundEnv(env) && DistinctEntries(es) && node.executable && IsNodeKey(k)
    ensures IsNeutralKey(es, CloneEntries(env, policy, node, ctx, es), k)
  {
    hide SoundEnv, Name, DistinctEntries, IsNodeKey, CloneEntries, CloneEntry, Lookup, HuskValue, IsNeutralEntry;
    CloneLookup(env, policy, node, ctx, es, k);
    if Lookup(es, k).Some? {
      var v := Lookup(es, k).value;
      if k == Name("attributes") && !v.Obj? {
        ClientScalar(env, policy, node, ctx, v);
        ClientKept(env, policy, node, ctx, v);
        NoObjectIsNeutral(Lookup(CloneEntries(env, policy, node, ctx, es), k));
      } else {
        ClientHuskEntry(env, policy, node, ctx, k, v);
        HuskIsNeutral(k);
      }
    }
  }

  lemma ClientKept(env: Env, policy: Policy, node: Node, ctx: Context, v: Value)
    requires SoundEnv(env) && !v.Obj?
    ensures CloneEntry(env, policy, node, ctx, Entry(Name("attributes"), v)) != []
  {
    hide SoundEnv, Name, IsDropped, Clone, StyleSet, StyleRemove, CloneAttributes;
    NodeKeysKept(env, Name("attributes"));
    KeysDiffer();
  }

  lemma ClientNeutral(env: Env, policy: Policy, node: Node, ctx: Context, es: seq<Entry>)
    requires SoundEnv(env) && DistinctEntries(es) && node.executable
    ensures IsNeutralNode(es, CloneEntries(env, policy, node, ctx, es))
  {
    hide SoundEnv, Name, CloneEntries, DistinctEntries, IsNeutralKey;
    ClientNeutralKey(env, policy, node, ctx, es, Name("tagName"));
    ClientNeutralKey(env, policy, node, ctx, es, Name("attributes"));
    ClientNeutralKey(env, policy, node, ctx, es, Name("childNodes"));
    ClientNeutralKey(env, policy, node, ctx, es, Name("textContent"));
  }

  lemma ClientOpen(env: Env, policy: Policy, node: Node, ctx: Context, es: seq<Entry>, attributes: seq<Entry>)
    requires SoundEnv(env) && DistinctEntries(es) && !node.executable
    requires Lookup(es, Name("attributes")) == Some(Obj(attributes))
    requires !Carries(env, attributes, Name("data-poolstatis-replay-blocked"))
    ensures !IsNeutralNode(es, CloneEntries(env, policy, node, ctx, es))
  {
    hide SoundEnv, Name, CloneEntries, CloneEntry, Lookup, DistinctEntries, IsNeutralKey, Carries;
    var inner := ctx.(forceMask := node.forceMask);
    CloneLookup(env, policy, node, ctx, es, Name("attributes"));
    ClientAttributesEntry(env, policy, node, ctx, attributes);
    CloneNotMarked(env, policy, inner, attributes);
    NotNeutral(es, CloneEntries(env, policy, node, ctx, es), CloneAttributes(env, policy, inner, attributes));
  }

  lemma ClientObject(env: Env, policy: Policy, es: seq<Entry>, ctx: Context)
    ensures Clone(env, policy, Obj(es), ctx) == Obj(CloneEntries(env, policy, ClientNode(env, policy, es, ctx), ctx, es))
  {
    hide ClientNode, CloneEntries;
  }

  /** The same of the browser pass. */
  lemma BrowserBlocksIff(env: Env, policy: Policy, es: seq<Entry>, attributes: seq<Entry>, ctx: Context)
    requires SoundEnv(env) && Owns(es, attributes)
    ensures Clone(env, policy, Obj(es), ctx).Obj?
    ensures var out := Clone(env, policy, Obj(es), ctx).entries;
            && (Blocks(env, policy.blockSelectors, es, attributes, true) ==> IsNeutralNode(es, out))
            && (IsWhole(env, es, attributes, true) && IsNeutralNode(es, out) ==> Blocks(env, policy.blockSelectors, es, attributes, true))
  {
    hide *;
    OwnsDistinct(es, attributes);
    ClientObject(env, policy, es, ctx);
    BrowserDecides(env, policy, es, attributes, ctx);
    var node := ClientNode(env, policy, es, ctx);
    DecidedBlock(env, policy, es, attributes, ctx, node, true);
    if node.executable {
      ClientNeutral(env, policy, node, ctx, es);
    } else if IsWhole(env, es, attributes, true) {
      WholeUnmarked(env, policy.blockSelectors, es, attributes, true);
      ClientOpen(env, policy, node, ctx, es, attributes);
    }
  }
}
