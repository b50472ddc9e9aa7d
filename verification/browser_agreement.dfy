/** The browser and the validator agree: exactly which emitted events are accepted. */
module BrowserAgreement {
  import opened Wrappers
  import opened Engagement
  import opened EngagementChain
  import opened BrowserValidator

  /** The properties come from this agent and selection, and the acquisition snapshot only has its own keys. */
  predicate Collected(e: Event, a: Agent, selected: set<string>) {
    e.common.context == OptionalContext(a, selected) && e.common.acquisition.Keys <= ACQUISITION_KEYS
  }

  lemma ContextApart(key: string)
    requires key in CONTEXT_KEYS
    ensures key !in PAGE_KEYS && key !in ENGAGEMENT_KEYS && key !in ACQUISITION_KEYS
  {
  }

  lemma OwnKeys(e: Event, key: string)
    requires key in Own(e)
    ensures key in PAGE_KEYS || key in ENGAGEMENT_KEYS
  {
  }

  lemma WireContext(e: Event, a: Agent, selected: set<string>, key: string)
    requires Collected(e, a, selected) && key in CONTEXT_KEYS
    ensures key in Wire(e) <==> key in selected
    ensures key in Wire(e) ==> Wire(e)[key] == S(ContextValue(a, key))
  {
    ContextApart(key);
    if key in Own(e) { OwnKeys(e, key); }
    assert key != "$browser_context" && key != "$route_key";
    hide ContextValue, Own;
    var context := Texts(e.common.context);
    assert key in context <==> key in selected;
    assert key !in Texts(e.common.acquisition);
  }

  lemma WireFixed(e: Event, a: Agent, selected: set<string>)
    requires Collected(e, a, selected)
    ensures "$browser_context" in Wire(e) && Wire(e)["$browser_context"] == S("1")
    ensures "$route_key" in Wire(e) && Wire(e)["$route_key"] == S(e.who.route)
    ensures "$page_view_id" in Wire(e) && Wire(e)["$page_view_id"] == S(e.page)
  {
    hide ContextValue;
    var m := Texts(e.common.context);
    assert "$browser_context" !in m && "$route_key" !in m;
    assert "$browser_context" !in Own(e) && "$route_key" !in Own(e);
  }

  lemma WireOwn(e: Event, key: string)
    requires key in Own(e)
    ensures key in Wire(e) && Wire(e)[key] == Own(e)[key]
  {
    hide Own;
  }

  lemma OwnAllowed(e: Event, key: string)
    requires key in Own(e)
    ensures IsAllowed(EventName(e), key)
  {
  }

  lemma WireAllowed(e: Event, a: Agent, selected: set<string>, key: string)
    requires Collected(e, a, selected) && key in Wire(e)
    ensures IsAllowed(EventName(e), key)
  {
    hide ContextValue, Own;
    if key in Own(e) {
      OwnAllowed(e, key);
    } else if key in Texts(e.common.context) {
      assert key in CONTEXT_KEYS;
    } else if key in Texts(e.common.acquisition) {
      assert key in ACQUISITION_KEYS;
    }
  }

  lemma ContextEnum(a: Agent, key: string)
    requires key in CONTEXT_ENUMS && key != "$browser_context"
    ensures key in CONTEXT_KEYS && ContextValue(a, key) in CONTEXT_ENUMS[key]
  {
    if key == "$device_class" { DeviceEnum(a); }
    else if key == "$browser_family" { BrowserEnum(a); }
    else if key == "$os_family" { OsEnum(a); }
    else { SizeEnum(a.innerWidth); SizeEnum(a.screenWidth); }
  }

  lemma DeviceEnum(a: Agent)
    ensures DeviceClass(a) in {"desktop", "mobile", "tablet"}
  {
  }

  lemma BrowserEnum(a: Agent)
    ensures BrowserFamily(a) in {"chrome", "safari", "firefox", "edge", "other"}
  {
  }

  lemma OsEnum(a: Agent)
    ensures OsFamily(a) in {"android", "ios", "macos", "windows", "linux", "other"}
  {
  }

  lemma SizeEnum(width: int)
    ensures SizeBucket(width) in {"xs", "sm", "md", "lg", "xl"}
  {
  }

  lemma EnumsAgree(e: Event, a: Agent, selected: set<string>)
    requires Collected(e, a, selected)
    ensures EnumsFit(Wire(e))
  {
    hide Wire, ContextValue, Collected;
    WireFixed(e, a, selected);
    forall key | key in CONTEXT_ENUMS && key in Wire(e) ensures Wire(e)[key].S? && Wire(e)[key].s in CONTEXT_ENUMS[key] {
      if key != "$browser_context" {
        ContextEnum(a, key);
        WireContext(e, a, selected, key);
      }
    }
  }

  lemma LanguageAgrees(e: Event, a: Agent, selected: set<string>)
    requires Collected(e, a, selected)
    ensures LanguageFits(Wire(e))
  {
    hide Wire, Collected, IsLanguage;
    WireContext(e, a, selected, "$language");
  }

  /** The browser cuts a zone name at 64 characters; what is left is a zone name unless it ends in a slash. */
  predicate ZoneKept(a: Agent) {
    a.zone.Some? && IsZone(a.zone.value, 3) && |a.zone.value| > 64 ==> a.zone.value[63] != '/'
  }

  lemma {:induction false} RunOfPrefix(s: string, n: nat)
    requires n <= |s|
    ensures ZoneRun(s[..n]) == if ZoneRun(s) <= n then ZoneRun(s) else n
  {
    if n > 0 && IsZoneChar(s[0]) {
      RunOfPrefix(s[1..], n - 1);
      assert s[..n][1..] == s[1..][..n - 1];
    }
  }

  lemma {:induction false} RunAt(s: string, i: nat)
    requires i < ZoneRun(s)
    ensures s[i] != '/'
  {
    if i > 0 { RunAt(s[1..], i - 1); }
  }

  /** A proper prefix of a zone name is one too, unless it is empty or ends in a slash. */
  lemma {:induction false} PrefixIsZone(s: string, n: nat, parts: nat)
    requires IsZone(s, parts) && 0 < n < |s|
    ensures IsZone(s[..n], parts) <==> s[n - 1] != '/'
    decreases parts
  {
    var k := ZoneRun(s);
    RunOfPrefix(s, n);
    if n <= k {
      RunAt(s, n - 1);
    } else {
      assert s[..n][k] == '/' && s[..n][k + 1..] == s[k + 1..][..n - k - 1];
      if n > k + 1 {
        PrefixIsZone(s[k + 1..], n - k - 1, parts - 1);
      } else {
        assert ZoneRun("") == 0;
      }
    }
  }

  lemma TimezoneAgreesIff(e: Event, a: Agent, selected: set<string>)
    requires Collected(e, a, selected)
    ensures TimezoneFits(Wire(e)) <==> ("$timezone" in selected ==> ZoneKept(a))
  {
    WireContext(e, a, selected, "$timezone");
    assert IsZone("unknown", 3) by { UnknownIsZone(); }
    if a.zone.Some? && IsZone(a.zone.value, 3) && |a.zone.value| > 64 {
      PrefixIsZone(a.zone.value, 64, 3);
    }
    hide Wire, Collected, IsZone;
    assert a.zone.Some? && IsZone(a.zone.value, 3) ==> |Cut(a.zone.value)| <= 64;
  }

  lemma {:induction false} RunOfZone(s: string)
    requires forall c :: c in s ==> IsZoneChar(c)
    ensures ZoneRun(s) == |s|
  {
    if s != "" {
      assert s[0] in s;
      RunOfZone(s[1..]);
    }
  }

  lemma UnknownIsZone()
    ensures IsZone("unknown", 3)
  {
    RunOfZone("unknown");
    hide ZoneRun;
  }

  lemma ReasonKnown(r: Reason)
    ensures ReasonText(r) in REASONS
  {
  }

  /** The counters of a snapshot are small enough. */
  predicate Countable(e: Event) {
    e.Engaged? ==> e.sequence <= MAX_SEQUENCE && e.interactions <= MAX_SEQUENCE
  }

  lemma EngagementAgreesIff(e: Event, viewed: Event, k: nat)
    requires k >= 1 && InPlace(viewed, e, k)
    ensures EngagementProblem(Wire(e)).None? <==> Countable(e)
  {
    var own := Own(e);
    WireOwn(e, "sequence");
    WireOwn(e, "foreground_ms");
    WireOwn(e, "elapsed_ms");
    WireOwn(e, "max_scroll_pct");
    WireOwn(e, "interaction_count");
    WireOwn(e, "reason");
    ReasonKnown(e.reason);
    hide Wire, ReasonText;
  }

  /** What a producer could check before sending. */
  predicate Acceptable(e: Event, a: Agent, selected: set<string>, vocabulary: set<string>) {
    && IsSafeRouteKey(e.who.route) && e.who.route in vocabulary
    && IsOpaqueId(e.page)
    && ("$timezone" in selected ==> ZoneKept(a))
    && Countable(e)
  }

  /** One emitted event is accepted exactly under these conditions. */
  lemma AcceptedIff(e: Event, a: Agent, selected: set<string>, vocabulary: set<string>, viewed: Event, k: nat)
    requires Collected(e, a, selected) && (e.Engaged? ==> k >= 1 && InPlace(viewed, e, k))
    ensures Validate(EventName(e), Wire(e), Some(e.who.session), Some(vocabulary)).None? <==> Acceptable(e, a, selected, vocabulary)
  {
    hide Wire, Collected, IsSafeRouteKey, IsOpaqueId, ZoneKept, Countable, TimezoneFits, LanguageFits, EnumsFit, EngagementProblem, IsAllowed;
    WireFixed(e, a, selected);
    forall key | key in Wire(e) ensures IsAllowed(EventName(e), key) {
      WireAllowed(e, a, selected, key);
    }
    EnumsAgree(e, a, selected);
    LanguageAgrees(e, a, selected);
    TimezoneAgreesIff(e, a, selected);
    if e.Engaged? {
      EngagementAgreesIff(e, viewed, k);
    } else {
      ViewedCountable(e);
    }
  }

  lemma ViewedCountable(e: Event)
    requires e.Viewed?
    ensures Countable(e)
  {
  }

  lemma {:induction false} InOwnLog(es: seq<Event>, i: nat)
    requires i < |es|
    ensures es[i] in PageLog(es, es[i].page)
    decreases |es|
  {
    if i < |es| - 1 {
      InOwnLog(es[..|es| - 1], i);
    }
  }

  /**
   * Every event the tracker emits, on any run, is accepted by the validator exactly if its route is
   * in the vocabulary, its page view id is opaque, its time zone survives the cut, and its counters
   * stay below 2^31.
   */
  lemma EmittedAcceptedIff(h: Host, steps: seq<(Step, View)>, i: nat, a: Agent, selected: set<string>, vocabulary: set<string>)
    requires SoundHost(h) && i < |Run(h, steps).emitted|
    requires Collected(Run(h, steps).emitted[i], a, selected)
    ensures var e := Run(h, steps).emitted[i];
            Validate(EventName(e), Wire(e), Some(e.who.session), Some(vocabulary)).None? <==> Acceptable(e, a, selected, vocabulary)
  {
    hide SoundHost, Run, Collected, Wire, Validate, Acceptable, InPlace, Within, PageLog;
    var e := Run(h, steps).emitted[i];
    SnapshotsFormChains(h, steps, e.page);
    InOwnLog(Run(h, steps).emitted, i);
    var log := PageLog(Run(h, steps).emitted, e.page);
    var k :| 0 <= k < |log| && log[k] == e;
    AcceptedIff(e, a, selected, vocabulary, log[0], k);
  }

  // ----- a zone that is cut badly -----

  function Letters(n: nat): (s: string)
    ensures |s| == n && forall i :: 0 <= i < n ==> s[i] == 'A'
  {
    if n == 0 then "" else ['A'] + Letters(n - 1)
  }

  lemma SlashEndsRun(s: string)
    requires s != "" && s[0] == '/'
    ensures ZoneRun(s) == 0
  {
  }

  lemma {:induction false} LettersZone(n: nat, rest: string)
    requires rest != "" && rest[0] == '/'
    ensures ZoneRun(Letters(n) + rest) == n
  {
    var zone := Letters(n) + rest;
    if n == 0 {
      assert zone == rest;
      SlashEndsRun(rest);
    } else {
      LettersZone(n - 1, rest);
      assert Letters(n) == ['A'] + Letters(n - 1);
      hide Letters;
      assert zone[0] == 'A' && zone[1..] == Letters(n - 1) + rest;
    }
  }

  /** A zone name of 65 characters whose 64th is a slash. */
  function LongZone(): string { Letters(63) + "/A" }

  function FarAway(): Agent { Agent(_ => false, "en", Some(LongZone()), 1280, 1280) }

  /** A page view by that agent, with only its time zone selected. */
  function FarView(): Event {
    Viewed("p1", Identity("u1", "s1", "home"), 0.0, Common(map[], OptionalContext(FarAway(), {"$timezone"})))
  }

  /** The browser would send such a zone, if it ever reported one, and the validator would refuse the page view for it. */
  lemma LongZoneRefused()
    ensures IsZone(LongZone(), 3)
    ensures Validate("page.viewed", Wire(FarView()), Some("s1"), Some({"home"})).Some?
  {
    var n := 63;
    LettersZone(n, "/A");
    var zone := Letters(n) + "/A";
    assert zone[n + 1..] == "A";
    assert IsZone("A", 2) by { assert ZoneRun("A") == 1 + ZoneRun(""); }
    assert zone[n] == '/';
    hide Letters, ZoneRun, ContextValue;
    var e := FarView();
    assert Collected(e, FarAway(), {"$timezone"});
    hide IsZone, Wire, Validate, Collected;
    AcceptedIff(e, FarAway(), {"$timezone"}, {"home"}, e, 0);
  }
}
