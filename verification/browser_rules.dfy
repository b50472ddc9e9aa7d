/** Which browser events the validator accepts, what the browser writes, and what a legacy payload becomes, key by key. */
module BrowserRules {
  import opened Wrappers
  import opened Engagement
  import opened BrowserValidator
  import opened LegacyProperties

  // ----- texts -----

  const LETTERS := "abcdefghijklmnopqrstuvwxyz"
  const CAPITALS := "ABCDEFGHIJKLMNOPQRSTUVWXYZ"
  const DIGITS := "0123456789"

  predicate Over(s: string, alphabet: string) { forall i :: 0 <= i < |s| ==> s[i] in alphabet }

  /** A route key: a small letter, then up to 99 small letters, digits, `_`, `.`, `:` and `-`. */
  predicate IsRoute(s: string) {
    1 <= |s| <= 100 && s[0] in LETTERS && Over(s, LETTERS + DIGITS + "_.:-")
  }

  /** An opaque id: a letter or a digit, then up to 199 letters, digits, `.`, `_`, `:` and `-`. */
  predicate IsId(s: string) {
    1 <= |s| <= 200 && s[0] in LETTERS + CAPITALS + DIGITS && Over(s, LETTERS + CAPITALS + DIGITS + "._:-")
  }

  lemma LettersAre(c: char)
    ensures c in LETTERS <==> 'a' <= c <= 'z'
  {
  }

  lemma CapitalsAre(c: char)
    ensures c in CAPITALS <==> 'A' <= c <= 'Z'
  {
  }

  lemma DigitsAre(c: char)
    ensures c in DIGITS <==> '0' <= c <= '9'
  {
  }

  lemma RouteIff(s: string)
    ensures IsSafeRouteKey(s) <==> IsRoute(s)
  {
    forall c ensures (c in LETTERS <==> IsLower(c)) && (c in DIGITS <==> IsNumeral(c)) { LettersAre(c); DigitsAre(c); }
    forall c ensures c in LETTERS + DIGITS + "_.:-" <==> c in LETTERS || c in DIGITS || c == '_' || c == '.' || c == ':' || c == '-' {
      assert c in "_.:-" <==> c == '_' || c == '.' || c == ':' || c == '-';
    }
  }

  lemma IdIff(s: string)
    ensures IsOpaqueId(s) <==> IsId(s)
  {
    forall c ensures (c in LETTERS || c in CAPITALS <==> IsAlpha(c)) && (c in DIGITS <==> IsNumeral(c)) {
      LettersAre(c);
      CapitalsAre(c);
      DigitsAre(c);
    }
    forall c ensures c in LETTERS + CAPITALS + DIGITS + "._:-"
                <==> c in LETTERS || c in CAPITALS || c in DIGITS || c == '_' || c == '.' || c == ':' || c == '-'
    {
      assert c in "._:-" <==> c == '_' || c == '.' || c == ':' || c == '-';
    }
  }

  /** One part of a zone name: letters, `_`, `+` and `-`. */
  predicate IsZonePart(s: string) { s != "" && Over(s, LETTERS + CAPITALS + "_+-") }

  function Slashed(parts: seq<string>): string {
    if parts == [] then "" else if |parts| == 1 then parts[0] else parts[0] + "/" + Slashed(parts[1..])
  }

  /** One to `most` parts between slashes. */
  ghost predicate IsZoneName(s: string, most: nat) {
    exists parts :: IsParted(parts, s, most)
  }

  predicate IsParted(parts: seq<string>, s: string, most: nat) {
    1 <= |parts| <= most && Slashed(parts) == s && forall i :: 0 <= i < |parts| ==> IsZonePart(parts[i])
  }

  lemma ZoneCharIff(c: char)
    ensures c in LETTERS + CAPITALS + "_+-" <==> IsZoneChar(c)
  {
    LettersAre(c);
    CapitalsAre(c);
    assert c in "_+-" <==> c == '_' || c == '+' || c == '-';
    assert c in LETTERS + CAPITALS + "_+-" <==> c in LETTERS || c in CAPITALS || c in "_+-";
  }

  lemma {:induction false} RunIs(part: string, rest: string)
    requires IsZonePart(part) && (rest == "" || rest[0] == '/')
    ensures ZoneRun(part + rest) == |part|
    decreases |part|
  {
    hide IsZoneChar;
    ZoneCharIff(part[0]);
    assert (part + rest)[0] == part[0] && (part + rest)[1..] == part[1..] + rest;
    if |part| > 1 {
      RunIs(part[1..], rest);
    } else {
      assert part[1..] + rest == rest;
      if rest != "" { ZoneCharIff('/'); SlashApart(); }
    }
  }

  lemma SlashApart()
    ensures !IsZoneChar('/')
  {
  }

  lemma {:induction false} RunIsPart(s: string)
    ensures forall i :: 0 <= i < ZoneRun(s) ==> s[i] in LETTERS + CAPITALS + "_+-"
  {
    hide IsZoneChar;
    if s != "" && IsZoneChar(s[0]) {
      ZoneCharIff(s[0]);
      RunIsPart(s[1..]);
      forall i | 0 <= i < ZoneRun(s) ensures s[i] in LETTERS + CAPITALS + "_+-" {
        if i > 0 { assert s[i] == s[1..][i - 1]; }
      }
    }
  }

  lemma {:induction false} PartedIsZone(parts: seq<string>, s: string, most: nat)
    requires IsParted(parts, s, most)
    ensures IsZone(s, most)
    decreases |parts|
  {
    hide IsZonePart, ZoneRun;
    var first := parts[0];
    assert IsZonePart(first) && |first| > 0 by { PartNotEmpty(first); }
    if |parts| == 1 {
      RunIs(first, "");
      assert first + "" == s;
    } else {
      var rest := parts[1..];
      RunIs(first, "/" + Slashed(rest));
      assert s == first + ("/" + Slashed(rest));
      PartedIsZone(rest, Slashed(rest), most - 1);
      assert s[|first| + 1..] == Slashed(rest);
    }
  }

  lemma PartNotEmpty(s: string)
    requires IsZonePart(s)
    ensures |s| > 0
  {
  }

  lemma OnePart(s: string, most: nat)
    requires IsZonePart(s) && most >= 1
    ensures IsParted([s], s, most)
  {
  }

  lemma AnotherPart(first: string, rest: seq<string>, tail: string, most: nat)
    requires IsZonePart(first) && IsParted(rest, tail, most)
    ensures IsParted([first] + rest, first + "/" + tail, most + 1)
  {
    hide IsZonePart;
    assert ([first] + rest)[1..] == rest;
  }

  lemma RunPart(s: string)
    requires ZoneRun(s) > 0
    ensures IsZonePart(s[..ZoneRun(s)])
  {
    hide IsZoneChar;
    RunIsPart(s);
  }

  lemma {:induction false} ZoneIsParted(s: string, most: nat) returns (parts: seq<string>)
    requires IsZone(s, most)
    ensures IsParted(parts, s, most)
    decreases most
  {
    hide ZoneRun, IsParted, IsZonePart;
    var n := ZoneRun(s);
    RunPart(s);
    if n == |s| {
      assert s[..n] == s;
      OnePart(s, most);
      parts := [s];
    } else {
      var rest := ZoneIsParted(s[n + 1..], most - 1);
      AnotherPart(s[..n], rest, s[n + 1..], most - 1);
      parts := [s[..n]] + rest;
      assert s == s[..n] + "/" + s[n + 1..];
    }
  }

  lemma ZoneIff(s: string, most: nat)
    ensures IsZone(s, most) <==> IsZoneName(s, most)
  {
    hide IsZone, IsParted;
    if IsZone(s, most) { var parts := ZoneIsParted(s, most); }
    if parts :| IsParted(parts, s, most) { PartedIsZone(parts, s, most); }
  }

  lemma LanguageIff(s: string)
    ensures IsLanguage(s) <==> 2 <= |s| <= 3 && Over(s, LETTERS)
  {
    forall c ensures c in LETTERS <==> IsLower(c) { LettersAre(c); }
    hide IsLower;
  }

  // ----- what the validator accepts -----

  predicate IsText(p: Properties, key: string) { key in p && p[key].S? }

  predicate IsCount(p: Properties, key: string, low: int, high: int) { key in p && p[key].N? && low <= p[key].n <= high }

  /** One of these texts, or nothing at all. */
  predicate IsOneOf(p: Properties, key: string, texts: set<string>) { key in p ==> p[key].S? && p[key].s in texts }

  ghost predicate IsContext(p: Properties) {
    && IsOneOf(p, "$browser_context", {"1"}) && IsOneOf(p, "$device_class", {"desktop", "mobile", "tablet"})
    && IsOneOf(p, "$browser_family", {"chrome", "safari", "firefox", "edge", "other"})
    && IsOneOf(p, "$os_family", {"android", "ios", "macos", "windows", "linux", "other"})
    && IsOneOf(p, "$viewport_bucket", {"xs", "sm", "md", "lg", "xl"}) && IsOneOf(p, "$screen_bucket", {"xs", "sm", "md", "lg", "xl"})
    && ("$language" in p ==> p["$language"].S? && (p["$language"].s == "unknown" || (2 <= |p["$language"].s| <= 3 && Over(p["$language"].s, LETTERS))))
    && ("$timezone" in p ==>
          p["$timezone"].S? && |p["$timezone"].s| <= 64 && (p["$timezone"].s == "unknown" || IsZoneName(p["$timezone"].s, 3)))
  }

  predicate IsEngagement(p: Properties) {
    && IsCount(p, "sequence", 1, 2_147_483_647) && IsCount(p, "interaction_count", 0, 2_147_483_647)
    && IsCount(p, "foreground_ms", 0, 604_800_000) && IsCount(p, "elapsed_ms", 0, 604_800_000)
    && p["foreground_ms"].n <= p["elapsed_ms"].n && IsCount(p, "max_scroll_pct", 0, 100)
    && "reason" in p && p["reason"].S?
    && p["reason"].s in {"visibility_hidden", "blur", "route_change", "pagehide", "freeze", "duration_rollover", "destroy", "heartbeat"}
  }

  const MARKS := {"$browser_context", "$route_key", "$page_view_id", "$country"}
  const CONTEXTS := {"$device_class", "$browser_family", "$os_family", "$language", "$timezone", "$viewport_bucket", "$screen_bucket"}
  const SOURCES := {"$utm_source", "$utm_medium", "$utm_campaign", "$utm_term", "$utm_content", "landing_route", "referrer_origin"}
  const COUNTS := {"sequence", "foreground_ms", "elapsed_ms", "max_scroll_pct", "interaction_count", "reason"}

  /** A page view or an engagement event that is accepted. */
  ghost predicate IsPageEvent(event: string, p: Properties, session: Option<string>, vocabulary: Option<set<string>>) {
    && "$browser_context" in p && p["$browser_context"] == S("1") && session.Some? && session.value != ""
    && (forall key :: key in p ==> key in MARKS || key in CONTEXTS || key in SOURCES || (event == "page.engagement" && key in COUNTS))
    && IsText(p, "$route_key") && IsRoute(p["$route_key"].s) && vocabulary.Some? && p["$route_key"].s in vocabulary.value
    && IsText(p, "$page_view_id") && IsId(p["$page_view_id"].s)
    && IsContext(p) && (event == "page.engagement" ==> IsEngagement(p))
  }

  lemma EnumsIff(p: Properties)
    ensures EnumsFit(p) <==>
              && IsOneOf(p, "$browser_context", {"1"}) && IsOneOf(p, "$device_class", {"desktop", "mobile", "tablet"})
              && IsOneOf(p, "$browser_family", {"chrome", "safari", "firefox", "edge", "other"})
              && IsOneOf(p, "$os_family", {"android", "ios", "macos", "windows", "linux", "other"})
              && IsOneOf(p, "$viewport_bucket", {"xs", "sm", "md", "lg", "xl"}) && IsOneOf(p, "$screen_bucket", {"xs", "sm", "md", "lg", "xl"})
  {
    if EnumsFit(p) {
      assert "$browser_context" in CONTEXT_ENUMS && "$device_class" in CONTEXT_ENUMS && "$browser_family" in CONTEXT_ENUMS;
      assert "$os_family" in CONTEXT_ENUMS && "$viewport_bucket" in CONTEXT_ENUMS && "$screen_bucket" in CONTEXT_ENUMS;
    }
  }

  lemma ContextIff(p: Properties)
    ensures EnumsFit(p) && LanguageFits(p) && TimezoneFits(p) <==> IsContext(p)
  {
    EnumsIff(p);
    if "$language" in p && p["$language"].S? { LanguageIff(p["$language"].s); }
    if "$timezone" in p && p["$timezone"].S? { ZoneIff(p["$timezone"].s, 3); }
    hide EnumsFit, IsOneOf, IsZone, IsZoneName, IsLanguage, Over;
  }

  lemma EngagementIff(p: Properties)
    ensures EngagementProblem(p).None? <==> IsEngagement(p)
  {
  }

  lemma PageEventIff(event: string, p: Properties, session: Option<string>, vocabulary: Option<set<string>>)
    requires event == "page.viewed" || event == "page.engagement"
    ensures CanonicalProblem(event, p, session, vocabulary).None? <==> IsPageEvent(event, p, session, vocabulary)
  {
    ContextIff(p);
    EngagementIff(p);
    if IsText(p, "$route_key") { RouteIff(p["$route_key"].s); }
    if IsText(p, "$page_view_id") { IdIff(p["$page_view_id"].s); }
    hide EnumsFit, LanguageFits, TimezoneFits, IsContext, EngagementProblem, IsEngagement, IsSafeRouteKey, IsRoute, IsOpaqueId, IsId;
    assert forall key :: IsAllowed(event, key) <==> key in MARKS || key in CONTEXTS || key in SOURCES || (event == "page.engagement" && key in COUNTS);
  }

  /** Which events are accepted: page views of no browser SDK, product events without browser keys, and page events. */
  lemma ValidIff(event: string, p: Properties, session: Option<string>, vocabulary: Option<set<string>>)
    ensures Validate(event, p, session, vocabulary).None? <==>
              if event == "page.viewed" && "$browser_context" !in p then true
              else if event == "page.viewed" || event == "page.engagement" then IsPageEvent(event, p, session, vocabulary)
              else forall key :: key in p ==> key !in MARKS && key !in CONTEXTS && key !in COUNTS
  {
    if event == "page.viewed" || event == "page.engagement" { PageEventIff(event, p, session, vocabulary); }
    hide CanonicalProblem, IsPageEvent;
  }

  // ----- what the browser writes -----

  lemma SizeIff(width: int, size: string)
    ensures SizeBucket(width) == size <==>
              || (size == "xs" && width < 480) || (size == "sm" && 480 <= width < 768) || (size == "md" && 768 <= width < 1024)
              || (size == "lg" && 1024 <= width < 1440) || (size == "xl" && 1440 <= width)
  {
  }

  /** The device, the browser and the system, by what the user agent names. */
  lemma AgentIs(a: Agent)
    ensures var tablet := a.matches("iPad|Tablet") || (a.matches("Android") && !a.matches("Mobile"));
            && (DeviceClass(a) == "tablet" <==> tablet)
            && (DeviceClass(a) == "mobile" <==> !tablet && a.matches("Mobile|iPhone|iPod|Android"))
            && (DeviceClass(a) == "desktop" <==> !tablet && !a.matches("Mobile|iPhone|iPod|Android"))
    ensures var chrome := a.matches("Chrome/") || a.matches("CriOS/");
            && (BrowserFamily(a) == "edge" <==> a.matches("Edg/"))
            && (BrowserFamily(a) == "firefox" <==> a.matches("Firefox/") && !a.matches("Edg/"))
            && (BrowserFamily(a) == "chrome" <==> chrome && !a.matches("Edg/") && !a.matches("Firefox/"))
            && (BrowserFamily(a) == "safari" <==> a.matches("Safari/") && !chrome && !a.matches("Edg/") && !a.matches("Firefox/"))
    ensures var apple := a.matches("iPhone|iPad|iPod");
            && (OsFamily(a) == "android" <==> a.matches("Android")) && (OsFamily(a) == "ios" <==> apple && !a.matches("Android"))
            && (OsFamily(a) == "macos" <==> a.matches("Mac OS X") && !apple && !a.matches("Android"))
            && (OsFamily(a) == "windows" <==> a.matches("Windows") && !a.matches("Mac OS X") && !apple && !a.matches("Android"))
            && (OsFamily(a) == "linux" <==>
                  a.matches("Linux") && !a.matches("Windows") && !a.matches("Mac OS X") && !apple && !a.matches("Android"))
  {
  }

  /** A language is named if it is a primary code, and a time zone if it is a zone name, of which 64 characters are written. */
  lemma PlaceIs(a: Agent)
    ensures PrimaryLanguage(a) == if 2 <= |a.language| <= 3 && Over(a.language, LETTERS) then a.language else "unknown"
    ensures a.zone.Some? && IsZoneName(a.zone.value, 3) ==>
              Timezone(a) == if |a.zone.value| <= 64 then a.zone.value else a.zone.value[..64]
    ensures a.zone.None? || !IsZoneName(a.zone.value, 3) ==> Timezone(a) == "unknown"
  {
    LanguageIff(a.language);
    if a.zone.Some? { ZoneIff(a.zone.value, 3); }
    hide IsZone, IsZoneName, IsLanguage, Over;
  }

  /** The selected context properties, each with its own value. */
  lemma SelectedContext(a: Agent, selected: set<string>, key: string)
    ensures key in OptionalContext(a, selected) <==> key in selected && key in CONTEXTS
    ensures key in OptionalContext(a, selected) ==>
              OptionalContext(a, selected)[key] ==
              match key
              case "$device_class" => DeviceClass(a)
              case "$browser_family" => BrowserFamily(a)
              case "$os_family" => OsFamily(a)
              case "$language" => PrimaryLanguage(a)
              case "$timezone" => Timezone(a)
              case "$viewport_bucket" => SizeBucket(a.innerWidth)
              case _ => SizeBucket(a.screenWidth)
  {
    hide DeviceClass, BrowserFamily, OsFamily, PrimaryLanguage, Timezone, SizeBucket;
  }

  /** An engagement event carries its page and its six counts; a page view only its page. */
  lemma OwnIs(e: Event, key: string)
    ensures e.Viewed? ==> (key in Own(e) <==> key == "$page_view_id")
    ensures e.Engaged? ==> (key in Own(e) <==> key == "$page_view_id" || key in COUNTS)
    ensures Own(e)["$page_view_id"] == S(e.page)
    ensures e.Engaged? ==>
              && Own(e)["sequence"] == N(e.sequence) && Own(e)["foreground_ms"] == N(e.foregroundMs)
              && Own(e)["elapsed_ms"] == N(e.elapsedMs) && Own(e)["max_scroll_pct"] == N(e.maxScrollPct)
              && Own(e)["interaction_count"] == N(e.interactions) && Own(e)["reason"] == S(ReasonText(e.reason))
  {
    hide ReasonText;
  }

  lemma ReasonIs(r: Reason)
    ensures ReasonText(r) == match r
                             case Heartbeat => "heartbeat"
                             case VisibilityHidden => "visibility_hidden"
                             case Blur => "blur"
                             case RouteChange => "route_change"
                             case PageHide => "pagehide"
                             case Freeze => "freeze"
                             case DurationRollover => "duration_rollover"
                             case Destroy => "destroy"
  {
  }

  /** What an event says under a key: its own, else its context, else the marker or its route, else where it came from. */
  lemma WireIs(e: Event, key: string)
    ensures key in Wire(e) <==>
              key in Own(e) || key in e.common.context || key == "$browser_context" || key == "$route_key" || key in e.common.acquisition
    ensures key in Wire(e) ==>
              Wire(e)[key] ==
              if key in Own(e) then Own(e)[key]
              else if key in e.common.context then S(e.common.context[key])
              else if key == "$browser_context" then S("1")
              else if key == "$route_key" then S(e.who.route)
              else S(e.common.acquisition[key])
  {
    hide Own;
  }

  // ----- legacy payloads -----

  /** The first of these keys that holds something. */
  predicate IsFirst(p: Properties, keys: seq<string>, v: Option<Prop>)
    decreases |keys|
  {
    if keys == [] then v.None?
    else if keys[0] in p && p[keys[0]] != Null then v == Some(p[keys[0]])
    else IsFirst(p, keys[1..], v)
  }

  /** Where a legacy page says it is: its page path, the path of a page view, else where the visit landed. */
  function PageKeys(event: string): seq<string> {
    if event == "page.viewed" then ["$page_path", "path", "landing_path"] else ["$page_path", "landing_path"]
  }

  lemma RawPageIs(event: string, p: Properties)
    ensures IsFirst(p, PageKeys(event), RawPage(event, p))
  {
    var keys := PageKeys(event);
    assert keys[1..] == if event == "page.viewed" then ["path", "landing_path"] else ["landing_path"];
    assert ["path", "landing_path"][1..] == ["landing_path"] && ["landing_path"][1..] == [];
  }

  lemma RawLandingIs(event: string, p: Properties)
    ensures IsFirst(p, ["landing_path"] + PageKeys(event), RawLanding(event, p))
  {
    RawPageIs(event, p);
    hide RawPage;
    assert (["landing_path"] + PageKeys(event))[1..] == PageKeys(event);
  }

  /** A text, without one leading slash, that is a trusted route; else the route `other`, if it is trusted; else none. */
  lemma LegacyRouteIff(value: Option<Prop>, vocabulary: set<string>, route: string)
    ensures LegacyRoute(value, vocabulary) == Some(route) <==>
              if exists r :: Names(value, r) && IsRoute(r) && r in vocabulary then Names(value, route) else route == "other" && "other" in vocabulary
    ensures LegacyRoute(value, vocabulary).None? <==>
              "other" !in vocabulary && forall r :: Names(value, r) ==> !(IsRoute(r) && r in vocabulary)
  {
    if value.Some? && value.value.S? {
      RouteIff(WithoutSlash(value.value.s));
      forall r ensures Names(value, r) <==> r == WithoutSlash(value.value.s) { NamesIff(value.value.s, r); }
    }
    hide IsSafeRouteKey, IsRoute, WithoutSlash;
  }

  /** The value is the text `r`, after a slash or not. */
  predicate Names(value: Option<Prop>, r: string) {
    value.Some? && value.value.S? && (value.value.s == "/" + r || (value.value.s == r && (r == "" || r[0] != '/')))
  }

  lemma NamesIff(s: string, r: string)
    ensures Names(Some(S(s)), r) <==> r == WithoutSlash(s)
  {
    if s != "" && s[0] == '/' { assert s == "/" + s[1..]; }
    assert ("/" + r)[1..] == r;
  }

  /** The landing route of a legacy payload: the one it has, or the trusted route of where the visit landed. */
  predicate HasLanding(event: string, p: Properties, vocabulary: set<string>, v: Option<Prop>) {
    if "landing_route" in p then v == Some(p["landing_route"])
    else var route := LegacyRoute(RawLanding(event, p), vocabulary); v == if route.Some? then Some(S(route.value)) else None
  }

  /** A legacy payload of a page event with a session and a route, and any other one, key by key. */
  lemma NormalizedIs(event: string, p: Properties, session: Option<string>, vocabulary: set<string>, digest: string, key: string)
    requires IsLegacy(p) && key !in {"$page_path", "landing_path", "path"}
    ensures var q := Normalize(event, p, session, vocabulary, digest);
            var v := if key in q then Some(q[key]) else None;
            var kept := if key in p then Some(p[key]) else None;
            var route := LegacyRoute(OrElse(Given(p, "$route_key"), RawPage(event, p)), vocabulary);
            if (event == "page.viewed" || event == "page.engagement") && route.Some? && session.Some? && session.value != "" then
              match key
              case "$browser_context" => v == Some(S("1"))
              case "$route_key" => v == Some(S(route.value))
              case "$page_view_id" => v == if key in p && p[key] != Null then kept else Some(S("legacy:" + digest))
              case "$country" => v.None?
              case "landing_route" => HasLanding(event, p, vocabulary, v)
              case _ => v == kept
            else if key in MARKS || key in CONTEXTS || key in COUNTS then v.None?
            else if key == "landing_route" then HasLanding(event, p, vocabulary, v)
            else v == kept
  {
    hide LegacyRoute, RawLanding, RawPage;
  }

  /** Only a payload with a legacy path is edited. */
  lemma LegacyIff(event: string, p: Properties, session: Option<string>, vocabulary: set<string>, digest: string)
    ensures Normalize(event, p, session, vocabulary, digest) != p <==> "$page_path" in p || "landing_path" in p
  {
    hide LegacyRoute, RawLanding, RawPage, IsBrowserOnly, IsCanonical;
    if IsLegacy(p) {
      NoRawPaths(event, p, session, vocabulary, digest, "$page_path");
      NoRawPaths(event, p, session, vocabulary, digest, "landing_path");
      hide Normalize;
    }
  }
}
