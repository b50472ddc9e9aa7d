/** `normalizeLegacyBrowserProperties` of src/services/browserAnalytics.ts: SDK 0.1 payloads are edited in place. */
module LegacyProperties {
  import opened Wrappers
  import opened Engagement
  import opened BrowserValidator

  const RAW_KEYS := {"$page_path", "landing_path", "path"}

  /** `a ?? b`: null counts as missing. */
  function Given(p: Properties, key: string): Option<Prop> {
    if key in p && p[key] != Null then Some(p[key]) else None
  }

  function OrElse(a: Option<Prop>, b: Option<Prop>): Option<Prop> {
    if a.Some? then a else b
  }

  function WithoutSlash(s: string): string {
    if s != "" && s[0] == '/' then s[1..] else s
  }

  /** `legacyRouteKey`: a trusted route, or the reviewed fallback, or nothing. */
  function LegacyRoute(value: Option<Prop>, vocabulary: set<string>): Option<string> {
    if value.Some? && value.value.S? && IsSafeRouteKey(WithoutSlash(value.value.s)) && WithoutSlash(value.value.s) in vocabulary
    then Some(WithoutSlash(value.value.s))
    else if "other" in vocabulary then Some("other")
    else None
  }

  predicate IsLegacy(p: Properties) { "$page_path" in p || "landing_path" in p }

  function RawPage(event: string, p: Properties): Option<Prop> {
    OrElse(OrElse(Given(p, "$page_path"), if event == "page.viewed" then Given(p, "path") else None), Given(p, "landing_path"))
  }

  function RawLanding(event: string, p: Properties): Option<Prop> {
    OrElse(Given(p, "landing_path"), RawPage(event, p))
  }

  /** The raw paths are gone, and the landing route is filled in when it can be. */
  function Landed(event: string, p: Properties, vocabulary: set<string>): Properties {
    var stripped := p - RAW_KEYS;
    var landing := LegacyRoute(OrElse(Given(stripped, "landing_route"), RawLanding(event, p)), vocabulary);
    if landing.Some? && "landing_route" !in stripped then stripped["landing_route" := S(landing.value)] else stripped
  }

  function PageRoute(event: string, p: Properties, vocabulary: set<string>): Option<string> {
    if IsCanonical(event) then LegacyRoute(OrElse(Given(p, "$route_key"), RawPage(event, p)), vocabulary) else None
  }

  function Promoted(p: Properties, route: string, digest: string): Properties {
    var marked := p["$browser_context" := S("1")]["$route_key" := S(route)];
    (if Given(p, "$page_view_id").Some? then marked else marked["$page_view_id" := S("legacy:" + digest)]) - {"$country"}
  }

  function WithoutBrowserKeys(p: Properties): Properties {
    map key | key in p && !IsBrowserOnly(key) :: p[key]
  }

  function Normalize(event: string, p: Properties, session: Option<string>, vocabulary: set<string>, digest: string): Properties {
    if !IsLegacy(p) then p
    else
      var landed := Landed(event, p, vocabulary);
      var route := PageRoute(event, p, vocabulary);
      if route.Some? && session.Some? && session.value != "" then Promoted(landed, route.value, digest) else WithoutBrowserKeys(landed)
  }

  /** `digest` is the hash of the session and the route; the result says whether anything was legacy. */
  method NormalizeLegacyBrowserProperties(event: string, p: Properties, session: Option<string>, vocabulary: set<string>, digest: string)
    returns (changed: bool, properties: Properties)
    ensures changed == IsLegacy(p) && properties == Normalize(event, p, session, vocabulary, digest)
  {
    hide IsCanonical, LegacyRoute, IsBrowserOnly;
    properties := p;
    if "$page_path" !in properties && "landing_path" !in properties { return false, properties; }
    var rawPage := RawPage(event, properties);
    var rawLanding := OrElse(Given(properties, "landing_path"), rawPage);
    properties := properties - RAW_KEYS;
    var landing := LegacyRoute(OrElse(Given(properties, "landing_route"), rawLanding), vocabulary);
    if landing.Some? && "landing_route" !in properties { properties := properties["landing_route" := S(landing.value)]; }
    assert properties == Landed(event, p, vocabulary);
    if IsCanonical(event) {
      var route := LegacyRoute(OrElse(Given(properties, "$route_key"), rawPage), vocabulary);
      assert Given(properties, "$route_key") == Given(p, "$route_key") by { RouteKeyKept(event, p, vocabulary); }
      if route.Some? && session.Some? && session.value != "" {
        return true, Promoted(properties, route.value, digest);
      }
    }
    return true, WithoutBrowserKeys(properties);
  }

  lemma RouteKeyKept(event: string, p: Properties, vocabulary: set<string>)
    ensures Given(Landed(event, p, vocabulary), "$route_key") == Given(p, "$route_key")
  {
    hide LegacyRoute, RawLanding;
  }

  /** Raw paths are never retained. */
  lemma NoRawPaths(event: string, p: Properties, session: Option<string>, vocabulary: set<string>, digest: string, key: string)
    requires IsLegacy(p) && key in RAW_KEYS
    ensures key !in Normalize(event, p, session, vocabulary, digest)
  {
    hide LegacyRoute, RawLanding, PageRoute, IsBrowserOnly;
    assert key !in Landed(event, p, vocabulary);
  }

  lemma LegacyRouteTrusted(value: Option<Prop>, vocabulary: set<string>)
    ensures LegacyRoute(value, vocabulary).Some? ==>
              IsSafeRouteKey(LegacyRoute(value, vocabulary).value) && LegacyRoute(value, vocabulary).value in vocabulary
  {
    assert IsSafeRouteKey("other");
  }

  /** Neither the marker, nor the session, nor the route. */
  predicate IsElsewhere(problem: Option<Problem>) {
    problem.Some? ==> !problem.value.BadMarker? && !problem.value.NoSession? && !problem.value.UnsafeRoute? && !problem.value.UnknownRoute?
  }

  lemma MarkedProblem(event: string, q: Properties, session: Option<string>, vocabulary: set<string>)
    requires "$browser_context" in q && q["$browser_context"] == S("1")
    requires "$route_key" in q && q["$route_key"].S? && IsSafeRouteKey(q["$route_key"].s) && q["$route_key"].s in vocabulary
    requires session.Some? && session.value != ""
    ensures IsElsewhere(CanonicalProblem(event, q, session, Some(vocabulary)))
  {
    hide IsSafeRouteKey, EnumsFit, LanguageFits, TimezoneFits, PageViewFits, IsAllowed;
  }

  /** A promoted event carries the marker and a trusted route: the validator can only object to something else. */
  lemma PromotedIsMarked(event: string, p: Properties, session: Option<string>, vocabulary: set<string>, digest: string)
    requires IsLegacy(p) && session.Some? && session.value != "" && PageRoute(event, p, vocabulary).Some?
    ensures IsElsewhere(Validate(event, Normalize(event, p, session, vocabulary, digest), session, Some(vocabulary)))
  {
    LegacyRouteTrusted(OrElse(Given(p, "$route_key"), RawPage(event, p)), vocabulary);
    hide IsSafeRouteKey, LegacyRoute, RawLanding, EngagementProblem, EnumsFit, LanguageFits, TimezoneFits, PageViewFits, IsAllowed, Landed;
    var q := Normalize(event, p, session, vocabulary, digest);
    var route := PageRoute(event, p, vocabulary).value;
    assert q == Promoted(Landed(event, p, vocabulary), route, digest);
    assert q["$browser_context"] == S("1") && q["$route_key"] == S(route);
    assert IsSafeRouteKey(route) && route in vocabulary && IsCanonical(event);
    hide Normalize, PageRoute, Promoted;
    MarkedProblem(event, q, session, vocabulary);
    assert Validate(event, q, session, Some(vocabulary)) == CanonicalProblem(event, q, session, Some(vocabulary));
  }

  /** A legacy event that is not promoted keeps no browser key: product events and plain page views are then accepted. */
  lemma UnpromotedIsNeutral(event: string, p: Properties, session: Option<string>, vocabulary: set<string>, digest: string, key: string)
    requires IsLegacy(p) && (session.None? || session.value == "" || PageRoute(event, p, vocabulary).None?)
    ensures IsBrowserOnly(key) ==> key !in Normalize(event, p, session, vocabulary, digest)
    ensures event != "page.engagement" ==> Validate(event, Normalize(event, p, session, vocabulary, digest), session, Some(vocabulary)).None?
  {
    hide PageRoute, Landed, EngagementProblem, CanonicalProblem;
    assert IsBrowserOnly("$browser_context");
  }

  predicate IsPromoted(event: string, p: Properties, session: Option<string>, vocabulary: set<string>) {
    session.Some? && session.value != "" && PageRoute(event, p, vocabulary).Some?
  }

  /**
   * What a legacy payload becomes: it keeps no raw path and is not edited again; promoted, the validator
   * can only object to something other than its marker, session and route; not promoted, it keeps no
   * browser key, and unless it is an engagement event the validator accepts it.
   */
  lemma NormalizedIsSafe(event: string, p: Properties, session: Option<string>, vocabulary: set<string>, digest: string, again: string)
    requires IsLegacy(p)
    ensures var q := Normalize(event, p, session, vocabulary, digest);
            && (forall key :: key in RAW_KEYS ==> key !in q)
            && Normalize(event, q, session, vocabulary, again) == q
            && (if IsPromoted(event, p, session, vocabulary) then IsElsewhere(Validate(event, q, session, Some(vocabulary)))
                else (forall key :: key in q ==> !IsBrowserOnly(key))
                     && (event != "page.engagement" ==> Validate(event, q, session, Some(vocabulary)).None?))
  {
    var q := Normalize(event, p, session, vocabulary, digest);
    forall key | key in RAW_KEYS ensures key !in q {
      NoRawPaths(event, p, session, vocabulary, digest, key);
    }
    assert "$page_path" !in q && "landing_path" !in q;
    assert !IsLegacy(q);
    if IsPromoted(event, p, session, vocabulary) {
      PromotedIsMarked(event, p, session, vocabulary, digest);
    } else {
      forall key | key in q ensures !IsBrowserOnly(key) {
        UnpromotedIsNeutral(event, p, session, vocabulary, digest, key);
      }
      UnpromotedIsNeutral(event, p, session, vocabulary, digest, "");
    }
    hide PageRoute, Landed, Validate, IsBrowserOnly, IsElsewhere;
  }
}
