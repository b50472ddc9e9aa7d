/** `validateBrowserAnalyticsProperties` of src/services/browserAnalytics.ts, and what the browser sends it. */
module BrowserValidator {
  import opened Wrappers
  import opened Engagement

  datatype Prop = S(s: string) | N(n: int) | Null | Other

  type Properties = map<string, Prop>

  const MAX_SEQUENCE := 2_147_483_647

  // ----- expressions -----

  predicate IsLower(c: char) { 'a' <= c <= 'z' }
  predicate IsAlpha(c: char) { IsLower(c) || 'A' <= c <= 'Z' }
  predicate IsNumeral(c: char) { '0' <= c <= '9' }

  /** A lower-case letter and up to 99 letters, digits, underscores, points, colons or hyphens. */
  predicate IsSafeRouteKey(s: string) {
    1 <= |s| <= 100 && IsLower(s[0])
    && forall c :: c in s ==> IsLower(c) || IsNumeral(c) || c == '_' || c == '.' || c == ':' || c == '-'
  }

  predicate IsOpaqueId(s: string) {
    1 <= |s| <= 200 && (IsAlpha(s[0]) || IsNumeral(s[0]))
    && forall c :: c in s ==> IsAlpha(c) || IsNumeral(c) || c == '.' || c == '_' || c == ':' || c == '-'
  }

  predicate IsLanguage(s: string) {
    2 <= |s| <= 3 && forall c :: c in s ==> IsLower(c)
  }

  predicate IsZoneChar(c: char) { IsAlpha(c) || c == '_' || c == '+' || c == '-' }

  function ZoneRun(s: string): (n: nat)
    ensures n <= |s|
  {
    if s == "" || !IsZoneChar(s[0]) then 0 else 1 + ZoneRun(s[1..])
  }

  /** Up to `parts` non-empty parts between slashes. */
  predicate IsZone(s: string, parts: nat)
    decreases parts
  {
    var n := ZoneRun(s);
    parts > 0 && n > 0 && (n == |s| || (s[n] == '/' && IsZone(s[n + 1..], parts - 1)))
  }

  // ----- the validator -----

  const CONTEXT_ENUMS: map<string, set<string>> := map[
    "$browser_context" := {"1"},
    "$device_class" := {"desktop", "mobile", "tablet"},
    "$browser_family" := {"chrome", "safari", "firefox", "edge", "other"},
    "$os_family" := {"android", "ios", "macos", "windows", "linux", "other"},
    "$viewport_bucket" := {"xs", "sm", "md", "lg", "xl"},
    "$screen_bucket" := {"xs", "sm", "md", "lg", "xl"}]

  const ACQUISITION_KEYS := {"$utm_source", "$utm_medium", "$utm_campaign", "$utm_term", "$utm_content", "landing_route", "referrer_origin"}
  const CONTEXT_KEYS := {"$device_class", "$browser_family", "$os_family", "$language", "$timezone", "$viewport_bucket", "$screen_bucket"}
  const PAGE_KEYS := {"$browser_context", "$route_key", "$page_view_id", "$country"}
  const ENGAGEMENT_KEYS := {"sequence", "foreground_ms", "elapsed_ms", "max_scroll_pct", "interaction_count", "reason"}
  const REASONS := {"visibility_hidden", "blur", "route_change", "pagehide", "freeze", "duration_rollover", "destroy", "heartbeat"}

  datatype Problem =
    | ContextForbidden | Reserved | BadMarker | NoSession | UnsupportedKey | UnsafeRoute | UnknownRoute | BadPageView
    | BadContext | BadLanguage | BadTimezone | BadCounter | BadSequence | BadDuration | ForegroundTooLong | BadScroll | BadReason

  predicate IsCanonical(event: string) { event == "page.viewed" || event == "page.engagement" }

  predicate IsBrowserOnly(key: string) { key in PAGE_KEYS || key in CONTEXT_KEYS || key in ENGAGEMENT_KEYS }

  predicate IsAllowed(event: string, key: string) {
    key in PAGE_KEYS || key in CONTEXT_KEYS || key in ACQUISITION_KEYS || (event == "page.engagement" && key in ENGAGEMENT_KEYS)
  }

  predicate BoundedInteger(p: Properties, key: string, low: int, high: int) {
    key in p && p[key].N? && low <= p[key].n <= high
  }

  predicate EnumsFit(p: Properties) {
    forall key :: key in CONTEXT_ENUMS && key in p ==> p[key].S? && p[key].s in CONTEXT_ENUMS[key]
  }

  predicate LanguageFits(p: Properties) {
    "$language" in p ==> p["$language"].S? && (p["$language"].s == "unknown" || IsLanguage(p["$language"].s))
  }

  predicate TimezoneFits(p: Properties) {
    "$timezone" in p ==> p["$timezone"].S? && |p["$timezone"].s| <= 64
                         && (p["$timezone"].s == "unknown" || IsZone(p["$timezone"].s, 3))
  }

  predicate PageViewFits(p: Properties) {
    "$page_view_id" in p && p["$page_view_id"].S? && IsOpaqueId(p["$page_view_id"].s)
  }

  function EngagementProblem(p: Properties): Option<Problem> {
    if !BoundedInteger(p, "sequence", 0, MAX_SEQUENCE) || !BoundedInteger(p, "interaction_count", 0, MAX_SEQUENCE) then Some(BadCounter)
    else if p["sequence"].n < 1 then Some(BadSequence)
    else if !BoundedInteger(p, "foreground_ms", 0, MAX_PAGE_DURATION_MS) || !BoundedInteger(p, "elapsed_ms", 0, MAX_PAGE_DURATION_MS)
      then Some(BadDuration)
    else if p["foreground_ms"].n > p["elapsed_ms"].n then Some(ForegroundTooLong)
    else if !BoundedInteger(p, "max_scroll_pct", 0, 100) then Some(BadScroll)
    else if !("reason" in p && p["reason"].S? && p["reason"].s in REASONS) then Some(BadReason)
    else None
  }

  function CanonicalProblem(event: string, p: Properties, session: Option<string>, vocabulary: Option<set<string>>): Option<Problem> {
    if !("$browser_context" in p && p["$browser_context"] == S("1")) then Some(BadMarker)
    else if session.None? || session.value == "" then Some(NoSession)
    else if exists key :: key in p && !IsAllowed(event, key) then Some(UnsupportedKey)
    else if !("$route_key" in p && p["$route_key"].S? && IsSafeRouteKey(p["$route_key"].s)) then Some(UnsafeRoute)
    else if vocabulary.None? || p["$route_key"].s !in vocabulary.value then Some(UnknownRoute)
    else if !PageViewFits(p) then Some(BadPageView)
    else if !EnumsFit(p) then Some(BadContext)
    else if !LanguageFits(p) then Some(BadLanguage)
    else if !TimezoneFits(p) then Some(BadTimezone)
    else if event == "page.engagement" then EngagementProblem(p)
    else None
  }

  /** None when the event is accepted. */
  function Validate(event: string, p: Properties, session: Option<string>, vocabulary: Option<set<string>>): Option<Problem> {
    if event == "page.viewed" && "$browser_context" !in p then None
    else if "$browser_context" in p && !IsCanonical(event) then Some(ContextForbidden)
    else if !IsCanonical(event) then (if exists key :: key in p && IsBrowserOnly(key) then Some(Reserved) else None)
    else CanonicalProblem(event, p, session, vocabulary)
  }

  // ----- what the browser sends -----

  /** What the context is read from: tests of the user agent, the primary language code, the time zone, two widths. */
  datatype Agent = Agent(matches: string -> bool, language: string, zone: Option<string>, innerWidth: int, screenWidth: int)

  function DeviceClass(a: Agent): string {
    if a.matches("iPad|Tablet") || (a.matches("Android") && !a.matches("Mobile")) then "tablet"
    else if a.matches("Mobile|iPhone|iPod|Android") then "mobile"
    else "desktop"
  }

  function BrowserFamily(a: Agent): string {
    if a.matches("Edg/") then "edge"
    else if a.matches("Firefox/") then "firefox"
    else if a.matches("Chrome/") || a.matches("CriOS/") then "chrome"
    else if a.matches("Safari/") then "safari"
    else "other"
  }

  function OsFamily(a: Agent): string {
    if a.matches("Android") then "android"
    else if a.matches("iPhone|iPad|iPod") then "ios"
    else if a.matches("Mac OS X") then "macos"
    else if a.matches("Windows") then "windows"
    else if a.matches("Linux") then "linux"
    else "other"
  }

  function SizeBucket(width: int): string {
    if width < 480 then "xs" else if width < 768 then "sm" else if width < 1024 then "md" else if width < 1440 then "lg" else "xl"
  }

  function PrimaryLanguage(a: Agent): string { if IsLanguage(a.language) then a.language else "unknown" }

  function Cut(s: string): string { if |s| > 64 then s[..64] else s }

  /** The cut may end inside the name. */
  function Timezone(a: Agent): string {
    if a.zone.Some? && IsZone(a.zone.value, 3) then Cut(a.zone.value) else "unknown"
  }

  function ContextValue(a: Agent, key: string): string {
    if key == "$device_class" then DeviceClass(a)
    else if key == "$browser_family" then BrowserFamily(a)
    else if key == "$os_family" then OsFamily(a)
    else if key == "$language" then PrimaryLanguage(a)
    else if key == "$timezone" then Timezone(a)
    else if key == "$viewport_bucket" then SizeBucket(a.innerWidth)
    else SizeBucket(a.screenWidth)
  }

  /** `optionalContext`, for the selected properties. */
  function OptionalContext(a: Agent, selected: set<string>): map<string, string> {
    map key | key in CONTEXT_KEYS && key in selected :: ContextValue(a, key)
  }

  function Texts(m: map<string, string>): Properties {
    map key | key in m :: S(m[key])
  }

  function ReasonText(r: Reason): string {
    match r
    case Heartbeat => "heartbeat"
    case VisibilityHidden => "visibility_hidden"
    case Blur => "blur"
    case RouteChange => "route_change"
    case PageHide => "pagehide"
    case Freeze => "freeze"
    case DurationRollover => "duration_rollover"
    case Destroy => "destroy"
  }

  function EventName(e: Event): string {
    if e.Viewed? then "page.viewed" else "page.engagement"
  }

  function Own(e: Event): Properties {
    match e
    case Viewed(page, _, _, _) => map["$page_view_id" := S(page)]
    case Engaged(page, _, _, _, sequence, foreground, elapsed, scroll, interactions, reason) =>
      map["$page_view_id" := S(page), "sequence" := N(sequence), "foreground_ms" := N(foreground), "elapsed_ms" := N(elapsed),
          "max_scroll_pct" := N(scroll), "interaction_count" := N(interactions), "reason" := S(ReasonText(reason))]
  }

  /** The properties of an event, in the order in which later ones override earlier ones. */
  function Wire(e: Event): Properties {
    Texts(e.common.acquisition) + map["$browser_context" := S("1"), "$route_key" := S(e.who.route)]
    + Texts(e.common.context) + Own(e)
  }
}
