/** The card record of the digital business card service: its shape, the
    schema rules a save enforces, the derived public URLs, the per-tier
    capability lists, the SEO defaults applied before every save and the
    analytics accumulator (backend/src/models/appModels/Card.js). */
module CardModel {

  datatype Option<+T> = None | Some(value: T) {
    function GetOr(default: T): T {
      if Some? then value else default
    }
  }

  /** The outcome kinds the card engine reports to its caller. */
  datatype Rejection =
    | TierLimitExceeded(limit: int, count: nat)
    | ValidationError
    | SlugConflict
    | NotFound
    | PasswordRequired
    | InvalidAnalyticsType
    | ServerError

  datatype Outcome<+T> = Ok(value: T) | Rejected(reason: Rejection)

  type OwnerId = nat
  type CardId = nat

  // ---------------------------------------------------------------------
  // Tiers
  // ---------------------------------------------------------------------

  datatype Tier = Free | Pro | Agency

  function TierName(t: Tier): string {
    match t
    case Free => "Free"
    case Pro => "Pro"
    case Agency => "Agency"
  }

  /** The schema's tier enum: a tier name outside it fails validation. */
  function ParseTier(name: string): (r: Option<Tier>)
    ensures r.Some? <==> name in {"Free", "Pro", "Agency"}
    ensures r.Some? ==> TierName(r.value) == name
  {
    if name == "Free" then Some(Free)
    else if name == "Pro" then Some(Pro)
    else if name == "Agency" then Some(Agency)
    else None
  }

  lemma ParseTierName(t: Tier)
    ensures ParseTier(TierName(t)) == Some(t)
  {
  }

  // ---------------------------------------------------------------------
  // The record
  // ---------------------------------------------------------------------

  datatype Branding = Branding(
    logoUrl: string,
    primaryColor: string,
    secondaryColor: string,
    font: string,
    hidePoweredBy: bool)

  datatype Content = Content(
    name: string,
    title: string,
    company: string,
    bio: string,
    avatar: string,
    coverImage: string)

  datatype Address = Address(
    street: string,
    city: string,
    state: string,
    country: string,
    zipCode: string)

  /** Coordinates are whole degrees here; None stands for null or unset. */
  datatype Contact = Contact(
    phone: string,
    email: string,
    website: string,
    address: Address,
    latitude: Option<int>,
    longitude: Option<int>)

  datatype SocialLink = SocialLink(platform: string, url: string, icon: string, order: int)

  datatype QrStyle = QrStyle(
    foregroundColor: string,
    backgroundColor: string,
    logo: string,
    errorCorrectionLevel: string)

  datatype PasswordProtection = PasswordProtection(enabled: bool, password: string)

  datatype Features = Features(
    qrStyle: QrStyle,
    passwordProtection: PasswordProtection,
    hideBranding: bool,
    metaTitle: string,
    metaDescription: string)

  datatype ViewEntry = ViewEntry(
    timestamp: nat,
    ipAddress: string,
    userAgent: string,
    country: string,
    city: string)

  datatype Analytics = Analytics(
    totalViews: nat,
    uniqueVisits: nat,
    vcfDownloads: nat,
    linkClicks: nat,
    lastViewed: Option<nat>,
    viewHistory: seq<ViewEntry>)

  /** One stored card. Every string field uses "" for an unset value. */
  datatype Card = Card(
    id: CardId,
    owner: OwnerId,
    removed: bool,
    enabled: bool,
    tier: Tier,
    slug: string,
    branding: Branding,
    content: Content,
    contact: Contact,
    socials: seq<SocialLink>,
    features: Features,
    analytics: Analytics,
    createdAt: nat)

  /** The schema defaults of the top-level sub-documents. */
  const DefaultBranding := Branding("", "#1890ff", "#52c41a", "Inter", false)
  const DefaultContent := Content("", "", "", "", "", "")
  const DefaultContact := Contact("", "", "", Address("", "", "", "", ""), None, None)
  const DefaultFeatures :=
    Features(QrStyle("#000000", "#ffffff", "", "M"), PasswordProtection(false, ""), false, "", "")
  const FreshAnalytics := Analytics(0, 0, 0, 0, None, [])

  // ---------------------------------------------------------------------
  // Schema validation run by every save
  // ---------------------------------------------------------------------

  predicate IsSlugChar(ch: char) {
    'a' <= ch <= 'z' || '0' <= ch <= '9' || ch == '-'
  }

  /** The slug's `required` and `match: /^[a-z0-9-]+$/` validators. */
  predicate SlugPattern(s: string) {
    |s| > 0 && forall k :: 0 <= k < |s| ==> IsSlugChar(s[k])
  }

  const Platforms: set<string> := {
    "LinkedIn", "Twitter", "Facebook", "Instagram", "WhatsApp", "Telegram",
    "YouTube", "TikTok", "GitHub", "Behance", "Dribbble", "Custom"
  }

  /** A social entry passes the platform enum and the required url. */
  predicate SocialValid(s: SocialLink) {
    s.platform in Platforms && s.url != ""
  }

  /** The validators of the schema that this model keeps: the slug pattern,
      the required display name, and the social entries' platform enum and
      required url. (The tier enum is kept by the type Tier.) */
  predicate SchemaValid(c: Card) {
    && SlugPattern(c.slug)
    && c.content.name != ""
    && forall k :: 0 <= k < |c.socials| ==> SocialValid(c.socials[k])
  }

  // ---------------------------------------------------------------------
  // Derived URLs
  // ---------------------------------------------------------------------

  const FallbackBaseUrl := "https://procard.com"

  /** The configured application URL, or the fallback when it is unset. */
  function BaseUrl(appUrl: string): (r: string)
    ensures r != ""
    ensures appUrl != "" ==> r == appUrl
  {
    if appUrl == "" then FallbackBaseUrl else appUrl
  }

  function PublicUrl(appUrl: string, slug: string): string {
    BaseUrl(appUrl) + "/v/" + slug
  }

  function QrCodeUrl(appUrl: string, slug: string): string {
    BaseUrl(appUrl) + "/api/cards/" + slug + "/qr"
  }

  function VcfUrl(appUrl: string, slug: string): string {
    BaseUrl(appUrl) + "/api/cards/" + slug + "/vcf"
  }

  /** Distinct slugs give distinct public URLs, so slug uniqueness in the
      store makes every card's public address unique. */
  lemma PublicUrlInjective(appUrl: string, s: string, t: string)
    requires PublicUrl(appUrl, s) == PublicUrl(appUrl, t)
    ensures s == t
  {
    var n := |BaseUrl(appUrl) + "/v/"|;
    assert s == PublicUrl(appUrl, s)[n..];
    assert t == PublicUrl(appUrl, t)[n..];
  }

  /** The three derived addresses never coincide, whatever the slugs. */
  lemma DerivedUrlsDistinct(appUrl: string, s: string, t: string)
    ensures PublicUrl(appUrl, s) != QrCodeUrl(appUrl, t)
    ensures PublicUrl(appUrl, s) != VcfUrl(appUrl, t)
    ensures QrCodeUrl(appUrl, s) != VcfUrl(appUrl, t)
  {
    var b := BaseUrl(appUrl);
    var n := |b|;
    assert PublicUrl(appUrl, s)[n + 1] == 'v';
    assert QrCodeUrl(appUrl, t)[n + 1] == 'a';
    assert VcfUrl(appUrl, t)[n + 1] == 'a';
    var q := QrCodeUrl(appUrl, s);
    var v := VcfUrl(appUrl, t);
    assert q[|q| - 1] == 'r';
    assert v[|v| - 1] == 'f';
  }

  // ---------------------------------------------------------------------
  // Per-tier capabilities
  // ---------------------------------------------------------------------

  /** The literal capability list of each tier name; none for other names. */
  function TierFeatures(tierName: string): Option<seq<string>> {
    if tierName == "Free" then Some(["basic_qr", "basic_analytics", "max_socials_5"])
    else if tierName == "Pro" then
      Some(["custom_qr", "advanced_analytics", "unlimited_socials", "password_protection", "custom_domain"])
    else if tierName == "Agency" then
      Some(["all_pro_features", "white_labeling", "hide_branding", "bulk_management"])
    else None
  }

  /** A card's capability check, given the name of the card's tier. */
  function HasFeature(tierName: string, feature: string): (r: bool)
    ensures r ==> ParseTier(tierName).Some?
  {
    var features := TierFeatures(tierName);
    features.Some? && feature in features.value
  }

  /** The lists are not cumulative: a higher tier lacks the lower tiers'
      tags, and no tag belongs to two tiers. */
  lemma FeaturesNotCumulative(t1: string, t2: string, feature: string)
    requires HasFeature(t1, feature) && HasFeature(t2, feature)
    ensures t1 == t2
  {
  }

  lemma ProLacksBasicQr()
    ensures HasFeature("Free", "basic_qr")
    ensures !HasFeature("Pro", "basic_qr")
    ensures !HasFeature("Agency", "custom_qr")
    ensures HasFeature("Agency", "hide_branding") && !HasFeature("Pro", "hide_branding")
  {
  }

  // ---------------------------------------------------------------------
  // SEO defaults applied before every save
  // ---------------------------------------------------------------------

  predicate SeoComplete(c: Card) {
    c.features.metaTitle != "" && c.features.metaDescription != ""
  }

  function DefaultMetaTitle(c: Content): string {
    c.name + " - " + (if c.title != "" then c.title else "Digital Business Card")
  }

  function DefaultMetaDescription(c: Content): string {
    if c.bio != "" then c.bio else "Connect with " + c.name
  }

  /** The pre-save hook: an empty meta title or description is derived from
      the content; a non-empty one is kept; nothing else changes. */
  function WithSeoDefaults(c: Card): (r: Card)
    ensures SeoComplete(r)
    ensures c.features.metaTitle != "" ==> r.features.metaTitle == c.features.metaTitle
    ensures c.features.metaDescription != "" ==> r.features.metaDescription == c.features.metaDescription
    ensures r == c.(features := c.features.(metaTitle := r.features.metaTitle,
                                             metaDescription := r.features.metaDescription))
  {
    var title := if c.features.metaTitle == "" then DefaultMetaTitle(c.content) else c.features.metaTitle;
    var description :=
      if c.features.metaDescription == "" then DefaultMetaDescription(c.content) else c.features.metaDescription;
    c.(features := c.features.(metaTitle := title, metaDescription := description))
  }

  /** Running the hook again changes nothing. */
  lemma SeoDefaultsIdempotent(c: Card)
    ensures WithSeoDefaults(WithSeoDefaults(c)) == WithSeoDefaults(c)
  {
  }

  /** The derived values: "{name} - {title or 'Digital Business Card'}" and
      "{bio}" or "Connect with {name}". */
  lemma SeoDefaultValues(c: Card)
    ensures c.features.metaTitle == "" ==>
      WithSeoDefaults(c).features.metaTitle == c.content.name + " - " +
        (if c.content.title != "" then c.content.title else "Digital Business Card")
    ensures c.features.metaDescription == "" ==>
      WithSeoDefaults(c).features.metaDescription ==
        (if c.content.bio != "" then c.content.bio else "Connect with " + c.content.name)
  {
  }

  // ---------------------------------------------------------------------
  // Analytics accumulator
  // ---------------------------------------------------------------------

  const HistoryCap: nat := 1000

  datatype Metric = TotalViews | UniqueVisits | VcfDownloads | LinkClicks

  function Counter(a: Analytics, m: Metric): nat {
    match m
    case TotalViews => a.totalViews
    case UniqueVisits => a.uniqueVisits
    case VcfDownloads => a.vcfDownloads
    case LinkClicks => a.linkClicks
  }

  /** What a caller passes along with an increment; an unset timestamp
      becomes the current instant. */
  datatype VisitDetails = VisitDetails(
    timestamp: Option<nat>,
    ipAddress: string,
    userAgent: string,
    country: string,
    city: string)

  const NoDetails := VisitDetails(None, "", "", "", "")

  function HistoryEntry(d: VisitDetails, now: nat): ViewEntry {
    ViewEntry(d.timestamp.GetOr(now), d.ipAddress, d.userAgent, d.country, d.city)
  }

  /** incrementAnalytics on the analytics sub-document, at instant `now`. */
  function Incremented(a: Analytics, m: Metric, d: VisitDetails, now: nat): (r: Analytics)
    ensures Counter(r, m) == Counter(a, m) + 1
    ensures forall other :: other != m ==> Counter(r, other) == Counter(a, other)
    ensures r.lastViewed == Some(now)
    ensures |r.viewHistory| == |a.viewHistory| + (if m == TotalViews && |a.viewHistory| < HistoryCap then 1 else 0)
    ensures r.viewHistory[..|a.viewHistory|] == a.viewHistory
    ensures |r.viewHistory| > |a.viewHistory| ==> r.viewHistory[|a.viewHistory|] == HistoryEntry(d, now)
    ensures |a.viewHistory| <= HistoryCap ==> |r.viewHistory| <= HistoryCap
  {
    var counted := match m
      case TotalViews => a.(totalViews := a.totalViews + 1)
      case UniqueVisits => a.(uniqueVisits := a.uniqueVisits + 1)
      case VcfDownloads => a.(vcfDownloads := a.vcfDownloads + 1)
      case LinkClicks => a.(linkClicks := a.linkClicks + 1);
    var history :=
      if m == TotalViews && |a.viewHistory| < HistoryCap then a.viewHistory + [HistoryEntry(d, now)]
      else a.viewHistory;
    counted.(lastViewed := Some(now), viewHistory := history)
  }

  /** `n` successive page views with the same details. */
  function ViewedTimes(a: Analytics, n: nat, d: VisitDetails, now: nat): Analytics
    decreases n
  {
    if n == 0 then a else Incremented(ViewedTimes(a, n - 1, d, now), TotalViews, d, now)
  }

  function Min(x: int, y: int): int {
    if x <= y then x else y
  }

  /** Views keep counting past the cap while the history stops at 1000. */
  lemma {:induction false} ViewsPastTheCap(a: Analytics, n: nat, d: VisitDetails, now: nat)
    requires |a.viewHistory| <= HistoryCap
    ensures ViewedTimes(a, n, d, now).totalViews == a.totalViews + n
    ensures |ViewedTimes(a, n, d, now).viewHistory| == Min(|a.viewHistory| + n, HistoryCap)
  {
    if n > 0 {
      ViewsPastTheCap(a, n - 1, d, now);
    }
  }

  /** 1001 views from an empty record: 1001 counted, 1000 kept. */
  lemma ThousandAndOneViews(d: VisitDetails, now: nat)
    ensures ViewedTimes(FreshAnalytics, 1001, d, now).totalViews == 1001
    ensures |ViewedTimes(FreshAnalytics, 1001, d, now).viewHistory| == 1000
  {
    ViewsPastTheCap(FreshAnalytics, 1001, d, now);
  }

  /** A card whose analytics took one increment. */
  function Bumped(c: Card, m: Metric, d: VisitDetails, now: nat): (r: Card)
    ensures r == c.(analytics := r.analytics)
    ensures Counter(r.analytics, m) == Counter(c.analytics, m) + 1
  {
    c.(analytics := Incremented(c.analytics, m, d, now))
  }
}
