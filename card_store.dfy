/** The card collection and the controller operations that change or read
    it one card at a time: create, update, remove, read, the public view,
    analytics tracking and the two vCard downloads
    (backend/src/controllers/appControllers/cardController/). The collection
    is a class whose sequence of cards the operations reassign; a card's
    position in the sequence is its id, and removal is a soft delete, so no
    card ever leaves the sequence. */
module CardStore {
  import opened CardModel
  import opened VCard

  // ---------------------------------------------------------------------
  // Entitlements
  // ---------------------------------------------------------------------

  /** The per-tier card allowance; -1 stands for unlimited, and a tier
      name outside the table has no entry. */
  function TierLimit(tierName: string): (r: Option<int>)
    ensures r.Some? <==> ParseTier(tierName).Some?
    ensures r.Some? ==> r.value == -1 || r.value > 0
  {
    if tierName == "Free" then Some(1)
    else if tierName == "Pro" then Some(10)
    else if tierName == "Agency" then Some(-1)
    else None
  }

  /** The account's tier, "Free" when the account has none. */
  function EffectiveTier(accountTier: string): (r: string)
    ensures r != ""
    ensures accountTier != "" ==> r == accountTier
  {
    if accountTier == "" then "Free" else accountTier
  }

  /** The limit test: reached when the limit is not -1 and the count is at
      least the limit. For a name outside the table the limit is undefined
      and the comparison is false, so such an account is never stopped here. */
  predicate LimitReached(tierName: string, count: nat)
    ensures LimitReached(tierName, count) ==> ParseTier(tierName).Some? && count >= 1
  {
    match TierLimit(tierName)
    case None => false
    case Some(limit) => limit != -1 && count >= limit
  }

  /** Free stops at one active card, Pro at ten, and Agency and unknown
      tier names never. */
  lemma LimitTable(tierName: string, count: nat)
    ensures LimitReached(tierName, count) <==>
      (tierName == "Free" && count >= 1) || (tierName == "Pro" && count >= 10)
  {
  }

  // ---------------------------------------------------------------------
  // Lookups
  // ---------------------------------------------------------------------

  /** The filters the controllers hand to the collection. */
  datatype Query =
      /** `{ _id, owner, removed: false }` */
    | Owned(id: CardId, owner: OwnerId)
      /** `{ slug, enabled: true, removed: false }` */
    | Published(slug: string)
      /** `{ slug, removed: false }`, optionally with `_id: { $ne: exclude }` */
    | SlugInUse(slug: string, exclude: Option<CardId>)
      /** the unique slug index, which also sees removed cards */
    | SlugIndexed(slug: string, exclude: Option<CardId>)

  predicate Matches(q: Query, c: Card) {
    match q
    case Owned(id, owner) => c.id == id && c.owner == owner && !c.removed
    case Published(slug) => c.slug == slug && c.enabled && !c.removed
    case SlugInUse(slug, exclude) => c.slug == slug && !c.removed && (exclude.None? || c.id != exclude.value)
    case SlugIndexed(slug, exclude) => c.slug == slug && (exclude.None? || c.id != exclude.value)
  }

  /** findOne: the position of the first card the filter matches. */
  function FindOne(cards: seq<Card>, q: Query): (r: Option<nat>)
    ensures r.Some? ==> r.value < |cards| && Matches(q, cards[r.value])
    ensures r.Some? ==> forall k :: 0 <= k < r.value ==> !Matches(q, cards[k])
    ensures r.None? <==> forall k :: 0 <= k < |cards| ==> !Matches(q, cards[k])
  {
    if cards == [] then None
    else if Matches(q, cards[0]) then Some(0)
    else match FindOne(cards[1..], q)
      case None => None
      case Some(k) => Some(k + 1)
  }

  /** isSlugAvailable: no card that is not removed carries the slug, apart
      from the excluded one. */
  function IsSlugAvailable(cards: seq<Card>, slug: string, exclude: Option<CardId>): (r: bool)
    ensures r <==> forall k :: 0 <= k < |cards| ==>
      cards[k].slug != slug || cards[k].removed || (exclude.Some? && cards[k].id == exclude.value)
  {
    FindOne(cards, SlugInUse(slug, exclude)).None?
  }

  /** The availability check ignores removed cards, while the unique index
      does not: a removed card's slug reads as available and still blocks
      the insert. */
  lemma RemovedSlugStillIndexed(cards: seq<Card>, k: nat)
    requires k < |cards| && cards[k].removed
    requires forall j :: 0 <= j < |cards| && j != k ==> cards[j].slug != cards[k].slug
    ensures IsSlugAvailable(cards, cards[k].slug, None)
    ensures FindOne(cards, SlugIndexed(cards[k].slug, None)).Some?
  {
    assert Matches(SlugIndexed(cards[k].slug, None), cards[k]);
  }

  // ---------------------------------------------------------------------
  // Active cards per owner
  // ---------------------------------------------------------------------

  predicate ActiveFor(c: Card, owner: OwnerId) {
    c.owner == owner && !c.removed
  }

  /** The owner's cards that are not removed, in stored order. */
  function ActiveOf(cards: seq<Card>, owner: OwnerId): (r: seq<Card>)
    ensures |r| <= |cards|
    ensures forall x :: x in r <==> x in cards && ActiveFor(x, owner)
  {
    if cards == [] then []
    else
      var last := cards[|cards| - 1];
      ActiveOf(cards[..|cards| - 1], owner) + (if ActiveFor(last, owner) then [last] else [])
  }

  /** countDocuments({ owner, removed: false }). */
  function CountActive(cards: seq<Card>, owner: OwnerId): nat {
    |ActiveOf(cards, owner)|
  }

  lemma CountAppend(cards: seq<Card>, x: Card, owner: OwnerId)
    ensures CountActive(cards + [x], owner) == CountActive(cards, owner) + (if ActiveFor(x, owner) then 1 else 0)
  {
    assert (cards + [x])[..|cards|] == cards;
  }

  /** Replacing one card changes the count only by that card's own status. */
  lemma {:induction false} CountReplace(cards: seq<Card>, i: nat, x: Card, owner: OwnerId)
    requires i < |cards|
    ensures CountActive(cards[i := x], owner) + (if ActiveFor(cards[i], owner) then 1 else 0)
         == CountActive(cards, owner) + (if ActiveFor(x, owner) then 1 else 0)
  {
    var n := |cards| - 1;
    var updated := cards[i := x];
    assert updated[..n] == if i == n then cards[..n] else cards[..n][i := x];
    if i < n {
      CountReplace(cards[..n], i, x, owner);
    }
  }

  // ---------------------------------------------------------------------
  // Building and patching cards
  // ---------------------------------------------------------------------

  /** A request body: each top-level key the body may carry, None when it
      is absent. Nested objects travel whole. */
  datatype CardPatch = CardPatch(
    owner: Option<OwnerId>,
    removed: Option<bool>,
    enabled: Option<bool>,
    tier: Option<string>,
    slug: Option<string>,
    branding: Option<Branding>,
    content: Option<Content>,
    contact: Option<Contact>,
    socials: Option<seq<SocialLink>>,
    features: Option<Features>,
    analytics: Option<Analytics>)

  const EmptyPatch := CardPatch(None, None, None, None, None, None, None, None, None, None, None)

  /** The tier key, when present, names a tier of the enum. */
  predicate TierKeyValid(p: CardPatch) {
    p.tier.None? || ParseTier(p.tier.value).Some?
  }

  /** Object.assign of the body onto a card: every key the body carries
      replaces the card's value; the id and the creation time stay. */
  function Merged(c: Card, p: CardPatch): (r: Card)
    ensures r.id == c.id && r.createdAt == c.createdAt
    ensures p == EmptyPatch ==> r == c
    ensures p.owner.Some? ==> r.owner == p.owner.value
    ensures p.owner.None? ==> r.owner == c.owner
    ensures p.removed.Some? ==> r.removed == p.removed.value
    ensures p.removed.None? ==> r.removed == c.removed
    ensures p.enabled.Some? ==> r.enabled == p.enabled.value
    ensures p.enabled.None? ==> r.enabled == c.enabled
    ensures p.tier.Some? && ParseTier(p.tier.value).Some? ==> r.tier == ParseTier(p.tier.value).value
    ensures (p.tier.None? || ParseTier(p.tier.value).None?) ==> r.tier == c.tier
    ensures p.slug.Some? ==> r.slug == p.slug.value
    ensures p.slug.None? ==> r.slug == c.slug
    ensures p.branding.Some? ==> r.branding == p.branding.value
    ensures p.branding.None? ==> r.branding == c.branding
    ensures p.content.Some? ==> r.content == p.content.value
    ensures p.content.None? ==> r.content == c.content
    ensures p.contact.Some? ==> r.contact == p.contact.value
    ensures p.contact.None? ==> r.contact == c.contact
    ensures p.socials.Some? ==> r.socials == p.socials.value
    ensures p.socials.None? ==> r.socials == c.socials
    ensures p.features.Some? ==> r.features == p.features.value
    ensures p.features.None? ==> r.features == c.features
    ensures p.analytics.Some? ==> r.analytics == p.analytics.value
    ensures p.analytics.None? ==> r.analytics == c.analytics
  {
    c.(owner := p.owner.GetOr(c.owner),
       removed := p.removed.GetOr(c.removed),
       enabled := p.enabled.GetOr(c.enabled),
       tier := if p.tier.Some? then ParseTier(p.tier.value).GetOr(c.tier) else c.tier,
       slug := p.slug.GetOr(c.slug),
       branding := p.branding.GetOr(c.branding),
       content := p.content.GetOr(c.content),
       contact := p.contact.GetOr(c.contact),
       socials := p.socials.GetOr(c.socials),
       features := p.features.GetOr(c.features),
       analytics := p.analytics.GetOr(c.analytics))
  }

  /** `q` assigned after `p`: the later value of each key wins. */
  function Then(p: CardPatch, q: CardPatch): CardPatch {
    CardPatch(
      if q.owner.Some? then q.owner else p.owner,
      if q.removed.Some? then q.removed else p.removed,
      if q.enabled.Some? then q.enabled else p.enabled,
      if q.tier.Some? then q.tier else p.tier,
      if q.slug.Some? then q.slug else p.slug,
      if q.branding.Some? then q.branding else p.branding,
      if q.content.Some? then q.content else p.content,
      if q.contact.Some? then q.contact else p.contact,
      if q.socials.Some? then q.socials else p.socials,
      if q.features.Some? then q.features else p.features,
      if q.analytics.Some? then q.analytics else p.analytics)
  }

  /** Two assignments in a row are one assignment of the combined body. */
  lemma MergeThen(c: Card, p: CardPatch, q: CardPatch)
    requires TierKeyValid(q)
    ensures Merged(Merged(c, p), q) == Merged(c, Then(p, q))
  {
    var a := Merged(Merged(c, p), q);
    var b := Merged(c, Then(p, q));
    assert a.tier == b.tier;
  }

  /** Assigning the same body twice is assigning it once. */
  lemma MergeTwice(c: Card, p: CardPatch)
    ensures Merged(Merged(c, p), p) == Merged(c, p)
  {
    var a := Merged(c, p);
    assert Merged(a, p).tier == a.tier;
  }

  /** A record with the schema defaults, owned by `owner`, enabled. */
  function Blank(id: CardId, owner: OwnerId, tier: Tier, now: nat): Card {
    Card(id, owner, false, true, tier, "", DefaultBranding, DefaultContent, DefaultContact, [],
      DefaultFeatures, FreshAnalytics, now)
  }

  /** `new Card({ ...body, owner, tier })`: the body over the defaults,
      with the owner and tier set by the server whatever the body says. */
  function NewCard(id: CardId, owner: OwnerId, tier: Tier, body: CardPatch, now: nat): (r: Card)
    ensures r.id == id && r.owner == owner && r.tier == tier && r.createdAt == now
    ensures r.slug == body.slug.GetOr("")
    ensures r.removed == body.removed.GetOr(false) && r.enabled == body.enabled.GetOr(true)
    ensures r.branding == body.branding.GetOr(DefaultBranding)
    ensures r.content == body.content.GetOr(DefaultContent)
    ensures r.contact == body.contact.GetOr(DefaultContact)
    ensures r.socials == body.socials.GetOr([])
    ensures r.features == body.features.GetOr(DefaultFeatures)
    ensures r.analytics == body.analytics.GetOr(FreshAnalytics)
  {
    Merged(Blank(id, owner, tier, now), body.(owner := None, tier := None))
  }

  // ---------------------------------------------------------------------
  // Password protection and projection
  // ---------------------------------------------------------------------

  /** The gate of the public view: a protected card admits a request only
      with a non-empty password equal to the password on the loaded record. */
  predicate GateAdmits(loaded: PasswordProtection, supplied: string)
    ensures !loaded.enabled ==> GateAdmits(loaded, supplied)
    ensures loaded.enabled && GateAdmits(loaded, supplied) ==> supplied != "" && supplied == loaded.password
    ensures supplied != "" && supplied == loaded.password ==> GateAdmits(loaded, supplied)
  {
    !loaded.enabled || (supplied != "" && supplied == loaded.password)
  }

  /** A record as queries load it: the password is never selected. */
  function Projected(c: Card): (r: Card)
    ensures r.features.passwordProtection.password == ""
    ensures r.features.passwordProtection.enabled == c.features.passwordProtection.enabled
    ensures r == c.(features := r.features) && r.features == c.features.(passwordProtection := r.features.passwordProtection)
  {
    c.(features := c.features.(passwordProtection := c.features.passwordProtection.(password := "")))
  }

  /** A list of records as a query loads them: each one projected. */
  function ProjectAll(cs: seq<Card>): (r: seq<Card>)
    ensures |r| == |cs| && forall k :: 0 <= k < |cs| ==> r[k] == Projected(cs[k])
  {
    seq(|cs|, k requires 0 <= k < |cs| => Projected(cs[k]))
  }

  /** As written, the gate compares against the loaded record, whose
      password was not selected: a protected card rejects every password,
      including the right one. */
  lemma AsWrittenGateRejectsAll(c: Card, supplied: string)
    requires c.features.passwordProtection.enabled
    ensures !GateAdmits(Projected(c).features.passwordProtection, supplied)
  {
  }

  /** The corrected gate compares against the stored password: it admits
      exactly that password when it is non-empty, and no one when it is
      empty. */
  lemma CorrectedGateAdmitsStoredPassword(c: Card, supplied: string)
    requires c.features.passwordProtection.enabled
    ensures GateAdmits(c.features.passwordProtection, supplied) <==>
      supplied != "" && supplied == c.features.passwordProtection.password
    ensures c.features.passwordProtection.password != "" ==>
      GateAdmits(c.features.passwordProtection, c.features.passwordProtection.password)
  {
  }

  // ---------------------------------------------------------------------
  // Analytics events
  // ---------------------------------------------------------------------

  /** The event types the tracking route accepts. */
  function EventMetric(eventType: string): (r: Option<Metric>)
    ensures r.Some? <==> eventType in {"view", "linkClick"}
    ensures eventType == "view" ==> r == Some(TotalViews)
    ensures eventType == "linkClick" ==> r == Some(LinkClicks)
  {
    if eventType == "view" then Some(TotalViews)
    else if eventType == "linkClick" then Some(LinkClicks)
    else None
  }

  datatype TrackReply = AnalyticsTracked | RequestProcessed

  // ---------------------------------------------------------------------
  // The collection
  // ---------------------------------------------------------------------

  /** Slugs are unique over every stored card, removed ones included. */
  predicate SlugsUnique(cards: seq<Card>) {
    forall i, j :: 0 <= i < |cards| && 0 <= j < |cards| && i != j ==> cards[i].slug != cards[j].slug
  }

  /** What every save leaves behind: ids are positions, every card passed
      the schema validators and carries SEO metadata, and the unique slug
      index holds. */
  predicate Stored(cards: seq<Card>) {
    && (forall i :: 0 <= i < |cards| ==> cards[i].id == i)
    && (forall i :: 0 <= i < |cards| ==> SchemaValid(cards[i]) && SeoComplete(cards[i]))
    && SlugsUnique(cards)
  }

  /** Appending a card that passed the validators, carries SEO metadata,
      takes the next id and a slug no stored card has keeps the store's
      invariant. */
  lemma StoredAppend(cards: seq<Card>, c: Card)
    requires Stored(cards)
    requires c.id == |cards| && SchemaValid(c) && SeoComplete(c)
    requires forall k :: 0 <= k < |cards| ==> cards[k].slug != c.slug
    ensures Stored(cards + [c])
  {
    var s := cards + [c];
    forall i | 0 <= i < |s|
      ensures s[i].id == i && SchemaValid(s[i]) && SeoComplete(s[i])
    {
      if i < |cards| {
        assert s[i] == cards[i];
      }
    }
  }

  /** At most one card is published under a slug, and it is the one the
      unique index holds. */
  lemma PublishedIsUnique(cards: seq<Card>, slug: string, k: nat)
    requires Stored(cards)
    requires k < |cards| && Matches(Published(slug), cards[k])
    ensures FindOne(cards, Published(slug)) == Some(k)
  {
  }

  class Store {
    var cards: seq<Card>

    ghost predicate Valid()
      reads this
    {
      Stored(cards)
    }

    constructor ()
      ensures Valid() && cards == []
    {
      cards := [];
    }

    /** One analytics increment on the card at position `i`, saved unless
        the write fails. The pre-save hook leaves a stored card unchanged,
        since its SEO metadata is already complete. */
    method Record(i: nat, m: Metric, d: VisitDetails, now: nat, writeFails: bool)
      requires Valid() && i < |cards|
      modifies this
      ensures Valid()
      ensures cards == if writeFails then old(cards) else old(cards)[i := Bumped(old(cards)[i], m, d, now)]
    {
      if !writeFails {
        cards := cards[i := Bumped(cards[i], m, d, now)];
      }
    }

    /** create: tier limit, slug presence, slug availability, then the
        save, whose validation failure is a server error and whose
        duplicate-key failure is a slug conflict. */
    method Create(owner: OwnerId, accountTier: string, body: CardPatch, now: nat) returns (r: Outcome<Card>)
      requires Valid()
      modifies this
      ensures Valid()
      ensures var tierName := EffectiveTier(accountTier);
              var count := CountActive(old(cards), owner);
              var slug := body.slug.GetOr("");
        && (LimitReached(tierName, count) ==> r == Rejected(TierLimitExceeded(TierLimit(tierName).value, count)))
        && (!LimitReached(tierName, count) && slug == "" ==> r == Rejected(ValidationError))
        && (!LimitReached(tierName, count) && slug != "" && !IsSlugAvailable(old(cards), slug, None) ==>
              r == Rejected(SlugConflict))
        && (!LimitReached(tierName, count) && slug != "" && IsSlugAvailable(old(cards), slug, None) ==>
              && (ParseTier(tierName).None? ==> r == Rejected(ServerError))
              && (ParseTier(tierName).Some? &&
                  !SchemaValid(NewCard(|old(cards)|, owner, ParseTier(tierName).value, body, now)) ==>
                    r == Rejected(ServerError))
              && (ParseTier(tierName).Some? &&
                  SchemaValid(NewCard(|old(cards)|, owner, ParseTier(tierName).value, body, now)) &&
                  FindOne(old(cards), SlugIndexed(slug, None)).Some?
                  ==> r == Rejected(SlugConflict)))
        && (r.Ok? <==>
              !LimitReached(tierName, count) && slug != "" && IsSlugAvailable(old(cards), slug, None)
              && ParseTier(tierName).Some?
              && SchemaValid(NewCard(|old(cards)|, owner, ParseTier(tierName).value, body, now))
              && FindOne(old(cards), SlugIndexed(slug, None)).None?)
        && (r.Ok? ==>
              && r.value == WithSeoDefaults(NewCard(|old(cards)|, owner, ParseTier(tierName).value, body, now))
              && cards == old(cards) + [r.value])
        && (r.Ok? && body.removed != Some(true) ==> CountActive(cards, owner) == count + 1)
        && (r.Ok? && TierLimit(tierName).Some? && TierLimit(tierName).value != -1 ==>
              CountActive(cards, owner) <= TierLimit(tierName).value)
      ensures r.Rejected? ==> cards == old(cards)
    {
      var tierName := EffectiveTier(accountTier);
      var count := CountActive(cards, owner);
      if LimitReached(tierName, count) {
        return Rejected(TierLimitExceeded(TierLimit(tierName).value, count));
      }
      var slug := body.slug.GetOr("");
      if slug == "" {
        return Rejected(ValidationError);
      }
      if !IsSlugAvailable(cards, slug, None) {
        return Rejected(SlugConflict);
      }
      var tier := ParseTier(tierName);
      if tier.None? {
        return Rejected(ServerError);
      }
      var card := NewCard(|cards|, owner, tier.value, body, now);
      if !SchemaValid(card) {
        return Rejected(ServerError);
      }
      if FindOne(cards, SlugIndexed(slug, None)).Some? {
        return Rejected(SlugConflict);
      }
      card := WithSeoDefaults(card);
      assert card.slug == slug && SchemaValid(card);
      StoredAppend(cards, card);
      CountAppend(cards, card, owner);
      cards := cards + [card];
      r := Ok(card);
    }

    /** update: the owner's card that is not removed, a changed non-empty
        slug checked against the other cards, then the assignment and the
        save, whose every failure is a server error. */
    method Update(owner: OwnerId, id: CardId, body: CardPatch) returns (r: Outcome<Card>)
      requires Valid()
      modifies this
      ensures Valid()
      ensures FindOne(old(cards), Owned(id, owner)).None? ==> r == Rejected(NotFound)
      ensures FindOne(old(cards), Owned(id, owner)).Some? ==>
        var c := old(cards)[id];
        var newSlug := body.slug.GetOr("");
        var clash := newSlug != "" && newSlug != c.slug && !IsSlugAvailable(old(cards), newSlug, Some(id));
        var saved := WithSeoDefaults(Merged(c, body));
        && (clash ==> r == Rejected(SlugConflict))
        && (r.Ok? <==> !clash && TierKeyValid(body) && SchemaValid(saved)
                       && FindOne(old(cards), SlugIndexed(saved.slug, Some(id))).None?)
        && (r.Ok? ==> r.value == Projected(saved) && cards == old(cards)[id := saved])
        && (!clash && r.Rejected? ==> r == Rejected(ServerError))
      ensures r.Rejected? ==> cards == old(cards)
    {
      var found := FindOne(cards, Owned(id, owner));
      if found.None? {
        return Rejected(NotFound);
      }
      var i := found.value;
      var c := cards[i];
      var newSlug := body.slug.GetOr("");
      if newSlug != "" && newSlug != c.slug && !IsSlugAvailable(cards, newSlug, Some(id)) {
        return Rejected(SlugConflict);
      }
      var saved := WithSeoDefaults(Merged(c, body));
      if !TierKeyValid(body) || !SchemaValid(saved) || FindOne(cards, SlugIndexed(saved.slug, Some(id))).Some? {
        return Rejected(ServerError);
      }
      cards := cards[i := saved];
      r := Ok(Projected(saved));
    }

    /** remove: the soft delete of the owner's card, which frees one unit
        of the owner's allowance and cannot be repeated. */
    method Remove(owner: OwnerId, id: CardId) returns (r: Outcome<Card>)
      requires Valid()
      modifies this
      ensures Valid()
      ensures FindOne(old(cards), Owned(id, owner)).None? ==> r == Rejected(NotFound) && cards == old(cards)
      ensures FindOne(old(cards), Owned(id, owner)).Some? ==>
        var gone := old(cards)[id].(removed := true, enabled := false);
        && r == Ok(Projected(gone))
        && cards == old(cards)[id := gone]
        && CountActive(cards, owner) == CountActive(old(cards), owner) - 1
        && FindOne(cards, Owned(id, owner)).None?
    {
      var found := FindOne(cards, Owned(id, owner));
      if found.None? {
        return Rejected(NotFound);
      }
      var i := found.value;
      var gone := cards[i].(removed := true, enabled := false);
      CountReplace(cards, i, gone, owner);
      cards := cards[i := gone];
      r := Ok(Projected(gone));
    }

    /** read: the owner's card, after an awaited page-view increment with
        no visit details; a failed write fails the request. */
    method Read(owner: OwnerId, id: CardId, now: nat, writeFails: bool) returns (r: Outcome<Card>)
      requires Valid()
      modifies this
      ensures Valid()
      ensures FindOne(old(cards), Owned(id, owner)).None? ==> r == Rejected(NotFound) && cards == old(cards)
      ensures FindOne(old(cards), Owned(id, owner)).Some? ==>
        var bumped := Bumped(old(cards)[id], TotalViews, NoDetails, now);
        && r == (if writeFails then Rejected(ServerError) else Ok(Projected(bumped)))
        && cards == (if writeFails then old(cards) else old(cards)[id := bumped])
    {
      var found := FindOne(cards, Owned(id, owner));
      if found.None? {
        return Rejected(NotFound);
      }
      var i := found.value;
      Record(i, TotalViews, NoDetails, now, writeFails);
      if writeFails {
        return Rejected(ServerError);
      }
      r := Ok(Projected(cards[i]));
    }

    /** publicBySlug: the published card under the slug, behind the
        (corrected) password gate; the page-view increment is not awaited,
        so the response shows it even when its write fails. */
    method PublicBySlug(slug: string, password: string, ip: string, userAgent: string, now: nat, writeFails: bool)
      returns (r: Outcome<Card>)
      requires Valid()
      modifies this
      ensures Valid()
      ensures FindOne(old(cards), Published(slug)).None? ==> r == Rejected(NotFound) && cards == old(cards)
      ensures FindOne(old(cards), Published(slug)).Some? ==>
        var i := FindOne(old(cards), Published(slug)).value;
        var c := old(cards)[i];
        var bumped := Bumped(c, TotalViews, VisitDetails(None, ip, userAgent, "", ""), now);
        && (!GateAdmits(c.features.passwordProtection, password) ==>
              r == Rejected(PasswordRequired) && cards == old(cards))
        && (GateAdmits(c.features.passwordProtection, password) ==>
              && r == Ok(Projected(bumped))
              && cards == (if writeFails then old(cards) else old(cards)[i := bumped]))
    {
      var found := FindOne(cards, Published(slug));
      if found.None? {
        return Rejected(NotFound);
      }
      var i := found.value;
      var c := cards[i];
      if !GateAdmits(c.features.passwordProtection, password) {
        return Rejected(PasswordRequired);
      }
      var bumped := Bumped(c, TotalViews, VisitDetails(None, ip, userAgent, "", ""), now);
      Record(i, TotalViews, VisitDetails(None, ip, userAgent, "", ""), now, writeFails);
      r := Ok(Projected(bumped));
    }

    /** trackAnalytics: "view" and "linkClick" events on a published card,
        timestamped now; a failed write is still answered with success. */
    method TrackAnalytics(slug: string, eventType: string, ip: string, userAgent: string, now: nat, writeFails: bool)
      returns (r: Outcome<TrackReply>)
      requires Valid()
      modifies this
      ensures Valid()
      ensures FindOne(old(cards), Published(slug)).None? ==> r == Rejected(NotFound) && cards == old(cards)
      ensures FindOne(old(cards), Published(slug)).Some? && EventMetric(eventType).None? ==>
        r == Rejected(InvalidAnalyticsType) && cards == old(cards)
      ensures FindOne(old(cards), Published(slug)).Some? && EventMetric(eventType).Some? ==>
        var i := FindOne(old(cards), Published(slug)).value;
        var bumped := Bumped(old(cards)[i], EventMetric(eventType).value, VisitDetails(Some(now), ip, userAgent, "", ""), now);
        && r == Ok(if writeFails then RequestProcessed else AnalyticsTracked)
        && cards == (if writeFails then old(cards) else old(cards)[i := bumped])
    {
      var found := FindOne(cards, Published(slug));
      if found.None? {
        return Rejected(NotFound);
      }
      var metric := EventMetric(eventType);
      if metric.None? {
        return Rejected(InvalidAnalyticsType);
      }
      Record(found.value, metric.value, VisitDetails(Some(now), ip, userAgent, "", ""), now, writeFails);
      r := Ok(if writeFails then RequestProcessed else AnalyticsTracked);
    }

    /** generateVcf: the baseline vCard of a published card, and a download
        increment that is not awaited. Password protection is not consulted. */
    method GenerateVcf(slug: string, ip: string, userAgent: string, now: nat, writeFails: bool)
      returns (r: Outcome<string>)
      requires Valid()
      modifies this
      ensures Valid()
      ensures FindOne(old(cards), Published(slug)).None? ==> r == Rejected(NotFound) && cards == old(cards)
      ensures FindOne(old(cards), Published(slug)).Some? ==>
        var i := FindOne(old(cards), Published(slug)).value;
        var c := old(cards)[i];
        && r == Ok(Render(BasicBody(c)))
        && cards == (if writeFails then old(cards)
                     else old(cards)[i := Bumped(c, VcfDownloads, VisitDetails(None, ip, userAgent, "", ""), now)])
    {
      var found := FindOne(cards, Published(slug));
      if found.None? {
        return Rejected(NotFound);
      }
      var text := GenerateVCard(cards[found.value]);
      Record(found.value, VcfDownloads, VisitDetails(None, ip, userAgent, "", ""), now, writeFails);
      r := Ok(text);
    }

    /** generateVcfAdvanced: the extended vCard of a published card, and a
        download increment that is not awaited. */
    method GenerateVcfAdvanced(slug: string, appUrl: string, ip: string, userAgent: string, now: nat, writeFails: bool)
      returns (r: Outcome<string>)
      requires Valid()
      modifies this
      ensures Valid()
      ensures FindOne(old(cards), Published(slug)).None? ==> r == Rejected(NotFound) && cards == old(cards)
      ensures FindOne(old(cards), Published(slug)).Some? ==>
        var i := FindOne(old(cards), Published(slug)).value;
        var c := old(cards)[i];
        && r == Ok(Render(AdvancedBody(c, appUrl)))
        && cards == (if writeFails then old(cards)
                     else old(cards)[i := Bumped(c, VcfDownloads, VisitDetails(None, ip, userAgent, "", ""), now)])
    {
      var found := FindOne(cards, Published(slug));
      if found.None? {
        return Rejected(NotFound);
      }
      var text := GenerateVcfAdvancedText(cards[found.value], appUrl);
      Record(found.value, VcfDownloads, VisitDetails(None, ip, userAgent, "", ""), now, writeFails);
      r := Ok(text);
    }
  }
}
