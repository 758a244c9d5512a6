# ProCard card engine in Dafny

ProCard is a digital business card service. The owner of an account creates
cards, each published under a unique slug. Visitors open a card's public
page, download it as a vCard or scan its QR code, and every visit is counted
in the card's analytics. This project models the core of the card engine:

- the Card record, with its schema validators, its derived URLs, its
  per-tier capabilities, its SEO defaults and its analytics counters;
- the controller operations over the card collection: create, update,
  remove, read, the public view, the owner's list, analytics tracking, the
  two vCard downloads and the two QR code routes;
- the web client's card editor: the slug it derives from the name, the list
  of social links it edits, and the body it submits.

The collection is a class, `CardStore.Store`, whose sequence of cards the
operations reassign. A card's id is its position in the sequence, and
removal is a soft delete, so no card ever leaves the sequence. Its invariant
`Valid()` says three things about every card, removed ones included:

- its id is its position;
- it passed the schema validators and carries SEO metadata;
- its slug appears on no other card.

Each operation is a method with a contract stating its outcome and the
whole new state. Where the source builds a value by appending to a string
(the vCard serialisers), the model is a method proved equal to a
specification function over a list of lines, and the properties are lemmas
about that function.

Modules, by file:

- `text.dfy` (`Text`): decimal rendering of numbers as template strings
  print them, and `x || fallback` on strings.
- `card_model.dfy` (`CardModel`): the record, the tiers, the URLs, the
  capabilities, the SEO hook and the analytics increment.
- `vcard.dfy` (`VCard`): the baseline and the extended vCard.
- `card_store.dfy` (`CardStore`): lookups, tier limits, patching, the
  password gate and the `Store` class with the controller operations.
- `listing.dfy` (`Listing`): the owner's list, sorted newest first and cut
  into pages.
- `qr.dfy` (`Qr`): JavaScript `parseInt` and the QR option sets.
- `card_form.dfy` (`CardForm`): slug derivation, the socials editor and the
  submitted body.
- `routes.dfy` (`Routes`): the GET routes under the `/api/cards` mount, and
  where the card's download URLs lead.

The clock, the application's base URL, and the success of a
fire-and-forget analytics write are parameters of the operations (`now`,
`appUrl`, `writeFails`).

## Model

| member | source | states |
|---|---|---|
| CardModel.ParseTier | backend/src/models/appModels/Card.js:42-47 | a tier name is accepted exactly when it is Free, Pro or Agency, and the accepted tier's name is the given one |
| CardModel.ParseTierName | backend/src/models/appModels/Card.js:42-47 | every tier reads back from its name |
| CardModel.BaseUrl | backend/src/models/appModels/Card.js:329-341 | the configured application URL is used when set; otherwise the non-empty fallback https://procard.com is used |
| CardModel.PublicUrlInjective | backend/src/models/appModels/Card.js:329-331 | two slugs with the same public URL are the same slug, so unique slugs give unique public pages |
| CardModel.DerivedUrlsDistinct | backend/src/models/appModels/Card.js:329-341 | the public, QR and vCard URLs never coincide, whatever the slugs |
| CardModel.HasFeature | backend/src/models/appModels/Card.js:368-376 | a capability is only ever granted to one of the three tier names |
| CardModel.FeaturesNotCumulative | backend/src/models/appModels/Card.js:369-373 | no capability tag belongs to two tiers: the lists are not cumulative |
| CardModel.ProLacksBasicQr | backend/src/models/appModels/Card.js:369-375 | Free has basic_qr and Pro does not; Agency lacks custom_qr; only Agency has hide_branding |
| CardModel.WithSeoDefaults | backend/src/models/appModels/Card.js:402-413 | after the hook both meta fields are non-empty, non-empty values are kept, and nothing else in the card changes |
| CardModel.SeoDefaultsIdempotent | backend/src/models/appModels/Card.js:402-413 | running the pre-save hook a second time changes nothing |
| CardModel.SeoDefaultValues | backend/src/models/appModels/Card.js:404-410 | an empty title becomes "{name} - {title or Digital Business Card}" and an empty description becomes the bio or "Connect with {name}" |
| CardModel.Incremented | backend/src/models/appModels/Card.js:349-362 | the named counter rises by one and no other; lastViewed is now; a page view appends one history entry while fewer than 1000 are kept; the old history is a prefix of the new |
| CardModel.ViewsPastTheCap | backend/src/models/appModels/Card.js:349-362 | n page views add n to the view count but grow the history only up to 1000 entries |
| CardModel.ThousandAndOneViews | backend/src/models/appModels/Card.js:354-359 | 1001 views of a fresh card count 1001 and keep 1000 history entries |
| CardModel.Bumped | backend/src/models/appModels/Card.js:349-362 | an increment changes the card's analytics and nothing else |
| VCard.GenerateVCard | backend/src/models/appModels/Card.js:381-399 | the text the method appends equals the rendering of the baseline line list |
| VCard.HeaderText | backend/src/models/appModels/Card.js:382-383 | the document opens with BEGIN:VCARD, VERSION:3.0 and FN:{name} |
| VCard.BasicVCardFrame | backend/src/models/appModels/Card.js:381-399 | every baseline document starts with the header lines and ends with END:VCARD |
| VCard.BasicAdrLine | backend/src/models/appModels/Card.js:391-393 | the ADR line is in the document when the street is set, in the fixed seven-part layout (street, city, state, zip code, country after two empty parts); with no street no line starts with ADR: |
| VCard.BasicVCardExample | backend/src/models/appModels/Card.js:381-399 | a card with only a name and an email gives exactly the three header lines and its EMAIL line |
| VCard.EmitSocials | backend/src/controllers/appControllers/cardController/generateVcf.js:108-111 | the loop appends one URL;TYPE={platform}:{url} line per social entry, in stored order |
| VCard.GenerateVcfAdvancedText | backend/src/controllers/appControllers/cardController/generateVcf.js:75-122 | the text the method appends equals the rendering of the extended line list |
| VCard.AdvancedSocialsThenTrailer | backend/src/controllers/appControllers/cardController/generateVcf.js:108-120 | the social lines follow the head one per entry in stored order, and the last two lines before END:VCARD are X-PROCARD-URL with the public URL and X-PROCARD-TIER with the tier |
| VCard.GeoNeedsBothTruthy | backend/src/controllers/appControllers/cardController/generateVcf.js:93-96 | GEO appears once exactly when both coordinates are truthy; a zero on either side drops it |
| VCard.AdvancedExtendsBasic | backend/src/controllers/appControllers/cardController/generateVcf.js:75-122 | for a card without any extended-only data, the extended document is the baseline one plus the two X-PROCARD lines |
| CardStore.TierLimit | backend/src/controllers/appControllers/cardController/create.js:15-22 | a limit exists exactly for the three tier names, and it is -1 (unlimited) or positive |
| CardStore.LimitTable | backend/src/controllers/appControllers/cardController/create.js:15-24 | the limit is reached exactly for Free with at least one active card or Pro with at least ten |
| CardStore.FindOne | backend/src/controllers/appControllers/cardController/read.js:14 | the result is the first matching card, and there is none exactly when no card matches |
| CardStore.IsSlugAvailable | backend/src/models/appModels/Card.js:433-439 | a slug is available exactly when every card carrying it is removed or is the excluded one |
| CardStore.RemovedSlugStillIndexed | backend/src/models/appModels/Card.js:324 | a removed card's slug reads as available yet is still held by the unique index |
| CardStore.ActiveOf | backend/src/controllers/appControllers/cardController/create.js:13 | the owner's cards that are not removed, exactly those |
| CardStore.CountReplace | backend/src/controllers/appControllers/cardController/remove.js:22-24 | replacing one card changes the owner's active count only by that card's own change of status |
| CardStore.Merged | backend/src/controllers/appControllers/cardController/update.js:36-37 | every key the body carries (owner, removal and enabled flags, slug, each sub-document, the links) replaces the stored value and every other key is kept; a tier name replaces the tier only when it is Free, Pro or Agency; the id and creation time never change; the empty body changes nothing |
| CardStore.MergeThen | backend/src/controllers/appControllers/cardController/update.js:36-37 | two assignments in a row are one assignment of the combined body |
| CardStore.MergeTwice | backend/src/controllers/appControllers/cardController/update.js:36-37 | assigning the same body twice is assigning it once |
| CardStore.NewCard | backend/src/controllers/appControllers/cardController/create.js:54-58 | a new card has the server's owner and tier whatever the body says, the given id and creation time, and every other key from the body or, where the body lacks it, the schema default (empty slug, not removed, enabled, default branding, content, contact, features and analytics, no links) |
| CardStore.EffectiveTier | backend/src/controllers/appControllers/cardController/create.js:21 | an account without a tier counts as Free; a set tier is used as it is |
| CardStore.LimitReached | backend/src/controllers/appControllers/cardController/create.js:22-24 | the limit can only be reached for one of the three tier names and with at least one active card |
| CardStore.GateAdmits | backend/src/controllers/appControllers/cardController/read.js:71-82 | an unprotected card admits every request; a protected one admits exactly a non-empty password equal to the loaded one |
| CardStore.Projected | backend/src/models/appModels/Card.js:243-246 | a loaded card has an empty password and otherwise equals the stored one |
| CardStore.AsWrittenGateRejectsAll | backend/src/controllers/appControllers/cardController/read.js:55-82 | as written, a protected card rejects every password, the right one included |
| CardStore.CorrectedGateAdmitsStoredPassword | backend/src/controllers/appControllers/cardController/read.js:71-82 | the corrected gate admits exactly the non-empty stored password |
| CardStore.EventMetric | backend/src/controllers/appControllers/cardController/analytics.js:29-41 | exactly "view" and "linkClick" are accepted, counted as page views and link clicks |
| CardStore.PublishedIsUnique | backend/src/models/appModels/Card.js:324 | in a valid store at most one card is published under a slug |
| CardStore.Store.constructor | backend/src/models/appModels/Card.js:324 | the empty collection satisfies the store invariant |
| CardStore.Store.Record | backend/src/models/appModels/Card.js:349-362 | one increment on one card, saved unless the write fails; the invariant is kept |
| CardStore.Store.Create | backend/src/controllers/appControllers/cardController/create.js:7-87 | in order: tier limit, missing slug, slug held by an active card, then a tier name outside the table or a card failing validation as a server error, then a slug the unique index still holds as a conflict; on success the new card with SEO defaults is appended, the owner's active count rises by one and never exceeds the tier limit |
| CardStore.Store.Update | backend/src/controllers/appControllers/cardController/update.js:7-53 | not found, then a clash of a changed slug with another active card, then any failed save as a server error; on success only that card is replaced by the assigned and SEO-completed card |
| CardStore.Store.Remove | backend/src/controllers/appControllers/cardController/remove.js:8-40 | the owner's card is marked removed and disabled, the active count drops by one, and a second removal finds nothing |
| CardStore.Store.Read | backend/src/controllers/appControllers/cardController/read.js:8-38 | the owner's card after an awaited page view; a failed write fails the request and changes nothing |
| CardStore.Store.PublicBySlug | backend/src/controllers/appControllers/cardController/read.js:45-112 | a published card behind the corrected password gate; a rejected password changes nothing; the page view is shown even when its write fails |
| CardStore.Store.TrackAnalytics | backend/src/controllers/appControllers/cardController/analytics.js:9-56 | not found, invalid event type, or one increment of the event's counter timestamped now; a failed write still answers success |
| CardStore.Store.GenerateVcf | backend/src/controllers/appControllers/cardController/generateVcf.js:9-55 | a published card's baseline vCard, and a download count that rises unless its write fails |
| CardStore.Store.GenerateVcfAdvanced | backend/src/controllers/appControllers/cardController/generateVcf.js:61-144 | a published card's extended vCard, and a download count that rises unless its write fails |
| Listing.Insert | backend/src/controllers/appControllers/cardController/read.js:121 | inserting into a newest-first list keeps it newest first and adds one card |
| Listing.InsertPermutes | backend/src/controllers/appControllers/cardController/read.js:121 | insertion adds exactly the inserted card |
| Listing.SortNewestFirst | backend/src/controllers/appControllers/cardController/read.js:121 | the sorted list is newest first and of the same length |
| Listing.SortPermutes | backend/src/controllers/appControllers/cardController/read.js:121 | the sort keeps each card as often as before |
| Listing.Paginate | backend/src/controllers/appControllers/cardController/read.js:122-123 | the window holds exactly the smaller of the remaining cards and the limit's magnitude (all remaining cards for limit 0), none past the end, each the card at skip plus its position |
| Listing.FirstPagesPrefix | backend/src/controllers/appControllers/cardController/read.js:122-123 | the first n pages together are the list's first n times size cards |
| Listing.PagesCoverAll | backend/src/controllers/appControllers/cardController/read.js:132 | the reported page count is the least that holds every card, and those pages together are the whole list |
| Listing.List | backend/src/controllers/appControllers/cardController/read.js:115-143 | a negative skip is a server error; otherwise the count is the owner's active cards, the result is exactly the window at (page − 1) · limit of those cards sorted newest first, each loaded without its password, and the page count is ceil(count / limit), or absent when the limit is 0 |
| Listing.ProjectedWindow | backend/src/controllers/appControllers/cardController/read.js:120-123 | the loaded window keeps its newest-first order and holds only projected copies of the owner's active cards, every password blank |
| Listing.CeilDiv | backend/src/controllers/appControllers/cardController/read.js:132 | with a positive limit the page count is never negative and is 0 exactly for no cards; a negative limit never gives a positive count |
| Listing.FirstPageIsNewest | backend/src/controllers/appControllers/cardController/read.js:118-123 | with the default limit, every card on page 1 is no older than any card on a later page |
| Qr.DigitRun | backend/src/controllers/appControllers/cardController/generateQr.js:27 | the longest prefix of digits in the given base |
| Qr.ParseDigits | backend/src/controllers/appControllers/cardController/generateQr.js:27 | the digit run has no value exactly when the text does not start with a digit |
| Qr.ParseIntRoundTrip | backend/src/controllers/appControllers/cardController/generateQr.js:27 | parseInt reads back every whole number as it is printed |
| Qr.ParseIntTrailingText | backend/src/controllers/appControllers/cardController/generateQr.js:27 | "250px" reads as 250 |
| Qr.ParseIntHex | backend/src/controllers/appControllers/cardController/generateQr.js:27 | leading white space is skipped and 0x switches to base 16 |
| Qr.ParseIntNaN | backend/src/controllers/appControllers/cardController/generateQr.js:27 | text with no leading digit and the empty text are NaN |
| Qr.ParseInt | backend/src/controllers/appControllers/cardController/generateQr.js:27 | blank text and text whose first non-space character is neither a sign nor a digit are NaN; a negative result needs a leading minus |
| Qr.QrWidth | backend/src/controllers/appControllers/cardController/generateQr.js:12-27 | an absent size, NaN or 0 gives 300 and any other parsed number is the width, so the width is never 0 and one other than 300 is always the parsed size |
| Qr.QrWidthOfNumber | backend/src/controllers/appControllers/cardController/generateQr.js:27 | a size given as a number is used as it is, except that 0 gives 300 |
| Qr.PublicQrRequest | backend/src/controllers/appControllers/cardController/generateQr.js:26-54 | the payload is the public URL; the output is SVG exactly for format "svg"; the margin is 2; colours and level are never empty and keep the card's non-empty values |
| Qr.GenerateQr | backend/src/controllers/appControllers/cardController/generateQr.js:9-23 | a request exists exactly when a published card has the slug, and it is the public route's request for the first such card, encoding that slug's public URL; otherwise not found |
| Qr.GenerateQrDataUrl | backend/src/controllers/appControllers/cardController/generateQr.js:76-101 | the owner's card only; width 400, the encoder's own margin, and the card's colours and level passed on without defaults |
| Qr.RoutesAgreeOnStyle | backend/src/controllers/appControllers/cardController/generateQr.js:26-34 | with a fully set style both routes encode the same URL with the same colours and level; with an empty colour only the public route fills in a default |
| Qr.QrMatchesVcardUrl | backend/src/controllers/appControllers/cardController/generateQr.js:36 | the QR payload is the URL in the extended vCard's X-PROCARD-URL line |
| CardForm.Collapse | frontend/src/forms/CardForm.jsx:154 | only slug characters, hyphen at the front exactly when the text starts outside [a-z0-9], empty only for empty text |
| CardForm.CollapseAppend | frontend/src/forms/CardForm.jsx:154 | collapsing works piecewise wherever a letter or digit sits on either side of the cut |
| CardForm.CollapseRun | frontend/src/forms/CardForm.jsx:154 | a run made only of characters outside [a-z0-9] becomes one hyphen |
| CardForm.CollapseRunBetween | frontend/src/forms/CardForm.jsx:154 | a run outside [a-z0-9] between letters or digits (or at either end) becomes exactly one hyphen, the sides collapsing on their own |
| CardForm.CollapseShape | frontend/src/forms/CardForm.jsx:154 | no two hyphens in a row, and a trailing hyphen exactly when the text ends outside [a-z0-9] |
| CardForm.Lower | frontend/src/forms/CardForm.jsx:153 | same length; no upper-case ASCII letter remains; each of A-Z becomes the letter at the same place in a-z; every other character is unchanged |
| CardForm.TrimHyphens | frontend/src/forms/CardForm.jsx:155 | the result is the text after one leading hyphen (if any), one character shorter again exactly when a trailing hyphen remains; unchanged when neither end is a hyphen; keeps slug characters |
| CardForm.DeriveSlug | frontend/src/forms/CardForm.jsx:152-155 | the slug has only a-z, 0-9 and hyphens, no two hyphens in a row and none at either end |
| CardForm.DerivedSlugMatchesPattern | frontend/src/forms/CardForm.jsx:152-155 | a non-empty derived slug matches the schema's slug pattern |
| CardForm.SlugKeepsLettersAndDigits | frontend/src/forms/CardForm.jsx:152-155 | the slug keeps every letter and digit of the lower-cased name, in order |
| CardForm.EmptySlugIffNoLetterOrDigit | frontend/src/forms/CardForm.jsx:152-155 | the slug is empty exactly when the name has no ASCII letter or digit |
| CardForm.DeriveSlugIdempotent | frontend/src/forms/CardForm.jsx:152-155 | deriving a slug from a derived slug returns it unchanged |
| CardForm.DeriveSlugExample | frontend/src/forms/CardForm.jsx:152-155 | "Jo B!" gives "jo-b" |
| CardForm.WithoutIndex | frontend/src/forms/CardForm.jsx:89 | the entry at the index is dropped and the others keep their order; an index outside the list drops nothing |
| CardForm.WithUrl | frontend/src/forms/CardForm.jsx:174 | exactly the entries with a non-empty URL are kept |
| CardForm.WithUrlAppend | frontend/src/forms/CardForm.jsx:174 | filtering distributes over concatenation, so order is kept |
| CardForm.WithUrlIdempotent | frontend/src/forms/CardForm.jsx:174 | filtering twice is filtering once |
| CardForm.BlankLinkNotSubmitted | frontend/src/forms/CardForm.jsx:83-85 | a link added and left blank is not submitted |
| CardForm.SocialsEditor.constructor | frontend/src/forms/CardForm.jsx:23 | the editor starts with the given links |
| CardForm.SocialsEditor.AddSocialLink | frontend/src/forms/CardForm.jsx:83-85 | a blank LinkedIn link is appended at the end, and the submitted links do not change |
| CardForm.SocialsEditor.RemoveSocialLink | frontend/src/forms/CardForm.jsx:88-91 | the link at the index is dropped, the others keep their order; an index outside the list changes nothing |
| CardForm.SocialsEditor.SetPlatform | frontend/src/forms/CardForm.jsx:374-378 | only that row's platform changes |
| CardForm.SocialsEditor.SetUrl | frontend/src/forms/CardForm.jsx:385-389 | only that row's URL changes |
| CardForm.SubmittedColor | frontend/src/forms/CardForm.jsx:172 | a colour picked with a hex text is sent as that text; plain text or no value sends #2563eb |
| CardForm.EditValues | frontend/src/forms/CardForm.jsx:43-52 | the edit form is pre-filled with the card's name, text fields and its colour (or #2563eb) as plain text |
| CardForm.Payload | frontend/src/forms/CardForm.jsx:158-175 | the body carries the derived slug, the filtered links (exactly those with a URL, in order), the name and the other text fields with "" for empty ones, the default branding with the submitted primary colour (see Left out), and a contact with no address; it never carries the owner, tier, removal, enabled, feature or analytics keys |
| CardForm.EditResetsColor | frontend/src/forms/CardForm.jsx:172 | a card opened for editing and submitted untouched is sent with #2563eb, whatever its colour |
| CardForm.IntendedColor | frontend/src/forms/CardForm.jsx:172 | the intended colour is the picked hex, else the field's plain text, else #2563eb |
| CardForm.IntendedColorKeepsCard | frontend/src/forms/CardForm.jsx:43-52 | with the intended reading an untouched edit form sends back the card's own colour (#2563eb for none) |
| CardForm.IntendedDiffersOnText | frontend/src/forms/CardForm.jsx:172 | the intended and the submitted colour differ exactly on plain text other than #2563eb |
| CardForm.PayloadStable | frontend/src/forms/CardForm.jsx:158-175 | re-submitting with the links already submitted sends the same body |
| CardForm.SubmittedLinksValid | frontend/src/forms/CardForm.jsx:174 | the submitted links pass the schema whenever their platforms are in the list |
| Text.OrElse | backend/src/models/appModels/Card.js:329-331 | `x || fallback` on strings: x when it is non-empty, otherwise the fallback; empty only when both are |
| Routes.GetRoute | backend/src/routes/appRoutes/cardRoutes.js:13-37 | "/" lists the cards; a public route is reached only below /public/v/ with a non-empty slug free of "/"; an id route only with such an id |
| Routes.AsWrittenDownloadUrlsUnrouted | backend/src/models/appModels/Card.js:334-341 | the QR and vCard URLs of the virtual fields are the mount followed by /{slug}/qr or /{slug}/vcf, and no card route serves either path |
| Routes.CorrectedDownloadUrlsRouted | backend/src/routes/appRoutes/cardRoutes.js:16-19 | the corrected URLs are the mount followed by /public/v/{slug}/qr or /vcf, and for every valid slug they reach the QR and vCard routes for that slug |

## Left out

- Mongoose's own behaviour beyond the validators above is not modelled:
  - setters (trim, lowercase);
  - maxlength;
  - the email and colour regular expressions;
  - population of the owner;
  - the indexes other than the unique slug index.
- Nested objects in a request body travel whole. A partial nested object
  is not merged with the stored one.
- CardForm.Payload: the form sends partial nested objects: `branding` with
  only `primaryColor`, `content` with four of its fields and `contact`
  without the address. On create the schema fills the missing keys with
  their defaults, which the model's filled-in body gives too. On update
  `Object.assign` replaces the stored nested object, so in the source the
  missing keys (such as `secondaryColor` and `font`) become
  undefined; the model instead sends and stores the schema defaults for
  them, and does not capture that loss.
- JavaScript `undefined` and `null` text fields are modelled as the empty
  string. So an ADR line never shows the word "undefined".
- Latitude and longitude are floating point in the source and are whole
  numbers here; only their truthiness and their printed form matter.
- The sort is stable for cards created at the same instant; the database
  gives no such promise.
- Query strings that are not numbers are not modelled: the list route's
  `page` and `limit` are whole numbers or absent.
- A QR `size` or `format` given more than once is not modelled.
- QR encoding itself, the HTTP layer (status codes, headers, console
  output) and the JSON shape of responses are not modelled. Each operation
  returns a tagged outcome instead.
- The check-then-insert race in create and the concurrency of the
  fire-and-forget analytics writes are not modelled. Each operation is
  atomic, and a write's failure is the parameter `writeFails`.
- Clock values are natural numbers given to each operation.
- The capping of the history is only as strong as incrementAnalytics. A
  request body may replace the analytics sub-document wholesale, so the
  1000-entry bound is not a store invariant.
- Likewise "removed implies disabled" is not a store invariant, because a
  create or update body may set either key.
- `findTrending` (backend/src/models/appModels/Card.js:420-428) is not
  modelled: it depends on the wall clock's seven-day window.
- `tierExpiry` is not modelled.
- The `timestamps` option (backend/src/models/appModels/Card.js:311-316) is
  modelled only for `createdAt`, set once from `now`. `updatedAt` is not
  modelled, so no operation states when a card last changed.
- CardStore.Merged: a body's `_id`, `createdAt`, `tierExpiry` or unknown
  keys are not part of the patch. Object.assign would copy them onto the
  document; the model keeps the stored id and creation time.
- CardModel.HasFeature: a feature name is looked up only among the three
  tier names. A tier value that names an Object prototype member (such as
  "constructor") cannot be stored, because the tier enum rejects it, so the
  throw at backend/src/models/appModels/Card.js:375 for such a lookup is
  not modelled.
- Qr.ParseInt: a digit run is read as an exact whole number. JavaScript
  reads it as a double, so runs above 2^53 are rounded there and not here.
- Routes.GetRoute: Express's case-insensitive matching, trailing-slash
  tolerance and percent-decoding of parameters are not modelled; methods
  other than GET are not modelled.
- CardModel.SchemaValid keeps only these validators:
  - the slug pattern;
  - the required name;
  - the social platform enum and required url.
- CardForm.Lower folds only the ASCII letters. JavaScript's toLowerCase
  also maps a few non-ASCII letters into a-z (the Kelvin sign becomes k),
  which the model drops with the other non-ASCII characters.
- CardForm.SocialsEditor: the edit handlers change the shared entry in
  place. This aliasing is not modelled; the model writes a new list value.
- CardForm.Payload: the token lookup, the request and the navigation are
  not modelled; the result is the body sent. The colour field holds either
  nothing, the plain text the edit form pre-fills, or a picked colour given
  by its hex text; antd's colour object itself is not modelled.
- CardStore.Store.Update: a body carrying a password in `features` is
  echoed back as sent. The model's response always has an empty password.

## Findings

| source | as written | input that shows it | evidently intended | confidence | as-written member | corrected member |
|---|---|---|---|---|---|---|
| backend/src/controllers/appControllers/cardController/read.js:55-82 | The public view loads the card without the password. The schema never selects it (backend/src/models/appModels/Card.js:244-246) and the query excludes it again. The gate then compares the supplied password with that empty field. | A published card with protection enabled and password "s3cret", requested with password "s3cret": the request is refused as if the password were missing or wrong. | Compare the supplied password with the stored one, and admit exactly that password. | not executed | CardStore.AsWrittenGateRejectsAll | CardStore.CorrectedGateAdmitsStoredPassword |
| frontend/src/forms/CardForm.jsx:51, 172 | Edit mode pre-fills the colour field with the card's colour as a plain string. On submit only a value with `toHexString` is read, so the plain string falls back to #2563eb. | A card with primary colour "#ff0000", opened for editing and saved without touching the colour picker: the update body carries "#2563eb" and the card's colour is lost. | Send the field's colour whatever its form: the picked colour's hex, or the pre-filled text. | not executed; medium (depends on the colour picker leaving the pre-filled string in the form) | CardForm.EditResetsColor | CardForm.IntendedColorKeepsCard |
| backend/src/models/appModels/Card.js:334-341 | The qrCodeUrl and vcfUrl virtuals give {base}/api/cards/{slug}/qr and /vcf. The card routes are mounted at /api/cards (backend/src/app.js:48), and serve QR and vCard downloads only at /public/v/{slug}/qr and /vcf (backend/src/routes/appRoutes/cardRoutes.js:16-19). | Slug "jo": the QR link is /api/cards/jo/qr, which matches neither a public route nor /:id/qr/dataurl. | Build the links as {base}/api/cards/public/v/{slug}/qr and /vcf. | not executed | Routes.AsWrittenDownloadUrlsUnrouted | Routes.CorrectedDownloadUrlsRouted |
