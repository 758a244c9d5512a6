/** The two vCard serialisers: the record's baseline generateVCard
    (backend/src/models/appModels/Card.js) and the extended one of the
    vCard controller (cardController/generateVcf.js). Both emit vCard 3.0
    lines separated by LF, with no value escaping and no N line, and end in
    END:VCARD without a trailing line feed. Each is tied to a line-list
    definition of the document. */
module VCard {
  import opened CardModel
  import opened Text

  /** The lines, each followed by a line feed. */
  function Terminated(lines: seq<string>): string {
    if lines == [] then "" else lines[0] + "\n" + Terminated(lines[1..])
  }

  lemma {:induction false} TerminatedAppend(a: seq<string>, b: seq<string>)
    ensures Terminated(a + b) == Terminated(a) + Terminated(b)
  {
    if a == [] {
      assert a + b == b;
    } else {
      assert (a + b)[1..] == a[1..] + b;
      TerminatedAppend(a[1..], b);
    }
  }

  /** Appending `prefix + value` and a line feed extends the text by one line. */
  lemma TerminatedSnoc(lines: seq<string>, prefix: string, value: string)
    ensures Terminated(lines + [prefix + value]) == Terminated(lines) + prefix + value + "\n"
  {
    TerminatedAppend(lines, [prefix + value]);
    assert Terminated([prefix + value]) == prefix + value + "\n" + "";
  }

  /** A whole document: the body lines, then END:VCARD with no line feed. */
  function Render(body: seq<string>): string {
    Terminated(body) + "END:VCARD"
  }

  /** A property line, present only when `present` holds (the source's
      `if (value) vcard += ...`, with the value's truthiness as `present`). */
  function When(present: bool, prefix: string, value: string): seq<string> {
    if present then [prefix + value] else []
  }

  /** One conditional step of a serialiser: when `present`, the line
      `prefix + value` and a line feed are appended. */
  method EmitWhen(vcard: string, ghost lines: seq<string>, present: bool, prefix: string, value: string)
    returns (r: string)
    requires vcard == Terminated(lines)
    ensures r == Terminated(lines + When(present, prefix, value))
  {
    r := vcard;
    if present {
      TerminatedSnoc(lines, prefix, value);
      r := r + prefix + value + "\n";
    } else {
      assert lines + When(present, prefix, value) == lines;
    }
  }

  /** The ADR value: empty post-office box and extended address, then
      street, city, region, postal code and country. */
  function AddressValue(a: Address): string {
    ";;" + a.street + ";" + a.city + ";" + a.state + ";" + a.zipCode + ";" + a.country
  }

  function Header(c: Card): seq<string> {
    ["BEGIN:VCARD", "VERSION:3.0", "FN:" + c.content.name]
  }

  /** The three header lines as the serialisers write them. */
  lemma HeaderText(c: Card)
    ensures Terminated(Header(c)) == "BEGIN:VCARD\nVERSION:3.0\n" + "FN:" + c.content.name + "\n"
  {
    var fn := "FN:" + c.content.name;
    assert Terminated([fn]) == fn + "\n" + Terminated([]);
    assert Terminated(["VERSION:3.0", fn]) == "VERSION:3.0" + "\n" + Terminated([fn]);
    assert Terminated(Header(c)) == "BEGIN:VCARD" + "\n" + Terminated(["VERSION:3.0", fn]);
    assert "BEGIN:VCARD" + "\n" + "VERSION:3.0" + "\n" == "BEGIN:VCARD\nVERSION:3.0\n";
  }

  /** The lines both serialisers share: the header, then TITLE, ORG, the
      telephone and email lines under the serialiser's own property names,
      and URL, each only when its source is non-empty. */
  function ContactLines(c: Card, telPrefix: string, emailPrefix: string): seq<string> {
    Header(c)
    + When(c.content.title != "", "TITLE:", c.content.title)
    + When(c.content.company != "", "ORG:", c.content.company)
    + When(c.contact.phone != "", telPrefix, c.contact.phone)
    + When(c.contact.email != "", emailPrefix, c.contact.email)
    + When(c.contact.website != "", "URL:", c.contact.website)
  }

  /** Writes the shared lines, one conditional append at a time. */
  method ContactText(c: Card, telPrefix: string, emailPrefix: string) returns (vcard: string)
    ensures vcard == Terminated(ContactLines(c, telPrefix, emailPrefix))
  {
    vcard := "BEGIN:VCARD\n";
    vcard := vcard + "VERSION:3.0\n";
    assert vcard == "BEGIN:VCARD\nVERSION:3.0\n";
    vcard := vcard + "FN:" + c.content.name + "\n";
    ghost var lines := Header(c);
    HeaderText(c);
    vcard := EmitWhen(vcard, lines, c.content.title != "", "TITLE:", c.content.title);
    lines := lines + When(c.content.title != "", "TITLE:", c.content.title);
    vcard := EmitWhen(vcard, lines, c.content.company != "", "ORG:", c.content.company);
    lines := lines + When(c.content.company != "", "ORG:", c.content.company);
    vcard := EmitWhen(vcard, lines, c.contact.phone != "", telPrefix, c.contact.phone);
    lines := lines + When(c.contact.phone != "", telPrefix, c.contact.phone);
    vcard := EmitWhen(vcard, lines, c.contact.email != "", emailPrefix, c.contact.email);
    lines := lines + When(c.contact.email != "", emailPrefix, c.contact.email);
    vcard := EmitWhen(vcard, lines, c.contact.website != "", "URL:", c.contact.website);
  }

  // ---------------------------------------------------------------------
  // Baseline serialiser
  // ---------------------------------------------------------------------

  /** The baseline document's lines: the shared lines with plain TEL and
      EMAIL, then ADR when the street is set and NOTE when the bio is. */
  function BasicBody(c: Card): seq<string> {
    ContactLines(c, "TEL:", "EMAIL:")
    + When(c.contact.address.street != "", "ADR:", AddressValue(c.contact.address))
    + When(c.content.bio != "", "NOTE:", c.content.bio)
  }

  /** generateVCard: the record method appending to one string. */
  method GenerateVCard(c: Card) returns (vcard: string)
    ensures vcard == Render(BasicBody(c))
  {
    vcard := ContactText(c, "TEL:", "EMAIL:");
    ghost var lines := ContactLines(c, "TEL:", "EMAIL:");
    vcard := EmitWhen(vcard, lines, c.contact.address.street != "", "ADR:", AddressValue(c.contact.address));
    lines := lines + When(c.contact.address.street != "", "ADR:", AddressValue(c.contact.address));
    vcard := EmitWhen(vcard, lines, c.content.bio != "", "NOTE:", c.content.bio);
    vcard := vcard + "END:VCARD";
  }

  /** A prefix of the line list renders to a prefix of the text. */
  lemma {:induction false} TerminatedPrefix(a: seq<string>, b: seq<string>)
    ensures StartsWith(Terminated(a + b), Terminated(a))
  {
    TerminatedAppend(a, b);
    PrefixOfAppend(Terminated(a), Terminated(b));
  }

  /** Every document opens with the fixed header and the FN line and closes
      with END:VCARD, with no line feed after it. */
  lemma RenderFrame(c: Card, rest: seq<string>)
    ensures StartsWith(Render(Header(c) + rest), "BEGIN:VCARD\nVERSION:3.0\nFN:" + c.content.name + "\n")
    ensures var r := Render(Header(c) + rest); |r| >= 9 && r[|r| - 9..] == "END:VCARD"
  {
    var head := "BEGIN:VCARD\nVERSION:3.0\nFN:" + c.content.name + "\n";
    HeaderText(c);
    assert Terminated(Header(c)) == head;
    TerminatedAppend(Header(c), rest);
    PrefixOfAppend(head, Terminated(rest) + "END:VCARD");
    assert Render(Header(c) + rest) == head + (Terminated(rest) + "END:VCARD");
    SuffixOfAppend(Terminated(Header(c) + rest), "END:VCARD");
  }

  /** The baseline document starts with the header lines. */
  lemma BasicVCardFrame(c: Card)
    ensures StartsWith(Render(BasicBody(c)), "BEGIN:VCARD\nVERSION:3.0\nFN:" + c.content.name + "\n")
    ensures var r := Render(BasicBody(c)); |r| >= 9 && r[|r| - 9..] == "END:VCARD"
  {
    var body := BasicBody(c);
    assert body[..3] == Header(c);
    assert body == Header(c) + body[3..];
    RenderFrame(c, body[3..]);
  }

  /** No line of `lines` starts with "ADR:". */
  predicate NoAdrLine(lines: seq<string>) {
    forall k :: 0 <= k < |lines| ==> !StartsWith(lines[k], "ADR:")
  }

  lemma NoAdrWhen(present: bool, prefix: string, value: string)
    requires |prefix| > 0 && prefix[0] != 'A'
    ensures NoAdrLine(When(present, prefix, value))
  {
    if present {
      assert (prefix + value)[0] == prefix[0];
    }
  }

  lemma NoAdrConcat(a: seq<string>, b: seq<string>)
    requires NoAdrLine(a) && NoAdrLine(b)
    ensures NoAdrLine(a + b)
  {
    forall k | 0 <= k < |a + b|
      ensures !StartsWith((a + b)[k], "ADR:")
    {
      if k >= |a| {
        assert (a + b)[k] == b[k - |a|];
      }
    }
  }

  /** None of the shared lines is an ADR line, whatever the prefixes of
      the telephone and email lines, as long as they do not start with A. */
  lemma NoAdrInContact(c: Card, telPrefix: string, emailPrefix: string)
    requires |telPrefix| > 0 && telPrefix[0] != 'A' && |emailPrefix| > 0 && emailPrefix[0] != 'A'
    ensures NoAdrLine(ContactLines(c, telPrefix, emailPrefix))
  {
    var h := Header(c);
    assert h[0][0] == 'B' && h[1][0] == 'V' && h[2][0] == 'F';
    var l1 := h + When(c.content.title != "", "TITLE:", c.content.title);
    NoAdrWhen(c.content.title != "", "TITLE:", c.content.title);
    NoAdrConcat(h, When(c.content.title != "", "TITLE:", c.content.title));
    var l2 := l1 + When(c.content.company != "", "ORG:", c.content.company);
    NoAdrWhen(c.content.company != "", "ORG:", c.content.company);
    NoAdrConcat(l1, When(c.content.company != "", "ORG:", c.content.company));
    var l3 := l2 + When(c.contact.phone != "", telPrefix, c.contact.phone);
    NoAdrWhen(c.contact.phone != "", telPrefix, c.contact.phone);
    NoAdrConcat(l2, When(c.contact.phone != "", telPrefix, c.contact.phone));
    var l4 := l3 + When(c.contact.email != "", emailPrefix, c.contact.email);
    NoAdrWhen(c.contact.email != "", emailPrefix, c.contact.email);
    NoAdrConcat(l3, When(c.contact.email != "", emailPrefix, c.contact.email));
    NoAdrWhen(c.contact.website != "", "URL:", c.contact.website);
    NoAdrConcat(l4, When(c.contact.website != "", "URL:", c.contact.website));
  }

  /** The ADR line is present exactly when the street is non-empty, in the
      fixed seven-part layout even when the other parts are empty. */
  lemma BasicAdrLine(c: Card)
    ensures c.contact.address.street != "" ==> "ADR:" + AddressValue(c.contact.address) in BasicBody(c)
    ensures c.contact.address.street == "" ==> NoAdrLine(BasicBody(c))
  {
    var contact := ContactLines(c, "TEL:", "EMAIL:");
    var adr := When(c.contact.address.street != "", "ADR:", AddressValue(c.contact.address));
    var note := When(c.content.bio != "", "NOTE:", c.content.bio);
    assert BasicBody(c) == contact + adr + note;
    if c.contact.address.street == "" {
      NoAdrInContact(c, "TEL:", "EMAIL:");
      assert contact + adr == contact;
      NoAdrWhen(c.content.bio != "", "NOTE:", c.content.bio);
      NoAdrConcat(contact, note);
    } else {
      assert (contact + adr + note)[|contact|] == "ADR:" + AddressValue(c.contact.address);
    }
  }

  /** The one-email example: no TITLE, ORG, TEL, URL, ADR or NOTE line. */
  lemma BasicVCardExample(c: Card)
    requires c.content == Content("Ada Lovelace", "", "", "", "", "")
    requires c.contact == Contact("", "ada@x.com", "", Address("", "", "", "", ""), None, None)
    ensures BasicBody(c) == ["BEGIN:VCARD", "VERSION:3.0", "FN:Ada Lovelace", "EMAIL:ada@x.com"]
  {
    assert "FN:" + "Ada Lovelace" == "FN:Ada Lovelace";
    assert "EMAIL:" + "ada@x.com" == "EMAIL:ada@x.com";
    assert ContactLines(c, "TEL:", "EMAIL:") == Header(c) + ["EMAIL:" + "ada@x.com"];
  }

  // ---------------------------------------------------------------------
  // Extended serialiser
  // ---------------------------------------------------------------------

  /** JavaScript truthiness of a coordinate: null and 0 are false. */
  predicate Truthy(x: Option<int>) {
    x.Some? && x.value != 0
  }

  function GeoLines(ct: Contact): seq<string> {
    When(Truthy(ct.latitude) && Truthy(ct.longitude),
      "GEO:" + IntToString(ct.latitude.GetOr(0)) + ";", IntToString(ct.longitude.GetOr(0)))
  }

  function SocialLine(s: SocialLink): string {
    "URL;TYPE=" + s.platform + ":" + s.url
  }

  /** One URL;TYPE line per social entry, in stored order. */
  function SocialLines(socials: seq<SocialLink>): (r: seq<string>)
    ensures |r| == |socials|
    ensures forall k :: 0 <= k < |socials| ==> r[k] == SocialLine(socials[k])
  {
    if socials == [] then []
    else SocialLines(socials[..|socials| - 1]) + [SocialLine(socials[|socials| - 1])]
  }

  /** The extended document's lines before the social links. */
  function AdvancedHead(c: Card): seq<string> {
    ContactLines(c, "TEL;TYPE=WORK,VOICE:", "EMAIL;TYPE=WORK:")
    + When(c.contact.address.street != "", "ADR;TYPE=WORK:", AddressValue(c.contact.address))
    + GeoLines(c.contact)
    + When(c.content.avatar != "", "PHOTO;VALUE=URI:", c.content.avatar)
    + When(c.branding.logoUrl != "", "LOGO;VALUE=URI:", c.branding.logoUrl)
  }

  /** The extended document's lines after the social links. */
  function AdvancedTail(c: Card, appUrl: string): seq<string> {
    When(c.content.bio != "", "NOTE:", c.content.bio)
    + ["X-PROCARD-URL:" + PublicUrl(appUrl, c.slug), "X-PROCARD-TIER:" + TierName(c.tier)]
  }

  function AdvancedBody(c: Card, appUrl: string): seq<string> {
    AdvancedHead(c) + SocialLines(c.socials) + AdvancedTail(c, appUrl)
  }

  /** The head of the extended document: the shared lines with the WORK
      telephone and email, then ADR, GEO, PHOTO and LOGO when present. */
  method AdvancedHeadText(c: Card) returns (vcard: string)
    ensures vcard == Terminated(AdvancedHead(c))
  {
    vcard := ContactText(c, "TEL;TYPE=WORK,VOICE:", "EMAIL;TYPE=WORK:");
    ghost var lines := ContactLines(c, "TEL;TYPE=WORK,VOICE:", "EMAIL;TYPE=WORK:");
    vcard := EmitWhen(vcard, lines, c.contact.address.street != "", "ADR;TYPE=WORK:", AddressValue(c.contact.address));
    lines := lines + When(c.contact.address.street != "", "ADR;TYPE=WORK:", AddressValue(c.contact.address));
    vcard := EmitWhen(vcard, lines, Truthy(c.contact.latitude) && Truthy(c.contact.longitude),
      "GEO:" + IntToString(c.contact.latitude.GetOr(0)) + ";", IntToString(c.contact.longitude.GetOr(0)));
    lines := lines + GeoLines(c.contact);
    vcard := EmitWhen(vcard, lines, c.content.avatar != "", "PHOTO;VALUE=URI:", c.content.avatar);
    lines := lines + When(c.content.avatar != "", "PHOTO;VALUE=URI:", c.content.avatar);
    vcard := EmitWhen(vcard, lines, c.branding.logoUrl != "", "LOGO;VALUE=URI:", c.branding.logoUrl);
  }

  /** The forEach over the social entries: one URL;TYPE line each. */
  method EmitSocials(vcard: string, ghost lines: seq<string>, socials: seq<SocialLink>) returns (r: string)
    requires vcard == Terminated(lines)
    ensures r == Terminated(lines + SocialLines(socials))
  {
    r := vcard;
    ghost var done := lines;
    for i := 0 to |socials|
      invariant r == Terminated(done)
      invariant done == lines + SocialLines(socials[..i])
    {
      var platform := "URL;TYPE=" + socials[i].platform + ":";
      TerminatedSnoc(done, platform, socials[i].url);
      r := r + platform + socials[i].url + "\n";
      done := done + [SocialLine(socials[i])];
      assert socials[..i + 1][..i] == socials[..i];
    }
    assert socials[..|socials|] == socials;
  }

  /** generateVcfAdvanced: the head, the social lines, NOTE, then the
      public URL and the tier, and END:VCARD. */
  method GenerateVcfAdvancedText(c: Card, appUrl: string) returns (vcard: string)
    ensures vcard == Render(AdvancedBody(c, appUrl))
  {
    vcard := AdvancedHeadText(c);
    vcard := EmitSocials(vcard, AdvancedHead(c), c.socials);
    ghost var lines := AdvancedHead(c) + SocialLines(c.socials);
    vcard := EmitWhen(vcard, lines, c.content.bio != "", "NOTE:", c.content.bio);
    lines := lines + When(c.content.bio != "", "NOTE:", c.content.bio);
    TerminatedSnoc(lines, "X-PROCARD-URL:", PublicUrl(appUrl, c.slug));
    vcard := vcard + "X-PROCARD-URL:" + PublicUrl(appUrl, c.slug) + "\n";
    lines := lines + ["X-PROCARD-URL:" + PublicUrl(appUrl, c.slug)];
    TerminatedSnoc(lines, "X-PROCARD-TIER:", TierName(c.tier));
    vcard := vcard + "X-PROCARD-TIER:" + TierName(c.tier) + "\n";
    lines := lines + ["X-PROCARD-TIER:" + TierName(c.tier)];
    assert lines == AdvancedBody(c, appUrl);
    vcard := vcard + "END:VCARD";
  }

  /** The social lines sit right after the head, one per entry in stored
      order, and the document's last two lines before END:VCARD carry the
      public URL and the tier. */
  lemma AdvancedSocialsThenTrailer(c: Card, appUrl: string)
    ensures var body := AdvancedBody(c, appUrl); var h := |AdvancedHead(c)|;
      && |body| >= h + |c.socials| + 2
      && (forall k :: 0 <= k < |c.socials| ==> body[h + k] == "URL;TYPE=" + c.socials[k].platform + ":" + c.socials[k].url)
      && body[|body| - 2] == "X-PROCARD-URL:" + PublicUrl(appUrl, c.slug)
      && body[|body| - 1] == "X-PROCARD-TIER:" + TierName(c.tier)
  {
  }

  /** GEO needs both coordinates truthy: a zero on either side drops it. */
  lemma GeoNeedsBothTruthy(ct: Contact)
    ensures |GeoLines(ct)| == (if Truthy(ct.latitude) && Truthy(ct.longitude) then 1 else 0)
    ensures ct.latitude == Some(0) || ct.longitude == Some(0) ==> GeoLines(ct) == []
  {
  }

  /** For a card with none of the extended-only data (no phone, email or
      street, which change prefixes, no coordinates, avatar, logo or
      socials), the extended document is the baseline one plus the two
      X-PROCARD lines. */
  lemma AdvancedExtendsBasic(c: Card, appUrl: string)
    requires c.contact.phone == "" && c.contact.email == "" && c.contact.address.street == ""
    requires GeoLines(c.contact) == [] && c.content.avatar == "" && c.branding.logoUrl == ""
    requires c.socials == []
    ensures AdvancedBody(c, appUrl) ==
      BasicBody(c) + ["X-PROCARD-URL:" + PublicUrl(appUrl, c.slug), "X-PROCARD-TIER:" + TierName(c.tier)]
  {
  }
}
