/** The card editor of the web client (frontend/src/forms/CardForm.jsx):
    the slug it derives from the name, the list of social links it edits,
    and the body it submits to the create and update routes. */
module CardForm {
  import opened CardModel
  import opened Text
  import opened CardStore

  // ---------------------------------------------------------------------
  // Slug derivation: lower case, runs of other characters to one hyphen,
  // then one hyphen trimmed from each end
  // ---------------------------------------------------------------------

  /** A character the slug keeps as it is: `[a-z0-9]`. */
  predicate IsAlnum(ch: char) {
    'a' <= ch <= 'z' || '0' <= ch <= '9'
  }

  function LowerChar(ch: char): (r: char)
    ensures IsAlnum(r) <==> IsAlnum(ch) || 'A' <= ch <= 'Z'
    ensures !('A' <= r <= 'Z')
    ensures !('A' <= ch <= 'Z') ==> r == ch
    ensures 'A' <= ch <= 'Z' ==> 'a' <= r <= 'z' && r as int - 'a' as int == ch as int - 'A' as int
  {
    if 'A' <= ch <= 'Z' then (ch as int + 32) as char else ch
  }

  /** `toLowerCase()` on the ASCII letters. */
  function Lower(s: string): (r: string)
    ensures |r| == |s|
    ensures forall k :: 0 <= k < |r| ==> !('A' <= r[k] <= 'Z')
    ensures forall k :: 0 <= k < |s| && !('A' <= s[k] <= 'Z') ==> r[k] == s[k]
    ensures forall k :: 0 <= k < |s| && 'A' <= s[k] <= 'Z' ==>
      'a' <= r[k] <= 'z' && r[k] as int - 'a' as int == s[k] as int - 'A' as int
  {
    seq(|s|, k requires 0 <= k < |s| => LowerChar(s[k]))
  }

  predicate NoDoubleHyphen(s: string) {
    forall k :: 0 <= k < |s| - 1 ==> s[k] != '-' || s[k + 1] != '-'
  }

  predicate SlugChars(s: string) {
    forall k :: 0 <= k < |s| ==> IsSlugChar(s[k])
  }

  /** `replace(/[^a-z0-9]+/g, '-')`: every maximal run of characters
      outside `[a-z0-9]` becomes a single hyphen. */
  function Collapse(s: string): (r: string)
    ensures SlugChars(r)
    ensures |r| <= |s| && (|r| == 0 <==> |s| == 0)
    ensures |s| > 0 ==> (r[0] == '-' <==> !IsAlnum(s[0]))
  {
    if s == [] then []
    else
      var rest := Collapse(s[1..]);
      if IsAlnum(s[0]) then [s[0]] + rest
      else if |s| > 1 && !IsAlnum(s[1]) then rest
      else "-" + rest
  }

  lemma ConsNoDoubleHyphen(c: char, rest: string)
    requires NoDoubleHyphen(rest)
    requires c == '-' && |rest| > 0 ==> rest[0] != '-'
    ensures NoDoubleHyphen([c] + rest)
  {
    var r := [c] + rest;
    forall k | 1 <= k < |r| - 1
      ensures r[k] != '-' || r[k + 1] != '-'
    {
      assert r[k] == rest[k - 1] && r[k + 1] == rest[k];
    }
  }

  /** A collapsed text has no two hyphens in a row, and ends in a hyphen
      exactly when the original ended outside `[a-z0-9]`. */
  lemma {:induction false} CollapseShape(s: string)
    ensures NoDoubleHyphen(Collapse(s))
    ensures |s| > 0 ==> (Collapse(s)[|Collapse(s)| - 1] == '-' <==> !IsAlnum(s[|s| - 1]))
  {
    if s != [] {
      CollapseShape(s[1..]);
      var rest := Collapse(s[1..]);
      if IsAlnum(s[0]) {
        ConsNoDoubleHyphen(s[0], rest);
      } else if !(|s| > 1 && !IsAlnum(s[1])) {
        ConsNoDoubleHyphen('-', rest);
        assert "-" + rest == ['-'] + rest;
      }
      if |s| > 1 {
        assert s[1..][|s| - 2] == s[|s| - 1];
      }
    }
  }

  /** Collapsing works piecewise wherever a letter or digit sits on either
      side of the cut. */
  lemma {:induction false} CollapseAppend(a: string, t: string)
    requires a == [] || t == [] || IsAlnum(a[|a| - 1]) || IsAlnum(t[0])
    ensures Collapse(a + t) == Collapse(a) + Collapse(t)
  {
    if a != [] {
      var a' := a[1..];
      assert (a + t)[1..] == a' + t;
      if a' != [] {
        assert a'[|a'| - 1] == a[|a| - 1];
      }
      CollapseAppend(a', t);
      if a' != [] {
        assert (a + t)[1] == a[1];
      } else if t != [] {
        assert (a + t)[1] == t[0];
        assert Collapse(a') == [];
      }
    } else {
      assert a + t == t;
    }
  }

  /** A run made only of characters outside `[a-z0-9]` collapses to one
      hyphen. */
  lemma {:induction false} CollapseRun(m: string)
    requires |m| > 0 && forall k :: 0 <= k < |m| ==> !IsAlnum(m[k])
    ensures Collapse(m) == "-"
  {
    if |m| > 1 {
      CollapseRun(m[1..]);
    }
  }

  lemma CollapseRunThen(m: string, b: string)
    requires |m| > 0 && forall k :: 0 <= k < |m| ==> !IsAlnum(m[k])
    requires b == [] || IsAlnum(b[0])
    ensures Collapse(m + b) == "-" + Collapse(b)
  {
    CollapseAppend(m, b);
    CollapseRun(m);
  }

  lemma CollapseRunSplit(a: string, m: string, b: string)
    requires a == [] || IsAlnum(a[|a| - 1])
    requires |m| > 0 && forall k :: 0 <= k < |m| ==> !IsAlnum(m[k])
    requires b == [] || IsAlnum(b[0])
    ensures Collapse(a + (m + b)) == Collapse(a) + ("-" + Collapse(b))
  {
    var mb := m + b;
    assert mb[0] == m[0];
    CollapseAppend(a, mb);
    CollapseRunThen(m, b);
  }

  /** A run of other characters between two letters or digits (or at the
      end) becomes exactly one hyphen, and the two sides collapse on their
      own. */
  lemma CollapseRunBetween(a: string, m: string, b: string)
    requires a == [] || IsAlnum(a[|a| - 1])
    requires |m| > 0 && forall k :: 0 <= k < |m| ==> !IsAlnum(m[k])
    requires b == [] || IsAlnum(b[0])
    ensures Collapse(a + m + b) == Collapse(a) + "-" + Collapse(b)
  {
    CollapseRunSplit(a, m, b);
    assert a + m + b == a + (m + b);
    var ca, cb := Collapse(a), Collapse(b);
    assert ca + ("-" + cb) == ca + "-" + cb;
  }

  /** `replace(/(^-|-$)/g, '')`: one leading and one trailing hyphen go. */
  function TrimHyphens(t: string): (r: string)
    ensures var i := if |t| > 0 && t[0] == '-' then 1 else 0;
      && i + |r| <= |t| && r == t[i..i + |r|]
      && |r| == |t| - i - (if |t| > i && t[|t| - 1] == '-' then 1 else 0)
    ensures |t| == 0 || (t[0] != '-' && t[|t| - 1] != '-') ==> r == t
    ensures SlugChars(t) ==> SlugChars(r)
  {
    var a := if |t| > 0 && t[0] == '-' then t[1..] else t;
    if |a| > 0 && a[|a| - 1] == '-' then a[..|a| - 1] else a
  }

  /** A slug the derivation can produce: slug characters only, no two
      hyphens in a row, none at either end. */
  predicate SlugShaped(s: string) {
    && SlugChars(s)
    && NoDoubleHyphen(s)
    && (|s| > 0 ==> s[0] != '-' && s[|s| - 1] != '-')
  }

  lemma TrimShapes(t: string)
    requires SlugChars(t) && NoDoubleHyphen(t)
    ensures SlugShaped(TrimHyphens(t))
  {
    var a := if |t| > 0 && t[0] == '-' then t[1..] else t;
    assert |a| > 0 ==> a[0] != '-' by {
      if |t| > 0 && t[0] == '-' && |a| > 0 {
        assert a[0] == t[1];
      }
    }
    assert NoDoubleHyphen(a) by {
      forall k | 0 <= k < |a| - 1
        ensures a[k] != '-' || a[k + 1] != '-'
      {
        if |t| > 0 && t[0] == '-' {
          assert a[k] == t[k + 1] && a[k + 1] == t[k + 2];
        }
      }
    }
    if |a| > 0 && a[|a| - 1] == '-' {
      var b := a[..|a| - 1];
      assert |b| > 0 ==> b[|b| - 1] == a[|a| - 2];
    }
  }

  /** The slug the form derives from the name. */
  function DeriveSlug(name: string): (slug: string)
    ensures SlugShaped(slug)
  {
    var collapsed := Collapse(Lower(name));
    CollapseShape(Lower(name));
    TrimShapes(collapsed);
    TrimHyphens(collapsed)
  }

  /** A shaped slug that is not empty is one the schema accepts. */
  lemma DerivedSlugMatchesPattern(name: string)
    ensures DeriveSlug(name) != "" ==> SlugPattern(DeriveSlug(name))
  {
  }

  // The letters and digits of a text, in order.
  function Alnums(s: string): (r: string)
    ensures |r| <= |s|
  {
    if s == [] then [] else (if IsAlnum(s[0]) then [s[0]] else []) + Alnums(s[1..])
  }

  lemma {:induction false} AlnumsAppend(a: string, b: string)
    ensures Alnums(a + b) == Alnums(a) + Alnums(b)
  {
    if a != [] {
      AlnumsAppend(a[1..], b);
      assert (a + b)[0] == a[0] && (a + b)[1..] == a[1..] + b;
    } else {
      assert a + b == b;
    }
  }

  lemma {:induction false} AlnumsCollapse(s: string)
    ensures Alnums(Collapse(s)) == Alnums(s)
  {
    if s != [] {
      AlnumsCollapse(s[1..]);
      var rest := Collapse(s[1..]);
      if IsAlnum(s[0]) {
        assert ([s[0]] + rest)[1..] == rest;
      } else if !(|s| > 1 && !IsAlnum(s[1])) {
        assert ("-" + rest)[1..] == rest;
      }
    }
  }

  lemma AlnumsTrim(t: string)
    ensures Alnums(TrimHyphens(t)) == Alnums(t)
  {
    var a := if |t| > 0 && t[0] == '-' then t[1..] else t;
    assert Alnums(a) == Alnums(t);
    if |a| > 0 && a[|a| - 1] == '-' {
      AlnumsAppend(a[..|a| - 1], "-");
      assert a[..|a| - 1] + "-" == a;
    }
  }

  /** Alnums is empty exactly when no character is a letter or digit. */
  lemma {:induction false} AlnumsEmpty(s: string)
    ensures Alnums(s) == [] <==> forall k :: 0 <= k < |s| ==> !IsAlnum(s[k])
  {
    if s != [] {
      AlnumsEmpty(s[1..]);
      assert forall k :: 1 <= k < |s| ==> s[k] == s[1..][k - 1];
    }
  }

  /** The slug keeps every letter and digit of the name, lower-cased and in
      order, and nothing else but hyphens. */
  lemma SlugKeepsLettersAndDigits(name: string)
    ensures Alnums(DeriveSlug(name)) == Alnums(Lower(name))
  {
    AlnumsCollapse(Lower(name));
    AlnumsTrim(Collapse(Lower(name)));
  }

  /** The slug is empty exactly when the name holds no ASCII letter or
      digit; the create route then refuses the card for want of a slug. */
  lemma EmptySlugIffNoLetterOrDigit(name: string)
    ensures DeriveSlug(name) == "" <==>
      forall k :: 0 <= k < |name| ==> !(IsAlnum(name[k]) || 'A' <= name[k] <= 'Z')
  {
    var slug := DeriveSlug(name);
    SlugKeepsLettersAndDigits(name);
    AlnumsEmpty(slug);
    AlnumsEmpty(Lower(name));
    if slug != "" {
      assert IsAlnum(slug[0]);
    }
  }

  lemma {:induction false} CollapseShaped(s: string)
    requires SlugChars(s) && NoDoubleHyphen(s)
    requires |s| > 0 ==> s[|s| - 1] != '-'
    ensures Collapse(s) == s
  {
    if s != [] {
      CollapseShaped(s[1..]);
      assert s == [s[0]] + s[1..];
    }
  }

  /** Deriving a slug from a derived slug returns it unchanged. */
  lemma DeriveSlugIdempotent(name: string)
    ensures DeriveSlug(DeriveSlug(name)) == DeriveSlug(name)
  {
    var slug := DeriveSlug(name);
    assert Lower(slug) == slug;
    CollapseShaped(slug);
    assert TrimHyphens(slug) == slug;
  }

  lemma DeriveSlugExample()
    ensures DeriveSlug("Jo B!") == "jo-b"
  {
    var lowered := "jo b!";
    assert Lower("Jo B!") == lowered;
    assert Collapse("!") == "-";
    assert Collapse("b!") == "b-" by { assert "b!"[1..] == "!"; }
    assert Collapse(" b!") == "-b-" by { assert " b!"[1..] == "b!"; }
    assert Collapse("o b!") == "o-b-" by { assert "o b!"[1..] == " b!"; }
    assert Collapse(lowered) == "jo-b-" by { assert lowered[1..] == "o b!"; }
    assert "jo-b-"[..4] == "jo-b";
  }

  // ---------------------------------------------------------------------
  // The social links being edited
  // ---------------------------------------------------------------------

  /** `filter((_, i) => i !== index)`, walked from the back. */
  function WithoutIndex(s: seq<SocialLink>, index: int): (r: seq<SocialLink>)
    ensures 0 <= index < |s| ==> r == s[..index] + s[index + 1..]
    ensures !(0 <= index < |s|) ==> r == s
  {
    if s == [] then []
    else
      var front := s[..|s| - 1];
      var kept := WithoutIndex(front, index);
      if |s| - 1 == index then
        assert s[..index] == front && s[index + 1..] == [];
        kept
      else
        assert s == front + [s[|s| - 1]];
        kept + [s[|s| - 1]]
  }

  /** The link a click on "Add Link" appends. The client leaves out the
      icon and order, which the schema fills with "" and 0. */
  const NewLink := SocialLink("LinkedIn", "", "", 0)

  /** `socials.filter((s) => s.url)`: the links whose URL is filled in, in
      order. */
  function WithUrl(s: seq<SocialLink>): (r: seq<SocialLink>)
    ensures |r| <= |s|
    ensures forall k :: 0 <= k < |r| ==> r[k].url != ""
    ensures forall x :: x in r <==> x in s && x.url != ""
  {
    if s == [] then []
    else
      var rest := WithUrl(s[..|s| - 1]);
      assert forall x :: x in s <==> x in s[..|s| - 1] || x == s[|s| - 1];
      if s[|s| - 1].url != "" then rest + [s[|s| - 1]] else rest
  }

  lemma {:induction false} WithUrlAppend(s: seq<SocialLink>, t: seq<SocialLink>)
    ensures WithUrl(s + t) == WithUrl(s) + WithUrl(t)
    decreases |t|
  {
    if t != [] {
      var front := t[..|t| - 1];
      WithUrlAppend(s, front);
      assert (s + t)[..|s + t| - 1] == s + front;
    } else {
      assert s + t == s;
    }
  }

  /** Filtering twice keeps what filtering once kept. */
  lemma {:induction false} WithUrlIdempotent(s: seq<SocialLink>)
    ensures WithUrl(WithUrl(s)) == WithUrl(s)
  {
    if s != [] {
      var front := s[..|s| - 1];
      WithUrlIdempotent(front);
      var last := s[|s| - 1];
      if last.url != "" {
        WithUrlAppend(WithUrl(front), [last]);
        assert [last][..0] == [];
      }
    }
  }

  /** A link added and left blank is not submitted. */
  lemma BlankLinkNotSubmitted(s: seq<SocialLink>)
    ensures WithUrl(s + [NewLink]) == WithUrl(s)
  {
    assert (s + [NewLink])[..|s|] == s;
  }

  /** The socials state of the form. The edit handlers copy the array but
      change the shared entry in place; the copy is modelled as a new
      value, since no other reference to the old array is read again. */
  class SocialsEditor {
    var socials: seq<SocialLink>

    /** The form opens with the card's links when it has any, and with
        none otherwise. */
    constructor (initial: seq<SocialLink>)
      ensures socials == initial
    {
      socials := initial;
    }

    /** Appends a blank LinkedIn link at the end. */
    method AddSocialLink()
      modifies this
      ensures socials == old(socials) + [NewLink]
      ensures WithUrl(socials) == WithUrl(old(socials))
    {
      BlankLinkNotSubmitted(socials);
      socials := socials + [NewLink];
    }

    /** Drops the link at `index`; the others keep their order. An index
        outside the list drops nothing. */
    method RemoveSocialLink(index: int)
      modifies this
      ensures 0 <= index < |old(socials)| ==>
        socials == old(socials)[..index] + old(socials)[index + 1..]
      ensures !(0 <= index < |old(socials)|) ==> socials == old(socials)
    {
      socials := WithoutIndex(socials, index);
    }

    /** Typing in a row's platform field. Rows exist only for indices of
        the list. */
    method SetPlatform(index: nat, platform: string)
      requires index < |socials|
      modifies this
      ensures socials == old(socials)[index := old(socials)[index].(platform := platform)]
    {
      socials := socials[index := socials[index].(platform := platform)];
    }

    /** Typing in a row's URL field. */
    method SetUrl(index: nat, url: string)
      requires index < |socials|
      modifies this
      ensures socials == old(socials)[index := old(socials)[index].(url := url)]
    {
      socials := socials[index := socials[index].(url := url)];
    }
  }

  // ---------------------------------------------------------------------
  // The submitted body
  // ---------------------------------------------------------------------

  /** The value of the colour field: untouched, the plain text the edit
      form pre-fills it with, or a colour chosen in the picker, given by
      its hex text. */
  datatype ColorValue = NoColor | ColorText(text: string) | PickedColor(hex: string)

  /** The form's field values; None is a field never touched. */
  datatype FormValues = FormValues(
    name: string,
    title: Option<string>,
    company: Option<string>,
    bio: Option<string>,
    email: Option<string>,
    phone: Option<string>,
    website: Option<string>,
    primaryColor: ColorValue)

  const DefaultPrimaryColor := "#2563eb"

  /** `primaryColor?.toHexString?.() || '#2563eb'`: only a colour chosen in
      the picker has a hex text; plain text, like no value, falls back to
      the default. */
  function SubmittedColor(c: ColorValue): (r: string)
    ensures r != ""
    ensures c.PickedColor? && c.hex != "" ==> r == c.hex
    ensures !(c.PickedColor? && c.hex != "") ==> r == DefaultPrimaryColor
  {
    match c
    case PickedColor(hex) => OrElse(hex, DefaultPrimaryColor)
    case _ => DefaultPrimaryColor
  }

  /** The values the edit form is pre-filled with from a stored card: its
      text fields, and its primary colour (or the default) as plain text. */
  function EditValues(c: Card): (v: FormValues)
    ensures v.name == c.content.name && v.title == Some(c.content.title)
    ensures v.email == Some(c.contact.email) && v.website == Some(c.contact.website)
    ensures v.primaryColor == ColorText(OrElse(c.branding.primaryColor, DefaultPrimaryColor))
  {
    FormValues(c.content.name, Some(c.content.title), Some(c.content.company), Some(c.content.bio),
      Some(c.contact.email), Some(c.contact.phone), Some(c.contact.website),
      ColorText(OrElse(c.branding.primaryColor, DefaultPrimaryColor)))
  }

  /** The body onFinish sends: the derived slug, the text fields with ""
      for those left empty, the primary colour with its default, and the
      links that have a URL. Keys the form does not send stay None. */
  function Payload(v: FormValues, socials: seq<SocialLink>): (p: CardPatch)
    ensures p.slug == Some(DeriveSlug(v.name)) && SlugShaped(p.slug.value)
    ensures p.socials == Some(WithUrl(socials))
    ensures forall x :: x in p.socials.value <==> x in socials && x.url != ""
    ensures p.content.Some? && p.content.value.name == v.name
    ensures p.content.value.title == v.title.GetOr("") && p.content.value.company == v.company.GetOr("")
    ensures p.content.value.bio == v.bio.GetOr("")
    ensures p.branding.Some? && p.branding.value.primaryColor != ""
    ensures v.primaryColor.PickedColor? && v.primaryColor.hex != "" ==>
      p.branding.value.primaryColor == v.primaryColor.hex
    ensures !(v.primaryColor.PickedColor? && v.primaryColor.hex != "") ==>
      p.branding.value.primaryColor == DefaultPrimaryColor
    ensures p.branding.value.(primaryColor := DefaultBranding.primaryColor) == DefaultBranding
    ensures p.contact.Some? && p.contact.value.address == DefaultContact.address
    ensures p.contact.value.email == v.email.GetOr("") && p.contact.value.phone == v.phone.GetOr("")
    ensures p.contact.value.website == v.website.GetOr("")
    ensures p.owner.None? && p.tier.None? && p.removed.None? && p.enabled.None?
    ensures p.features.None? && p.analytics.None?
  {
    CardPatch(
      None, None, None, None,
      Some(DeriveSlug(v.name)),
      Some(DefaultBranding.(primaryColor := SubmittedColor(v.primaryColor))),
      Some(DefaultContent.(name := v.name, title := v.title.GetOr(""), company := v.company.GetOr(""),
        bio := v.bio.GetOr(""))),
      Some(DefaultContact.(email := v.email.GetOr(""), phone := v.phone.GetOr(""),
        website := v.website.GetOr(""))),
      Some(WithUrl(socials)),
      None, None)
  }

  /** Submitting the same form twice sends the same body, and a body
      assembled from the submitted socials again sends them unchanged. */
  lemma PayloadStable(v: FormValues, socials: seq<SocialLink>)
    ensures Payload(v, Payload(v, socials).socials.value) == Payload(v, socials)
  {
    WithUrlIdempotent(socials);
  }

  /** Every submitted link passes the schema whenever its platform is one
      of the listed ones; the form itself never checks the platform. */
  lemma SubmittedLinksValid(v: FormValues, socials: seq<SocialLink>)
    requires forall x :: x in socials ==> x.platform in Platforms
    ensures forall k :: 0 <= k < |Payload(v, socials).socials.value| ==>
      SocialValid(Payload(v, socials).socials.value[k])
  {
  }

  /** Opening a stored card in the edit form and submitting it untouched
      sends the default primary colour, whatever colour the card had: the
      pre-filled plain text has no hex text to read. */
  lemma EditResetsColor(c: Card, socials: seq<SocialLink>)
    ensures Payload(EditValues(c), socials).branding.value.primaryColor == DefaultPrimaryColor
  {
  }

  /** The colour the form evidently means to submit: a picked colour's
      hex text, otherwise the plain text the field holds, otherwise the
      default. */
  function IntendedColor(c: ColorValue): (r: string)
    ensures r != ""
    ensures c.PickedColor? && c.hex != "" ==> r == c.hex
    ensures c.ColorText? && c.text != "" ==> r == c.text
    ensures c.NoColor? ==> r == DefaultPrimaryColor
  {
    match c
    case PickedColor(hex) => OrElse(hex, DefaultPrimaryColor)
    case ColorText(text) => OrElse(text, DefaultPrimaryColor)
    case NoColor => DefaultPrimaryColor
  }

  /** With the intended reading, an untouched edit form sends back the
      card's own colour, and differs from the submitted one exactly on
      plain text other than the default. */
  lemma IntendedColorKeepsCard(c: Card)
    ensures c.branding.primaryColor != "" ==>
      IntendedColor(EditValues(c).primaryColor) == c.branding.primaryColor
    ensures c.branding.primaryColor == "" ==>
      IntendedColor(EditValues(c).primaryColor) == DefaultPrimaryColor
  {
  }

  lemma IntendedDiffersOnText(c: ColorValue)
    ensures IntendedColor(c) != SubmittedColor(c) <==> c.ColorText? && c.text != "" && c.text != DefaultPrimaryColor
  {
  }
}
