/** QR code requests: the card lookup and the option set handed to the QR
    encoder by the two QR routes
    (backend/src/controllers/appControllers/cardController/generateQr.js).
    The encoder itself is outside the model; what is modelled is what it is
    asked to encode and with which options. */
module Qr {
  import opened CardModel
  import opened Text
  import opened CardStore
  import opened VCard

  // ---------------------------------------------------------------------
  // JavaScript parseInt with no radix
  // ---------------------------------------------------------------------

  /** The white space and line terminators parseInt skips: the ASCII ones,
      the byte order mark and the Unicode space separators. */
  predicate IsSpace(ch: char) {
    ch == ' ' || ch == '\t' || ch == '\n' || ch == '\r' || ch == '\U{000B}' || ch == '\U{000C}'
    || ch == '\U{00A0}' || ch == '\U{FEFF}' || ch == '\U{1680}' || '\U{2000}' <= ch <= '\U{200A}'
    || ch == '\U{2028}' || ch == '\U{2029}' || ch == '\U{202F}' || ch == '\U{205F}' || ch == '\U{3000}'
  }

  function TrimStart(s: string): (r: string)
    ensures |r| <= |s| && r == s[|s| - |r|..]
    ensures |r| > 0 ==> !IsSpace(r[0])
    ensures |s| > 0 && !IsSpace(s[0]) ==> r == s
  {
    if |s| > 0 && IsSpace(s[0]) then TrimStart(s[1..]) else s
  }

  /** The value of a digit in base 10 or 16, None for a non-digit. */
  function DigitValue(ch: char, radix: nat): (r: Option<nat>)
    ensures r.Some? ==> r.value < radix
  {
    if '0' <= ch <= '9' && (ch as int) - ('0' as int) < radix then Some((ch as int) - ('0' as int))
    else if radix == 16 && 'a' <= ch <= 'f' then Some((ch as int) - ('a' as int) + 10)
    else if radix == 16 && 'A' <= ch <= 'F' then Some((ch as int) - ('A' as int) + 10)
    else None
  }

  predicate AllDigits(s: string, radix: nat) {
    forall k :: 0 <= k < |s| ==> DigitValue(s[k], radix).Some?
  }

  /** The length of the longest prefix made of digits. */
  function DigitRun(s: string, radix: nat): (n: nat)
    ensures n <= |s| && AllDigits(s[..n], radix)
    ensures n < |s| ==> DigitValue(s[n], radix).None?
  {
    if |s| > 0 && DigitValue(s[0], radix).Some? then
      var n := 1 + DigitRun(s[1..], radix);
      assert forall k :: 1 <= k < n ==> s[..n][k] == s[1..][..n - 1][k - 1];
      n
    else 0
  }

  /** The number a string of digits denotes, most significant first. */
  function DigitsValue(s: string, radix: nat): nat
    requires AllDigits(s, radix)
  {
    if s == [] then 0
    else DigitsValue(s[..|s| - 1], radix) * radix + DigitValue(s[|s| - 1], radix).value
  }

  /** The longest run of digits at the front, as a number; None when the
      text does not start with a digit. */
  function ParseDigits(body: string, radix: nat): (r: Option<nat>)
    ensures r.None? <==> (|body| == 0 || DigitValue(body[0], radix).None?)
  {
    var n := DigitRun(body, radix);
    if n == 0 then None else Some(DigitsValue(body[..n], radix))
  }

  /** After the sign: a 0x or 0X prefix switches to base 16. */
  function ParseUnsigned(u: string): Option<nat> {
    if |u| >= 2 && u[0] == '0' && (u[1] == 'x' || u[1] == 'X') then ParseDigits(u[2..], 16)
    else ParseDigits(u, 10)
  }

  /** parseInt(s) with no radix: leading white space, an optional sign,
      then the unsigned part; None stands for NaN. */
  function ParseInt(s: string): (r: Option<int>)
    ensures TrimStart(s) == "" ==> r.None?
    ensures var t := TrimStart(s);
      |t| > 0 && t[0] != '-' && t[0] != '+' && DigitValue(t[0], 10).None? ==> r.None?
    ensures r.Some? && r.value < 0 ==> TrimStart(s)[0] == '-'
  {
    var t := TrimStart(s);
    if |t| > 0 && t[0] == '-' then
      match ParseUnsigned(t[1..])
      case None => None
      case Some(m) => Some(-(m as int))
    else if |t| > 0 && t[0] == '+' then
      match ParseUnsigned(t[1..])
      case None => None
      case Some(m) => Some(m)
    else
      match ParseUnsigned(t)
      case None => None
      case Some(m) => Some(m)
  }

  lemma DigitCharValue(d: nat)
    requires d < 10
    ensures DigitValue(DigitChar(d), 10) == Some(d)
  {
    assert "0123456789"[d] as int == '0' as int + d by {
      if d == 0 {} else if d == 1 {} else if d == 2 {} else if d == 3 {} else if d == 4 {}
      else if d == 5 {} else if d == 6 {} else if d == 7 {} else if d == 8 {} else {}
    }
  }

  lemma {:induction false} DecimalValue(n: nat)
    ensures AllDigits(NatToString(n), 10)
    ensures DigitsValue(NatToString(n), 10) == n
  {
    var s := NatToString(n);
    if n < 10 {
      DigitCharValue(n);
      assert s == [DigitChar(n)];
      assert s[..|s| - 1] == [];
    } else {
      DecimalValue(n / 10);
      DigitCharValue(n % 10);
      assert s[..|s| - 1] == NatToString(n / 10);
      forall k | 0 <= k < |s|
        ensures DigitValue(s[k], 10).Some?
      {
        if k < |s| - 1 {
          assert s[k] == NatToString(n / 10)[k];
        }
      }
    }
  }

  /** A decimal numeral reads back as the number it renders. */
  lemma UnsignedRoundTrip(n: nat)
    ensures ParseUnsigned(NatToString(n)) == Some(n)
  {
    var digits := NatToString(n);
    DecimalValue(n);
    assert |digits| >= 2 ==> digits[1] != 'x' && digits[1] != 'X';
    assert DigitRun(digits, 10) == |digits|;
    assert digits[..|digits|] == digits;
  }

  /** parseInt reads back every whole number as JavaScript prints it. */
  lemma ParseIntRoundTrip(i: int)
    ensures ParseInt(IntToString(i)) == Some(i)
  {
    var m: nat := if i < 0 then -i else i;
    var digits := NatToString(m);
    UnsignedRoundTrip(m);
    var s := IntToString(i);
    assert !IsSpace(s[0]);
    assert TrimStart(s) == s;
    if i < 0 {
      assert s[1..] == digits;
    } else {
      assert s == digits && s[0] != '-' && s[0] != '+';
    }
  }

  /** A number followed by other text reads as its leading digits. */
  lemma ParseIntTrailingText()
    ensures ParseInt("250px") == Some(250)
  {
    var s := "250px";
    assert TrimStart(s) == s;
    assert s[0] != '-' && s[0] != '+' && s[0] != '0';
    DecimalDigitsBeforeText();
  }

  lemma DecimalDigitsBeforeText()
    ensures ParseDigits("250px", 10) == Some(250)
  {
    var s := "250px";
    assert DigitRun("px", 10) == 0;
    assert DigitRun("0px", 10) == 1 by { assert "0px"[1..] == "px"; }
    assert DigitRun("50px", 10) == 2 by { assert "50px"[1..] == "0px"; }
    assert DigitRun(s, 10) == 3 by { assert s[1..] == "50px"; }
    assert s[..3] == "250";
    assert DigitsValue("250", 10) == 250 by {
      assert "250"[..2] == "25" && "25"[..1] == "2" && "2"[..0] == "";
    }
  }

  lemma HexDigits()
    ensures ParseDigits("1A", 16) == Some(26)
  {
    assert DigitRun("1A", 16) == 2 by {
      assert "1A"[1..] == "A" && "A"[1..] == "";
    }
    assert "1A"[..2] == "1A";
    assert DigitsValue("1A", 16) == 26 by {
      assert "1A"[..1] == "1" && "1"[..0] == "";
    }
  }

  lemma TrimTwoSpaces()
    ensures TrimStart("  0x1A") == "0x1A"
  {
    var s0, s1, s2 := "  0x1A", " 0x1A", "0x1A";
    assert s2[0] == '0' && !IsSpace(s2[0]);
    assert TrimStart(s2) == s2;
    assert s1[0] == ' ' && s1[1..] == s2;
    assert TrimStart(s1) == s2;
    assert s0[0] == ' ' && s0[1..] == s1;
  }

  lemma UnsignedHex()
    ensures ParseUnsigned("0x1A") == Some(26)
  {
    assert "0x1A"[2..] == "1A";
    HexDigits();
  }

  /** Leading white space is skipped and 0x switches to base 16. */
  lemma ParseIntHex()
    ensures ParseInt("  0x1A") == Some(26)
  {
    TrimTwoSpaces();
    UnsignedHex();
    var t := "0x1A";
    assert t[0] != '-' && t[0] != '+';
  }

  /** Text with no leading digit is NaN. */
  lemma ParseIntNaN()
    ensures ParseInt("abc") == None
    ensures ParseInt("") == None
  {
    assert TrimStart("abc") == "abc";
  }

  // ---------------------------------------------------------------------
  // Options
  // ---------------------------------------------------------------------

  /** `parseInt(size) || 300`: NaN and 0 fall back to 300. An absent size
      is the number 300. */
  function QrWidth(size: Option<string>): (w: int)
    ensures w != 0
    ensures size.None? ==> w == 300
    ensures size.Some? && ParseInt(size.value).None? ==> w == 300
    ensures size.Some? && ParseInt(size.value).Some? && ParseInt(size.value).value != 0 ==> w == ParseInt(size.value).value
    ensures w != 300 ==> size.Some? && ParseInt(size.value) == Some(w)
  {
    match size
    case None => 300
    case Some(text) =>
      match ParseInt(text)
      case None => 300
      case Some(n) => if n == 0 then 300 else n
  }

  lemma QrWidthOfNumber(n: int)
    ensures QrWidth(Some(IntToString(n))) == if n == 0 then 300 else n
  {
    ParseIntRoundTrip(n);
  }

  datatype ImageKind = Png | Svg | DataUrl

  /** What the encoder is asked for. `margin` is None when the encoder's own
      default applies. */
  datatype QrOptions = QrOptions(width: int, margin: Option<int>, dark: string, light: string, level: string)

  datatype QrRequest = QrRequest(payload: string, kind: ImageKind, options: QrOptions)

  /** The public route's request: the card's public URL, SVG when the
      format is exactly "svg" and PNG otherwise, the parsed width, a margin
      of 2, and the card's QR style with black, white and level M filling
      in empty values. */
  function PublicQrRequest(c: Card, format: Option<string>, size: Option<string>, appUrl: string): (q: QrRequest)
    ensures q.payload == PublicUrl(appUrl, c.slug)
    ensures q.kind == (if format == Some("svg") then Svg else Png)
    ensures q.options.width == QrWidth(size) && q.options.margin == Some(2)
    ensures q.options.dark != "" && q.options.light != "" && q.options.level != ""
    ensures c.features.qrStyle.foregroundColor != "" ==> q.options.dark == c.features.qrStyle.foregroundColor
    ensures c.features.qrStyle.backgroundColor != "" ==> q.options.light == c.features.qrStyle.backgroundColor
    ensures c.features.qrStyle.errorCorrectionLevel != "" ==> q.options.level == c.features.qrStyle.errorCorrectionLevel
  {
    var style := c.features.qrStyle;
    QrRequest(
      PublicUrl(appUrl, c.slug),
      if format.GetOr("png") == "svg" then Svg else Png,
      QrOptions(QrWidth(size), Some(2), OrElse(style.foregroundColor, "#000000"),
        OrElse(style.backgroundColor, "#ffffff"), OrElse(style.errorCorrectionLevel, "M")))
  }

  /** generateQr: a published card's QR request, or not found. */
  function GenerateQr(cards: seq<Card>, slug: string, format: Option<string>, size: Option<string>, appUrl: string)
    : (r: Outcome<QrRequest>)
    ensures r.Ok? <==> FindOne(cards, Published(slug)).Some?
    ensures r.Rejected? ==> r.reason == NotFound
    ensures r.Ok? ==> r.value.payload == PublicUrl(appUrl, slug)
    ensures r.Ok? ==> r.value == PublicQrRequest(cards[FindOne(cards, Published(slug)).value], format, size, appUrl)
  {
    match FindOne(cards, Published(slug))
    case None => Rejected(NotFound)
    case Some(i) => Ok(PublicQrRequest(cards[i], format, size, appUrl))
  }

  /** generateQrDataUrl: the owner's card, a data URL of width 400, the
      QR style passed through without fallbacks, and the encoder's own
      margin. */
  function GenerateQrDataUrl(cards: seq<Card>, id: CardId, owner: OwnerId, appUrl: string): (r: Outcome<QrRequest>)
    ensures r.Ok? <==> FindOne(cards, Owned(id, owner)).Some?
    ensures r.Rejected? ==> r.reason == NotFound
    ensures r.Ok? ==>
      var c := cards[FindOne(cards, Owned(id, owner)).value];
      && r.value == QrRequest(PublicUrl(appUrl, c.slug), DataUrl,
           QrOptions(400, None, c.features.qrStyle.foregroundColor, c.features.qrStyle.backgroundColor,
             c.features.qrStyle.errorCorrectionLevel))
  {
    match FindOne(cards, Owned(id, owner))
    case None => Rejected(NotFound)
    case Some(i) =>
      var style := cards[i].features.qrStyle;
      Ok(QrRequest(PublicUrl(appUrl, cards[i].slug), DataUrl,
        QrOptions(400, None, style.foregroundColor, style.backgroundColor, style.errorCorrectionLevel)))
  }

  /** For a card whose QR style is fully set, both routes encode the same
      URL with the same colours and level, and differ only in size, margin
      and image kind. With an empty colour they part ways: the public route
      fills in black or white, the data URL route passes the empty value on. */
  lemma RoutesAgreeOnStyle(c: Card, format: Option<string>, size: Option<string>, appUrl: string)
    ensures var pub := PublicQrRequest(c, format, size, appUrl);
            var style := c.features.qrStyle;
            var data := QrOptions(400, None, style.foregroundColor, style.backgroundColor, style.errorCorrectionLevel);
      && pub.payload == PublicUrl(appUrl, c.slug)
      && (style.foregroundColor != "" && style.backgroundColor != "" && style.errorCorrectionLevel != "" ==>
            pub.options.(width := 400, margin := None) == data)
      && (style.foregroundColor == "" ==> pub.options.dark == "#000000" && data.dark == "")
  {
  }

  /** The QR code encodes the same URL the extended vCard carries in its
      X-PROCARD-URL line, the last line but one. */
  lemma QrMatchesVcardUrl(c: Card, format: Option<string>, size: Option<string>, appUrl: string)
    ensures var body := AdvancedBody(c, appUrl);
      |body| >= 2 && body[|body| - 2] == "X-PROCARD-URL:" + PublicQrRequest(c, format, size, appUrl).payload
  {
    AdvancedSocialsThenTrailer(c, appUrl);
  }
}
