/** The card routes answering GET requests under the `/api/cards` mount
    (backend/src/app.js and backend/src/routes/appRoutes/cardRoutes.js),
    and where the card's download URLs lead. A path parameter is a
    non-empty run of characters without `/`; the routes are tried in
    their declared order. */
module Routes {
  import opened CardModel
  import opened Text

  /** The handler a GET path reaches; Unrouted when no card route matches. */
  datatype Route =
    | PublicView(slug: string)
    | PublicQr(slug: string)
    | PublicVcf(slug: string)
    | PublicVcfAdvanced(slug: string)
    | ListCards
    | ReadCard(id: string)
    | QrDataUrl(id: string)
    | Unrouted

  const Mount := "/api/cards"

  predicate NoSlash(s: string) {
    forall k :: 0 <= k < |s| ==> s[k] != '/'
  }

  /** The position of the first `/`, or the length when there is none. */
  function FirstSlash(s: string): (i: nat)
    ensures i <= |s| && NoSlash(s[..i])
    ensures i < |s| ==> s[i] == '/'
  {
    if s == [] || s[0] == '/' then 0
    else
      var i := 1 + FirstSlash(s[1..]);
      assert forall k :: 1 <= k < i ==> s[..i][k] == s[1..][..i - 1][k - 1];
      i
  }

  /** A parameter followed by a text that starts with `/` splits right
      after the parameter. */
  lemma {:induction false} FirstSlashAt(a: string, t: string)
    requires NoSlash(a) && |t| > 0 && t[0] == '/'
    ensures FirstSlash(a + t) == |a|
  {
    if a == [] {
      assert a + t == t;
    } else {
      assert (a + t)[0] == a[0];
      assert (a + t)[1..] == a[1..] + t;
      FirstSlashAt(a[1..], t);
    }
  }

  /** The parameter and what follows it. */
  function Param(s: string): (r: (string, string))
    ensures r.0 + r.1 == s && NoSlash(r.0)
    ensures |r.1| > 0 ==> r.1[0] == '/'
  {
    var i := FirstSlash(s);
    assert s[..i] + s[i..] == s;
    (s[..i], s[i..])
  }

  /** `/public/v/:slug`, `/public/v/:slug/qr`, `/public/v/:slug/vcf` and
      `/public/v/:slug/vcf/advanced`, on the text after `/public/v/`. */
  function PublicRoute(rest: string): Route {
    var (slug, tail) := Param(rest);
    if slug == "" then Unrouted
    else if tail == "" then PublicView(slug)
    else if tail == "/qr" then PublicQr(slug)
    else if tail == "/vcf" then PublicVcf(slug)
    else if tail == "/vcf/advanced" then PublicVcfAdvanced(slug)
    else Unrouted
  }

  /** `/`, `/:id` and `/:id/qr/dataurl`, on the text after the leading `/`. */
  function OwnerRoute(p: string): Route {
    var (id, tail) := Param(p);
    if p == "" then ListCards
    else if id == "" then Unrouted
    else if tail == "" then ReadCard(id)
    else if tail == "/qr/dataurl" then QrDataUrl(id)
    else Unrouted
  }

  /** The handler for a GET path below the mount: the public routes first,
      then the authenticated ones. */
  function GetRoute(path: string): (r: Route)
    ensures path == "/" ==> r == ListCards
    ensures r.PublicView? || r.PublicQr? || r.PublicVcf? || r.PublicVcfAdvanced? ==>
      StartsWith(path, "/public/v/") && r.slug != "" && NoSlash(r.slug)
    ensures r.ReadCard? || r.QrDataUrl? ==> r.id != "" && NoSlash(r.id)
  {
    if |path| == 0 || path[0] != '/' then Unrouted
    else
      var p := path[1..];
      var public := if StartsWith(p, "public/v/") then PublicRoute(p[9..]) else Unrouted;
      if public != Unrouted then
        assert path[..10] == "/" + p[..9];
        public
      else OwnerRoute(p)
  }

  /** A slug without `/` followed by `/qr` or `/vcf` does not start with
      `public/v/`. */
  lemma NotPublicPrefix(slug: string, tail: string)
    requires NoSlash(slug) && (tail == "/qr" || tail == "/vcf")
    ensures !StartsWith(slug + tail, "public/v/")
  {
    var p := slug + tail;
    var w := "public/v/";
    if |p| >= 9 {
      var j := if |slug| < 6 then |slug| else if |slug| == 6 then 8 else 6;
      assert p[..9][j] == p[j];
      assert p[j] != w[j] by {
        if |slug| < 6 {
          assert p[j] == tail[0];
          assert j == 0 || j == 1 || j == 2 || j == 3 || j == 4 || j == 5;
        } else if |slug| == 6 {
          assert p[j] == tail[2];
        } else {
          assert p[j] == slug[6];
        }
      }
    }
  }

  /** Below the mount, a path that starts a public route and fills it
      reaches that route. */
  lemma PublicFirst(path: string)
    requires StartsWith(path, "/public/v/") && PublicRoute(path[10..]) != Unrouted
    ensures GetRoute(path) == PublicRoute(path[10..])
  {
    assert path[1..][..9] == path[1..10];
    assert path[1..][9..] == path[10..];
  }

  /** A path outside `/public/v/` is one of the authenticated routes. */
  lemma OwnerOtherwise(p: string)
    requires !StartsWith(p, "public/v/")
    ensures GetRoute("/" + p) == OwnerRoute(p)
  {
    assert ("/" + p)[1..] == p;
  }

  /** The download URLs the card's virtual fields give, as written, reach
      no card route: the path below the mount is `/<slug>/qr` or
      `/<slug>/vcf`, which is neither a public route nor `/:id/qr/dataurl`. */
  lemma AsWrittenDownloadUrlsUnrouted(appUrl: string, slug: string)
    requires NoSlash(slug)
    ensures QrCodeUrl(appUrl, slug) == BaseUrl(appUrl) + Mount + ("/" + slug + "/qr")
    ensures VcfUrl(appUrl, slug) == BaseUrl(appUrl) + Mount + ("/" + slug + "/vcf")
    ensures GetRoute("/" + slug + "/qr") == Unrouted
    ensures GetRoute("/" + slug + "/vcf") == Unrouted
  {
    var b := BaseUrl(appUrl);
    assert b + "/api/cards/" + slug + "/qr" == b + Mount + ("/" + slug + "/qr");
    assert b + "/api/cards/" + slug + "/vcf" == b + Mount + ("/" + slug + "/vcf");
    OwnerUnrouted(slug, "/qr");
    OwnerUnrouted(slug, "/vcf");
  }

  lemma OwnerUnrouted(slug: string, tail: string)
    requires NoSlash(slug) && (tail == "/qr" || tail == "/vcf")
    ensures GetRoute("/" + slug + tail) == Unrouted
  {
    NotPublicPrefix(slug, tail);
    FirstSlashAt(slug, tail);
    assert "/" + slug + tail == "/" + (slug + tail);
    OwnerOtherwise(slug + tail);
    assert Param(slug + tail).1 == tail;
  }

  /** The QR download URL the routes serve. */
  function CorrectedQrCodeUrl(appUrl: string, slug: string): string {
    BaseUrl(appUrl) + "/api/cards/public/v/" + slug + "/qr"
  }

  /** The vCard download URL the routes serve. */
  function CorrectedVcfUrl(appUrl: string, slug: string): string {
    BaseUrl(appUrl) + "/api/cards/public/v/" + slug + "/vcf"
  }

  /** The path below the mount after `/public/v/` and the slug. */
  lemma PublicPath(slug: string, tail: string)
    requires slug != "" && NoSlash(slug) && (tail == "/qr" || tail == "/vcf")
    ensures GetRoute("/public/v/" + slug + tail) == PublicRoute(slug + tail)
    ensures PublicRoute(slug + tail) == if tail == "/qr" then PublicQr(slug) else PublicVcf(slug)
  {
    var path := "/public/v/" + slug + tail;
    assert path == "/public/v/" + (slug + tail);
    PrefixOfAppend("/public/v/", slug + tail);
    assert path[10..] == slug + tail;
    FirstSlashAt(slug, tail);
    assert Param(slug + tail) == (slug, tail);
    PublicFirst(path);
  }

  /** For every slug the schema accepts, the corrected URLs reach the QR
      and vCard handlers for that very slug. */
  lemma CorrectedDownloadUrlsRouted(appUrl: string, slug: string)
    requires SlugPattern(slug)
    ensures CorrectedQrCodeUrl(appUrl, slug) == BaseUrl(appUrl) + Mount + ("/public/v/" + slug + "/qr")
    ensures CorrectedVcfUrl(appUrl, slug) == BaseUrl(appUrl) + Mount + ("/public/v/" + slug + "/vcf")
    ensures GetRoute("/public/v/" + slug + "/qr") == PublicQr(slug)
    ensures GetRoute("/public/v/" + slug + "/vcf") == PublicVcf(slug)
  {
    var b := BaseUrl(appUrl);
    assert b + "/api/cards/public/v/" + slug + "/qr" == b + Mount + ("/public/v/" + slug + "/qr");
    assert b + "/api/cards/public/v/" + slug + "/vcf" == b + Mount + ("/public/v/" + slug + "/vcf");
    assert NoSlash(slug) by {
      forall k | 0 <= k < |slug|
        ensures slug[k] != '/'
      {
        assert IsSlugChar(slug[k]);
      }
    }
    PublicPath(slug, "/qr");
    PublicPath(slug, "/vcf");
  }
}
