/** The links the services print, and the dispatcher that parses them. */
module Router {
  import Slugs

  datatype Route =
    | Home
    | Health
    | PastePage
    | BucketPage
    | FileInfo(slug: string)
    | PasteRaw(slug: string)
    | BucketView(slug: string)
    | BucketZip(slug: string)
    | BucketFile(slug: string, key: string)
    | BucketDelete(slug: string, secret: string)
    | ShareDelete(slug: string, secret: string)
    | ShareView(slug: string)
    | NoRoute

  /* ---------- strings.Trim and strings.Split ---------- */

  function TrimLeft(s: string): string {
    if s != [] && s[0] == '/' then TrimLeft(s[1..]) else s
  }

  function TrimRight(s: string): string {
    if s != [] && s[|s| - 1] == '/' then TrimRight(s[..|s| - 1]) else s
  }

  function Trim(s: string): string {
    TrimRight(TrimLeft(s))
  }

  /** strings.Split(s, "/"): the pieces between separators, empty ones included. */
  function Split(s: string): (parts: seq<string>)
    ensures parts != []
  {
    if s == [] then [[]]
    else
      var rest := Split(s[1..]);
      if s[0] == '/' then [[]] + rest else [[s[0]] + rest[0]] + rest[1..]
  }

  function Join(parts: seq<string>): string
    requires parts != []
  {
    if |parts| == 1 then parts[0] else parts[0] + "/" + Join(parts[1..])
  }

  predicate NoSlash(s: string) {
    forall i :: 0 <= i < |s| ==> s[i] != '/'
  }

  /* ---------- the dispatcher ---------- */

  /** The switch, case by case in source order. */
  function Dispatch(path: string): Route {
    var p := Trim(path);
    var parts := if p == [] then [] else Split(p);
    var n := |parts|;
    if n == 0 then Home
    else if n == 1 && parts[0] == "health" then Health
    else if n == 2 && parts[1] == "info" then FileInfo(parts[0])
    else if n == 2 && parts[1] == "raw" then PasteRaw(parts[0])
    else if n == 2 && parts[0] == "b" && parts[1] != "" then BucketView(parts[1])
    else if n == 3 && parts[0] == "b" && parts[2] == "zip" then BucketZip(parts[1])
    else if n == 4 && parts[0] == "b" && parts[2] == "file" then BucketFile(parts[1], parts[3])
    else if n == 4 && parts[0] == "b" && parts[1] == "delete" then BucketDelete(parts[2], parts[3])
    else if n == 3 && parts[0] == "delete" then ShareDelete(parts[1], parts[2])
    else if n == 1 then ShareView(parts[0])
    else NoRoute
  }

  /** GET requests: the exact patterns of the mux win over its catch-all. */
  function Serve(path: string): Route {
    if path == "/health" then Health
    else if path == "/paste" then PastePage
    else if path == "/bucket" then BucketPage
    else Dispatch(path)
  }

  /* ---------- the printers ---------- */

  /** The segments of each printed link. */
  function Segments(r: Route): (parts: seq<string>)
    ensures parts != []
  {
    match r
    case FileInfo(slug) => [slug, "info"]
    case PasteRaw(slug) => [slug, "raw"]
    case BucketView(slug) => ["b", slug]
    case BucketZip(slug) => ["b", slug, "zip"]
    case BucketFile(slug, key) => ["b", slug, "file", key]
    case BucketDelete(slug, secret) => ["b", "delete", slug, secret]
    case ShareDelete(slug, secret) => ["delete", slug, secret]
    case ShareView(slug) => [slug]
    case Health => ["health"]
    case PastePage => ["paste"]
    case BucketPage => ["bucket"]
    case Home => [""]
    case NoRoute => [""]
  }

  /** The link as the services and pages print it, with an empty base URL. */
  function Print(r: Route): string {
    match r
    case FileInfo(slug) => "/" + slug + "/info"
    case PasteRaw(slug) => "/" + slug + "/raw"
    case BucketView(slug) => "/b/" + slug
    case BucketZip(slug) => "/b/" + slug + "/zip"
    case BucketFile(slug, key) => "/b/" + slug + "/file/" + key
    case BucketDelete(slug, secret) => "/b/delete/" + slug + "/" + secret
    case ShareDelete(slug, secret) => "/delete/" + slug + "/" + secret
    case ShareView(slug) => "/" + slug
    case Health => "/health"
    case PastePage => "/paste"
    case BucketPage => "/bucket"
    case Home => "/"
    case NoRoute => "/"
  }

  /** Routes of shares: the ones whose links carry generated values. */
  predicate OfShare(r: Route) {
    r.FileInfo? || r.PasteRaw? || r.BucketView? || r.BucketZip? || r.BucketFile? || r.BucketDelete? || r.ShareDelete? ||
    r.ShareView?
  }

  /** Arguments a URL path segment can carry: nonempty and without a slash. */
  predicate Clean(s: string) {
    s != [] && NoSlash(s)
  }

  predicate CleanRoute(r: Route) {
    OfShare(r) && forall i :: 0 <= i < |Segments(r)| ==> Clean(Segments(r)[i])
  }

  /** An argument that an earlier case of the switch, or an exact pattern of the mux, takes for itself. */
  predicate Captured(r: Route) {
    match r
    case ShareView(slug) => slug == "health" || slug == "paste" || slug == "bucket"
    case BucketView(slug) => slug == "info" || slug == "raw"
    case BucketDelete(slug, _) => slug == "file"
    case _ => false
  }

  /* ---------- splitting undoes joining, and back ---------- */

  lemma {:induction false} SplitSegment(s: string, rest: string)
    requires NoSlash(s)
    ensures Split(s) == [s]
    ensures Split(s + "/" + rest) == [s] + Split(rest)
  {
    var whole := s + "/" + rest;
    if s == [] {
      assert whole[1..] == rest;
    } else {
      SplitSegment(s[1..], rest);
      assert whole[1..] == s[1..] + "/" + rest;
      assert s == [s[0]] + s[1..];
    }
  }

  lemma {:induction false} SplitJoin(parts: seq<string>)
    requires parts != [] && forall i :: 0 <= i < |parts| ==> NoSlash(parts[i])
    ensures Split(Join(parts)) == parts
  {
    if |parts| == 1 {
      SplitSegment(parts[0], []);
    } else {
      SplitJoin(parts[1..]);
      SplitSegment(parts[0], Join(parts[1..]));
      assert [parts[0]] + parts[1..] == parts;
    }
  }

  lemma {:induction false} JoinSplit(s: string)
    ensures Join(Split(s)) == s
  {
    if s != [] {
      var rest := Split(s[1..]);
      JoinSplit(s[1..]);
      if s[0] == '/' {
        assert ([[]] + rest)[1..] == rest;
      } else if |rest| > 1 {
        assert ([[s[0]] + rest[0]] + rest[1..])[1..] == rest[1..];
      }
    }
  }

  /** Trimming only strips the outside: what has no slash at either end stays. */
  lemma TrimLink(s: string)
    requires s != [] && s[0] != '/' && s[|s| - 1] != '/'
    ensures Trim("/" + s) == s
  {
    var p := "/" + s;
    assert p[0] == '/' && p[1..] == s;
    assert TrimLeft(p) == TrimLeft(s) == s;
  }

  lemma {:induction false} JoinEnds(parts: seq<string>)
    requires parts != [] && forall i :: 0 <= i < |parts| ==> Clean(parts[i])
    ensures var s := Join(parts); s != [] && s[0] != '/' && s[|s| - 1] != '/'
  {
    if |parts| > 1 { JoinEnds(parts[1..]); }
  }

  lemma JoinTwo(a: string, b: string)
    ensures Join([a, b]) == a + "/" + b
  {
    assert [a, b][1..] == [b];
  }

  lemma JoinThree(a: string, b: string, c: string)
    ensures Join([a, b, c]) == a + "/" + (b + "/" + c)
  {
    JoinTwo(b, c);
    assert [a, b, c][1..] == [b, c];
  }

  lemma JoinFour(a: string, b: string, c: string, d: string)
    ensures Join([a, b, c, d]) == a + "/" + (b + "/" + (c + "/" + d))
  {
    JoinThree(b, c, d);
    assert [a, b, c, d][1..] == [b, c, d];
  }

  /* Regrouping, on arbitrary strings: x is the separator. */

  lemma GroupTwo(x: string, s: string, t: string, xt: string)
    requires xt == x + t
    ensures x + s + xt == x + (s + x + t)
  {
  }

  lemma GroupPrefixed(x: string, b: string, xbx: string, s: string)
    requires xbx == x + (b + x)
    ensures xbx + s == x + (b + x + s)
  {
  }

  lemma GroupThree(x: string, b: string, xbx: string, s: string, t: string, xt: string)
    requires xbx == x + (b + x) && xt == x + t
    ensures xbx + s + xt == x + (b + x + (s + x + t))
  {
  }

  lemma GroupPair(x: string, b: string, xbx: string, s: string, t: string)
    requires xbx == x + (b + x)
    ensures xbx + s + x + t == x + (b + x + (s + x + t))
  {
  }

  lemma GroupFour(x: string, b: string, xbx: string, s: string, f: string, xfx: string, t: string)
    requires xbx == x + (b + x) && xfx == x + (f + x)
    ensures xbx + s + xfx + t == x + (b + x + (s + x + (f + x + t)))
  {
  }

  lemma GroupLong(x: string, b: string, d: string, prefix: string, s: string, t: string)
    requires prefix == x + (b + x + (d + x))
    ensures prefix + s + x + t == x + (b + x + (d + x + (s + x + t)))
  {
  }

  lemma BucketFileJoins(slug: string, key: string)
    ensures Print(BucketFile(slug, key)) == "/" + Join(["b", slug, "file", key])
  {
    JoinFour("b", slug, "file", key);
    GroupFour("/", "b", "/b/", slug, "file", "/file/", key);
  }

  lemma BucketDeleteJoins(slug: string, secret: string)
    ensures Print(BucketDelete(slug, secret)) == "/" + Join(["b", "delete", slug, secret])
  {
    JoinFour("b", "delete", slug, secret);
    DeletePrefix();
    GroupLong("/", "b", "delete", "/b/delete/", slug, secret);
  }

  lemma DeletePrefix()
    ensures "/b/delete/" == "/" + ("b" + "/" + ("delete" + "/"))
  {
  }

  lemma ZipJoins(slug: string)
    ensures Print(BucketZip(slug)) == "/" + Join(["b", slug, "zip"])
  {
    JoinThree("b", slug, "zip");
    GroupThree("/", "b", "/b/", slug, "zip", "/zip");
  }

  lemma DeleteJoins(slug: string, secret: string)
    ensures Print(ShareDelete(slug, secret)) == "/" + Join(["delete", slug, secret])
  {
    JoinThree("delete", slug, secret);
    GroupPair("/", "delete", "/delete/", slug, secret);
  }

  lemma PageJoins(slug: string)
    ensures Print(FileInfo(slug)) == "/" + Join([slug, "info"])
    ensures Print(PasteRaw(slug)) == "/" + Join([slug, "raw"])
  {
    JoinTwo(slug, "info");
    JoinTwo(slug, "raw");
    GroupTwo("/", slug, "info", "/info");
    GroupTwo("/", slug, "raw", "/raw");
  }

  lemma ViewJoins(slug: string)
    ensures Print(BucketView(slug)) == "/" + Join(["b", slug])
  {
    JoinTwo("b", slug);
    GroupPrefixed("/", "b", "/b/", slug);
  }

  lemma PrintJoins(r: Route)
    requires OfShare(r)
    ensures Print(r) == "/" + Join(Segments(r))
  {
    if r.BucketFile? {
      BucketFileJoins(r.slug, r.key);
    } else if r.BucketDelete? {
      BucketDeleteJoins(r.slug, r.secret);
    } else if r.BucketZip? {
      ZipJoins(r.slug);
    } else if r.ShareDelete? {
      DeleteJoins(r.slug, r.secret);
    } else if r.BucketView? {
      ViewJoins(r.slug);
    } else if !r.ShareView? {
      PageJoins(r.slug);
    }
  }

  /** The dispatcher sees exactly the printed segments. */
  lemma PrintedSegments(r: Route)
    requires CleanRoute(r)
    ensures Trim(Print(r)) != [] && Split(Trim(Print(r))) == Segments(r)
  {
    PrintJoins(r);
    JoinEnds(Segments(r));
    TrimLink(Join(Segments(r)));
    SplitJoin(Segments(r));
  }

  /**
   Round trip, exactly.  For any nonempty slash-free arguments, a printed link is served as the route
   it was printed for if and only if no earlier case captures its argument.
   */
  lemma PrintThenServe(r: Route)
    requires CleanRoute(r)
    ensures Serve(Print(r)) == r <==> !Captured(r)
  {
    PrintedSegments(r);
    if r.ShareView? {
      ViewMeetsPattern(r.slug);
    } else {
      LongerLinksAreNoPattern(r);
    }
  }

  /** A one-segment link is an exact pattern of the mux just when its slug is. */
  lemma ViewMeetsPattern(slug: string)
    ensures "/" + slug == "/health" <==> slug == "health"
    ensures "/" + slug == "/paste" <==> slug == "paste"
    ensures "/" + slug == "/bucket" <==> slug == "bucket"
  {
    assert ("/" + slug)[1..] == slug;
    assert "/health"[1..] == "health" && "/paste"[1..] == "paste" && "/bucket"[1..] == "bucket";
    assert "/" + "health" == "/health" && "/" + "paste" == "/paste" && "/" + "bucket" == "/bucket";
  }

  /** Only one-segment links can meet the mux's exact patterns. */
  lemma LongerLinksAreNoPattern(r: Route)
    requires CleanRoute(r) && !r.ShareView?
    ensures Print(r) != "/health" && Print(r) != "/paste" && Print(r) != "/bucket"
  {
    PrintJoins(r);
    var parts, p := Segments(r), Print(r);
    var j := 1 + |parts[0]|;
    assert |parts| >= 2 && j >= 2;
    assert p == "/" + (parts[0] + "/" + Join(parts[1..]));
    assert p[j] == '/';
    NoInnerSlash("/health", j);
    NoInnerSlash("/paste", j);
    NoInnerSlash("/bucket", j);
  }

  lemma NoInnerSlash(p: string, j: nat)
    requires p == "/health" || p == "/paste" || p == "/bucket"
    ensures 1 <= j < |p| ==> p[j] != '/'
  {
  }

  /** The generated arguments of a route: slugs and storage keys of 12, secrets of 24 characters. */
  predicate Generated(r: Route) {
    match r
    case FileInfo(slug) => Slugs.IsSlug(slug, Slugs.SLUG_LENGTH)
    case PasteRaw(slug) => Slugs.IsSlug(slug, Slugs.SLUG_LENGTH)
    case BucketView(slug) => Slugs.IsSlug(slug, Slugs.SLUG_LENGTH)
    case BucketZip(slug) => Slugs.IsSlug(slug, Slugs.SLUG_LENGTH)
    case BucketFile(slug, key) => Slugs.IsSlug(slug, Slugs.SLUG_LENGTH) && Slugs.IsSlug(key, Slugs.SLUG_LENGTH)
    case BucketDelete(slug, secret) =>
      Slugs.IsSlug(slug, Slugs.SLUG_LENGTH) && Slugs.IsSlug(secret, Slugs.SECRET_LENGTH)
    case ShareDelete(slug, secret) => Slugs.IsSlug(slug, Slugs.SLUG_LENGTH) && Slugs.IsSlug(secret, Slugs.SECRET_LENGTH)
    case ShareView(slug) => Slugs.IsSlug(slug, Slugs.SLUG_LENGTH)
    case _ => false
  }

  /** Every link printed for generated values is served as the route it was printed for. */
  lemma GeneratedLinksWork(r: Route)
    requires Generated(r)
    ensures Serve(Print(r)) == r
  {
    assert CleanRoute(r);
    PrintThenServe(r);
  }

  /**
   And back: a path the dispatcher takes for a share's route is, slashes at either end aside, the link
   that would be printed for that route; so no other path reaches it.
   */
  lemma ServeThenPrint(path: string)
    requires OfShare(Dispatch(path))
    ensures "/" + Trim(path) == Print(Dispatch(path))
  {
    var r := Dispatch(path);
    JoinSplit(Trim(path));
    DispatchedSegments(path);
    PrintJoins(r);
  }

  lemma DispatchedSegments(path: string)
    requires OfShare(Dispatch(path))
    ensures Split(Trim(path)) == Segments(Dispatch(path))
  {
  }

  lemma HealthSegments(p: string)
    ensures Split(p) == ["health"] <==> p == "health"
  {
    JoinSplit(p);
    assert NoSlash("health");
    SplitSegment("health", "");
    assert Join(["health"]) == "health";
  }

  lemma DispatchedPages(path: string)
    ensures Dispatch(path) == Home <==> Trim(path) == ""
    ensures Dispatch(path) == Health <==> Trim(path) == "health"
    ensures Dispatch(path) != PastePage && Dispatch(path) != BucketPage
  {
    HealthSegments(Trim(path));
    if |Split(Trim(path))| == 1 { assert Split(Trim(path)) == [Split(Trim(path))[0]]; }
  }

  lemma TrimmedPatterns()
    ensures Trim("/health") == "health" && Trim("/paste") == "paste" && Trim("/bucket") == "bucket"
  {
    TrimLink("health");
    TrimLink("paste");
    TrimLink("bucket");
    assert "/" + "health" == "/health" && "/" + "paste" == "/paste" && "/" + "bucket" == "/bucket";
  }

  /** The fixed pages are reached by exactly these paths; the mux alone answers the last two. */
  lemma FixedPages(path: string)
    ensures Serve(path) == Home <==> Trim(path) == ""
    ensures Serve(path) == Health <==> Trim(path) == "health"
    ensures Serve(path) == PastePage <==> path == "/paste"
    ensures Serve(path) == BucketPage <==> path == "/bucket"
  {
    DispatchedPages(path);
    TrimmedPatterns();
    assert "paste" != "health" && "bucket" != "health" by { assert |"paste"| == 5 && "bucket"[0] == 'b'; }
  }
}
