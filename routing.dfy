/** How the service worker's `fetch` listener classifies a request
    (sw.js:91-108), with the two predicates behind it (sw.js:444-452). */
module Routing {
  import opened Common

  /** `CONFIG.API_ENDPOINTS` */
  const API_ENDPOINTS: seq<string> := ["/api/", "/api/menu.json"]

  /** The alternatives of `/\.(jpg|jpeg|png|gif|webp|svg)$/i` */
  const IMAGE_EXTENSIONS: seq<string> := ["jpg", "jpeg", "png", "gif", "webp", "svg"]

  /** What the worker reads from an intercepted request. `url` is the
      request's URL, which the caches resolve against the worker's origin
      (`Worker.Resolve`); `protocol` and `pathname` are the parts of the
      parsed URL; `accept` is the Accept header, `None` when the request has
      none. */
  datatype Request = Request(
    httpMethod: string,
    url: string,
    protocol: string,
    pathname: string,
    accept: Option<string>)

  /** Which fetch protocol answers an intercepted request. */
  datatype Strategy = NetworkFirst | ImageCacheFirst | StaticCacheFirst

  /** `isApiRequest`: the path starts with one of the API prefixes. Since
      "/api/menu.json" itself starts with "/api/", that prefix alone decides. */
  function IsApiRequest(pathname: string): (b: bool)
    ensures b <==> StartsWith(pathname, "/api/")
  {
    if StartsWith(pathname, API_ENDPOINTS[1]) then
      assert pathname[..5] == pathname[..14][..5];
      true
    else
      exists e | e in API_ENDPOINTS :: StartsWith(pathname, e)
  }

  /** `isImageRequest`: the path ends in a dot and one of the image
      extensions, compared without regard to ASCII case. */
  function IsImageRequest(pathname: string): (b: bool)
    ensures b ==> |pathname| >= 4
    ensures b ==> pathname[|pathname| - 4] == '.' || (|pathname| >= 5 && pathname[|pathname| - 5] == '.')
  {
    ExtensionFollowsDot(pathname);
    exists e | e in IMAGE_EXTENSIONS :: EndsWith(Lower(pathname), "." + e)
  }

  /** Every image extension has three or four letters, so the dot before it
      is the fourth or fifth character from the end. */
  lemma ExtensionFollowsDot(pathname: string)
    ensures (exists e | e in IMAGE_EXTENSIONS :: EndsWith(Lower(pathname), "." + e)) ==>
              |pathname| >= 4
              && (pathname[|pathname| - 4] == '.' || (|pathname| >= 5 && pathname[|pathname| - 5] == '.'))
  {
    var lp := Lower(pathname);
    if e :| e in IMAGE_EXTENSIONS && EndsWith(lp, "." + e) {
      var k := |lp| - |e| - 1;
      assert lp[k..] == "." + e;
      assert lp[k] == lp[k..][0] == '.';
      assert LowerChar(pathname[k]) == '.';
      ExtensionLengths(e);
    }
  }

  lemma ExtensionLengths(e: string)
    requires e in IMAGE_EXTENSIONS
    ensures |e| == 3 || |e| == 4
  {
    var i :| 0 <= i < |IMAGE_EXTENSIONS| && IMAGE_EXTENSIONS[i] == e;
    assert |IMAGE_EXTENSIONS[i]| == [3, 4, 3, 3, 4, 3][i];
  }

  /** Any path made of some text, a dot and an image extension written in any
      mix of upper and lower case is an image request. */
  lemma ImageExtensionMatches(stem: string, ext: string)
    requires Lower(ext) in IMAGE_EXTENSIONS
    ensures IsImageRequest(stem + "." + ext)
  {
    var p, le := stem + "." + ext, Lower(ext);
    assert EndsWith(Lower(p), "." + le) by {
      LowerAppend(stem + ".", ext);
      LowerAppend(stem, ".");
      assert Lower(".") == ".";
      var lp := Lower(p);
      assert lp == Lower(stem) + "." + le;
      assert lp[|lp| - |"." + le|..] == "." + le;
    }
  }

  /** Conversely, every image request is such a path: the dot and the
      extension can be split off the end. */
  lemma ImageRequestHasExtension(p: string) returns (stem: string, ext: string)
    requires IsImageRequest(p)
    ensures p == stem + "." + ext && Lower(ext) in IMAGE_EXTENSIONS
  {
    var e :| e in IMAGE_EXTENSIONS && EndsWith(Lower(p), "." + e);
    stem, ext := SplitAtDot(p, e);
  }

  /** A path whose lower-cased form ends in a dot and `e` splits into a
      stem, that dot and an ending that lower-cases to `e`. */
  lemma SplitAtDot(p: string, e: string) returns (stem: string, ext: string)
    requires EndsWith(Lower(p), "." + e)
    ensures p == stem + "." + ext && Lower(ext) == e
  {
    var cut := |p| - |e| - 1;
    var tail := p[cut..];
    stem, ext := p[..cut], tail[1..];
    LowerSuffix(p, cut);
    assert Lower(tail) == [LowerChar(tail[0])] + Lower(ext) == "." + e;
    assert LowerChar(tail[0]) == '.' && Lower(ext) == e;
    assert tail == [tail[0]] + ext;
    assert p == stem + tail;
  }

  /** The test does not depend on the case the path is written in. */
  lemma ImageTestIgnoresCase(p: string)
    ensures IsImageRequest(Lower(p)) == IsImageRequest(p)
  {
    LowerIdempotent(p);
  }

  /** The `fetch` listener: `None` when the request is left to the browser
      (not a GET, or a `chrome-extension:` URL); otherwise the API test is
      asked first and wins, then the image test, and everything else is
      static. */
  function Route(r: Request): (s: Option<Strategy>)
    ensures s.None? <==> r.httpMethod != "GET" || r.protocol == "chrome-extension:"
    ensures s == Some(NetworkFirst) <==> s.Some? && StartsWith(r.pathname, "/api/")
  {
    if r.httpMethod != "GET" then None
    else if r.protocol == "chrome-extension:" then None
    else if IsApiRequest(r.pathname) then Some(NetworkFirst)
    else if IsImageRequest(r.pathname) then Some(ImageCacheFirst)
    else Some(StaticCacheFirst)
  }

  /** An intercepted request under an API prefix goes network-first even
      when its path also ends in an image extension. */
  lemma ApiPrefixBeatsImageExtension(r: Request, stem: string, ext: string)
    requires r.httpMethod == "GET" && r.protocol != "chrome-extension:"
    requires r.pathname == "/api/" + stem + "." + ext && Lower(ext) in IMAGE_EXTENSIONS
    ensures IsImageRequest(r.pathname) && Route(r) == Some(NetworkFirst)
  {
    assert r.pathname == ("/api/" + stem) + "." + ext;
    ImageExtensionMatches("/api/" + stem, ext);
    assert r.pathname[..5] == "/api/";
  }

  /** Outside the API prefixes, a path with an image extension goes to the
      image cache, whatever the case of the extension. */
  lemma ImagePathsUseImageCache(r: Request, stem: string, ext: string)
    requires r.httpMethod == "GET" && r.protocol != "chrome-extension:"
    requires !StartsWith(r.pathname, "/api/")
    requires r.pathname == stem + "." + ext && Lower(ext) in IMAGE_EXTENSIONS
    ensures Route(r) == Some(ImageCacheFirst)
  {
    ImageExtensionMatches(stem, ext);
  }

  /** The rest goes to the static cache. */
  lemma OtherPathsUseStaticCache(r: Request)
    requires r.httpMethod == "GET" && r.protocol != "chrome-extension:"
    requires !StartsWith(r.pathname, "/api/")
    requires forall stem, ext :: r.pathname == stem + "." + ext ==> Lower(ext) !in IMAGE_EXTENSIONS
    ensures Route(r) == Some(StaticCacheFirst)
  {
    if IsImageRequest(r.pathname) {
      var stem, ext := ImageRequestHasExtension(r.pathname);
      assert false;
    }
  }
}
