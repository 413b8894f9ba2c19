/**
 * The asset route of src/main.rs: the handler that serves a bundled asset
 * with headers chosen from its file extension, and the `cache_control`
 * middleware layered over it, which marks responses of six content types as
 * cacheable for a day. A header map is a map from lower-case header name to
 * value; `HeaderMap::insert` replaces the value under that name.
 */
module StaticFiles {
  import opened Wrappers

  /** An entry of the asset cache: its file extension, if any, and its
      (compressed) bytes. */
  datatype Asset = Asset(ext: Option<string>, contents: seq<bv8>)

  datatype Response = Response(status: nat, headers: map<string, string>, body: seq<bv8>)

  const Ok200: nat := 200
  const NotFound: nat := 404

  const ContentType: string := "content-type"
  const ContentEncoding: string := "content-encoding"
  const CacheControlHeader: string := "cache-control"

  const CacheableContentTypes: seq<string> :=
    ["text/css", "application/javascript", "image/svg+xml", "image/webp", "font/woff2", "image/png"]

  const SecondsPerDay: nat := 60 * 60 * 24

  /** The decimal digits of `n`, as `format!` writes an integer. */
  function Decimal(n: nat): string
    decreases n
  {
    if n < 10 then ["0123456789"[n]] else Decimal(n / 10) + ["0123456789"[n % 10]]
  }

  /** `format!("public, max-age={}", 60 * 60 * 24)`. */
  const CacheControlValue: string := "public, max-age=" + Decimal(SecondsPerDay)

  /** The header value is a day in seconds: "public, max-age=86400". */
  lemma CacheControlValueIsOneDay()
    ensures CacheControlValue == "public, max-age=86400"
  {
    assert Decimal(SecondsPerDay) == "86400";
  }

  predicate IsCacheable(response: Response)
  {
    ContentType in response.headers && response.headers[ContentType] in CacheableContentTypes
  }

  /** `cache_control`: when the response's content type is one of the six,
      insert `cache-control`; everything else is passed through. */
  method CacheControl(response: Response) returns (r: Response)
    ensures r.status == response.status && r.body == response.body
    ensures forall h :: h != CacheControlHeader ==> (h in r.headers <==> h in response.headers)
    ensures forall h :: h != CacheControlHeader && h in r.headers ==> r.headers[h] == response.headers[h]
    ensures IsCacheable(response) ==> CacheControlHeader in r.headers && r.headers[CacheControlHeader] == CacheControlValue
    ensures !IsCacheable(response) ==> r == response
  {
    r := response;
    if ContentType in r.headers {
      var contentType := r.headers[ContentType];
      if contentType in CacheableContentTypes {
        r := r.(headers := r.headers[CacheControlHeader := CacheControlValue]);
      }
    }
  }

  /** The handler of `/:file` in `static_file_handler`: 404 for an unknown
      path; otherwise the extension as content type (empty when there is
      none) and `content-encoding: br` for stylesheets and scripts. */
  method ServeAsset(assets: map<string, Asset>, path: string) returns (r: Response)
    ensures path !in assets ==> r == Response(NotFound, map[], [])
    ensures path in assets ==>
      var asset := assets[path];
      && r.status == Ok200
      && r.body == asset.contents
      && r.headers.Keys <= {ContentType, ContentEncoding}
      && ContentType in r.headers
      && r.headers[ContentType] == (if asset.ext.Some? then asset.ext.value else "")
      && (ContentEncoding in r.headers <==> asset.ext == Some("css") || asset.ext == Some("js"))
      && (ContentEncoding in r.headers ==> r.headers[ContentEncoding] == "br")
  {
    if path !in assets {
      return Response(NotFound, map[], []);
    }
    var asset := assets[path];
    var headers: map<string, string> := map[];
    headers := headers[ContentType := if asset.ext.Some? then asset.ext.value else ""];
    if asset.ext == Some("css") || asset.ext == Some("js") {
      headers := headers[ContentEncoding := "br"];
    }
    r := Response(Ok200, headers, asset.contents);
  }

  /** The `/assets` route as layered: the handler, then `cache_control`.
      The response is marked cacheable exactly when the asset's bare
      extension is itself one of the six content types. */
  method ServeAssetRoute(assets: map<string, Asset>, path: string) returns (r: Response)
    ensures path !in assets ==> r.status == NotFound
    ensures path in assets ==> r.status == Ok200 && r.body == assets[path].contents
    ensures path in assets ==>
      && ContentType in r.headers
      && r.headers[ContentType] == (if assets[path].ext.Some? then assets[path].ext.value else "")
    ensures CacheControlHeader in r.headers <==>
      path in assets && assets[path].ext.Some? && assets[path].ext.value in CacheableContentTypes
  {
    var inner := ServeAsset(assets, path);
    r := CacheControl(inner);
  }

  /** A file extension never contains a '/', while every cacheable content
      type does, so the route as written never marks an asset cacheable:
      a stylesheet, for one, is sent without `cache-control`. */
  method StylesheetIsNotCached(contents: seq<bv8>) returns (r: Response)
    ensures r.status == Ok200 && ContentType in r.headers && r.headers[ContentType] == "css"
    ensures CacheControlHeader !in r.headers
  {
    r := ServeAssetRoute(map["tailwind.css" := Asset(Some("css"), contents)], "tailwind.css");
  }

  /** The content type the handler evidently means to send: the media type
      of the six cacheable kinds of asset, the bare extension otherwise. */
  function MediaType(ext: Option<string>): (t: string)
    ensures ext == Some("css") ==> t == "text/css"
    ensures ext == Some("js") ==> t == "application/javascript"
    ensures ext.None? ==> t == ""
  {
    match ext
    case None => ""
    case Some(e) =>
      if e == "css" then "text/css"
      else if e == "js" then "application/javascript"
      else if e == "svg" then "image/svg+xml"
      else if e == "webp" then "image/webp"
      else if e == "woff2" then "font/woff2"
      else if e == "png" then "image/png"
      else e
  }

  predicate HasCacheableExtension(asset: Asset)
  {
    asset.ext in {Some("css"), Some("js"), Some("svg"), Some("webp"), Some("woff2"), Some("png")}
  }

  /** The handler with the media type as content type. */
  method ServeAssetWithMediaType(assets: map<string, Asset>, path: string) returns (r: Response)
    ensures path !in assets ==> r == Response(NotFound, map[], [])
    ensures path in assets ==>
      var asset := assets[path];
      && r.status == Ok200
      && r.body == asset.contents
      && r.headers.Keys <= {ContentType, ContentEncoding}
      && ContentType in r.headers
      && r.headers[ContentType] == MediaType(asset.ext)
      && (ContentEncoding in r.headers <==> asset.ext == Some("css") || asset.ext == Some("js"))
      && (ContentEncoding in r.headers ==> r.headers[ContentEncoding] == "br")
  {
    if path !in assets {
      return Response(NotFound, map[], []);
    }
    var asset := assets[path];
    var headers: map<string, string> := map[];
    headers := headers[ContentType := MediaType(asset.ext)];
    if asset.ext == Some("css") || asset.ext == Some("js") {
      headers := headers[ContentEncoding := "br"];
    }
    r := Response(Ok200, headers, asset.contents);
  }

  /** The corrected route: stylesheets, scripts, and svg, webp, woff2 and png
      files are served cacheable for a day, and nothing else is. */
  method ServeAssetRouteWithMediaType(assets: map<string, Asset>, path: string) returns (r: Response)
    ensures path in assets && HasCacheableExtension(assets[path]) ==>
      CacheControlHeader in r.headers && r.headers[CacheControlHeader] == CacheControlValue
    ensures path in assets && (forall e :: assets[path].ext == Some(e) ==> '/' !in e) ==>
      (CacheControlHeader in r.headers <==> HasCacheableExtension(assets[path]))
    ensures path !in assets ==> CacheControlHeader !in r.headers
  {
    var inner := ServeAssetWithMediaType(assets, path);
    r := CacheControl(inner);
  }
}
