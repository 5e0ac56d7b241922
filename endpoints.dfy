/** The request targets of src/InstagramCrawler.php: one base origin, the
    `sprintf` path templates, and the query string each request carries. */
module Endpoints {
  import opened Basics
  import opened PhpJson

  const BaseUri := "https://www.instagram.com"
  const TagPrefix := "/explore/tags/"
  const LocationPrefix := "/explore/locations/"
  const UserPrefix := "/"
  const MediaPrefix := "/p/"
  const SearchPath := "/web/search/topsearch"
  const SearchContext := "blended"

  /** An HTTP GET: a path below `BaseUri` and its query parameters. */
  datatype Request = Request(path: string, query: map<string, string>)

  /** The client's default query, `['__a' => 1]`. */
  const DefaultQuery: map<string, string> := map["__a" := "1"]

  /** `sprintf(TAG_ENDPOINT, $name)`. */
  function TagPath(name: string): (p: string)
    ensures |p| >= |TagPrefix| && p[..|TagPrefix|] == TagPrefix && p[|TagPrefix|..] == name
  {
    TagPrefix + name
  }

  /** `sprintf(LOCATION_ENDPOINT, $id)`, a `%d` conversion. */
  function LocationPath(id: int): (p: string)
    ensures |p| >= |LocationPrefix| && p[..|LocationPrefix|] == LocationPrefix && StringToInt(p[|LocationPrefix|..]) == id
    ensures p[|LocationPrefix|..] == IntToString(id)
  {
    var p := LocationPrefix + IntToString(id);
    assert p[|LocationPrefix|..] == IntToString(id);
    IntToStringRoundTrip(id);
    p
  }

  /** `sprintf(USER_ENDPOINT, $username)`. */
  function UserPath(username: string): (p: string)
    ensures |p| >= |UserPrefix| && p[..|UserPrefix|] == UserPrefix && p[|UserPrefix|..] == username
  {
    UserPrefix + username
  }

  /** `sprintf(MEDIA_ENDPOINT, $code)`. */
  function MediaPath(code: string): (p: string)
    ensures |p| >= |MediaPrefix| && p[..|MediaPrefix|] == MediaPrefix && p[|MediaPrefix|..] == code
  {
    MediaPrefix + code
  }

  /** `BASE_URI . sprintf(MEDIA_ENDPOINT, $code)`: the public address of a post. */
  function PostUrl(code: string): (url: string)
    ensures |url| == |BaseUri| + |MediaPrefix| + |code|
    ensures url[..|BaseUri|] == BaseUri
    ensures url[|BaseUri|..|BaseUri| + |MediaPrefix|] == MediaPrefix
    ensures url[|BaseUri| + |MediaPrefix|..] == code
  {
    BaseUri + MediaPath(code)
  }

  /** Reads the post code back out of a post address. */
  function PostCodeOf(url: string): (code: Option<string>)
    ensures code.Some? ==> PostUrl(code.value) == url
  {
    var prefix := BaseUri + MediaPrefix;
    if |prefix| <= |url| && url[..|prefix|] == prefix then
      assert url == prefix + url[|prefix|..];
      Some(url[|prefix|..])
    else None
  }

  /** A post's address determines its code. */
  lemma PostUrlRoundTrip(code: string)
    ensures PostCodeOf(PostUrl(code)) == Some(code)
  {
    var prefix := BaseUri + MediaPrefix;
    assert PostUrl(code) == prefix + code;
    assert PostUrl(code)[..|prefix|] == prefix;
    assert PostUrl(code)[|prefix|..] == code;
  }

  /** Two different codes never share an address. */
  lemma PostUrlInjective(a: string, b: string)
    requires PostUrl(a) == PostUrl(b)
    ensures a == b
  {
    PostUrlRoundTrip(a);
    PostUrlRoundTrip(b);
  }

  /** The listing and detail requests: path plus the default query. */
  function GetRequest(path: string): (r: Request)
    ensures r.path == path && r.query == DefaultQuery
  {
    Request(path, DefaultQuery)
  }

  /** The search request.  Its own `query` option replaces the client's
      default query instead of being merged with it, so `__a` is not sent. */
  function SearchRequest(q: string): (r: Request)
    ensures r.path == SearchPath
    ensures r.query.Keys == {"query", "context"} && r.query["query"] == q && r.query["context"] == SearchContext
    ensures "__a" !in r.query
  {
    Request(SearchPath, map["query" := q, "context" := SearchContext])
  }
}
