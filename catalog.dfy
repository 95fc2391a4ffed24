/** The entities both storefront apps share: users, products, the image
    path rule, the product page path, and the landing page per role. */
module Catalog {
  import opened Wrappers
  import opened Text

  /** A registered account; passwords are plain text in this app. */
  datatype User = User(username: string, password: string, role: string)

  /** A product record. `description`, `price` and `image` may be absent
      (`None`); a `price` of `None` stands for any value that is not a
      JavaScript number. */
  datatype Product = Product(
    id: string,
    name: string,
    description: Option<string>,
    price: Option<real>,
    image: Option<string>,
    artisan: string,
    approved: bool)

  const Placeholder: string := "/images/placeholder.jpeg"

  /** The `<img src>` of a product: an `http…` image as it is, any other
      non-empty image under `/images/`, and the placeholder otherwise. */
  function ImageSrc(image: Option<string>): (r: string)
    ensures image.Some? && StartsWith(image.value, "http") ==> r == image.value
    ensures image.Some? && image.value != "" && !StartsWith(image.value, "http") ==> r == "/images/" + image.value
    ensures image.None? || image.value == "" ==> r == Placeholder
    ensures StartsWith(r, "http") || StartsWith(r, "/images/")
  {
    if image.Some? && StartsWith(image.value, "http") then image.value
    else "/images/" + (if image.Some? && image.value != "" then image.value else "placeholder.jpeg")
  }

  /** The path of a product's page, `/product/:id`. */
  function ProductPath(id: string): string {
    "/product/" + id
  }

  /** The path part of a URL the router matches: everything before the
      first `?` (the query) or `#` (the fragment). */
  function PathName(url: string): (r: string)
    ensures |r| <= |url| && r == url[..|r|]
    ensures '?' !in r && '#' !in r
    ensures |r| < |url| ==> url[|r|] == '?' || url[|r|] == '#'
  {
    if url == [] || url[0] == '?' || url[0] == '#' then []
    else
      var rest := PathName(url[1..]);
      assert ([url[0]] + rest)[1..] == rest;
      [url[0]] + rest
  }

  /** A path with its trailing slashes dropped. */
  function DropTrailingSlashes(s: string): (r: string)
    ensures |r| <= |s| && r == s[..|r|]
    ensures r == [] || r[|r| - 1] != '/'
    ensures forall i :: |r| <= i < |s| ==> s[i] == '/'
  {
    if s != [] && s[|s| - 1] == '/' then DropTrailingSlashes(s[..|s| - 1]) else s
  }

  const ProductPrefix: string := "/product/"

  /** Two strings that differ at most in the case of their ASCII letters. */
  predicate SameIgnoringCase(a: string, b: string) {
    |a| == |b| && forall i :: 0 <= i < |a| ==> LowerChar(a[i]) == LowerChar(b[i])
  }

  /** The path the router matches against its routes: the URL's path part
      with its trailing slashes dropped. */
  function RoutePath(url: string): string {
    DropTrailingSlashes(PathName(url))
  }

  /** The route's test: the fixed part in any letter case, then one
      non-empty segment without a slash. */
  predicate MatchesProductRoute(path: string) {
    && |path| > |ProductPrefix|
    && (forall i :: 0 <= i < |ProductPrefix| ==> LowerChar(path[i]) == ProductPrefix[i])
    && '/' !in path[|ProductPrefix|..]
  }

  /** A path passes the route's test exactly when it is `/product/` + id,
      up to letter case, for a non-empty id without a slash. */
  lemma MatchesProductRouteCase(path: string, id: string)
    requires id != [] && '/' !in id
    ensures SameIgnoringCase(path, ProductPath(id)) ==> MatchesProductRoute(path)
    ensures MatchesProductRoute(path) && id == path[|ProductPrefix|..] ==> SameIgnoringCase(path, ProductPath(id))
  {
    var q := ProductPath(id);
    assert forall i :: 0 <= i < |ProductPrefix| ==> q[i] == ProductPrefix[i] && LowerChar(q[i]) == q[i];
    assert forall i :: 0 <= i < |id| ==> q[|ProductPrefix| + i] == id[i];
    if SameIgnoringCase(path, q) {
      forall i | |ProductPrefix| <= i < |path| ensures path[i] != '/' {
        assert id[i - |ProductPrefix|] != '/';
      }
    }
  }

  /** The `:id` that the route `/product/:id` hands to `useParams`. The
      router ignores the letter case of the fixed `/product/` part and
      drops trailing slashes; the id keeps its own case. The browser's own
      URL rewriting (dot segments, backslashes, dropped tabs and newlines)
      and the router's percent-decoding are not modelled. */
  function ProductRouteId(url: string): (r: Option<string>)
    ensures r.Some? ==>
      && r.value != [] && '/' !in r.value
      && SameIgnoringCase(RoutePath(url), ProductPath(r.value))
      && RoutePath(url)[|ProductPrefix|..] == r.value
    ensures r.None? ==> forall id :: id != [] && '/' !in id ==> !SameIgnoringCase(RoutePath(url), ProductPath(id))
  {
    var path := RoutePath(url);
    if MatchesProductRoute(path) then
      MatchesProductRouteCase(path, path[|ProductPrefix|..]);
      Some(path[|ProductPrefix|..])
    else
      assert forall id :: id != [] && '/' !in id ==> !SameIgnoringCase(path, ProductPath(id)) by {
        forall id | id != [] && '/' !in id {
          MatchesProductRouteCase(path, id);
        }
      }
      None
  }

  /** A character that every URL parser and router keeps as it is in a
      path segment. */
  predicate IsPlainChar(c: char) {
    ('a' <= c <= 'z') || ('A' <= c <= 'Z') || ('0' <= c <= '9') || c == '-' || c == '_'
  }

  /** An id that survives a trip through a URL path unchanged: non-empty
      and made of ASCII letters, digits, `-` and `_`, as the app's ids
      (`p1`, and `p` followed by a clock reading) are. */
  predicate IsPlainSegment(id: string) {
    id != [] && forall i :: 0 <= i < |id| ==> IsPlainChar(id[i])
  }

  /** Following a product link leads the router back to that product's id. */
  lemma ProductPathRoundTrip(id: string)
    requires IsPlainSegment(id)
    ensures ProductRouteId(ProductPath(id)) == Some(id)
  {
    var url := ProductPath(id);
    assert url[|"/product/"|..] == id;
    assert '?' !in url && '#' !in url && '/' !in id by {
      forall i | 0 <= i < |url| ensures url[i] != '?' && url[i] != '#' {
        if i >= |"/product/"| { assert url[i] == id[i - |"/product/"|]; }
      }
    }
    assert PathName(url) == url;
    assert DropTrailingSlashes(url) == url;
  }

  /** `/PRODUCT/` passes for `/product/`. */
  lemma UpperPrefixMatches(id: string)
    requires id != [] && '/' !in id
    ensures MatchesProductRoute("/PRODUCT/" + id)
  {
    var path := "/PRODUCT/" + id;
    assert path[|ProductPrefix|..] == id;
    forall i | 0 <= i < |ProductPrefix| ensures LowerChar(path[i]) == ProductPrefix[i] {
      assert path[i] == "/PRODUCT/"[i];
    }
  }

  /** One trailing slash is dropped from a path that does not already end
      in one. */
  lemma DropOneSlash(path: string)
    requires path != [] && path[|path| - 1] != '/'
    ensures DropTrailingSlashes(path + "/") == path
  {
    assert (path + "/")[..|path|] == path;
  }

  /** The router ignores the letter case of `/product/` and trailing
      slashes: `/PRODUCT/` + id + `/` still leads to the id. */
  lemma ProductRouteIsLenient(id: string)
    requires IsPlainSegment(id)
    ensures ProductRouteId("/PRODUCT/" + id + "/") == Some(id)
  {
    var path := "/PRODUCT/" + id;
    var url := path + "/";
    assert '?' !in url && '#' !in url && '/' !in id by {
      forall i | 0 <= i < |url| ensures url[i] != '?' && url[i] != '#' {
        if 9 <= i < |path| { assert url[i] == id[i - 9]; }
      }
    }
    assert PathName(url) == url;
    assert path[|path| - 1] == id[|id| - 1];
    DropOneSlash(path);
    UpperPrefixMatches(id);
    assert path[|ProductPrefix|..] == id;
  }

  /** An id with a `?` or `#` does not come back: the router drops what
      follows the mark. */
  lemma {:induction false} ProductPathCut(id: string)
    requires '?' in id || '#' in id
    ensures ProductRouteId(ProductPath(id)) != Some(id)
  {
    var url := ProductPath(id);
    var path := PathName(url);
    var k :| 0 <= k < |id| && (id[k] == '?' || id[k] == '#');
    assert url[|"/product/"| + k] == id[k];
    assert |path| < |url|;
    assert |DropTrailingSlashes(path)| < |url|;
  }

  /** Where a login page sends a user after a successful login. */
  function RouteForRole(role: string): (path: string)
    ensures role == "admin" <==> path == "/admin"
    ensures role == "artisan" <==> path == "/artisan"
    ensures role == "consultant" <==> path == "/consultant"
    ensures path in {"/admin", "/artisan", "/consultant", "/"}
  {
    match role
    case "admin" => "/admin"
    case "artisan" => "/artisan"
    case "consultant" => "/consultant"
    case _ => "/"
  }
}
