/**
 * The course API client of frontend/src/api/courseApi.ts: the request each
 * call builds (path, query and Authorization header) and the two drains
 * that list courses page by page. `BASE_URL` comes from configuration and
 * is a parameter here; the HTTP transport is replaced by the responses it
 * would return.
 */
module CourseApi {
  import opened Wrappers
  import opened Strings
  import opened Pagination

  /** A course as listed; its contents are not inspected by this client. */
  datatype Course = Course(courseType: string, id: string, name: string)

  /** A GET request: URL with any inline query, the `startKey` parameter, and the Authorization header. */
  datatype HttpGet = HttpGet(url: string, startKey: Option<string>, authorization: Option<string>)

  function Bearer(idToken: string): string {
    "Bearer " + idToken
  }

  predicate StartsWith(s: string, prefix: string) {
    |prefix| <= |s| && s[..|prefix|] == prefix
  }

  predicate EndsWith(s: string, suffix: string) {
    |suffix| <= |s| && s[|s| - |suffix|..] == suffix
  }

  /** A path under the public (anonymous) API. */
  predicate IsPublic(baseUrl: string, url: string) {
    StartsWith(url, baseUrl + "/public/")
  }

  /** The public API never receives a credential, and every other path always does. */
  predicate CredentialMatchesPath(baseUrl: string, r: HttpGet) {
    r.authorization.Some? <==> !IsPublic(baseUrl, r.url)
  }

  lemma CoursesPathIsNotPublic(baseUrl: string, rest: string)
    ensures !IsPublic(baseUrl, baseUrl + "/courses/" + rest)
  {
    var url := baseUrl + "/courses/" + rest;
    var p := baseUrl + "/public/";
    assert url[|baseUrl| + 1] == 'c';
    assert p[|baseUrl| + 1] == 'p';
    assert |p| <= |url| ==> url[..|p|][|baseUrl| + 1] == 'c';
  }

  lemma PublicPathIsPublic(baseUrl: string, rest: string)
    ensures IsPublic(baseUrl, baseUrl + "/public/" + rest)
  {
    assert (baseUrl + "/public/" + rest)[..|baseUrl + "/public/"|] == baseUrl + "/public/";
  }

  /** A public course URL lies under the public API and ends with its query. */
  lemma PublicCourseUrl(baseUrl: string, path: string, query: string)
    ensures IsPublic(baseUrl, baseUrl + "/public/courses/" + path + query)
    ensures EndsWith(baseUrl + "/public/courses/" + path + query, query)
  {
    var url := baseUrl + "/public/courses/" + path + query;
    assert url == baseUrl + "/public/" + ("courses/" + path + query);
    PublicPathIsPublic(baseUrl, "courses/" + path + query);
    EndsWithConcat(baseUrl + "/public/courses/" + path, query);
  }

  lemma EndsWithConcat(a: string, b: string)
    ensures EndsWith(a + b, b)
  {
    assert (a + b)[|a + b| - |b|..] == b;
  }

  lemma EndsWithNested(a: string, b: string, c: string)
    ensures EndsWith(a + (b + c), c)
  {
    assert (a + (b + c))[|a + (b + c)| - |c|..] == c;
  }

  /** The `{type}/{id}` segments that name one course. */
  function CoursePath(courseType: string, id: string): string {
    courseType + "/" + id
  }

  /** `getCourse`: the member endpoint with a bearer token, otherwise the public one keyed by checkout id. */
  function GetCourse(baseUrl: string, idToken: string, courseType: string, id: string, checkoutId: Option<string>): (r: HttpGet)
    ensures r.startKey == None
    ensures CredentialMatchesPath(baseUrl, r)
    ensures idToken != "" ==> r.authorization == Some(Bearer(idToken))
    ensures idToken == "" ==> EndsWith(r.url, "?checkoutId=" + Interpolate(checkoutId))
    ensures idToken != "" ==> r.url == baseUrl + "/courses/" + CoursePath(courseType, id)
    ensures idToken == "" ==>
              r.url == baseUrl + "/public/courses/" + CoursePath(courseType, id) + ("?checkoutId=" + Interpolate(checkoutId))
  {
    if idToken != "" then
      CoursesPathIsNotPublic(baseUrl, CoursePath(courseType, id));
      HttpGet(baseUrl + "/courses/" + CoursePath(courseType, id), None, Some(Bearer(idToken)))
    else
      var query := "?checkoutId=" + Interpolate(checkoutId);
      PublicCourseUrl(baseUrl, CoursePath(courseType, id), query);
      HttpGet(baseUrl + "/public/courses/" + CoursePath(courseType, id) + query, None, None)
  }

  const PurchasePath: string := "/purchase"
  const PurchaseOptionQuery: string := "?purchaseOption="

  /** The optional `?purchaseOption=` query of a purchase URL. */
  function PurchaseQuery(purchaseOption: Option<string>): string {
    if purchaseOption.Some? && purchaseOption.value != "" then PurchaseOptionQuery + purchaseOption.value else ""
  }

  /** The path prefix of a purchase: the member API with a token, the public API without. */
  function PurchaseRoot(baseUrl: string, idToken: string): (root: string)
    ensures idToken != "" ==> root == baseUrl + "/courses/"
    ensures idToken == "" ==> root == baseUrl + "/public/courses/"
  {
    if idToken != "" then baseUrl + "/courses/" else baseUrl + "/public/courses/"
  }

  /** `purchaseCourse`: the path by token presence, the purchase option only when non-empty, the header only with a token. */
  function PurchaseCourse(baseUrl: string, idToken: string, courseType: string, id: string, purchaseOption: Option<string>): (r: HttpGet)
    ensures r.startKey == None
    ensures CredentialMatchesPath(baseUrl, r)
    ensures idToken != "" <==> r.authorization == Some(Bearer(idToken))
    ensures purchaseOption.Some? && purchaseOption.value != "" ==>
              EndsWith(r.url, PurchasePath + (PurchaseOptionQuery + purchaseOption.value))
    ensures !(purchaseOption.Some? && purchaseOption.value != "") ==> EndsWith(r.url, PurchasePath)
    ensures r.url == PurchaseRoot(baseUrl, idToken) + CoursePath(courseType, id) + PurchasePath + PurchaseQuery(purchaseOption)
  {
    var path := CoursePath(courseType, id);
    var q := PurchaseQuery(purchaseOption);
    var rest := path + (PurchasePath + q);
    EndsWithNested(PurchaseRoot(baseUrl, idToken), path, PurchasePath + q);
    assert q == "" ==> PurchasePath + q == PurchasePath;
    PurchaseCredential(baseUrl, idToken, rest);
    HttpGet(PurchaseRoot(baseUrl, idToken) + rest, None, if idToken != "" then Some(Bearer(idToken)) else None)
  }

  lemma PurchaseCredential(baseUrl: string, idToken: string, rest: string)
    ensures idToken != "" <==> !IsPublic(baseUrl, PurchaseRoot(baseUrl, idToken) + rest)
  {
    if idToken != "" {
      CoursesPathIsNotPublic(baseUrl, rest);
    } else {
      assert PurchaseRoot(baseUrl, idToken) + rest == baseUrl + "/public/" + ("courses/" + rest);
      PublicPathIsPublic(baseUrl, "courses/" + rest);
    }
  }

  /** The requests of a drain against one endpoint: one per key sent, all with the same URL and header. */
  function Requests(url: string, authorization: Option<string>, keys: seq<Option<string>>): (rs: seq<HttpGet>)
    ensures |rs| == |keys|
    ensures forall i :: 0 <= i < |rs| ==> rs[i] == HttpGet(url, keys[i], authorization)
  {
    seq(|keys|, i requires 0 <= i < |keys| => HttpGet(url, keys[i], authorization))
  }

  /** `listCourses`: drains `/courses/{type}` with a bearer header, starting at the caller's key. */
  method ListCourses(baseUrl: string, idToken: string, courseType: string, startKey: Option<string>,
                     responses: seq<Result<Page<Course>, string>>)
    returns (result: Result<seq<Course>, string>, requests: seq<HttpGet>)
    requires Terminates(responses)
    ensures exists keys :: Drained(startKey, responses, result, keys)
                           && requests == Requests(baseUrl + "/courses/" + courseType, Some(Bearer(idToken)), keys)
    ensures forall i :: 0 <= i < |requests| ==> CredentialMatchesPath(baseUrl, requests[i])
  {
    var keys;
    result, keys := Drain(startKey, responses);
    requests := Requests(baseUrl + "/courses/" + courseType, Some(Bearer(idToken)), keys);
    CoursesPathIsNotPublic(baseUrl, courseType);
  }

  /** `listAllCourses`: the same drain against `/public/courses`, with no Authorization header. */
  method ListAllCourses(baseUrl: string, startKey: Option<string>, responses: seq<Result<Page<Course>, string>>)
    returns (result: Result<seq<Course>, string>, requests: seq<HttpGet>)
    requires Terminates(responses)
    ensures exists keys :: Drained(startKey, responses, result, keys)
                           && requests == Requests(baseUrl + "/public/courses", None, keys)
    ensures forall i :: 0 <= i < |requests| ==> requests[i].authorization == None
  {
    var keys;
    result, keys := Drain(startKey, responses);
    requests := Requests(baseUrl + "/public/courses", None, keys);
  }
}
