/**
 * org.rootservices...gateway.servlet.translator.HttpServletRequestTranslator:
 * turns the servlet container's request into the framework's Request. The
 * header translator and the query-string parser it delegates to are not part
 * of this model; they are the translator's collaborators, passed in as
 * functions. The cookie mapping is ServletCookieTranslator.From.
 */
module ServletRequestTranslator {
  import opened Common
  import opened Entities
  import opened ServletCookieTranslator

  const PARAM_DELIMITER := "?"
  const EMPTY := ""

  /** The request body reader the container hands out, identity only. */
  class BufferedReader {}

  /** The parts of the container's request the translator reads. */
  datatype ContainerRequest = ContainerRequest(
    methodName: string,
    requestURI: string,
    queryString: Nullable<string>,
    cookies: Nullable<seq<ContainerCookie>>,
    parameterMap: map<string, seq<string>>,
    reader: BufferedReader)

  /** The framework's request as the translator builds it. */
  datatype Request = Request(
    matcher: Option<Matcher>,
    httpMethod: Method,
    pathWithParams: string,
    authScheme: Option<string>,
    cookies: map<string, Cookie>,
    headers: map<string, string>,
    queryParams: map<string, seq<string>>,
    formData: map<string, string>,
    body: BufferedReader,
    csrfChallenge: Option<string>)

  // ---------------------------------------------------------------- method

  function MethodName(m: Method): string {
    match m
    case GET => "GET"
    case POST => "POST"
    case PUT => "PUT"
    case DELETE => "DELETE"
    case CONNECT => "CONNECT"
    case OPTIONS => "OPTIONS"
    case TRACE => "TRACE"
    case PATCH => "PATCH"
    case HEAD => "HEAD"
  }

  /** Method.valueOf: the constant with exactly that name, else IllegalArgumentException. */
  function ParseMethod(name: string): (r: Result<Method, Throwable>)
    ensures r.Failure? ==> r.error == IllegalArgumentException
  {
    if name == "GET" then Success(GET)
    else if name == "POST" then Success(POST)
    else if name == "PUT" then Success(PUT)
    else if name == "DELETE" then Success(DELETE)
    else if name == "CONNECT" then Success(CONNECT)
    else if name == "OPTIONS" then Success(OPTIONS)
    else if name == "TRACE" then Success(TRACE)
    else if name == "PATCH" then Success(PATCH)
    else if name == "HEAD" then Success(HEAD)
    else Failure(IllegalArgumentException)
  }

  /** valueOf accepts exactly the constants' names, and gives back the constant named. */
  lemma ParseMethodInvertsName(m: Method, name: string)
    ensures ParseMethod(MethodName(m)) == Success(m)
    ensures ParseMethod(name).Success? ==> MethodName(ParseMethod(name).value) == name
  {
  }

  // ---------------------------------------------------------------- path

  /** The query string as it is appended to the path: "?" and the query, or nothing. */
  function QueryStringForUrl(queryString: Nullable<string>): (r: string)
    ensures queryString.Null? ==> r == EMPTY
    ensures queryString.Ref? ==> r == PARAM_DELIMITER + queryString.get
  {
    if queryString.Ref? then PARAM_DELIMITER + queryString.get else EMPTY
  }

  /** Reads the query back off the suffix QueryStringForUrl appends. */
  function QueryStringFromUrl(suffix: string): Nullable<string> {
    if |suffix| > 0 && suffix[0] == '?' then Ref(suffix[1..]) else Null
  }

  /**
   * Nothing is lost in the suffix: an absent query and an empty one are told
   * apart ("" versus "?"), and the request URI is the path's prefix.
   */
  lemma {:induction false} QueryStringForUrlRoundTrip(requestURI: string, queryString: Nullable<string>)
    ensures QueryStringFromUrl(QueryStringForUrl(queryString)) == queryString
    ensures var path := requestURI + QueryStringForUrl(queryString);
      path[..|requestURI|] == requestURI && path[|requestURI|..] == QueryStringForUrl(queryString)
  {
    if queryString.Ref? {
      assert (PARAM_DELIMITER + queryString.get)[1..] == queryString.get;
    }
    var path := requestURI + QueryStringForUrl(queryString);
    assert path[..|requestURI|] == requestURI;
  }

  // ---------------------------------------------------------------- form data

  /** Every parameter the container reports has at least one value. */
  predicate HasValues(parameters: map<string, seq<string>>) {
    forall k :: k in parameters ==> |parameters[k]| > 0
  }

  /** The form data: each container parameter that is not a query parameter, with its first value. */
  function FormData(containerParameters: map<string, seq<string>>, queryParams: map<string, seq<string>>): (formData: map<string, string>)
    requires HasValues(containerParameters)
    ensures forall k :: k in formData <==> k in containerParameters && k !in queryParams
    ensures forall k :: k in formData ==> formData[k] == containerParameters[k][0]
  {
    map k | k in containerParameters && k !in queryParams :: containerParameters[k][0]
  }

  /** Form data and query parameters never share a name. */
  lemma FormDataExcludesQueryParams(containerParameters: map<string, seq<string>>, queryParams: map<string, seq<string>>)
    requires HasValues(containerParameters)
    ensures FormData(containerParameters, queryParams).Keys !! queryParams.Keys
    ensures FormData(containerParameters, queryParams).Keys <= containerParameters.Keys
  {
  }

  /** Walks the container parameters once, putting each one that is not a query parameter. */
  method GetFormData(containerParameters: map<string, seq<string>>, queryParams: map<string, seq<string>>)
    returns (formData: map<string, string>)
    requires HasValues(containerParameters)
    ensures formData == FormData(containerParameters, queryParams)
  {
    formData := map[];
    var remaining := containerParameters.Keys;
    while remaining != {}
      invariant remaining <= containerParameters.Keys
      invariant forall k :: k in formData <==> k in containerParameters && k !in remaining && k !in queryParams
      invariant forall k :: k in formData ==> formData[k] == containerParameters[k][0]
      decreases |remaining|
    {
      var key :| key in remaining;
      if key !in queryParams {
        formData := formData[key := containerParameters[key][0]];
      }
      remaining := remaining - {key};
    }
  }

  // ---------------------------------------------------------------- cookies

  /** All cookie names in the sequence differ. */
  predicate DistinctNames(cookies: seq<ContainerCookie>) {
    forall i, j :: 0 <= i < j < |cookies| ==> cookies[i].name != cookies[j].name
  }

  /** The names of the cookies, as a set. */
  function Names(cookies: seq<ContainerCookie>): set<string> {
    set i | 0 <= i < |cookies| :: cookies[i].name
  }

  /**
   * The cookie map as written: Collectors.toMap keyed by name, which throws
   * IllegalStateException at the first name that is already a key. It
   * succeeds exactly when no name repeats, and then holds every name.
   */
  function CookieMapAsWritten(cookies: seq<ContainerCookie>): (r: Result<map<string, Cookie>, Throwable>)
    ensures r.Failure? ==> r.error.IllegalStateException?
    ensures r.Success? <==> DistinctNames(cookies)
    ensures r.Success? ==> r.value.Keys == Names(cookies)
    decreases |cookies|
  {
    if |cookies| == 0 then Success(map[])
    else
      var prefix := cookies[..|cookies| - 1];
      var last := cookies[|cookies| - 1];
      assert Names(cookies) == Names(prefix) + {last.name} by {
        forall name | name in Names(cookies) ensures name in Names(prefix) + {last.name} {
          var i :| 0 <= i < |cookies| && cookies[i].name == name;
          if i < |prefix| {
            assert prefix[i] == cookies[i];
          }
        }
        forall name | name in Names(prefix) ensures name in Names(cookies) {
          var i :| 0 <= i < |prefix| && prefix[i].name == name;
          assert cookies[i] == prefix[i];
        }
      }
      assert DistinctNames(cookies) <==> DistinctNames(prefix) && last.name !in Names(prefix) by {
        if DistinctNames(cookies) {
          assert DistinctNames(prefix) by {
            forall i, j | 0 <= i < j < |prefix| ensures prefix[i].name != prefix[j].name {
              assert prefix[i] == cookies[i] && prefix[j] == cookies[j];
            }
          }
          assert last.name !in Names(prefix) by {
            forall i | 0 <= i < |prefix| ensures prefix[i].name != last.name {
              assert prefix[i] == cookies[i];
            }
          }
        }
        if DistinctNames(prefix) && last.name !in Names(prefix) {
          forall i, j | 0 <= i < j < |cookies| ensures cookies[i].name != cookies[j].name {
            assert cookies[i] == prefix[i];
            if j < |prefix| {
              assert cookies[j] == prefix[j];
            } else {
              assert cookies[i].name in Names(prefix);
            }
          }
        }
      }
      match CookieMapAsWritten(prefix)
      case Failure(e) => Failure(e)
      case Success(m) =>
        // The exception's message depends on the JDK and is not modelled; only its kind is.
        if last.name in m then Failure(IllegalStateException("Duplicate key"))
        else Success(m[last.name := From(last)])
  }

  /**
   * Two cookies of one name, as a browser sends for one name set at two
   * paths: the translation as written fails with IllegalStateException.
   */
  lemma DuplicateCookieNameFailsAsWritten(a: ContainerCookie, b: ContainerCookie)
    requires a.name == b.name
    ensures CookieMapAsWritten([a, b]).Failure?
    ensures CookieMapAsWritten([a, b]).error.IllegalStateException?
  {
    assert [a, b][..1] == [a];
    assert [a][..0] == [];
  }

  /**
   * The cookie map the translator is meant to build: keyed by name; where a
   * name repeats, the first cookie wins (section 5.4 of RFC 6265 lists the
   * most specific cookie first).
   */
  function CookieMap(cookies: seq<ContainerCookie>): (r: map<string, Cookie>)
    decreases |cookies|
  {
    if |cookies| == 0 then map[]
    else
      var last := cookies[|cookies| - 1];
      var m := CookieMap(cookies[..|cookies| - 1]);
      if last.name in m then m else m[last.name := From(last)]
  }

  /** The keys of the cookie map are exactly the cookie names. */
  lemma {:induction false} CookieMapKeys(cookies: seq<ContainerCookie>)
    ensures forall i :: 0 <= i < |cookies| ==> cookies[i].name in CookieMap(cookies)
    ensures forall name :: name in CookieMap(cookies) ==> exists i :: 0 <= i < |cookies| && cookies[i].name == name
    decreases |cookies|
  {
    if |cookies| > 0 {
      var prefix := cookies[..|cookies| - 1];
      CookieMapKeys(prefix);
      forall name | name in CookieMap(cookies)
        ensures exists i :: 0 <= i < |cookies| && cookies[i].name == name
      {
        if name in CookieMap(prefix) {
          var i :| 0 <= i < |prefix| && prefix[i].name == name;
          assert cookies[i].name == name;
        } else {
          assert cookies[|cookies| - 1].name == name;
        }
      }
    }
  }

  /** Each name maps to the framework form of the first cookie carrying it. */
  lemma {:induction false} CookieMapKeepsFirst(cookies: seq<ContainerCookie>, i: int)
    requires 0 <= i < |cookies|
    requires forall j :: 0 <= j < i ==> cookies[j].name != cookies[i].name
    ensures cookies[i].name in CookieMap(cookies) && CookieMap(cookies)[cookies[i].name] == From(cookies[i])
    decreases |cookies|
  {
    var prefix := cookies[..|cookies| - 1];
    CookieMapKeys(prefix);
    if i < |cookies| - 1 {
      CookieMapKeepsFirst(prefix, i);
    }
  }

  /** Where the names are distinct, the intended map is exactly what the code builds. */
  lemma {:induction false} CookieMapAgreesOnDistinctNames(cookies: seq<ContainerCookie>)
    requires DistinctNames(cookies)
    ensures CookieMapAsWritten(cookies) == Success(CookieMap(cookies))
    decreases |cookies|
  {
    if |cookies| > 0 {
      var prefix := cookies[..|cookies| - 1];
      assert DistinctNames(prefix);
      CookieMapAgreesOnDistinctNames(prefix);
      CookieMapKeys(prefix);
    }
  }

  /**
   * The cookie map of the request: empty when the container has no cookies;
   * otherwise keyed by every cookie name, each name holding its first
   * cookie, and equal to the code's own map whenever that map is built.
   */
  function RequestCookies(cookies: Nullable<seq<ContainerCookie>>): (r: map<string, Cookie>)
    ensures cookies.Null? ==> r == map[]
    ensures cookies.Ref? ==> r.Keys == Names(cookies.get)
    ensures cookies.Ref? ==>
      (forall i :: 0 <= i < |cookies.get| && (forall j :: 0 <= j < i ==> cookies.get[j].name != cookies.get[i].name)
         ==> r[cookies.get[i].name] == From(cookies.get[i]))
    ensures cookies.Ref? && CookieMapAsWritten(cookies.get).Success? ==> r == CookieMapAsWritten(cookies.get).value
  {
    if cookies.Null? then map[]
    else
      CookieMapFacts(cookies.get);
      CookieMap(cookies.get)
  }

  /** CookieMapKeys, CookieMapKeepsFirst and CookieMapAgreesOnDistinctNames, for all cookies at once. */
  lemma CookieMapFacts(cookies: seq<ContainerCookie>)
    ensures CookieMap(cookies).Keys == Names(cookies)
    ensures forall i :: 0 <= i < |cookies| && (forall j :: 0 <= j < i ==> cookies[j].name != cookies[i].name) ==>
              CookieMap(cookies)[cookies[i].name] == From(cookies[i])
    ensures CookieMapAsWritten(cookies).Success? ==> CookieMapAsWritten(cookies).value == CookieMap(cookies)
  {
    CookieMapKeys(cookies);
    forall i | 0 <= i < |cookies| && (forall j :: 0 <= j < i ==> cookies[j].name != cookies[i].name)
      ensures CookieMap(cookies)[cookies[i].name] == From(cookies[i])
    {
      CookieMapKeepsFirst(cookies, i);
    }
    if CookieMapAsWritten(cookies).Success? {
      CookieMapAgreesOnDistinctNames(cookies);
    }
  }

  // ---------------------------------------------------------------- request

  class HttpServletRequestTranslator {
    /** HttpServletRequestHeaderTranslator.from. */
    const headerTranslator: ContainerRequest -> map<string, string>
    /** QueryStringToMap.run on the optional query string. */
    const queryStringToMap: Option<string> -> map<string, seq<string>>

    constructor (headerTranslator: ContainerRequest -> map<string, string>,
                 queryStringToMap: Option<string> -> map<string, seq<string>>)
      ensures this.headerTranslator == headerTranslator && this.queryStringToMap == queryStringToMap
    {
      this.headerTranslator := headerTranslator;
      this.queryStringToMap := queryStringToMap;
    }

    /**
     * The framework request: an unknown method name fails with
     * IllegalArgumentException; otherwise the method, the URI with its query,
     * the cookies by name (the corrected map of RequestCookies, which is the
     * code's own map whenever no name repeats), the collaborators' headers
     * and query parameters,
     * form data for POST only, the body reader, and no matcher, auth scheme
     * or CSRF challenge.
     */
    method From(containerRequest: ContainerRequest) returns (r: Result<Request, Throwable>)
      requires HasValues(containerRequest.parameterMap)
      ensures ParseMethod(containerRequest.methodName).Failure? <==> r.Failure?
      ensures r.Failure? ==> r.error == IllegalArgumentException
      ensures r.Success? ==>
        var request := r.value;
        var queryParams := queryStringToMap(OfNullable(containerRequest.queryString));
        && request.httpMethod == ParseMethod(containerRequest.methodName).value
        && request.pathWithParams == containerRequest.requestURI + QueryStringForUrl(containerRequest.queryString)
        && request.cookies == RequestCookies(containerRequest.cookies)
        && request.headers == headerTranslator(containerRequest)
        && request.queryParams == queryParams
        && (request.httpMethod == POST ==> request.formData == FormData(containerRequest.parameterMap, queryParams))
        && (request.httpMethod != POST ==> request.formData == map[])
        && request.body == containerRequest.reader
        && request.matcher == None && request.authScheme == None && request.csrfChallenge == None
    {
      var parsed := ParseMethod(containerRequest.methodName);
      if parsed.Failure? {
        return Failure(parsed.error);
      }
      var httpMethod := parsed.value;
      var pathWithParams := containerRequest.requestURI + QueryStringForUrl(containerRequest.queryString);
      var otterCookies := RequestCookies(containerRequest.cookies);
      var headers := headerTranslator(containerRequest);
      var queryString := OfNullable(containerRequest.queryString);
      var queryParams := queryStringToMap(queryString);
      var formData := map[];
      if httpMethod == POST {
        formData := GetFormData(containerRequest.parameterMap, queryParams);
      }
      r := Success(Request(None, httpMethod, pathWithParams, None, otterCookies, headers, queryParams,
                           formData, containerRequest.reader, None));
    }
  }
}
