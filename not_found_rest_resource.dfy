/**
 * net.tokensmith...controller.error.rest.NotFoundRestResource: the REST
 * resource that answers every verb of an unmatched URL with NOT_FOUND and a
 * ClientError naming the URL.
 */
module NotFoundRestResource {
  import opened Common
  import opened Entities
  import opened Messages

  const REASON := "URL was not found"

  /** Where a client error was found; only the URL is used here. */
  datatype CauseSource = URL

  datatype Cause = Cause(source: CauseSource, actual: Nullable<string>, reason: string)

  datatype ClientError = ClientError(cause: Cause)

  datatype RestResponseState<P> = RestResponseState(
    statusCode: StatusCode, headers: map<string, string>, cookies: map<string, Cookie>, payload: Option<P>)

  /** The mutable REST response a resource fills in. */
  class RestResponse<P> {
    var statusCode: StatusCode
    var headers: map<string, string>
    var cookies: map<string, Cookie>
    var payload: Option<P>

    function State(): RestResponseState<P>
      reads this
    {
      RestResponseState(statusCode, headers, cookies, payload)
    }

    constructor (statusCode: StatusCode, headers: map<string, string>, cookies: map<string, Cookie>, payload: Option<P>)
      ensures State() == RestResponseState(statusCode, headers, cookies, payload)
    {
      this.statusCode, this.headers, this.cookies, this.payload := statusCode, headers, cookies, payload;
    }

    method SetStatusCode(statusCode: StatusCode)
      modifies this
      ensures State() == old(State()).(statusCode := statusCode)
    {
      this.statusCode := statusCode;
    }

    method SetPayload(payload: Option<P>)
      modifies this
      ensures State() == old(State()).(payload := payload)
    {
      this.payload := payload;
    }
  }

  /** The error body: a URL cause whose actual value is the requested path with its query. */
  function To<U>(from: RestRequest<U, ClientError>): (error: ClientError)
    ensures error.cause.source == URL && error.cause.reason == REASON
    ensures error.cause.actual == from.pathWithParams
  {
    ClientError(Cause(URL, from.pathWithParams, REASON))
  }

  function StatusCodeOf(): (code: StatusCode)
    ensures code == NOT_FOUND
  {
    NOT_FOUND
  }

  /** Two requests for the same path and query get the same error body, whatever else they carry. */
  lemma ErrorDependsOnlyOnPath<U>(a: RestRequest<U, ClientError>, b: RestRequest<U, ClientError>)
    ensures To(a) == To(b) <==> a.pathWithParams == b.pathWithParams
  {
  }

  /** What every verb handler leaves behind: NOT_FOUND and the error body; headers and cookies as they were. */
  ghost predicate Answered<U>(request: RestRequest<U, ClientError>, before: RestResponseState<ClientError>,
                              after: RestResponseState<ClientError>) {
    after == before.(statusCode := NOT_FOUND, payload := Some(To(request)))
  }

  /** The body every one of the nine handlers shares. */
  method Respond<U>(request: RestRequest<U, ClientError>, response: RestResponse<ClientError>)
    returns (r: RestResponse<ClientError>)
    modifies response
    ensures r == response && Answered(request, old(response.State()), response.State())
  {
    response.SetStatusCode(StatusCodeOf());
    response.SetPayload(Some(To(request)));
    r := response;
  }

  method Get<U>(request: RestRequest<U, ClientError>, response: RestResponse<ClientError>) returns (r: RestResponse<ClientError>)
    modifies response
    ensures r == response && Answered(request, old(response.State()), response.State())
  {
    r := Respond(request, response);
  }

  method Post<U>(request: RestRequest<U, ClientError>, response: RestResponse<ClientError>) returns (r: RestResponse<ClientError>)
    modifies response
    ensures r == response && Answered(request, old(response.State()), response.State())
  {
    r := Respond(request, response);
  }

  method Put<U>(request: RestRequest<U, ClientError>, response: RestResponse<ClientError>) returns (r: RestResponse<ClientError>)
    modifies response
    ensures r == response && Answered(request, old(response.State()), response.State())
  {
    r := Respond(request, response);
  }

  method Delete<U>(request: RestRequest<U, ClientError>, response: RestResponse<ClientError>) returns (r: RestResponse<ClientError>)
    modifies response
    ensures r == response && Answered(request, old(response.State()), response.State())
  {
    r := Respond(request, response);
  }

  method Connect<U>(request: RestRequest<U, ClientError>, response: RestResponse<ClientError>) returns (r: RestResponse<ClientError>)
    modifies response
    ensures r == response && Answered(request, old(response.State()), response.State())
  {
    r := Respond(request, response);
  }

  method Options<U>(request: RestRequest<U, ClientError>, response: RestResponse<ClientError>) returns (r: RestResponse<ClientError>)
    modifies response
    ensures r == response && Answered(request, old(response.State()), response.State())
  {
    r := Respond(request, response);
  }

  method Trace<U>(request: RestRequest<U, ClientError>, response: RestResponse<ClientError>) returns (r: RestResponse<ClientError>)
    modifies response
    ensures r == response && Answered(request, old(response.State()), response.State())
  {
    r := Respond(request, response);
  }

  method Patch<U>(request: RestRequest<U, ClientError>, response: RestResponse<ClientError>) returns (r: RestResponse<ClientError>)
    modifies response
    ensures r == response && Answered(request, old(response.State()), response.State())
  {
    r := Respond(request, response);
  }

  method Head<U>(request: RestRequest<U, ClientError>, response: RestResponse<ClientError>) returns (r: RestResponse<ClientError>)
    modifies response
    ensures r == response && Answered(request, old(response.State()), response.State())
  {
    r := Respond(request, response);
  }
}
