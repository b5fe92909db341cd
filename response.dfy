/**
 * The mutable HTML response that the Betweens update in place, and the
 * mutable request whose CSRF challenge CheckCSRF records.
 */
module Responses {
  import opened Common
  import opened Entities

  /** The object a template is rendered with, identity only. */
  class Presenter {}

  /** The value of every field of a Response at one moment. */
  datatype ResponseState<S> = ResponseState(
    statusCode: StatusCode,
    headers: map<string, string>,
    cookies: map<string, Cookie>,
    payload: Option<seq<Byte>>,
    template: Option<string>,
    presenter: Option<Presenter>,
    session: Option<S>)

  class Response<S> {
    var statusCode: StatusCode
    var headers: map<string, string>
    /** The cookie map; the getter hands out this map itself, so puts through it stay. */
    var cookies: map<string, Cookie>
    var payload: Option<seq<Byte>>
    var template: Option<string>
    var presenter: Option<Presenter>
    var session: Option<S>

    function State(): ResponseState<S>
      reads this
    {
      ResponseState(statusCode, headers, cookies, payload, template, presenter, session)
    }

    /** The six-argument constructor: the six fields as given, no session. */
    constructor (statusCode: StatusCode, headers: map<string, string>, cookies: map<string, Cookie>,
                 payload: Option<seq<Byte>>, template: Option<string>, presenter: Option<Presenter>)
      ensures State() == ResponseState(statusCode, headers, cookies, payload, template, presenter, None)
    {
      this.statusCode := statusCode;
      this.headers := headers;
      this.cookies := cookies;
      this.payload := payload;
      this.template := template;
      this.presenter := presenter;
      this.session := None;
    }

    method SetStatusCode(statusCode: StatusCode)
      modifies this
      ensures State() == old(State()).(statusCode := statusCode)
    {
      this.statusCode := statusCode;
    }

    method SetHeaders(headers: map<string, string>)
      modifies this
      ensures State() == old(State()).(headers := headers)
    {
      this.headers := headers;
    }

    method SetCookies(cookies: map<string, Cookie>)
      modifies this
      ensures State() == old(State()).(cookies := cookies)
    {
      this.cookies := cookies;
    }

    /** getCookies().put(name, cookie): the put lands in the stored map. */
    method PutCookie(name: string, cookie: Cookie)
      modifies this
      ensures State() == old(State()).(cookies := old(cookies)[name := cookie])
    {
      cookies := cookies[name := cookie];
    }

    method SetPayload(payload: Option<seq<Byte>>)
      modifies this
      ensures State() == old(State()).(payload := payload)
    {
      this.payload := payload;
    }

    method SetTemplate(template: Option<string>)
      modifies this
      ensures State() == old(State()).(template := template)
    {
      this.template := template;
    }

    method SetPresenter(presenter: Option<Presenter>)
      modifies this
      ensures State() == old(State()).(presenter := presenter)
    {
      this.presenter := presenter;
    }

    method SetSession(session: Option<S>)
      modifies this
      ensures State() == old(State()).(session := session)
    {
      this.session := session;
    }

    /** Brings every field to the given state: the net effect of an onHalt callback. */
    method Become(s: ResponseState<S>)
      modifies this
      ensures State() == s
    {
      statusCode, headers, cookies, payload := s.statusCode, s.headers, s.cookies, s.payload;
      template, presenter, session := s.template, s.presenter, s.session;
    }
  }

  /** The parts of a Request that the security Betweens read or write. */
  class Request<S> {
    var cookies: map<string, Cookie>
    var formData: map<string, seq<string>>
    var csrfChallenge: Option<string>
    var session: Option<S>

    constructor (cookies: map<string, Cookie>, formData: map<string, seq<string>>,
                 csrfChallenge: Option<string>, session: Option<S>)
      ensures this.cookies == cookies && this.formData == formData
      ensures this.csrfChallenge == csrfChallenge && this.session == session
    {
      this.cookies := cookies;
      this.formData := formData;
      this.csrfChallenge := csrfChallenge;
      this.session := session;
    }

    method SetCsrfChallenge(csrfChallenge: Option<string>)
      modifies this
      ensures this.csrfChallenge == csrfChallenge
      ensures cookies == old(cookies) && formData == old(formData) && session == old(session)
    {
      this.csrfChallenge := csrfChallenge;
    }
  }
}
