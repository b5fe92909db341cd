/**
 * The double-submit acceptance rule shared by both CheckCSRF Betweens: the
 * CSRF cookie must be there, the form field must carry exactly one value, and
 * the signed tokens must match. Signature verification is uninterpreted.
 */
module DoubleSubmit {
  import opened Common
  import opened Entities

  /**
   * DoubleSubmitCSRF as CheckCSRF uses it: doTokensMatch(cookieValue, formValue)
   * verifies both signed tokens and compares their challenge tokens.
   */
  datatype DoubleSubmitCsrf = DoubleSubmitCsrf(doTokensMatch: (string, string) -> bool)

  const HALT_MSG := "CSRF failed."

  /** Whether the request carries what doTokensMatch needs: a cookie and exactly one form value. */
  predicate Submitted(cookie: Option<Cookie>, formValue: Option<seq<string>>) {
    cookie.Some? && formValue.Some? && |formValue.value| == 1
  }

  /** The decision CheckCSRF.process takes; doTokensMatch is consulted only when Submitted. */
  function Accepts(cookie: Option<Cookie>, formValue: Option<seq<string>>, csrf: DoubleSubmitCsrf): (ok: bool)
    ensures ok ==> Submitted(cookie, formValue)
    ensures ok <==> Submitted(cookie, formValue) && csrf.doTokensMatch(cookie.value.value, formValue.value[0])
  {
    if cookie.Some? && formValue.Some? && |formValue.value| == 1 then
      csrf.doTokensMatch(cookie.value.value, formValue.value[0])
    else
      false
  }

  /**
   * Fail closed: without a cookie and a single form value the verdict is a
   * rejection whatever the token check would have said.
   */
  lemma RejectsWithoutSubmission(cookie: Option<Cookie>, formValue: Option<seq<string>>,
                                 a: DoubleSubmitCsrf, b: DoubleSubmitCsrf)
    requires !Submitted(cookie, formValue)
    ensures !Accepts(cookie, formValue, a) && Accepts(cookie, formValue, a) == Accepts(cookie, formValue, b)
  {
  }
}

/** net.tokensmith...csrf.between.html.CheckCSRF: rejection is shaped by an onHalt callback. */
module NetCheckCsrf {
  import opened Common
  import opened Entities
  import opened Responses
  import opened DoubleSubmit

  class CheckCsrf<S> {
    var cookieName: string
    var formFieldName: string
    var doubleSubmitCsrf: DoubleSubmitCsrf
    /** The BiFunction applied to the response before the CsrfException is thrown; its net effect on the response. */
    const onHalt: (ResponseState<S>, Throwable) -> ResponseState<S>

    constructor (cookieName: string, formFieldName: string, doubleSubmitCsrf: DoubleSubmitCsrf,
                 onHalt: (ResponseState<S>, Throwable) -> ResponseState<S>)
      ensures this.cookieName == cookieName && this.formFieldName == formFieldName
      ensures this.doubleSubmitCsrf == doubleSubmitCsrf && this.onHalt == onHalt
    {
      this.cookieName := cookieName;
      this.formFieldName := formFieldName;
      this.doubleSubmitCsrf := doubleSubmitCsrf;
      this.onHalt := onHalt;
    }

    /**
     * Accepts exactly when the cookie and a single form value are present and
     * the tokens match; then records the form value as the request's CSRF
     * challenge and leaves the response alone. Otherwise applies onHalt once
     * and throws, leaving the challenge as it was.
     */
    method Process(verb: Method, request: Request<S>, response: Response<S>) returns (thrown: Option<Throwable>)
      modifies request, response
      ensures request.cookies == old(request.cookies) && request.formData == old(request.formData)
      ensures request.session == old(request.session)
      ensures var ok := Accepts(Lookup(old(request.cookies), cookieName), Lookup(old(request.formData), formFieldName), doubleSubmitCsrf);
        && (ok ==> thrown == None
                   && request.csrfChallenge == Some(old(request.formData)[formFieldName][0])
                   && response.State() == old(response.State()))
        && (!ok ==> thrown == Some(CsrfException(HALT_MSG))
                    && request.csrfChallenge == old(request.csrfChallenge)
                    && response.State() == onHalt(old(response.State()), CsrfException(HALT_MSG)))
    {
      var csrfCookie := Lookup(request.cookies, cookieName);
      var formValue := Lookup(request.formData, formFieldName);
      var ok := Accepts(csrfCookie, formValue, doubleSubmitCsrf);
      if !ok {
        var haltException := CsrfException(HALT_MSG);
        OnHalt(haltException, response);
        thrown := Some(haltException);
      } else {
        request.SetCsrfChallenge(Some(formValue.value[0]));
        thrown := None;
      }
    }

    /** Applies the onHalt callback to the response. */
    method OnHalt(e: Throwable, response: Response<S>)
      modifies response
      ensures response.State() == onHalt(old(response.State()), e)
    {
      response.Become(onHalt(response.State(), e));
    }

    method SetCookieName(cookieName: string)
      modifies this
      ensures this.cookieName == cookieName
      ensures formFieldName == old(formFieldName) && doubleSubmitCsrf == old(doubleSubmitCsrf)
    {
      this.cookieName := cookieName;
    }

    method SetFormFieldName(formFieldName: string)
      modifies this
      ensures this.formFieldName == formFieldName
      ensures cookieName == old(cookieName) && doubleSubmitCsrf == old(doubleSubmitCsrf)
    {
      this.formFieldName := formFieldName;
    }

    method SetDoubleSubmitCsrf(doubleSubmitCsrf: DoubleSubmitCsrf)
      modifies this
      ensures this.doubleSubmitCsrf == doubleSubmitCsrf
      ensures cookieName == old(cookieName) && formFieldName == old(formFieldName)
    {
      this.doubleSubmitCsrf := doubleSubmitCsrf;
    }
  }
}

/** org.rootservices...csrf.between.CheckCSRF: rejection sets FORBIDDEN; names may be left null. */
module OrgCheckCsrf {
  import opened Common
  import opened Entities
  import opened Responses
  import opened DoubleSubmit

  /**
   * HashMap.get with a possibly-null key. The request maps are built from
   * cookie names and parameter names, never from null, so a null key finds nothing.
   */
  function LookupByName<V>(m: map<string, V>, name: Nullable<string>): (r: Option<V>)
    ensures r.Some? <==> name.Ref? && name.get in m
    ensures r.Some? ==> r.value == m[name.get]
  {
    if name.Ref? then Lookup(m, name.get) else None
  }

  class CheckCsrf<S> {
    var cookieName: Nullable<string>
    var formFieldName: Nullable<string>
    var doubleSubmitCsrf: DoubleSubmitCsrf

    /** The one-argument constructor: both names stay null until set. */
    constructor WithCsrf(doubleSubmitCsrf: DoubleSubmitCsrf)
      ensures cookieName == Null && formFieldName == Null
      ensures this.doubleSubmitCsrf == doubleSubmitCsrf
    {
      this.cookieName := Null;
      this.formFieldName := Null;
      this.doubleSubmitCsrf := doubleSubmitCsrf;
    }

    constructor (cookieName: string, formFieldName: string, doubleSubmitCsrf: DoubleSubmitCsrf)
      ensures this.cookieName == Ref(cookieName) && this.formFieldName == Ref(formFieldName)
      ensures this.doubleSubmitCsrf == doubleSubmitCsrf
    {
      this.cookieName := Ref(cookieName);
      this.formFieldName := Ref(formFieldName);
      this.doubleSubmitCsrf := doubleSubmitCsrf;
    }

    /**
     * The same acceptance rule as the net variant; a rejection sets the status
     * to FORBIDDEN (and changes nothing else) before the CsrfException.
     */
    method Process(verb: Method, request: Request<S>, response: Response<S>) returns (thrown: Option<Throwable>)
      modifies request, response
      ensures request.cookies == old(request.cookies) && request.formData == old(request.formData)
      ensures request.session == old(request.session)
      ensures var ok := Accepts(LookupByName(old(request.cookies), cookieName), LookupByName(old(request.formData), formFieldName), doubleSubmitCsrf);
        && (ok ==> thrown == None
                   && request.csrfChallenge == Some(old(request.formData)[formFieldName.get][0])
                   && response.State() == old(response.State()))
        && (!ok ==> thrown == Some(CsrfException(HALT_MSG))
                    && request.csrfChallenge == old(request.csrfChallenge)
                    && response.State() == old(response.State()).(statusCode := FORBIDDEN))
    {
      var csrfCookie := LookupByName(request.cookies, cookieName);
      var formValue := LookupByName(request.formData, formFieldName);
      var ok := Accepts(csrfCookie, formValue, doubleSubmitCsrf);
      if !ok {
        var haltException := CsrfException(HALT_MSG);
        OnHalt(haltException, response);
        thrown := Some(haltException);
      } else {
        request.SetCsrfChallenge(Some(formValue.value[0]));
        thrown := None;
      }
    }

    method OnHalt(e: Throwable, response: Response<S>)
      modifies response
      ensures response.State() == old(response.State()).(statusCode := FORBIDDEN)
    {
      response.SetStatusCode(FORBIDDEN);
    }

    method SetCookieName(cookieName: Nullable<string>)
      modifies this
      ensures this.cookieName == cookieName
      ensures formFieldName == old(formFieldName) && doubleSubmitCsrf == old(doubleSubmitCsrf)
    {
      this.cookieName := cookieName;
    }

    method SetFormFieldName(formFieldName: Nullable<string>)
      modifies this
      ensures this.formFieldName == formFieldName
      ensures cookieName == old(cookieName) && doubleSubmitCsrf == old(doubleSubmitCsrf)
    {
      this.formFieldName := formFieldName;
    }

    method SetDoubleSubmitCsrf(doubleSubmitCsrf: DoubleSubmitCsrf)
      modifies this
      ensures this.doubleSubmitCsrf == doubleSubmitCsrf
      ensures cookieName == old(cookieName) && formFieldName == old(formFieldName)
    {
      this.doubleSubmitCsrf := doubleSubmitCsrf;
    }
  }
}
