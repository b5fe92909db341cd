/**
 * net.tokensmith...dispatch.translator.rest.RestBtwnRequestTranslator: builds
 * the request a REST Between sees, inbound from the router's Ask and outbound
 * from the resource's RestRequest. Both are straight field copies; the body is
 * assigned twice with the same value, which is one assignment here.
 */
module RestBtwnRequestTranslator {
  import opened Common
  import opened Entities
  import opened Messages

  /** The thirteen fields both overloads copy, read off an Ask. */
  predicate CopiedFromAsk<U>(to: RestBtwnRequest<U>, from: Ask) {
    && to.matcher == from.matcher
    && to.possibleContentTypes == from.possibleContentTypes
    && to.possibleAccepts == from.possibleAccepts
    && to.httpMethod == from.httpMethod
    && to.pathWithParams == from.pathWithParams
    && to.contentType == from.contentType
    && to.accept == from.accept
    && to.headers == from.headers
    && to.cookies == from.cookies
    && to.queryParams == from.queryParams
    && to.formData == from.formData
    && to.body == from.body
    && to.ipAddress == from.ipAddress
  }

  /** The same thirteen fields, read off a RestRequest. */
  predicate CopiedFromRestRequest<U, P>(to: RestBtwnRequest<U>, from: RestRequest<U, P>) {
    && to.matcher == from.matcher
    && to.possibleContentTypes == from.possibleContentTypes
    && to.possibleAccepts == from.possibleAccepts
    && to.httpMethod == from.httpMethod
    && to.pathWithParams == from.pathWithParams
    && to.contentType == from.contentType
    && to.accept == from.accept
    && to.headers == from.headers
    && to.cookies == from.cookies
    && to.queryParams == from.queryParams
    && to.formData == from.formData
    && to.body == from.body
    && to.ipAddress == from.ipAddress
  }

  /** Inbound: the Ask's request fields, and no user yet. */
  function FromAsk<U>(from: Ask): (to: RestBtwnRequest<U>)
    ensures CopiedFromAsk(to, from) && to.user == None
  {
    RestBtwnRequest(from.matcher, from.possibleContentTypes, from.possibleAccepts, from.httpMethod,
                    from.pathWithParams, from.contentType, from.accept, from.headers, from.cookies,
                    from.queryParams, from.formData, from.body, from.ipAddress, None)
  }

  /** Outbound: the same fields of the RestRequest, and its user. */
  function FromRestRequest<U, P>(from: RestRequest<U, P>): (to: RestBtwnRequest<U>)
    ensures CopiedFromRestRequest(to, from) && to.user == from.user
  {
    RestBtwnRequest(from.matcher, from.possibleContentTypes, from.possibleAccepts, from.httpMethod,
                    from.pathWithParams, from.contentType, from.accept, from.headers, from.cookies,
                    from.queryParams, from.formData, from.body, from.ipAddress, from.user)
  }

  /**
   * The inbound request is determined by the thirteen copied fields: the
   * Ask's scheme, authority, port and CSRF challenge never reach it.
   */
  lemma InboundIgnoresSchemeAuthorityPortAndChallenge<U>(a: Ask, b: Ask)
    requires a.(scheme := b.scheme, authority := b.authority, port := b.port, csrfChallenge := b.csrfChallenge) == b
    ensures FromAsk<U>(a) == FromAsk<U>(b)
  {
  }

  /** The outbound request does not depend on the resource's payload. */
  lemma OutboundIgnoresPayload<U, P>(r: RestRequest<U, P>, payload: Option<P>)
    ensures FromRestRequest(r) == FromRestRequest(r.(payload := payload))
  {
  }

  /**
   * The two overloads agree: a RestRequest carrying the Ask's fields
   * translates to the inbound request with the RestRequest's user filled in.
   */
  lemma OverloadsAgreeExceptUser<U, P>(ask: Ask, r: RestRequest<U, P>)
    requires CopiedFromAsk(FromRestRequest(r), ask)
    ensures FromRestRequest(r) == FromAsk<U>(ask).(user := r.user)
  {
  }

  /** Inbound then outbound through a RestRequest that keeps every field is the inbound request. */
  lemma OutboundOfUnauthenticatedIsInbound<U, P>(ask: Ask, r: RestRequest<U, P>)
    requires CopiedFromRestRequest(FromAsk<U>(ask), r) && r.user == None
    ensures FromRestRequest(r) == FromAsk<U>(ask)
  {
  }
}
