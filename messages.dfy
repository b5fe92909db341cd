/**
 * The request values passed between the router, the dispatcher and the REST
 * resources. Every field may be null where the framework leaves it unset, so
 * each is Nullable; an Optional field that may itself be null is a
 * Nullable<Option<..>>.
 */
module Messages {
  import opened Common
  import opened Entities

  /** What the router hands to the dispatcher: the 17 fields of the router's Ask, in order. */
  datatype Ask = Ask(
    matcher: Nullable<Option<Matcher>>,
    possibleContentTypes: Nullable<seq<MimeType>>,
    possibleAccepts: Nullable<seq<MimeType>>,
    httpMethod: Nullable<Method>,
    scheme: Nullable<string>,
    authority: Nullable<string>,
    port: Nullable<int>,
    pathWithParams: Nullable<string>,
    contentType: Nullable<MimeType>,
    accept: Nullable<MimeType>,
    headers: Nullable<map<string, string>>,
    cookies: Nullable<map<string, Cookie>>,
    queryParams: Nullable<map<string, seq<string>>>,
    formData: Nullable<map<string, seq<string>>>,
    body: Nullable<Option<seq<Byte>>>,
    csrfChallenge: Nullable<Option<string>>,
    ipAddress: Nullable<string>)

  /**
   * The REST resource's request: the fields the translators and resources
   * read, the authenticated user and the parsed payload.
   */
  datatype RestRequest<U, P> = RestRequest(
    matcher: Nullable<Option<Matcher>>,
    possibleContentTypes: Nullable<seq<MimeType>>,
    possibleAccepts: Nullable<seq<MimeType>>,
    httpMethod: Nullable<Method>,
    pathWithParams: Nullable<string>,
    contentType: Nullable<MimeType>,
    accept: Nullable<MimeType>,
    headers: Nullable<map<string, string>>,
    cookies: Nullable<map<string, Cookie>>,
    queryParams: Nullable<map<string, seq<string>>>,
    formData: Nullable<map<string, seq<string>>>,
    body: Nullable<Option<seq<Byte>>>,
    ipAddress: Nullable<string>,
    user: Option<U>,
    payload: Option<P>)

  /** The request a REST Between sees: the fields the translator assigns. */
  datatype RestBtwnRequest<U> = RestBtwnRequest(
    matcher: Nullable<Option<Matcher>>,
    possibleContentTypes: Nullable<seq<MimeType>>,
    possibleAccepts: Nullable<seq<MimeType>>,
    httpMethod: Nullable<Method>,
    pathWithParams: Nullable<string>,
    contentType: Nullable<MimeType>,
    accept: Nullable<MimeType>,
    headers: Nullable<map<string, string>>,
    cookies: Nullable<map<string, Cookie>>,
    queryParams: Nullable<map<string, seq<string>>>,
    formData: Nullable<map<string, seq<string>>>,
    body: Nullable<Option<seq<Byte>>>,
    ipAddress: Nullable<string>,
    user: Option<U>)
}
