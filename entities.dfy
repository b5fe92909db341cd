/**
 * The framework's value entities that the security Betweens, the builders and
 * the translators exchange: status codes, HTTP verbs, cookies, cookie
 * configuration, symmetric keys and the exceptions they raise.
 */
module Entities {
  import opened Common

  /** The response statuses these components set. */
  datatype StatusCode =
    | OK
    | BAD_REQUEST
    | UNAUTHORIZED
    | FORBIDDEN
    | NOT_FOUND
    | NOT_ACCEPTABLE
    | UNSUPPORTED_MEDIA_TYPE
    | SERVER_ERROR
    | NOT_IMPLEMENTED

  /** The nine HTTP verbs a resource answers. */
  datatype Method = GET | POST | PUT | DELETE | CONNECT | OPTIONS | TRACE | PATCH | HEAD

  /** The framework's own cookie entity; comment, domain and path may be null. */
  datatype Cookie = Cookie(
    name: string,
    value: string,
    comment: Nullable<string>,
    domain: Nullable<string>,
    maxAge: int,
    path: Nullable<string>,
    version: int,
    secure: bool,
    httpOnly: bool)

  /** How a cookie written by a Between is to be shaped. */
  datatype CookieConfig = CookieConfig(name: string, secure: bool, age: int, httpOnly: bool)

  /** A symmetric JSON Web Key: an optional key id and the base64url key material. */
  datatype SymmetricKey = SymmetricKey(keyId: Option<string>, key: string)

  /** The exceptions the modelled code throws, checked and unchecked. */
  datatype Throwable =
    | HaltException(message: string, cause: Option<Throwable>)
    | CsrfException(message: string)
    | EncryptSessionException(message: string)
    | SessionCtorException(message: string)
    | NullPointerException
    | IllegalArgumentException
    | IllegalStateException(message: string)

  /** A Java class object for the application's session type, seen through reflection. */
  class SessionClass {
    const name: string
    /** Whether getConstructor(sessionClass) finds a public copy constructor. */
    const hasCopyConstructor: bool

    constructor (name: string, hasCopyConstructor: bool)
      ensures this.name == name && this.hasCopyConstructor == hasCopyConstructor
    {
      this.name := name;
      this.hasCopyConstructor := hasCopyConstructor;
    }
  }

  /** A java.util.regex.Matcher, identity only. */
  class Matcher {}

  /** A parsed media type, identity only. */
  class MimeType {}

  /** A middleware step supplied by the application, identity only. */
  class Between {}
}
