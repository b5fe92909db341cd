/**
 * net.tokensmith...session.between.html.EncryptSession: after the resource
 * has run, re-encrypts the response session into the session cookie when it
 * is new or has changed.
 */
module NetEncryptSession {
  import opened Common
  import opened Entities
  import opened Jwe
  import opened Responses

  const COULD_NOT_ENCRYPT_SESSION := "Could not encrypt session cookie"

  /** What EncryptedCompactBuilder is given: content encryption, key management, plaintext and key. */
  datatype CompactRequest = CompactRequest(
    encAlg: EncryptionAlgorithm, alg: Algorithm, payload: seq<Byte>, cek: SymmetricKey)

  /**
   * Re-encrypt when the response carries a session and the request had none,
   * or had a different one (the session class's equals, taken to be Dafny equality).
   */
  function ShouldEncrypt<S(==)>(requestSession: Option<S>, responseSession: Option<S>): (r: bool)
    ensures r <==> responseSession.Some? && (requestSession.None? || requestSession.value != responseSession.value)
  {
    if requestSession.Some? && responseSession.Some? then
      if responseSession.value == requestSession.value then false else true
    else if responseSession.Some? then
      true
    else
      false
  }

  /** The cookie written on success: config name, age, secure and httpOnly; the JWE as value. */
  function SessionCookie(config: CookieConfig, value: string): Cookie {
    Cookie(config.name, value, Null, Null, config.age, Null, 0, config.secure, config.httpOnly)
  }

  class EncryptSession<S(==)> {
    var cookieConfig: CookieConfig
    var preferredKey: SymmetricKey
    /** Jackson's ObjectWriter.writeValueAsBytes; a failure carries the exception's message. */
    const objectWriter: S -> Result<seq<Byte>, string>
    /** EncryptedCompactBuilder.build; a failure carries the CompactException's message. */
    const compactBuilder: CompactRequest -> Result<CompactJwe, string>

    constructor (cookieConfig: CookieConfig, preferredKey: SymmetricKey,
                 objectWriter: S -> Result<seq<Byte>, string>,
                 compactBuilder: CompactRequest -> Result<CompactJwe, string>)
      ensures this.cookieConfig == cookieConfig && this.preferredKey == preferredKey
      ensures this.objectWriter == objectWriter && this.compactBuilder == compactBuilder
    {
      this.cookieConfig := cookieConfig;
      this.preferredKey := preferredKey;
      this.objectWriter := objectWriter;
      this.compactBuilder := compactBuilder;
    }

    /**
     * Serialises the session and seals it with A256GCM under "dir" with the
     * preferred key. Either failure surfaces as EncryptSessionException.
     */
    function Encrypt(session: S): (r: Result<CompactJwe, Throwable>)
      reads this
      ensures r.Failure? ==> r.error.EncryptSessionException?
      ensures objectWriter(session).Failure? ==> r == Failure(EncryptSessionException(objectWriter(session).error))
      ensures objectWriter(session).Success? ==>
        var sealed := compactBuilder(CompactRequest(AES_GCM_256, DIRECT, objectWriter(session).value, preferredKey));
        (r.Success? <==> sealed.Success?)
        && (r.Success? ==> r.value == sealed.value)
        && (r.Failure? ==> r.error.message == sealed.error)
    {
      match objectWriter(session)
      case Failure(e) => Failure(EncryptSessionException(e))
      case Success(payload) =>
        match compactBuilder(CompactRequest(AES_GCM_256, DIRECT, payload, preferredKey))
        case Failure(e) => Failure(EncryptSessionException(e))
        case Success(compactJwe) => Success(compactJwe)
    }

    /**
     * Leaves the response alone unless ShouldEncrypt. Then either puts exactly
     * one cookie, under the configured name, holding the serialized JWE, or,
     * when encryption fails, sets SERVER_ERROR through onHalt and throws a
     * HaltException without writing any cookie. The session is never touched.
     */
    method Process(verb: Method, request: Request<S>, response: Response<S>) returns (thrown: Option<Throwable>)
      modifies response
      ensures response.session == old(response.session)
      ensures !ShouldEncrypt(request.session, old(response.session)) ==>
        thrown == None && response.State() == old(response.State())
      ensures ShouldEncrypt(request.session, old(response.session)) ==>
        var sealed := Encrypt(old(response.session).value);
        && (sealed.Success? ==>
              thrown == None
              && response.State() == old(response.State()).(cookies := old(response.cookies)[cookieConfig.name := SessionCookie(cookieConfig, Serialize(sealed.value))]))
        && (sealed.Failure? ==>
              thrown == Some(HaltException(COULD_NOT_ENCRYPT_SESSION, Some(sealed.error)))
              && response.State() == old(response.State()).(statusCode := SERVER_ERROR))
    {
      if ShouldEncrypt(request.session, response.session) {
        var sealed := Encrypt(response.session.value);
        if sealed.Failure? {
          var haltException := HaltException(COULD_NOT_ENCRYPT_SESSION, Some(sealed.error));
          OnHalt(haltException, response);
          thrown := Some(HaltException(COULD_NOT_ENCRYPT_SESSION, Some(sealed.error)));
          return;
        }
        var cookie := SessionCookie(cookieConfig, Serialize(sealed.value));
        response.PutCookie(cookieConfig.name, cookie);
        thrown := None;
      } else {
        thrown := None;
      }
    }

    /** The default reaction before the HaltException: status SERVER_ERROR, nothing else. */
    method OnHalt(e: Throwable, response: Response<S>)
      modifies response
      ensures response.State() == old(response.State()).(statusCode := SERVER_ERROR)
    {
      response.SetStatusCode(SERVER_ERROR);
    }

    method SetCookieConfig(cookieConfig: CookieConfig)
      modifies this
      ensures this.cookieConfig == cookieConfig && preferredKey == old(preferredKey)
    {
      this.cookieConfig := cookieConfig;
    }

    method SetPreferredKey(preferredKey: SymmetricKey)
      modifies this
      ensures this.preferredKey == preferredKey && cookieConfig == old(cookieConfig)
    {
      this.preferredKey := preferredKey;
    }
  }
}

/**
 * org.rootservices...session.between.EncryptSession: the earlier variant. It
 * re-encrypts only a session that replaced a different one, builds the JWE
 * header itself, does not set httpOnly and does not change the status when
 * encryption fails.
 */
module OrgEncryptSession {
  import opened Common
  import opened Entities
  import opened Jwe
  import opened Responses

  const COULD_NOT_ENCRYPT_SESSION := "Could not encrypt session cookie"

  datatype JweHeader = JweHeader(alg: Algorithm, enc: Option<EncryptionAlgorithm>, keyId: Option<string>)

  /** The JWE handed to JweSerializer: header, content encryption key and plaintext. */
  datatype DirectJwe = DirectJwe(header: JweHeader, cek: seq<Byte>, payload: seq<Byte>)

  /** Re-encrypt only when both sessions are present and differ. */
  function ShouldEncrypt<S(==)>(requestSession: Option<S>, responseSession: Option<S>): (r: bool)
    ensures r <==> requestSession.Some? && responseSession.Some? && requestSession.value != responseSession.value
  {
    if requestSession.Some? && responseSession.Some? then
      if responseSession.value == requestSession.value then false else true
    else
      false
  }

  /** The cookie written on success: config name, age and secure; httpOnly is never set. */
  function SessionCookie(config: CookieConfig, value: string): Cookie {
    Cookie(config.name, value, Null, Null, config.age, Null, 0, config.secure, false)
  }

  /** The header the variant builds: "dir", A256GCM and the preferred key's id. */
  function HeaderFor(key: SymmetricKey): JweHeader {
    JweHeader(DIRECT, Some(AES_GCM_256), key.keyId)
  }

  class EncryptSession<S(==)> {
    var cookieConfig: Nullable<CookieConfig>
    var preferredKey: Nullable<SymmetricKey>
    /** Jackson's ObjectMapper.writeValueAsBytes; a failure carries the exception's message. */
    const objectMapper: S -> Result<seq<Byte>, string>
    /** java.util.Base64's URL decoder; None where it throws IllegalArgumentException. */
    const decoder: string -> Option<seq<Byte>>
    /** JweSerializer.JWEToCompact for direct encryption; a failure carries the exception's message. */
    const jweSerializer: DirectJwe -> Result<CompactJwe, string>

    /** The three-argument constructor: no cookie config and no preferred key yet. */
    constructor WithoutKey(objectMapper: S -> Result<seq<Byte>, string>, decoder: string -> Option<seq<Byte>>,
                           jweSerializer: DirectJwe -> Result<CompactJwe, string>)
      ensures cookieConfig == Null && preferredKey == Null
      ensures this.objectMapper == objectMapper && this.decoder == decoder && this.jweSerializer == jweSerializer
    {
      this.cookieConfig := Null;
      this.preferredKey := Null;
      this.objectMapper := objectMapper;
      this.decoder := decoder;
      this.jweSerializer := jweSerializer;
    }

    constructor (cookieConfig: CookieConfig, preferredKey: SymmetricKey,
                 objectMapper: S -> Result<seq<Byte>, string>, decoder: string -> Option<seq<Byte>>,
                 jweSerializer: DirectJwe -> Result<CompactJwe, string>)
      ensures this.cookieConfig == Ref(cookieConfig) && this.preferredKey == Ref(preferredKey)
      ensures this.objectMapper == objectMapper && this.decoder == decoder && this.jweSerializer == jweSerializer
    {
      this.cookieConfig := Ref(cookieConfig);
      this.preferredKey := Ref(preferredKey);
      this.objectMapper := objectMapper;
      this.decoder := decoder;
      this.jweSerializer := jweSerializer;
    }

    /**
     * Serialises the session, builds the header from the preferred key's id,
     * decodes the preferred key as the content key and serializes the JWE.
     * Serialisation and JWE failures are EncryptSessionExceptions; a missing
     * key or undecodable key material raise unchecked exceptions.
     */
    function Encrypt(session: S): (r: Result<CompactJwe, Throwable>)
      reads this
      ensures objectMapper(session).Failure? ==> r == Failure(EncryptSessionException(objectMapper(session).error))
      ensures objectMapper(session).Success? && preferredKey.Null? ==> r == Failure(NullPointerException)
      ensures objectMapper(session).Success? && preferredKey.Ref? && decoder(preferredKey.get.key).None? ==>
        r == Failure(IllegalArgumentException)
      ensures r.Success? ==>
        && preferredKey.Ref? && decoder(preferredKey.get.key).Some? && objectMapper(session).Success?
        && jweSerializer(DirectJwe(HeaderFor(preferredKey.get), decoder(preferredKey.get.key).value, objectMapper(session).value))
           == Success(r.value)
      ensures r.Failure? && r.error.EncryptSessionException? && objectMapper(session).Success? ==>
        && preferredKey.Ref? && decoder(preferredKey.get.key).Some?
        && jweSerializer(DirectJwe(HeaderFor(preferredKey.get), decoder(preferredKey.get.key).value, objectMapper(session).value))
           == Failure(r.error.message)
    {
      match objectMapper(session)
      case Failure(e) => Failure(EncryptSessionException(e))
      case Success(payload) =>
        if preferredKey.Null? then Failure(NullPointerException)
        else
          var header := JweHeader(DIRECT, Some(AES_GCM_256), preferredKey.get.keyId);
          match decoder(preferredKey.get.key)
          case None => Failure(IllegalArgumentException)
          case Some(cek) =>
            match jweSerializer(DirectJwe(header, cek, payload))
            case Failure(e) => Failure(EncryptSessionException(e))
            case Success(compactJwe) => Success(compactJwe)
    }

    /**
     * Leaves the response alone unless ShouldEncrypt. An EncryptSessionException
     * becomes a HaltException, and any other exception propagates; either way
     * the response, status included, is unchanged. On success the cookie is
     * put under the configured name (a null config throws before the put).
     */
    method Process(verb: Method, request: Request<S>, response: Response<S>) returns (thrown: Option<Throwable>)
      modifies response
      ensures response.session == old(response.session)
      ensures !ShouldEncrypt(request.session, old(response.session)) ==>
        thrown == None && response.State() == old(response.State())
      ensures ShouldEncrypt(request.session, old(response.session)) ==>
        var sealed := Encrypt(old(response.session).value);
        && (sealed.Failure? && sealed.error.EncryptSessionException? ==>
              thrown == Some(HaltException(COULD_NOT_ENCRYPT_SESSION, Some(sealed.error)))
              && response.State() == old(response.State()))
        && (sealed.Failure? && !sealed.error.EncryptSessionException? ==>
              thrown == Some(sealed.error) && response.State() == old(response.State()))
        && (sealed.Success? && cookieConfig.Null? ==>
              thrown == Some(NullPointerException) && response.State() == old(response.State()))
        && (sealed.Success? && cookieConfig.Ref? ==>
              thrown == None
              && response.State() == old(response.State()).(cookies :=
                   old(response.cookies)[cookieConfig.get.name := SessionCookie(cookieConfig.get, Serialize(sealed.value))]))
    {
      if ShouldEncrypt(request.session, response.session) {
        var sealed := Encrypt(response.session.value);
        if sealed.Failure? {
          if sealed.error.EncryptSessionException? {
            thrown := Some(HaltException(COULD_NOT_ENCRYPT_SESSION, Some(sealed.error)));
          } else {
            thrown := Some(sealed.error);
          }
          return;
        }
        if cookieConfig.Null? {
          thrown := Some(NullPointerException);
          return;
        }
        var cookie := SessionCookie(cookieConfig.get, Serialize(sealed.value));
        response.PutCookie(cookieConfig.get.name, cookie);
        thrown := None;
      } else {
        thrown := None;
      }
    }

    method SetCookieConfig(cookieConfig: Nullable<CookieConfig>)
      modifies this
      ensures this.cookieConfig == cookieConfig && preferredKey == old(preferredKey)
    {
      this.cookieConfig := cookieConfig;
    }

    method SetPreferredKey(preferredKey: Nullable<SymmetricKey>)
      modifies this
      ensures this.preferredKey == preferredKey && cookieConfig == old(cookieConfig)
    {
      this.preferredKey := preferredKey;
    }
  }
}

/** How the two EncryptSession variants relate. */
module SessionRules {
  import opened Common
  import Net = NetEncryptSession
  import Org = OrgEncryptSession

  /**
   * The variants disagree on exactly one situation: a session that is present
   * in the response while the request had none. The net variant encrypts it,
   * the org variant does not.
   */
  lemma VariantsDisagreeOnlyOnNewSession<S>(requestSession: Option<S>, responseSession: Option<S>)
    ensures Net.ShouldEncrypt(requestSession, responseSession) != Org.ShouldEncrypt(requestSession, responseSession)
        <==> requestSession.None? && responseSession.Some?
  {
  }

  /** Whatever the org variant re-encrypts, the net variant re-encrypts too. */
  lemma OrgEncryptsOnlyWhatNetEncrypts<S>(requestSession: Option<S>, responseSession: Option<S>)
    ensures Org.ShouldEncrypt(requestSession, responseSession) ==> Net.ShouldEncrypt(requestSession, responseSession)
  {
  }

  /** Neither variant re-encrypts an unchanged session or an absent one. */
  lemma UnchangedSessionIsNotRewritten<S>(session: Option<S>)
    ensures !Net.ShouldEncrypt(session, session) && !Org.ShouldEncrypt(session, session)
    ensures !Net.ShouldEncrypt(session, None) && !Org.ShouldEncrypt(session, None)
  {
  }
}
