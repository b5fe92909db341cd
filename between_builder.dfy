/**
 * net.tokensmith...security.builder.BetweenBuilder: assembles the security
 * Betweens a route runs before and after its resource. The Betweens it
 * instantiates (PrepareCSRF, CheckCSRF, DecryptSession, EncryptSession of the
 * security.*.between packages) are not part of this model; each is recorded
 * as a descriptor holding exactly the arguments its constructor is given.
 */
module SecurityBuilder {
  import opened Common
  import opened Entities

  const CSRF_NAME := "csrfToken"
  const SESSION_NAME := "session"
  const COULD_NOT_ACCESS_SESSION_CTORS := "Could not access session copy constructor"

  /** The TranslatorAppFactory: the source of the Jackson reader and writer. */
  class TranslatorAppFactory {}

  /** appFactory.objectReader().forType(sessionClass). */
  datatype ObjectReader = ObjectReader(factory: TranslatorAppFactory, forType: Nullable<SessionClass>)

  /** appFactory.objectWriter(). */
  datatype ObjectWriter = ObjectWriter(factory: TranslatorAppFactory)

  /**
   * new CookieConfig(name, secure, age, httpOnly). The builder's secure flag
   * is a Boolean that may still be null when a cookie config is made.
   */
  datatype CookieSpec = CookieSpec(name: string, secure: Nullable<bool>, age: int, httpOnly: bool)

  /** The constructor arguments of one Between the builder adds. */
  datatype BetweenSpec =
    | PrepareCsrf(cookieConfig: CookieSpec, signKey: Nullable<SymmetricKey>,
                  rotationSignKeys: Nullable<map<string, SymmetricKey>>)
    | CheckCsrf(cookieName: string, formFieldName: string, signKey: Nullable<SymmetricKey>,
                rotationSignKeys: Nullable<map<string, SymmetricKey>>)
    | DecryptSession(sessionCtor: SessionClass, cookieName: string, encKey: Nullable<SymmetricKey>,
                     rotationEncKeys: Nullable<map<string, SymmetricKey>>, reader: Nullable<ObjectReader>,
                     required: bool)
    | EncryptSession(cookieConfig: CookieSpec, encKey: Nullable<SymmetricKey>, writer: ObjectWriter)

  /** What build returns: the before and after lists. */
  datatype Betweens = Betweens(before: seq<BetweenSpec>, after: seq<BetweenSpec>)

  /** Every field of a BetweenBuilder at one moment. */
  datatype BuilderState = BuilderState(
    appFactory: Nullable<TranslatorAppFactory>,
    secure: Nullable<bool>,
    signKey: Nullable<SymmetricKey>,
    rotationSignKeys: Nullable<map<string, SymmetricKey>>,
    encKey: Nullable<SymmetricKey>,
    rotationEncKeys: Nullable<map<string, SymmetricKey>>,
    sessionClass: Nullable<SessionClass>,
    sessionObjectReader: Nullable<ObjectReader>,
    sessionCtor: Nullable<SessionClass>,
    before: seq<BetweenSpec>,
    after: seq<BetweenSpec>)

  /** The CSRF cookie: "csrfToken", the builder's secure flag, session-length, httpOnly. */
  function CsrfCookieConfig(secure: Nullable<bool>): CookieSpec {
    CookieSpec(CSRF_NAME, secure, -1, true)
  }

  /** The session cookie: "session", the builder's secure flag, session-length, httpOnly. */
  function SessionCookieConfig(secure: Nullable<bool>): CookieSpec {
    CookieSpec(SESSION_NAME, secure, -1, true)
  }

  /**
   * The shape every Between added by the builder has: CSRF Betweens use the
   * name "csrfToken", session Betweens the name "session", and every cookie
   * it configures is an httpOnly session cookie (age -1).
   */
  predicate WellFormed(b: BetweenSpec) {
    match b
    case PrepareCsrf(config, _, _) => config.name == CSRF_NAME && config.age == -1 && config.httpOnly
    case CheckCsrf(cookieName, formFieldName, _, _) => cookieName == CSRF_NAME && formFieldName == CSRF_NAME
    case DecryptSession(ctor, cookieName, _, _, _, _) => cookieName == SESSION_NAME && ctor.hasCopyConstructor
    case EncryptSession(config, _, _) => config.name == SESSION_NAME && config.age == -1 && config.httpOnly
  }

  /** Before holds only request-side Betweens and after only EncryptSession. */
  predicate SortedBySide(bs: Betweens) {
    && (forall i :: 0 <= i < |bs.before| ==> !bs.before[i].EncryptSession? && WellFormed(bs.before[i]))
    && (forall i :: 0 <= i < |bs.after| ==> bs.after[i].EncryptSession? && WellFormed(bs.after[i]))
  }

  /**
   * The outcome of session() / optionalSession() from state s to state t:
   * - no session class: NullPointerException, nothing changed;
   * - no copy constructor: SessionCtorException, nothing changed;
   * - otherwise the constructor is recorded and a DecryptSession (encKey and
   *   rotation keys) is appended to before; then, with an app factory, an
   *   EncryptSession (encKey only) is appended to after, and without one a
   *   NullPointerException leaves after unchanged.
   */
  ghost predicate SessionPairAdded(s: BuilderState, t: BuilderState, thrown: Option<Throwable>, required: bool) {
    if s.sessionClass.Null? then
      thrown == Some(NullPointerException) && t == s
    else if !s.sessionClass.get.hasCopyConstructor then
      thrown == Some(SessionCtorException(COULD_NOT_ACCESS_SESSION_CTORS)) && t == s
    else
      var decrypt := DecryptSession(s.sessionClass.get, SESSION_NAME, s.encKey, s.rotationEncKeys,
                                    s.sessionObjectReader, required);
      var withCtor := s.(sessionCtor := s.sessionClass, before := s.before + [decrypt]);
      if s.appFactory.Null? then
        thrown == Some(NullPointerException) && t == withCtor
      else
        thrown == None
        && t == withCtor.(after := s.after + [EncryptSession(SessionCookieConfig(s.secure), s.encKey,
                                                              ObjectWriter(s.appFactory.get))])
  }

  /**
   * A session pair that was added completely shares one encryption key: the
   * DecryptSession got encKey with the rotation keys, the EncryptSession
   * encKey alone, and both lists grew by exactly one.
   */
  lemma SessionPairSharesEncKey(s: BuilderState, t: BuilderState, required: bool)
    requires SessionPairAdded(s, t, None, required)
    ensures |t.before| == |s.before| + 1 && |t.after| == |s.after| + 1
    ensures t.before[..|s.before|] == s.before && t.after[..|s.after|] == s.after
    ensures var decrypt, encrypt := t.before[|s.before|], t.after[|s.after|];
      && decrypt.DecryptSession? && encrypt.EncryptSession?
      && decrypt.encKey == encrypt.encKey == s.encKey
      && decrypt.rotationEncKeys == s.rotationEncKeys
      && decrypt.required == required
      && encrypt.cookieConfig == SessionCookieConfig(s.secure)
  {
  }

  /** Without a usable copy constructor neither list changes. */
  lemma MissingCtorLeavesListsAlone(s: BuilderState, t: BuilderState, thrown: Option<Throwable>, required: bool)
    requires SessionPairAdded(s, t, thrown, required)
    requires s.sessionClass.Ref? && !s.sessionClass.get.hasCopyConstructor
    ensures thrown == Some(SessionCtorException(COULD_NOT_ACCESS_SESSION_CTORS))
    ensures t.before == s.before && t.after == s.after
  {
  }

  class BetweenBuilder {
    var appFactory: Nullable<TranslatorAppFactory>
    var secure: Nullable<bool>
    var signKey: Nullable<SymmetricKey>
    var rotationSignKeys: Nullable<map<string, SymmetricKey>>
    var encKey: Nullable<SymmetricKey>
    var rotationEncKeys: Nullable<map<string, SymmetricKey>>
    var sessionClass: Nullable<SessionClass>
    var sessionObjectReader: Nullable<ObjectReader>
    /** The copy constructor found by reflection, named by the class it belongs to. */
    var sessionCtor: Nullable<SessionClass>
    var before: seq<BetweenSpec>
    var after: seq<BetweenSpec>

    function State(): BuilderState
      reads this
    {
      BuilderState(appFactory, secure, signKey, rotationSignKeys, encKey, rotationEncKeys,
                   sessionClass, sessionObjectReader, sessionCtor, before, after)
    }

    /** The lists hold only Betweens of the shapes the builder makes, each on its side. */
    predicate Valid()
      reads this
    {
      SortedBySide(Betweens(before, after))
    }

    constructor ()
      ensures State() == BuilderState(Null, Null, Null, Null, Null, Null, Null, Null, Null, [], [])
      ensures Valid()
    {
      appFactory, secure, signKey, rotationSignKeys := Null, Null, Null, Null;
      encKey, rotationEncKeys := Null, Null;
      sessionClass, sessionObjectReader, sessionCtor := Null, Null, Null;
      before, after := [], [];
    }

    method RouterAppFactory(appFactory: Nullable<TranslatorAppFactory>) returns (b: BetweenBuilder)
      modifies this
      ensures b == this && State() == old(State()).(appFactory := appFactory)
    {
      this.appFactory := appFactory;
      b := this;
    }

    method Secure(secure: Nullable<bool>) returns (b: BetweenBuilder)
      modifies this
      ensures b == this && State() == old(State()).(secure := secure)
    {
      this.secure := secure;
      b := this;
    }

    method SignKey(signKey: Nullable<SymmetricKey>) returns (b: BetweenBuilder)
      modifies this
      ensures b == this && State() == old(State()).(signKey := signKey)
    {
      this.signKey := signKey;
      b := this;
    }

    method RotationSignKeys(rotationSignKeys: Nullable<map<string, SymmetricKey>>) returns (b: BetweenBuilder)
      modifies this
      ensures b == this && State() == old(State()).(rotationSignKeys := rotationSignKeys)
    {
      this.rotationSignKeys := rotationSignKeys;
      b := this;
    }

    method EncKey(encKey: Nullable<SymmetricKey>) returns (b: BetweenBuilder)
      modifies this
      ensures b == this && State() == old(State()).(encKey := encKey)
    {
      this.encKey := encKey;
      b := this;
    }

    method RotationEncKey(rotationEncKeys: Nullable<map<string, SymmetricKey>>) returns (b: BetweenBuilder)
      modifies this
      ensures b == this && State() == old(State()).(rotationEncKeys := rotationEncKeys)
    {
      this.rotationEncKeys := rotationEncKeys;
      b := this;
    }

    /**
     * Records the session class, then asks the app factory for a reader of
     * that type; with no app factory the class is recorded and a
     * NullPointerException follows.
     */
    method SessionClassOf(sessionClass: Nullable<SessionClass>) returns (b: BetweenBuilder, thrown: Option<Throwable>)
      modifies this
      ensures b == this
      ensures old(appFactory).Null? ==>
        thrown == Some(NullPointerException) && State() == old(State()).(sessionClass := sessionClass)
      ensures old(appFactory).Ref? ==>
        thrown == None
        && State() == old(State()).(sessionClass := sessionClass,
                                    sessionObjectReader := Ref(ObjectReader(old(appFactory).get, sessionClass)))
    {
      this.sessionClass := sessionClass;
      b := this;
      if appFactory.Null? {
        thrown := Some(NullPointerException);
        return;
      }
      sessionObjectReader := Ref(ObjectReader(appFactory.get, sessionClass));
      thrown := None;
    }

    /** Appends one PrepareCSRF to before: the CSRF cookie config and the signing keys. */
    method CsrfPrepare() returns (b: BetweenBuilder)
      requires Valid()
      modifies this
      ensures b == this && Valid()
      ensures State() == old(State()).(before := old(before) + [PrepareCsrf(CsrfCookieConfig(secure), signKey, rotationSignKeys)])
    {
      var prepareCsrf := PrepareCsrf(CsrfCookieConfig(secure), signKey, rotationSignKeys);
      before := before + [prepareCsrf];
      b := this;
    }

    /** Appends one CheckCSRF to before, reading cookie and form field "csrfToken". */
    method CsrfProtect() returns (b: BetweenBuilder)
      requires Valid()
      modifies this
      ensures b == this && Valid()
      ensures State() == old(State()).(before := old(before) + [CheckCsrf(CSRF_NAME, CSRF_NAME, signKey, rotationSignKeys)])
    {
      var checkCsrf := CheckCsrf(CSRF_NAME, CSRF_NAME, signKey, rotationSignKeys);
      before := before + [checkCsrf];
      b := this;
    }

    /** Adds a required DecryptSession before and an EncryptSession after. */
    method Session() returns (b: BetweenBuilder, thrown: Option<Throwable>)
      requires Valid()
      modifies this
      ensures b == this && Valid()
      ensures SessionPairAdded(old(State()), State(), thrown, true)
    {
      thrown := AddSessionPair(true);
      b := this;
    }

    /** Adds an optional DecryptSession before and an EncryptSession after. */
    method OptionalSession() returns (b: BetweenBuilder, thrown: Option<Throwable>)
      requires Valid()
      modifies this
      ensures b == this && Valid()
      ensures SessionPairAdded(old(State()), State(), thrown, false)
    {
      thrown := AddSessionPair(false);
      b := this;
    }

    /**
     * The shared body of session() and optionalSession(): the session class
     * must be set and have a copy constructor, then a DecryptSession with the
     * given required flag goes before and an EncryptSession after.
     */
    method AddSessionPair(required: bool) returns (thrown: Option<Throwable>)
      requires Valid()
      modifies this
      ensures Valid()
      ensures SessionPairAdded(old(State()), State(), thrown, required)
    {
      var sessionCookieConfig := SessionCookieConfig(secure);
      if sessionClass.Null? {
        return Some(NullPointerException);
      }
      if !sessionClass.get.hasCopyConstructor {
        return Some(SessionCtorException(COULD_NOT_ACCESS_SESSION_CTORS));
      }
      sessionCtor := sessionClass;
      var decryptSession := DecryptSession(sessionCtor.get, SESSION_NAME, encKey, rotationEncKeys,
                                           sessionObjectReader, required);
      before := before + [decryptSession];
      if appFactory.Null? {
        return Some(NullPointerException);
      }
      var encryptSession := EncryptSession(sessionCookieConfig, encKey, ObjectWriter(appFactory.get));
      after := after + [encryptSession];
      thrown := None;
    }

    /** The before and after lists, in the order the calls added them. */
    method Build() returns (betweens: Betweens)
      requires Valid()
      ensures betweens.before == before && betweens.after == after
      ensures SortedBySide(betweens)
    {
      betweens := Betweens(before, after);
    }
  }
}
