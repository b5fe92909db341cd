# Otter security Betweens, in Dafny

Otter is a Java web framework. A route runs a chain of *Betweens*: middleware that runs before the resource (the `before` list) and after it (the `after` list). This project models the framework's security Betweens and the code around them.

**Session re-encryption.** `EncryptSession` comes in two versions:
- `net.tokensmith…html.EncryptSession` (module `NetEncryptSession`);
- the earlier `org.rootservices…EncryptSession` (module `OrgEncryptSession`).

Each decides from the request and response sessions whether to write a new session cookie. It seals the session as a compact JWE ("dir", A256GCM; RFC 7516 and RFC 7518). Then it either puts exactly one cookie or halts. The two versions disagree on a session that is new in the response. `SessionRules` proves that this is the only case where they differ.

**Double-submit CSRF check.** `CheckCSRF` also comes in two versions (modules `NetCheckCsrf` and `OrgCheckCsrf`). Both share one fail-closed acceptance rule (module `DoubleSubmit`). On success the check records the submitted token as the request's CSRF challenge. On failure it runs its `onHalt` reaction and throws.

**Between-list assembly.** `BetweenBuilder` (module `SecurityBuilder`) appends descriptors of the CSRF and session Betweens to the `before` and `after` lists.

**Gateway configuration.** Two route-group builders: `NetGroupBuilder` with per-status error maps, and `OrgGroupBuilder`. `NotFoundRestResource` answers every verb with NOT_FOUND.

**Request and response shaping.**
- Servlet request and cookie translators: `ServletRequestTranslator`, `ServletCookieTranslator`.
- The REST Between request translator.
- Chunking of the outgoing payload: `ReadListener`.
- The servlet URI join: `GetServletUri`.
- The mutable `Response`, which the Betweens update in place.
- `AskBuilder`.

**How the Java is represented.**
- Java `null` is `Common.Nullable` (`Null | Ref`). This is kept apart from `java.util.Optional`, which is `Common.Option`.
- A thrown exception is the `Entities.Throwable` value a method returns, or `None` when it returns normally.
- Mutable objects are classes. Each has a `State()` snapshot so its setters can say that nothing else changes.
- Collaborators whose code is not part of this model are uninterpreted functions held by the class that uses them: Jackson, the JWE library, token signing, the header translator and the query-string parser.

Files:
- `common.dfy`, `entities.dfy`, `messages.dfy`: shared values.
- `jwe.dfy`: compact JWE shape and `String.split`.
- `response.dfy`: the mutable response and request.
- `csrf_check.dfy`, `encrypt_session.dfy`: the security Betweens.
- `between_builder.dfy`, `group_builder.dfy`, `ask_builder.dfy`: the builders.
- `not_found_rest_resource.dfy`, `rest_btwn_request_translator.dfy`, `servlet_request_translator.dfy`, `servlet_cookie_translator.dfy`, `read_listener.dfy`, `get_servlet_uri.dfy`: the helpers.

## Model

| member | source | states |
|---|---|---|
| Jwe.SerializeSplitsIntoFiveParts | src/test/java/org/rootservices/otter/security/session/between/EncryptSessionTest.java:134-144 | A serialized compact JWE, split at "." with Java's split semantics, gives back exactly its five segments. |
| Responses.Response.constructor | otter/src/main/java/net/tokensmith/otter/controller/entity/response/Response.java:18-30 | The six-argument constructor stores those six fields and leaves the session empty. |
| Responses.Response.SetStatusCode | otter/src/main/java/net/tokensmith/otter/controller/entity/response/Response.java:36-38 | Changes the status and no other field. |
| Responses.Response.SetHeaders | otter/src/main/java/net/tokensmith/otter/controller/entity/response/Response.java:44-46 | Changes the headers and no other field. |
| Responses.Response.SetCookies | otter/src/main/java/net/tokensmith/otter/controller/entity/response/Response.java:52-54 | Changes the cookie map and no other field. |
| Responses.Response.PutCookie | otter/src/main/java/net/tokensmith/otter/controller/entity/response/Response.java:48-50 | A put through the map that getCookies hands out lands in the stored map: that one key is replaced and nothing else changes. |
| Responses.Response.SetPayload | otter/src/main/java/net/tokensmith/otter/controller/entity/response/Response.java:60-62 | Changes the payload and no other field. |
| Responses.Response.SetTemplate | otter/src/main/java/net/tokensmith/otter/controller/entity/response/Response.java:68-70 | Changes the template and no other field. |
| Responses.Response.SetPresenter | otter/src/main/java/net/tokensmith/otter/controller/entity/response/Response.java:76-78 | Changes the presenter and no other field. |
| Responses.Response.SetSession | otter/src/main/java/net/tokensmith/otter/controller/entity/response/Response.java:84-86 | Changes the session and no other field. |
| DoubleSubmit.Accepts | otter/src/main/java/net/tokensmith/otter/security/csrf/between/html/CheckCSRF.java:36-42 | Accepts exactly when the cookie is present, the form field has exactly one value, and doTokensMatch holds of the cookie value and that form value. |
| DoubleSubmit.RejectsWithoutSubmission | otter/src/main/java/net/tokensmith/otter/security/csrf/between/html/CheckCSRF.java:38-42 | Without a cookie and a single form value the request is rejected, whatever the token check would say. The check is never consulted. |
| NetCheckCsrf.CheckCsrf.constructor | otter/src/main/java/net/tokensmith/otter/security/csrf/between/html/CheckCSRF.java:26-31 | Stores both names, the double-submit checker and the onHalt callback. |
| NetCheckCsrf.CheckCsrf.Process | otter/src/main/java/net/tokensmith/otter/security/csrf/between/html/CheckCSRF.java:33-51 | On acceptance the CSRF challenge becomes the single form value and the response is untouched. On rejection onHalt is applied to the response once, a CsrfException("CSRF failed.") is thrown, and the challenge is unchanged. Cookies, form data and session are never changed. |
| NetCheckCsrf.CheckCsrf.OnHalt | otter/src/main/java/net/tokensmith/otter/security/csrf/between/html/CheckCSRF.java:62-64 | The response ends in the state the onHalt callback gives it. |
| NetCheckCsrf.CheckCsrf.SetCookieName | otter/src/main/java/net/tokensmith/otter/security/csrf/between/html/CheckCSRF.java:71-73 | Stores the cookie name; the other settings keep their values. |
| NetCheckCsrf.CheckCsrf.SetFormFieldName | otter/src/main/java/net/tokensmith/otter/security/csrf/between/html/CheckCSRF.java:79-81 | Stores the form field name; the other settings keep their values. |
| NetCheckCsrf.CheckCsrf.SetDoubleSubmitCsrf | otter/src/main/java/net/tokensmith/otter/security/csrf/between/html/CheckCSRF.java:87-89 | Stores the double-submit checker; the names keep their values. |
| OrgCheckCsrf.LookupByName | otter/src/main/java/org/rootservices/otter/security/csrf/between/CheckCSRF.java:36-37 | A lookup with a null name finds nothing. Otherwise it finds exactly the entry under that name. |
| OrgCheckCsrf.CheckCsrf.WithCsrf | otter/src/main/java/org/rootservices/otter/security/csrf/between/CheckCSRF.java:23-25 | The one-argument constructor leaves both names null. |
| OrgCheckCsrf.CheckCsrf.constructor | otter/src/main/java/org/rootservices/otter/security/csrf/between/CheckCSRF.java:27-31 | Stores both names and the double-submit checker. |
| OrgCheckCsrf.CheckCsrf.Process | otter/src/main/java/org/rootservices/otter/security/csrf/between/CheckCSRF.java:33-51 | The same acceptance rule as the net version. On acceptance the challenge is set and the response is untouched. On rejection the status becomes FORBIDDEN and nothing else changes, a CsrfException is thrown, and the challenge is unchanged. |
| OrgCheckCsrf.CheckCsrf.OnHalt | otter/src/main/java/org/rootservices/otter/security/csrf/between/CheckCSRF.java:62-64 | Sets the status to FORBIDDEN and nothing else. |
| OrgCheckCsrf.CheckCsrf.SetCookieName | otter/src/main/java/org/rootservices/otter/security/csrf/between/CheckCSRF.java:70-72 | Stores the cookie name; the other settings keep their values. |
| OrgCheckCsrf.CheckCsrf.SetFormFieldName | otter/src/main/java/org/rootservices/otter/security/csrf/between/CheckCSRF.java:78-80 | Stores the form field name; the other settings keep their values. |
| OrgCheckCsrf.CheckCsrf.SetDoubleSubmitCsrf | otter/src/main/java/org/rootservices/otter/security/csrf/between/CheckCSRF.java:86-88 | Stores the double-submit checker; the names keep their values. |
| NetEncryptSession.ShouldEncrypt | otter/src/main/java/net/tokensmith/otter/security/session/between/html/EncryptSession.java:92-102 | True exactly when the response has a session and either the request had none or had a different one. |
| NetEncryptSession.EncryptSession.constructor | otter/src/main/java/net/tokensmith/otter/security/session/between/html/EncryptSession.java:44-48 | Stores the cookie config, the preferred key and the writer. |
| NetEncryptSession.EncryptSession.Encrypt | otter/src/main/java/net/tokensmith/otter/security/session/between/html/EncryptSession.java:104-126 | Always seals with the preferred key, A256GCM and "dir". A serialisation failure and a sealing failure both surface as EncryptSessionException, carrying the cause's message. |
| NetEncryptSession.EncryptSession.Process | otter/src/main/java/net/tokensmith/otter/security/session/between/html/EncryptSession.java:50-77 | When not re-encrypting, the response is untouched. On success exactly one cookie is put under the configured name: age, secure and httpOnly from the config, the serialized JWE as value; every other field and cookie is unchanged. On failure only the status changes (SERVER_ERROR), a HaltException("Could not encrypt session cookie") with the cause is thrown, and no cookie is written. The session is never modified. |
| NetEncryptSession.EncryptSession.OnHalt | otter/src/main/java/net/tokensmith/otter/security/session/between/html/EncryptSession.java:88-90 | Sets SERVER_ERROR and nothing else. |
| NetEncryptSession.EncryptSession.SetCookieConfig | otter/src/main/java/net/tokensmith/otter/security/session/between/html/EncryptSession.java:132-134 | Stores the config; the key is unchanged. |
| NetEncryptSession.EncryptSession.SetPreferredKey | otter/src/main/java/net/tokensmith/otter/security/session/between/html/EncryptSession.java:140-142 | Stores the key; the config is unchanged. |
| OrgEncryptSession.ShouldEncrypt | otter/src/main/java/org/rootservices/otter/security/session/between/EncryptSession.java:85-93 | True exactly when both sessions are present and differ. |
| OrgEncryptSession.EncryptSession.WithoutKey | otter/src/main/java/org/rootservices/otter/security/session/between/EncryptSession.java:47-51 | The three-argument constructor leaves the cookie config and the preferred key null. |
| OrgEncryptSession.EncryptSession.constructor | otter/src/main/java/org/rootservices/otter/security/session/between/EncryptSession.java:53-59 | Stores the config, the key and the three collaborators. |
| OrgEncryptSession.EncryptSession.Encrypt | otter/src/main/java/org/rootservices/otter/security/session/between/EncryptSession.java:95-123 | A serialisation failure becomes EncryptSessionException. A null key gives NullPointerException. Undecodable key material gives IllegalArgumentException. Otherwise the JWE has "dir", A256GCM, the preferred key's id and the decoded preferred key as content key, and a serializer failure becomes EncryptSessionException. |
| OrgEncryptSession.EncryptSession.Process | otter/src/main/java/org/rootservices/otter/security/session/between/EncryptSession.java:61-83 | When not re-encrypting, the response is untouched. An EncryptSessionException becomes a HaltException; other exceptions propagate; the status is never changed. On success one cookie is put with the config's name, age and secure flag, and httpOnly unset. A null config throws before the put. |
| OrgEncryptSession.EncryptSession.SetCookieConfig | otter/src/main/java/org/rootservices/otter/security/session/between/EncryptSession.java:129-131 | Stores the config; the key is unchanged. |
| OrgEncryptSession.EncryptSession.SetPreferredKey | otter/src/main/java/org/rootservices/otter/security/session/between/EncryptSession.java:137-139 | Stores the key; the config is unchanged. |
| SessionRules.VariantsDisagreeOnlyOnNewSession | otter/src/main/java/net/tokensmith/otter/security/session/between/html/EncryptSession.java:92-102 | The two versions' decisions differ exactly when the request has no session and the response has one. |
| SessionRules.OrgEncryptsOnlyWhatNetEncrypts | otter/src/main/java/org/rootservices/otter/security/session/between/EncryptSession.java:85-93 | Whatever the org version re-encrypts, the net version re-encrypts too. |
| SessionRules.UnchangedSessionIsNotRewritten | otter/src/main/java/org/rootservices/otter/security/session/between/EncryptSession.java:85-93 | Neither version re-encrypts an unchanged session, nor anything when the response has no session. |
| SecurityBuilder.SessionPairSharesEncKey | otter/src/main/java/net/tokensmith/otter/security/builder/BetweenBuilder.java:98-114 | A completed session() adds one DecryptSession to before and one EncryptSession to after. Both carry encKey; only the DecryptSession carries the rotation keys; it has the requested required flag; the EncryptSession uses the "session" cookie config. Earlier entries are kept. |
| SecurityBuilder.MissingCtorLeavesListsAlone | otter/src/main/java/net/tokensmith/otter/security/builder/BetweenBuilder.java:101-105 | Without a copy constructor, SessionCtorException("Could not access session copy constructor") is thrown before either list changes. |
| SecurityBuilder.BetweenBuilder.constructor | otter/src/main/java/net/tokensmith/otter/security/builder/BetweenBuilder.java:29-40 | Every setting null, both lists empty. |
| SecurityBuilder.BetweenBuilder.RouterAppFactory | otter/src/main/java/net/tokensmith/otter/security/builder/BetweenBuilder.java:42-45 | Stores the app factory, changes nothing else, returns the same builder. |
| SecurityBuilder.BetweenBuilder.Secure | otter/src/main/java/net/tokensmith/otter/security/builder/BetweenBuilder.java:47-50 | Stores the secure flag, changes nothing else, returns the same builder. |
| SecurityBuilder.BetweenBuilder.SignKey | otter/src/main/java/net/tokensmith/otter/security/builder/BetweenBuilder.java:52-55 | Stores the signing key, changes nothing else, returns the same builder. |
| SecurityBuilder.BetweenBuilder.RotationSignKeys | otter/src/main/java/net/tokensmith/otter/security/builder/BetweenBuilder.java:57-60 | Stores the rotation signing keys, changes nothing else, returns the same builder. |
| SecurityBuilder.BetweenBuilder.EncKey | otter/src/main/java/net/tokensmith/otter/security/builder/BetweenBuilder.java:82-85 | Stores the encryption key, changes nothing else, returns the same builder. |
| SecurityBuilder.BetweenBuilder.RotationEncKey | otter/src/main/java/net/tokensmith/otter/security/builder/BetweenBuilder.java:87-90 | Stores the rotation encryption keys, changes nothing else, returns the same builder. |
| SecurityBuilder.BetweenBuilder.SessionClassOf | otter/src/main/java/net/tokensmith/otter/security/builder/BetweenBuilder.java:92-96 | Stores the session class. With an app factory it also stores a reader for that class. Without one the class is stored and a NullPointerException follows. |
| SecurityBuilder.BetweenBuilder.CsrfPrepare | otter/src/main/java/net/tokensmith/otter/security/builder/BetweenBuilder.java:62-70 | Appends exactly one PrepareCSRF to before. It carries the cookie config ("csrfToken", the builder's secure flag, -1, httpOnly) and the signing keys. after is unchanged. |
| SecurityBuilder.BetweenBuilder.CsrfProtect | otter/src/main/java/net/tokensmith/otter/security/builder/BetweenBuilder.java:72-79 | Appends exactly one CheckCSRF to before, with cookie and form field both "csrfToken" and the signing keys. after is unchanged. |
| SecurityBuilder.BetweenBuilder.Session | otter/src/main/java/net/tokensmith/otter/security/builder/BetweenBuilder.java:98-114 | The session() outcome with required = true: the exceptions, or the appended DecryptSession/EncryptSession pair, as described in SessionPairAdded. The lists keep only well-formed entries on the right side. |
| SecurityBuilder.BetweenBuilder.OptionalSession | otter/src/main/java/net/tokensmith/otter/security/builder/BetweenBuilder.java:116-132 | The same outcome with required = false. |
| SecurityBuilder.BetweenBuilder.AddSessionPair | otter/src/main/java/net/tokensmith/otter/security/builder/BetweenBuilder.java:98-132 | The session() outcome for the given required flag, as SessionPairAdded states: NullPointerException for a missing class, SessionCtorException without a copy constructor (lists unchanged), otherwise the DecryptSession/EncryptSession pair appended. The lists stay sorted by side. |
| SecurityBuilder.BetweenBuilder.Build | otter/src/main/java/net/tokensmith/otter/security/builder/BetweenBuilder.java:134-136 | Returns the before and after lists in call order. Before holds only request-side Betweens and after only EncryptSession, all shaped as the builder makes them. |
| Common.OfNullable | otter/src/main/java/net/tokensmith/otter/gateway/builder/GroupBuilder.java:65-71 | makeBetween (and Optional.ofNullable on the query string): empty exactly for null, otherwise present with the same value. |
| Common.OfNullableRoundTrip | otter/src/main/java/net/tokensmith/otter/gateway/builder/GroupBuilder.java:65-71 | makeBetween is undone by Optional.orElse(null), and undoes it. |
| NetGroupBuilder.GroupOf | otter/src/main/java/net/tokensmith/otter/gateway/builder/GroupBuilder.java:54-63 | The built group carries the name, session class and both error maps unchanged, and each auth Between wrapped without loss. |
| NetGroupBuilder.GroupBuilder.constructor | otter/src/main/java/net/tokensmith/otter/gateway/builder/GroupBuilder.java:17-22 | Nothing set; both error maps empty. |
| NetGroupBuilder.GroupBuilder.Name | otter/src/main/java/net/tokensmith/otter/gateway/builder/GroupBuilder.java:24-27 | Stores the name, changes nothing else, returns the same builder. |
| NetGroupBuilder.GroupBuilder.SessionClazz | otter/src/main/java/net/tokensmith/otter/gateway/builder/GroupBuilder.java:29-32 | Stores the session class, changes nothing else, returns the same builder. |
| NetGroupBuilder.GroupBuilder.AuthRequired | otter/src/main/java/net/tokensmith/otter/gateway/builder/GroupBuilder.java:34-37 | Stores the required-auth Between, changes nothing else, returns the same builder. |
| NetGroupBuilder.GroupBuilder.AuthOptional | otter/src/main/java/net/tokensmith/otter/gateway/builder/GroupBuilder.java:39-42 | Stores the optional-auth Between, changes nothing else, returns the same builder. |
| NetGroupBuilder.GroupBuilder.OnError | otter/src/main/java/net/tokensmith/otter/gateway/builder/GroupBuilder.java:44-47 | Puts the resource under its status, replacing any earlier one; nothing else changes. |
| NetGroupBuilder.GroupBuilder.OnDispatchError | otter/src/main/java/net/tokensmith/otter/gateway/builder/GroupBuilder.java:49-52 | Puts the dispatch target under its status, replacing any earlier one; nothing else changes. |
| NetGroupBuilder.GroupBuilder.Build | otter/src/main/java/net/tokensmith/otter/gateway/builder/GroupBuilder.java:54-63 | Name, session class and error maps as they stand. Each auth Between is present exactly when set non-null. |
| OrgGroupBuilder.GroupBuilder.constructor | otter/src/main/java/org/rootservices/otter/gateway/builder/GroupBuilder.java:10-13 | Nothing set. |
| OrgGroupBuilder.GroupBuilder.Name | otter/src/main/java/org/rootservices/otter/gateway/builder/GroupBuilder.java:15-18 | Stores the name, changes nothing else, returns the same builder. |
| OrgGroupBuilder.GroupBuilder.SessionClazz | otter/src/main/java/org/rootservices/otter/gateway/builder/GroupBuilder.java:20-23 | Stores the session class, changes nothing else, returns the same builder. |
| OrgGroupBuilder.GroupBuilder.AuthRequired | otter/src/main/java/org/rootservices/otter/gateway/builder/GroupBuilder.java:25-28 | Stores the required-auth Between, changes nothing else, returns the same builder. |
| OrgGroupBuilder.GroupBuilder.AuthOptional | otter/src/main/java/org/rootservices/otter/gateway/builder/GroupBuilder.java:30-33 | Stores the optional-auth Between, changes nothing else, returns the same builder. |
| OrgGroupBuilder.GroupBuilder.Build | otter/src/main/java/org/rootservices/otter/gateway/builder/GroupBuilder.java:35-45 | Name and session class as set. Each auth Between is present exactly when set non-null. |
| NotFoundRestResource.To | otter/src/main/java/net/tokensmith/otter/controller/error/rest/NotFoundRestResource.java:19-31 | The error's cause has source URL, actual equal to the request's path with query, and reason "URL was not found". |
| NotFoundRestResource.StatusCodeOf | otter/src/main/java/net/tokensmith/otter/controller/error/rest/NotFoundRestResource.java:33-35 | NOT_FOUND. |
| NotFoundRestResource.ErrorDependsOnlyOnPath | otter/src/main/java/net/tokensmith/otter/controller/error/rest/NotFoundRestResource.java:19-31 | Two requests get the same error body exactly when their paths with query agree. |
| NotFoundRestResource.Respond | otter/src/main/java/net/tokensmith/otter/controller/error/rest/NotFoundRestResource.java:38-41 | Status NOT_FOUND and a present error payload; headers and cookies kept; the same response is returned. The request is not changed. |
| NotFoundRestResource.Get | otter/src/main/java/net/tokensmith/otter/controller/error/rest/NotFoundRestResource.java:37-42 | As Respond. |
| NotFoundRestResource.Post | otter/src/main/java/net/tokensmith/otter/controller/error/rest/NotFoundRestResource.java:44-49 | As Respond. |
| NotFoundRestResource.Put | otter/src/main/java/net/tokensmith/otter/controller/error/rest/NotFoundRestResource.java:51-56 | As Respond. |
| NotFoundRestResource.Delete | otter/src/main/java/net/tokensmith/otter/controller/error/rest/NotFoundRestResource.java:58-63 | As Respond. |
| NotFoundRestResource.Connect | otter/src/main/java/net/tokensmith/otter/controller/error/rest/NotFoundRestResource.java:65-70 | As Respond. |
| NotFoundRestResource.Options | otter/src/main/java/net/tokensmith/otter/controller/error/rest/NotFoundRestResource.java:72-77 | As Respond. |
| NotFoundRestResource.Trace | otter/src/main/java/net/tokensmith/otter/controller/error/rest/NotFoundRestResource.java:79-84 | As Respond. |
| NotFoundRestResource.Patch | otter/src/main/java/net/tokensmith/otter/controller/error/rest/NotFoundRestResource.java:86-91 | As Respond. |
| NotFoundRestResource.Head | otter/src/main/java/net/tokensmith/otter/controller/error/rest/NotFoundRestResource.java:93-98 | As Respond. |
| RestBtwnRequestTranslator.FromAsk | otter/src/main/java/net/tokensmith/otter/dispatch/translator/rest/RestBtwnRequestTranslator.java:13-33 | Copies the thirteen request fields from the Ask; the user is always empty. |
| RestBtwnRequestTranslator.FromRestRequest | otter/src/main/java/net/tokensmith/otter/dispatch/translator/rest/RestBtwnRequestTranslator.java:36-56 | Copies the same thirteen fields and the user. |
| RestBtwnRequestTranslator.InboundIgnoresSchemeAuthorityPortAndChallenge | otter/src/main/java/net/tokensmith/otter/dispatch/translator/rest/RestBtwnRequestTranslator.java:13-33 | Asks that differ only in scheme, authority, port or CSRF challenge translate alike: those fields are never carried over. |
| RestBtwnRequestTranslator.OutboundIgnoresPayload | otter/src/main/java/net/tokensmith/otter/dispatch/translator/rest/RestBtwnRequestTranslator.java:36-56 | The outbound request does not depend on the resource's payload. |
| RestBtwnRequestTranslator.OverloadsAgreeExceptUser | otter/src/main/java/net/tokensmith/otter/dispatch/translator/rest/RestBtwnRequestTranslator.java:13-56 | On the same request fields, the outbound overload is the inbound one with the user filled in. |
| RestBtwnRequestTranslator.OutboundOfUnauthenticatedIsInbound | otter/src/main/java/net/tokensmith/otter/dispatch/translator/rest/RestBtwnRequestTranslator.java:13-56 | With no user, the two overloads give the same request. |
| ServletCookieTranslator.From | otter/src/main/java/net/tokensmith/otter/gateway/servlet/translator/HttpServletRequestCookieTranslator.java:13-25 | Copies name, value, domain, maxAge, path, version, secure and httpOnly; the comment stays null. |
| ServletCookieTranslator.To | otter/src/main/java/net/tokensmith/otter/gateway/servlet/translator/HttpServletRequestCookieTranslator.java:31-45 | Copies name, value, comment, maxAge, path, secure, version and httpOnly. The domain is set only when non-null; otherwise it keeps the new cookie's default. |
| ServletCookieTranslator.FromToKeepsAllButComment | otter/src/main/java/net/tokensmith/otter/gateway/servlet/translator/HttpServletRequestCookieTranslator.java:13-45 | from(to(c)) is c with a null comment, so the round trip is the identity exactly on cookies without a comment. |
| ServletCookieTranslator.ToFromKeepsAllButComment | otter/src/main/java/net/tokensmith/otter/gateway/servlet/translator/HttpServletRequestCookieTranslator.java:13-45 | to(from(k)) is k with a null comment. |
| ServletCookieTranslator.FromIgnoresComment | otter/src/main/java/net/tokensmith/otter/gateway/servlet/translator/HttpServletRequestCookieTranslator.java:14-22 | from never reads the comment. |
| ServletRequestTranslator.ParseMethod | src/main/java/org/rootservices/otter/gateway/servlet/translator/HttpServletRequestTranslator.java:32 | An unknown method name fails with IllegalArgumentException. |
| ServletRequestTranslator.ParseMethodInvertsName | src/main/java/org/rootservices/otter/gateway/servlet/translator/HttpServletRequestTranslator.java:32 | Method.valueOf accepts exactly the constants' names and returns the constant named. |
| ServletRequestTranslator.QueryStringForUrl | src/main/java/org/rootservices/otter/gateway/servlet/translator/HttpServletRequestTranslator.java:70-78 | "" for a null query string, otherwise "?" followed by it. |
| ServletRequestTranslator.QueryStringForUrlRoundTrip | src/main/java/org/rootservices/otter/gateway/servlet/translator/HttpServletRequestTranslator.java:34-35 | The query string can be read back from the suffix, and the path with params is the request URI followed by that suffix. |
| ServletRequestTranslator.FormData | src/main/java/org/rootservices/otter/gateway/servlet/translator/HttpServletRequestTranslator.java:80-90 | A name is in the form data exactly when it is a container parameter and not a query parameter; its value is the parameter's first value. |
| ServletRequestTranslator.FormDataExcludesQueryParams | src/main/java/org/rootservices/otter/gateway/servlet/translator/HttpServletRequestTranslator.java:80-90 | Form data and query parameters share no name; form data names are container parameters. |
| ServletRequestTranslator.GetFormData | src/main/java/org/rootservices/otter/gateway/servlet/translator/HttpServletRequestTranslator.java:80-90 | The loop over the parameters builds exactly FormData, into a fresh map. |
| ServletRequestTranslator.CookieMapAsWritten | src/main/java/org/rootservices/otter/gateway/servlet/translator/HttpServletRequestTranslator.java:37-46 | Collectors.toMap by name. It fails, always with IllegalStateException, exactly when some name repeats; when it succeeds, its keys are exactly the cookie names. |
| ServletRequestTranslator.DuplicateCookieNameFailsAsWritten | src/main/java/org/rootservices/otter/gateway/servlet/translator/HttpServletRequestTranslator.java:39-45 | Two cookies of the same name make the code as written fail with IllegalStateException. |
| ServletRequestTranslator.CookieMapKeys | src/main/java/org/rootservices/otter/gateway/servlet/translator/HttpServletRequestTranslator.java:37-46 | The cookie map's keys are exactly the cookies' names. |
| ServletRequestTranslator.CookieMapKeepsFirst | src/main/java/org/rootservices/otter/gateway/servlet/translator/HttpServletRequestTranslator.java:37-46 | Each name maps to the translation of the first cookie carrying it. |
| ServletRequestTranslator.CookieMapAgreesOnDistinctNames | src/main/java/org/rootservices/otter/gateway/servlet/translator/HttpServletRequestTranslator.java:37-46 | When names are distinct, the code as written succeeds with exactly the corrected map. |
| ServletRequestTranslator.RequestCookies | src/main/java/org/rootservices/otter/gateway/servlet/translator/HttpServletRequestTranslator.java:37-38 | Empty when the container supplies no cookies. Otherwise (corrected map, see Findings): keyed by exactly the cookie names, each name holding its first cookie, and equal to the code's toMap result whenever toMap succeeds, that is whenever no name repeats. |
| ServletRequestTranslator.HttpServletRequestTranslator.constructor | src/main/java/org/rootservices/otter/gateway/servlet/translator/HttpServletRequestTranslator.java:24-28 | Stores the collaborators. |
| ServletRequestTranslator.HttpServletRequestTranslator.From | src/main/java/org/rootservices/otter/gateway/servlet/translator/HttpServletRequestTranslator.java:30-68 | With the corrected cookie map (see Findings), fails exactly on an unknown method name, with IllegalArgumentException. Otherwise the request has: the method; the URI plus the query suffix; the cookies by name (the code's own map whenever no name repeats); the collaborators' headers and query parameters; form data for POST only, empty otherwise; the body reader; and an empty matcher, auth scheme and CSRF challenge. |
| ReadListener.ChunksConcatenate | src/main/java/org/rootservices/otter/servlet/async/ReadListenerImpl.java:80-91 | Concatenating the chunks in order gives back the source bytes. |
| ReadListener.ChunkSizes | src/main/java/org/rootservices/otter/servlet/async/ReadListenerImpl.java:84-87 | Every chunk has between 1 and chunksize bytes; all but the last have exactly chunksize. |
| ReadListener.ChunkCount | src/main/java/org/rootservices/otter/servlet/async/ReadListenerImpl.java:83-90 | The number of chunks n satisfies (n-1)·chunksize < length ≤ n·chunksize, that is n = ceil(length / chunksize). |
| ReadListener.EmptyPayloadHasNoChunks | src/main/java/org/rootservices/otter/servlet/async/ReadListenerImpl.java:83-84 | An empty source gives an empty queue. |
| ReadListener.ChunksFrom | src/main/java/org/rootservices/otter/servlet/async/ReadListenerImpl.java:84-87 | One loop step: the chunks from start on are the chunk [start, end) followed by the chunks from end on. |
| ReadListener.ByteArrayToQueue | src/main/java/org/rootservices/otter/servlet/async/ReadListenerImpl.java:80-91 | The loop queues exactly Chunks(source, chunksize), with the chunk end computed without overflow; the source is only read. |
| ReadListener.ChunkEnd | src/main/java/org/rootservices/otter/servlet/async/ReadListenerImpl.java:85 | The end of a chunk lies after its start, within the array, at most chunksize on; it is either the array's end or exactly chunksize on. |
| ReadListener.ChunkEndAgreesWithoutOverflow | src/main/java/org/rootservices/otter/servlet/async/ReadListenerImpl.java:85 | Where start + chunksize fits in an int, the code as written computes the same end. |
| ReadListener.ChunkEndOverflowsNearIntMax | src/main/java/org/rootservices/otter/servlet/async/ReadListenerImpl.java:84-87 | For a 2^31-1000 byte payload in chunks of 1024, the written end of the last chunk wraps below its start. copyOfRange's length, to - from, wraps back to 1024. The next start wraps to -2^31, which is still below the length, so the loop runs again, and there length - from wraps to -1000. The intended last chunk holds 24 bytes. |
| GetServletUri.Run | otter/src/main/java/net/tokensmith/otter/router/GetServletURI.java:11-20 | The URI ends with the servlet path. Before it is the base without its last character when both sides bring a "/", otherwise the whole base. Its length is \|base\|+\|path\|-1 or \|base\|+\|path\| accordingly. |
| GetServletUri.NoDoubledSlashAtJunction | otter/src/main/java/net/tokensmith/otter/router/GetServletURI.java:14-17 | When both sides bring a "/", the junction holds a single "/", unless the base itself ended in "//". |
| GetServletUri.PlainConcatenationOtherwise | otter/src/main/java/net/tokensmith/otter/router/GetServletURI.java:18 | Otherwise the URI is the plain concatenation. |
| AskBuilding.AskBuilder.constructor | otter/src/main/java/net/tokensmith/otter/router/builder/AskBuilder.java:15-31 | Every field null; there are no defaults. |
| AskBuilding.AskBuilder.Matcher | otter/src/main/java/net/tokensmith/otter/router/builder/AskBuilder.java:33-36 | Stores the matcher, changes nothing else, returns the same builder. |
| AskBuilding.AskBuilder.PossibleContentTypes | otter/src/main/java/net/tokensmith/otter/router/builder/AskBuilder.java:38-41 | Stores the possible content types, changes nothing else, returns the same builder. |
| AskBuilding.AskBuilder.PossibleAccepts | otter/src/main/java/net/tokensmith/otter/router/builder/AskBuilder.java:43-46 | Stores the possible accepts, changes nothing else, returns the same builder. |
| AskBuilding.AskBuilder.HttpMethod | otter/src/main/java/net/tokensmith/otter/router/builder/AskBuilder.java:48-51 | Stores the method, changes nothing else, returns the same builder. |
| AskBuilding.AskBuilder.Scheme | otter/src/main/java/net/tokensmith/otter/router/builder/AskBuilder.java:54-57 | Stores the scheme, changes nothing else, returns the same builder. |
| AskBuilding.AskBuilder.Authority | otter/src/main/java/net/tokensmith/otter/router/builder/AskBuilder.java:59-62 | Stores the authority, changes nothing else, returns the same builder. |
| AskBuilding.AskBuilder.Port | otter/src/main/java/net/tokensmith/otter/router/builder/AskBuilder.java:64-67 | Stores the port, changes nothing else, returns the same builder. |
| AskBuilding.AskBuilder.PathWithParams | otter/src/main/java/net/tokensmith/otter/router/builder/AskBuilder.java:69-72 | Stores the path, changes nothing else, returns the same builder. |
| AskBuilding.AskBuilder.ContentType | otter/src/main/java/net/tokensmith/otter/router/builder/AskBuilder.java:74-77 | Stores the content type, changes nothing else, returns the same builder. |
| AskBuilding.AskBuilder.Accept | otter/src/main/java/net/tokensmith/otter/router/builder/AskBuilder.java:79-82 | Stores the accept type, changes nothing else, returns the same builder. |
| AskBuilding.AskBuilder.Headers | otter/src/main/java/net/tokensmith/otter/router/builder/AskBuilder.java:84-87 | Stores the headers, changes nothing else, returns the same builder. |
| AskBuilding.AskBuilder.Cookies | otter/src/main/java/net/tokensmith/otter/router/builder/AskBuilder.java:89-92 | Stores the cookies, changes nothing else, returns the same builder. |
| AskBuilding.AskBuilder.QueryParams | otter/src/main/java/net/tokensmith/otter/router/builder/AskBuilder.java:94-97 | Stores the query parameters, changes nothing else, returns the same builder. |
| AskBuilding.AskBuilder.FormData | otter/src/main/java/net/tokensmith/otter/router/builder/AskBuilder.java:99-102 | Stores the form data, changes nothing else, returns the same builder. |
| AskBuilding.AskBuilder.Body | otter/src/main/java/net/tokensmith/otter/router/builder/AskBuilder.java:104-107 | Stores the body, changes nothing else, returns the same builder. |
| AskBuilding.AskBuilder.CsrfChallenge | otter/src/main/java/net/tokensmith/otter/router/builder/AskBuilder.java:109-112 | Stores the CSRF challenge, changes nothing else, returns the same builder. |
| AskBuilding.AskBuilder.IpAddress | otter/src/main/java/net/tokensmith/otter/router/builder/AskBuilder.java:114-117 | Stores the IP address, changes nothing else, returns the same builder. |
| AskBuilding.AskBuilder.Build | otter/src/main/java/net/tokensmith/otter/router/builder/AskBuilder.java:119-121 | The Ask of the seventeen fields as they stand, each in its own position. |
| AskBuilding.LastSetterWins | otter/src/test/java/org/rootservices/otter/router/builder/AskBuilderTest.java:25-123 | A setter called twice keeps the second value; unset fields stay null in the built Ask. |

## Left out

- Cryptography and serialisation are uninterpreted, possibly failing functions: JWE building and serialising, Jackson, the Base64 decoder, and CSRF token signing and verification (`doTokensMatch`). Nothing about their internals is modelled.
- The Betweens that BetweenBuilder instantiates (PrepareCSRF, DecryptSession, the non-html EncryptSession, CheckCSRF of the security.*.between packages) are not part of this model. The builder is modelled on descriptors of their constructor arguments. The JwtAppFactory and RandomString each call creates are not recorded.
- The EncryptSession cookie built through Cookie.Builder (net) and `new Cookie()` (org) is assumed to default comment, domain and path to null, and version to 0. Neither class is part of this model. The org CookieConfig has no httpOnly flag; the shared CookieConfig value carries one that the org version ignores.
- The org EncryptSession's key material is read with `getKey().getBytes()`. A null key string, and the byte encoding, are not modelled.
- NetCheckCsrf.CheckCsrf.Process: the onHalt BiFunction's return value is discarded by the code. The callback is modelled by its net effect on the response, as a function of the response's state. A callback that keeps a reference to the response, or throws, is not modelled.
- Subclasses that override onHalt (the source invites this) are not modelled; the default reactions are.
- Null cookie or field names in the net CheckCSRF, and null arguments to the setters other than the ones typed Nullable, are not modelled.
- Java map aliasing: Response.getCookies hands out the stored map, modelled as a put on the field. BetweenBuilder.build and GroupBuilder.build hand their own lists and maps to the result, so later builder calls would show through; the model returns values.
- The no-argument Response constructor, which leaves every field but the session null, is not modelled.
- `java.util.regex.Matcher`, MimeType, Between, Resource, ErrorTarget, Presenter and BufferedReader are identity-only classes.
- RestBtwnRequest's scheme, authority and port are never set by the translator. That class is not part of this model, so their initial values are not modelled and the datatype omits them.
- ServletCookieTranslator.To: the container Cookie's name validation in its constructor, and setDomain's lower-casing, are library behaviour and not modelled. The domain is a plain assignment.
- ServletRequestTranslator.HttpServletRequestTranslator.From: builds the cookies with the corrected first-wins map (see Findings), so it does not model the IllegalStateException that the code as written throws on a repeated cookie name; CookieMapAsWritten models that failure, and RequestCookies states that the two maps agree whenever no name repeats. HttpServletRequestHeaderTranslator and QueryStringToMap are not part of this model; they are uninterpreted functions. The org translator maps each cookie with its own org.rootservices HttpServletRequestCookieTranslator, which is not part of this model either; it is assumed to map cookies as the net HttpServletRequestCookieTranslator does, whose From the model uses. An IOException from getReader is not modelled. The org Method enum is assumed to hold the same nine constants as the net one. The container's parameter arrays are assumed non-empty, as servlet containers guarantee; an empty array would make `[0]` throw.
- CookieMapAsWritten: models the exception kind of Collectors.toMap on a repeated name (IllegalStateException) but not its message, whose text depends on the JDK.
- NetEncryptSession.ShouldEncrypt and OrgEncryptSession.ShouldEncrypt compare sessions with the application session class's own equals. The model uses Dafny equality instead, so it assumes equals is a true equality; SessionRules.UnchangedSessionIsNotRewritten relies on that.
- The org EncryptSession and CheckCSRF are modelled against the net Response and Request classes. Their own org.rootservices Request and Response classes are not part of this model. Their getCookies().put, setStatusCode, getSession and CSRF challenge are assumed to behave as the net ones do.
- ReadListener.ByteArrayToQueue: the queue is a sequence, not a LinkedBlockingQueue shared with the writer. The chunk end uses the corrected, overflow-free computation (see Findings). The as-written end is modelled separately. It requires a positive chunk size, which its only caller meets by passing 1024. With a chunk size of 0 the loop as written never ends: start never advances and empty arrays are queued forever. With a negative chunk size, Arrays.copyOfRange throws IllegalArgumentException. Neither case is modelled.
- GetServletUri.Run takes the annotation's first value as a parameter. A servlet class without the annotation, or with an empty value list, is not modelled.
- The asynchronous listeners (onDataAvailable, onAllDataRead, onError and the writer) and the other servlet, server and wiring code are I/O or configuration, and are not modelled.
- EncryptSessionTest.processWhenSessionEmptyShouldHalt (src/test/java/org/rootservices/otter/security/session/between/EncryptSessionTest.java:110-132) expects a HaltException when the response has no session. The code never raises one there: shouldEncrypt is false and process returns. The model follows the code; SessionRules.UnchangedSessionIsNotRewritten states it.
- For a session that is new in the response, the net EncryptSession encrypts it and the org version does not. Both are modelled as written; SessionRules relates them.

## Findings

| source | as written | input that shows it | evidently intended | confidence | as-written member | corrected member |
|---|---|---|---|---|---|---|
| src/main/java/org/rootservices/otter/gateway/servlet/translator/HttpServletRequestTranslator.java:39-45 | Collectors.toMap keyed by cookie name throws IllegalStateException on a repeated name, so the request cannot be translated | a request carrying two cookies named "session", set by the server at paths "/" and "/app" (section 5.4 of RFC 6265 allows both in one Cookie header) | a map keyed by name that keeps one cookie per name, the first (most specific) one | not executed | ServletRequestTranslator.DuplicateCookieNameFailsAsWritten | ServletRequestTranslator.CookieMapKeepsFirst |
| src/main/java/org/rootservices/otter/servlet/async/ReadListenerImpl.java:85 | `start + chunksize` is int arithmetic and wraps past 2^31-1, so the end of the last chunk falls before its start. Where Arrays.copyOfRange tests from > to, it throws IllegalArgumentException at that chunk. On JDK 8 it only tests the wrapped length to - from (1024), so that chunk is copied. But `start += chunksize` also wraps, to -2^31, which still passes the loop test `start < source.length`. The next copyOfRange then gets a negative from, with copy length length - from wrapping to -1000, and throws ArrayIndexOutOfBoundsException. Either way byteArrayToQueue throws instead of returning the chunks. | a payload of 2^31-1000 bytes with chunksize 1024: the last chunk starts at 2^31-1024 and its end and the next start both wrap to -2^31 | the last chunk is the remaining 24 bytes | not executed | ReadListener.ChunkEndOverflowsNearIntMax | ReadListener.ChunkEnd |
