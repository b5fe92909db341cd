/**
 * net.tokensmith...gateway.servlet.translator.HttpServletRequestCookieTranslator:
 * the two mappings between the servlet container's cookies and the
 * framework's own Cookie entity.
 */
module ServletCookieTranslator {
  import opened Common
  import opened Entities

  /** The container's cookie (javax.servlet.http.Cookie), with the fields the mappings touch. */
  datatype ContainerCookie = ContainerCookie(
    name: string,
    value: string,
    comment: Nullable<string>,
    domain: Nullable<string>,
    maxAge: int,
    path: Nullable<string>,
    version: int,
    secure: bool,
    httpOnly: bool)

  /**
   * new Cookie(name, value) in the container: no comment, domain or path,
   * maxAge -1 (until the browser closes), version 0, neither secure nor httpOnly.
   */
  function NewContainerCookie(name: string, value: string): ContainerCookie {
    ContainerCookie(name, value, Null, Null, -1, Null, 0, false, false)
  }

  /** Container to framework: every field except the comment, which stays null. */
  function From(containerCookie: ContainerCookie): (otterCookie: Cookie)
    ensures otterCookie.comment == Null
    ensures otterCookie.name == containerCookie.name && otterCookie.value == containerCookie.value
    ensures otterCookie.domain == containerCookie.domain && otterCookie.path == containerCookie.path
    ensures otterCookie.maxAge == containerCookie.maxAge && otterCookie.version == containerCookie.version
    ensures otterCookie.secure == containerCookie.secure && otterCookie.httpOnly == containerCookie.httpOnly
  {
    Cookie(containerCookie.name, containerCookie.value, Null, containerCookie.domain, containerCookie.maxAge,
           containerCookie.path, containerCookie.version, containerCookie.secure, containerCookie.httpOnly)
  }

  /**
   * Framework to container: a new container cookie with name and value,
   * then comment, domain (only when non-null), maxAge, path, secure,
   * version and httpOnly.
   */
  function To(otterCookie: Cookie): (containerCookie: ContainerCookie)
    ensures containerCookie.name == otterCookie.name && containerCookie.value == otterCookie.value
    ensures containerCookie.comment == otterCookie.comment
    ensures otterCookie.domain.Ref? ==> containerCookie.domain == otterCookie.domain
    ensures otterCookie.domain.Null? ==> containerCookie.domain == NewContainerCookie(otterCookie.name, otterCookie.value).domain
    ensures containerCookie.maxAge == otterCookie.maxAge && containerCookie.path == otterCookie.path
    ensures containerCookie.secure == otterCookie.secure && containerCookie.version == otterCookie.version
    ensures containerCookie.httpOnly == otterCookie.httpOnly
  {
    var containerCookie := NewContainerCookie(otterCookie.name, otterCookie.value);
    var containerCookie := containerCookie.(comment := otterCookie.comment);
    var containerCookie := if otterCookie.domain.Ref? then containerCookie.(domain := otterCookie.domain) else containerCookie;
    containerCookie.(maxAge := otterCookie.maxAge, path := otterCookie.path, secure := otterCookie.secure,
                     version := otterCookie.version, httpOnly := otterCookie.httpOnly)
  }

  /**
   * A framework cookie sent out and read back keeps everything but its
   * comment, which is the only field From never reads.
   */
  lemma FromToKeepsAllButComment(c: Cookie)
    ensures From(To(c)) == c.(comment := Null)
    ensures From(To(c)) == c <==> c.comment == Null
  {
  }

  /** A container cookie read in and sent back out likewise keeps everything but its comment. */
  lemma ToFromKeepsAllButComment(k: ContainerCookie)
    ensures To(From(k)) == k.(comment := Null)
    ensures To(From(k)) == k <==> k.comment == Null
  {
  }

  /** Two container cookies that differ only in their comments become the same framework cookie. */
  lemma FromIgnoresComment(k: ContainerCookie, comment: Nullable<string>)
    ensures From(k.(comment := comment)) == From(k)
  {
  }
}
