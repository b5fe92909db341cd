/**
 * net.tokensmith...router.GetServletURI: the URI a servlet answers, from the
 * base URI and the first path of the servlet's WebServlet annotation (passed
 * in here as servletPath), without a doubled "/" at the junction.
 */
module GetServletUri {

  predicate EndsWithSlash(s: string) {
    |s| > 0 && s[|s| - 1] == '/'
  }

  predicate StartsWithSlash(s: string) {
    |s| > 0 && s[0] == '/'
  }

  /** Whether the base's trailing "/" is dropped: both sides bring one. */
  predicate Joins(baseURI: string, servletPath: string) {
    EndsWithSlash(baseURI) && StartsWithSlash(servletPath)
  }

  function Run(baseURI: string, servletPath: string): (uri: string)
    ensures |uri| == if Joins(baseURI, servletPath) then |baseURI| + |servletPath| - 1 else |baseURI| + |servletPath|
    ensures uri[|uri| - |servletPath|..] == servletPath
    ensures Joins(baseURI, servletPath) ==> uri[..|uri| - |servletPath|] == baseURI[..|baseURI| - 1]
    ensures !Joins(baseURI, servletPath) ==> uri[..|uri| - |servletPath|] == baseURI
  {
    var base := if Joins(baseURI, servletPath) then baseURI[..|baseURI| - 1] else baseURI;
    assert (base + servletPath)[..|base|] == base;
    assert (base + servletPath)[|base|..] == servletPath;
    base + servletPath
  }

  /**
   * The junction has exactly one "/" whenever either side brings one: the
   * character before the servlet path is not a "/" that the path repeats,
   * unless the base itself ended in "//".
   */
  lemma {:induction false} NoDoubledSlashAtJunction(baseURI: string, servletPath: string)
    requires Joins(baseURI, servletPath)
    requires |baseURI| < 2 || baseURI[|baseURI| - 2] != '/'
    ensures var uri := Run(baseURI, servletPath);
      var j := |uri| - |servletPath|;
      uri[j] == '/' && (j == 0 || uri[j - 1] != '/')
  {
    var uri := Run(baseURI, servletPath);
    var j := |uri| - |servletPath|;
    assert uri[j..][0] == servletPath[0];
    if j > 0 {
      assert uri[..j][j - 1] == baseURI[..|baseURI| - 1][j - 1];
    }
  }

  /** Without a slash on both sides nothing is dropped: the URI is the plain concatenation. */
  lemma PlainConcatenationOtherwise(baseURI: string, servletPath: string)
    requires !Joins(baseURI, servletPath)
    ensures Run(baseURI, servletPath) == baseURI + servletPath
  {
    var uri := Run(baseURI, servletPath);
    assert uri == uri[..|baseURI|] + uri[|baseURI|..];
  }
}
