// The request gate of middleware.ts: which paths the middleware runs on, and its decision
// between letting a request through and redirecting it to the login page.

module Middleware {

  /** `s.startsWith(p)` */
  predicate StartsWith(s: string, p: string)
  {
    |p| <= |s| && s[..|p|] == p
  }

  datatype Decision = Pass | RedirectToLogin

  const LoginPath := "/auth/login"

  /** The pages open without a session. */
  const PublicPaths := ["/invite", "/set-password"]

  predicate IsPublic(path: string)
  {
    exists p | p in PublicPaths :: StartsWith(path, p)
  }

  /** `middleware`: a public path passes; otherwise a request without a session goes to the login
      page and one with a session passes. The session lookup is an input. */
  function Gate(path: string, hasSession: bool): (d: Decision)
    ensures d == RedirectToLogin <==> !IsPublic(path) && !hasSession
  {
    if IsPublic(path) then Pass
    else if !hasSession then RedirectToLogin
    else Pass
  }

  /** Having a session never makes a request be redirected, and losing it only redirects
      non-public paths. */
  lemma SessionOnlyHelps(path: string)
    ensures Gate(path, true) == Pass
    ensures Gate(path, false) == Pass <==> IsPublic(path)
  {
  }

  /** The public test is a raw prefix test: "/invitee" and "/set-passwords" are public too. */
  lemma PrefixTestIsRaw()
    ensures IsPublic("/invitee") && IsPublic("/set-passwords")
    ensures Gate("/invitee", false) == Pass
  {
    assert StartsWith("/invitee", PublicPaths[0]);
    assert StartsWith("/set-passwords", PublicPaths[1]);
  }

  /** The alternatives of the matcher's negative lookahead
      `/((?!auth|api/auth|_next/static|_next/image|favicon.ico).*)`, tested right after the
      leading slash. They are regular-expression text: the unescaped `.` matches any character. */
  const Excluded := ["auth", "api/auth", "_next/static", "_next/image", "favicon.ico"]

  /** `s` starts with a match of the literal-or-dot pattern `p`. */
  predicate StartsWithPattern(s: string, p: string)
  {
    |p| <= |s| && forall i | 0 <= i < |p| :: p[i] == '.' || s[i] == p[i]
  }

  /** The middleware runs on a path exactly when it starts with "/" and what follows does not
      start with a match of an excluded alternative. */
  predicate Matched(path: string)
  {
    |path| >= 1 && path[0] == '/' && !(exists e | e in Excluded :: StartsWithPattern(path[1..], e))
  }

  /** What a request meets: unmatched paths are not gated at all. */
  function Route(path: string, hasSession: bool): (d: Decision)
    ensures d == RedirectToLogin <==> Matched(path) && !IsPublic(path) && !hasSession
  {
    if Matched(path) then Gate(path, hasSession) else Pass
  }

  /** The login page is reached without a session: the redirect never loops. */
  lemma LoginNeverRedirected()
    ensures !Matched(LoginPath)
    ensures Route(LoginPath, false) == Pass
  {
    assert StartsWithPattern(LoginPath[1..], Excluded[0]);
  }

  /** The matcher's exclusions are raw prefixes too: "/authors" is never gated. */
  lemma AuthorsNotGated(hasSession: bool)
    ensures Route("/authors", hasSession) == Pass
  {
    assert StartsWithPattern("/authors"[1..], Excluded[0]);
  }

  /** The dot of "favicon.ico" is a wildcard: "/faviconXico" and "/favicon-ico" are never gated,
      while "/favicon" alone is. */
  lemma FaviconDotIsWildcard(hasSession: bool)
    ensures Route("/faviconXico", hasSession) == Pass
    ensures Route("/favicon-ico", hasSession) == Pass
    ensures Route("/favicon", false) == RedirectToLogin
  {
    assert StartsWithPattern("/faviconXico"[1..], Excluded[4]);
    assert StartsWithPattern("/favicon-ico"[1..], Excluded[4]);
    assert !IsPublic("/favicon") by {
      assert "/favicon"[..|PublicPaths[0]|][1] != PublicPaths[0][1];
      assert "/favicon"[1] != PublicPaths[1][1];
    }
    assert forall e | e in Excluded :: !StartsWithPattern("/favicon"[1..], e) by {
      assert "favicon"[0] != Excluded[0][0] && Excluded[0][0] != '.';
      assert "favicon"[0] != Excluded[1][0];
      assert "favicon"[0] != Excluded[2][0];
      assert "favicon"[0] != Excluded[3][0];
    }
  }
}
