/**
 * The route guard of the Next.js middleware (fixo-v2/src/middleware.ts): the
 * `authorized` callback as a predicate of the request path and of whether a
 * session token came with the request.
 */
module Middleware {
  import opened Js

  /** Pages anyone may open; matched exactly. */
  const PublicRoutes: seq<string> :=
    ["/", "/pricing", "/about", "/contact", "/terms", "/privacy", "/auth/login", "/auth/error"]

  /** API prefixes that need no session. */
  predicate OpenApiPath(path: string) {
    StartsWith(path, "/api/health") || StartsWith(path, "/api/repairs") || StartsWith(path, "/api/auth")
  }

  /** The `authorized` callback. */
  function Authorized(path: string, hasToken: bool): (ok: bool)
    ensures path in PublicRoutes ==> ok
    ensures OpenApiPath(path) ==> ok
    ensures path !in PublicRoutes && !OpenApiPath(path) ==> (ok <==> hasToken)
  {
    if path in PublicRoutes then true
    else if StartsWith(path, "/api/health") || StartsWith(path, "/api/repairs") then true
    else if StartsWith(path, "/api/auth") then true
    else hasToken
  }

  /** Without a token, exactly the public pages and the open API prefixes get through. */
  lemma AnonymousAccess(path: string)
    ensures Authorized(path, false) <==> path in PublicRoutes || OpenApiPath(path)
  {
  }

  /** A token never takes access away. */
  lemma TokenIsMonotone(path: string)
    ensures Authorized(path, false) ==> Authorized(path, true)
  {
  }

  /** With a token every path is allowed. */
  lemma TokenOpensEverything(path: string)
    ensures Authorized(path, true)
  {
  }

  /** Public pages are matched exactly: a page under `/pricing` needs a token. */
  lemma PublicMatchIsExact()
    ensures !Authorized("/pricing/x", false)
    ensures !Authorized("/dashboard", false)
  {
    NotApiPath("/pricing/x");
    NotApiPath("/dashboard");
  }

  /** A path whose second character is not `a` is not under `/api`. */
  lemma NotApiPath(path: string)
    requires |path| > 1 && path[1] != 'a'
    ensures !OpenApiPath(path)
  {
    assert "/api/health"[1] == 'a' && "/api/repairs"[1] == 'a' && "/api/auth"[1] == 'a';
  }

  /** The API rules are prefix rules: any continuation of an open prefix is open. */
  lemma OpenPrefixesCoverContinuations(suffix: string)
    ensures Authorized("/api/health" + suffix, false)
    ensures Authorized("/api/repairs" + suffix, false)
    ensures Authorized("/api/auth" + suffix, false)
  {
    assert ("/api/health" + suffix)[..|"/api/health"|] == "/api/health";
    assert ("/api/repairs" + suffix)[..|"/api/repairs"|] == "/api/repairs";
    assert ("/api/auth" + suffix)[..|"/api/auth"|] == "/api/auth";
  }
}
