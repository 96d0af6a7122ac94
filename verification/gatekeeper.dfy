/** The request gatekeeper: `authenticationByDefault` classifies each path
    into one of three protection tiers and applies `ensureApiAuth` or
    `ensureAuthSkipXsrfCheck`; `addSecurityHeaders` reuses the public-path test. */
module Gatekeeper {
  import opened Options
  import opened JsStrings
  import opened State

  const PublicPrefix := "/public"
  const ApiPrefix := "/api"
  const Root := "/"

  datatype Tier = Public | ApiWithCsrf | CookieOnly

  /** What the middleware does with the request. */
  datatype Outcome =
    | Next
    | Respond(status: int, message: string)
    | Redirect(location: string)
    | DestroySessionThenRedirect(location: string)

  /** The public test shared by the gatekeeper and the header policy. */
  predicate IsPublicPath(path: string)
    ensures IsPublicPath(path) <==> path == Root || PublicPrefix <= path
  {
    path == Root || StartsWith(path, PublicPrefix)
  }

  /** The tier of a path. The public test takes precedence over the API
      prefix; the tests are plain prefixes, with no path-segment boundary. */
  function Classify(path: string): (t: Tier)
    ensures t == Public <==> path == Root || PublicPrefix <= path
    ensures t == ApiWithCsrf <==> path != Root && !(PublicPrefix <= path) && ApiPrefix <= path
    ensures t == CookieOnly <==> path != Root && !(PublicPrefix <= path) && !(ApiPrefix <= path)
  {
    if IsPublicPath(path) then Public
    else if StartsWith(path, ApiPrefix) then ApiWithCsrf
    else CookieOnly
  }

  /** `ensureApiAuth`: proceeds only for an authenticated request whose
      `xsrftoken` header is present and equal to the session's token;
      anything else is answered with 401 "Unauthorized". */
  function ApiGate(req: Request): (o: Outcome)
    ensures o == Next || o == Respond(401, "Unauthorized")
    ensures o == Next <==>
              IsAuthenticated(Some(req)) && req.xsrfHeader.Some?
              && req.session.Some? && req.session.value.xsrfToken == Some(req.xsrfHeader.value)
  {
    if IsAuthenticated(Some(req)) && req.xsrfHeader.Some?
       && req.session.Some? && req.session.value.xsrfToken == req.xsrfHeader
    then Next
    else Respond(401, "Unauthorized")
  }

  /** `ensureAuthSkipXsrfCheck`: proceeds for an authenticated request;
      otherwise redirects to "/", tearing the session down first if there
      is one. */
  function CookieGate(req: Request): (o: Outcome)
    ensures o == Next <==> IsAuthenticated(Some(req))
    ensures o != Next ==> o == (if req.session.Some? then DestroySessionThenRedirect("/") else Redirect("/"))
  {
    if IsAuthenticated(Some(req)) then Next
    else if req.session.Some? then DestroySessionThenRedirect(Root)
    else Redirect(Root)
  }

  /** `authenticationByDefault`: dispatch on the tier of the path. */
  function AuthenticationByDefault(req: Request): (o: Outcome)
    ensures Classify(req.path) == Public ==> o == Next
    ensures Classify(req.path) == ApiWithCsrf ==> o == ApiGate(req)
    ensures Classify(req.path) == CookieOnly ==> o == CookieGate(req)
  {
    match Classify(req.path)
    case Public => Next
    case ApiWithCsrf => ApiGate(req)
    case CookieOnly => CookieGate(req)
  }

  /** Only public paths are reachable without authentication. */
  lemma AnonymousReachesOnlyPublic(req: Request)
    requires !IsAuthenticated(Some(req))
    ensures AuthenticationByDefault(req) == Next <==> req.path == Root || PublicPrefix <= req.path
  {
  }

  /** A request under "/api" that passes always carried the session's token
      in its header; a missing header never passes, even when the session
      has no token either. */
  lemma ApiPassRequiresToken(req: Request)
    requires Classify(req.path) == ApiWithCsrf
    requires AuthenticationByDefault(req) == Next
    ensures IsAuthenticated(Some(req))
    ensures req.xsrfHeader.Some? && req.session.Some?
    ensures req.session.value.xsrfToken == req.xsrfHeader
  {
  }

  /** The API gate is strictly stronger than the cookie gate. */
  lemma ApiGateImpliesCookieGate(req: Request)
    ensures ApiGate(req) == Next ==> CookieGate(req) == Next
    ensures !IsAuthenticated(Some(req)) ==> ApiGate(req) != Next && CookieGate(req) != Next
  {
  }

  /** The prefix tests have no segment boundary: "/publicity" is public and
      "/apiary" is an API path. */
  lemma PrefixesIgnoreSegmentBoundaries()
    ensures Classify("/publicity") == Public
    ensures Classify("/apiary") == ApiWithCsrf
    ensures Classify("/main") == CookieOnly
    ensures Classify("/") == Public && Classify("") == CookieOnly
  {
    assert "/public" <= "/publicity";
    assert "/api" <= "/apiary";
    assert "/apiary"[1] != "/public"[1];
    assert "/main"[1] != "/public"[1] && "/main"[1] != "/api"[1];
  }

  const CacheHeaders: map<string, string> := map[
    "Cache-Control" := "private, no-cache, no-store, must-revalidate",
    "Expires" := "-1",
    "Pragma" := "no-cache"]

  const HardeningHeaders: map<string, string> := map[
    "Content-Security-Policy" := "script-src 'self' 'unsafe-inline' 'unsafe-eval';",
    "X-Frame-Options" := "SAMEORIGIN",
    "X-XSS-Protection" := "1",
    "Strict-Transport-Security" := "max-age=31536000",
    "X-Content-Type-Options" := "nosniff"]

  /** `addSecurityHeaders`: the hardening headers on every response, and the
      cache-busting headers on every response outside the public tier. */
  function SecurityHeaders(path: string): (h: map<string, string>)
    ensures forall name :: name in HardeningHeaders ==> name in h && h[name] == HardeningHeaders[name]
    ensures "Cache-Control" in h <==> Classify(path) != Public
    ensures Classify(path) != Public ==> forall name :: name in CacheHeaders ==> name in h && h[name] == CacheHeaders[name]
    ensures forall name :: name in CacheHeaders ==> (name in h <==> Classify(path) != Public)
    ensures Classify(path) == Public ==> h == HardeningHeaders
    ensures h.Keys <= HardeningHeaders.Keys + CacheHeaders.Keys
  {
    if !IsPublicPath(path) then CacheHeaders + HardeningHeaders
    else HardeningHeaders
  }
}
