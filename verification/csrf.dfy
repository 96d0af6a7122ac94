/** `addCsrfToken`: lazy creation of the per-session CSRF token and its
    substitution into rendered pages for logged-in users. */
module Csrf {
  import opened Options
  import opened JsStrings
  import opened State
  import Gatekeeper

  /** The marker a page template carries where the token belongs. */
  const Placeholder := "%XSRF_TOKEN%"

  datatype Rendered = Rendered(request: Request, body: string)

  /** `freshToken` stands for the random `uid.sync(64)` value; it is used only
      when the session has no token yet, whether or not the request is
      authenticated. The first placeholder in `body` is replaced by the
      session's token for authenticated requests only. */
  function AddCsrfToken(req: Request, freshToken: string, body: string): (r: Rendered)
    requires req.session.Some?
    ensures r.request.session.Some? && r.request.session.value.xsrfToken.Some?
    ensures req.session.value.xsrfToken.Some? ==> r.request == req
    ensures req.session.value.xsrfToken.None? ==>
              r.request == req.(session := Some(req.session.value.(xsrfToken := Some(freshToken))))
    ensures IsAuthenticated(Some(req)) ==>
              r.body == ReplaceFirst(body, Placeholder, r.request.session.value.xsrfToken.value)
    ensures !IsAuthenticated(Some(req)) ==> r.body == body
  {
    var ses := req.session.value;
    var req' := if ses.xsrfToken.None? then req.(session := Some(ses.(xsrfToken := Some(freshToken)))) else req;
    var token := req'.session.value.xsrfToken.value;
    Rendered(req', if IsAuthenticated(Some(req')) then ReplaceFirst(body, Placeholder, token) else body)
  }

  /** Once created, the token never changes: a second call, whatever random
      value it is offered, leaves the request exactly as the first left it. */
  lemma TokenIsStable(req: Request, t1: string, t2: string, b1: string, b2: string)
    requires req.session.Some?
    ensures AddCsrfToken(AddCsrfToken(req, t1, b1).request, t2, b2).request
            == AddCsrfToken(req, t1, b1).request
  {
  }

  /** The token written into an authenticated page is exactly the header
      value the API gate accepts for that session, and no other value is
      accepted. */
  lemma EmbeddedTokenOpensApiGate(req: Request, newToken: string, body: string, path: string, header: string)
    requires req.session.Some? && IsAuthenticated(Some(req))
    requires IndexOf(body, Placeholder) != -1
    ensures var r := AddCsrfToken(req, newToken, body);
            var token := r.request.session.value.xsrfToken.value;
            && OccursAt(r.body, token, IndexOf(body, Placeholder))
            && (Gatekeeper.ApiGate(r.request.(path := path, xsrfHeader := Some(header))) == Gatekeeper.Next
                <==> header == token)
  {
  }

  /** An anonymous page keeps its marker: no token reaches it. */
  lemma AnonymousPageKeepsPlaceholder(req: Request, newToken: string, body: string)
    requires req.session.Some? && !IsAuthenticated(Some(req))
    requires IndexOf(body, Placeholder) != -1
    ensures IndexOf(AddCsrfToken(req, newToken, body).body, Placeholder) != -1
    ensures AddCsrfToken(req, newToken, body).request.session.value.xsrfToken.Some?
  {
  }
}
