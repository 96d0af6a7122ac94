/** The typed state the authentication core reads and writes: the session
    bag, the user object Passport attaches to a request, and the request. */
module State {
  import opened Options

  /** The fields the core keeps in `req.session`. */
  datatype Session = Session(xsrfToken: Option<string>, captcha: Option<string>)

  /** The user object kept in the session once login succeeds: a row of the
      user store (with its storage-assigned `id`) plus the per-login `email`. */
  datatype Principal = Principal(
    id: Option<nat>,
    accountId: string,
    givenName: string,
    familyName: string,
    teamId: Option<string>,
    level: int,
    email: Option<string>)

  /** The parts of an inbound request the core reads. `loggedIn` is
      Passport's own `req.isAuthenticated()` answer; `xsrfHeader` is the
      `xsrftoken` request header. */
  datatype Request = Request(
    path: string,
    session: Option<Session>,
    user: Option<Principal>,
    loggedIn: bool,
    xsrfHeader: Option<string>)

  /** `isAuthenticated(req)`: there is a request, it carries a user object
      with an id, and Passport reports the request as logged in. */
  predicate IsAuthenticated(req: Option<Request>)
  {
    req.Some? && req.value.user.Some? && req.value.user.value.id.Some? && req.value.loggedIn
  }
}
