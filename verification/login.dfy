/** The login paths end to end: a strategy's identity goes through the user
    store bridge, and the resulting user authenticates later requests. */
module Login {
  import opened Options
  import opened State
  import opened LocalDirectory
  import opened Registration
  import opened Identity
  import opened UserDirectory
  import Gatekeeper

  datatype LoginResult = LoginResult(store: UserStore, user: Option<Principal>)

  /** A strategy's verdict handed to Passport: an identity is resolved
      through `processAuthCallback`; no identity is `cb(null, false)` and
      leaves the store alone. */
  function CompleteLogin(store: UserStore, rowId: nat, identity: Option<IdentityTuple>): (r: LoginResult)
    ensures r.user.Some? <==> identity.Some?
    ensures identity.None? ==> r.store == store
    ensures identity.Some? ==>
              && r.user.value.email == identity.value.email
              && r.user.value.id.Some?
              && identity.value.accountId in r.store
              && r.user.value == WithEmail(r.store[identity.value.accountId], identity.value.email)
    ensures identity.Some? ==> r.store.Keys == store.Keys + {identity.value.accountId}
    ensures identity.Some? && identity.value.accountId !in store ==>
              r.store[identity.value.accountId]
              == UserRow(rowId, identity.value.accountId, identity.value.givenName, identity.value.familyName, None, 0)
    ensures forall k :: k in store ==> k in r.store && r.store[k] == store[k]
  {
    match identity
    case None => LoginResult(store, None)
    case Some(t) =>
      var res := ResolveOrCreate(store, rowId, t.accountId, t.givenName, t.familyName, t.email);
      LoginResult(res.store, Some(res.user))
  }

  /** The local login: `LocalVerify` followed by the bridge. */
  function LocalLogin(localUsers: Option<Directory>, store: UserStore, rowId: nat,
                      username: string, password: string, hash: (string, string) -> string): (r: LoginResult)
    ensures r.user.Some? <==>
              localUsers.Some? && username in localUsers.value
              && hash(password, localUsers.value[username].passSalt) == localUsers.value[username].passHash
    ensures r.user.None? ==> r.store == store
    ensures r.user.Some? ==>
              && LocalAccountId(username) in r.store
              && r.user.value == WithEmail(r.store[LocalAccountId(username)], None)
              && r.store.Keys == store.Keys + {LocalAccountId(username)}
    ensures r.user.Some? && LocalAccountId(username) !in store ==>
              r.store[LocalAccountId(username)]
              == UserRow(rowId, LocalAccountId(username), localUsers.value[username].givenName,
                         localUsers.value[username].familyName, None, 0)
    ensures forall k :: k in store ==> k in r.store && r.store[k] == store[k]
  {
    LocalAccountIdRoundTrip(username);
    CompleteLogin(store, rowId, LocalVerify(localUsers, username, password, hash))
  }

  /** A logged-in user object always has an id, so a request carrying it
      with Passport's flag set is authenticated and passes the cookie gate. */
  lemma LoggedInUserAuthenticates(store: UserStore, rowId: nat, identity: Option<IdentityTuple>, req: Request)
    requires CompleteLogin(store, rowId, identity).user.Some?
    requires req.user == CompleteLogin(store, rowId, identity).user && req.loggedIn
    ensures IsAuthenticated(Some(req))
    ensures Gatekeeper.CookieGate(req) == Gatekeeper.Next
  {
  }

  /** Registering and then logging in with the same password yields the
      local account "Local_" + username; on the first login its new row
      carries the registered names, no team and level 0. */
  lemma RegisteredUserCanLogIn(localUsers: Option<Directory>, body: Option<NewUser>, session: Session,
                               freshCaptcha: string, salt: string, hash: (string, string) -> string,
                               store: UserStore, rowId: nat)
    requires Register(localUsers, body, session, freshCaptcha, salt, hash).response.status == 200
    requires WellKeyed(store)
    ensures var dir := Register(localUsers, body, session, freshCaptcha, salt, hash).directory;
            var u := body.value.username.value;
            var r := LocalLogin(dir, store, rowId, u, body.value.password.value, hash);
            && LocalVerify(dir, u, body.value.password.value, hash)
               == Some(IdentityTuple(LocalAccountId(u), body.value.givenName.value, body.value.familyName.value, None))
            && r.user.Some?
            && r.user.value.accountId == LocalAccountId(u)
            && r.user.value.email == None
            && (LocalAccountId(u) !in store ==>
                  r.user.value == Principal(Some(rowId), LocalAccountId(u), body.value.givenName.value,
                                            body.value.familyName.value, None, 0, None))
  {
  }

  /** A registration changes nobody else's login. */
  lemma RegistrationLeavesOtherLoginsAlone(localUsers: Option<Directory>, body: Option<NewUser>, session: Session,
                                           freshCaptcha: string, salt: string, hash: (string, string) -> string,
                                           other: string, password: string)
    requires body.Some? && body.value.username.Some? && other != body.value.username.value
    ensures var dir := Register(localUsers, body, session, freshCaptcha, salt, hash).directory;
            LocalVerify(dir, other, password, hash) == LocalVerify(localUsers, other, password, hash)
  {
  }

  /** Google and Slack ids are used unprefixed, so both providers share the
      account-id space with local users: a provider id that happens to equal
      "Local_" + username resolves to that local user's row, with its id,
      names and level. */
  lemma ProviderIdCanLandOnLocalAccount(store: UserStore, rowId: nat, profile: GoogleProfile, username: string)
    requires LocalAccountId(username) in store
    requires profile.id == LocalAccountId(username)
    ensures var r := CompleteLogin(store, rowId, Some(GoogleVerify(profile)));
            var row := store[LocalAccountId(username)];
            && r.store == store
            && r.user.value.id == Some(row.id)
            && r.user.value.givenName == row.givenName && r.user.value.familyName == row.familyName
            && r.user.value.level == row.level
  {
  }

  /** The same holds for Slack: a member of the required team whose id
      equals a local account id gets that local user's row. */
  lemma SlackIdCanLandOnLocalAccount(store: UserStore, rowId: nat, profile: SlackProfile, team: string, username: string)
    requires LocalAccountId(username) in store
    requires profile.id == LocalAccountId(username)
    requires profile.user.Some? && profile.teamId == team
    ensures var r := CompleteLogin(store, rowId, SlackVerify(profile, team));
            r.store == store && r.user.Some? && r.user.value.id == Some(store[LocalAccountId(username)].id)
  {
  }

  /** A Google login always yields a user; its e-mail is the first listed
      address, or none when the list is null or empty, and only the
      profile's id may be added to the store. */
  lemma GoogleLoginAlwaysYieldsUser(store: UserStore, rowId: nat, profile: GoogleProfile)
    ensures var r := CompleteLogin(store, rowId, Some(GoogleVerify(profile)));
            && r.user.Some? && r.user.value.id.Some?
            && (r.user.value.email.Some? <==> profile.emails.Some? && |profile.emails.value| > 0)
            && (r.user.value.email.Some? ==> r.user.value.email.value == profile.emails.value[0])
            && r.store.Keys == store.Keys + {profile.id}
  {
  }
}
