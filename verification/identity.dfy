/** The three verify callbacks: local directory, Slack and Google. Each
    turns what it is given into a normalised identity, or into no identity. */
module Identity {
  import opened Options
  import opened JsStrings
  import opened LocalDirectory

  /** The identity handed to `processAuthCallback`. */
  datatype IdentityTuple = IdentityTuple(accountId: string, givenName: string, familyName: string, email: Option<string>)

  /** Local account ids live in their own namespace. */
  const LocalPrefix := "Local_"

  function LocalAccountId(username: string): string {
    LocalPrefix + username
  }

  /** The username a local account id was made from, if it is one. */
  function LocalUsernameOf(accountId: string): (r: Option<string>)
    ensures r.Some? <==> LocalPrefix <= accountId
    ensures r.Some? ==> LocalAccountId(r.value) == accountId
  {
    if LocalPrefix <= accountId then Some(accountId[|LocalPrefix|..]) else None
  }

  /** The local namespace loses nothing: the username comes back out. */
  lemma LocalAccountIdRoundTrip(username: string)
    ensures LocalUsernameOf(LocalAccountId(username)) == Some(username)
  {
  }

  /** The local strategy: succeeds exactly when local authentication is
      enabled, the username is in the directory and the recomputed salted
      hash equals the stored one. */
  function LocalVerify(localUsers: Option<Directory>, username: string, password: string,
                       hash: (string, string) -> string): (r: Option<IdentityTuple>)
    ensures r.Some? <==>
              localUsers.Some? && username in localUsers.value
              && hash(password, localUsers.value[username].passSalt) == localUsers.value[username].passHash
    ensures r.Some? ==>
              && LocalUsernameOf(r.value.accountId) == Some(username)
              && r.value.givenName == localUsers.value[username].givenName
              && r.value.familyName == localUsers.value[username].familyName
              && r.value.email == None
  {
    if localUsers.None? then None
    else if username !in localUsers.value then None
    else
      var entry := localUsers.value[username];
      if entry.passHash == hash(password, entry.passSalt) then
        LocalAccountIdRoundTrip(username);
        Some(IdentityTuple(LocalAccountId(username), entry.givenName, entry.familyName, None))
      else None
  }

  /** The part of a Slack profile the callback reads; `user` is absent when
      the provider reports an error. */
  datatype SlackUser = SlackUser(name: string, email: Option<string>)
  datatype SlackProfile = SlackProfile(id: string, user: Option<SlackUser>, teamId: string)

  /** The Slack strategy: only members of `requiredTeam` are accepted; the
      display name is split on spaces into a given name (first piece) and a
      family name (second piece, or empty). The error branch is a plain
      failure. */
  function SlackVerify(profile: SlackProfile, requiredTeam: string): (r: Option<IdentityTuple>)
    ensures r.Some? <==> profile.user.Some? && profile.teamId == requiredTeam
    ensures r.Some? ==>
              && r.value.accountId == profile.id
              && r.value.email == profile.user.value.email
              && r.value.givenName <= profile.user.value.name
              && ' ' !in r.value.givenName && ' ' !in r.value.familyName
  {
    if profile.user.None? then None
    else
      var pieces := Split(profile.user.value.name, ' ');
      if profile.teamId != requiredTeam then None
      else
        JoinSplit(profile.user.value.name, ' ');
        assert |pieces| > 1 ==> Join(pieces, ' ') == pieces[0] + [' '] + Join(pieces[1..], ' ');
        var givenName := pieces[0];
        var familyName := if |pieces| >= 2 then pieces[1] else "";
        Some(IdentityTuple(profile.id, givenName, familyName, profile.user.value.email))
  }

  /** "Given Family Rest" yields "Given" and "Family". */
  lemma SlackNameSplitsAtSpaces(profile: SlackProfile, requiredTeam: string, g: string, f: string, rest: string)
    requires profile.user.Some? && profile.teamId == requiredTeam
    requires ' ' !in g && ' ' !in f
    requires profile.user.value.name == g + " " + f + rest
    requires rest == [] || rest[0] == ' '
    ensures SlackVerify(profile, requiredTeam).Some?
    ensures SlackVerify(profile, requiredTeam).value.givenName == g
    ensures SlackVerify(profile, requiredTeam).value.familyName == f
  {
    var name := profile.user.value.name;
    assert name == g + [' '] + (f + rest);
    SplitAtFirstSeparator(g, ' ', f + rest);
    if rest == [] {
      assert f + rest == f;
      SplitWithoutSeparator(f, ' ');
    } else {
      assert f + rest == f + [' '] + rest[1..];
      SplitAtFirstSeparator(f, ' ', rest[1..]);
    }
  }

  /** A one-word display name becomes the given name, with an empty family
      name. */
  lemma SlackSingleWordName(profile: SlackProfile, requiredTeam: string)
    requires profile.user.Some? && profile.teamId == requiredTeam
    requires ' ' !in profile.user.value.name
    ensures SlackVerify(profile, requiredTeam).Some?
    ensures SlackVerify(profile, requiredTeam).value.givenName == profile.user.value.name
    ensures SlackVerify(profile, requiredTeam).value.familyName == ""
  {
    SplitWithoutSeparator(profile.user.value.name, ' ');
  }

  /** What the Slack callback as written hands back: an identity, nothing,
      or an exception escaping the callback. */
  datatype SlackCallback = Identified(identity: IdentityTuple) | NoIdentity | Thrown(error: string)

  /** The Slack callback as written: its error branch logs a variable `err`
      that is declared nowhere, so it throws before calling back. */
  function SlackVerifyAsWritten(profile: SlackProfile, requiredTeam: string): (r: SlackCallback)
    ensures profile.user.None? ==> r.Thrown?
    ensures profile.user.Some? ==>
              (r.Identified? <==> SlackVerify(profile, requiredTeam).Some?)
              && (r.Identified? ==> Some(r.identity) == SlackVerify(profile, requiredTeam))
              && !r.Thrown?
  {
    if profile.user.None? then Thrown("ReferenceError: err is not defined")
    else
      match SlackVerify(profile, requiredTeam)
      case Some(t) => Identified(t)
      case None => NoIdentity
  }

  /** An error profile (no `user`) makes the written callback throw, where the
      corrected one fails cleanly. */
  lemma SlackErrorBranchThrows()
    ensures var p := SlackProfile("U1", None, "T1");
            SlackVerifyAsWritten(p, "T1").Thrown? && SlackVerify(p, "T1").None?
  {
  }

  /** The part of a Google profile the callback reads; `emails` is `None` for
      `null`. */
  datatype GoogleProfile = GoogleProfile(id: string, givenName: string, familyName: string, emails: Option<seq<string>>)

  /** The Google strategy: always an identity, carrying the first e-mail
      address when the list is non-empty. */
  function GoogleVerify(profile: GoogleProfile): (t: IdentityTuple)
    ensures t.accountId == profile.id
    ensures t.givenName == profile.givenName && t.familyName == profile.familyName
    ensures t.email.Some? <==> profile.emails.Some? && |profile.emails.value| > 0
    ensures t.email.Some? ==> t.email.value == profile.emails.value[0]
  {
    var email := if profile.emails.Some? && |profile.emails.value| > 0 then Some(profile.emails.value[0]) else None;
    IdentityTuple(profile.id, profile.givenName, profile.familyName, email)
  }
}
