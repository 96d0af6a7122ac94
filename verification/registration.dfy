/** `registerLocalUser`: the ordered validation pipeline of local
    self-registration, the single-use captcha, and the check-then-insert on
    the local directory. */
module Registration {
  import opened Options
  import opened State
  import opened CharClasses
  import opened LocalDirectory
  import Captcha

  /** The `newUser` object of the request body; an absent field is `None`. */
  datatype NewUser = NewUser(
    username: Option<string>,
    password: Option<string>,
    givenName: Option<string>,
    familyName: Option<string>,
    captcha: Option<string>)

  datatype ApiResponse = ApiResponse(status: int, message: string)

  /** The response, the directory afterwards (`None` when local
      authentication is not enabled) and the session afterwards. */
  datatype Registered = Registered(response: ApiResponse, directory: Option<Directory>, session: Session)

  const NotEnabled := "Local authentication is not enabled"
  const NoNewUser := "Invalid request.'newUser' not defined."
  const BadUsername := "Invalid username."
  const UsernameTaken := "Username already taken."
  const NoPassword := "Invalid request. 'password' not defined."
  const WeakPassword := "Password too weak."
  const BadGivenName := "Invalid givenName."
  const BadFamilyName := "Invalid familyName."
  const BadCaptcha := "Invalid captcha."
  const Created := "User created."

  /** One validation step: whether it passes and the message it rejects with. */
  datatype Check = Check(passes: bool, message: string)

  /** The validation steps in the order they run. A step is only consulted
      when every earlier one passed, so each may rely on the earlier ones. */
  function Checks(localUsers: Option<Directory>, body: Option<NewUser>, expected: Option<string>): (cs: seq<Check>)
    ensures |cs| == 9
  {
    var u := body.Some? && body.value.username.Some?;
    var p := body.Some? && body.value.password.Some?;
    [ Check(localUsers.Some?, NotEnabled),
      Check(body.Some?, NoNewUser),
      Check(u && IsAlphanumeric(body.value.username.value), BadUsername),
      Check(u && localUsers.Some? && body.value.username.value !in localUsers.value, UsernameTaken),
      Check(p, NoPassword),
      Check(p && IsStrongPassword(body.value.password.value), WeakPassword),
      Check(body.Some? && body.value.givenName.Some? && IsName(body.value.givenName.value), BadGivenName),
      Check(body.Some? && body.value.familyName.Some? && IsName(body.value.familyName.value), BadFamilyName),
      Check(body.Some? && body.value.captcha.Some? && expected == body.value.captcha, BadCaptcha) ]
  }

  /** The index of the first failing step at or after `i`, if any. */
  function FirstFailureFrom(cs: seq<Check>, i: nat): (r: Option<nat>)
    requires i <= |cs|
    ensures r.Some? ==> i <= r.value < |cs| && !cs[r.value].passes
    ensures forall k :: i <= k < |cs| && (r.None? || k < r.value) ==> cs[k].passes
    decreases |cs| - i
  {
    if i == |cs| then None
    else if !cs[i].passes then Some(i)
    else FirstFailureFrom(cs, i + 1)
  }

  function FirstFailure(cs: seq<Check>): (r: Option<nat>)
    ensures r.Some? ==> r.value < |cs| && !cs[r.value].passes
    ensures forall k :: 0 <= k < |cs| && (r.None? || k < r.value) ==> cs[k].passes
  {
    FirstFailureFrom(cs, 0)
  }

  /** The first failure is the failing step that every earlier step passed. */
  lemma FirstFailureAt(cs: seq<Check>, i: nat)
    requires i <= |cs|
    requires forall k :: 0 <= k < i ==> cs[k].passes
    requires i < |cs| ==> !cs[i].passes
    ensures FirstFailure(cs) == if i < |cs| then Some(i) else None
  {
  }

  /** Validation gets as far as the captcha step (the ninth). */
  predicate ReachesCaptcha(localUsers: Option<Directory>, body: Option<NewUser>, expected: Option<string>) {
    FirstFailure(Checks(localUsers, body, expected)[..8]).None?
  }

  /** The entry a successful registration stores. */
  function NewEntry(body: NewUser, salt: string, hash: (string, string) -> string): Entry
    requires body.password.Some? && body.givenName.Some? && body.familyName.Some?
  {
    Entry(body.givenName.value, body.familyName.value, hash(body.password.value, salt), salt)
  }

  /** `registerLocalUser`. `freshCaptcha` stands for `uid.sync(6)`, `salt` for
      the random 16-byte salt and `hash` for `util.hashPassword`. */
  function Register(localUsers: Option<Directory>, body: Option<NewUser>, session: Session,
                    freshCaptcha: string, salt: string, hash: (string, string) -> string): (r: Registered)
    ensures var cs := Checks(localUsers, body, session.captcha);
            match FirstFailure(cs)
            case Some(i) => r.response == ApiResponse(400, cs[i].message)
            case None => r.response == ApiResponse(200, Created)
    ensures r.response.status != 200 ==> r.directory == localUsers
    ensures r.response.status == 200 ==>
              && localUsers.Some? && body.Some? && body.value.username.Some?
              && body.value.password.Some? && body.value.givenName.Some? && body.value.familyName.Some?
              && body.value.username.value !in localUsers.value
              && r.directory == Some(localUsers.value[body.value.username.value := NewEntry(body.value, salt, hash)])
    ensures ReachesCaptcha(localUsers, body, session.captcha) ==> r.session == session.(captcha := Some(freshCaptcha))
    ensures !ReachesCaptcha(localUsers, body, session.captcha) ==> r.session == session
  {
    var cs := Checks(localUsers, body, session.captcha);
    assert FirstFailure(cs[..8]).None? <==> forall k :: 0 <= k < 8 ==> cs[k].passes;
    if localUsers.None? then
      FirstFailureAt(cs, 0);
      Registered(ApiResponse(400, NotEnabled), localUsers, session)
    else if body.None? then
      FirstFailureAt(cs, 1);
      Registered(ApiResponse(400, NoNewUser), localUsers, session)
    else
      var nu := body.value;
      if nu.username.None? || !IsAlphanumeric(nu.username.value) then
        FirstFailureAt(cs, 2);
        Registered(ApiResponse(400, BadUsername), localUsers, session)
      else if nu.username.value in localUsers.value then
        FirstFailureAt(cs, 3);
        Registered(ApiResponse(400, UsernameTaken), localUsers, session)
      else if nu.password.None? then
        FirstFailureAt(cs, 4);
        Registered(ApiResponse(400, NoPassword), localUsers, session)
      else if !IsStrongPassword(nu.password.value) then
        FirstFailureAt(cs, 5);
        Registered(ApiResponse(400, WeakPassword), localUsers, session)
      else if nu.givenName.None? || !IsName(nu.givenName.value) then
        FirstFailureAt(cs, 6);
        Registered(ApiResponse(400, BadGivenName), localUsers, session)
      else if nu.familyName.None? || !IsName(nu.familyName.value) then
        FirstFailureAt(cs, 7);
        Registered(ApiResponse(400, BadFamilyName), localUsers, session)
      else
        // the expected answer is read, then replaced, before the comparison
        var expected := session.captcha;
        var rotated := session.(captcha := Some(freshCaptcha));
        if nu.captcha.None? || expected != nu.captcha then
          FirstFailureAt(cs, 8);
          Registered(ApiResponse(400, BadCaptcha), localUsers, rotated)
        else
          FirstFailureAt(cs, 9);
          var dir := localUsers.value[nu.username.value := NewEntry(nu, salt, hash)];
          Registered(ApiResponse(200, Created), Some(dir), rotated)
  }

  /** An existing username is never overwritten: the request is refused with
      "Username already taken." and the directory is returned as it was. */
  lemma TakenUsernameIsNeverOverwritten(localUsers: Directory, body: NewUser, session: Session,
                                        freshCaptcha: string, salt: string, hash: (string, string) -> string)
    requires body.username.Some? && IsAlphanumeric(body.username.value)
    requires body.username.value in localUsers
    ensures var r := Register(Some(localUsers), Some(body), session, freshCaptcha, salt, hash);
            r.response == ApiResponse(400, UsernameTaken) && r.directory == Some(localUsers)
            && r.session == session
  {
  }

  /** Success adds exactly the new username; every other entry is untouched. */
  lemma SuccessAddsOnlyTheNewUser(localUsers: Option<Directory>, body: Option<NewUser>, session: Session,
                                  freshCaptcha: string, salt: string, hash: (string, string) -> string)
    requires Register(localUsers, body, session, freshCaptcha, salt, hash).response.status == 200
    ensures var r := Register(localUsers, body, session, freshCaptcha, salt, hash);
            var u := body.value.username.value;
            && r.directory.Some?
            && r.directory.value.Keys == localUsers.value.Keys + {u}
            && u !in localUsers.value
            && (forall k :: k in localUsers.value ==> r.directory.value[k] == localUsers.value[k])
            && r.directory.value[u].givenName == body.value.givenName.value
            && r.directory.value[u].familyName == body.value.familyName.value
            && r.directory.value[u].passSalt == salt
            && r.directory.value[u].passHash == hash(body.value.password.value, salt)
  {
  }

  /** "abcdefgh" is refused as too weak once the earlier steps pass, and the
      captcha is not consumed. */
  lemma LowercasePasswordIsTooWeak(localUsers: Directory, body: NewUser, session: Session,
                                   freshCaptcha: string, salt: string, hash: (string, string) -> string)
    requires body.username.Some? && IsAlphanumeric(body.username.value)
    requires body.username.value !in localUsers
    requires body.password == Some("abcdefgh")
    ensures var r := Register(Some(localUsers), Some(body), session, freshCaptcha, salt, hash);
            r.response == ApiResponse(400, WeakPassword) && r.session == session
  {
  }

  /** Replaying a successful registration is refused. The username check
      runs before the captcha check, so the refusal reads "Username already
      taken.", not "Invalid captcha.". */
  lemma ReplayIsRefusedAsTaken(localUsers: Option<Directory>, body: Option<NewUser>, session: Session,
                               c1: string, s1: string, c2: string, s2: string, hash: (string, string) -> string)
    requires Register(localUsers, body, session, c1, s1, hash).response.status == 200
    ensures var r1 := Register(localUsers, body, session, c1, s1, hash);
            var r2 := Register(r1.directory, body, r1.session, c2, s2, hash);
            r2.response == ApiResponse(400, UsernameTaken) && r2.directory == r1.directory
  {
  }

  /** A consulted answer is spent: once validation reached the captcha step,
      a later request on the same session that submits the old expected
      answer is refused, unless the fresh value happens to equal it. */
  lemma SpentCaptchaIsRefused(localUsers: Option<Directory>, body: Option<NewUser>, session: Session,
                              c1: string, s1: string, hash: (string, string) -> string,
                              later: Option<Directory>, laterBody: NewUser, c2: string, s2: string)
    requires ReachesCaptcha(localUsers, body, session.captcha)
    requires session.captcha.Some? && c1 != session.captcha.value
    requires laterBody.captcha == session.captcha
    ensures var r1 := Register(localUsers, body, session, c1, s1, hash);
            r1.session.captcha != session.captcha
            && Register(later, Some(laterBody), r1.session, c2, s2, hash).response.status == 400
  {
  }

  /** The rotated value cannot coincide with an issued challenge: the
      challenge is four digits and `uid.sync(6)` yields eight characters. */
  lemma RotationNeverRepeatsIssuedCaptcha(localUsers: Option<Directory>, body: Option<NewUser>, session: Session,
                                          draw: int, freshCaptcha: string, salt: string, hash: (string, string) -> string)
    requires 1000 <= draw <= 9999
    requires session.captcha == Some(Captcha.CaptchaText(draw))
    requires |freshCaptcha| == 8
    requires ReachesCaptcha(localUsers, body, session.captcha)
    ensures Register(localUsers, body, session, freshCaptcha, salt, hash).session.captcha != session.captcha
  {
  }
}
