# Authentication core of the training portal, in Dafny

This project models the request-trust and registration logic of
`trainingportal/auth.js` in a web training portal. With Express, Passport and
the database taken away, that logic is a set of pure decisions over a small
typed state:

- the session bag (`xsrfToken`, `captcha`);
- the user object Passport attaches to a request, and Passport's
  `req.isAuthenticated()` flag;
- the local directory (username to salted hash and names);
- the user store (account id to user row).

Each piece is a Dafny module in its own file:

| file | module | what it models |
|---|---|---|
| options.dfy | `Options` | `null`/`undefined` as `Option` |
| jsstrings.dfy | `JsStrings` | `indexOf` as a prefix test, `replace` with a string pattern, `split(" ")` |
| charclasses.dfy | `CharClasses` | the regular-expression classes of registration and the password-strength rule |
| state.dfy | `State` | session, request, user object, `isAuthenticated` |
| gatekeeper.dfy | `Gatekeeper` | `authenticationByDefault`, `ensureApiAuth`, `ensureAuthSkipXsrfCheck`, `addSecurityHeaders` |
| csrf.dfy | `Csrf` | `addCsrfToken` |
| captcha.dfy | `Captcha` | the value `getCaptcha` stores in the session |
| localdirectory.dfy | `LocalDirectory` | the local directory, username to names and salted hash |
| registration.dfy | `Registration` | `registerLocalUser` |
| identity.dfy | `Identity` | the Local, Slack and Google verify callbacks |
| userdirectory.dfy | `UserDirectory` | `processAuthCallback` |
| login.dfy | `Login` | a strategy's verdict followed through the bridge to an authenticated request |

Randomness and foreign code become parameters:
- `uid.sync(64)` (the CSRF token) and `uid.sync(6)` (the rotated captcha);
- the random salt, and the four-digit captcha draw;
- `util.hashPassword`, as a function parameter `hash`;
- the row id the user store assigns on insertion.

`isAuthenticated` (`State.IsAuthenticated`) holds when:
- the request exists;
- its user object exists and has an `id`;
- Passport's flag is set.

It is a plain predicate, so it has no row below. The gates and the login
lemmas state their properties in terms of it.

Behaviour the proofs make explicit:
- Path tiers use bare prefix tests with no segment boundary. `/publicity` is
  public and `/apiary` is an API path (`Gatekeeper.PrefixesIgnoreSegmentBoundaries`).
- The CSRF token is created even for anonymous requests. Only the first
  `%XSRF_TOKEN%` marker is replaced, and only for authenticated requests.
- A replay of a successful registration never reaches the captcha step: the
  username check (trainingportal/auth.js:74) fires first, so the replay is
  refused with "Username already taken." (`Registration.ReplayIsRefusedAsTaken`).
  The captcha's single use is stated separately, for a later request on the
  same session (`Registration.SpentCaptchaIsRefused`).
- Google and Slack profile ids are used without a prefix, so the two
  providers share one account-id space, and only local ids carry "Local_".
  A provider id that equals "Local_" + username resolves to that local
  user's row (`Login.ProviderIdCanLandOnLocalAccount`,
  `Login.SlackIdCanLandOnLocalAccount`).

## Model

| member | source | states |
|---|---|---|
| `JsStrings.StartsWith` | trainingportal/auth.js:304-307 | `path.indexOf(p) === 0` holds exactly when `p` is a prefix of the path |
| `JsStrings.ReplaceFirst` | trainingportal/auth.js:296 | with no occurrence the body is unchanged; otherwise the text before the first occurrence is kept, the replacement sits where that occurrence began, and the rest follows unchanged |
| `JsStrings.ReplaceFirstKeepsLaterOccurrences` | trainingportal/auth.js:296 | only the first marker is replaced: every later non-overlapping marker survives, shifted by the length difference |
| `JsStrings.Split` | trainingportal/auth.js:213 | `split(" ")` always yields at least one piece, and no piece contains the separator |
| `JsStrings.JoinSplit` | trainingportal/auth.js:213 | splitting loses nothing: joining the pieces with the separator gives the name back |
| `JsStrings.SplitWithoutSeparator` | trainingportal/auth.js:213 | a name with no space is a single piece |
| `JsStrings.SplitAtFirstSeparator` | trainingportal/auth.js:213 | the first piece is exactly the text before the first space |
| `CharClasses.CheckPasswordStrength` | trainingportal/auth.js:83-86 | a one-pass scan answers true exactly when the password has a run of 8 non-line-terminator characters, a lower-case letter, an upper-case letter and a digit |
| `CharClasses.IsAlphanumeric` | trainingportal/auth.js:70 | `validator.isAlphanumeric(username, 'en-US')`: non-empty, every character an ASCII letter or digit |
| `CharClasses.UsernameClassExamples` | trainingportal/auth.js:70 | "bob1" and "BOB" are valid usernames; "", "bob_1", "bob 1" and a name with a non-ASCII letter are not |
| `CharClasses.IsName` | trainingportal/auth.js:93-97 | `/^[A-Z'\-\s]+$/i`: non-empty, every character an ASCII letter, an apostrophe, a hyphen or an ECMAScript `\s` character |
| `CharClasses.NameClassExamples` | trainingportal/auth.js:93-97 | "O'Brien-Smith", "Anne Marie" and a tab-separated name are valid names; "", "Bob1" and "J." are not |
| `CharClasses.LowercaseOnlyIsWeak` | trainingportal/auth.js:83-89 | "abcdefgh" fails the strength rule |
| `CharClasses.MixedEightIsStrong` | trainingportal/auth.js:83-86 | "Abcdefg1" passes the strength rule |
| `CharClasses.LineBreakBreaksTheRun` | trainingportal/auth.js:83 | `.{8,}` needs 8 characters with no line break among them, not just length 8 |
| `Gatekeeper.IsPublicPath` | trainingportal/auth.js:345 | the header policy's test is true exactly for "/" and paths beginning with "/public" |
| `Gatekeeper.Classify` | trainingportal/auth.js:302-316 | every path gets exactly one tier: public for "/" or a "/public" prefix, otherwise API for an "/api" prefix, otherwise cookie-only; the public test takes precedence |
| `Gatekeeper.ApiGate` | trainingportal/auth.js:319-327 | proceeds exactly when the request is authenticated, the `xsrftoken` header is present and equals the session's token; otherwise 401 "Unauthorized" |
| `Gatekeeper.CookieGate` | trainingportal/auth.js:273-288 | proceeds exactly when authenticated; otherwise redirects to "/", destroying the session first when one exists |
| `Gatekeeper.AuthenticationByDefault` | trainingportal/auth.js:302-316 | public paths always proceed; API paths get the API gate; all other paths get the cookie gate |
| `Gatekeeper.AnonymousReachesOnlyPublic` | trainingportal/auth.js:302-316 | an unauthenticated request proceeds exactly when its path is "/" or begins with "/public" |
| `Gatekeeper.ApiPassRequiresToken` | trainingportal/auth.js:319-327 | a request under "/api" that proceeds is authenticated and carries a header equal to the session's token, so a missing header never passes |
| `Gatekeeper.ApiGateImpliesCookieGate` | trainingportal/auth.js:320 | passing the API gate implies passing the cookie gate; an unauthenticated request passes neither |
| `Gatekeeper.PrefixesIgnoreSegmentBoundaries` | trainingportal/auth.js:304-307 | "/publicity" is public, "/apiary" is API, "/main" and "" are cookie-only, "/" is public |
| `Gatekeeper.SecurityHeaders` | trainingportal/auth.js:344-358 | the five hardening headers always have their fixed values; each of the three cache-busting headers is present exactly outside the public tier, with its fixed value; a public path gets the hardening headers and nothing else |
| `Csrf.AddCsrfToken` | trainingportal/auth.js:291-299 | the token is set only when absent, authenticated or not; an existing token and the rest of the request are left alone; an authenticated body gets its first marker replaced by the token; an anonymous body is returned unchanged |
| `Csrf.TokenIsStable` | trainingportal/auth.js:292-294 | a second call never changes the token, whatever random value it is offered |
| `Csrf.EmbeddedTokenOpensApiGate` | trainingportal/auth.js:291-299 | the token written into an authenticated page is the only header value the API gate accepts for that session |
| `Csrf.AnonymousPageKeepsPlaceholder` | trainingportal/auth.js:295-298 | an anonymous page keeps its marker, while the session still gains a token |
| `Captcha.CaptchaText` | trainingportal/auth.js:35-38 | the stored answer is four ASCII digits without a leading zero, and reads back as the drawn number |
| `Captcha.IssueCaptcha` | trainingportal/auth.js:33-39 | only the session's expected answer changes, and it decodes to the draw |
| `Captcha.CaptchaTextInjective` | trainingportal/auth.js:35-38 | different draws give different expected answers |
| `Registration.FirstFailureFrom` | trainingportal/auth.js:58-110 | the first failing validation step: every earlier step passes and it fails; with none, every step passes |
| `Registration.FirstFailureAt` | trainingportal/auth.js:58-110 | a failing step that every earlier step passed is the first failure |
| `Registration.Register` | trainingportal/auth.js:58-123 | the response is 400 with the message of the first failing step in the fixed nine-step order, or 200 "User created."; a 400 leaves the directory unchanged; a 200 adds the new username with its names, salt and salted hash; the captcha is rotated exactly when validation reaches the captcha step |
| `Registration.TakenUsernameIsNeverOverwritten` | trainingportal/auth.js:74-76 | a username already in the directory is refused with "Username already taken."; the directory and the session are unchanged |
| `Registration.SuccessAddsOnlyTheNewUser` | trainingportal/auth.js:112-122 | success adds exactly one key, the new username, and every other entry is untouched |
| `Registration.LowercasePasswordIsTooWeak` | trainingportal/auth.js:83-90 | "abcdefgh" is refused with "Password too weak." and the captcha is not consumed |
| `Registration.ReplayIsRefusedAsTaken` | trainingportal/auth.js:58-123 | replaying a successful registration is refused as "Username already taken." and the directory stays as the first call left it |
| `Registration.SpentCaptchaIsRefused` | trainingportal/auth.js:101-110 | once validation reached the captcha step, the old answer is gone, and a later request on that session that submits it is refused |
| `Registration.RotationNeverRepeatsIssuedCaptcha` | trainingportal/auth.js:101-106 | an eight-character rotated value always differs from an issued four-digit challenge |
| `Identity.LocalUsernameOf` | trainingportal/auth.js:173 | a local account id is exactly one that begins with "Local_", and it is "Local_" followed by the recovered username |
| `Identity.LocalAccountIdRoundTrip` | trainingportal/auth.js:173 | the username comes back out of "Local_" + username |
| `Identity.LocalVerify` | trainingportal/auth.js:160-186 | succeeds exactly when the directory is loaded, has the username, and the salted hash of the password equals the stored hash; the identity is the local account id with the stored names and no e-mail |
| `Identity.SlackVerify` | trainingportal/auth.js:211-227 | an identity exactly when the profile has a user and the team id matches; the account id and e-mail come from the profile; the given name is a space-free prefix of the display name and the family name has no space |
| `Identity.SlackNameSplitsAtSpaces` | trainingportal/auth.js:213-224 | for the display name "Given Family ..." the given name is "Given" and the family name is "Family" |
| `Identity.SlackSingleWordName` | trainingportal/auth.js:213-224 | a one-word display name becomes the given name, with an empty family name |
| `Identity.SlackVerifyAsWritten` | trainingportal/auth.js:228-233 | as written, a profile without a user throws; otherwise it agrees with the corrected callback |
| `Identity.SlackErrorBranchThrows` | trainingportal/auth.js:228-233 | for a profile with no user, the written callback throws and the corrected one returns no identity |
| `Identity.GoogleVerify` | trainingportal/auth.js:194-201 | the identity carries the profile's id and names, and an e-mail exactly when the list is non-empty, namely its first entry |
| `UserDirectory.ResolveOrCreate` | trainingportal/auth.js:127-157 | the returned user is the row stored under the account id, with the e-mail overlaid; only that key may be added; existing rows are never changed; a new row has the given names, no team and level 0 |
| `UserDirectory.ResolveKeepsStoreWellKeyed` | trainingportal/auth.js:127-157 | if every row is stored under its own account id, that stays true, and the user returned has the requested account id |
| `UserDirectory.ResolveTwiceIsStable` | trainingportal/auth.js:127-157 | a second resolution of the same id leaves the store as it was and returns the same user with only the e-mail replaced |
| `Login.CompleteLogin` | trainingportal/auth.js:167-183 | an identity gives a user (with an id and the identity's e-mail, read back from the store); no identity gives no user and leaves the store unchanged; at most the identity's account id is added, and every existing row survives unchanged; a first login creates the row with the identity's names, no team and level 0 |
| `Login.LocalLogin` | trainingportal/auth.js:160-186 | a local login yields a user exactly when the credential check passes; that user is the row stored under "Local_" + username with no e-mail; only that key may be added, every existing row survives unchanged, and a failed login leaves the store unchanged; a first login creates that row with the directory entry's names, no team and level 0 |
| `Login.LoggedInUserAuthenticates` | trainingportal/auth.js:29-31 | the user produced by a login has an id, so a request carrying it with Passport's flag set is authenticated and passes the cookie gate |
| `Login.RegisteredUserCanLogIn` | trainingportal/auth.js:113-117 | after a successful registration, logging in with the same password yields the user "Local_" + username with no e-mail; the identity carries the registered names, and on a first login (no such row yet) the user is the new row: the registered names, no team, level 0. When a "Local_" + username row already exists, its stored names, team and level are returned instead |
| `Login.RegistrationLeavesOtherLoginsAlone` | trainingportal/auth.js:117 | a registration does not change whether any other username can log in, or as whom |
| `Login.GoogleLoginAlwaysYieldsUser` | trainingportal/auth.js:194-200 | a Google login always yields a user with an id; its e-mail is the first listed address, or none when the list is null or empty; only the profile's id may be added to the store |
| `Login.ProviderIdCanLandOnLocalAccount` | trainingportal/auth.js:194-200 | a Google profile whose id equals "Local_" + username resolves to that local user's stored row (its id, names and level), and the store is unchanged |
| `Login.SlackIdCanLandOnLocalAccount` | trainingportal/auth.js:211-226 | a Slack team member whose id equals "Local_" + username resolves to that local user's stored row, and the store is unchanged |

## Findings

| source | as written | input that shows it | evidently intended | confidence | as-written member | corrected member |
|---|---|---|---|---|---|---|
| trainingportal/auth.js:231 | the Slack error branch logs `err`, which is declared nowhere, so it throws a ReferenceError before `cb(profile)` runs | a Slack profile with no `user` field | log the error and report an authentication failure | high, not executed | `Identity.SlackVerifyAsWritten` (shown by `Identity.SlackErrorBranchThrows`) | `Identity.SlackVerify` |

## Left out

- Passport and Express wiring is not modelled: `getPassport`, `getSession`, strategy registration and (de)serialisation (trainingportal/auth.js:239-268). This is framework plumbing.
- Logout (`logoutAndKillSession`, `logout`, trainingportal/auth.js:331-341) is not modelled. It is asynchronous sequencing of framework calls. The gate's teardown is only an outcome, `DestroySessionThenRedirect("/")`.
- Captcha image rendering, the response headers of `getCaptcha`, and the `Math.random` float draw are not modelled. The draw is an integer parameter in [1000, 9999].
- `aesCrypto.decrypt`, `util.hashPassword`, `uid.sync` and `crypto.randomBytes` belong to foreign modules. Hashing is a function parameter. Random values are parameters.
- Logging and explicit session persistence are not modelled. Logging is the `util.log` calls (trainingportal/auth.js:132, 149, 163, 176, 180, 219, 230); the model reports a failure without its log line. Session persistence is `req.session.save()` (trainingportal/auth.js:39, 106); the model returns the updated session value.
- Writing the directory to disk (`fs.writeFile`) is not modelled. The directory is a map that the model returns.
- The asynchronous database callbacks are map lookups and updates. The row id the store assigns is a parameter. A failed read-back after an insert is not modelled.
- The race between two simultaneous registrations of one username is not modelled, because the model has no concurrency.
- Some JavaScript behaviour is not replicated:
  - `username in localUsers` also matches inherited keys such as "constructor";
  - `validator` throws on a value that is not a string, but request fields are modelled as strings;
  - `profile.emails` or `profile.team` may be undefined.
- Strings are sequences of Unicode scalar values, not UTF-16 code units. For characters outside the Basic Multilingual Plane, `.{8,}` counts differently.
- JsStrings.ReplaceFirst: the `$`-patterns JavaScript interprets in a replacement string are taken literally. The tokens come from `uid.sync` in base64url and contain no `$`.
- Gatekeeper.ApiGate: the source throws a TypeError when an authenticated request carries the header but has no session at all. The model answers 401 instead.
- Csrf.AddCsrfToken: requires a session, because the source dereferences `req.session` unconditionally.
- Identity.SlackVerify: the error branch is a plain failure, without the `cb(profile)` error argument the code evidently meant to pass (see Findings).
