/**
 * The NextAuth configuration (fixo-v2/src/lib/auth.ts): which sign-in
 * providers are offered, the demo `authorize` that finds or creates a user by
 * e-mail, the `session`, `jwt` and `redirect` callbacks and the `createUser`
 * event. URL parsing (`new URL(url).origin`) is a parameter: a function that
 * gives a URL's origin, or `None` where the URL constructor throws.
 */
module Auth {
  import opened Wrappers
  import opened Js
  import opened Store
  import UseUser

  // ---------------------------------------------------------------------------
  // Providers

  datatype AuthEnv = AuthEnv(
    googleClientId: Option<string>,
    googleClientSecret: Option<string>,
    githubClientId: Option<string>,
    githubClientSecret: Option<string>)

  datatype AuthProvider =
    | GoogleOAuth(clientId: string, clientSecret: string)
    | GitHubOAuth(clientId: string, clientSecret: string)
    | DemoCredentials

  predicate GoogleConfigured(env: AuthEnv) {
    StrTruthy(env.googleClientId) && StrTruthy(env.googleClientSecret)
  }

  predicate GitHubConfigured(env: AuthEnv) {
    StrTruthy(env.githubClientId) && StrTruthy(env.githubClientSecret)
  }

  /** The `providers` array: the conditional spreads, then the demo provider. */
  function Providers(env: AuthEnv): (ps: seq<AuthProvider>)
    ensures |ps| == 1 + (if GoogleConfigured(env) then 1 else 0) + (if GitHubConfigured(env) then 1 else 0)
    ensures ps[|ps| - 1] == DemoCredentials
    ensures forall i :: 0 <= i < |ps| - 1 ==> !ps[i].DemoCredentials?
    ensures GoogleConfigured(env) ==>
      ps[0] == GoogleOAuth(env.googleClientId.value, env.googleClientSecret.value)
    ensures GitHubConfigured(env) ==>
      ps[|ps| - 2] == GitHubOAuth(env.githubClientId.value, env.githubClientSecret.value)
    ensures (exists i :: 0 <= i < |ps| && ps[i].GoogleOAuth?) <==> GoogleConfigured(env)
    ensures (exists i :: 0 <= i < |ps| && ps[i].GitHubOAuth?) <==> GitHubConfigured(env)
  {
    var google := if GoogleConfigured(env)
      then [GoogleOAuth(env.googleClientId.value, env.googleClientSecret.value)] else [];
    var github := if GitHubConfigured(env)
      then [GitHubOAuth(env.githubClientId.value, env.githubClientSecret.value)] else [];
    google + github + [DemoCredentials]
  }

  // ---------------------------------------------------------------------------
  // Demo sign-in

  datatype AuthUser = AuthUser(id: string, email: Option<string>, name: Option<string>, image: Option<string>)

  /** The row `authorize` creates for an unknown e-mail. */
  function DemoUserRow(email: string): UserRow {
    UserRow(Some(email), Some("Demo uživatel"), None, "FREE", 0, 3, None)
  }

  /** `authorize(credentials)`, given `credentials?.email`. */
  method Authorize(db: Database, email: Option<string>, freshId: string) returns (r: Option<AuthUser>)
    requires freshId !in db.users
    modifies db`users
    ensures !StrTruthy(email) ==> r.None? && db.users == old(db.users)
    ensures StrTruthy(email) ==>
      && r.Some? && r.value.id in db.users
      && var row := db.users[r.value.id];
      && row.email == email
      && r.value == AuthUser(r.value.id, row.email, row.name, row.image)
    ensures StrTruthy(email) && HasEmail(old(db.users), email.value) ==> db.users == old(db.users)
    ensures StrTruthy(email) && !HasEmail(old(db.users), email.value) ==>
      db.users == old(db.users)[freshId := DemoUserRow(email.value)] && r.value.id == freshId
    ensures UniqueEmails(old(db.users)) ==> UniqueEmails(db.users)
  {
    if !StrTruthy(email) {
      return None;
    }
    var id := UpsertUserByEmail(db, email.value, DemoUserRow(email.value), freshId);
    var row := db.users[id];
    r := Some(AuthUser(id, row.email, row.name, row.image));
  }

  /** With unique e-mails, signing in twice with one address yields the same user and creates one row. */
  method AuthorizeTwiceSameUser(db: Database, email: string, id1: string, id2: string)
    returns (first: Option<AuthUser>, second: Option<AuthUser>)
    requires email != "" && id1 !in db.users && id2 !in db.users && id1 != id2
    requires UniqueEmails(db.users)
    modifies db`users
    ensures first.Some? && second.Some? && first.value.id == second.value.id
    ensures |db.users.Keys| <= |old(db.users).Keys| + 1
  {
    first := Authorize(db, Some(email), id1);
    ghost var afterFirst := db.users;
    second := Authorize(db, Some(email), id2);
    assert HasEmail(afterFirst, email);
    assert db.users == afterFirst;
  }

  // ---------------------------------------------------------------------------
  // Callbacks

  /**
   * `callbacks.session`: with a session user and a subject, the user gets the
   * subject as id and, when the user row exists, its plan and counters.
   */
  function SessionCallback(session: UseUser.SessionData, sub: Option<string>, users: map<string, UserRow>)
    : (s: UseUser.SessionData)
    ensures session.user.None? || !StrTruthy(sub) ==> s == session
    ensures session.user.Some? && StrTruthy(sub) ==>
      var before, after := session.user.value, s.user;
      && after.Some?
      && after.value.id == sub
      && after.value.name == before.name && after.value.email == before.email && after.value.image == before.image
      && (sub.value in users ==>
            && after.value.plan == Some(users[sub.value].plan)
            && after.value.monthlyAnalysesUsed == Some(users[sub.value].monthlyAnalysesUsed)
            && after.value.monthlyAnalysesLimit == Some(users[sub.value].monthlyAnalysesLimit))
      && (sub.value !in users ==>
            && after.value.plan == before.plan
            && after.value.monthlyAnalysesUsed == before.monthlyAnalysesUsed
            && after.value.monthlyAnalysesLimit == before.monthlyAnalysesLimit)
  {
    if session.user.None? || !StrTruthy(sub) then session
    else
      var u := session.user.value.(id := sub);
      var u' := if sub.value in users
        then u.(plan := Some(users[sub.value].plan),
                monthlyAnalysesUsed := Some(users[sub.value].monthlyAnalysesUsed),
                monthlyAnalysesLimit := Some(users[sub.value].monthlyAnalysesLimit))
        else u;
      session.(user := Some(u'))
  }

  /** After the session callback, a stored user's quota reaches the client exactly as stored. */
  lemma SessionCarriesStoredQuota(session: UseUser.SessionData, sub: string, users: map<string, UserRow>)
    requires session.user.Some? && sub != "" && sub in users
    requires users[sub].plan != "" && users[sub].monthlyAnalysesLimit != 0
    ensures
      var u := UseUser.DeriveUser(Some(SessionCallback(session, Some(sub), users)));
      && u.Some?
      && u.value.plan == users[sub].plan
      && u.value.monthlyAnalysesLimit == users[sub].monthlyAnalysesLimit
      && u.value.monthlyAnalysesUsed == users[sub].monthlyAnalysesUsed
  {
  }

  /** A JSON value of a JWT claim. */
  datatype Claim = Text(text: string) | Number(n: int) | Flag(b: bool)

  type Claims = map<string, Claim>

  predicate IsUpdate(trigger: Option<string>, session: Option<Claims>) {
    trigger == Some("update") && session.Some?
  }

  /** `callbacks.jwt`: `token.id = user.id`, then `{ ...token, ...session }` on an update. */
  function Jwt(token: Claims, user: Option<AuthUser>, trigger: Option<string>, session: Option<Claims>): (t: Claims)
    ensures forall k :: k in t <==>
      k in token || (user.Some? && k == "id") || (IsUpdate(trigger, session) && k in session.value)
    ensures IsUpdate(trigger, session) ==> forall k :: k in session.value ==> t[k] == session.value[k]
    ensures forall k :: k in t && !(IsUpdate(trigger, session) && k in session.value) ==>
      t[k] == (if user.Some? && k == "id" then Text(user.value.id) else token[k])
  {
    var withId := if user.Some? then token["id" := Text(user.value.id)] else token;
    if IsUpdate(trigger, session) then withId + session.value else withId
  }

  /** On an update the session's `id` wins over the signed-in user's. */
  lemma JwtUpdateOverridesId(token: Claims, user: AuthUser, session: Claims)
    requires "id" in session
    ensures Jwt(token, Some(user), Some("update"), Some(session))["id"] == session["id"]
  {
  }

  /** Without a user and without an update the token passes through untouched. */
  lemma JwtIdentity(token: Claims, trigger: Option<string>)
    ensures Jwt(token, None, trigger, None) == token
  {
  }

  datatype RedirectError = InvalidUrl

  /** `callbacks.redirect`; `origin(url)` is `new URL(url).origin`, `None` where that throws. */
  function Redirect(url: string, baseUrl: string, origin: string -> Option<string>): (r: Result<string, RedirectError>)
    ensures StartsWith(url, "/") ==> r == Ok(baseUrl + url)
    ensures !StartsWith(url, "/") && origin(url) == Some(baseUrl) ==> r == Ok(url)
    ensures !StartsWith(url, "/") && origin(url).Some? && origin(url) != Some(baseUrl) ==> r == Ok(baseUrl)
    ensures !StartsWith(url, "/") && origin(url).None? ==> r == Err(InvalidUrl)
  {
    if StartsWith(url, "/") then Ok(baseUrl + url)
    else match origin(url)
      case None => Err(InvalidUrl)
      case Some(o) => if o == baseUrl then Ok(url) else Ok(baseUrl)
  }

  /** A redirect never leaves the site: the target is under `baseUrl` or has its origin. */
  lemma RedirectStaysOnSite(url: string, baseUrl: string, origin: string -> Option<string>)
    requires Redirect(url, baseUrl, origin).Ok?
    ensures var target := Redirect(url, baseUrl, origin).value;
      StartsWith(target, baseUrl) || origin(target) == Some(baseUrl)
  {
    var target := Redirect(url, baseUrl, origin).value;
    if StartsWith(url, "/") {
      assert (baseUrl + url)[..|baseUrl|] == baseUrl;
    } else if origin(url) != Some(baseUrl) {
      assert target[..|baseUrl|] == baseUrl;
    }
  }

  // ---------------------------------------------------------------------------
  // Events

  /** `events.createUser`: `prisma.user.update` by id, which throws when the row is missing. */
  method CreateUserEvent(db: Database, id: string) returns (ok: bool)
    modifies db`users
    ensures ok <==> id in old(db.users)
    ensures ok ==> db.users == old(db.users)[id := old(db.users)[id].(plan := "FREE", monthlyAnalysesLimit := 3, monthlyAnalysesUsed := 0)]
    ensures !ok ==> db.users == old(db.users)
  {
    if id !in db.users {
      return false;
    }
    db.users := db.users[id := db.users[id].(plan := "FREE", monthlyAnalysesLimit := 3, monthlyAnalysesUsed := 0)];
    ok := true;
  }
}
