/**
 * The `useUser` and `useRequireAuth` hooks (fixo-v2/src/hooks/use-user.ts):
 * the client-side user record derived from the session, with its plan and
 * usage defaults and the `canAnalyze` / `isPremium` flags. The session and its
 * status are inputs; React's memoisation is not modelled.
 */
module UseUser {
  import opened Wrappers
  import opened Js

  /** `session.user` as the session callback fills it in. */
  datatype SessionUser = SessionUser(
    id: Option<string>,
    name: Option<string>,
    email: Option<string>,
    image: Option<string>,
    plan: Option<string>,
    monthlyAnalysesUsed: Option<int>,
    monthlyAnalysesLimit: Option<int>)

  datatype SessionData = SessionData(user: Option<SessionUser>)

  datatype Status = Loading | Authenticated | Unauthenticated

  datatype User = User(
    id: Option<string>,
    name: Option<string>,
    email: Option<string>,
    image: Option<string>,
    plan: string,
    monthlyAnalysesUsed: int,
    monthlyAnalysesLimit: int,
    canAnalyze: bool,
    isPremium: bool)

  datatype UserState = UserState(user: Option<User>, isLoading: bool, isAuthenticated: bool)

  datatype RequireAuthState = RequireAuthState(user: Option<User>, isLoading: bool, isAuthenticated: bool, isReady: bool)

  const PremiumPlans: set<string> := {"PLUS", "PRO", "LIFETIME"}

  function IsPremiumPlan(plan: Option<string>): bool {
    plan == Some("PLUS") || plan == Some("PRO") || plan == Some("LIFETIME")
  }

  /** The memoised `user` object; `None` without a session user. */
  function DeriveUser(session: Option<SessionData>): (u: Option<User>)
    ensures u.None? <==> session.None? || session.value.user.None?
    ensures u.Some? ==>
      var s, v := session.value.user.value, u.value;
      && v.id == s.id && v.name == s.name && v.email == s.email && v.image == s.image
      && v.plan == (if s.plan.Some? && s.plan.value != "" then s.plan.value else "FREE")
      && v.monthlyAnalysesUsed == (if s.monthlyAnalysesUsed.Some? then s.monthlyAnalysesUsed.value else 0)
      && v.monthlyAnalysesLimit == (if s.monthlyAnalysesLimit.Some? && s.monthlyAnalysesLimit.value != 0 then s.monthlyAnalysesLimit.value else 3)
      && (v.isPremium <==> s.plan.Some? && s.plan.value in PremiumPlans)
      && (v.canAnalyze <==> v.isPremium || v.monthlyAnalysesUsed < v.monthlyAnalysesLimit)
  {
    if session.None? || session.value.user.None? then None
    else
      var s := session.value.user.value;
      var used := IntOr(s.monthlyAnalysesUsed, 0);
      var limit := IntOr(s.monthlyAnalysesLimit, 3);
      Some(User(
        s.id, s.name, s.email, s.image,
        StrOr(s.plan, "FREE"),
        used,
        limit,
        IsPremiumPlan(s.plan) || used < limit,
        IsPremiumPlan(s.plan)))
  }

  function UseUser(session: Option<SessionData>, status: Status): (r: UserState)
    ensures r.user == DeriveUser(session)
    ensures r.isLoading <==> status == Loading
    ensures r.isAuthenticated <==> status == Authenticated
  {
    UserState(DeriveUser(session), status == Loading, status == Authenticated)
  }

  function UseRequireAuth(session: Option<SessionData>, status: Status): (r: RequireAuthState)
    ensures r.user == DeriveUser(session)
    ensures r.isLoading <==> status == Loading
    ensures r.isAuthenticated <==> status == Authenticated
    ensures r.isReady <==> !r.isLoading && r.isAuthenticated
  {
    var u := UseUser(session, status);
    RequireAuthState(u.user, u.isLoading, u.isAuthenticated, !u.isLoading && u.isAuthenticated)
  }

  /** Loading and authenticated exclude each other, so `isReady` is just `isAuthenticated`. */
  lemma ReadyIffAuthenticated(session: Option<SessionData>, status: Status)
    ensures UseRequireAuth(session, status).isReady <==> status == Authenticated
  {
  }

  /** A premium plan can always analyse, whatever the counters say. */
  lemma PremiumCanAnalyze(session: Option<SessionData>)
    requires DeriveUser(session).Some? && DeriveUser(session).value.isPremium
    ensures DeriveUser(session).value.canAnalyze
  {
  }

  /** A defaulted user is never premium: an empty or missing plan reads as FREE. */
  lemma DefaultPlanIsFree(s: SessionUser)
    requires !StrTruthy(s.plan)
    ensures DeriveUser(Some(SessionData(Some(s)))).value.plan == "FREE"
    ensures !DeriveUser(Some(SessionData(Some(s)))).value.isPremium
  {
  }

  /** The limit default is a falsy default: a stored limit of 0 behaves as 3. */
  lemma ZeroLimitBecomesThree(s: SessionUser)
    requires s.monthlyAnalysesLimit == Some(0) && s.monthlyAnalysesUsed == Some(2) && s.plan == Some("FREE")
    ensures DeriveUser(Some(SessionData(Some(s)))).value.monthlyAnalysesLimit == 3
    ensures DeriveUser(Some(SessionData(Some(s)))).value.canAnalyze
  {
  }

  /** The derived limit is never 0. */
  lemma LimitNeverZero(session: Option<SessionData>)
    requires DeriveUser(session).Some?
    ensures DeriveUser(session).value.monthlyAnalysesLimit != 0
  {
  }
}
