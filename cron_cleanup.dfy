/**
 * The daily maintenance endpoint (fixo-v2/src/app/api/cron/cleanup/route.ts):
 * a bearer-secret check, then on the first day of a month a reset of the
 * monthly usage of every FREE user, and on every other day the removal of the
 * verification tokens and sessions that have expired. The clock is a
 * parameter, and so is the point at which the database may fail.
 */
module CronCleanup {
  import opened Wrappers
  import opened Js
  import opened Store

  /** `new Date()`: its day of the month, its time value and `toISOString()`. */
  datatype Now = Now(dayOfMonth: int, millis: int, iso: string)

  /** Which database call, if any, throws. */
  datatype Failure = NoFailure | FailOnReset | FailOnTokens | FailOnSessions

  datatype Body =
    | ErrorBody(error: string)
    | ResetBody(message: string, timestamp: string)
    | CleanupBody(message: string, deletedTokens: nat, deletedSessions: nat, timestamp: string)

  datatype Response = Response(status: int, body: Body)

  /** The request is refused when a secret is configured and the header does not carry it. */
  predicate Unauthorized(cronSecret: Option<string>, authHeader: Option<string>) {
    StrTruthy(cronSecret) && authHeader != Some("Bearer " + cronSecret.value)
  }

  /** Ids of the users that `where: { plan: "FREE" }` selects. */
  function FreeUsers(users: map<string, UserRow>): (ids: set<string>)
    ensures forall id :: id in ids <==> id in users && users[id].plan == "FREE"
  {
    set id | id in users && users[id].plan == "FREE"
  }

  /** `user.updateMany` on the FREE users, setting `monthlyAnalysesUsed: 0` and `analysesResetDate: now`. */
  function ResetFree(users: map<string, UserRow>, now: int): (r: map<string, UserRow>)
    ensures r.Keys == users.Keys
    ensures forall id :: id in users && users[id].plan == "FREE" ==>
      r[id] == users[id].(monthlyAnalysesUsed := 0, analysesResetDate := Some(now))
    ensures forall id :: id in users && users[id].plan != "FREE" ==> r[id] == users[id]
  {
    map id | id in users :: if users[id].plan == "FREE"
      then users[id].(monthlyAnalysesUsed := 0, analysesResetDate := Some(now))
      else users[id]
  }

  /** The reset keeps every plan, so it reaches the same users when run again, and changes nothing more. */
  lemma ResetFreeIdempotent(users: map<string, UserRow>, now: int)
    ensures FreeUsers(ResetFree(users, now)) == FreeUsers(users)
    ensures ResetFree(ResetFree(users, now), now) == ResetFree(users, now)
  {
  }

  /**
   * `deleteMany({ where: { expires: { lt: now } } })`: the rows that survive,
   * in order. A row survives iff its expiry is not before `now`, so one that
   * expires exactly now is kept.
   */
  function Live<T(!new)>(rows: seq<T>, expires: T -> int, now: int): (r: seq<T>)
    ensures |r| <= |rows|
    ensures forall x :: x in r <==> x in rows && expires(x) >= now
  {
    if rows == [] then []
    else
      assert forall x :: x in rows <==> x == rows[0] || x in rows[1..];
      (if expires(rows[0]) < now then [] else [rows[0]]) + Live(rows[1..], expires, now)
  }

  /** The rows that `deleteMany` removes, in order: exactly those whose expiry is before `now`. */
  function Expired<T(!new)>(rows: seq<T>, expires: T -> int, now: int): (r: seq<T>)
    ensures |r| <= |rows|
    ensures forall x :: x in r <==> x in rows && expires(x) < now
  {
    if rows == [] then []
    else
      assert forall x :: x in rows <==> x == rows[0] || x in rows[1..];
      (if expires(rows[0]) < now then [rows[0]] else []) + Expired(rows[1..], expires, now)
  }

  /** Survivors and removed rows split the table: nothing is lost and nothing is invented. */
  lemma {:induction false} LiveAndExpiredPartition<T(!new)>(rows: seq<T>, expires: T -> int, now: int)
    ensures multiset(Live(rows, expires, now)) + multiset(Expired(rows, expires, now)) == multiset(rows)
    ensures |Live(rows, expires, now)| + |Expired(rows, expires, now)| == |rows|
  {
    if rows != [] {
      LiveAndExpiredPartition(rows[1..], expires, now);
      assert rows == [rows[0]] + rows[1..];
    }
  }

  function TokenExpires(t: VerificationToken): int { t.expires }

  function SessionExpires(s: SessionRow): int { s.expires }

  function ResetMessage(count: nat): string {
    "Reset monthly analyses for " + Decimal(count) + " users"
  }

  const CleanupMessage := "Daily cleanup completed"
  const CleanupFailed := "Cleanup failed"

  /** `GET(request)` of the cleanup route. */
  method Get(db: Database, cronSecret: Option<string>, authHeader: Option<string>, now: Now, failure: Failure)
    returns (resp: Response)
    modifies db`users, db`verificationTokens, db`sessions
    ensures Unauthorized(cronSecret, authHeader) ==>
      && resp == Response(401, ErrorBody("Unauthorized"))
      && unchanged(db`users) && unchanged(db`verificationTokens) && unchanged(db`sessions)
    ensures !Unauthorized(cronSecret, authHeader) && now.dayOfMonth == 1 ==>
      && unchanged(db`verificationTokens) && unchanged(db`sessions)
      && (failure == FailOnReset ==>
            resp == Response(500, ErrorBody(CleanupFailed)) && unchanged(db`users))
      && (failure != FailOnReset ==>
            && db.users == ResetFree(old(db.users), now.millis)
            && resp == Response(200, ResetBody(ResetMessage(|FreeUsers(old(db.users))|), now.iso)))
    ensures !Unauthorized(cronSecret, authHeader) && now.dayOfMonth != 1 ==>
      && unchanged(db`users)
      && (failure == FailOnTokens ==>
            && resp == Response(500, ErrorBody(CleanupFailed))
            && unchanged(db`verificationTokens) && unchanged(db`sessions))
      && (failure == FailOnSessions ==>
            && resp == Response(500, ErrorBody(CleanupFailed))
            && db.verificationTokens == Live(old(db.verificationTokens), TokenExpires, now.millis)
            && unchanged(db`sessions))
      && (failure != FailOnTokens && failure != FailOnSessions ==>
            && db.verificationTokens == Live(old(db.verificationTokens), TokenExpires, now.millis)
            && db.sessions == Live(old(db.sessions), SessionExpires, now.millis)
            && resp == Response(200, CleanupBody(CleanupMessage,
                 |Expired(old(db.verificationTokens), TokenExpires, now.millis)|,
                 |Expired(old(db.sessions), SessionExpires, now.millis)|,
                 now.iso)))
  {
    if Unauthorized(cronSecret, authHeader) {
      return Response(401, ErrorBody("Unauthorized"));
    }
    if now.dayOfMonth == 1 {
      if failure == FailOnReset {
        return Response(500, ErrorBody(CleanupFailed));
      }
      var count := |FreeUsers(db.users)|;
      db.users := ResetFree(db.users, now.millis);
      return Response(200, ResetBody(ResetMessage(count), now.iso));
    }
    if failure == FailOnTokens {
      return Response(500, ErrorBody(CleanupFailed));
    }
    var tokensBefore := db.verificationTokens;
    db.verificationTokens := Live(tokensBefore, TokenExpires, now.millis);
    var deletedTokens := |tokensBefore| - |db.verificationTokens|;
    if failure == FailOnSessions {
      return Response(500, ErrorBody(CleanupFailed));
    }
    var sessionsBefore := db.sessions;
    db.sessions := Live(sessionsBefore, SessionExpires, now.millis);
    var deletedSessions := |sessionsBefore| - |db.sessions|;
    LiveAndExpiredPartition(tokensBefore, TokenExpires, now.millis);
    LiveAndExpiredPartition(sessionsBefore, SessionExpires, now.millis);
    return Response(200, CleanupBody(CleanupMessage, deletedTokens, deletedSessions, now.iso));
  }

  /** The reported counts are the numbers of rows that disappeared from each table. */
  lemma ReportedCountsAreRemovedRows(tokens: seq<VerificationToken>, sessions: seq<SessionRow>, now: int)
    ensures |Expired(tokens, TokenExpires, now)| == |tokens| - |Live(tokens, TokenExpires, now)|
    ensures |Expired(sessions, SessionExpires, now)| == |sessions| - |Live(sessions, SessionExpires, now)|
  {
    LiveAndExpiredPartition(tokens, TokenExpires, now);
    LiveAndExpiredPartition(sessions, SessionExpires, now);
  }

  /** With no secret configured, no request is refused. */
  lemma NoSecretNoCheck(authHeader: Option<string>)
    ensures !Unauthorized(None, authHeader) && !Unauthorized(Some(""), authHeader)
  {
  }

  /** With a secret configured, the request passes exactly when the header is `Bearer <secret>`. */
  lemma SecretCheckIsExact(secret: string, authHeader: Option<string>)
    requires secret != ""
    ensures !Unauthorized(Some(secret), authHeader) <==> authHeader == Some("Bearer " + secret)
  {
  }
}
