/**
 * The Prisma tables the FIXO server code touches, as one in-memory database.
 * Row identifiers that Prisma generates are replaced by each table's unique
 * key: users keep a generated id (supplied by the caller when a row is
 * created), categories and repairs are identified by their slug, and an
 * issue by its repair's slug and its own slug. Steps and tools are stored per
 * issue, in creation order.
 */
module Store {
  import opened Wrappers

  datatype UserRow = UserRow(
    email: Option<string>,
    name: Option<string>,
    image: Option<string>,
    plan: string,
    monthlyAnalysesUsed: int,
    monthlyAnalysesLimit: int,
    analysesResetDate: Option<int>)

  datatype VerificationToken = VerificationToken(identifier: string, token: string, expires: int)

  datatype SessionRow = SessionRow(sessionToken: string, userId: string, expires: int)

  datatype CategoryRow = CategoryRow(name: string, icon: string, description: string)

  /** `categoryId` holds the slug of the category row. */
  datatype RepairRow = RepairRow(name: string, icon: Option<string>, categoryId: string)

  datatype Difficulty = VeryEasy | Easy | Medium | Hard | VeryHard

  datatype IssueRow = IssueRow(
    name: string,
    description: Option<string>,
    riskScore: int,
    difficulty: Difficulty,
    timeEstimate: int,
    safetyWarnings: seq<string>)

  datatype StepRow = StepRow(stepNumber: int, action: string, time: string, icon: string, hint: Option<string>)

  /** (repair slug, issue slug). */
  type IssueKey = (string, string)

  class Database {
    var users: map<string, UserRow>
    var verificationTokens: seq<VerificationToken>
    var sessions: seq<SessionRow>
    var categories: map<string, CategoryRow>
    var repairs: map<string, RepairRow>
    var issues: map<IssueKey, IssueRow>
    var steps: map<IssueKey, seq<StepRow>>
    var tools: map<IssueKey, seq<string>>

    constructor ()
      ensures users == map[] && verificationTokens == [] && sessions == []
      ensures categories == map[] && repairs == map[] && issues == map[] && steps == map[] && tools == map[]
    {
      users := map[];
      verificationTokens := [];
      sessions := [];
      categories := map[];
      repairs := map[];
      issues := map[];
      steps := map[];
      tools := map[];
    }
  }

  /** The `email` column is unique. */
  ghost predicate UniqueEmails(users: map<string, UserRow>) {
    forall a, b :: a in users && b in users && a != b && users[a].email.Some? ==> users[a].email != users[b].email
  }

  predicate HasEmail(users: map<string, UserRow>, email: string) {
    exists id :: id in users && users[id].email == Some(email)
  }

  /**
   * `prisma.user.upsert({ where: { email }, update: {}, create })`: an
   * existing row is left as it is; otherwise `create` is stored under the id
   * the database hands out.
   */
  method UpsertUserByEmail(db: Database, email: string, create: UserRow, freshId: string) returns (id: string)
    requires freshId !in db.users && create.email == Some(email)
    modifies db`users
    ensures id in db.users && db.users[id].email == Some(email)
    ensures HasEmail(old(db.users), email) ==> db.users == old(db.users)
    ensures !HasEmail(old(db.users), email) ==> db.users == old(db.users)[freshId := create] && id == freshId
    ensures UniqueEmails(old(db.users)) ==> UniqueEmails(db.users)
  {
    if HasEmail(db.users, email) {
      id :| id in db.users && db.users[id].email == Some(email);
    } else {
      db.users := db.users[freshId := create];
      id := freshId;
    }
  }
}
