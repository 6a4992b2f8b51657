/** The database as the web handlers see it: the rows of the user, privilege,
    contest, problem and record tables, in the order a query returns them, and the
    queries the handlers issue. A query either fails with a database error or returns
    the first matching row (`.one(conn)`) or all of them (`.all(conn)`). Which queries
    fail is part of the state, so every error path of a handler can be reached. */
module Schema {
  import opened Machine
  import opened Prelude

  /** A user: the password column holds the SHA-256 digest of the password; `banned`
      and `root` are integer flags. */
  datatype UserRow = UserRow(id: Uuid, name: string, password: seq<Byte>, banned: int, root: int)

  /** A privilege of a user in a contest; `kind` is "admin" or "player". */
  datatype PrivilegeRow = PrivilegeRow(id: Uuid, userId: Uuid, contestId: Uuid, kind: string)

  datatype ContestRow = ContestRow(id: Uuid, nick: string, description: string, start: DateTime, end: DateTime)

  /** A problem, by the columns the modelled handlers read. */
  datatype ProblemRow = ProblemRow(id: Uuid, contestId: Uuid)

  /** A submission and its judged outcome. */
  datatype RecordRow = RecordRow(id: Uuid, time: DateTime, userId: Uuid, problemId: Uuid,
                                 code: string, language: string, result: string, status: string)

  /** The queries issued by the modelled handlers. */
  datatype Query =
    | AnyUser            // user::Entity::find()
    | UserById           // user::Entity::find_by_id
    | PrivilegeOf        // privilege::Entity::find() filtered by contest, user (and kind)
    | ProblemById
    | RecordById
    | ContestById
    | OpenContest        // contests with start >= now and end < now
    | ContestRecords     // records joined with their problem and contest
    | UpdateContest      // ActiveModel::update of a contest

  datatype Db = Db(
    users: seq<UserRow>,
    privileges: seq<PrivilegeRow>,
    contests: seq<ContestRow>,
    problems: seq<ProblemRow>,
    records: seq<RecordRow>,
    faults: map<Query, DbErr>)

  /** The index of the first row satisfying `p`, if any. */
  function FirstIndex<T>(rows: seq<T>, p: T -> bool): (r: Option<nat>)
    ensures r.Some? ==> r.value < |rows| && p(rows[r.value])
    ensures r.Some? ==> forall k | 0 <= k < r.value :: !p(rows[k])
    ensures r.None? ==> forall k | 0 <= k < |rows| :: !p(rows[k])
  {
    if |rows| == 0 then None
    else if p(rows[0]) then Some(0)
    else match FirstIndex(rows[1..], p)
      case None => None
      case Some(i) => Some(i + 1)
  }

  /** The first row satisfying `p`, as `.one(conn)` returns it. */
  function First<T>(rows: seq<T>, p: T -> bool): (r: Option<T>)
    ensures r.None? <==> forall k | 0 <= k < |rows| :: !p(rows[k])
    ensures r.Some? ==> exists i | 0 <= i < |rows| :: rows[i] == r.value && p(rows[i]) && forall k | 0 <= k < i :: !p(rows[k])
  {
    match FirstIndex(rows, p)
    case None => None
    case Some(i) => Some(rows[i])
  }

  /** A `.one(conn)` query: its error if it fails, otherwise the first matching row. */
  function One<T>(db: Db, q: Query, rows: seq<T>, p: T -> bool): (r: Result<Option<T>, DbErr>)
    ensures r.Err? <==> q in db.faults
    ensures r.Ok? ==> r.value == First(rows, p)
  {
    if q in db.faults then Err(db.faults[q]) else Ok(First(rows, p))
  }

  /** `user::Entity::find().one(conn)`: the first user of the table, with no filter. */
  function FindAnyUser(db: Db): Result<Option<UserRow>, DbErr>
  {
    One(db, AnyUser, db.users, (u: UserRow) => true)
  }

  function FindUser(db: Db, id: Uuid): Result<Option<UserRow>, DbErr>
  {
    One(db, UserById, db.users, (u: UserRow) => u.id == id)
  }

  /** The first privilege of `userId` in `contestId`, of the given kind when one is
      given; the `LIKE` filters on ids and kinds are equality tests. */
  function FindPrivilege(db: Db, contestId: Uuid, userId: Uuid, kind: Option<string>): Result<Option<PrivilegeRow>, DbErr>
  {
    One(db, PrivilegeOf, db.privileges,
        (x: PrivilegeRow) => x.contestId == contestId && x.userId == userId && (kind.None? || x.kind == kind.value))
  }

  function FindProblem(db: Db, id: Uuid): Result<Option<ProblemRow>, DbErr>
  {
    One(db, ProblemById, db.problems, (x: ProblemRow) => x.id == id)
  }

  function FindRecord(db: Db, id: Uuid): Result<Option<RecordRow>, DbErr>
  {
    One(db, RecordById, db.records, (x: RecordRow) => x.id == id)
  }

  function FindContest(db: Db, id: Uuid): Result<Option<ContestRow>, DbErr>
  {
    One(db, ContestById, db.contests, (x: ContestRow) => x.id == id)
  }

  /** A contest with `start >= now` and `end < now`. */
  function FindOpenContest(db: Db, now: DateTime): Result<Option<ContestRow>, DbErr>
  {
    One(db, OpenContest, db.contests, (x: ContestRow) => x.start >= now && x.end < now)
  }

  /** A record belongs to a contest when its problem does and that contest exists
      (the two inner joins of the ranklist query). */
  predicate InContest(db: Db, contestId: Uuid, r: RecordRow)
  {
    && (exists k | 0 <= k < |db.problems| :: db.problems[k].id == r.problemId && db.problems[k].contestId == contestId)
    && (exists k | 0 <= k < |db.contests| :: db.contests[k].id == contestId)
  }

  /** The records of a contest, in table order. */
  function FindContestRecords(db: Db, contestId: Uuid): (r: Result<seq<RecordRow>, DbErr>)
    ensures r.Err? <==> ContestRecords in db.faults
    ensures r.Ok? ==> forall k | 0 <= k < |r.value| :: r.value[k] in db.records && InContest(db, contestId, r.value[k])
    ensures r.Ok? ==> forall x | x in db.records && InContest(db, contestId, x) :: x in r.value
  {
    if ContestRecords in db.faults then Err(db.faults[ContestRecords])
    else Ok(Filter(db.records, (x: RecordRow) => InContest(db, contestId, x)))
  }

  /** The elements of `s` satisfying `p`, in order. */
  function Filter<T>(s: seq<T>, p: T -> bool): (r: seq<T>)
    ensures |r| <= |s|
    ensures forall k | 0 <= k < |r| :: r[k] in s && p(r[k])
    ensures forall k | 0 <= k < |s| :: p(s[k]) ==> s[k] in r
  {
    if |s| == 0 then []
    else (if p(s[0]) then [s[0]] else []) + Filter(s[1..], p)
  }
}
