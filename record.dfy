/** Reading a judged submission (`record_read`, src/web/api/record.rs): the record and
    its problem are looked up, the caller must hold a role in the problem's contest,
    and while the contest flag is raised a player may read only their own records, and
    only during the contest. The clock is the parameter `now`. */
module Record {
  import opened Prelude
  import opened Schema
  import opened Auth

  datatype RecordFeedback = RecordFeedback(time: DateTime, userId: Uuid, problemId: Uuid, code: string,
                                           language: string, result: string, status: string)

  function FeedbackOf(m: RecordRow): RecordFeedback
  {
    RecordFeedback(m.time, m.userId, m.problemId, m.code, m.language, m.result, m.status)
  }

  /** The flag: some contest has `start >= now` and `end < now`; a failed query lowers it. */
  function ContestFlag(db: Db, now: DateTime): bool
  {
    match FindOpenContest(db, now)
    case Ok(found) => found.Some?
    case Err(_) => false
  }

  /** The restriction applied while the flag is raised, to a caller of the given role. */
  function Restrict(m: RecordRow, contest: Option<ContestRow>, role: Result<Uuid, Result<Uuid, Uuid>>, now: DateTime): AppResult<()>
  {
    match contest
    case None => Err(Forbidden(None))
    case Some(c) =>
      match role
      case Ok(_) => Ok(())
      case Err(Ok(_)) => Ok(())
      case Err(Err(playerId)) =>
        if m.userId != playerId then Err(Forbidden(None))
        else if now < c.start then Err(Forbidden(None))
        else if c.end < now then Err(Forbidden(None))
        else Ok(())
  }

  /** `record_read` for the record `id`. */
  function RecordRead(id: Uuid, now: DateTime, cookies: Cookies, db: Db, codec: Codec): AppResult<RecordFeedback>
  {
    match FromDb(FindRecord(db, id))
    case Err(e) => Err(e)
    case Ok(found) =>
      match Found(found)
      case Err(e) => Err(e)
      case Ok(m) =>
        match FindProblem(db, m.problemId)
        case Err(e) => Err(DatabaseError(e))
        case Ok(None) => Err(Forbidden(None))
        case Ok(Some(problem)) =>
          match TestRootOrAdminOrPlayerOfContest(problem.contestId, cookies, db, codec)
          case Err(e) => Err(e)
          case Ok(role) =>
            if !ContestFlag(db, now) then Ok(FeedbackOf(m))
            else match FromDb(FindContest(db, problem.contestId))
              case Err(e) => Err(e)
              case Ok(contest) =>
                match Restrict(m, contest, role, now)
                case Err(e) => Err(e)
                case Ok(_) => Ok(FeedbackOf(m))
  }

  // ----- properties -----

  /** The flag is raised exactly when a contest ends before `now` yet starts at or after
      it, and the query succeeds. */
  lemma FlagExactly(db: Db, now: DateTime)
    ensures ContestFlag(db, now) <==>
      OpenContest !in db.faults &&
      exists k | 0 <= k < |db.contests| :: db.contests[k].start >= now && db.contests[k].end < now
  {
    if OpenContest !in db.faults {
      var f := FindOpenContest(db, now);
      if f.value.Some? {
        var i :| 0 <= i < |db.contests| && db.contests[i] == f.value.value &&
                 (db.contests[i].start >= now && db.contests[i].end < now);
      }
    }
  }

  /** A contest whose start is not after its end never raises the flag. */
  lemma OrderedContestsKeepFlagDown(db: Db, now: DateTime)
    requires forall k | 0 <= k < |db.contests| :: db.contests[k].start <= db.contests[k].end
    ensures !ContestFlag(db, now)
  {
    FlagExactly(db, now);
  }

  /** A record whose problem is missing is Forbidden, whoever asks. */
  lemma MissingProblemForbidden(id: Uuid, now: DateTime, cookies: Cookies, db: Db, codec: Codec, m: RecordRow)
    requires FindRecord(db, id) == Ok(Some(m))
    requires FindProblem(db, m.problemId) == Ok(None)
    ensures RecordRead(id, now, cookies, db, codec) == Err(Forbidden(None))
  {
  }

  /** Whatever is returned is the stored record, field for field. */
  lemma ReadReturnsTheRecord(id: Uuid, now: DateTime, cookies: Cookies, db: Db, codec: Codec)
    ensures RecordRead(id, now, cookies, db, codec).Ok? ==>
      exists k | 0 <= k < |db.records| :: db.records[k].id == id &&
        RecordRead(id, now, cookies, db, codec).value == FeedbackOf(db.records[k])
    ensures RecordFound(db, id) && RecordRead(id, now, cookies, db, codec).Err? ==>
              !RecordRead(id, now, cookies, db, codec).error.NotFound?
    ensures !RecordFound(db, id) && RecordById !in db.faults ==> RecordRead(id, now, cookies, db, codec) == Err(NotFound(None))
  {
    var f := FindRecord(db, id);
    if RecordFound(db, id) {
      var k :| 0 <= k < |db.records| && db.records[k].id == id;
      assert f.value.Some?;
    }
    if f.Ok? && f.value.Some? {
      var i :| 0 <= i < |db.records| && db.records[i] == f.value.value && db.records[i].id == id &&
        forall k | 0 <= k < i :: db.records[k].id != id;
    }
  }

  /** Some record has the id. */
  predicate RecordFound(db: Db, id: Uuid)
  {
    RecordById !in db.faults && exists k | 0 <= k < |db.records| :: db.records[k].id == id
  }

  /** With the flag down, every caller with a role in the contest reads the record. */
  lemma FlagDownAnyRole(id: Uuid, now: DateTime, cookies: Cookies, db: Db, codec: Codec,
                                           m: RecordRow, p: ProblemRow)
    requires FindRecord(db, id) == Ok(Some(m)) && FindProblem(db, m.problemId) == Ok(Some(p))
    requires TestRootOrAdminOrPlayerOfContest(p.contestId, cookies, db, codec).Ok?
    requires !ContestFlag(db, now)
    ensures RecordRead(id, now, cookies, db, codec) == Ok(FeedbackOf(m))
  {
  }

  /** With the flag raised, root and admins read any record of the contest, a player
      only their own and only while the contest runs, and nobody reads a record whose
      contest is missing. */
  lemma FlagUpRoles(id: Uuid, now: DateTime, cookies: Cookies, db: Db, codec: Codec,
                                       m: RecordRow, p: ProblemRow)
    requires FindRecord(db, id) == Ok(Some(m)) && FindProblem(db, m.problemId) == Ok(Some(p))
    requires TestRootOrAdminOrPlayerOfContest(p.contestId, cookies, db, codec).Ok?
    requires ContestFlag(db, now)
    requires ContestById !in db.faults
    ensures var role := TestRootOrAdminOrPlayerOfContest(p.contestId, cookies, db, codec).value;
            var c := FindContest(db, p.contestId).value;
            var r := RecordRead(id, now, cookies, db, codec);
      && (c.None? ==> r == Err(Forbidden(None)))
      && (c.Some? && (role.Ok? || role.error.Ok?) ==> r == Ok(FeedbackOf(m)))
      && (c.Some? && role.Err? && role.error.Err? ==>
            (r == Ok(FeedbackOf(m)) <==> m.userId == role.error.error && c.value.start <= now <= c.value.end))
      && (r.Err? ==> r == Err(Forbidden(None)))
  {
  }

  /** A player reads another user's record only while the flag is down. */
  lemma PlayerReadsOthersOnlyWithFlagDown(id: Uuid, now: DateTime, cookies: Cookies, db: Db, codec: Codec,
                                                             m: RecordRow, p: ProblemRow, playerId: Uuid)
    requires FindRecord(db, id) == Ok(Some(m)) && FindProblem(db, m.problemId) == Ok(Some(p))
    requires TestRootOrAdminOrPlayerOfContest(p.contestId, cookies, db, codec) == Ok(Err(Err(playerId)))
    requires m.userId != playerId
    ensures RecordRead(id, now, cookies, db, codec).Ok? <==> !ContestFlag(db, now)
  {
    if ContestFlag(db, now) {
      var c := FromDb(FindContest(db, p.contestId));
      assert c.Ok? ==> Restrict(m, c.value, Err(Err(playerId)), now).Err?;
    }
  }
}
