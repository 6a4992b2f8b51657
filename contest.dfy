/** Two contest handlers (src/web/api/contest.rs): the ranklist, which folds the
    contest's records into one entry per user and problem, and the update, which
    overwrites the fields a payload gives on the stored contest row. */
module Contest {
  import opened Prelude
  import opened Schema
  import opened Auth

  const ACCEPTED := "accepted"

  /** The ranklist entry of a user on a problem: the record's id, status and time. */
  datatype Entry = Entry(recordId: Uuid, status: string, time: DateTime)

  /** Entries by user, then by problem. */
  type Standings = map<Uuid, map<Uuid, Entry>>

  function EntryOf(m: RecordRow): Entry
  {
    Entry(m.id, m.status, m.time)
  }

  /** Whether record `m` replaces the stored entry `e` of its user and problem: an
      accepted entry gives way only to an accepted record with a strictly earlier time;
      any other entry gives way to a strictly later record or to any accepted one. */
  predicate Displaces(e: Entry, m: RecordRow)
  {
    if e.status == ACCEPTED then m.time < e.time && m.status == ACCEPTED
    else e.time < m.time || m.status == ACCEPTED
  }

  /** One iteration of the ranklist loop. */
  function Insert(records: Standings, m: RecordRow): Standings
  {
    var p := if m.userId in records then records[m.userId] else map[];
    var p' := if m.problemId in p && !Displaces(p[m.problemId], m) then p else p[m.problemId := EntryOf(m)];
    records[m.userId := p']
  }

  /** The ranklist of a sequence of records, folded in order. */
  function RanklistOf(models: seq<RecordRow>): Standings
  {
    if |models| == 0 then map[] else Insert(RanklistOf(models[..|models| - 1]), models[|models| - 1])
  }

  /** The loop of `contest_ranklist`, creating a user's map on first sight and then
      inserting or replacing the entry of the record's problem. */
  method Ranklist(models: seq<RecordRow>) returns (records: Standings)
    ensures records == RanklistOf(models)
  {
    records := map[];
    for i := 0 to |models|
      invariant records == RanklistOf(models[..i])
    {
      var model := models[i];
      var recordId, userId, problemId := model.id, model.userId, model.problemId;
      if userId !in records {
        records := records[userId := map[]];
      }
      var p := records[userId];
      if problemId in p {
        if p[problemId].status == ACCEPTED {
          if model.time < p[problemId].time && model.status == ACCEPTED {
            records := records[userId := p[problemId := Entry(recordId, model.status, model.time)]];
          }
        } else {
          if p[problemId].time < model.time || model.status == ACCEPTED {
            records := records[userId := p[problemId := Entry(recordId, model.status, model.time)]];
          }
        }
      } else {
        records := records[userId := p[problemId := Entry(recordId, model.status, model.time)]];
      }
      assert models[..i + 1][..i] == models[..i];
    }
    assert models[..|models|] == models;
  }

  /** `contest_ranklist`: any caller with a role in the contest gets the ranklist of
      the contest's records. */
  method ContestRanklist(contestId: Uuid, cookies: Cookies, db: Db, codec: Codec) returns (r: AppResult<Standings>)
    ensures r.Ok? <==> CheckRootOrAdminOrPlayerOfContest(contestId, cookies, db, codec).Ok? && ContestRecords !in db.faults
    ensures r.Ok? ==> r.value == RanklistOf(FindContestRecords(db, contestId).value)
    ensures !CheckRootOrAdminOrPlayerOfContest(contestId, cookies, db, codec).Ok? ==>
              r == Err(CheckRootOrAdminOrPlayerOfContest(contestId, cookies, db, codec).error)
    ensures CheckRootOrAdminOrPlayerOfContest(contestId, cookies, db, codec).Ok? && ContestRecords in db.faults ==>
              r == Err(DatabaseError(db.faults[ContestRecords]))
  {
    var caller := CheckRootOrAdminOrPlayerOfContest(contestId, cookies, db, codec);
    if caller.Err? {
      return Err(caller.error);
    }
    var models := FindContestRecords(db, contestId);
    if models.Err? {
      return Err(DatabaseError(models.error));
    }
    var records := Ranklist(models.value);
    r := Ok(records);
  }

  // ----- what the ranklist holds -----

  /** The records of user `u` on problem `p`, in order. */
  function Matching(models: seq<RecordRow>, u: Uuid, p: Uuid): (rs: seq<RecordRow>)
    ensures forall k | 0 <= k < |rs| :: rs[k] in models && rs[k].userId == u && rs[k].problemId == p
    ensures |rs| > 0 <==> exists k | 0 <= k < |models| :: models[k].userId == u && models[k].problemId == p
    ensures forall k | 0 <= k < |models| && models[k].userId == u && models[k].problemId == p :: models[k] in rs
  {
    if |models| == 0 then []
    else
      var last := models[|models| - 1];
      var rs := Matching(models[..|models| - 1], u, p);
      assert forall k | 0 <= k < |models| - 1 :: models[..|models| - 1][k] == models[k];
      rs + if last.userId == u && last.problemId == p then [last] else []
  }

  /** The entry the displacement rule settles on for records seen in this order. */
  function Best(rs: seq<RecordRow>): (e: Option<Entry>)
    ensures e.Some? <==> |rs| > 0
  {
    if |rs| == 0 then None
    else
      var m := rs[|rs| - 1];
      match Best(rs[..|rs| - 1])
      case None => Some(EntryOf(m))
      case Some(e) => Some(if Displaces(e, m) then EntryOf(m) else e)
  }

  /** The stored entry of user `u` on problem `p`, if any. */
  function EntryAt(records: Standings, u: Uuid, p: Uuid): Option<Entry>
  {
    if u in records && p in records[u] then Some(records[u][p]) else None
  }

  /** Inserting a record changes only the entry of its own user and problem, and adds
      only its own user. */
  lemma InsertTouchesOnePair(records: Standings, m: RecordRow, u: Uuid, p: Uuid)
    ensures u in Insert(records, m) <==> u in records || u == m.userId
    ensures (u, p) != (m.userId, m.problemId) ==> EntryAt(Insert(records, m), u, p) == EntryAt(records, u, p)
    ensures (u, p) == (m.userId, m.problemId) ==>
      EntryAt(Insert(records, m), u, p) ==
        match EntryAt(records, u, p)
        case None => Some(EntryOf(m))
        case Some(e) => Some(if Displaces(e, m) then EntryOf(m) else e)
  {
  }

  /** The ranklist has a user exactly when the user has a record, and under each user
      the entry the displacement rule picks from that user's records on the problem. */
  lemma {:induction false} RanklistIsBest(models: seq<RecordRow>, u: Uuid, p: Uuid)
    ensures u in RanklistOf(models) <==> exists k | 0 <= k < |models| :: models[k].userId == u
    ensures EntryAt(RanklistOf(models), u, p) == Best(Matching(models, u, p))
    decreases |models|
  {
    if |models| > 0 {
      var init := models[..|models| - 1];
      var m := models[|models| - 1];
      RanklistIsBest(init, u, p);
      InsertTouchesOnePair(RanklistOf(init), m, u, p);
      assert forall k | 0 <= k < |init| :: init[k] == models[k];
      var rs := Matching(init, u, p);
      if m.userId == u && m.problemId == p {
        assert (rs + [m])[..|rs|] == rs;
      } else {
        assert rs + [] == rs;
      }
    }
  }

  predicate IsAccepted(m: RecordRow)
  {
    m.status == ACCEPTED
  }

  predicate AnyAccepted(rs: seq<RecordRow>)
  {
    exists i | 0 <= i < |rs| :: IsAccepted(rs[i])
  }

  /** `rs[k]` is the record the ranklist keeps: with an accepted record among `rs`, the
      first accepted one of least time; otherwise the first one of greatest time. */
  predicate Chosen(rs: seq<RecordRow>, k: nat)
  {
    && k < |rs|
    && if AnyAccepted(rs) then
         && IsAccepted(rs[k])
         && (forall i | 0 <= i < |rs| && IsAccepted(rs[i]) :: rs[k].time <= rs[i].time)
         && (forall i | 0 <= i < k && IsAccepted(rs[i]) :: rs[k].time < rs[i].time)
       else
         && (forall i | 0 <= i < |rs| :: rs[i].time <= rs[k].time)
         && (forall i | 0 <= i < k :: rs[i].time < rs[k].time)
  }

  /** A record that does not displace the kept one leaves the choice where it was. */
  lemma ChosenKept(init: seq<RecordRow>, m: RecordRow, k: nat)
    requires Chosen(init, k) && !Displaces(EntryOf(init[k]), m)
    ensures Chosen(init + [m], k)
  {
    var rs := init + [m];
    assert forall i | 0 <= i < |init| :: rs[i] == init[i];
    if AnyAccepted(init) {
      var j :| 0 <= j < |init| && IsAccepted(init[j]);
      assert IsAccepted(rs[j]);
    } else {
      assert !IsAccepted(m);
    }
  }

  /** A record that displaces the kept one becomes the choice. */
  lemma ChosenReplaced(init: seq<RecordRow>, m: RecordRow, k: nat)
    requires Chosen(init, k) && Displaces(EntryOf(init[k]), m)
    ensures Chosen(init + [m], |init|)
  {
    var rs := init + [m];
    assert forall i | 0 <= i < |init| :: rs[i] == init[i];
    if AnyAccepted(init) {
      var j :| 0 <= j < |init| && IsAccepted(init[j]);
      assert IsAccepted(rs[j]);
    } else if IsAccepted(m) {
      assert IsAccepted(rs[|init|]);
    } else {
      assert !AnyAccepted(rs);
    }
  }

  /** The displacement rule keeps the earliest accepted record (first seen among equal
      times) when there is one, and otherwise the latest record (first seen among equal
      times). */
  lemma {:induction false} BestIsChosen(rs: seq<RecordRow>)
    requires |rs| > 0
    ensures exists k | 0 <= k < |rs| :: Chosen(rs, k) && Best(rs) == Some(EntryOf(rs[k]))
    decreases |rs|
  {
    var n := |rs| - 1;
    var init := rs[..n];
    var m := rs[n];
    assert rs == init + [m];
    if n == 0 {
      assert Chosen(rs, 0);
    } else {
      BestIsChosen(init);
      var k0 :| 0 <= k0 < n && Chosen(init, k0) && Best(init) == Some(EntryOf(init[k0]));
      if Displaces(EntryOf(init[k0]), m) {
        ChosenReplaced(init, m, k0);
        assert Chosen(rs, n) && Best(rs) == Some(EntryOf(rs[n]));
      } else {
        ChosenKept(init, m, k0);
        assert Chosen(rs, k0) && Best(rs) == Some(EntryOf(rs[k0]));
      }
    }
  }

  /** The ranklist has an entry for a user and problem exactly when the user has a
      record on the problem, and that entry is the one of the record the rule keeps. */
  lemma RanklistEntries(models: seq<RecordRow>, u: Uuid, p: Uuid)
    ensures var records := RanklistOf(models);
      u in records && p in records[u] <==> exists k | 0 <= k < |models| :: models[k].userId == u && models[k].problemId == p
    ensures var records := RanklistOf(models); var rs := Matching(models, u, p);
      u in records && p in records[u] ==> exists k | 0 <= k < |rs| :: Chosen(rs, k) && records[u][p] == EntryOf(rs[k])
  {
    RanklistIsBest(models, u, p);
    var rs := Matching(models, u, p);
    if |rs| > 0 {
      BestIsChosen(rs);
    }
  }

  /** Once a pair's entry is accepted, later records replace it only with an accepted
      record of strictly earlier time; a non-accepted entry gives way to any accepted record. */
  lemma AcceptedEntriesImproveOnly(records: Standings, m: RecordRow)
    requires m.userId in records && m.problemId in records[m.userId]
    ensures var e := records[m.userId][m.problemId];
            var e' := Insert(records, m)[m.userId][m.problemId];
      && (e.status == ACCEPTED && e' != e ==> e'.status == ACCEPTED && e'.time < e.time)
      && (e.status != ACCEPTED && m.status == ACCEPTED ==> e' == EntryOf(m))
      && (e.status != ACCEPTED && e.time < m.time ==> e' == EntryOf(m))
  {
  }

  // ----- contest_update -----

  /** The fields an update may give; absent fields are left alone. */
  datatype UpdatePayload = UpdatePayload(id: Uuid, nick: Option<string>, description: Option<string>,
                                         start: Option<DateTime>, end: Option<DateTime>)

  /** The row with the payload's fields written over it. */
  function Merged(row: ContestRow, p: UpdatePayload): ContestRow
  {
    ContestRow(row.id,
               if p.nick.Some? then p.nick.value else row.nick,
               if p.description.Some? then p.description.value else row.description,
               if p.start.Some? then p.start.value else row.start,
               if p.end.Some? then p.end.value else row.end)
  }

  /** An update that gives nothing leaves the row as it was, and applying the same
      update twice is the same as applying it once. */
  lemma MergedLaws(row: ContestRow, p: UpdatePayload)
    ensures p.nick.None? && p.description.None? && p.start.None? && p.end.None? ==> Merged(row, p) == row
    ensures Merged(Merged(row, p), p) == Merged(row, p)
    ensures Merged(row, p).id == row.id
    ensures p.nick.Some? ==> Merged(row, p).nick == p.nick.value
    ensures p.nick.None? ==> Merged(row, p).nick == row.nick
    ensures p.description.Some? ==> Merged(row, p).description == p.description.value
    ensures p.description.None? ==> Merged(row, p).description == row.description
    ensures p.start.Some? ==> Merged(row, p).start == p.start.value
    ensures p.start.None? ==> Merged(row, p).start == row.start
    ensures p.end.Some? ==> Merged(row, p).end == p.end.value
    ensures p.end.None? ==> Merged(row, p).end == row.end
  {
  }

  /** The ActiveModel of a contest: the stored row, with fields set one by one. */
  class ContestActiveModel {
    var id: Uuid
    var nick: string
    var description: string
    var start: DateTime
    var end: DateTime

    function Row(): ContestRow
      reads this
    {
      ContestRow(id, nick, description, start, end)
    }

    constructor (row: ContestRow)
      ensures Row() == row
    {
      id, nick, description, start, end := row.id, row.nick, row.description, row.start, row.end;
    }

    /** Set every field the payload gives. */
    method Apply(p: UpdatePayload)
      modifies this
      ensures Row() == Merged(old(Row()), p)
    {
      if p.nick.Some? {
        nick := p.nick.value;
      }
      if p.description.Some? {
        description := p.description.value;
      }
      if p.start.Some? {
        start := p.start.value;
      }
      if p.end.Some? {
        end := p.end.value;
      }
    }
  }

  /** The contest table after an update of `row` by its primary key. */
  function Replaced(contests: seq<ContestRow>, row: ContestRow): (r: seq<ContestRow>)
  {
    seq(|contests|, k requires 0 <= k < |contests| => if contests[k].id == row.id then row else contests[k])
  }

  /** The result and the database after `contest_update`. */
  function ContestUpdateSpec(p: UpdatePayload, cookies: Cookies, db: Db, codec: Codec): (AppResult<()>, Db)
  {
    match CheckRoot(cookies, db, codec)
    case Err(e) => (Err(e), db)
    case Ok(_) =>
      match FindContest(db, p.id)
      case Err(e) => (Err(DatabaseError(e)), db)
      case Ok(None) => (Err(NotFound(None)), db)
      case Ok(Some(row)) =>
        if UpdateContest in db.faults then (Err(DatabaseError(db.faults[UpdateContest])), db)
        else (Ok(()), db.(contests := Replaced(db.contests, Merged(row, p))))
  }

  /** `contest_update`: root only; the stored contest gets the payload's fields. */
  method ContestUpdate(p: UpdatePayload, cookies: Cookies, db: Db, codec: Codec) returns (r: AppResult<()>, db': Db)
    ensures (r, db') == ContestUpdateSpec(p, cookies, db, codec)
  {
    var caller := CheckRoot(cookies, db, codec);
    if caller.Err? {
      return Err(caller.error), db;
    }
    var found := FindContest(db, p.id);
    if found.Err? {
      return Err(DatabaseError(found.error)), db;
    }
    if found.value.None? {
      return Err(NotFound(None)), db;
    }
    var model := new ContestActiveModel(found.value.value);
    model.Apply(p);
    if UpdateContest in db.faults {
      return Err(DatabaseError(db.faults[UpdateContest])), db;
    }
    r, db' := Ok(()), db.(contests := Replaced(db.contests, model.Row()));
  }

  /** Only root updates; a failed update changes nothing; a successful one rewrites the
      row with the payload's id, field by field as the payload gives, and nothing else. */
  lemma UpdateEffect(p: UpdatePayload, cookies: Cookies, db: Db, codec: Codec)
    ensures var (r, db') := ContestUpdateSpec(p, cookies, db, codec);
      && (r.Ok? ==> CheckRoot(cookies, db, codec).Ok?)
      && (r.Err? ==> db' == db)
      && (r.Ok? ==> exists k | 0 <= k < |db.contests| :: db.contests[k].id == p.id)
      && (r.Ok? ==> db'.users == db.users && db'.privileges == db.privileges && db'.problems == db.problems
                    && db'.records == db.records && |db'.contests| == |db.contests|)
      && (r.Ok? ==> forall k | 0 <= k < |db.contests| ::
            db'.contests[k] == if db.contests[k].id == p.id then Merged(FindContest(db, p.id).value.value, p) else db.contests[k])
  {
    var (r, db') := ContestUpdateSpec(p, cookies, db, codec);
    if r.Ok? {
      var row := FindContest(db, p.id).value.value;
      var i :| 0 <= i < |db.contests| && db.contests[i] == row && row.id == p.id;
    }
  }
}
