/** Logins and the access checks of the web layer (src/web/api/auth.rs). A caller is
    identified by the `session` cookie, the JSON text of a Session; every check parses
    it, looks the user up by id, compares the SHA-256 digest of the session's password
    with the stored one, and rejects a user whose `banned` flag is 0. SHA-256 and the
    JSON codec are parameters gathered in a Codec. */
module Auth {
  import opened Machine
  import opened Prelude
  import opened Schema

  datatype Session = Session(id: Uuid, password: string)

  /** The foreign functions the checks call: SHA-256 of a text, and the serde_json
      parse and rendering of a Session. */
  datatype Codec = Codec(sha256: string -> seq<Byte>, parse: string -> Option<Session>, render: Session -> string)

  /** The request's cookies, by name. */
  type Cookies = map<string, string>

  const SESSION := "session"

  datatype LoginPayload = LoginPayload(name: string, password: string)

  datatype LoginFeedback = LoginOk | LoginErr(message: string)

  /** What a caller must present to pass the common part of every check: a parseable
      session cookie naming a stored user, the right password, and `banned != 0`. */
  predicate Authentic(cookies: Cookies, db: Db, codec: Codec, s: Session, u: UserRow)
  {
    && SESSION in cookies
    && codec.parse(cookies[SESSION]) == Some(s)
    && FindUser(db, s.id) == Ok(Some(u))
    && codec.sha256(s.password) == u.password
    && u.banned != 0
  }

  /** The prefix shared by the `check_*` functions: the session and its user, or the
      error the `?` operators return. */
  function Authenticate(cookies: Cookies, db: Db, codec: Codec): (r: AppResult<(Session, UserRow)>)
    ensures r.Ok? ==> Authentic(cookies, db, codec, r.value.0, r.value.1)
    ensures r.Err? ==> r.error == Forbidden(None) || r.error.DatabaseError?
  {
    match Allow(if SESSION in cookies then Some(cookies[SESSION]) else None)
    case Err(e) => Err(e)
    case Ok(text) =>
      match Allow(codec.parse(text))
      case Err(e) => Err(e)
      case Ok(session) =>
        match FromDb(FindUser(db, session.id))
        case Err(e) => Err(e)
        case Ok(found) =>
          match Allow(found)
          case Err(e) => Err(e)
          case Ok(model) =>
            if codec.sha256(session.password) != model.password then Err(Forbidden(None))
            else if model.banned == 0 then Err(Forbidden(None))
            else Ok((session, model))
  }

  /** Authentication succeeds exactly for an authentic session, and fails with a
      database error exactly when the user lookup fails. */
  lemma AuthenticateExactly(cookies: Cookies, db: Db, codec: Codec, s: Session, u: UserRow)
    ensures Authenticate(cookies, db, codec) == Ok((s, u)) <==> Authentic(cookies, db, codec, s, u)
    ensures Authenticate(cookies, db, codec).Err? && Authenticate(cookies, db, codec).error.DatabaseError? <==>
              SESSION in cookies && codec.parse(cookies[SESSION]).Some? && UserById in db.faults
  {
    if Authentic(cookies, db, codec, s, u) {
      assert FindUser(db, s.id) == Ok(Some(u));
    }
  }

  /** The prefix shared by the `test_*` functions, where every failure is `Err(())`. */
  function TestAuthenticate(cookies: Cookies, db: Db, codec: Codec): (r: Result<(Session, UserRow), ()>)
  {
    if SESSION !in cookies then Err(())
    else match codec.parse(cookies[SESSION])
      case None => Err(())
      case Some(session) =>
        match FindUser(db, session.id)
        case Err(_) => Err(())
        case Ok(None) => Err(())
        case Ok(Some(model)) =>
          if codec.sha256(session.password) != model.password then Err(())
          else if model.banned == 0 then Err(())
          else Ok((session, model))
  }

  /** `test_user`: the session's id for any authentic session; the root flag changes nothing. */
  function TestUser(cookies: Cookies, db: Db, codec: Codec): Result<Uuid, ()>
  {
    match TestAuthenticate(cookies, db, codec)
    case Err(_) => Err(())
    case Ok((session, model)) => if model.root != 0 then Ok(session.id) else Ok(session.id)
  }

  /** `check_user`. */
  function CheckUser(cookies: Cookies, db: Db, codec: Codec): AppResult<Uuid>
  {
    match Authenticate(cookies, db, codec)
    case Err(e) => Err(e)
    case Ok((session, model)) => if model.root != 0 then Ok(session.id) else Ok(session.id)
  }

  /** `test_root`: written like `test_user`, so it does not require the root flag. */
  function TestRoot(cookies: Cookies, db: Db, codec: Codec): Result<Uuid, ()>
  {
    match TestAuthenticate(cookies, db, codec)
    case Err(_) => Err(())
    case Ok((session, model)) => if model.root != 0 then Ok(session.id) else Ok(session.id)
  }

  /** `check_root`. */
  function CheckRoot(cookies: Cookies, db: Db, codec: Codec): AppResult<Uuid>
  {
    match Authenticate(cookies, db, codec)
    case Err(e) => Err(e)
    case Ok((session, model)) => if model.root != 0 then Ok(session.id) else Err(Forbidden(None))
  }

  /** The contest checks: root passes; anyone else needs a privilege row in the contest,
      of the given kind when one is named. */
  function CheckRootOrPrivilege(contestId: Uuid, kind: Option<string>, cookies: Cookies, db: Db, codec: Codec): AppResult<Uuid>
  {
    match Authenticate(cookies, db, codec)
    case Err(e) => Err(e)
    case Ok((session, model)) =>
      if model.root != 0 then Ok(session.id)
      else match FromDb(FindPrivilege(db, contestId, model.id, kind))
        case Err(e) => Err(e)
        case Ok(x) =>
          match Allow(x)
          case Err(e) => Err(e)
          case Ok(_) => Ok(session.id)
  }

  /** `check_root_or_admin_of_contest`. */
  function CheckRootOrAdminOfContest(contestId: Uuid, cookies: Cookies, db: Db, codec: Codec): AppResult<Uuid>
  {
    CheckRootOrPrivilege(contestId, Some("admin"), cookies, db, codec)
  }

  /** `check_root_or_player_of_contest`. */
  function CheckRootOrPlayerOfContest(contestId: Uuid, cookies: Cookies, db: Db, codec: Codec): AppResult<Uuid>
  {
    CheckRootOrPrivilege(contestId, Some("player"), cookies, db, codec)
  }

  /** `check_root_or_admin_or_player_of_contest`: any privilege row in the contest will do. */
  function CheckRootOrAdminOrPlayerOfContest(contestId: Uuid, cookies: Cookies, db: Db, codec: Codec): AppResult<Uuid>
  {
    CheckRootOrPrivilege(contestId, None, cookies, db, codec)
  }

  /** `test_root_or_admin_or_player_of_contest`: `Ok(id)` for root, `Err(Ok(id))` when
      the first privilege row in the contest is an admin row, `Err(Err(id))` for any
      other kind. */
  function TestRootOrAdminOrPlayerOfContest(contestId: Uuid, cookies: Cookies, db: Db, codec: Codec): AppResult<Result<Uuid, Result<Uuid, Uuid>>>
  {
    match Authenticate(cookies, db, codec)
    case Err(e) => Err(e)
    case Ok((session, model)) =>
      if model.root != 0 then Ok(Ok(session.id))
      else match FromDb(FindPrivilege(db, contestId, model.id, None))
        case Err(e) => Err(e)
        case Ok(found) =>
          match Allow(found)
          case Err(e) => Err(e)
          case Ok(x) => if x.kind == "admin" then Ok(Err(Ok(session.id))) else Ok(Err(Err(session.id)))
  }

  /** `auth_login`: the feedback, and the value of the session cookie it sets, if any. */
  function AuthLogin(payload: LoginPayload, db: Db, codec: Codec): AppResult<(LoginFeedback, Option<string>)>
  {
    match FromDb(FindAnyUser(db))
    case Err(e) => Err(e)
    case Ok(found) =>
      match Found(found)
      case Err(e) => Err(e)
      case Ok(model) =>
        if codec.sha256(payload.password) != model.password then Ok((LoginErr("incorrect password"), None))
        else if model.banned == 0 then Ok((LoginErr("account is banned"), None))
        else Ok((LoginOk, Some(codec.render(Session(model.id, payload.password)))))
  }

  // ----- properties -----

  /** `test_user` and `check_user` accept the same callers with the same id; where
      `check_user` refuses, it is Forbidden or a database error. */
  lemma TestAndCheckUserAgree(cookies: Cookies, db: Db, codec: Codec)
    ensures TestUser(cookies, db, codec) == ResultAsUnit(CheckUser(cookies, db, codec))
    ensures CheckUser(cookies, db, codec).Ok? <==>
              exists s, u :: Authentic(cookies, db, codec, s, u)
    ensures forall s, u | Authentic(cookies, db, codec, s, u) :: CheckUser(cookies, db, codec) == Ok(s.id)
    ensures CheckUser(cookies, db, codec).Err? ==>
              CheckUser(cookies, db, codec).error == Forbidden(None) || CheckUser(cookies, db, codec).error.DatabaseError?
  {
    forall s, u | Authentic(cookies, db, codec, s, u) ensures CheckUser(cookies, db, codec) == Ok(s.id) {
      AuthenticateExactly(cookies, db, codec, s, u);
    }
    var a := Authenticate(cookies, db, codec);
    if a.Ok? {
      assert Authentic(cookies, db, codec, a.value.0, a.value.1);
    }
    if exists s, u :: Authentic(cookies, db, codec, s, u) {
      var s, u :| Authentic(cookies, db, codec, s, u);
      AuthenticateExactly(cookies, db, codec, s, u);
    }
  }

  /** A result with its error forgotten. */
  function ResultAsUnit<T>(r: AppResult<T>): (q: Result<T, ()>)
    ensures q.Ok? <==> r.Ok?
    ensures q.Ok? ==> q.value == r.value
  {
    match r
    case Ok(x) => Ok(x)
    case Err(_) => Err(())
  }

  /** `test_root` accepts exactly the callers `test_user` accepts, root or not. */
  lemma TestRootIgnoresRootFlag(cookies: Cookies, db: Db, codec: Codec)
    ensures TestRoot(cookies, db, codec) == TestUser(cookies, db, codec)
    ensures TestRoot(cookies, db, codec).Ok? <==> exists s, u :: Authentic(cookies, db, codec, s, u)
  {
    TestAndCheckUserAgree(cookies, db, codec);
  }

  /** `check_root` accepts exactly the authentic callers whose root flag is non-zero,
      with the id `check_user` gives. */
  lemma CheckRootNeedsRoot(cookies: Cookies, db: Db, codec: Codec)
    ensures CheckRoot(cookies, db, codec).Ok? <==>
              exists s, u :: Authentic(cookies, db, codec, s, u) && u.root != 0
    ensures CheckRoot(cookies, db, codec).Ok? ==> CheckRoot(cookies, db, codec) == CheckUser(cookies, db, codec)
    ensures CheckUser(cookies, db, codec).Ok? && !CheckRoot(cookies, db, codec).Ok? ==>
              CheckRoot(cookies, db, codec) == Err(Forbidden(None))
  {
    var a := Authenticate(cookies, db, codec);
    if a.Ok? {
      assert Authentic(cookies, db, codec, a.value.0, a.value.1);
    }
    if exists s, u :: Authentic(cookies, db, codec, s, u) && u.root != 0 {
      var s, u :| Authentic(cookies, db, codec, s, u) && u.root != 0;
      AuthenticateExactly(cookies, db, codec, s, u);
    }
  }

  /** A non-root caller passes a contest check exactly when a privilege row of theirs
      in that contest (of the named kind) exists; the id returned is the session's. */
  lemma PrivilegeCheck(contestId: Uuid, kind: Option<string>, cookies: Cookies, db: Db, codec: Codec, s: Session, u: UserRow)
    requires Authentic(cookies, db, codec, s, u)
    requires PrivilegeOf !in db.faults
    ensures u.root != 0 ==> CheckRootOrPrivilege(contestId, kind, cookies, db, codec) == Ok(s.id)
    ensures u.root == 0 ==>
      (CheckRootOrPrivilege(contestId, kind, cookies, db, codec) == Ok(s.id) <==>
       exists k | 0 <= k < |db.privileges| ::
         db.privileges[k].contestId == contestId && db.privileges[k].userId == s.id &&
         (kind.None? || db.privileges[k].kind == kind.value))
    ensures !CheckRootOrPrivilege(contestId, kind, cookies, db, codec).Ok? ==>
              CheckRootOrPrivilege(contestId, kind, cookies, db, codec) == Err(Forbidden(None))
  {
    AuthenticateExactly(cookies, db, codec, s, u);
    FoundUserHasId(db, s, u);
  }

  /** The user found by id carries that id. */
  lemma FoundUserHasId(db: Db, s: Session, u: UserRow)
    requires FindUser(db, s.id) == Ok(Some(u))
    ensures u.id == s.id
  {
  }

  /** `test_root_or_admin_or_player_of_contest` tells root from admin from player, and
      accepts the callers `check_root_or_admin_or_player_of_contest` accepts. */
  lemma RoleOfCaller(contestId: Uuid, cookies: Cookies, db: Db, codec: Codec, s: Session, u: UserRow)
    requires Authentic(cookies, db, codec, s, u)
    requires PrivilegeOf !in db.faults
    ensures var t := TestRootOrAdminOrPlayerOfContest(contestId, cookies, db, codec);
            var x := FindPrivilege(db, contestId, s.id, None).value;
      && (u.root != 0 <==> t == Ok(Ok(s.id)))
      && (u.root == 0 && x.Some? && x.value.kind == "admin" <==> t == Ok(Err(Ok(s.id))))
      && (u.root == 0 && x.Some? && x.value.kind != "admin" <==> t == Ok(Err(Err(s.id))))
      && (u.root == 0 && x.None? <==> t == Err(Forbidden(None)))
    ensures TestRootOrAdminOrPlayerOfContest(contestId, cookies, db, codec).Ok? <==>
              CheckRootOrAdminOrPlayerOfContest(contestId, cookies, db, codec).Ok?
  {
    AuthenticateExactly(cookies, db, codec, s, u);
    FoundUserHasId(db, s, u);
  }

  /** Every check and test refuses a request without a session cookie or with one that
      does not parse, and a banned user or a wrong password, whatever else holds. */
  lemma InvalidSessionsRefused(contestId: Uuid, kind: Option<string>, cookies: Cookies, db: Db, codec: Codec)
    requires || SESSION !in cookies
             || codec.parse(cookies[SESSION]).None?
             || (var s := codec.parse(cookies[SESSION]).value;
                 UserById !in db.faults &&
                 forall k | 0 <= k < |db.users| :: db.users[k].id == s.id ==>
                   codec.sha256(s.password) != db.users[k].password || db.users[k].banned == 0)
    ensures TestUser(cookies, db, codec).Err? && TestRoot(cookies, db, codec).Err?
    ensures CheckUser(cookies, db, codec) == Err(Forbidden(None))
    ensures CheckRoot(cookies, db, codec) == Err(Forbidden(None))
    ensures CheckRootOrPrivilege(contestId, kind, cookies, db, codec) == Err(Forbidden(None))
    ensures TestRootOrAdminOrPlayerOfContest(contestId, cookies, db, codec) == Err(Forbidden(None))
  {
    if SESSION in cookies && codec.parse(cookies[SESSION]).Some? {
      var s := codec.parse(cookies[SESSION]).value;
      var f := FindUser(db, s.id);
      if f.Ok? && f.value.Some? {
        var u := f.value.value;
        assert exists i | 0 <= i < |db.users| :: db.users[i] == u && db.users[i].id == s.id;
      }
    }
  }

  /** Login looks only at the first user of the table: the name in the payload is
      never consulted, and an empty table is NotFound. */
  lemma LoginIgnoresName(p: LoginPayload, name: string, db: Db, codec: Codec)
    ensures AuthLogin(p, db, codec) == AuthLogin(p.(name := name), db, codec)
    ensures AnyUser !in db.faults && |db.users| == 0 ==> AuthLogin(p, db, codec) == Err(NotFound(None))
    ensures AnyUser !in db.faults && |db.users| > 0 ==> AuthLogin(p, db, codec).Ok?
  {
  }

  /** The outcomes of a login against the first user: a wrong password is reported
      before a ban, a ban exactly when `banned == 0`, and success sets the cookie to the
      user's id with the password in clear text. */
  lemma LoginOutcomes(p: LoginPayload, db: Db, codec: Codec)
    requires AnyUser !in db.faults && |db.users| > 0
    ensures var u := db.users[0]; var r := AuthLogin(p, db, codec);
      && (codec.sha256(p.password) != u.password <==> r == Ok((LoginErr("incorrect password"), None)))
      && (codec.sha256(p.password) == u.password && u.banned == 0 <==> r == Ok((LoginErr("account is banned"), None)))
      && (codec.sha256(p.password) == u.password && u.banned != 0 <==>
            r == Ok((LoginOk, Some(codec.render(Session(u.id, p.password))))))
  {
    assert FindAnyUser(db) == Ok(Some(db.users[0]));
  }

  /** The cookie a successful login sets passes `check_user`, given that the JSON codec
      reads back what it writes and the user table has not changed. */
  lemma LoginThenCheckUser(p: LoginPayload, db: Db, codec: Codec, cookies: Cookies)
    requires UserById !in db.faults
    requires AuthLogin(p, db, codec).Ok? && AuthLogin(p, db, codec).value.0 == LoginOk
    requires forall s :: codec.parse(codec.render(s)) == Some(s)
    ensures var v := AuthLogin(p, db, codec).value.1;
      v.Some? && CheckUser(cookies[SESSION := v.value], db, codec) == Ok(db.users[0].id)
  {
    assert FindAnyUser(db) == Ok(Some(db.users[0]));
    var u := db.users[0];
    var v := codec.render(Session(u.id, p.password));
    assert codec.parse(v) == Some(Session(u.id, p.password));
    assert FindUser(db, u.id) == Ok(Some(u)) by {
      assert FirstIndex(db.users, (x: UserRow) => x.id == u.id) == Some(0);
    }
    AuthenticateExactly(cookies[SESSION := v], db, codec, Session(u.id, p.password), u);
  }
}
