# boardjudge-backend: the judge and the access rules of its web API, in Dafny

boardjudge-backend is an online judge server. A submission is compiled and run against
the test data of its problem inside the libjudger sandbox, and the outcome is reported
as a verdict. The HTTP API decides from the `session` cookie who may read records and
ranklists and who may update contests.

This project models the following parts of the server and proves properties about them:

- **`Machine`** (`machine.dfy`). The machine integer types (u32, u64, i32, i64, bytes).
  It also defines the wrapping `as` casts that the sandbox glue uses.
- **`Prelude`** (`prelude.dfy`). `AppError` and the HTTP response each error becomes.
  It also holds the `found` / `allow` / `good` helpers and the `?` conversion of a
  database error.
- **`Run`** (`run.dfy`). The sandbox glue, `judger::run`:
  - the NUL checks;
  - the packing of arguments and environment into the 256-slot tables, done by a
    method over an array;
  - the native configuration record;
  - the classification of the native result record.
- **`Judger`** (`judger.dfy`). The judge, `judger::judge`, and the fallbacks of its
  daemon:
  - the verdict strings;
  - the test list, built by one pass over the directory listing and then listed in
    `BTreeSet` order;
  - the compile gate;
  - the per-test loop, which overwrites the test vector in place (an `array<Test>`);
  - the aggregate verdict.
- **`Schema`** (`schema.dfy`). The database tables the handlers read, as sequences of
  rows in query order. A `.one(conn)` query returns the first matching row. The `LIKE`
  filters on ids and kinds are modelled as equality. The `faults` map says which
  queries fail.
- **`Auth`** (`auth.dfy`). `auth_login` and every `test_*` / `check_*` function.
  SHA-256 and the serde_json codec of a `Session` are parameters.
- **`Record`** (`record.dfy`). `record_read`, where the clock is the parameter `now`.
- **`Contest`** (`contest.dfy`). Two handlers:
  - `contest_ranklist`, whose loop folds records into a nested map, proved against the
    fold `RanklistOf`;
  - `contest_update`, where a `ContestActiveModel` class (the ActiveModel of a contest) has its fields overwritten by a
    payload.

Things outside the judge are parameters of the model:

- the sandbox (`Run.NativeConfig -> Run.NativeResult`);
- the filesystem: directory listing, file reads, and success flags for the scratch
  directory steps;
- the `ojcmp` normal comparison (`Some(true)` for AC, `None` for an I/O error);
- the global configuration.

The model follows the code where it departs from the intended design of the judge and the API:

- **Test list.** Names are kept with their `.in` / `.out` suffixes, and a name ending in
  `.in` never reaches `outputs`. So the intersection is always empty, and every
  compiled submission is Accepted with no tests (`Judger.TestListAlwaysEmpty`,
  `Judger.CompiledSubmissionIsAccepted`). A test-data directory with `a.in` and `a.out`
  does not yield a test `a`.
- **Time limit.** A time-limit run is labelled MemoryLimitExceeded.
- **Comparison.** The "expected answer" is read from `<name>.in`, not from the `.out`
  file. The "output" is read from the binary `a.out`, not from the captured output file.
- **Aggregate verdict.** It is Accepted or RuntimeError, not the first non-Accepted
  verdict:
  - a stopping outcome of any kind sets it to RuntimeError;
  - WrongAnswer tests leave it Accepted.
- **Slot limit.** Arguments and environment entries past the 256th are dropped silently.
  They do not cause a configuration error.
- **`auth_login`.** It checks the first user of the table, not the user named in the
  payload. It refuses a user whose `banned` flag is 0, so the flag works inverted.
- **`test_root`.** It does not require the root flag.
- **`record_read` flag.** The flag is raised by a contest with `start >= now` and
  `end < now`, which a contest whose start is not after its end can never satisfy.

## Model

| member | source | states |
|---|---|---|
| Machine.U32AsI32 | src/judger/run.rs:56-57 | the i32 value of a u32 `as` cast agrees with the input modulo 2^32 and is negative exactly from 2^31 on |
| Machine.CastsRoundTrip | src/judger/run.rs:88-91 | a u32 (u64) cast to i32 (i64) and back is unchanged |
| Prelude.IntoResponse | src/web/prelude.rs:25-84 | every application error becomes a 4xx or 5xx response |
| Prelude.KindIdentifiesVariant | src/web/prelude.rs:32-76 | two errors have the same `type` tag exactly when they are the same variant |
| Prelude.StatusClasses | src/web/prelude.rs:28-82 | 500 exactly for database and storage errors; 403, 404, 400 exactly for Forbidden, NotFound, BadRequest |
| Prelude.Found | src/web/prelude.rs:96-101 | `found` keeps a present value and maps None to NotFound(None) |
| Prelude.Allow | src/web/prelude.rs:102-107 | `allow` keeps a present value and maps None to Forbidden(None) |
| Prelude.Good | src/web/prelude.rs:108-113 | `good` keeps a present value and maps None to BadRequest(None) |
| Prelude.FoundResult | src/web/prelude.rs:128-133 | `found` on a Result keeps Ok and carries the error inside NotFound(Some) |
| Prelude.AllowResult | src/web/prelude.rs:134-139 | `allow` on a Result keeps Ok and carries the error inside Forbidden(Some) |
| Prelude.GoodResult | src/web/prelude.rs:140-145 | `good` on a Result keeps Ok and carries the error inside BadRequest(Some) |
| Prelude.MissingValueStatuses | src/web/prelude.rs:96-113 | a missing value answers 404, 403 or 400 depending on the helper used |
| Prelude.FromDb | src/web/prelude.rs:13-14 | the `?` conversion keeps Ok and wraps a database error in DatabaseError |
| Run.NativeConfigOf | src/judger/run.rs:55-73 | the native configuration of a request; NativeConfigLimits states its fixed fields and that the limits are the request's own wherever the casts do not wrap, SlotsLayout its argument and environment tables |
| Run.Classify | src/judger/run.rs:85-99 | the classification of the native result record; ErrorFlagIsInternal, OutcomeCodes and ReportedFields state its error flag, its outcome codes and its reported fields, ClassifyReport that it reaches every RunStatistics value |
| Run.RunSpec | src/judger/run.rs:38-100 | what `run` returns; the method Run is proved equal to it, NulIsInternalError states its NUL errors, ExtraEntriesDropped that any request behaves as the request cut to 256 arguments and 256 environment entries |
| Run.PackSlots | src/judger/run.rs:47-54 | the 256-slot table holds the i-th entry in slot i and null after the last entry; a NUL in an entry that reaches a slot is Internal |
| Run.Run | src/judger/run.rs:38-100 | `run` returns the classification of what the sandbox reports for the native configuration of the request, or Internal on a NUL |
| Run.NulIsInternalError | src/judger/run.rs:42-54 | a NUL in any path, or in an argument or environment entry among the first 256, gives Err(Internal) |
| Run.SlotsLayout | src/judger/run.rs:47-54 | 256 slots: entry i in slot i, the rest null |
| Run.ExtraEntriesDropped | src/judger/run.rs:49-54 | a request behaves exactly like the same request cut to its first 256 arguments and environment entries |
| Run.DroppedNulArgumentRuns | src/judger/run.rs:52-54 | 257 arguments whose last holds a NUL still reach the sandbox |
| Run.NativeConfigLimits | src/judger/run.rs:55-73 | CPU and wall limits equal the time limit, and the memory and output limits are as given, wherever the `as` casts do not wrap (from 2^31 and 2^63 on the cast values are negative); the output limit is the cast of the configured one; 8 MiB stack, process count 0, check-only 0, `/dev/null` error and log paths, rule `c_cpp`, uid and gid 65534 |
| Run.ErrorFlagIsInternal | src/judger/run.rs:85-87 | a raised error flag is Internal, whatever the outcome code |
| Run.OutcomeCodes | src/judger/run.rs:92-98 | code 0 Success, 1 and 2 TimeLimitExceeded, 3 MemoryLimitExceeded, 4 RuntimeError, any other code Internal |
| Run.ReportedFields | src/judger/run.rs:88-91 | the reported time is the wall time, memory and exit code come through the casts; CPU time and signal are ignored |
| Run.ClassifyReport | src/judger/run.rs:85-99 | every RunStatistics value is the classification of some native result record |
| Judger.StatusStr | src/judger/mod.rs:29-43 | the serialised verdict; StatusStrSnakeCase and StatusStrInjective state that the nine strings are lower snake_case and pairwise distinct |
| Judger.StatusStrSnakeCase | src/judger/mod.rs:29-43 | every verdict string is lower snake_case |
| Judger.StatusStrInjective | src/judger/mod.rs:29-43 | distinct verdicts have distinct strings |
| Judger.SplitListing | src/judger/mod.rs:124-132 | the loop puts the names ending `.in` into inputs and the other names ending `.out` into outputs |
| Judger.AscendingList | src/judger/mod.rs:133-135 | the intersection is listed in strictly ascending byte-wise order, holding exactly its elements |
| Judger.TestList | src/judger/mod.rs:124-142 | the test names are inputs ∩ outputs in ascending order |
| Judger.LeastExists | src/judger/mod.rs:133-135 | a non-empty finite set of names has a least one in `BTreeSet` order |
| Judger.AscendingUnique | src/judger/mod.rs:133-135 | the strictly ascending listing of a set is unique |
| Judger.TestListAlwaysEmpty | src/judger/mod.rs:126-135 | no name is both an input and an output, so the test list is always empty |
| Judger.PairedFilesYieldNoTest | src/judger/mod.rs:126-135 | a.in, a.out, b.in, c.out give inputs {a.in, b.in}, outputs {a.out, c.out} and no test |
| Judger.TestStep | src/judger/mod.rs:160-242 | a continuing test keeps its name and is Accepted or WrongAnswer; a stopping test is RuntimeError, MemoryLimitExceeded or JudgeFailed |
| Judger.RunTest | src/judger/mod.rs:145-243 | one pass of the loop body: run, then read the answer and output and compare, or stop, or fail |
| Judger.TestVerdicts | src/judger/mod.rs:160-242 | the loop goes on only after Success; AC decides Accepted against WrongAnswer; time limit and memory limit are both MemoryLimitExceeded; Internal is JudgeFailed with 0 time and 0 memory |
| Judger.LoopFrom | src/judger/mod.rs:143-244 | the tests run are a prefix of the list, and a finished loop keeps the list length |
| Judger.LoopFinished | src/judger/mod.rs:143-244 | a finished loop keeps the names; the aggregate is Accepted or RuntimeError; tests before the stop are advanced, the stopping test is stopped exactly when RuntimeError, later tests untouched |
| Judger.FinishedAfterContinue | src/judger/mod.rs:165-187 | a continuing test in front of a finished loop keeps that shape |
| Judger.LoopAborted | src/judger/mod.rs:166-179 | a failing judge fails on the last test run, after every earlier test continued |
| Judger.AcceptedIffNoStop | src/judger/mod.rs:143-244 | the aggregate is Accepted exactly when every test continues, WrongAnswer included |
| Judger.WrongAnswerDoesNotStop | src/judger/mod.rs:173-187 | after a WrongAnswer test the next test is run |
| Judger.JudgeSpec | src/judger/mod.rs:72-247 | the result of `judge` and its `run` calls; the method Judge is proved equal to it, and TestdataCheckedFirst, UnsupportedLanguage, CompileGate, JudgeVerdicts and CompiledSubmissionIsAccepted state its outcomes |
| Judger.Judge | src/judger/mod.rs:72-247 | `judge` returns the result, and makes the `run` calls (including any that `run` refuses on a NUL), that JudgeSpec prescribes |
| Judger.RunTests | src/judger/mod.rs:143-244 | the in-place loop leaves the vector the loop specification gives, with its aggregate, or fails |
| Judger.TestdataCheckedFirst | src/judger/mod.rs:83-87 | an unreadable test-data directory is TestdataError with "{}" and no `run` call, before the language is looked at |
| Judger.UnsupportedLanguage | src/judger/mod.rs:97-101 | a language other than c and cxx is CompilationError with "{}" and no `run` call |
| Judger.CompileGate | src/judger/mod.rs:94-123 | an Internal compile run, one that does not succeed, or one with a non-zero exit is CompilationError after that single 10 s, 256 MiB run |
| Judger.JudgeVerdicts | src/judger/mod.rs:72-247 | the aggregate is TestdataError, CompilationError, Accepted or RuntimeError; a "{}" message exactly for the first two |
| Judger.CompiledSubmissionIsAccepted | src/judger/mod.rs:117-246 | every submission that compiles is Accepted with an empty test list, after the compile run alone |
| Judger.DaemonReply | src/judger/mod.rs:268-269 | the worker's `unwrap_or`; JudgeFailedOnlyOnFailure states that it is JudgeFailed with "{}" exactly on an error from `judge` and the judged pair otherwise |
| Judger.Awaited | src/judger/mod.rs:278 | the caller's `unwrap_or` on the reply channel; JudgeFailedOnlyOnFailure states that a lost reply is JudgeFailed with "{}" and a delivered one is passed on |
| Judger.JudgeFailedOnlyOnFailure | src/judger/mod.rs:264-279 | a caller sees JudgeFailed with "{}" exactly when `judge` failed or the reply was lost |
| Schema.FirstIndex | src/web/api/auth.rs:67-71 | `.one` picks the first matching row: it matches, no earlier row does, and it is None only when no row matches |
| Schema.First | src/web/api/auth.rs:67-71 | the row returned matches and no earlier row does; None exactly when no row matches |
| Schema.One | src/web/api/auth.rs:36 | a query fails exactly when it is faulty; otherwise it returns the first match |
| Schema.FindContestRecords | src/web/api/contest.rs:215-220 | the ranklist query returns exactly the rows of the record table whose problem belongs to an existing contest with that id |
| Schema.Filter | src/web/api/contest.rs:215-220 | the selected rows are the rows that satisfy the filter |
| Auth.Authenticate | src/web/api/auth.rs:84-97 | a successful check yields an authentic session and user; failures are Forbidden(None) or a database error |
| Auth.AuthenticateExactly | src/web/api/auth.rs:84-97 | authentication succeeds exactly for an authentic session and user; a database error exactly when the user lookup fails |
| Auth.TestUser | src/web/api/auth.rs:64-82 | `test_user`; TestAndCheckUserAgree states that it accepts exactly the authentic callers, with the session id, and InvalidSessionsRefused which sessions it refuses |
| Auth.CheckUser | src/web/api/auth.rs:84-102 | `check_user`; TestAndCheckUserAgree states that it accepts exactly the authentic callers, with the id of their session, and otherwise returns Forbidden(None) or a database error |
| Auth.TestRoot | src/web/api/auth.rs:104-122 | `test_root`; TestRootIgnoresRootFlag states that it equals `test_user` and so accepts non-root users |
| Auth.CheckRoot | src/web/api/auth.rs:124-142 | `check_root`; CheckRootNeedsRoot states that it accepts exactly the authentic users with a non-zero root flag |
| Auth.CheckRootOrPrivilege | src/web/api/auth.rs:144-173 | the shared body of the three contest checks; PrivilegeCheck states that root passes and anyone else passes exactly when a privilege row of the contest, user and kind exists |
| Auth.CheckRootOrAdminOfContest | src/web/api/auth.rs:144-173 | `check_root_or_admin_of_contest`; PrivilegeCheck states it for the kind "admin" |
| Auth.CheckRootOrPlayerOfContest | src/web/api/auth.rs:175-204 | `check_root_or_player_of_contest`; PrivilegeCheck states it for the kind "player" |
| Auth.CheckRootOrAdminOrPlayerOfContest | src/web/api/auth.rs:240-268 | `check_root_or_admin_or_player_of_contest`; PrivilegeCheck states it for a privilege row of any kind |
| Auth.TestRootOrAdminOrPlayerOfContest | src/web/api/auth.rs:206-238 | `test_root_or_admin_or_player_of_contest`; RoleOfCaller states which role it reports and that it accepts what the member check accepts |
| Auth.AuthLogin | src/web/api/auth.rs:31-58 | `auth_login`; LoginIgnoresName, LoginOutcomes and LoginThenCheckUser state its outcomes and that the cookie it sets passes `check_user` |
| Auth.TestAndCheckUserAgree | src/web/api/auth.rs:64-102 | `test_user` and `check_user` accept the same callers with the same id, exactly the authentic ones, with the id of their session; a refusal of `check_user` is Forbidden(None) or a database error |
| Auth.TestRootIgnoresRootFlag | src/web/api/auth.rs:104-122 | `test_root` is `test_user`: it accepts non-root users |
| Auth.CheckRootNeedsRoot | src/web/api/auth.rs:124-142 | `check_root` accepts exactly the authentic users with a non-zero root flag, otherwise Forbidden |
| Auth.PrivilegeCheck | src/web/api/auth.rs:144-204 | root passes the admin, player and member checks; anyone else passes exactly when a privilege row of the contest, user and kind exists, otherwise Forbidden |
| Auth.FoundUserHasId | src/web/api/auth.rs:67-71 | the user found by id carries that id |
| Auth.RoleOfCaller | src/web/api/auth.rs:206-268 | Ok(Ok) exactly for root, Err(Ok) when the first privilege row is admin, Err(Err) for another kind, Forbidden with no row; it accepts what the member check accepts |
| Auth.InvalidSessionsRefused | src/web/api/auth.rs:64-77 | a missing or unparseable cookie, a wrong password or `banned == 0` is refused by every check and test |
| Auth.ResultAsUnit | src/web/api/auth.rs:64-71 | forgetting the error keeps success and its value |
| Auth.LoginIgnoresName | src/web/api/auth.rs:36 | login never reads the name in the payload and uses the first user; an empty table is NotFound |
| Auth.LoginOutcomes | src/web/api/auth.rs:39-57 | a wrong password is reported before a ban, a ban exactly when `banned == 0`, success sets the cookie to the id and clear-text password |
| Auth.LoginThenCheckUser | src/web/api/auth.rs:49-102 | the cookie a successful login sets passes `check_user` with the first user's id |
| Record.ContestFlag | src/web/api/record.rs:51-57 | the flag; FlagExactly states when it is raised, OrderedContestsKeepFlagDown that well-ordered contests never raise it |
| Record.Restrict | src/web/api/record.rs:58-82 | the checks made while the flag is raised; FlagUpRoles states them per role |
| Record.RecordRead | src/web/api/record.rs:30-92 | `record_read`; ReadReturnsTheRecord, MissingProblemForbidden, FlagDownAnyRole, FlagUpRoles and PlayerReadsOthersOnlyWithFlagDown state its outcomes |
| Record.FlagExactly | src/web/api/record.rs:51-57 | the flag is raised exactly when a contest has start >= now and end < now and the query succeeds |
| Record.OrderedContestsKeepFlagDown | src/web/api/record.rs:51-57 | with start <= end for every contest the flag stays down |
| Record.MissingProblemForbidden | src/web/api/record.rs:39-49 | a record whose problem is missing is Forbidden |
| Record.ReadReturnsTheRecord | src/web/api/record.rs:35-38 | a read returns the stored record's fields; NotFound exactly when no record has the id |
| Record.FlagDownAnyRole | src/web/api/record.rs:58 | with the flag down, any caller with a role in the contest gets the record |
| Record.FlagUpRoles | src/web/api/record.rs:58-82 | with the flag up, a missing contest is Forbidden, root and admin read; a player reads exactly their own records while start <= now <= end |
| Record.PlayerReadsOthersOnlyWithFlagDown | src/web/api/record.rs:64-76 | a player reads another user's record exactly when the flag is down |
| Contest.Displaces | src/web/api/contest.rs:230-239 | the replacement rule; AcceptedEntriesImproveOnly states that an accepted entry yields only to an accepted record of strictly earlier time, and a non-accepted entry yields to any accepted record or to a strictly later one |
| Contest.RanklistOf | src/web/api/contest.rs:221-243 | the fold of the ranklist loop; the method Ranklist is proved equal to it, RanklistIsBest and RanklistEntries state what each entry holds |
| Contest.Ranklist | src/web/api/contest.rs:221-243 | the loop over the records builds the fold RanklistOf |
| Contest.ContestRanklist | src/web/api/contest.rs:209-245 | callers refused by the member check get its error; otherwise the ranklist of the contest's records, or the query's error |
| Contest.Matching | src/web/api/contest.rs:226-241 | the records of a user on a problem are exactly the input records with that pair: each comes from the input, and every input record with that pair is among them |
| Contest.Best | src/web/api/contest.rs:230-241 | the displacement rule settles on an entry exactly when there is a record |
| Contest.InsertTouchesOnePair | src/web/api/contest.rs:226-242 | one iteration adds only its user and changes only its own pair's entry, by the displacement rule |
| Contest.RanklistIsBest | src/web/api/contest.rs:221-243 | a user key exists exactly when the user has a record; each pair's entry is the one the rule settles on over that pair's records |
| Contest.ChosenKept | src/web/api/contest.rs:230-239 | a record that does not displace the kept one leaves the choice unchanged |
| Contest.ChosenReplaced | src/web/api/contest.rs:230-239 | a record that displaces the kept one becomes the choice |
| Contest.BestIsChosen | src/web/api/contest.rs:230-239 | the rule keeps the first accepted record of least time if any is accepted, otherwise the first record of greatest time |
| Contest.RanklistEntries | src/web/api/contest.rs:221-243 | a pair has an entry exactly when it has a record, and the entry is the record the rule keeps |
| Contest.AcceptedEntriesImproveOnly | src/web/api/contest.rs:231-238 | an accepted entry is replaced only by an accepted record of strictly earlier time; a non-accepted entry yields to any accepted record and to any strictly later record |
| Contest.Merged | src/web/api/contest.rs:66-78 | the contest row with the payload's fields written over it; MergedLaws states field by field what it keeps and overwrites |
| Contest.MergedLaws | src/web/api/contest.rs:66-78 | an empty update changes nothing, the same update twice equals it once, the id is kept, given fields are overwritten and absent ones kept |
| Contest.ContestActiveModel.constructor | src/web/api/contest.rs:66 | the active model starts as the stored row |
| Contest.ContestActiveModel.Apply | src/web/api/contest.rs:67-78 | the active model becomes the stored row with the payload's fields written over it |
| Contest.ContestUpdateSpec | src/web/api/contest.rs:56-81 | the result and database after `contest_update`; the method ContestUpdate is proved equal to it, and UpdateEffect states who may update and what changes |
| Contest.ContestUpdate | src/web/api/contest.rs:56-81 | `contest_update` returns the result and leaves the database that ContestUpdateSpec prescribes |
| Contest.UpdateEffect | src/web/api/contest.rs:56-81 | only root updates; a failed update changes nothing; a successful one rewrites exactly the rows with the payload's id and no other table |

## Left out

- Native sandbox call: `libjudger::run` is the parameter `sandbox`. The C layout of its
  config and result records, the CString lifetimes and the pointer casts are not
  modelled. Its int and long fields are taken to be i32 and i64.
- Filesystem: each filesystem step of `judge` is a parameter of the model. The reads
  and the directory listing are parameters. Creating the scratch directory and writing
  the code, and the final removal, are two success flags. The initial removal, whose
  result is ignored, is left out. Creating `/tmp/boardjudge/judge/code` as a directory
  and then writing a file at the same path fails in practice. The model leaves this to
  the `prepared` flag.
- Output comparison: `ojcmp::try_normal_compare` is a foreign library, modelled as an
  uninterpreted comparison that may fail.
- Scratch-file contents: the source code written to the scratch file, and the scratch
  output, are not tracked.
- Arguments and environment entries are strings, so a NUL is the character `'\0'`.
  UTF-8 encoding is not modelled.
- The judger's stack limit in the configuration is not used by `judge` or `run`.
  It is carried but unused.
- Judge daemon: the mpsc and oneshot channels, `tokio::spawn`, `block_in_place`, FIFO
  order and single-flight execution are concurrency and are not modelled. Only the two
  `unwrap_or(JudgeFailed)` fallbacks are modelled.
- SHA-256 and serde_json are foreign code and appear only as functions in `Codec`. The
  `uuid!` parse and its panic on a malformed id are not modelled: ids are their text.
- Database: sea_orm queries are modelled as the first or all matching rows of a table
  in stored order. SQL `LIKE` patterns are modelled as equality. The tables' other
  columns are not modelled. The generated schema files are not modelled.
- Contest update write: the `update` write succeeds or fails as a whole, and on success
  replaces every row with the payload's id.
- Clock: `Utc::now()` is the parameter `now`. The cookie jar is a map from names to
  values. `auth_login` returns the cookie value it would add instead of mutating the jar.
- Responses: the JSON rendering of responses and feedback bodies is not modelled. The
  message text of an error response is modelled only for Forbidden, NotFound and
  BadRequest (the Debug text). For the other two variants it is the carried message.
- Other handlers: `auth_logout`, the other handlers of contest.rs and record.rs
  (create, read, delete, list), and the user, problem, testdata, privilege and submit
  handlers are database and file plumbing with no further logic. They are not
  modelled.
- HTTP routing, server start-up, configuration loading and the global `CONFIG` pointer
  are not modelled. The configuration is passed as a value.
