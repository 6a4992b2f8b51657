/** The judge (src/judger/mod.rs): verdict strings, the construction of the test
    list from the test-data directory, the compile gate, the per-test loop that
    overwrites the test vector in place, the aggregate verdict, and the fallbacks
    of the judge daemon. Filesystem effects, the sandbox and the output comparison
    are parameters gathered in a Host. */
module Judger {
  import opened Machine
  import opened Prelude
  import Run

  // ----- verdicts -----

  datatype Status =
    | JudgeFailed
    | TestdataError
    | CompilationError
    | RuntimeError
    | TimeLimitExceeded
    | MemoryLimitExceeded
    | WrongAnswer
    | Accepted
    | Skipped

  /** Lower-case words joined by single underscores. */
  predicate SnakeCase(s: string)
  {
    && |s| > 0 && s[0] != '_' && s[|s| - 1] != '_'
    && (forall i | 0 <= i < |s| :: 'a' <= s[i] <= 'z' || s[i] == '_')
    && (forall i | 0 <= i < |s| - 1 :: !(s[i] == '_' && s[i + 1] == '_'))
  }

  /** The serialised form of a verdict (`From<Status> for &str`). */
  function StatusStr(s: Status): string
  {
    match s
    case JudgeFailed => "judge_failed"
    case TestdataError => "testdata_error"
    case CompilationError => "compilation_error"
    case RuntimeError => "runtime_error"
    case TimeLimitExceeded => "time_limit_exceeded"
    case MemoryLimitExceeded => "memory_limit_exceeded"
    case WrongAnswer => "wrong_answer"
    case Accepted => "accepted"
    case Skipped => "skipped"
  }

  /** Every verdict string is snake_case. */
  lemma StatusStrSnakeCase(s: Status)
    ensures SnakeCase(StatusStr(s))
  {
    match s
    case JudgeFailed => assert SnakeCase("judge_failed");
    case TestdataError => assert SnakeCase("testdata_error");
    case CompilationError => assert SnakeCase("compilation_error");
    case RuntimeError => assert SnakeCase("runtime_error");
    case TimeLimitExceeded => assert SnakeCase("time_limit_exceeded");
    case MemoryLimitExceeded => assert SnakeCase("memory_limit_exceeded");
    case WrongAnswer => assert SnakeCase("wrong_answer");
    case Accepted => assert SnakeCase("accepted");
    case Skipped => assert SnakeCase("skipped");
  }

  /** Distinct verdicts serialise to distinct strings. */
  lemma StatusStrInjective(a: Status, b: Status)
    ensures StatusStr(a) == StatusStr(b) ==> a == b
  {
  }

  datatype Test = Test(name: string, status: Status, time: U32, memory: U32)

  datatype Tests = Message(message: string) | Tests(tests: seq<Test>)

  /** The detail payload of every message result. */
  const DETAIL: string := "{}"

  /** The request for one judgement (`Judge`); the record id is not used by the judge. */
  datatype JudgeRequest = JudgeRequest(
    recordId: Uuid,
    problemId: Uuid,
    timeLimit: U32,
    memoryLimit: U32,
    language: string,
    code: string)

  /** The judger section of the global configuration. */
  datatype JudgerConfig = JudgerConfig(
    root: string,
    stackLimit: U64,
    outputLimit: U64,
    compilerC: string,
    compilerCxx: string)

  /** An error propagated out of `judge` by `?` (an I/O step or the comparison). */
  datatype JudgeError = JudgeError

  /** The filesystem as the judge sees it. */
  datatype FileSystem = FileSystem(
    /** the file names `read_dir` lists for a directory, None when it cannot be opened */
    readDir: string -> Option<seq<string>>,
    /** creating the scratch code directory and writing the source into it succeed */
    prepared: bool,
    /** the contents of a file, None when it cannot be read */
    read: string -> Option<seq<Byte>>,
    /** the final removal of the scratch directory succeeds */
    removed: bool)

  /** Everything outside the judge: configuration, filesystem, the native sandbox and
      the normal-compare oracle (Some(true) for AC, None for an I/O error). */
  datatype Host = Host(
    config: JudgerConfig,
    fs: FileSystem,
    sandbox: Run.NativeConfig -> Run.NativeResult,
    compare: (seq<Byte>, seq<Byte>) -> Option<bool>)

  const CODE_PATH: string := "/tmp/boardjudge/judge/code"
  const BINARY_PATH: string := "/tmp/boardjudge/judge/a.out"
  const OUTPUT_PATH: string := "/tmp/boardjudge/judge/output"

  const COMPILE_TIME_LIMIT: U32 := 10_000
  /** `256 << 20` bytes. */
  const COMPILE_MEMORY_LIMIT: U64 := 0x1000_0000
  const COMPILE_ARGS: seq<string> := [
    CODE_PATH, "-o", BINARY_PATH, "-g", "-Wall", "-static-libgcc",
    "-fexec-charset=UTF-8", "-std=c++2b", "-march=native"]

  function TestdataDir(config: JudgerConfig, problemId: Uuid): string
  {
    config.root + "/" + problemId + "/testdata"
  }

  /** `{root}/{problem}/testdata/{name}.in`; the name keeps its own suffix. */
  function TestInputPath(config: JudgerConfig, problemId: Uuid, name: string): string
  {
    TestdataDir(config, problemId) + "/" + name + ".in"
  }

  /** The compiler for a language tag; only "c" and "cxx" have one. */
  function Compiler(config: JudgerConfig, language: string): Option<string>
  {
    if language == "c" then Some(config.compilerC)
    else if language == "cxx" then Some(config.compilerCxx)
    else None
  }

  function CompileConfig(compiler: string): Run.RunConfig
  {
    Run.RunConfig(COMPILE_TIME_LIMIT, COMPILE_MEMORY_LIMIT, compiler, "/dev/null", "/dev/null", [], COMPILE_ARGS)
  }

  function TestConfig(config: JudgerConfig, j: JudgeRequest, name: string): Run.RunConfig
  {
    Run.RunConfig(j.timeLimit, j.memoryLimit, BINARY_PATH, TestInputPath(config, j.problemId, name), OUTPUT_PATH, [], [])
  }

  /** A compile run lets the judge go on only on Success with exit code 0. */
  predicate Compiled(o: Result<Run.RunStatistics, Run.RunError>)
  {
    o.Ok? && o.value.status.Success? && o.value.code == 0
  }

  // ----- the test list -----

  predicate EndsWith(s: string, suffix: string)
  {
    |suffix| <= |s| && s[|s| - |suffix|..] == suffix
  }

  /** The names that go to `inputs`. */
  ghost function InputNames(listing: seq<string>): set<string>
  {
    set n | n in listing && EndsWith(n, ".in")
  }

  /** The names that go to `outputs`: the else-branch, so never a name ending in ".in". */
  ghost function OutputNames(listing: seq<string>): set<string>
  {
    set n | n in listing && !EndsWith(n, ".in") && EndsWith(n, ".out")
  }

  /** Byte-wise lexicographic order of strings (the order of a BTreeSet<String>). */
  predicate LexLe(a: string, b: string)
    decreases |a|
  {
    a == [] || (b != [] && (a[0] < b[0] || (a[0] == b[0] && LexLe(a[1..], b[1..]))))
  }

  predicate LexLess(a: string, b: string)
  {
    LexLe(a, b) && a != b
  }

  lemma {:induction false} LexLeReflexive(a: string)
    ensures LexLe(a, a)
    decreases |a|
  {
    if a != [] {
      LexLeReflexive(a[1..]);
    }
  }

  lemma {:induction false} LexLeTotal(a: string, b: string)
    ensures LexLe(a, b) || LexLe(b, a)
    decreases |a|
  {
    if a != [] && b != [] && a[0] == b[0] {
      LexLeTotal(a[1..], b[1..]);
    }
  }

  lemma {:induction false} LexLeAntisymmetric(a: string, b: string)
    requires LexLe(a, b) && LexLe(b, a)
    ensures a == b
    decreases |a|
  {
    if a != [] {
      LexLeAntisymmetric(a[1..], b[1..]);
      assert a == [a[0]] + a[1..] && b == [b[0]] + b[1..];
    }
  }

  lemma {:induction false} LexLeTransitive(a: string, b: string, c: string)
    requires LexLe(a, b) && LexLe(b, c)
    ensures LexLe(a, c)
    decreases |a|
  {
    if a != [] && a[0] == b[0] && b[0] == c[0] {
      LexLeTransitive(a[1..], b[1..], c[1..]);
    }
  }

  predicate IsLeast(m: string, s: set<string>)
  {
    m in s && forall x | x in s :: LexLe(m, x)
  }

  /** A finite non-empty set of strings has a least element. */
  lemma {:induction false} LeastExists(s: set<string>)
    requires s != {}
    ensures exists m :: IsLeast(m, s)
    decreases |s|
  {
    var x :| x in s;
    if s == {x} {
      LexLeReflexive(x);
      assert IsLeast(x, s);
    } else {
      LeastExists(s - {x});
      var m :| IsLeast(m, s - {x});
      LexLeTotal(m, x);
      if LexLe(m, x) {
        assert IsLeast(m, s);
      } else {
        LexLeReflexive(x);
        forall y | y in s ensures LexLe(x, y) {
          if y != x {
            LexLeTransitive(x, m, y);
          }
        }
        assert IsLeast(x, s);
      }
    }
  }

  predicate StrictlyAscending(names: seq<string>)
  {
    forall i, k | 0 <= i < k < |names| :: LexLess(names[i], names[k])
  }

  /** The elements of a set in ascending order (iteration order of a BTreeSet). */
  ghost function Ascending(s: set<string>): seq<string>
    decreases |s|
  {
    if s == {} then []
    else
      LeastExists(s);
      var m :| IsLeast(m, s);
      [m] + Ascending(s - {m})
  }

  /** A strictly ascending sequence holding exactly the elements of `s` is Ascending(s). */
  lemma {:induction false} AscendingUnique(names: seq<string>, s: set<string>)
    requires StrictlyAscending(names)
    requires forall x :: x in s <==> x in names
    ensures names == Ascending(s)
    decreases |names|
  {
    if names == [] {
      assert s == {};
    } else {
      var m := names[0];
      assert IsLeast(m, s) by {
        forall x | x in s ensures LexLe(m, x) {
          if x == m {
            LexLeReflexive(m);
          }
        }
      }
      forall m' | IsLeast(m', s) ensures m' == m {
        LexLeAntisymmetric(m, m');
      }
      var rest := names[1..];
      assert forall x :: x in s - {m} <==> x in rest;
      AscendingUnique(rest, s - {m});
      assert names == [m] + rest;
    }
  }

  /** The ordered names of the tests: inputs ∩ outputs in ascending order. */
  ghost function TestNames(listing: seq<string>): seq<string>
  {
    Ascending(InputNames(listing) * OutputNames(listing))
  }

  /** Builds the two name sets by one pass over the listing. */
  method SplitListing(listing: seq<string>) returns (inputs: set<string>, outputs: set<string>)
    ensures inputs == InputNames(listing) && outputs == OutputNames(listing)
  {
    inputs, outputs := {}, {};
    for k := 0 to |listing|
      invariant inputs == InputNames(listing[..k]) && outputs == OutputNames(listing[..k])
    {
      assert listing[..k + 1] == listing[..k] + [listing[k]];
      var name := listing[k];
      if EndsWith(name, ".in") {
        inputs := inputs + {name};
      } else if EndsWith(name, ".out") {
        outputs := outputs + {name};
      }
    }
    assert listing[..|listing|] == listing;
  }

  /** Lists a set in ascending order by repeatedly taking its least element. */
  method AscendingList(s: set<string>) returns (names: seq<string>)
    ensures names == Ascending(s)
    ensures StrictlyAscending(names)
    ensures forall x :: x in names <==> x in s
  {
    names := [];
    var rest := s;
    while rest != {}
      invariant rest <= s
      invariant StrictlyAscending(names)
      invariant forall x :: x in s <==> x in names || x in rest
      invariant forall k, x | 0 <= k < |names| && x in rest :: LexLess(names[k], x)
      decreases |rest|
    {
      LeastExists(rest);
      var m :| IsLeast(m, rest);
      forall x | x in rest - {m} ensures LexLess(m, x) {
      }
      names := names + [m];
      rest := rest - {m};
    }
    AscendingUnique(names, s);
  }

  /** The test names of a listing. */
  method TestList(listing: seq<string>) returns (names: seq<string>)
    ensures names == TestNames(listing)
  {
    var inputs, outputs := SplitListing(listing);
    names := AscendingList(inputs * outputs);
  }

  /** No name is both an input and an output, because the output branch is an else
      branch and the suffixes are kept: the test list is always empty. */
  lemma TestListAlwaysEmpty(listing: seq<string>)
    ensures InputNames(listing) * OutputNames(listing) == {}
    ensures TestNames(listing) == []
  {
  }

  /** The listing a.in, a.out, b.in, c.out yields no test at all (not the test "a"). */
  lemma PairedFilesYieldNoTest()
    ensures InputNames(["a.in", "a.out", "b.in", "c.out"]) == {"a.in", "b.in"}
    ensures OutputNames(["a.in", "a.out", "b.in", "c.out"]) == {"a.out", "c.out"}
    ensures TestNames(["a.in", "a.out", "b.in", "c.out"]) == []
  {
    var l := ["a.in", "a.out", "b.in", "c.out"];
    assert EndsWith(l[0], ".in") && EndsWith(l[2], ".in");
    assert !EndsWith(l[1], ".in") && EndsWith(l[1], ".out");
    assert !EndsWith(l[3], ".in") && EndsWith(l[3], ".out");
    TestListAlwaysEmpty(l);
  }

  // ----- one test -----

  /** What running one test does to it: the loop goes on, stops, or `judge` fails. */
  datatype Step = Continue(test: Test) | Stop(test: Test) | Abort

  /** The body of the per-test loop for the test named `name`. */
  function TestStep(h: Host, j: JudgeRequest, name: string): (s: Step)
    ensures s.Continue? ==> s.test.name == name && (s.test.status == Accepted || s.test.status == WrongAnswer)
    ensures s.Stop? ==>
      && s.test.name == name
      && (s.test.status == RuntimeError || s.test.status == MemoryLimitExceeded || s.test.status == JudgeFailed)
  {
    match Run.RunSpec(TestConfig(h.config, j, name), h.config.outputLimit, h.sandbox)
    case Err(_) => Stop(Test(name, JudgeFailed, 0, 0))
    case Ok(t) =>
      if t.status.Success? then
        match h.fs.read(TestInputPath(h.config, j.problemId, name))
        case None => Abort
        case Some(answer) =>
          match h.fs.read(BINARY_PATH)
          case None => Abort
          case Some(output) =>
            match h.compare(answer, output)
            case None => Abort
            case Some(ac) => Continue(Test(name, if ac then Accepted else WrongAnswer, t.time, U64AsU32(t.memory)))
      else if t.status.RuntimeError? then
        Stop(Test(name, RuntimeError, t.time, U64AsU32(t.memory)))
      else
        Stop(Test(name, MemoryLimitExceeded, t.time, U64AsU32(t.memory)))
  }

  /** The body of the per-test loop: run the program on the test, then, after a
      successful run, read the expected answer and the program's output and compare them. */
  method RunTest(h: Host, j: JudgeRequest, name: string) returns (s: Step)
    ensures s == TestStep(h, j, name)
  {
    var o := Run.Run(TestConfig(h.config, j, name), h.config.outputLimit, h.sandbox);
    if o.Err? {
      return Stop(Test(name, JudgeFailed, 0, 0));
    }
    var t := o.value;
    if t.status.Success? {
      var answer := h.fs.read(TestInputPath(h.config, j.problemId, name));
      if answer.None? {
        return Abort;
      }
      var output := h.fs.read(BINARY_PATH);
      if output.None? {
        return Abort;
      }
      var cmp := h.compare(answer.value, output.value);
      if cmp.None? {
        return Abort;
      }
      s := Continue(Test(name, if cmp.value then Accepted else WrongAnswer, t.time, U64AsU32(t.memory)));
    } else if t.status.RuntimeError? {
      s := Stop(Test(name, RuntimeError, t.time, U64AsU32(t.memory)));
    } else {
      s := Stop(Test(name, MemoryLimitExceeded, t.time, U64AsU32(t.memory)));
    }
  }

  /** The verdicts of one test: the comparison decides between Accepted and WrongAnswer,
      a time-limit run is labelled MemoryLimitExceeded, an internal sandbox error is
      JudgeFailed with no time or memory; the loop goes on exactly after a successful run. */
  lemma TestVerdicts(h: Host, j: JudgeRequest, name: string)
    ensures var o := Run.RunSpec(TestConfig(h.config, j, name), h.config.outputLimit, h.sandbox);
      && (TestStep(h, j, name).Continue? ==> o.Ok? && o.value.status.Success?)
      && (o.Ok? && !o.value.status.Success? ==> TestStep(h, j, name).Stop?)
      && (o.Ok? && o.value.status.TimeLimitExceeded? ==> TestStep(h, j, name).test.status == MemoryLimitExceeded)
      && (o.Ok? && o.value.status.MemoryLimitExceeded? ==> TestStep(h, j, name).test.status == MemoryLimitExceeded)
      && (o.Ok? && o.value.status.RuntimeError? ==> TestStep(h, j, name).test.status == RuntimeError)
      && (o.Err? ==> TestStep(h, j, name) == Stop(Test(name, JudgeFailed, 0, 0)))
      && (TestStep(h, j, name).Continue? ==>
            (TestStep(h, j, name).test.status == Accepted <==>
             h.compare(h.fs.read(TestInputPath(h.config, j.problemId, name)).value, h.fs.read(BINARY_PATH).value) == Some(true)))
      && (!TestStep(h, j, name).Abort? ==> TestStep(h, j, name).test.status != TimeLimitExceeded)
  {
  }

  // ----- the per-test loop -----

  datatype LoopOutcome = Done(status: Status, tests: seq<Test>, ran: nat) | Aborted(ran: nat)

  /** The loop from test `i` on, with the aggregate still Accepted; `ran` counts the
      tests whose program was run. */
  function LoopFrom(h: Host, j: JudgeRequest, tests: seq<Test>, i: nat): (o: LoopOutcome)
    requires i <= |tests|
    ensures i <= o.ran <= |tests|
    ensures o.Done? ==> |o.tests| == |tests|
    decreases |tests| - i
  {
    if i == |tests| then Done(Accepted, tests, i)
    else match TestStep(h, j, tests[i].name)
      case Continue(t) => LoopFrom(h, j, tests[i := t], i + 1)
      case Stop(t) => Done(RuntimeError, tests[i := t], i + 1)
      case Abort => Aborted(i + 1)
  }

  /** What a finished loop leaves behind: names and length kept, an aggregate of
      Accepted or RuntimeError, every test before the last one run advanced by its
      step, the last run test stopped exactly when the aggregate is RuntimeError, and
      every later test untouched. */
  ghost predicate FinishedShape(h: Host, j: JudgeRequest, tests: seq<Test>, i: nat, status: Status, after: seq<Test>, ran: nat)
    requires i <= ran <= |tests| == |after|
  {
    && (status == Accepted || status == RuntimeError)
    && (forall k | 0 <= k < |tests| :: after[k].name == tests[k].name)
    && (forall k | 0 <= k < i || ran <= k < |tests| :: after[k] == tests[k])
    && (status == Accepted ==> ran == |tests|)
    && (status == RuntimeError ==> i < ran && TestStep(h, j, tests[ran - 1].name) == Stop(after[ran - 1]))
    && (forall k | i <= k < ran && !(status == RuntimeError && k == ran - 1) ::
          TestStep(h, j, tests[k].name) == Continue(after[k]))
  }

  lemma {:induction false} LoopFinished(h: Host, j: JudgeRequest, tests: seq<Test>, i: nat)
    requires i <= |tests|
    requires LoopFrom(h, j, tests, i).Done?
    ensures var o := LoopFrom(h, j, tests, i);
      FinishedShape(h, j, tests, i, o.status, o.tests, o.ran)
    decreases |tests| - i
  {
    if i < |tests| {
      var s := TestStep(h, j, tests[i].name);
      if s.Continue? {
        var tests' := tests[i := s.test];
        LoopFinished(h, j, tests', i + 1);
        var o := LoopFrom(h, j, tests', i + 1);
        FinishedAfterContinue(h, j, tests, i, s.test, o.status, o.tests, o.ran);
      }
    }
  }

  /** One Continue step in front of a finished loop keeps the shape. */
  lemma FinishedAfterContinue(h: Host, j: JudgeRequest, tests: seq<Test>, i: nat,
                                                 t: Test, status: Status, after: seq<Test>, ran: nat)
    requires i < |tests| && TestStep(h, j, tests[i].name) == Continue(t)
    requires i + 1 <= ran <= |tests| == |after|
    requires FinishedShape(h, j, tests[i := t], i + 1, status, after, ran)
    ensures FinishedShape(h, j, tests, i, status, after, ran)
  {
    var tests' := tests[i := t];
    assert forall k | 0 <= k < |tests| :: tests'[k].name == tests[k].name;
    assert after[i] == t;
  }

  /** A loop that fails the judge does so on the last test it ran, after advancing the earlier ones. */
  lemma {:induction false} LoopAborted(h: Host, j: JudgeRequest, tests: seq<Test>, i: nat)
    requires i <= |tests|
    requires LoopFrom(h, j, tests, i).Aborted?
    ensures var o := LoopFrom(h, j, tests, i);
      && i < o.ran
      && TestStep(h, j, tests[o.ran - 1].name).Abort?
      && (forall k | i <= k < o.ran - 1 :: TestStep(h, j, tests[k].name).Continue?)
    decreases |tests| - i
  {
    var s := TestStep(h, j, tests[i].name);
    if s.Continue? {
      var tests' := tests[i := s.test];
      LoopAborted(h, j, tests', i + 1);
      assert forall k | 0 <= k < |tests| :: tests'[k].name == tests[k].name;
    }
  }

  /** The aggregate is Accepted exactly when no test stops the loop or fails the judge. */
  lemma {:induction false} AcceptedIffNoStop(h: Host, j: JudgeRequest, tests: seq<Test>, i: nat)
    requires i <= |tests|
    ensures LoopFrom(h, j, tests, i).Done? && LoopFrom(h, j, tests, i).status == Accepted
        <==> forall k | i <= k < |tests| :: TestStep(h, j, tests[k].name).Continue?
    decreases |tests| - i
  {
    if LoopFrom(h, j, tests, i).Done? {
      LoopFinished(h, j, tests, i);
    }
    if i < |tests| {
      var s := TestStep(h, j, tests[i].name);
      if s.Continue? {
        var tests' := tests[i := s.test];
        AcceptedIffNoStop(h, j, tests', i + 1);
        assert forall k | i + 1 <= k < |tests| :: tests'[k].name == tests[k].name;
      }
    }
  }

  /** A wrong answer does not stop the loop: the next test, if any, is run. */
  lemma WrongAnswerDoesNotStop(h: Host, j: JudgeRequest, tests: seq<Test>, k: nat)
    requires k + 1 < |tests|
    requires forall m | 0 <= m <= k :: TestStep(h, j, tests[m].name).Continue?
    requires TestStep(h, j, tests[k].name).test.status == WrongAnswer
    ensures LoopFrom(h, j, tests, 0).ran > k + 1
  {
    if LoopFrom(h, j, tests, 0).Done? {
      LoopFinished(h, j, tests, 0);
    } else {
      LoopAborted(h, j, tests, 0);
    }
  }

  // ----- the judge -----

  /** The initial test vector: every test Skipped with no time and no memory. */
  function InitialTests(names: seq<string>): (tests: seq<Test>)
  {
    seq(|names|, k requires 0 <= k < |names| => Test(names[k], Skipped, 0, 0))
  }

  /** The test runs made for the first `n` tests. */
  function TestRuns(config: JudgerConfig, j: JudgeRequest, tests: seq<Test>, n: nat): seq<Run.RunConfig>
    requires n <= |tests|
  {
    seq(n, k requires 0 <= k < n => TestConfig(config, j, tests[k].name))
  }

  /** The result of `judge` and the `run` calls it makes, in order (a call that `run`
      refuses on a NUL reaches no sandbox). */
  ghost function JudgeSpec(h: Host, j: JudgeRequest): (Result<(Status, Tests), JudgeError>, seq<Run.RunConfig>)
  {
    match h.fs.readDir(TestdataDir(h.config, j.problemId))
    case None => (Ok((TestdataError, Message(DETAIL))), [])
    case Some(listing) =>
      if !h.fs.prepared then (Err(JudgeError), [])
      else match Compiler(h.config, j.language)
        case None => (Ok((CompilationError, Message(DETAIL))), [])
        case Some(compiler) =>
          var cc := CompileConfig(compiler);
          if !Compiled(Run.RunSpec(cc, h.config.outputLimit, h.sandbox)) then
            (Ok((CompilationError, Message(DETAIL))), [cc])
          else
            var names := TestNames(listing);
            var initial := InitialTests(names);
            match LoopFrom(h, j, initial, 0)
            case Aborted(ran) => (Err(JudgeError), [cc] + TestRuns(h.config, j, initial, ran))
            case Done(status, tests, ran) =>
              (if h.fs.removed then Ok((status, Tests(tests))) else Err(JudgeError),
               [cc] + TestRuns(h.config, j, initial, ran))
  }

  /** `judge`: test-data listing, compilation, then the tests in order. `runs` lists the
      requests passed to `run`, in order. */
  method Judge(h: Host, j: JudgeRequest) returns (r: Result<(Status, Tests), JudgeError>, runs: seq<Run.RunConfig>)
    ensures (r, runs) == JudgeSpec(h, j)
  {
    runs := [];
    var listing := h.fs.readDir(TestdataDir(h.config, j.problemId));
    if listing.None? {
      return Ok((TestdataError, Message(DETAIL))), [];
    }
    if !h.fs.prepared {
      return Err(JudgeError), [];
    }
    var compiler: string;
    if j.language == "c" {
      compiler := h.config.compilerC;
    } else if j.language == "cxx" {
      compiler := h.config.compilerCxx;
    } else {
      return Ok((CompilationError, Message(DETAIL))), [];
    }
    var cc := CompileConfig(compiler);
    runs := [cc];
    var compiled := Run.Run(cc, h.config.outputLimit, h.sandbox);
    if compiled.Err? || !compiled.value.status.Success? || compiled.value.code != 0 {
      return Ok((CompilationError, Message(DETAIL))), runs;
    }
    var names := TestList(listing.value);
    var xests := new Test[|names|](k requires 0 <= k < |names| => Test(names[k], Skipped, 0, 0));
    assert xests[..] == InitialTests(names);
    var xtatus, tested := RunTests(h, j, xests);
    runs := runs + tested;
    if xtatus.None? || !h.fs.removed {
      return Err(JudgeError), runs;
    }
    r := Ok((xtatus.value, Tests(xests[..])));
  }

  /** The per-test loop over the test vector, overwriting each test in place; the
      aggregate starts as Accepted. None is an error out of `judge`; `runs` lists the
      requests passed to `run`. */
  method RunTests(h: Host, j: JudgeRequest, xests: array<Test>) returns (xtatus: Option<Status>, runs: seq<Run.RunConfig>)
    modifies xests
    ensures var o := LoopFrom(h, j, old(xests[..]), 0);
      && runs == TestRuns(h.config, j, old(xests[..]), o.ran)
      && (xtatus.None? <==> o.Aborted?)
      && (o.Done? ==> xtatus == Some(o.status) && xests[..] == o.tests)
  {
    ghost var initial := xests[..];
    var aggregate := Accepted;
    runs := [];
    var i := 0;
    while i < xests.Length
      invariant 0 <= i <= xests.Length == |initial|
      invariant aggregate == Accepted
      invariant forall k | 0 <= k < xests.Length :: xests[k].name == initial[k].name
      invariant LoopFrom(h, j, xests[..], i) == LoopFrom(h, j, initial, 0)
      invariant runs == TestRuns(h.config, j, initial, i)
    {
      ghost var before := xests[..];
      var name := xests[i].name;
      runs := runs + [TestConfig(h.config, j, name)];
      assert runs == TestRuns(h.config, j, initial, i + 1);
      var step := RunTest(h, j, name);
      match step
      case Abort => {
        assert LoopFrom(h, j, before, i) == Aborted(i + 1);
        return None, runs;
      }
      case Stop(t) => {
        xests[i] := t;
        aggregate := RuntimeError;
        assert xests[..] == before[i := t];
        assert LoopFrom(h, j, before, i) == Done(RuntimeError, xests[..], i + 1);
        break;
      }
      case Continue(t) => {
        xests[i] := t;
        assert xests[..] == before[i := t];
        i := i + 1;
      }
    }
    xtatus := Some(aggregate);
  }

  // ----- properties of the judge -----

  /** An unreadable test-data directory is reported before anything else is looked at,
      whatever the language, and no `run` call is made. */
  lemma TestdataCheckedFirst(h: Host, j: JudgeRequest)
    requires h.fs.readDir(TestdataDir(h.config, j.problemId)).None?
    ensures JudgeSpec(h, j) == (Ok((TestdataError, Message("{}"))), [])
  {
  }

  /** A language other than "c" and "cxx" is a compilation error without any `run` call. */
  lemma UnsupportedLanguage(h: Host, j: JudgeRequest)
    requires h.fs.readDir(TestdataDir(h.config, j.problemId)).Some? && h.fs.prepared
    requires j.language != "c" && j.language != "cxx"
    ensures JudgeSpec(h, j) == (Ok((CompilationError, Message("{}"))), [])
  {
  }

  /** A compile run that fails internally, does not succeed, or exits non-zero is a
      compilation error after exactly that one run, made with a 10 s and 256 MiB budget. */
  lemma CompileGate(h: Host, j: JudgeRequest)
    requires h.fs.readDir(TestdataDir(h.config, j.problemId)).Some? && h.fs.prepared
    requires Compiler(h.config, j.language).Some?
    requires var cc := CompileConfig(Compiler(h.config, j.language).value);
      var o := Run.RunSpec(cc, h.config.outputLimit, h.sandbox);
      o.Err? || !o.value.status.Success? || o.value.code != 0
    ensures |JudgeSpec(h, j).1| == 1
    ensures JudgeSpec(h, j).0 == Ok((CompilationError, Message("{}")))
    ensures var cc := JudgeSpec(h, j).1[0];
      cc.timeLimit == 10_000 && cc.memoryLimit == 256 * 1024 * 1024 && cc.execPath in {h.config.compilerC, h.config.compilerCxx}
  {
  }

  /** The verdicts `judge` can return: never JudgeFailed, TimeLimitExceeded, MemoryLimitExceeded,
      WrongAnswer or Skipped as the aggregate; a message exactly for the two early failures. */
  lemma JudgeVerdicts(h: Host, j: JudgeRequest)
    ensures var r := JudgeSpec(h, j).0;
      r.Ok? ==>
        && (r.value.0 == TestdataError || r.value.0 == CompilationError || r.value.0 == Accepted || r.value.0 == RuntimeError)
        && (r.value.1.Message? <==> (r.value.0 == TestdataError || r.value.0 == CompilationError))
        && (r.value.1.Message? ==> r.value.1.message == "{}")
  {
    match h.fs.readDir(TestdataDir(h.config, j.problemId))
    case None =>
    case Some(listing) =>
      if h.fs.prepared && Compiler(h.config, j.language).Some? {
        var initial := InitialTests(TestNames(listing));
        if LoopFrom(h, j, initial, 0).Done? {
          LoopFinished(h, j, initial, 0);
        }
      }
  }

  /** Because the test list is always empty, every submission that compiles is Accepted
      with an empty test list, after the compile run alone. */
  lemma CompiledSubmissionIsAccepted(h: Host, j: JudgeRequest)
    requires h.fs.readDir(TestdataDir(h.config, j.problemId)).Some? && h.fs.prepared && h.fs.removed
    requires Compiler(h.config, j.language).Some?
    requires Compiled(Run.RunSpec(CompileConfig(Compiler(h.config, j.language).value), h.config.outputLimit, h.sandbox))
    ensures JudgeSpec(h, j) == (Ok((Accepted, Tests([]))), [CompileConfig(Compiler(h.config, j.language).value)])
  {
    var listing := h.fs.readDir(TestdataDir(h.config, j.problemId)).value;
    TestListAlwaysEmpty(listing);
    assert InitialTests(TestNames(listing)) == [];
    var cc := CompileConfig(Compiler(h.config, j.language).value);
    assert [cc] + TestRuns(h.config, j, [], 0) == [cc];
  }

  // ----- the daemon -----

  /** The worker's `unwrap_or`: an error from `judge` becomes JudgeFailed. */
  function DaemonReply(r: Result<(Status, Tests), JudgeError>): (Status, Tests)
  {
    match r
    case Ok(v) => v
    case Err(_) => (JudgeFailed, Message(DETAIL))
  }

  /** `Judger::judge`: a dropped response channel (None) becomes JudgeFailed. */
  function Awaited(reply: Option<(Status, Tests)>): (Status, Tests)
  {
    match reply
    case Some(v) => v
    case None => (JudgeFailed, Message(DETAIL))
  }

  /** A caller sees JudgeFailed exactly when `judge` failed or the reply was lost, and then
      with the empty detail. */
  lemma JudgeFailedOnlyOnFailure(h: Host, j: JudgeRequest, delivered: bool)
    ensures var r := JudgeSpec(h, j).0;
      var seen := Awaited(if delivered then Some(DaemonReply(r)) else None);
      && (seen.0 == JudgeFailed <==> !delivered || r.Err?)
      && (seen.0 == JudgeFailed ==> seen.1 == Message("{}"))
  {
    JudgeVerdicts(h, j);
  }
}
