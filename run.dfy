/** The synchronous wrapper around the native sandbox (src/judger/run.rs): a
    RunConfig is marshalled into the native configuration record (NUL checks,
    256-slot argument and environment tables, fixed limits and uid/gid), the native
    call fills a result record, and that record is classified into RunStatistics or
    an internal error. The native call itself is the parameter `sandbox`. */
module Run {
  import opened Machine
  import opened Prelude

  /** The request for one sandboxed execution. */
  datatype RunConfig = RunConfig(
    timeLimit: U32,
    memoryLimit: U64,
    execPath: string,
    inputPath: string,
    outputPath: string,
    env: seq<string>,
    args: seq<string>)

  datatype RunStatus = Success | TimeLimitExceeded | MemoryLimitExceeded | RuntimeError

  datatype RunError = Internal

  datatype RunStatistics = RunStatistics(time: U32, memory: U64, code: U32, status: RunStatus)

  /** The native configuration record; a null `char *` slot is None. */
  datatype NativeConfig = NativeConfig(
    maxCpuTime: I32,
    maxRealTime: I32,
    maxMemory: I64,
    maxStack: I64,
    maxProcessNumber: I32,
    maxOutputSize: I64,
    memoryLimitCheckOnly: I32,
    exePath: string,
    inputPath: string,
    outputPath: string,
    errorPath: string,
    args: seq<Option<string>>,
    env: seq<Option<string>>,
    logPath: string,
    seccompRuleName: string,
    uid: int,
    gid: int)

  /** The native result record the sandbox writes. */
  datatype NativeResult = NativeResult(
    cpuTime: I32,
    realTime: I32,
    memory: I64,
    signal: I32,
    exitCode: I32,
    error: I32,
    result: I32)

  /** Capacity of the native argument and environment tables. */
  const SLOTS: nat := 256
  /** `8 << 20` bytes of stack. */
  const MAX_STACK: I64 := 0x80_0000
  /** The unprivileged uid and gid the child runs as. */
  const NOBODY: int := 65534
  const NULL_PATH: string := "/dev/null"
  const SECCOMP_RULE: string := "c_cpp"

  /** `CString::new` accepts exactly the strings without an interior NUL. */
  predicate NulFree(s: string)
  {
    '\0' !in s
  }

  /** The slot table built from a vector: the first 256 entries, then null slots. */
  function Slots(entries: seq<string>): seq<Option<string>>
  {
    seq(SLOTS, i requires 0 <= i < SLOTS => if i < |entries| then Some(entries[i]) else None)
  }

  /** Every entry that reaches a slot converts to a C string. */
  predicate SlotsConvertible(entries: seq<string>)
  {
    forall i | 0 <= i < |entries| && i < SLOTS :: NulFree(entries[i])
  }

  /** Every string of the request that is converted to a C string is NUL-free. */
  predicate Convertible(c: RunConfig)
  {
    && NulFree(c.execPath)
    && NulFree(c.inputPath)
    && NulFree(c.outputPath)
    && SlotsConvertible(c.env)
    && SlotsConvertible(c.args)
  }

  /** The native configuration handed to the sandbox for request `c`. */
  function NativeConfigOf(c: RunConfig, outputLimit: U64): NativeConfig
  {
    NativeConfig(
      maxCpuTime := U32AsI32(c.timeLimit),
      maxRealTime := U32AsI32(c.timeLimit),
      maxMemory := U64AsI64(c.memoryLimit),
      maxStack := MAX_STACK,
      maxProcessNumber := 0,
      maxOutputSize := U64AsI64(outputLimit),
      memoryLimitCheckOnly := 0,
      exePath := c.execPath,
      inputPath := c.inputPath,
      outputPath := c.outputPath,
      errorPath := NULL_PATH,
      args := Slots(c.args),
      env := Slots(c.env),
      logPath := NULL_PATH,
      seccompRuleName := SECCOMP_RULE,
      uid := NOBODY,
      gid := NOBODY)
  }

  /** The outcome code of the native result record. */
  function StatusOfCode(code: int): Option<RunStatus>
  {
    if code == 0 then Some(Success)
    else if code == 1 || code == 2 then Some(TimeLimitExceeded)
    else if code == 3 then Some(MemoryLimitExceeded)
    else if code == 4 then Some(RuntimeError)
    else None
  }

  /** Classification of the native result record. */
  function Classify(res: NativeResult): Result<RunStatistics, RunError>
  {
    if res.error != 0 then Err(Internal)
    else match StatusOfCode(res.result)
      case None => Err(Internal)
      case Some(st) => Ok(RunStatistics(I32AsU32(res.realTime), I64AsU64(res.memory), I32AsU32(res.exitCode), st))
  }

  /** What `run` returns for request `c` when the native call behaves as `sandbox`. */
  function RunSpec(c: RunConfig, outputLimit: U64, sandbox: NativeConfig -> NativeResult): Result<RunStatistics, RunError>
  {
    if Convertible(c) then Classify(sandbox(NativeConfigOf(c, outputLimit))) else Err(Internal)
  }

  /** Fills a fresh 256-slot table from `entries`, failing on the first entry with a NUL. */
  method PackSlots(entries: seq<string>) returns (r: Result<seq<Option<string>>, RunError>)
    ensures r == if SlotsConvertible(entries) then Ok(Slots(entries)) else Err(Internal)
  {
    var table := new Option<string>[SLOTS](_ => None);
    var i := 0;
    while i < |entries| && i < SLOTS
      invariant 0 <= i <= SLOTS && i <= |entries|
      invariant forall k | 0 <= k < i :: NulFree(entries[k])
      invariant forall k | 0 <= k < SLOTS :: table[k] == if k < i then Some(entries[k]) else None
    {
      if '\0' in entries[i] {
        return Err(Internal);
      }
      table[i] := Some(entries[i]);
      i := i + 1;
    }
    assert SlotsConvertible(entries);
    assert table[..] == Slots(entries);
    r := Ok(table[..]);
  }

  /** `run`: marshal the request, make the native call, classify its result. */
  method Run(c: RunConfig, outputLimit: U64, sandbox: NativeConfig -> NativeResult)
    returns (r: Result<RunStatistics, RunError>)
    ensures r == RunSpec(c, outputLimit, sandbox)
  {
    if !NulFree(c.execPath) || !NulFree(c.inputPath) || !NulFree(c.outputPath) {
      return Err(Internal);
    }
    var env := PackSlots(c.env);
    if env.Err? {
      return Err(Internal);
    }
    var args := PackSlots(c.args);
    if args.Err? {
      return Err(Internal);
    }
    var config := NativeConfig(
      U32AsI32(c.timeLimit), U32AsI32(c.timeLimit), U64AsI64(c.memoryLimit), MAX_STACK, 0,
      U64AsI64(outputLimit), 0, c.execPath, c.inputPath, c.outputPath, NULL_PATH,
      args.value, env.value, NULL_PATH, SECCOMP_RULE, NOBODY, NOBODY);
    var res := sandbox(config);
    if res.error != 0 {
      return Err(Internal);
    }
    var status: RunStatus;
    match res.result {
      case 0 => status := Success;
      case 1 => status := TimeLimitExceeded;
      case 2 => status := TimeLimitExceeded;
      case 3 => status := MemoryLimitExceeded;
      case 4 => status := RuntimeError;
      case _ => return Err(Internal);
    }
    r := Ok(RunStatistics(I32AsU32(res.realTime), I64AsU64(res.memory), I32AsU32(res.exitCode), status));
  }

  // ----- properties of the marshalling -----

  /** A NUL in a path, or in an argument or environment entry that reaches a slot, is an internal error. */
  lemma NulIsInternalError(c: RunConfig, outputLimit: U64, sandbox: NativeConfig -> NativeResult, i: nat)
    requires
      || '\0' in c.execPath || '\0' in c.inputPath || '\0' in c.outputPath
      || (i < |c.args| && i < SLOTS && '\0' in c.args[i])
      || (i < |c.env| && i < SLOTS && '\0' in c.env[i])
    ensures RunSpec(c, outputLimit, sandbox) == Err(Internal)
  {
  }

  /** The slot table: 256 slots, the i-th entry in slot i, null after the last entry. */
  lemma SlotsLayout(entries: seq<string>)
    ensures |Slots(entries)| == SLOTS
    ensures forall i | 0 <= i < SLOTS && i < |entries| :: Slots(entries)[i] == Some(entries[i])
    ensures forall i | |entries| <= i < SLOTS :: Slots(entries)[i].None?
  {
  }

  /** The entries that can reach a slot: the first 256. */
  function Take(entries: seq<string>): seq<string>
  {
    if |entries| <= SLOTS then entries else entries[..SLOTS]
  }

  /** Entries past the 256th are dropped silently: the request behaves as if it had
      only its first 256 arguments and environment entries, even when a dropped entry
      holds a NUL. */
  lemma ExtraEntriesDropped(c: RunConfig, outputLimit: U64, sandbox: NativeConfig -> NativeResult)
    ensures RunSpec(c, outputLimit, sandbox) == RunSpec(c.(args := Take(c.args), env := Take(c.env)), outputLimit, sandbox)
  {
    var c' := c.(args := Take(c.args), env := Take(c.env));
    assert Slots(c.args) == Slots(c'.args);
    assert Slots(c.env) == Slots(c'.env);
    assert SlotsConvertible(c.args) == SlotsConvertible(c'.args);
    assert SlotsConvertible(c.env) == SlotsConvertible(c'.env);
    assert NativeConfigOf(c, outputLimit) == NativeConfigOf(c', outputLimit);
  }

  /** Example: 257 arguments whose last one holds a NUL still run. */
  lemma DroppedNulArgumentRuns(c: RunConfig, outputLimit: U64, sandbox: NativeConfig -> NativeResult)
    requires NulFree(c.execPath) && NulFree(c.inputPath) && NulFree(c.outputPath) && c.env == []
    requires |c.args| == SLOTS + 1 && c.args[SLOTS] == "\0" && forall i | 0 <= i < SLOTS :: c.args[i] == "x"
    ensures RunSpec(c, outputLimit, sandbox) == Classify(sandbox(NativeConfigOf(c, outputLimit)))
    ensures NativeConfigOf(c, outputLimit).args[SLOTS - 1] == Some("x")
  {
  }

  /** The fixed fields of the native configuration. */
  lemma NativeConfigLimits(c: RunConfig, outputLimit: U64)
    ensures var n := NativeConfigOf(c, outputLimit);
      && n.maxCpuTime == n.maxRealTime
      && (c.timeLimit < 0x8000_0000 ==> n.maxCpuTime == c.timeLimit)
      && (c.memoryLimit < 0x8000_0000_0000_0000 ==> n.maxMemory == c.memoryLimit)
      && (outputLimit < 0x8000_0000_0000_0000 ==> n.maxOutputSize == outputLimit)
      && n.maxOutputSize == U64AsI64(outputLimit)
      && n.maxStack == 8 * 1024 * 1024
      && n.maxProcessNumber == 0 && n.memoryLimitCheckOnly == 0
      && n.errorPath == n.logPath == "/dev/null"
      && n.seccompRuleName == "c_cpp"
      && n.uid == n.gid == 65534
      && n.exePath == c.execPath && n.inputPath == c.inputPath && n.outputPath == c.outputPath
  {
  }

  // ----- properties of the classification -----

  /** A raised error flag wins over any outcome code. */
  lemma ErrorFlagIsInternal(res: NativeResult)
    requires res.error != 0
    ensures Classify(res) == Err(Internal)
  {
  }

  /** The outcome codes: 0 success, 1 and 2 time limit, 3 memory limit, 4 runtime error, any other internal. */
  lemma OutcomeCodes(res: NativeResult)
    requires res.error == 0
    ensures Classify(res).Ok? <==> 0 <= res.result <= 4
    ensures Classify(res).Ok? ==> (Classify(res).value.status == Success <==> res.result == 0)
    ensures Classify(res).Ok? ==> (Classify(res).value.status == TimeLimitExceeded <==> res.result in {1, 2})
    ensures Classify(res).Ok? ==> (Classify(res).value.status == MemoryLimitExceeded <==> res.result == 3)
    ensures Classify(res).Ok? ==> (Classify(res).value.status == RuntimeError <==> res.result == 4)
  {
  }

  /** The reported time is the wall-clock time, the code the exit code; CPU time and signal are ignored. */
  lemma ReportedFields(res: NativeResult, cpu: I32, signal: I32)
    ensures Classify(res.(cpuTime := cpu, signal := signal)) == Classify(res)
    ensures Classify(res).Ok? ==>
      && Classify(res).value.time == I32AsU32(res.realTime)
      && Classify(res).value.memory == I64AsU64(res.memory)
      && Classify(res).value.code == I32AsU32(res.exitCode)
  {
  }

  /** A native record reporting the given statistics. */
  function Report(s: RunStatistics): NativeResult
  {
    var code := match s.status
      case Success => 0
      case TimeLimitExceeded => 1
      case MemoryLimitExceeded => 3
      case RuntimeError => 4;
    NativeResult(0, U32AsI32(s.time), U64AsI64(s.memory), 0, U32AsI32(s.code), 0, code)
  }

  /** Every RunStatistics value is the classification of some native record. */
  lemma ClassifyReport(s: RunStatistics)
    ensures Classify(Report(s)) == Ok(s)
  {
    CastsRoundTrip(s.time, s.memory);
    CastsRoundTrip(s.code, 0);
  }
}
