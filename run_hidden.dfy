/**
 * run_hidden: start one child process without a window, wait for it to end,
 * report the outcome as TraceLogging events and return the child's exit code.
 *
 * The outcome of a launch is a function of the platform's replies
 * (RunProcessSpec); the methods WaitForProcess, RunProcess and MainEntry do
 * the same work step by step against a Kernel and a Provider and are proved
 * to produce exactly that outcome.
 */
module RunHidden {
  import opened Util
  import opened Win32
  import opened TraceLogging
  import opened WideStrings

  // ---------------------------------------------------------------------
  // The events run_hidden writes
  // ---------------------------------------------------------------------

  /**
   * ProcessCreated, verbose (5): the command line as a NUL-terminated wide
   * string is read from the caller's view, not from the terminated copy.
   */
  function ProcessCreated(cmdLine: seq<char>): (e: Event)
    ensures e.name == "ProcessCreated" && e.level.Value() == 5 && !HasExitCode(e)
    ensures e.fields == [CommandLine(TerminatedPrefix(cmdLine))]
    ensures (forall i :: 0 <= i < |cmdLine| ==> cmdLine[i] != '\0') ==> e.fields == [CommandLine(cmdLine)]
  {
    Event("ProcessCreated", Verbose, [CommandLine(TerminatedPrefix(cmdLine))])
  }

  /** CreateProcessFailed, error (2), with the captured error code. */
  function CreateProcessFailed(error: DWORD): (e: Event)
    ensures e.name == "CreateProcessFailed" && e.level.Value() == 2 && !HasExitCode(e)
    ensures e.fields == [WinError(error)]
  {
    Event("CreateProcessFailed", Error, [WinError(error)])
  }

  /** WaitForSingleObjectFailed, error (2), with the captured error code; written for both a failed wait and a failed query. */
  function WaitForSingleObjectFailed(error: DWORD): (e: Event)
    ensures e.name == "WaitForSingleObjectFailed" && e.level.Value() == 2 && !HasExitCode(e)
    ensures e.fields == [WinError(error)]
  {
    Event("WaitForSingleObjectFailed", Error, [WinError(error)])
  }

  /** InvalidReturnValue, warning (3), naming the function whose result made no sense. */
  function InvalidReturnValue(functionName: string): (e: Event)
    ensures e.name == "InvalidReturnValue" && e.level.Value() == 3 && !HasExitCode(e)
    ensures e.fields == [FunctionName(functionName)]
  {
    Event("InvalidReturnValue", Warning, [FunctionName(functionName)])
  }

  /** ProcessTerminated, verbose (5), carrying an ExitCode field exactly when the status is known. */
  function ProcessTerminated(status: Option<DWORD>): (e: Event)
    ensures e.name == "ProcessTerminated" && e.level.Value() == 5
    ensures HasExitCode(e) <==> status.Some?
    ensures status.Some? ==> e.fields == [ExitCode(status.value)]
    ensures status.None? ==> e.fields == []
  {
    var e := Event("ProcessTerminated", Verbose, if status.Some? then [ExitCode(status.value)] else []);
    assert status.Some? ==> e.fields[0].ExitCode?;
    e
  }

  predicate HasExitCode(e: Event) {
    exists i :: 0 <= i < |e.fields| && e.fields[i].ExitCode?
  }

  // ---------------------------------------------------------------------
  // The outcome of a launch, as a function of the platform's replies
  // ---------------------------------------------------------------------

  /**
   * The child's status, when it can be known: the wait did not fail, the
   * query succeeded and the status is not the "still active" sentinel.
   */
  function KnownStatus(r: Replies): Option<DWORD> {
    if r.wait.value != WAIT_FAILED && r.query.Queried? && r.query.exitCode != STILL_ACTIVE
    then Some(r.query.exitCode)
    else None
  }

  /** What wait_for_process writes, which calls it makes, and what it returns. */
  datatype WaitOutcome = WaitOutcome(events: seq<Event>, calls: seq<Call>, exitCode: Option<Int32>)

  /** What run_process writes, which calls it makes, and what it returns. */
  datatype RunOutcome = RunOutcome(events: seq<Event>, calls: seq<Call>, exitCode: Int32)

  /** wait_for_process: wait without time-out, then read and check the status. */
  function WaitForProcessSpec(process: Handle, r: Replies): (o: WaitOutcome)
    // a value is returned exactly when the status is known, and it is that status narrowed
    ensures o.exitCode == if KnownStatus(r).Some? then Some(ToInt(KnownStatus(r).value)) else None
    // one wait without time-out, then a query only if the wait did not fail; nothing is closed
    ensures o.calls == [WaitForSingleObjectCall(process, INFINITE)]
                       + (if r.wait.value == WAIT_FAILED then [] else [GetExitCodeProcessCall(process)])
    // the events end with ProcessTerminated unless the wait itself failed
    ensures |o.events| > 0
    ensures (o.events[|o.events| - 1].name == "ProcessTerminated") <==> r.wait.value != WAIT_FAILED
    // no event but the last can carry an exit code, and the last carries one exactly when a value is returned
    ensures forall i :: 0 <= i < |o.events| - 1 ==> !HasExitCode(o.events[i])
    ensures HasExitCode(o.events[|o.events| - 1]) <==> o.exitCode.Some?
    ensures o.exitCode.Some? ==> o.events[|o.events| - 1].fields == [ExitCode(ToDword(o.exitCode.value))]
  {
    var waited := [WaitForSingleObjectCall(process, INFINITE)];
    var queried := waited + [GetExitCodeProcessCall(process)];
    if r.wait.value == WAIT_FAILED then
      WaitOutcome([WaitForSingleObjectFailed(r.wait.error)], waited, None)
    else
      match r.query
      case QueryFailed(e) =>
        WaitOutcome([WaitForSingleObjectFailed(e), ProcessTerminated(None)], queried, None)
      case Queried(c) =>
        if c == STILL_ACTIVE then
          WaitOutcome([InvalidReturnValue("GetExitCodeProcess"), ProcessTerminated(None)], queried, None)
        else
          NarrowingRoundTrip(c);
          WaitOutcome([ProcessTerminated(Some(c))], queried, Some(ToInt(c)))
  }

  /** The CreateProcess arguments: no application name, no inheritance, no window, a terminated copy. */
  function CreationRequest(cmdLine: seq<char>): (q: CreateRequest)
    ensures q.applicationName.None? && !q.inheritHandles && q.creationFlags == CREATE_NO_WINDOW
    // the copy is the input followed by one terminator ...
    ensures |q.commandLine| == |cmdLine| + 1 && q.commandLine[..|cmdLine|] == cmdLine
    ensures q.commandLine[|cmdLine|] == '\0'
    // ... so the platform reads the same NUL-terminated text from it as the log reads from the input
    ensures TerminatedPrefix(q.commandLine) == TerminatedPrefix(cmdLine)
  {
    TerminatedPrefixAppendNul(cmdLine);
    CreateRequest(None, cmdLine + ['\0'], None, None, false, CREATE_NO_WINDOW, None, None)
  }

  /** How many times a launch with replies `r` closes `h`: once for each handle CreateProcess handed out. */
  function ReleaseCount(r: Replies, h: Handle): nat {
    match r.create
    case CreateFailed(_) => 0
    case Created(info) => (if h == info.hProcess then 1 else 0) + (if h == info.hThread then 1 else 0)
  }

  /** run_process: create the child, wait for it, close both handles, fall back to 1. */
  function RunProcessSpec(cmdLine: seq<char>, r: Replies): (o: RunOutcome)
    // the child's narrowed status when it was created and its status is known, 1 otherwise
    ensures o.exitCode == if r.create.Created? && KnownStatus(r).Some? then ToInt(KnownStatus(r).value) else 1
    // creation is always the first call and the first call only
    ensures |o.calls| > 0 && o.calls[0] == CreateProcessCall(CreationRequest(cmdLine))
    ensures forall i :: 0 < i < |o.calls| ==> !o.calls[i].CreateProcessCall?
    // exactly one event on failed creation; ProcessCreated with the original text first otherwise
    ensures r.create.CreateFailed? ==> o.events == [CreateProcessFailed(r.create.error)]
    ensures r.create.Created? ==> |o.events| > 1 && o.events[0] == ProcessCreated(cmdLine)
  {
    var request := CreationRequest(cmdLine);
    match r.create
    case CreateFailed(e) =>
      RunOutcome([CreateProcessFailed(e)], [CreateProcessCall(request)], 1)
    case Created(info) =>
      var w := WaitForProcessSpec(info.hProcess, r);
      RunOutcome([ProcessCreated(cmdLine)] + w.events,
                 [CreateProcessCall(request)] + w.calls
                 + [CloseHandleCall(info.hProcess), CloseHandleCall(info.hThread)],
                 w.exitCode.ValueOr(1))
  }

  // ---------------------------------------------------------------------
  // The program, step by step
  // ---------------------------------------------------------------------

  /** wait_for_process */
  method WaitForProcess(log: Provider, kernel: Kernel, process: Handle) returns (exitCode: Option<Int32>)
    requires log.registered
    modifies log, kernel
    ensures log.registered
    ensures log.events == old(log.events) + WaitForProcessSpec(process, kernel.replies).events
    ensures kernel.calls == old(kernel.calls) + WaitForProcessSpec(process, kernel.replies).calls
    ensures exitCode == WaitForProcessSpec(process, kernel.replies).exitCode
  {
    var waited := kernel.WaitForSingleObject(process, INFINITE);
    if waited == WAIT_FAILED {
      var errorCode := kernel.GetLastError();
      log.Write(WaitForSingleObjectFailed(errorCode));
      return None;
    }

    var ok, status := kernel.GetExitCodeProcess(process);
    if !ok {
      var errorCode := kernel.GetLastError();
      log.Write(WaitForSingleObjectFailed(errorCode));
      log.Write(ProcessTerminated(None));
      return None;
    }
    if status == STILL_ACTIVE {
      log.Write(InvalidReturnValue("GetExitCodeProcess"));
      log.Write(ProcessTerminated(None));
      return None;
    }

    log.Write(ProcessTerminated(Some(status)));
    return Some(ToInt(status));
  }

  /** run_process */
  method RunProcess(log: Provider, kernel: Kernel, cmdLine: seq<char>) returns (exitCode: Int32)
    requires log.registered
    modifies log, kernel
    ensures log.registered
    ensures log.events == old(log.events) + RunProcessSpec(cmdLine, kernel.replies).events
    ensures kernel.calls == old(kernel.calls) + RunProcessSpec(cmdLine, kernel.replies).calls
    ensures exitCode == RunProcessSpec(cmdLine, kernel.replies).exitCode
    ensures forall h :: kernel.CloseCount(h) == old(kernel.CloseCount(h)) + ReleaseCount(kernel.replies, h)
  {
    CloseCountsAfter(kernel.calls, cmdLine, kernel.replies);

    // a modifiable, null-terminated copy of the command line
    var copy := new WideString(cmdLine);
    copy.PushBack('\0');

    var request := CreateRequest(None, copy.chars, None, None, false, CREATE_NO_WINDOW, None, None);
    var ok, info := kernel.CreateProcess(request);
    if !ok {
      var errorCode := kernel.GetLastError();
      log.Write(CreateProcessFailed(errorCode));
      return 1;
    }

    log.Write(ProcessCreated(cmdLine));
    var status := WaitForProcess(log, kernel, info.hProcess);
    kernel.CloseHandle(info.hProcess);
    kernel.CloseHandle(info.hThread);
    return status.ValueOr(1);
  }

  /** run_hidden::main: register the provider, run, unregister, pass the exit code on. */
  method MainEntry(log: Provider, kernel: Kernel, cmdLine: seq<char>) returns (exitCode: Int32)
    requires !log.registered
    modifies log, kernel
    ensures !log.registered
    ensures log.events == old(log.events) + RunProcessSpec(cmdLine, kernel.replies).events
    ensures kernel.calls == old(kernel.calls) + RunProcessSpec(cmdLine, kernel.replies).calls
    ensures exitCode == RunProcessSpec(cmdLine, kernel.replies).exitCode
    ensures forall h :: kernel.CloseCount(h) == old(kernel.CloseCount(h)) + ReleaseCount(kernel.replies, h)
  {
    log.Register();
    exitCode := RunProcess(log, kernel, cmdLine);
    log.Unregister();
  }

  // ---------------------------------------------------------------------
  // Properties of a launch
  // ---------------------------------------------------------------------

  /** The child is created hidden, without inheritance, from a copy with exactly one NUL appended. */
  lemma CreationRequestShape(cmdLine: seq<char>)
    ensures var q := CreationRequest(cmdLine);
      && q.applicationName.None?
      && q.processAttributes.None? && q.threadAttributes.None?
      && !q.inheritHandles
      && q.creationFlags == CREATE_NO_WINDOW
      && q.environment.None? && q.currentDirectory.None?
      && |q.commandLine| == |cmdLine| + 1
      && q.commandLine[..|cmdLine|] == cmdLine
      && q.commandLine[|cmdLine|] == '\0'
      && Count(q.commandLine, '\0') == Count(cmdLine, '\0') + 1
      && ((forall i :: 0 <= i < |cmdLine| ==> cmdLine[i] != '\0') ==> Count(q.commandLine, '\0') == 1)
  {
    CountAppend(cmdLine, ['\0'], '\0');
    assert ['\0'][1..] == [];
    if forall i :: 0 <= i < |cmdLine| ==> cmdLine[i] != '\0' {
      CountAbsent(cmdLine, '\0');
    }
  }

  /** Failed creation: result 1, one CreateProcessFailed event, no other call, nothing closed. */
  lemma CreationFailure(cmdLine: seq<char>, r: Replies)
    requires r.create.CreateFailed?
    ensures var o := RunProcessSpec(cmdLine, r);
      && o.exitCode == 1
      && o.events == [CreateProcessFailed(r.create.error)]
      && o.calls == [CreateProcessCall(CreationRequest(cmdLine))]
      && forall h :: Count(o.calls, CloseHandleCall(h)) == 0
  {
    var o := RunProcessSpec(cmdLine, r);
    forall h ensures Count(o.calls, CloseHandleCall(h)) == 0 {
      CountAbsent(o.calls, CloseHandleCall(h));
    }
  }

  /** ProcessCreated, with the original text rather than the terminated copy, comes before every other event. */
  lemma CreatedFirst(cmdLine: seq<char>, r: Replies)
    requires r.create.Created?
    ensures var o := RunProcessSpec(cmdLine, r);
      && |o.events| > 1
      && o.events[0] == ProcessCreated(cmdLine)
      && o.events[0].fields == [CommandLine(TerminatedPrefix(cmdLine))]
      && o.events[0].fields != [CommandLine(CreationRequest(cmdLine).commandLine)]
      && forall i :: 0 < i < |o.events| ==> o.events[i].name != "ProcessCreated"
  {
    var o := RunProcessSpec(cmdLine, r);
    var buffer := CreationRequest(cmdLine).commandLine;
    assert buffer[|cmdLine|] == '\0';
    assert |TerminatedPrefix(cmdLine)| < |buffer|;
  }

  /** Failed wait: one WaitForSingleObjectFailed event, no ProcessTerminated, no query, result 1. */
  lemma WaitFailure(cmdLine: seq<char>, r: Replies)
    requires r.create.Created? && r.wait.value == WAIT_FAILED
    ensures var o := RunProcessSpec(cmdLine, r);
      var info := r.create.info;
      && o.exitCode == 1
      && o.events == [ProcessCreated(cmdLine), WaitForSingleObjectFailed(r.wait.error)]
      && o.calls == [CreateProcessCall(CreationRequest(cmdLine)),
                     WaitForSingleObjectCall(info.hProcess, INFINITE),
                     CloseHandleCall(info.hProcess), CloseHandleCall(info.hThread)]
  {
  }

  /** Failed status query: WaitForSingleObjectFailed, then ProcessTerminated without ExitCode; result 1. */
  lemma QueryFailure(cmdLine: seq<char>, r: Replies)
    requires r.create.Created? && r.wait.value != WAIT_FAILED && r.query.QueryFailed?
    ensures var o := RunProcessSpec(cmdLine, r);
      && o.exitCode == 1
      && o.events == [ProcessCreated(cmdLine), WaitForSingleObjectFailed(r.query.error), ProcessTerminated(None)]
      && !HasExitCode(o.events[2])
  {
  }

  /** A STILL_ACTIVE status, even one the child really exited with: InvalidReturnValue, ProcessTerminated without ExitCode; result 1. */
  lemma StillActiveStatus(cmdLine: seq<char>, r: Replies)
    requires r.create.Created? && r.wait.value != WAIT_FAILED && r.query == Queried(STILL_ACTIVE)
    ensures var o := RunProcessSpec(cmdLine, r);
      && o.exitCode == 1
      && o.events == [ProcessCreated(cmdLine), InvalidReturnValue("GetExitCodeProcess"), ProcessTerminated(None)]
      && o.events[1].fields == [FunctionName("GetExitCodeProcess")]
      && o.events[1].level == Warning
      && !HasExitCode(o.events[2])
  {
  }

  /** Any other status c: ProcessTerminated(ExitCode = c) last, and the result is c as a signed int. */
  lemma NormalExit(cmdLine: seq<char>, r: Replies)
    requires r.create.Created? && r.wait.value != WAIT_FAILED
    requires r.query.Queried? && r.query.exitCode != STILL_ACTIVE
    ensures var o := RunProcessSpec(cmdLine, r);
      var c := r.query.exitCode;
      && o.events == [ProcessCreated(cmdLine), ProcessTerminated(Some(c))]
      && o.events[1].fields == [ExitCode(c)]
      && o.exitCode == ToInt(c)
      && ToDword(o.exitCode) == c
  {
    NarrowingRoundTrip(r.query.exitCode);
  }

  /**
   * Once created, the process handle and then the thread handle are closed, as
   * the last two calls, after the wait and the query; no other handle is closed.
   */
  lemma HandleRelease(cmdLine: seq<char>, r: Replies)
    requires r.create.Created?
    ensures var o := RunProcessSpec(cmdLine, r);
      var info := r.create.info;
      && (forall h :: Count(o.calls, CloseHandleCall(h))
                      == (if h == info.hProcess then 1 else 0) + (if h == info.hThread then 1 else 0))
      && |o.calls| >= 4
      && o.calls[|o.calls| - 2..] == [CloseHandleCall(info.hProcess), CloseHandleCall(info.hThread)]
      && forall i :: 0 <= i < |o.calls| - 2 ==> !o.calls[i].CloseHandleCall?
  {
    var o := RunProcessSpec(cmdLine, r);
    var info := r.create.info;
    var w := WaitForProcessSpec(info.hProcess, r);
    var before := [CreateProcessCall(CreationRequest(cmdLine))] + w.calls;
    var closes := [CloseHandleCall(info.hProcess), CloseHandleCall(info.hThread)];
    assert o.calls == before + closes;
    assert closes[1..] == [CloseHandleCall(info.hThread)];
    assert closes[1..][1..] == [];
    forall h ensures Count(o.calls, CloseHandleCall(h))
                     == (if h == info.hProcess then 1 else 0) + (if h == info.hThread then 1 else 0) {
      CountAppend(before, closes, CloseHandleCall(h));
      CountAbsent(before, CloseHandleCall(h));
      assert Count(closes[1..], CloseHandleCall(h)) == if h == info.hThread then 1 else 0;
    }
  }

  /** With the distinct handles the platform hands out, each is closed exactly once. */
  lemma HandleReleasedOnce(cmdLine: seq<char>, r: Replies)
    requires r.create.Created? && r.create.info.hProcess != r.create.info.hThread
    ensures var o := RunProcessSpec(cmdLine, r);
      && Count(o.calls, CloseHandleCall(r.create.info.hProcess)) == 1
      && Count(o.calls, CloseHandleCall(r.create.info.hThread)) == 1
  {
    HandleRelease(cmdLine, r);
  }

  /** Every launch closes each handle as often as ReleaseCount says, on top of what was closed before. */
  lemma CloseCountsAfter(before: seq<Call>, cmdLine: seq<char>, r: Replies)
    ensures forall h :: Count(before + RunProcessSpec(cmdLine, r).calls, CloseHandleCall(h))
                        == Count(before, CloseHandleCall(h)) + ReleaseCount(r, h)
  {
    var o := RunProcessSpec(cmdLine, r);
    forall h ensures Count(before + o.calls, CloseHandleCall(h)) == Count(before, CloseHandleCall(h)) + ReleaseCount(r, h) {
      CountAppend(before, o.calls, CloseHandleCall(h));
      if r.create.Created? {
        HandleRelease(cmdLine, r);
      } else {
        CreationFailure(cmdLine, r);
      }
    }
  }

  /** Scenario: "cmd.exe /c exit 42" is created, exits with 42, and 42 is returned. */
  lemma ExitFortyTwo(r: Replies)
    requires r.create.Created? && r.wait.value == 0 && r.query == Queried(42)
    ensures RunProcessSpec("cmd.exe /c exit 42", r).exitCode == 42
    ensures RunProcessSpec("cmd.exe /c exit 42", r).events
         == [Event("ProcessCreated", Verbose, [CommandLine("cmd.exe /c exit 42")]),
             Event("ProcessTerminated", Verbose, [ExitCode(42)])]
  {
    var cmdLine := "cmd.exe /c exit 42";
    assert TerminatedPrefix(cmdLine) == cmdLine by {
      assert forall i :: 0 <= i < |cmdLine| ==> cmdLine[i] != '\0';
    }
    NormalExit(cmdLine, r);
  }

  /** Scenario: a program that does not exist fails creation with error 2; 1 is returned. */
  lemma NonexistentProgram(r: Replies)
    requires r.create == CreateFailed(2)
    ensures RunProcessSpec("C:\\nonexistent.exe", r).exitCode == 1
    ensures RunProcessSpec("C:\\nonexistent.exe", r).events
         == [Event("CreateProcessFailed", Error, [WinError(2)])]
  {
  }
}
