# run_hidden, modelled in Dafny

run_hidden is a Windows launch shim. It starts one child process with
`CREATE_NO_WINDOW`, waits for it to terminate, reads its exit status and
returns that status as its own exit code. Each step is reported as a
TraceLogging event. This project models the decision logic of
`run_hidden::wait_for_process`, `run_hidden::run_process` and
`run_hidden::main` (src/main.cpp):

- which events are written, in what order, at what level and with which fields;
- which Win32 calls are made, with which arguments and in what order;
- how often each handle is closed;
- which integer is returned.

## Structure

- `util.dfy` (module `Util`): `Option` with `ValueOr` (`std::optional::value_or`), and `Count` over a sequence with two small lemmas.
- `win32.dfy` (module `Win32`):
  - `DWORD` and `Int32`, and the constants `STILL_ACTIVE` = 259, `WAIT_FAILED` = `INFINITE` = 0xFFFFFFFF and `CREATE_NO_WINDOW` = 0x08000000;
  - `ToInt`, the `static_cast<int>` narrowing (`c < 2^31 ? c : c - 2^32`);
  - the class `Kernel`. It holds the platform's replies as an oracle (`Replies`: creation, wait, status query), a log of every call made (`calls`) and the thread's last-error value. The number of times a handle has been closed is the number of `CloseHandleCall`s for it in that log.
- `trace_logging.dfy` (module `TraceLogging`):
  - the `Event` datatype: a name, a level and typed fields;
  - the class `Provider`: a registration flag and the event sink, a sequence that `Write` only ever appends to.
- `wide_string.dfy` (module `WideStrings`): `std::wstring` reduced to a character sequence, with the copy constructor and `push_back`, to build the null-terminated command-line buffer in place.
- `run_hidden.dfy` (module `RunHidden`):
  - the pure outcome of a launch as a function of the replies (`WaitForProcessSpec`, `RunProcessSpec`);
  - the imperative methods that do the same work step by step (`WaitForProcess`, `RunProcess`, `MainEntry`), each proved to produce exactly that outcome;
  - one lemma per branch of the state machine.

`KnownStatus` is a flat reference definition of the child's status as far as it can be determined. Both spec functions state their returned value in terms of it.

`main` is modelled as `MainEntry`, because Dafny treats a method named `Main` as the program's entry point.

The wait is modelled as WaitForSingleObject's raw return value plus the last error, as the code has it. Only `WAIT_FAILED` counts as failure. Any other return falls through to the status query.

## Model

| member | source | states |
|---|---|---|
| `Win32.ToInt` | src/main.cpp:53 | the narrowed exit code is a signed 32-bit value congruent to the DWORD status modulo 2^32, and equal to it below 2^31 |
| `Win32.NarrowingRoundTrip` | src/main.cpp:53 | read back as an unsigned 32-bit value, the narrowed code is the child's status again, so no information is lost |
| `Util.Option.ValueOr` | src/main.cpp:93 | `value_or(1)`: the held value when there is one, the fallback otherwise |
| `Util.TerminatedPrefix` | src/main.cpp:84 | what a NUL-terminated wide-string read sees: a prefix of the text with no NUL in it, stopping at the first NUL or at the end; the whole text when it holds no NUL |
| `Win32.Kernel.CreateProcess` | src/main.cpp:66-74 | the call is logged with its full argument record; it succeeds exactly when the oracle says so; on success it hands out the oracle's two handles; on failure it leaves the zeroed PROCESS_INFORMATION and sets the last error |
| `Win32.Kernel.WaitForSingleObject` | src/main.cpp:19 | the wait is logged with its handle and time-out; it returns the oracle's value and sets the last error only when that value is WAIT_FAILED |
| `Win32.Kernel.GetExitCodeProcess` | src/main.cpp:28-29 | the query is logged; it succeeds exactly when the oracle says so; the status is written through the out-parameter on success; on failure it sets the last error |
| `Win32.Kernel.CloseHandle` | src/main.cpp:90-91 | the close is logged and nothing else changes |
| `Win32.Kernel.GetLastError` | src/main.cpp:20 | returns the error code left by the last failing call |
| `TraceLogging.Provider.Register` | src/main.cpp:97 | registration needs an unregistered provider and leaves the sink unchanged |
| `TraceLogging.Provider.Unregister` | src/main.cpp:99 | unregistration leaves the sink unchanged |
| `TraceLogging.Provider.Write` | src/main.cpp:21-23 | a write appends exactly one event to the sink and changes nothing else |
| `WideStrings.WideString.constructor` | src/main.cpp:60 | the copy holds exactly the characters of the command-line view |
| `WideStrings.WideString.PushBack` | src/main.cpp:61 | the character is appended in place after the existing ones |
| `RunHidden.ProcessCreated` | src/main.cpp:82-84 | the event is named ProcessCreated, at verbose level (5), with a single CommandLine field read as a NUL-terminated string from the caller's view; that is the whole command line when it holds no NUL; no ExitCode field |
| `RunHidden.CreateProcessFailed` | src/main.cpp:76-78 | the event is named CreateProcessFailed, at error level (2), with a single WinError field holding the captured code |
| `RunHidden.WaitForSingleObjectFailed` | src/main.cpp:21-23 | the event is named WaitForSingleObjectFailed, at error level (2), with a single WinError field holding the captured code; the same event is written at lines 31-33 |
| `RunHidden.InvalidReturnValue` | src/main.cpp:40-43 | the event is named InvalidReturnValue, at warning level (3), with a single FunctionName field |
| `RunHidden.ProcessTerminated` | src/main.cpp:50-52 | the event is named ProcessTerminated, at verbose level (5); it carries an ExitCode field holding the unsigned status exactly when the status is known, and no field otherwise (as at lines 34-35 and 44-45) |
| `RunHidden.CreationRequest` | src/main.cpp:59-74 | CreateProcess gets no application name, no inheritance and CREATE_NO_WINDOW; its command line is the input followed by one NUL, so the platform reads the same NUL-terminated text from it as the log reads from the input |
| `RunHidden.WaitForProcessSpec` | src/main.cpp:18-54 | a value is returned exactly when the status is known, and it is that status narrowed; there is one wait without time-out, and a query only if the wait did not fail; the events end with ProcessTerminated exactly when the wait did not fail; only the last event can carry ExitCode, and it carries it exactly when a value is returned |
| `RunHidden.RunProcessSpec` | src/main.cpp:58-94 | the result is the narrowed child status when the child was created and its status is known, and 1 otherwise; CreateProcess is the first call and is made only once; a failed creation yields exactly one CreateProcessFailed event; a successful one starts with ProcessCreated carrying the original command line |
| `RunHidden.WaitForProcess` | src/main.cpp:18-54 | the events appended, the calls made and the optional code returned are exactly those of WaitForProcessSpec |
| `RunHidden.RunProcess` | src/main.cpp:58-94 | building the buffer in place, creating, waiting and closing append exactly the events and calls of RunProcessSpec, and the method returns its result; each handle's close counter grows by one for each of the two handles CreateProcess handed out, and by nothing when creation failed |
| `RunHidden.MainEntry` | src/main.cpp:96-101 | main registers the provider, runs, unregisters, and returns run_process's result unchanged, with the same events, calls and close counts |
| `RunHidden.CreationRequestShape` | src/main.cpp:59-74 | CreateProcess is asked for no application or environment, no attributes, no inheritance, CREATE_NO_WINDOW and the default directory; its command line has length n+1, its first n characters are the input, and it holds exactly one more NUL than the input, so exactly one for an input without NUL |
| `RunHidden.CreationFailure` | src/main.cpp:75-79 | on failed creation: result 1, the only event is CreateProcessFailed with the captured error code, CreateProcess is the only call, and no handle is closed |
| `RunHidden.CreatedFirst` | src/main.cpp:82-87 | on successful creation, ProcessCreated comes first and no later event is a ProcessCreated; it carries the text read from the original command line, not the terminated copy |
| `RunHidden.WaitFailure` | src/main.cpp:19-25 | a failed wait yields exactly one WaitForSingleObjectFailed event with the error code and no ProcessTerminated; there is no status query; both handles are still closed; result 1 |
| `RunHidden.QueryFailure` | src/main.cpp:29-37 | a failed status query yields WaitForSingleObjectFailed with the error code, then ProcessTerminated without ExitCode; result 1 |
| `RunHidden.StillActiveStatus` | src/main.cpp:38-47 | a status of 259 yields InvalidReturnValue at warning level with FunctionName "GetExitCodeProcess", then ProcessTerminated without ExitCode; result 1, even for a child that really exits with 259 |
| `RunHidden.NormalExit` | src/main.cpp:50-53 | any other status c yields ProcessTerminated with ExitCode = c as the last event; the result is c as a signed 32-bit int, whose 32 bits are c again |
| `RunHidden.HandleRelease` | src/main.cpp:87-91 | after a successful creation, each handle is closed once for each of the two PROCESS_INFORMATION slots it fills, process handle first; those closes are the last two calls, after the wait and the query; no other handle is closed |
| `RunHidden.HandleReleasedOnce` | src/main.cpp:90-91 | with distinct process and thread handles, each is closed exactly once |
| `RunHidden.CloseCountsAfter` | src/main.cpp:75-91 | on every path, a launch adds to each handle's close count exactly the number of PROCESS_INFORMATION slots it fills: two or one after a successful creation, none after a failed one |
| `RunHidden.ExitFortyTwo` | src/main.cpp:50-53 | a child created from "cmd.exe /c exit 42" that exits with 42 yields 42, with the events ProcessCreated(CommandLine) and ProcessTerminated(ExitCode = 42) |
| `RunHidden.NonexistentProgram` | src/main.cpp:75-79 | a creation that fails with error 2 yields 1 and the single event CreateProcessFailed(2) |

## Left out

- The Win32 primitives themselves (CreateProcess, WaitForSingleObject, GetExitCodeProcess, GetLastError, CloseHandle). They are foreign calls. Each is an oracle reply recorded in a call log. `win32.hpp` is not part of this model.
- The blocking, OS-scheduled nature of the infinite wait. The wait is one step that returns a value.
- The TraceLogging provider declaration and its GUID (src/main.cpp:11-14), and the wire encoding of event fields. An event is a name, a level and a list of typed fields.
- `wWinMain` (src/main.cpp:104-107). It only forwards the command line to `main`.
- The fire-and-forget variant that waits for input idle. It does not appear in src/main.cpp.
- `STARTUPINFO`'s `cb` size field (src/main.cpp:64). It has no logic beyond being set.
- CreateProcessW may rewrite its command-line buffer in place. The model records the buffer's contents at the call.
- A command line with embedded NUL characters. CreateProcess would see it truncated at the first one. The ProcessCreated event's CommandLine field is modelled as that truncated text (`TerminatedPrefix`). The CreateProcess request records the whole buffer. `CreationRequest` states that the platform's NUL-terminated reading of the buffer equals the log's. The caller `wWinMain` passes a NUL-terminated `wchar_t*`, so in practice the command line holds no NUL.
- `wchar_t` versus Dafny's `char`: the source works on UTF-16 code units, while a Dafny `char` is a Unicode scalar value. A lone surrogate cannot be represented in the model. A character outside the Basic Multilingual Plane is one `char` in the model but two `wchar_t` units in the source, so the length n+1 counts characters, not UTF-16 units.
- CloseHandle's BOOL result. The source ignores it.
- The platform's guarantee that the process and thread handles are distinct. It is a precondition of `RunHidden.HandleReleasedOnce` only. `RunHidden.HandleRelease` and `RunHidden.CloseCountsAfter` also cover equal handles, which would be closed twice.
- Win32.Kernel.GetExitCodeProcess: the status written through the out-parameter on failure is left unspecified, because the source never reads it on that path.
- TraceLogging.Provider.Write: requires a registered provider. TraceLogging silently drops writes on an unregistered provider. In the source, `run_process` only runs between `TraceLoggingRegister` and `TraceLoggingUnregister`. So `WaitForProcess` and `RunProcess` also require a registered provider.
- A non-empty command line is the intended input, but src/main.cpp never checks for it. The model follows the code and has no such precondition: an empty command line is passed on, and CreateProcess's reply decides the outcome.
