/**
 * The part of the Win32 API that run_hidden uses, reduced to what its decision
 * logic can observe. Every primitive is an oracle: the kernel is built with the
 * replies it will give, and it records each call it receives, in order.
 */
module Win32 {
  import opened Util

  const DWORD_MODULUS: int := 0x1_0000_0000

  /** An unsigned 32-bit DWORD. */
  type DWORD = x: int | 0 <= x < 0x1_0000_0000

  /** A signed 32-bit C++ `int`. */
  type Int32 = x: int | -0x8000_0000 <= x < 0x8000_0000

  /** GetExitCodeProcess's "the process has not terminated yet" status. */
  const STILL_ACTIVE: DWORD := 259
  /** WaitForSingleObject's failure return. */
  const WAIT_FAILED: DWORD := 0xFFFF_FFFF
  /** WaitForSingleObject's "no time-out" value. */
  const INFINITE: DWORD := 0xFFFF_FFFF
  /** The CreateProcess flag that gives a console child no console window. */
  const CREATE_NO_WINDOW: DWORD := 0x0800_0000

  /** static_cast<int> of a DWORD: two's-complement reinterpretation of the 32 bits. */
  function ToInt(c: DWORD): (r: Int32)
    ensures (r - c) % DWORD_MODULUS == 0
    ensures c < 0x8000_0000 ==> r == c
  {
    if c < 0x8000_0000 then c else c - DWORD_MODULUS
  }

  /** The `int` read back as an unsigned 32-bit value, as the OS stores a process exit code. */
  function ToDword(r: Int32): (c: DWORD)
    ensures (c - r) % DWORD_MODULUS == 0
    ensures r >= 0 ==> c == r
  {
    r % DWORD_MODULUS
  }

  /** Narrowing a DWORD to an `int` loses no information. */
  lemma NarrowingRoundTrip(c: DWORD)
    ensures ToDword(ToInt(c)) == c
  {
  }

  /** An opaque kernel handle value. */
  type Handle = nat

  /** PROCESS_INFORMATION, reduced to the two handles the caller owns. */
  datatype ProcessInformation = ProcessInformation(hProcess: Handle, hThread: Handle)

  /** SECURITY_ATTRIBUTES, reduced to its inheritance flag. */
  datatype SecurityAttributes = SecurityAttributes(inheritHandle: bool)

  /** The arguments of one CreateProcess call; `None` stands for a null pointer. */
  datatype CreateRequest = CreateRequest(
    applicationName: Option<seq<char>>,
    commandLine: seq<char>,
    processAttributes: Option<SecurityAttributes>,
    threadAttributes: Option<SecurityAttributes>,
    inheritHandles: bool,
    creationFlags: DWORD,
    environment: Option<seq<char>>,
    currentDirectory: Option<seq<char>>)

  /** What CreateProcess does: start the child and hand out its handles, or fail with an error code. */
  datatype CreateReply = Created(info: ProcessInformation) | CreateFailed(error: DWORD)

  /** What WaitForSingleObject returns, and the last error it leaves behind. */
  datatype WaitReply = WaitReply(value: DWORD, error: DWORD)

  /** What GetExitCodeProcess does: report the status, or fail with an error code. */
  datatype QueryReply = Queried(exitCode: DWORD) | QueryFailed(error: DWORD)

  /** The replies the platform gives during one launch. */
  datatype Replies = Replies(create: CreateReply, wait: WaitReply, query: QueryReply)

  /** One Win32 call, as the kernel sees it. */
  datatype Call =
    | CreateProcessCall(request: CreateRequest)
    | WaitForSingleObjectCall(handle: Handle, milliseconds: DWORD)
    | GetExitCodeProcessCall(handle: Handle)
    | CloseHandleCall(handle: Handle)

  /** The platform seen from one process: a call log and the thread's last-error value. */
  class Kernel {
    const replies: Replies
    var calls: seq<Call>
    var lastError: DWORD

    /** How many times `h` has been closed so far. */
    ghost function CloseCount(h: Handle): nat
      reads this
    {
      Count(calls, CloseHandleCall(h))
    }

    constructor (replies: Replies)
      ensures this.replies == replies && calls == [] && lastError == 0
    {
      this.replies := replies;
      calls := [];
      lastError := 0;
    }

    /** CreateProcessW; on failure the returned information is the caller's zero-initialised value. */
    method CreateProcess(request: CreateRequest) returns (ok: bool, info: ProcessInformation)
      modifies this
      ensures calls == old(calls) + [CreateProcessCall(request)]
      ensures ok == replies.create.Created?
      ensures ok ==> info == replies.create.info && lastError == old(lastError)
      ensures !ok ==> info == ProcessInformation(0, 0) && lastError == replies.create.error
    {
      calls := calls + [CreateProcessCall(request)];
      match replies.create
      case Created(i) =>
        ok, info := true, i;
      case CreateFailed(e) =>
        ok, info := false, ProcessInformation(0, 0);
        lastError := e;
    }

    /** WaitForSingleObject. */
    method WaitForSingleObject(h: Handle, milliseconds: DWORD) returns (value: DWORD)
      modifies this
      ensures calls == old(calls) + [WaitForSingleObjectCall(h, milliseconds)]
      ensures value == replies.wait.value
      ensures lastError == if value == WAIT_FAILED then replies.wait.error else old(lastError)
    {
      calls := calls + [WaitForSingleObjectCall(h, milliseconds)];
      value := replies.wait.value;
      if value == WAIT_FAILED {
        lastError := replies.wait.error;
      }
    }

    /** GetExitCodeProcess; the status written through the out-parameter is unspecified on failure. */
    method GetExitCodeProcess(h: Handle) returns (ok: bool, exitCode: DWORD)
      modifies this
      ensures calls == old(calls) + [GetExitCodeProcessCall(h)]
      ensures ok == replies.query.Queried?
      ensures ok ==> exitCode == replies.query.exitCode && lastError == old(lastError)
      ensures !ok ==> lastError == replies.query.error
    {
      calls := calls + [GetExitCodeProcessCall(h)];
      match replies.query
      case Queried(c) =>
        ok, exitCode := true, c;
      case QueryFailed(e) =>
        ok, exitCode := false, 0;
        lastError := e;
    }

    /** CloseHandle; its own result is ignored by run_hidden, so it is not modelled. */
    method CloseHandle(h: Handle)
      modifies this
      ensures calls == old(calls) + [CloseHandleCall(h)]
      ensures lastError == old(lastError)
    {
      calls := calls + [CloseHandleCall(h)];
    }

    /** GetLastError. */
    method GetLastError() returns (e: DWORD)
      ensures e == lastError
    {
      e := lastError;
    }
  }
}
