/**
 * TraceLogging reduced to what run_hidden can observe: a provider that is
 * registered, written to and unregistered, and the events it has received.
 */
module TraceLogging {
  import opened Win32

  /** The WINEVENT_LEVEL_* severities run_hidden uses. */
  datatype Level = Error | Warning | Verbose {
    /** The numeric WINEVENT_LEVEL_* value. */
    function Value(): nat {
      match this
      case Error => 2
      case Warning => 3
      case Verbose => 5
    }
  }

  /** The typed fields run_hidden attaches to its events. */
  datatype Field =
    | WinError(code: DWORD)           // TraceLoggingWinError
    | CommandLine(text: seq<char>)    // wide-string field "CommandLine"
    | ExitCode(status: DWORD)         // field "ExitCode", logged as the unsigned status
    | FunctionName(name: string)      // field "FunctionName"

  /** One event: its name, its level and its fields, in order. */
  datatype Event = Event(name: string, level: Level, fields: seq<Field>)

  /** The process-wide logging provider and the sink it writes to. */
  class Provider {
    var registered: bool
    var events: seq<Event>

    constructor ()
      ensures !registered && events == []
    {
      registered := false;
      events := [];
    }

    /** TraceLoggingRegister; registration is not re-entrant. */
    method Register()
      requires !registered
      modifies this
      ensures registered && events == old(events)
    {
      registered := true;
    }

    /** TraceLoggingUnregister. */
    method Unregister()
      requires registered
      modifies this
      ensures !registered && events == old(events)
    {
      registered := false;
    }

    /** TraceLoggingWrite: the sink only ever grows, by one event per write. */
    method Write(e: Event)
      requires registered
      modifies this
      ensures registered && events == old(events) + [e]
    {
      events := events + [e];
    }
  }
}
