/** The logging sink shared by both clients (`ILogger`). The window that
    displays the lines is not modelled: the sink records them in order. */
module Logging {

  /** `LogLevel`: Trace = 0, Info = 1, Error = 2. */
  datatype LogLevel = Trace | Info | Error

  datatype LogEntry = LogEntry(message: string, level: LogLevel)

  /** The number of entries logged at level `Error`. */
  function ErrorCount(logs: seq<LogEntry>): (n: nat)
    ensures n <= |logs|
    ensures n == 0 <==> forall k :: 0 <= k < |logs| ==> logs[k].level != Error
  {
    if logs == [] then 0
    else ErrorCount(logs[..|logs| - 1]) + (if logs[|logs| - 1].level == Error then 1 else 0)
  }

  /** Errors in a concatenation are the errors of its parts. */
  lemma {:induction false} ErrorCountAppend(a: seq<LogEntry>, b: seq<LogEntry>)
    ensures ErrorCount(a + b) == ErrorCount(a) + ErrorCount(b)
    decreases |b|
  {
    if b != [] {
      assert (a + b)[..|a + b| - 1] == a + b[..|b| - 1];
      ErrorCountAppend(a, b[..|b| - 1]);
    } else {
      assert a + b == a;
    }
  }

  class Logger {
    var entries: seq<LogEntry>

    constructor ()
      ensures entries == []
    {
      entries := [];
    }

    /** `ILogger.Log(message, level)`. */
    method Log(message: string, level: LogLevel)
      modifies this
      ensures entries == old(entries) + [LogEntry(message, level)]
    {
      entries := entries + [LogEntry(message, level)];
    }
  }
}
