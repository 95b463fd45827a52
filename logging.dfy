/** The log stream: App's `logs` state, to which every agent's `log` call
    appends exactly one entry (BaseAgent.log feeding App.addLog). */
module Logging {
  import opened Types

  class LogSink {
    var entries: seq<LogEntry>

    constructor ()
      ensures entries == []
    {
      entries := [];
    }

    /** BaseAgent.log: one entry, appended, nothing else touched. */
    method Log(agent: string, message: string, kind: LogKind)
      modifies this
      ensures entries == old(entries) + [LogEntry(agent, message, kind)]
    {
      entries := entries + [LogEntry(agent, message, kind)];
    }

    /** `setLogs([])` */
    method Clear()
      modifies this
      ensures entries == []
    {
      entries := [];
    }
  }

  /** Logs written one after the other read the same however the pieces are
      grouped. */
  lemma AppendAssoc(a: seq<LogEntry>, b: seq<LogEntry>, c: seq<LogEntry>)
    ensures a + b + c == a + (b + c)
  {
  }
}
