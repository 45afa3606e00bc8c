/** The structured logger that the command runner writes to (a logrus
    `*Logger` shared by reference). Formatting and output are not modelled:
    the logger is the sequence of records it has been handed. */
module Logging {

  /** The logrus severities. */
  datatype Level = Panic | Fatal | Error | Warn | Info | Debug | Trace

  datatype LogEntry =
      /** `log.Logf(level, ...)`, `log.Warnf(...)`: a formatted message at a level. */
    | Entry(level: Level, msg: string)
      /** `log.WithField("path", path).WithField("args", args).Info("starting command")`. */
    | CommandStart(path: string, args: seq<string>)

  class Logger {
    var entries: seq<LogEntry>

    constructor ()
      ensures entries == []
    {
      entries := [];
    }

    method Log(level: Level, msg: string)
      modifies this
      ensures entries == old(entries) + [Entry(level, msg)]
    {
      entries := entries + [Entry(level, msg)];
    }

    method LogCommandStart(path: string, args: seq<string>)
      modifies this
      ensures entries == old(entries) + [CommandStart(path, args)]
    {
      entries := entries + [CommandStart(path, args)];
    }
  }
}
