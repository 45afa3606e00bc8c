/** Running an external command while draining its standard output and
    standard error into the logger (pkg/logcmd/logcmd.go). Every effect of
    the operating system is an oracle value: what a pipe delivers and how
    reading it ends (`Pipe`), and how creating the pipes, starting and
    waiting for the process turn out (`Process`). */
module Logcmd {
  import opened Errors
  import opened Logging
  import opened Lines

  /** What the code reads from a `context.Context` without waiting: its
      deadline, as `%v` prints it. What `ctx.Err()` reports depends on the
      moment it is asked, so it comes with the oracle at each point where the
      code asks. A nil context is `None` wherever the code accepts one. */
  datatype Context = Context(deadline: Option<string>)

  /** `context.Background()`: never has a deadline. */
  const Background: Context := Context(None)

  /** The error `ctx.Err()` reports once a context's deadline has passed. */
  const DeadlineExceeded: Error := Cause("context deadline exceeded")

  /** How `ReadString` on a pipe ends once no complete line is left. */
  datatype StreamEnd =
    | EOF
      /** The read deadline passed; `ctxErr` is what `ctx.Err()` reports then. */
    | Timeout(ctxErr: Option<Error>)
    | ReadFailure(err: Error)

  /** The operating-system side of one output pipe: the data read from it
      before reading ended (the child may write more after a timeout or a
      read failure, which is never read), how reading ends, and whether
      `SetDeadline` refuses the deadline. */
  datatype Pipe = Pipe(data: string, end: StreamEnd, rejectsDeadline: bool)

  datatype Role = Stdout | Stderr

  function RoleName(role: Role): string
  {
    match role
    case Stdout => "stdout"
    case Stderr => "stderr"
  }

  /** The prefix each logged line of a stream carries. */
  function Prefix(role: Role): string
  {
    RoleName(role) + "> "
  }

  /** A read can only time out when a context supplied the deadline
      (with a nil context, the timeout branch would dereference nil). */
  predicate Admissible(ctx: Option<Context>, f: Pipe)
  {
    f.end.Timeout? ==> ctx.Some?
  }

  /** `fmt.Errorf("read timeout due to context: %w", ctx.Err())`; with a nil
      `ctx.Err()` the verb has no error to wrap and prints as `%!w(<nil>)`. */
  function TimeoutError(ctxErr: Option<Error>): Error
  {
    match ctxErr
    case Some(e) => Wrapped("read timeout due to context", e)
    case None => Cause("read timeout due to context: %!w(<nil>)")
  }

  /** What a drain returns for each way the stream can end. */
  function DrainResult(end: StreamEnd): (r: Option<Error>)
    ensures r.None? <==> end.EOF?
    ensures end.ReadFailure? ==> r == Some(end.err)
    ensures end.Timeout? && end.ctxErr.Some? ==>
              r.Some? && r.value != end.ctxErr.value && Wraps(r.value, end.ctxErr.value)
              && Message(r.value) == "read timeout due to context: " + Message(end.ctxErr.value)
  {
    match end
    case EOF => None
    case Timeout(ctxErr) => Some(TimeoutError(ctxErr))
    case ReadFailure(e) => Some(e)
  }

  /** The warning logged when the pipe refuses the context's deadline. */
  function DeadlineWarning(ctx: Option<Context>, f: Pipe): seq<LogEntry>
  {
    if ctx.Some? && ctx.value.deadline.Some? && f.rejectsDeadline
    then [Entry(Warn, "ctx deadline (" + ctx.value.deadline.value + ") will not be respected")]
    else []
  }

  /** One record per line, at `level`, with the message `prefix + line`. */
  function LineEntries(prefix: string, level: Level, lines: seq<string>): seq<LogEntry>
  {
    seq(|lines|, i requires 0 <= i < |lines| => Entry(level, prefix + lines[i]))
  }

  /** Everything one drain logs. */
  function DrainLog(ctx: Option<Context>, f: Pipe, prefix: string, level: Level): seq<LogEntry>
  {
    DeadlineWarning(ctx, f) + LineEntries(prefix, level, CompleteLines(f.data))
  }

  /** The `bufio.Reader` over one pipe. */
  class LineReader {
    const data: string
    const end: StreamEnd
    var pos: nat

    ghost predicate Valid()
      reads this
    {
      pos <= |data|
    }

    constructor (f: Pipe)
      ensures Valid() && data == f.data && end == f.end && pos == 0
    {
      data, end, pos := f.data, f.end, 0;
    }

    /** `ReadString('\n')`: the text up to and including the next '\n', or,
        when there is none, the rest of the stream together with how it ended. */
    method ReadString() returns (line: string, err: Option<StreamEnd>)
      requires Valid()
      modifies this
      ensures Valid()
      ensures err == None <==> old(pos) + FirstNewline(data[old(pos)..]) < |data|
      ensures err == None ==> pos == old(pos) + FirstNewline(data[old(pos)..]) + 1 && line == data[old(pos)..pos]
      ensures err != None ==> pos == |data| && line == data[old(pos)..] && err == Some(end)
    {
      var rest := data[pos..];
      var k := FirstNewline(rest);
      if k < |rest| {
        line, pos, err := rest[..k + 1], pos + k + 1, None;
      } else {
        line, pos, err := rest, |data|, Some(end);
      }
    }
  }

  /** The deadline part of `logReader`: with a context that has a deadline,
      put it on the pipe, and warn when the pipe refuses it. */
  method ApplyDeadline(ctx: Option<Context>, file: Pipe, log: Logger)
    modifies log
    ensures log.entries == old(log.entries) + DeadlineWarning(ctx, file)
  {
    if ctx.Some? && ctx.value.deadline.Some? {
      if file.rejectsDeadline {
        log.Log(Warn, "ctx deadline (" + ctx.value.deadline.value + ") will not be respected");
      }
    }
  }

  /** `logReader`: drain one pipe into the logger, one record per complete
      line, and report how the stream ended. */
  method LogReader(ctx: Option<Context>, file: Pipe, log: Logger, prefix: string, level: Level)
    returns (err: Option<Error>)
    requires Admissible(ctx, file)
    modifies log
    ensures err == DrainResult(file.end)
    ensures log.entries == old(log.entries) + DrainLog(ctx, file, prefix, level)
  {
    ApplyDeadline(ctx, file, log);
    ghost var warned := log.entries;
    var rd := new LineReader(file);
    ghost var logged: seq<string> := [];
    while true
      invariant rd.Valid() && rd.data == file.data && rd.end == file.end
      invariant logged + CompleteLines(file.data[rd.pos..]) == CompleteLines(file.data)
      invariant log.entries == warned + LineEntries(prefix, level, logged)
      decreases |file.data| - rd.pos
    {
      ghost var before := rd.pos;
      var line, readErr := rd.ReadString();
      if readErr.Some? {
        NoCompleteLineLeft(file.data[before..]);
        assert logged == CompleteLines(file.data);
        ghost var lines := LineEntries(prefix, level, logged);
        assert DrainLog(ctx, file, prefix, level) == DeadlineWarning(ctx, file) + lines;
        Assoc(old(log.entries), DeadlineWarning(ctx, file), lines);
        match readErr.value
        case EOF => return None;
        case Timeout(ctxErr) => return Some(TimeoutError(ctxErr));
        case ReadFailure(e) => return Some(e);
      }
      NextCompleteLine(file.data, before, rd.pos);
      ghost var tail := CompleteLines(file.data[rd.pos..]);
      ghost var whole := CompleteLines(file.data[before..]);
      assert whole == [line] + tail;
      SeqShift(logged, line, tail, whole);
      log.Log(level, prefix + line);
      LineEntriesAppend(prefix, level, logged, line);
      Assoc(warned, LineEntries(prefix, level, logged), [Entry(level, prefix + line)]);
      logged := logged + [line];
    }
  }

  lemma NoCompleteLineLeft(rest: string)
    requires FirstNewline(rest) == |rest|
    ensures CompleteLines(rest) == []
  {
  }

  lemma NextCompleteLine(data: string, pos: nat, next: nat)
    requires pos <= |data|
    requires next == pos + FirstNewline(data[pos..]) + 1 <= |data|
    ensures CompleteLines(data[pos..]) == [data[pos..next]] + CompleteLines(data[next..])
  {
    var k := FirstNewline(data[pos..]);
    assert data[pos..][k + 1..] == data[next..];
    assert data[pos..][..k + 1] == data[pos..next];
  }

  lemma Assoc<T>(a: seq<T>, b: seq<T>, c: seq<T>)
    ensures (a + b) + c == a + (b + c)
  {
  }

  lemma SeqShift<T>(a: seq<T>, x: T, b: seq<T>, c: seq<T>)
    requires c == [x] + b
    ensures (a + [x]) + b == a + c
  {
  }

  lemma LineEntriesAppend(prefix: string, level: Level, lines: seq<string>, line: string)
    ensures LineEntries(prefix, level, lines + [line]) == LineEntries(prefix, level, lines) + [Entry(level, prefix + line)]
  {
  }

  /** A command as `exec.Cmd` carries it: the resolved path and the full
      argument vector (whose first element is the name it was invoked by). */
  datatype Cmd = Cmd(path: string, args: seq<string>)

  /** The operating-system side of one command run. */
  datatype Process = Process(
    resolvedPath: string,       // what exec resolves the command name to
    stderrPipe: Option<Error>,  // failure of cmd.StderrPipe()
    stdoutPipe: Option<Error>,  // failure of cmd.StdoutPipe()
    start: Option<Error>,       // failure of cmd.Start()
    stdout: Pipe,
    stderr: Pipe,
    wait: Option<Error>,        // what cmd.Wait() returns
    ctxErrAfterWait: Option<Error>) // what ctx.Err() reports after cmd.Wait()

  predicate PipesOpen(p: Process)
  {
    p.stderrPipe.None? && p.stdoutPipe.None?
  }

  predicate Launched(p: Process)
  {
    PipesOpen(p) && p.start.None?
  }

  /** The error a run returns. */
  function RunResult(ctx: Option<Context>, p: Process): Option<Error>
  {
    if p.stderrPipe.Some? then Some(Wrapped("StdErrPipe() failed", p.stderrPipe.value))
    else if p.stdoutPipe.Some? then Some(Wrapped("StdOutPipe() failed", p.stdoutPipe.value))
    else if p.start.Some? then Some(Wrapped("failed to execute command", p.start.value))
    else if ctx.Some? && p.ctxErrAfterWait.Some? then p.ctxErrAfterWait
    else p.wait
  }

  /** The warning logged when a drain fails. */
  function DrainWarning(role: Role, r: Option<Error>): seq<LogEntry>
  {
    if r.Some? then [Entry(Warn, "failed to read from " + RoleName(role) + ": " + Message(r.value))] else []
  }

  /** Everything the drain of one stream logs, its failure warning included. */
  function DrainReport(ctx: Option<Context>, f: Pipe, role: Role, level: Level): seq<LogEntry>
  {
    DrainLog(ctx, f, Prefix(role), level) + DrainWarning(role, DrainResult(f.end))
  }

  /** Everything a run logs, with the two drains taken one after the other. */
  function RunLog(ctx: Option<Context>, cmd: Cmd, p: Process, stdoutLevel: Level, stderrLevel: Level): seq<LogEntry>
  {
    if !PipesOpen(p) then []
    else [CommandStart(cmd.path, cmd.args)]
         + if p.start.Some? then []
           else DrainReport(ctx, p.stdout, Stdout, stdoutLevel) + DrainReport(ctx, p.stderr, Stderr, stderrLevel)
  }

  /** The steps of one run, as they happen. */
  datatype Event =
    | PipeOpened(role: Role)
    | StartCalled
    | Drained(role: Role, err: Option<Error>)
    | Joined                      // both drains are done (wg.Wait())
    | Waited(err: Option<Error>)  // cmd.Wait() returned
    | PipeClosed(role: Role)      // a deferred Close()

  ghost predicate DrainedBefore(trace: seq<Event>, role: Role, i: int)
  {
    exists j | 0 <= j < i && j < |trace| :: trace[j].Drained? && trace[j].role == role
  }

  /** The process is reaped only after both streams have been drained. */
  ghost predicate DrainsBeforeWait(trace: seq<Event>)
  {
    forall i | 0 <= i < |trace| && trace[i].Waited? ::
      DrainedBefore(trace, Stdout, i) && DrainedBefore(trace, Stderr, i)
  }

  ghost predicate Drains(trace: seq<Event>)
  {
    exists i | 0 <= i < |trace| :: trace[i].Drained?
  }

  ghost predicate Reaps(trace: seq<Event>)
  {
    exists i | 0 <= i < |trace| :: trace[i].Waited?
  }

  /** Every pipe that was opened is closed again, and none that was not. */
  ghost predicate PipesReleased(trace: seq<Event>)
  {
    forall role: Role :: PipeOpened(role) in trace <==> PipeClosed(role) in trace
  }

  /** The body of one draining goroutine: drain the stream, and turn a
      failure into a warning. */
  method DrainStream(ctx: Option<Context>, f: Pipe, role: Role, log: Logger, level: Level)
    returns (err: Option<Error>)
    requires Admissible(ctx, f)
    modifies log
    ensures err == DrainResult(f.end)
    ensures log.entries == old(log.entries) + DrainReport(ctx, f, role, level)
  {
    err := LogReader(ctx, f, log, Prefix(role), level);
    if err.Some? {
      log.Log(Warn, "failed to read from " + RoleName(role) + ": " + Message(err.value));
    }
  }

  /** The events of a run, given how the drains ended. */
  ghost function RunTrace(p: Process, outErr: Option<Error>, errErr: Option<Error>): seq<Event>
  {
    if p.stderrPipe.Some? then []
    else if p.stdoutPipe.Some? then [PipeOpened(Stderr), PipeClosed(Stderr)]
    else if p.start.Some? then
      [PipeOpened(Stderr), PipeOpened(Stdout), StartCalled, PipeClosed(Stdout), PipeClosed(Stderr)]
    else
      [PipeOpened(Stderr), PipeOpened(Stdout), StartCalled,
       Drained(Stdout, outErr), Drained(Stderr, errErr), Joined,
       Waited(p.wait), PipeClosed(Stdout), PipeClosed(Stderr)]
  }

  /** `runAndLogCommand`. */
  method RunAndLogWithLevels(ctx: Option<Context>, cmd: Cmd, log: Logger,
                             stdoutLevel: Level, stderrLevel: Level, p: Process)
    returns (err: Option<Error>, ghost trace: seq<Event>)
    requires Admissible(ctx, p.stdout) && Admissible(ctx, p.stderr)
    modifies log
    ensures err == RunResult(ctx, p)
    ensures log.entries == old(log.entries) + RunLog(ctx, cmd, p, stdoutLevel, stderrLevel)
    ensures trace == RunTrace(p, DrainResult(p.stdout.end), DrainResult(p.stderr.end))
  {
    trace := [];
    if p.stderrPipe.Some? {
      return Some(Wrapped("StdErrPipe() failed", p.stderrPipe.value)), trace;
    }
    trace := trace + [PipeOpened(Stderr)];
    if p.stdoutPipe.Some? {
      trace := trace + [PipeClosed(Stderr)];
      return Some(Wrapped("StdOutPipe() failed", p.stdoutPipe.value)), trace;
    }
    trace := trace + [PipeOpened(Stdout)];

    log.LogCommandStart(cmd.path, cmd.args);
    trace := trace + [StartCalled];
    if p.start.Some? {
      trace := trace + [PipeClosed(Stdout), PipeClosed(Stderr)];
      return Some(Wrapped("failed to execute command", p.start.value)), trace;
    }

    var outErr := DrainStream(ctx, p.stdout, Stdout, log, stdoutLevel);
    trace := trace + [Drained(Stdout, outErr)];
    var errErr := DrainStream(ctx, p.stderr, Stderr, log, stderrLevel);
    trace := trace + [Drained(Stderr, errErr), Joined];
    assert log.entries == (old(log.entries) + [CommandStart(cmd.path, cmd.args)])
                          + DrainReport(ctx, p.stdout, Stdout, stdoutLevel)
                          + DrainReport(ctx, p.stderr, Stderr, stderrLevel);

    var ret := p.wait;
    trace := trace + [Waited(ret)];
    if ctx.Some? && p.ctxErrAfterWait.Some? {
      err := p.ctxErrAfterWait;
    } else {
      err := ret;
    }
    trace := trace + [PipeClosed(Stdout), PipeClosed(Stderr)];
  }

  /** Whatever the pipes, the start and the drains do: `Start` is attempted
      exactly when both pipes exist, the streams are drained and the process
      reaped exactly when it started, the process is reaped only after both
      drains, and every pipe opened is closed. */
  lemma {:induction false} RunTraceOrdered(p: Process, outErr: Option<Error>, errErr: Option<Error>)
    ensures var trace := RunTrace(p, outErr, errErr);
            && (StartCalled in trace <==> PipesOpen(p))
            && (Drains(trace) <==> Launched(p))
            && (Reaps(trace) <==> Launched(p))
            && DrainsBeforeWait(trace)
            && PipesReleased(trace)
  {
    var trace := RunTrace(p, outErr, errErr);
    if Launched(p) {
      assert trace[3].Drained? && trace[4].Drained? && trace[6].Waited?;
      assert DrainedBefore(trace, Stdout, 6) && DrainedBefore(trace, Stderr, 6);
    }
  }

  /** `RunAndLogCommand`: no context, stdout at Info and stderr at Warn. */
  method RunAndLogCommand(cmd: Cmd, log: Logger, p: Process)
    returns (err: Option<Error>, ghost trace: seq<Event>)
    requires Admissible(None, p.stdout) && Admissible(None, p.stderr)
    modifies log
    ensures err == RunResult(None, p)
    ensures log.entries == old(log.entries) + RunLog(None, cmd, p, Info, Warn)
    ensures trace == RunTrace(p, DrainResult(p.stdout.end), DrainResult(p.stderr.end))
  {
    err, trace := RunAndLogWithLevels(None, cmd, log, Info, Warn, p);
  }

  /** The command `exec.CommandContext(ctx, name, args...)` builds. */
  function CommandFor(name: string, args: seq<string>, p: Process): (c: Cmd)
    ensures c.path == p.resolvedPath
    ensures |c.args| == |args| + 1 && c.args[0] == name && c.args[1..] == args
  {
    Cmd(p.resolvedPath, [name] + args)
  }

  /** `RunAndLogCommandContext`: the given context, stdout at Info and stderr at Warn. */
  method RunAndLogCommandContext(ctx: Context, log: Logger, cmd0: string, cmdArgs: seq<string>, p: Process)
    returns (err: Option<Error>, ghost trace: seq<Event>)
    modifies log
    ensures err == RunResult(Some(ctx), p)
    ensures log.entries == old(log.entries) + RunLog(Some(ctx), CommandFor(cmd0, cmdArgs, p), p, Info, Warn)
    ensures trace == RunTrace(p, DrainResult(p.stdout.end), DrainResult(p.stderr.end))
  {
    var cmd := CommandFor(cmd0, cmdArgs, p);
    err, trace := RunAndLogWithLevels(Some(ctx), cmd, log, Info, Warn, p);
  }

  // ---------------------------------------------------------------------
  // Properties of a drain

  /** A drain logs, after the possible deadline warning, one record per '\n'
      of the stream, each the prefix followed by that line, in input order;
      the lines followed by the unlogged fragment give back the stream. */
  lemma {:induction false} DrainLogsEveryLine(ctx: Option<Context>, f: Pipe, prefix: string, level: Level)
    ensures var entries := DrainLog(ctx, f, prefix, level);
            var w := |DeadlineWarning(ctx, f)|;
            var lines := CompleteLines(f.data);
            && w <= 1
            && |entries| == w + CountNewlines(f.data)
            && (forall i | 0 <= i < |lines| :: entries[w + i] == Entry(level, prefix + lines[i]))
            && Concat(lines) + Unterminated(f.data) == f.data
  {
    OneLinePerNewline(f.data);
    LinesReassemble(f.data);
  }

  /** A stream that is a sequence of complete lines followed by an
      unterminated fragment logs exactly those lines; the fragment is dropped. */
  lemma DrainLogsGivenLines(ctx: Option<Context>, lines: seq<string>, tail: string, end: StreamEnd,
                            prefix: string, level: Level)
    requires forall i | 0 <= i < |lines| :: IsLine(lines[i])
    requires '\n' !in tail
    ensures DrainLog(ctx, Pipe(Concat(lines) + tail, end, false), prefix, level)
            == LineEntries(prefix, level, lines)
  {
    SplitJoin(lines, tail);
  }

  // ---------------------------------------------------------------------
  // Properties of a run

  /** A run succeeds exactly when both pipes were created, the process
      started, no context reports an error after the wait, and the wait
      succeeded. */
  lemma RunSucceedsIff(ctx: Option<Context>, p: Process)
    ensures RunResult(ctx, p).None? <==>
              Launched(p) && (ctx.None? || p.ctxErrAfterWait.None?) && p.wait.None?
  {
  }

  /** Failures before the process runs are reported wrapped, with their own
      message, and nothing beyond the start record is logged. */
  lemma SetupFailures(ctx: Option<Context>, cmd: Cmd, p: Process, outLevel: Level, errLevel: Level)
    ensures p.stderrPipe.Some? ==>
              RunResult(ctx, p) == Some(Wrapped("StdErrPipe() failed", p.stderrPipe.value))
              && RunLog(ctx, cmd, p, outLevel, errLevel) == []
    ensures p.stderrPipe.None? && p.stdoutPipe.Some? ==>
              RunResult(ctx, p) == Some(Wrapped("StdOutPipe() failed", p.stdoutPipe.value))
              && RunLog(ctx, cmd, p, outLevel, errLevel) == []
    ensures PipesOpen(p) && p.start.Some? ==>
              RunResult(ctx, p) == Some(Wrapped("failed to execute command", p.start.value))
              && RunLog(ctx, cmd, p, outLevel, errLevel) == [CommandStart(cmd.path, cmd.args)]
  {
  }

  /** Once the process ran, an error reported by the context wins over
      whatever the wait returned. */
  lemma ContextErrorWins(ctx: Context, p: Process, wait: Option<Error>)
    requires Launched(p) && p.ctxErrAfterWait.Some?
    ensures RunResult(Some(ctx), p.(wait := wait)) == p.ctxErrAfterWait
  {
  }

  /** Without a context, or while the context reports no error, the result is the wait's. */
  lemma WaitResultOtherwise(ctx: Option<Context>, p: Process)
    requires Launched(p) && (ctx.None? || p.ctxErrAfterWait.None?)
    ensures RunResult(ctx, p) == p.wait
  {
  }

  /** Drain failures never become the result: the result is the same
      whatever the two streams deliver and however they end. */
  lemma DrainErrorsNotReturned(ctx: Option<Context>, p: Process, out: Pipe, err: Pipe)
    ensures RunResult(ctx, p.(stdout := out, stderr := err)) == RunResult(ctx, p)
  {
  }

  /** `echo hello`: one stdout record, no stderr record, success. */
  lemma EchoHello(cmd: Cmd, p: Process)
    requires Launched(p) && p.wait.None?
    requires p.stdout == Pipe("hello\n", EOF, false) && p.stderr == Pipe("", EOF, false)
    ensures RunResult(None, p) == None
    ensures RunLog(None, cmd, p, Info, Warn) == [CommandStart(cmd.path, cmd.args), Entry(Info, "stdout" + "> " + "hello\n")]
  {
    assert LineEntries(Prefix(Stdout), Info, ["hello\n"]) == [Entry(Info, Prefix(Stdout) + "hello\n")];
    assert Concat(["hello\n"]) + "" == "hello\n";
    DrainLogsGivenLines(None, ["hello\n"], "", EOF, Prefix(Stdout), Info);
    assert Concat([]) + "" == "";
    DrainLogsGivenLines(None, [], "", EOF, Prefix(Stderr), Warn);
  }

  /** A silent command with a deadline that expires: both drains time out
      and are only logged, and the deadline error is returned even though the
      wait reports the kill. */
  lemma DeadlineBeatsKill(cmd: Cmd, p: Process, deadline: string)
    requires Launched(p)
    requires p.stdout == Pipe("", Timeout(Some(DeadlineExceeded)), false)
    requires p.stderr == Pipe("", Timeout(Some(DeadlineExceeded)), false)
    requires p.wait == Some(Cause("signal: killed")) && p.ctxErrAfterWait == Some(DeadlineExceeded)
    ensures RunResult(Some(Context(Some(deadline))), p) == Some(DeadlineExceeded)
    ensures var timeout := "read timeout due to context: " + Message(DeadlineExceeded);
            RunLog(Some(Context(Some(deadline))), cmd, p, Info, Warn)
            == [CommandStart(cmd.path, cmd.args),
                Entry(Warn, "failed to read from " + "stdout" + ": " + timeout),
                Entry(Warn, "failed to read from " + "stderr" + ": " + timeout)]
  {
    var ctx := Some(Context(Some(deadline)));
    assert Concat([]) + "" == "";
    DrainLogsGivenLines(ctx, [], "", p.stdout.end, Prefix(Stdout), Info);
    DrainLogsGivenLines(ctx, [], "", p.stderr.end, Prefix(Stderr), Warn);
  }
}
