# Worktree provisioning and logged command runs of little-vm-helper

This project models two small pieces of little-vm-helper, written in Go:

- **Git worktree provisioning** (`pkg/kernels/git.go`). To add a per-kernel worktree, git runs two commands in order: `remote add -f -t`, then `worktree add -b … --track`. The second runs only if the first succeeded. To remove the worktree, git runs three commands: `worktree remove`, `remote remove` and `branch --delete --force`. All three always run. The local branch of kernel `k` is named `lvh-k`.
- **The command runner** (`pkg/logcmd/logcmd.go`). `logReader` drains one output pipe into the logger, one record per complete line. `runAndLogCommand` runs the following steps and then decides what to return:
  1. create the two pipes;
  2. log the command;
  3. start the process;
  4. drain stdout and stderr;
  5. wait for the process.

  `RunAndLogCommand` and `RunAndLogCommandContext` are thin wrappers.

Everything the operating system does is an oracle value, not modelled behaviour:
- `Pipe`: what a pipe delivers, how reading it ends (EOF, timeout, or another read error), and whether it refuses a deadline.
- `Process`: how creating the pipes, starting the process and waiting for it turn out; the value `ctx.Err()` has after the wait; and the path exec resolves the command name to.

The logrus logger is a `Logging.Logger` object whose `entries` field is the sequence of records handed to it. The git methods take one `Process` per command they may run. They record the argument vectors they hand to git, in order, in a ghost list `issued`. `runAndLogCommand` also returns a ghost event trace: pipes opened, start, drains, join, wait, and the deferred closes.

Files:
- `errors.dfy`: Go error values and `fmt.Errorf` wrapping.
- `logging.dfy`: the logger.
- `lines.dfy`: how a stream is cut into lines.
- `logcmd.dfy`: the command runner.
- `git.dfy`: the provisioning protocol.

## Model

| member | source | states |
|---|---|---|
| `Lines.FirstNewline` | pkg/logcmd/logcmd.go:28 | Where `ReadString('\n')` stops: the result is the index of a '\n', or the length of the input when it has none. No earlier character is a '\n'. |
| `Lines.CompleteLines` | pkg/logcmd/logcmd.go:26-40 | Every line cut from a stream is non-empty and ends in '\n'. That '\n' is its only one. |
| `Lines.Unterminated` | pkg/logcmd/logcmd.go:28-32 | The fragment that is never logged contains no '\n'. |
| `Lines.LinesReassemble` | pkg/logcmd/logcmd.go:26-40 | The lines, concatenated and followed by the unterminated fragment, give back the input exactly. Nothing is lost, duplicated or reordered. |
| `Lines.SplitJoin` | pkg/logcmd/logcmd.go:26-40 | Splitting inverts joining. Any complete lines followed by a fragment without '\n' are cut back into exactly those lines and that fragment. |
| `Lines.OneLinePerNewline` | pkg/logcmd/logcmd.go:26-40 | The number of lines equals the number of '\n' characters in the stream. |
| `Logcmd.LineReader.ReadString` | pkg/logcmd/logcmd.go:28 | Returns the text up to and including the next '\n', with no error, and advances past it. When no '\n' is left, it returns the rest of the stream together with how the stream ended. |
| `Logcmd.DrainResult` | pkg/logcmd/logcmd.go:29-36 | A drain returns nil exactly when the stream ends in EOF. Any other read error is returned unchanged. A timeout returns an error that wraps `ctx.Err()` and whose message is "read timeout due to context: " followed by it. |
| `Logcmd.ApplyDeadline` | pkg/logcmd/logcmd.go:18-24 | One warning naming the deadline is logged exactly when a context with a deadline is present and the pipe refuses it. Otherwise nothing is logged. |
| `Logcmd.LogReader` | pkg/logcmd/logcmd.go:16-41 | Returns the `DrainResult` of how the stream ended. Appends the deadline warning, then one record `prefix + line` at the given level for each complete line, in order. |
| `Logcmd.DrainLogsEveryLine` | pkg/logcmd/logcmd.go:18-40 | After at most one warning, a drain logs exactly one record per '\n'. Record i is the prefix followed by line i of the input. The logged lines plus the dropped fragment are the whole stream. |
| `Logcmd.DrainLogsGivenLines` | pkg/logcmd/logcmd.go:26-40 | A stream made of given complete lines and a trailing fragment logs exactly those lines, with the prefix. The fragment is not logged. |
| `Logcmd.DrainStream` | pkg/logcmd/logcmd.go:91-105 | One goroutine body. Returns the drain's result, and logs the drain's records followed by "failed to read from stdout/stderr: …" when the drain failed. |
| `Logcmd.RunAndLogWithLevels` | pkg/logcmd/logcmd.go:43-116 | The returned error is `RunResult`. The new log is the old one followed by `RunLog`. The event trace is `RunTrace`, whose ordering `RunTraceOrdered` proves. |
| `Logcmd.RunTraceOrdered` | pkg/logcmd/logcmd.go:51-115 | `Start` is attempted exactly when both pipes were created. Both streams are drained, and the process is reaped, exactly when it started. The wait comes after both drains. Every pipe opened is closed by its deferred `Close`. |
| `Logcmd.RunSucceedsIff` | pkg/logcmd/logcmd.go:51-115 | A run returns nil exactly when all of these hold: both pipes were created, the process started, the wait succeeded, and no context reports an error. |
| `Logcmd.SetupFailures` | pkg/logcmd/logcmd.go:51-67 | A stderr or stdout pipe failure returns "StdErrPipe() failed" or "StdOutPipe() failed" wrapping the cause, and logs nothing. A start failure returns "failed to execute command" wrapping the cause, logs only the start record, and drains nothing. |
| `Logcmd.ContextErrorWins` | pkg/logcmd/logcmd.go:111-114 | Once the process has run, a context that reports an error makes that error the result, whatever `Wait` returned. |
| `Logcmd.WaitResultOtherwise` | pkg/logcmd/logcmd.go:111-115 | With a nil context, or a context that reports no error, the result is what `Wait` returned. |
| `Logcmd.DrainErrorsNotReturned` | pkg/logcmd/logcmd.go:91-115 | The result does not depend on what either stream delivers or how it ends. Drain failures are only logged. |
| `Logcmd.EchoHello` | pkg/logcmd/logcmd.go:43-116 | `echo hello` returns nil. It logs the start record and one Info record "stdout> hello\n", and nothing for stderr. |
| `Logcmd.DeadlineBeatsKill` | pkg/logcmd/logcmd.go:43-116 | A silent command whose deadline expires returns the deadline error, not the kill reported by `Wait`. Both drain timeouts appear only as warnings. |
| `Logcmd.RunAndLogCommand` | pkg/logcmd/logcmd.go:118-123 | Runs with a nil context, stdout at Info and stderr at Warn. |
| `Logcmd.RunAndLogCommandContext` | pkg/logcmd/logcmd.go:125-133 | Runs the command `[cmd0] + cmdArgs` under the given context, with stdout at Info and stderr at Warn. |
| `Kernels.GitLocalBranch` | pkg/kernels/git.go:45-47 | The branch of kernel `k` is `lvh-` followed by `k`, and is exactly four characters longer than `k`. Its inverse is `KernelOfBranch`, by `LocalBranchRoundTrip`. |
| `Kernels.RemoteAddArgs` | pkg/kernels/git.go:24-28 | `--git-dir bareDir remote add -f -t remoteBranch remoteName remoteRepo`: nine arguments. The tracked branch follows `-t`, and the remote's name and URL come last. |
| `Kernels.WorktreeAddArgs` | pkg/kernels/git.go:33-40 | `--git-dir bareDir worktree add -b localBranch --track workDir remoteName/remoteBranch`: nine arguments. The last one joins the remote name and branch with '/'. |
| `Kernels.WorktreeRemoveArgs` | pkg/kernels/git.go:70-74 | `--git-dir bareDir worktree remove workDir`: five arguments. |
| `Kernels.RemoteRemoveArgs` | pkg/kernels/git.go:79-83 | `--git-dir bareDir remote remove remoteName`: five arguments. |
| `Kernels.BranchRemoveArgs` | pkg/kernels/git.go:88-92 | `--git-dir bareDir branch --delete --force localBranch`: six arguments. The branch is deleted even if it is unmerged. |
| `Kernels.Append` | pkg/kernels/git.go:76 | `multierror.Append(res, e)` on a nil `res` gives an aggregate holding only `e`. On an existing aggregate it gives that aggregate's errors followed by `e`. |
| `Logcmd.CommandFor` | pkg/logcmd/logcmd.go:131 | The command `exec.CommandContext(ctx, cmd0, cmdArgs...)` builds runs the resolved path. Its argument list is `cmd0` followed by exactly `cmdArgs`. |
| `Kernels.EveryCommandTargetsBareDir` | pkg/kernels/git.go:24-95 | All five git argument vectors start with `--git-dir <bareDir>`. They name five different git operations: remote add, worktree add, worktree remove, remote remove, branch delete. |
| `Kernels.LocalBranchRoundTrip` | pkg/kernels/git.go:45-47 | The kernel name can be read back from `lvh-<name>`. Only names built by this rule are read back. |
| `Kernels.LocalBranchInjective` | pkg/kernels/git.go:45-47 | Distinct kernel names give distinct local branches. |
| `Kernels.RunGit` | pkg/kernels/git.go:29 | One git command: the result and the log of `RunAndLogCommandContext(ctx, log, GitBinary, args...)`. |
| `Kernels.GitAddWorkdir` | pkg/kernels/git.go:23-43 | The first command is exactly `--git-dir bareDir remote add -f -t remoteBranch remoteName remoteRepo`. If it fails, its error is returned and nothing else runs. Otherwise exactly one more command runs, `--git-dir bareDir worktree add -b localBranch --track workDir remoteName/remoteBranch`, and its result is returned. |
| `Kernels.GitRemoveWorkdir` | pkg/kernels/git.go:67-98 | As written: exactly the three teardown commands are issued, in order, whatever each returns. The result is nil for every combination of outcomes. |
| `Kernels.LabelledFailuresCount` | pkg/kernels/git.go:75-95 | The aggregate has one entry per failing step. It is empty exactly when every step succeeded. |
| `Kernels.LabelledFailuresOrder` | pkg/kernels/git.go:75-95 | The failure of step i sits after the failures of all earlier steps, wrapped with step i's label. The aggregate lists failures in step order. |
| `Kernels.RemoveFailuresUnrolled` | pkg/kernels/git.go:75-95 | The teardown aggregate is the worktree failure, then the remote failure, then the branch failure. Each is present only when that step failed and carries its label. |
| `Kernels.GitRemoveWorkdirAggregated` | pkg/kernels/git.go:67-98 | As evidently intended: the same three commands in the same order. Returns nil when all succeed, and otherwise every labelled failure in step order. |
| `Kernels.DiscardedWorktreeFailure` | pkg/kernels/git.go:68-97 | When git cannot even start for the worktree step, the aggregate holds exactly one failure, "did not remove worktree: failed to execute command: …". `GitRemoveWorkdir`, whose contract returns nil for every run, drops that failure. |
| `Kernels.RemoveGitWorkDir` | pkg/kernels/git.go:49-58 | Tears down with `workDir = remoteName = kName`, `localBranch = lvh-kName` and `bareDir = Join(dir, MainGitDir)`. It runs under `context.Background()`, not the context it was given, and returns nil. |

## Findings

| source | as written | input that shows it | evidently intended | confidence | as-written member | corrected member |
|---|---|---|---|---|---|---|
| pkg/kernels/git.go:76 | The result of `multierror.Append(res, …)` is discarded at lines 76, 85 and 94. `res` is never assigned, so `gitRemoveWorkdir` returns nil even when steps fail. | The `worktree remove` command fails to start while the other two succeed (`Kernels.DiscardedWorktreeFailure`). | `res = multierror.Append(res, …)`: return every labelled failure, in step order, and nil only when all three steps succeeded. | high; not executed | `Kernels.GitRemoveWorkdir` | `Kernels.GitRemoveWorkdirAggregated` |

The three failure checks in `gitRemoveWorkdir` each wrap the error with a step label, `fmt.Errorf("did not remove …: %w", err)`, and hand it to `multierror.Append`. That work only has an effect if the aggregate is kept and returned. The code therefore evidently intends `res = multierror.Append(res, …)`. `Kernels.RemoveGitWorkDir` calls the as-written `Kernels.GitRemoveWorkdir`, because that is what `removeGitWorkDir` does. The corrected version is proved separately.

Two further facts about the code that the model keeps:
- Each logged line keeps its trailing '\n', because `ReadString('\n')` returns the delimiter with the line.
- A run that succeeds silently still logs its "starting command" record.

## Left out

- Concurrency: the two draining goroutines are taken one after the other, stdout first. The model does not capture how their records interleave in the shared logger. It also does not model the unsynchronised writes both goroutines make to the shared `err` variable, which never reach the result.
- Operating system: pipes, `SetDeadline`, starting and reaping the process, and `exec.CommandContext` killing the child when the context ends are all oracle values in `Pipe` and `Process`. Path lookup is the oracle field `resolvedPath`.
- Time: `ctx.Err()` is an oracle value at the two points where the code reads it: when a read times out, and after `Wait`. The model does not tie these values to a clock. For example, it does not force `context.Background()` to report no error.
- `Logcmd.LogReader`: requires that a read timeout happens only when a context is present (`Admissible`). With a nil context, the timeout branch would dereference nil.
- A timeout seen while `ctx.Err()` is still nil is modelled as the plain text `fmt.Errorf` prints, `%!w(<nil>)`. The model does not follow that text's unwrapping.
- Pipe data is modelled as a `string` (a sequence of characters), while `bufio.Reader.ReadString` works on bytes. Splitting on '\n' behaves the same either way, but byte sequences that are not valid UTF-8 cannot be represented.
- Logrus: level filtering, formatting and output are not modelled. The start record keeps only the path and the argument list.
- `filepath.Join`, `GitBinary` and `MainGitDir` are defined outside these two files. They are opaque constants here.
- go-multierror: only its ordered list of errors is modelled, not its message format.
- `cmd/lvh/kernels/fetch.go`, command-line wiring that only forwards to `FetchKernel`, is not part of this model. Neither is `FetchKernel`.
- The git methods need one `Process` oracle value per command they may run: two for add, three for remove. Unused values are ignored.
