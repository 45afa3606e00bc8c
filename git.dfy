/** Adding and removing the git worktree of one kernel (pkg/kernels/git.go).
    Each git command goes through `RunAndLogCommandContext`; the outcome of
    the n-th command comes from the n-th `Process` of an oracle sequence, and
    the argument vectors handed to git are recorded, in order, in a ghost
    list `issued`. */
module Kernels {
  import opened Errors
  import opened Logging
  import opened Logcmd

  /** The git executable, and the name of the bare repository inside the
      kernels directory; both are defined elsewhere in the package. */
  const GitBinary: string
  const MainGitDir: string

  /** `filepath.Join`; its cleaning rules are not modelled. */
  const FilePathJoin: (string, string) -> string

  datatype GitAddWorkdirArg = GitAddWorkdirArg(
    workDir: string,
    bareDir: string,
    remoteName: string,
    remoteRepo: string,
    remoteBranch: string,
    localBranch: string)

  datatype GitRemoveWorkdirArg = GitRemoveWorkdirArg(
    workDir: string,
    bareDir: string,
    remoteName: string,
    localBranch: string)

  /** What `go-multierror` accumulates: the errors, in the order appended. */
  datatype MultiError = MultiError(errors: seq<Error>)

  /** `multierror.Append(res, e)`: a new aggregate with `e` added at the end. */
  function Append(res: Option<MultiError>, e: Error): (m: MultiError)
    ensures res.None? ==> m.errors == [e]
    ensures res.Some? ==> m.errors == res.value.errors + [e]
  {
    match res
    case None => MultiError([e])
    case Some(m) => MultiError(m.errors + [e])
  }

  // ---------------------------------------------------------------------
  // Argument vectors

  /** `remote add -f -t <remoteBranch> <remoteName> <remoteRepo>`: fetch only
      the remote branch of the kernel's repository under the remote name. */
  function RemoteAddArgs(arg: GitAddWorkdirArg): (args: seq<string>)
    ensures |args| == 9 && args[..4] == ["--git-dir", arg.bareDir, "remote", "add"]
    ensures args[4..7] == ["-f", "-t", arg.remoteBranch]
    ensures args[7] == arg.remoteName && args[8] == arg.remoteRepo
  {
    ["--git-dir", arg.bareDir, "remote", "add", "-f", "-t", arg.remoteBranch, arg.remoteName, arg.remoteRepo]
  }

  /** `worktree add -b <localBranch> --track <workDir> <remoteName>/<remoteBranch>`:
      a new worktree on a new local branch tracking the fetched branch. */
  function WorktreeAddArgs(arg: GitAddWorkdirArg): (args: seq<string>)
    ensures |args| == 9 && args[..4] == ["--git-dir", arg.bareDir, "worktree", "add"]
    ensures args[4..8] == ["-b", arg.localBranch, "--track", arg.workDir]
    ensures args[8] == arg.remoteName + "/" + arg.remoteBranch
  {
    ["--git-dir", arg.bareDir, "worktree", "add", "-b", arg.localBranch, "--track", arg.workDir,
     arg.remoteName + "/" + arg.remoteBranch]
  }

  /** `worktree remove <workDir>`. */
  function WorktreeRemoveArgs(arg: GitRemoveWorkdirArg): (args: seq<string>)
    ensures |args| == 5 && args[..4] == ["--git-dir", arg.bareDir, "worktree", "remove"]
    ensures args[4] == arg.workDir
  {
    ["--git-dir", arg.bareDir, "worktree", "remove", arg.workDir]
  }

  /** `remote remove <remoteName>`. */
  function RemoteRemoveArgs(arg: GitRemoveWorkdirArg): (args: seq<string>)
    ensures |args| == 5 && args[..4] == ["--git-dir", arg.bareDir, "remote", "remove"]
    ensures args[4] == arg.remoteName
  {
    ["--git-dir", arg.bareDir, "remote", "remove", arg.remoteName]
  }

  /** `branch --delete --force <localBranch>`: deleted even if unmerged. */
  function BranchRemoveArgs(arg: GitRemoveWorkdirArg): (args: seq<string>)
    ensures |args| == 6 && args[..4] == ["--git-dir", arg.bareDir, "branch", "--delete"]
    ensures args[4] == "--force" && args[5] == arg.localBranch
  {
    ["--git-dir", arg.bareDir, "branch", "--delete", "--force", arg.localBranch]
  }

  /** The three teardown commands, in the order they run. */
  function RemoveSteps(arg: GitRemoveWorkdirArg): seq<seq<string>>
  {
    [WorktreeRemoveArgs(arg), RemoteRemoveArgs(arg), BranchRemoveArgs(arg)]
  }

  /** The repository a git argument vector points at with `--git-dir`, if it starts with one. */
  function GitDirOf(args: seq<string>): Option<string>
  {
    if |args| >= 2 && args[0] == "--git-dir" then Some(args[1]) else None
  }

  /** The git subcommand and its action (`worktree add`, `remote remove`, ...)
      that follows the `--git-dir` option. */
  function SubcommandOf(args: seq<string>): seq<string>
  {
    if |args| >= 4 then args[2..4] else []
  }

  /** Every command of both protocols works on the bare repository it was
      given, and the five commands are five different git operations. */
  lemma EveryCommandTargetsBareDir(add: GitAddWorkdirArg, rm: GitRemoveWorkdirArg)
    ensures GitDirOf(RemoteAddArgs(add)) == Some(add.bareDir)
    ensures GitDirOf(WorktreeAddArgs(add)) == Some(add.bareDir)
    ensures forall i | 0 <= i < 3 :: GitDirOf(RemoveSteps(rm)[i]) == Some(rm.bareDir)
    ensures SubcommandOf(RemoteAddArgs(add)) == ["remote", "add"]
    ensures SubcommandOf(WorktreeAddArgs(add)) == ["worktree", "add"]
    ensures SubcommandOf(WorktreeRemoveArgs(rm)) == ["worktree", "remove"]
    ensures SubcommandOf(RemoteRemoveArgs(rm)) == ["remote", "remove"]
    ensures SubcommandOf(BranchRemoveArgs(rm)) == ["branch", "--delete"]
  {
  }

  // ---------------------------------------------------------------------
  // Local branch naming

  /** `gitLocalBranch`: the local branch of kernel `kname` is `lvh-<kname>`. */
  function GitLocalBranch(kname: string): (branch: string)
    ensures |branch| == |kname| + 4
    ensures branch[..4] == "lvh-" && branch[4..] == kname
  {
    "lvh-" + kname
  }

  /** The kernel a local branch belongs to: the inverse of the naming rule. */
  function KernelOfBranch(branch: string): Option<string>
  {
    if |branch| >= 4 && branch[..4] == "lvh-" then Some(branch[4..]) else None
  }

  /** The kernel name can be read back from its branch name, and only branch
      names built by the rule are read back. */
  lemma LocalBranchRoundTrip(kname: string, branch: string)
    ensures KernelOfBranch(GitLocalBranch(kname)) == Some(kname)
    ensures KernelOfBranch(branch) == Some(kname) ==> GitLocalBranch(kname) == branch
  {
  }

  /** Distinct kernels get distinct branches. */
  lemma LocalBranchInjective(a: string, b: string)
    ensures GitLocalBranch(a) == GitLocalBranch(b) ==> a == b
  {
  }

  // ---------------------------------------------------------------------
  // Running git

  /** What one git command logs. */
  function GitRunLog(ctx: Context, p: Process, args: seq<string>): seq<LogEntry>
  {
    RunLog(Some(ctx), CommandFor(GitBinary, args, p), p, Info, Warn)
  }

  /** The error one git command returns. */
  function GitResult(ctx: Context, p: Process): Option<Error>
  {
    RunResult(Some(ctx), p)
  }

  method RunGit(ctx: Context, log: Logger, args: seq<string>, p: Process) returns (err: Option<Error>)
    modifies log
    ensures err == GitResult(ctx, p)
    ensures log.entries == old(log.entries) + GitRunLog(ctx, p, args)
  {
    ghost var trace;
    err, trace := RunAndLogCommandContext(ctx, log, GitBinary, args, p);
  }

  // ---------------------------------------------------------------------
  // Add

  /** `gitAddWorkdir`: register the remote, and only if that worked, add the
      worktree on a new local branch tracking the remote branch. */
  method GitAddWorkdir(ctx: Context, log: Logger, arg: GitAddWorkdirArg, procs: seq<Process>)
    returns (err: Option<Error>, ghost issued: seq<seq<string>>)
    requires |procs| >= 2
    modifies log
    ensures |issued| >= 1 && issued[0] == RemoteAddArgs(arg)
    ensures GitResult(ctx, procs[0]).Some? ==>
              issued == [RemoteAddArgs(arg)]
              && err == GitResult(ctx, procs[0])
              && log.entries == old(log.entries) + GitRunLog(ctx, procs[0], RemoteAddArgs(arg))
    ensures GitResult(ctx, procs[0]).None? ==>
              issued == [RemoteAddArgs(arg), WorktreeAddArgs(arg)]
              && err == GitResult(ctx, procs[1])
              && log.entries == old(log.entries) + GitRunLog(ctx, procs[0], RemoteAddArgs(arg))
                                                 + GitRunLog(ctx, procs[1], WorktreeAddArgs(arg))
  {
    var remoteAddArgs := RemoteAddArgs(arg);
    issued := [remoteAddArgs];
    err := RunGit(ctx, log, remoteAddArgs, procs[0]);
    if err.Some? {
      return;
    }
    var worktreeAddArgs := WorktreeAddArgs(arg);
    issued := issued + [worktreeAddArgs];
    err := RunGit(ctx, log, worktreeAddArgs, procs[1]);
  }

  // ---------------------------------------------------------------------
  // Remove

  /** What the three teardown commands log, in order. */
  function RemoveLog(ctx: Context, arg: GitRemoveWorkdirArg, procs: seq<Process>): seq<LogEntry>
    requires |procs| >= 3
  {
    GitRunLog(ctx, procs[0], WorktreeRemoveArgs(arg))
    + GitRunLog(ctx, procs[1], RemoteRemoveArgs(arg))
    + GitRunLog(ctx, procs[2], BranchRemoveArgs(arg))
  }

  /** `gitRemoveWorkdir` as written: all three steps run whatever each
      returns, and the aggregate that `multierror.Append` builds is thrown
      away, so `res` stays nil. */
  method GitRemoveWorkdir(ctx: Context, log: Logger, arg: GitRemoveWorkdirArg, procs: seq<Process>)
    returns (res: Option<MultiError>, ghost issued: seq<seq<string>>)
    requires |procs| >= 3
    modifies log
    ensures issued == RemoveSteps(arg)
    ensures res == None
    ensures log.entries == old(log.entries) + RemoveLog(ctx, arg, procs)
  {
    res := None;

    var worktreeRemoveArgs := WorktreeRemoveArgs(arg);
    issued := [worktreeRemoveArgs];
    var err := RunGit(ctx, log, worktreeRemoveArgs, procs[0]);
    if err.Some? {
      var _ := Append(res, Wrapped("did not remove worktree", err.value));
    }

    var remoteRemoveArgs := RemoteRemoveArgs(arg);
    issued := issued + [remoteRemoveArgs];
    err := RunGit(ctx, log, remoteRemoveArgs, procs[1]);
    if err.Some? {
      var _ := Append(res, Wrapped("did not remove remote", err.value));
    }

    var branchRemoveArgs := BranchRemoveArgs(arg);
    issued := issued + [branchRemoveArgs];
    err := RunGit(ctx, log, branchRemoveArgs, procs[2]);
    if err.Some? {
      var _ := Append(res, Wrapped("did not remove local branch", err.value));
    }
  }

  /** The log after the three teardown commands, regrouped. */
  lemma RemoveLogOrder(before: seq<LogEntry>, ctx: Context, arg: GitRemoveWorkdirArg, procs: seq<Process>)
    requires |procs| >= 3
    ensures before + GitRunLog(ctx, procs[0], WorktreeRemoveArgs(arg))
                   + GitRunLog(ctx, procs[1], RemoteRemoveArgs(arg))
                   + GitRunLog(ctx, procs[2], BranchRemoveArgs(arg))
            == before + RemoveLog(ctx, arg, procs)
  {
    Regroup3(before, GitRunLog(ctx, procs[0], WorktreeRemoveArgs(arg)),
             GitRunLog(ctx, procs[1], RemoteRemoveArgs(arg)),
             GitRunLog(ctx, procs[2], BranchRemoveArgs(arg)));
  }

  lemma Regroup3<T>(before: seq<T>, a: seq<T>, b: seq<T>, c: seq<T>)
    ensures before + a + b + c == before + (a + b + c)
  {
  }

  /** The labels the teardown steps put on their failures, in step order. */
  const RemoveLabels: seq<string> := ["did not remove worktree", "did not remove remote", "did not remove local branch"]

  /** The failures of a sequence of steps, each wrapped with its label, in step order. */
  function LabelledFailures(labels: seq<string>, results: seq<Option<Error>>): seq<Error>
    requires |labels| == |results|
  {
    if results == [] then []
    else (if results[0].Some? then [Wrapped(labels[0], results[0].value)] else [])
         + LabelledFailures(labels[1..], results[1..])
  }

  function CountFailures(results: seq<Option<Error>>): nat
  {
    if results == [] then 0 else (if results[0].Some? then 1 else 0) + CountFailures(results[1..])
  }

  /** One labelled entry per failing step, nothing for the others: the
      aggregate is empty exactly when every step succeeded, and each failure
      keeps its step's label and cause. */
  lemma {:induction false} LabelledFailuresCount(labels: seq<string>, results: seq<Option<Error>>)
    requires |labels| == |results|
    ensures |LabelledFailures(labels, results)| == CountFailures(results)
    ensures LabelledFailures(labels, results) == [] <==> forall i | 0 <= i < |results| :: results[i].None?
  {
    if results != [] {
      LabelledFailuresCount(labels[1..], results[1..]);
      if LabelledFailures(labels, results) == [] {
        forall i | 0 <= i < |results| ensures results[i].None? {
          if i > 0 {
            assert results[i] == results[1..][i - 1];
          }
        }
      }
    }
  }

  /** A failing step's labelled error comes after those of all earlier failing
      steps: the aggregate lists failures in step order. */
  lemma {:induction false} LabelledFailuresOrder(labels: seq<string>, results: seq<Option<Error>>, i: nat)
    requires |labels| == |results| && i < |results| && results[i].Some?
    ensures var fs := LabelledFailures(labels, results);
            var before := CountFailures(results[..i]);
            before < |fs| && fs[before] == Wrapped(labels[i], results[i].value)
  {
    LabelledFailuresCount(labels, results);
    if i > 0 {
      LabelledFailuresOrder(labels[1..], results[1..], i - 1);
      assert results[1..][..i - 1] == results[..i][1..];
    }
  }

  /** Nil for no failures, otherwise the aggregate of all of them. */
  function Aggregate(failures: seq<Error>): Option<MultiError>
  {
    if failures == [] then None else Some(MultiError(failures))
  }

  /** The three step results of a teardown with the given oracle. */
  function RemoveResults(ctx: Context, procs: seq<Process>): seq<Option<Error>>
    requires |procs| >= 3
  {
    [GitResult(ctx, procs[0]), GitResult(ctx, procs[1]), GitResult(ctx, procs[2])]
  }

  /** The aggregate of the three teardown steps, step by step. */
  lemma RemoveFailuresUnrolled(r0: Option<Error>, r1: Option<Error>, r2: Option<Error>)
    ensures LabelledFailures(RemoveLabels, [r0, r1, r2])
            == (if r0.Some? then [Wrapped(RemoveLabels[0], r0.value)] else [])
               + (if r1.Some? then [Wrapped(RemoveLabels[1], r1.value)] else [])
               + (if r2.Some? then [Wrapped(RemoveLabels[2], r2.value)] else [])
  {
    var h0 := if r0.Some? then [Wrapped(RemoveLabels[0], r0.value)] else [];
    var h1 := if r1.Some? then [Wrapped(RemoveLabels[1], r1.value)] else [];
    var h2 := if r2.Some? then [Wrapped(RemoveLabels[2], r2.value)] else [];
    var l1, l2, l3 := RemoveLabels[1..], RemoveLabels[2..], RemoveLabels[3..];
    assert l1 == ["did not remove remote", "did not remove local branch"];
    assert l2 == l1[1..] == ["did not remove local branch"];
    assert l3 == l2[1..] == [];
    var rs := [r0, r1, r2];
    assert rs[1..] == [r1, r2];
    assert [r1, r2][1..] == [r2];
    assert [r2][1..] == [];
    assert LabelledFailures(l3, []) == [];
    assert LabelledFailures(l2, [r2]) == h2 + LabelledFailures(l3, []);
    assert LabelledFailures(l1, [r1, r2]) == h1 + LabelledFailures(l2, [r2]);
    assert LabelledFailures(RemoveLabels, rs) == h0 + LabelledFailures(l1, [r1, r2]);
  }

  /** Appending one failure to the aggregate. */
  lemma AggregateAppend(failures: seq<Error>, e: Error)
    ensures Aggregate(failures + [e]) == Some(Append(Aggregate(failures), e))
  {
    if failures == [] {
      assert failures + [e] == [e];
    }
  }

  /** `gitRemoveWorkdir` as evidently intended (`res = multierror.Append(res, ...)`):
      the same three steps, returning every failure with its label. */
  method GitRemoveWorkdirAggregated(ctx: Context, log: Logger, arg: GitRemoveWorkdirArg, procs: seq<Process>)
    returns (res: Option<MultiError>, ghost issued: seq<seq<string>>)
    requires |procs| >= 3
    modifies log
    ensures issued == RemoveSteps(arg)
    ensures res == Aggregate(LabelledFailures(RemoveLabels, RemoveResults(ctx, procs)))
    ensures log.entries == old(log.entries) + RemoveLog(ctx, arg, procs)
  {
    res := None;
    ghost var failures: seq<Error> := [];

    var worktreeRemoveArgs := WorktreeRemoveArgs(arg);
    issued := [worktreeRemoveArgs];
    var err0 := RunGit(ctx, log, worktreeRemoveArgs, procs[0]);
    if err0.Some? {
      AggregateAppend(failures, Wrapped("did not remove worktree", err0.value));
      res := Some(Append(res, Wrapped("did not remove worktree", err0.value)));
      failures := failures + [Wrapped("did not remove worktree", err0.value)];
    }
    assert res == Aggregate(failures);

    var remoteRemoveArgs := RemoteRemoveArgs(arg);
    issued := issued + [remoteRemoveArgs];
    var err1 := RunGit(ctx, log, remoteRemoveArgs, procs[1]);
    if err1.Some? {
      AggregateAppend(failures, Wrapped("did not remove remote", err1.value));
      res := Some(Append(res, Wrapped("did not remove remote", err1.value)));
      failures := failures + [Wrapped("did not remove remote", err1.value)];
    }
    assert res == Aggregate(failures);

    var branchRemoveArgs := BranchRemoveArgs(arg);
    issued := issued + [branchRemoveArgs];
    var err2 := RunGit(ctx, log, branchRemoveArgs, procs[2]);
    if err2.Some? {
      AggregateAppend(failures, Wrapped("did not remove local branch", err2.value));
      res := Some(Append(res, Wrapped("did not remove local branch", err2.value)));
      failures := failures + [Wrapped("did not remove local branch", err2.value)];
    }
    assert res == Aggregate(failures);
    RemoveFailuresUnrolled(err0, err1, err2);
    assert failures == (if err0.Some? then [Wrapped(RemoveLabels[0], err0.value)] else [])
                       + (if err1.Some? then [Wrapped(RemoveLabels[1], err1.value)] else [])
                       + (if err2.Some? then [Wrapped(RemoveLabels[2], err2.value)] else []);
    assert RemoveResults(ctx, procs) == [err0, err1, err2];
    RemoveLogOrder(old(log.entries), ctx, arg, procs);
  }

  /** A teardown whose first step cannot even start git: the aggregate the
      steps build holds that failure, labelled, while `GitRemoveWorkdir`
      returns nil for the same run. */
  lemma DiscardedWorktreeFailure(ctx: Context, procs: seq<Process>, cause: Error)
    requires |procs| >= 3
    requires PipesOpen(procs[0]) && procs[0].start == Some(cause)
    requires GitResult(ctx, procs[1]).None? && GitResult(ctx, procs[2]).None?
    ensures Aggregate(LabelledFailures(RemoveLabels, RemoveResults(ctx, procs)))
            == Some(MultiError([Wrapped("did not remove worktree", Wrapped("failed to execute command", cause))]))
  {
    var e := Wrapped("failed to execute command", cause);
    assert GitResult(ctx, procs[0]) == Some(e);
    var results := RemoveResults(ctx, procs);
    assert results == [Some(e), None, None];
    RemoveFailuresUnrolled(Some(e), None, None);
    assert RemoveLabels[0] == "did not remove worktree";
    var w: seq<Error> := [Wrapped("did not remove worktree", e)];
    assert LabelledFailures(RemoveLabels, results) == w + [] + [];
    assert w + [] + [] == w;
  }

  /** `removeGitWorkDir`: tear down the worktree of kernel `kName` under
      `dir`. The context it is given is not used; the teardown runs under
      `context.Background()`. */
  method RemoveGitWorkDir(ctx: Context, log: Logger, dir: string, kName: string, procs: seq<Process>)
    returns (err: Option<MultiError>, ghost issued: seq<seq<string>>)
    requires |procs| >= 3
    modifies log
    ensures var arg := GitRemoveWorkdirArg(kName, FilePathJoin(dir, MainGitDir), kName, GitLocalBranch(kName));
            issued == RemoveSteps(arg)
            && err == None
            && log.entries == old(log.entries) + RemoveLog(Background, arg, procs)
  {
    err, issued := GitRemoveWorkdir(Background, log,
      GitRemoveWorkdirArg(
        kName,
        FilePathJoin(dir, MainGitDir),
        kName,
        GitLocalBranch(kName)),
      procs);
  }
}
