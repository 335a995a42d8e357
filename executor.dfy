/**
 * The decisions `execute_command` takes before and around its system calls:
 * how many stages there are, whether a lone built-in runs in the shell
 * itself, how many pipes are made, where each child's standard input and
 * output come from, what each child runs and whether the shell waits.  The
 * calls themselves (`pipe`, `fork`, `dup2`, `open`, `execvp`, `waitpid`)
 * are not performed: the result is the plan they carry out.
 */
module Executor {
  import opened Wrappers
  import opened Command
  import opened Builtins

  /** Where a child's standard input comes from. */
  datatype Source = KeepStdin | ReadPipe(pipe: nat) | ReadFile(name: String)

  /** Where a child's standard output goes; a file is truncated unless `append`. */
  datatype Sink = KeepStdout | WritePipe(pipe: nat) | WriteFile(name: String, append: bool)

  /** What a child runs once its descriptors are in place. */
  datatype Program =
    | BuiltinThenExit(args: seq<String>)
    | Exec(args: seq<String>)
      /** A stage without arguments: `argv` is NULL and the child reads `argv[0]` through it. */
    | NullArgv

  datatype Child = Child(stdin: Source, stdout: Sink, program: Program)

  datatype Plan =
      /** `execute_command(NULL)` does nothing. */
    | NoCommand
      /** A lone built-in runs in the shell itself, with no pipe and no child. */
    | InParent(outcome: Outcome)
      /** One child per stage, `pipes` pipes, and the shell waits unless told otherwise. */
    | Spawn(pipes: nat, children: seq<Child>, wait: bool)

  /** The in-parent fast path of a pipeline. */
  predicate RunsInParent(p: Pipeline): (b: bool)
    ensures b <==> |p| == 1 && IsBuiltin(FirstArg(p[0]))
  {
    |p| == 1 && |p[0].args| > 0 && IsBuiltin(Some(p[0].args[0]))
  }

  /** The descriptors and program of the child for stage `idx` of `p`. */
  function ChildPlan(p: Pipeline, idx: nat): (r: Child)
    requires idx < |p|
    ensures r.stdin.ReadPipe? <==> idx > 0
    ensures r.stdout.WritePipe? <==> idx + 1 < |p|
    ensures r.stdin.ReadFile? ==> p[idx].infile == Some(r.stdin.name)
    ensures r.stdout.WriteFile? ==> p[idx].outfile == Some(r.stdout.name) && r.stdout.append == p[idx].append
    ensures r.program.NullArgv? <==> |p[idx].args| == 0
    ensures !r.program.NullArgv? ==> r.program.args == p[idx].args
  {
    var c := p[idx];
    var stdin :=
      if idx > 0 then ReadPipe(idx - 1)
      else if c.infile.Some? then ReadFile(c.infile.value)
      else KeepStdin;
    var stdout :=
      if idx + 1 < |p| then WritePipe(idx)
      else if c.outfile.Some? then WriteFile(c.outfile.value, c.append)
      else KeepStdout;
    var program :=
      if |c.args| == 0 then NullArgv
      else if IsBuiltin(Some(c.args[0])) then BuiltinThenExit(c.args)
      else Exec(c.args);
    Child(stdin, stdout, program)
  }

  /** What `execute_command` does with a pipeline (NULL when `None`). */
  function LaunchPlan(cmd: Option<Pipeline>): (r: Plan)
    requires cmd.Some? ==> |cmd.value| > 0
    ensures r.NoCommand? <==> cmd.None?
    ensures r.InParent? <==> cmd.Some? && RunsInParent(cmd.value)
    ensures r.Spawn? ==> r.pipes + 1 == |cmd.value| == |r.children|
    ensures r.Spawn? ==> (r.wait <==> !cmd.value[0].background)
  {
    match cmd
    case None => NoCommand
    case Some(p) =>
      if RunsInParent(p) then InParent(RunBuiltin(Some(p[0])))
      else Spawn(|p| - 1, seq(|p|, i requires 0 <= i < |p| => ChildPlan(p, i)), !p[0].background)
  }

  /**
   * `execute_command`: counts the stages by walking the list, takes the
   * built-in fast path, and otherwise sets up the children stage by stage.
   */
  method ExecuteCommand(cmd: Option<Pipeline>) returns (plan: Plan)
    requires cmd.Some? ==> |cmd.value| > 0
    ensures plan == LaunchPlan(cmd)
  {
    if cmd.None? {
      return NoCommand;
    }
    var p := cmd.value;
    var n := 0;
    while n < |p|
      invariant n <= |p|
    {
      n := n + 1;
    }
    if n == 1 && |p[0].args| > 0 && IsBuiltin(Some(p[0].args[0])) {
      return InParent(RunBuiltin(Some(p[0])));
    }
    var children: seq<Child> := [];
    var idx := 0;
    while idx < n
      invariant idx <= n && |children| == idx
      invariant forall i :: 0 <= i < idx ==> children[i] == ChildPlan(p, i)
    {
      var c := p[idx];
      var stdin := KeepStdin;
      if idx > 0 {
        stdin := ReadPipe(idx - 1);
      } else if c.infile.Some? {
        stdin := ReadFile(c.infile.value);
      }
      var stdout := KeepStdout;
      if idx + 1 < n {
        stdout := WritePipe(idx);
      } else if c.outfile.Some? {
        stdout := WriteFile(c.outfile.value, c.append);
      }
      var program := Exec(c.args);
      if |c.args| == 0 {
        program := NullArgv;
      } else if IsBuiltin(Some(c.args[0])) {
        program := BuiltinThenExit(c.args);
      }
      children := children + [Child(stdin, stdout, program)];
      idx := idx + 1;
    }
    plan := Spawn(n - 1, children, !p[0].background);
  }

  // ---------------------------------------------------------------------

  /** The fast path never runs into `run_builtin`'s -1: the name is always known. */
  lemma InParentSucceeds(p: Pipeline)
    requires |p| > 0
    ensures LaunchPlan(Some(p)).InParent? ==>
      LaunchPlan(Some(p)).outcome != Returned(-1, NoAction)
  {
    if RunsInParent(p) {
      assert FirstArg(p[0]) == Some(p[0].args[0]);
    }
  }

  /**
   * A lone built-in runs in the shell whatever else its stage says: its
   * redirections are not opened and its `&` is not honoured.
   */
  lemma LoneBuiltinIgnoresRedirectionAndBackground(c: Stage)
    requires IsBuiltin(FirstArg(c))
    ensures LaunchPlan(Some([c])) == InParent(RunBuiltin(Some(c)))
    ensures LaunchPlan(Some([c.(infile := None, outfile := None, background := false)]))
         == InParent(RunBuiltin(Some(c)))
  {
  }

  /**
   * Every pipe joins two neighbouring stages: pipe `k` is written by child
   * `k` alone and read by child `k + 1` alone.
   */
  lemma PipesJoinNeighbours(p: Pipeline, i: nat, k: nat)
    requires |p| > 0 && !RunsInParent(p) && i < |p|
    ensures LaunchPlan(Some(p)).children[i].stdout == WritePipe(k) <==> i == k && k + 1 < |p|
    ensures LaunchPlan(Some(p)).children[i].stdin == ReadPipe(k) <==> i == k + 1
  {
    assert LaunchPlan(Some(p)).children[i] == ChildPlan(p, i);
  }

  /**
   * Only the head may read a file and only the last stage may write one,
   * and each does so exactly when its stage names the file.
   */
  lemma FilesOnlyAtTheEnds(p: Pipeline, i: nat)
    requires |p| > 0 && !RunsInParent(p) && i < |p|
    ensures LaunchPlan(Some(p)).children[i].stdin.ReadFile? <==> i == 0 && p[0].infile.Some?
    ensures LaunchPlan(Some(p)).children[i].stdin.ReadFile? ==>
      LaunchPlan(Some(p)).children[i].stdin.name == p[0].infile.value
    ensures LaunchPlan(Some(p)).children[i].stdout.WriteFile? <==> i + 1 == |p| && p[i].outfile.Some?
    ensures LaunchPlan(Some(p)).children[i].stdout.WriteFile? ==>
      LaunchPlan(Some(p)).children[i].stdout == WriteFile(p[i].outfile.value, p[i].append)
  {
    assert LaunchPlan(Some(p)).children[i] == ChildPlan(p, i);
  }

  /**
   * A child runs what its stage names; a stage without arguments reaches
   * `argv[0]` through a NULL `argv`.
   */
  lemma ChildRunsItsStage(p: Pipeline, i: nat)
    requires |p| > 0 && !RunsInParent(p) && i < |p|
    ensures LaunchPlan(Some(p)).children[i].program.NullArgv? <==> |p[i].args| == 0
    ensures LaunchPlan(Some(p)).children[i].program.BuiltinThenExit? <==> IsBuiltin(FirstArg(p[i]))
    ensures !LaunchPlan(Some(p)).children[i].program.NullArgv? ==>
      LaunchPlan(Some(p)).children[i].program.args == p[i].args
  {
    assert LaunchPlan(Some(p)).children[i] == ChildPlan(p, i);
  }

  /**
   * Whether the shell waits depends on the head stage's `&` alone: marking
   * or unmarking any later stage changes nothing.
   */
  lemma WaitReadsOnlyTheHead(p: Pipeline, q: Pipeline)
    requires |p| > 1 && |q| == |p| && q[0] == p[0]
    requires forall i :: 0 < i < |p| ==> q[i] == p[i].(background := q[i].background)
    ensures LaunchPlan(Some(p)).Spawn? && LaunchPlan(Some(q)).Spawn?
    ensures LaunchPlan(Some(p)) == LaunchPlan(Some(q))
  {
    var cp := LaunchPlan(Some(p)).children;
    var cq := LaunchPlan(Some(q)).children;
    forall i | 0 <= i < |p|
      ensures cp[i] == cq[i]
    {
      assert cp[i] == ChildPlan(p, i) && cq[i] == ChildPlan(q, i);
    }
    assert cp == cq;
  }
}
