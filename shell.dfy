/**
 * A line from the prompt through `parse_line` into `execute_command`: what
 * the two together do with lines the parser accepts.
 */
module Shell {
  import opened Wrappers
  import opened Command
  import opened Parser
  import opened ParserProperties
  import opened RoundTrip
  import opened ParserExamples
  import opened Builtins
  import opened Executor

  /** The plan for a line, as the prompt loop hands it over. */
  function PlanOfLine(line: Option<String>): (r: Plan)
    ensures r.NoCommand? <==> Parse(line).None?
  {
    LaunchPlan(Parse(line))
  }

  /**
   * A single parsed stage always has a command name, so a child of a
   * one-stage line never reaches a NULL `argv`.
   */
  lemma LoneStageHasProgram(line: Option<String>)
    requires Parse(line).Some? && |Parse(line).value| == 1
    ensures PlanOfLine(line).Spawn? ==> !PlanOfLine(line).children[0].program.NullArgv?
  {
    var p := Parse(line).value;
    if !RunsInParent(p) {
      ChildRunsItsStage(p, 0);
    }
  }

  /**
   * `a | b &`: the `&` marks only the last stage, and the shell waits
   * because only the head's mark counts.
   */
  lemma TrailingAmpersandInPipelineWaits(a: String, b: String)
    requires IsWord(a) && IsWord(b)
    ensures PlanOfLine(Some(a + " " + "| " + b + " " + "& ")).Spawn?
    ensures PlanOfLine(Some(a + " " + "| " + b + " " + "& ")).wait
  {
    var p := [Plain([a]), Plain([b]).(background := true)];
    assert Canonical(p[0]) && Canonical(p[1]);
    assert ArgsText([a]) == a + " " + [];
    assert ArgsText([b]) == b + " " + [];
    assert StageText(p[0]) == a + " ";
    assert StageText(p[1]) == b + " " + "& ";
    assert p[1..] == [p[1]];
    assert PipelineText(p) == a + " " + ("| " + (b + " " + "& "));
    assert a + " " + "| " + b + " " + "& " == a + " " + ("| " + (b + " " + "& "));
    ParseOfPipelineText(p);
  }

  /** `a & | b`: the head is marked, so the shell does not wait for either child. */
  lemma HeadAmpersandRunsInBackground(a: String, b: String)
    requires IsWord(a) && IsWord(b)
    ensures PlanOfLine(Some(a + " " + "& " + "| " + b)).Spawn?
    ensures !PlanOfLine(Some(a + " " + "& " + "| " + b)).wait
  {
    AmpersandMarksOneStage(a, b);
  }

  /**
   * `|` alone parses to two empty stages, and both children then reach
   * `argv[0]` through a NULL `argv`.
   */
  lemma LonePipeReachesNullArgv()
    ensures PlanOfLine(Some("|")) == Spawn(1, [Child(KeepStdin, WritePipe(0), NullArgv),
                                               Child(ReadPipe(0), KeepStdout, NullArgv)], true)
  {
    PipeAloneGivesTwoEmptyStages();
    var p := [NewCommand(), NewCommand()];
    assert ChildPlan(p, 0) == Child(KeepStdin, WritePipe(0), NullArgv);
    assert ChildPlan(p, 1) == Child(ReadPipe(0), KeepStdout, NullArgv);
  }

  /** A lone built-in line runs in the shell itself with `run_builtin`'s outcome. */
  lemma LoneBuiltinRunsInShell(cmd: String)
    requires cmd in BuiltinNames && IsWord(cmd)
    ensures PlanOfLine(Some(cmd + " ")) == InParent(RunBuiltin(Some(Plain([cmd]))))
  {
    assert cmd + " " == cmd + " " + [];
    RunFirstArg(cmd, []);
    assert Run([], Scan([], Plain([cmd]), [], NUL)) == [Plain([cmd])];
  }
}
