/**
 * One stage of a pipeline (`struct command` of shell.h) and the two helpers
 * the parser uses to build it.  The C list of stages linked through `next`
 * is a sequence of stages here; `argc` is the length of `args`, and the NULL
 * that terminates `argv` is implicit in the sequence's length.
 */
module Command {
  import opened Wrappers

  type String = seq<char>

  datatype Stage = Stage(
    args: seq<String>,
    infile: Option<String>,
    outfile: Option<String>,
    append: bool,
    background: bool)

  /** A parsed pipeline: stage i writes into stage i + 1. */
  type Pipeline = seq<Stage>

  /** `new_command`: a stage with no arguments, no redirections and no flags. */
  function NewCommand(): (c: Stage)
    ensures |c.args| == 0 && c.infile.None? && c.outfile.None?
    ensures !c.append && !c.background
  {
    Stage([], None, None, false, false)
  }

  /** `push_arg`: appends one argument, keeping every other part of the stage. */
  function PushArg(c: Stage, arg: String): (r: Stage)
    ensures |r.args| == |c.args| + 1
    ensures r.args[..|c.args|] == c.args && r.args[|c.args|] == arg
    ensures r.infile == c.infile && r.outfile == c.outfile
    ensures r.append == c.append && r.background == c.background
  {
    c.(args := c.args + [arg])
  }
}
