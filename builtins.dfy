/**
 * The built-in commands of the shell: the name table `is_builtin` consults
 * and the dispatch of `run_builtin`, whose return code its callers rely on.
 * The effects of the commands themselves (changing directory, printing)
 * are described by an `Action` rather than performed.
 */
module Builtins {
  import opened Wrappers
  import opened Command

  /** Every name `is_builtin` accepts. */
  const BuiltinNames: set<String> := {"cd", "pwd", "help", "history", "jobs", "fg", "bg", "exit"}

  /** The line `help` prints. */
  const HelpText: String := "Built-ins: cd pwd help exit history jobs fg bg\n"

  /** `argv[0]`, or NULL for a stage without arguments. */
  function FirstArg(c: Stage): (r: Option<String>)
    ensures r.Some? <==> |c.args| > 0
    ensures r.Some? ==> r.value == c.args[0]
  {
    if |c.args| > 0 then Some(c.args[0]) else None
  }

  /** `is_builtin`: compares the name with each built-in in turn; NULL is none. */
  function IsBuiltin(name: Option<String>): (b: bool)
    ensures b <==> name.Some? && name.value in BuiltinNames
  {
    match name
    case None => false
    case Some(n) =>
      n == "cd" || n == "pwd" || n == "help" || n == "history"
      || n == "jobs" || n == "fg" || n == "bg" || n == "exit"
  }

  /** What a built-in does beyond its return code. */
  datatype Action =
    | NoAction
      /** `chdir` to the argument, or to `$HOME` (when set) when there is none. */
    | ChangeDir(target: Option<String>)
    | PrintCwd
    | PrintText(text: String)
    | PrintHistory

  /** `run_builtin` either returns a code or ends the shell through `exit`. */
  datatype Outcome =
    | Returned(code: int, action: Action)
    | Exited(status: int)

  /**
   * `run_builtin`: -1 for NULL, for a stage without arguments and for a
   * name that is not a built-in; 0 after any other built-in; `exit` never
   * returns.
   */
  function RunBuiltin(cmd: Option<Stage>): (r: Outcome)
    ensures r.Exited? <==> cmd.Some? && FirstArg(cmd.value) == Some("exit")
    ensures r.Exited? ==> r.status == 0
    ensures r.Returned? ==> (r.code == -1 || r.code == 0)
    ensures r.Returned? && r.code == -1 ==> r.action == NoAction
    ensures r == Returned(-1, NoAction) <==> cmd.None? || !IsBuiltin(FirstArg(cmd.value))
  {
    if cmd.None? || |cmd.value.args| == 0 then Returned(-1, NoAction)
    else
      var args := cmd.value.args;
      var name := args[0];
      if name == "cd" then
        Returned(0, ChangeDir(if |args| < 2 then None else Some(args[1])))
      else if name == "pwd" then Returned(0, PrintCwd)
      else if name == "help" then Returned(0, PrintText(HelpText))
      else if name == "history" then Returned(0, PrintHistory)
      else if name == "jobs" then Returned(0, PrintText("jobs: not implemented yet\n"))
      else if name == "fg" then Returned(0, PrintText("fg: not implemented yet\n"))
      else if name == "bg" then Returned(0, PrintText("bg: not implemented yet\n"))
      else if name == "exit" then Exited(0)
      else Returned(-1, NoAction)
  }

  // ---------------------------------------------------------------------

  /** `cd` alone goes home; `cd d` goes to `d` whatever follows it. */
  lemma CdTarget(c: Stage)
    requires FirstArg(c) == Some("cd")
    ensures RunBuiltin(Some(c)) == Returned(0, ChangeDir(if |c.args| == 1 then None else Some(c.args[1])))
  {
  }

  /** `quit` is not a built-in; the interactive loop handles it before dispatch. */
  lemma QuitIsNotBuiltin()
    ensures !IsBuiltin(Some("quit"))
    ensures RunBuiltin(Some(Stage(["quit"], None, None, false, false))) == Returned(-1, NoAction)
  {
    assert "quit" != "cd";
  }
}
