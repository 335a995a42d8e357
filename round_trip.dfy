/**
 * A canonical text for every pipeline whose words are plain: each argument
 * followed by a blank, then `< f `, `> f ` or `>> f `, then `& `, with the
 * stages joined by `| `.  `parse_line` reads that text back as the very
 * same pipeline.
 */
module RoundTrip {
  import opened Wrappers
  import opened Sequences
  import opened Command
  import opened Parser
  import opened ParserProperties

  /** The redirection operator that sets the given target. */
  function OpText(op: char, append: bool): (r: String)
    requires op == '<' || op == '>'
    ensures |r| > 0 && r[0] == op
  {
    if op == '<' then "<" else if append then ">>" else ">"
  }

  /** A stage that a canonical text can describe. */
  predicate Canonical(c: Stage) {
    (forall k :: 0 <= k < |c.args| ==> IsWord(c.args[k]))
    && (c.infile.Some? ==> IsWord(c.infile.value))
    && (c.outfile.Some? ==> IsWord(c.outfile.value))
    && (c.outfile.None? ==> !c.append)
  }

  function ArgsText(args: seq<String>): String {
    if args == [] then [] else args[0] + " " + ArgsText(args[1..])
  }

  function StageText(c: Stage): String {
    ArgsText(c.args)
    + (if c.infile.Some? then OpText('<', false) + " " + c.infile.value + " " else [])
    + (if c.outfile.Some? then OpText('>', c.append) + " " + c.outfile.value + " " else [])
    + (if c.background then "& " else [])
  }

  function PipelineText(p: Pipeline): String
    requires |p| > 0
  {
    if |p| == 1 then StageText(p[0]) else StageText(p[0]) + "| " + PipelineText(p[1..])
  }

  // ---------------------------------------------------------------------

  /** `a + b + c + d + e`, grouped from the right. */
  lemma Regroup(a: String, b: String, c: String, d: String, e: String)
    ensures a + b + c + d + e == a + (b + (c + (d + e)))
  {
    Associative(a + b + c, d, e);
    Associative(a + b, c, d + e);
    Associative(a, b, c + (d + e));
  }

  /** An unquoted file name made of word characters ends where the word ends. */
  lemma {:induction false} BareLenWord(f: String, rest: String)
    requires forall k :: 0 <= k < |f| ==> IsWordChar(f[k])
    requires rest == [] || EndsBareName(rest[0])
    ensures BareLen(f + rest) == |f|
    decreases |f|
  {
    if f == [] {
      assert f + rest == rest;
    } else {
      assert (f + rest)[1..] == f[1..] + rest;
      BareLenWord(f[1..], rest);
    }
  }

  /** A redirection operator starts a turn of its own, inside quotes too. */
  lemma RunRedirect(s: String, st: Scan)
    requires 0 < |s| && (s[0] == '<' || s[0] == '>') && QuoteState(st.quote)
    ensures Run(s, st) == Run(s[Redirect(s, st).0..], Redirect(s, st).1)
  {
    assert Run(s, st) == Turn(s, st);
    assert Step(s, st) == Redirect(s, st);
  }

  /** A word followed by a blank becomes the next argument of the current stage. */
  lemma RunArg(w: String, rest: String, st: Scan)
    requires IsWord(w) && st.quote == NUL && st.token == []
    ensures Run(w + [' '] + rest, st) == Run(rest, st.(cur := PushArg(st.cur, w)))
  {
    assert w + [' '] + rest == w + ([' '] + rest);
    RunLiteral(w, [' '] + rest, st);
    assert st.token + w == w;
    RunBlank(' ', rest, st.(token := w));
  }

  /** A word at the end of the line joins the pending token and is pushed. */
  lemma RunLastWord(w: String, st: Scan)
    requires st.quote == NUL && |st.token + w| > 0
    requires forall k :: 0 <= k < |w| ==> IsWordChar(w[k])
    ensures Run(w, st) == st.done + [PushArg(st.cur, st.token + w)]
  {
    assert w == w + [];
    RunLiteral(w, [], st);
  }

  lemma {:induction false} RunArgsText(args: seq<String>, rest: String, st: Scan)
    requires forall k :: 0 <= k < |args| ==> IsWord(args[k])
    requires st.quote == NUL && st.token == []
    ensures Run(ArgsText(args) + rest, st) == Run(rest, st.(cur := st.cur.(args := st.cur.args + args)))
    decreases |args|
  {
    if args == [] {
      assert ArgsText(args) + rest == rest;
      assert st.cur.args + args == st.cur.args;
    } else {
      assert ArgsText(args) + rest == args[0] + [' '] + (ArgsText(args[1..]) + rest);
      RunArg(args[0], ArgsText(args[1..]) + rest, st);
      var st1 := st.(cur := PushArg(st.cur, args[0]));
      RunArgsText(args[1..], rest, st1);
      assert st1.cur.args + args[1..] == st.cur.args + args;
    }
  }

  /** A blank and then a word: one blank to skip, then the word as an unquoted name. */
  lemma BlankThenWord(f: String, rest: String)
    requires IsWord(f)
    ensures Blanks([' '] + (f + ([' '] + rest))) == 1
    ensures FileName(f + ([' '] + rest)) == (f, |f|)
  {
    var t := f + ([' '] + rest);
    assert ([' '] + t)[1..] == t;
    assert CharAt(t, 0) == f[0];
    BareLenWord(f, [' '] + rest);
    assert t[..|f|] == f;
  }

  /** The operator text is followed by a blank, so `>` alone never reads as `>>`. */
  lemma OpTextThenBlank(op: char, append: bool, t: String)
    requires (op == '<' && !append) || op == '>'
    requires |t| > 0 && t[0] == ' '
    ensures (OpText(op, append) + t)[0] == op
    ensures CharAt(OpText(op, append) + t, 1) == '>' <==> (op == '>' && append)
    ensures |OpText(op, append)| == if op == '>' && append then 2 else 1
    ensures (OpText(op, append) + t)[|OpText(op, append)|..] == t
  {
  }

  /** The redirection step on `< f `, `> f ` or `>> f `. */
  lemma RedirectText(op: char, append: bool, f: String, rest: String, st: Scan)
    requires (op == '<' && !append) || op == '>'
    requires IsWord(f) && st.quote == NUL && st.token == []
    ensures Redirect(OpText(op, append) + " " + f + " " + rest, st)
         == (|OpText(op, append)| + 1 + |f|,
             st.(cur := if op == '<' then st.cur.(infile := Some(f))
                        else st.cur.(outfile := Some(f), append := append)))
  {
    var o := OpText(op, append);
    var t := [' '] + (f + ([' '] + rest));
    var s := o + t;
    assert " " == [' '];
    Regroup(o, " ", f, " ", rest);
    assert o + " " + f + " " + rest == s;
    OpTextThenBlank(op, append, t);
    BlankThenWord(f, rest);
    var k := |o|;
    assert s[k..] == t;
    assert s[k + 1..] == t[1..] == f + ([' '] + rest);
    assert k + 1 == k + Blanks(s[k..]);
    assert FileName(s[k + 1..]) == (f, |f|);
    RedirectAt(s, 0, k, k + 1, k + 1 + |f|, f, st);
    assert s[0..] == s;
    assert Flush(st) == st;
    assert (k == 2) == (op == '>' && append);
    var r := Redirect(s, st);
    assert r.0 == k + 1 + |f|;
    assert r.1 == st.(cur := if op == '<' then st.cur.(infile := Some(f))
                             else st.cur.(outfile := Some(f), append := append));
  }

  /**
   * `< f `, `> f ` or `>> f `: the operator sets its target on the current
   * stage and the blank after the name ends it.
   */
  lemma RunRedirectText(op: char, append: bool, f: String, rest: String, st: Scan)
    requires (op == '<' && !append) || op == '>'
    requires IsWord(f) && st.quote == NUL && st.token == []
    ensures Run(OpText(op, append) + " " + f + " " + rest, st)
         == Run(rest, st.(cur := if op == '<' then st.cur.(infile := Some(f))
                                 else st.cur.(outfile := Some(f), append := append)))
  {
    var s := OpText(op, append) + " " + f + " " + rest;
    var st1 := st.(cur := if op == '<' then st.cur.(infile := Some(f))
                          else st.cur.(outfile := Some(f), append := append));
    var head := OpText(op, append) + " " + f;
    var n := |head|;
    assert n == |OpText(op, append)| + 1 + |f|;
    assert s == head + (" " + rest);
    RedirectText(op, append, f, rest, st);
    assert s[0] == op;
    RunRedirect(s, st);
    assert s[n..] == [' '] + rest;
    assert Flush(st1) == st1;
    RunBlank(' ', rest, st1);
  }

  /** `& ` marks the current stage. */
  lemma RunBackgroundText(rest: String, st: Scan)
    requires st.quote == NUL && st.token == []
    ensures Run("& " + rest, st) == Run(rest, st.(cur := st.cur.(background := true)))
  {
    assert "& " + rest == ['&'] + ([' '] + rest);
    RunAmpersand([' '] + rest, st);
    RunBlank(' ', rest, st.(cur := st.cur.(background := true)));
  }

  /** The text of a canonical stage rebuilds that stage from a fresh one. */
  lemma RunStageText(c: Stage, rest: String, d: seq<Stage>)
    requires Canonical(c)
    ensures Run(StageText(c) + rest, Scan(d, NewCommand(), [], NUL)) == Run(rest, Scan(d, c, [], NUL))
  {
    var a := ArgsText(c.args);
    var i := if c.infile.Some? then OpText('<', false) + " " + c.infile.value + " " else [];
    var o := if c.outfile.Some? then OpText('>', c.append) + " " + c.outfile.value + " " else [];
    var g: String := if c.background then "& " else [];
    var r3 := g + rest;
    var r2 := o + r3;
    var r1 := i + r2;
    assert StageText(c) == a + i + o + g;
    Regroup(a, i, o, g, rest);
    RunArgsText(c.args, r1, Scan(d, NewCommand(), [], NUL));
    assert [] + c.args == c.args;
    var c1 := NewCommand().(args := c.args);
    var c2 := c1.(infile := c.infile);
    if c.infile.Some? {
      Regroup(OpText('<', false), " ", c.infile.value, " ", r2);
      RunRedirectText('<', false, c.infile.value, r2, Scan(d, c1, [], NUL));
    } else {
      assert r1 == r2;
    }
    var c3 := c2.(outfile := c.outfile, append := c.append);
    if c.outfile.Some? {
      Regroup(OpText('>', c.append), " ", c.outfile.value, " ", r3);
      RunRedirectText('>', c.append, c.outfile.value, r3, Scan(d, c2, [], NUL));
    } else {
      assert r2 == r3;
    }
    if c.background {
      RunBackgroundText(rest, Scan(d, c3, [], NUL));
    } else {
      assert r3 == rest;
    }
    assert c == Stage(c.args, c.infile, c.outfile, c.append, c.background);
  }

  lemma {:induction false} RunPipelineText(p: Pipeline, d: seq<Stage>)
    requires |p| > 0 && forall k :: 0 <= k < |p| ==> Canonical(p[k])
    ensures Run(PipelineText(p), Scan(d, NewCommand(), [], NUL)) == d + p
    decreases |p|
  {
    var st := Scan(d, p[0], [], NUL);
    if |p| == 1 {
      assert PipelineText(p) == StageText(p[0]) + [];
      RunStageText(p[0], [], d);
      assert Run([], st) == d + p;
    } else {
      var tail := PipelineText(p[1..]);
      assert PipelineText(p) == StageText(p[0]) + ("| " + tail);
      RunStageText(p[0], "| " + tail, d);
      RunPipeText(tail, st);
      RunPipelineText(p[1..], d + [p[0]]);
      assert d + [p[0]] + p[1..] == d + p;
    }
  }

  /** `| ` closes a finished stage and opens a fresh one. */
  lemma RunPipeText(rest: String, st: Scan)
    requires st.quote == NUL && st.token == []
    ensures Run("| " + rest, st) == Run(rest, Scan(st.done + [st.cur], NewCommand(), [], NUL))
  {
    var st1 := Scan(st.done + [st.cur], NewCommand(), [], NUL);
    assert "| " + rest == ['|'] + ([' '] + rest);
    assert NewStage(st) == st1;
    RunPipe([' '] + rest, st);
    assert Flush(st1) == st1;
    RunBlank(' ', rest, st1);
  }

  /**
   * Round trip: the canonical text of a pipeline that `parse_line` can
   * return parses back to that pipeline.
   */
  lemma ParseOfPipelineText(p: Pipeline)
    requires |p| > 0 && forall k :: 0 <= k < |p| ==> Canonical(p[k])
    requires |p| > 1 || |p[0].args| > 0
    ensures Parse(Some(PipelineText(p))) == Some(p)
  {
    RunPipelineText(p, []);
    assert [] + p == p;
  }

  /** A redirection with no command, such as `> f`, gives no pipeline. */
  lemma RedirectAloneGivesNothing(op: char, append: bool, f: String)
    requires (op == '<' && !append) || op == '>'
    requires IsWord(f)
    ensures Parse(Some(OpText(op, append) + " " + f + " ")) == None
  {
    assert OpText(op, append) + " " + f + " " == OpText(op, append) + " " + f + " " + [];
    RunRedirectText(op, append, f, [], Init());
  }
}
