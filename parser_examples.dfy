/**
 * The documented behaviour of `parse_line` on whole command lines, for
 * every choice of the words involved: quoting, escapes, `&` inside a word,
 * `|` inside quotes, overriding redirections and the dropped words.
 */
module ParserExamples {
  import opened Wrappers
  import opened Command
  import opened Parser
  import opened ParserProperties
  import opened RoundTrip

  /** A stage with the given arguments and nothing else set. */
  function Plain(args: seq<String>): (c: Stage)
    ensures c.args == args && c.infile.None? && c.outfile.None? && !c.append && !c.background
  {
    Stage(args, None, None, false, false)
  }

  /** The state after a first word and its blank: a fresh line with one argument. */
  lemma RunFirstArg(cmd: String, rest: String)
    requires IsWord(cmd)
    ensures Run(cmd + " " + rest, Init()) == Run(rest, Scan([], Plain([cmd]), [], NUL))
  {
    RunArg(cmd, rest, Init());
    assert PushArg(NewCommand(), cmd) == Plain([cmd]);
  }

  /**
   * `cmd 'w' arg`: blanks and the other quote inside quotes are kept, the
   * quotes themselves are stripped (`echo 'a b' c` gives `echo`, `a b`, `c`).
   */
  lemma QuotedWordKeepsBlanks(cmd: String, q: char, w: String, arg: String)
    requires IsWord(cmd) && IsWord(arg) && IsQuote(q) && |w| > 0
    requires forall k :: 0 <= k < |w| ==> IsLiteral(w[k], q)
    ensures Parse(Some(cmd + " " + [q] + w + [q] + " " + arg)) == Some([Plain([cmd, w, arg])])
  {
    var r2 := [' '] + arg;
    var r1 := [q] + w + [q] + r2;
    assert cmd + " " + [q] + w + [q] + " " + arg == cmd + " " + r1;
    RunFirstArg(cmd, r1);
    var st1 := Scan([], Plain([cmd]), [], NUL);
    RunQuoted(q, w, r2, st1);
    var st2 := st1.(token := w);
    assert st1.token + w == w;
    RunBlank(' ', arg, st2);
    var st3 := Scan([], Plain([cmd, w]), [], NUL);
    assert Flush(st2) == st3;
    RunLastWord(arg, st3);
    assert st3.token + arg == arg;
    assert PushArg(st3.cur, arg) == Plain([cmd, w, arg]);
    assert Run(arg, st3) == [Plain([cmd, w, arg])];
    assert Run(r2, st2) == [Plain([cmd, w, arg])];
    assert Run(r1, st1) == [Plain([cmd, w, arg])];
    assert Run(cmd + " " + r1, Init()) == [Plain([cmd, w, arg])];
  }

  /** `cmd 'w` with no closing quote: the last word is silently dropped. */
  lemma UnterminatedQuoteDropsWord(cmd: String, q: char, w: String)
    requires IsWord(cmd) && IsQuote(q)
    requires forall k :: 0 <= k < |w| ==> IsLiteral(w[k], q)
    ensures Parse(Some(cmd + " " + [q] + w)) == Some([Plain([cmd])])
  {
    RunFirstArg(cmd, [q] + w);
    var st1 := Scan([], Plain([cmd]), [], NUL);
    RunUnterminated(q, w, st1);
    assert st1.Stages() == [Plain([cmd])];
    assert Run(cmd + " " + ([q] + w), Init()) == [Plain([cmd])];
    assert cmd + " " + [q] + w == cmd + " " + ([q] + w);
  }

  /** `a&b`: the `&` neither ends the word nor stays in it, and marks the stage. */
  lemma AmpersandInsideWord(a: String, b: String)
    requires IsWord(a) && IsWord(b)
    ensures Parse(Some(a + "&" + b)) == Some([Plain([a + b]).(background := true)])
  {
    assert a + "&" + b == a + (['&'] + b);
    RunLiteral(a, ['&'] + b, Init());
    var st1 := Init().(token := a);
    assert Init().token + a == a;
    RunAmpersand(b, st1);
    var st2 := st1.(cur := st1.cur.(background := true));
    RunLastWord(b, st2);
    assert PushArg(st2.cur, a + b) == Plain([a + b]).(background := true);
    assert Run(b, st2) == [Plain([a + b]).(background := true)];
    assert Run(['&'] + b, st1) == [Plain([a + b]).(background := true)];
    assert Run(a + (['&'] + b), Init()) == [Plain([a + b]).(background := true)];
  }

  /** `'a|b'`: quotes do not protect `|`, which still splits the stage. */
  lemma QuotedPipeSplits(q: char, a: String, b: String)
    requires IsQuote(q) && |a| > 0 && |b| > 0
    requires forall k :: 0 <= k < |a| ==> IsLiteral(a[k], q)
    requires forall k :: 0 <= k < |b| ==> IsLiteral(b[k], q)
    ensures Parse(Some([q] + a + "|" + b + [q])) == Some([Plain([a]), Plain([b])])
  {
    var r3 := b + [q];
    var r2 := ['|'] + r3;
    var r1 := a + r2;
    assert [q] + a + "|" + b + [q] == [q] + r1;
    RunChar(q, r1, Init());
    var st1 := Init().(quote := q);
    assert Feed(q, Init()) == st1;
    RunLiteral(a, r2, st1);
    var st2 := st1.(token := a);
    assert st1.token + a == a;
    RunPipe(r3, st2);
    var st3 := Scan([Plain([a])], NewCommand(), [], q);
    assert NewStage(st2) == st3;
    RunLiteral(b, [q], st3);
    var st4 := st3.(token := b);
    assert st3.token + b == b;
    assert [q] == [q] + [];
    RunChar(q, [], st4);
    var st5 := st4.(quote := NUL);
    assert Feed(q, st4) == st5;
    var p := [Plain([a]), Plain([b])];
    assert Run([], st5) == p;
    assert Run([q] + [], st4) == p;
    assert Run(r3, st3) == p;
    assert Run(r1, st1) == p;
    assert Run([q] + r1, Init()) == p;
  }

  /**
   * `a\cb`: a backslash makes the next character literal, whatever it is
   * (`a\ b` gives the single argument `a b`).
   */
  lemma EscapedCharJoins(a: String, c: char, b: String)
    requires IsWord(a) && IsWord(b) && c != NUL
    ensures Parse(Some(a + ['\\', c] + b)) == Some([Plain([a + [c] + b])])
  {
    assert a + ['\\', c] + b == a + (['\\', c] + b);
    RunLiteral(a, ['\\', c] + b, Init());
    var st1 := Init().(token := a);
    assert Init().token + a == a;
    RunEscape(c, b, st1);
    var st2 := st1.(token := a + [c]);
    RunLastWord(b, st2);
    assert PushArg(st2.cur, a + [c] + b) == Plain([a + [c] + b]);
    assert Run(b, st2) == [Plain([a + [c] + b])];
    assert Run(['\\', c] + b, st1) == [Plain([a + [c] + b])];
    assert Run(a + (['\\', c] + b), Init()) == [Plain([a + [c] + b])];
  }

  /** `a\|b`: an escaped `|` is literal and opens no stage. */
  lemma EscapedPipeJoins(a: String, b: String)
    requires IsWord(a) && IsWord(b)
    ensures Parse(Some(a + "\\|" + b)) == Some([Plain([a + "|" + b])])
  {
    EscapedCharJoins(a, '|', b);
  }

  /** `x > "a|b"`: a quoted target reads the `|` as part of the file name. */
  lemma QuotedTargetKeepsPipe(s: String)
    requires s == "x > \"a|b\""
    ensures Parse(Some(s)) == Some([Plain(["x"]).(outfile := Some("a|b"))])
  {
    var r := s[2..];
    assert s == "x" + " " + r;
    RunFirstArg("x", r);
    RunQuotedPipeTarget(r, Scan([], Plain(["x"]), [], NUL));
    assert Plain(["x"]).(outfile := Some("a|b"), append := false) == Plain(["x"]).(outfile := Some("a|b"));
    assert Run(s, Init()) == [Plain(["x"]).(outfile := Some("a|b"))];
  }

  /** The scan of `> "a|b"` to the end of the line. */
  lemma RunQuotedPipeTarget(r: String, st: Scan)
    requires r == "> \"a|b\"" && st.token == [] && st.quote == NUL
    ensures Run(r, st) == st.done + [st.cur.(outfile := Some("a|b"), append := false)]
  {
    var st1 := st.(cur := st.cur.(outfile := Some("a|b"), append := false));
    QuotedPipeRedirect(st);
    assert Run(r, st) == Turn(r, st) == Run(r[7..], st1);
    assert r[7..] == [];
    assert Flush(st1) == st1;
  }

  /** `> "a|b"` sets the output file `a|b` and reads the whole text. */
  lemma QuotedPipeRedirect(st: Scan)
    requires st.token == []
    ensures Redirect("> \"a|b\"", st) == (7, st.(cur := st.cur.(outfile := Some("a|b"), append := false)))
  {
    var r := "> \"a|b\"";
    assert CharAt(r, 1) == ' ';
    assert r[1..] == " \"a|b\"";
    BlanksStep(r, 1);
    assert r[2..] == "\"a|b\"" && CharAt(r, 2) == '"';
    assert Blanks(r[1..]) == 1;
    FileNameQuoted(r, 2);
    assert r[3..] == "a|b\"";
    QuotedPipeName();
    assert CharAt(r, 6) == '"';
    assert FileName(r[2..]) == ("a|b", 5);
    assert Flush(st) == st;
  }

  /** The body of the quoted name `"a|b"`. */
  lemma QuotedPipeName()
    ensures QuotedName("a|b\"", '"') == ("a|b", 3)
  {
    QuotedNameWord("a|b", '"', []);
    assert "a|b" + ['"'] + [] == "a|b\"";
  }

  /** `a\` at the end of the line: the trailing backslash is dropped. */
  lemma TrailingBackslashDropped(a: String)
    requires IsWord(a)
    ensures Parse(Some(a + "\\")) == Some([Plain([a])])
  {
    RunLiteral(a, ['\\'], Init());
    var st1 := Init().(token := a);
    assert Init().token + a == a;
    RunTrailingEscape(st1);
    assert Finish(st1) == [Plain([a])];
  }

  /** `cmd >> f > g `: the later redirection wins, `append` included. */
  lemma LaterRedirectWins(cmd: String, f: String, g: String)
    requires IsWord(cmd) && IsWord(f) && IsWord(g)
    ensures Parse(Some(cmd + " " + ">> " + f + " " + "> " + g + " "))
         == Some([Plain([cmd]).(outfile := Some(g))])
  {
    var r2 := OpText('>', false) + " " + g + " " + [];
    var r1 := OpText('>', true) + " " + f + " " + r2;
    assert cmd + " " + ">> " + f + " " + "> " + g + " " == cmd + " " + r1;
    RunFirstArg(cmd, r1);
    var st1 := Scan([], Plain([cmd]), [], NUL);
    RunRedirectText('>', true, f, r2, st1);
    var st2 := st1.(cur := st1.cur.(outfile := Some(f), append := true));
    RunRedirectText('>', false, g, [], st2);
    var st3 := st2.(cur := st2.cur.(outfile := Some(g), append := false));
    assert Run([], st3) == [Plain([cmd]).(outfile := Some(g))];
  }

  /** `a & | b`: the `&` marks only the stage being built, here the head. */
  lemma AmpersandMarksOneStage(a: String, b: String)
    requires IsWord(a) && IsWord(b)
    ensures Parse(Some(a + " " + "& " + "| " + b))
         == Some([Plain([a]).(background := true), Plain([b])])
  {
    var r2 := "| " + b;
    var r1 := "& " + r2;
    assert a + " " + "& " + "| " + b == a + " " + r1;
    RunFirstArg(a, r1);
    var st1 := Scan([], Plain([a]), [], NUL);
    RunBackgroundText(r2, st1);
    var st2 := st1.(cur := st1.cur.(background := true));
    RunPipeText(b, st2);
    var st3 := Scan([Plain([a]).(background := true)], NewCommand(), [], NUL);
    assert st2.done + [st2.cur] == st3.done;
    RunLastWord(b, st3);
    assert st3.token + b == b;
    assert PushArg(NewCommand(), b) == Plain([b]);
    var p := [Plain([a]).(background := true), Plain([b])];
    assert Run(b, st3) == p;
    assert Run(r2, st2) == p;
    assert Run(r1, st1) == p;
    assert Run(a + " " + r1, Init()) == p;
  }
}
