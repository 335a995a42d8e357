/**
 * Properties of `parse_line`, proved about the scan `Run` that `ParseLine`
 * computes: how single characters, words, quotes and escapes move the
 * scanner, which lines give no pipeline, how many stages a line gives, and
 * the invariants every parse keeps.
 */
module ParserProperties {
  import opened Wrappers
  import opened Command
  import opened Parser

  /** A character that has no meaning to the scanner outside quotes. */
  predicate IsWordChar(c: char) {
    !EndsBareName(c) && !IsQuote(c) && c != '\\'
  }

  /** A character copied literally into the token in quote state `q`. */
  predicate IsLiteral(c: char, q: char) {
    if q == NUL then IsWordChar(c)
    else c != q && c != '\\' && c != '|' && c != '<' && c != '>' && c != '&'
  }

  /** A word of a canonical command line: plain characters, at least one. */
  predicate IsWord(w: String) {
    |w| > 0 && forall k :: 0 <= k < |w| ==> IsWordChar(w[k])
  }

  /** No argument of the stage is empty. */
  predicate StageArgsNonEmpty(c: Stage) {
    forall j :: 0 <= j < |c.args| ==> |c.args[j]| > 0
  }

  /** No argument of any stage is empty. */
  predicate ArgsNonEmpty(p: seq<Stage>) {
    forall i :: 0 <= i < |p| ==> StageArgsNonEmpty(p[i])
  }

  // ---------------------------------------------------------------------
  // Moving the scanner over single characters and words

  /**
   * Outside the escape and redirection branches a turn of the loop reads
   * one character, whatever follows it.
   */
  lemma RunChar(c: char, rest: String, st: Scan)
    requires c != '\\' && c != '<' && c != '>'
    ensures Run([c] + rest, st) == Run(rest, Feed(c, st))
  {
    var s := [c] + rest;
    assert Run(s, st) == Turn(s, st);
    assert s[1..] == rest;
    assert Step(s, st) == (1, Feed(c, st));
  }

  /** A literal character is appended to the pending token. */
  lemma RunLiteralChar(c: char, rest: String, st: Scan)
    requires QuoteState(st.quote) && IsLiteral(c, st.quote)
    ensures Run([c] + rest, st) == Run(rest, st.(token := st.token + [c]))
  {
    assert Feed(c, st) == st.(token := st.token + [c]);
    RunChar(c, rest, st);
  }

  /** A run of literal characters extends the pending token by exactly those characters. */
  lemma {:induction false} RunLiteral(w: String, rest: String, st: Scan)
    requires QuoteState(st.quote)
    requires forall k :: 0 <= k < |w| ==> IsLiteral(w[k], st.quote)
    ensures Run(w + rest, st) == Run(rest, st.(token := st.token + w))
    decreases |w|
  {
    if w == [] {
      assert w + rest == rest;
      assert st.token + w == st.token;
    } else {
      assert w + rest == [w[0]] + (w[1..] + rest);
      RunLiteralChar(w[0], w[1..] + rest, st);
      RunLiteral(w[1..], rest, st.(token := st.token + [w[0]]));
      assert st.token + [w[0]] + w[1..] == st.token + w;
    }
  }

  /** An unquoted blank pushes the pending token, if any. */
  lemma RunBlank(c: char, rest: String, st: Scan)
    requires IsBlank(c) && st.quote == NUL
    ensures Run([c] + rest, st) == Run(rest, Flush(st))
  {
    assert Feed(c, st) == Flush(st);
    RunChar(c, rest, st);
  }

  lemma FlushIdempotent(st: Scan)
    ensures Flush(Flush(st)) == Flush(st)
  {
  }

  /** A run of unquoted blanks acts as a single one. */
  lemma {:induction false} RunBlanks(b: String, rest: String, st: Scan)
    requires |b| > 0 && st.quote == NUL
    requires forall k :: 0 <= k < |b| ==> IsBlank(b[k])
    ensures Run(b + rest, st) == Run(rest, Flush(st))
    decreases |b|
  {
    assert b + rest == [b[0]] + (b[1..] + rest);
    RunBlank(b[0], b[1..] + rest, st);
    if |b| > 1 {
      RunBlanks(b[1..], rest, Flush(st));
      FlushIdempotent(st);
    } else {
      assert b[1..] + rest == rest;
    }
  }

  /**
   * A word in quotes: both quotes are stripped and everything between
   * them, blanks and the other quote character included, joins the token.
   */
  lemma RunQuoted(q: char, w: String, rest: String, st: Scan)
    requires IsQuote(q) && st.quote == NUL
    requires forall k :: 0 <= k < |w| ==> IsLiteral(w[k], q)
    ensures Run([q] + w + [q] + rest, st) == Run(rest, st.(token := st.token + w))
  {
    assert [q] + w + [q] + rest == [q] + (w + ([q] + rest));
    var open := st.(quote := q);
    assert Feed(q, st) == open;
    RunChar(q, w + ([q] + rest), st);
    RunLiteral(w, [q] + rest, open);
    var inside := open.(token := st.token + w);
    assert Feed(q, inside) == st.(token := st.token + w);
    RunChar(q, rest, inside);
  }

  /**
   * A quote left open to the end of the line: the characters after it are
   * collected but never pushed, so the stages are those before the quote.
   */
  lemma RunUnterminated(q: char, w: String, st: Scan)
    requires IsQuote(q) && st.quote == NUL
    requires forall k :: 0 <= k < |w| ==> IsLiteral(w[k], q)
    ensures Run([q] + w, st) == st.Stages()
  {
    assert [q] + w == [q] + (w + []);
    var open := st.(quote := q);
    assert Feed(q, st) == open;
    RunChar(q, w + [], st);
    RunLiteral(w, [], open);
    assert Run([], open.(token := st.token + w)) == st.Stages();
  }

  /** A backslash appends the next character, whatever it is and in any quote state. */
  lemma RunEscape(c: char, rest: String, st: Scan)
    requires st.quote != '\\'
    ensures Run(['\\', c] + rest, st) == Run(rest, st.(token := st.token + [c]))
  {
    var s := ['\\', c] + rest;
    assert Run(s, st) == Turn(s, st);
    assert s[2..] == rest;
    assert Step(s, st) == (2, st.(token := st.token + [c]));
  }

  /** A backslash at the end of the line is dropped. */
  lemma RunTrailingEscape(st: Scan)
    requires st.quote != '\\'
    ensures Run(['\\'], st) == Finish(st)
  {
    assert Run(['\\'], st) == Turn(['\\'], st);
    assert ['\\'][1..] == [];
    assert Step(['\\'], st) == (1, st);
  }

  /** `&` marks the current stage and leaves the pending token as it is. */
  lemma RunAmpersand(rest: String, st: Scan)
    requires st.quote != '&'
    ensures Run(['&'] + rest, st) == Run(rest, st.(cur := st.cur.(background := true)))
  {
    assert Feed('&', st) == st.(cur := st.cur.(background := true));
    RunChar('&', rest, st);
  }

  /** `|`, quoted or not, closes the current stage and opens an empty one. */
  lemma RunPipe(rest: String, st: Scan)
    requires QuoteState(st.quote)
    ensures Run(['|'] + rest, st) == Run(rest, NewStage(st))
  {
    assert Feed('|', st) == NewStage(st);
    RunChar('|', rest, st);
  }

  // ---------------------------------------------------------------------
  // Quoted redirection targets

  /** Characters a quoted target `q` copies one by one: no closing quote, escape or terminator. */
  predicate QuotedBody(w: String, q: char) {
    forall k :: 0 <= k < |w| ==> w[k] != q && w[k] != '\\' && w[k] != NUL
  }

  /** A quoted name runs to the matching quote, which it does not include. */
  lemma {:induction false} QuotedNameWord(w: String, q: char, rest: String)
    requires IsQuote(q) && QuotedBody(w, q)
    ensures QuotedName(w + [q] + rest, q) == (w, |w|)
    decreases |w|
  {
    var s := w + [q] + rest;
    if w == [] {
      assert s == [q] + rest && CharAt(s, 0) == q;
    } else {
      assert CharAt(s, 0) == w[0] && s[1..] == w[1..] + [q] + rest;
      QuotedNameWord(w[1..], q, rest);
      assert [w[0]] + w[1..] == w;
    }
  }

  /** Inside a quoted name a backslash takes the next character literally. */
  lemma QuotedNameEscapes(c: char, rest: String, q: char)
    requires IsQuote(q) && c != NUL
    ensures QuotedName(['\\', c] + rest, q)
         == ([c] + QuotedName(rest, q).0, 2 + QuotedName(rest, q).1)
  {
    var s := ['\\', c] + rest;
    assert CharAt(s, 0) == '\\' && CharAt(s, 1) == c && s[2..] == rest;
  }

  /** A quoted target is its body; the closing quote is consumed with it. */
  lemma FileNameQuotedWord(q: char, w: String, rest: String)
    requires IsQuote(q) && QuotedBody(w, q)
    ensures FileName([q] + w + [q] + rest) == (w, |w| + 2)
  {
    var s := [q] + w + [q] + rest;
    assert s[1..] == w + [q] + rest;
    QuotedNameWord(w, q, rest);
    assert CharAt(s, 0) == q && CharAt(s, 1 + |w|) == q;
  }

  // ---------------------------------------------------------------------
  // Lines that give no pipeline

  /** A line of blanks leaves the scanner where it started. */
  lemma {:induction false} RunBlankLine(s: String)
    requires forall k :: 0 <= k < |s| ==> IsBlank(s[k])
    ensures Run(s, Init()) == [NewCommand()]
    decreases |s|
  {
    if s != [] {
      assert s == [s[0]] + s[1..];
      RunBlank(s[0], s[1..], Init());
      assert Flush(Init()) == Init();
      RunBlankLine(s[1..]);
    }
  }

  /** NULL, the empty line and a line of blanks give no pipeline. */
  lemma BlankLineGivesNothing(line: Option<String>)
    requires line.Some? ==> forall k :: 0 <= k < |line.value| ==> IsBlank(line.value[k])
    ensures Parse(line) == None
  {
    if line.Some? {
      RunBlankLine(line.value);
    }
  }

  /** `&` alone sets a flag on an empty head stage: no pipeline. */
  lemma AmpersandAloneGivesNothing()
    ensures Parse(Some("&")) == None
  {
    assert "&" == ['&'] + [];
    RunAmpersand([], Init());
  }

  /** `|` alone is kept: two empty stages rather than no pipeline. */
  lemma PipeAloneGivesTwoEmptyStages()
    ensures Parse(Some("|")) == Some([NewCommand(), NewCommand()])
  {
    assert "|" == ['|'] + [];
    RunPipe([], Init());
    assert NewStage(Init()) == Scan([NewCommand()], NewCommand(), [], NUL);
    assert Run([], NewStage(Init())) == [NewCommand(), NewCommand()];
  }

  // ---------------------------------------------------------------------
  // Invariants of every parse

  /** Stages closed by `|` are never changed by the rest of the scan. */
  lemma {:induction false} RunKeepsClosed(s: String, st: Scan)
    ensures |Run(s, st)| > |st.done| && Run(s, st)[..|st.done|] == st.done
    decreases |s|
  {
    if s != [] {
      var x := Step(s, st);
      RunKeepsClosed(s[x.0..], x.1);
      assert Run(s, st) == Turn(s, st) == Run(s[x.0..], x.1);
      assert x.1.done[..|st.done|] == st.done;
    }
  }

  /** `|` is the only character outside escapes and redirections that closes a stage. */
  lemma FeedCountsPipe(c: char, st: Scan)
    requires QuoteState(st.quote)
    ensures QuoteState(Feed(c, st).quote)
    ensures |Feed(c, st).done| == |st.done| + if c == '|' then 1 else 0
  {
  }

  /**
   * Every redirection target in `s` is unquoted: the first character after
   * each `<` or `>` and the blanks that follow it is not a quote.  (After
   * the first `>` of `>>` that character is the second `>`.)
   */
  predicate UnquotedTargets(s: String) {
    forall i :: 0 <= i < |s| && (s[i] == '<' || s[i] == '>') ==>
      !IsQuote(CharAt(s[i + 1..], Blanks(s[i + 1..])))
  }

  /** No backslash escapes a character of `s`. */
  predicate NoEscapes(s: String) {
    forall k :: 0 <= k < |s| ==> s[k] != '\\'
  }

  /** The blanks `Blanks` counts are blanks. */
  lemma {:induction false} BlanksAreBlank(t: String)
    ensures forall j :: 0 <= j < Blanks(t) ==> IsBlank(t[j])
    decreases |t|
  {
    if IsBlank(CharAt(t, 0)) {
      BlanksAreBlank(t[1..]);
      assert forall j :: 1 <= j < Blanks(t) ==> t[j] == t[1..][j - 1];
    }
  }

  /** An unquoted name holds none of the characters that end it. */
  lemma {:induction false} BareLenIsName(t: String)
    ensures forall j :: 0 <= j < BareLen(t) ==> !EndsBareName(t[j])
    decreases |t|
  {
    if !EndsBareName(CharAt(t, 0)) {
      BareLenIsName(t[1..]);
      assert forall j :: 1 <= j < BareLen(t) ==> t[j] == t[1..][j - 1];
    }
  }

  /** A suffix of a line keeps the line's unquoted targets and lack of escapes. */
  lemma SuffixKeepsTargets(s: String, n: nat)
    requires n <= |s| && UnquotedTargets(s) && NoEscapes(s)
    ensures UnquotedTargets(s[n..]) && NoEscapes(s[n..])
  {
    forall j | 0 <= j < |s[n..]| && (s[n..][j] == '<' || s[n..][j] == '>')
      ensures !IsQuote(CharAt(s[n..][j + 1..], Blanks(s[n..][j + 1..])))
    {
      assert s[n..][j + 1..] == s[n + j + 1..];
    }
  }

  /**
   * A redirection to an unquoted target reads no `|`: its operator, the
   * blanks and a bare name, which stops at `|`.
   */
  lemma RedirectReadsNoPipe(s: String, st: Scan)
    requires 0 < |s| && (s[0] == '<' || s[0] == '>') && UnquotedTargets(s)
    ensures forall k :: 0 <= k < Redirect(s, st).0 ==> s[k] != '|'
  {
    var append := s[0] == '>' && CharAt(s, 1) == '>';
    var k := if append then 2 else 1;
    var b := k + Blanks(s[k..]);
    assert !IsQuote(CharAt(s[k..], Blanks(s[k..])));
    CharAtSuffix(s, k, Blanks(s[k..]));
    FileNameBare(s, b);
    BlanksAreBlank(s[k..]);
    BareLenIsName(s[b..]);
    assert Redirect(s, st).0 == b + BareLen(s[b..]);
    forall j | 0 <= j < Redirect(s, st).0
      ensures s[j] != '|'
    {
      if k <= j < b {
        assert s[j] == s[k..][j - k];
      } else if b <= j {
        assert s[j] == s[b..][j - b];
      }
    }
  }

  /** Splits the count of `|` in `s` at `n`. */
  lemma PipesSplit(s: String, n: nat)
    requires n <= |s|
    ensures multiset(s)['|'] == multiset(s[..n])['|'] + multiset(s[n..])['|']
  {
    assert s == s[..n] + s[n..];
  }

  /**
   * Without escapes and with every redirection target unquoted, the scan
   * closes one stage per `|` and ends with one more.
   */
  lemma {:induction false} RunCountsPipes(s: String, st: Scan)
    requires QuoteState(st.quote) && NoEscapes(s) && UnquotedTargets(s)
    ensures |Run(s, st)| == |st.done| + 1 + multiset(s)['|']
    decreases |s|
  {
    if s != [] {
      if s[0] == '<' || s[0] == '>' {
        var x := Redirect(s, st);
        assert Run(s, st) == Turn(s, st) == Run(s[x.0..], x.1);
        RedirectReadsNoPipe(s, st);
        PipesSplit(s, x.0);
        assert '|' !in multiset(s[..x.0]) by {
          assert forall k :: 0 <= k < x.0 ==> s[..x.0][k] != '|';
        }
        SuffixKeepsTargets(s, x.0);
        RunCountsPipes(s[x.0..], x.1);
      } else {
        var st1 := Feed(s[0], st);
        FeedCountsPipe(s[0], st);
        assert s == [s[0]] + s[1..];
        RunChar(s[0], s[1..], st);
        SuffixKeepsTargets(s, 1);
        RunCountsPipes(s[1..], st1);
        PipesSplit(s, 1);
        assert s[..1] == [s[0]];
      }
    }
  }

  /**
   * A line without escapes, whose redirection targets are unquoted, gives
   * one stage per `|` plus one.
   */
  lemma StageCountOfLine(s: String)
    requires NoEscapes(s) && UnquotedTargets(s)
    ensures |Run(s, Init())| == 1 + multiset(s)['|']
  {
    RunCountsPipes(s, Init());
  }

  lemma FlushKeepsArgsNonEmpty(st: Scan)
    requires StageArgsNonEmpty(st.cur)
    ensures StageArgsNonEmpty(Flush(st).cur)
  {
    if |st.token| > 0 {
      assert Flush(st).cur.args == st.cur.args + [st.token];
    }
  }

  lemma RedirectKeepsArgs(s: String, st: Scan)
    requires 0 < |s| && (s[0] == '<' || s[0] == '>')
    ensures Redirect(s, st).1.cur.args == Flush(st).cur.args
  {
  }

  /** One turn of the loop never pushes an empty argument. */
  lemma StepKeepsArgsNonEmpty(s: String, st: Scan)
    requires |s| > 0 && ArgsNonEmpty(st.done) && StageArgsNonEmpty(st.cur)
    ensures ArgsNonEmpty(Step(s, st).1.done) && StageArgsNonEmpty(Step(s, st).1.cur)
  {
    FlushKeepsArgsNonEmpty(st);
    if s[0] == '<' || s[0] == '>' {
      RedirectKeepsArgs(s, st);
    }
    var r := Step(s, st).1;
    if r.done != st.done {
      assert r.done == st.done + [Flush(st).cur];
    }
  }

  lemma {:induction false} RunKeepsArgsNonEmpty(s: String, st: Scan)
    requires ArgsNonEmpty(st.done) && StageArgsNonEmpty(st.cur)
    ensures ArgsNonEmpty(Run(s, st))
    decreases |s|
  {
    if s == [] {
      FlushKeepsArgsNonEmpty(st);
      assert Finish(st) == st.done + [if st.quote == NUL then Flush(st).cur else st.cur];
    } else {
      var x := Step(s, st);
      assert Run(s, st) == Turn(s, st) == Run(s[x.0..], x.1);
      StepKeepsArgsNonEmpty(s, st);
      RunKeepsArgsNonEmpty(s[x.0..], x.1);
    }
  }

  /** `parse_line` never returns an empty argument. */
  lemma ParsedArgsNonEmpty(line: Option<String>)
    ensures Parse(line).Some? ==> ArgsNonEmpty(Parse(line).value)
  {
    if line.Some? {
      RunKeepsArgsNonEmpty(line.value, Init());
    }
  }
}
