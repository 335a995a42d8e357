/**
 * `parse_line` of shell.c: one left-to-right scan of a command line with a
 * quote state, a pending-token buffer and a current stage `cur` at the end
 * of the list of stages built so far.
 *
 * `Step` is one turn of the C loop and `Run` the whole scan, stated over
 * the unread suffix of the line; `ParseLine` is the loop itself, proved to
 * compute `Parse`.  `CharAt` yields NUL one past the end: the terminator the
 * C loop reads when `i == len`.
 */
module Parser {
  import opened Wrappers
  import opened Command

  const NUL: char := '\0'

  /** A C string never holds a NUL before its terminator. */
  predicate NoNul(s: String) {
    forall k :: 0 <= k < |s| ==> s[k] != NUL
  }

  /** The character at `k`, or the terminator at and past the end of the string. */
  function CharAt(s: String, k: nat): (c: char)
    ensures c != NUL ==> k < |s| && s[k] == c
    ensures k >= |s| ==> c == NUL
  {
    if k < |s| then s[k] else NUL
  }

  /** The characters the main loop treats as separators. */
  predicate IsBlank(c: char) {
    c == ' ' || c == '\t'
  }

  /** `isspace` in the C locale. */
  predicate IsSpace(c: char): (b: bool)
    ensures b <==> c == ' ' || '\t' <= c <= '\r'
  {
    IsBlank(c) || c == '\n' || c == '\U{000B}' || c == '\U{000C}' || c == '\r'
  }

  predicate IsQuote(c: char) {
    c == '"' || c == '\''
  }

  /** The quote state holds NUL (unquoted) or the open quote character. */
  predicate QuoteState(q: char) {
    q == NUL || IsQuote(q)
  }

  /** Characters that end an unquoted redirection target. */
  predicate EndsBareName(c: char): (b: bool)
    ensures b <==> c in {NUL, ' ', '\t', '\n', '\U{000B}', '\U{000C}', '\r', '<', '>', '|', '&'}
  {
    c == NUL || IsSpace(c) || c == '>' || c == '<' || c == '|' || c == '&'
  }

  /**
   * The scanner's state: the stages already closed by `|` (`head` up to
   * the stage before `cur`), the current stage, the pending token and the
   * open quote character.
   */
  datatype Scan = Scan(done: seq<Stage>, cur: Stage, token: String, quote: char)
  {
    /** Every stage from `head` to `cur`. */
    function Stages(): seq<Stage> {
      done + [cur]
    }
  }

  /** The state before the first character: one fresh stage, nothing pending, unquoted. */
  function Init(): (r: Scan)
    ensures r.Stages() == [NewCommand()] && r.token == [] && r.quote == NUL
  {
    Scan([], NewCommand(), [], NUL)
  }

  /** Pushes a non-empty pending token onto the current stage. */
  function Flush(st: Scan): (r: Scan)
    ensures r.done == st.done && r.quote == st.quote && r.token == []
  {
    if |st.token| > 0 then st.(cur := PushArg(st.cur, st.token), token := [])
    else st.(token := [])
  }

  /** Number of leading spaces and tabs. */
  function Blanks(s: String): (n: nat)
    ensures n <= |s|
  {
    if IsBlank(CharAt(s, 0)) then 1 + Blanks(s[1..]) else 0
  }

  /**
   * The body of a quoted file name, `s` starting just after the opening
   * quote `fq`: the name and the number of characters read, stopping before
   * the closing quote or at the end.  A backslash takes the next character
   * literally, unless it is the last character, which is then kept.
   */
  function QuotedName(s: String, fq: char): (r: (String, nat))
    ensures r.1 <= |s|
    decreases |s|
  {
    var c := CharAt(s, 0);
    if c == NUL || c == fq then ([], 0)
    else if c == '\\' && CharAt(s, 1) != NUL then
      var r := QuotedName(s[2..], fq);
      ([s[1]] + r.0, r.1 + 2)
    else
      var r := QuotedName(s[1..], fq);
      ([c] + r.0, r.1 + 1)
  }

  /** Length of an unquoted file name at the head of `s`. */
  function BareLen(s: String): (n: nat)
    ensures n <= |s|
  {
    if EndsBareName(CharAt(s, 0)) then 0 else 1 + BareLen(s[1..])
  }

  /**
   * The redirection target at the head of `s` (after the blanks): the name
   * and the number of characters it takes, a closing quote included.
   */
  function FileName(s: String): (r: (String, nat))
    ensures r.1 <= |s|
  {
    if IsQuote(CharAt(s, 0)) then
      var q := QuotedName(s[1..], s[0]);
      (q.0, 1 + q.1 + if CharAt(s, 1 + q.1) == s[0] then 1 else 0)
    else
      var n := BareLen(s);
      (s[..n], n)
  }

  /**
   * A redirection operator at the head of `s`: the pending token is pushed,
   * `<` sets the current stage's input file, `>` its output file in
   * truncate mode and `>>` in append mode.  Yields the number of characters
   * read and the new state.
   */
  function Redirect(s: String, st: Scan): (r: (nat, Scan))
    requires 0 < |s| && (s[0] == '<' || s[0] == '>')
    ensures 0 < r.0 <= |s|
    ensures r.1.done == st.done && r.1.token == [] && r.1.quote == st.quote
  {
    var st1 := Flush(st);
    var append := s[0] == '>' && CharAt(s, 1) == '>';
    var k := if append then 2 else 1;
    var b := k + Blanks(s[k..]);
    var f := FileName(s[b..]);
    var cur := if s[0] == '<' then st1.cur.(infile := Some(f.0))
               else st1.cur.(outfile := Some(f.0), append := append);
    (b + f.1, st1.(cur := cur))
  }

  /** `|`: push the pending token, close the current stage, open a fresh one. */
  function NewStage(st: Scan): (r: Scan)
    ensures r.done == st.done + [Flush(st).cur] && r.cur == NewCommand()
  {
    var st1 := Flush(st);
    st1.(done := st1.done + [st1.cur], cur := NewCommand())
  }

  /**
   * One turn of the loop of `parse_line` on a character that neither
   * escapes nor redirects: blanks, quotes, `|`, `&` and ordinary characters.
   */
  function Feed(c: char, st: Scan): (r: Scan)
    ensures r.done == st.done || r.done == st.done + [Flush(st).cur]
  {
    if IsBlank(c) && st.quote == NUL then Flush(st)
    else if IsQuote(c) && st.quote == NUL then st.(quote := c)
    else if c == st.quote then st.(quote := NUL)
    else if c == '|' then NewStage(st)
    else if c == '&' then st.(cur := st.cur.(background := true))
    else st.(token := st.token + [c])
  }

  /**
   * One turn of the loop of `parse_line` on a non-empty rest `s` of the
   * line: how many characters it consumes and the state it leaves.  The
   * quote tests come first, so a character equal to the open quote closes
   * it whatever it is.
   */
  function Step(s: String, st: Scan): (r: (nat, Scan))
    requires |s| > 0
    ensures 0 < r.0 <= |s|
    ensures r.1.done == st.done || r.1.done == st.done + [Flush(st).cur]
  {
    var c := s[0];
    if c == '\\' && st.quote != c then
      // the next character is taken literally; a trailing backslash is dropped
      if |s| > 1 then (2, st.(token := st.token + [s[1]])) else (1, st)
    else if (c == '<' || c == '>') && st.quote != c then Redirect(s, st)
    else (1, Feed(c, st))
  }

  /**
   * End of the line.  Unquoted, the terminator flushes the pending token;
   * inside an open quote it is appended to the token, which is then never
   * pushed.
   */
  function Finish(st: Scan): (r: seq<Stage>)
    ensures |r| == |st.done| + 1
  {
    if st.quote == NUL then Flush(st).Stages() else st.Stages()
  }

  /** The stages the scan ends with from state `st` before the suffix `s`. */
  function Run(s: String, st: Scan): (r: seq<Stage>)
    ensures |r| > |st.done|
    decreases |s|, 1
  {
    if s == [] then Finish(st) else Turn(s, st)
  }

  /** One more turn of the loop on a non-empty suffix, then the rest of the scan. */
  function Turn(s: String, st: Scan): (r: seq<Stage>)
    requires |s| > 0
    ensures |r| > |st.done|
    decreases |s|, 0
  {
    var x := Step(s, st);
    Run(s[x.0..], x.1)
  }

  /**
   * `parse_line`: NULL gives no pipeline, and so does a line that leaves a
   * single stage without arguments; otherwise every stage is returned,
   * empty ones included.
   */
  function Parse(line: Option<String>): (r: Option<Pipeline>)
    ensures line.None? ==> r.None?
    ensures r.Some? ==> |r.value| > 1 || (|r.value| == 1 && |r.value[0].args| > 0)
  {
    match line
    case None => None
    case Some(s) =>
      var stages := Run(s, Init());
      if |stages| == 1 && |stages[0].args| == 0 then None else Some(stages)
  }

  // Lemmas that unfold the functions above once at index i of a line;
  // the methods below use them to keep their own proofs small.

  lemma RunAfterStep(s: String, i0: nat, i: nat, st: Scan, st1: Scan)
    requires i0 < |s| && (i - i0, st1) == Step(s[i0..], st)
    ensures i <= |s| && Run(s[i..], st1) == Run(s[i0..], st)
  {
    assert Run(s[i0..], st) == Turn(s[i0..], st);
    assert s[i0..][i - i0..] == s[i..];
  }

  /** `Redirect` at index i0 of a line, with its intermediate positions. */
  lemma RedirectAt(s: String, i0: nat, k: nat, b: nat, i: nat, name: String, st: Scan)
    requires i0 < |s| && (s[i0] == '<' || s[i0] == '>')
    requires k == i0 + if s[i0] == '>' && CharAt(s, i0 + 1) == '>' then 2 else 1
    requires k <= b <= i <= |s| && b == k + Blanks(s[k..]) && FileName(s[b..]) == (name, i - b)
    ensures Redirect(s[i0..], st).0 == i - i0
    ensures Redirect(s[i0..], st).1 == Flush(st).(cur :=
      if s[i0] == '<' then Flush(st).cur.(infile := Some(name))
      else Flush(st).cur.(outfile := Some(name), append := k == i0 + 2))
  {
    var r := s[i0..];
    CharAtSuffix(s, i0, 1);
    assert r[k - i0..] == s[k..];
    assert r[b - i0..] == s[b..];
  }

  lemma QuotedNameEscape(s: String, i: nat, fq: char, f: String)
    requires i + 1 < |s| && s[i] == '\\' && s[i] != fq && s[i + 1] != NUL
    ensures f + QuotedName(s[i..], fq).0 == (f + [s[i + 1]]) + QuotedName(s[i + 2..], fq).0
    ensures QuotedName(s[i..], fq).1 == 2 + QuotedName(s[i + 2..], fq).1
  {
    assert s[i..][2..] == s[i + 2..];
  }

  lemma QuotedNameChar(s: String, i: nat, fq: char, f: String)
    requires i < |s| && s[i] != NUL && s[i] != fq && !(s[i] == '\\' && CharAt(s, i + 1) != NUL)
    ensures f + QuotedName(s[i..], fq).0 == (f + [s[i]]) + QuotedName(s[i + 1..], fq).0
    ensures QuotedName(s[i..], fq).1 == 1 + QuotedName(s[i + 1..], fq).1
  {
    assert s[i..][1..] == s[i + 1..];
    assert CharAt(s[i..], 1) == CharAt(s, i + 1);
  }

  lemma QuotedNameStop(s: String, i: nat, fq: char)
    requires i <= |s| && (CharAt(s, i) == NUL || CharAt(s, i) == fq)
    ensures QuotedName(s[i..], fq) == ([], 0)
  {
    assert CharAt(s[i..], 0) == CharAt(s, i);
  }

  lemma BareLenStep(s: String, i: nat)
    requires i < |s| && !EndsBareName(s[i])
    ensures BareLen(s[i..]) == 1 + BareLen(s[i + 1..])
  {
    assert s[i..][1..] == s[i + 1..];
  }

  lemma BlanksStep(s: String, i: nat)
    requires i < |s| && IsBlank(s[i])
    ensures Blanks(s[i..]) == 1 + Blanks(s[i + 1..])
  {
    assert s[i..][1..] == s[i + 1..];
  }

  lemma FileNameQuoted(s: String, i0: nat)
    requires i0 < |s| && IsQuote(s[i0])
    ensures FileName(s[i0..]).0 == QuotedName(s[i0 + 1..], s[i0]).0
    ensures FileName(s[i0..]).1 == 1 + QuotedName(s[i0 + 1..], s[i0]).1
      + if CharAt(s, i0 + 1 + QuotedName(s[i0 + 1..], s[i0]).1) == s[i0] then 1 else 0
  {
    assert s[i0..][1..] == s[i0 + 1..];
    CharAtSuffix(s, i0, 0);
    CharAtSuffix(s, i0, 1 + QuotedName(s[i0 + 1..], s[i0]).1);
  }

  lemma FileNameBare(s: String, i0: nat)
    requires i0 <= |s| && !IsQuote(CharAt(s, i0))
    ensures FileName(s[i0..]) == (s[i0..][..BareLen(s[i0..])], BareLen(s[i0..]))
  {
    CharAtSuffix(s, i0, 0);
  }

  lemma CharAtSuffix(s: String, i: nat, k: nat)
    requires i <= |s|
    ensures CharAt(s[i..], k) == CharAt(s, i + k)
  {
  }

  /**
   * The loop over the body of a quoted file name, from just after the
   * opening quote `fq` to the closing quote or the end of the line.
   */
  method ReadQuotedBody(s: String, i0: nat, fq: char) returns (fname: String, i: nat)
    requires i0 <= |s|
    ensures i0 <= i <= |s|
    ensures (fname, i - i0) == QuotedName(s[i0..], fq)
  {
    i := i0;
    fname := [];
    ghost var body := QuotedName(s[i..], fq);
    while CharAt(s, i) != NUL && CharAt(s, i) != fq
      invariant i0 <= i <= |s|
      invariant body.0 == fname + QuotedName(s[i..], fq).0
      invariant body.1 == (i - i0) + QuotedName(s[i..], fq).1
      decreases |s| - i
    {
      if s[i] == '\\' && CharAt(s, i + 1) != NUL {
        QuotedNameEscape(s, i, fq, fname);
        i := i + 1;
        fname := fname + [s[i]];
        i := i + 1;
        continue;
      }
      QuotedNameChar(s, i, fq, fname);
      fname := fname + [s[i]];
      i := i + 1;
    }
    QuotedNameStop(s, i, fq);
    assert fname + QuotedName(s[i..], fq).0 == fname;
  }

  /**
   * A quoted file name: `s[i0]` is the opening quote; reads up to and
   * including the matching quote, or to the end of the line.
   */
  method ReadQuotedName(s: String, i0: nat) returns (fname: String, i: nat)
    requires i0 < |s| && IsQuote(s[i0])
    ensures i0 < i <= |s|
    ensures fname == FileName(s[i0..]).0 && i - i0 == FileName(s[i0..]).1
  {
    var fq := s[i0];
    fname, i := ReadQuotedBody(s, i0 + 1, fq);
    FileNameQuoted(s, i0);
    if CharAt(s, i) == fq {
      i := i + 1;
    }
  }

  /** The unquoted-name loop of the redirection branch. */
  method ReadBareName(s: String, i0: nat) returns (fname: String, i: nat)
    requires i0 <= |s| && !IsQuote(CharAt(s, i0))
    ensures i0 <= i <= |s|
    ensures fname == FileName(s[i0..]).0 && i - i0 == FileName(s[i0..]).1
  {
    i := i0;
    fname := [];
    while !EndsBareName(CharAt(s, i))
      invariant i0 <= i <= |s|
      invariant fname == s[i0..i]
      invariant BareLen(s[i0..]) == (i - i0) + BareLen(s[i..])
      decreases |s| - i
    {
      BareLenStep(s, i);
      fname := fname + [s[i]];
      i := i + 1;
    }
    CharAtSuffix(s, i, 0);
    FileNameBare(s, i0);
    assert s[i0..][..i - i0] == s[i0..i];
  }

  /**
   * The redirection branch of `parse_line`: push the pending token, read
   * the operator, skip blanks, read the file name and set it on the
   * current stage.  Returns the new current stage and the index after the
   * name.
   */
  method ReadRedirect(s: String, i0: nat, st: Scan) returns (cur: Stage, i: nat)
    requires i0 < |s| && (s[i0] == '<' || s[i0] == '>')
    ensures i0 < i <= |s|
    ensures Redirect(s[i0..], st) == (i - i0, st.(cur := cur, token := []))
  {
    var c := s[i0];
    i := i0;
    cur := st.cur;
    if |st.token| > 0 {
      cur := PushArg(cur, st.token);
    }
    assert Flush(st) == st.(cur := cur, token := []);
    var append := false;
    if c == '>' && CharAt(s, i + 1) == '>' {
      append := true;
      i := i + 1;
    }
    i := i + 1;
    ghost var k := i;
    i := SkipBlanks(s, i);
    ghost var b := i;
    var fname;
    fname, i := ReadFileName(s, i);
    RedirectAt(s, i0, k, b, i, fname, st);
    if c == '<' {
      cur := cur.(infile := Some(fname));
    } else {
      cur := cur.(outfile := Some(fname), append := append);
    }
  }

  /** The loop skipping the spaces and tabs after a redirection operator. */
  method SkipBlanks(s: String, k: nat) returns (i: nat)
    requires k <= |s|
    ensures i == k + Blanks(s[k..]) && i <= |s|
  {
    i := k;
    while CharAt(s, i) == ' ' || CharAt(s, i) == '\t'
      invariant k <= i <= |s|
      invariant Blanks(s[k..]) == (i - k) + Blanks(s[i..])
      decreases |s| - i
    {
      BlanksStep(s, i);
      i := i + 1;
    }
    CharAtSuffix(s, i, 0);
    assert Blanks(s[i..]) == 0;
  }

  /** A redirection target, quoted or not. */
  method ReadFileName(s: String, b: nat) returns (fname: String, i: nat)
    requires b <= |s|
    ensures b <= i <= |s| && FileName(s[b..]) == (fname, i - b)
  {
    if CharAt(s, b) == '"' || CharAt(s, b) == '\'' {
      fname, i := ReadQuotedName(s, b);
    } else {
      fname, i := ReadBareName(s, b);
    }
  }

  /**
   * One turn of the loop of `parse_line` on a character of the line (not
   * the terminator), with the branches in the source's order.
   */
  method ScanChar(s: String, i0: nat, st: Scan) returns (i: nat, done: seq<Stage>, cur: Stage, token: String, quote: char)
    requires i0 < |s| && QuoteState(st.quote)
    ensures i0 < i <= |s| && QuoteState(quote)
    ensures (i - i0, Scan(done, cur, token, quote)) == Step(s[i0..], st)
  {
    i, done, cur, token, quote := i0, st.done, st.cur, st.token, st.quote;
    var c := s[i];
    assert s[i..][0] == c;
    if (c == ' ' || c == '\t') && quote == NUL {
      if |token| > 0 {
        cur := PushArg(cur, token);
      }
      token := [];
      i := i + 1;
    } else if (c == '"' || c == '\'') && quote == NUL {
      quote := c;
      i := i + 1;
    } else if c == quote {
      quote := NUL;
      i := i + 1;
    } else if c == '\\' {
      i := i + 1;
      if i < |s| {
        token := token + [s[i]];
        i := i + 1;
      }
    } else if c == '|' {
      if |token| > 0 {
        cur := PushArg(cur, token);
      }
      token := [];
      done := done + [cur];
      cur := NewCommand();
      i := i + 1;
    } else if c == '<' || c == '>' {
      cur, i := ReadRedirect(s, i, st);
      token := [];
    } else if c == '&' {
      cur := cur.(background := true);
      i := i + 1;
    } else {
      token := token + [c];
      i := i + 1;
    }
  }

  /**
   * `parse_line`.  The loop reads one character past the end, the C
   * terminator: unquoted it flushes the pending token and stops the scan;
   * inside an open quote it is taken as an ordinary character, which ends
   * the loop with the pending token never pushed.
   */
  method ParseLine(line: Option<String>) returns (r: Option<Pipeline>)
    requires line.Some? ==> NoNul(line.value)
    ensures r == Parse(line)
  {
    if line.None? {
      return None;
    }
    var s := line.value;
    var len := |s|;
    var i := 0;
    var done: seq<Stage> := [];
    var cur := NewCommand();
    var token: String := [];
    var quote := NUL;
    assert s[0..] == s;
    ghost var target := Run(s, Init());
    while i <= len
      invariant i <= len + 1 && QuoteState(quote)
      invariant i <= len ==> Run(s[i..], Scan(done, cur, token, quote)) == target
      invariant i == len + 1 ==> done + [cur] == target
      decreases len + 1 - i
    {
      var c := CharAt(s, i);
      if c == NUL {
        assert s[i..] == [];
        if quote == NUL {
          if |token| > 0 {
            cur := PushArg(cur, token);
          }
          token := [];
          break;
        }
        token := token + [c];
        i := i + 1;
      } else {
        var st := Scan(done, cur, token, quote);
        ghost var i0 := i;
        i, done, cur, token, quote := ScanChar(s, i, st);
        RunAfterStep(s, i0, i, st, Scan(done, cur, token, quote));
      }
    }
    var stages := done + [cur];
    if |stages| == 1 && |stages[0].args| == 0 {
      return None;
    }
    return Some(stages);
  }
}
