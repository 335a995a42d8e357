/**
 * The in-memory command history: a fixed table of `HISTORY_MAX` entries
 * with a count, where a new line past capacity evicts the oldest by
 * shifting the table down one place, and a numbered listing of it.
 */
module History {
  import opened Wrappers
  import opened Sequences
  import opened Command

  /** `HISTORY_MAX`. */
  const HistoryMax: nat := 500

  // ---------------------------------------------------------------------
  // The history as a sequence of entries, oldest first

  /** `add_history(cmd)` on history `h`: NULL is ignored, a full history drops its oldest line. */
  function Added(h: seq<String>, cmd: Option<String>): (r: seq<String>)
    requires |h| <= HistoryMax
    ensures |r| <= HistoryMax
  {
    match cmd
    case None => h
    case Some(e) => if |h| == HistoryMax then h[1..] + [e] else h + [e]
  }

  /** The last `n` elements of `s`, or all of them when there are fewer. */
  function Latest(s: seq<String>, n: nat): (r: seq<String>)
    ensures |r| == if |s| <= n then |s| else n
  {
    if |s| <= n then s else s[|s| - n..]
  }

  /** The lines a sequence of calls actually adds: those that are not NULL. */
  function Present(cmds: seq<Option<String>>): (r: seq<String>)
    ensures |r| <= |cmds|
  {
    if cmds == [] then []
    else (if cmds[0].Some? then [cmds[0].value] else []) + Present(cmds[1..])
  }

  /** The history after the calls `cmds`, in order. */
  function AddedAll(h: seq<String>, cmds: seq<Option<String>>): (r: seq<String>)
    requires |h| <= HistoryMax
    ensures |r| <= HistoryMax
    decreases |cmds|
  {
    if cmds == [] then h else AddedAll(Added(h, cmds[0]), cmds[1..])
  }

  /** One call keeps the latest `HISTORY_MAX` lines. */
  lemma AddedKeepsLatest(h: seq<String>, cmd: Option<String>)
    requires |h| <= HistoryMax
    ensures Added(h, cmd) == Latest(h + Present([cmd]), HistoryMax)
  {
    assert [cmd][1..] == [];
    if cmd.Some? {
      assert Present([cmd]) == [cmd.value];
    } else {
      assert h + Present([cmd]) == h;
    }
  }

  /** Taking the latest `n` before appending changes nothing about the latest `n` after. */
  lemma LatestOfLatest(s: seq<String>, x: seq<String>, n: nat)
    ensures Latest(Latest(s, n) + x, n) == Latest(s + x, n)
  {
    if |s| > n {
      var a := Latest(s, n) + x;
      var b := s + x;
      forall k | 0 <= k < (if |a| <= n then |a| else n)
        ensures Latest(a, n)[k] == Latest(b, n)[k]
      {
      }
    }
  }

  lemma {:induction false} PresentAppend(a: seq<Option<String>>, b: seq<Option<String>>)
    ensures Present(a + b) == Present(a) + Present(b)
    decreases |a|
  {
    if a == [] {
      assert a + b == b;
    } else {
      var x := if a[0].Some? then [a[0].value] else [];
      assert (a + b)[0] == a[0] && (a + b)[1..] == a[1..] + b;
      assert Present(a + b) == x + Present(a[1..] + b);
      PresentAppend(a[1..], b);
      Associative(x, Present(a[1..]), Present(b));
    }
  }

  /**
   * The history holds the latest `HISTORY_MAX` lines ever added, oldest
   * first, whatever it held before and however many calls were NULL.
   */
  lemma {:induction false} HistoryKeepsLatest(h: seq<String>, cmds: seq<Option<String>>)
    requires |h| <= HistoryMax
    ensures AddedAll(h, cmds) == Latest(h + Present(cmds), HistoryMax)
    decreases |cmds|
  {
    if cmds == [] {
      assert h + Present(cmds) == h;
    } else {
      var c, rest := cmds[0], cmds[1..];
      var h1 := Added(h, c);
      assert AddedAll(h, cmds) == AddedAll(h1, rest);
      HistoryKeepsLatest(h1, rest);
      AddedKeepsLatest(h, c);
      var p, q := Present([c]), Present(rest);
      LatestOfLatest(h + p, q, HistoryMax);
      assert [c] + rest == cmds;
      PresentAppend([c], rest);
      Associative(h, p, q);
    }
  }

  // ---------------------------------------------------------------------
  // The listing `print_history` writes

  function DigitChar(d: nat): (c: char)
    requires d < 10
    ensures '0' <= c <= '9'
  {
    "0123456789"[d]
  }

  /** `n` in decimal, without leading zeros. */
  function Decimal(n: nat): (r: String)
    ensures |r| > 0 && forall k :: 0 <= k < |r| ==> '0' <= r[k] <= '9'
  {
    if n < 10 then [DigitChar(n)] else Decimal(n / 10) + [DigitChar(n % 10)]
  }

  /** The number a string of decimal digits denotes. */
  function DecimalValue(s: String): nat
    requires forall k :: 0 <= k < |s| ==> '0' <= s[k] <= '9'
  {
    if s == [] then 0 else DecimalValue(s[..|s| - 1]) * 10 + (s[|s| - 1] - '0') as int
  }

  /** The decimal text reads back as the number, and has no leading zero. */
  lemma {:induction false} DecimalRoundTrip(n: nat)
    ensures DecimalValue(Decimal(n)) == n
    ensures Decimal(n)[0] != '0' || n == 0
    decreases n
  {
    var s := Decimal(n);
    if n < 10 {
      assert s[..0] == [];
      assert s[0] == "0123456789"[n];
    } else {
      DecimalRoundTrip(n / 10);
      assert s[..|s| - 1] == Decimal(n / 10);
      assert s[|s| - 1] == "0123456789"[n % 10];
    }
  }

  /** Numbers below 10000 take at most four digits. */
  lemma DecimalShort(n: nat)
    requires n < 10000
    ensures |Decimal(n)| <= 4
  {
    if n >= 10 {
      var m1 := n / 10;
      assert |Decimal(n)| == |Decimal(m1)| + 1;
      if m1 >= 10 {
        var m2 := m1 / 10;
        assert |Decimal(m1)| == |Decimal(m2)| + 1;
        if m2 >= 10 {
          var m3 := m2 / 10;
          assert m3 < 10;
          assert |Decimal(m2)| == |Decimal(m3)| + 1;
        }
      }
    }
  }

  function Spaces(k: nat): (r: String)
    ensures |r| == k && forall j :: 0 <= j < k ==> r[j] == ' '
  {
    if k == 0 then [] else [' '] + Spaces(k - 1)
  }

  /** `%4d`: the decimal number right-aligned in at least four columns. */
  function Pad4(n: nat): (r: String)
    ensures |r| >= 4 && |r| >= |Decimal(n)|
    ensures r[|r| - |Decimal(n)|..] == Decimal(n)
    ensures forall j :: 0 <= j < |r| - |Decimal(n)| ==> r[j] == ' '
  {
    var d := Decimal(n);
    (if |d| < 4 then Spaces(4 - |d|) else []) + d
  }

  /** Every history number takes exactly four columns: blanks, then its digits. */
  lemma Pad4Shape(n: nat)
    requires 0 < n <= HistoryMax
    ensures |Pad4(n)| == 4
    ensures Pad4(n) == Spaces(4 - |Decimal(n)|) + Decimal(n)
    ensures DecimalValue(Pad4(n)[4 - |Decimal(n)|..]) == n
  {
    DecimalShort(n);
    DecimalRoundTrip(n);
    assert Pad4(n)[4 - |Decimal(n)|..] == Decimal(n);
  }

  /** One line of the listing: `%4d  %s`, with a newline unless the entry ends in one. */
  function Line(n: nat, e: String): (r: String)
    requires |e| > 0
    ensures |r| >= 6 + |e| && r[|r| - 1] == '\n'
  {
    Pad4(n) + "  " + e + (if e[|e| - 1] != '\n' then "\n" else [])
  }

  /** A line holds its entry after the number and ends in exactly the newline it needs. */
  lemma LineShape(n: nat, e: String)
    requires 0 < n <= HistoryMax && |e| > 0
    ensures Line(n, e)[..4] == Pad4(n)
    ensures Line(n, e)[4..6] == "  "
    ensures Line(n, e)[6..6 + |e|] == e
    ensures Line(n, e)[|Line(n, e)| - 1] == '\n'
    ensures |Line(n, e)| == 6 + |e| + (if e[|e| - 1] == '\n' then 0 else 1)
  {
    Pad4Shape(n);
  }

  /** `print_history` reads the last character of every entry: none may be empty. */
  predicate NonEmptyEntries(h: seq<String>) {
    forall i :: 0 <= i < |h| ==> |h[i]| > 0
  }

  /** The lines for the entries `h`, the first numbered `k`. */
  function Numbered(k: nat, h: seq<String>): (r: seq<String>)
    requires NonEmptyEntries(h)
    ensures |r| == |h| && forall i :: 0 <= i < |h| ==> r[i] == Line(k + i, h[i])
  {
    seq(|h|, i requires 0 <= i < |h| => Line(k + i, h[i]))
  }

  /** The text of several lines written one after the other. */
  function Concat(ls: seq<String>): (r: String)
    ensures ls == [] ==> r == []
  {
    if ls == [] then [] else ls[0] + Concat(ls[1..])
  }

  /** What `print_history` writes for history `h`: one line per entry, from 1. */
  function Render(h: seq<String>): (r: String)
    requires NonEmptyEntries(h)
    ensures r == [] <==> h == []
  {
    Concat(Numbered(1, h))
  }

  /** Writing two runs of lines is writing the first run, then the second. */
  lemma {:induction false} ConcatSplit(a: seq<String>, b: seq<String>)
    ensures Concat(a + b) == Concat(a) + Concat(b)
    decreases |a|
  {
    if a == [] {
      assert a + b == b;
    } else {
      ConcatSplit(a[1..], b);
      assert (a + b)[0] == a[0] && (a + b)[1..] == a[1..] + b;
      Associative(a[0], Concat(a[1..]), Concat(b));
    }
  }

  /**
   * The listing of two runs of entries is the first's followed by the
   * second's, numbered on from where the first stopped.
   */
  lemma RenderSplit(a: seq<String>, b: seq<String>)
    requires NonEmptyEntries(a) && NonEmptyEntries(b)
    ensures NonEmptyEntries(a + b)
    ensures Render(a + b) == Render(a) + Concat(Numbered(1 + |a|, b))
  {
    assert forall i :: 0 <= i < |a + b| ==> (a + b)[i] == if i < |a| then a[i] else b[i - |a|];
    assert Numbered(1, a + b) == Numbered(1, a) + Numbered(1 + |a|, b);
    ConcatSplit(Numbered(1, a), Numbered(1 + |a|, b));
  }

  /** One more entry adds one more line, numbered after the others. */
  lemma RenderAppend(h: seq<String>, e: String)
    requires NonEmptyEntries(h) && |e| > 0
    ensures NonEmptyEntries(h + [e])
    ensures Render(h + [e]) == Render(h) + Line(|h| + 1, e)
  {
    RenderSplit(h, [e]);
    assert Numbered(1 + |h|, [e]) == [Line(|h| + 1, e)];
    assert Concat([Line(|h| + 1, e)]) == Line(|h| + 1, e) + [];
  }

  // ---------------------------------------------------------------------
  // The table itself

  class HistoryTable {
    /** `history[HISTORY_MAX]`: entries `0 .. count - 1` are in use, oldest first. */
    const entries: array<String>
    /** `history_count`. */
    var count: nat

    predicate Valid()
      reads this
    {
      entries.Length == HistoryMax && count <= HistoryMax
    }

    /** The lines held, oldest first. */
    function Contents(): (r: seq<String>)
      reads this, entries
      requires Valid()
      ensures |r| == count
    {
      entries[..count]
    }

    /** The table starts zeroed, with no line held. */
    constructor ()
      ensures Valid() && Contents() == [] && fresh(entries)
    {
      entries := new String[HistoryMax](_ => []);
      count := 0;
    }

    /** `init_history`: forgets every line; the table is left as it is. */
    method Init()
      requires Valid()
      modifies this
      ensures Valid() && Contents() == [] && unchanged(entries)
    {
      count := 0;
    }

    /** `add_history`: stores a copy of a line, evicting the oldest when full. */
    method Add(cmd: Option<String>)
      requires Valid()
      modifies this, entries
      ensures Valid() && Contents() == Added(old(Contents()), cmd)
      ensures cmd.None? ==> count == old(count) && unchanged(entries)
    {
      if cmd.None? {
        return;
      }
      ghost var h := Contents();
      var e := cmd.value;
      if count == HistoryMax {
        EvictOldest();
        count := count - 1;
        assert entries[..count] == h[1..];
      }
      ghost var kept := entries[..count];
      assert kept + [e] == Added(h, cmd);
      entries[count] := e;
      count := count + 1;
      assert entries[..count] == kept + [e];
    }

    /** The `memmove` of `add_history`: every entry moves down one place. */
    method EvictOldest()
      requires Valid()
      modifies entries
      ensures forall k :: 0 <= k < HistoryMax - 1 ==> entries[k] == old(entries[k + 1])
      ensures entries[HistoryMax - 1] == old(entries[HistoryMax - 1])
    {
      var j := 0;
      while j < HistoryMax - 1
        invariant 0 <= j <= HistoryMax - 1
        invariant forall k :: 0 <= k < j ==> entries[k] == old(entries[k + 1])
        invariant forall k :: j <= k < HistoryMax ==> entries[k] == old(entries[k])
      {
        entries[j] := entries[j + 1];
        j := j + 1;
      }
    }

    /** `print_history`: the listing of every line held, numbered from 1. */
    method Print() returns (out: String)
      requires Valid()
      requires NonEmptyEntries(Contents())
      ensures out == Render(Contents())
    {
      out := [];
      var i := 0;
      while i < count
        invariant i <= count
        invariant out == Render(entries[..i])
      {
        var e := entries[i];
        assert e == Contents()[i] && |e| > 0;
        assert entries[..i] == Contents()[..i];
        assert entries[..i + 1] == entries[..i] + [e];
        RenderAppend(entries[..i], e);
        out := out + Line(i + 1, e);
        i := i + 1;
      }
      assert entries[..count] == Contents();
    }
  }
}
