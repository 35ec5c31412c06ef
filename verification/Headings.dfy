/** What unfilling does to the section headings of a changelog. */
module Headings {
  import opened Text
  import opened Paragraphs
  import opened Unfill
  import opened CodeBlocks
  import opened Entries
  import opened Changelog
  import opened Sections

  /** The number of lines of s that start with a heading mark. */
  function Count(s: string, start: bool): nat {
    (if start && Mark() <= s then 1 else 0) + (if s == "" then 0 else Count(s[1..], s[0] == '\n'))
  }

  /** A heading mark torn over a line break: two number signs, then an indented bracket. */
  predicate Torn(s: string) {
    |s| > 3 && s[0] == '#' && s[1] == '#' && s[2] == '\n'
    && var n := Run(s[3..], IsBlank);
       n > 0 && 3 + n < |s| && s[3 + n] == '['
  }

  function TornCount(s: string, start: bool): nat {
    (if start && Torn(s) then 1 else 0) + (if s == "" then 0 else TornCount(s[1..], s[0] == '\n'))
  }

  /** The torn headings of the paragraphs that are unfilled. */
  function TornHeadings(parts: Parts): nat {
    (if IsCode(parts.para) then 0 else TornCount(parts.para, true)) + (if parts.More? then TornHeadings(parts.rest) else 0)
  }

  // ---------- the join ----------

  lemma FirstIs(u: string, c: char)
    requires c != ' ' && c != '\n'
    ensures (Join(u) != "" && Join(u)[0] == c) <==> (u != "" && u[0] == c)
  {
  }

  lemma MarkParts(s: string)
    ensures Mark() <= s <==> |s| > 3 && s[0] == '#' && s[1] == '#' && s[2] == ' ' && s[3] == '['
  {
  }

  lemma JoinStep(u: string, c: char)
    requires u != "" && u[0] == c != '\n'
    ensures Join(u) == [c] + Join(u[1..])
  {
  }

  lemma MarkOfJoin(p: string)
    ensures Mark() <= Join(p) <==> Mark() <= p || Torn(p)
  {
    MarkParts(p);
    MarkParts(Join(p));
    FirstIs(p, '#');
    if p != "" && p[0] == '#' {
      JoinStep(p, '#');
      var u := p[1..];
      FirstIs(u, '#');
      if u != "" && u[0] == '#' {
        JoinStep(u, '#');
        MarkTail(u[1..]);
        assert u[1..] == p[2..];
        assert |p| > 2 ==> p[2..][1..] == p[3..];
      }
    }
  }

  /** The same, after the two number signs. */
  lemma MarkTail(u: string)
    ensures (|Join(u)| > 1 && Join(u)[0] == ' ' && Join(u)[1] == '[')
            <==> |u| > 1 && ((u[0] == ' ' && u[1] == '[')
                             || (u[0] == '\n' && var n := Run(u[1..], IsBlank); n > 0 && 1 + n < |u| && u[1 + n] == '['))
  {
    if u != "" {
      if u[0] == '\n' {
        var n := Run(u[1..], IsBlank);
        FirstIs(u[1 + n..], '[');
        assert 1 + n < |u| ==> u[1 + n..][0] == u[1 + n] == u[1..][n];
      } else {
        FirstIs(u[1..], '[');
      }
    }
  }

  lemma {:induction false} BlanksPass(u: string, n: nat, start: bool)
    requires 0 < n <= Run(u, IsBlank)
    ensures Count(u, start) == Count(u[n..], false) && TornCount(u, start) == TornCount(u[n..], false)
  {
    if n > 1 {
      BlanksPass(u[1..], n - 1, false);
      assert u[1..][n - 1..] == u[n..];
    }
  }

  lemma {:induction false} JoinCount(p: string, start: bool)
    ensures Count(Join(p), start) == Count(p, start) + TornCount(p, start)
    decreases |p|
  {
    if p == "" {
    } else if JoinLen(p) > 0 {
      var n := JoinLen(p) - 1;
      BlanksPass(p[1..], n, true);
      assert p[1..][n..] == p[n + 1..];
      JoinCount(p[n + 1..], false);
      assert Join(p)[1..] == Join(p[n + 1..]);
    } else {
      JoinCount(p[1..], p[0] == '\n');
      assert Join(p)[1..] == Join(p[1..]);
      MarkOfJoin(p);
    }
  }

  // ---------- the reference ----------

  lemma MarkBefore(a: string, b: string)
    requires Pr() <= b
    ensures Mark() <= a + b <==> Mark() <= a
    ensures Mark() <= a + "\n " + b <==> Mark() <= a
  {
    MarkParts(a + b);
    MarkParts(a + "\n " + b);
    MarkParts(a);
  }

  lemma CountReference(b: string, start: bool)
    requires Pr() <= b
    ensures Count("\n " + b, start) == Count(b, start)
  {
    assert ("\n " + b)[1..] == " " + b && (" " + b)[1..] == b;
    MarkParts(b);
    MarkParts("\n " + b);
    MarkParts(" " + b);
    assert Count(" " + b, true) == Count(b, false) == Count(b, start);
  }

  lemma {:induction false} InsertCount(a: string, b: string, start: bool)
    requires Pr() <= b
    ensures Count(a + "\n " + b, start) == Count(a + b, start)
  {
    if a == "" {
      assert "" + b == b && "" + "\n " + b == "\n " + b;
      CountReference(b, start);
    } else {
      Shift(a, "\n ", b);
      MarkBefore(a, b);
      InsertCount(a[1..], b, a[0] == '\n');
    }
  }

  lemma UnfillCount(p: string, start: bool)
    ensures Count(UnfillEntry(p), start) == Count(p, start) + TornCount(p, start)
  {
    var j := Join(p);
    JoinCount(p, start);
    if FindPr(j) < |j| {
      var a, b := CutAt(j, FindPr(j));
      InsertSplits(j, a, b);
      InsertCount(a, b, start);
    }
  }

  // ---------- the whole text ----------

  lemma {:induction false} CountPara(p: string, u: string, start: bool)
    requires u == "" || u[0] == '\n'
    ensures Count(p + u, start) == Count(p, start) + Count(u, false)
  {
    MarkBeforeBreak(p, u);
    if p == "" {
      assert p + u == u;
    } else {
      assert (p + u)[1..] == p[1..] + u;
      CountPara(p[1..], u, p[0] == '\n');
    }
  }

  lemma MarkBeforeBreak(p: string, u: string)
    requires u == "" || u[0] == '\n'
    ensures Mark() <= p + u <==> Mark() <= p
  {
    MarkParts(p);
    MarkParts(p + u);
  }

  predicate IsWhite(c: char) {
    IsBlank(c) || c == '\n'
  }

  lemma {:induction false} CountWhite(s: string, t: string, start: bool)
    requires s != "" && s[|s| - 1] == '\n' && forall i | 0 <= i < |s| :: IsWhite(s[i])
    ensures Count(s + t, start) == Count(t, true)
  {
    assert (s + t)[1..] == s[1..] + t;
    if |s| == 1 {
      assert s[1..] + t == t;
    } else {
      CountWhite(s[1..], t, s[0] == '\n');
    }
  }

  lemma SepIsWhite(sep: string)
    requires IsSep(sep)
    ensures sep != "" && sep[|sep| - 1] == '\n' && forall i | 0 <= i < |sep| :: IsWhite(sep[i])
  {
    var blanks := Run(sep[1..], IsBlank);
    var newlines := sep[1 + blanks..];
    assert forall i | 0 <= i < |newlines| :: newlines[i] == '\n';
    forall i | 0 <= i < |sep|
      ensures IsWhite(sep[i])
    {
      if i > blanks {
        assert sep[i] == newlines[i - 1 - blanks];
      } else if i > 0 {
        assert sep[i] == sep[1..][i - 1];
      }
    }
    assert sep[|sep| - 1] == newlines[|newlines| - 1];
  }

  function CountParas(parts: Parts): nat {
    Count(parts.para, true) + if parts.More? then CountParas(parts.rest) else 0
  }

  ghost predicate HasSeps(parts: Parts) {
    parts.More? ==> IsSep(parts.sep) && HasSeps(parts.rest)
  }

  lemma {:induction false} CountWhole(parts: Parts)
    requires HasSeps(parts)
    ensures Count(Whole(parts), true) == CountParas(parts)
  {
    if parts.More? {
      var p, sep, t := parts.para, parts.sep, Whole(parts.rest);
      CountWhole(parts.rest);
      Associate(p, sep, t);
      CountPara(p, sep + t, true);
      SepIsWhite(sep);
      CountWhite(sep, t, false);
    }
  }

  lemma {:induction false} WellFormedHasSeps(parts: Parts)
    requires WellFormed(parts)
    ensures HasSeps(parts) && HasSeps(UnfillAll(parts))
  {
    if parts.More? {
      WellFormedHasSeps(parts.rest);
    }
  }

  lemma UnfilledCount(p: string, start: bool)
    ensures Count(Unfilled(p), start) == Count(p, start) + if IsCode(p) then 0 else TornCount(p, start)
  {
    UnfilledIs(p);
    UnfillCount(p, start);
  }

  lemma {:induction false} CountUnfilled(parts: Parts)
    ensures CountParas(UnfillAll(parts)) == CountParas(parts) + TornHeadings(parts)
  {
    UnfilledCount(parts.para, true);
    if parts.More? {
      CountUnfilled(parts.rest);
    }
  }

  /** Unfilling destroys no heading line, and creates one for each torn heading. */
  lemma HeadingsKept(text: string)
    ensures Count(Process(text), true) == Count(text, true) + TornHeadings(Split(text))
  {
    var parts := Split(text);
    WholeOfSplit(text);
    WellFormedHasSeps(parts);
    CountWhole(parts);
    CountWhole(UnfillAll(parts));
    CountUnfilled(parts);
  }
}
