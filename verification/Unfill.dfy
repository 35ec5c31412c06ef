/** Unfilling one paragraph: `unfill_entry` and `is_code_block_paragraph` of
    pipecat/scripts/release-changelog.py. */
module Unfill {
  import opened Text
  import opened Paragraphs

  // ---------- the continuation substitution ----------

  predicate IsBullet(c: char) {
    c == '-' || c == '*' || c == '+'
  }

  /** `[ \t]*[-*+] ` matches at the start of s. */
  predicate Marker(s: string) {
    var n := Run(s, IsBlank);
    n + 1 < |s| && IsBullet(s[n]) && s[n + 1] == ' '
  }

  /** The length of the continuation break `\n(?![ \t]*[-*+] )[ \t]+` at the start of s, or 0. */
  function JoinLen(s: string): (n: nat)
    ensures n <= |s|
  {
    if s == "" || s[0] != '\n' || Marker(s[1..]) then 0
    else
      var n := Run(s[1..], IsBlank);
      if n == 0 then 0 else 1 + n
  }

  /** `CONTINUATION_RE.sub(" ", s)`. */
  function Join(s: string): string
    decreases |s|
  {
    if s == "" then ""
    else
      var n := JoinLen(s);
      if n > 0 then " " + Join(s[n..]) else [s[0]] + Join(s[1..])
  }

  // ---------- the same, line by line ----------

  /** `s.split("\n")`. */
  function Lines(s: string): (lines: seq<string>)
    ensures lines != []
  {
    if s == "" then [""]
    else
      var lines := Lines(s[1..]);
      if s[0] == '\n' then [""] + lines else [[s[0]] + lines[0]] + lines[1..]
  }

  /** An indented line that starts no list item continues the line before it. */
  predicate Continues(line: string) {
    line != "" && IsBlank(line[0]) && !Marker(line)
  }

  function Glue(line: string): string {
    if Continues(line) then " " + line[Run(line, IsBlank)..] else "\n" + line
  }

  function GlueAll(lines: seq<string>): string {
    if lines == [] then "" else Glue(lines[0]) + GlueAll(lines[1..])
  }

  lemma {:induction false} FirstLineMarker(s: string)
    ensures Run(Lines(s)[0], IsBlank) == Run(s, IsBlank)
    ensures Marker(Lines(s)[0]) <==> Marker(s)
  {
    if s != "" && s[0] != '\n' {
      var u, line := s[1..], Lines(s[1..])[0];
      FirstLineMarker(u);
      assert ([s[0]] + line)[1..] == line;
      if !IsBlank(s[0]) && u != "" && u[0] != '\n' {
        assert line[0] == u[0];
      }
    }
  }

  lemma {:induction false} LinesDrop(s: string, n: nat)
    requires n <= Run(s, IsBlank)
    ensures n <= |Lines(s)[0]| && Lines(s[n..]) == [Lines(s)[0][n..]] + Lines(s)[1..]
  {
    if n == 0 {
      assert s[0..] == s;
    } else {
      LinesDrop(s[1..], n - 1);
      assert s[n..] == s[1..][n - 1..];
      var line := Lines(s[1..])[0];
      assert ([s[0]] + line)[n..] == line[n - 1..];
    }
  }

  /** The substitution glues each continuing line to the one before it and touches no other line;
      in particular every list item keeps its line start and its indentation. */
  lemma {:induction false} JoinIsByLines(s: string)
    ensures Join(s) == Lines(s)[0] + GlueAll(Lines(s)[1..])
    decreases |s|
  {
    if s == "" {
    } else if s[0] != '\n' {
      JoinIsByLines(s[1..]);
      Prepend(s[0], Lines(s[1..])[0], GlueAll(Lines(s[1..])[1..]));
    } else {
      var u, n := s[1..], Run(s[1..], IsBlank);
      LinesAfterBreak(s);
      FirstLineMarker(u);
      if JoinLen(s) > 0 {
        JoinIsByLines(u[n..]);
        LinesDrop(u, n);
        assert s[1 + n..] == u[n..];
        Joined(Lines(u)[0], GlueAll(Lines(u)[1..]), n);
      } else {
        JoinIsByLines(u);
        Kept(Lines(u)[0], GlueAll(Lines(u)[1..]));
      }
    }
  }

  lemma LinesAfterBreak(s: string)
    requires s != "" && s[0] == '\n'
    ensures Lines(s)[0] == "" && Lines(s)[1..] == Lines(s[1..])
    ensures "" + GlueAll(Lines(s[1..])) == Glue(Lines(s[1..])[0]) + GlueAll(Lines(s[1..])[1..])
  {
  }

  lemma Prepend(c: char, line: string, more: string)
    ensures [c] + (line + more) == [c] + line + more
  {
  }

  lemma Joined(line: string, more: string, n: nat)
    requires n == Run(line, IsBlank) > 0 && !Marker(line)
    ensures " " + (line[n..] + more) == Glue(line) + more
  {
  }

  lemma Kept(line: string, more: string)
    requires Run(line, IsBlank) == 0 || Marker(line)
    ensures ['\n'] + (line + more) == Glue(line) + more
  {
  }

  // ---------- the normal form ----------

  /** No continuation break is left. */
  ghost predicate Normal(s: string) {
    s == "" || (JoinLen(s) == 0 && Normal(s[1..]))
  }

  lemma {:induction false} NormalIsFixed(s: string)
    ensures Normal(s) <==> Join(s) == s
  {
    if s != "" {
      NormalIsFixed(s[1..]);
      if JoinLen(s) == 0 {
        assert Join(s) == [s[0]] + Join(s[1..]);
        assert Join(s) == s ==> Join(s)[1..] == s[1..];
      } else {
        assert Join(s)[0] == ' ';
      }
    }
  }

  lemma {:induction false} JoinKeeps(a: string, b: string)
    requires '\n' !in a
    ensures Join(a + b) == a + Join(b)
  {
    if a == "" {
      assert a + b == b;
    } else {
      assert (a + b)[1..] == a[1..] + b;
      JoinKeeps(a[1..], b);
      Prepend(a[0], a[1..], Join(b));
      assert [a[0]] + a[1..] == a;
    }
  }

  /** Markers and first characters survive the substitution. */
  lemma MarkerSurvives(u: string)
    requires Marker(u)
    ensures Marker(Join(u)) && Run(Join(u), IsBlank) == Run(u, IsBlank)
  {
    var a, b, c := MarkerCut(u);
    JoinKeeps(a + b, c);
    MarkerIs(a, b, c);
    MarkerIs(a, b, Join(c));
    Associate(a, b, c);
    Associate(a, b, Join(c));
  }

  lemma MarkerCut(u: string) returns (a: string, b: string, c: string)
    requires Marker(u)
    ensures u == a + b + c && '\n' !in a + b
    ensures forall i | 0 <= i < |a| :: IsBlank(a[i])
    ensures |b| == 2 && IsBullet(b[0]) && b[1] == ' '
  {
    var n := Run(u, IsBlank);
    a, b, c := u[..n], u[n..n + 2], u[n + 2..];
    assert forall i | 0 <= i < n :: u[i] == a[i];
  }

  lemma MarkerIs(a: string, b: string, c: string)
    requires forall i | 0 <= i < |a| :: IsBlank(a[i])
    requires |b| == 2 && IsBullet(b[0]) && b[1] == ' '
    ensures Marker(a + (b + c)) && Run(a + (b + c), IsBlank) == |a|
  {
    RunIs(a, b + c, IsBlank);
  }

  lemma FirstSurvives(u: string)
    requires u != "" && u[0] != '\n'
    ensures Join(u) != "" && Join(u)[0] == u[0]
  {
  }

  lemma {:induction false} CalmDrop(p: string, n: nat)
    requires Calm(p) && n <= |p|
    ensures Calm(p[n..])
  {
    if n == 0 {
      assert p[0..] == p;
    } else {
      CalmDrop(p[1..], n - 1);
      assert p[n..] == p[1..][n - 1..];
    }
  }

  lemma BreakKept(u: string)
    requires JoinLen("\n" + u) == 0 && SepLen("\n" + u) == 0
    ensures JoinLen("\n" + Join(u)) == 0 && SepLen("\n" + Join(u)) == 0
  {
    assert ("\n" + u)[1..] == u;
    var v := Join(u);
    assert ("\n" + v)[1..] == v;
    if Marker(u) {
      MarkerSurvives(u);
      var n := Run(v, IsBlank);
      assert ("\n" + v)[1 + n..] == v[n..];
      assert v[n..][0] == v[n];
    } else if u != "" {
      assert ("\n" + u)[1 + 0..][0] == u[0];
      assert u[0] != '\n';
      FirstSurvives(u);
      assert ("\n" + v)[1 + 0..][0] == v[0];
    }
  }

  /** Joining a paragraph leaves nothing to join, and opens no blank line. */
  lemma {:induction false} JoinNormal(p: string)
    requires Calm(p)
    ensures Normal(Join(p)) && Calm(Join(p))
    decreases |p|
  {
    if p == "" {
    } else if JoinLen(p) > 0 {
      CalmDrop(p, JoinLen(p));
      JoinNormal(p[JoinLen(p)..]);
      assert Join(p)[1..] == Join(p[JoinLen(p)..]);
    } else {
      JoinNormal(p[1..]);
      var v := Join(p[1..]);
      assert Join(p)[1..] == v;
      if p[0] == '\n' {
        assert p == "\n" + p[1..] && Join(p) == "\n" + v;
        BreakKept(p[1..]);
      }
    }
  }

  lemma {:induction false} NormalAt(j: string, i: nat)
    requires Normal(j) && Calm(j) && i < |j| && j[i] == '\n'
    ensures i + 1 == |j| || (!IsBlank(j[i + 1]) && j[i + 1] != '\n') || Marker(j[i + 1..])
  {
    if i > 0 {
      NormalAt(j[1..], i - 1);
      assert j[1..][i..] == j[i + 1..];
    } else if |j| > 1 && !Marker(j[1..]) {
      assert j[1 + 0..] == j[1..];
    }
  }

  /** The join is a normal form for paragraphs: it is idempotent, and a line break it leaves ends
      the paragraph or stands before a list item or unindented text. */
  lemma JoinNormalForm(p: string)
    requires Calm(p)
    ensures Join(Join(p)) == Join(p)
    ensures forall i | 0 <= i < |Join(p)| && Join(p)[i] == '\n' ::
              i + 1 == |Join(p)| || (!IsBlank(Join(p)[i + 1]) && Join(p)[i + 1] != '\n') || Marker(Join(p)[i + 1..])
  {
    JoinNormal(p);
    NormalIsFixed(Join(p));
    var j := Join(p);
    forall i | 0 <= i < |j| && j[i] == '\n'
      ensures i + 1 == |j| || (!IsBlank(j[i + 1]) && j[i + 1] != '\n') || Marker(j[i + 1..])
    {
      NormalAt(j, i);
    }
  }

  /** With a blank line inside, the join is not idempotent. */
  lemma JoinNotIdempotent()
    ensures Join("\n\n x") == "\n x" && Join("\n x") == " x"
  {
    var s := "\n\n x";
    assert s[1..] == "\n x" && s[1..][1..] == " x" && " x"[1..] == "x" && "x"[1..] == "";
    assert s[1..][2..] == "x";
  }
}
