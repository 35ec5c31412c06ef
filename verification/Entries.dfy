/** `unfill_entry` of pipecat/scripts/release-changelog.py: join, then give the first pull-request
    reference a line of its own. */
module Entries {
  import opened Text
  import opened Paragraphs
  import opened Unfill

  function Pr(): (r: string)
    ensures |r| == 6 && r[0] == ' ' && r[1] == '(' && r[4] == ' ' && r[5] == '['
    ensures forall i | 0 <= i < 6 :: r[i] != '\n' && r[i] != ']' && r[i] != '#'
    ensures r[2] == 'P' && r[3] == 'R'
  {
    " (PR ["
  }

  /** Where the first reference starts, or |s|. */
  function FindPr(s: string): (k: nat)
    ensures k <= |s| && (k < |s| ==> k + 6 <= |s|)
  {
    if s == "" || Pr() <= s then 0 else 1 + FindPr(s[1..])
  }

  /** `PR_RE.sub("\n  (PR [", s, count=1)`. */
  function Insert(s: string): string {
    var k := FindPr(s);
    if k == |s| then s else s[..k] + "\n  (PR [" + s[k + 6..]
  }

  function UnfillEntry(paragraph: string): string {
    Insert(Join(paragraph))
  }

  lemma {:induction false} FoundPr(s: string)
    ensures var k := FindPr(s); k < |s| ==> s[k..k + 6] == Pr()
  {
    if s != "" {
      if Pr() <= s {
        assert s[..6] == Pr();
      } else {
        FoundPr(s[1..]);
        var k := FindPr(s[1..]);
        if k < |s[1..]| {
          assert s[1..][k..k + 6] == s[1 + k..1 + k + 6];
        }
      }
    }
  }

  lemma {:induction false} FirstPr(s: string, y: nat)
    requires y < |s| && Pr() <= s[y..]
    ensures FindPr(s) <= y
  {
    if y > 0 && !(Pr() <= s) {
      assert s[1..][y - 1..] == s[y..];
      FirstPr(s[1..], y - 1);
    } else {
      assert s[0..] == s;
    }
  }

  /** The substitution inserts a line break and a space before the reference. */
  lemma InsertSplits(s: string, a: string, b: string)
    requires s == a + b && |a| == FindPr(s) < |s|
    ensures Pr() <= b && Insert(s) == a + "\n " + b
  {
    FoundPr(s);
    ReplacedAt(s, a, b);
  }

  lemma ReplacedAt(s: string, a: string, b: string)
    requires s == a + b && |a| + 6 <= |s| && s[|a|..|a| + 6] == Pr()
    ensures Pr() <= b && s[..|a|] + "\n  (PR [" + s[|a| + 6..] == a + "\n " + b
  {
    var rest := b[6..];
    assert b == Pr() + rest;
    assert s[..|a|] == a && s[|a| + 6..] == rest;
    Replacement();
    Regroup(a, "\n ", Pr(), rest);
  }

  lemma CutAt(s: string, k: nat) returns (a: string, b: string)
    requires k <= |s|
    ensures s == a + b && a == s[..k] && b == s[k..]
  {
    a, b := s[..k], s[k..];
  }

  lemma Replacement()
    ensures "\n  (PR [" == "\n " + Pr()
  {
  }

  // ---------- unfilling again ----------

  /** a ends in an indented list marker on a line of its own, bare of its space. */
  predicate EndsBare(a: string) {
    a != "" && (BareLine(a) || EndsBare(a[1..]))
  }

  predicate BareLine(a: string) {
    a != "" && a[0] == '\n'
    && var n := Run(a[1..], IsBlank);
       n > 0 && n + 2 == |a| && IsBullet(a[n + 1])
  }

  lemma BreakStands(a: string, b: string)
    requires a != "" && Pr() <= b && JoinLen(a + b) == 0 && !BareLine(a)
    ensures JoinLen(a + "\n " + b) == 0
  {
    if a[0] == '\n' {
      var u := a[1..];
      assert (a + b)[1..] == u + b;
      assert (a + "\n " + b)[1..] == u + ("\n " + b);
      var n := Run(u, IsBlank);
      if n < |u| {
        RunStops(u, b, IsBlank);
        RunStops(u, "\n " + b, IsBlank);
      } else {
        BlankLineJoins(u, b);
      }
    }
  }

  lemma BlankLineJoins(u: string, b: string)
    requires Pr() <= b && Run(u, IsBlank) == |u|
    ensures Run(u + b, IsBlank) > 0 && !Marker(u + b)
  {
    assert b == [b[0]] + b[1..];
    RunIs(u + [b[0]], b[1..], IsBlank);
    assert u + [b[0]] + b[1..] == u + b;
    assert (u + b)[|u| + 1] == '(';
  }

  lemma ReferenceJoins(b: string)
    requires Pr() <= b && Normal(b)
    ensures Join("\n " + b) == b
  {
    var s := "\n " + b;
    assert s[1..] == " " + [b[0]] + b[1..];
    RunIs(" " + [b[0]], b[1..], IsBlank);
    assert s[3..] == b[1..];
    NormalIsFixed(b[1..]);
    assert " " + b[1..] == b;
  }

  /** A second join takes back exactly the inserted line break. */
  lemma {:induction false} JoinAgain(a: string, b: string)
    requires Normal(a + b) && Pr() <= b && !EndsBare(a)
    ensures Join(a + "\n " + b) == a + b
  {
    if a == "" {
      assert "" + b == b && "" + "\n " + b == "\n " + b;
      ReferenceJoins(b);
    } else {
      BreakStands(a, b);
      Shift(a, "\n ", b);
      JoinAgain(a[1..], b);
    }
  }

  lemma Shift(a: string, m: string, b: string)
    requires a != ""
    ensures (a + b)[1..] == a[1..] + b && (a + m + b)[1..] == a[1..] + m + b
    ensures [a[0]] + (a[1..] + b) == a + b
  {
  }

  /** A bare list marker is no marker any more: its line break is lost in a second join. */
  lemma {:induction false} JoinLoses(a: string, b: string) returns (x: nat)
    requires Normal(a + b) && Pr() <= b && EndsBare(a)
    ensures x < |a| && a[x] == '\n'
    ensures var j := Join(a + "\n " + b);
            x + 1 < |j| && j[..x] == a[..x] && j[x] == ' ' && IsBullet(j[x + 1])
  {
    var q := a + "\n " + b;
    if BareLine(a) {
      x := 0;
      BareJoins(a, b);
    } else {
      BreakStands(a, b);
      Shift(a, "\n ", b);
      x := JoinLoses(a[1..], b);
      Later(a, Join(q[1..]), x);
      x := x + 1;
    }
  }

  lemma Later(a: string, j: string, x: nat)
    requires a != "" && x <= |a[1..]| && x <= |j| && j[..x] == a[1..][..x]
    ensures ([a[0]] + j)[..x + 1] == a[..x + 1]
  {
    assert ([a[0]] + j)[..x + 1] == [a[0]] + j[..x];
    assert a[..x + 1] == [a[0]] + a[1..][..x];
  }

  lemma BareJoins(a: string, b: string)
    requires BareLine(a)
    ensures var j := Join(a + "\n " + b); 1 < |j| && j[0] == ' ' && IsBullet(j[1])
  {
    var q := a + "\n " + b;
    var u := a[1..];
    var n := Run(u, IsBlank);
    assert q[1..] == u + ("\n " + b);
    RunStops(u, "\n " + b, IsBlank);
    assert q[1..][n + 1] == '\n';
    assert q[1 + n..][0] == a[n + 1];
  }

  /** Where a joined text first loses a line break, no reference starts. */
  lemma NoReferenceBefore(j: string, s: string, x: nat)
    requires x + 1 < |j| && x < FindPr(s) && j[..x] == s[..x] && j[x] == ' ' && IsBullet(j[x + 1])
    ensures x < FindPr(j)
  {
    FoundPr(j);
    if FindPr(j) <= x {
      ReferenceEarlier(j, s, x, FindPr(j));
      ReferenceAcross(j, x, FindPr(j));
    }
  }

  lemma ReferenceEarlier(j: string, s: string, x: nat, y: nat)
    requires x <= |j| && x < |s| && j[..x] == s[..x] && y + 6 <= |j| && j[y..y + 6] == Pr()
    ensures y + 6 <= x ==> FindPr(s) <= y
  {
    if y + 6 <= x {
      assert j[..x][y..y + 6] == Pr();
      assert s[y..y + 6] == s[..x][y..y + 6];
      assert s[y..][..6] == s[y..y + 6];
      FirstPr(s, y);
    }
  }

  lemma ReferenceAcross(j: string, x: nat, y: nat)
    requires x + 1 < |j| && y <= x && y + 6 <= |j| && j[y..y + 6] == Pr()
    ensures y + 6 <= x || j[x] != ' ' || !IsBullet(j[x + 1])
  {
    if x < y + 6 {
      assert j[y..y + 6][x - y] == j[x];
      if x + 1 < y + 6 {
        assert j[y..y + 6][x + 1 - y] == j[x + 1];
      }
    }
  }

  lemma Departs(j: string, a: string, b: string) returns (x: nat)
    requires Normal(j) && j == a + b && |a| == FindPr(j) && Pr() <= b && EndsBare(a)
    ensures x < |a| && a[x] == '\n'
    ensures x < |Join(a + "\n " + b)| && Join(a + "\n " + b)[x] == ' '
    ensures x < FindPr(Join(a + "\n " + b))
  {
    x := JoinLoses(a, b);
    var q := Join(a + "\n " + b);
    assert q[..x] == j[..x];
    NoReferenceBefore(q, j, x);
  }

  lemma InsertAfter(s: string, x: nat)
    requires x < |s| && x < FindPr(s)
    ensures x < |Insert(s)| && Insert(s)[x] == s[x]
  {
  }

  predicate Differ(s: string, t: string, x: nat) {
    x < |s| && x < |t| && s[x] != t[x]
  }

  /** Where a second unfilling of p first departs from the first one. */
  lemma SecondDeparts(p: string) returns (x: nat)
    requires Calm(p)
    requires FindPr(Join(p)) < |Join(p)| && EndsBare(Join(p)[..FindPr(Join(p))])
    ensures Differ(UnfillEntry(p), UnfillEntry(UnfillEntry(p)), x)
  {
    var j := Join(p);
    JoinNormal(p);
    var a, b := CutAt(j, FindPr(j));
    InsertSplits(j, a, b);
    x := Departs(j, a, b);
    InsertAfter(Join(a + "\n " + b), x);
  }

  lemma SecondAgrees(p: string)
    requires Calm(p)
    requires FindPr(Join(p)) < |Join(p)| ==> !EndsBare(Join(p)[..FindPr(Join(p))])
    ensures Join(UnfillEntry(p)) == Join(p)
  {
    var j := Join(p);
    JoinNormal(p);
    if FindPr(j) == |j| {
      NormalIsFixed(j);
    } else {
      var a, b := CutAt(j, FindPr(j));
      InsertSplits(j, a, b);
      JoinAgain(a, b);
    }
  }

  /** Unfilling a paragraph again changes nothing unless its first reference follows a bare,
      indented list marker on a later line. */
  lemma SecondUnfill(p: string)
    requires Calm(p)
    ensures UnfillEntry(UnfillEntry(p)) == UnfillEntry(p)
            <==> (FindPr(Join(p)) < |Join(p)| ==> !EndsBare(Join(p)[..FindPr(Join(p))]))
  {
    if FindPr(Join(p)) < |Join(p)| && EndsBare(Join(p)[..FindPr(Join(p))]) {
      var x := SecondDeparts(p);
    } else {
      SecondAgrees(p);
    }
  }
}
