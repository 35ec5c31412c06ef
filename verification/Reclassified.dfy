/** When a paragraph that is no code block becomes one by being unfilled. */
module Reclassified {
  import opened Text
  import opened Unfill
  import opened CodeBlocks
  import opened Entries

  predicate AnyLine(s: string, p: string -> bool) {
    exists i | 0 <= i < |SplitLines(s)| :: p(SplitLines(s)[i])
  }

  /** The text behind the first line. */
  function BelowFirst(s: string): string {
    var n := Run(s, InLine);
    if n == |s| then "" else s[n + 1..]
  }

  /** A joined text without its first reference and what follows that on its line. */
  function WithoutReference(j: string): string {
    var k := FindPr(j);
    if k == |j| then j else j[..k] + "\n" + BelowFirst(j[k..])
  }

  lemma FirstLine(s: string, p: string -> bool)
    requires s != ""
    ensures AnyLine(s, p) <==> p(s[..Run(s, InLine)]) || AnyLine(BelowFirst(s), p)
  {
    var n, lines, more := Run(s, InLine), SplitLines(s), SplitLines(BelowFirst(s));
    assert s[..|s|] == s;
    assert lines == [s[..n]] + more;
    assert lines[0] == s[..n];
    if i :| 0 <= i < |lines| && p(lines[i]) {
      assert i > 0 ==> more[i - 1] == lines[i];
    }
    if i :| 0 <= i < |more| && p(more[i]) {
      assert lines[i + 1] == more[i];
    }
  }

  /** A text whose first line is x and the rest y. */
  lemma LineThen(x: string, c: char, y: string, p: string -> bool)
    requires (forall i | 0 <= i < |x| :: InLine(x[i])) && IsLineBreak(c)
    ensures AnyLine(x + [c] + y, p) <==> p(x) || AnyLine(y, p)
  {
    var s := x + [c] + y;
    assert s == x + ([c] + y);
    RunIs(x, [c] + y, InLine);
    assert s[..|x|] == x && s[|x| + 1..] == y;
    FirstLine(s, p);
  }

  lemma OnlyLine(x: string, p: string -> bool)
    requires (forall i | 0 <= i < |x| :: InLine(x[i])) && !p("")
    ensures AnyLine(x, p) <==> p(x)
  {
    if x != "" {
      OneLine(x);
      assert SplitLines(x)[0] == x;
    }
  }

  lemma {:induction false} LinesOfBoth(a: string, c: string, p: string -> bool)
    requires !p("")
    ensures AnyLine(a + "\n" + c, p) <==> AnyLine(a, p) || AnyLine(c, p)
    decreases |a|
  {
    var n := Run(a, InLine);
    if n == |a| {
      OnlyLine(a, p);
      LineThen(a, '\n', c, p);
    } else {
      var x, y := CutLine(a);
      LineThen(x, a[n], y, p);
      LineThen(x, a[n], y + "\n" + c, p);
      LinesOfBoth(y, c, p);
      Nested(x, a[n], y, c);
    }
  }

  lemma Nested(x: string, d: char, y: string, c: string)
    ensures x + [d] + (y + "\n" + c) == x + [d] + y + "\n" + c
  {
  }

  lemma CutLine(a: string) returns (x: string, y: string)
    requires Run(a, InLine) < |a|
    ensures a == x + [a[Run(a, InLine)]] + y && |y| < |a| && forall i | 0 <= i < |x| :: InLine(x[i])
  {
    x, y := a[..Run(a, InLine)], a[Run(a, InLine) + 1..];
  }

  /** The line of the reference does not count. */
  lemma ReferenceLine(b: string, p: string -> bool)
    requires !p((" " + b)[..Run(" " + b, InLine)])
    ensures AnyLine(" " + b, p) <==> AnyLine(BelowFirst(b), p)
  {
    var s := " " + b;
    assert s[1..] == b;
    assert BelowFirst(s) == BelowFirst(b);
    FirstLine(s, p);
  }

  /** It is no fence, no list item and not deeply indented. */
  lemma PlainStart(x: string, b: string)
    requires Pr() <= b && x == (" " + b)[..Run(" " + b, InLine)]
    ensures !Fence(x) && !Marker(x) && !Deep(x)
  {
    var s := " " + b;
    assert s[1] == ' ' && s[2] == '(';
    if |x| > 2 {
      RunIs("  ", x[2..], IsSpace);
      RunIs("  ", x[2..], IsBlank);
      assert x == "  " + x[2..];
      assert x[2..][0] == '(';
    }
  }

  lemma UnfilledLines(j: string, p: string -> bool)
    requires p == Fence || p == Marker || p == Deep
    ensures AnyLine(Insert(j), p) <==> AnyLine(WithoutReference(j), p)
  {
    if FindPr(j) < |j| {
      var a, b := CutAt(j, FindPr(j));
      InsertSplits(j, a, b);
      BrokenLines(a, b, p);
    }
  }

  lemma BrokenLines(a: string, b: string, p: string -> bool)
    requires Pr() <= b && (p == Fence || p == Marker || p == Deep)
    ensures AnyLine(a + "\n " + b, p) <==> AnyLine(a + "\n" + BelowFirst(b), p)
  {
    assert a + "\n " + b == a + "\n" + (" " + b);
    EmptyLine(p);
    LinesOfBoth(a, " " + b, p);
    PlainStart((" " + b)[..Run(" " + b, InLine)], b);
    ReferenceLine(b, p);
    LinesOfBoth(a, BelowFirst(b), p);
  }

  lemma EmptyLine(p: string -> bool)
    requires p == Fence || p == Marker || p == Deep
    ensures !p("")
  {
    assert !Fence("") && !Marker("") && !Deep("");
  }

  // ---------- no fence appears ----------

  /** The first line of s is a fence. */
  predicate FenceHere(s: string) {
    s != "" && ("```" <= s || (IsSpace(s[0]) && InLine(s[0]) && FenceHere(s[1..])))
  }

  /** Some line of s is a fence; the first one counts if the text begins a line. */
  predicate HasFence(s: string, begins: bool) {
    (begins && FenceHere(s)) || (s != "" && HasFence(s[1..], IsLineBreak(s[0])))
  }

  lemma {:induction false} FenceOfLine(s: string)
    ensures Fence(s[..Run(s, InLine)]) <==> FenceHere(s)
  {
    if s != "" && InLine(s[0]) {
      var x, y := s[..Run(s, InLine)], s[1..][..Run(s[1..], InLine)];
      FenceOfLine(s[1..]);
      assert x[1..] == y && x[0] == s[0];
      if IsSpace(s[0]) {
        assert x[1 + Run(y, IsSpace)..] == y[Run(y, IsSpace)..];
      } else {
        assert x[0..] == x;
        FenceInside(s, x);
      }
    }
  }

  lemma FenceInside(s: string, x: string)
    requires x == s[..Run(s, InLine)]
    ensures "```" <= s <==> "```" <= x
  {
    if "```" <= s {
      assert s[0] == '`' && s[1] == '`' && s[2] == '`';
    }
  }

  lemma {:induction false} BelowHas(s: string)
    ensures HasFence(s, false) <==> HasFence(BelowFirst(s), true)
  {
    if s != "" && InLine(s[0]) {
      BelowHas(s[1..]);
      assert BelowFirst(s) == BelowFirst(s[1..]);
    } else if s != "" {
      assert BelowFirst(s) == s[1..];
    }
  }

  lemma {:induction false} FenceLines(s: string)
    ensures AnyLine(s, Fence) <==> HasFence(s, true)
    decreases |s|
  {
    if s != "" {
      FirstLine(s, Fence);
      FenceOfLine(s);
      BelowHas(s);
      FenceLines(BelowFirst(s));
    }
  }

  lemma {:induction false} HereExtends(a: string, b: string)
    requires FenceHere(a)
    ensures FenceHere(a + b)
  {
    if !("```" <= a) {
      HereExtends(a[1..], b);
      assert (a + b)[1..] == a[1..] + b;
    }
  }

  lemma {:induction false} FenceInFront(a: string, b: string, begins: bool)
    requires HasFence(a, begins)
    ensures HasFence(a + b, begins)
  {
    if begins && FenceHere(a) {
      HereExtends(a, b);
    } else {
      FenceInFront(a[1..], b, IsLineBreak(a[0]));
      assert (a + b)[1..] == a[1..] + b;
    }
  }

  lemma {:induction false} FenceBehind(s: string, n: nat, begins: bool)
    requires n <= |s| && HasFence(s[n..], false)
    ensures HasFence(s, begins)
  {
    if n == 0 {
      assert s[0..] == s;
    } else {
      assert s[1..][n - 1..] == s[n..];
      FenceBehind(s[1..], n - 1, IsLineBreak(s[0]));
    }
  }

  /** Blanks before a fence belong to its line. */
  lemma {:induction false} FenceIndented(s: string, n: nat)
    requires n <= Run(s, IsBlank) && HasFence(s[n..], true)
    ensures HasFence(s, true)
  {
    if n == 0 {
      assert s[0..] == s;
    } else {
      assert s[1..][n - 1..] == s[n..];
      FenceIndented(s[1..], n - 1);
    }
  }

  lemma ContinuationFence(s: string)
    requires JoinLen(s) > 0 && HasFence(s[JoinLen(s)..], true)
    ensures HasFence(s, false)
  {
    assert s[1..][JoinLen(s) - 1..] == s[JoinLen(s)..];
    FenceIndented(s[1..], JoinLen(s) - 1);
  }

  lemma TicksStay(s: string)
    requires "```" <= Join(s)
    ensures "```" <= s
  {
    assert Join(s)[0] == '`' && JoinLen(s) == 0 && Join(s)[1..] == Join(s[1..]);
    assert Join(s)[1] == '`' && JoinLen(s[1..]) == 0 && Join(s[1..])[1..] == Join(s[1..][1..]);
    assert Join(s)[2] == '`' && JoinLen(s[1..][1..]) == 0;
    assert s[0] == '`' && s[1] == '`' && s[2] == '`';
  }

  lemma {:induction false} JoinedHere(s: string)
    requires FenceHere(Join(s))
    ensures HasFence(s, true)
    decreases |s|
  {
    if "```" <= Join(s) {
      TicksStay(s);
    } else if JoinLen(s) > 0 {
      assert Join(s)[1..] == Join(s[JoinLen(s)..]);
      JoinedHere(s[JoinLen(s)..]);
      ContinuationFence(s);
    } else {
      assert Join(s)[1..] == Join(s[1..]);
      JoinedHere(s[1..]);
    }
  }

  /** Joining makes no fence. */
  lemma {:induction false} JoinedFence(s: string, begins: bool)
    requires HasFence(Join(s), begins)
    ensures HasFence(s, begins)
    decreases |s|
  {
    if begins && FenceHere(Join(s)) {
      JoinedHere(s);
    } else if JoinLen(s) > 0 {
      assert Join(s)[1..] == Join(s[JoinLen(s)..]);
      JoinedFence(s[JoinLen(s)..], false);
      FenceBehind(s, JoinLen(s), begins);
    } else {
      assert Join(s)[1..] == Join(s[1..]);
      JoinedFence(s[1..], IsLineBreak(s[0]));
    }
  }

  /** Unfilling makes no fence. */
  lemma NoFenceAppears(p: string)
    requires !AnyLine(p, Fence)
    ensures !AnyLine(UnfillEntry(p), Fence)
  {
    var j := Join(p);
    var k := FindPr(j);
    FenceLines(p);
    FenceLines(j);
    if HasFence(j, true) {
      JoinedFence(p, true);
    }
    UnfilledLines(j, Fence);
    if k < |j| {
      var a, b := CutAt(j, k);
      LinesOfBoth(a, BelowFirst(b), Fence);
      FenceLines(a);
      FenceLines(BelowFirst(b));
      if HasFence(a, true) {
        FenceInFront(a, b, true);
      }
      if HasFence(BelowFirst(b), true) {
        BelowHas(b);
        FenceBehind(j, k, true);
      }
    }
  }

  /** A paragraph that is no code block comes out as one exactly if, its continuations joined and its
      first reference left out, some line is deeply indented and none is a list item. */
  predicate BecomesCode(j: string) {
    AnyLine(WithoutReference(j), Deep) && !AnyLine(WithoutReference(j), Marker)
  }

  lemma ComesOutAsCode(p: string)
    requires !IsCode(p)
    ensures IsCode(UnfillEntry(p)) <==> BecomesCode(Join(p))
  {
    NoFenceAppears(p);
    UnfilledLines(Join(p), Marker);
    UnfilledLines(Join(p), Deep);
  }

  /** It happens: a nested list item that is nothing but a reference loses its marker to the line break. */
  lemma ItemBecomesCode()
    ensures var p := "x\n" + ("    -" + " (PR [#1]"); !IsCode(p) && IsCode(UnfillEntry(p))
  {
    ItemIs("    -", " (PR [#1]", "x\n" + ("    -" + " (PR [#1]"));
  }

  lemma ItemIs(a: string, b: string, p: string)
    requires a == "    -" && b == " (PR [#1]" && p == "x\n" + (a + b)
    ensures !IsCode(p) && IsCode(UnfillEntry(p))
  {
    ItemIsNoCode(a, b, p);
    ItemJoins(a, b);
    ItemTurns("x\n" + a, a, b, p);
    ComesOutAsCode(p);
  }

  lemma ItemIsNoCode(a: string, b: string, p: string)
    requires a == "    -" && b == " (PR [#1]" && p == "x\n" + (a + b)
    ensures !IsCode(p)
  {
    ItemStarts(a, b);
    ItemLines(a + b, p);
    Unmarked(p);
  }

  lemma Unmarked(p: string)
    requires !AnyLine(p, Fence) && AnyLine(p, Marker)
    ensures !IsCode(p)
  {
  }

  lemma ItemTurns(front: string, a: string, b: string, p: string)
    requires front == "x\n" + a && a == "    -" && b == " (PR [#1]" && p == "x\n" + (a + b)
    ensures BecomesCode(p)
  {
    assert p == front + b;
    ItemFound(front, b);
    ItemShown(a, b, Deep);
    ItemShown(a, b, Marker);
    assert !Marker("x") && !Marker(a) && Deep(a);
  }

  lemma ItemStarts(a: string, b: string)
    requires a == "    -" && b == " (PR [#1]"
    ensures !Fence("x") && !Fence(a + b) && Marker(a + b)
  {
    assert a + b == "    " + ("-" + b);
    RunIs("    ", "-" + b, IsBlank);
    RunIs("    ", "-" + b, IsSpace);
  }

  lemma ItemLines(line: string, p: string)
    requires p == "x\n" + line && forall i | 0 <= i < |line| :: InLine(line[i])
    ensures AnyLine(p, Fence) <==> Fence("x") || Fence(line)
    ensures AnyLine(p, Marker) <==> Marker("x") || Marker(line)
  {
    assert p == "x" + ['\n'] + line;
    EmptyLine(Fence);
    EmptyLine(Marker);
    LineThen("x", '\n', line, Fence);
    LineThen("x", '\n', line, Marker);
    OnlyLine(line, Fence);
    OnlyLine(line, Marker);
  }

  lemma ItemShown(a: string, b: string, p: string -> bool)
    requires a == "    -" && b == " (PR [#1]" && !p("")
    ensures AnyLine("x\n" + a + "\n" + BelowFirst(b), p) <==> p("x") || p(a)
  {
    RunIs(b, "", InLine);
    assert b + "" == b;
    LineThen("x", '\n', a, p);
    OnlyLine(a, p);
    LinesOfBoth("x\n" + a, "", p);
    assert "x\n" + a == "x" + ['\n'] + a;
  }

  lemma ItemJoins(a: string, b: string)
    requires a == "    -" && b == " (PR [#1]"
    ensures Join("x\n" + (a + b)) == "x\n" + (a + b)
  {
    var s := "\n" + (a + b);
    assert "x\n" + (a + b) == "x" + s && s[1..] == a + b;
    RunIs("    ", "-" + b, IsBlank);
    assert a + b == "    " + ("-" + b);
    JoinKeeps(a + b, "");
    assert a + b + "" == a + b;
    JoinKeeps("x", s);
  }

  lemma ItemFound(a: string, b: string)
    requires a == "x\n    -" && b == " (PR [#1]"
    ensures FindPr(a + b) == |a| && (a + b)[..|a|] == a && (a + b)[|a|..] == b
  {
    var s := a + b;
    FoundPr(s);
    FirstPr(s, |a|);
    var k := FindPr(s);
    assert s[k..k + 6][1] == s[k + 1];
  }
}
