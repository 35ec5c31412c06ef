/** When processing a changelog twice gives the same text as processing it once. */
module Idempotence {
  import opened Text
  import opened Paragraphs
  import opened Unfill
  import opened CodeBlocks
  import opened Entries
  import opened Reclassified
  import opened Changelog

  // ---------- unfilling opens no blank line ----------

  lemma {:induction false} InsertCalm(a: string, b: string)
    requires Normal(a + b) && Calm(a + b) && Pr() <= b
    ensures Calm(a + "\n " + b)
  {
    if a == "" {
      assert "" + b == b && "" + "\n " + b == "\n " + b;
      ReferenceCalm(b);
    } else {
      Shift(a, "\n ", b);
      BothBelow(a + b, a[1..] + b);
      NoBlankLine(a, b);
      InsertCalm(a[1..], b);
      CalmAbove(a + "\n " + b, a[1..] + "\n " + b);
    }
  }

  lemma BothBelow(s: string, r: string)
    requires s != "" && s[1..] == r && Normal(s) && Calm(s)
    ensures JoinLen(s) == 0 && SepLen(s) == 0 && Normal(r) && Calm(r)
  {
  }

  lemma CalmAbove(s: string, r: string)
    requires s != "" && s[1..] == r && SepLen(s) == 0 && Calm(r)
    ensures Calm(s)
  {
  }

  lemma ReferenceCalm(b: string)
    requires Calm(b) && Pr() <= b
    ensures Calm("\n " + b)
  {
    var s := "\n " + b;
    assert s[1..] == " " + [b[0]] + b[1..];
    RunIs(" " + [b[0]], b[1..], IsBlank);
    assert s[3..] == b[1..];
    assert s[1..][1..] == b;
  }

  lemma NoBlankLine(a: string, b: string)
    requires a != "" && JoinLen(a + b) == 0 && SepLen(a + b) == 0 && Pr() <= b
    ensures SepLen(a + "\n " + b) == 0
  {
    if a[0] == '\n' {
      var u := a[1..];
      var n := Run(u, IsBlank);
      assert (a + b)[1..] == u + b && (a + "\n " + b)[1..] == u + ("\n " + b);
      if n < |u| {
        RunStops(u, b, IsBlank);
        RunStops(u, "\n " + b, IsBlank);
        NextDecides(a + b, n);
        NextDecides(a + "\n " + b, n);
      } else {
        BlankLineJoins(u, b);
      }
    }
  }

  /** Whether a separator starts at a line break is decided by what follows the blanks behind it. */
  lemma NextDecides(s: string, n: nat)
    requires s != "" && s[0] == '\n' && n == Run(s[1..], IsBlank) && 1 + n < |s|
    ensures SepLen(s) == 0 <==> s[1 + n] != '\n'
  {
    assert s[1 + n..][0] == s[1 + n];
  }

  lemma UnfillCalm(p: string)
    requires Calm(p)
    ensures Calm(UnfillEntry(p))
  {
    var j := Join(p);
    JoinNormal(p);
    if FindPr(j) < |j| {
      var a, b := CutAt(j, FindPr(j));
      InsertSplits(j, a, b);
      InsertCalm(a, b);
    }
  }

  // ---------- ... nor at its end ----------

  lemma RunBeforeBreak(u: string)
    ensures Run(u + "\n", IsBlank) == Run(u, IsBlank)
  {
    var n := Run(u, IsBlank);
    if n < |u| {
      RunStops(u, "\n", IsBlank);
    } else {
      RunIs(u, "\n", IsBlank);
    }
  }

  /** A paragraph may stand before a separator exactly when one more line break opens no blank line. */
  lemma {:induction false} SolidIsCalmBefore(p: string)
    ensures Solid(p) <==> Calm(p + "\n")
  {
    if p == "" {
      assert "" + "\n" == "\n" && "\n"[1..] == "";
    } else {
      var u := p[1..];
      assert (p + "\n")[1..] == u + "\n";
      SolidIsCalmBefore(u);
      RunBeforeBreak(u);
      var n := Run(u, IsBlank);
      assert (p + "\n")[1 + n..][0] == if n < |u| then u[n] else '\n';
    }
  }

  lemma JoinLenBeforeBreak(s: string)
    requires s != ""
    ensures JoinLen(s + "\n") == JoinLen(s)
  {
    RunBeforeBreak(s[1..]);
    assert (s + "\n")[1..] == s[1..] + "\n";
  }

  lemma {:induction false} JoinBeforeBreak(s: string)
    ensures Join(s + "\n") == Join(s) + "\n"
    decreases |s|
  {
    if s == "" {
      assert "" + "\n" == "\n" && "\n"[1..] == "" && ['\n'] + "" == "\n";
    } else {
      JoinLenBeforeBreak(s);
      var n := if JoinLen(s) > 0 then JoinLen(s) else 1;
      var c := if JoinLen(s) > 0 then ' ' else s[0];
      assert (s + "\n")[n..] == s[n..] + "\n";
      JoinBeforeBreak(s[n..]);
      Prepend(c, Join(s[n..]), "\n");
    }
  }

  lemma {:induction false} FindPrBeforeBreak(s: string)
    ensures FindPr(s + "\n") == if FindPr(s) < |s| then FindPr(s) else |s| + 1
  {
    if s == "" {
      assert "" + "\n" == "\n" && "\n"[1..] == "";
    } else {
      assert (s + "\n")[1..] == s[1..] + "\n";
      FindPrBeforeBreak(s[1..]);
      PrBeforeBreak(s);
    }
  }

  lemma PrBeforeBreak(s: string)
    ensures Pr() <= s + "\n" <==> Pr() <= s
  {
    if |s| == 5 {
      assert (s + "\n")[5] == '\n';
    }
  }

  lemma UnfillBeforeBreak(p: string)
    ensures UnfillEntry(p + "\n") == UnfillEntry(p) + "\n"
  {
    JoinBeforeBreak(p);
    var j := Join(p);
    FindPrBeforeBreak(j);
    if FindPr(j) < |j| {
      var a, b := CutAt(j, FindPr(j));
      InsertSplits(j, a, b);
      Associate(a, b, "\n");
      InsertSplits(j + "\n", a, b + "\n");
      Associate(a + "\n ", b, "\n");
    }
  }

  lemma UnfillSolid(p: string)
    requires Solid(p)
    ensures Solid(UnfillEntry(p))
  {
    SolidIsCalmBefore(p);
    UnfillCalm(p + "\n");
    UnfillBeforeBreak(p);
    SolidIsCalmBefore(UnfillEntry(p));
  }

  lemma UnfilledKeeps(p: string)
    ensures Calm(p) ==> Calm(Unfilled(p))
    ensures Solid(p) ==> Solid(Unfilled(p))
  {
    if Calm(p) {
      UnfillCalm(p);
    }
    if Solid(p) {
      UnfillSolid(p);
    }
  }

  // ---------- how the result splits again ----------

  predicate StartsWithBreak(s: string) {
    s != "" && s[0] == '\n'
  }

  /** The list without the first character of its first paragraph. */
  function Trim(parts: Parts): Parts
    requires parts.para != ""
  {
    parts.(para := parts.para[1..])
  }

  /** How the text of parts splits: a line break that starts a paragraph goes to the separator. */
  function Resplit(parts: Parts): (r: Parts)
    ensures r.para == parts.para
  {
    match parts
    case Final(para) => parts
    case More(para, sep, rest) =>
      var r := Resplit(rest);
      if StartsWithBreak(r.para) then More(para, sep + "\n", Trim(r)) else More(para, sep, r)
  }

  lemma FirstOfInsert(j: string)
    requires !StartsWithBreak(j)
    ensures StartsWithBreak(Insert(j)) <==> Pr() <= j
    ensures Pr() <= j ==> Insert(j) == "\n " + j
  {
    if Pr() <= j {
      InsertSplits(j, "", j);
      assert "" + "\n " + j == "\n " + j;
    } else if j != "" {
      InsertAfter(j, 0);
    }
  }

  lemma FirstOfUnfilled(p: string)
    requires !StartsWithBreak(p)
    ensures StartsWithBreak(Unfilled(p)) <==> p != "" && !IsCode(p) && Pr() <= Join(p)
    ensures StartsWithBreak(Unfilled(p)) ==> Unfilled(p) == "\n " + Join(p)
  {
    if p != "" {
      FirstSurvives(p);
      FirstOfInsert(Join(p));
    }
  }

  lemma UnfilledEmpty(p: string)
    ensures Unfilled(p) == "" <==> p == ""
  {
    var j := Join(p);
    assert p != "" ==> j != "";
    if FindPr(j) < |j| {
      var a, b := CutAt(j, FindPr(j));
      InsertSplits(j, a, b);
    }
  }

  lemma SepGrows(sep: string)
    requires IsSep(sep)
    ensures IsSep(sep + "\n")
  {
    var blanks := Run(sep[1..], IsBlank);
    var b, newlines := sep[1..][..blanks], sep[1 + blanks..];
    assert forall i | 0 <= i < |newlines| :: newlines[i] == '\n';
    SepShape(b, newlines + "\n");
    assert sep + "\n" == ['\n'] + b + (newlines + "\n");
  }

  lemma TrimWellFormed(parts: Parts)
    requires WellFormed(parts) && parts.para != ""
    ensures WellFormed(Trim(parts)) && [parts.para[0]] + Whole(Trim(parts)) == Whole(parts)
  {
    var p := parts.para;
    assert [p[0]] + p[1..] == p;
    if parts.More? {
      Prepend(p[0], p[1..] + parts.sep, Whole(parts.rest));
      Prepend(p[0], p[1..], parts.sep);
    }
  }

  /** Splitting the processed text again finds the same paragraphs, unfilled, except that a
      reference at the very start of one moves its new line break into the separator. */
  lemma {:induction false} ResplitIsSplit(parts: Parts)
    requires WellFormed(parts)
    ensures WellFormed(Resplit(UnfillAll(parts))) && Whole(Resplit(UnfillAll(parts))) == Whole(UnfillAll(parts))
  {
    UnfilledKeeps(parts.para);
    if parts.More? {
      var rest := parts.rest;
      ResplitIsSplit(rest);
      var r := Resplit(UnfillAll(rest));
      HeadOfRest(rest);
      if StartsWithBreak(r.para) {
        FirstOfUnfilled(rest.para);
        SepGrows(parts.sep);
        TrimWellFormed(r);
        Regroup(Unfilled(parts.para), parts.sep, "\n", Whole(Trim(r)));
        TrimStart(r, Join(rest.para));
      } else {
        UnfilledEmpty(rest.para);
        WholeStart(r);
      }
    }
  }

  lemma HeadOfRest(rest: Parts)
    requires WellFormed(rest)
    ensures StartsWithBreak(Whole(rest)) <==> StartsWithBreak(rest.para) || (rest.para == "" && rest.More?)
  {
    if rest.More? && rest.para == "" {
      assert Whole(rest)[0] == rest.sep[0];
    }
  }

  lemma WholeStart(r: Parts)
    requires !StartsWithBreak(r.para) && (r.para == "" ==> r.Final?)
    ensures Whole(r) == "" || Whole(r)[0] != '\n'
  {
  }

  lemma TrimStart(r: Parts, j: string)
    requires r.para == "\n " + j
    ensures Whole(Trim(r)) != "" && Whole(Trim(r))[0] == ' '
  {
    assert r.para[1..] == " " + j;
  }

  // ---------- the second run ----------

  /** What a second run makes of a paragraph that came out as q. */
  function Again(q: string, first: bool): string {
    if !first && StartsWithBreak(q) then "\n" + Unfilled(q[1..]) else Unfilled(q)
  }

  function Twice(parts: Parts, first: bool): string {
    match parts
    case Final(para) => Again(Unfilled(para), first)
    case More(para, sep, rest) => Again(Unfilled(para), first) + sep + Twice(rest, false)
  }

  lemma {:induction false} SecondRun(parts: Parts)
    requires WellFormed(parts)
    ensures var r := Resplit(UnfillAll(parts));
            && Whole(UnfillAll(r)) == Twice(parts, true)
            && Twice(parts, false) == if StartsWithBreak(r.para) then "\n" + Whole(UnfillAll(Trim(r))) else Whole(UnfillAll(r))
  {
    if parts.More? {
      var sep, rest := parts.sep, parts.rest;
      SecondRun(rest);
      var r := Resplit(UnfillAll(rest));
      var q := Unfilled(parts.para);
      var t := if StartsWithBreak(r.para) then Whole(UnfillAll(Trim(r))) else Whole(UnfillAll(r));
      Moved(Unfilled(q), sep, t);
      if StartsWithBreak(q) {
        Moved(Unfilled(q[1..]), sep, t);
        Glued(Unfilled(q[1..]), sep, Twice(rest, false));
      }
    }
  }

  lemma Moved(q: string, sep: string, t: string)
    ensures q + (sep + "\n") + t == q + sep + ("\n" + t)
  {
  }

  lemma Glued(q: string, sep: string, t: string)
    ensures "\n" + (q + sep + t) == "\n" + q + sep + t
  {
  }

  lemma ProcessTwice(text: string)
    ensures Process(Process(text)) == Twice(Split(text), true)
  {
    WholeOfSplit(text);
    var r := Resplit(UnfillAll(Split(text)));
    ResplitIsSplit(Split(text));
    SplitOfWhole(r);
    SecondRun(Split(text));
  }

  // ---------- exactly when the second run changes nothing ----------

  /** A paragraph on which a second run is not idle: it does not come out as a code block, and nothing
      precedes its joined reference, after a separator, or only a bare, indented list marker on a later line. */
  predicate Unstable(para: string, first: bool) {
    var j := Join(para);
    var k := FindPr(j);
    && para != "" && !IsCode(para) && !BecomesCode(j)
    && k < |j| && ((k == 0 && !first) || EndsBare(j[..k]))
  }

  predicate AnyUnstable(parts: Parts, first: bool) {
    Unstable(parts.para, first) || (parts.More? && AnyUnstable(parts.rest, false))
  }

  lemma IndentedReference(j: string)
    requires Normal(j) && Pr() <= j
    ensures UnfillEntry(" " + j) == " " + "\n " + j
  {
    var s := " " + j;
    JoinKeeps(" ", j);
    NormalIsFixed(j);
    assert s[1..] == j && s[1] == ' ';
    InsertSplits(s, " ", j);
  }

  /** A reference that leads a paragraph after a separator is indented by its line break, so a
      second run breaks the line again. */
  lemma LeadingReference(p: string)
    requires Calm(p) && !StartsWithBreak(p) && p != "" && !IsCode(p) && Pr() <= Join(p)
    ensures IsCode(UnfillEntry(p)) ==> Again(Unfilled(p), false) == Unfilled(p)
    ensures !IsCode(UnfillEntry(p)) ==> Differ(Unfilled(p), Again(Unfilled(p), false), 2)
  {
    var j := Join(p);
    JoinNormal(p);
    FirstOfUnfilled(p);
    IsCodeAfterBreak(" " + j);
    IndentedReference(j);
    AssociateBreak(j);
    BreaksAgain(UnfillEntry(p), " " + j, j);
  }

  lemma AssociateBreak(j: string)
    ensures "\n " + j == "\n" + (" " + j)
  {
  }

  lemma BreaksAgain(q: string, s: string, j: string)
    requires s == " " + j && q == "\n" + s && j != "" && j[0] == ' ' && UnfillEntry(s) == " " + "\n " + j && IsCode(q) == IsCode(s)
    ensures if IsCode(q) then Again(q, false) == q else Differ(q, Again(q, false), 2)
  {
    assert q[1..] == s;
  }

  lemma OtherReference(p: string, first: bool) returns (x: nat)
    requires Calm(p) && p != "" && !IsCode(p) && (first || !StartsWithBreak(UnfillEntry(p)))
    ensures IsCode(UnfillEntry(p)) ==> Again(Unfilled(p), first) == Unfilled(p)
    ensures !IsCode(UnfillEntry(p)) ==>
              var j := Join(p);
              if FindPr(j) < |j| && EndsBare(j[..FindPr(j)]) then Differ(Unfilled(p), Again(Unfilled(p), first), x)
              else Again(Unfilled(p), first) == Unfilled(p)
  {
    x := 0;
    SecondUnfill(p);
    if FindPr(Join(p)) < |Join(p)| && EndsBare(Join(p)[..FindPr(Join(p))]) {
      x := SecondDeparts(p);
    }
    UnfilledEmpty(p);
  }

  lemma LeadingIsZero(p: string)
    requires p != "" && !StartsWithBreak(p) && !IsCode(p)
    ensures StartsWithBreak(UnfillEntry(p)) <==> FindPr(Join(p)) == 0
    ensures FindPr(Join(p)) == 0 ==> Pr() <= Join(p)
  {
    var j := Join(p);
    FirstOfUnfilled(p);
    FirstSurvives(p);
    FoundPr(j);
  }

  /** One paragraph: the second run is idle exactly on stable ones, and departs inside an unstable one. */
  lemma OnParagraph(p: string, first: bool) returns (x: nat)
    requires Calm(p) && (first || !StartsWithBreak(p))
    ensures if Unstable(p, first) then Differ(Unfilled(p), Again(Unfilled(p), first), x) else Again(Unfilled(p), first) == Unfilled(p)
  {
    x := 2;
    if p != "" && !IsCode(p) {
      ComesOutAsCode(p);
      if first {
        x := OtherReference(p, first);
      } else {
        LeadingIsZero(p);
        if StartsWithBreak(UnfillEntry(p)) {
          LeadingReference(p);
        } else {
          x := OtherReference(p, first);
        }
      }
    }
  }

  lemma DifferStays(q: string, r: string, x: nat, s: string, t: string)
    requires Differ(q, r, x)
    ensures q + s != r + t
  {
    assert (q + s)[x] != (r + t)[x];
  }

  lemma SameHead(q: string, s: string, t: string)
    ensures q + s == q + t <==> s == t
  {
    if q + s == q + t {
      assert (q + s)[|q|..] == s && (q + t)[|q|..] == t;
    }
  }

  lemma {:induction false} TwiceIsOnce(parts: Parts, first: bool)
    requires WellFormed(parts) && (first || !StartsWithBreak(Whole(parts)))
    ensures Twice(parts, first) == Whole(UnfillAll(parts)) <==> !AnyUnstable(parts, first)
  {
    var p := parts.para;
    HeadOfRest(parts);
    if parts.More? {
      SolidIsCalm(p);
    }
    var x := OnParagraph(p, first);
    var q, r := Unfilled(p), Again(Unfilled(p), first);
    if parts.More? {
      var sep, rest := parts.sep, parts.rest;
      TwiceIsOnce(rest, false);
      Associate(q, sep, Whole(UnfillAll(rest)));
      Associate(r, sep, Twice(rest, false));
      if Unstable(p, first) {
        DifferStays(q, r, x, sep + Whole(UnfillAll(rest)), sep + Twice(rest, false));
      } else {
        SameHead(q + sep, Whole(UnfillAll(rest)), Twice(rest, false));
      }
    }
  }

  /** `process` is idempotent on a text exactly when no paragraph of it is unstable. */
  lemma ProcessIdempotent(text: string)
    ensures Process(Process(text)) == Process(text) <==> !AnyUnstable(Split(text), true)
  {
    ProcessTwice(text);
    WholeOfSplit(text);
    TwiceIsOnce(Split(text), true);
  }

  // ---------- what that means for a changelog ----------

  /** The text of a after its last line break. */
  function LastLine(a: string): string {
    if '\n' !in a then a else LastLine(a[1..])
  }

  /** Something other than blanks and a bare list marker. */
  predicate HasEntryText(line: string) {
    var n := Run(line, IsBlank);
    n < |line| && !(n + 1 == |line| && IsBullet(line[n]))
  }

  lemma {:induction false} BareHasBreak(a: string)
    ensures EndsBare(a) ==> '\n' in a
  {
    if a != "" && !BareLine(a) {
      BareHasBreak(a[1..]);
    }
  }

  lemma {:induction false} BareIsLastLine(a: string)
    ensures EndsBare(a) ==> !HasEntryText(LastLine(a))
  {
    BareHasBreak(a);
    if '\n' in a {
      if BareLine(a) {
        var u := a[1..];
        var n := Run(u, IsBlank);
        assert u == u[..n] + [u[n]];
        assert forall i | 0 <= i < |u| :: u[i] != '\n';
      } else {
        BareIsLastLine(a[1..]);
      }
    }
  }

  /** Every paragraph that is no code block has entry text before its first reference, on the
      joined line of the reference. */
  predicate ReferencesFollowText(parts: Parts) {
    var j := Join(parts.para);
    && (IsCode(parts.para) || FindPr(j) == |j| || HasEntryText(LastLine(j[..FindPr(j)])))
    && (parts.More? ==> ReferencesFollowText(parts.rest))
  }

  lemma {:induction false} TextIsStable(parts: Parts, first: bool)
    requires ReferencesFollowText(parts)
    ensures !AnyUnstable(parts, first)
  {
    var j := Join(parts.para);
    BareIsLastLine(j[..FindPr(j)]);
    if parts.More? {
      TextIsStable(parts.rest, false);
    }
  }

  /** Processing is idempotent where references follow entry text. */
  lemma ProcessIdempotentOnEntries(text: string)
    requires ReferencesFollowText(Split(text))
    ensures Process(Process(text)) == Process(text)
  {
    TextIsStable(Split(text), true);
    ProcessIdempotent(text);
  }

  /** A shallow line that starts with a parenthesis is no code block. */
  lemma TextIsNoCode(s: string, n: nat)
    requires n < 4 && n < |s| && s[n] == '(' && (forall i | 0 <= i < n :: s[i] == ' ') && forall i | n <= i < |s| :: InLine(s[i])
    ensures !IsCode(s)
  {
    OneLine(s);
    var a, b := CutAt(s, n);
    RunIs(a, b, IsSpace);
    RunIs(a, b, IsBlank);
    NoFence(b);
    assert "    "[n] == ' ';
  }

  lemma NoFence(b: string)
    requires b != "" && b[0] == '('
    ensures !("```" <= b)
  {
  }

  lemma PrIsText(p: string)
    requires p == Pr()
    ensures !IsCode(p) && !IsCode("\n " + p)
  {
    assert forall i | 0 <= i < 6 :: InLine(p[i]);
    TextIsNoCode(p, 1);
    var s := " " + p;
    assert forall i | 2 <= i < 7 :: s[i] == p[i - 1];
    TextIsNoCode(s, 2);
    IsCodeAfterBreak(s);
    AssociateBreak(p);
  }

  lemma PrUnfilled(p: string)
    requires p == Pr()
    ensures Join(p) == p && UnfillEntry(p) == "\n " + p && FindPr(p) == 0
  {
    JoinKeeps(p, "");
    assert p + "" == p;
    FirstOfInsert(p);
  }

  /** A paragraph that is only a reference is unstable after a separator. */
  lemma LoneReference(p: string)
    requires p == Pr()
    ensures Unstable(p, false)
  {
    PrIsText(p);
    PrUnfilled(p);
    TextStays(p);
  }

  lemma TextStays(p: string)
    requires !IsCode(p) && !IsCode(UnfillEntry(p))
    ensures !BecomesCode(Join(p))
  {
    ComesOutAsCode(p);
  }

  /** So processing is not idempotent on every text. */
  lemma ProcessNotIdempotent()
    ensures Process(Process("a\n\n" + Pr())) != Process("a\n\n" + Pr())
  {
    ReferenceAlone("a\n\n" + Pr(), Pr());
  }

  lemma ReferenceAlone(text: string, p: string)
    requires p == Pr() && text == "a\n\n" + p
    ensures Process(Process(text)) != Process(text)
  {
    SolidA();
    NoBreakIsCalm(p);
    DoubleBreak();
    LoneReference(p);
    InThree(p);
    LastUnstable("a", "\n\n", p, text);
  }

  lemma InThree(p: string)
    ensures "a\n\n" + p == "a" + "\n\n" + p
  {
  }

  /** A text that ends in an unstable paragraph. */
  lemma LastUnstable(front: string, sep: string, last: string, text: string)
    requires Solid(front) && IsSep(sep) && Calm(last) && !StartsWithBreak(last) && text == front + sep + last
    requires Unstable(last, false)
    ensures Process(Process(text)) != Process(text)
  {
    var parts := More(front, sep, Final(last));
    SplitOfWhole(parts);
    assert Whole(parts) == text;
    assert AnyUnstable(parts.rest, false);
    ProcessIdempotent(text);
  }

  lemma SolidA()
    ensures Solid("a")
  {
    assert "a"[1..] == "";
  }

  lemma DoubleBreak()
    ensures IsSep("\n\n")
  {
    assert "\n\n"[1..] == "\n" && "\n"[0..] == "\n" && "\n"[1..] == "";
  }
}
