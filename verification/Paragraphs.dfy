/** The paragraph split of pipecat/scripts/release-changelog.py: `re.split` on (\n[ \t]*\n+). */
module Paragraphs {
  import opened Text

  predicate IsNewline(c: char) {
    c == '\n'
  }

  /** The length of the separator at the start of s, or 0. */
  function SepLen(s: string): (n: nat)
    ensures n <= |s|
  {
    if s == "" || s[0] != '\n' then 0
    else
      var blanks := Run(s[1..], IsBlank);
      var breaks := Run(s[1 + blanks..], IsNewline);
      if breaks == 0 then 0 else 1 + blanks + breaks
  }

  /** Where the leftmost separator starts, or |s|. */
  function FindSep(s: string): (k: nat)
    ensures k <= |s|
  {
    if s == "" || SepLen(s) > 0 then 0 else 1 + FindSep(s[1..])
  }

  lemma {:induction false} FoundSep(s: string)
    ensures FindSep(s) < |s| ==> SepLen(s[FindSep(s)..]) > 0
  {
    if s != "" && SepLen(s) == 0 {
      FoundSep(s[1..]);
      assert s[1..][FindSep(s[1..])..] == s[FindSep(s)..];
    } else {
      assert s[0..] == s;
    }
  }

  /** The list that `re.split` returns: paragraphs alternating with the separators it keeps. */
  datatype Parts = Final(para: string) | More(para: string, sep: string, rest: Parts)

  function Split(s: string): Parts
    decreases |s|
  {
    var k := FindSep(s);
    FoundSep(s);
    if k == |s| then Final(s)
    else
      var n := SepLen(s[k..]);
      More(s[..k], s[k..k + n], Split(s[k + n..]))
  }

  /** `"".join(parts)`. */
  function Whole(parts: Parts): string {
    match parts
    case Final(para) => para
    case More(para, sep, rest) => para + sep + Whole(rest)
  }

  // ---------- what a split can be ----------

  /** s starts with a line break that only blanks part from another one, or from the end. */
  predicate Dangles(s: string) {
    s != "" && s[0] == '\n'
    && var n := Run(s[1..], IsBlank);
       1 + n == |s| || s[1 + n] == '\n'
  }

  /** No blank line inside, and the last line is not blank: a paragraph that a separator follows. */
  ghost predicate Solid(p: string) {
    p == "" || (!Dangles(p) && Solid(p[1..]))
  }

  /** No blank line inside: any paragraph. */
  ghost predicate Calm(p: string) {
    p == "" || (SepLen(p) == 0 && Calm(p[1..]))
  }

  predicate IsSep(sep: string) {
    SepLen(sep) == |sep| > 0
  }

  ghost predicate WellFormed(parts: Parts) {
    match parts
    case Final(para) => Calm(para)
    case More(para, sep, rest) =>
      && Solid(para) && IsSep(sep) && WellFormed(rest)
      && (Whole(rest) == "" || Whole(rest)[0] != '\n')
  }

  // ---------- the split and the join are inverse ----------

  lemma {:induction false} RunStops(s: string, t: string, p: char -> bool)
    requires Run(s, p) < |s|
    ensures Run(s + t, p) == Run(s, p)
  {
    if p(s[0]) {
      assert (s + t)[1..] == s[1..] + t;
      RunStops(s[1..], t, p);
    }
  }

  lemma SolidLetsPass(p: string, t: string)
    requires p != "" && !Dangles(p)
    ensures SepLen(p + t) == 0
  {
    if p[0] == '\n' {
      assert (p + t)[1..] == p[1..] + t;
      var n := Run(p[1..], IsBlank);
      RunStops(p[1..], t, IsBlank);
      assert (p + t)[1 + n..][0] == p[1 + n];
    }
  }

  lemma {:induction false} SolidIsCalm(p: string)
    requires Solid(p)
    ensures Calm(p)
  {
    if p != "" {
      SolidLetsPass(p, "");
      assert p + "" == p;
      SolidIsCalm(p[1..]);
    }
  }

  lemma SepStands(sep: string, t: string)
    requires IsSep(sep) && (t == "" || t[0] != '\n')
    ensures SepLen(sep + t) == |sep|
  {
    var blanks := Run(sep[1..], IsBlank);
    assert (sep + t)[1..] == sep[1..] + t;
    RunStops(sep[1..], t, IsBlank);
    var newlines := sep[1 + blanks..];
    assert (sep + t)[1 + blanks..] == newlines + t;
    assert Run(newlines, IsNewline) == |newlines|;
    RunIs(newlines, t, IsNewline);
  }

  lemma {:induction false} FindsSep(p: string, sep: string, t: string)
    requires Solid(p) && IsSep(sep) && (t == "" || t[0] != '\n')
    ensures FindSep(p + (sep + t)) == |p|
  {
    if p == "" {
      SepStands(sep, t);
      assert p + (sep + t) == sep + t;
    } else {
      SolidLetsPass(p, sep + t);
      assert (p + (sep + t))[1..] == p[1..] + (sep + t);
      FindsSep(p[1..], sep, t);
    }
  }

  lemma {:induction false} CalmHasNone(p: string)
    ensures Calm(p) <==> FindSep(p) == |p|
  {
    if p != "" {
      CalmHasNone(p[1..]);
    }
  }

  /** A split can be recovered from its text. */
  lemma {:induction false} SplitOfWhole(parts: Parts)
    requires WellFormed(parts)
    ensures Split(Whole(parts)) == parts
  {
    match parts
    case Final(para) =>
      CalmHasNone(para);
    case More(para, sep, rest) =>
      SplitOfWhole(rest);
      FindsSep(para, sep, Whole(rest));
      SepStands(sep, Whole(rest));
      SplitOnce(para, sep, Whole(rest));
  }

  lemma SplitOnce(para: string, sep: string, t: string)
    requires FindSep(para + (sep + t)) == |para| && SepLen(sep + t) == |sep| > 0
    ensures Split(para + sep + t) == More(para, sep, Split(t))
  {
    var s := para + sep + t;
    assert s == para + (sep + t);
    assert s[..|para|] == para && s[|para|..] == sep + t;
    assert s[|para|..|para| + |sep|] == sep && s[|para| + |sep|..] == t;
  }

  /** What blanks lead to, seen from inside a longer text. */
  lemma DanglingMeetsBreak(p: string, t: string)
    requires Dangles(p) && t != "" && t[0] == '\n'
    ensures SepLen(p + t) > 0
  {
    var n := Run(p[1..], IsBlank);
    assert (p + t)[1..] == p[1..] + t;
    if 1 + n == |p| {
      RunIs(p[1..], t, IsBlank);
    } else {
      RunStops(p[1..], t, IsBlank);
    }
    assert (p + t)[1 + n..][0] == '\n';
  }

  lemma {:induction false} BeforeSepIsSolid(p: string, t: string)
    requires FindSep(p + t) == |p| && t != "" && t[0] == '\n'
    ensures Solid(p)
  {
    if p != "" {
      if Dangles(p) {
        DanglingMeetsBreak(p, t);
      }
      assert (p + t)[1..] == p[1..] + t;
      BeforeSepIsSolid(p[1..], t);
    }
  }

  lemma SepAlone(s: string, n: nat)
    requires n == SepLen(s) > 0
    ensures IsSep(s[..n])
    ensures s[n..] == "" || s[n..][0] != '\n'
  {
    var blanks := Run(s[1..], IsBlank);
    var b, newlines := s[1..][..blanks], s[1 + blanks..];
    var breaks := Run(newlines, IsNewline);
    SepShape(b, newlines[..breaks]);
    assert s[..n] == ['\n'] + b + newlines[..breaks];
    assert s[n..] == newlines[breaks..];
  }

  lemma SepShape(b: string, newlines: string)
    requires forall i | 0 <= i < |b| :: IsBlank(b[i])
    requires newlines != "" && forall i | 0 <= i < |newlines| :: newlines[i] == '\n'
    ensures IsSep(['\n'] + b + newlines)
  {
    var sep := ['\n'] + b + newlines;
    assert sep[1..] == b + newlines;
    RunIs(b, newlines, IsBlank);
    assert sep[1 + |b|..] == newlines + "";
    RunIs(newlines, "", IsNewline);
  }

  /** Splitting then joining is the identity, and every split has the shape that determines it. */
  lemma {:induction false} WholeOfSplit(s: string)
    ensures WellFormed(Split(s)) && Whole(Split(s)) == s
    decreases |s|
  {
    CalmHasNone(s);
    if FindSep(s) < |s| {
      var p, u := CutBefore(s);
      var sep, t := CutAfter(u);
      BeforeSepIsSolid(p, u);
      WholeOfSplit(t);
      SplitOnce(p, sep, t);
      Associate(p, sep, t);
    }
  }

  lemma CutBefore(s: string) returns (p: string, u: string)
    requires FindSep(s) < |s|
    ensures s == p + u && FindSep(p + u) == |p| && SepLen(u) > 0
  {
    FoundSep(s);
    p, u := s[..FindSep(s)], s[FindSep(s)..];
    assert p + u == s;
  }

  lemma CutAfter(u: string) returns (sep: string, t: string)
    requires SepLen(u) > 0
    ensures u == sep + t && SepLen(u) == |sep| && IsSep(sep) && (t == "" || t[0] != '\n')
  {
    SepAlone(u, SepLen(u));
    sep, t := u[..SepLen(u)], u[SepLen(u)..];
  }

  /** Exactly the well-formed lists are splits: nothing about a paragraph depends on its context. */
  lemma SplitExact(parts: Parts)
    ensures WellFormed(parts) <==> Split(Whole(parts)) == parts
  {
    if WellFormed(parts) {
      SplitOfWhole(parts);
    }
    WholeOfSplit(Whole(parts));
  }

  lemma {:induction false} NoBreakIsCalm(s: string)
    requires '\n' !in s
    ensures Calm(s)
  {
    if s != "" {
      NoBreakIsCalm(s[1..]);
    }
  }
}
