/** The classification of a paragraph, the split and the substitutions of
    pipecat/scripts/release-changelog.py, spelled out in literal characters. */
module InCharacters {
  import opened Text
  import opened Characters
  import opened Paragraphs
  import opened Unfill
  import opened CodeBlocks
  import opened Entries
  import opened Reclassified

  /** The line boundaries of `str.splitlines`. */
  const BREAKS := "\n\U{0b}\U{0c}\r\U{1c}\U{1d}\U{1e}\U{85}\U{2028}\U{2029}"

  lemma BreaksAre(c: char)
    ensures c in BREAKS <==> IsLineBreak(c)
  {
    var n := c as int;
    if 0x0a <= n <= 0x0d {
      assert BREAKS[n - 0x0a] == c;
    } else if 0x1c <= n <= 0x1e {
      assert BREAKS[n - 0x1c + 4] == c;
    } else if n == 0x85 {
      assert BREAKS[7] == c;
    } else if 0x2028 <= n <= 0x2029 {
      assert BREAKS[n - 0x2028 + 8] == c;
    }
  }

  /** A line of s begins at i. */
  predicate Begins(s: string, i: nat)
    requires i <= |s|
  {
    i == 0 || s[i - 1] in BREAKS
  }

  /** The line that begins at i opens with white space up to j and then three backquotes. */
  predicate FenceAt(s: string, i: nat, j: nat) {
    && i <= j && j + 3 <= |s| && Begins(s, i)
    && (forall k | i <= k < j :: s[k] in SPACES && s[k] !in BREAKS)
    && s[j] == '`' && s[j + 1] == '`' && s[j + 2] == '`'
  }

  /** The line that begins at i is a list item: spaces and tabs up to j, a bullet and a space. */
  predicate ItemAt(s: string, i: nat, j: nat) {
    && i <= j && j + 1 < |s| && Begins(s, i)
    && (forall k | i <= k < j :: s[k] in " \t")
    && s[j] in "-*+" && s[j + 1] == ' '
  }

  /** The line that begins at i is indented by four spaces. */
  predicate DeepAt(s: string, i: nat) {
    i + 4 <= |s| && Begins(s, i) && s[i] == ' ' && s[i + 1] == ' ' && s[i + 2] == ' ' && s[i + 3] == ' '
  }

  ghost predicate HasItem(s: string) {
    exists i: nat, j: nat :: ItemAt(s, i, j)
  }

  ghost predicate HasDeep(s: string) {
    exists i: nat :: DeepAt(s, i)
  }

  ghost predicate HasFenceLine(s: string) {
    exists i: nat, j: nat :: FenceAt(s, i, j)
  }

  /** A code block: some line is a fence, or no line is a list item and some line is deeply indented. */
  ghost predicate CodeText(s: string) {
    HasFenceLine(s) || (!HasItem(s) && HasDeep(s))
  }

  // ---------- lines by position ----------

  /** The line that begins at i. */
  function LineAt(s: string, i: nat): string
    requires i <= |s|
  {
    s[i..][..Run(s[i..], InLine)]
  }

  lemma LineOnly(s: string, i: nat, k: nat)
    requires i <= |s|
    ensures |LineAt(s, i)| <= |s| - i && (k < |LineAt(s, i)| ==> LineAt(s, i)[k] == s[i + k] && InLine(s[i + k]))
    ensures i + |LineAt(s, i)| < |s| ==> !InLine(s[i + |LineAt(s, i)|])
  {
  }

  /** A stretch of characters that are no boundaries belongs to one line. */
  lemma LineReaches(s: string, i: nat, j: nat)
    requires i <= j <= |s| && forall k | i <= k < j :: InLine(s[k])
    ensures j - i <= |LineAt(s, i)|
  {
    LineOnly(s, i, 0);
  }

  predicate LineHas(s: string, p: string -> bool, i: nat)
    requires i <= |s|
  {
    Begins(s, i) && p(LineAt(s, i))
  }

  /** The first line of s, and what is left of s below it. */
  lemma FirstAndBelow(s: string, p: string -> bool) returns (n: nat, t: string)
    requires s != "" && !p("")
    ensures n == Run(s, InLine) && n <= |s| && |t| < |s|
    ensures AnyLine(s, p) <==> LineHas(s, p, 0) || AnyLine(t, p)
    ensures if n < |s| then t == s[n + 1..] && s[n] in BREAKS else t == "" && !AnyLine(t, p)
  {
    n, t := Run(s, InLine), BelowFirst(s);
    assert s[0..] == s;
    FirstLine(s, p);
    if n < |s| {
      BreaksAre(s[n]);
    } else {
      assert SplitLines("") == [];
    }
  }

  lemma Dropped(s: string, p: string -> bool, n: nat, i: nat)
    requires 0 < n && n + i <= |s| && s[n - 1] in BREAKS
    ensures LineHas(s[n..], p, i) == LineHas(s, p, n + i)
  {
    assert s[n..][i..] == s[n + i..];
    assert i > 0 ==> s[n..][i - 1] == s[n + i - 1];
  }

  lemma NotEmpty(s: string, p: string -> bool)
    requires AnyLine(s, p)
    ensures s != ""
  {
  }

  lemma {:induction false} LineFound(s: string, p: string -> bool) returns (i: nat)
    requires !p("") && AnyLine(s, p)
    ensures i <= |s| && LineHas(s, p, i)
    decreases |s|
  {
    i := 0;
    if !LineHas(s, p, 0) {
      var n, t := NotTheFirst(s, p);
      var k := LineFound(t, p);
      i := n + k;
    }
  }

  lemma NotTheFirst(s: string, p: string -> bool) returns (n: nat, t: string)
    requires !p("") && AnyLine(s, p) && !LineHas(s, p, 0)
    ensures 0 < n <= |s| && t == s[n..] && |t| < |s| && AnyLine(t, p)
    ensures forall k: nat | n + k <= |s| :: LineHas(t, p, k) == LineHas(s, p, n + k)
  {
    NotEmpty(s, p);
    var m, below := FirstAndBelow(s, p);
    n, t := m + 1, below;
    forall k: nat | n + k <= |s|
      ensures LineHas(t, p, k) == LineHas(s, p, n + k)
    {
      Dropped(s, p, n, k);
    }
  }

  lemma InsideLine(s: string, i: nat)
    requires 0 < i <= Run(s, InLine)
    ensures !Begins(s, i)
  {
    BreaksAre(s[i - 1]);
  }

  lemma {:induction false} LineCounts(s: string, p: string -> bool, i: nat)
    requires !p("") && i <= |s| && LineHas(s, p, i)
    ensures AnyLine(s, p)
    decreases |s|
  {
    LineOnly(s, i, 0);
    var n, t := FirstAndBelow(s, p);
    if i > 0 {
      if i <= n {
        InsideLine(s, i);
      } else {
        Dropped(s, p, n + 1, i - n - 1);
        LineCounts(t, p, i - n - 1);
      }
    }
  }

  // ---------- the three tests ----------

  lemma SpacesInLine(s: string, i: nat, j: nat)
    requires i <= j <= |s| && forall k | i <= k < j :: s[k] in SPACES && s[k] !in BREAKS
    ensures forall k | i <= k < j :: IsSpace(s[k]) && InLine(s[k])
  {
    forall k | i <= k < j
      ensures IsSpace(s[k]) && InLine(s[k])
    {
      SpacesAre(s[k]);
      BreaksAre(s[k]);
    }
  }

  lemma SpacesOf(s: string, i: nat, j: nat)
    requires i <= j <= |s| && forall k | i <= k < j :: IsSpace(s[k]) && InLine(s[k])
    ensures forall k | i <= k < j :: s[k] in SPACES && s[k] !in BREAKS
  {
    forall k | i <= k < j
      ensures s[k] in SPACES && s[k] !in BREAKS
    {
      SpacesAre(s[k]);
      BreaksAre(s[k]);
    }
  }

  lemma BlanksOf(s: string, i: nat, j: nat)
    requires i <= j <= |s|
    ensures (forall k | i <= k < j :: s[k] in " \t") <==> forall k | i <= k < j :: IsBlank(s[k])
  {
    forall k | i <= k < j
      ensures s[k] in " \t" <==> IsBlank(s[k])
    {
      BlanksAre(s[k]);
    }
  }

  /** The line at i as a piece of s. */
  lemma LineIsPiece(s: string, i: nat) returns (n: nat)
    requires i <= |s|
    ensures n == |LineAt(s, i)| && i + n <= |s| && LineAt(s, i) == s[i..i + n] && forall k | i <= k < i + n :: InLine(s[k])
  {
    n := |LineAt(s, i)|;
    forall k | i <= k < i + n
      ensures InLine(s[k])
    {
      LineOnly(s, i, k - i);
    }
    assert s[i..][..n] == s[i..i + n];
  }

  lemma RunInPiece(s: string, i: nat, n: nat, j: nat, p: char -> bool)
    requires i <= j <= i + n <= |s| && (forall k | i <= k < j :: p(s[k])) && (j < i + n ==> !p(s[j]))
    ensures Run(s[i..i + n], p) == j - i && s[i..i + n][j - i..] == s[j..i + n]
  {
    assert s[i..i + n] == s[i..j] + s[j..i + n];
    RunIs(s[i..j], s[j..i + n], p);
  }

  lemma FenceFound(s: string, i: nat) returns (j: nat)
    requires i <= |s| && Begins(s, i) && Fence(LineAt(s, i))
    ensures FenceAt(s, i, j)
  {
    var n := LineIsPiece(s, i);
    var x := s[i..i + n];
    var r := Run(x, IsSpace);
    j := i + r;
    assert forall k | i <= k < j :: s[k] == x[k - i];
    SpacesOf(s, i, j);
    TicksAt(x, r);
  }

  lemma TicksAt(x: string, r: nat)
    requires r <= |x|
    ensures "```" <= x[r..] <==> r + 3 <= |x| && x[r] == '`' && x[r + 1] == '`' && x[r + 2] == '`'
  {
    if "```" <= x[r..] {
      assert x[r..][0] == '`' && x[r..][1] == '`' && x[r..][2] == '`';
    }
    if r + 3 <= |x| && x[r] == '`' && x[r + 1] == '`' && x[r + 2] == '`' {
      assert x[r..][..3] == "```";
    }
  }

  lemma FenceCounts(s: string, i: nat, j: nat)
    requires FenceAt(s, i, j)
    ensures Fence(LineAt(s, i))
  {
    SpacesInLine(s, i, j);
    LineReaches(s, i, j + 3);
    var n := LineIsPiece(s, i);
    FenceInPiece(s, i, n, j);
  }

  lemma FenceInPiece(s: string, i: nat, n: nat, j: nat)
    requires i <= j && j + 3 <= i + n <= |s| && (forall k | i <= k < j :: IsSpace(s[k]))
    requires s[j] == '`' && s[j + 1] == '`' && s[j + 2] == '`'
    ensures Fence(s[i..i + n])
  {
    RunInPiece(s, i, n, j, IsSpace);
    TicksIn(s[i..i + n], j - i);
  }

  lemma TicksIn(x: string, r: nat)
    requires Run(x, IsSpace) == r && r + 3 <= |x| && x[r] == '`' && x[r + 1] == '`' && x[r + 2] == '`'
    ensures Fence(x)
  {
    TicksAt(x, r);
  }

  lemma ItemFound(s: string, i: nat) returns (j: nat)
    requires i <= |s| && Begins(s, i) && Marker(LineAt(s, i))
    ensures ItemAt(s, i, j)
  {
    var n := LineIsPiece(s, i);
    var x := s[i..i + n];
    j := i + Run(x, IsBlank);
    assert forall k | i <= k < j :: s[k] == x[k - i];
    BlanksOf(s, i, j);
    BulletsAre(s[j]);
  }

  lemma ItemCounts(s: string, i: nat, j: nat)
    requires ItemAt(s, i, j)
    ensures Marker(LineAt(s, i))
  {
    BlanksOf(s, i, j);
    BulletsAre(s[j]);
    LineReaches(s, i, j + 2);
    var n := LineIsPiece(s, i);
    ItemInPiece(s, i, n, j);
  }

  lemma ItemInPiece(s: string, i: nat, n: nat, j: nat)
    requires i <= j && j + 2 <= i + n <= |s| && (forall k | i <= k < j :: IsBlank(s[k]))
    requires IsBullet(s[j]) && s[j + 1] == ' '
    ensures Marker(s[i..i + n])
  {
    RunInPiece(s, i, n, j, IsBlank);
  }

  lemma DeepIs(s: string, i: nat)
    requires i <= |s| && Begins(s, i)
    ensures Deep(LineAt(s, i)) <==> DeepAt(s, i)
  {
    var n := LineIsPiece(s, i);
    var x := s[i..i + n];
    if DeepAt(s, i) {
      LineReaches(s, i, i + 4);
      assert x[..4] == "    ";
    }
    if Deep(x) {
      assert forall k | 0 <= k < 4 :: x[k] == "    "[k];
    }
  }

  /** The classification in characters. */
  lemma CodeExact(s: string)
    ensures IsCode(s) <==> CodeText(s)
  {
    FencesExact(s);
    ItemsExact(s);
    DeepsExact(s);
  }

  lemma FencesExact(s: string)
    ensures AnyLine(s, Fence) <==> HasFenceLine(s)
  {
    EmptyLine(Fence);
    if AnyLine(s, Fence) {
      var i := LineFound(s, Fence);
      var j := FenceFound(s, i);
    }
    if i: nat, j: nat :| FenceAt(s, i, j) {
      FenceCounts(s, i, j);
      LineCounts(s, Fence, i);
    }
  }

  lemma ItemsExact(s: string)
    ensures AnyLine(s, Marker) <==> HasItem(s)
  {
    EmptyLine(Marker);
    if AnyLine(s, Marker) {
      var i := LineFound(s, Marker);
      var j := ItemFound(s, i);
    }
    if i: nat, j: nat :| ItemAt(s, i, j) {
      ItemCounts(s, i, j);
      LineCounts(s, Marker, i);
    }
  }

  lemma DeepsExact(s: string)
    ensures AnyLine(s, Deep) <==> HasDeep(s)
  {
    EmptyLine(Deep);
    if AnyLine(s, Deep) {
      var i := LineFound(s, Deep);
      DeepIs(s, i);
    }
    if i: nat :| DeepAt(s, i) {
      DeepIs(s, i);
      LineCounts(s, Deep, i);
    }
  }

  // ---------- blank lines ----------

  /** Between the line breaks at i and j there are only spaces and tabs. */
  predicate BlankBetween(s: string, i: nat, j: nat) {
    i < j < |s| && s[i] == '\n' && s[j] == '\n' && forall k | i < k < j :: s[k] in " \t"
  }

  ghost predicate NoBlankLine(s: string) {
    forall i: nat, j: nat :: !BlankBetween(s, i, j)
  }

  /** One line break, spaces and tabs, and at least one more line break. */
  predicate SepText(sep: string, b: nat) {
    && 1 <= b < |sep| && sep[0] == '\n'
    && (forall k | 1 <= k < b :: sep[k] in " \t") && (forall k | b <= k < |sep| :: sep[k] == '\n')
  }

  lemma SepStarts(s: string) returns (j: nat)
    requires SepLen(s) > 0
    ensures BlankBetween(s, 0, j)
  {
    var n := Run(s[1..], IsBlank);
    j := 1 + n;
    assert s[1..][n..] == s[j..] && s[j..][0] == s[j];
    assert forall k | 0 < k < j :: s[k] == s[1..][k - 1];
    BlanksOf(s, 1, j);
  }

  lemma SepCounts(s: string, j: nat)
    requires BlankBetween(s, 0, j)
    ensures SepLen(s) > 0
  {
    BlanksOf(s, 1, j);
    RunInPiece(s, 1, |s| - 1, j, IsBlank);
    assert s[1..1 + (|s| - 1)] == s[1..];
    assert s[j..][0] == s[j];
  }

  lemma {:induction false} CalmHasNoBlank(s: string, i: nat, j: nat)
    requires Calm(s)
    ensures !BlankBetween(s, i, j)
  {
    if BlankBetween(s, i, j) {
      if i == 0 {
        SepCounts(s, j);
      } else {
        assert BlankBetween(s[1..], i - 1, j - 1);
        CalmHasNoBlank(s[1..], i - 1, j - 1);
      }
    }
  }

  lemma {:induction false} NoBlankIsCalm(s: string)
    requires NoBlankLine(s)
    ensures Calm(s)
  {
    if s != "" {
      if SepLen(s) > 0 {
        var j := SepStarts(s);
      }
      forall i: nat, j: nat
        ensures BlankBetween(s[1..], i, j) ==> BlankBetween(s, i + 1, j + 1)
      {
        if BlankBetween(s[1..], i, j) {
          assert forall k | i + 1 < k < j + 1 :: s[k] == s[1..][k - 1];
        }
      }
      NoBlankIsCalm(s[1..]);
    }
  }

  lemma CalmExact(s: string)
    ensures Calm(s) <==> NoBlankLine(s)
  {
    if Calm(s) {
      forall i: nat, j: nat
        ensures !BlankBetween(s, i, j)
      {
        CalmHasNoBlank(s, i, j);
      }
    } else if NoBlankLine(s) {
      NoBlankIsCalm(s);
    }
  }

  lemma DanglesIs(p: string)
    requires p != ""
    ensures Dangles(p) <==> SepLen(p + "\n") > 0
  {
    if p[0] == '\n' {
      var u := p[1..];
      var n := Run(u, IsBlank);
      assert (p + "\n")[1..] == u + "\n";
      if n < |u| {
        RunStops(u, "\n", IsBlank);
        assert (p + "\n")[1 + n..][0] == p[1 + n];
      } else {
        RunIs(u, "\n", IsBlank);
        assert (p + "\n")[1 + n..] == "\n";
      }
    }
  }

  lemma {:induction false} SolidIsCalmBefore(p: string)
    ensures Solid(p) <==> Calm(p + "\n")
  {
    if p == "" {
      assert p + "\n" == "\n" && "\n"[1..] == "";
    } else {
      DanglesIs(p);
      SolidIsCalmBefore(p[1..]);
      assert (p + "\n")[1..] == p[1..] + "\n";
    }
  }

  lemma SepBreaks(sep: string) returns (b: nat)
    requires IsSep(sep)
    ensures SepText(sep, b)
  {
    var n := Run(sep[1..], IsBlank);
    b := 1 + n;
    assert forall k | 1 <= k < b :: sep[k] == sep[1..][k - 1];
    BlanksOf(sep, 1, b);
    assert forall k | b <= k < |sep| :: sep[k] == sep[b..][k - b];
  }

  lemma SepMade(sep: string, b: nat)
    requires SepText(sep, b)
    ensures IsSep(sep)
  {
    BlanksOf(sep, 1, b);
    var u, v := sep[1..b], sep[b..];
    assert sep == ['\n'] + u + v;
    SepShape(u, v);
  }

  lemma SepExact(sep: string)
    ensures IsSep(sep) <==> exists b: nat :: SepText(sep, b)
  {
    if IsSep(sep) {
      var b := SepBreaks(sep);
    }
    if b: nat :| SepText(sep, b) {
      SepMade(sep, b);
    }
  }

  /** What a split is, in characters: paragraphs without a blank line, none at the end of one that a
      separator follows; separators as wide as they can be. */
  ghost predicate WellText(parts: Parts) {
    match parts
    case Final(para) => NoBlankLine(para)
    case More(para, sep, rest) =>
      && NoBlankLine(para + "\n") && (exists b: nat :: SepText(sep, b)) && WellText(rest)
      && (Whole(rest) == "" || Whole(rest)[0] != '\n')
  }

  lemma {:induction false} WellExact(parts: Parts)
    ensures WellText(parts) <==> WellFormed(parts)
  {
    CalmExact(parts.para);
    if parts.More? {
      SolidIsCalmBefore(parts.para);
      CalmExact(parts.para + "\n");
      SepExact(parts.sep);
      WellExact(parts.rest);
    }
  }

  /** The split in characters. */
  lemma SplitInCharacters(text: string, parts: Parts)
    ensures parts == Split(text) <==> Whole(parts) == text && WellText(parts)
  {
    WholeOfSplit(text);
    WellExact(parts);
    if Whole(parts) == text && WellText(parts) {
      SplitOfWhole(parts);
    }
  }

  // ---------- the substitutions ----------

  /** An indented line that is no list item. */
  ghost predicate ContinuesText(line: string) {
    line != "" && line[0] in " \t" && forall j: nat :: !ItemAt(line, 0, j)
  }

  lemma MarkerExact(line: string)
    ensures Marker(line) <==> exists j: nat :: ItemAt(line, 0, j)
  {
    var n := Run(line, IsBlank);
    BlanksOf(line, 0, n);
    if Marker(line) {
      BulletsAre(line[n]);
      assert ItemAt(line, 0, n);
    }
    if j: nat :| ItemAt(line, 0, j) {
      BlanksOf(line, 0, j);
      BulletsAre(line[j]);
      assert line[0..0 + |line|] == line;
      RunInPiece(line, 0, |line|, j, IsBlank);
    }
  }

  /** A line of a joined paragraph: one that continues the line before it loses its break and its
      indentation, all of it, and is set off by a space; any other stays. */
  lemma GlueExact(line: string) returns (n: nat)
    ensures n <= |line| && (forall k | 0 <= k < n :: line[k] in " \t") && (n < |line| ==> line[n] !in " \t")
    ensures Glue(line) == if ContinuesText(line) then " " + line[n..] else "\n" + line
  {
    n := Run(line, IsBlank);
    BlanksOf(line, 0, n);
    if n < |line| {
      BlanksAre(line[n]);
    }
    if line != "" {
      BlanksAre(line[0]);
    }
    MarkerExact(line);
  }

  /** " (PR [" stands at k. */
  predicate ReferenceAt(s: string, k: nat) {
    && k + 6 <= |s| && s[k] == ' ' && s[k + 1] == '(' && s[k + 2] == 'P' && s[k + 3] == 'R' && s[k + 4] == ' ' && s[k + 5] == '['
  }

  lemma ReferenceIs(s: string, k: nat)
    requires k <= |s|
    ensures Pr() <= s[k..] <==> ReferenceAt(s, k)
  {
    if Pr() <= s[k..] {
      assert forall i | 0 <= i < 6 :: s[k..][i] == Pr()[i] == s[k + i];
    }
    if ReferenceAt(s, k) {
      assert s[k..][..6] == Pr();
    }
  }

  /** The first reference, and only that, gets a line of its own, indented by two spaces. */
  lemma InsertExact(s: string)
    ensures (forall k: nat :: !ReferenceAt(s, k)) ==> Insert(s) == s
    ensures forall k: nat | ReferenceAt(s, k) && forall i: nat | i < k :: !ReferenceAt(s, i) ::
              Insert(s) == s[..k] + "\n  (PR [" + s[k + 6..]
  {
    var f := FindPr(s);
    FoundPr(s);
    if f < |s| {
      assert s[f..][..6] == s[f..f + 6];
      ReferenceIs(s, f);
    }
    forall k: nat | ReferenceAt(s, k)
      ensures f <= k && f < |s|
    {
      ReferenceIs(s, k);
      FirstPr(s, k);
    }
  }
}
