/** `extract_section` of pipecat/scripts/release-changelog.py, and the sections of a changelog. */
module Sections {
  import opened Text
  import opened Entries
  import opened Changelog

  /** Where the leftmost line that starts with prefix starts; s itself is at a line start if start. */
  function FindLine(s: string, prefix: string, start: bool): (r: Option<nat>)
    ensures r.Some? ==> r.value + |prefix| <= |s|
  {
    if start && prefix <= s then Some(0)
    else if s == "" then None
    else
      var i :- FindLine(s[1..], prefix, s[0] == '\n');
      Some(i + 1)
  }

  function Mark(): (r: string)
    ensures |r| == 4 && r[0] == '#' && r[1] == '#' && r[2] == ' ' && r[3] == '[' && '\n' !in r
  {
    "## ["
  }

  function Head(version: string): (r: string)
    ensures Mark() <= r && |r| == |version| + 5 && r[|r| - 1] == ']'
    ensures '\n' in r <==> '\n' in version
  {
    Mark() + version + "]"
  }

  /** `extract_section`; None is the exit with "version not found". */
  function ExtractSection(text: string, version: string): Option<string> {
    var m :- FindLine(text, Head(version), true);
    Some(UpToNext(text[m..], |Head(version)|))
  }

  /** s up to the next heading line, looked for after its first n characters. */
  function UpToNext(s: string, n: nat): string
    requires n <= |s|
  {
    var next := FindLine(s[n..], Mark(), false);
    if next.Some? then s[..n + next.value] else s
  }

  // ---------- cutting at every heading ----------

  /** The pieces of a text that starts with a heading. */
  function Headed(s: string): seq<string> {
    if s == "" then []
    else
      var i := FindLine(s[1..], Mark(), false);
      if i.None? then [s] else [s[..1 + i.value]] + Headed(s[1 + i.value..])
  }

  /** What stands before the first heading. */
  function Preamble(text: string): string {
    var i := FindLine(text, Mark(), true);
    if i.None? then text else text[..i.value]
  }

  function SectionsOf(text: string): seq<string> {
    Headed(text[|Preamble(text)|..])
  }

  /** The first of the pieces that starts with head. */
  function FirstWith(pieces: seq<string>, head: string): Option<string> {
    if pieces == [] then None
    else if head <= pieces[0] then Some(pieces[0])
    else FirstWith(pieces[1..], head)
  }

  lemma {:induction false} ConcatHeaded(s: string)
    ensures Concat(Headed(s)) == s
    decreases |s|
  {
    if s != "" {
      var i := FindLine(s[1..], Mark(), false);
      if i.Some? {
        var a, b := CutAt(s, 1 + i.value);
        ConcatHeaded(b);
        ConcatCons(a, Headed(b));
      } else {
        ConcatCons(s, []);
      }
    }
  }

  lemma ConcatCons(a: string, pieces: seq<string>)
    ensures Concat([a] + pieces) == a + Concat(pieces)
    ensures a + "" == a && [a] + [] == [a]
  {
  }

  /** A text cut before its first match has no match. */
  lemma {:induction false} BeforeMatch(s: string, prefix: string, start: bool, i: nat)
    requires FindLine(s, prefix, start) == Some(i) && prefix != ""
    ensures i <= |s| && FindLine(s[..i], prefix, start) == None
  {
    if !(start && prefix <= s) {
      BeforeMatch(s[1..], prefix, s[0] == '\n', i - 1);
      assert s[..i][1..] == s[1..][..i - 1];
      assert prefix <= s[..i] ==> prefix <= s;
    }
  }

  /** At a match, the text starts with the prefix. */
  lemma {:induction false} AtMatch(s: string, prefix: string, start: bool, i: nat)
    requires FindLine(s, prefix, start) == Some(i)
    ensures i <= |s| && prefix <= s[i..]
    ensures if i == 0 then start else s[i - 1] == '\n'
  {
    if start && prefix <= s {
      assert s[0..] == s;
    } else {
      AtMatch(s[1..], prefix, s[0] == '\n', i - 1);
      assert s[1..][i - 1..] == s[i..];
    }
  }

  /** h is one section: a heading, and no other heading line. */
  predicate IsSection(h: string) {
    Mark() <= h && FindLine(h[1..], Mark(), false) == None
  }

  lemma {:induction false} HeadedAreSections(s: string)
    requires s == "" || Mark() <= s
    ensures forall h | h in Headed(s) :: IsSection(h)
    decreases |s|
  {
    if s != "" {
      var i := FindLine(s[1..], Mark(), false);
      if i.Some? {
        var n := 1 + i.value;
        AtMatch(s[1..], Mark(), false, i.value);
        BeforeMatch(s[1..], Mark(), false, i.value);
        assert s[1..][i.value..] == s[n..] && s[..n][1..] == s[1..][..i.value];
        HeadedAreSections(s[n..]);
        SectionLength(s, n);
      }
    }
  }

  /** Two headings do not overlap. */
  lemma SectionLength(s: string, n: nat)
    requires Mark() <= s && 0 < n <= |s| && Mark() <= s[n..] && s[n - 1] == '\n'
    ensures Mark() <= s[..n]
  {
  }

  // ---------- the section of a version ----------

  function Offset(n: nat, r: Option<nat>): Option<nat> {
    if r.Some? then Some(n + r.value) else None
  }

  /** Text without a line break holds no line start. */
  lemma {:induction false} PassLine(a: string, b: string, prefix: string)
    requires '\n' !in a
    ensures FindLine(a + b, prefix, false) == Offset(|a|, FindLine(b, prefix, false))
  {
    if a == "" {
      assert a + b == b;
    } else {
      assert (a + b)[1..] == a[1..] + b;
      PassLine(a[1..], b, prefix);
    }
  }

  /** A longer prefix is found only where a shorter one is. */
  lemma {:induction false} LongerPrefix(s: string, short: string, long: string, start: bool)
    requires short <= long
    ensures FindLine(s, short, start) == None ==> FindLine(s, long, start) == None
  {
    if s != "" {
      LongerPrefix(s[1..], short, long, s[0] == '\n');
    }
    assert long <= s ==> short <= s;
  }

  lemma {:induction false} LongerFrom(a: string, b: string, short: string, long: string, start: bool)
    requires short <= long && FindLine(a + b, short, start) == Some(|a|)
    ensures FindLine(a + b, long, start) == Offset(|a|, FindLine(b, long, true))
  {
    if a == "" {
      assert a + b == b;
    } else {
      assert (a + b)[1..] == a[1..] + b;
      LongerFrom(a[1..], b, short, long, a[0] == '\n');
      if long <= a + b {
        NotLonger(a + b, short, long);
      }
    }
  }

  lemma NotLonger(s: string, short: string, long: string)
    requires short <= long && long <= s
    ensures short <= s
  {
  }

  /** Extraction depends only on the text from the match on. */
  lemma ExtractLater(text: string, a: string, t: string, version: string)
    requires text == a + t && FindLine(text, Head(version), true) == Offset(|a|, FindLine(t, Head(version), true))
    ensures ExtractSection(text, version) == ExtractSection(t, version)
  {
    var m := FindLine(t, Head(version), true);
    if m.Some? {
      DropBoth(a, t, m.value);
    }
  }

  lemma DropBoth(a: string, t: string, m: nat)
    requires m <= |t|
    ensures (a + t)[|a| + m..] == t[m..]
  {
  }

  lemma HeadIsLine(version: string)
    requires '\n' !in version
    ensures '\n' !in Head(version)[1..]
  {
    assert forall c | c in Head(version)[1..] :: c in Head(version);
  }

  /** The section of a version that leads the text is the text's first piece. */
  lemma ExtractFirst(s: string, version: string)
    requires '\n' !in version && Head(version) <= s
    ensures ExtractSection(s, version) == Some(Headed(s)[0])
  {
    var head := Head(version);
    var t := s[|head|..];
    assert s[0..] == s && s[1..] == head[1..] + t;
    HeadIsLine(version);
    PassLine(head[1..], t, Mark());
  }

  lemma NotHere(s: string, prefix: string)
    requires s != "" && s[0] != '\n' && !(prefix <= s)
    ensures FindLine(s, prefix, true) == Offset(1, FindLine(s[1..], prefix, false))
  {
  }

  /** A section of another version is passed over. */
  lemma PassSection(s: string, head: string) returns (a: string, t: string)
    requires Mark() <= s && Mark() <= head && !(head <= s) && FindLine(s[1..], Mark(), false).Some?
    ensures s == a + t && a != "" && Mark() <= t && Headed(s) == [a] + Headed(t) && !(head <= a)
    ensures FindLine(s, head, true) == Offset(|a|, FindLine(t, head, true))
  {
    a, t := NextSection(s, FindLine(s[1..], Mark(), false).value);
    LaterHead(s, a[1..], t, head);
    PrefixGrows(head, a, t);
  }

  lemma LaterHead(s: string, a: string, t: string, head: string)
    requires s != "" && s[0] != '\n' && !(head <= s) && Mark() <= head
    requires s[1..] == a + t && FindLine(s[1..], Mark(), false) == Some(|a|)
    ensures FindLine(s, head, true) == Offset(1 + |a|, FindLine(t, head, true))
  {
    LongerFrom(a, t, Mark(), head, false);
    NotHere(s, head);
  }

  lemma NextSection(s: string, i: nat) returns (a: string, t: string)
    requires s != "" && FindLine(s[1..], Mark(), false) == Some(i)
    ensures s == a + t && |a| == 1 + i && s[1..] == a[1..] + t
    ensures Mark() <= t && Headed(s) == [a] + Headed(t)
  {
    a, t := CutAt(s, 1 + i);
    AtMatch(s[1..], Mark(), false, i);
    assert s[1..][i..] == t;
  }

  lemma PrefixGrows(head: string, a: string, t: string)
    ensures head <= a ==> head <= a + t
  {
  }

  lemma {:induction false} ExtractHeaded(s: string, version: string)
    requires '\n' !in version && (s == "" || Mark() <= s)
    ensures ExtractSection(s, version) == FirstWith(Headed(s), Head(version))
    decreases |s|
  {
    if s == "" {
    } else if Head(version) <= s {
      ExtractFirst(s, version);
      HeadStays(s, Head(version));
    } else if FindLine(s[1..], Mark(), false).Some? {
      var a, t := PassSection(s, Head(version));
      ExtractLater(s, a, t, version);
      ExtractHeaded(t, version);
    } else {
      LongerPrefix(s[1..], Mark(), Head(version), false);
    }
  }

  lemma HeadStays(s: string, head: string)
    requires head <= s && Mark() <= head && '\n' !in head
    ensures head <= Headed(s)[0]
  {
    var i := FindLine(s[1..], Mark(), false);
    if i.Some? {
      var t := s[|head|..];
      assert s[1..] == head[1..] + t;
      assert forall c | c in head[1..] :: c in head;
      PassLine(head[1..], t, Mark());
    }
  }

  /** The sections partition the changelog: the preamble and the sections in order give it back,
      the preamble holds no heading line, and each section holds exactly the one that starts it. */
  lemma SectionsPartition(text: string)
    ensures Preamble(text) + Concat(SectionsOf(text)) == text
    ensures FindLine(Preamble(text), Mark(), true) == None
    ensures forall h | h in SectionsOf(text) :: IsSection(h)
  {
    var i := FindLine(text, Mark(), true);
    var rest := text[|Preamble(text)|..];
    if i.Some? {
      BeforeMatch(text, Mark(), true, i.value);
      AtMatch(text, Mark(), true, i.value);
    }
    ConcatHeaded(rest);
    HeadedAreSections(rest);
  }

  /** For a version without a line break, extraction gives exactly the first section whose heading
      has that version, and fails exactly when there is none. */
  lemma ExtractIsFirstSection(text: string, version: string)
    requires '\n' !in version
    ensures ExtractSection(text, version) == FirstWith(SectionsOf(text), Head(version))
  {
    var i := FindLine(text, Mark(), true);
    var n := |Preamble(text)|;
    LongerPrefix(text, Mark(), Head(version), true);
    var a, t := CutAt(text, n);
    if i.Some? {
      AtMatch(text, Mark(), true, i.value);
      LongerFrom(a, t, Mark(), Head(version), true);
    }
    ExtractLater(text, a, t, version);
    ExtractHeaded(t, version);
  }

  // ---------- extraction, in characters ----------

  /** A line of s that starts with prefix starts at i; s itself starts a line if start. */
  predicate LineStartsAt(s: string, prefix: string, start: bool, i: nat)
    requires i <= |s|
  {
    (if i == 0 then start else s[i - 1] == '\n') && prefix <= s[i..]
  }

  lemma {:induction false} FindLineExact(s: string, prefix: string, start: bool)
    ensures match FindLine(s, prefix, start)
            case None => forall k: nat | k <= |s| :: !LineStartsAt(s, prefix, start, k)
            case Some(i) => LineStartsAt(s, prefix, start, i) && forall k: nat | k < i :: !LineStartsAt(s, prefix, start, k)
  {
    assert s[0..] == s;
    if !(start && prefix <= s) && s != "" {
      FindLineExact(s[1..], prefix, s[0] == '\n');
      forall k: nat | 0 < k <= |s|
        ensures LineStartsAt(s, prefix, start, k) <==> LineStartsAt(s[1..], prefix, s[0] == '\n', k - 1)
      {
        assert s[k..] == s[1..][k - 1..];
      }
    }
  }

  /** From a to b lies the first section of the version: its heading line is the first of the text, and the
      section ends at the next heading line of any version, or at the end. */
  predicate SectionAt(text: string, version: string, a: nat, b: nat) {
    var n := |version| + 5;
    && a + n <= b <= |text|
    && LineStartsAt(text, "## [" + version + "]", true, a)
    && (forall k: nat | k < a :: !LineStartsAt(text, "## [" + version + "]", true, k))
    && (forall k: nat | a + n <= k < b :: !MarkAt(text, k))
    && (b < |text| ==> MarkAt(text, b))
  }

  /** A heading line of any version starts at k. */
  predicate MarkAt(text: string, k: nat)
    requires 0 < k <= |text|
  {
    text[k - 1] == '\n' && "## [" <= text[k..]
  }

  lemma MarkBelow(text: string, m: nat, k: nat)
    requires 0 < k && m + k <= |text|
    ensures LineStartsAt(text[m..], "## [", false, k) <==> MarkAt(text, m + k)
  {
    assert text[m..][k..] == text[m + k..];
    assert text[m..][k - 1] == text[m + k - 1];
  }

  /** The next heading line after m, or the end. */
  lemma NextMark(text: string, m: nat) returns (b: nat)
    requires m <= |text|
    ensures m <= b <= |text|
    ensures FindLine(text[m..], "## [", false) == if b == |text| && !(m < b && MarkAt(text, b)) then None else Some(b - m)
    ensures forall k: nat | m < k < b :: !MarkAt(text, k)
    ensures b < |text| ==> m < b && MarkAt(text, b)
  {
    var u := text[m..];
    FindLineExact(u, "## [", false);
    forall k: nat | 0 < k && m + k <= |text|
      ensures LineStartsAt(u, "## [", false, k) <==> MarkAt(text, m + k)
    {
      MarkBelow(text, m, k);
    }
    var next := FindLine(u, "## [", false);
    b := if next.Some? then m + next.value else |text|;
    forall k: nat | m < k < b
      ensures !MarkAt(text, k)
    {
      MarkBelow(text, m, k - m);
    }
  }

  lemma EndsAt(text: string, n: nat, a: nat) returns (b: nat)
    requires a + n <= |text|
    ensures a + n <= b <= |text| && UpToNext(text[a..], n) == text[a..b]
    ensures forall k: nat | a + n < k < b :: !MarkAt(text, k)
    ensures b < |text| ==> a + n < b && MarkAt(text, b)
  {
    b := NextMark(text, a + n);
    assert text[a..][n..] == text[a + n..];
    assert text[a..][..b - a] == text[a..b];
    assert text[a..] == text[a..|text|];
  }

  /** Extraction returns the first section of the version, whole, or fails if no line is its heading. */
  lemma ExtractInCharacters(text: string, version: string)
    ensures match ExtractSection(text, version)
            case None => forall k: nat | k <= |text| :: !LineStartsAt(text, "## [" + version + "]", true, k)
            case Some(section) => exists a: nat, b: nat :: SectionAt(text, version, a, b) && section == text[a..b]
  {
    var head := "## [" + version + "]";
    FindLineExact(text, head, true);
    var m := FindLine(text, head, true);
    if m.Some? {
      var a := m.value;
      HeadEnds(text, version, a);
      var b := EndsAt(text, |version| + 5, a);
      assert SectionAt(text, version, a, b);
    }
  }

  lemma HeadEnds(text: string, version: string, a: nat)
    requires a <= |text| && "## [" + version + "]" <= text[a..]
    ensures a + |version| + 5 <= |text| && text[a + |version| + 4] == ']'
  {
    var head := "## [" + version + "]";
    assert |head| == |version| + 5 && head[|version| + 4] == ']' && text[a..][|version| + 4] == head[|version| + 4];
  }
}
