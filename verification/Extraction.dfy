/** Extracting a section and unfilling commute. */
module Extraction {
  import opened Text
  import opened Paragraphs
  import opened Unfill
  import opened CodeBlocks
  import opened Entries
  import opened Changelog
  import opened Sections
  import opened Headings

  // ---------- sections as lists of parts ----------

  /** The parts from the first paragraph up to the next one that starts with a heading mark. */
  function Until(parts: Parts): (r: Parts)
    ensures r.para == parts.para
  {
    match parts
    case Final(para) => parts
    case More(para, sep, rest) =>
      if Mark() <= rest.para then More(para, sep, Final("")) else More(para, sep, Until(rest))
  }

  /** The parts from that one on. */
  function After(parts: Parts): (r: Option<Parts>)
    ensures r.Some? ==> r.value < parts && Mark() <= r.value.para
  {
    match parts
    case Final(_) => None
    case More(_, _, rest) => if Mark() <= rest.para then Some(rest) else After(rest)
  }

  /** The sections of parts that start with a heading. */
  function Cuts(parts: Parts): seq<Parts>
    decreases parts
  {
    [Until(parts)] + if After(parts).Some? then Cuts(After(parts).value) else []
  }

  function Wholes(list: seq<Parts>): (r: seq<string>)
    ensures |r| == |list|
  {
    seq(|list|, i requires 0 <= i < |list| => Whole(list[i]))
  }

  /** Heading lines begin paragraphs. */
  predicate HeadingsLead(parts: Parts) {
    FindLine(parts.para, Mark(), false) == None && (parts.More? ==> HeadingsLead(parts.rest))
  }

  lemma {:induction false} PassPara(p: string, u: string, prefix: string, start: bool)
    requires '\n' !in prefix && prefix != "" && (u == "" || u[0] == '\n') && FindLine(p, prefix, start) == None
    ensures FindLine(p + u, prefix, start) == Offset(|p|, FindLine(u, prefix, false))
  {
    PrefixInPara(prefix, p, u);
    if p == "" {
      assert p + u == u;
      PrefixInPara(prefix, "", u);
    } else {
      assert (p + u)[1..] == p[1..] + u;
      PassPara(p[1..], u, prefix, p[0] == '\n');
    }
  }

  lemma PrefixInPara(prefix: string, p: string, u: string)
    requires '\n' !in prefix && (u == "" || u[0] == '\n')
    ensures prefix <= p + u <==> prefix <= p
  {
    if |p| < |prefix| && u != "" {
      assert (p + u)[|p|] == '\n' && prefix[|p|] in prefix;
    }
  }

  lemma {:induction false} PassWhite(s: string, t: string, prefix: string, start: bool)
    requires prefix != "" && !IsWhite(prefix[0])
    requires s != "" && s[|s| - 1] == '\n' && forall i | 0 <= i < |s| :: IsWhite(s[i])
    ensures FindLine(s + t, prefix, start) == Offset(|s|, FindLine(t, prefix, true))
  {
    assert (s + t)[1..] == s[1..] + t;
    if |s| == 1 {
      assert s[1..] + t == t;
    } else {
      PassWhite(s[1..], t, prefix, s[0] == '\n');
    }
  }

  /** The search passes a paragraph and a separator without a match. */
  lemma PassPart(p: string, sep: string, t: string, prefix: string, start: bool)
    requires '\n' !in prefix && prefix != "" && prefix[0] == '#' && IsSep(sep) && FindLine(p, prefix, start) == None
    ensures FindLine(p + sep + t, prefix, start) == Offset(|p| + |sep|, FindLine(t, prefix, true))
  {
    Associate(p, sep, t);
    SepIsWhite(sep);
    PassPara(p, sep + t, prefix, start);
    PassWhite(sep, t, prefix, false);
  }

  /** s up to its next heading line. */
  function CutHere(s: string): string {
    var next := FindLine(s, Mark(), false);
    if next.Some? then s[..next.value] else s
  }

  lemma {:induction false} UntilIsCut(parts: Parts)
    requires HasSeps(parts) && HeadingsLead(parts)
    ensures Whole(Until(parts)) == CutHere(Whole(parts)) && HasSeps(Until(parts))
  {
    if parts.More? {
      var p, sep, rest := parts.para, parts.sep, parts.rest;
      UntilIsCut(rest);
      PassPart(p, sep, Whole(rest), Mark(), false);
      MarkLeads(rest);
      UntilMore(p + sep, Whole(rest));
    }
  }

  lemma UntilMore(a: string, t: string)
    requires FindLine(a + t, Mark(), false) == Offset(|a|, FindLine(t, Mark(), true))
    ensures CutHere(a + t) == if Mark() <= t then a + "" else a + CutHere(t)
  {
    if Mark() <= t {
      assert (a + t)[..|a|] == a + "";
    } else if FindLine(t, Mark(), false).Some? {
      var n := FindLine(t, Mark(), false).value;
      assert (a + t)[..|a| + n] == a + t[..n];
    }
  }

  lemma MarkLeads(parts: Parts)
    requires HasSeps(parts)
    ensures Mark() <= Whole(parts) <==> Mark() <= parts.para
  {
    if parts.More? {
      Associate(parts.para, parts.sep, Whole(parts.rest));
      SepStarts(parts.sep, Whole(parts.rest));
      PrefixInPara(Mark(), parts.para, parts.sep + Whole(parts.rest));
    }
  }

  lemma SepStarts(sep: string, t: string)
    requires IsSep(sep)
    ensures sep + t != "" && (sep + t)[0] == '\n'
  {
  }

  lemma WholesOfCuts(parts: Parts)
    ensures Wholes(Cuts(parts)) == [Whole(Until(parts))] + if After(parts).Some? then Wholes(Cuts(After(parts).value)) else []
  {
    WholesCons(Until(parts), if After(parts).Some? then Cuts(After(parts).value) else []);
  }

  lemma WholesCons(first: Parts, rest: seq<Parts>)
    ensures Wholes([first] + rest) == [Whole(first)] + Wholes(rest)
  {
  }

  lemma {:induction false} WholeCuts(parts: Parts)
    ensures Whole(parts) == Whole(Until(parts)) + if After(parts).Some? then Whole(After(parts).value) else ""
  {
    if parts.More? {
      var a, t := parts.para + parts.sep, Whole(parts.rest);
      if Mark() <= parts.rest.para {
        assert a + "" == a;
      } else {
        WholeCuts(parts.rest);
        Associate(a, Whole(Until(parts.rest)), if After(parts.rest).Some? then Whole(After(parts.rest).value) else "");
      }
    } else {
      assert parts.para + "" == parts.para;
    }
  }

  lemma {:induction false} AfterKeeps(parts: Parts)
    requires HasSeps(parts) && HeadingsLead(parts) && After(parts).Some?
    ensures HasSeps(After(parts).value) && HeadingsLead(After(parts).value)
  {
    if !(Mark() <= parts.rest.para) {
      AfterKeeps(parts.rest);
    }
  }

  /** Where the text of parts is cut first. */
  lemma NextCut(parts: Parts) returns (a: string, t: string)
    requires HasSeps(parts) && HeadingsLead(parts)
    ensures Whole(parts) == a + t && a == Whole(Until(parts))
    ensures if After(parts).Some? then t == Whole(After(parts).value) && Mark() <= t else t == ""
    ensures FindLine(a + t, Mark(), false) == if t == "" then None else Some(|a|)
  {
    a := Whole(Until(parts));
    t := if After(parts).Some? then Whole(After(parts).value) else "";
    WholeCuts(parts);
    UntilIsCut(parts);
    if After(parts).Some? {
      AfterKeeps(parts);
      MarkLeads(After(parts).value);
      CutLength(a, t);
    } else {
      assert a + t == a;
    }
  }

  lemma CutLength(a: string, t: string)
    requires a == CutHere(a + t) && t != ""
    ensures FindLine(a + t, Mark(), false) == Some(|a|)
  {
    var next := FindLine(a + t, Mark(), false);
    assert |a + t| > |a|;
    if next.Some? {
      assert |(a + t)[..next.value]| == next.value;
    }
  }

  /** Cutting the text at its headings is cutting the parts. */
  lemma {:induction false} HeadedIsCuts(parts: Parts)
    requires HasSeps(parts) && HeadingsLead(parts) && Mark() <= parts.para
    ensures Headed(Whole(parts)) == Wholes(Cuts(parts))
    decreases parts
  {
    var a, t := NextCut(parts);
    MarkLeads(parts);
    WholesOfCuts(parts);
    HeadedStep(a, t);
    if After(parts).Some? {
      AfterKeeps(parts);
      HeadedIsCuts(After(parts).value);
    }
  }

  /** One step of cutting a text that starts with a heading. */
  lemma HeadedStep(a: string, t: string)
    requires Mark() <= a + t && FindLine(a + t, Mark(), false) == if t == "" then None else Some(|a|)
    ensures Headed(a + t) == [a] + Headed(t)
  {
    var s := a + t;
    FirstCharacter(s);
    if t == "" {
      assert s == a && [a] + [] == [a];
    } else {
      assert s[..|a|] == a && s[|a|..] == t;
    }
  }

  lemma FirstCharacter(s: string)
    requires Mark() <= s
    ensures s != "" && FindLine(s, Mark(), false) == Offset(1, FindLine(s[1..], Mark(), false))
  {
  }

  /** What stands before the first heading, and the sections, of the text of parts. */
  lemma SectionsAreCuts(parts: Parts)
    requires HasSeps(parts) && HeadingsLead(parts)
    ensures Preamble(Whole(parts)) == if Mark() <= parts.para then "" else Whole(Until(parts))
    ensures SectionsOf(Whole(parts))
            == if Mark() <= parts.para then Wholes(Cuts(parts))
               else if After(parts).Some? then Wholes(Cuts(After(parts).value)) else []
  {
    MarkLeads(parts);
    if Mark() <= parts.para {
      HeadedIsCuts(parts);
      assert Whole(parts)[0..] == Whole(parts);
    } else {
      var a, t := NextCut(parts);
      CutsAt(a, t);
      if After(parts).Some? {
        AfterKeeps(parts);
        HeadedIsCuts(After(parts).value);
      }
    }
  }

  lemma CutsAt(a: string, t: string)
    requires FindLine(a + t, Mark(), true) == if t == "" then None else Some(|a|)
    ensures Preamble(a + t) == a && (a + t)[|a|..] == t
  {
  }

  // ---------- unfilling keeps the headings in place ----------

  lemma {:induction false} FindIsCount(s: string, start: bool)
    ensures FindLine(s, Mark(), start) == None <==> Count(s, start) == 0
  {
    if s != "" {
      FindIsCount(s[1..], s[0] == '\n');
    }
  }

  lemma ParaKept(p: string)
    requires IsCode(p) || TornCount(p, true) == 0
    ensures FindLine(Unfilled(p), Mark(), false) == None <==> FindLine(p, Mark(), false) == None
    ensures Mark() <= Unfilled(p) <==> Mark() <= p
  {
    UnfilledCount(p, true);
    UnfilledCount(p, false);
    FindIsCount(p, false);
    FindIsCount(Unfilled(p), false);
  }

  lemma {:induction false} LeadsUnfilled(parts: Parts)
    requires HeadingsLead(parts) && TornHeadings(parts) == 0
    ensures HeadingsLead(UnfillAll(parts))
  {
    ParaKept(parts.para);
    if parts.More? {
      LeadsUnfilled(parts.rest);
    }
  }

  lemma {:induction false} UntilUnfilled(parts: Parts)
    requires TornHeadings(parts) == 0
    ensures Until(UnfillAll(parts)) == UnfillAll(Until(parts))
  {
    if parts.More? {
      ParaKept(parts.rest.para);
      UntilUnfilled(parts.rest);
      assert UnfillAll(Final("")) == Final("");
    }
  }

  lemma {:induction false} AfterUnfilled(parts: Parts)
    requires TornHeadings(parts) == 0
    ensures After(UnfillAll(parts)) == if After(parts).Some? then Some(UnfillAll(After(parts).value)) else None
    ensures After(parts).Some? ==> TornHeadings(After(parts).value) == 0
  {
    if parts.More? {
      ParaKept(parts.rest.para);
      AfterUnfilled(parts.rest);
    }
  }

  lemma {:induction false} AfterWellFormed(parts: Parts)
    requires WellFormed(parts)
    ensures After(parts).Some? ==> WellFormed(After(parts).value)
  {
    if parts.More? {
      AfterWellFormed(parts.rest);
    }
  }

  lemma {:induction false} UntilWellFormed(parts: Parts)
    requires WellFormed(parts)
    ensures WellFormed(Until(parts))
    ensures Whole(Until(parts)) == "" || Whole(Until(parts))[0] != '\n' || Whole(parts)[0] == '\n'
  {
    if parts.More? && !(Mark() <= parts.rest.para) {
      UntilWellFormed(parts.rest);
    }
  }

  lemma ProcessUntil(parts: Parts)
    requires WellFormed(parts) && TornHeadings(parts) == 0
    ensures Process(Whole(Until(parts))) == Whole(Until(UnfillAll(parts)))
  {
    UntilWellFormed(parts);
    SplitOfWhole(Until(parts));
    UntilUnfilled(parts);
  }

  function MapEach(f: string -> string, pieces: seq<string>): (r: seq<string>)
    ensures |r| == |pieces|
  {
    seq(|pieces|, i requires 0 <= i < |pieces| => f(pieces[i]))
  }

  /** Each piece unfilled. */
  function MapProcess(pieces: seq<string>): (r: seq<string>)
    ensures |r| == |pieces|
  {
    MapEach(Process, pieces)
  }

  lemma {:induction false} CutsUnfilled(parts: Parts)
    requires WellFormed(parts) && TornHeadings(parts) == 0
    ensures Wholes(Cuts(UnfillAll(parts))) == MapProcess(Wholes(Cuts(parts)))
    decreases parts
  {
    ProcessUntil(parts);
    AfterUnfilled(parts);
    AfterWellFormed(parts);
    WholesOfCuts(parts);
    WholesOfCuts(UnfillAll(parts));
    if After(parts).Some? {
      CutsUnfilled(After(parts).value);
      MapEachCons(Process, Whole(Until(parts)), Wholes(Cuts(After(parts).value)));
    } else {
      MapEachCons(Process, Whole(Until(parts)), []);
    }
  }

  lemma MapEachCons(f: string -> string, first: string, rest: seq<string>)
    ensures MapEach(f, [first] + rest) == [f(first)] + MapEach(f, rest)
    ensures [first] + [] == [first] && [f(first)] + [] == [f(first)]
  {
  }

  lemma {:induction false} CountFrom(a: string, t: string, start: bool)
    requires FindLine(a + t, Mark(), start) == Some(|a|)
    ensures Count(a + t, start) == Count(t, true)
  {
    if a == "" {
      assert a + t == t;
    } else {
      assert (a + t)[1..] == a[1..] + t;
      CountFrom(a[1..], t, a[0] == '\n');
    }
  }

  lemma {:induction false} CountHeaded(s: string)
    requires s == "" || Mark() <= s
    ensures |Headed(s)| == Count(s, true)
    decreases |s|
  {
    if s != "" {
      var i := FindLine(s[1..], Mark(), false);
      if i.Some? {
        var a, t := NextSection(s, i.value);
        CountHeaded(t);
        CountFrom(a[1..], t, false);
      } else {
        FindIsCount(s[1..], false);
      }
    }
  }

  /** There is one section for each heading line. */
  lemma CountSections(text: string)
    ensures |SectionsOf(text)| == Count(text, true)
  {
    var i := FindLine(text, Mark(), true);
    FindIsCount(text, true);
    var a, t := CutAt(text, |Preamble(text)|);
    if i.Some? {
      AtMatch(text, Mark(), true, i.value);
      CountFrom(a, t, true);
    }
    CountHeaded(t);
  }

  lemma SectionsMapped(text: string)
    requires HeadingsLead(Split(text)) && TornHeadings(Split(text)) == 0
    ensures Preamble(Process(text)) == Process(Preamble(text))
    ensures SectionsOf(Process(text)) == MapProcess(SectionsOf(text))
  {
    var parts := Split(text);
    WholeOfSplit(text);
    WellFormedHasSeps(parts);
    LeadsUnfilled(parts);
    ParaKept(parts.para);
    SectionsAreCuts(parts);
    SectionsAreCuts(UnfillAll(parts));
    ProcessUntil(parts);
    AfterUnfilled(parts);
    AfterWellFormed(parts);
    ProcessEmpty();
    if Mark() <= parts.para {
      CutsUnfilled(parts);
    } else if After(parts).Some? {
      CutsUnfilled(After(parts).value);
    }
  }

  lemma ProcessEmpty()
    ensures Process("") == ""
  {
  }

  /** Cutting into sections commutes with unfilling exactly when no heading is torn: then unfilling the
      text is unfilling its preamble and each of its sections. */
  lemma SectionsCommute(text: string)
    requires HeadingsLead(Split(text))
    ensures Preamble(Process(text)) == Process(Preamble(text)) && SectionsOf(Process(text)) == MapProcess(SectionsOf(text))
            <==> TornHeadings(Split(text)) == 0
  {
    CountSections(text);
    CountSections(Process(text));
    HeadingsKept(text);
    if TornHeadings(Split(text)) == 0 {
      SectionsMapped(text);
    }
  }

  // ---------- which versions agree ----------

  lemma HeadOfInsert(j: string, head: string)
    requires '\n' !in head && FindPr(head) == |head| && head != "" && head[|head| - 1] == ']'
    ensures head <= Insert(j) <==> head <= j
  {
    if FindPr(j) < |j| {
      var a, b := CutAt(j, FindPr(j));
      InsertSplits(j, a, b);
      HeadBefore(a, b, head);
      PrefixInPara(head, a, "\n " + b);
      Associate(a, "\n ", b);
      assert a + ("\n " + b) == a + "\n " + b;
    }
  }

  lemma HeadBefore(a: string, b: string, head: string)
    requires Pr() <= b && FindPr(head) == |head| && head != "" && head[|head| - 1] == ']'
    ensures head <= a + b <==> head <= a
  {
    if |a| < |head| && head <= a + b {
      if |a| + 6 <= |head| {
        HeadHoldsPr(a, b, head);
      } else {
        HeadEndsInPr(a, b, head);
      }
    }
  }

  lemma HeadHoldsPr(a: string, b: string, head: string)
    requires Pr() <= b && |a| + 6 <= |head| && head <= a + b
    ensures FindPr(head) <= |a|
  {
    var k := |a|;
    assert forall i | 0 <= i < 6 :: head[k + i] == (a + b)[k + i] == b[i];
    assert head[k..][..6] == Pr();
    FirstPr(head, k);
  }

  lemma HeadEndsInPr(a: string, b: string, head: string)
    requires Pr() <= b && |a| < |head| < |a| + 6 && head <= a + b
    ensures head[|head| - 1] != ']'
  {
    var i := |head| - 1;
    assert head[i] == (a + b)[i] == b[i - |a|] == Pr()[i - |a|];
  }

  lemma PrAt(s: string, k: nat)
    requires k + 6 <= |s| && s[k..k + 6] == Pr()
    ensures FindPr(s) <= k
    ensures s[k] == ' ' && s[k + 4] == ' '
  {
    var a, b := CutAt(s, k);
    assert b[..6] == s[k..k + 6];
    FirstPr(s, k);
    assert s[k..k + 6][4] == s[k + 4];
  }

  lemma SlicePrefix(head: string, s: string, k: nat, n: nat)
    requires head <= s && k <= n <= |head|
    ensures s[k..n] == head[k..n]
  {
  }

  lemma PrInPrefix(s: string, head: string, k: nat)
    requires head <= s && k + 6 <= |head| && head[k..k + 6] == Pr()
    ensures FindPr(s) <= k
  {
    SlicePrefix(head, s, k, k + 6);
    PrAt(s, k);
  }

  lemma PrInHead(s: string, head: string)
    requires head <= s && FindPr(head) < |head|
    ensures FindPr(s) <= FindPr(head)
  {
    var k := PrPlace(head);
    PrInPrefix(s, head, k);
  }

  lemma PrPlace(s: string) returns (k: nat)
    requires FindPr(s) < |s|
    ensures k == FindPr(s) && k + 6 <= |s| && s[k..k + 6] == Pr()
  {
    FoundPr(s);
    k := FindPr(s);
  }

  lemma HeadBeforeBreak(head: string, a: string, b: string)
    requires '\n' !in head
    ensures head <= a + "\n " + b ==> head <= a + b && |head| <= |a|
  {
    PrefixInPara(head, a, "\n " + b);
    PrefixGrows(head, a, b);
    assert a + ("\n " + b) == a + "\n " + b;
  }

  lemma ReferenceBreaksHead(j: string, head: string)
    requires '\n' !in head && FindPr(head) < |head|
    ensures !(head <= Insert(j))
  {
    if head <= j {
      PrInHead(j, head);
    }
    if FindPr(j) < |j| {
      var a, b := CutAt(j, FindPr(j));
      InsertSplits(j, a, b);
      HeadBeforeBreak(head, a, b);
    }
  }

  /** In an unfilled paragraph the heading of a version is found exactly where the joined text
      starts with it and the version holds no reference mark. */
  lemma HeadOfUnfilled(p: string, version: string)
    requires '\n' !in version && !IsCode(p)
    ensures Head(version) <= Unfilled(p) <==> FindPr(Head(version)) == |Head(version)| && Head(version) <= Join(p)
  {
    UnfilledIs(p);
    if FindPr(Head(version)) == |Head(version)| {
      HeadOfInsert(Join(p), Head(version));
    } else {
      ReferenceBreaksHead(Join(p), Head(version));
    }
  }

  lemma HeadJoins(p: string, head: string)
    requires head <= p && '\n' !in head
    ensures head <= Join(p)
  {
    var a, b := CutAt(p, |head|);
    JoinKeeps(a, b);
  }

  lemma WholeLeads(parts: Parts, head: string)
    requires HasSeps(parts) && '\n' !in head
    ensures head <= Whole(parts) <==> head <= parts.para
  {
    if parts.More? {
      Associate(parts.para, parts.sep, Whole(parts.rest));
      SepStarts(parts.sep, Whole(parts.rest));
      PrefixInPara(head, parts.para, parts.sep + Whole(parts.rest));
    }
  }

  /** Whether head leads a section once that is unfilled, read off its first paragraph. */
  predicate Leads(section: string, head: string) {
    var p := Split(section).para;
    if IsCode(p) then head <= p else FindPr(head) == |head| && head <= Join(p)
  }

  lemma LeadsExact(section: string, version: string)
    requires '\n' !in version
    ensures Head(version) <= section <==> Head(version) <= Split(section).para
    ensures Head(version) <= Process(section) <==> Leads(section, Head(version))
  {
    var parts := Split(section);
    WholeOfSplit(section);
    WellFormedHasSeps(parts);
    WholeLeads(parts, Head(version));
    WholeLeads(UnfillAll(parts), Head(version));
    if IsCode(parts.para) {
      UnfilledIs(parts.para);
    } else {
      HeadOfUnfilled(parts.para, version);
    }
  }

  // ---------- which section is extracted ----------

  /** The index of the first piece that starts with head, or the number of pieces. */
  function PlaceOf(pieces: seq<string>, head: string): (k: nat)
    ensures k <= |pieces|
  {
    if pieces == [] || head <= pieces[0] then 0 else 1 + PlaceOf(pieces[1..], head)
  }

  lemma {:induction false} PlaceIs(pieces: seq<string>, head: string)
    ensures var k := PlaceOf(pieces, head);
            && (k < |pieces| ==> head <= pieces[k])
            && (forall i | 0 <= i < k :: !(head <= pieces[i]))
            && FirstWith(pieces, head) == if k < |pieces| then Some(pieces[k]) else None
  {
    if pieces != [] && !(head <= pieces[0]) {
      PlaceIs(pieces[1..], head);
      assert forall i | 1 <= i < |pieces| :: pieces[i] == pieces[1..][i - 1];
    }
  }

  lemma SamePlace(a: seq<string>, b: seq<string>, head: string)
    requires |a| == |b|
    ensures var k := PlaceOf(a, head);
            PlaceOf(b, head) == k <==> (k < |b| ==> head <= b[k]) && forall i | 0 <= i < k :: !(head <= b[i])
  {
    PlaceIs(a, head);
    PlaceIs(b, head);
  }

  function ProcessSection(section: Option<string>): Option<string> {
    if section.Some? then Some(Process(section.value)) else None
  }

  lemma MapProcessAt(pieces: seq<string>, i: nat)
    requires i < |pieces|
    ensures MapProcess(pieces)[i] == Process(pieces[i])
  {
  }

  /** Where no heading is torn, unfilling first and extracting first find the same section exactly when
      unfilling keeps the heading of that section and gives it to none before; then they return the same. */
  lemma ExtractExact(text: string, version: string)
    requires '\n' !in version && HeadingsLead(Split(text)) && TornHeadings(Split(text)) == 0
    ensures var sections, head := SectionsOf(text), Head(version);
            var k := PlaceOf(sections, head);
            PlaceOf(SectionsOf(Process(text)), head) == k
            <==> (k < |sections| ==> Leads(sections[k], head)) && forall i | 0 <= i < k :: !Leads(sections[i], head)
    ensures PlaceOf(SectionsOf(Process(text)), Head(version)) == PlaceOf(SectionsOf(text), Head(version)) ==>
              ExtractSection(Process(text), version) == ProcessSection(ExtractSection(text, version))
  {
    var sections, head := SectionsOf(text), Head(version);
    SectionsCommute(text);
    ExtractIsFirstSection(text, version);
    ExtractIsFirstSection(Process(text), version);
    PlaceIs(sections, head);
    PlaceIs(MapProcess(sections), head);
    SamePlace(sections, MapProcess(sections), head);
    forall i | 0 <= i < |sections|
      ensures MapProcess(sections)[i] == Process(sections[i])
      ensures head <= MapProcess(sections)[i] <==> Leads(sections[i], head)
    {
      MapProcessAt(sections, i);
      LeadsExact(sections[i], version);
    }
  }

  /** Extraction commutes with unfilling when no heading is torn and unfilling neither completes nor
      breaks the heading asked for in any section. */
  lemma ExtractCommutes(text: string, version: string)
    requires '\n' !in version && HeadingsLead(Split(text)) && TornHeadings(Split(text)) == 0
    requires forall s | s in SectionsOf(text) :: Leads(s, Head(version)) <==> Head(version) <= s
    ensures ExtractSection(Process(text), version) == ProcessSection(ExtractSection(text, version))
  {
    PlaceIs(SectionsOf(text), Head(version));
    ExtractExact(text, version);
  }

  // ---------- versions without a space ----------

  lemma PlainHead(version: string)
    requires ' ' !in version
    ensures forall i | 3 <= i < |Head(version)| :: Head(version)[i] != ' '
    ensures FindPr(Head(version)) == |Head(version)|
  {
    var head := Head(version);
    assert head == Mark() + version + "]";
    forall i | 3 <= i < |head|
      ensures head[i] != ' '
    {
      if 4 <= i < |head| - 1 {
        assert head[i] == version[i - 4] && version[i - 4] in version;
      }
    }
    FoundPr(head);
    if FindPr(head) < |head| {
      PrAt(head, FindPr(head));
    }
  }

  lemma BreakShows(a: string, b: string)
    requires '\n' !in a && b != "" && b[0] == '\n'
    ensures |Join(a + b)| > |a| && (Join(a + b)[|a|] == ' ' || Join(a + b)[|a|] == '\n')
  {
    JoinKeeps(a, b);
  }

  lemma SharedChar(head: string, s: string, i: nat)
    requires head <= s
    ensures i < |head| ==> head[i] == s[i] && head[i] in head
  {
  }

  predicate NotNewline(c: char) {
    c != '\n'
  }

  lemma PlainSpelled(p: string, head: string)
    requires Mark() <= head && '\n' !in head && forall i | 3 <= i < |head| :: head[i] != ' '
    requires TornCount(p, true) == 0 && head <= Join(p)
    ensures head <= p
  {
    MarkOfJoin(p);
    MarkParts(p);
    MarkParts(head);
    var n := Run(p, NotNewline);
    var a, b := CutAt(p, n);
    assert forall i | 0 <= i < |a| :: a[i] == p[i];
    if b == "" {
      JoinKeeps(a, "");
      assert a + "" == a;
    } else {
      BreakShows(a, b);
      SharedChar(head, Join(p), |a|);
      JoinKeeps(a, b);
    }
  }

  lemma OneHeading(section: string)
    requires IsSection(section)
    ensures Count(section, true) == 1
  {
    FirstCharacter(section);
    FindIsCount(section[1..], false);
  }

  /** No section of a text without torn headings holds one. */
  lemma SectionsUntorn(text: string, i: nat)
    requires HeadingsLead(Split(text)) && TornHeadings(Split(text)) == 0 && i < |SectionsOf(text)|
    ensures TornHeadings(Split(SectionsOf(text)[i])) == 0
  {
    var s := SectionsOf(text)[i];
    SectionsCommute(text);
    MapProcessAt(SectionsOf(text), i);
    SectionsPartition(text);
    SectionsPartition(Process(text));
    assert SectionsOf(Process(text))[i] in SectionsOf(Process(text));
    OneHeading(s);
    OneHeading(Process(s));
    HeadingsKept(s);
  }

  lemma PlainLeads(section: string, version: string)
    requires '\n' !in version && ' ' !in version && TornHeadings(Split(section)) == 0
    ensures Leads(section, Head(version)) <==> Head(version) <= section
  {
    var p, head := Split(section).para, Head(version);
    PlainHead(version);
    LeadsExact(section, version);
    if !IsCode(p) {
      if head <= Join(p) {
        PlainSpelled(p, head);
      }
      if head <= p {
        HeadJoins(p, head);
      }
    }
  }

  /** For a version without a space it is enough that heading lines begin paragraphs and none is torn. */
  lemma ExtractCommutesPlain(text: string, version: string)
    requires '\n' !in version && ' ' !in version
    requires HeadingsLead(Split(text)) && TornHeadings(Split(text)) == 0
    ensures ExtractSection(Process(text), version) == ProcessSection(ExtractSection(text, version))
  {
    var sections := SectionsOf(text);
    forall s | s in sections
      ensures Leads(s, Head(version)) <==> Head(version) <= s
    {
      var i :| 0 <= i < |sections| && sections[i] == s;
      SectionsUntorn(text, i);
      PlainLeads(s, version);
    }
    ExtractCommutes(text, version);
  }

  // ---------- why the conditions are there ----------

  /** A heading line broken after a, with b on an indented second line. */
  predicate Broken(a: string, b: string) {
    && a != "" && a[0] == '#' && b != "" && (b[0] == '[' || b[0] == 'b')
    && (forall i | 0 <= i < |a| :: InLine(a[i]) && a[i] != '(')
    && (forall i | 0 <= i < |b| :: InLine(b[i]) && b[i] != '(')
  }

  lemma BrokenJoin(a: string, b: string)
    requires Broken(a, b)
    ensures Join(a + ("\n " + b)) == a + (" " + b)
  {
    var u := "\n " + b;
    JoinKeeps(a, u);
    assert u[1..] == " " + b && u[2..] == b;
    RunIs(" ", b, IsBlank);
    JoinKeeps(b, "");
    assert b + "" == b;
  }

  lemma BrokenLines(a: string, b: string)
    requires Broken(a, b)
    ensures SplitLines(a + ("\n " + b)) == [a, " " + b]
  {
    var u := "\n " + b;
    RunIs(a, u, InLine);
    assert (a + u)[|a| + 1..] == " " + b && (a + u)[..|a|] == a;
    OneLine(" " + b);
    assert [a] + [" " + b] == [a, " " + b];
  }

  lemma BrokenIsText(a: string, b: string)
    requires Broken(a, b)
    ensures !IsCode(a + ("\n " + b))
  {
    BrokenLines(a, b);
    RunIs(" ", b, IsSpace);
    RunIs(" ", b, IsBlank);
    assert a == "" + a;
    RunIs("", a, IsSpace);
    RunIs("", a, IsBlank);
    assert (" " + b)[1..] == b && a[0..] == a;
  }

  lemma HasParenthesis(s: string)
    ensures Pr() <= s ==> '(' in s
  {
    if Pr() <= s {
      assert s[1] == '(';
    }
  }

  lemma {:induction false} NoReference(s: string)
    requires '(' !in s
    ensures FindPr(s) == |s|
  {
    if s != "" {
      NoReference(s[1..]);
      HasParenthesis(s);
    }
  }

  lemma {:induction false} CalmParts(a: string, b: string)
    requires '\n' !in a && Calm(b)
    ensures Calm(a + b)
  {
    if a == "" {
      assert a + b == b;
    } else {
      assert (a + b)[1..] == a[1..] + b;
      CalmParts(a[1..], b);
    }
  }

  lemma BrokenSplit(a: string, b: string)
    requires Broken(a, b)
    ensures Split(a + ("\n " + b)) == Final(a + ("\n " + b))
  {
    var u := "\n " + b;
    assert u[1..] == " " + b;
    RunIs(" ", b, IsBlank);
    assert u[2..] == b && u[1..][1..] == b;
    NoBreakIsCalm(b);
    CalmParts(a, u);
    SplitOfWhole(Final(a + u));
  }

  /** Unfilling puts the line together again. */
  lemma BrokenProcess(a: string, b: string)
    requires Broken(a, b)
    ensures Process(a + ("\n " + b)) == a + (" " + b)
  {
    BrokenSplit(a, b);
    BrokenJoin(a, b);
    BrokenIsText(a, b);
    NoParenthesis(a, b);
    NoReference(a + (" " + b));
    SoleParagraph(a + ("\n " + b), a + (" " + b));
  }

  lemma NoParenthesis(a: string, b: string)
    requires '(' !in a && '(' !in b
    ensures '(' !in a + (" " + b)
  {
  }

  lemma SoleParagraph(p: string, j: string)
    requires Split(p) == Final(p) && p != "" && !IsCode(p) && Join(p) == j && FindPr(j) == |j|
    ensures Process(p) == j
  {
  }

  lemma FoundAlone(s: string, version: string)
    requires s == Head(version)
    ensures ExtractSection(s, version) == Some(s)
  {
    assert s[0..] == s && s[|s|..] == "";
  }

  /** What stands after the first line of a broken heading is no heading. */
  lemma BrokenTail(a: string, b: string, prefix: string)
    requires Broken(a, b) && Mark() <= prefix
    ensures FindLine((a + ("\n " + b))[1..], prefix, false) == None
  {
    var u := "\n " + b;
    assert (a + u)[1..] == a[1..] + u;
    PassLine(a[1..], u, prefix);
    assert u[1..] == " " + b && (" " + b)[1..] == b;
    PassLine(b, "", prefix);
    assert b + "" == b;
  }

  lemma BrokenNotFound(a: string, b: string, version: string)
    requires Broken(a, b) && !(Head(version) <= a + ("\n " + b))
    ensures ExtractSection(a + ("\n " + b), version) == None
  {
    BrokenTail(a, b, Head(version));
    NotHere(a + ("\n " + b), Head(version));
  }

  /** A heading spelled over a line break is found after unfilling only. */
  lemma BrokenHeadAppears(a: string, b: string, version: string)
    requires Broken(a, b) && Head(version) == a + (" " + b)
    ensures ExtractSection(a + ("\n " + b), version) == None
    ensures ExtractSection(Process(a + ("\n " + b)), version) == Some(Head(version))
  {
    BrokenProcess(a, b);
    FoundAlone(Head(version), version);
    assert (a + ("\n " + b))[|a|] == '\n' && (a + (" " + b))[|a|] == ' ';
    BrokenNotFound(a, b, version);
  }

  /** A torn heading becomes one: this version is found after unfilling only. */
  lemma TornHeadingAppears()
    ensures ExtractSection("##" + ("\n " + "[1]"), "1") == None
    ensures ExtractSection(Process("##" + ("\n " + "[1]")), "1") == Some(Head("1"))
  {
    assert Head("1") == "##" + (" " + "[1]");
    BrokenHeadAppears("##", "[1]", "1");
  }

  /** Without a torn heading, a version with a space can still be spelled over a line break. */
  lemma SpacedVersionAppears()
    ensures HeadingsLead(Split("## [a" + ("\n " + "b]"))) && TornHeadings(Split("## [a" + ("\n " + "b]"))) == 0
    ensures ExtractSection("## [a" + ("\n " + "b]"), "a b") == None
    ensures ExtractSection(Process("## [a" + ("\n " + "b]")), "a b") == Some(Head("a b"))
  {
    assert Head("a b") == "## [a" + (" " + "b]");
    BrokenHeadAppears("## [a", "b]", "a b");
    BrokenUntorn("## [a", "b]");
  }

  lemma BrokenUntorn(a: string, b: string)
    requires Broken(a, b) && Mark() <= a
    ensures HeadingsLead(Split(a + ("\n " + b))) && TornHeadings(Split(a + ("\n " + b))) == 0
  {
    BrokenProcess(a, b);
    BrokenSplit(a, b);
    BrokenTail(a, b, Mark());
    NoBreakIn(a);
    NoBreakIn(b);
    OneSectionUntorn(a + ("\n " + b), a + (" " + b));
  }

  lemma NoBreakIn(s: string)
    requires forall i | 0 <= i < |s| :: InLine(s[i])
    ensures '\n' !in s
  {
  }

  /** Unfilling one heading line into one heading line tears none. */
  lemma OneSectionUntorn(text: string, after: string)
    requires Mark() <= text && FindLine(text[1..], Mark(), false) == None && Process(text) == after && Split(text) == Final(text)
    requires Mark() <= after && '\n' !in after
    ensures HeadingsLead(Split(text)) && TornHeadings(Split(text)) == 0
  {
    FirstCharacter(text);
    OneHeading(text);
    assert forall c | c in after[1..] :: c in after;
    PassLine(after[1..], "", Mark());
    assert after[1..] + "" == after[1..];
    OneHeading(after);
    HeadingsKept(text);
  }
}
