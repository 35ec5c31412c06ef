/** `process` of pipecat/scripts/release-changelog.py and what it leaves alone. */
module Changelog {
  import opened Text
  import opened Paragraphs
  import opened Unfill
  import opened CodeBlocks
  import opened Entries
  import opened InCharacters

  function Unfilled(para: string): string {
    if para != "" && !IsCode(para) then UnfillEntry(para) else para
  }

  /** The parts with f applied to each paragraph. */
  function Map(f: string -> string, parts: Parts): Parts {
    match parts
    case Final(para) => Final(f(para))
    case More(para, sep, rest) => More(f(para), sep, Map(f, rest))
  }

  function UnfillAll(parts: Parts): Parts {
    Map(Unfilled, parts)
  }

  function Process(text: string): string {
    Whole(UnfillAll(Split(text)))
  }

  // ---------- the loop that overwrites parts[i] ----------

  /** The list as Python sees it: paragraphs at even indexes, separators at odd ones. */
  function Flat(parts: Parts): seq<string> {
    match parts
    case Final(para) => [para]
    case More(para, sep, rest) => [para, sep] + Flat(rest)
  }

  function Concat(list: seq<string>): string {
    if list == [] then "" else list[0] + Concat(list[1..])
  }

  lemma {:induction false} ConcatFlat(parts: Parts)
    ensures Concat(Flat(parts)) == Whole(parts)
  {
    match parts
    case Final(para) =>
      assert Flat(parts)[1..] == [] && para + "" == para;
    case More(para, sep, rest) =>
      ConcatFlat(rest);
      var list := Flat(parts);
      assert list[1..] == [sep] + Flat(rest) && list[1..][1..] == Flat(rest);
      Associate(para, sep, Whole(rest));
  }

  lemma {:induction false} FlatMap(f: string -> string, parts: Parts, i: nat)
    requires i < |Flat(parts)|
    ensures |Flat(Map(f, parts))| == |Flat(parts)|
    ensures Flat(Map(f, parts))[i] == if i % 2 == 0 then f(Flat(parts)[i]) else Flat(parts)[i]
  {
    if parts.More? {
      var rest := parts.rest;
      FlatMap(f, rest, if i >= 2 then i - 2 else 0);
      if i >= 2 {
        Second(parts.para, parts.sep, Flat(rest), i);
        Second(f(parts.para), parts.sep, Flat(Map(f, rest)), i);
        assert (i - 2) % 2 == i % 2;
      }
    }
  }

  lemma Second(a: string, b: string, list: seq<string>, i: nat)
    requires 2 <= i < 2 + |list|
    ensures ([a, b] + list)[i] == list[i - 2]
  {
  }

  /** after is list with f applied to its even positions. */
  ghost predicate Overwrites(f: string -> string, list: seq<string>, after: seq<string>) {
    && |after| == |list|
    && forall i {:trigger after[i]} | 0 <= i < |list| :: after[i] == if i % 2 == 0 then f(list[i]) else list[i]
  }

  lemma MapOverwrites(f: string -> string, parts: Parts)
    ensures Overwrites(f, Flat(parts), Flat(Map(f, parts)))
  {
    FlatMap(f, parts, 0);
    forall i | 0 <= i < |Flat(parts)|
      ensures Flat(Map(f, parts))[i] == if i % 2 == 0 then f(Flat(parts)[i]) else Flat(parts)[i]
    {
      FlatMap(f, parts, i);
    }
  }

  lemma NextPart(f: string -> string, list: seq<string>, after: seq<string>, i: nat)
    requires Overwrites(f, list, after) && i < |list| && i % 2 == 0
    ensures var now := after[..i] + list[i..];
            now[i := f(now[i])] == if i + 2 <= |list| then after[..i + 2] + list[i + 2..] else after
  {
    var now := after[..i] + list[i..];
    assert now[i] == list[i] && after[i] == f(now[i]);
    if i + 2 <= |list| {
      assert after[i + 1] == list[i + 1];
      assert now[i := after[i]] == after[..i + 2] + list[i + 2..];
    } else {
      assert now[i := after[i]] == after;
    }
  }

  lemma EntriesChange(text: string)
    ensures var before, after := Flat(Split(text)), Flat(UnfillAll(Split(text)));
            && Concat(before) == text && Concat(after) == Process(text) && |after| == |before|
            && forall i {:trigger after[i]} | 0 <= i < |before| ::
                 after[i] == if i % 2 == 1 || IsCode(before[i]) then before[i] else UnfillEntry(before[i])
  {
    var before, after := Flat(Split(text)), Flat(UnfillAll(Split(text)));
    WholeOfSplit(text);
    ConcatFlat(Split(text));
    ConcatFlat(UnfillAll(Split(text)));
    MapOverwrites(Unfilled, Split(text));
    forall i | 0 <= i < |before|
      ensures after[i] == if i % 2 == 1 || IsCode(before[i]) then before[i] else UnfillEntry(before[i])
    {
      UnfilledIs(before[i]);
      assert after[i] == if i % 2 == 0 then Unfilled(before[i]) else before[i];
    }
  }

  /** The text before and after, cut at the same places: separators and code blocks come out character for
      character, every other paragraph, none of which holds a blank line, comes out unfilled. */
  lemma OnlyEntriesChange(text: string)
    ensures var before, after := Flat(Split(text)), Flat(UnfillAll(Split(text)));
            && Concat(before) == text && Concat(after) == Process(text) && |after| == |before|
            && forall i {:trigger after[i]} | 0 <= i < |before| ::
                 && after[i] == (if i % 2 == 1 || CodeText(before[i]) then before[i] else UnfillEntry(before[i]))
                 && (if i % 2 == 0 then NoBlankLine(before[i]) else exists b: nat :: SepText(before[i], b))
  {
    var before := Flat(Split(text));
    EntriesChange(text);
    SplitInCharacters(text, Split(text));
    forall i | 0 <= i < |before|
      ensures IsCode(before[i]) <==> CodeText(before[i])
      ensures if i % 2 == 0 then NoBlankLine(before[i]) else exists b: nat :: SepText(before[i], b)
    {
      CodeExact(before[i]);
      FlatPieces(Split(text), i);
    }
  }

  lemma NoBlankInside(para: string)
    requires NoBlankLine(para + "\n")
    ensures NoBlankLine(para)
  {
    SolidIsCalmBefore(para);
    CalmExact(para + "\n");
    CalmExact(para);
    SolidIsCalm(para);
  }

  lemma {:induction false} FlatPieces(parts: Parts, i: nat)
    requires WellText(parts) && i < |Flat(parts)|
    ensures if i % 2 == 0 then NoBlankLine(Flat(parts)[i]) else exists b: nat :: SepText(Flat(parts)[i], b)
  {
    if parts.More? {
      if i == 0 {
        NoBlankInside(parts.para);
      } else if i >= 2 {
        FlatPieces(parts.rest, i - 2);
        Second(parts.para, parts.sep, Flat(parts.rest), i);
      }
    }
  }

  // ---------- one paragraph ----------

  /** A text without a blank line is one paragraph: it is kept if it is a code block, and else unfilled. */
  lemma ParagraphProcessed(text: string)
    requires NoBlankLine(text)
    ensures Process(text) == if CodeText(text) then text else UnfillEntry(text)
  {
    assert Whole(Final(text)) == text;
    SplitInCharacters(text, Final(text));
    CodeExact(text);
  }

  /** Deeply indented text without list items is kept. */
  lemma DeepKept(text: string, i: nat)
    requires NoBlankLine(text) && DeepAt(text, i) && !HasItem(text)
    ensures Process(text) == text
  {
    ParagraphProcessed(text);
  }

  /** Text with a fence is kept. */
  lemma FencedKept(text: string, i: nat, j: nat)
    requires NoBlankLine(text) && FenceAt(text, i, j)
    ensures Process(text) == text
  {
    ParagraphProcessed(text);
  }

  /** Text with neither, and text with a list item and no fence, is unfilled. */
  lemma OtherUnfilled(text: string)
    requires NoBlankLine(text) && !HasFenceLine(text) && (HasDeep(text) ==> HasItem(text))
    ensures Process(text) == UnfillEntry(text)
  {
    ParagraphProcessed(text);
  }

  lemma UnfilledIs(para: string)
    ensures Unfilled(para) == if IsCode(para) then para else UnfillEntry(para)
  {
    assert UnfillEntry("") == "";
  }

  method UnfillPart(parts: array<string>, i: nat)
    requires i < parts.Length
    modifies parts
    ensures parts[..] == old(parts[..])[i := Unfilled(old(parts[i]))]
  {
    var para := parts[i];
    if para != "" && !IsCode(para) {
      parts[i] := UnfillEntry(para);
    }
  }

  /** The loop of `process`. */
  method UnfillEach(parts: array<string>, ghost after: seq<string>)
    requires Overwrites(Unfilled, parts[..], after)
    modifies parts
    ensures parts[..] == after
  {
    ghost var list := parts[..];
    assert after[..0] + list[0..] == list;
    var i := 0;
    while i < parts.Length
      invariant i % 2 == 0 && i <= parts.Length + 1
      invariant parts[..] == if i <= |list| then after[..i] + list[i..] else after
    {
      NextPart(Unfilled, list, after, i);
      UnfillPart(parts, i);
      i := i + 2;
    }
  }

  /** The body of `process`: the list of parts is overwritten in place. */
  method ProcessInPlace(text: string) returns (result: string)
    ensures result == Process(text)
  {
    var list := Flat(Split(text));
    var parts := new string[|list|](i requires 0 <= i < |list| => list[i]);
    assert parts[..] == list;
    MapOverwrites(Unfilled, Split(text));
    UnfillEach(parts, Flat(UnfillAll(Split(text))));
    ConcatFlat(UnfillAll(Split(text)));
    result := Concat(parts[..]);
  }

  // ---------- content ----------

  /** The characters of s other than space, tab and line feed. */
  function Ink(s: string): string {
    if s == "" then ""
    else (if IsBlank(s[0]) || s[0] == '\n' then "" else [s[0]]) + Ink(s[1..])
  }

  lemma {:induction false} InkAppend(a: string, b: string)
    ensures Ink(a + b) == Ink(a) + Ink(b)
  {
    if a == "" {
      assert a + b == b;
    } else {
      assert (a + b)[1..] == a[1..] + b;
      InkAppend(a[1..], b);
    }
  }

  lemma {:induction false} InkBlank(s: string)
    requires forall i | 0 <= i < |s| :: IsBlank(s[i]) || s[i] == '\n'
    ensures Ink(s) == ""
  {
    if s != "" {
      InkBlank(s[1..]);
    }
  }

  lemma {:induction false} InkJoin(s: string)
    ensures Ink(Join(s)) == Ink(s)
    decreases |s|
  {
    if s == "" {
    } else if JoinLen(s) > 0 {
      var n := JoinLen(s);
      var a, b := CutAt(s, n);
      InkJoin(b);
      assert forall i | 1 <= i < n :: a[i] == s[1..][i - 1];
      InkBlank(a);
      InkBlank(" ");
      InkAppend(a, b);
      InkAppend(" ", Join(b));
    } else {
      InkJoin(s[1..]);
      assert Join(s)[1..] == Join(s[1..]);
    }
  }

  lemma InkInsert(s: string)
    ensures Ink(Insert(s)) == Ink(s)
  {
    if FindPr(s) < |s| {
      var a, b := CutAt(s, FindPr(s));
      InsertSplits(s, a, b);
      InkBlank("\n ");
      InkAppend(a, "\n ");
      InkAppend(a + "\n ", b);
      InkAppend(a, b);
    }
  }

  lemma InkUnfilled(para: string)
    ensures Ink(Unfilled(para)) == Ink(para)
  {
    InkJoin(para);
    InkInsert(Join(para));
  }

  lemma {:induction false} InkUnfillAll(parts: Parts)
    ensures Ink(Whole(UnfillAll(parts))) == Ink(Whole(parts))
  {
    InkUnfilled(parts.para);
    if parts.More? {
      var para := parts.para;
      InkUnfillAll(parts.rest);
      InkAppend(para + parts.sep, Whole(parts.rest));
      InkAppend(para, parts.sep);
      InkAppend(Unfilled(para) + parts.sep, Whole(UnfillAll(parts.rest)));
      InkAppend(Unfilled(para), parts.sep);
    }
  }

  /** Unfilling moves white space only. */
  lemma ContentKept(text: string)
    ensures Ink(Process(text)) == Ink(text)
  {
    WholeOfSplit(text);
    InkUnfillAll(Split(text));
  }

  // ---------- line breaks ----------

  function Breaks(s: string): nat {
    if s == "" then 0 else (if s[0] == '\n' then 1 else 0) + Breaks(s[1..])
  }

  lemma {:induction false} BreaksAppend(a: string, b: string)
    ensures Breaks(a + b) == Breaks(a) + Breaks(b)
  {
    if a == "" {
      assert a + b == b;
    } else {
      assert (a + b)[1..] == a[1..] + b;
      BreaksAppend(a[1..], b);
    }
  }

  lemma {:induction false} BreaksJoin(s: string)
    ensures Breaks(Join(s)) <= Breaks(s)
    decreases |s|
  {
    if s == "" {
    } else if JoinLen(s) > 0 {
      var a, b := CutAt(s, JoinLen(s));
      BreaksJoin(b);
      BreaksAppend(a, b);
      BreaksAppend(" ", Join(b));
    } else {
      BreaksJoin(s[1..]);
      assert Join(s)[1..] == Join(s[1..]);
    }
  }

  /** After the join, unfilling adds one line break, before the first reference, or none. */
  lemma UnfillAddsOneBreak(p: string)
    ensures Breaks(UnfillEntry(p)) == Breaks(Join(p)) + (if FindPr(Join(p)) < |Join(p)| then 1 else 0) <= Breaks(p) + 1
  {
    BreaksJoin(p);
    var j := Join(p);
    if FindPr(j) < |j| {
      var a, b := CutAt(j, FindPr(j));
      InsertSplits(j, a, b);
      BreaksAppend(a, "\n ");
      BreaksAppend(a + "\n ", b);
      BreaksAppend(a, b);
    }
  }
}
