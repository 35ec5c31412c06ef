/** `is_code_block_paragraph` of pipecat/scripts/release-changelog.py. */
module CodeBlocks {
  import opened Text
  import opened Unfill

  /** The line boundaries of `str.splitlines`. */
  predicate IsLineBreak(c: char) {
    var n := c as int;
    0x0a <= n <= 0x0d || 0x1c <= n <= 0x1e || n == 0x85 || n == 0x2028 || n == 0x2029
  }

  predicate InLine(c: char) {
    !IsLineBreak(c)
  }

  /** `s.splitlines()`, except that a carriage return and line feed count as two boundaries: the
      empty line between them passes none of the tests below. */
  function SplitLines(s: string): seq<string> {
    if s == "" then []
    else
      var n := Run(s, InLine);
      if n == |s| then [s] else [s[..n]] + SplitLines(s[n + 1..])
  }

  /** `^\s*` followed by three backquotes. */
  predicate Fence(line: string) {
    "```" <= line[Run(line, IsSpace)..]
  }

  /** `^ {4,}` */
  predicate Deep(line: string) {
    "    " <= line
  }

  predicate IsCode(paragraph: string) {
    var lines := SplitLines(paragraph);
    if exists i | 0 <= i < |lines| :: Fence(lines[i]) then true
    else if exists i | 0 <= i < |lines| :: Marker(lines[i]) then false
    else exists i | 0 <= i < |lines| :: Deep(lines[i])
  }

  /** A leading line break does not change the classification. */
  lemma IsCodeAfterBreak(s: string)
    ensures IsCode("\n" + s) == IsCode(s)
  {
    var lines := SplitLines(s);
    assert ("\n" + s)[..0] == "" && ("\n" + s)[0 + 1..] == s;
    assert SplitLines("\n" + s) == [""] + lines;
    assert !Fence("") && !Marker("") && !Deep("");
    forall i | 0 <= i < |lines|
      ensures ([""] + lines)[i + 1] == lines[i]
    {
    }
    Shifted(lines, Fence);
    Shifted(lines, Marker);
    Shifted(lines, Deep);
  }

  lemma Shifted(lines: seq<string>, p: string -> bool)
    requires !p("")
    ensures (exists i | 0 <= i < |[""] + lines| :: p(([""] + lines)[i])) <==> exists i | 0 <= i < |lines| :: p(lines[i])
  {
    var longer := [""] + lines;
    if i :| 0 <= i < |longer| && p(longer[i]) {
      assert longer[i] == lines[i - 1];
    }
    if i :| 0 <= i < |lines| && p(lines[i]) {
      assert longer[i + 1] == lines[i];
    }
  }

  lemma OneLine(s: string)
    requires s != "" && forall i | 0 <= i < |s| :: InLine(s[i])
    ensures SplitLines(s) == [s]
  {
    assert s + "" == s;
    RunIs(s, "", InLine);
  }
}
