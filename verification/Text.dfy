/** Options and the character classes shared by the string models. */
module Text {

  datatype Option<+T> = None | Some(value: T) {
    predicate IsFailure() {
      None?
    }

    function PropagateFailure<U>(): Option<U>
      requires None?
    {
      None
    }

    function Extract(): T
      requires Some?
    {
      value
    }
  }

  /** A recognised value together with the text that follows it. */
  datatype Parsed<+T> = Parsed(value: T, rest: string)

  /** The class [ \t] of the regular expressions. */
  predicate IsBlank(c: char) {
    c == ' ' || c == '\t'
  }

  /** Python's `\s` on text: every character for which `str.isspace` holds. */
  predicate IsSpace(c: char) {
    var n := c as int;
    || 0x09 <= n <= 0x0d || 0x1c <= n <= 0x20 || n == 0x85 || n == 0xa0 || n == 0x1680
    || 0x2000 <= n <= 0x200a || n == 0x2028 || n == 0x2029 || n == 0x202f || n == 0x205f || n == 0x3000
  }

  predicate IsDigit(c: char) {
    '0' <= c <= '9'
  }

  /** True if s begins with prefix. */
  predicate StartsWith(s: string, prefix: string) {
    prefix <= s
  }

  /** The number of leading characters of s that satisfy p: what a greedy `[...]*` consumes. */
  function Run(s: string, p: char -> bool): (n: nat)
    ensures n <= |s|
    ensures forall i | 0 <= i < n :: p(s[i])
    ensures n < |s| ==> !p(s[n])
  {
    if s == "" || !p(s[0]) then 0 else 1 + Run(s[1..], p)
  }

  /** A run is fixed by where it stops, whatever follows. */
  lemma RunIs(a: string, b: string, p: char -> bool)
    requires forall i | 0 <= i < |a| :: p(a[i])
    requires b == "" || !p(b[0])
    ensures Run(a + b, p) == |a|
  {
    assert forall i | 0 <= i < |a| :: (a + b)[i] == a[i];
    assert b != "" ==> (a + b)[|a|] == b[0];
  }

  // ---------- concatenation ----------

  lemma Associate<T>(a: seq<T>, b: seq<T>, c: seq<T>)
    ensures a + b + c == a + (b + c)
  {
  }

  lemma Regroup<T>(a: seq<T>, b: seq<T>, c: seq<T>, d: seq<T>)
    ensures a + (b + c) + d == a + b + (c + d)
    ensures a + (b + c) + d == a + (b + (c + d))
  {
  }

  // ---------- file names ----------

  /** `rfind('.')`, or -1. */
  function LastDot(name: string): (i: int)
    ensures -1 <= i < |name|
    ensures i >= 0 ==> name[i] == '.'
  {
    if name == "" then -1
    else if name[|name| - 1] == '.' then |name| - 1
    else LastDot(name[..|name| - 1])
  }

  /** `PurePath.suffix`. */
  function Suffix(name: string): string {
    var i := LastDot(name);
    if 0 < i < |name| - 1 then name[i..] else ""
  }

  lemma {:induction false} LastDotIs(s: string, t: string)
    requires t != "" && '.' !in t
    ensures LastDot(s + "." + t) == |s|
  {
    var name := s + "." + t;
    if |t| == 1 {
      assert name[..|name| - 1] == s + ".";
    } else {
      assert name[..|name| - 1] == s + "." + t[..|t| - 1];
      LastDotIs(s, t[..|t| - 1]);
    }
  }

  /** name is ext behind a stem that is not empty. */
  predicate EndsAs(name: string, ext: string) {
    |ext| < |name| && name[|name| - |ext|..] == ext
  }

  lemma SuffixOf(stem: string, extension: string)
    requires stem != "" && extension != "" && '.' !in extension
    ensures Suffix(stem + "." + extension) == "." + extension
  {
    var name := stem + "." + extension;
    LastDotIs(stem, extension);
    assert name[|stem|..] == "." + extension;
  }

  /** Which names have a given suffix. */
  lemma SuffixExact(name: string, ext: string, extension: string)
    requires ext == "." + extension && extension != "" && '.' !in extension
    ensures Suffix(name) == ext <==> EndsAs(name, ext)
  {
    if EndsAs(name, ext) {
      var stem := name[..|name| - |ext|];
      assert name == stem + "." + extension;
      SuffixOf(stem, extension);
    }
  }
}
