/** Relative POSIX paths: `relative_path` of scripts/fetch_pocket_tts.py. */
module Paths {
  import opened Text

  /** A path as the list of its components below the file system root. */
  type Path = seq<string>

  /** `s.split(c)`. */
  function SplitOn(s: string, c: char): (parts: seq<string>)
    ensures parts != []
  {
    if s == "" then [""]
    else
      var parts := SplitOn(s[1..], c);
      if s[0] == c then [""] + parts else [[s[0]] + parts[0]] + parts[1..]
  }

  /** `c.join(parts)`. */
  function JoinOn(parts: seq<string>, c: char): string {
    if parts == [] then ""
    else if |parts| == 1 then parts[0]
    else parts[0] + [c] + JoinOn(parts[1..], c)
  }

  lemma {:induction false} JoinOfSplit(s: string, c: char)
    ensures JoinOn(SplitOn(s, c), c) == s
  {
    if s != "" {
      var parts := SplitOn(s[1..], c);
      JoinOfSplit(s[1..], c);
      if s[0] == c {
        assert ([""] + parts)[1..] == parts;
        assert "" + [c] + s[1..] == s;
      } else {
        JoinHead(s[0], parts, c);
        assert [s[0]] + s[1..] == s;
      }
    }
  }

  lemma JoinHead(x: char, parts: seq<string>, c: char)
    requires parts != []
    ensures JoinOn([[x] + parts[0]] + parts[1..], c) == [x] + JoinOn(parts, c)
  {
    var longer := [[x] + parts[0]] + parts[1..];
    assert longer[1..] == parts[1..];
    if |parts| > 1 {
      assert [x] + parts[0] + [c] + JoinOn(parts[1..], c) == [x] + (parts[0] + [c] + JoinOn(parts[1..], c));
    }
  }

  lemma {:induction false} SplitPlain(s: string, c: char)
    requires c !in s
    ensures SplitOn(s, c) == [s]
  {
    if s != "" {
      SplitPlain(s[1..], c);
      assert [s[0]] + s[1..] == s;
    }
  }

  lemma {:induction false} SplitFirst(s: string, c: char, t: string)
    requires c !in s
    ensures SplitOn(s + [c] + t, c) == [s] + SplitOn(t, c)
  {
    if s == "" {
      assert ("" + [c] + t)[1..] == t && ("" + [c] + t)[0] == c;
    } else {
      assert (s + [c] + t)[1..] == s[1..] + [c] + t;
      SplitFirst(s[1..], c, t);
      assert [s[0]] + s[1..] == s;
    }
  }

  /** Parts without the separator can be recovered from their join. */
  lemma {:induction false} SplitOfJoin(parts: seq<string>, c: char)
    requires parts != [] && forall p | p in parts :: c !in p
    ensures SplitOn(JoinOn(parts, c), c) == parts
  {
    if |parts| == 1 {
      SplitPlain(parts[0], c);
    } else {
      SplitOfJoin(parts[1..], c);
      SplitFirst(parts[0], c, JoinOn(parts[1..], c));
    }
  }

  lemma {:induction false} SplitHasNone(s: string, c: char)
    ensures forall p | p in SplitOn(s, c) :: c !in p
  {
    if s != "" {
      SplitHasNone(s[1..], c);
    }
  }

  // ---------- PurePosixPath ----------

  /** The components that PurePosixPath keeps. */
  function Keep(parts: seq<string>): (kept: seq<string>)
    ensures forall p | p in kept :: p in parts && p != "" && p != "."
  {
    if parts == [] then []
    else (if parts[0] == "" || parts[0] == "." then [] else [parts[0]]) + Keep(parts[1..])
  }

  function Parts(value: string): seq<string> {
    Keep(SplitOn(value, '/'))
  }

  predicate IsAbsolute(value: string) {
    value != "" && value[0] == '/'
  }

  /** `str(PurePosixPath(value))` for a relative value. */
  function Normalized(value: string): string {
    if Parts(value) == [] then "." else JoinOn(Parts(value), '/')
  }

  /** `relative_path`; None is the ValueError. */
  function RelativePath(value: string): Option<string> {
    if value == "" || IsAbsolute(value) || ".." in Parts(value) || Normalized(value) != value then None else Some(value)
  }

  predicate IsName(part: string) {
    part != "" && part != "." && part != ".."
  }

  lemma {:induction false} KeepAll(parts: seq<string>)
    requires forall p | p in parts :: IsName(p)
    ensures Keep(parts) == parts
  {
    if parts != [] {
      KeepAll(parts[1..]);
      assert parts[0] in parts && [parts[0]] + parts[1..] == parts;
    }
  }

  lemma FirstPart(value: string)
    ensures IsAbsolute(value) ==> SplitOn(value, '/')[0] == ""
  {
  }

  lemma NamesAreAccepted(value: string)
    requires forall p | p in SplitOn(value, '/') :: IsName(p)
    ensures RelativePath(value).Some?
  {
    var split := SplitOn(value, '/');
    JoinOfSplit(value, '/');
    FirstPart(value);
    KeepAll(split);
    assert split[0] in split;
    assert ".." !in split;
  }

  lemma AcceptedAreNames(value: string)
    requires RelativePath(value).Some? && value != "."
    ensures SplitOn(value, '/') == Parts(value) && forall p | p in SplitOn(value, '/') :: IsName(p)
  {
    SplitHasNone(value, '/');
    assert Parts(value) != [];
    SplitOfJoin(Parts(value), '/');
  }

  lemma DotIsAccepted()
    ensures RelativePath(".") == Some(".")
  {
    SplitPlain(".", '/');
    assert Keep(["."]) == [];
  }

  /** Exactly the dot and the paths made of proper names are accepted: no empty, "." or ".." component. */
  lemma RelativePathExact(value: string)
    ensures RelativePath(value).Some? <==> value == "." || forall p | p in SplitOn(value, '/') :: p != "" && p != "." && p != ".."
    ensures RelativePath(value).Some? ==> RelativePath(value).value == value
  {
    DotIsAccepted();
    if forall p | p in SplitOn(value, '/') :: p != "" && p != "." && p != ".." {
      NamesAreAccepted(value);
    }
    if RelativePath(value).Some? && value != "." {
      AcceptedAreNames(value);
      assert forall p | p in SplitOn(value, '/') :: IsName(p);
    }
  }

  /** The components of an accepted path determine it, and it has some unless it is the dot. */
  lemma PartsDetermine(a: string, b: string)
    requires RelativePath(a).Some? && RelativePath(b).Some? && Parts(a) == Parts(b)
    ensures a == b
  {
    assert Normalized(a) == Normalized(b);
  }

  lemma {:induction false} JoinAppend(a: seq<string>, b: seq<string>, c: char)
    requires a != [] && b != []
    ensures JoinOn(a + b, c) == JoinOn(a, c) + [c] + JoinOn(b, c)
  {
    if |a| == 1 {
      assert (a + b)[1..] == b;
    } else {
      assert (a + b)[1..] == a[1..] + b;
      JoinAppend(a[1..], b, c);
      Nest(a[0], [c], JoinOn(a[1..], c), JoinOn(b, c));
    }
  }

  lemma Nest(x: string, c: string, y: string, z: string)
    ensures x + c + (y + c + z) == x + c + y + c + z
  {
  }

  /** An accepted path is the join of its components; the dot has none. */
  lemma AcceptedIsJoin(value: string)
    requires RelativePath(value).Some?
    ensures if value == "." then Parts(value) == [] else Parts(value) != [] && JoinOn(Parts(value), '/') == value
    ensures forall p | p in Parts(value) :: '/' !in p
  {
    SplitHasNone(value, '/');
    if value == "." {
      SplitPlain(".", '/');
      assert Keep(["."]) == [];
    } else {
      AcceptedAreNames(value);
    }
  }
}
