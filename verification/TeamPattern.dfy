/** The signing-team pattern that scripts/generate_project.py searches its own output for:
    `"?DEVELOPMENT_TEAM"?\s*=\s*"?([A-Z0-9]+)"?\s*;`. */
module TeamPattern {
  import opened Text

  const KEYWORD := "DEVELOPMENT_TEAM"

  predicate IsTeamChar(c: char) {
    'A' <= c <= 'Z' || '0' <= c <= '9'
  }

  predicate IsTeam(s: string) {
    s != "" && forall i | 0 <= i < |s| :: IsTeamChar(s[i])
  }

  predicate IsQuote(q: string) {
    q == "" || q == "\""
  }

  predicate IsSpaces(w: string) {
    forall i | 0 <= i < |w| :: IsSpace(w[i])
  }

  /** The pieces of one match of the pattern, in order. */
  datatype Match = Match(q1: string, q2: string, w1: string, w2: string, q3: string, team: string, q4: string, w3: string) {
    predicate Valid() {
      && IsQuote(q1) && IsQuote(q2) && IsQuote(q3) && IsQuote(q4)
      && IsSpaces(w1) && IsSpaces(w2) && IsSpaces(w3) && IsTeam(team)
    }

    function AfterKeyword(rest: string): string {
      q2 + (w1 + ("=" + AfterEquals(rest)))
    }

    function AfterEquals(rest: string): string {
      w2 + (q3 + (team + AfterTeam(rest)))
    }

    function AfterTeam(rest: string): string {
      q4 + (w3 + (";" + rest))
    }

    /** The matched text followed by rest. */
    function Text(rest: string): string {
      q1 + (KEYWORD + AfterKeyword(rest))
    }
  }

  // ---------- the scanner ----------

  function SkipQuote(s: string): string {
    if s != "" && s[0] == '"' then s[1..] else s
  }

  function SkipSpaces(s: string): string {
    s[Run(s, IsSpace)..]
  }

  /** From `=` on; every repetition is greedy, and no alternative can be resumed. */
  function ReadTeam(s: string): Option<string> {
    var c := SkipQuote(SkipSpaces(s));
    var n := Run(c, IsTeamChar);
    var d := SkipSpaces(SkipQuote(c[n..]));
    if n == 0 || d == "" || d[0] != ';' then None else Some(c[..n])
  }

  /** The team captured by a match that starts at the beginning of s. */
  function MatchAt(s: string): Option<string> {
    var a := SkipQuote(s);
    if !(KEYWORD <= a) then None
    else
      var b := SkipSpaces(SkipQuote(a[|KEYWORD|..]));
      if b == "" || b[0] != '=' then None else ReadTeam(b[1..])
  }

  /** `re.search`: the leftmost match. */
  function Search(s: string): Option<string> {
    if s == "" then None
    else if MatchAt(s).Some? then MatchAt(s)
    else Search(s[1..])
  }

  // ---------- the scanner is the pattern ----------

  lemma QuoteSkipped(q: string, s: string)
    requires IsQuote(q) && (s == "" || s[0] != '"')
    ensures SkipQuote(q + s) == s
  {
    assert (q + s)[|q|..] == s;
  }

  lemma SpacesSkipped(w: string, s: string)
    requires IsSpaces(w) && (s == "" || !IsSpace(s[0]))
    ensures SkipSpaces(w + s) == s
  {
    RunIs(w, s, IsSpace);
    assert (w + s)[|w|..] == s;
  }

  lemma TeamRead(m: Match, rest: string)
    requires m.Valid()
    ensures ReadTeam(m.AfterEquals(rest)) == Some(m.team)
  {
    var afterTeam := m.AfterTeam(rest);
    var c := m.team + afterTeam;
    assert c[0] == m.team[0];
    assert IsTeamChar(m.team[0]);
    QuoteSkipped(m.q3, c);
    assert (m.q3 + c)[0] == '"' || m.q3 + c == c;
    SpacesSkipped(m.w2, m.q3 + c);
    AfterTeamStops(m, rest);
    RunIs(m.team, afterTeam, IsTeamChar);
    assert c[|m.team|..] == afterTeam && c[..|m.team|] == m.team;
  }

  lemma AfterTeamStops(m: Match, rest: string)
    requires m.Valid()
    ensures m.AfterTeam(rest) != "" && !IsTeamChar(m.AfterTeam(rest)[0])
    ensures SkipSpaces(SkipQuote(m.AfterTeam(rest))) == ";" + rest
  {
    var tail := m.w3 + (";" + rest);
    assert tail[0] == if m.w3 == "" then ';' else m.w3[0];
    assert (m.q4 + tail)[0] == if m.q4 == "" then tail[0] else '"';
    QuoteSkipped(m.q4, tail);
    SpacesSkipped(m.w3, ";" + rest);
  }

  /** Every way of matching the pattern at the start of a text captures what the scanner captures. */
  lemma MatchFound(m: Match, rest: string)
    requires m.Valid()
    ensures MatchAt(m.Text(rest)) == Some(m.team)
  {
    var afterEquals := m.AfterEquals(rest);
    var b := "=" + afterEquals;
    var a := KEYWORD + m.AfterKeyword(rest);
    QuoteSkipped(m.q1, a);
    assert a[|KEYWORD|..] == m.AfterKeyword(rest);
    assert (m.w1 + b)[0] == if m.w1 == "" then '=' else m.w1[0];
    QuoteSkipped(m.q2, m.w1 + b);
    SpacesSkipped(m.w1, b);
    assert b[1..] == afterEquals;
    TeamRead(m, rest);
  }

  /** The quote that SkipQuote removes. */
  function Quote(s: string): (q: string)
    ensures IsQuote(q) && q + SkipQuote(s) == s
  {
    if s != "" && s[0] == '"' then "\"" else ""
  }

  function Spaces(s: string): (w: string)
    ensures IsSpaces(w) && w + SkipSpaces(s) == s
  {
    s[..Run(s, IsSpace)]
  }

  lemma TeamPieces(e: string) returns (w2: string, q3: string, team: string, q4: string, w3: string, rest: string)
    requires ReadTeam(e).Some?
    ensures ReadTeam(e) == Some(team) && IsTeam(team)
    ensures IsSpaces(w2) && IsSpaces(w3) && IsQuote(q3) && IsQuote(q4)
    ensures e == w2 + (q3 + (team + (q4 + (w3 + (";" + rest)))))
  {
    var x := SkipSpaces(e);
    var c := SkipQuote(x);
    var n := Run(c, IsTeamChar);
    var t := c[n..];
    var y := SkipQuote(t);
    w2, q3, team, q4, w3, rest := Spaces(e), Quote(x), c[..n], Quote(t), Spaces(y), SkipSpaces(y)[1..];
    Pieces(e, w2, x, q3, c, n, t, q4, y, w3, SkipSpaces(y));
  }

  lemma Pieces(e: string, w2: string, x: string, q3: string, c: string, n: nat, t: string, q4: string, y: string, w3: string, d: string)
    requires e == w2 + x && x == q3 + c && n <= |c| && t == c[n..] && t == q4 + y && y == w3 + d && d != "" && d[0] == ';'
    ensures e == w2 + (q3 + (c[..n] + (q4 + (w3 + (";" + d[1..])))))
  {
    assert ";" + d[1..] == d;
    assert c[..n] + t == c;
  }

  /** What the scanner captures is a match of the pattern. */
  lemma FoundMatches(s: string) returns (m: Match, rest: string)
    requires MatchAt(s).Some?
    ensures m.Valid() && m.Text(rest) == s && MatchAt(s) == Some(m.team)
  {
    var a := SkipQuote(s);
    var k := a[|KEYWORD|..];
    var b := SkipSpaces(SkipQuote(k));
    var w2, q3, team, q4, w3, r := TeamPieces(b[1..]);
    rest := r;
    m := Match(Quote(s), Quote(k), Spaces(SkipQuote(k)), w2, q3, team, q4, w3);
    KeywordPieces(s, Quote(s), a, k, Quote(k), SkipQuote(k), Spaces(SkipQuote(k)), b);
  }

  lemma KeywordPieces(s: string, q1: string, a: string, k: string, q2: string, y: string, w1: string, b: string)
    requires s == q1 + a && KEYWORD <= a && k == a[|KEYWORD|..] && k == q2 + y && y == w1 + b && b != "" && b[0] == '='
    ensures s == q1 + (KEYWORD + (q2 + (w1 + ("=" + b[1..]))))
  {
    assert "=" + b[1..] == b;
    assert KEYWORD + k == a;
  }

  // ---------- searching a text piece by piece ----------

  function Or(a: Option<string>, b: Option<string>): Option<string> {
    if a.Some? then a else b
  }

  lemma TextSplit(m: Match, rest: string)
    ensures m.Text(rest) == m.Text("") + rest
  {
    assert m.AfterTeam(rest) == m.AfterTeam("") + rest;
    assert m.AfterEquals(rest) == m.AfterEquals("") + rest;
    assert m.AfterKeyword(rest) == m.AfterKeyword("") + rest;
  }

  /** The matched text up to its final semicolon. */
  function Body(m: Match): string {
    m.q1 + (KEYWORD + (m.q2 + (m.w1 + ("=" + (m.w2 + (m.q3 + (m.team + (m.q4 + m.w3))))))))
  }

  lemma NotInConcat(a: string, b: string)
    requires ';' !in a && ';' !in b
    ensures ';' !in a + b
  {
  }

  /** A match ends at the first semicolon it meets. */
  lemma NoSemicolon(m: Match)
    requires m.Valid()
    ensures m.Text("") == Body(m) + ";"
    ensures ';' !in Body(m)
  {
    var t := m.q4 + m.w3;
    var e := m.w2 + (m.q3 + (m.team + t));
    var k := m.q2 + (m.w1 + ("=" + e));
    BodyText(m, t, e, k);
    NotInConcat(m.q4, m.w3);
    NotInConcat(m.team, t);
    NotInConcat(m.q3, m.team + t);
    NotInConcat(m.w2, m.q3 + (m.team + t));
    NotInConcat("=", e);
    NotInConcat(m.w1, "=" + e);
    NotInConcat(m.q2, m.w1 + ("=" + e));
    NotInConcat(KEYWORD, k);
    NotInConcat(m.q1, KEYWORD + k);
  }

  lemma BodyText(m: Match, t: string, e: string, k: string)
    requires t == m.q4 + m.w3
    requires e == m.w2 + (m.q3 + (m.team + t))
    requires k == m.q2 + (m.w1 + ("=" + e))
    ensures m.Text("") == m.q1 + (KEYWORD + k) + ";"
  {
    assert m.AfterTeam("") == t + ";";
    assert m.AfterEquals("") == e + ";";
    assert m.AfterKeyword("") == k + ";";
  }

  /** Whether and what the pattern matches here is decided by the text up to any semicolon. */
  lemma MatchStops(x: string, r: string)
    ensures MatchAt(x + ";" + r) == MatchAt(x + ";")
  {
    if MatchAt(x + ";" + r).Some? {
      MatchShrinks(x, r);
    } else if MatchAt(x + ";").Some? {
      MatchExtends(x + ";", r);
    }
  }

  lemma MatchOn(m: Match, rest: string, s: string)
    requires m.Valid() && s == m.Text("") + rest
    ensures MatchAt(s) == Some(m.team)
  {
    TextSplit(m, rest);
    MatchFound(m, rest);
  }

  lemma MatchExtends(p: string, r: string)
    requires MatchAt(p).Some?
    ensures MatchAt(p + r) == MatchAt(p)
  {
    var m, rest := FoundMatches(p);
    TextSplit(m, rest);
    Associate(m.Text(""), rest, r);
    MatchOn(m, rest + r, p + r);
  }

  lemma MatchShrinks(x: string, r: string)
    requires MatchAt(x + ";" + r).Some?
    ensures MatchAt(x + ";") == MatchAt(x + ";" + r)
  {
    var m, rest := FoundMatches(x + ";" + r);
    TextSplit(m, rest);
    NoSemicolon(m);
    var rest' := Shrink(Body(m), rest, x, r);
    MatchOn(m, rest', x + ";");
  }

  /** If the first semicolon of a text is the one after body, cutting the text at a semicolon keeps it. */
  lemma Shrink(body: string, rest: string, x: string, r: string) returns (rest': string)
    requires body + ";" + rest == x + ";" + r && ';' !in body
    ensures body + ";" + rest' == x + ";"
  {
    var s := body + ";" + rest;
    assert s[|x|] == ';';
    assert forall i | 0 <= i < |body| :: s[i] == body[i];
    rest' := (x + ";")[|body| + 1..];
    assert s[..|body| + 1] == body + ";";
    assert s[..|x| + 1] == x + ";";
  }

  /** The search splits at every semicolon. */
  lemma {:induction false} SearchSplits(x: string, r: string)
    ensures Search(x + ";" + r) == Or(Search(x + ";"), Search(r))
  {
    if x == "" {
      assert x + ";" == [';'] + "" && x + ";" + r == [';'] + r;
      NoKeywordHere([';'] + "");
      NoKeywordHere([';'] + r);
      SearchStep(';', "");
      SearchStep(';', r);
    } else {
      var t := x[1..];
      SearchSplits(t, r);
      MatchStops(x, r);
      Unshift(x, ";", r);
      SearchStep(x[0], t + ";");
      SearchStep(x[0], t + ";" + r);
    }
  }

  lemma Unshift(x: string, y: string, r: string)
    requires x != ""
    ensures x + y == [x[0]] + (x[1..] + y)
    ensures x + y + r == [x[0]] + (x[1..] + y + r)
  {
  }

  lemma SearchStep(c: char, t: string)
    ensures Search([c] + t) == Or(MatchAt([c] + t), Search(t))
  {
    assert ([c] + t)[1..] == t;
  }

  lemma NoKeywordHere(s: string)
    requires s != "" && s[0] != '"' && s[0] != 'D'
    ensures MatchAt(s) == None
  {
    assert KEYWORD[0] == 'D';
  }

  /** No occurrence of the keyword starts anywhere in s. */
  predicate Lacks(s: string) {
    forall i | 0 <= i <= |s| :: !(KEYWORD <= s[i..])
  }

  predicate IsKeywordChar(c: char) {
    'A' <= c <= 'Z' || c == '_'
  }

  /** Text without the keyword is skipped, provided what follows cannot complete it. */
  lemma {:induction false} SearchSkips(a: string, b: string)
    requires Lacks(a)
    requires b == "" || !IsKeywordChar(b[0])
    ensures Search(a + b) == Search(b)
  {
    if a == "" {
      assert a + b == b;
    } else {
      var t := a[1..];
      assert Lacks(t) by {
        assert forall i | 0 <= i <= |t| :: t[i..] == a[i + 1..];
      }
      assert a[0..] == a && t == a[1..];
      KeywordBlocked(a, b);
      KeywordBlocked(t, b);
      assert (a + b)[1..] == t + b;
      SearchSkips(t, b);
    }
  }

  lemma KeywordBlocked(a: string, b: string)
    requires !(KEYWORD <= a)
    requires b == "" || !IsKeywordChar(b[0])
    ensures !(KEYWORD <= a + b)
  {
    var n := |KEYWORD|;
    assert forall i | 0 <= i < n :: IsKeywordChar(KEYWORD[i]);
    if n <= |a| {
      assert (a + b)[..n] == a[..n];
    } else if b != "" {
      assert (a + b)[|a|] == b[0];
    }
  }

  /** The quote in front of a literal makes no difference to the search. */
  lemma QuoteIgnored(y: string)
    ensures Search("\"" + y) == Search(y)
  {
    var s := "\"" + y;
    assert s[1..] == y;
    assert KEYWORD[0] == 'D';
    if y != "" && y[0] != '"' {
      assert SkipQuote(y) == y;
    }
  }
}
