/** The signing-team pattern spelled out in literal characters. */
module TeamLetters {
  import opened Text
  import opened Characters
  import opened TeamPattern

  const FRONT := "ABCDEFGHIJKLM"
  const BACK := "NOPQRSTUVWXYZ"
  const DIGITS := "0123456789"

  /** `[A-Z0-9]` */
  const LETTERS := FRONT + BACK + DIGITS

  lemma FrontAre(c: char)
    ensures c in FRONT <==> 'A' <= c <= 'M'
  {
    if 'A' <= c <= 'M' {
      assert FRONT[c as int - 'A' as int] == c;
    }
  }

  lemma BackAre(c: char)
    ensures c in BACK <==> 'N' <= c <= 'Z'
  {
    if 'N' <= c <= 'Z' {
      assert BACK[c as int - 'N' as int] == c;
    }
  }

  lemma DigitsAre(c: char)
    ensures c in DIGITS <==> '0' <= c <= '9'
  {
    if '0' <= c <= '9' {
      assert DIGITS[c as int - '0' as int] == c;
    }
  }

  lemma LettersAre(c: char)
    ensures c in LETTERS <==> IsTeamChar(c)
  {
    InThree(FRONT, BACK, DIGITS, c);
    FrontAre(c);
    BackAre(c);
    DigitsAre(c);
  }

  // ---------- the pattern ----------

  predicate Over(s: string, letters: string) {
    forall i | 0 <= i < |s| :: s[i] in letters
  }

  predicate MayQuote(q: string) {
    q == "" || q == "\""
  }

  /** The pieces of an assignment of a team, by the characters of each. */
  predicate Spelled(m: Match) {
    && MayQuote(m.q1) && MayQuote(m.q2) && MayQuote(m.q3) && MayQuote(m.q4)
    && Over(m.w1, SPACES) && Over(m.w2, SPACES) && Over(m.w3, SPACES)
    && m.team != "" && Over(m.team, LETTERS)
  }

  function Assignment(m: Match): string {
    m.q1 + "DEVELOPMENT_TEAM" + m.q2 + m.w1 + "=" + m.w2 + m.q3 + m.team + m.q4 + m.w3 + ";"
  }

  lemma OverSpaces(w: string)
    ensures Over(w, SPACES) <==> IsSpaces(w)
  {
    forall i | 0 <= i < |w|
      ensures w[i] in SPACES <==> IsSpace(w[i])
    {
      SpacesAre(w[i]);
    }
  }

  lemma OverLetters(s: string)
    ensures s != "" && Over(s, LETTERS) <==> IsTeam(s)
  {
    forall i | 0 <= i < |s|
      ensures s[i] in LETTERS <==> IsTeamChar(s[i])
    {
      LettersAre(s[i]);
    }
  }

  lemma SpelledIsValid(m: Match)
    ensures Spelled(m) <==> m.Valid()
  {
    OverSpaces(m.w1);
    OverSpaces(m.w2);
    OverSpaces(m.w3);
    OverLetters(m.team);
  }

  lemma Flat(a: string, k: string, b: string, c: string, e: string, d: string, f: string, g: string, h: string, i: string, rest: string)
    ensures a + k + b + c + e + d + f + g + h + i + ";" + rest == a + (k + (b + (c + (e + (d + (f + (g + (h + (i + (";" + rest))))))))))
  {
  }

  lemma AssignmentIs(m: Match, rest: string)
    ensures Assignment(m) + rest == m.Text(rest)
  {
    Flat(m.q1, "DEVELOPMENT_TEAM", m.q2, m.w1, "=", m.w2, m.q3, m.team, m.q4, m.w3, rest);
  }

  /** s starts with an assignment of team. */
  ghost predicate Assigns(s: string, team: string) {
    exists m: Match, rest: string {:trigger Assignment(m) + rest} :: Spelled(m) && m.team == team && s == Assignment(m) + rest
  }

  lemma AssignsExact(s: string, team: string)
    ensures Assigns(s, team) <==> MatchAt(s) == Some(team)
  {
    if MatchAt(s) == Some(team) {
      var m, rest := FoundMatches(s);
      SpelledIsValid(m);
      AssignmentIs(m, rest);
      assert Assignment(m) + rest == s;
    }
    if Assigns(s, team) {
      var m: Match, rest: string :| Spelled(m) && m.team == team && s == Assignment(m) + rest;
      SpelledIsValid(m);
      AssignmentIs(m, rest);
      MatchFound(m, rest);
    }
  }

  /** The leftmost assignment in s starts at i and is one of team. */
  ghost predicate AssignsFirst(s: string, i: nat, team: string)
    requires i <= |s|
  {
    Assigns(s[i..], team) && forall k: nat, other: string | k < i :: !Assigns(s[k..], other)
  }

  /** Where the search stops. */
  function Where(s: string): (i: nat)
    ensures i <= |s|
  {
    if s == "" || MatchAt(s).Some? then 0 else 1 + Where(s[1..])
  }

  lemma {:induction false} WhereIs(s: string)
    ensures MatchAt(s[Where(s)..]) == Search(s)
    ensures forall k: nat | k < Where(s) :: MatchAt(s[k..]) == None
    ensures Search(s) == None ==> Where(s) == |s|
  {
    assert s[0..] == s;
    if s == "" {
      assert |KEYWORD| == 16;
    } else if MatchAt(s) == None {
      WhereIs(s[1..]);
      assert forall k: nat | 0 < k <= |s| :: s[k..] == s[1..][k - 1..];
    }
  }

  /** The search captures the team of the leftmost assignment, and nothing if there is none. */
  lemma SearchExact(s: string)
    ensures match Search(s)
            case None => forall k: nat, other: string | k <= |s| :: !Assigns(s[k..], other)
            case Some(team) => exists i: nat :: i <= |s| && AssignsFirst(s, i, team)
  {
    WhereIs(s);
    var i := Where(s);
    forall k: nat, other: string | k < i
      ensures !Assigns(s[k..], other)
    {
      AssignsExact(s[k..], other);
    }
    if Search(s).Some? {
      AssignsExact(s[i..], Search(s).value);
      assert AssignsFirst(s, i, Search(s).value);
    } else {
      forall other: string
        ensures !Assigns(s[i..], other)
      {
        AssignsExact(s[i..], other);
      }
    }
  }

  lemma FirstIsFound(s: string, i: nat, team: string)
    requires i <= |s| && AssignsFirst(s, i, team)
    ensures Search(s) == Some(team)
  {
    AssignsExact(s[i..], team);
    forall k: nat | k < i
      ensures MatchAt(s[k..]) == None
    {
      NoneAssigned(s[k..]);
    }
    FirstMatchIsFound(s, i, team);
  }

  /** team is that of the leftmost assignment in s. */
  ghost predicate FirstTeam(s: string, team: string) {
    exists i: nat {:trigger AssignsFirst(s, i, team)} :: i <= |s| && AssignsFirst(s, i, team)
  }

  lemma FoundIsFirst(s: string, team: string)
    ensures Search(s) == Some(team) <==> FirstTeam(s, team)
  {
    SearchExact(s);
    if FirstTeam(s, team) {
      var i: nat :| i <= |s| && AssignsFirst(s, i, team);
      FirstIsFound(s, i, team);
    }
  }

  lemma NoneAssigned(s: string)
    requires forall other: string :: !Assigns(s, other)
    ensures MatchAt(s) == None
  {
    if MatchAt(s).Some? {
      AssignsExact(s, MatchAt(s).value);
    }
  }

  lemma {:induction false} FirstMatchIsFound(s: string, i: nat, team: string)
    requires i <= |s| && MatchAt(s[i..]) == Some(team) && forall k: nat | k < i :: MatchAt(s[k..]) == None
    ensures Search(s) == Some(team)
    decreases i
  {
    assert s[0..] == s;
    if i == 0 {
      MatchIsLong(s);
    } else {
      var t := s[1..];
      forall k: nat | k < i
        ensures t[k..] == s[k + 1..]
      {
      }
      FirstMatchIsFound(t, i - 1, team);
      SearchPasses(s, t);
    }
  }

  lemma SearchPasses(s: string, t: string)
    requires s != "" && t == s[1..] && MatchAt(s) == None
    ensures Search(s) == Search(t)
  {
  }

  lemma MatchIsLong(s: string)
    ensures MatchAt(s).Some? ==> s != ""
  {
    assert |KEYWORD| == 16;
  }

  lemma FoundAt(m: Match, rest: string)
    requires Spelled(m)
    ensures Search(Assignment(m) + rest) == Some(m.team)
  {
    SpelledIsValid(m);
    AssignmentIs(m, rest);
    MatchFound(m, rest);
  }

  lemma OneSpace()
    ensures Over(" ", SPACES) && Over("", SPACES)
  {
    SpacesAre(' ');
  }

  /** Every team is found in its assignment, bare or quoted. */
  lemma TeamFound(s: string, q: string, rest: string)
    requires s != "" && Over(s, LETTERS) && (q == "" || q == "\"")
    ensures Search(q + "DEVELOPMENT_TEAM" + q + " = " + q + s + q + ";" + rest) == Some(s)
  {
    var m := Match(q, q, " ", " ", q, s, q, "");
    OneSpace();
    FoundAt(m, rest);
    PrintedText(q, "DEVELOPMENT_TEAM", s);
    assert Assignment(m) == q + "DEVELOPMENT_TEAM" + q + " = " + q + s + q + ";";
  }

  lemma PrintedText(q: string, k: string, s: string)
    ensures q + k + q + " " + "=" + " " + q + s + q + "" + ";" == q + k + q + " = " + q + s + q + ";"
  {
  }

  /** Only teams are found. */
  lemma {:induction false} FoundIsTeam(s: string)
    ensures Search(s).Some? ==> Search(s).value != "" && Over(Search(s).value, LETTERS)
  {
    if s != "" {
      if MatchAt(s).Some? {
        var m, rest := FoundMatches(s);
        OverLetters(m.team);
      } else {
        FoundIsTeam(s[1..]);
      }
    }
  }

  /** The team of the repository's own project. */
  lemma OwnTeamFound(rest: string)
    ensures Search("\"" + "DEVELOPMENT_TEAM" + "\"" + " = " + "\"" + "T2S6FJ6R3Q" + "\"" + ";" + rest) == Some("T2S6FJ6R3Q")
  {
    OwnTeam("T2S6FJ6R3Q");
    TeamFound("T2S6FJ6R3Q", "\"", rest);
  }

  lemma OwnTeam(s: string)
    requires s == "T2S6FJ6R3Q"
    ensures Over(s, LETTERS)
  {
    forall i | 0 <= i < |s|
      ensures s[i] in LETTERS
    {
      LettersAre(s[i]);
    }
  }
}
