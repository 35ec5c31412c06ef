/** What the signing-team search finds in printed text. */
module TeamSearch {
  import opened Text
  import opened Printer
  import opened TeamPattern
  import Json

  /** A team that the pattern finds inside a printed string value, closing quote and semicolon included. */
  function Hidden(text: string): Option<string> {
    Search(Json.Escape(text) + "\"" + ";")
  }

  function TeamEntry(e: Entry): Option<string>
    decreases e, 1
  {
    match e.value
    case Str(text) => if e.key == KEYWORD then Some(text) else Hidden(text)
    case Dict(entries) => TeamEntries(entries)
    case _ => None
  }

  /** The first team in printing order. */
  function TeamEntries(entries: seq<Entry>): Option<string>
    decreases entries, 0
  {
    if entries == [] then None else Or(TeamEntry(entries[0]), TeamEntries(entries[1..]))
  }

  /** An atom without the keyword. */
  predicate Quiet(v: Value) {
    v.Int? || (v.Str? && Lacks(v.text))
  }

  /** Entries whose keys are free of the keyword, except that the keyword itself may carry a
      team, and whose lists are quiet. String values are unrestricted. */
  predicate TameEntry(e: Entry)
    decreases e, 1
  {
    if e.key == KEYWORD then e.value.Str? && IsTeam(e.value.text)
    else
      && Lacks(e.key)
      && match e.value
         case Dict(entries) => TameEntries(entries)
         case List(items) => forall i | 0 <= i < |items| :: Quiet(items[i])
         case _ => true
  }

  predicate TameEntries(entries: seq<Entry>)
    decreases entries, 0
  {
    entries == [] || (TameEntry(entries[0]) && TameEntries(entries[1..]))
  }

  // ---------- escaping neither hides nor makes the keyword ----------

  predicate IsPlain(c: char) {
    ' ' <= c <= '~' && c != '"' && c != '\\'
  }

  lemma EscapePlainChar(c: char)
    ensures if IsPlain(c) then Json.EscapeChar(c) == [c]
            else |Json.EscapeChar(c)| > 1 && Json.EscapeChar(c)[0] == '\\' && 'D' !in Json.EscapeChar(c)
  {
    if !IsPlain(c) && Json.ShortEscape(c).None? {
      NumericHasNoD(c as int);
    }
  }

  lemma NumericHasNoD(n: nat)
    requires n < 0x110000
    ensures 'D' !in "\\u" + Json.NumericEscape(n)
  {
    if n < 0x10000 {
      Hex4HasNoD(n);
    } else {
      Hex4HasNoD(Json.High(n));
      Hex4HasNoD(Json.Low(n));
    }
  }

  lemma Hex4HasNoD(n: nat)
    requires n < 0x10000
    ensures 'D' !in Json.Hex4(n)
  {
  }

  lemma {:induction false} EscapePlain(s: string)
    requires forall i | 0 <= i < |s| :: IsPlain(s[i])
    ensures Json.Escape(s) == s
  {
    if s != "" {
      EscapePlainChar(s[0]);
      EscapePlain(s[1..]);
    }
  }

  /** An escaped text starts with the rest of the keyword only if the text itself does. */
  lemma {:induction false} EscapeReflects(s: string, k: nat)
    requires k <= |KEYWORD| && KEYWORD[k..] <= Json.Escape(s)
    ensures KEYWORD[k..] <= s
    decreases |KEYWORD| - k
  {
    if k < |KEYWORD| {
      assert s != "";
      EscapePlainChar(s[0]);
      assert Json.Escape(s)[0] == Json.EscapeChar(s[0])[0] == KEYWORD[k];
      assert KEYWORD[k..][1..] == KEYWORD[k + 1..];
      assert Json.Escape(s)[1..] == Json.Escape(s[1..]);
      assert KEYWORD[k + 1..] <= Json.Escape(s[1..]);
      EscapeReflects(s[1..], k + 1);
    }
  }

  lemma {:induction false} EscapeKeyword(s: string, i: nat)
    requires i <= |Json.Escape(s)| && KEYWORD <= Json.Escape(s)[i..]
    ensures !Lacks(s)
    decreases s
  {
    var e := Json.Escape(s);
    assert e[i] == e[i..][0] == KEYWORD[0];
    var head, t := Json.EscapeChar(s[0]), s[1..];
    EscapePlainChar(s[0]);
    assert forall j | 0 <= j < |head| :: e[j] == head[j];
    if i == 0 {
      assert e[0..] == e && KEYWORD[0..] == KEYWORD;
      EscapeReflects(s, 0);
      assert s[0..] == s;
    } else if i >= |head| {
      assert e[i..] == Json.Escape(t)[i - |head|..];
      EscapeKeyword(t, i - |head|);
      var j :| 0 <= j <= |t| && KEYWORD <= t[j..];
      assert t[j..] == s[j + 1..];
    }
  }

  lemma EscapeLacks(s: string)
    requires Lacks(s)
    ensures Lacks(Json.Escape(s))
  {
    forall i | 0 <= i <= |Json.Escape(s)|
      ensures !(KEYWORD <= Json.Escape(s)[i..])
    {
      if KEYWORD <= Json.Escape(s)[i..] {
        EscapeKeyword(s, i);
      }
    }
  }

  // ---------- the search through printed text ----------

  predicate Closed(rest: string) {
    rest == "" || !IsKeywordChar(rest[0])
  }

  /** Punctuation and numbers are skipped. */
  lemma SkipToken(token: string, rest: string)
    requires 'D' !in token && Closed(rest)
    ensures Search(token + rest) == Search(rest)
  {
    assert KEYWORD[0] == 'D';
    assert forall i | 0 <= i <= |token| && KEYWORD <= token[i..] :: token[i] == token[i..][0];
    SearchSkips(token, rest);
  }

  lemma SkipLiteral(s: string, rest: string)
    requires Lacks(s) && Closed(rest)
    ensures Search(Json.Literal(s) + rest) == Search(rest)
  {
    var tail := "\"" + rest;
    assert Json.Literal(s) + rest == "\"" + (Json.Escape(s) + tail);
    QuoteIgnored(Json.Escape(s) + tail);
    EscapeLacks(s);
    SearchSkips(Json.Escape(s), tail);
    QuoteIgnored(rest);
  }

  lemma SkipQuiet(v: Value, depth: nat, rest: string)
    requires Quiet(v) && Closed(rest)
    ensures Search(Render(v, depth) + rest) == Search(rest)
  {
    if v.Int? {
      Json.IntegerShape(v.number);
      SkipToken(Json.Integer(v.number), rest);
    } else {
      SkipLiteral(v.text, rest);
    }
  }

  lemma {:induction false} SkipItems(items: seq<Value>, depth: nat, rest: string)
    requires forall i | 0 <= i < |items| :: Quiet(items[i])
    requires Closed(rest)
    ensures Search(RenderItems(items, depth) + rest) == Search(rest)
    decreases items
  {
    if items == [] {
      assert "" + rest == rest;
    } else if |items| == 1 {
      SkipQuiet(items[0], depth, rest);
    } else {
      var tail := RenderItems(items[1..], depth) + rest;
      Associate(Render(items[0], depth) + ", ", RenderItems(items[1..], depth), rest);
      Associate(Render(items[0], depth), ", ", tail);
      SkipQuiet(items[0], depth, ", " + tail);
      ItemsClosed(items[1..], depth, rest);
      SkipToken(", ", tail);
      SkipItems(items[1..], depth, rest);
    }
  }

  lemma ItemsClosed(items: seq<Value>, depth: nat, rest: string)
    requires Closed(rest)
    ensures Closed(RenderItems(items, depth) + rest)
  {
    if items != [] {
      FirstCharacter(items[0], depth);
      assert RenderItems(items, depth)[0] == Render(items[0], depth)[0];
    }
  }

  lemma SkipList(items: seq<Value>, depth: nat, rest: string)
    requires forall i | 0 <= i < |items| :: Quiet(items[i])
    requires Closed(rest)
    ensures Search(Render(List(items), depth) + rest) == Search(rest)
  {
    var tail := RenderItems(items, depth) + (")" + rest);
    assert Render(List(items), depth) + rest == "(" + tail;
    ItemsClosed(items, depth, ")" + rest);
    SkipToken("(", tail);
    SkipItems(items, depth, ")" + rest);
    SkipToken(")", rest);
  }

  lemma Quoted(body: string, rest: string)
    ensures "\"" + body + "\"" + (";\n" + rest) == "\"" + (body + "\"" + ";" + ("\n" + rest))
  {
  }

  /** A string value is searched up to its semicolon. */
  lemma SearchString(text: string, rest: string)
    requires Closed(rest)
    ensures Search(Json.Literal(text) + (";\n" + rest)) == Or(Hidden(text), Search(rest))
  {
    var x := Json.Escape(text) + "\"";
    Quoted(Json.Escape(text), rest);
    QuoteIgnored(x + ";" + ("\n" + rest));
    SearchSplits(x, "\n" + rest);
    SkipToken("\n", rest);
  }

  lemma KeywordPlain()
    ensures forall i | 0 <= i < |KEYWORD| :: IsPlain(KEYWORD[i])
  {
  }

  lemma PlainLiteral(s: string)
    requires forall i | 0 <= i < |s| :: IsPlain(s[i])
    ensures Json.Literal(s) == "\"" + s + "\""
  {
    EscapePlain(s);
  }

  lemma SearchFound(s: string)
    requires MatchAt(s).Some?
    ensures Search(s) == MatchAt(s)
  {
  }

  lemma KeyLiteral(key: string)
    requires key == KEYWORD
    ensures Json.Literal(key) == "\"" + key + "\""
  {
    KeywordPlain();
    PlainLiteral(key);
  }

  lemma TeamLiteral(team: string)
    requires IsTeam(team)
    ensures Json.Literal(team) == "\"" + team + "\""
  {
    PlainLiteral(team);
  }

  /** A team setting is found, whole, whatever follows it. */
  lemma SearchTeam(key: string, team: string, rest: string)
    requires key == KEYWORD && IsTeam(team)
    ensures Search(Json.Literal(key) + (" = " + (Json.Literal(team) + (";\n" + rest)))) == Some(team)
  {
    KeyLiteral(key);
    TeamLiteral(team);
    SearchQuotedTeam(key, team, rest);
  }

  lemma SearchQuotedTeam(key: string, team: string, rest: string)
    requires key == KEYWORD && IsTeam(team)
    ensures Search("\"" + key + "\"" + (" = " + ("\"" + team + "\"" + (";\n" + rest)))) == Some(team)
  {
    var m := Match("\"", "\"", " ", " ", "\"", team, "\"", "");
    TeamText(m, team, rest);
    MatchFound(m, "\n" + rest);
    SearchFound(m.Text("\n" + rest));
  }

  lemma TeamText(m: Match, team: string, rest: string)
    requires m == Match("\"", "\"", " ", " ", "\"", team, "\"", "")
    ensures m.Text("\n" + rest) == "\"" + KEYWORD + "\"" + (" = " + ("\"" + team + "\"" + (";\n" + rest)))
  {
    var value := "\"" + team + "\"" + (";\n" + rest);
    assert m.AfterEquals("\n" + rest) == " " + value;
    assert m.AfterKeyword("\n" + rest) == "\"" + (" = " + value);
  }

  lemma SearchClose(tabs: string, rest: string)
    requires 'D' !in tabs && Closed(rest)
    ensures Search(tabs + "}" + rest) == Search(rest)
  {
    SkipToken(tabs + "}", rest);
  }

  lemma SearchEntry(e: Entry, depth: nat, rest: string)
    requires TameEntry(e) && Closed(rest)
    ensures Search(RenderEntry(e, depth) + rest) == Or(TeamEntry(e), Search(rest))
    decreases e, 1
  {
    var after := Render(e.value, depth + 1) + (";\n" + rest);
    var body := Json.Literal(e.key) + (" = " + after);
    EntryThen(e, depth, rest);
    SkipToken(Tabs(depth) + "\t", body);
    if e.key == KEYWORD {
      SearchTeam(e.key, e.value.text, rest);
    } else {
      SkipLiteral(e.key, " = " + after);
      FirstCharacter(e.value, depth + 1);
      SkipToken(" = ", after);
      match e.value {
        case Str(text) =>
          SearchString(text, rest);
        case Int(_) =>
          SkipQuiet(e.value, depth + 1, ";\n" + rest);
          SkipToken(";\n", rest);
        case List(items) =>
          SkipList(items, depth + 1, ";\n" + rest);
          SkipToken(";\n", rest);
        case Dict(entries) =>
          SearchDict(entries, depth + 1, ";\n" + rest);
          SkipToken(";\n", rest);
      }
    }
  }

  lemma SearchDict(entries: seq<Entry>, depth: nat, rest: string)
    requires TameEntries(entries) && Closed(rest)
    ensures Search(Render(Dict(entries), depth) + rest) == Or(TeamEntries(entries), Search(rest))
    decreases entries, 1
  {
    var close := Tabs(depth) + "}";
    var tail := RenderEntries(entries, depth) + (close + rest);
    Braced(RenderEntries(entries, depth), Tabs(depth), rest);
    EntriesClosed(entries, depth, close + rest);
    SkipToken("{\n", tail);
    SearchEntries(entries, depth, close + rest);
    SearchClose(Tabs(depth), rest);
  }

  lemma Braced(body: string, tabs: string, rest: string)
    ensures "{\n" + body + tabs + "}" + rest == "{\n" + (body + (tabs + "}" + rest))
  {
  }

  lemma EntriesClosed(entries: seq<Entry>, depth: nat, rest: string)
    requires Closed(rest)
    ensures Closed(RenderEntries(entries, depth) + rest)
  {
    if entries != [] {
      var s := RenderEntry(entries[0], depth);
      assert s[0] == (Tabs(depth) + "\t")[0];
    }
  }

  /** The search finds the first team of the printed tree, or goes on to what follows. */
  lemma {:induction false} SearchEntries(entries: seq<Entry>, depth: nat, rest: string)
    requires TameEntries(entries) && Closed(rest)
    ensures Search(RenderEntries(entries, depth) + rest) == Or(TeamEntries(entries), Search(rest))
    decreases entries, 0
  {
    if entries == [] {
      assert "" + rest == rest;
    } else {
      var tail := RenderEntries(entries[1..], depth) + rest;
      Associate(RenderEntry(entries[0], depth), RenderEntries(entries[1..], depth), rest);
      EntriesClosed(entries[1..], depth, rest);
      SearchEntry(entries[0], depth, tail);
      SearchEntries(entries[1..], depth, rest);
    }
  }
}
