/** `render` of scripts/generate_project.py and the parser that inverts it. */
module Printer {
  import opened Text
  import Json

  /** What `render` is given: dictionaries (in insertion order), lists, strings and integers. */
  datatype Value =
    | Str(text: string)
    | Int(number: int)
    | List(items: seq<Value>)
    | Dict(entries: seq<Entry>)

  datatype Entry = Entry(key: string, value: Value)

  function Tabs(depth: nat): string {
    seq(depth, _ => '\t')
  }

  function Render(v: Value, depth: nat): string
    decreases v, 1
  {
    match v
    case Dict(entries) => "{\n" + RenderEntries(entries, depth) + Tabs(depth) + "}"
    case List(items) => "(" + RenderItems(items, depth) + ")"
    case Str(text) => Json.Literal(text)
    case Int(number) => Json.Integer(number)
  }

  function RenderEntry(e: Entry, depth: nat): string
    decreases e, 2
  {
    Tabs(depth) + "\t" + Json.Literal(e.key) + " = " + Render(e.value, depth + 1) + ";\n"
  }

  function RenderEntries(entries: seq<Entry>, depth: nat): string
    decreases entries, 0
  {
    if entries == [] then "" else RenderEntry(entries[0], depth) + RenderEntries(entries[1..], depth)
  }

  function RenderItems(items: seq<Value>, depth: nat): string
    decreases items, 0
  {
    if items == [] then ""
    else if |items| == 1 then Render(items[0], depth)
    else Render(items[0], depth) + ", " + RenderItems(items[1..], depth)
  }

  // ---------- the parser ----------

  /** Accepts a fixed piece of punctuation. */
  function Expect(s: string, token: string): (r: Option<string>)
    ensures r.Some? ==> |r.value| == |s| - |token|
  {
    if token <= s then Some(s[|token|..]) else None
  }

  lemma ExpectToken(token: string, rest: string)
    ensures Expect(token + rest, token) == Some(rest)
  {
    assert (token + rest)[|token|..] == rest;
  }

  predicate IsTab(c: char) {
    c == '\t'
  }

  function Parse(s: string): (r: Option<Parsed<Value>>)
    ensures r.Some? ==> |r.value.rest| < |s|
    decreases |s|, 0
  {
    if s == "" then None
    else if s[0] == '{' then
      var body :- Expect(s, "{\n");
      var entries :- ParseEntries(body);
      Some(Parsed(Dict(entries.value), entries.rest))
    else if s[0] == '(' then
      if |s| > 1 && s[1] == ')' then Some(Parsed(List([]), s[2..]))
      else
        var items :- ParseItems(s[1..]);
        Some(Parsed(List(items.value), items.rest))
    else if s[0] == '"' then
      var text :- Json.ReadLiteral(s);
      Some(Parsed(Str(text.value), text.rest))
    else
      var number :- Json.ReadInteger(s);
      Some(Parsed(Int(number.value), number.rest))
  }

  /** The entries of a dictionary and its closing brace; indentation is insignificant. */
  function ParseEntries(s: string): (r: Option<Parsed<seq<Entry>>>)
    ensures r.Some? ==> |r.value.rest| < |s|
    decreases |s|, 1
  {
    var t := s[Run(s, IsTab)..];
    if t != "" && t[0] == '}' then Some(Parsed([], t[1..]))
    else
      var key :- Json.ReadLiteral(t);
      var afterEquals :- Expect(key.rest, " = ");
      var value :- Parse(afterEquals);
      var afterLine :- Expect(value.rest, ";\n");
      var more :- ParseEntries(afterLine);
      Some(Parsed([Entry(key.value, value.value)] + more.value, more.rest))
  }

  /** The items of a non-empty list and its closing parenthesis. */
  function ParseItems(s: string): (r: Option<Parsed<seq<Value>>>)
    ensures r.Some? ==> |r.value.rest| < |s|
    decreases |s|, 1
  {
    var item :- Parse(s);
    if item.rest != "" && item.rest[0] == ')' then Some(Parsed([item.value], item.rest[1..]))
    else
      var afterComma :- Expect(item.rest, ", ");
      var more :- ParseItems(afterComma);
      Some(Parsed([item.value] + more.value, more.rest))
  }

  // ---------- the round trip ----------

  /** Each kind of value announces itself by its first character. */
  lemma FirstCharacter(v: Value, depth: nat)
    ensures Render(v, depth) != ""
    ensures var c := Render(v, depth)[0];
            match v
            case Dict(_) => c == '{'
            case List(_) => c == '('
            case Str(_) => c == '"'
            case Int(_) => IsDigit(c) || c == '-'
  {
    if v.Int? {
      Json.IntegerShape(v.number);
      assert Json.Integer(v.number)[0] in Json.Integer(v.number);
    }
  }

  /** Parsing printed text returns the printed value, entry order included, and
      leaves whatever follows it untouched, at every depth. */
  lemma {:induction false} RoundTrip(v: Value, depth: nat, rest: string)
    requires rest == "" || !IsDigit(rest[0])
    ensures Parse(Render(v, depth) + rest) == Some(Parsed(v, rest))
    decreases v, 1
  {
    match v {
      case Dict(entries) =>
        EntriesRoundTrip(entries, depth, rest);
        OpenDict(RenderEntries(entries, depth), Tabs(depth), rest, entries);
      case List(items) =>
        if items != [] {
          ItemsRoundTrip(items, depth, rest);
          FirstCharacter(items[0], depth);
          assert RenderItems(items, depth)[0] == Render(items[0], depth)[0];
        }
        OpenList(RenderItems(items, depth), rest, items);
      case Str(text) =>
        Json.LiteralRoundTrip(text, rest);
      case Int(number) =>
        FirstCharacter(v, depth);
        Json.IntegerRoundTrip(number, rest);
        assert (Render(v, depth) + rest)[0] == Render(v, depth)[0];
    }
  }

  lemma OpenDict(body: string, tabs: string, rest: string, entries: seq<Entry>)
    requires ParseEntries(body + (tabs + "}" + rest)) == Some(Parsed(entries, rest))
    ensures Parse("{\n" + body + tabs + "}" + rest) == Some(Parsed(Dict(entries), rest))
  {
    var inner := body + (tabs + "}" + rest);
    ExpectToken("{\n", inner);
    assert "{\n" + body + tabs + "}" + rest == "{\n" + inner;
    assert ("{\n" + inner)[0] == '{';
  }

  lemma OpenList(body: string, rest: string, items: seq<Value>)
    requires items == [] ==> body == ""
    requires items != [] ==> body != "" && body[0] != ')'
    requires items != [] ==> ParseItems(body + ")" + rest) == Some(Parsed(items, rest))
    ensures Parse("(" + body + ")" + rest) == Some(Parsed(List(items), rest))
  {
    var s := "(" + body + ")" + rest;
    if items == [] {
      assert s[2..] == rest;
    } else {
      assert s[1..] == body + ")" + rest;
      assert s[1] == body[0];
    }
  }

  lemma {:induction false} EntriesRoundTrip(entries: seq<Entry>, depth: nat, rest: string)
    ensures ParseEntries(RenderEntries(entries, depth) + (Tabs(depth) + "}" + rest)) == Some(Parsed(entries, rest))
    decreases entries, 0
  {
    var close := Tabs(depth) + "}" + rest;
    if entries == [] {
      NoEntry(Tabs(depth), rest);
      assert "" + close == close;
    } else {
      var e, more := entries[0], entries[1..];
      var tail := RenderEntries(more, depth) + close;
      EntriesRoundTrip(more, depth, rest);
      RoundTrip(e.value, depth + 1, ";\n" + tail);
      OneEntry(e, Tabs(depth) + "\t", Render(e.value, depth + 1), tail, more, rest);
      EntryThen(e, depth, tail);
      Associate(RenderEntry(e, depth), RenderEntries(more, depth), close);
      assert [e] + more == entries;
    }
  }

  lemma NoEntry(tabs: string, rest: string)
    requires forall i | 0 <= i < |tabs| :: IsTab(tabs[i])
    ensures ParseEntries(tabs + "}" + rest) == Some(Parsed([], rest))
  {
    var s := tabs + ("}" + rest);
    assert s == tabs + "}" + rest;
    RunIs(tabs, "}" + rest, IsTab);
    assert s[|tabs|..] == "}" + rest;
    assert ("}" + rest)[1..] == rest;
  }

  lemma EntryThen(e: Entry, depth: nat, tail: string)
    ensures RenderEntry(e, depth) + tail
         == Tabs(depth) + "\t" + (Json.Literal(e.key) + (" = " + (Render(e.value, depth + 1) + (";\n" + tail))))
  {
    NestSix(Tabs(depth) + "\t", Json.Literal(e.key), " = ", Render(e.value, depth + 1), ";\n", tail);
  }

  lemma NestSix(a: string, b: string, c: string, d: string, e: string, f: string)
    ensures a + b + c + d + e + f == a + (b + (c + (d + (e + f))))
  {
  }

  lemma OneEntry(e: Entry, tabs: string, value: string, tail: string, more: seq<Entry>, rest: string)
    requires forall i | 0 <= i < |tabs| :: IsTab(tabs[i])
    requires Parse(value + (";\n" + tail)) == Some(Parsed(e.value, ";\n" + tail))
    requires ParseEntries(tail) == Some(Parsed(more, rest))
    ensures ParseEntries(tabs + (Json.Literal(e.key) + (" = " + (value + (";\n" + tail))))) == Some(Parsed([e] + more, rest))
  {
    var afterEquals := value + (";\n" + tail);
    var afterKey := " = " + afterEquals;
    var body := Json.Literal(e.key) + afterKey;
    assert body[0] == '"';
    RunIs(tabs, body, IsTab);
    assert (tabs + body)[|tabs|..] == body;
    Json.LiteralRoundTrip(e.key, afterKey);
    ExpectToken(" = ", afterEquals);
    ExpectToken(";\n", tail);
    KeyedEntry(tabs + body, body, e, afterKey, afterEquals, ";\n" + tail, tail, more, rest);
  }

  /** One step of the entry parser, from the steps of its parts. */
  lemma KeyedEntry(s: string, t: string, e: Entry, afterKey: string, afterEquals: string,
                   afterValue: string, tail: string, more: seq<Entry>, rest: string)
    requires t == s[Run(s, IsTab)..] && t != "" && t[0] != '}'
    requires Json.ReadLiteral(t) == Some(Parsed(e.key, afterKey))
    requires Expect(afterKey, " = ") == Some(afterEquals)
    requires Parse(afterEquals) == Some(Parsed(e.value, afterValue))
    requires Expect(afterValue, ";\n") == Some(tail)
    requires ParseEntries(tail) == Some(Parsed(more, rest))
    ensures ParseEntries(s) == Some(Parsed([e] + more, rest))
  {
  }

  lemma {:induction false} ItemsRoundTrip(items: seq<Value>, depth: nat, rest: string)
    requires items != []
    ensures ParseItems(RenderItems(items, depth) + ")" + rest) == Some(Parsed(items, rest))
    decreases items, 0
  {
    var first := Render(items[0], depth);
    if |items| == 1 {
      assert first + ")" + rest == first + (")" + rest);
      RoundTrip(items[0], depth, ")" + rest);
      OneItem(items[0], first, ")" + rest, [], rest);
      assert [items[0]] == items;
    } else {
      var tail := RenderItems(items[1..], depth) + ")" + rest;
      assert first + ", " + RenderItems(items[1..], depth) + ")" + rest == first + (", " + tail);
      RoundTrip(items[0], depth, ", " + tail);
      ItemsRoundTrip(items[1..], depth, rest);
      OneItem(items[0], first, ", " + tail, items[1..], rest);
      assert [items[0]] + items[1..] == items;
    }
  }

  /** One list item: the last one before the parenthesis, or one with more to come. */
  lemma OneItem(item: Value, text: string, after: string, more: seq<Value>, rest: string)
    requires Parse(text + after) == Some(Parsed(item, after))
    requires more == [] ==> after == ")" + rest
    requires more != [] ==> ", " <= after && ParseItems(after[2..]) == Some(Parsed(more, rest))
    ensures ParseItems(text + after) == Some(Parsed([item] + more, rest))
  {
    if more == [] {
      assert after[1..] == rest;
      assert [item] + more == [item];
    }
  }

  lemma ParsePrinted(v: Value, depth: nat, s: string)
    requires s == Render(v, depth)
    ensures Parse(s) == Some(Parsed(v, ""))
  {
    RoundTrip(v, depth, "");
    assert s + "" == s;
  }

  /** Different values never print alike, even when printed at different depths. */
  lemma RenderInjective(v: Value, d: nat, w: Value, e: nat)
    requires Render(v, d) == Render(w, e)
    ensures v == w
  {
    ParsePrinted(v, d, Render(v, d));
    ParsePrinted(w, e, Render(v, d));
  }

  // ---------- the layout ----------

  lemma TabsAre()
    ensures Tabs(0) == "" && Tabs(1) == "\t" && Tabs(1) + "\t" == "\t\t"
  {
  }

  lemma OneLine(e: Entry, depth: nat)
    ensures RenderEntries([e], depth) == Tabs(depth) + "\t" + Json.Literal(e.key) + " = " + Render(e.value, depth + 1) + ";\n"
  {
    assert [e][1..] == [];
    assert RenderEntries([e], depth) == RenderEntry(e, depth) + "";
  }

  lemma Nested(outer: string, inner: string, item: string)
    ensures "{\n" + ("" + "\t" + outer + " = " + ("{\n" + ("\t" + "\t" + inner + " = " + item + ";\n") + "\t" + "}") + ";\n") + "" + "}"
         == "{\n\t" + outer + " = {\n\t\t" + inner + " = " + item + ";\n\t};\n}"
  {
  }

  /** Each entry stands on a line of its own, indented by one tab for each dictionary around it, and so does
      each closing brace. */
  lemma Layout(outer: string, inner: string, item: Value)
    requires item.Str? || item.Int?
    ensures Render(Dict([Entry(outer, Dict([Entry(inner, item)]))]), 0)
         == "{\n\t" + Json.Literal(outer) + " = {\n\t\t" + Json.Literal(inner) + " = " + Render(item, 0) + ";\n\t};\n}"
  {
    TabsAre();
    OneLine(Entry(outer, Dict([Entry(inner, item)])), 0);
    OneLine(Entry(inner, item), 1);
    Nested(Json.Literal(outer), Json.Literal(inner), Render(item, 0));
  }
}
