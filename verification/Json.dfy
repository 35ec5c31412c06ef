/** The atoms of `json.dumps`: string literals with every non-ASCII character escaped
    (section 7 of RFC 8259) and decimal integers, and readers that invert them. */
module Json {
  import opened Text

  // ---------- hexadecimal code units ----------

  function HexDigit(n: nat): char
    requires n < 16
  {
    if n < 10 then ('0' as int + n) as char else ('a' as int + n - 10) as char
  }

  /** Section 7 of RFC 8259 admits both cases of a hexadecimal digit. */
  function HexValue(c: char): (r: Option<nat>)
    ensures r.Some? ==> r.value < 16
  {
    if '0' <= c <= '9' then Some(c as int - '0' as int)
    else if 'a' <= c <= 'f' then Some(c as int - 'a' as int + 10)
    else if 'A' <= c <= 'F' then Some(c as int - 'A' as int + 10)
    else None
  }

  /** The four digits of a code unit. */
  function Hex4(n: nat): (s: string)
    requires n < 0x10000
    ensures |s| == 4
  {
    var m := n / 16;
    var l := m / 16;
    [HexDigit(l / 16), HexDigit(l % 16), HexDigit(m % 16), HexDigit(n % 16)]
  }

  function ReadHex4(s: string): (r: Option<Parsed<nat>>)
    ensures r.Some? ==> r.value.value < 0x10000 && |r.value.rest| < |s|
  {
    if |s| < 4 then None else
      var a :- HexValue(s[0]);
      var b :- HexValue(s[1]);
      var c :- HexValue(s[2]);
      var d :- HexValue(s[3]);
      Some(Parsed(a * 0x1000 + b * 0x100 + c * 16 + d, s[4..]))
  }

  lemma Hex4RoundTrip(n: nat, rest: string)
    requires n < 0x10000
    ensures ReadHex4(Hex4(n) + rest) == Some(Parsed(n, rest))
  {
    assert (Hex4(n) + rest)[4..] == rest;
  }

  // ---------- characters ----------

  /** The letter of a two-character escape, for the characters that have one. */
  function ShortEscape(c: char): Option<char> {
    if c == '"' || c == '\\' then Some(c)
    else if c == '\n' then Some('n')
    else if c == '\r' then Some('r')
    else if c == '\t' then Some('t')
    else if c as int == 12 then Some('f')
    else if c as int == 8 then Some('b')
    else None
  }

  /** A character written by number, after its `\u`: one code unit, or a surrogate pair. */
  function NumericEscape(n: nat): string
    requires n < 0x110000
  {
    if n < 0x10000 then Hex4(n) else Hex4(High(n)) + ("\\u" + Hex4(Low(n)))
  }

  function High(n: nat): (h: nat)
    requires 0x10000 <= n < 0x110000
    ensures 0xd800 <= h < 0xdc00
  {
    0xd800 + (n - 0x10000) / 0x400
  }

  function Low(n: nat): (l: nat)
    requires 0x10000 <= n < 0x110000
    ensures 0xdc00 <= l < 0xe000
  {
    0xdc00 + (n - 0x10000) % 0x400
  }

  function EscapeChar(c: char): string {
    match ShortEscape(c)
    case Some(letter) => ['\\', letter]
    case None => if ' ' <= c <= '~' then [c] else "\\u" + NumericEscape(c as int)
  }

  /** Reads what follows `\u`: a code unit, or a high surrogate with its low one. */
  function ReadNumeric(s: string): (r: Option<Parsed<char>>)
    ensures r.Some? ==> |r.value.rest| < |s|
  {
    var high :- ReadHex4(s);
    if high.value < 0xd800 || 0xe000 <= high.value then Some(Parsed(high.value as char, high.rest))
    else if 0xdc00 <= high.value || !("\\u" <= high.rest) then None
    else
      var low :- ReadHex4(high.rest[2..]);
      if low.value < 0xdc00 || 0xe000 <= low.value then None
      else Some(Parsed((0x10000 + (high.value - 0xd800) * 0x400 + (low.value - 0xdc00)) as char, low.rest))
  }

  /** The character that the letter of a two-character escape stands for. */
  function LongForm(letter: char): Option<char> {
    if letter == '"' || letter == '\\' || letter == '/' then Some(letter)
    else if letter == 'n' then Some('\n')
    else if letter == 'r' then Some('\r')
    else if letter == 't' then Some('\t')
    else if letter == 'f' then Some(12 as char)
    else if letter == 'b' then Some(8 as char)
    else None
  }

  /** Reads one character of a literal's body; control characters may not stand unescaped. */
  function ReadChar(s: string): (r: Option<Parsed<char>>)
    ensures r.Some? ==> |r.value.rest| < |s|
  {
    if s == "" || s[0] == '"' || s[0] < ' ' then None
    else if s[0] != '\\' then Some(Parsed(s[0], s[1..]))
    else if |s| < 2 then None
    else if s[1] == 'u' then ReadNumeric(s[2..])
    else
      var c :- LongForm(s[1]);
      Some(Parsed(c, s[2..]))
  }

  /** The characters that have a two-character escape are written by it, and only they. */
  lemma ShortEscapes(c: char)
    ensures EscapeChar('"') == "\\\"" && EscapeChar('\\') == "\\\\" && EscapeChar('\n') == "\\n" && EscapeChar('\r') == "\\r"
    ensures EscapeChar('\t') == "\\t" && EscapeChar(12 as char) == "\\f" && EscapeChar(8 as char) == "\\b"
    ensures |EscapeChar(c)| == 2 <==> c in ['"', '\\', '\n', '\r', '\t', 12 as char, 8 as char]
    ensures |EscapeChar(c)| == 1 <==> ' ' <= c <= '~' && c != '"' && c != '\\'
  {
  }

  /** A high and a low surrogate are recombined into a character beyond the basic plane. */
  lemma PairRoundTrip(c: char, h: nat, l: nat, rest: string)
    requires 0xd800 <= h < 0xdc00 <= l < 0xe000
    requires c as int == 0x10000 + (h - 0xd800) * 0x400 + (l - 0xdc00)
    ensures ReadNumeric(Hex4(h) + ("\\u" + Hex4(l)) + rest) == Some(Parsed(c, rest))
  {
    var tail := Hex4(l) + rest;
    var low := "\\u" + tail;
    Regroup(Hex4(h), "\\u", Hex4(l), rest);
    Hex4RoundTrip(h, low);
    Hex4RoundTrip(l, rest);
    assert low[2..] == tail;
  }

  /** A character of the basic plane is its own code unit. */
  lemma UnitRoundTrip(c: char, rest: string)
    requires c as int < 0x10000
    ensures ReadNumeric(Hex4(c as int) + rest) == Some(Parsed(c, rest))
  {
    Hex4RoundTrip(c as int, rest);
  }

  lemma NumericRoundTrip(c: char, rest: string)
    ensures ReadNumeric(NumericEscape(c as int) + rest) == Some(Parsed(c, rest))
  {
    var n := c as int;
    if n < 0x10000 {
      UnitRoundTrip(c, rest);
    } else {
      PairRoundTrip(c, High(n), Low(n), rest);
    }
  }

  lemma NumberedRoundTrip(c: char, body: string, rest: string)
    requires ReadNumeric(body + rest) == Some(Parsed(c, rest))
    ensures ReadChar("\\u" + body + rest) == Some(Parsed(c, rest))
  {
    var s := "\\u" + body + rest;
    assert s == "\\u" + (body + rest);
    assert s[0] == '\\' && s[1] == 'u' && s[2..] == body + rest;
  }

  lemma CharRoundTrip(c: char, rest: string)
    ensures ReadChar(EscapeChar(c) + rest) == Some(Parsed(c, rest))
    ensures EscapeChar(c) != "" && EscapeChar(c)[0] != '"'
  {
    if ShortEscape(c).Some? {
      ShortRoundTrip(c, rest);
    } else if ' ' <= c <= '~' {
      assert ([c] + rest)[1..] == rest;
    } else {
      NumericRoundTrip(c, rest);
      NumberedRoundTrip(c, NumericEscape(c as int), rest);
    }
  }

  lemma ShortRoundTrip(c: char, rest: string)
    requires ShortEscape(c).Some?
    ensures ReadChar(EscapeChar(c) + rest) == Some(Parsed(c, rest))
  {
    var s := EscapeChar(c) + rest;
    assert s[2..] == rest;
  }

  // ---------- string literals ----------

  function Escape(s: string): string {
    if s == "" then "" else EscapeChar(s[0]) + Escape(s[1..])
  }

  function Literal(s: string): string {
    "\"" + Escape(s) + "\""
  }

  /** Reads up to and including the closing quote. */
  function ReadBody(s: string): (r: Option<Parsed<string>>)
    ensures r.Some? ==> |r.value.rest| < |s|
    decreases |s|
  {
    if s != "" && s[0] == '"' then Some(Parsed("", s[1..]))
    else
      var c :- ReadChar(s);
      var tail :- ReadBody(c.rest);
      Some(Parsed([c.value] + tail.value, tail.rest))
  }

  function ReadLiteral(s: string): (r: Option<Parsed<string>>)
    ensures r.Some? ==> |r.value.rest| < |s|
  {
    if s != "" && s[0] == '"' then ReadBody(s[1..]) else None
  }

  lemma {:induction false} BodyRoundTrip(s: string, rest: string)
    ensures ReadBody(Escape(s) + "\"" + rest) == Some(Parsed(s, rest))
  {
    if s != "" {
      var tail := Escape(s[1..]) + "\"" + rest;
      var body := Escape(s) + "\"" + rest;
      assert body == EscapeChar(s[0]) + tail;
      CharRoundTrip(s[0], tail);
      assert body[0] == EscapeChar(s[0])[0];
      BodyRoundTrip(s[1..], rest);
      assert [s[0]] + s[1..] == s;
    } else {
      assert (Escape(s) + "\"" + rest)[1..] == rest;
    }
  }

  /** Escaping is undone by a reader of section 7's strings, and a literal is self-delimiting. */
  lemma LiteralRoundTrip(s: string, rest: string)
    ensures ReadLiteral(Literal(s) + rest) == Some(Parsed(s, rest))
  {
    assert (Literal(s) + rest)[1..] == Escape(s) + "\"" + rest;
    BodyRoundTrip(s, rest);
  }

  /** Nothing outside printable ASCII is ever written. */
  lemma {:induction false} EscapeIsPrintable(s: string)
    ensures forall c | c in Escape(s) :: ' ' <= c <= '~'
  {
    if s != "" {
      EscapeIsPrintable(s[1..]);
      EscapeCharIsPrintable(s[0]);
    }
  }

  lemma EscapeCharIsPrintable(c: char)
    ensures forall d | d in EscapeChar(c) :: ' ' <= d <= '~'
  {
  }

  // ---------- integers ----------

  function Decimal(n: nat): (s: string)
    ensures s != ""
  {
    if n < 10 then [HexDigit(n)] else Decimal(n / 10) + [HexDigit(n % 10)]
  }

  function Integer(n: int): string {
    if n < 0 then "-" + Decimal(-n) else Decimal(n)
  }

  function DecimalValue(s: string): nat
    requires forall c | c in s :: IsDigit(c)
  {
    if s == "" then 0
    else
      assert IsDigit(s[|s| - 1]);
      10 * DecimalValue(s[..|s| - 1]) + (s[|s| - 1] as int - '0' as int)
  }

  function ReadDecimal(s: string): (r: Option<Parsed<nat>>)
    ensures r.Some? ==> |r.value.rest| < |s|
  {
    var n := Run(s, IsDigit);
    if n == 0 then None else Some(Parsed(DecimalValue(s[..n]), s[n..]))
  }

  function ReadInteger(s: string): (r: Option<Parsed<int>>)
    ensures r.Some? ==> |r.value.rest| < |s|
  {
    if s != "" && s[0] == '-' then
      var n :- ReadDecimal(s[1..]);
      var negative: int := 0 - n.value;
      Some(Parsed(negative, n.rest))
    else
      var n :- ReadDecimal(s);
      var positive: int := n.value;
      Some(Parsed(positive, n.rest))
  }

  lemma {:induction false} DecimalRoundTrip(n: nat)
    ensures forall c | c in Decimal(n) :: IsDigit(c)
    ensures DecimalValue(Decimal(n)) == n
  {
    if n < 10 {
      assert DecimalValue(Decimal(n)[..0]) == 0;
    } else {
      DecimalRoundTrip(n / 10);
      var s := Decimal(n);
      assert s[..|s| - 1] == Decimal(n / 10);
    }
  }

  lemma ReadDecimalRoundTrip(n: nat, rest: string)
    requires rest == "" || !IsDigit(rest[0])
    ensures ReadDecimal(Decimal(n) + rest) == Some(Parsed(n, rest))
  {
    DecimalRoundTrip(n);
    var s := Decimal(n);
    assert forall i | 0 <= i < |s| :: s[i] in s;
    RunIs(s, rest, IsDigit);
    assert (s + rest)[..|s|] == s && (s + rest)[|s|..] == rest;
  }

  lemma NegativeRoundTrip(n: int, digits: string, rest: string)
    requires n < 0 && ReadDecimal(digits + rest) == Some(Parsed(-n, rest))
    ensures ReadInteger("-" + digits + rest) == Some(Parsed(n, rest))
  {
    var s := "-" + digits + rest;
    assert s[1..] == digits + rest && s[0] == '-';
  }

  lemma NaturalRoundTrip(n: nat, rest: string)
    requires rest == "" || !IsDigit(rest[0])
    ensures ReadInteger(Decimal(n) + rest) == Some(Parsed(n, rest))
  {
    ReadDecimalRoundTrip(n, rest);
    DecimalRoundTrip(n);
    var s := Decimal(n);
    assert s[0] in s;
    assert (s + rest)[0] == s[0];
  }

  /** An integer is read back exactly, provided no digit follows it. */
  lemma IntegerRoundTrip(n: int, rest: string)
    requires rest == "" || !IsDigit(rest[0])
    ensures ReadInteger(Integer(n) + rest) == Some(Parsed(n, rest))
  {
    if n < 0 {
      ReadDecimalRoundTrip(-n, rest);
      NegativeRoundTrip(n, Decimal(-n), rest);
    } else {
      NaturalRoundTrip(n, rest);
    }
  }

  lemma IntegerShape(n: int)
    ensures Integer(n) != ""
    ensures forall c | c in Integer(n) :: IsDigit(c) || c == '-'
  {
    DecimalRoundTrip(if n < 0 then -n else n);
  }
}
