/** The character classes of the regular expressions, character by character. */
module Characters {
  import opened Text

  const CONTROLS := "\t\n\U{0b}\U{0c}\r\U{1c}\U{1d}\U{1e}\U{1f} "
  const WIDTHS := "\U{2000}\U{2001}\U{2002}\U{2003}\U{2004}\U{2005}\U{2006}\U{2007}\U{2008}\U{2009}\U{200a}"
  const OTHERS := "\U{85}\U{a0}\U{1680}\U{2028}\U{2029}\U{202f}\U{205f}\U{3000}"

  /** What `\s` matches in text. */
  const SPACES := CONTROLS + WIDTHS + OTHERS

  lemma InThree(a: string, b: string, d: string, c: char)
    ensures c in a + b + d <==> c in a || c in b || c in d
  {
  }

  lemma ControlsAre(c: char)
    ensures c in CONTROLS <==> 0x09 <= c as int <= 0x0d || 0x1c <= c as int <= 0x20
  {
    var n := c as int;
    if 0x09 <= n <= 0x0d {
      assert CONTROLS[n - 0x09] == c;
    } else if 0x1c <= n <= 0x20 {
      assert CONTROLS[n - 0x1c + 5] == c;
    }
  }

  lemma WidthsAre(c: char)
    ensures c in WIDTHS <==> 0x2000 <= c as int <= 0x200a
  {
    if 0x2000 <= c as int <= 0x200a {
      assert WIDTHS[c as int - 0x2000] == c;
    }
  }

  lemma OthersAre(c: char)
    ensures c in OTHERS <==> var n := c as int;
              n == 0x85 || n == 0xa0 || n == 0x1680 || n == 0x2028 || n == 0x2029 || n == 0x202f || n == 0x205f || n == 0x3000
  {
  }

  lemma SpacesAre(c: char)
    ensures c in SPACES <==> IsSpace(c)
  {
    InThree(CONTROLS, WIDTHS, OTHERS, c);
    ControlsAre(c);
    WidthsAre(c);
    OthersAre(c);
  }

  lemma BulletsAre(c: char)
    ensures c in "-*+" <==> c == '-' || c == '*' || c == '+'
  {
    assert "-*+"[0] == '-' && "-*+"[1] == '*' && "-*+"[2] == '+';
  }

  lemma BlanksAre(c: char)
    ensures c in " \t" <==> IsBlank(c)
  {
    assert " \t"[0] == ' ' && " \t"[1] == '\t';
  }
}
