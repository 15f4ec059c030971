/**
 * The stock-code format the dashboard accepts before it sends anything:
 * the regular expression `^[0-9]{6}\.(SH|SZ)$`, applied to the trimmed,
 * upper-cased contents of the input field.
 */
module Ticker {
  import opened JsText

  /** The two exchanges a code may name: Shanghai and Shenzhen. */
  datatype Exchange = SH | SZ

  function Suffix(x: Exchange): string
  {
    match x
    case SH => "SH"
    case SZ => "SZ"
  }

  predicate IsAsciiDigit(c: char)
  {
    '0' <= c <= '9'
  }

  predicate AllDigits(s: string)
  {
    forall i :: 0 <= i < |s| ==> IsAsciiDigit(s[i])
  }

  /** `/^[0-9]{6}\.(SH|SZ)$/.test(code)`, position by position. */
  predicate IsTicker(code: string)
  {
    |code| == 9 && AllDigits(code[..6]) && code[6] == '.'
    && (code[7..] == "SH" || code[7..] == "SZ")
  }

  /** The language of the pattern, built from its parts: six digits, a dot, an exchange. */
  function Compose(digits: string, x: Exchange): string
  {
    digits + "." + Suffix(x)
  }

  function ExchangeOf(code: string): Exchange
    requires IsTicker(code)
  {
    if code[7..] == "SH" then SH else SZ
  }

  /** Every string the pattern describes passes the validator. */
  lemma ComposedIsTicker(digits: string, x: Exchange)
    requires |digits| == 6 && AllDigits(digits)
    ensures IsTicker(Compose(digits, x))
  {
    var c := Compose(digits, x);
    assert c[..6] == digits;
    assert c[7..] == Suffix(x);
  }

  /** Every string the validator passes is described by the pattern. */
  lemma TickerDecomposes(code: string)
    requires IsTicker(code)
    ensures code == Compose(code[..6], ExchangeOf(code))
  {
    assert code == code[..6] + [code[6]] + code[7..];
  }

  /** What `queryStock` checks: `value.trim().toUpperCase()`. */
  function Normalize(raw: string): (code: string)
    ensures code == [] <==> AllWhitespace(raw)
  {
    TrimEmptyIff(raw);
    ToUpperCase(Trim(raw))
  }

  /**
   * Surrounding whitespace and a lower-case exchange suffix are tolerated:
   * any padding of six digits, a dot and a suffix that upper-cases to `SH`
   * or `SZ` normalises to the canonical code, which the validator accepts.
   */
  lemma NormalizeAcceptsPaddedCode(lead: string, digits: string, suffix: string, trail: string, x: Exchange)
    requires AllWhitespace(lead) && AllWhitespace(trail)
    requires |digits| == 6 && AllDigits(digits)
    requires ToUpperCase(suffix) == Suffix(x)
    ensures Normalize(lead + digits + "." + suffix + trail) == Compose(digits, x)
    ensures IsTicker(Normalize(lead + digits + "." + suffix + trail))
  {
    var core := digits + "." + suffix;
    CoreEnds(digits, suffix, x);
    assert lead + digits + "." + suffix + trail == lead + core + trail;
    TrimPadded(lead, core, trail);
    UpperCanonical(digits, suffix, x);
    ComposedIsTicker(digits, x);
  }

  lemma CoreEnds(digits: string, suffix: string, x: Exchange)
    requires |digits| == 6 && AllDigits(digits)
    requires ToUpperCase(suffix) == Suffix(x)
    ensures var core := digits + "." + suffix;
      core != [] && !IsJsWhitespace(core[0]) && !IsJsWhitespace(core[|core| - 1])
  {
    var core := digits + "." + suffix;
    assert |suffix| == 2;
    assert core[0] == digits[0];
    assert core[|core| - 1] == suffix[1];
    assert UpperChar(suffix[1]) == Suffix(x)[1];
  }

  lemma UpperCanonical(digits: string, suffix: string, x: Exchange)
    requires |digits| == 6 && AllDigits(digits)
    requires ToUpperCase(suffix) == Suffix(x)
    ensures ToUpperCase(digits + "." + suffix) == Compose(digits, x)
  {
    var core := digits + "." + suffix;
    var up := ToUpperCase(core);
    var want := Compose(digits, x);
    assert |up| == |want| == 9;
    forall i | 0 <= i < 9 ensures up[i] == want[i] {
      if i < 6 {
        assert core[i] == digits[i] && want[i] == digits[i];
      } else if i == 6 {
        assert core[i] == '.' && want[i] == '.';
      } else {
        assert core[i] == suffix[i - 7] && want[i] == Suffix(x)[i - 7];
      }
    }
  }

  /** The two codes the format message shows pass; near misses (five digits, another exchange, a lower-case or padded code) fail. */
  lemma ValidatorExamples()
    ensures IsTicker("600000.SH") && IsTicker("000001.SZ")
    ensures !IsTicker("60000.SH") && !IsTicker("600000.BJ") && !IsTicker("600000.sh")
    ensures !IsTicker(" 600000.SH") && !IsTicker("600000.SH\n")
  {
    assert "600000.SH"[7..] == "SH";
    assert "000001.SZ"[7..] == "SZ";
    assert "600000.BJ"[7..] == "BJ";
    assert "600000.sh"[7..] == "sh";
  }

  /** `" 600000.sh "` typed into the field is checked as `600000.SH`, and passes. */
  lemma NormalizeExample()
    ensures Normalize(" 600000.sh ") == "600000.SH"
    ensures IsTicker(Normalize(" 600000.sh "))
  {
    var sh := ToUpperCase("sh");
    assert sh[0] == 'S' && sh[1] == 'H';
    assert sh == Suffix(SH);
    assert AllDigits("600000");
    NormalizeAcceptsPaddedCode(" ", "600000", "sh", " ", SH);
    assert " " + "600000" + "." + "sh" + " " == " 600000.sh ";
  }
}
