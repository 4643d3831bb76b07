/**
 * The two request-parameter normalisers of server.py: `build_symbol`, which
 * turns a user-entered instrument string into a six-digit KOSPI/KOSDAQ code,
 * and `parse_capital`, which reads a capital amount such as "10,000,000".
 */
module Inputs {
  import opened Wrappers
  import opened Text

  // ---------------------------------------------------------------------
  // build_symbol
  // ---------------------------------------------------------------------

  /**
   * `build_symbol`: the last six digits of the input, or "" when the input
   * holds fewer than six digits (in particular when it is empty).
   */
  function BuildSymbol(raw: string): (code: string)
    ensures code == [] || (|code| == 6 && AllDigits(code))
    ensures code == [] <==> |Digits(raw)| < 6
    ensures code != [] ==> Digits(raw) == Digits(raw)[..|Digits(raw)| - 6] + code
  {
    if raw == [] then []
    else
      var digits := Digits(raw);
      if |digits| < 6 then [] else digits[|digits| - 6..]
  }

  /**
   * A six-digit code followed only by non-digits is found whatever precedes
   * it: exchange suffixes and company-name prefixes are ignored.
   */
  lemma TrailingCodeIsFound(prefix: string, code: string, suffix: string)
    requires |code| == 6 && AllDigits(code)
    requires Digits(suffix) == []
    ensures BuildSymbol(prefix + code + suffix) == code
  {
    DigitsAppend(prefix + code, suffix);
    DigitsAppend(prefix, code);
    assert Digits(code) == code;
    var d := Digits(prefix + code + suffix);
    assert d == Digits(prefix) + code;
    assert d[|d| - 6..] == code;
  }

  /** A code that is already normalised is left unchanged. */
  lemma BuildSymbolIdempotent(raw: string)
    ensures BuildSymbol(BuildSymbol(raw)) == BuildSymbol(raw)
  {
    var code := BuildSymbol(raw);
    if code != [] {
      assert code == [] + code + [];
      TrailingCodeIsFound([], code, []);
    }
  }

  /** Characters other than digits never change the code. */
  lemma BuildSymbolIgnoresNonDigit(a: string, c: char, b: string)
    requires !IsDigit(c)
    ensures BuildSymbol(a + [c] + b) == BuildSymbol(a + b)
  {
    DigitsAppend(a + [c], b);
    DigitsAppend(a, [c]);
    DigitsAppend(a, b);
    assert Digits([c]) == [];
    assert Digits(a + [c] + b) == Digits(a + b);
  }

  /** The examples of the function's documentation. */
  lemma BuildSymbolExamplePlain()
    ensures BuildSymbol("005930") == "005930"
  {
    var code := "005930";
    assert Digits(code) == code;
    assert Digits(code)[|code| - 6..] == code;
  }

  lemma BuildSymbolExampleSuffix()
    ensures BuildSymbol("005930.KS") == "005930"
  {
    assert Digits(".KS") == [];
    TrailingCodeIsFound("", "005930", ".KS");
    assert "" + "005930" + ".KS" == "005930.KS";
  }

  lemma BuildSymbolExamplePrefix()
    ensures BuildSymbol("삼성전자005930") == "005930"
  {
    TrailingCodeIsFound("삼성전자", "005930", "");
    assert "삼성전자" + "005930" + "" == "삼성전자005930";
  }

  /** Fewer than six digits are rejected, whatever surrounds them. */
  lemma BuildSymbolRejectsShortCode()
    ensures BuildSymbol("") == ""
    ensures BuildSymbol("05930.KS") == ""
  {
    ShortCodeSpelling();
    DigitsAppend("05930", ".KS");
    assert Digits("05930") == "05930";
    assert Digits(".KS") == [];
  }

  lemma ShortCodeSpelling()
    ensures "05930" + ".KS" == "05930.KS"
  {
  }

  // ---------------------------------------------------------------------
  // parse_capital
  // ---------------------------------------------------------------------

  /** The number of occurrences of `c` in `s`. */
  function CountChar(s: string, c: char): (n: nat)
    ensures n <= |s|
    ensures n == 0 <==> c !in s
  {
    if s == [] then 0 else (if s[0] == c then 1 else 0) + CountChar(s[1..], c)
  }

  /** The position of the first '.', or |s| when there is none. */
  function DotIndex(s: string): (i: nat)
    ensures i <= |s|
    ensures i < |s| ==> s[i] == '.'
    ensures forall j :: 0 <= j < i ==> s[j] != '.'
  {
    if s == [] || s[0] == '.' then 0 else 1 + DotIndex(s[1..])
  }

  /**
   * A non-negative decimal number as written: `units` scaled down by
   * `scale` decimal places (12.5 is Decimal(125, 1)).
   */
  datatype Decimal = Decimal(units: nat, scale: nat)

  /** The real number a decimal stands for. */
  function ToReal(d: Decimal): (v: real)
    ensures v >= 0.0
    ensures v > 0.0 <==> d.units > 0
    ensures d.scale == 0 ==> v == d.units as real
  {
    d.units as real / Pow10(d.scale) as real
  }

  /** Before the first dot of a cleaned string there are only digits. */
  lemma WholePartIsDigits(t: string)
    requires AllDecimalChars(t)
    ensures AllDigits(t[..DotIndex(t)])
  {
    var whole := t[..DotIndex(t)];
    assert forall j :: 0 <= j < |whole| ==> whole[j] == t[j];
  }

  lemma NoDotInDigits(s: string)
    requires AllDigits(s)
    ensures '.' !in s
  {
    assert forall j :: 0 <= j < |s| ==> s[j] != '.';
  }

  lemma DecimalSuffix(t: string, k: nat)
    requires AllDecimalChars(t) && k <= |t|
    ensures AllDecimalChars(t[k..])
  {
    var rest := t[k..];
    assert forall j :: 0 <= j < |rest| ==> rest[j] == t[k + j];
  }

  /** Splitting a cleaned string at its first dot. */
  lemma SplitAtFirstDot(t: string)
    requires AllDecimalChars(t)
    requires DotIndex(t) < |t|
    ensures t == t[..DotIndex(t)] + (['.'] + t[DotIndex(t) + 1..])
    ensures '.' !in t[..DotIndex(t)]
    ensures AllDecimalChars(t[DotIndex(t) + 1..])
  {
    var i := DotIndex(t);
    SplitAt(t, i);
    WholePartIsDigits(t);
    NoDotInDigits(t[..i]);
    DecimalSuffix(t, i + 1);
  }

  /**
   * Python's `float()` on an integer part and what follows the first dot:
   * at least one digit overall and no second dot; the value is the integer
   * part plus the fractional digits scaled down by their count. Anything
   * else ("", ".", "1.2.3") is a `ValueError`, here `None`.
   */
  function ReadParts(whole: string, frac: string): (r: Option<Decimal>)
    requires AllDigits(whole) && AllDecimalChars(frac)
    ensures r.None? <==> '.' in frac || (whole == [] && frac == [])
    ensures r.Some? ==> AllDigits(whole + frac) && r.value.scale == |frac|
                        && r.value.units == NatValue(whole + frac)
  {
    if '.' in frac || (whole == [] && frac == []) then None
    else
      assert AllDigits(frac) by {
        assert forall j :: 0 <= j < |frac| ==> frac[j] in frac;
      }
      NatValueAppend(whole, frac);
      Some(Decimal(NatValue(whole) * Pow10(|frac|) + NatValue(frac), |frac|))
  }

  /**
   * Python's `float()` on a string made of digits and dots: it succeeds
   * exactly when there is a digit and at most one dot, and then reads the
   * digits as one number scaled down by the digits after the dot.
   */
  function ReadDecimal(t: string): (r: Option<Decimal>)
    requires AllDecimalChars(t)
    ensures r.Some? <==> Digits(t) != [] && CountChar(t, '.') <= 1
    ensures r.Some? ==> r.value == SpelledDecimal(t)
  {
    var i := DotIndex(t);
    WholePartIsDigits(t);
    if i == |t| then
      assert t[..i] == t;
      SpelledWhole(t);
      ReadParts(t, [])
    else
      SplitAtFirstDot(t);
      ReadPartsWithDot(t[..i], t[i + 1..]);
      ReadParts(t[..i], t[i + 1..])
  }

  /**
   * `parse_capital`: None for an empty input, for an input with no digit or
   * dot, for a malformed decimal and for a value that is not positive;
   * otherwise the (strictly positive) decimal spelled by the input's digits
   * and dot, every other character being ignored.
   */
  function ParseCapital(raw: string): (r: Option<real>)
    ensures r.Some? ==> r.value > 0.0
  {
    if raw == [] then None
    else
      var cleaned := Cleaned(raw);
      if cleaned == [] then None
      else
        match ReadDecimal(cleaned)
        case None => None
        case Some(d) =>
          var value := ToReal(d);
          if value <= 0.0 then None else Some(value)
  }

  /** The number of digits after the first '.' (0 when there is no dot). */
  function FractionDigits(s: string): (k: nat)
    ensures k <= |s|
  {
    if s == [] then 0
    else if s[0] == '.' then |Digits(s[1..])|
    else FractionDigits(s[1..])
  }

  /**
   * Reference reading of a capital string: all its digits taken as one
   * whole number, scaled down by the number of digits that follow the first
   * dot. Meaningful when there is a digit and at most one dot.
   */
  function SpelledDecimal(raw: string): (d: Decimal)
    ensures d.units < Pow10(|Digits(raw)|)
  {
    Decimal(NatValue(Digits(raw)), FractionDigits(raw))
  }

  /** Cleaning keeps every dot. */
  lemma {:induction false} CleaningKeepsDots(s: string)
    ensures CountChar(Cleaned(s), '.') == CountChar(s, '.')
  {
    if s != [] {
      CleaningKeepsDots(s[1..]);
      var head := if IsDecimalChar(s[0]) then [s[0]] else [];
      CountCharAppend(head, Cleaned(s[1..]), '.');
    }
  }

  /** Cleaning keeps the digits after the first dot. */
  lemma {:induction false} CleaningKeepsFraction(s: string)
    ensures FractionDigits(Cleaned(s)) == FractionDigits(s)
  {
    if s != [] {
      var c := Cleaned(s);
      if s[0] == '.' {
        assert c == ['.'] + Cleaned(s[1..]);
        assert c[1..] == Cleaned(s[1..]);
        CleaningKeepsDigits(s[1..]);
      } else if IsDigit(s[0]) {
        assert c == [s[0]] + Cleaned(s[1..]);
        assert c[1..] == Cleaned(s[1..]);
        CleaningKeepsFraction(s[1..]);
      } else {
        assert c == Cleaned(s[1..]);
        CleaningKeepsFraction(s[1..]);
      }
    }
  }

  lemma {:induction false} CountCharAppend(a: string, b: string, c: char)
    ensures CountChar(a + b, c) == CountChar(a, c) + CountChar(b, c)
  {
    if a == [] {
      assert a + b == b;
    } else {
      assert (a + b)[1..] == a[1..] + b;
      CountCharAppend(a[1..], b, c);
    }
  }

  lemma {:induction false} FractionDigitsAfterWhole(whole: string, rest: string)
    requires '.' !in whole
    ensures FractionDigits(whole + rest) == FractionDigits(rest)
  {
    if whole == [] {
      assert whole + rest == rest;
    } else {
      assert (whole + rest)[1..] == whole[1..] + rest;
      FractionDigitsAfterWhole(whole[1..], rest);
    }
  }

  /** Digits on both sides of a dot. */
  lemma DigitsAroundDot(whole: string, frac: string)
    ensures Digits(whole + (['.'] + frac)) == Digits(whole) + Digits(frac)
  {
    DigitsAppend(whole, ['.'] + frac);
    DigitsAppend(['.'], frac);
    assert Digits(['.']) == [];
    assert [] + Digits(frac) == Digits(frac);
  }

  /** Dots on both sides of a dot. */
  lemma DotsAroundDot(whole: string, frac: string)
    ensures CountChar(whole + (['.'] + frac), '.') == CountChar(whole, '.') + 1 + CountChar(frac, '.')
  {
    CountCharAppend(whole, ['.'] + frac, '.');
    assert (['.'] + frac)[1..] == frac;
  }

  /** Fraction digits after the first dot. */
  lemma FractionAroundDot(whole: string, frac: string)
    requires '.' !in whole
    ensures FractionDigits(whole + (['.'] + frac)) == |Digits(frac)|
  {
    FractionDigitsAfterWhole(whole, ['.'] + frac);
    assert (['.'] + frac)[1..] == frac;
  }

  /** A string of digits spells its own value, with no fraction. */
  lemma SpelledWhole(whole: string)
    requires AllDigits(whole)
    ensures Digits(whole) == whole
    ensures CountChar(whole, '.') == 0
    ensures SpelledDecimal(whole) == Decimal(NatValue(whole), 0)
  {
    assert Digits(whole) == whole;
    assert '.' !in whole by {
      assert forall j :: 0 <= j < |whole| ==> IsDigit(whole[j]);
    }
    FractionDigitsAfterWhole(whole, []);
    assert whole + [] == whole;
  }

  /** `ReadParts` agrees with the reference reading of `whole.frac`. */
  lemma ReadPartsWithDot(whole: string, frac: string)
    requires AllDigits(whole) && AllDecimalChars(frac)
    ensures var t := whole + (['.'] + frac);
      && (ReadParts(whole, frac).Some? <==> Digits(t) != [] && CountChar(t, '.') <= 1)
      && (ReadParts(whole, frac).Some? ==> ReadParts(whole, frac).value == SpelledDecimal(t))
  {
    SpelledWhole(whole);
    DigitsAroundDot(whole, frac);
    DotsAroundDot(whole, frac);
    FractionAroundDot(whole, frac);
    if ReadParts(whole, frac).Some? {
      assert AllDigits(frac) by {
        assert forall j :: 0 <= j < |frac| ==> frac[j] in frac;
      }
      assert Digits(frac) == frac;
      NatValueAppend(whole, frac);
    }
  }

  /**
   * `parse_capital` agrees with the reference reading of the whole input:
   * `None` unless the input holds a digit and at most one dot and the value
   * it spells is positive; that value otherwise.
   */
  lemma ParseCapitalIsSpelledDecimal(raw: string)
    ensures ParseCapital(raw).Some? <==>
              Digits(raw) != [] && CountChar(raw, '.') <= 1 && SpelledDecimal(raw).units > 0
    ensures ParseCapital(raw).Some? ==> ParseCapital(raw).value == ToReal(SpelledDecimal(raw))
  {
    CleaningKeepsDigits(raw);
    CleaningKeepsDots(raw);
    CleaningKeepsFraction(raw);
  }

  /** A whole number spelled in digits reads back as itself. */
  lemma ParseCapitalSpelledNat(n: nat)
    requires n > 0
    ensures ParseCapital(Spell(n)) == Some(n as real)
  {
    var s := Spell(n);
    assert Cleaned(s) == s;
    NatValueSpell(n);
    NoDotInDigits(s);
    assert DotIndex(s) == |s|;
    assert ReadDecimal(s) == ReadParts(s, []);
    assert ReadParts(s, []) == Some(Decimal(n, 0));
  }

  /** Thousands separators, currency signs and the like are ignored. */
  lemma ParseCapitalIgnoresOtherChar(a: string, c: char, b: string)
    requires !IsDecimalChar(c)
    ensures ParseCapital(a + [c] + b) == ParseCapital(a + b)
  {
    CleanedAppend(a + [c], b);
    CleanedAppend(a, [c]);
    CleanedAppend(a, b);
    assert Cleaned([c]) == [];
    assert Cleaned(a + [c] + b) == Cleaned(a + b);
  }

  /** The documented example: thousands separators are dropped. */
  lemma ParseCapitalGroupedExample()
    ensures ParseCapital("10,000,000") == Some(10000000.0)
  {
    GroupedSpelling();
    ParseCapitalIgnoresOtherChar("10", ',', "000,000");
    ParseCapitalIgnoresOtherChar("10000", ',', "000");
    TenMillionSpelling();
    ParseCapitalSpelledNat(10000000);
  }

  lemma GroupedSpelling()
    ensures "10" + [','] + "000,000" == "10,000,000"
    ensures "10" + "000,000" == "10000" + [','] + "000"
    ensures "10000" + "000" == "10000000"
  {
  }

  lemma TenMillionSpelling()
    ensures Spell(10000000) == "10000000"
  {
  }

  /** Inputs that read as nothing, as a malformed decimal or as zero. */
  lemma ParseCapitalRejectsEmpty()
    ensures ParseCapital("") == None
    ensures ParseCapital("abc") == None
  {
    assert Cleaned("abc") == [];
  }

  lemma ParseCapitalRejectsLoneDot()
    ensures ParseCapital(".") == None
  {
    ParseCapitalIsSpelledDecimal(".");
    assert Digits(".") == [];
  }

  lemma ParseCapitalRejectsTwoDots()
    ensures ParseCapital("1.2.3") == None
  {
    ParseCapitalIsSpelledDecimal("1.2.3");
    assert CountChar("1.2.3", '.') == 2;
  }

  /** A capital whose digits read as zero is not positive and is rejected. */
  lemma ParseCapitalRejectsZeroValue(raw: string)
    requires NatValue(Digits(raw)) == 0
    ensures ParseCapital(raw) == None
  {
    ParseCapitalIsSpelledDecimal(raw);
  }

  lemma ParseCapitalRejectsZero()
    ensures ParseCapital("0.00") == None
  {
    ZeroDigits();
    ParseCapitalRejectsZeroValue("0.00");
  }

  lemma ZeroDigits()
    ensures NatValue(Digits("0.00")) == 0
  {
    assert Digits("0.00") == "000";
  }
}
