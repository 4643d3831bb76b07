/**
 * Character classes and small string utilities used by the input
 * normalisers: the `[0-9]` and `[0-9.]` character classes of the regular
 * expressions, filtering, whitespace stripping and the value of a run of
 * decimal digits.
 */
module Text {

  /** The regular-expression class `[0-9]` (ASCII digits only). */
  predicate IsDigit(c: char) {
    '0' <= c <= '9'
  }

  /** The regular-expression class `[0-9.]`. */
  predicate IsDecimalChar(c: char) {
    IsDigit(c) || c == '.'
  }

  /**
   * The characters `str.strip()` removes: the ASCII controls tab to
   * carriage return and file to unit separator, the space, and the Unicode
   * spaces and line and paragraph separators.
   */
  predicate IsSpace(c: char) {
    ('\t' <= c <= '\r') || ('\U{001C}' <= c <= ' ') || c == '\U{0085}' || c == '\U{00A0}'
    || c == '\U{1680}' || ('\U{2000}' <= c <= '\U{200A}') || c == '\U{2028}' || c == '\U{2029}'
    || c == '\U{202F}' || c == '\U{205F}' || c == '\U{3000}'
  }

  predicate AllDigits(s: string) {
    forall i :: 0 <= i < |s| ==> IsDigit(s[i])
  }

  predicate AllDecimalChars(s: string) {
    forall i :: 0 <= i < |s| ==> IsDecimalChar(s[i])
  }

  /** The digits of `s`, in order: `re.sub(r"[^0-9]", "", s)`. */
  function Digits(s: string): (d: string)
    ensures AllDigits(d) && |d| <= |s|
    ensures AllDigits(s) ==> d == s
    ensures (forall k :: 0 <= k < |s| ==> !IsDigit(s[k])) ==> d == []
  {
    if s == [] then []
    else (if IsDigit(s[0]) then [s[0]] else []) + Digits(s[1..])
  }

  /** The digits and dots of `s`, in order: `re.sub(r"[^0-9.]", "", s)`. */
  function Cleaned(s: string): (c: string)
    ensures AllDecimalChars(c) && |c| <= |s|
    ensures AllDecimalChars(s) ==> c == s
    ensures (forall k :: 0 <= k < |s| ==> !IsDecimalChar(s[k])) ==> c == []
  {
    if s == [] then []
    else (if IsDecimalChar(s[0]) then [s[0]] else []) + Cleaned(s[1..])
  }

  lemma {:induction false} DigitsAppend(a: string, b: string)
    ensures Digits(a + b) == Digits(a) + Digits(b)
  {
    if a == [] {
      assert a + b == b;
    } else {
      var head := if IsDigit(a[0]) then [a[0]] else [];
      calc {
        Digits(a + b);
      == { assert (a + b)[0] == a[0]; assert (a + b)[1..] == a[1..] + b; }
        head + Digits(a[1..] + b);
      == { DigitsAppend(a[1..], b); }
        head + (Digits(a[1..]) + Digits(b));
      ==
        (head + Digits(a[1..])) + Digits(b);
      }
    }
  }

  lemma {:induction false} CleanedAppend(a: string, b: string)
    ensures Cleaned(a + b) == Cleaned(a) + Cleaned(b)
  {
    if a == [] {
      assert a + b == b;
    } else {
      var head := if IsDecimalChar(a[0]) then [a[0]] else [];
      calc {
        Cleaned(a + b);
      == { assert (a + b)[0] == a[0]; assert (a + b)[1..] == a[1..] + b; }
        head + Cleaned(a[1..] + b);
      == { CleanedAppend(a[1..], b); }
        head + (Cleaned(a[1..]) + Cleaned(b));
      ==
        (head + Cleaned(a[1..])) + Cleaned(b);
      }
    }
  }

  /** Cleaning keeps every digit. */
  lemma {:induction false} CleaningKeepsDigits(s: string)
    ensures Digits(Cleaned(s)) == Digits(s)
  {
    if s != [] {
      CleaningKeepsDigits(s[1..]);
      var head := if IsDecimalChar(s[0]) then [s[0]] else [];
      DigitsAppend(head, Cleaned(s[1..]));
    }
  }

  /** Removes leading whitespace. */
  function TrimStart(s: string): (r: string)
    ensures |r| <= |s| && r == s[|s| - |r|..]
    ensures r != [] ==> !IsSpace(r[0])
    ensures forall k :: 0 <= k < |s| - |r| ==> IsSpace(s[k])
  {
    if s != [] && IsSpace(s[0]) then TrimStart(s[1..]) else s
  }

  /** Removes trailing whitespace. */
  function TrimEnd(s: string): (r: string)
    ensures |r| <= |s| && r == s[..|r|]
    ensures r != [] ==> !IsSpace(r[|r| - 1])
    ensures forall k :: |r| <= k < |s| ==> IsSpace(s[k])
  {
    if s != [] && IsSpace(s[|s| - 1]) then TrimEnd(s[..|s| - 1]) else s
  }

  /**
   * `str.strip()`: leading and trailing whitespace removed. The result is
   * the input between a run of whitespace at its start and one at its end,
   * and it is empty exactly when the input is all whitespace.
   */
  function Strip(s: string): (r: string)
    ensures |r| <= |s|
    ensures r != [] ==> !IsSpace(r[0]) && !IsSpace(r[|r| - 1])
    ensures exists i, j :: 0 <= i <= j <= |s| && r == s[i..j] &&
              (forall k :: 0 <= k < i ==> IsSpace(s[k])) &&
              (forall k :: j <= k < |s| ==> IsSpace(s[k]))
    ensures r == [] <==> forall k :: 0 <= k < |s| ==> IsSpace(s[k])
  {
    var e := TrimEnd(s);
    var r := TrimStart(e);
    InfixBetweenSpaces(s, e, r);
    r
  }

  /**
   * A suffix `r` of a prefix `e` of `s`, where the rest of `s` after `e`
   * and the rest of `e` before `r` are whitespace, is `s` with a run of
   * whitespace removed at each end.
   */
  lemma InfixBetweenSpaces(s: string, e: string, r: string)
    requires |e| <= |s| && e == s[..|e|] && forall k :: |e| <= k < |s| ==> IsSpace(s[k])
    requires e != [] ==> !IsSpace(e[|e| - 1])
    requires |r| <= |e| && r == e[|e| - |r|..] && forall k :: 0 <= k < |e| - |r| ==> IsSpace(e[k])
    requires r != [] ==> !IsSpace(r[0])
    ensures r != [] ==> !IsSpace(r[0]) && !IsSpace(r[|r| - 1])
    ensures exists i, j :: 0 <= i <= j <= |s| && r == s[i..j] &&
              (forall k :: 0 <= k < i ==> IsSpace(s[k])) &&
              (forall k :: j <= k < |s| ==> IsSpace(s[k]))
    ensures r == [] <==> forall k :: 0 <= k < |s| ==> IsSpace(s[k])
  {
    var i, j := |e| - |r|, |e|;
    assert r == s[i..j];
    forall k | 0 <= k < i
      ensures IsSpace(s[k])
    {
      assert s[k] == e[k];
    }
    if r != [] {
      assert r[|r| - 1] == e[j - 1];
      assert r[0] == s[i];
    } else {
      assert i == |e|;
    }
  }

  /** Leading whitespace holds no digit and no dot. */
  lemma {:induction false} TrimStartKeepsDecimals(s: string)
    ensures Digits(TrimStart(s)) == Digits(s)
    ensures Cleaned(TrimStart(s)) == Cleaned(s)
  {
    if s != [] && IsSpace(s[0]) {
      assert !IsDecimalChar(s[0]);
      TrimStartKeepsDecimals(s[1..]);
      assert Digits(s) == [] + Digits(s[1..]);
      assert Cleaned(s) == [] + Cleaned(s[1..]);
    }
  }

  /** Trailing whitespace holds no digit and no dot. */
  lemma {:induction false} TrimEndKeepsDecimals(s: string)
    ensures Digits(TrimEnd(s)) == Digits(s)
    ensures Cleaned(TrimEnd(s)) == Cleaned(s)
  {
    if s != [] && IsSpace(s[|s| - 1]) {
      var init := s[..|s| - 1];
      TrimEndKeepsDecimals(init);
      assert s == init + [s[|s| - 1]];
      DropsNonDecimal(init, s[|s| - 1]);
    }
  }

  /** A last character that is neither a digit nor a dot is dropped by both filters. */
  lemma DropsNonDecimal(a: string, c: char)
    requires !IsDecimalChar(c)
    ensures Digits(a + [c]) == Digits(a)
    ensures Cleaned(a + [c]) == Cleaned(a)
  {
    DigitsAppend(a, [c]);
    CleanedAppend(a, [c]);
    assert Digits([c]) == [] && Cleaned([c]) == [];
    assert Digits(a) + [] == Digits(a);
    assert Cleaned(a) + [] == Cleaned(a);
  }

  /** Stripping changes neither the digits nor the cleaned text. */
  lemma StripKeepsDecimals(s: string)
    ensures Digits(Strip(s)) == Digits(s)
    ensures Cleaned(Strip(s)) == Cleaned(s)
  {
    TrimEndKeepsDecimals(s);
    TrimStartKeepsDecimals(TrimEnd(s));
  }

  /** The numeric value of one decimal digit. */
  function DigitValue(c: char): (d: nat)
    requires IsDigit(c)
    ensures d < 10
  {
    (c as int) - ('0' as int)
  }

  /** The digit character of a value below ten. */
  function DigitChar(d: nat): (c: char)
    requires d < 10
    ensures IsDigit(c) && DigitValue(c) == d
  {
    (('0' as int) + d) as char
  }

  function Pow10(k: nat): (p: nat)
    ensures p >= 1
  {
    if k == 0 then 1 else 10 * Pow10(k - 1)
  }

  /** The value of a run of decimal digits, most significant first. */
  function NatValue(s: string): (n: nat)
    requires AllDigits(s)
    ensures n < Pow10(|s|)
  {
    if s == [] then 0 else 10 * NatValue(s[..|s| - 1]) + DigitValue(s[|s| - 1])
  }

  /** The shortest decimal spelling of `n` (at least one digit). */
  function Spell(n: nat): (s: string)
    ensures AllDigits(s) && 1 <= |s|
  {
    if n < 10 then [DigitChar(n)] else Spell(n / 10) + [DigitChar(n % 10)]
  }

  /** Reading back a spelled number gives the number. */
  lemma {:induction false} NatValueSpell(n: nat)
    ensures NatValue(Spell(n)) == n
  {
    var s := Spell(n);
    if n >= 10 {
      assert s[..|s| - 1] == Spell(n / 10);
      NatValueSpell(n / 10);
    }
  }

  lemma AllDigitsAppend(a: string, b: string)
    requires AllDigits(a) && AllDigits(b)
    ensures AllDigits(a + b)
  {
    assert forall i :: 0 <= i < |a + b| ==> (a + b)[i] == if i < |a| then a[i] else b[i - |a|];
  }

  lemma Distribute(x: int, p: int, y: int, d: int)
    ensures 10 * (x * p + y) + d == x * (10 * p) + (10 * y + d)
  {
  }

  /** One more digit at the end: ten times the value, plus that digit. */
  lemma NatValueSnoc(s: string, c: char)
    requires AllDigits(s) && IsDigit(c)
    ensures AllDigits(s + [c])
    ensures NatValue(s + [c]) == 10 * NatValue(s) + DigitValue(c)
  {
    AllDigitsAppend(s, [c]);
    assert (s + [c])[..|s|] == s;
  }

  /** Appending digits shifts the value of the leading ones. */
  lemma {:induction false} NatValueAppend(a: string, b: string)
    requires AllDigits(a) && AllDigits(b)
    ensures AllDigits(a + b)
    ensures NatValue(a + b) == NatValue(a) * Pow10(|b|) + NatValue(b)
  {
    AllDigitsAppend(a, b);
    if b == [] {
      assert a + b == a;
    } else {
      var init, c := b[..|b| - 1], b[|b| - 1];
      assert b == init + [c];
      assert a + b == (a + init) + [c];
      assert AllDigits(init);
      NatValueAppend(a, init);
      NatValueSnoc(a + init, c);
      NatValueSnoc(init, c);
      Distribute(NatValue(a), Pow10(|init|), NatValue(init), DigitValue(c));
    }
  }

  /** A string is its prefix, one character and the rest. */
  lemma SplitAt(s: string, i: nat)
    requires i < |s|
    ensures s == s[..i] + ([s[i]] + s[i + 1..])
  {
    assert s[i..] == [s[i]] + s[i + 1..];
    assert s == s[..i] + s[i..];
  }
}
