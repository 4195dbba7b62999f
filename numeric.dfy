/**
 * Text-to-number conversion: pandas' `to_numeric(..., errors='coerce')` on
 * one string, and the currency clean-up the normaliser applies first
 * (remove every `$`, remove every `,`, trim surrounding whitespace).
 * Accepted: an optional sign, then digits with at most one decimal point
 * and at least one digit. Anything else is NaN, modelled as None.
 */
module Numeric {
  import opened Wrappers

  predicate IsDigit(c: char) {
    '0' <= c <= '9'
  }

  /** A character `to_numeric` accepts somewhere in a plain decimal. */
  predicate NumberChar(c: char) {
    IsDigit(c) || c == '.' || c == '-' || c == '+'
  }

  predicate AllDigits(s: string) {
    forall i :: 0 <= i < |s| ==> IsDigit(s[i])
  }

  /**
   * Python's `str.isspace`: the ASCII controls 9-13 and 28-31, the space,
   * and the Unicode separators and spaces Python counts as whitespace.
   */
  predicate IsSpace(c: char) {
    c == ' ' || '\t' <= c <= '\r' || '\U{1C}' <= c <= '\U{1F}'
    || c == '\U{85}' || c == '\U{A0}' || c == '\U{1680}' || '\U{2000}' <= c <= '\U{200A}'
    || c == '\U{2028}' || c == '\U{2029}' || c == '\U{202F}' || c == '\U{205F}' || c == '\U{3000}'
  }

  function TenTo(k: nat): (r: nat)
    ensures r >= 1
  {
    if k == 0 then 1 else 10 * TenTo(k - 1)
  }

  /** The value of a string of decimal digits (0 for the empty string). */
  function DigitsValue(s: string): nat
    requires AllDigits(s)
  {
    if s == [] then 0
    else DigitsValue(s[..|s| - 1]) * 10 + (s[|s| - 1] as int - '0' as int)
  }

  /** Index of the first '.' in s, or |s| when there is none. */
  function DotIndex(s: string): (i: nat)
    ensures i <= |s|
    ensures forall j :: 0 <= j < i ==> s[j] != '.'
    ensures i < |s| ==> s[i] == '.'
  {
    if s == [] then 0
    else if s[0] == '.' then 0
    else 1 + DotIndex(s[1..])
  }

  /** An unsigned decimal: digits, optionally a point and more digits. */
  function Unsigned(s: string): Option<real> {
    var i := DotIndex(s);
    var whole := s[..i];
    var frac := if i < |s| then s[i + 1..] else [];
    if AllDigits(whole) && AllDigits(frac) && |whole| + |frac| > 0 then
      Some(DigitsValue(whole) as real + DigitsValue(frac) as real / TenTo(|frac|) as real)
    else None
  }

  /**
   * `pd.to_numeric(s, errors='coerce')` on one string; None stands for NaN.
   * Only a leading sign, digits and a decimal point are ever accepted.
   */
  function ParseDecimal(s: string): (r: Option<real>)
    ensures r.Some? ==> |s| > 0
    ensures r.Some? ==> forall j :: 0 <= j < |s| ==>
      IsDigit(s[j]) || s[j] == '.' || (j == 0 && (s[j] == '-' || s[j] == '+'))
  {
    if |s| > 0 && s[0] == '-' then
      match Unsigned(s[1..])
      case Some(v) => SignedChars(s); Some(-v)
      case None => None
    else if |s| > 0 && s[0] == '+' then
      var u := Unsigned(s[1..]);
      if u.Some? then SignedChars(s); u else u
    else
      var u := Unsigned(s);
      if u.Some? then UnsignedChars(s); u else u
  }

  /** `s.replace(c, '')`. */
  function RemoveChar(s: string, c: char): (r: string)
    ensures c !in r
    ensures forall d :: d != c ==> (d in r <==> d in s)
    ensures c !in s ==> r == s
  {
    if s == [] then []
    else if s[0] == c then RemoveChar(s[1..], c)
    else [s[0]] + RemoveChar(s[1..], c)
  }

  function StripLeading(s: string): (r: string)
    ensures r == [] || !IsSpace(r[0])
    ensures |s| == 0 || !IsSpace(s[0]) ==> r == s
    ensures forall d :: d in r ==> d in s
  {
    if |s| > 0 && IsSpace(s[0]) then StripLeading(s[1..]) else s
  }

  function StripTrailing(s: string): (r: string)
    ensures r == [] || !IsSpace(r[|r| - 1])
    ensures |s| == 0 || !IsSpace(s[|s| - 1]) ==> r == s
    ensures forall d :: d in r ==> d in s
    ensures |r| > 0 ==> r[0] == s[0]
  {
    if |s| > 0 && IsSpace(s[|s| - 1]) then StripTrailing(s[..|s| - 1]) else s
  }

  /** `s.strip()`. */
  function Strip(s: string): string {
    StripTrailing(StripLeading(s))
  }

  /**
   * The currency clean-up: drop '$', drop ',', then trim. No currency mark
   * is left and no whitespace surrounds the result.
   */
  function CleanMoney(s: string): (c: string)
    ensures '$' !in c && ',' !in c
    ensures c == [] || (!IsSpace(c[0]) && !IsSpace(c[|c| - 1]))
  {
    Strip(RemoveChar(RemoveChar(s, '$'), ','))
  }

  /**
   * The normaliser's reading of a currency string. Text `to_numeric`
   * already accepts reads the same after the clean-up.
   */
  function ParseMoney(s: string): (r: Option<real>)
    ensures ParseDecimal(s).Some? ==> r == ParseDecimal(s)
  {
    if ParseDecimal(s).Some? then
      assert '$' !in s && ',' !in s by {
        forall j | 0 <= j < |s| ensures s[j] != '$' && s[j] != ',' {
          assert NumberChar(s[j]);
        }
      }
      assert !IsSpace(s[0]) && !IsSpace(s[|s| - 1]) by {
        assert NumberChar(s[0]) && NumberChar(s[|s| - 1]);
      }
      assert CleanMoney(s) == s;
      ParseDecimal(CleanMoney(s))
    else ParseDecimal(CleanMoney(s))
  }

  /** The canonical decimal rendering of a natural number (no sign, no leading zeros). */
  function NatText(n: nat): (s: string)
    ensures |s| > 0 && AllDigits(s)
  {
    if n < 10 then [('0' as int + n) as char]
    else NatText(n / 10) + [('0' as int + n % 10) as char]
  }

  // ---------------------------------------------------------------------
  // Properties

  /** The digit value of a rendered number is that number. */
  lemma {:induction false} DigitsOfNatText(n: nat)
    ensures DigitsValue(NatText(n)) == n
  {
    var s := NatText(n);
    if n >= 10 {
      DigitsOfNatText(n / 10);
      assert s[..|s| - 1] == NatText(n / 10);
    }
  }

  /** Parsing the rendering of a whole number gives the number back. */
  lemma {:induction false} ParseNatText(n: nat)
    ensures ParseDecimal(NatText(n)) == Some(n as real)
  {
    var s := NatText(n);
    DigitsOfNatText(n);
    assert forall j :: 0 <= j < |s| ==> s[j] != '.';
    assert DotIndex(s) == |s| by {
      DotIndexNone(s);
    }
    assert s[..|s|] == s;
  }

  lemma {:induction false} DotIndexNone(s: string)
    requires forall j :: 0 <= j < |s| ==> s[j] != '.'
    ensures DotIndex(s) == |s|
  {
    if s != [] {
      DotIndexNone(s[1..]);
    }
  }

  /** A negative number in the same rendering parses to its negation. */
  lemma {:induction false} ParseNegativeNatText(n: nat)
    ensures ParseDecimal("-" + NatText(n)) == Some(-(n as real))
  {
    var s := "-" + NatText(n);
    assert s[1..] == NatText(n);
    ParseNatText(n);
    assert Unsigned(NatText(n)) == Some(n as real);
  }

  /** A signed number that parses: its sign, then digits and a decimal point only. */
  lemma {:induction false} SignedChars(s: string)
    requires |s| > 0 && Unsigned(s[1..]).Some?
    ensures forall j :: 1 <= j < |s| ==> IsDigit(s[j]) || s[j] == '.'
  {
    UnsignedChars(s[1..]);
    forall j | 1 <= j < |s| ensures IsDigit(s[j]) || s[j] == '.' {
      assert s[j] == s[1..][j - 1];
    }
  }

  lemma {:induction false} UnsignedChars(s: string)
    requires Unsigned(s).Some?
    ensures forall j :: 0 <= j < |s| ==> IsDigit(s[j]) || s[j] == '.'
  {
    var i := DotIndex(s);
    forall j | 0 <= j < |s| ensures IsDigit(s[j]) || s[j] == '.' {
      if j < i {
        assert s[j] == s[..i][j];
      } else if j > i {
        assert s[j] == s[i + 1..][j - i - 1];
      }
    }
  }

  /**
   * A string holding a currency sign or a thousands separator is never a
   * number to `to_numeric`: without the clean-up, "$300,000" is NaN.
   */
  lemma {:induction false} ParseRejectsCurrencyMarks(s: string)
    requires '$' in s || ',' in s
    ensures ParseDecimal(s) == None
  {
  }

  /** Text that is already a bare number reads the same with or without the clean-up. */
  lemma {:induction false} MoneyOfPlainNumber(n: nat)
    ensures ParseMoney(NatText(n)) == Some(n as real)
  {
    ParseNatText(n);
  }

  /** Removing a character works piece by piece, so the order of what is kept is the order it had. */
  lemma {:induction false} RemoveCharConcat(a: string, b: string, c: char)
    ensures RemoveChar(a + b, c) == RemoveChar(a, c) + RemoveChar(b, c)
  {
    if a != [] {
      assert (a + b)[0] == a[0];
      assert (a + b)[1..] == a[1..] + b;
      RemoveCharConcat(a[1..], b, c);
    } else {
      assert a + b == b;
    }
  }

  function Digit(k: nat): char
    requires k < 10
  {
    ('0' as int + k) as char
  }

  /** Three digits with leading zeros: the group after a thousands separator. */
  function Pad3(k: nat): (s: string)
    requires k < 1000
    ensures |s| == 3 && AllDigits(s)
  {
    [Digit(k / 100), Digit(k / 10 % 10), Digit(k % 10)]
  }

  /** A natural number written with thousands separators, as "300,000". */
  function Grouped(n: nat): (s: string)
    ensures forall j :: 0 <= j < |s| ==> IsDigit(s[j]) || s[j] == ','
  {
    if n < 1000 then NatText(n) else Grouped(n / 1000) + "," + Pad3(n % 1000)
  }

  /** The last three digits of a number of four or more digits form its low group. */
  lemma {:induction false} NatTextSplit(n: nat)
    requires n >= 1000
    ensures NatText(n) == NatText(n / 1000) + Pad3(n % 1000)
  {
    var q, m := n / 1000, n % 1000;
    var a, b, c := m / 100, m / 10 % 10, m % 10;
    assert n == 1000 * q + 100 * a + 10 * b + c;
    assert n / 10 == 100 * q + 10 * a + b && n % 10 == c;
    assert n / 10 / 10 == 10 * q + a && n / 10 % 10 == b;
    assert n / 10 / 10 / 10 == q && n / 10 / 10 % 10 == a;
    calc {
      NatText(n);
      NatText(n / 10) + [Digit(c)];
      NatText(n / 10 / 10) + [Digit(b)] + [Digit(c)];
      NatText(n / 10 / 10 / 10) + [Digit(a)] + [Digit(b)] + [Digit(c)];
      NatText(q) + Pad3(m);
    }
  }

  /** Dropping the separators from the grouped spelling gives the plain spelling. */
  lemma {:induction false} UngroupedText(n: nat)
    ensures RemoveChar(Grouped(n), ',') == NatText(n)
  {
    if n < 1000 {
      var s := NatText(n);
      assert ',' !in s by {
        forall j | 0 <= j < |s| ensures s[j] != ',' {
          assert IsDigit(s[j]);
        }
      }
    } else {
      var g, p := Grouped(n / 1000), Pad3(n % 1000);
      assert ',' !in p by {
        assert IsDigit(p[0]) && IsDigit(p[1]) && IsDigit(p[2]);
      }
      RemoveCharConcat(g + ",", p, ',');
      RemoveCharConcat(g, ",", ',');
      UngroupedText(n / 1000);
      NatTextSplit(n);
    }
  }

  /** A dollar amount written as "$300,000" reads as 300000: the point of the clean-up. */
  lemma {:induction false} MoneyOfGrouped(n: nat)
    ensures ParseMoney("$" + Grouped(n)) == Some(n as real)
    ensures ParseMoney(Grouped(n)) == Some(n as real)
  {
    var g := Grouped(n);
    assert '$' !in g by {
      forall j | 0 <= j < |g| ensures g[j] != '$' {
        assert IsDigit(g[j]) || g[j] == ',';
      }
    }
    RemoveCharConcat("$", g, '$');
    assert RemoveChar("$", '$') == [];
    assert RemoveChar("$" + g, '$') == g;
    UngroupedText(n);
    assert CleanMoney("$" + g) == CleanMoney(NatText(n));
    assert CleanMoney(g) == CleanMoney(NatText(n));
    MoneyOfPlainNumber(n);
  }
}
