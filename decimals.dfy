/** Decimal amounts as the receipt carries them ("6.49", "35.35"): the
    accepted syntax, the exact value, and a canonical spelling that parses
    back to the same amount. */
module Decimals {
  import opened Arith
  import opened Numerals
  import opened Wrappers

  /** The amount `mantissa / 10^scale`, exactly as written: "6.5" is
      Decimal(65, 1) and "6.50" is Decimal(650, 2). */
  datatype Decimal = Decimal(mantissa: int, scale: nat)

  /** The amount a failed parse stands for (Go's zero float). */
  const Zero := Decimal(0, 0)

  /** The exact rational value of an amount. */
  ghost function Value(d: Decimal): real
  {
    d.mantissa as real / Pow10(d.scale) as real
  }

  /** 1 when `s` starts with a '+' or '-' sign, else 0. */
  function SignWidth(s: string): (n: nat)
    ensures n <= |s|
  {
    if |s| > 0 && (s[0] == '+' || s[0] == '-') then 1 else 0
  }

  /** Index of the first '.' at or after `lo`, or |s| when there is none. */
  function IndexOfDotFrom(s: string, lo: nat): (i: nat)
    requires lo <= |s|
    ensures lo <= i <= |s|
    decreases |s| - lo
  {
    if lo == |s| || s[lo] == '.' then lo else IndexOfDotFrom(s, lo + 1)
  }

  /** The search from `lo` stops at the first '.' it meets. */
  lemma {:induction false} IndexOfDotFromIsFirst(s: string, lo: nat)
    requires lo <= |s|
    ensures IndexOfDotFrom(s, lo) < |s| ==> s[IndexOfDotFrom(s, lo)] == '.'
    ensures forall j :: lo <= j < IndexOfDotFrom(s, lo) ==> s[j] != '.'
    decreases |s| - lo
  {
    if lo < |s| && s[lo] != '.' {
      IndexOfDotFromIsFirst(s, lo + 1);
    }
  }

  /** Every character of s[lo..hi] is a digit, except the one at `dot`. */
  predicate DigitsExcept(s: string, lo: nat, hi: nat, dot: nat)
    requires lo <= hi <= |s|
    decreases hi
  {
    lo == hi || ((hi - 1 == dot || IsDigit(s[hi - 1])) && DigitsExcept(s, lo, hi - 1, dot))
  }

  /** The number the digits of s[lo..hi] spell once the one at `dot` is
      left out. */
  function DigitsValueExcept(s: string, lo: nat, hi: nat, dot: nat): nat
    requires lo <= hi <= |s| && DigitsExcept(s, lo, hi, dot)
    decreases hi
  {
    if lo == hi then 0
    else if hi - 1 == dot then DigitsValueExcept(s, lo, hi - 1, dot)
    else DigitsValueExcept(s, lo, hi - 1, dot) * 10 + DigitValue(s[hi - 1])
  }

  /** A decimal number without exponent: an optional sign, digits, and an
      optional '.' followed by more digits, with at least one digit in all.
      "6.49", "+5", "-0.25", "7." and ".5" parse; "", "1.2.3", "abc" and
      "1e5" do not (DecimalSyntaxAccepts, MalformedRejected). The mantissa is the digits read as one number, the
      scale the count of digits after the '.'. */
  function ParseDecimal(s: string): (r: Option<Decimal>)
    ensures r.Some? ==> |s| > 0
  {
    var start := SignWidth(s);
    var dot := IndexOfDotFrom(s, start);
    var digitCount := |s| - start - (if dot < |s| then 1 else 0);
    if DigitsExcept(s, start, |s|, dot) && digitCount > 0 then
      var magnitude: int := DigitsValueExcept(s, start, |s|, dot);
      Some(Decimal(if start == 1 && s[0] == '-' then -magnitude else magnitude,
                   if dot < |s| then |s| - dot - 1 else 0))
    else
      None
  }

  /** The amount, or zero when the text does not parse (the value Go's
      ParseFloat returns alongside its error). */
  function AmountOrZero(s: string): Decimal
  {
    ParseDecimal(s).GetOr(Zero)
  }

  function Magnitude(d: Decimal): nat
  {
    if d.mantissa < 0 then -d.mantissa else d.mantissa
  }

  /** The integer part of the magnitude, without leading zeros. */
  function IntegerDigits(d: Decimal): string
  {
    var (q, _) := DivRem(Magnitude(d), Pow10(d.scale));
    Digits(q, DigitCount(q))
  }

  /** The fraction part of the magnitude, `scale` digits long. */
  function FractionDigits(d: Decimal): string
  {
    var (_, r) := DivRem(Magnitude(d), Pow10(d.scale));
    if d.scale == 0 then "" else Digits(r, d.scale)
  }

  /** A sign the parser accepts in front of the digits. */
  predicate IsSign(sign: string)
  {
    sign == "" || sign == "+" || sign == "-"
  }

  /** A sign, a run of integer digits and, when `dotted`, a '.' followed by
      a run of fraction digits. */
  function Spelling(sign: string, w: string, f: string, dotted: bool): string
  {
    sign + w + (if dotted then "." + f else "")
  }

  /** The spellings that parse: a sign, digit runs with a '.' between them
      when `dotted`, and at least one digit in all. */
  predicate IsDecimalSpelling(sign: string, w: string, f: string, dotted: bool)
  {
    IsSign(sign) && AllDigits(w) && AllDigits(f) && |w| + |f| > 0 && (!dotted ==> f == "")
  }

  /** Canonical spelling: a '-' for negative amounts, the integer part
      without leading zeros, and exactly `scale` fraction digits after a
      '.' when `scale` is positive. */
  function FormatDecimal(d: Decimal): string
  {
    Spelling(if d.mantissa < 0 then "-" else "", IntegerDigits(d), FractionDigits(d), d.scale != 0)
  }

  /** Every amount survives formatting and parsing unchanged. */
  lemma {:induction false} FormatThenParse(d: Decimal)
    ensures ParseDecimal(FormatDecimal(d)) == Some(d)
  {
    SpelledMagnitude(d);
    ParseSpelledDecimal(if d.mantissa < 0 then "-" else "", IntegerDigits(d), FractionDigits(d), d.scale != 0);
  }

  /** The two digit runs of the spelling read back as the magnitude. */
  lemma {:induction false} SpelledMagnitude(d: Decimal)
    ensures |FractionDigits(d)| == d.scale && |IntegerDigits(d)| > 0
    ensures AllDigits(IntegerDigits(d) + FractionDigits(d))
    ensures DigitsValue(IntegerDigits(d) + FractionDigits(d)) == Magnitude(d)
  {
    var p := Pow10(d.scale);
    var (q, r) := DivRem(Magnitude(d), p);
    var w, f := IntegerDigits(d), FractionDigits(d);
    DigitsValueAppend(w, f);
    assert |f| == d.scale && DigitsValue(w) == q && DigitsValue(f) == r by {
      if d.scale == 0 {
        assert p == 1;
      }
    }
    assert DigitsValue(w + f) == q * p + r;
  }

  /** What the parser reads from a spelled-out amount: the digits of both
      runs as one number, negated after a '-', with as many decimal places
      as there are fraction digits. */
  lemma {:induction false} ParseSpelledDecimal(sign: string, w: string, f: string, dotted: bool)
    requires IsDecimalSpelling(sign, w, f, dotted)
    ensures AllDigits(w + f)
    ensures var magnitude: int := DigitsValue(w + f);
      ParseDecimal(Spelling(sign, w, f, dotted))
        == Some(Decimal(if sign == "-" then -magnitude else magnitude, |f|))
  {
    var s := Spelling(sign, w, f, dotted);
    var start := |sign|;
    var dot := start + |w|;
    SpelledLayout(sign, w, f, dotted);
    DigitsValueAppend(w, f);
    SpelledDigits(s, start, dot, w, f);
    ParseOfLayout(s, start, dot, sign == "-", DigitsValue(w + f), |f|);
  }

  /** Conversely, every text that parses is such a spelling, cut at the
      sign and at the parser's '.'. */
  lemma {:induction false} ParsedIsSpelled(s: string)
    requires ParseDecimal(s).Some?
    ensures var start := SignWidth(s);
      var dot := IndexOfDotFrom(s, start);
      var dotted := dot < |s|;
      var f := if dotted then s[dot + 1..] else "";
      IsDecimalSpelling(s[..start], s[start..dot], f, dotted)
        && s == Spelling(s[..start], s[start..dot], f, dotted)
  {
    var start := SignWidth(s);
    var dot := IndexOfDotFrom(s, start);
    var dotted := dot < |s|;
    var f := if dotted then s[dot + 1..] else "";
    DigitsExceptAll(s, start, |s|, dot);
    IndexOfDotFromIsFirst(s, start);
    DigitRun(s, start, dot);
    if dotted {
      DigitRun(s, dot + 1, |s|);
    }
    assert IsSign(s[..start]) by {
      if start == 1 {
        assert s[..start] == [s[0]];
      }
    }
    CutAtDot(s, start, dot);
  }

  /** A stretch of digits, read off as its own run. */
  lemma {:induction false} DigitRun(s: string, lo: nat, hi: nat)
    requires lo <= hi <= |s| && forall i :: lo <= i < hi ==> IsDigit(s[i])
    ensures AllDigits(s[lo..hi])
  {
    forall i | 0 <= i < hi - lo ensures IsDigit(s[lo..hi][i]) {
      assert s[lo..hi][i] == s[lo + i];
    }
  }

  /** A text cut at its sign and at a '.' (or its end) is the spelling of
      its pieces. */
  lemma {:induction false} CutAtDot(s: string, start: nat, dot: nat)
    requires start <= dot <= |s| && (dot < |s| ==> s[dot] == '.')
    ensures s == Spelling(s[..start], s[start..dot], if dot < |s| then s[dot + 1..] else "", dot < |s|)
  {
    if dot < |s| {
      assert s[dot..] == "." + s[dot + 1..];
      assert s == s[..start] + s[start..dot] + s[dot..];
    } else {
      assert s == s[..start] + s[start..dot] + "";
    }
  }

  /** The text parses exactly when it is a spelling of the form above. */
  lemma {:induction false} DecimalSyntaxAccepts(s: string)
    ensures ParseDecimal(s).Some? <==>
      exists sign, w, f, dotted :: IsDecimalSpelling(sign, w, f, dotted) && s == Spelling(sign, w, f, dotted)
  {
    if ParseDecimal(s).Some? {
      ParsedIsSpelled(s);
      var start := SignWidth(s);
      var dot := IndexOfDotFrom(s, start);
      var dotted := dot < |s|;
      var f := if dotted then s[dot + 1..] else "";
      assert IsDecimalSpelling(s[..start], s[start..dot], f, dotted)
        && s == Spelling(s[..start], s[start..dot], f, dotted);
    }
    if exists sign, w, f, dotted :: IsDecimalSpelling(sign, w, f, dotted) && s == Spelling(sign, w, f, dotted) {
      var sign, w, f, dotted :| IsDecimalSpelling(sign, w, f, dotted) && s == Spelling(sign, w, f, dotted);
      ParseSpelledDecimal(sign, w, f, dotted);
    }
  }

  /** A character that is neither a digit nor a '.', and not a leading
      sign, makes the text fail. */
  lemma {:induction false} StrayCharacterRejected(s: string, i: nat)
    requires i < |s| && !IsDigit(s[i]) && s[i] != '.'
    requires i == 0 ==> s[0] != '+' && s[0] != '-'
    ensures ParseDecimal(s).None?
  {
    var start := SignWidth(s);
    var dot := IndexOfDotFrom(s, start);
    DigitsExceptAll(s, start, |s|, dot);
    IndexOfDotFromIsFirst(s, start);
    assert start <= i && i != dot && !IsDigit(s[i]);
  }

  /** A second '.' makes the text fail. */
  lemma {:induction false} SecondDotRejected(s: string, i: nat, j: nat)
    requires i < j < |s| && s[i] == '.' && s[j] == '.'
    ensures ParseDecimal(s).None?
  {
    var start := SignWidth(s);
    var dot := IndexOfDotFrom(s, start);
    DigitsExceptAll(s, start, |s|, dot);
    IndexOfDotFromIsFirst(s, start);
    assert start <= i && dot <= i < j && !IsDigit(s[j]);
  }

  /** Texts outside the accepted form fail: no digit at all, a second '.',
      letters, an exponent. */
  lemma {:induction false} MalformedRejected()
    ensures ParseDecimal("").None? && ParseDecimal("-").None? && ParseDecimal(".").None?
    ensures ParseDecimal("1.2.3").None? && ParseDecimal("abc").None? && ParseDecimal("1e5").None?
  {
    SecondDotRejected("1.2.3", 1, 3);
    StrayCharacterRejected("abc", 0);
    StrayCharacterRejected("1e5", 1);
  }

  /** The characters of s[lo..hi] other than the one at `dot` are digits
      exactly when the parser's digit check passes. */
  lemma {:induction false} DigitsExceptAll(s: string, lo: nat, hi: nat, dot: nat)
    requires lo <= hi <= |s|
    ensures DigitsExcept(s, lo, hi, dot) <==> forall i :: lo <= i < hi && i != dot ==> IsDigit(s[i])
    decreases hi
  {
    if lo < hi {
      DigitsExceptAll(s, lo, hi - 1, dot);
    }
  }

  /** The parse of a string whose sign, '.' and digits are known. */
  lemma {:induction false} ParseOfLayout(s: string, start: nat, dot: nat, negative: bool, magnitude: int, scale: nat)
    requires SignWidth(s) == start && start <= dot <= |s| && IndexOfDotFrom(s, start) == dot
    requires DigitsExcept(s, start, |s|, dot) && DigitsValueExcept(s, start, |s|, dot) == magnitude
    requires |s| - start - (if dot < |s| then 1 else 0) > 0
    requires negative <==> start == 1 && s[0] == '-'
    requires scale == if dot < |s| then |s| - dot - 1 else 0
    ensures ParseDecimal(s) == Some(Decimal(if negative then -magnitude else magnitude, scale))
  {
  }

  /** Where the sign, the integer digits and the '.' sit in the spelling. */
  lemma {:induction false} SpelledLayout(sign: string, w: string, f: string, dotted: bool)
    requires IsDecimalSpelling(sign, w, f, dotted)
    ensures var s := Spelling(sign, w, f, dotted);
      var start := |sign|;
      && |s| == start + |w| + (if dotted then 1 + |f| else 0)
      && SignWidth(s) == start && (sign == "-" <==> start == 1 && s[0] == '-')
      && s[start..start + |w|] == w && (dotted ==> s[start + |w| + 1..] == f)
      && IndexOfDotFrom(s, start) == start + |w|
  {
    var s := Spelling(sign, w, f, dotted);
    var start := |sign|;
    assert s[start..start + |w|] == w;
    if dotted {
      assert s[start + |w|] == '.';
      assert s[start + |w| + 1..] == f;
    }
    if start == 0 {
      if |w| > 0 {
        assert s[0] == w[0] && IsDigit(w[0]);
      } else {
        assert s[0] == '.';
      }
    } else {
      assert s[0] == sign[0];
    }
    DotAfterDigits(s, start, start + |w|);
  }

  /** The digits of the spelling, the '.' left out, read as `w + f`. */
  lemma {:induction false} SpelledDigits(s: string, start: nat, dot: nat, w: string, f: string)
    requires start <= dot <= |s| && s[start..dot] == w && AllDigits(w) && AllDigits(f)
    requires (dot == |s| && f == []) || (dot < |s| && s[dot + 1..] == f)
    ensures DigitsExcept(s, start, |s|, dot)
    ensures DigitsValueExcept(s, start, |s|, dot) == DigitsValue(w + f)
  {
    if dot == |s| {
      assert w + f == w;
      ValueBeforeDot(s, start, |s|, dot);
    } else {
      assert s[dot + 1..|s|] == f;
      ValueSkippingDot(s, start, |s|, dot);
    }
  }

  /** The search from `lo` passes over digits and stops at `hi`, which
      is the end of `s` or a '.'. */
  lemma {:induction false} DotAfterDigits(s: string, lo: nat, hi: nat)
    requires lo <= hi <= |s| && AllDigits(s[lo..hi]) && (hi == |s| || s[hi] == '.')
    ensures IndexOfDotFrom(s, lo) == hi
    decreases hi - lo
  {
    if lo < hi {
      assert IsDigit(s[lo..hi][0]);
      assert s[lo + 1..hi] == s[lo..hi][1..];
      DotAfterDigits(s, lo + 1, hi);
    }
  }

  /** Up to the dot, the digits read as the run s[lo..hi]. */
  lemma {:induction false} ValueBeforeDot(s: string, lo: nat, hi: nat, dot: nat)
    requires lo <= hi <= dot && hi <= |s| && AllDigits(s[lo..hi])
    ensures DigitsExcept(s, lo, hi, dot)
    ensures DigitsValueExcept(s, lo, hi, dot) == DigitsValue(s[lo..hi])
    decreases hi
  {
    if lo < hi {
      var u := s[lo..hi];
      assert u[..|u| - 1] == s[lo..hi - 1];
      assert u[|u| - 1] == s[hi - 1];
      ValueBeforeDot(s, lo, hi - 1, dot);
    }
  }

  /** Past the dot, the digits read as the run before it followed by the
      run after it. */
  lemma {:induction false} ValueSkippingDot(s: string, lo: nat, hi: nat, dot: nat)
    requires lo <= dot < hi <= |s|
    requires AllDigits(s[lo..dot]) && AllDigits(s[dot + 1..hi])
    ensures AllDigits(s[lo..dot] + s[dot + 1..hi])
    ensures DigitsExcept(s, lo, hi, dot)
    ensures DigitsValueExcept(s, lo, hi, dot) == DigitsValue(s[lo..dot] + s[dot + 1..hi])
    decreases hi
  {
    var u := s[lo..dot] + s[dot + 1..hi];
    if hi == dot + 1 {
      assert u == s[lo..dot];
      ValueBeforeDot(s, lo, dot, dot);
    } else {
      var v := s[lo..dot] + s[dot + 1..hi - 1];
      assert s[dot + 1..hi - 1] == s[dot + 1..hi][..hi - dot - 2];
      ValueSkippingDot(s, lo, hi - 1, dot);
      assert u[..|u| - 1] == v;
      assert u[|u| - 1] == s[hi - 1] == s[dot + 1..hi][hi - dot - 2];
    }
  }
}
