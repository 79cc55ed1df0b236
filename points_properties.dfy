/** What each scoring rule rewards, stated independently of how the rule is
    computed: the amount rules against the exact value of the amount, the
    item rule against reordering and white-space padding, the date and time
    rules against the text they are read from. */
module PointsProperties {
  import opened Arith
  import opened Numerals
  import opened Strings
  import opened Decimals
  import opened TimeLayouts
  import opened Models
  import opened Sequences

  // ---------------------------------------------------------------------
  // Rule 1: the retailer name

  /** The count over a concatenation is the sum of the counts. */
  lemma {:induction false} AlphanumericCountAppend(a: string, b: string)
    ensures AlphanumericCount(a + b) == AlphanumericCount(a) + AlphanumericCount(b)
  {
    if b == [] {
      assert a + b == a;
    } else {
      var b' := b[..|b| - 1];
      assert (a + b)[..|a + b| - 1] == a + b';
      AlphanumericCountAppend(a, b');
    }
  }

  /** Every character counts exactly when the name is all letters and
      digits, and none counts exactly when it has no letter or digit. */
  lemma {:induction false} AlphanumericCountExtremes(name: string)
    ensures AlphanumericCount(name) == |name| <==> forall i :: 0 <= i < |name| ==> IsAlphanumeric(name[i])
    ensures AlphanumericCount(name) == 0 <==> forall i :: 0 <= i < |name| ==> !IsAlphanumeric(name[i])
  {
    if name != [] {
      var init := name[..|name| - 1];
      AlphanumericCountExtremes(init);
      assert forall i :: 0 <= i < |init| ==> init[i] == name[i];
    }
  }

  /** Characters outside a-z, A-Z and 0-9 (spaces, punctuation, accented
      and other non-ASCII letters) never add a point. */
  lemma {:induction false} OnlyAsciiAlphanumericsCount(c: char)
    ensures AlphanumericCount([c]) == 1 <==> IsAlphanumeric(c)
    ensures IsAlphanumeric(c) ==> c < '\U{80}'
  {
    assert [c][..0] == [];
  }

  // ---------------------------------------------------------------------
  // Rules 2, 3 and 5: amounts

  /** A real number with no fractional part. */
  ghost predicate IsIntegral(r: real)
  {
    r.Floor as real == r
  }

  /** `x` is a multiple of `p` exactly when `x / p` is a whole number. */
  lemma {:induction false} MultipleIffIntegral(x: int, p: nat)
    requires p > 0
    ensures x % p == 0 <==> IsIntegral(x as real / p as real)
  {
    var r := x as real / p as real;
    if x % p == 0 {
      var q := x / p;
      DivMod(x, p);
      assert x as real == q as real * p as real;
      assert r == q as real;
    }
    if IsIntegral(r) {
      var k := r.Floor;
      assert x as real == r * p as real;
      assert x as real == (k * p) as real;
      ModOfMultiple(p, k);
    }
  }

  /** Rule 2 rewards exactly the totals whose value is a whole number. */
  lemma {:induction false} WholeIffIntegral(d: Decimal)
    ensures IsWhole(d) <==> IsIntegral(Value(d))
  {
    DividesPow10Iff(d.mantissa, d.scale);
    MultipleIffIntegral(d.mantissa, Pow10(d.scale));
  }

  /** Rule 3 rewards exactly the totals that are a multiple of 0.25, that
      is, whose value times four is a whole number. */
  lemma {:induction false} QuarterIffIntegral(d: Decimal)
    ensures IsQuarterMultiple(d) <==> IsIntegral(4.0 * Value(d))
  {
    var p := Pow10(d.scale) as real;
    DividesPow10Iff(4 * d.mantissa, d.scale);
    MultipleIffIntegral(4 * d.mantissa, Pow10(d.scale));
    assert (4 * d.mantissa) as real / p == 4.0 * (d.mantissa as real / p);
  }

  /** `x / k` lies strictly above `lo` and at most at `hi`. */
  lemma {:induction false} QuotientBetween(lo: int, x: int, hi: int, k: int)
    requires k > 0 && lo * k < x <= hi * k
    ensures lo as real < x as real / k as real <= hi as real
  {
    var r := x as real / k as real;
    assert r * k as real == x as real;
    assert (lo * k) as real == lo as real * k as real;
    assert (hi * k) as real == hi as real * k as real;
  }

  /** Rounding up digit by digit and then by 5 is rounding up by 5 * 10^scale. */
  lemma {:induction false} CeilFifthIsCeilDiv(d: Decimal)
    ensures CeilFifth(d) == CeilDiv(d.mantissa, 5 * Pow10(d.scale))
  {
    CeilPow10IsCeilDiv(d.mantissa, d.scale);
    CeilDivNested(d.mantissa, Pow10(d.scale), 5);
    assert Pow10(d.scale) * 5 == 5 * Pow10(d.scale);
  }

  /** Rule 5's amount is the price times 0.2 rounded up: the least whole
      number not below a fifth of the price's value. */
  lemma {:induction false} CeilFifthIsCeiling(d: Decimal)
    ensures (CeilFifth(d) - 1) as real < Value(d) / 5.0 <= CeilFifth(d) as real
  {
    var p := Pow10(d.scale);
    var c := CeilFifth(d);
    CeilFifthIsCeilDiv(d);
    CeilDivIsCeiling(d.mantissa, 5 * p);
    QuotientBetween(c - 1, d.mantissa, c, 5 * p);
    assert Value(d) / 5.0 == d.mantissa as real / (5 * p) as real;
  }

  /** Amounts of equal value, such as "6.5" and "6.50", fare the same under
      every amount rule. */
  lemma {:induction false} AmountRulesDependOnValue(d: Decimal, e: Decimal)
    requires Value(d) == Value(e)
    ensures IsWhole(d) == IsWhole(e)
    ensures IsQuarterMultiple(d) == IsQuarterMultiple(e)
    ensures CeilFifth(d) == CeilFifth(e)
  {
    WholeIffIntegral(d);
    WholeIffIntegral(e);
    QuarterIffIntegral(d);
    QuarterIffIntegral(e);
    CeilFifthIsCeiling(d);
    CeilFifthIsCeiling(e);
  }

  /** A whole-number total is also a multiple of 0.25, so it earns both
      bonuses: 75 points. */
  lemma {:induction false} WholeTotalEarnsBoth(total: Decimal)
    requires IsWhole(total)
    ensures IsQuarterMultiple(total)
    ensures RoundTotalPoints(total) + QuarterTotalPoints(total) == 75
  {
    var p := Pow10(total.scale);
    DividesPow10Iff(total.mantissa, total.scale);
    DividesPow10Iff(4 * total.mantissa, total.scale);
    DivMod(total.mantissa, p);
    var q := total.mantissa / p;
    assert 4 * total.mantissa == p * (4 * q);
    ModOfMultiple(p, 4 * q);
  }

  /** The three amount rules on an amount written in cents. */
  lemma {:induction false} CentsRules(cents: int)
    ensures IsWhole(Decimal(cents, 2)) <==> cents % 100 == 0
    ensures IsQuarterMultiple(Decimal(cents, 2)) <==> cents % 25 == 0
    ensures CeilFifth(Decimal(cents, 2)) == CeilDiv(cents, 500)
  {
    assert Pow10(2) == 100;
    DividesPow10Iff(cents, 2);
    DividesPow10Iff(4 * cents, 2);
    CeilFifthIsCeilDiv(Decimal(cents, 2));
    DivMod(cents, 25);
    var q, r := cents / 25, cents % 25;
    DivModUnique(4 * cents, 100, q, 4 * r);
  }

  /** A price of zero or more never takes points away. */
  lemma {:induction false} CeilFifthNonNegative(d: Decimal)
    requires d.mantissa >= 0
    ensures CeilFifth(d) >= 0
  {
    var k := 5 * Pow10(d.scale);
    var c := CeilFifth(d);
    CeilFifthIsCeilDiv(d);
    CeilDivIsCeiling(d.mantissa, k);
    if c < 0 {
      MulMonotone(c, -1, k);
    }
  }

  // ---------------------------------------------------------------------
  // Rules 4 and 5: the items

  /** The item term over a concatenation is the sum of the terms. */
  lemma {:induction false} ItemsPointsAppend(a: seq<Item>, b: seq<Item>)
    ensures ItemsPoints(a + b) == ItemsPoints(a) + ItemsPoints(b)
  {
    if b == [] {
      assert a + b == a;
    } else {
      var b' := b[..|b| - 1];
      assert (a + b)[..|a + b| - 1] == a + b';
      ItemsPointsAppend(a, b');
    }
  }

  /** Taking one item out of a list takes away exactly its points. */
  lemma {:induction false} ItemsPointsWithout(items: seq<Item>, j: nat)
    requires j < |items|
    ensures ItemsPoints(items) == ItemsPoints(items[..j] + items[j + 1..]) + ItemPoints(items[j])
  {
    var before, x, after := items[..j], items[j], items[j + 1..];
    SplitAround(items, j);
    ItemsPointsAppend(before + [x], after);
    ItemsPointsAppend(before, [x]);
    ItemsPointsAppend(before, after);
    ItemsPointsSingle(x);
  }

  lemma {:induction false} ItemsPointsSingle(x: Item)
    ensures ItemsPoints([x]) == ItemPoints(x)
  {
    assert [x][..0] == [];
  }

  /** Items are scored independently of their order. */
  lemma {:induction false} ItemsPointsPermutation(a: seq<Item>, b: seq<Item>)
    requires multiset(a) == multiset(b)
    ensures ItemsPoints(a) == ItemsPoints(b)
    decreases |a|
  {
    if a == [] {
      assert |multiset(b)| == 0;
    } else {
      var x := a[|a| - 1];
      var a' := a[..|a| - 1];
      assert a == a' + [x];
      assert x in multiset(b);
      var j :| 0 <= j < |b| && b[j] == x;
      var b' := b[..j] + b[j + 1..];
      MultisetWithout(b, j);
      MultisetWithout(a, |a| - 1);
      assert a[..|a| - 1] + a[|a|..] == a';
      ItemsPointsPermutation(a', b');
      ItemsPointsWithout(b, j);
    }
  }

  /** White space around a description never changes what the item earns. */
  lemma {:induction false} ItemPointsIgnoresPadding(before: string, description: string, after: string, price: string)
    requires AllSpace(before) && AllSpace(after)
    ensures ItemPoints(Item(before + description + after, price)) == ItemPoints(Item(description, price))
  {
    TrimSpaceIgnoresPadding(before, description, after);
  }

  /** A description of white space alone trims to length 0, a multiple of
      3, so the item always earns its price bonus. */
  lemma {:induction false} BlankDescriptionEarnsBonus(description: string, price: string)
    requires AllSpace(description)
    ensures ItemPoints(Item(description, price)) == CeilFifth(AmountOrZero(price))
  {
    TrimSpaceOfBlank(description);
  }

  /** Every price parses to zero or more (or does not parse at all). */
  ghost predicate NonNegativePrices(items: seq<Item>)
  {
    forall i :: 0 <= i < |items| ==> AmountOrZero(items[i].price).mantissa >= 0
  }

  lemma {:induction false} ItemsPointsNonNegative(items: seq<Item>)
    requires NonNegativePrices(items)
    ensures ItemsPoints(items) >= 0
  {
    if items != [] {
      var init := items[..|items| - 1];
      assert NonNegativePrices(init) by {
        assert forall i :: 0 <= i < |init| ==> init[i] == items[i];
      }
      ItemsPointsNonNegative(init);
      CeilFifthNonNegative(AmountOrZero(items[|items| - 1].price));
    }
  }

  /** Without negative prices a receipt never scores below zero. */
  lemma {:induction false} PointsNonNegative(receipt: Receipt)
    requires NonNegativePrices(receipt.items)
    ensures Points(receipt) >= 0
  {
    ItemsPointsNonNegative(receipt.items);
  }

  // ---------------------------------------------------------------------
  // Rules 6 and 7: date and time

  /** The odd-day bonus is decided by the last digit of the date text. */
  lemma {:induction false} OddDayByLastDigit(s: string)
    requires ParseDate(s).Some?
    ensures OddDayPoints(DateOrZero(s)) == 6 <==> DigitValue(s[9]) % 2 == 1
  {
    var ds := s[8..];
    assert ds[..|ds| - 1][..0] == [];
    assert ds[|ds| - 1] == s[9];
  }

  /** The afternoon bonus covers exactly the two hours from 14:00 up to but
      not including 16:00: 14:00 and 15:59 earn it, 13:59 and 16:00 do not. */
  lemma {:induction false} AfternoonWindow(t: TimeOfDay)
    requires IsClockTime(t)
    ensures AfternoonPoints(t) == 10 <==> 14 * 60 <= 60 * t.hour + t.minute < 16 * 60
  {
  }

  /** Text that does not parse scores as Go's zero values: the amount 0 is
      whole and a multiple of 0.25 with nothing to round up, January 1 is
      an odd day, and midnight is outside the afternoon window. */
  lemma {:induction false} ParseFailureDefaults(s: string)
    ensures ParseDecimal(s).None? ==>
      RoundTotalPoints(AmountOrZero(s)) == 50 && QuarterTotalPoints(AmountOrZero(s)) == 25
        && CeilFifth(AmountOrZero(s)) == 0
    ensures ParseDate(s).None? ==> OddDayPoints(DateOrZero(s)) == 6
    ensures ParseTime(s).None? ==> AfternoonPoints(TimeOrMidnight(s)) == 0
  {
  }
}
