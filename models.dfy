/** The receipt and its reward-points score (models/points.go): seven
    independent rules whose points are added up. */
module Models {
  import opened Arith
  import opened Strings
  import opened Decimals
  import opened TimeLayouts

  datatype Item = Item(shortDescription: string, price: string)

  datatype Receipt = Receipt(
    retailer: string,
    purchaseDate: string,
    purchaseTime: string,
    items: seq<Item>,
    total: string)

  /** An ASCII letter or digit. */
  predicate IsAlphanumeric(c: char)
  {
    ('a' <= c <= 'z') || ('A' <= c <= 'Z') || ('0' <= c <= '9')
  }

  /** Rule 1: one point per letter or digit of the retailer name. */
  function AlphanumericCount(name: string): (n: nat)
    ensures n <= |name|
  {
    if name == [] then 0
    else AlphanumericCount(name[..|name| - 1]) + (if IsAlphanumeric(name[|name| - 1]) then 1 else 0)
  }

  /** The amount is a whole number: every fraction digit is zero. */
  predicate IsWhole(amount: Decimal)
  {
    DividesPow10(amount.mantissa, amount.scale)
  }

  /** The amount is a multiple of 0.25, i.e. four times it is whole. */
  predicate IsQuarterMultiple(amount: Decimal)
  {
    DividesPow10(4 * amount.mantissa, amount.scale)
  }

  /** The amount times 0.2, rounded up to a whole number: the amount
      rounded up to a whole number, then divided by 5 and rounded up. */
  function CeilFifth(amount: Decimal): int
  {
    CeilDiv(CeilPow10(amount.mantissa, amount.scale), 5)
  }

  /** Rule 2: 50 points for a whole-number total. */
  function RoundTotalPoints(total: Decimal): nat
  {
    if IsWhole(total) then 50 else 0
  }

  /** Rule 3: 25 points for a total that is a multiple of 0.25. */
  function QuarterTotalPoints(total: Decimal): nat
  {
    if IsQuarterMultiple(total) then 25 else 0
  }

  /** Rule 4: 5 points for every two items; an odd item out earns nothing. */
  function ItemPairPoints(count: nat): (n: nat)
    ensures n % 5 == 0
    ensures 2 * n <= 5 * count < 2 * n + 10
  {
    (count / 2) * 5
  }

  /** Length in bytes of the description with surrounding white space cut. */
  function TrimmedLength(description: string): nat
  {
    Utf8Length(TrimSpace(description))
  }

  /** Rule 5, for one item: when the trimmed description length is a
      multiple of 3, the price times 0.2 rounded up. */
  function ItemPoints(item: Item): int
  {
    if TrimmedLength(item.shortDescription) % 3 == 0 then CeilFifth(AmountOrZero(item.price)) else 0
  }

  /** Rule 5, summed over the items in order. */
  function ItemsPoints(items: seq<Item>): int
  {
    if items == [] then 0 else ItemsPoints(items[..|items| - 1]) + ItemPoints(items[|items| - 1])
  }

  /** Rule 5 over a prefix is rule 5 over the prefix one shorter, plus the
      prefix's last item. */
  lemma {:induction false} ItemsPointsStep(items: seq<Item>, n: nat)
    requires 0 < n <= |items|
    ensures ItemsPoints(items[..n]) == ItemsPoints(items[..n - 1]) + ItemPoints(items[n - 1])
  {
    assert items[..n][..n - 1] == items[..n - 1];
  }

  /** Rule 6: 6 points for an odd day of the month. */
  function OddDayPoints(date: Date): nat
  {
    if date.day % 2 != 0 then 6 else 0
  }

  /** Rule 7: 10 points when the hour is 14, or 15 with any minute. */
  function AfternoonPoints(time: TimeOfDay): nat
  {
    if time.hour == 14 || (time.hour == 15 && time.minute < 60) then 10 else 0
  }

  /** The score of a receipt: the sum of the seven rules. Fields that do not
      parse count as Go's zero values: amount 0, date January 1 of year 1,
      time 00:00. */
  function Points(receipt: Receipt): int
  {
    var total := AmountOrZero(receipt.total);
    AlphanumericCount(receipt.retailer)
      + RoundTotalPoints(total)
      + QuarterTotalPoints(total)
      + ItemPairPoints(|receipt.items|)
      + ItemsPoints(receipt.items)
      + OddDayPoints(DateOrZero(receipt.purchaseDate))
      + AfternoonPoints(TimeOrMidnight(receipt.purchaseTime))
  }

  /** The loop over the items: each item whose trimmed description length
      is a multiple of 3 adds its price times 0.2, rounded up. */
  method SumItemPoints(items: seq<Item>) returns (sum: int)
    ensures sum == ItemsPoints(items)
  {
    sum := 0;
    for i := 0 to |items|
      invariant sum == ItemsPoints(items[..i])
    {
      ItemsPointsStep(items, i + 1);
      var descLength := Utf8Length(TrimSpace(items[i].shortDescription));
      if descLength % 3 == 0 {
        var price := AmountOrZero(items[i].price);
        sum := sum + CeilFifth(price);
      }
    }
    assert items[..|items|] == items;
  }

  /** The scoring routine: an accumulator raised rule by rule, with a loop
      over the characters of the retailer name and one over the items. */
  method CalculatePoints(receipt: Receipt) returns (points: int)
    ensures points == Points(receipt)
  {
    points := 0;

    var name := receipt.retailer;
    for i := 0 to |name|
      invariant points == AlphanumericCount(name[..i])
    {
      assert name[..i + 1][..i] == name[..i];
      if IsAlphanumeric(name[i]) {
        points := points + 1;
      }
    }
    assert name[..|name|] == name;

    var total := AmountOrZero(receipt.total);
    if IsWhole(total) {
      points := points + 50;
    }
    if IsQuarterMultiple(total) {
      points := points + 25;
    }
    assert points == AlphanumericCount(name) + RoundTotalPoints(total) + QuarterTotalPoints(total);

    var items := receipt.items;
    var pairs := |items| / 2;
    points := points + pairs * 5;

    var itemPoints := SumItemPoints(items);
    points := points + itemPoints;
    assert points == AlphanumericCount(name) + RoundTotalPoints(total) + QuarterTotalPoints(total)
      + ItemPairPoints(|items|) + ItemsPoints(items);

    var date := DateOrZero(receipt.purchaseDate);
    if date.day % 2 != 0 {
      points := points + 6;
    }

    var time := TimeOrMidnight(receipt.purchaseTime);
    if time.hour == 14 || (time.hour == 15 && time.minute < 60) {
      points := points + 10;
    }
  }
}
