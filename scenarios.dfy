/** The receipts of the service's own test suite (tests/handlers_test.go),
    their scores, and the submit and lookup exchanges the tests perform,
    each against a store of its own. */
module Scenarios {
  import opened Arith
  import opened Wrappers
  import opened Numerals
  import opened Strings
  import opened Decimals
  import opened TimeLayouts
  import opened Models
  import opened PointsProperties
  import opened Handlers

  const OneItemReceipt := Receipt("Target", "2022-01-01", "13:01", [Item("Item 1", "6.49")], "6.49")

  const MountainDew := Item("Mountain Dew 12PK", "6.49")
  const CheesePizza := Item("Emils Cheese Pizza", "12.25")
  const CreamyChicken := Item("Knorr Creamy Chicken", "1.26")
  const NachoCheese := Item("Doritos Nacho Cheese", "3.35")
  const Klarbrunn := Item("   Klarbrunn 12-PK 12 FL OZ  ", "12.00")

  const FiveItemReceipt := Receipt("Target", "2022-01-01", "13:01",
    [MountainDew, CheesePizza, CreamyChicken, NachoCheese, Klarbrunn],
    "35.35")

  /** The submission with only a retailer and an item without a price: every
      field it leaves out arrives empty. */
  const IncompleteReceipt := Receipt("Target", "", "", [Item("Item 1", "")], "")

  /** ASCII text with no white space at either end is its own trim, one
      byte per character, so its remainder by 3 is that of its length. */
  lemma {:induction false} AsciiLengthRemainder(s: string, q: nat, m: nat)
    requires s != [] && IsAscii(s) && !IsSpace(s[0]) && !IsSpace(s[|s| - 1])
    requires |s| == 3 * q + m && m < 3
    ensures TrimmedLength(s) % 3 == m
  {
    TrimSpaceOfTrimmed(s);
    Utf8LengthOfAscii(s);
    DivModUnique(|s|, 3, q, m);
  }

  /** A parsed amount is valid and is what the scoring rules use. */
  lemma {:induction false} AmountOfParse(s: string, d: Decimal)
    requires ParseDecimal(s) == Some(d)
    ensures IsValidDecimal(s) && AmountOrZero(s) == d
  {
  }

  /** `spelled`, written `w.f`, is the amount whose digits spell `m`. */
  lemma {:induction false} ReadsAs(spelled: string, w: string, f: string, m: int)
    requires |w| > 0 && AllDigits(w) && AllDigits(f) && spelled == w + "." + f
    requires AllDigits(w + f) && DigitsValue(w + f) == m
    ensures IsValidDecimal(spelled) && AmountOrZero(spelled) == Decimal(m, |f|)
  {
    ParseSpelledDecimal("", w, f, true);
    UnsignedSpelling(w, f);
    AmountOfParse(spelled, Decimal(m, |f|));
  }

  lemma {:induction false} UnsignedSpelling(w: string, f: string)
    ensures Spelling("", w, f, true) == w + "." + f
  {
    assert "" + w == w;
  }

  lemma {:induction false} Reads6_49()
    ensures IsValidDecimal("6.49") && AmountOrZero("6.49") == Decimal(649, 2)
  {
    assert "6" + "49" == "649";
    assert DigitsValue("649") == 649 by { assert Digits(649, 3) == "649"; }
    ReadsAs("6.49", "6", "49", 649);
  }

  lemma {:induction false} Reads35_35()
    ensures IsValidDecimal("35.35") && AmountOrZero("35.35") == Decimal(3535, 2)
  {
    assert "35" + "35" == "3535";
    assert DigitsValue("3535") == 3535 by { assert Digits(3535, 4) == "3535"; }
    ReadsAs("35.35", "35", "35", 3535);
  }

  lemma {:induction false} Reads12_25()
    ensures IsValidDecimal("12.25") && AmountOrZero("12.25") == Decimal(1225, 2)
  {
    assert "12" + "25" == "1225";
    assert DigitsValue("1225") == 1225 by { assert Digits(1225, 4) == "1225"; }
    ReadsAs("12.25", "12", "25", 1225);
  }

  lemma {:induction false} Reads12_00()
    ensures IsValidDecimal("12.00") && AmountOrZero("12.00") == Decimal(1200, 2)
  {
    assert "12" + "00" == "1200";
    assert DigitsValue("1200") == 1200 by { assert Digits(1200, 4) == "1200"; }
    ReadsAs("12.00", "12", "00", 1200);
  }

  lemma {:induction false} Reads1_26()
    ensures IsValidDecimal("1.26") && AmountOrZero("1.26") == Decimal(126, 2)
  {
    assert "1" + "26" == "126";
    assert DigitsValue("126") == 126 by { assert Digits(126, 3) == "126"; }
    ReadsAs("1.26", "1", "26", 126);
  }

  lemma {:induction false} Reads3_35()
    ensures IsValidDecimal("3.35") && AmountOrZero("3.35") == Decimal(335, 2)
  {
    assert "3" + "35" == "335";
    assert DigitsValue("335") == 335 by { assert Digits(335, 3) == "335"; }
    ReadsAs("3.35", "3", "35", 335);
  }

  /** "2022-01-01", the date of both test receipts: January 1, an odd day. */
  lemma {:induction false} TestDate()
    ensures IsValidDate("2022-01-01") && DateOrZero("2022-01-01") == Date(2022, 1, 1)
  {
    var s := "2022-01-01";
    assert s[..4] == "2022" && s[5..7] == "01" && s[8..] == "01";
    assert DigitsValue("2022") == 2022 by { assert Digits(2022, 4) == "2022"; }
    assert DigitsValue("01") == 1 by { assert Digits(1, 2) == "01"; }
  }

  /** "13:01", the time of both test receipts: outside the afternoon window. */
  lemma {:induction false} TestTime()
    ensures IsValidTime("13:01") && TimeOrMidnight("13:01") == TimeOfDay(13, 1)
  {
    var s := "13:01";
    assert s[..2] == "13" && s[3..] == "01";
    assert DigitsValue("13") == 13 by { assert Digits(13, 2) == "13"; }
    assert DigitsValue("01") == 1 by { assert Digits(1, 2) == "01"; }
  }

  lemma {:induction false} TestDateAndTimePoints()
    ensures OddDayPoints(Date(2022, 1, 1)) == 6 && AfternoonPoints(TimeOfDay(13, 1)) == 0
  {
  }

  lemma {:induction false} TargetCount()
    ensures AlphanumericCount("Target") == 6
  {
    AlphanumericCountExtremes("Target");
  }

  /** 6.49 is neither whole nor a multiple of 0.25; a fifth of it, 1.298,
      rounds up to 2. */
  lemma {:induction false} AmountRules6_49()
    ensures var d := Decimal(649, 2);
      RoundTotalPoints(d) == 0 && QuarterTotalPoints(d) == 0 && CeilFifth(d) == 2
  {
    CentsRules(649);
  }

  /** 35.35 is neither whole nor a multiple of 0.25. */
  lemma {:induction false} AmountRules35_35()
    ensures RoundTotalPoints(Decimal(3535, 2)) == 0 && QuarterTotalPoints(Decimal(3535, 2)) == 0
  {
    CentsRules(3535);
  }

  /** A fifth of 12.25, 2.45, rounds up to 3. */
  lemma {:induction false} FifthOf12_25()
    ensures CeilFifth(Decimal(1225, 2)) == 3
  {
    CentsRules(1225);
  }

  /** A fifth of 12.00, 2.4, rounds up to 3. */
  lemma {:induction false} FifthOf12_00()
    ensures CeilFifth(Decimal(1200, 2)) == 3
  {
    CentsRules(1200);
  }

  lemma {:induction false} PairPointsOf(count: nat, pairs: nat)
    requires count == 2 * pairs || count == 2 * pairs + 1
    ensures ItemPairPoints(count) == 5 * pairs
  {
    DivModUnique(count, 2, pairs, count - 2 * pairs);
  }

  /** Rule 5 for an item whose trimmed description length is a multiple of 3. */
  lemma {:induction false} ItemEarns(item: Item, amount: Decimal, points: int)
    requires TrimmedLength(item.shortDescription) % 3 == 0
    requires AmountOrZero(item.price) == amount && CeilFifth(amount) == points
    ensures ItemPoints(item) == points
  {
  }

  /** Rule 5 for an item whose trimmed description length is not. */
  lemma {:induction false} ItemEarnsNothing(item: Item)
    requires TrimmedLength(item.shortDescription) % 3 != 0
    ensures ItemPoints(item) == 0
  {
  }

  /** The score of a receipt from the points of its seven rules. */
  lemma {:induction false} PointsOfParts(r: Receipt, name: int, round: int, quarter: int, pairs: int,
                      items: int, day: int, afternoon: int)
    requires AlphanumericCount(r.retailer) == name
    requires RoundTotalPoints(AmountOrZero(r.total)) == round
    requires QuarterTotalPoints(AmountOrZero(r.total)) == quarter
    requires ItemPairPoints(|r.items|) == pairs && ItemsPoints(r.items) == items
    requires OddDayPoints(DateOrZero(r.purchaseDate)) == day
    requires AfternoonPoints(TimeOrMidnight(r.purchaseTime)) == afternoon
    ensures Points(r) == name + round + quarter + pairs + items + day + afternoon
  {
  }

  /** A receipt is valid when each of its six checks passes. */
  lemma {:induction false} ValidOfParts(r: Receipt)
    requires r.retailer != "" && |r.items| != 0
    requires IsValidDate(r.purchaseDate) && IsValidTime(r.purchaseTime)
    requires IsValidDecimal(r.total)
    requires forall i :: 0 <= i < |r.items| ==> IsValidItem(r.items[i])
    ensures IsValidReceipt(r)
  {
  }

  lemma {:induction false} OneItemDescription()
    ensures TrimmedLength("Item 1") % 3 == 0
  {
    assert IsAscii("Item 1");
    AsciiLengthRemainder("Item 1", 2, 0);
  }

  /** "Item 1" has 6 characters, so the item earns 6.49 * 0.2 rounded up. */
  lemma {:induction false} OneItemItemPoints(item: Item)
    requires item == Item("Item 1", "6.49")
    ensures IsValidItem(item) && ItemPoints(item) == 2
  {
    OneItemDescription();
    Reads6_49();
    AmountRules6_49();
    ItemEarns(item, Decimal(649, 2), 2);
  }

  lemma {:induction false} OneItemItemsPoints(items: seq<Item>)
    requires items == OneItemReceipt.items
    ensures ItemsPoints(items) == 2 && |items| == 1 && IsValidItem(items[0])
  {
    OneItemItemPoints(items[0]);
    ItemsPointsSingle(items[0]);
    assert items == [items[0]];
  }

  lemma {:induction false} OneItemReceiptValid(r: Receipt)
    requires r == OneItemReceipt
    ensures IsValidReceipt(r)
  {
    TestDate();
    TestTime();
    Reads6_49();
    OneItemItemsPoints(r.items);
    ValidOfParts(r);
  }

  lemma {:induction false} OneItemScore(r: Receipt)
    requires r == OneItemReceipt
    ensures Points(r) == 14
  {
    TargetCount();
    Reads6_49();
    AmountRules6_49();
    PairPointsOf(|r.items|, 0);
    OneItemItemsPoints(r.items);
    TestDate();
    TestTime();
    TestDateAndTimePoints();
    PointsOfParts(r, 6, 0, 0, 0, 2, 6, 0);
  }

  /** The one-item receipt of the tests is valid and scores 14: 6 for
      "Target", 2 for "Item 1" at 6.49, 6 for the odd day. */
  lemma {:induction false} OneItemReceiptScores14()
    ensures IsValidReceipt(OneItemReceipt)
    ensures Points(OneItemReceipt) == 14
  {
    OneItemReceiptValid(OneItemReceipt);
    OneItemScore(OneItemReceipt);
  }

  lemma {:induction false} MountainDewDescription()
    ensures TrimmedLength("Mountain Dew 12PK") % 3 == 2
  {
    assert IsAscii("Mountain Dew 12PK");
    AsciiLengthRemainder("Mountain Dew 12PK", 5, 2);
  }

  lemma {:induction false} CheesePizzaDescription()
    ensures TrimmedLength("Emils Cheese Pizza") % 3 == 0
  {
    assert IsAscii("Emils Cheese Pizza");
    AsciiLengthRemainder("Emils Cheese Pizza", 6, 0);
  }

  /** Both 20-character descriptions leave remainder 2. */
  lemma {:induction false} TwentyCharacterDescription(s: string)
    requires s == "Knorr Creamy Chicken" || s == "Doritos Nacho Cheese"
    ensures TrimmedLength(s) % 3 == 2
  {
    assert IsAscii(s);
    AsciiLengthRemainder(s, 6, 2);
  }

  lemma {:induction false} KlarbrunnDescription()
    ensures TrimmedLength("Klarbrunn 12-PK 12 FL OZ") % 3 == 0
  {
    assert IsAscii("Klarbrunn 12-PK 12 FL OZ");
    AsciiLengthRemainder("Klarbrunn 12-PK 12 FL OZ", 8, 0);
  }

  /** Padding on either side does not count towards the length. */
  lemma {:induction false} PaddedLength(s: string, before: string, t: string, after: string)
    requires s == before + t + after && AllSpace(before) && AllSpace(after)
    ensures TrimmedLength(s) == TrimmedLength(t)
  {
    TrimSpaceIgnoresPadding(before, t, after);
  }

  /** The padding is cut before measuring: 24 characters remain. */
  lemma {:induction false} PaddedDescription()
    ensures TrimmedLength("   Klarbrunn 12-PK 12 FL OZ  ") % 3 == 0
  {
    KlarbrunnDescription();
    KlarbrunnPadding();
    BlankPadding();
    PaddedLength("   Klarbrunn 12-PK 12 FL OZ  ", "   ", "Klarbrunn 12-PK 12 FL OZ", "  ");
  }

  lemma {:induction false} KlarbrunnPadding()
    ensures "   Klarbrunn 12-PK 12 FL OZ  " == "   " + "Klarbrunn 12-PK 12 FL OZ" + "  "
  {
  }

  lemma {:induction false} BlankPadding()
    ensures AllSpace("   ") && AllSpace("  ")
  {
  }

  /** Descriptions of 17 and 20 characters earn nothing. */
  lemma {:induction false} UnpaddedItemsEarnNothing(a: Item, c: Item, d: Item)
    requires a == MountainDew
    requires c == CreamyChicken
    requires d == NachoCheese
    ensures IsValidItem(a) && ItemPoints(a) == 0
    ensures IsValidItem(c) && ItemPoints(c) == 0
    ensures IsValidItem(d) && ItemPoints(d) == 0
  {
    MountainDewDescription();
    TwentyCharacterDescription(c.shortDescription);
    TwentyCharacterDescription(d.shortDescription);
    Reads6_49();
    Reads1_26();
    Reads3_35();
    ItemEarnsNothing(a);
    ItemEarnsNothing(c);
    ItemEarnsNothing(d);
  }

  /** 18 characters: the item earns 12.25 * 0.2 = 2.45 rounded up. */
  lemma {:induction false} CheesePizzaItemPoints(item: Item)
    requires item == CheesePizza
    ensures IsValidItem(item) && ItemPoints(item) == 3
  {
    CheesePizzaDescription();
    Reads12_25();
    FifthOf12_25();
    ItemEarns(item, Decimal(1225, 2), 3);
  }

  /** 24 characters once trimmed: 12.00 * 0.2 = 2.4 rounded up. */
  lemma {:induction false} PaddedItemPoints(item: Item)
    requires item == Klarbrunn
    ensures IsValidItem(item) && ItemPoints(item) == 3
  {
    PaddedDescription();
    Reads12_00();
    FifthOf12_00();
    ItemEarns(item, Decimal(1200, 2), 3);
  }

  /** Rule 5 over five items is the sum of their points. */
  lemma {:induction false} ItemsPointsOfFive(items: seq<Item>, a: int, b: int, c: int, d: int, e: int)
    requires |items| == 5
    requires ItemPoints(items[0]) == a && ItemPoints(items[1]) == b && ItemPoints(items[2]) == c
    requires ItemPoints(items[3]) == d && ItemPoints(items[4]) == e
    ensures ItemsPoints(items) == a + b + c + d + e
  {
    assert items[..0] == [] && items[..5] == items;
    ItemsPointsStep(items, 1);
    ItemsPointsStep(items, 2);
    ItemsPointsStep(items, 3);
    ItemsPointsStep(items, 4);
    ItemsPointsStep(items, 5);
  }

  /** Five valid items make a valid list. */
  lemma {:induction false} ValidItemsOfFive(items: seq<Item>)
    requires |items| == 5
    requires IsValidItem(items[0]) && IsValidItem(items[1]) && IsValidItem(items[2])
    requires IsValidItem(items[3]) && IsValidItem(items[4])
    ensures forall i :: 0 <= i < |items| ==> IsValidItem(items[i])
  {
    forall i | 0 <= i < |items|
      ensures IsValidItem(items[i])
    {
      if i == 0 {
      } else if i == 1 {
      } else if i == 2 {
      } else if i == 3 {
      }
    }
  }

  /** The items of the five-item receipt, one by one. */
  predicate IsFiveItemList(items: seq<Item>)
  {
    && |items| == 5
    && items[0] == MountainDew && items[1] == CheesePizza && items[2] == CreamyChicken
    && items[3] == NachoCheese && items[4] == Klarbrunn
  }

  lemma {:induction false} FiveItemList(items: seq<Item>)
    requires items == FiveItemReceipt.items
    ensures IsFiveItemList(items)
  {
  }

  /** Only the 18- and 24-character descriptions earn item points. */
  lemma {:induction false} FiveItemItemsPoints(items: seq<Item>)
    requires IsFiveItemList(items)
    ensures ItemsPoints(items) == 6
  {
    UnpaddedItemsEarnNothing(items[0], items[2], items[3]);
    CheesePizzaItemPoints(items[1]);
    PaddedItemPoints(items[4]);
    ItemsPointsOfFive(items, 0, 3, 0, 0, 3);
  }

  /** Every item of the five-item receipt passes the item checks. */
  lemma {:induction false} FiveItemItemsValid(items: seq<Item>)
    requires IsFiveItemList(items)
    ensures forall i :: 0 <= i < |items| ==> IsValidItem(items[i])
  {
    UnpaddedItemsEarnNothing(items[0], items[2], items[3]);
    CheesePizzaItemPoints(items[1]);
    PaddedItemPoints(items[4]);
    ValidItemsOfFive(items);
  }

  lemma {:induction false} FiveItemReceiptValid(r: Receipt)
    requires r == FiveItemReceipt
    ensures IsValidReceipt(r)
  {
    TestDate();
    TestTime();
    Reads35_35();
    FiveItemList(r.items);
    FiveItemItemsValid(r.items);
    ValidOfParts(r);
  }

  lemma {:induction false} FiveItemScore(r: Receipt)
    requires r == FiveItemReceipt
    ensures Points(r) == 28
  {
    TargetCount();
    Reads35_35();
    AmountRules35_35();
    FiveItemList(r.items);
    FiveItemItemsPoints(r.items);
    PairPointsOf(|r.items|, 2);
    TestDate();
    TestTime();
    TestDateAndTimePoints();
    PointsOfParts(r, 6, 0, 0, 10, 6, 6, 0);
  }

  /** The five-item receipt of the tests is valid and scores 28: 6 for
      "Target", 10 for two pairs of items, 3 + 3 for two descriptions whose
      trimmed length is a multiple of 3, and 6 for the odd day. */
  lemma {:induction false} FiveItemReceiptScores28()
    ensures IsValidReceipt(FiveItemReceipt)
    ensures Points(FiveItemReceipt) == 28
  {
    FiveItemReceiptValid(FiveItemReceipt);
    FiveItemScore(FiveItemReceipt);
  }

  /** The submission without date, time, total or price fails validation. */
  lemma {:induction false} IncompleteReceiptInvalid()
    ensures !IsValidReceipt(IncompleteReceipt)
  {
    MissingFieldsInvalid();
  }

  /** A valid one-item receipt is accepted under the id it is given. */
  method ValidInputAccepted(id: string) returns (outcome: SubmitOutcome)
    ensures outcome == Accepted(id)
  {
    var store := new ReceiptStore();
    OneItemReceiptScores14();
    outcome := store.ProcessReceipt(OneItemReceipt, id);
  }

  /** The incomplete submission is rejected and nothing is stored. */
  method InvalidInputRejected(id: string) returns (outcome: SubmitOutcome, lookup: PointsLookup)
    ensures outcome == Rejected && lookup == NotFound
  {
    var store := new ReceiptStore();
    IncompleteReceiptInvalid();
    outcome := store.ProcessReceipt(IncompleteReceipt, id);
    lookup := store.GetPoints(id);
  }

  /** With "test-id" stored at 50, looking it up gives 50 and looking up an
      id never stored gives NotFound. */
  method LookUpStoredAndUnknownIds() returns (stored: PointsLookup, unknown: PointsLookup)
    ensures stored == Found(50)
    ensures unknown == NotFound
  {
    var store := new ReceiptStore();
    store.scores := store.scores["test-id" := 50];
    stored := store.GetPoints("test-id");
    unknown := store.GetPoints("non-existent-id");
  }

  /** Submitting the five-item receipt and looking up the id it is accepted
      under gives 28 points. */
  method ProcessAndGetPoints(id: string) returns (outcome: SubmitOutcome, lookup: PointsLookup)
    ensures outcome == Accepted(id) && lookup == Found(28)
  {
    var store := new ReceiptStore();
    FiveItemReceiptScores28();
    outcome, lookup := SubmitThenLookUp(store, FiveItemReceipt, id);
  }
}
