/** The service around the scoring engine: the checks a submitted receipt
    must pass (handlers/process.go), and the store that keeps each accepted
    receipt's points under its id and answers lookups
    (handlers/get_points.go). */
module Handlers {
  import opened Strings
  import opened Decimals
  import opened TimeLayouts
  import opened Models

  /** The date parses with the layout "2006-01-02". */
  predicate IsValidDate(date: string)
  {
    ParseDate(date).Some?
  }

  /** The time parses with the layout "15:04". */
  predicate IsValidTime(time: string)
  {
    ParseTime(time).Some?
  }

  /** The text parses as a decimal number. */
  predicate IsValidDecimal(decimal: string)
  {
    ParseDecimal(decimal).Some?
  }

  /** An item needs a description (any non-empty text, white space
      included) and a price that parses. */
  predicate IsValidItem(item: Item)
  {
    item.shortDescription != "" && IsValidDecimal(item.price)
  }

  predicate AreValidItems(items: seq<Item>)
  {
    forall i :: 0 <= i < |items| ==> IsValidItem(items[i])
  }

  /** The loop over the items, stopping at the first invalid one. An empty
      list passes. */
  method AllItemsValid(items: seq<Item>) returns (ok: bool)
    ensures ok <==> AreValidItems(items)
  {
    for i := 0 to |items|
      invariant forall k :: 0 <= k < i ==> IsValidItem(items[k])
    {
      if items[i].shortDescription == "" || !IsValidDecimal(items[i].price) {
        return false;
      }
    }
    return true;
  }

  /** The six checks a receipt must pass to be accepted. */
  predicate IsValidReceipt(receipt: Receipt)
  {
    && receipt.retailer != ""
    && |receipt.items| != 0
    && IsValidDate(receipt.purchaseDate)
    && IsValidTime(receipt.purchaseTime)
    && IsValidDecimal(receipt.total)
    && AreValidItems(receipt.items)
  }

  datatype SubmitOutcome = Accepted(id: string) | Rejected

  datatype PointsLookup = Found(points: int) | NotFound

  /** The in-memory map from receipt id to points. */
  class ReceiptStore {
    var scores: map<string, int>

    constructor ()
      ensures scores == map[]
    {
      scores := map[];
    }

    /** Validate, score and store a submitted receipt under `id`. A rejected
        receipt leaves the store as it was; an accepted one writes exactly
        the entry for `id` (replacing an earlier one under the same id). */
    method ProcessReceipt(receipt: Receipt, id: string) returns (outcome: SubmitOutcome)
      modifies this
      ensures IsValidReceipt(receipt) ==>
        outcome == Accepted(id) && scores == old(scores)[id := Points(receipt)]
      ensures !IsValidReceipt(receipt) ==> outcome == Rejected && scores == old(scores)
      ensures IsValidReceipt(receipt) && id !in old(scores) ==> |scores| == |old(scores)| + 1
    {
      var valid :=
        && receipt.retailer != ""
        && |receipt.items| != 0
        && IsValidDate(receipt.purchaseDate)
        && IsValidTime(receipt.purchaseTime)
        && IsValidDecimal(receipt.total);
      if valid {
        valid := AllItemsValid(receipt.items);
      }
      if !valid {
        return Rejected;
      }

      var points := CalculatePoints(receipt);
      scores := scores[id := points];
      return Accepted(id);
    }

    /** The points stored under `id`, or NotFound. */
    method GetPoints(id: string) returns (r: PointsLookup)
      ensures r.Found? <==> id in scores
      ensures r.Found? ==> r.points == scores[id]
    {
      if id !in scores {
        return NotFound;
      }
      return Found(scores[id]);
    }
  }

  /** An accepted receipt's points can be looked up under the id it was
      accepted with; after a rejection the lookup returns whatever was
      stored under the id before, or NotFound. */
  method SubmitThenLookUp(store: ReceiptStore, receipt: Receipt, id: string)
    returns (outcome: SubmitOutcome, lookup: PointsLookup)
    modifies store
    ensures IsValidReceipt(receipt) ==> outcome == Accepted(id) && lookup == Found(Points(receipt))
    ensures IsValidReceipt(receipt) ==> store.scores == old(store.scores)[id := Points(receipt)]
    ensures !IsValidReceipt(receipt) ==> outcome == Rejected && store.scores == old(store.scores)
    ensures !IsValidReceipt(receipt) ==>
      lookup == (if id in old(store.scores) then Found(old(store.scores)[id]) else NotFound)
  {
    outcome := store.ProcessReceipt(receipt, id);
    lookup := store.GetPoints(id);
  }

  /** An empty retailer name or an empty item list is always rejected, and
      so is a date, time or total that does not parse. */
  lemma {:induction false} RejectionCauses(receipt: Receipt)
    ensures receipt.retailer == "" ==> !IsValidReceipt(receipt)
    ensures receipt.items == [] ==> !IsValidReceipt(receipt)
    ensures ParseDate(receipt.purchaseDate).None? ==> !IsValidReceipt(receipt)
    ensures ParseTime(receipt.purchaseTime).None? ==> !IsValidReceipt(receipt)
    ensures ParseDecimal(receipt.total).None? ==> !IsValidReceipt(receipt)
  {
  }

  /** A field left out of the submission arrives as the empty string, which
      is neither a date, a time nor a decimal. */
  lemma {:induction false} MissingFieldsInvalid()
    ensures !IsValidDate("") && !IsValidTime("") && !IsValidDecimal("")
    ensures forall description :: !IsValidItem(Item(description, ""))
  {
  }

  /** On an accepted receipt no field falls back to a zero value: the score
      uses the date, time and amounts as written. */
  lemma {:induction false} ValidReceiptUsesParsedFields(receipt: Receipt)
    requires IsValidReceipt(receipt)
    ensures DateOrZero(receipt.purchaseDate) == ParseDate(receipt.purchaseDate).value
    ensures TimeOrMidnight(receipt.purchaseTime) == ParseTime(receipt.purchaseTime).value
    ensures AmountOrZero(receipt.total) == ParseDecimal(receipt.total).value
    ensures forall i :: 0 <= i < |receipt.items| ==>
      AmountOrZero(receipt.items[i].price) == ParseDecimal(receipt.items[i].price).value
  {
    assert forall i :: 0 <= i < |receipt.items| ==> IsValidItem(receipt.items[i]);
  }

  /** The description check does not trim: a description of white space
      alone is accepted, and then earns the item bonus. */
  lemma {:induction false} BlankDescriptionAccepted(description: string, price: string)
    requires description != "" && AllSpace(description) && IsValidDecimal(price)
    ensures IsValidItem(Item(description, price))
    ensures ItemPoints(Item(description, price)) == CeilFifth(ParseDecimal(price).value)
  {
    TrimSpaceOfBlank(description);
  }
}
