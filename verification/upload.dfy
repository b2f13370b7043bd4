/**
 * The one piece of the upload handler that is logic rather than HTTP:
 * after the Gemini route has extracted text, parse an order number out of
 * it and look the number up in a freshly built order directory.
 */
module Upload {
  import opened Wrappers
  import opened PurchaseOrders

  /**
   * Parse, then (only when a number was found) look it up in a new
   * `PurchaseOrderList`. Since the parser cannot produce `#` or `_`, the
   * only seeded order this can ever return is `W1506150551`.
   */
  method ParseThenLookup(extractedText: string) returns (purchaseOrder: Option<PurchaseOrder>)
    ensures purchaseOrder ==
              match ParsePurchaseOrder(extractedText)
              case None => None
              case Some(parsed) => Lookup(SeedOrders(), parsed.purchaseOrderNumber)
    ensures purchaseOrder.Some? <==>
              && ParsePurchaseOrder(extractedText).Some?
              && ParsePurchaseOrder(extractedText).value.purchaseOrderNumber == "W1506150551"
    ensures purchaseOrder.Some? ==> purchaseOrder.value == SeedOrders()[5]
  {
    purchaseOrder := ParsePurchaseOrder(extractedText);
    if purchaseOrder.Some? {
      var number := purchaseOrder.value.purchaseOrderNumber;
      var directory := new PurchaseOrderList();
      purchaseOrder := directory.GetPurchaseOrder(number);
      SeedLookupOfOrderNumber(number);
      LookupFindsFirst(SeedOrders(), number);
    }
  }

  /** The extractor output `{"purchaseOrderNumber": "W1506150551", "items": []}`, run through the parser and then the lookup. */
  const PackingSlipText := "{" + Key + "W1506150551" + "\", \"items\": []}"

  /**
   * End to end: this text parses to `W1506150551`, whose seeded
   * record has tracking number `75882988764` and one item of 16 at 1600.
   */
  lemma PackingSlipParsesAndResolves()
    ensures ParsePurchaseOrder(PackingSlipText) == Some(Skeleton("W1506150551"))
    ensures var r := Lookup(SeedOrders(), "W1506150551");
            && r.Some? && r.value.trackingNumber == Some("75882988764")
            && |r.value.items| == 1
            && r.value.items[0].itemQuantity == 16 && r.value.items[0].itemPrice == Some(1600)
  {
    var t := PackingSlipText;
    var v := "W1506150551";
    assert t == ("{" + Key) + v + "\", \"items\": []}";
    assert t[1..1 + |Key|] == Key;
    assert t[1 + |Key|..1 + |Key| + |v|] == v;
    assert MatchAt(t, 1, v);
    forall j: nat, w | j < 1 ensures !MatchAt(t, j, w) {
      assert t[0] == '{';
    }
    ParseReturnsLeftmost(t, 1, v);
    SeedLookups();
  }

  /** A match can only start at a quote followed by `p`. */
  lemma NoMatchWithoutKeyStart(text: string, j: nat, w: string)
    requires j + 1 < |text| && (text[j] != '"' || text[j + 1] != 'p')
    ensures !MatchAt(text, j, w)
  {
    if j + |Key| <= |text| {
      var window := text[j..j + |Key|];
      assert window[0] == text[j] && window[1] == text[j + 1];
      assert Key[0] == '"' && Key[1] == 'p';
    }
  }

  /**
   * A malformed earlier occurrence does not hide a later well-formed one:
   * `#X` is outside the class, so the search moves on to `AB-1`.
   */
  lemma MalformedOccurrenceIsSkipped()
    ensures ParsePurchaseOrder(Key + "#X\" " + Key + "AB-1\"") == Some(Skeleton("AB-1"))
  {
    var t := Key + "#X\" " + Key + "AB-1\"";
    var i := |Key| + 4;
    assert t == (Key + "#X\" ") + Key + "AB-1\"";
    assert t[i..i + |Key|] == Key;
    assert t[i + |Key|..i + |Key| + 4] == "AB-1";
    assert MatchAt(t, i, "AB-1");
    forall j: nat, w | j < i ensures !MatchAt(t, j, w) {
      if j == 0 {
        assert t[|Key|] == '#';
      } else {
        NoMatchWithoutKeyStart(t, j, w);
      }
    }
    ParseReturnsLeftmost(t, i, "AB-1");
  }
}
