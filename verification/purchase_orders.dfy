/**
 * Purchase orders: the two record types, the parser that pulls an order
 * number out of extractor output, and the list-backed order directory.
 */
module PurchaseOrders {
  import opened Wrappers

  /** One line of an order. The source types the price as a float; every seeded price is whole. */
  datatype Item = Item(
    itemId: Option<string>,
    itemName: Option<string>,
    itemQuantity: int,
    itemPrice: Option<int>)

  /** A purchase order, identified by its number (exact string equality). */
  datatype PurchaseOrder = PurchaseOrder(
    purchaseOrderNumber: string,
    trackingNumber: Option<string>,
    date: Option<string>,
    customerName: Option<string>,
    customerAddress: Option<string>,
    items: seq<Item>)

  /** An order built from its number alone: every other field keeps its default. */
  function Skeleton(number: string): PurchaseOrder {
    PurchaseOrder(number, None, None, None, None, [])
  }

  // ---------------------------------------------------------------------------
  // The parser: a search for  "purchaseOrderNumber": "([A-Za-z0-9-]+)"
  // ---------------------------------------------------------------------------

  /** The literal text that has to precede an order number, opening quote of the value included. */
  const Key := "\"purchaseOrderNumber\": \""

  /** The character class `[A-Za-z0-9-]` of the captured group. */
  predicate IsOrderChar(c: char) {
    ('A' <= c <= 'Z') || ('a' <= c <= 'z') || ('0' <= c <= '9') || c == '-'
  }

  /** A string the captured group can match: one or more characters of the class. */
  predicate IsOrderNumber(s: string) {
    |s| > 0 && forall k :: 0 <= k < |s| ==> IsOrderChar(s[k])
  }

  /** The whole pattern matches `text` starting at position `i`, with `v` as its captured group. */
  predicate MatchAt(text: string, i: nat, v: string) {
    && IsOrderNumber(v)
    && i + |Key| + |v| < |text|
    && text[i..i + |Key|] == Key
    && text[i + |Key|..i + |Key| + |v|] == v
    && text[i + |Key| + |v|] == '"'
  }

  /** `v` is captured by the match at `i`, and no match starts further left. */
  ghost predicate LeftmostMatch(text: string, i: nat, v: string) {
    MatchAt(text, i, v) && forall j: nat, w: string :: j < i ==> !MatchAt(text, j, w)
  }

  /** The length of the longest run of class characters starting at `start`. */
  function RunLength(text: string, start: nat): (n: nat)
    requires start <= |text|
    ensures start + n <= |text|
    ensures forall k :: start <= k < start + n ==> IsOrderChar(text[k])
    ensures start + n == |text| || !IsOrderChar(text[start + n])
    decreases |text| - start
  {
    if start < |text| && IsOrderChar(text[start]) then 1 + RunLength(text, start + 1) else 0
  }

  /**
   * The captured group of a match at position `i`, if the pattern matches there.
   * The class excludes the closing quote, so the greedy run is the only candidate:
   * a match at `i` exists exactly when the run is non-empty and followed by a quote.
   */
  function ValueAt(text: string, i: nat): (r: Option<string>)
    ensures r.Some? ==> MatchAt(text, i, r.value)
    ensures forall v :: MatchAt(text, i, v) ==> r == Some(v)
  {
    var s := i + |Key|;
    if s <= |text| && text[i..s] == Key then
      var n := RunLength(text, s);
      if 0 < n && s + n < |text| && text[s + n] == '"' then Some(text[s..s + n]) else None
    else
      None
  }

  /** The leftmost position at or after `from` where the pattern matches. */
  function FirstMatch(text: string, from: nat): (r: Option<nat>)
    requires from <= |text|
    ensures r.Some? ==> from <= r.value < |text| && ValueAt(text, r.value).Some?
    ensures forall k: nat :: from <= k < |text| && (r.None? || k < r.value) ==> ValueAt(text, k).None?
    decreases |text| - from
  {
    if from == |text| then None
    else if ValueAt(text, from).Some? then Some(from)
    else FirstMatch(text, from + 1)
  }

  /**
   * The search of `parse_purchase_order`: the order number of the leftmost
   * match, wrapped in an otherwise empty order, or `None` without a match.
   */
  function ParsePurchaseOrder(text: string): (r: Option<PurchaseOrder>)
    ensures r.Some? <==> exists i: nat, v :: MatchAt(text, i, v)
    ensures r.Some? ==> exists i: nat :: LeftmostMatch(text, i, r.value.purchaseOrderNumber)
    ensures r.Some? ==> IsOrderNumber(r.value.purchaseOrderNumber)
    ensures r.Some? ==> && r.value.items == []
                        && r.value.trackingNumber.None? && r.value.date.None?
                        && r.value.customerName.None? && r.value.customerAddress.None?
  {
    match FirstMatch(text, 0)
    case None =>
      assert forall i: nat, v :: !MatchAt(text, i, v) by {
        forall i: nat, v ensures !MatchAt(text, i, v) {
          if i < |text| {
            assert ValueAt(text, i).None?;
          }
        }
      }
      None
    case Some(i) =>
      var v := ValueAt(text, i).value;
      assert LeftmostMatch(text, i, v) by {
        forall j: nat, w | j < i ensures !MatchAt(text, j, w) {
          assert ValueAt(text, j).None?;
        }
      }
      Some(Skeleton(v))
  }

  /** Whatever the leftmost match captures is exactly what the parser returns. */
  lemma {:induction false} ParseReturnsLeftmost(text: string, i: nat, v: string)
    requires LeftmostMatch(text, i, v)
    ensures ParsePurchaseOrder(text) == Some(Skeleton(v))
  {
    assert ValueAt(text, i) == Some(v);
  }

  /**
   * The parser never yields a number containing `#` or `_`, so it can never
   * produce the first five seeded numbers.
   */
  lemma ParsedNumberHasNoHashOrUnderscore(text: string)
    ensures ParsePurchaseOrder(text).Some? ==>
              var n := ParsePurchaseOrder(text).value.purchaseOrderNumber;
              '#' !in n && '_' !in n
  {
  }

  // ---------------------------------------------------------------------------
  // The order directory
  // ---------------------------------------------------------------------------

  /** The six orders every new directory starts with, in their source order. */
  function SeedOrders(): (s: seq<PurchaseOrder>)
    ensures |s| == 6
    ensures forall k :: 0 <= k < 5 ==> |s[k].purchaseOrderNumber| > 0 && s[k].purchaseOrderNumber[0] == '#'
    ensures s[5].purchaseOrderNumber == "W1506150551"
    ensures forall i, j :: 0 <= i < j < |s| ==> s[i].purchaseOrderNumber != s[j].purchaseOrderNumber
  {
    [
      PurchaseOrder("#ORDER_571", Some("LZ92738101"), Some("March 19th, 2025"), Some("John Smith"),
                    Some("605 Random Lake Rd, 53075\nRandom Lake, WI, United States"),
                    [Item(None, Some("Item 1"), 1, Some(100)),
                     Item(None, Some("Item 2"), 2, Some(200)),
                     Item(None, Some("Item 3"), 3, Some(300))]),
      PurchaseOrder("#ORDER_572", Some("LZ92738102"), Some("March 20th, 2025"), Some("Jane Doe"),
                    Some("123 Main St, Anytown, USA"),
                    [Item(None, Some("Item 4"), 4, Some(400)),
                     Item(None, Some("Item 5"), 5, Some(500)),
                     Item(None, Some("Item 6"), 6, Some(600))]),
      PurchaseOrder("#ORDER_573", Some("LZ92738103"), Some("March 21st, 2025"), Some("Jim Beam"),
                    Some("456 Maple Ave, Anytown, USA"),
                    [Item(None, Some("Item 7"), 7, Some(700)),
                     Item(None, Some("Item 8"), 8, Some(800)),
                     Item(None, Some("Item 9"), 9, Some(900))]),
      PurchaseOrder("#ORDER_574", Some("LZ92738104"), Some("March 22nd, 2025"), Some("John Doe"),
                    Some("789 Oak St, Anytown, USA"),
                    [Item(None, Some("Item 10"), 10, Some(1000)),
                     Item(None, Some("Item 11"), 11, Some(1100)),
                     Item(None, Some("Item 12"), 12, Some(1200))]),
      PurchaseOrder("#ORDER_575", Some("LZ92738105"), Some("March 23rd, 2025"), Some("Jane Smith"),
                    Some("321 Pine St, Anytown, USA"),
                    [Item(None, Some("Item 13"), 13, Some(1300)),
                     Item(None, Some("Item 14"), 14, Some(1400)),
                     Item(None, Some("Item 15"), 15, Some(1500))]),
      PurchaseOrder("W1506150551", Some("75882988764"), Some("March 17th, 2025"), Some("Naveen Acharya"),
                    Some("789 Oak St, Anytown, USA"),
                    [Item(None, Some("Item 16"), 16, Some(1600))])
    ]
  }

  /** The first order in `orders` whose number is `number`, scanning from the front. */
  function Lookup(orders: seq<PurchaseOrder>, number: string): Option<PurchaseOrder> {
    if orders == [] then None
    else if orders[0].purchaseOrderNumber == number then Some(orders[0])
    else Lookup(orders[1..], number)
  }

  /** Position `k` holds `number`, and no earlier position does. */
  predicate IsFirstWithNumber(orders: seq<PurchaseOrder>, number: string, k: nat) {
    && k < |orders|
    && orders[k].purchaseOrderNumber == number
    && forall j :: 0 <= j < k ==> orders[j].purchaseOrderNumber != number
  }

  /** `Lookup` is first-match search: absent exactly when no entry carries the number. */
  lemma {:induction false} LookupFindsFirst(orders: seq<PurchaseOrder>, number: string)
    ensures Lookup(orders, number).None? <==>
              forall k :: 0 <= k < |orders| ==> orders[k].purchaseOrderNumber != number
    ensures forall k: nat :: IsFirstWithNumber(orders, number, k) ==> Lookup(orders, number) == Some(orders[k])
    decreases |orders|
  {
    if orders != [] && orders[0].purchaseOrderNumber != number {
      LookupFindsFirst(orders[1..], number);
      forall k: nat | IsFirstWithNumber(orders, number, k)
        ensures Lookup(orders, number) == Some(orders[k])
      {
        assert IsFirstWithNumber(orders[1..], number, k - 1);
      }
    }
  }

  /** Entries before `k` that do not carry the number can be skipped. */
  lemma {:induction false} LookupSkipsPrefix(orders: seq<PurchaseOrder>, k: nat, number: string)
    requires k <= |orders|
    requires forall j :: 0 <= j < k ==> orders[j].purchaseOrderNumber != number
    ensures Lookup(orders, number) == Lookup(orders[k..], number)
    decreases k
  {
    if k > 0 {
      LookupSkipsPrefix(orders[1..], k - 1, number);
      assert orders[1..][k - 1..] == orders[k..];
    }
  }

  /**
   * Appending never changes the answer for a number already present; for a
   * number not yet present, the answer becomes the new order if it carries it.
   */
  lemma {:induction false} LookupAfterAppend(orders: seq<PurchaseOrder>, o: PurchaseOrder, number: string)
    ensures Lookup(orders + [o], number) ==
              if Lookup(orders, number).Some? then Lookup(orders, number)
              else if o.purchaseOrderNumber == number then Some(o)
              else None
    decreases |orders|
  {
    if orders == [] {
      assert orders + [o] == [o];
    } else {
      assert (orders + [o])[1..] == orders[1..] + [o];
      LookupAfterAppend(orders[1..], o, number);
    }
  }

  /** Lookups of two seeded records, and a miss for an unknown number. */
  lemma SeedLookups()
    ensures |SeedOrders()| == 6
    ensures var r := Lookup(SeedOrders(), "#ORDER_571");
            && r.Some? && r.value.trackingNumber == Some("LZ92738101")
            && |r.value.items| == 3
            && r.value.items[0].itemQuantity == 1 && r.value.items[0].itemPrice == Some(100)
            && r.value.items[1].itemQuantity == 2 && r.value.items[1].itemPrice == Some(200)
            && r.value.items[2].itemQuantity == 3 && r.value.items[2].itemPrice == Some(300)
    ensures var r := Lookup(SeedOrders(), "W1506150551");
            && r.Some? && r.value.trackingNumber == Some("75882988764")
            && |r.value.items| == 1
            && r.value.items[0].itemQuantity == 16 && r.value.items[0].itemPrice == Some(1600)
    ensures Lookup(SeedOrders(), "NOPE").None?
  {
  }

  /**
   * Of the seeded orders, only `W1506150551` can be found through a number
   * the parser can produce: the other five carry `#`, outside the class.
   */
  lemma {:induction false} SeedLookupOfOrderNumber(n: string)
    requires IsOrderNumber(n)
    ensures var r := Lookup(SeedOrders(), n);
            r.None? || r.value == SeedOrders()[5]
  {
    var seed := SeedOrders();
    forall j | 0 <= j < 5 ensures seed[j].purchaseOrderNumber != n {
      assert seed[j].purchaseOrderNumber[0] == '#';
      assert IsOrderChar(n[0]);
    }
    LookupSkipsPrefix(seed, 5, n);
    assert seed[5..] == [seed[5]];
  }

  /** The in-memory order directory: a list mutated only by appending. */
  class PurchaseOrderList {
    var purchaseOrders: seq<PurchaseOrder>

    /** A new directory holds exactly the seeded orders. */
    constructor ()
      ensures purchaseOrders == SeedOrders()
    {
      purchaseOrders := SeedOrders();
    }

    /** Appends `purchaseOrder` at the end; no check for an existing number. */
    method Add(purchaseOrder: PurchaseOrder)
      modifies this
      ensures purchaseOrders == old(purchaseOrders) + [purchaseOrder]
    {
      purchaseOrders := purchaseOrders + [purchaseOrder];
    }

    /** Linear scan in list order for the first order whose number equals `purchaseOrderNumber`. */
    method GetPurchaseOrder(purchaseOrderNumber: string) returns (r: Option<PurchaseOrder>)
      ensures r == Lookup(purchaseOrders, purchaseOrderNumber)
      ensures r.Some? ==> r.value in purchaseOrders && r.value.purchaseOrderNumber == purchaseOrderNumber
    {
      for i := 0 to |purchaseOrders|
        invariant Lookup(purchaseOrders[i..], purchaseOrderNumber) == Lookup(purchaseOrders, purchaseOrderNumber)
      {
        if purchaseOrders[i].purchaseOrderNumber == purchaseOrderNumber {
          return Some(purchaseOrders[i]);
        }
        assert purchaseOrders[i..][1..] == purchaseOrders[i + 1..];
      }
      return None;
    }

    /** The current contents, in insertion order. */
    method GetPurchaseOrders() returns (orders: seq<PurchaseOrder>)
      ensures orders == purchaseOrders
    {
      orders := purchaseOrders;
    }
  }
}
