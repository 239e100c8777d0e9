/**
 * Stock reconciler, as a specification (stock_report in main.py): the
 * on-hand quantity of a key is the opening stock recorded for it plus every
 * stock-in minus every stock-out posted to it. A movement posts to a key
 * when its item id is that key and is not empty; a movement whose kind is
 * neither "in" nor "out" posts nothing.
 */
module Stock {
  import opened Schemas
  import opened Documents
  import opened Ledger

  /** One record of the stock report. */
  datatype StockLine = StockLine(itemId: string, name: string, sku: string, onHand: real, unit: string)

  predicate PostsTo(m: StockMovement, key: string) {
    m.itemId != "" && m.itemId == key
  }

  /** The total quantity moved in for `key`. */
  function Ins(key: string, ms: seq<StockMovement>): real {
    if ms == [] then 0.0
    else
      var m := ms[|ms| - 1];
      Ins(key, ms[..|ms| - 1]) + (if PostsTo(m, key) && m.kind == "in" then m.qty else 0.0)
  }

  /** The total quantity moved out for `key`. */
  function Outs(key: string, ms: seq<StockMovement>): real {
    if ms == [] then 0.0
    else
      var m := ms[|ms| - 1];
      Outs(key, ms[..|ms| - 1]) + (if PostsTo(m, key) && m.kind == "out" then m.qty else 0.0)
  }

  /** The opening stock seeded for `key`: that of the last item stored under it, 0 if there is none. */
  function Opening(items: seq<Doc<Item>>, key: string): real {
    if items == [] then 0.0
    else if items[|items| - 1].id == key then items[|items| - 1].body.openingStock
    else Opening(items[..|items| - 1], key)
  }

  /** On-hand = opening + ins - outs. */
  function OnHand(items: seq<Doc<Item>>, key: string, ms: seq<StockMovement>): real {
    Opening(items, key) + Ins(key, ms) - Outs(key, ms)
  }

  /** A dictionary read with a default of 0, as the report reads its quantity map. */
  function Lookup(m: map<string, real>, key: string): real {
    if key in m then m[key] else 0.0
  }

  /** The total quantity of purchase lines for `key`. */
  function PurchasedQty(key: string, lines: seq<PurchaseItem>): real {
    if lines == [] then 0.0
    else
      var line := lines[|lines| - 1];
      PurchasedQty(key, lines[..|lines| - 1]) + (if line.itemId != "" && line.itemId == key then line.qty else 0.0)
  }

  /** The total quantity of sale lines for `key`. */
  function SoldQty(key: string, lines: seq<SaleItem>): real {
    if lines == [] then 0.0
    else
      var line := lines[|lines| - 1];
      SoldQty(key, lines[..|lines| - 1]) + (if line.itemId != "" && line.itemId == key then line.qty else 0.0)
  }

  /** The change one movement makes to the on-hand of `key`: the fold step of the report. */
  function Posting(m: StockMovement, key: string): real {
    if PostsTo(m, key) && m.kind == "in" then m.qty
    else if PostsTo(m, key) && m.kind == "out" then -m.qty
    else 0.0
  }

  /** On-hand over one more movement is on-hand over the prefix plus that movement's posting. */
  lemma OnHandStep(items: seq<Doc<Item>>, key: string, ms: seq<StockMovement>, i: nat)
    requires i < |ms|
    ensures OnHand(items, key, ms[..i + 1]) == OnHand(items, key, ms[..i]) + Posting(ms[i], key)
  {
    assert ms[..i + 1][..i] == ms[..i];
  }

  /** When stored items have distinct ids, each item's seeded stock is its own opening stock. */
  lemma {:induction false} OpeningOfStoredItem(items: seq<Doc<Item>>, j: nat)
    requires j < |items|
    requires forall a, b :: 0 <= a < b < |items| ==> items[a].id != items[b].id
    ensures Opening(items, items[j].id) == items[j].body.openingStock
  {
    if j < |items| - 1 {
      OpeningOfStoredItem(items[..|items| - 1], j);
    }
  }

  /**
   * Stock conservation: when stored items have distinct ids, every item's
   * on-hand is its own opening stock plus its ins minus its outs; with no
   * movements it is exactly the opening stock.
   */
  lemma StockConservation(items: seq<Doc<Item>>, ms: seq<StockMovement>)
    requires forall a, b :: 0 <= a < b < |items| ==> items[a].id != items[b].id
    ensures forall j :: 0 <= j < |items| ==>
      OnHand(items, items[j].id, ms) == items[j].body.openingStock + Ins(items[j].id, ms) - Outs(items[j].id, ms)
    ensures forall j :: 0 <= j < |items| ==> OnHand(items, items[j].id, []) == items[j].body.openingStock
  {
    forall j | 0 <= j < |items|
      ensures Opening(items, items[j].id) == items[j].body.openingStock
    {
      OpeningOfStoredItem(items, j);
    }
  }

  /** A key no item is stored under has no opening stock. */
  lemma {:induction false} OpeningOfUnknownKey(items: seq<Doc<Item>>, key: string)
    requires forall a :: 0 <= a < |items| ==> items[a].id != key
    ensures Opening(items, key) == 0.0
  {
    if items != [] {
      OpeningOfUnknownKey(items[..|items| - 1], key);
    }
  }

  /** Ins and outs are additive over a split of the movement log. */
  lemma {:induction false} InsOutsAppend(key: string, ms: seq<StockMovement>, more: seq<StockMovement>)
    ensures Ins(key, ms + more) == Ins(key, ms) + Ins(key, more)
    ensures Outs(key, ms + more) == Outs(key, ms) + Outs(key, more)
  {
    if more != [] {
      var last := |more| - 1;
      assert (ms + more)[..|ms + more| - 1] == ms + more[..last];
      InsOutsAppend(key, ms, more[..last]);
    } else {
      assert ms + more == ms;
    }
  }

  /** Appending movements changes on-hand by exactly their net posting to the key. */
  lemma OnHandAppend(items: seq<Doc<Item>>, key: string, ms: seq<StockMovement>, more: seq<StockMovement>)
    ensures OnHand(items, key, ms + more) == OnHand(items, key, ms) + Ins(key, more) - Outs(key, more)
  {
    InsOutsAppend(key, ms, more);
  }

  /** The order in which two batches of movements were recorded does not affect on-hand. */
  lemma OnHandOrderIndependent(items: seq<Doc<Item>>, key: string, ms: seq<StockMovement>, more: seq<StockMovement>)
    ensures OnHand(items, key, ms + more) == OnHand(items, key, more + ms)
  {
    InsOutsAppend(key, ms, more);
    InsOutsAppend(key, more, ms);
  }

  /** A movement of another kind than "in" or "out", or with an empty item id, changes no on-hand quantity. */
  lemma IgnoredMovement(items: seq<Doc<Item>>, key: string, ms: seq<StockMovement>, m: StockMovement)
    requires (m.kind != "in" && m.kind != "out") || m.itemId == ""
    ensures OnHand(items, key, ms + [m]) == OnHand(items, key, ms)
  {
  }

  /** A movement for an id no item is stored under changes the on-hand of no stored item. */
  lemma UnknownItemMovement(items: seq<Doc<Item>>, ms: seq<StockMovement>, m: StockMovement)
    requires forall a :: 0 <= a < |items| ==> items[a].id != m.itemId
    ensures forall j :: 0 <= j < |items| ==> OnHand(items, items[j].id, ms + [m]) == OnHand(items, items[j].id, ms)
  {
  }

  /** The movements of a purchase post, for each key, its purchased quantity in and nothing out. */
  lemma {:induction false} PurchaseMovementsPost(key: string, lines: seq<PurchaseItem>, purchaseId: string, now: Timestamp)
    ensures Ins(key, PurchaseMovements(lines, purchaseId, now)) == PurchasedQty(key, lines)
    ensures Outs(key, PurchaseMovements(lines, purchaseId, now)) == 0.0
  {
    if lines != [] {
      var init := lines[..|lines| - 1];
      PurchaseMovementsPost(key, init, purchaseId, now);
      var ms := PurchaseMovements(lines, purchaseId, now);
      assert ms[..|ms| - 1] == PurchaseMovements(init, purchaseId, now);
    }
  }

  /** The movements of a sale post, for each key, its sold quantity out and nothing in. */
  lemma {:induction false} SaleMovementsPost(key: string, lines: seq<SaleItem>, saleId: string, now: Timestamp)
    ensures Ins(key, SaleMovements(lines, saleId, now)) == 0.0
    ensures Outs(key, SaleMovements(lines, saleId, now)) == SoldQty(key, lines)
  {
    if lines != [] {
      var init := lines[..|lines| - 1];
      SaleMovementsPost(key, init, saleId, now);
      var ms := SaleMovements(lines, saleId, now);
      assert ms[..|ms| - 1] == SaleMovements(init, saleId, now);
    }
  }

  /** Recording a purchase raises each key's on-hand by the quantity purchased for it. */
  lemma PurchaseRaisesOnHand(items: seq<Doc<Item>>, key: string, ms: seq<StockMovement>,
                             lines: seq<PurchaseItem>, purchaseId: string, now: Timestamp)
    ensures OnHand(items, key, ms + PurchaseMovements(lines, purchaseId, now))
         == OnHand(items, key, ms) + PurchasedQty(key, lines)
  {
    OnHandAppend(items, key, ms, PurchaseMovements(lines, purchaseId, now));
    PurchaseMovementsPost(key, lines, purchaseId, now);
  }

  /** Recording a sale lowers each key's on-hand by the quantity sold of it, with no floor at zero. */
  lemma SaleLowersOnHand(items: seq<Doc<Item>>, key: string, ms: seq<StockMovement>,
                         lines: seq<SaleItem>, saleId: string, now: Timestamp)
    ensures OnHand(items, key, ms + SaleMovements(lines, saleId, now))
         == OnHand(items, key, ms) - SoldQty(key, lines)
  {
    OnHandAppend(items, key, ms, SaleMovements(lines, saleId, now));
    SaleMovementsPost(key, lines, saleId, now);
  }
}
