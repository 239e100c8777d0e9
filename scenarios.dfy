/**
 * Worked cases of the reconciler over the movements the ledger records:
 * what on-hand a single stored item shows after a short history.
 */
module Scenarios {
  import opened Schemas
  import opened Documents
  import opened Ledger
  import opened Stock

  /** An item opened with 10 units shows 15 after a purchase of 5, and 12 after a further sale of 3. */
  lemma RestockAndSellOnHand(item: Doc<Item>, buy: PurchaseItem, purchaseId: string,
                             sell: SaleItem, saleId: string, now: Timestamp)
    requires item.id != "" && item.body.openingStock == 10.0
    requires buy.itemId == item.id && buy.qty == 5.0
    requires sell.itemId == item.id && sell.qty == 3.0
    ensures OnHand([item], item.id, PurchaseMovements([buy], purchaseId, now)) == 15.0
    ensures OnHand([item], item.id, PurchaseMovements([buy], purchaseId, now) + SaleMovements([sell], saleId, now)) == 12.0
  {
    assert [buy][..0] == [] && [sell][..0] == [];
    var bought := PurchaseMovements([buy], purchaseId, now);
    PurchaseRaisesOnHand([item], item.id, [], [buy], purchaseId, now);
    assert [] + bought == bought;
    SaleLowersOnHand([item], item.id, bought, [sell], saleId, now);
  }

  /** An item with no opening stock that is sold 100 units and never bought shows -100: nothing refuses the sale. */
  lemma OversellOnHand(item: Doc<Item>, sell: SaleItem, saleId: string, now: Timestamp)
    requires item.id != "" && item.body.openingStock == 0.0
    requires sell.itemId == item.id && sell.qty == 100.0
    ensures OnHand([item], item.id, SaleMovements([sell], saleId, now)) == -100.0
  {
    assert [sell][..0] == [];
    SaleLowersOnHand([item], item.id, [], [sell], saleId, now);
    assert [] + SaleMovements([sell], saleId, now) == SaleMovements([sell], saleId, now);
  }

  /** A purchase with no lines records no movement and so leaves every on-hand as it was. */
  lemma ZeroLinePurchase(items: seq<Doc<Item>>, key: string, ms: seq<StockMovement>, purchaseId: string, now: Timestamp)
    ensures PurchaseMovements([], purchaseId, now) == []
    ensures OnHand(items, key, ms + PurchaseMovements([], purchaseId, now)) == OnHand(items, key, ms)
  {
    assert ms + [] == ms;
  }
}
