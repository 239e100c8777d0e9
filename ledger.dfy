/**
 * Ledger engine: the stock movements a purchase or a sale gives rise to
 * (create_purchase and create_sale in main.py). Each line of the transaction
 * yields one movement, in line order, that copies the line's item and
 * quantity and points back at the transaction's document id.
 */
module Ledger {
  import opened Common
  import opened Schemas

  /** The stock-in entry for one purchase line. */
  function PurchaseMovement(line: PurchaseItem, purchaseId: string, now: Timestamp): StockMovement {
    StockMovement(line.itemId, "in", line.qty, "purchase", Some("purchase"), Some(purchaseId), Some(now))
  }

  /** The stock-out entry for one sale line. */
  function SaleMovement(line: SaleItem, saleId: string, now: Timestamp): StockMovement {
    StockMovement(line.itemId, "out", line.qty, "sale", Some("sale"), Some(saleId), Some(now))
  }

  /** The movements recorded for a purchase's lines, one per line, in line order. */
  function PurchaseMovements(lines: seq<PurchaseItem>, purchaseId: string, now: Timestamp): seq<StockMovement>
  {
    if lines == [] then []
    else PurchaseMovements(lines[..|lines| - 1], purchaseId, now) + [PurchaseMovement(lines[|lines| - 1], purchaseId, now)]
  }

  /** The movements recorded for a sale's lines, one per line, in line order. */
  function SaleMovements(lines: seq<SaleItem>, saleId: string, now: Timestamp): seq<StockMovement>
  {
    if lines == [] then []
    else SaleMovements(lines[..|lines| - 1], saleId, now) + [SaleMovement(lines[|lines| - 1], saleId, now)]
  }

  /**
   * A purchase with N lines yields exactly N movements; the k-th is a
   * stock-in of the k-th line's quantity of the k-th line's item, tagged
   * as coming from this purchase.
   */
  lemma {:induction false} PurchaseMovementsPerLine(lines: seq<PurchaseItem>, purchaseId: string, now: Timestamp)
    ensures var ms := PurchaseMovements(lines, purchaseId, now);
      && |ms| == |lines|
      && forall k :: 0 <= k < |lines| ==>
        && ms[k].itemId == lines[k].itemId
        && ms[k].qty == lines[k].qty
        && ms[k].kind == "in"
        && ms[k].reason == "purchase"
        && ms[k].refType == Some("purchase")
        && ms[k].refId == Some(purchaseId)
        && ms[k].date == Some(now)
  {
    if lines != [] {
      PurchaseMovementsPerLine(lines[..|lines| - 1], purchaseId, now);
    }
  }

  /** The mirror of PurchaseMovementsPerLine for sales: stock-out entries tagged with the sale. */
  lemma {:induction false} SaleMovementsPerLine(lines: seq<SaleItem>, saleId: string, now: Timestamp)
    ensures var ms := SaleMovements(lines, saleId, now);
      && |ms| == |lines|
      && forall k :: 0 <= k < |lines| ==>
        && ms[k].itemId == lines[k].itemId
        && ms[k].qty == lines[k].qty
        && ms[k].kind == "out"
        && ms[k].reason == "sale"
        && ms[k].refType == Some("sale")
        && ms[k].refId == Some(saleId)
        && ms[k].date == Some(now)
  {
    if lines != [] {
      SaleMovementsPerLine(lines[..|lines| - 1], saleId, now);
    }
  }

  /** Valid purchase lines give valid movements whose kind and reason are among the documented values. */
  lemma {:induction false} PurchaseMovementsValid(lines: seq<PurchaseItem>, purchaseId: string, now: Timestamp)
    requires forall k :: 0 <= k < |lines| ==> ValidPurchaseItem(lines[k])
    ensures forall m :: m in PurchaseMovements(lines, purchaseId, now) ==>
      ValidStockMovement(m) && DocumentedKind(m.kind) && DocumentedReason(m.reason)
  {
    PurchaseMovementsPerLine(lines, purchaseId, now);
  }

  /** Valid sale lines give valid movements whose kind and reason are among the documented values. */
  lemma {:induction false} SaleMovementsValid(lines: seq<SaleItem>, saleId: string, now: Timestamp)
    requires forall k :: 0 <= k < |lines| ==> ValidSaleItem(lines[k])
    ensures forall m :: m in SaleMovements(lines, saleId, now) ==>
      ValidStockMovement(m) && DocumentedKind(m.kind) && DocumentedReason(m.reason)
  {
    SaleMovementsPerLine(lines, saleId, now);
  }
}
