/**
 * The request handlers of the shop back end (main.py) over an in-memory
 * document store: one sequence of stored documents per collection and one
 * counter from which every new document id is drawn.
 *
 * create_item refuses a second item with an SKU already in store; the other
 * creates append unconditionally; create_purchase and create_sale append one
 * stock movement per line after storing the transaction; stock_report folds
 * the movement log into a quantity per key and reports one line per item.
 */
module Shop {
  import opened Common
  import opened Schemas
  import opened Documents
  import opened Ledger
  import opened Stock

  /** The client error create_item raises ("SKU already exists"). */
  datatype ApiError = DuplicateSku

  predicate HasSku(items: seq<Doc<Item>>, sku: string) {
    exists a :: 0 <= a < |items| && items[a].body.sku == sku
  }

  predicate SkusUnique(items: seq<Doc<Item>>) {
    forall a, b :: 0 <= a < b < |items| ==> items[a].body.sku != items[b].body.sku
  }

  class ShopDb {
    var items: seq<Doc<Item>>
    var vendors: seq<Doc<Vendor>>
    var customers: seq<Doc<Customer>>
    var purchases: seq<Doc<Purchase>>
    var sales: seq<Doc<Sale>>
    var payments: seq<Doc<Payment>>
    var movements: seq<Doc<StockMovement>>
    var nextId: nat

    /**
     * Every collection holds ids drawn from the counter, in issue order;
     * every stored record satisfies its schema; no two items share an SKU.
     */
    ghost predicate Valid()
      reads this
    {
      && WellNumbered(items, nextId)
      && WellNumbered(vendors, nextId)
      && WellNumbered(customers, nextId)
      && WellNumbered(purchases, nextId)
      && WellNumbered(sales, nextId)
      && WellNumbered(payments, nextId)
      && WellNumbered(movements, nextId)
      && (forall a :: 0 <= a < |items| ==> ValidItem(items[a].body))
      && (forall a :: 0 <= a < |purchases| ==> ValidPurchase(purchases[a].body))
      && (forall a :: 0 <= a < |sales| ==> ValidSale(sales[a].body))
      && (forall a :: 0 <= a < |payments| ==> ValidPayment(payments[a].body))
      && (forall a :: 0 <= a < |movements| ==> ValidStockMovement(movements[a].body))
      && SkusUnique(items)
    }

    constructor ()
      ensures Valid()
      ensures items == [] && vendors == [] && customers == []
      ensures purchases == [] && sales == [] && payments == [] && movements == []
    {
      items, vendors, customers := [], [], [];
      purchases, sales, payments, movements := [], [], [], [];
      nextId := 0;
    }

    /** The store's find_one on the item collection by SKU: the first item with that SKU, if any. */
    method FindItemBySku(sku: string) returns (found: Option<Doc<Item>>)
      ensures found.None? <==> !HasSku(items, sku)
      ensures found.Some? ==> found.value in items && found.value.body.sku == sku
      ensures found.Some? ==>
        exists a :: 0 <= a < |items| && items[a] == found.value &&
          (forall b :: 0 <= b < a ==> items[b].body.sku != sku)
    {
      var i := 0;
      while i < |items|
        invariant 0 <= i <= |items|
        invariant forall a :: 0 <= a < i ==> items[a].body.sku != sku
      {
        if items[i].body.sku == sku {
          return Some(items[i]);
        }
        i := i + 1;
      }
      return None;
    }

    /** create_item: refuse a duplicate SKU, otherwise store the item under a fresh id. */
    method CreateItem(payload: Item) returns (r: Result<string, ApiError>)
      requires Valid() && ValidItem(payload)
      modifies this
      ensures Valid()
      ensures HasSku(old(items), payload.sku) ==> r == Err(DuplicateSku) && unchanged(this)
      ensures !HasSku(old(items), payload.sku) ==>
        && r == Ok(IdOf(old(nextId)))
        && items == old(items) + [Doc(r.value, payload)]
        && nextId == old(nextId) + 1
        && vendors == old(vendors) && customers == old(customers)
        && purchases == old(purchases) && sales == old(sales)
        && payments == old(payments) && movements == old(movements)
      ensures r.Ok? ==> forall a :: 0 <= a < |old(items)| ==> old(items)[a].id != r.value
    {
      var existing := FindItemBySku(payload.sku);
      if existing.Some? {
        return Err(DuplicateSku);
      }
      var id := IdOf(nextId);
      FreshId(items, nextId);
      WellNumberedAppend(items, nextId, payload);
      items := items + [Doc(id, payload)];
      nextId := nextId + 1;
      r := Ok(id);
    }

    /** create_vendor: store the vendor unconditionally. */
    method CreateVendor(payload: Vendor) returns (id: string)
      requires Valid()
      modifies this
      ensures Valid()
      ensures id == IdOf(old(nextId)) && nextId == old(nextId) + 1
      ensures vendors == old(vendors) + [Doc(id, payload)]
      ensures forall a :: 0 <= a < |old(vendors)| ==> old(vendors)[a].id != id
      ensures items == old(items) && customers == old(customers)
      ensures purchases == old(purchases) && sales == old(sales)
      ensures payments == old(payments) && movements == old(movements)
    {
      id := IdOf(nextId);
      FreshId(vendors, nextId);
      WellNumberedAppend(vendors, nextId, payload);
      vendors := vendors + [Doc(id, payload)];
      nextId := nextId + 1;
    }

    /** create_customer: store the customer unconditionally. */
    method CreateCustomer(payload: Customer) returns (id: string)
      requires Valid()
      modifies this
      ensures Valid()
      ensures id == IdOf(old(nextId)) && nextId == old(nextId) + 1
      ensures customers == old(customers) + [Doc(id, payload)]
      ensures forall a :: 0 <= a < |old(customers)| ==> old(customers)[a].id != id
      ensures items == old(items) && vendors == old(vendors)
      ensures purchases == old(purchases) && sales == old(sales)
      ensures payments == old(payments) && movements == old(movements)
    {
      id := IdOf(nextId);
      FreshId(customers, nextId);
      WellNumberedAppend(customers, nextId, payload);
      customers := customers + [Doc(id, payload)];
      nextId := nextId + 1;
    }

    /** create_payment: store the payment unconditionally; no purchase or sale is touched. */
    method CreatePayment(payload: Payment) returns (id: string)
      requires Valid() && ValidPayment(payload)
      modifies this
      ensures Valid()
      ensures id == IdOf(old(nextId)) && nextId == old(nextId) + 1
      ensures payments == old(payments) + [Doc(id, payload)]
      ensures forall a :: 0 <= a < |old(payments)| ==> old(payments)[a].id != id
      ensures items == old(items) && vendors == old(vendors) && customers == old(customers)
      ensures purchases == old(purchases) && sales == old(sales) && movements == old(movements)
    {
      id := IdOf(nextId);
      FreshId(payments, nextId);
      WellNumberedAppend(payments, nextId, payload);
      payments := payments + [Doc(id, payload)];
      nextId := nextId + 1;
    }

    /** The store's create_document on the movement collection. */
    method InsertMovement(movement: StockMovement)
      requires Valid() && ValidStockMovement(movement)
      modifies this
      ensures Valid()
      ensures movements == old(movements) + [Doc(IdOf(old(nextId)), movement)]
      ensures Bodies(movements) == Bodies(old(movements)) + [movement]
      ensures nextId == old(nextId) + 1
      ensures items == old(items) && vendors == old(vendors) && customers == old(customers)
      ensures purchases == old(purchases) && sales == old(sales) && payments == old(payments)
    {
      WellNumberedAppend(movements, nextId, movement);
      movements := movements + [Doc(IdOf(nextId), movement)];
      nextId := nextId + 1;
    }

    /**
     * create_purchase: store the purchase, then append one stock-in movement
     * per line, in line order, each referring back to the purchase.
     */
    method CreatePurchase(payload: Purchase, now: Timestamp) returns (id: string)
      requires Valid() && ValidPurchase(payload)
      modifies this
      ensures Valid()
      ensures id == IdOf(old(nextId))
      ensures forall a :: 0 <= a < |old(purchases)| ==> old(purchases)[a].id != id
      ensures purchases == old(purchases) + [Doc(id, payload)]
      ensures |movements| == |old(movements)| + |payload.items|
      ensures movements[..|old(movements)|] == old(movements)
      ensures Bodies(movements) == Bodies(old(movements)) + PurchaseMovements(payload.items, id, now)
      ensures nextId == old(nextId) + 1 + |payload.items|
      ensures items == old(items) && vendors == old(vendors) && customers == old(customers)
      ensures sales == old(sales) && payments == old(payments)
    {
      id := IdOf(nextId);
      FreshId(purchases, nextId);
      WellNumberedAppend(purchases, nextId, payload);
      purchases := purchases + [Doc(id, payload)];
      nextId := nextId + 1;

      var lines := payload.items;
      var i := 0;
      while i < |lines|
        invariant 0 <= i <= |lines|
        invariant Valid()
        invariant nextId == old(nextId) + 1 + i
        invariant |movements| == |old(movements)| + i
        invariant movements[..|old(movements)|] == old(movements)
        invariant Bodies(movements) == Bodies(old(movements)) + PurchaseMovements(lines[..i], id, now)
        invariant purchases == old(purchases) + [Doc(id, payload)]
        invariant items == old(items) && vendors == old(vendors) && customers == old(customers)
        invariant sales == old(sales) && payments == old(payments)
      {
        var movement := PurchaseMovement(lines[i], id, now);
        assert lines[..i + 1][..i] == lines[..i];
        assert PurchaseMovements(lines[..i + 1], id, now) == PurchaseMovements(lines[..i], id, now) + [movement];
        InsertMovement(movement);
        i := i + 1;
      }
      assert lines[..i] == payload.items;
    }

    /**
     * create_sale: store the sale, then append one stock-out movement per
     * line, in line order, each referring back to the sale.
     */
    method CreateSale(payload: Sale, now: Timestamp) returns (id: string)
      requires Valid() && ValidSale(payload)
      modifies this
      ensures Valid()
      ensures id == IdOf(old(nextId))
      ensures forall a :: 0 <= a < |old(sales)| ==> old(sales)[a].id != id
      ensures sales == old(sales) + [Doc(id, payload)]
      ensures |movements| == |old(movements)| + |payload.items|
      ensures movements[..|old(movements)|] == old(movements)
      ensures Bodies(movements) == Bodies(old(movements)) + SaleMovements(payload.items, id, now)
      ensures nextId == old(nextId) + 1 + |payload.items|
      ensures items == old(items) && vendors == old(vendors) && customers == old(customers)
      ensures purchases == old(purchases) && payments == old(payments)
    {
      id := IdOf(nextId);
      FreshId(sales, nextId);
      WellNumberedAppend(sales, nextId, payload);
      sales := sales + [Doc(id, payload)];
      nextId := nextId + 1;

      var lines := payload.items;
      var i := 0;
      while i < |lines|
        invariant 0 <= i <= |lines|
        invariant Valid()
        invariant nextId == old(nextId) + 1 + i
        invariant |movements| == |old(movements)| + i
        invariant movements[..|old(movements)|] == old(movements)
        invariant Bodies(movements) == Bodies(old(movements)) + SaleMovements(lines[..i], id, now)
        invariant sales == old(sales) + [Doc(id, payload)]
        invariant items == old(items) && vendors == old(vendors) && customers == old(customers)
        invariant purchases == old(purchases) && payments == old(payments)
      {
        var movement := SaleMovement(lines[i], id, now);
        assert lines[..i + 1][..i] == lines[..i];
        assert SaleMovements(lines[..i + 1], id, now) == SaleMovements(lines[..i], id, now) + [movement];
        InsertMovement(movement);
        i := i + 1;
      }
      assert lines[..i] == payload.items;
    }

    /**
     * stock_report: seed a quantity per item id with its opening stock, fold
     * every movement into it, then report one line per item, in item order.
     */
    method StockReport() returns (report: seq<StockLine>)
      ensures |report| == |items|
      ensures forall j :: 0 <= j < |items| ==>
        && report[j].itemId == items[j].id
        && report[j].name == items[j].body.name
        && report[j].sku == items[j].body.sku
        && report[j].unit == items[j].body.unit
        && report[j].onHand == OnHand(items, items[j].id, Bodies(movements))
    {
      var qtyMap: map<string, real> := map[];
      var i := 0;
      while i < |items|
        invariant 0 <= i <= |items|
        invariant qtyMap.Keys == set a | 0 <= a < i :: items[a].id
        invariant forall k :: Lookup(qtyMap, k) == Opening(items[..i], k)
      {
        assert items[..i + 1][..i] == items[..i];
        qtyMap := qtyMap[items[i].id := items[i].body.openingStock];
        i := i + 1;
      }
      assert items[..i] == items;

      ghost var ms := Bodies(movements);
      i := 0;
      while i < |movements|
        invariant 0 <= i <= |movements|
        invariant forall k :: Lookup(qtyMap, k) == OnHand(items, k, ms[..i])
      {
        var m := movements[i].body;
        ghost var before := qtyMap;
        var key := m.itemId;
        if key != "" {
          qtyMap := qtyMap[key := Lookup(qtyMap, key)];
          if m.kind == "in" {
            qtyMap := qtyMap[key := qtyMap[key] + m.qty];
          } else if m.kind == "out" {
            qtyMap := qtyMap[key := qtyMap[key] - m.qty];
          }
        }
        forall k
          ensures Lookup(qtyMap, k) == OnHand(items, k, ms[..i + 1])
        {
          OnHandStep(items, k, ms, i);
          assert Lookup(qtyMap, k) == Lookup(before, k) + Posting(m, k);
        }
        i := i + 1;
      }
      assert ms[..i] == ms;

      report := [];
      i := 0;
      while i < |items|
        invariant 0 <= i <= |items|
        invariant |report| == i
        invariant forall j :: 0 <= j < i ==>
          && report[j].itemId == items[j].id
          && report[j].name == items[j].body.name
          && report[j].sku == items[j].body.sku
          && report[j].unit == items[j].body.unit
          && report[j].onHand == OnHand(items, items[j].id, ms)
      {
        var it := items[i];
        report := report + [StockLine(it.id, it.body.name, it.body.sku, Lookup(qtyMap, it.id), it.body.unit)];
        i := i + 1;
      }
    }
  }
}
