# Hardware shop inventory ledger, in Dafny

This project models the inventory ledger of a small hardware-shop ERP back end. The back end keeps items, vendors, customers, purchases, sales and payments in a document store. Only two parts of it follow real rules:

- **Ledger engine.** Creating a purchase or a sale first stores the transaction document. It then appends one stock movement per line, in line order. Each movement copies the line's item id and quantity. It is tagged `in`/`purchase` or `out`/`sale` and points back at the new document's id.
- **Stock reconciler.** The stock report seeds every item's opening stock into a per-id quantity map. It folds every movement into that map: `in` adds, `out` subtracts, any other kind is ignored, and an empty item id is skipped. It then reports one line per item, in item order. The intended result is on-hand = opening + ins − outs.

A third rule sits beside them: creating an item whose SKU is already stored is refused.

Modules, one per component:

- `Common` (`common.dfy`): `Option` and `Result`.
- `Schemas` (`schemas.dfy`): one datatype per record of `schemas.py`. Each record has a validity predicate that carries its field constraints, and a builder that fills in the declared defaults.
- `Documents` (`documents.dfy`): a stored document is its record plus a store-generated id. Ids come from a counter rendered in decimal. Parsing an id back recovers the counter value, so a new id cannot collide with an issued one.
- `Ledger` (`ledger.dfy`): the movements a purchase or a sale gives rise to, as functions of its lines, with their per-line properties.
- `Stock` (`stock.dfy`): the reconciler's specification. `OnHand(items, key, log)` is `Opening + Ins − Outs`. It comes with additivity, the ignored cases, and how a purchase or a sale changes on-hand.
- `Shop` (`shop.dfy`): the request handlers of `main.py` as the class `ShopDb`. It holds one sequence per collection and the id counter. Its methods append in place and are proved against the functions above. `StockReport` is the three-loop fold over a `map<string, real>`.
- `Scenarios` (`scenarios.dfy`): worked cases: restock then sell, oversell, a zero-line purchase.

Decisions:

- Quantities, prices and rates are `real`.
- The `type` field of a movement is called `kind`, because `type` is a Dafny keyword. A payment's `method` field is called `payMethod` for the same reason.
- Every handler takes a payload that already satisfies its schema (`requires ValidItem(payload)` and so on). The web framework validates the request body against the schema before the handler runs, and the handler's parameter has the schema's type.
- The store's object invariant `ShopDb.Valid()` has three parts. Every collection holds counter-drawn ids in issue order. Every stored record satisfies its schema. No two items share an SKU.
- `schemas.py:99` and `schemas.py:101` describe a movement's `type` as "in or out" and its `reason` as "purchase, sale, opening, adjust, return", but the schema validates only `qty > 0` (`schemas.py:100`). So `ValidStockMovement` constrains only the quantity. `DocumentedKind` and `DocumentedReason` are proved for the movements the ledger generates.

## Model

| member | source | states |
|---|---|---|
| `Schemas.NewItem` | schemas.py:18-29 | An item built from name and SKU alone is valid, with unit "pcs", active, zero tax rate, cost price, sale price, opening stock and reorder level, no category and no barcode |
| `Schemas.NewVendor` | schemas.py:32-39 | A vendor built from its name alone is active and has every optional contact field empty |
| `Schemas.NewCustomer` | schemas.py:42-49 | A customer built from its name alone is active and has every optional contact field empty |
| `Schemas.NewPurchaseItem` | schemas.py:52-57 | A purchase line with default tax rate and discount (both 0) is valid exactly when qty > 0 and cost ≥ 0 |
| `Schemas.NewPurchase` | schemas.py:60-67 | A purchase defaults to payment status "unpaid" and no other charges, and is valid exactly when all of its lines are |
| `Schemas.NewSaleItem` | schemas.py:70-75 | A sale line with default discount and tax rate (both 0) is valid exactly when qty > 0 and price ≥ 0 |
| `Schemas.NewSale` | schemas.py:78-85 | A sale defaults to no customer and payment status "unpaid", and is valid exactly when all of its lines are |
| `Schemas.NewPayment` | schemas.py:88-94 | A payment defaults to method "cash" and no date, and is valid exactly when amount > 0 |
| `Documents.FreshId` | main.py:61 | The id the store generates next is held by no document already in the collection |
| `Ledger.PurchaseMovementsPerLine` | main.py:99-109 | A purchase with N lines yields exactly N movements. The k-th has the k-th line's item id and qty, type "in", reason and ref_type "purchase", ref_id the purchase id, and the recording time. Zero lines yield none |
| `Ledger.SaleMovementsPerLine` | main.py:122-132 | A sale with N lines yields exactly N movements. The k-th has the k-th line's item id and qty, type "out", reason and ref_type "sale", ref_id the sale id, and the recording time |
| `Ledger.PurchaseMovementsValid` | main.py:100-108 | Movements generated from valid purchase lines satisfy the movement schema (qty > 0) and carry a documented type and reason |
| `Ledger.SaleMovementsValid` | main.py:123-131 | Movements generated from valid sale lines satisfy the movement schema (qty > 0) and carry a documented type and reason |
| `Stock.OnHandStep` | main.py:163-171 | Folding one more movement changes a key's quantity by +qty for "in", −qty for "out", and 0 for another type, an empty item id or another key |
| `Stock.OpeningOfStoredItem` | main.py:159-161 | When item ids are distinct, the quantity seeded for each item's id is that item's opening stock |
| `Stock.StockConservation` | main.py:153-180 | When item ids are distinct, each item's on-hand is its own opening stock plus every "in" minus every "out" quantity posted to its id, and exactly its opening stock when there are no movements. Item ids in a valid store are distinct (`Documents.WellNumberedDistinct`) |
| `Stock.OpeningOfUnknownKey` | main.py:167 | An id that no item is stored under is seeded at 0 |
| `Stock.InsOutsAppend` | main.py:163-171 | Total ins and total outs for a key are additive over a split of the movement log |
| `Stock.OnHandAppend` | main.py:153 | Appending movements changes on-hand by exactly their ins minus their outs for that key |
| `Stock.OnHandOrderIndependent` | main.py:163-171 | On-hand does not depend on the order in which two batches of movements were recorded |
| `Stock.IgnoredMovement` | main.py:165-171 | A movement whose type is neither "in" nor "out", or whose item id is empty, changes no key's on-hand |
| `Stock.UnknownItemMovement` | main.py:167-174 | A movement for an id no item is stored under changes the on-hand of no stored item |
| `Stock.PurchaseMovementsPost` | main.py:99-109 | A purchase's movements post, for each key, the total quantity of its lines for that key as ins and nothing as outs |
| `Stock.SaleMovementsPost` | main.py:122-132 | A sale's movements post, for each key, the total quantity of its lines for that key as outs and nothing as ins |
| `Stock.PurchaseRaisesOnHand` | main.py:96-109 | Recording a purchase raises each key's on-hand by the quantity purchased for it |
| `Stock.SaleLowersOnHand` | main.py:121-132 | Recording a sale lowers each key's on-hand by the quantity sold of it, with no floor at zero |
| `Scenarios.RestockAndSellOnHand` | main.py:153-183 | An item opened at 10 shows 15 after a purchase of 5 and 12 after a further sale of 3 |
| `Scenarios.OversellOnHand` | main.py:119-133 | An item with no opening stock that sells 100 units and is never bought shows −100 |
| `Scenarios.ZeroLinePurchase` | main.py:96-99 | A purchase without lines records no movement and leaves every on-hand unchanged |
| `Shop.ShopDb.FindItemBySku` | main.py:58 | Finds an item with the given SKU exactly when the item collection holds one, and returns the first stored item with that SKU |
| `Shop.ShopDb.CreateItem` | main.py:56-62 | A duplicate SKU gives DuplicateSku and changes nothing. Otherwise exactly one item is appended under a fresh id, which is returned, and no other collection changes. SKUs stay unique |
| `Shop.ShopDb.CreateVendor` | main.py:70-73 | Appends the vendor under a fresh id and returns that id; no other collection changes |
| `Shop.ShopDb.CreateCustomer` | main.py:81-84 | Appends the customer under a fresh id and returns that id; no other collection changes |
| `Shop.ShopDb.CreatePayment` | main.py:142-145 | Appends the payment under a fresh id and returns that id. No purchase or sale changes; payment status is never reconciled |
| `Shop.ShopDb.InsertMovement` | main.py:109 | Appends one valid movement under the next id and touches no other collection |
| `Shop.ShopDb.CreatePurchase` | main.py:93-110 | Appends the purchase under a fresh id, which is returned. Then appends exactly one movement per line, in line order, equal to `PurchaseMovements(lines, id, now)`. Earlier movements and the other collections are unchanged |
| `Shop.ShopDb.CreateSale` | main.py:119-133 | Appends the sale under a fresh id, which is returned. Then appends exactly one movement per line, in line order, equal to `SaleMovements(lines, id, now)`. Earlier movements and the other collections are unchanged |
| `Shop.ShopDb.StockReport` | main.py:154-183 | One record per item, in item order, with the item's id, name, SKU and unit. Its on-hand is the item's seeded opening stock plus all "in" minus all "out" quantities posted to its id, and may be negative. Movements for unknown ids add no record |

## Left out

- HTTP routing, CORS and server start-up (`main.py:13-21`, `main.py:202-205`) are not modelled. The endpoints `/`, `/schema` and `/test` are left out too: they return a fixed message, a constant list of collection names and a database health status. The list endpoints are left out because each passes a collection through unchanged.
- `to_oid` and the `ObjectId` coercion of a movement's item id are not modelled. Item ids are plain strings, and every movement this code creates carries a string id.
- The document store (`database.db`, `create_document`, `get_documents`, `find_one`) is not part of this model; it is external to `main.py`. It is abstracted as in-memory append-only sequences with counter-generated decimal ids. Real object ids are 24-digit hexadecimal and not sequential.
- `Shop.ShopDb.StockReport`: does not round on-hand to 2 decimal places. The `float(...)` conversions and IEEE arithmetic are not modelled either. Quantities are exact reals.
- `Shop.ShopDb.CreatePurchase`: takes one clock reading for the whole call. The source reads the clock once per line. The date is an opaque instant here.
- `Shop.ShopDb.CreateSale`: takes one clock reading for the whole call. The source reads the clock once per line.
- Request validation errors are not modelled as a result. Handlers require a schema-valid payload because the framework rejects an invalid one before the handler runs.
- Fallbacks for missing fields in stored documents are not modelled. This covers `.get("opening_stock", 0)`, `.get("unit", "pcs")` and `.get("qty", 0)`. Every stored document is written through its schema, which supplies these defaults, so a stored document always carries the field.
- Partial failure between storing a transaction and storing its movements is not modelled: each handler runs to completion. Concurrent requests, including two concurrent creates of the same SKU, are not modelled either.
- Stock movements with reasons `opening`, `adjust` or `return` are documented, but no code here creates them. They can still appear in the movement log, and the reconciler treats them like any other movement.
