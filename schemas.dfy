/**
 * The record shapes of the hardware shop back end (schemas.py): one datatype
 * per collection, a validity predicate per record that carries the field
 * constraints the request validator enforces, and a builder per record that
 * fills in the declared defaults from the required fields only.
 *
 * Decimal quantities and prices are `real`; timestamps are opaque instants.
 */
module Schemas {
  import opened Common

  /** A wall-clock instant; the model never looks inside one. */
  type Timestamp = int

  /** A percentage in the closed range [0, 100]. */
  predicate IsPercent(x: real) {
    0.0 <= x <= 100.0
  }

  datatype Item = Item(
    name: string,
    sku: string,
    category: Option<string>,
    unit: string,
    taxRate: real,
    costPrice: real,
    salePrice: real,
    reorderLevel: int,
    openingStock: real,
    barcode: Option<string>,
    isActive: bool)

  predicate ValidItem(it: Item) {
    && IsPercent(it.taxRate)
    && it.costPrice >= 0.0
    && it.salePrice >= 0.0
    && it.reorderLevel >= 0
    && it.openingStock >= 0.0
  }

  /** An item given only its required fields: every other field takes its default. */
  function NewItem(name: string, sku: string): (it: Item)
    ensures ValidItem(it)
    ensures it.name == name && it.sku == sku
    ensures it.unit == "pcs" && it.isActive
    ensures it.openingStock == 0.0 && it.reorderLevel == 0
    ensures it.taxRate == 0.0 && it.costPrice == 0.0 && it.salePrice == 0.0
    ensures it.category.None? && it.barcode.None?
  {
    Item(name, sku, None, "pcs", 0.0, 0.0, 0.0, 0, 0.0, None, true)
  }

  datatype Vendor = Vendor(
    name: string,
    phone: Option<string>,
    email: Option<string>,
    address: Option<string>,
    gstNumber: Option<string>,
    notes: Option<string>,
    isActive: bool)

  function NewVendor(name: string): (v: Vendor)
    ensures v.name == name && v.isActive
    ensures v.phone.None? && v.email.None? && v.address.None? && v.gstNumber.None? && v.notes.None?
  {
    Vendor(name, None, None, None, None, None, true)
  }

  datatype Customer = Customer(
    name: string,
    phone: Option<string>,
    email: Option<string>,
    address: Option<string>,
    gstNumber: Option<string>,
    notes: Option<string>,
    isActive: bool)

  function NewCustomer(name: string): (c: Customer)
    ensures c.name == name && c.isActive
    ensures c.phone.None? && c.email.None? && c.address.None? && c.gstNumber.None? && c.notes.None?
  {
    Customer(name, None, None, None, None, None, true)
  }

  /** One line of a purchase bill; `itemId` is the item's document id. */
  datatype PurchaseItem = PurchaseItem(
    itemId: string,
    qty: real,
    cost: real,
    taxRate: real,
    discount: real)

  predicate ValidPurchaseItem(line: PurchaseItem) {
    && line.qty > 0.0
    && line.cost >= 0.0
    && IsPercent(line.taxRate)
    && line.discount >= 0.0
  }

  /** A purchase line with no tax and no discount is valid exactly when its quantity is positive and its cost non-negative. */
  function NewPurchaseItem(itemId: string, qty: real, cost: real): (line: PurchaseItem)
    ensures line.itemId == itemId && line.qty == qty && line.cost == cost
    ensures line.taxRate == 0.0 && line.discount == 0.0
    ensures ValidPurchaseItem(line) <==> qty > 0.0 && cost >= 0.0
  {
    PurchaseItem(itemId, qty, cost, 0.0, 0.0)
  }

  datatype Purchase = Purchase(
    vendorId: string,
    billNumber: Option<string>,
    billDate: Option<Timestamp>,
    items: seq<PurchaseItem>,
    otherCharges: real,
    notes: Option<string>,
    paymentStatus: string)

  /** A purchase is valid when every one of its lines is; its header fields carry no constraint. */
  predicate ValidPurchase(p: Purchase) {
    forall i :: 0 <= i < |p.items| ==> ValidPurchaseItem(p.items[i])
  }

  function NewPurchase(vendorId: string, lines: seq<PurchaseItem>): (p: Purchase)
    ensures p.vendorId == vendorId && p.items == lines
    ensures p.paymentStatus == "unpaid" && p.otherCharges == 0.0
    ensures p.billNumber.None? && p.billDate.None? && p.notes.None?
    ensures ValidPurchase(p) <==> forall i :: 0 <= i < |lines| ==> ValidPurchaseItem(lines[i])
  {
    Purchase(vendorId, None, None, lines, 0.0, None, "unpaid")
  }

  /** One line of a sales invoice. */
  datatype SaleItem = SaleItem(
    itemId: string,
    qty: real,
    price: real,
    discount: real,
    taxRate: real)

  predicate ValidSaleItem(line: SaleItem) {
    && line.qty > 0.0
    && line.price >= 0.0
    && line.discount >= 0.0
    && IsPercent(line.taxRate)
  }

  function NewSaleItem(itemId: string, qty: real, price: real): (line: SaleItem)
    ensures line.itemId == itemId && line.qty == qty && line.price == price
    ensures line.discount == 0.0 && line.taxRate == 0.0
    ensures ValidSaleItem(line) <==> qty > 0.0 && price >= 0.0
  {
    SaleItem(itemId, qty, price, 0.0, 0.0)
  }

  datatype Sale = Sale(
    customerId: Option<string>,
    invoiceNumber: Option<string>,
    invoiceDate: Option<Timestamp>,
    items: seq<SaleItem>,
    otherCharges: real,
    notes: Option<string>,
    paymentStatus: string)

  predicate ValidSale(s: Sale) {
    forall i :: 0 <= i < |s.items| ==> ValidSaleItem(s.items[i])
  }

  /** A walk-in sale: no customer reference, unpaid. */
  function NewSale(lines: seq<SaleItem>): (s: Sale)
    ensures s.items == lines && s.customerId.None?
    ensures s.paymentStatus == "unpaid" && s.otherCharges == 0.0
    ensures s.invoiceNumber.None? && s.invoiceDate.None? && s.notes.None?
    ensures ValidSale(s) <==> forall i :: 0 <= i < |lines| ==> ValidSaleItem(lines[i])
  {
    Sale(None, None, None, lines, 0.0, None, "unpaid")
  }

  /** A payment against a purchase or a sale; `refType` names which, but is not checked. `payMethod` is the `method` field of `Payment` (cash, card, ...). */
  datatype Payment = Payment(
    refType: string,
    refId: string,
    amount: real,
    payMethod: string,
    date: Option<Timestamp>,
    notes: Option<string>)

  predicate ValidPayment(p: Payment) {
    p.amount > 0.0
  }

  function NewPayment(refType: string, refId: string, amount: real): (p: Payment)
    ensures p.refType == refType && p.refId == refId && p.amount == amount
    ensures p.payMethod == "cash" && p.date.None? && p.notes.None?
    ensures ValidPayment(p) <==> amount > 0.0
  {
    Payment(refType, refId, amount, "cash", None, None)
  }

  /** One ledger entry. `kind` is the `type` field of `StockMovement` ("in" or "out"). */
  datatype StockMovement = StockMovement(
    itemId: string,
    kind: string,
    qty: real,
    reason: string,
    refType: Option<string>,
    refId: Option<string>,
    date: Option<Timestamp>)

  /** Only the quantity is constrained; kind and reason are documented, not checked. */
  predicate ValidStockMovement(m: StockMovement) {
    m.qty > 0.0
  }

  /** The values the documentation gives for a movement's kind and reason. */
  predicate DocumentedKind(kind: string) {
    kind == "in" || kind == "out"
  }

  predicate DocumentedReason(reason: string) {
    reason == "purchase" || reason == "sale" || reason == "opening" || reason == "adjust" || reason == "return"
  }
}
