/** The records the analyst reads and the repository lookups it calls. Only the fields
    `SalesAnalyst` touches are kept. */
module Records {
  import opened Wrappers
  import opened Seqs

  /** `Invoice#status`: the symbol of the status column (lib/invoice.rb:15-17). */
  datatype Status = Pending | Shipped | Returned

  /** The `result` of a transaction; only `:success` counts as a payment. */
  datatype TransactionResult = Success | Failed

  /** A `created_at` time: its instant, `wday` (0 is Sunday), `year`, and the month name
      `strftime('%B')` prints, kept as an opaque key. */
  datatype Time = Time(instant: int, weekday: int, year: int, monthName: string)

  datatype Merchant = Merchant(id: int, createdAt: Time)

  /** An item; `unitPrice` is in cents. */
  datatype Item = Item(id: int, unitPrice: int, merchantId: int)

  datatype Invoice = Invoice(id: int, customerId: int, merchantId: int, status: Status, createdAt: Time)

  /** A line of an invoice: `quantity` units of `itemId` at `unitPrice` cents. */
  datatype InvoiceItem = InvoiceItem(id: int, itemId: int, invoiceId: int, quantity: int, unitPrice: int)

  datatype Transaction = Transaction(id: int, invoiceId: int, result: TransactionResult)

  datatype Customer = Customer(id: int)

  /** The sales engine: one repository per entity, each in load order. */
  datatype Engine = Engine(
    merchants: seq<Merchant>,
    items: seq<Item>,
    invoices: seq<Invoice>,
    invoiceItems: seq<InvoiceItem>,
    transactions: seq<Transaction>,
    customers: seq<Customer>)

  function MerchantId(m: Merchant): int { m.id }
  function ItemId(i: Item): int { i.id }
  function ItemMerchantId(i: Item): int { i.merchantId }
  function UnitPrice(i: Item): int { i.unitPrice }
  function InvoiceMerchantId(inv: Invoice): int { inv.merchantId }
  function InvoiceCustomerId(inv: Invoice): int { inv.customerId }
  function InvoiceStatusOf(inv: Invoice): Status { inv.status }
  function InvoiceWeekday(inv: Invoice): int { inv.createdAt.weekday }
  function LineInvoiceId(line: InvoiceItem): int { line.invoiceId }
  function TransactionInvoiceId(t: Transaction): int { t.invoiceId }

  /** A repository's `find_by_id`: the first record with that id, `None` when there is none. */
  function FindById<T>(s: seq<T>, id: T -> int, k: int): (r: Option<T>)
    ensures r.None? <==> forall j :: 0 <= j < |s| ==> id(s[j]) != k
    ensures r.Some? ==> r.value in s && id(r.value) == k
  {
    match FirstIndexWhere(s, HasKey(id, k))
    case None => None
    case Some(i) => Some(s[i])
  }

  function FindItem(e: Engine, id: int): Option<Item>
  {
    FindById(e.items, ItemId, id)
  }

  function FindMerchant(e: Engine, id: int): Option<Merchant>
  {
    FindById(e.merchants, MerchantId, id)
  }

  /** `items.find_all_by_merchant_id`. */
  function ItemsOfMerchant(e: Engine, merchantId: int): seq<Item>
  {
    FindAllBy(e.items, ItemMerchantId, merchantId)
  }

  /** `invoices.find_all_by_merchant_id`. */
  function InvoicesOfMerchant(e: Engine, merchantId: int): seq<Invoice>
  {
    FindAllBy(e.invoices, InvoiceMerchantId, merchantId)
  }

  /** `invoices.find_all_by_customer_id`. */
  function InvoicesOfCustomer(e: Engine, customerId: int): seq<Invoice>
  {
    FindAllBy(e.invoices, InvoiceCustomerId, customerId)
  }

  /** `invoice_items.find_all_by_invoice_id`. */
  function LinesOfInvoice(e: Engine, invoiceId: int): seq<InvoiceItem>
  {
    FindAllBy(e.invoiceItems, LineInvoiceId, invoiceId)
  }

  /** `transactions.find_all_by_invoice_id`. */
  function TransactionsOfInvoice(e: Engine, invoiceId: int): seq<Transaction>
  {
    FindAllBy(e.transactions, TransactionInvoiceId, invoiceId)
  }

  /** Every item points at exactly one merchant: merchant ids are unique and every
      `merchant_id` of an item names one of them. */
  predicate ItemsReferToMerchants(e: Engine)
  {
    NoDuplicates(MapSeq(e.merchants, MerchantId))
    && forall i :: i in e.items ==> i.merchantId in MapSeq(e.merchants, MerchantId)
  }

  /** Every invoice points at exactly one merchant. */
  predicate InvoicesReferToMerchants(e: Engine)
  {
    NoDuplicates(MapSeq(e.merchants, MerchantId))
    && forall inv :: inv in e.invoices ==> inv.merchantId in MapSeq(e.merchants, MerchantId)
  }
}
