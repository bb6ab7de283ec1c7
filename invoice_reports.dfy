/** The invoice predicates, totals and revenue rankings of `SalesAnalyst`
    (lib/sales_analyst.rb:161-219, 269-279). */
module InvoiceReports {
  import opened Seqs
  import opened Ranking
  import opened Records

  // ---------------------------------------------------------------- paid and pending

  predicate Succeeded(t: Transaction)
  {
    t.result == Success
  }

  predicate Unsuccessful(t: Transaction)
  {
    t.result != Success
  }

  /** `invoice_paid_in_full?(invoice_id)`: some transaction of the invoice succeeded. */
  predicate InvoicePaidInFull(e: Engine, invoiceId: int)
  {
    Any(TransactionsOfInvoice(e, invoiceId), Succeeded)
  }

  /** `invoice_is_pending?(invoice)`: no transaction of the invoice succeeded. */
  predicate InvoiceIsPending(e: Engine, invoice: Invoice)
  {
    All(TransactionsOfInvoice(e, invoice.id), Unsuccessful)
  }

  /** An invoice is pending exactly when it is not paid in full. */
  lemma PendingIffNotPaid(e: Engine, invoice: Invoice)
    ensures InvoiceIsPending(e, invoice) <==> !InvoicePaidInFull(e, invoice.id)
  {
    AllIsNotAny(TransactionsOfInvoice(e, invoice.id), Succeeded, Unsuccessful);
  }

  /** An invoice is paid in full exactly when the engine holds a successful transaction
      for it. */
  lemma PaidIffSuccessfulTransaction(e: Engine, invoiceId: int)
    ensures InvoicePaidInFull(e, invoiceId) <==>
              exists t :: t in e.transactions && t.invoiceId == invoiceId && t.result == Success
  {
    var ts := TransactionsOfInvoice(e, invoiceId);
    AnyIffExists(ts, Succeeded);
    if exists t :: t in e.transactions && t.invoiceId == invoiceId && t.result == Success {
      var t :| t in e.transactions && t.invoiceId == invoiceId && t.result == Success;
      assert t in ts;
      var i :| 0 <= i < |ts| && ts[i] == t;
      assert Succeeded(ts[i]);
    }
    if Any(ts, Succeeded) {
      var i :| 0 <= i < |ts| && Succeeded(ts[i]);
      assert ts[i] in ts;
    }
  }

  /** An invoice without transactions is pending and not paid. */
  lemma NoTransactionsMeansPending(e: Engine, invoice: Invoice)
    requires forall t :: t in e.transactions ==> t.invoiceId != invoice.id
    ensures InvoiceIsPending(e, invoice) && !InvoicePaidInFull(e, invoice.id)
  {
    NoMemberMeansEmpty(TransactionsOfInvoice(e, invoice.id));
  }

  function PendingTest(e: Engine): Invoice -> bool
  {
    (inv: Invoice) => InvoiceIsPending(e, inv)
  }

  function PaidTest(e: Engine): Invoice -> bool
  {
    (inv: Invoice) => InvoicePaidInFull(e, inv.id)
  }

  /** `merchant_has_pending_invoice?(merchant)`. */
  predicate MerchantHasPendingInvoice(e: Engine, m: Merchant)
  {
    Any(InvoicesOfMerchant(e, m.id), PendingTest(e))
  }

  /** A merchant has a pending invoice exactly when one of its invoices has no successful
      transaction. */
  lemma HasPendingIffUnpaidInvoice(e: Engine, m: Merchant)
    ensures MerchantHasPendingInvoice(e, m) <==>
              exists inv :: inv in e.invoices && inv.merchantId == m.id && !InvoicePaidInFull(e, inv.id)
  {
    var invs := InvoicesOfMerchant(e, m.id);
    AnyIffExists(invs, PendingTest(e));
    forall inv | inv in invs ensures InvoiceIsPending(e, inv) <==> !InvoicePaidInFull(e, inv.id) {
      PendingIffNotPaid(e, inv);
    }
    if exists inv :: inv in e.invoices && inv.merchantId == m.id && !InvoicePaidInFull(e, inv.id) {
      var inv :| inv in e.invoices && inv.merchantId == m.id && !InvoicePaidInFull(e, inv.id);
      assert inv in invs;
      var i :| 0 <= i < |invs| && invs[i] == inv;
      assert PendingTest(e)(invs[i]);
    }
  }

  /** `merchants_with_pending_invoices`: exactly the merchants with a pending invoice, in
      merchant order. */
  function MerchantsWithPendingInvoices(e: Engine): (r: seq<Merchant>)
    ensures forall m {:trigger m in r} :: m in r <==> m in e.merchants && MerchantHasPendingInvoice(e, m)
    ensures IsSubsequence(r, e.merchants)
  {
    var pending := (m: Merchant) => MerchantHasPendingInvoice(e, m);
    FilterIsSubsequence(e.merchants, pending);
    Filter(e.merchants, pending)
  }

  // ---------------------------------------------------------------- totals

  /** `unit_price * quantity` of one line: its share of `invoice_total`, and the key of
      `best_item_for_merchant`. */
  function LineTotal(line: InvoiceItem): int
  {
    line.unitPrice * line.quantity
  }

  /** The block of `invoice_total`'s `reduce`. */
  function AddLineTotal(total: int, line: InvoiceItem): int
  {
    total + line.unitPrice * line.quantity
  }

  /** `invoice_total(invoice_id)`. */
  function InvoiceTotal(e: Engine, invoiceId: int): int
  {
    Reduce(0, LinesOfInvoice(e, invoiceId), AddLineTotal)
  }

  /** `invoice_total` is the sum of the line totals of the invoice's lines. */
  lemma InvoiceTotalIsSumOfLines(e: Engine, invoiceId: int)
    ensures InvoiceTotal(e, invoiceId) == SumOf(LinesOfInvoice(e, invoiceId), LineTotal)
  {
    ReduceIsSum(0, LinesOfInvoice(e, invoiceId), AddLineTotal, LineTotal);
  }

  /** An invoice without lines totals 0. */
  lemma InvoiceWithoutLinesTotalsZero(e: Engine, invoiceId: int)
    requires forall line :: line in e.invoiceItems ==> line.invoiceId != invoiceId
    ensures InvoiceTotal(e, invoiceId) == 0
  {
    NoMemberMeansEmpty(LinesOfInvoice(e, invoiceId));
  }

  /** With non-negative prices and quantities, no invoice totals less than 0. */
  lemma InvoiceTotalNonNegative(e: Engine, invoiceId: int)
    requires forall line :: line in e.invoiceItems ==> line.unitPrice >= 0 && line.quantity >= 0
    ensures InvoiceTotal(e, invoiceId) >= 0
  {
    InvoiceTotalIsSumOfLines(e, invoiceId);
    SumOfNonNegative(LinesOfInvoice(e, invoiceId), LineTotal);
  }

  function InvoiceTotalOf(e: Engine): Invoice -> int
  {
    (inv: Invoice) => InvoiceTotal(e, inv.id)
  }

  /** The block of `total_revenue_by_date`'s `reduce`. */
  function AddInvoiceTotal(e: Engine): (int, Invoice) -> int
  {
    (total: int, inv: Invoice) => total + InvoiceTotal(e, inv.id)
  }

  function CreatedAt(date: Time): Invoice -> bool
  {
    (inv: Invoice) => inv.createdAt == date
  }

  /** `total_revenue_by_date(date)`. */
  function TotalRevenueByDate(e: Engine, date: Time): int
  {
    Reduce(0, Filter(e.invoices, CreatedAt(date)), AddInvoiceTotal(e))
  }

  /** `total_revenue_by_date(date)` is the sum of `invoice_total` over the invoices created
      at that date, paid or not. */
  lemma RevenueByDateIsSumOfTotals(e: Engine, date: Time)
    ensures TotalRevenueByDate(e, date) == SumOf(Filter(e.invoices, CreatedAt(date)), InvoiceTotalOf(e))
  {
    ReduceIsSum(0, Filter(e.invoices, CreatedAt(date)), AddInvoiceTotal(e), InvoiceTotalOf(e));
  }

  // ---------------------------------------------------------------- revenue rankings

  /** `revenue_for_invoice(total, invoice)`: adds the invoice's total only when it is paid. */
  function RevenueForInvoice(e: Engine, total: int, invoice: Invoice): int
  {
    if !InvoicePaidInFull(e, invoice.id) then total else total + InvoiceTotal(e, invoice.id)
  }

  function RevenueStep(e: Engine): (int, Invoice) -> int
  {
    (total: int, inv: Invoice) => RevenueForInvoice(e, total, inv)
  }

  /** `invoices.reduce(0, &method(:revenue_for_invoice))`. */
  function RevenueOf(e: Engine, invoices: seq<Invoice>): int
  {
    Reduce(0, invoices, RevenueStep(e))
  }

  /** The revenue of a list of invoices is the sum of the totals of its paid invoices. */
  lemma RevenueIsSumOfPaidTotals(e: Engine, invoices: seq<Invoice>)
    ensures RevenueOf(e, invoices) == SumOf(Filter(invoices, PaidTest(e)), InvoiceTotalOf(e))
  {
    GuardedReduceIsFilteredSum(0, invoices, RevenueStep(e), PaidTest(e), InvoiceTotalOf(e));
  }

  function MerchantRevenue(e: Engine): Merchant -> int
  {
    (m: Merchant) => RevenueOf(e, InvoicesOfMerchant(e, m.id))
  }

  /** `merchants_ranked_by_revenue`: every merchant once, by non-increasing revenue from
      paid invoices. */
  function MerchantsRankedByRevenue(e: Engine): (r: seq<Merchant>)
    ensures multiset(r) == multiset(e.merchants)
    ensures DescendingBy(r, MerchantRevenue(e))
  {
    RankDescending(e.merchants, MerchantRevenue(e))
  }

  /** The ranking key counts paid invoices only: a merchant's revenue is the sum of the
      totals of its paid invoices. */
  lemma MerchantRevenueCountsPaidInvoices(e: Engine, m: Merchant)
    ensures MerchantRevenue(e)(m) == SumOf(Filter(InvoicesOfMerchant(e, m.id), PaidTest(e)), InvoiceTotalOf(e))
  {
    RevenueIsSumOfPaidTotals(e, InvoicesOfMerchant(e, m.id));
  }

  /** `top_revenue_earners(num)`: `merchants_ranked_by_revenue[0..num - 1]`. */
  function TopRevenueEarners(e: Engine, num: int): seq<Merchant>
  {
    SliceFromZero(MerchantsRankedByRevenue(e), num - 1)
  }

  /** For `num >= 1`, `top_revenue_earners(num)` is the ranking's prefix of length
      `min(num, count)`, and no merchant left out earned more than one kept. */
  lemma TopRevenueEarnersIsPrefix(e: Engine, num: int)
    requires num >= 1
    ensures var r := TopRevenueEarners(e, num);
            |r| == (if num < |e.merchants| then num else |e.merchants|)
            && r == MerchantsRankedByRevenue(e)[..|r|]
    ensures var ranked := MerchantsRankedByRevenue(e);
            var r := TopRevenueEarners(e, num);
            forall i, j :: 0 <= i < |r| <= j < |ranked| ==> MerchantRevenue(e)(ranked[i]) >= MerchantRevenue(e)(ranked[j])
  {
    var ranked := MerchantsRankedByRevenue(e);
    assert |ranked| == |multiset(ranked)| == |e.merchants|;
  }

  /** As written, `top_revenue_earners(0)` slices `[0..-1]` and returns every merchant
      instead of none. */
  lemma TopRevenueEarnersOfZeroIsEveryone(e: Engine)
    ensures TopRevenueEarners(e, 0) == MerchantsRankedByRevenue(e)
    ensures |TopRevenueEarners(e, 0)| == |e.merchants|
  {
    var ranked := MerchantsRankedByRevenue(e);
    assert |ranked| == |multiset(ranked)| == |e.merchants|;
  }

  /** The first `num` entries of a ranking, `num` itself included when it is 0. */
  function FirstN<T>(ranked: seq<T>, num: nat): (r: seq<T>)
    ensures |r| == if num < |ranked| then num else |ranked|
    ensures r == ranked[..|r|]
  {
    if num < |ranked| then ranked[..num] else ranked
  }

  /** `top_revenue_earners` as evidently intended: the `num` best-earning merchants, none for
      `num == 0`. */
  function TopRevenueEarnersCorrected(e: Engine, num: nat): (r: seq<Merchant>)
    ensures |r| == if num < |e.merchants| then num else |e.merchants|
    ensures r == MerchantsRankedByRevenue(e)[..|r|]
    ensures num == 0 ==> r == []
  {
    var ranked := MerchantsRankedByRevenue(e);
    assert |ranked| == |multiset(ranked)| == |e.merchants|;
    FirstN(ranked, num)
  }

  /** The corrected slice agrees with the code for every `num >= 1`. */
  lemma CorrectedAgreesForPositiveNum(e: Engine, num: int)
    requires num >= 1
    ensures TopRevenueEarnersCorrected(e, num) == TopRevenueEarners(e, num)
  {
    TopRevenueEarnersIsPrefix(e, num);
  }

  function CustomerRevenue(e: Engine): Customer -> int
  {
    (c: Customer) => RevenueOf(e, InvoicesOfCustomer(e, c.id))
  }

  /** `customers_ranked_by_revenue`: every customer once, by non-increasing spending on
      paid invoices. */
  function CustomersRankedByRevenue(e: Engine): (r: seq<Customer>)
    ensures multiset(r) == multiset(e.customers)
    ensures DescendingBy(r, CustomerRevenue(e))
  {
    RankDescending(e.customers, CustomerRevenue(e))
  }

  /** A customer's ranking key is the sum of the totals of their paid invoices. */
  lemma CustomerRevenueCountsPaidInvoices(e: Engine, c: Customer)
    ensures CustomerRevenue(e)(c) == SumOf(Filter(InvoicesOfCustomer(e, c.id), PaidTest(e)), InvoiceTotalOf(e))
  {
    RevenueIsSumOfPaidTotals(e, InvoicesOfCustomer(e, c.id));
  }

  /** `top_buyers(num)`: `customers_ranked_by_revenue[0..num - 1]`. */
  function TopBuyers(e: Engine, num: int): seq<Customer>
  {
    SliceFromZero(CustomersRankedByRevenue(e), num - 1)
  }

  /** For `num >= 1`, `top_buyers(num)` is the ranking's prefix of length
      `min(num, count)`; for `num == 0` it is every customer. */
  lemma TopBuyersIsPrefix(e: Engine, num: int)
    requires num >= 0
    ensures var r := TopBuyers(e, num);
            |r| == (if num == 0 || num >= |e.customers| then |e.customers| else num)
            && r == CustomersRankedByRevenue(e)[..|r|]
  {
    var ranked := CustomersRankedByRevenue(e);
    assert |ranked| == |multiset(ranked)| == |e.customers|;
  }

  /** `top_buyers` as evidently intended: the `num` biggest spenders, none for `num == 0`. */
  function TopBuyersCorrected(e: Engine, num: nat): (r: seq<Customer>)
    ensures |r| == if num < |e.customers| then num else |e.customers|
    ensures r == CustomersRankedByRevenue(e)[..|r|]
  {
    var ranked := CustomersRankedByRevenue(e);
    assert |ranked| == |multiset(ranked)| == |e.customers|;
    FirstN(ranked, num)
  }
}
