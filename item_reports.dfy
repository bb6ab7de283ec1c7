/** The "maximum" selections of `SalesAnalyst`: most sold and best items of a merchant,
    highest-volume items and top merchant of a customer, the one-time buyers and their top
    item (lib/sales_analyst.rb:239-267, 281-375). */
module ItemReports {
  import opened Wrappers
  import opened Seqs
  import opened Records
  import opened InvoiceReports

  // ---------------------------------------------------------------- lines of invoices

  function LinesIfKept(e: Engine, keep: Invoice -> bool): Invoice -> seq<InvoiceItem>
  {
    (inv: Invoice) => if keep(inv) then LinesOfInvoice(e, inv.id) else []
  }

  /** `invoices.map { |inv| lines of inv if keep(inv) }.flatten.compact`: the lines of the
      kept invoices, invoice by invoice. */
  function LinesOfInvoices(e: Engine, invoices: seq<Invoice>, keep: Invoice -> bool): seq<InvoiceItem>
  {
    Flatten(MapSeq(invoices, LinesIfKept(e, keep)))
  }

  /** A line is collected exactly when it belongs to one of the kept invoices. */
  lemma LinesOfInvoicesMembership(e: Engine, invoices: seq<Invoice>, keep: Invoice -> bool, line: InvoiceItem)
    ensures line in LinesOfInvoices(e, invoices, keep) <==>
              line in e.invoiceItems && exists inv :: inv in invoices && keep(inv) && inv.id == line.invoiceId
  {
    var ss := MapSeq(invoices, LinesIfKept(e, keep));
    FlattenMembership(ss, line);
    if line in Flatten(ss) {
      var i :| 0 <= i < |ss| && line in ss[i];
      assert invoices[i] in invoices;
    }
    if line in e.invoiceItems && exists inv :: inv in invoices && keep(inv) && inv.id == line.invoiceId {
      var inv :| inv in invoices && keep(inv) && inv.id == line.invoiceId;
      var i :| 0 <= i < |invoices| && invoices[i] == inv;
      assert line in ss[i];
    }
  }

  function NotPending(e: Engine): Invoice -> bool
  {
    (inv: Invoice) => !InvoiceIsPending(e, inv)
  }

  /** `invoice_items_from_merchant(merchant_id)`: the lines of the merchant's invoices that
      are not pending. */
  function InvoiceItemsFromMerchant(e: Engine, merchantId: int): seq<InvoiceItem>
  {
    LinesOfInvoices(e, InvoicesOfMerchant(e, merchantId), NotPending(e))
  }

  /** The lines of a merchant that count are exactly those of its invoices paid in full. */
  lemma InvoiceItemsFromMerchantMembership(e: Engine, merchantId: int, line: InvoiceItem)
    ensures line in InvoiceItemsFromMerchant(e, merchantId) <==>
              line in e.invoiceItems
              && exists inv :: inv in e.invoices && inv.merchantId == merchantId && inv.id == line.invoiceId
                                 && InvoicePaidInFull(e, inv.id)
  {
    LinesOfInvoicesMembership(e, InvoicesOfMerchant(e, merchantId), NotPending(e), line);
    forall inv | inv in e.invoices ensures NotPending(e)(inv) <==> InvoicePaidInFull(e, inv.id) {
      PendingIffNotPaid(e, inv);
    }
  }

  // ---------------------------------------------------------------- most sold and best item

  function Quantity(line: InvoiceItem): int
  {
    line.quantity
  }

  function ItemOfLine(e: Engine): InvoiceItem -> Option<Item>
  {
    (line: InvoiceItem) => FindItem(e, line.itemId)
  }

  /** `find_maximum_value(lines.group_by(&key))`: `find_by_id` of the item of every line of
      the largest key, in line order. `keys.max` of no lines is nil, and `nil.map` raises. */
  function FindMaximumValue(e: Engine, lines: seq<InvoiceItem>, key: InvoiceItem -> int): (r: Result<seq<Option<Item>>>)
    ensures r.Err? <==> lines == []
    ensures r.Ok? ==> r.value != []
    ensures r.Ok? ==> forall o {:trigger o in r.value} :: o in r.value <==>
                        exists line :: line in lines && IsMaximal(lines, key, line) && o == FindItem(e, line.itemId)
    ensures r.Ok? ==> r.value == MapSeq(Filter(lines, MaximalTest(lines, key)), ItemOfLine(e))
  {
    if lines == [] then Err(UndefinedMethodForNil)
    else
      var top := WithMaxKey(lines, key);
      var r := MapSeq(top, ItemOfLine(e));
      forall o ensures o in r <==> exists line :: line in lines && IsMaximal(lines, key, line) && o == FindItem(e, line.itemId) {
        LookupsOfTopLines(e, lines, key, o);
      }
      Ok(r)
  }

  lemma LookupsOfTopLines(e: Engine, lines: seq<InvoiceItem>, key: InvoiceItem -> int, o: Option<Item>)
    requires lines != []
    ensures o in MapSeq(WithMaxKey(lines, key), ItemOfLine(e)) <==>
              exists line :: line in lines && IsMaximal(lines, key, line) && o == FindItem(e, line.itemId)
  {
    var top := WithMaxKey(lines, key);
    MapSeqMembership(top, ItemOfLine(e), o);
    if exists line :: line in lines && IsMaximal(lines, key, line) && o == FindItem(e, line.itemId) {
      var line :| line in lines && IsMaximal(lines, key, line) && o == FindItem(e, line.itemId);
      assert line in top;
    }
  }

  /** `most_sold_item_for_merchant(merchant_id)`: one lookup per line, on the merchant's
      paid invoices, whose own quantity is the largest, in line order; ties all appear. */
  function MostSoldItemForMerchant(e: Engine, merchantId: int): (r: Result<seq<Option<Item>>>)
    ensures r.Err? <==> InvoiceItemsFromMerchant(e, merchantId) == []
    ensures r.Ok? ==> forall o {:trigger o in r.value} :: o in r.value <==>
                        exists line :: line in InvoiceItemsFromMerchant(e, merchantId)
                                       && IsMaximal(InvoiceItemsFromMerchant(e, merchantId), Quantity, line)
                                       && o == FindItem(e, line.itemId)
    ensures r.Ok? ==> var lines := InvoiceItemsFromMerchant(e, merchantId);
                      r.value == MapSeq(Filter(lines, MaximalTest(lines, Quantity)), ItemOfLine(e))
  {
    FindMaximumValue(e, InvoiceItemsFromMerchant(e, merchantId), Quantity)
  }

  /** `best_item_for_merchant(merchant_id)`: `find_maximum_value(...)[0]`, the item of the
      first line, on the merchant's paid invoices, whose own `quantity * unit_price` is the
      largest. */
  function BestItemForMerchant(e: Engine, merchantId: int): (r: Result<Option<Item>>)
    ensures r.Err? <==> InvoiceItemsFromMerchant(e, merchantId) == []
    ensures r.Ok? ==> var lines := InvoiceItemsFromMerchant(e, merchantId);
                      exists i :: 0 <= i < |lines| && IsMaximal(lines, LineTotal, lines[i])
                                  && (forall j :: 0 <= j < i ==> LineTotal(lines[j]) < LineTotal(lines[i]))
                                  && r.value == FindItem(e, lines[i].itemId)
  {
    var lines := InvoiceItemsFromMerchant(e, merchantId);
    if lines == [] then Err(UndefinedMethodForNil)
    else
      var top := WithMaxKey(lines, LineTotal);
      var i := FirstWithMaxKey(lines, LineTotal);
      FirstOfTopIsFirstMaximal(lines, LineTotal, i);
      var best := MapSeq(top, ItemOfLine(e))[0];
      assert best == FindItem(e, lines[i].itemId);
      Ok(best)
  }

  /** The head of the group of largest key is the first element of largest key. */
  lemma {:induction false} FirstOfTopIsFirstMaximal(s: seq<InvoiceItem>, key: InvoiceItem -> int, i: int)
    requires s != [] && i == FirstWithMaxKey(s, key)
    ensures WithMaxKey(s, key)[0] == s[i]
  {
    var m := MaxKey(s, key);
    assert key(s[i]) == m;
    FilterHead(s, HasKey(key, m), i);
  }

  /** The head of a filter is the first element passing the test. */
  lemma {:induction false} FilterHead(s: seq<InvoiceItem>, p: InvoiceItem -> bool, i: int)
    requires 0 <= i < |s| && p(s[i]) && forall j :: 0 <= j < i ==> !p(s[j])
    ensures Filter(s, p) != [] && Filter(s, p)[0] == s[i]
  {
    if i > 0 {
      FilterHead(s[1..], p, i - 1);
    }
  }

  // ---------------------------------------------------------------- summed quantities per item

  /** `get_item_ids_with_quantity(lines)`: `[item_id, quantity]` of every line. */
  function GetItemIdsWithQuantity(lines: seq<InvoiceItem>): (r: seq<(int, int)>)
    ensures |r| == |lines|
    ensures forall i :: 0 <= i < |lines| ==> r[i] == (lines[i].itemId, lines[i].quantity)
  {
    MapSeq(lines, (line: InvoiceItem) => (line.itemId, line.quantity))
  }

  /** The keys of the Hash `item_ids_with_total_quantity` builds, in insertion order. */
  function KeysInOrder(pairs: seq<(int, int)>): seq<int>
  {
    Distinct(MapSeq(pairs, PairKey))
  }

  /** The sum of the quantities paired with `id`. */
  function TotalFor(pairs: seq<(int, int)>, id: int): int
  {
    if pairs == [] then 0
    else TotalFor(pairs[..|pairs| - 1], id) + (if pairs[|pairs| - 1].0 == id then pairs[|pairs| - 1].1 else 0)
  }

  function TotalOf(pairs: seq<(int, int)>): int -> int
  {
    id => TotalFor(pairs, id)
  }

  /** An id is a key exactly when some pair carries it. */
  lemma KeysInOrderMembership(pairs: seq<(int, int)>, id: int)
    ensures id in KeysInOrder(pairs) <==> exists j :: 0 <= j < |pairs| && pairs[j].0 == id
  {
    var firsts := MapSeq(pairs, PairKey);
    if id in firsts {
      var j :| 0 <= j < |firsts| && firsts[j] == id;
      assert pairs[j].0 == id;
    }
    if exists j :: 0 <= j < |pairs| && pairs[j].0 == id {
      var j :| 0 <= j < |pairs| && pairs[j].0 == id;
      assert firsts[j] == id;
    }
  }

  /** An id no pair carries totals 0: the default of `Hash.new(0)`. */
  lemma {:induction false} TotalForAbsent(pairs: seq<(int, int)>, id: int)
    requires id !in KeysInOrder(pairs)
    ensures TotalFor(pairs, id) == 0
  {
    KeysInOrderMembership(pairs, id);
    TotalForUnpaired(pairs, id);
  }

  lemma {:induction false} TotalForUnpaired(pairs: seq<(int, int)>, id: int)
    requires forall j :: 0 <= j < |pairs| ==> pairs[j].0 != id
    ensures TotalFor(pairs, id) == 0
  {
    if pairs != [] {
      var init := pairs[..|pairs| - 1];
      assert forall j :: 0 <= j < |init| ==> init[j] == pairs[j];
      TotalForUnpaired(init, id);
    }
  }

  /** With non-negative quantities every total is non-negative. */
  lemma {:induction false} TotalForNonNegative(pairs: seq<(int, int)>, id: int)
    requires forall j :: 0 <= j < |pairs| ==> pairs[j].1 >= 0
    ensures TotalFor(pairs, id) >= 0
  {
    if pairs != [] {
      var init := pairs[..|pairs| - 1];
      assert forall j :: 0 <= j < |init| ==> init[j] == pairs[j];
      TotalForNonNegative(init, id);
    }
  }

  /** One more pair adds its id to the keys when it is new. */
  lemma KeysInOrderStep(pairs: seq<(int, int)>, i: int)
    requires 0 <= i < |pairs|
    ensures KeysInOrder(pairs[..i + 1]) ==
              if pairs[i].0 in KeysInOrder(pairs[..i]) then KeysInOrder(pairs[..i])
              else KeysInOrder(pairs[..i]) + [pairs[i].0]
  {
    var xs := MapSeq(pairs[..i + 1], PairKey);
    assert xs[..|xs| - 1] == MapSeq(pairs[..i], PairKey);
  }

  /** One more pair adds its quantity to the total of its id only. */
  lemma TotalForStep(pairs: seq<(int, int)>, i: int, id: int)
    requires 0 <= i < |pairs|
    ensures TotalFor(pairs[..i + 1], id) == TotalFor(pairs[..i], id) + (if pairs[i].0 == id then pairs[i].1 else 0)
  {
    assert pairs[..i + 1][..i] == pairs[..i];
  }

  /** `item_ids_with_total_quantity(pairs)`: a `Hash.new(0)` filled by `h[id] += quantity`.
      `keys` is the Hash's insertion order and `totals` its contents. */
  method ItemIdsWithTotalQuantity(pairs: seq<(int, int)>) returns (keys: seq<int>, totals: map<int, int>)
    ensures keys == KeysInOrder(pairs)
    ensures forall id :: id in totals <==> id in keys
    ensures forall id :: id in totals ==> totals[id] == TotalFor(pairs, id)
    ensures forall id :: id !in totals ==> TotalFor(pairs, id) == 0
  {
    keys := [];
    totals := map[];
    var i := 0;
    while i < |pairs|
      invariant 0 <= i <= |pairs|
      invariant keys == KeysInOrder(pairs[..i])
      invariant forall id :: id in totals <==> id in keys
      invariant forall id :: id in totals ==> totals[id] == TotalFor(pairs[..i], id)
    {
      var id := pairs[i].0;
      var current := 0;
      if id in totals {
        current := totals[id];
      } else {
        TotalForAbsent(pairs[..i], id);
        keys := keys + [id];
      }
      KeysInOrderStep(pairs, i);
      forall k ensures TotalFor(pairs[..i + 1], k) == TotalFor(pairs[..i], k) + (if k == id then pairs[i].1 else 0) {
        TotalForStep(pairs, i, k);
      }
      totals := totals[id := current + pairs[i].1];
      i := i + 1;
    }
    assert pairs[..i] == pairs;
    forall id | id !in totals ensures TotalFor(pairs, id) == 0 {
      TotalForAbsent(pairs, id);
    }
  }

  /** The item ids of largest total, in insertion order: `find_all { |id, q| q == max }`. */
  function IdsWithMaxTotal(pairs: seq<(int, int)>): (r: seq<int>)
    requires pairs != []
    ensures r != [] && IsSubsequence(r, KeysInOrder(pairs)) && NoDuplicates(r)
    ensures forall id {:trigger id in r} :: id in r <==> id in KeysInOrder(pairs) && IsMaximal(KeysInOrder(pairs), TotalOf(pairs), id)
    ensures r == Filter(KeysInOrder(pairs), MaximalTest(KeysInOrder(pairs), TotalOf(pairs)))
  {
    KeysInOrderMembership(pairs, pairs[0].0);
    var r := WithMaxKey(KeysInOrder(pairs), TotalOf(pairs));
    SubsequenceNoDuplicates(r, KeysInOrder(pairs));
    r
  }

  function ItemWithId(e: Engine): int -> Option<Item>
  {
    id => FindItem(e, id)
  }

  /** The lookups of the items of largest summed quantity among `lines`, one per item id,
      in the Hash's insertion order; `max_by` of no pairs is nil and `nil[1]` raises. */
  function ItemsWithMaxTotal(e: Engine, lines: seq<InvoiceItem>): (r: Result<seq<Option<Item>>>)
    ensures r.Err? <==> lines == []
    ensures r.Ok? ==> r.value != []
    ensures r.Ok? ==> var pairs := GetItemIdsWithQuantity(lines);
                      forall o {:trigger o in r.value} :: o in r.value <==>
                        exists id :: id in KeysInOrder(pairs) && IsMaximal(KeysInOrder(pairs), TotalOf(pairs), id)
                                     && o == FindItem(e, id)
    ensures r.Ok? ==> var pairs := GetItemIdsWithQuantity(lines);
                      r.value == MapSeq(Filter(KeysInOrder(pairs), MaximalTest(KeysInOrder(pairs), TotalOf(pairs))), ItemWithId(e))
  {
    var pairs := GetItemIdsWithQuantity(lines);
    if pairs == [] then Err(UndefinedMethodForNil)
    else
      var top := IdsWithMaxTotal(pairs);
      var r := MapSeq(top, ItemWithId(e));
      var keys := KeysInOrder(pairs);
      forall o ensures o in r <==> exists id :: id in keys && IsMaximal(keys, TotalOf(pairs), id) && o == FindItem(e, id) {
        LookupsOfTopIds(e, pairs, o);
      }
      Ok(r)
  }

  lemma LookupsOfTopIds(e: Engine, pairs: seq<(int, int)>, o: Option<Item>)
    requires pairs != []
    ensures var keys := KeysInOrder(pairs);
            o in MapSeq(IdsWithMaxTotal(pairs), ItemWithId(e)) <==>
              exists id :: id in keys && IsMaximal(keys, TotalOf(pairs), id) && o == FindItem(e, id)
  {
    var keys := KeysInOrder(pairs);
    var top := IdsWithMaxTotal(pairs);
    MapSeqMembership(top, ItemWithId(e), o);
    if exists id :: id in keys && IsMaximal(keys, TotalOf(pairs), id) && o == FindItem(e, id) {
      var id :| id in keys && IsMaximal(keys, TotalOf(pairs), id) && o == FindItem(e, id);
      assert id in top;
    }
  }

  function KeepAll(inv: Invoice): bool
  {
    true
  }

  /** The lines of every invoice of the customer, paid or not. */
  function CustomerLines(e: Engine, customerId: int): seq<InvoiceItem>
  {
    LinesOfInvoices(e, InvoicesOfCustomer(e, customerId), KeepAll)
  }

  /** `highest_volume_items(customer_id)`: the items whose quantity, summed over all the
      customer's lines, is the largest, one lookup per item id in Hash order. */
  function HighestVolumeItems(e: Engine, customerId: int): (r: Result<seq<Option<Item>>>)
    ensures r.Err? <==> CustomerLines(e, customerId) == []
    ensures r.Ok? ==> var pairs := GetItemIdsWithQuantity(CustomerLines(e, customerId));
                      forall o {:trigger o in r.value} :: o in r.value <==>
                        exists id :: id in KeysInOrder(pairs) && IsMaximal(KeysInOrder(pairs), TotalOf(pairs), id)
                                     && o == FindItem(e, id)
    ensures r.Ok? ==> var pairs := GetItemIdsWithQuantity(CustomerLines(e, customerId));
                      r.value == MapSeq(Filter(KeysInOrder(pairs), MaximalTest(KeysInOrder(pairs), TotalOf(pairs))), ItemWithId(e))
  {
    ItemsWithMaxTotal(e, CustomerLines(e, customerId))
  }

  /** The lines collected for a customer are those of their invoices. */
  lemma CustomerLinesMembership(e: Engine, customerId: int, line: InvoiceItem)
    ensures line in CustomerLines(e, customerId) <==>
              line in e.invoiceItems
              && exists inv :: inv in e.invoices && inv.customerId == customerId && inv.id == line.invoiceId
  {
    LinesOfInvoicesMembership(e, InvoicesOfCustomer(e, customerId), KeepAll, line);
  }

  // ---------------------------------------------------------------- one-time buyers

  function HasOneInvoice(e: Engine): Customer -> bool
  {
    (c: Customer) => |InvoicesOfCustomer(e, c.id)| == 1
  }

  /** `one_time_buyers`: the customers with exactly one invoice, in customer order. */
  function OneTimeBuyers(e: Engine): (r: seq<Customer>)
    ensures forall c {:trigger c in r} :: c in r <==> c in e.customers && |InvoicesOfCustomer(e, c.id)| == 1
    ensures IsSubsequence(r, e.customers)
  {
    FilterIsSubsequence(e.customers, HasOneInvoice(e));
    Filter(e.customers, HasOneInvoice(e))
  }

  function InvoicesOfCustomerOf(e: Engine): Customer -> seq<Invoice>
  {
    (c: Customer) => InvoicesOfCustomer(e, c.id)
  }

  /** `get_invoices_for_customers(customers)`: their invoices, customer by customer. */
  function GetInvoicesForCustomers(e: Engine, customers: seq<Customer>): seq<Invoice>
  {
    Flatten(MapSeq(customers, InvoicesOfCustomerOf(e)))
  }

  /** An invoice is collected exactly when one of the customers placed it. */
  lemma GetInvoicesForCustomersMembership(e: Engine, customers: seq<Customer>, inv: Invoice)
    ensures inv in GetInvoicesForCustomers(e, customers) <==>
              inv in e.invoices && exists c :: c in customers && c.id == inv.customerId
  {
    var ss := MapSeq(customers, InvoicesOfCustomerOf(e));
    FlattenMembership(ss, inv);
    if inv in Flatten(ss) {
      var i :| 0 <= i < |ss| && inv in ss[i];
      assert customers[i] in customers;
    }
    if inv in e.invoices && exists c :: c in customers && c.id == inv.customerId {
      var c :| c in customers && c.id == inv.customerId;
      var i :| 0 <= i < |customers| && customers[i] == c;
      assert inv in ss[i];
    }
  }

  /** `get_invoice_items_from_invoices(invoices)`: the lines of the paid invoices. */
  function GetInvoiceItemsFromInvoices(e: Engine, invoices: seq<Invoice>): seq<InvoiceItem>
  {
    LinesOfInvoices(e, invoices, PaidTest(e))
  }

  /** The `[item_id, quantity]` pairs `one_time_buyers_top_item` sums. */
  function OneTimeBuyerPairs(e: Engine): seq<(int, int)>
  {
    GetItemIdsWithQuantity(GetInvoiceItemsFromInvoices(e, GetInvoicesForCustomers(e, OneTimeBuyers(e))))
  }

  /** The lines behind `one_time_buyers_top_item` are exactly the lines of paid invoices of
      customers with a single invoice. */
  lemma OneTimeBuyerLinesMembership(e: Engine, line: InvoiceItem)
    ensures line in GetInvoiceItemsFromInvoices(e, GetInvoicesForCustomers(e, OneTimeBuyers(e))) <==>
              line in e.invoiceItems
              && exists inv :: inv in e.invoices && inv.id == line.invoiceId && InvoicePaidInFull(e, inv.id)
                               && exists c :: c in e.customers && c.id == inv.customerId && |InvoicesOfCustomer(e, c.id)| == 1
  {
    var invs := GetInvoicesForCustomers(e, OneTimeBuyers(e));
    LinesOfInvoicesMembership(e, invs, PaidTest(e), line);
    forall inv ensures inv in invs <==> inv in e.invoices && exists c :: c in OneTimeBuyers(e) && c.id == inv.customerId {
      GetInvoicesForCustomersMembership(e, OneTimeBuyers(e), inv);
    }
  }

  /** `items_hash.key(items_hash.values.max)`: the first id, in insertion order, of largest
      total; `values.max` of an empty Hash is nil and no key has the value nil. */
  function TopItemId(pairs: seq<(int, int)>): (r: Option<int>)
    ensures r.None? <==> pairs == []
    ensures r.Some? ==> var keys := KeysInOrder(pairs);
                        exists i :: 0 <= i < |keys| && keys[i] == r.value && IsMaximal(keys, TotalOf(pairs), keys[i])
                                    && forall j :: 0 <= j < i ==> TotalFor(pairs, keys[j]) < TotalFor(pairs, keys[i])
  {
    if pairs == [] then None
    else
      KeysInOrderMembership(pairs, pairs[0].0);
      var keys := KeysInOrder(pairs);
      Some(keys[FirstWithMaxKey(keys, TotalOf(pairs))])
  }

  /** `one_time_buyers_top_item`: `find_by_id` of that id, nil when no line qualifies
      (`find_by_id(nil)` finds nothing). */
  function OneTimeBuyersTopItem(e: Engine): (r: Option<Item>)
    ensures OneTimeBuyerPairs(e) == [] ==> r == None
    ensures r.Some? <==> TopItemId(OneTimeBuyerPairs(e)).Some?
                         && exists i :: i in e.items && i.id == TopItemId(OneTimeBuyerPairs(e)).value
    ensures r.Some? ==> r.value in e.items && r.value.id == TopItemId(OneTimeBuyerPairs(e)).value
  {
    match TopItemId(OneTimeBuyerPairs(e))
    case None => None
    case Some(id) => FindItem(e, id)
  }

  // ---------------------------------------------------------------- items bought in a year

  function InYear(year: int): Invoice -> bool
  {
    (inv: Invoice) => inv.createdAt.year == year
  }

  /** `items_bought_in_year(customer_id, year)`: `find_by_id` of the item of every line of the
      customer's paid invoices created that year. */
  function ItemsBoughtInYear(e: Engine, customerId: int, year: int): seq<Option<Item>>
  {
    MapSeq(GetInvoiceItemsFromInvoices(e, Filter(InvoicesOfCustomer(e, customerId), InYear(year))), ItemOfLine(e))
  }

  /** A lookup is reported exactly when it is the item of a line of a paid invoice the
      customer placed in that year. */
  lemma ItemsBoughtInYearMembership(e: Engine, customerId: int, year: int, o: Option<Item>)
    ensures o in ItemsBoughtInYear(e, customerId, year) <==>
              exists line :: line in e.invoiceItems && o == FindItem(e, line.itemId)
                             && exists inv :: inv in e.invoices && inv.customerId == customerId && inv.createdAt.year == year
                                              && inv.id == line.invoiceId && InvoicePaidInFull(e, inv.id)
  {
    var invs := Filter(InvoicesOfCustomer(e, customerId), InYear(year));
    var lines := GetInvoiceItemsFromInvoices(e, invs);
    MapSeqMembership(lines, ItemOfLine(e), o);
    forall line ensures line in lines <==>
                          line in e.invoiceItems
                          && exists inv :: inv in e.invoices && inv.customerId == customerId && inv.createdAt.year == year
                                           && inv.id == line.invoiceId && InvoicePaidInFull(e, inv.id) {
      LinesOfInvoicesMembership(e, invs, PaidTest(e), line);
    }
  }

  // ---------------------------------------------------------------- top merchant for a customer

  function AddQuantity(total: int, line: InvoiceItem): int
  {
    total + line.quantity
  }

  /** The inner `reduce` of `total_quantity_for_invoices`: the units on one invoice. */
  function InvoiceQuantity(e: Engine): Invoice -> int
  {
    (inv: Invoice) => Reduce(0, LinesOfInvoice(e, inv.id), AddQuantity)
  }

  function AddInvoiceQuantity(e: Engine): (int, Invoice) -> int
  {
    (sum: int, inv: Invoice) => sum + InvoiceQuantity(e)(inv)
  }

  /** `total_quantity_for_invoices(invoices)`: the units on all lines of all the invoices. */
  function TotalQuantityForInvoices(e: Engine, invoices: seq<Invoice>): int
  {
    Reduce(0, invoices, AddInvoiceQuantity(e))
  }

  /** The nested folds compute a sum of sums of quantities. */
  lemma TotalQuantityIsSumOfQuantities(e: Engine, invoices: seq<Invoice>)
    ensures TotalQuantityForInvoices(e, invoices) == SumOf(invoices, InvoiceQuantity(e))
    ensures forall inv :: InvoiceQuantity(e)(inv) == SumOf(LinesOfInvoice(e, inv.id), Quantity)
  {
    ReduceIsSum(0, invoices, AddInvoiceQuantity(e), InvoiceQuantity(e));
    forall inv ensures InvoiceQuantity(e)(inv) == SumOf(LinesOfInvoice(e, inv.id), Quantity) {
      ReduceIsSum(0, LinesOfInvoice(e, inv.id), AddQuantity, Quantity);
    }
  }

  /** The units a customer bought from one merchant, over all their invoices with it. */
  function MerchantQuantity(e: Engine, invoices: seq<Invoice>): int -> int
  {
    m => TotalQuantityForInvoices(e, FindAllBy(invoices, InvoiceMerchantId, m))
  }

  /** The merchant id `top_merchant_for_customer(customer_id)` looks up. `to_h` on
      `[total, merchant_id]` pairs keeps the last merchant for each total, so among the
      merchants of largest total the last in `group_by` order wins. */
  function TopMerchantIdForCustomer(e: Engine, customerId: int): (r: Option<int>)
    ensures r.None? <==> InvoicesOfCustomer(e, customerId) == []
    ensures r.Some? ==> var invs := InvoicesOfCustomer(e, customerId);
                        var keys := KeysOf(invs, InvoiceMerchantId);
                        exists i :: 0 <= i < |keys| && keys[i] == r.value && IsMaximal(keys, MerchantQuantity(e, invs), keys[i])
                                    && forall j :: i < j < |keys| ==> MerchantQuantity(e, invs)(keys[j]) < MerchantQuantity(e, invs)(keys[i])
  {
    var invs := InvoicesOfCustomer(e, customerId);
    var keys := KeysOf(invs, InvoiceMerchantId);
    if invs == [] then None
    else
      assert invs[0] in invs;
      assert InvoiceMerchantId(invs[0]) in keys;
      Some(keys[LastWithMaxKey(keys, MerchantQuantity(e, invs))])
  }

  /** The merchant a customer bought from is one of their invoices' merchants. */
  lemma TopMerchantIsCustomersMerchant(e: Engine, customerId: int)
    requires TopMerchantIdForCustomer(e, customerId).Some?
    ensures exists inv :: inv in e.invoices && inv.customerId == customerId
                          && inv.merchantId == TopMerchantIdForCustomer(e, customerId).value
  {
    var invs := InvoicesOfCustomer(e, customerId);
    var m := TopMerchantIdForCustomer(e, customerId).value;
    assert m in KeysOf(invs, InvoiceMerchantId);
    var inv :| inv in invs && InvoiceMerchantId(inv) == m;
    assert inv in e.invoices && inv.customerId == customerId;
  }

  /** `top_merchant_for_customer(customer_id)`: `find_by_id` of that merchant, nil when the
      customer has no invoices (`find_by_id(nil)` finds nothing). */
  function TopMerchantForCustomer(e: Engine, customerId: int): (r: Option<Merchant>)
    ensures InvoicesOfCustomer(e, customerId) == [] ==> r == None
    ensures r.Some? <==> TopMerchantIdForCustomer(e, customerId).Some?
                         && exists m :: m in e.merchants && m.id == TopMerchantIdForCustomer(e, customerId).value
    ensures r.Some? ==> TopMerchantIdForCustomer(e, customerId) == Some(r.value.id) && r.value in e.merchants
  {
    match TopMerchantIdForCustomer(e, customerId)
    case None => None
    case Some(m) => FindMerchant(e, m)
  }

  // ---------------------------------------------------------------- most sold by total units

  /** `most_sold_item_for_merchant` as its name promises: the items whose units, summed over
      the merchant's paid lines, are the largest, one lookup per item id in Hash order. */
  function MostSoldItemForMerchantByTotal(e: Engine, merchantId: int): (r: Result<seq<Option<Item>>>)
    ensures r.Err? <==> InvoiceItemsFromMerchant(e, merchantId) == []
    ensures r.Ok? ==> var pairs := GetItemIdsWithQuantity(InvoiceItemsFromMerchant(e, merchantId));
                      forall o {:trigger o in r.value} :: o in r.value <==>
                        exists id :: id in KeysInOrder(pairs) && IsMaximal(KeysInOrder(pairs), TotalOf(pairs), id)
                                     && o == FindItem(e, id)
    ensures r.Ok? ==> var pairs := GetItemIdsWithQuantity(InvoiceItemsFromMerchant(e, merchantId));
                      r.value == MapSeq(Filter(KeysInOrder(pairs), MaximalTest(KeysInOrder(pairs), TotalOf(pairs))), ItemWithId(e))
  {
    ItemsWithMaxTotal(e, InvoiceItemsFromMerchant(e, merchantId))
  }

  /** A merchant with one paid invoice: item 1 sold once in a line of 5 units, item 2 twice
      in lines of 3 units. */
  function RepeatSalesEngine(): Engine
  {
    var t := Time(0, 1, 2012, "March");
    Engine(
      [Merchant(1, t)],
      [Item(1, 100, 1), Item(2, 100, 1)],
      [Invoice(10, 7, 1, Shipped, t)],
      [InvoiceItem(1, 1, 10, 5, 100), InvoiceItem(2, 2, 10, 3, 100), InvoiceItem(3, 2, 10, 3, 100)],
      [Transaction(20, 10, Success)],
      [Customer(7)])
  }

  /** Every line of the example engine counts for merchant 1. */
  lemma RepeatSalesLines()
    ensures InvoiceItemsFromMerchant(RepeatSalesEngine(), 1) == RepeatSalesEngine().invoiceItems
  {
    var e := RepeatSalesEngine();
    var inv := e.invoices[0];
    FilterKeepsAll(e.transactions, HasKey(TransactionInvoiceId, 10));
    assert InvoicePaidInFull(e, 10);
    PendingIffNotPaid(e, inv);
    FilterKeepsAll(e.invoices, HasKey(InvoiceMerchantId, 1));
    forall x | x in e.invoiceItems ensures HasKey(LineInvoiceId, 10)(x) {
      assert e.invoiceItems[0].invoiceId == 10 && e.invoiceItems[1].invoiceId == 10 && e.invoiceItems[2].invoiceId == 10;
      var k :| 0 <= k < |e.invoiceItems| && e.invoiceItems[k] == x;
      assert LineInvoiceId(x) == 10;
    }
    FilterKeepsAll(e.invoiceItems, HasKey(LineInvoiceId, 10));
    assert MapSeq(e.invoices, LinesIfKept(e, NotPending(e))) == [e.invoiceItems];
  }

  /** In the example, item 2 sums to 6 units and item 1 to 5. */
  lemma RepeatSalesTotals()
    ensures var pairs := GetItemIdsWithQuantity(RepeatSalesEngine().invoiceItems);
            pairs == [(1, 5), (2, 3), (2, 3)] && TotalFor(pairs, 2) == 6 && TotalFor(pairs, 1) == 5
  {
    var pairs := GetItemIdsWithQuantity(RepeatSalesEngine().invoiceItems);
    assert pairs == [(1, 5), (2, 3), (2, 3)];
    assert pairs[..2] == [(1, 5), (2, 3)] && pairs[..2][..1] == [(1, 5)] && pairs[..2][..1][..0] == [];
    assert TotalFor(pairs[..2][..1], 2) == 0 && TotalFor(pairs[..2][..1], 1) == 5;
    assert TotalFor(pairs[..2], 2) == 3 && TotalFor(pairs[..2], 1) == 5;
  }

  lemma FindItemsOfRepeatSales(e: Engine)
    requires e == RepeatSalesEngine()
    ensures FindItem(e, 1) == Some(Item(1, 100, 1)) && FindItem(e, 2) == Some(Item(2, 100, 1))
  {
  }

  /** As written, `most_sold_item_for_merchant` reports item 1, whose single line is the
      largest, although item 2 sold 6 units to item 1's 5. */
  lemma MostSoldIgnoresRepeatSales()
    ensures var r := MostSoldItemForMerchant(RepeatSalesEngine(), 1);
            r.Ok? && Some(Item(1, 100, 1)) in r.value && Some(Item(2, 100, 1)) !in r.value
    ensures var pairs := GetItemIdsWithQuantity(InvoiceItemsFromMerchant(RepeatSalesEngine(), 1));
            TotalFor(pairs, 2) == 6 && TotalFor(pairs, 1) == 5
  {
    var e := RepeatSalesEngine();
    RepeatSalesLines();
    RepeatSalesTotals();
    FindItemsOfRepeatSales(e);
    var lines := e.invoiceItems;
    assert IsMaximal(lines, Quantity, lines[0]);
    forall line | line in lines && IsMaximal(lines, Quantity, line) ensures line == lines[0] {
      assert Quantity(line) >= Quantity(lines[0]);
    }
  }

  /** In the example, item 2 is the one id of largest total. */
  lemma RepeatSalesMaximalIds()
    ensures var pairs := GetItemIdsWithQuantity(RepeatSalesEngine().invoiceItems);
            var keys := KeysInOrder(pairs);
            2 in keys && IsMaximal(keys, TotalOf(pairs), 2)
            && forall id :: id in keys && IsMaximal(keys, TotalOf(pairs), id) ==> id == 2
  {
    RepeatSalesTotals();
    var pairs := GetItemIdsWithQuantity(RepeatSalesEngine().invoiceItems);
    var keys := KeysInOrder(pairs);
    KeysInOrderMembership(pairs, 2);
    forall id | id in keys ensures id == 1 || id == 2 {
      KeysInOrderMembership(pairs, id);
    }
    assert IsMaximal(keys, TotalOf(pairs), 2) by {
      forall j | 0 <= j < |keys| ensures TotalFor(pairs, keys[j]) <= 6 {
        assert keys[j] in keys;
      }
    }
    var i2 :| 0 <= i2 < |keys| && keys[i2] == 2;
    assert TotalOf(pairs)(keys[i2]) > TotalOf(pairs)(1);
  }

  /** The total-based selection reports item 2 for the same merchant. */
  lemma MostSoldByTotalCountsRepeatSales()
    ensures var r := MostSoldItemForMerchantByTotal(RepeatSalesEngine(), 1);
            r.Ok? && Some(Item(2, 100, 1)) in r.value && Some(Item(1, 100, 1)) !in r.value
  {
    var e := RepeatSalesEngine();
    RepeatSalesLines();
    RepeatSalesMaximalIds();
    FindItemsOfRepeatSales(e);
  }
}
