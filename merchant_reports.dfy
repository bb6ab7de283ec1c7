/** The merchant, item, weekday and status reports of `SalesAnalyst`
    (lib/sales_analyst.rb:10-159, 221-232). Every report is a function of the engine;
    `sqrt` stands for `Math.sqrt`. */
module MerchantReports {
  import opened Wrappers
  import opened Seqs
  import opened Statistics
  import opened Records

  // ---------------------------------------------------------------- items per merchant

  /** `items.find_all_by_merchant_id(merchant.id).count`. */
  function ItemCount(e: Engine, m: Merchant): int
  {
    |ItemsOfMerchant(e, m.id)|
  }

  /** The sample of `average_items_per_merchant_standard_deviation`: one item count per
      merchant, in merchant order. */
  function ItemCounts(e: Engine): (r: seq<int>)
    ensures |r| == |e.merchants|
    ensures forall i :: 0 <= i < |r| ==> r[i] == ItemCount(e, e.merchants[i])
  {
    CountsPerKey(MapSeq(e.merchants, MerchantId), e.items, ItemMerchantId)
  }

  /** `average_items_per_merchant`: item count over merchant count. */
  function AverageItemsPerMerchant(e: Engine): Measure
  {
    Divide(|e.items| as real, |e.merchants|)
  }

  /** When every item belongs to exactly one listed merchant, the average of
      `average_items_per_merchant` is the mean of the very sample whose deviation
      `average_items_per_merchant_standard_deviation` measures. */
  lemma AverageItemsIsMeanOfCounts(e: Engine)
    requires ItemsReferToMerchants(e)
    ensures AverageItemsPerMerchant(e) == Divide(Total(ItemCounts(e)) as real, |ItemCounts(e)|)
  {
    CountsPerKeyTotal(MapSeq(e.merchants, MerchantId), e.items, ItemMerchantId);
  }

  function AverageItemsPerMerchantStandardDeviation(e: Engine, sqrt: real -> real): Measure
  {
    StandardDeviation(ItemCounts(e), AverageItemsPerMerchant(e), sqrt)
  }

  /** The test of `merchants_with_high_item_count`: more items than the mean plus one
      standard deviation. */
  predicate HasHighItemCount(e: Engine, sqrt: real -> real, m: Merchant)
  {
    Exceeds(ItemCount(e, m) as real,
            UpperThreshold(AverageItemsPerMerchant(e), AverageItemsPerMerchantStandardDeviation(e, sqrt), 1.0))
  }

  /** `merchants_with_high_item_count`: exactly the merchants that pass, in merchant order.
      A single merchant has no sample deviation, so it is never reported. */
  function MerchantsWithHighItemCount(e: Engine, sqrt: real -> real): (r: seq<Merchant>)
    ensures forall m {:trigger m in r} :: m in r <==> m in e.merchants && HasHighItemCount(e, sqrt, m)
    ensures IsSubsequence(r, e.merchants)
    ensures |e.merchants| <= 1 ==> r == []
  {
    var high := (m: Merchant) => HasHighItemCount(e, sqrt, m);
    FilterIsSubsequence(e.merchants, high);
    Filter(e.merchants, high)
  }

  lemma {:induction false} TotalOfConstant(xs: seq<int>, c: int)
    requires forall i :: 0 <= i < |xs| ==> xs[i] == c
    ensures Total(xs) == |xs| * c
  {
    if xs != [] {
      TotalOfConstant(xs[1..], c);
    }
  }

  /** When every merchant sells the same number of items `c`, the average is `c` and, from
      two merchants on, the variance of the counts is 0. */
  lemma EqualCountsHaveZeroVariance(e: Engine, c: int)
    requires ItemsReferToMerchants(e)
    requires forall m :: m in e.merchants ==> ItemCount(e, m) == c
    requires |e.merchants| >= 2
    ensures AverageItemsPerMerchant(e) == Finite(c as real)
    ensures Variance(ItemCounts(e), AverageItemsPerMerchant(e)) == Finite(0.0)
  {
    var xs := ItemCounts(e);
    var n := |e.merchants|;
    assert forall i :: 0 <= i < n ==> xs[i] == c by {
      forall i | 0 <= i < n ensures xs[i] == c {
        assert e.merchants[i] in e.merchants;
      }
    }
    TotalOfConstant(xs, c);
    AverageItemsIsMeanOfCounts(e);
    MeanOfConstant(n, c);
    VarianceZeroIffConstant(xs, c as real);
  }

  /** `n` copies of `c` average to `c`. */
  lemma MeanOfConstant(n: int, c: int)
    requires n > 0
    ensures Divide((n * c) as real, n) == Finite(c as real)
  {
    assert (n * c) as real == c as real * n as real;
  }

  /** When every merchant sells the same number of items, no merchant has a high item
      count: the deviation is `sqrt(0)`, which `Math.sqrt` gives as 0. */
  lemma EqualCountsReportNoMerchant(e: Engine, sqrt: real -> real, c: int)
    requires ItemsReferToMerchants(e)
    requires forall m :: m in e.merchants ==> ItemCount(e, m) == c
    requires sqrt(0.0) == 0.0
    ensures |e.merchants| >= 2 ==> Variance(ItemCounts(e), AverageItemsPerMerchant(e)) == Finite(0.0)
    ensures MerchantsWithHighItemCount(e, sqrt) == []
  {
    if |e.merchants| >= 2 {
      EqualCountsHaveZeroVariance(e, c);
      assert AverageItemsPerMerchantStandardDeviation(e, sqrt) == Finite(0.0);
      NoMemberMeansEmpty(MerchantsWithHighItemCount(e, sqrt));
    }
  }

  // ---------------------------------------------------------------- item prices

  /** `average_item_price_for_merchant`: the mean unit price of the merchant's items,
      undefined (`0.0 / 0`) when it has none. */
  function AverageItemPriceForMerchant(e: Engine, merchantId: int): Measure
  {
    var items := ItemsOfMerchant(e, merchantId);
    Divide(SumOf(items, UnitPrice) as real, |items|)
  }

  /** A mean lies between the bounds of what it averages. */
  lemma MeanWithinBounds(sum: int, n: int, lo: int, hi: int)
    requires n > 0 && n * lo <= sum <= n * hi
    ensures Divide(sum as real, n).Finite?
    ensures lo as real <= Divide(sum as real, n).value <= hi as real
  {
    var v := Divide(sum as real, n).value;
    if v < lo as real {
      ProductPositive(lo as real - v, n as real);
    }
    if v > hi as real {
      ProductPositive(v - hi as real, n as real);
    }
  }

  /** A merchant's average price lies between its cheapest and its dearest item. */
  lemma AveragePriceWithinBounds(e: Engine, merchantId: int, lo: int, hi: int)
    requires forall i :: i in ItemsOfMerchant(e, merchantId) ==> lo <= i.unitPrice <= hi
    ensures AverageItemPriceForMerchant(e, merchantId).Finite? <==> |ItemsOfMerchant(e, merchantId)| > 0
    ensures AverageItemPriceForMerchant(e, merchantId).Finite? ==>
              lo as real <= AverageItemPriceForMerchant(e, merchantId).value <= hi as real
  {
    var items := ItemsOfMerchant(e, merchantId);
    if |items| > 0 {
      SumOfAtLeast(items, UnitPrice, lo);
      SumOfAtMost(items, UnitPrice, hi);
      MeanWithinBounds(SumOf(items, UnitPrice), |items|, lo, hi);
    }
  }

  /** The running sum of `average_average_price_per_merchant` over `ms`: a NaN from a
      merchant without items poisons the whole sum. */
  function SumOfAveragePrices(e: Engine, ms: seq<Merchant>): (r: Measure)
    ensures r.Finite? <==> forall m :: m in ms ==> |ItemsOfMerchant(e, m.id)| > 0
  {
    if ms == [] then Finite(0.0)
    else
      assert forall m :: m in ms <==> m == ms[0] || m in ms[1..];
      Plus(AverageItemPriceForMerchant(e, ms[0].id), SumOfAveragePrices(e, ms[1..]))
  }

  /** `average_average_price_per_merchant`: the mean over merchants of their average price. */
  function AverageAveragePricePerMerchant(e: Engine): (r: Measure)
    ensures r.Finite? <==> |e.merchants| > 0 && forall m :: m in e.merchants ==> |ItemsOfMerchant(e, m.id)| > 0
    ensures r.Finite? ==> r.value * |e.merchants| as real == SumOfAveragePrices(e, e.merchants).value
  {
    var total := SumOfAveragePrices(e, e.merchants);
    if total.Finite? then Divide(total.value, |e.merchants|) else Undefined
  }

  /** `average_item_cost`: the mean unit price of all items. */
  function AverageItemCost(e: Engine): Measure
  {
    Divide(SumOf(e.items, UnitPrice) as real, |e.items|)
  }

  /** The overall average cost lies between the cheapest and the dearest item. */
  lemma AverageItemCostWithinBounds(e: Engine, lo: int, hi: int)
    requires forall i :: i in e.items ==> lo <= i.unitPrice <= hi
    ensures AverageItemCost(e).Finite? <==> |e.items| > 0
    ensures AverageItemCost(e).Finite? ==> lo as real <= AverageItemCost(e).value <= hi as real
  {
    if |e.items| > 0 {
      SumOfAtLeast(e.items, UnitPrice, lo);
      SumOfAtMost(e.items, UnitPrice, hi);
      MeanWithinBounds(SumOf(e.items, UnitPrice), |e.items|, lo, hi);
    }
  }

  /** `item_unit_price_standard_deviation`. */
  function ItemUnitPriceStandardDeviation(e: Engine, sqrt: real -> real): Measure
  {
    StandardDeviation(MapSeq(e.items, UnitPrice), AverageItemCost(e), sqrt)
  }

  /** The test of `golden_items`: a price above the mean plus two standard deviations. */
  predicate IsGolden(e: Engine, sqrt: real -> real, i: Item)
  {
    Exceeds(i.unitPrice as real, UpperThreshold(AverageItemCost(e), ItemUnitPriceStandardDeviation(e, sqrt), 2.0))
  }

  /** `golden_items`: exactly the items that pass, in item order. */
  function GoldenItems(e: Engine, sqrt: real -> real): (r: seq<Item>)
    ensures forall i {:trigger i in r} :: i in r <==> i in e.items && IsGolden(e, sqrt, i)
    ensures IsSubsequence(r, e.items)
    ensures |e.items| <= 1 ==> r == []
  {
    var golden := (i: Item) => IsGolden(e, sqrt, i);
    FilterIsSubsequence(e.items, golden);
    Filter(e.items, golden)
  }

  /** Every golden item is dearer than the average item. */
  lemma GoldenItemsAboveAverage(e: Engine, sqrt: real -> real, i: Item)
    requires NonNegativeRoot(sqrt)
    requires i in GoldenItems(e, sqrt)
    ensures AverageItemCost(e).Finite? && i.unitPrice as real > AverageItemCost(e).value
  {
    StandardDeviationNonNegative(MapSeq(e.items, UnitPrice), AverageItemCost(e), sqrt);
    var sd := ItemUnitPriceStandardDeviation(e, sqrt);
    assert sd.value * 2.0 >= 0.0;
  }
  /** With a genuine square root and at least two items, an item is golden exactly when it
      is dearer than the average and its squared distance from the average exceeds four times
      the variance: the report does not depend on how the root is computed. */
  lemma GoldenBySquares(e: Engine, sqrt: real -> real, i: Item)
    requires GenuineRoot(sqrt)
    requires |e.items| >= 2 && AverageItemCost(e).Finite?
    ensures var mean := AverageItemCost(e).value;
            var d := i.unitPrice as real - mean;
            i in GoldenItems(e, sqrt) <==>
              i in e.items && d > 0.0 && d * d > 4.0 * Variance(MapSeq(e.items, UnitPrice), AverageItemCost(e)).value
  {
    var prices := MapSeq(e.items, UnitPrice);
    var v := Variance(prices, AverageItemCost(e)).value;
    assert v >= 0.0;
    ExceedsBySquares(i.unitPrice as real, AverageItemCost(e).value, 2.0, sqrt(v), v);
  }


  // ---------------------------------------------------------------- invoices per merchant

  /** `invoices.find_all_by_merchant_id(merchant.id).count`. */
  function InvoiceCount(e: Engine, m: Merchant): int
  {
    |InvoicesOfMerchant(e, m.id)|
  }

  /** The sample of `average_invoices_per_merchant_standard_deviation`. */
  function InvoiceCounts(e: Engine): (r: seq<int>)
    ensures |r| == |e.merchants|
    ensures forall i :: 0 <= i < |r| ==> r[i] == InvoiceCount(e, e.merchants[i])
  {
    CountsPerKey(MapSeq(e.merchants, MerchantId), e.invoices, InvoiceMerchantId)
  }

  /** `average_invoices_per_merchant`. */
  function AverageInvoicesPerMerchant(e: Engine): Measure
  {
    Divide(|e.invoices| as real, |e.merchants|)
  }

  /** When every invoice belongs to exactly one listed merchant, the average is the mean of
      the per-merchant invoice counts. */
  lemma AverageInvoicesIsMeanOfCounts(e: Engine)
    requires InvoicesReferToMerchants(e)
    ensures AverageInvoicesPerMerchant(e) == Divide(Total(InvoiceCounts(e)) as real, |InvoiceCounts(e)|)
  {
    CountsPerKeyTotal(MapSeq(e.merchants, MerchantId), e.invoices, InvoiceMerchantId);
  }

  function AverageInvoicesPerMerchantStandardDeviation(e: Engine, sqrt: real -> real): Measure
  {
    StandardDeviation(InvoiceCounts(e), AverageInvoicesPerMerchant(e), sqrt)
  }

  /** The test of `top_merchants_by_invoice_count`: above the mean plus two deviations. */
  predicate IsTopByInvoices(e: Engine, sqrt: real -> real, m: Merchant)
  {
    Exceeds(InvoiceCount(e, m) as real,
            UpperThreshold(AverageInvoicesPerMerchant(e), AverageInvoicesPerMerchantStandardDeviation(e, sqrt), 2.0))
  }

  /** The test of `bottom_merchants_by_invoice_count`: below the mean minus two deviations. */
  predicate IsBottomByInvoices(e: Engine, sqrt: real -> real, m: Merchant)
  {
    FallsBelow(InvoiceCount(e, m) as real,
               LowerThreshold(AverageInvoicesPerMerchant(e), AverageInvoicesPerMerchantStandardDeviation(e, sqrt), 2.0))
  }

  /** `top_merchants_by_invoice_count`: exactly the merchants that pass, in merchant order. */
  function TopMerchantsByInvoiceCount(e: Engine, sqrt: real -> real): (r: seq<Merchant>)
    ensures forall m {:trigger m in r} :: m in r <==> m in e.merchants && IsTopByInvoices(e, sqrt, m)
    ensures IsSubsequence(r, e.merchants)
    ensures |e.merchants| <= 1 ==> r == []
  {
    var top := (m: Merchant) => IsTopByInvoices(e, sqrt, m);
    FilterIsSubsequence(e.merchants, top);
    Filter(e.merchants, top)
  }

  /** `bottom_merchants_by_invoice_count`: exactly the merchants that pass, in merchant order. */
  function BottomMerchantsByInvoiceCount(e: Engine, sqrt: real -> real): (r: seq<Merchant>)
    ensures forall m {:trigger m in r} :: m in r <==> m in e.merchants && IsBottomByInvoices(e, sqrt, m)
    ensures IsSubsequence(r, e.merchants)
    ensures |e.merchants| <= 1 ==> r == []
  {
    var bottom := (m: Merchant) => IsBottomByInvoices(e, sqrt, m);
    FilterIsSubsequence(e.merchants, bottom);
    Filter(e.merchants, bottom)
  }

  /** No merchant is both a top and a bottom merchant. */
  lemma TopAndBottomMerchantsDisjoint(e: Engine, sqrt: real -> real, m: Merchant)
    requires NonNegativeRoot(sqrt)
    ensures !(m in TopMerchantsByInvoiceCount(e, sqrt) && m in BottomMerchantsByInvoiceCount(e, sqrt))
  {
    StandardDeviationNonNegative(InvoiceCounts(e), AverageInvoicesPerMerchant(e), sqrt);
    TopAndBottomDisjoint(InvoiceCount(e, m) as real, AverageInvoicesPerMerchant(e),
                         AverageInvoicesPerMerchantStandardDeviation(e, sqrt), 2.0);
  }

  // ---------------------------------------------------------------- invoices per weekday

  /** The keys of `generate_day`: the weekdays that have invoices, in order of first
      appearance. */
  function DayKeys(e: Engine): seq<int>
  {
    KeysOf(e.invoices, InvoiceWeekday)
  }

  /** `days.values`: the number of invoices on each weekday of `DayKeys`. */
  function DayCounts(e: Engine): seq<int>
  {
    CountsPerKey(DayKeys(e), e.invoices, InvoiceWeekday)
  }

  /** `generate_day`: one `[weekday, count]` pair per weekday that has invoices, none for
      the weekdays without, in the Hash's order of first appearance; every count is
      positive. */
  function GenerateDay(e: Engine): (r: seq<(int, int)>)
    ensures |r| == |DayKeys(e)|
    ensures MapSeq(r, PairKey) == DayKeys(e)
    ensures forall p {:trigger p in r} :: p in r <==> p.0 in DayKeys(e) && p.1 == |FindAllBy(e.invoices, InvoiceWeekday, p.0)|
    ensures forall p :: p in r ==> p.1 > 0
  {
    var keys := DayKeys(e);
    var r := MapSeq(keys, d => (d, |FindAllBy(e.invoices, InvoiceWeekday, d)|));
    forall p | p in r ensures p.0 in keys && p.1 == |FindAllBy(e.invoices, InvoiceWeekday, p.0)| && p.1 > 0 {
      var i :| 0 <= i < |r| && r[i] == p;
      assert keys[i] in keys;
      var inv :| inv in e.invoices && InvoiceWeekday(inv) == keys[i];
      assert inv in FindAllBy(e.invoices, InvoiceWeekday, keys[i]);
    }
    forall d | d in keys ensures (d, |FindAllBy(e.invoices, InvoiceWeekday, d)|) in r {
      var i :| 0 <= i < |keys| && keys[i] == d;
      assert r[i] == (d, |FindAllBy(e.invoices, InvoiceWeekday, d)|);
    }
    assert forall i :: 0 <= i < |keys| ==> MapSeq(r, PairKey)[i] == keys[i];
    r
  }

  /** `average_days`: the sum of the day counts integer-divided by seven. */
  function AverageDays(e: Engine): int
  {
    Total(DayCounts(e)) / 7
  }

  /** The sum of the day counts is the number of invoices, so `average_days` is the number
      of invoices integer-divided by seven, whatever number of weekdays has invoices. */
  lemma AverageDaysIsInvoicesOverSeven(e: Engine)
    ensures AverageDays(e) == |e.invoices| / 7
  {
    forall inv | inv in e.invoices ensures InvoiceWeekday(inv) in DayKeys(e) {
    }
    CountsPerKeyTotal(DayKeys(e), e.invoices, InvoiceWeekday);
  }

  /** `invoice_by_day_standard_deviation`: the deviation of the day counts from the integer
      average. */
  function InvoiceByDayStandardDeviation(e: Engine, sqrt: real -> real): Measure
  {
    StandardDeviation(DayCounts(e), Finite(AverageDays(e) as real), sqrt)
  }

  /** `top_days`: the weekdays whose count exceeds the threshold, in the order of `days`;
      each once when the weekdays of `days` are distinct, as the keys of a Hash are. */
  function TopDays(days: seq<(int, int)>, threshold: Measure): (r: seq<int>)
    ensures forall d {:trigger d in r} :: d in r <==> exists p :: p in days && p.0 == d && Exceeds(p.1 as real, threshold)
    ensures IsSubsequence(r, MapSeq(days, PairKey))
    ensures NoDuplicates(MapSeq(days, PairKey)) ==> NoDuplicates(r)
    ensures threshold.Undefined? ==> r == []
  {
    if days == [] then []
    else
      assert forall p :: p in days <==> p == days[0] || p in days[1..];
      var rest := TopDays(days[1..], threshold);
      assert MapSeq(days, PairKey)[1..] == MapSeq(days[1..], PairKey);
      var r := if Exceeds(days[0].1 as real, threshold) then [days[0].0] + rest else rest;
      assert r != rest ==> r[1..] == rest;
      SubsequenceNoDuplicates(r, MapSeq(days, PairKey));
      r
  }

  /** The threshold of `top_days_by_invoice_count`: the integer average plus one deviation. */
  function TopDayThreshold(e: Engine, sqrt: real -> real): Measure
  {
    UpperThreshold(Finite(AverageDays(e) as real), InvoiceByDayStandardDeviation(e, sqrt), 1.0)
  }

  /** `top_days_by_invoice_count`, as weekday numbers: exactly the weekdays that have
      invoices and more of them than the threshold. When invoices fall on a single weekday
      there is no sample deviation and no top day. */
  function TopDaysByInvoiceCount(e: Engine, sqrt: real -> real): (r: seq<int>)
    ensures forall d {:trigger d in r} :: d in r <==>
              d in DayKeys(e) && Exceeds(|FindAllBy(e.invoices, InvoiceWeekday, d)| as real, TopDayThreshold(e, sqrt))
    ensures IsSubsequence(r, DayKeys(e)) && NoDuplicates(r)
    ensures |DayKeys(e)| == 1 ==> r == []
  {
    var days := GenerateDay(e);
    var threshold := TopDayThreshold(e, sqrt);
    forall d | d in DayKeys(e) && Exceeds(|FindAllBy(e.invoices, InvoiceWeekday, d)| as real, threshold)
      ensures exists p :: p in days && p.0 == d && Exceeds(p.1 as real, threshold)
    {
      assert (d, |FindAllBy(e.invoices, InvoiceWeekday, d)|) in days;
    }
    SubsequenceNoDuplicates(TopDays(days, threshold), DayKeys(e));
    TopDays(days, threshold)
  }

  // ---------------------------------------------------------------- invoice status

  /** `mapped_statuses[status].to_f`: the size of the status group, 0.0 for a status no
      invoice has (`nil.to_f`). */
  function StatusCount(e: Engine, status: Status): (r: int)
    ensures r == |FindAllBy(e.invoices, InvoiceStatusOf, status)|
    ensures 0 <= r <= |e.invoices|
  {
    if status in KeysOf(e.invoices, InvoiceStatusOf) then |FindAllBy(e.invoices, InvoiceStatusOf, status)|
    else
      FilterKeepsNone(e.invoices, HasKey(InvoiceStatusOf, status));
      0
  }

  /** `(c.to_f / n.to_f * 100)`: undefined when `n` is 0. */
  function Percentage(c: int, n: int): Measure
  {
    var share := Divide(c as real, n);
    if share.Undefined? then Undefined else Finite(share.value * 100.0)
  }

  /** `invoice_status(status)`: the percentage of invoices with that status. */
  function InvoiceStatus(e: Engine, status: Status): Measure
  {
    Percentage(StatusCount(e, status), |e.invoices|)
  }

  /** `invoice_status` is 100 times the share of invoices that have the status, so it lies
      in [0, 100]; it is undefined (`0.0 / 0.0`) when there are no invoices. */
  lemma InvoiceStatusIsPercentage(e: Engine, status: Status)
    ensures InvoiceStatus(e, status).Finite? <==> |e.invoices| > 0
    ensures InvoiceStatus(e, status).Finite? ==>
              InvoiceStatus(e, status).value == 100.0 * Divide(|FindAllBy(e.invoices, InvoiceStatusOf, status)| as real, |e.invoices|).value
    ensures InvoiceStatus(e, status).Finite? ==> 0.0 <= InvoiceStatus(e, status).value <= 100.0
  {
    if |e.invoices| > 0 {
      ShareBounds(StatusCount(e, status), |e.invoices|);
    }
  }

  /** A status no invoice has scores 0 percent. */
  lemma AbsentStatusIsZeroPercent(e: Engine, status: Status)
    requires |e.invoices| > 0
    requires forall inv :: inv in e.invoices ==> inv.status != status
    ensures InvoiceStatus(e, status) == Finite(0.0)
  {
    FilterKeepsNone(e.invoices, HasKey(InvoiceStatusOf, status));
    ShareBounds(0, |e.invoices|);
  }

  /** A share `c / n` of `n` things lies in [0, 1], and is 0 only for `c == 0`. */
  lemma ShareBounds(c: int, n: int)
    requires 0 <= c <= n && n > 0
    ensures 0.0 <= Divide(c as real, n).value <= 1.0
    ensures c == 0 ==> Divide(c as real, n).value == 0.0
  {
    MeanWithinBounds(c, n, 0, 1);
    if c == 0 { MeanWithinBounds(c, n, 0, 0); }
  }

  /** `x * n == y * n` with `n` positive gives `x == y`. */
  lemma CancelPositive(x: real, y: real, n: real)
    requires n > 0.0 && x * n == y * n
    ensures x == y
  {
    if x > y { ProductPositive(x - y, n); }
    if x < y { ProductPositive(y - x, n); }
  }

  /** The shares of the three parts of a partition of `n` things add up to 1. */
  lemma SharesOfPartition(a: int, b: int, c: int, n: int)
    requires n > 0 && a + b + c == n
    ensures Divide(a as real, n).value + Divide(b as real, n).value + Divide(c as real, n).value == 1.0
  {
    var x, y, z, m := Divide(a as real, n).value, Divide(b as real, n).value, Divide(c as real, n).value, n as real;
    assert a as real + b as real + c as real == m;
    assert (x + y + z) * m == x * m + y * m + z * m;
    CancelPositive(x + y + z, 1.0, m);
  }

  /** The group sizes of the three statuses add up to the number of invoices. */
  lemma StatusCountsAddUp(e: Engine)
    ensures |FindAllBy(e.invoices, InvoiceStatusOf, Pending)| + |FindAllBy(e.invoices, InvoiceStatusOf, Shipped)|
            + |FindAllBy(e.invoices, InvoiceStatusOf, Returned)| == |e.invoices|
  {
    var keys := [Pending, Shipped, Returned];
    forall inv | inv in e.invoices ensures InvoiceStatusOf(inv) in keys {
      assert keys[0] == Pending && keys[1] == Shipped && keys[2] == Returned;
      assert inv.status == Pending || inv.status == Shipped || inv.status == Returned;
    }
    CountsPerKeyTotal(keys, e.invoices, InvoiceStatusOf);
    var counts := CountsPerKey(keys, e.invoices, InvoiceStatusOf);
    TotalCons(counts);
    TotalCons(counts[1..]);
    TotalCons(counts[2..]);
    assert counts[1..][1..] == counts[2..] && counts[2..][1..] == [];
  }

  /** The three status percentages add up to 100. */
  lemma StatusPercentagesSumTo100(e: Engine)
    requires |e.invoices| > 0
    ensures InvoiceStatus(e, Pending).value + InvoiceStatus(e, Shipped).value + InvoiceStatus(e, Returned).value == 100.0
  {
    StatusCountsAddUp(e);
    InvoiceStatusIsPercentage(e, Pending);
    InvoiceStatusIsPercentage(e, Shipped);
    InvoiceStatusIsPercentage(e, Returned);
    SharesOfPartition(|FindAllBy(e.invoices, InvoiceStatusOf, Pending)|, |FindAllBy(e.invoices, InvoiceStatusOf, Shipped)|,
                      |FindAllBy(e.invoices, InvoiceStatusOf, Returned)|, |e.invoices|);
  }

  // ---------------------------------------------------------------- one-item merchants

  /** `merchants_with_only_one_item`: exactly the merchants with one item, in order. */
  function MerchantsWithOnlyOneItem(e: Engine): (r: seq<Merchant>)
    ensures forall m {:trigger m in r} :: m in r <==> m in e.merchants && ItemCount(e, m) == 1
    ensures IsSubsequence(r, e.merchants)
  {
    var single := (m: Merchant) => ItemCount(e, m) == 1;
    FilterIsSubsequence(e.merchants, single);
    Filter(e.merchants, single)
  }

  function MonthName(m: Merchant): string
  {
    m.createdAt.monthName
  }

  /** `merchants_with_only_one_item_registered_in_month(month)`: the group of one-item
      merchants created in that month, or `nil` when the group does not exist. */
  function MerchantsWithOnlyOneItemRegisteredInMonth(e: Engine, month: string): (r: Option<seq<Merchant>>)
    ensures r.None? <==> forall m :: m in e.merchants && ItemCount(e, m) == 1 ==> m.createdAt.monthName != month
    ensures r.Some? ==> r.value != [] && IsSubsequence(r.value, e.merchants)
    ensures r.Some? ==> forall m {:trigger m in r.value} :: m in r.value <==>
              m in e.merchants && ItemCount(e, m) == 1 && m.createdAt.monthName == month
  {
    var single := MerchantsWithOnlyOneItem(e);
    if month in KeysOf(single, MonthName) then
      var group := FindAllBy(single, MonthName, month);
      var m :| m in single && MonthName(m) == month;
      assert m in group;
      SubsequenceTransitive(group, single, e.merchants);
      Some(group)
    else
      assert forall m :: m in e.merchants && ItemCount(e, m) == 1 ==> m in single && MonthName(m) != month;
      None
  }
}
