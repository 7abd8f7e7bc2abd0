/**
 * pages/Dashboard.tsx: the overview cards, the revenue-by-month chart and the five
 * most recent invoices.
 */
module Dashboard {
  import opened Wrappers
  import opened Domain
  import opened Aggregate
  import opened DocStore
  import InvoiceService
  import InvoicesPage

  /** `Date.prototype.getMonth()`: 0 for January to 11 for December. */
  type MonthIndex = m: int | 0 <= m < 12

  const MONTH_NAMES: seq<string> := ["Jan", "Feb", "Mar", "Apr", "May", "Jun", "Jul", "Aug", "Sep", "Oct", "Nov", "Dec"]

  datatype ChartPoint = ChartPoint(name: string, revenue: real)

  datatype Stats = Stats(totalRevenue: real, totalInvoices: nat, totalClients: nat, pendingValue: real)

  /** The four overview cards. */
  function ComputeStats(invoices: seq<Invoice>, clients: seq<Client>): Stats {
    Stats(Sum(Filter(invoices, IsPaid), InvoiceTotal), |invoices|, |clients|,
          Sum(Filter(invoices, IsOutstanding), InvoiceTotal))
  }

  /** The overview's revenue and pending cards show the same amounts as the invoice list's paid and outstanding cards. */
  lemma StatsAgreeWithInvoiceList(invoices: seq<Invoice>, clients: seq<Client>)
    ensures ComputeStats(invoices, clients).totalRevenue == InvoicesPage.ComputeStats(invoices).recentPaid
    ensures ComputeStats(invoices, clients).pendingValue == InvoicesPage.ComputeStats(invoices).totalOutstanding
  {
  }

  /**
   * A paid invoice with a non-empty date that `monthOf` can read lands in that month's
   * bucket. `monthOf` stands for `new Date(s)`, the NaN test and `getMonth()`.
   */
  function InMonth(monthOf: string -> Option<MonthIndex>, m: MonthIndex): Invoice -> bool {
    (inv: Invoice) => IsPaid(inv) && inv.data.date != "" && monthOf(inv.data.date) == Some(m)
  }

  /** The chart value for month `m`: the totals of the paid invoices dated in that month. */
  function MonthRevenue(invoices: seq<Invoice>, monthOf: string -> Option<MonthIndex>, m: MonthIndex): real {
    Sum(Filter(invoices, InMonth(monthOf, m)), InvoiceTotal)
  }

  lemma MonthRevenueStep(invoices: seq<Invoice>, i: nat, monthOf: string -> Option<MonthIndex>, m: MonthIndex)
    requires i < |invoices|
    ensures MonthRevenue(invoices[..i + 1], monthOf, m)
            == MonthRevenue(invoices[..i], monthOf, m) + (if InMonth(monthOf, m)(invoices[i]) then invoices[i].data.total else 0.0)
  {
    var p := InMonth(monthOf, m);
    var s := invoices[..i + 1];
    assert s[..|s| - 1] == invoices[..i] && s[|s| - 1] == invoices[i];
    assert Filter(s, p) == Filter(invoices[..i], p) + (if p(invoices[i]) then [invoices[i]] else []);
    SumAppend(Filter(invoices[..i], p), if p(invoices[i]) then [invoices[i]] else [], InvoiceTotal);
    assert [invoices[i]][..0] == [];
  }

  /** After the first `i` invoices, every bucket holds its month's name and the revenue seen so far. */
  ghost predicate BucketsAfter(data: seq<ChartPoint>, invoices: seq<Invoice>, monthOf: string -> Option<MonthIndex>, i: nat)
    requires i <= |invoices|
  {
    |data| == 12 && forall m: MonthIndex :: data[m] == ChartPoint(MONTH_NAMES[m], MonthRevenue(invoices[..i], monthOf, m))
  }

  /** Before the pass, every bucket is named and empty. */
  lemma BucketsStart(data: seq<ChartPoint>, invoices: seq<Invoice>, monthOf: string -> Option<MonthIndex>)
    requires |data| == 12 && forall m: MonthIndex :: data[m] == ChartPoint(MONTH_NAMES[m], 0.0)
    ensures BucketsAfter(data, invoices, monthOf, 0)
  {
    assert invoices[..0] == [];
  }

  lemma BucketsEnd(data: seq<ChartPoint>, invoices: seq<Invoice>, monthOf: string -> Option<MonthIndex>)
    requires BucketsAfter(data, invoices, monthOf, |invoices|)
    ensures forall m: MonthIndex :: data[m] == ChartPoint(MONTH_NAMES[m], MonthRevenue(invoices, monthOf, m))
  {
    assert invoices[..|invoices|] == invoices;
  }

  /** One loop step: the invoice's total goes into its month's bucket, if the chart places it at all. */
  lemma BucketsStep(data: seq<ChartPoint>, invoices: seq<Invoice>, monthOf: string -> Option<MonthIndex>, i: nat)
    requires i < |invoices| && BucketsAfter(data, invoices, monthOf, i)
    ensures var inv := invoices[i];
      if IsPaid(inv) && inv.data.date != "" && monthOf(inv.data.date).Some? then
        var month := monthOf(inv.data.date).value;
        BucketsAfter(data[month := data[month].(revenue := data[month].revenue + inv.data.total)], invoices, monthOf, i + 1)
      else BucketsAfter(data, invoices, monthOf, i + 1)
  {
    forall m: MonthIndex {
      MonthRevenueStep(invoices, i, monthOf, m);
    }
  }

  /** chartData: twelve named buckets filled by one pass over the invoices. */
  method ChartData(invoices: seq<Invoice>, monthOf: string -> Option<MonthIndex>) returns (data: array<ChartPoint>)
    ensures fresh(data) && data.Length == 12
    ensures forall m: MonthIndex :: data[m] == ChartPoint(MONTH_NAMES[m], MonthRevenue(invoices, monthOf, m))
  {
    data := new ChartPoint[12](m requires 0 <= m < 12 => ChartPoint(MONTH_NAMES[m], 0.0));
    BucketsStart(data[..], invoices, monthOf);
    var i := 0;
    while i < |invoices|
      invariant 0 <= i <= |invoices|
      invariant BucketsAfter(data[..], invoices, monthOf, i)
    {
      AddToBucket(data, invoices, monthOf, i);
      i := i + 1;
    }
    BucketsEnd(data[..], invoices, monthOf);
  }

  /** The body of the `forEach`: a charted invoice's total is added to its month's bucket. */
  method AddToBucket(data: array<ChartPoint>, invoices: seq<Invoice>, monthOf: string -> Option<MonthIndex>, i: nat)
    requires i < |invoices| && BucketsAfter(data[..], invoices, monthOf, i)
    modifies data
    ensures BucketsAfter(data[..], invoices, monthOf, i + 1)
  {
    BucketsStep(data[..], invoices, monthOf, i);
    var inv := invoices[i];
    if inv.data.status == InvoiceStatus.Paid && inv.data.date != "" {
      var parsed := monthOf(inv.data.date);
      if parsed.Some? {
        var month := parsed.value;
        ghost var before := data[..];
        data[month] := data[month].(revenue := data[month].revenue + inv.data.total);
        assert data[..] == before[month := before[month].(revenue := before[month].revenue + inv.data.total)];
      }
    }
  }

  /** A paid invoice the chart can place in one of the first `k` months. */
  function ChartedBefore(monthOf: string -> Option<MonthIndex>, k: nat): Invoice -> bool {
    (inv: Invoice) => IsPaid(inv) && inv.data.date != "" && monthOf(inv.data.date).Some? && monthOf(inv.data.date).value < k
  }

  /** The sum of the first `k` buckets. */
  function MonthsTotal(invoices: seq<Invoice>, monthOf: string -> Option<MonthIndex>, k: nat): real
    requires k <= 12
  {
    if k == 0 then 0.0 else MonthsTotal(invoices, monthOf, k - 1) + MonthRevenue(invoices, monthOf, k - 1)
  }

  /** The paid invoices placed before month `k + 1` are those placed before month `k` and those placed in month `k`. */
  lemma ChartedSplit(invoices: seq<Invoice>, monthOf: string -> Option<MonthIndex>, k: MonthIndex)
    ensures Sum(Filter(invoices, ChartedBefore(monthOf, k + 1)), InvoiceTotal)
            == Sum(Filter(invoices, ChartedBefore(monthOf, k)), InvoiceTotal) + MonthRevenue(invoices, monthOf, k)
  {
    var upTo, below := ChartedBefore(monthOf, k + 1), ChartedBefore(monthOf, k);
    var notBelow := (inv: Invoice) => !below(inv);
    SumPartition(Filter(invoices, upTo), InvoiceTotal, below, notBelow);
    FilterFilter(invoices, upTo, below, below);
    FilterFilter(invoices, upTo, notBelow, InMonth(monthOf, k));
  }

  lemma NothingChartedBeforeJanuary(invoices: seq<Invoice>, monthOf: string -> Option<MonthIndex>)
    ensures Sum(Filter(invoices, ChartedBefore(monthOf, 0)), InvoiceTotal) == 0.0
  {
    forall inv: Invoice ensures !ChartedBefore(monthOf, 0)(inv) {
      var parsed := monthOf(inv.data.date);
      assert parsed.Some? ==> parsed.value >= 0;
    }
    FilterNone(invoices, ChartedBefore(monthOf, 0));
  }

  /** The first `k` buckets hold exactly the paid invoices dated in those months, each counted once. */
  lemma {:induction false} MonthsTotalSpec(invoices: seq<Invoice>, monthOf: string -> Option<MonthIndex>, k: nat)
    requires k <= 12
    ensures MonthsTotal(invoices, monthOf, k) == Sum(Filter(invoices, ChartedBefore(monthOf, k)), InvoiceTotal)
  {
    if k == 0 {
      NothingChartedBeforeJanuary(invoices, monthOf);
    } else {
      var j: MonthIndex := k - 1;
      assert MonthsTotal(invoices, monthOf, k) == MonthsTotal(invoices, monthOf, j) + MonthRevenue(invoices, monthOf, j);
      MonthsTotalSpec(invoices, monthOf, j);
      ChartedSplit(invoices, monthOf, j);
      assert ChartedBefore(monthOf, j + 1) == ChartedBefore(monthOf, k);
    }
  }

  /** When every paid invoice has a readable date, the twelve buckets add up to the revenue card. */
  lemma ChartCoversRevenue(invoices: seq<Invoice>, clients: seq<Client>, monthOf: string -> Option<MonthIndex>)
    requires forall inv :: inv in invoices && IsPaid(inv) ==> inv.data.date != "" && monthOf(inv.data.date).Some?
    ensures MonthsTotal(invoices, monthOf, 12) == ComputeStats(invoices, clients).totalRevenue
  {
    MonthsTotalSpec(invoices, monthOf, 12);
    FilterSame(invoices, ChartedBefore(monthOf, 12), IsPaid);
  }

  /** `invoices.slice(0, 5)`: the first five rows, or all of them when there are fewer. */
  function RecentInvoices(invoices: seq<Invoice>): (r: seq<Invoice>)
    ensures |r| == if |invoices| < 5 then |invoices| else 5
    ensures r == invoices[..|r|]
  {
    if |invoices| <= 5 then invoices else invoices[..5]
  }

  /** Over the newest-first listing, no invoice left off the recent list was created after one on it. */
  lemma RecentAreNewest(m: map<string, InvoiceData>, listing: seq<Invoice>)
    requires OrderedListing(m, InvoiceService.CreatedAt, listing)
    ensures forall i, j :: 0 <= i < |RecentInvoices(listing)| <= j < |listing| ==>
              listing[j].data.createdAt.value <= RecentInvoices(listing)[i].data.createdAt.value
  {
  }
}
