/**
 * pages/Reports.tsx: the report cards (revenue, outstanding, average invoice, success
 * rate), the six-month window, the status pie and the top five clients.
 */
module Reports {
  import opened Wrappers
  import opened Domain
  import opened Aggregate
  import Dashboard

  type MonthIndex = Dashboard.MonthIndex

  /** A month of a year, as `getMonth()` and `getFullYear()` report it. */
  datatype CalendarMonth = CalendarMonth(month: MonthIndex, year: int)

  /** The month after `c`. */
  function NextMonth(c: CalendarMonth): CalendarMonth {
    if c.month == 11 then CalendarMonth(0, c.year + 1) else CalendarMonth(c.month + 1, c.year)
  }

  /** The calendar month `i` months before now: `(currentMonth - i + 12) % 12`, a year back when that wraps. */
  function WindowMonth(currentMonth: MonthIndex, currentYear: int, i: nat): CalendarMonth
    requires i <= 5
  {
    CalendarMonth((currentMonth - i + 12) % 12, currentYear - (if currentMonth - i < 0 then 1 else 0))
  }

  /** The window ends with the current month and its six months are consecutive. */
  lemma WindowConsecutive(currentMonth: MonthIndex, currentYear: int)
    ensures WindowMonth(currentMonth, currentYear, 0) == CalendarMonth(currentMonth, currentYear)
    ensures forall i :: 1 <= i <= 5 ==> NextMonth(WindowMonth(currentMonth, currentYear, i)) == WindowMonth(currentMonth, currentYear, i - 1)
  {
  }

  datatype MonthlyPoint = MonthlyPoint(name: string, revenue: real, invoiced: real)

  /**
   * The date readers stand for `new Date(x)` followed by `getMonth()` and `getFullYear()`;
   * None is an invalid date, which matches no month.
   */
  function InvoiceIn(invoiceMonth: string -> Option<CalendarMonth>, c: CalendarMonth): Invoice -> bool {
    (inv: Invoice) => invoiceMonth(inv.data.date) == Some(c)
  }

  function PaymentIn(paymentMonth: int -> Option<CalendarMonth>, c: CalendarMonth): Payment -> bool {
    (p: Payment) => paymentMonth(p.data.date) == Some(c)
  }

  /** One bar of the window: payments received and invoices issued in that month. */
  function MonthPoint(invoices: seq<Invoice>, payments: seq<Payment>, c: CalendarMonth,
                      invoiceMonth: string -> Option<CalendarMonth>, paymentMonth: int -> Option<CalendarMonth>): MonthlyPoint {
    MonthlyPoint(Dashboard.MONTH_NAMES[c.month],
                 Sum(Filter(payments, PaymentIn(paymentMonth, c)), PaymentAmount),
                 Sum(Filter(invoices, InvoiceIn(invoiceMonth, c)), InvoiceTotal))
  }

  /**
   * monthlyData: `for (let i = 5; i >= 0; i--)` pushes one point per month, oldest
   * first. The clock is read once, as `currentMonth` and `currentYear`.
   */
  method MonthlyData(invoices: seq<Invoice>, payments: seq<Payment>, currentMonth: MonthIndex, currentYear: int,
                     invoiceMonth: string -> Option<CalendarMonth>, paymentMonth: int -> Option<CalendarMonth>)
    returns (data: seq<MonthlyPoint>)
    ensures |data| == 6
    ensures forall k :: 0 <= k < 6 ==>
              data[k] == MonthPoint(invoices, payments, WindowMonth(currentMonth, currentYear, 5 - k), invoiceMonth, paymentMonth)
  {
    data := [];
    var i := 5;
    while i >= 0
      invariant -1 <= i <= 5
      invariant |data| == 5 - i
      invariant forall k :: 0 <= k < |data| ==>
                  data[k] == MonthPoint(invoices, payments, WindowMonth(currentMonth, currentYear, 5 - k), invoiceMonth, paymentMonth)
    {
      var m := (currentMonth - i + 12) % 12;
      var monthName := Dashboard.MONTH_NAMES[m];
      var year := currentYear - (if currentMonth - i < 0 then 1 else 0);
      var c := CalendarMonth(m, year);
      var monthInvoices := Filter(invoices, InvoiceIn(invoiceMonth, c));
      var monthPayments := Filter(payments, PaymentIn(paymentMonth, c));
      data := data + [MonthlyPoint(monthName, Sum(monthPayments, PaymentAmount), Sum(monthInvoices, InvoiceTotal))];
      i := i - 1;
    }
  }

  datatype StatusSlice = StatusSlice(name: string, value: nat, color: string)

  function HasStatus(s: InvoiceStatus): Invoice -> bool {
    (inv: Invoice) => inv.data.status == s
  }

  /** statusData: the Paid, Pending and Overdue counts, in that order, without the empty ones. */
  function StatusData(invoices: seq<Invoice>): seq<StatusSlice> {
    var slices := [StatusSlice("Paid", Count(invoices, HasStatus(InvoiceStatus.Paid)), "#10b981"),
                   StatusSlice("Pending", Count(invoices, HasStatus(InvoiceStatus.Pending)), "#f59e0b"),
                   StatusSlice("Overdue", Count(invoices, HasStatus(InvoiceStatus.Overdue)), "#ef4444")];
    Filter(slices, (d: StatusSlice) => d.value > 0)
  }

  /** The status a slice name stands for. */
  function SliceStatus(name: string): InvoiceStatus {
    if name == "Paid" then InvoiceStatus.Paid
    else if name == "Pending" then InvoiceStatus.Pending
    else InvoiceStatus.Overdue
  }

  /**
   * Every slice is non-empty and holds its status's count; a status has a slice exactly
   * when some invoice has it; drafts and sent invoices get none.
   */
  lemma StatusDataSpec(invoices: seq<Invoice>)
    ensures forall d :: d in StatusData(invoices) ==> d.value > 0 && d.name in {"Paid", "Pending", "Overdue"}
    ensures forall d :: d in StatusData(invoices) ==> d.value == Count(invoices, HasStatus(SliceStatus(d.name)))
    ensures (exists d :: d in StatusData(invoices) && d.name == "Paid") <==> Count(invoices, HasStatus(InvoiceStatus.Paid)) > 0
    ensures (exists d :: d in StatusData(invoices) && d.name == "Pending") <==> Count(invoices, HasStatus(InvoiceStatus.Pending)) > 0
    ensures (exists d :: d in StatusData(invoices) && d.name == "Overdue") <==> Count(invoices, HasStatus(InvoiceStatus.Overdue)) > 0
    ensures |StatusData(invoices)| <= 3
  {
    var slices := [StatusSlice("Paid", Count(invoices, HasStatus(InvoiceStatus.Paid)), "#10b981"),
                   StatusSlice("Pending", Count(invoices, HasStatus(InvoiceStatus.Pending)), "#f59e0b"),
                   StatusSlice("Overdue", Count(invoices, HasStatus(InvoiceStatus.Overdue)), "#ef4444")];
    forall d ensures d in StatusData(invoices) <==> d in slices && d.value > 0 {
      FilterMembers(slices, (d: StatusSlice) => d.value > 0, d);
    }
    if Count(invoices, HasStatus(InvoiceStatus.Paid)) > 0 {
      assert slices[0] in StatusData(invoices);
    }
    if Count(invoices, HasStatus(InvoiceStatus.Pending)) > 0 {
      assert slices[1] in StatusData(invoices);
    }
    if Count(invoices, HasStatus(InvoiceStatus.Overdue)) > 0 {
      assert slices[2] in StatusData(invoices);
    }
  }

  /**
   * The success rate card: the paid slice's value (0 when there is none) over
   * `invoices.length || 1`, as a percentage.
   */
  function SuccessRate(invoices: seq<Invoice>): real {
    var slices := StatusData(invoices);
    var paid := if |slices| > 0 && slices[0].name == "Paid" then slices[0].value else 0;
    paid as real / (if |invoices| == 0 then 1 else |invoices|) as real * 100.0
  }

  /** The rate is the paid share as a percentage: between 0 and 100, 0 with no invoices. */
  lemma SuccessRateSpec(invoices: seq<Invoice>)
    ensures 0.0 <= SuccessRate(invoices) <= 100.0
    ensures |invoices| == 0 ==> SuccessRate(invoices) == 0.0
    ensures SuccessRate(invoices) == Count(invoices, HasStatus(InvoiceStatus.Paid)) as real / (if |invoices| == 0 then 1 else |invoices|) as real * 100.0
  {
    PaidSliceIsPaidCount(invoices);
    ShareBounded(Count(invoices, HasStatus(InvoiceStatus.Paid)), |invoices|);
  }

  /** The card reads the paid count off the first slice, and the first slice is Paid whenever the count is non-zero. */
  lemma PaidSliceIsPaidCount(invoices: seq<Invoice>)
    ensures var slices := StatusData(invoices);
      (if |slices| > 0 && slices[0].name == "Paid" then slices[0].value else 0) == Count(invoices, HasStatus(InvoiceStatus.Paid))
  {
    var paid := Count(invoices, HasStatus(InvoiceStatus.Paid));
    var slices := [StatusSlice("Paid", paid, "#10b981"),
                   StatusSlice("Pending", Count(invoices, HasStatus(InvoiceStatus.Pending)), "#f59e0b"),
                   StatusSlice("Overdue", Count(invoices, HasStatus(InvoiceStatus.Overdue)), "#ef4444")];
    var keep := (d: StatusSlice) => d.value > 0;
    FilterAppend([slices[0]], slices[1..], keep);
    assert slices == [slices[0]] + slices[1..];
    assert [slices[0]][..0] == [];
    var rest := Filter(slices[1..], keep);
    forall d | d in rest ensures d.name != "Paid" {
      FilterMembers(slices[1..], keep, d);
    }
  }

  /** A part over its whole (or over 1 when the whole is empty) is a percentage between 0 and 100. */
  lemma ShareBounded(part: nat, whole: nat)
    requires part <= whole
    ensures 0.0 <= part as real / (if whole == 0 then 1 else whole) as real * 100.0 <= 100.0
    ensures whole == 0 ==> part as real / 1.0 * 100.0 == 0.0
  {
    if whole > 0 {
      assert part as real / whole as real <= 1.0;
    }
  }

  datatype RevenueEntry = RevenueEntry(name: string, revenue: real)

  /** What one client has paid: the payments carrying the client's name. */
  function ClientPaid(payments: seq<Payment>, clientName: string): real {
    Sum(Filter(payments, (p: Payment) => p.data.clientName == clientName), PaymentAmount)
  }

  function RevenueEntries(clients: seq<Client>, payments: seq<Payment>): (r: seq<RevenueEntry>)
    ensures |r| == |clients|
    ensures forall i :: 0 <= i < |r| ==> r[i] == RevenueEntry(clients[i].data.name, ClientPaid(payments, clients[i].data.name))
  {
    if clients == [] then []
    else [RevenueEntry(clients[0].data.name, ClientPaid(payments, clients[0].data.name))] + RevenueEntries(clients[1..], payments)
  }

  predicate SortedDescending(s: seq<RevenueEntry>) {
    forall i, j :: 0 <= i < j < |s| ==> s[i].revenue >= s[j].revenue
  }

  /** Places `x` after every entry earning at least as much, so entries that tie keep their order. */
  function Insert(sorted: seq<RevenueEntry>, x: RevenueEntry): seq<RevenueEntry> {
    if sorted == [] then [x]
    else if sorted[|sorted| - 1].revenue >= x.revenue then sorted + [x]
    else Insert(sorted[..|sorted| - 1], x) + [sorted[|sorted| - 1]]
  }

  /** `sort((a, b) => b.revenue - a.revenue)`, a stable sort, as insertion. */
  function SortByRevenue(s: seq<RevenueEntry>): seq<RevenueEntry> {
    if s == [] then [] else Insert(SortByRevenue(s[..|s| - 1]), s[|s| - 1])
  }

  /** Every entry earns at least `v`. */
  predicate AllAtLeast(s: seq<RevenueEntry>, v: real) {
    forall i :: 0 <= i < |s| ==> s[i].revenue >= v
  }

  lemma {:induction false} InsertKeepsBound(sorted: seq<RevenueEntry>, x: RevenueEntry, v: real)
    requires AllAtLeast(sorted, v) && x.revenue >= v
    ensures AllAtLeast(Insert(sorted, x), v)
    decreases |sorted|
  {
    if sorted != [] && sorted[|sorted| - 1].revenue < x.revenue {
      InsertKeepsBound(sorted[..|sorted| - 1], x, v);
    }
  }

  lemma {:induction false} InsertSorted(sorted: seq<RevenueEntry>, x: RevenueEntry)
    requires SortedDescending(sorted)
    ensures SortedDescending(Insert(sorted, x))
    decreases |sorted|
  {
    if sorted != [] {
      var init, last := sorted[..|sorted| - 1], sorted[|sorted| - 1];
      if last.revenue < x.revenue {
        InsertSorted(init, x);
        InsertKeepsBound(init, x, last.revenue);
      }
    }
  }

  lemma {:induction false} InsertPermutes(sorted: seq<RevenueEntry>, x: RevenueEntry)
    ensures multiset(Insert(sorted, x)) == multiset(sorted) + multiset{x}
    decreases |sorted|
  {
    if sorted != [] && sorted[|sorted| - 1].revenue < x.revenue {
      var init, last := sorted[..|sorted| - 1], sorted[|sorted| - 1];
      InsertPermutes(init, x);
      assert sorted == init + [last];
    }
  }

  /** The sort puts the highest revenue first. */
  lemma {:induction false} SortByRevenueSorted(s: seq<RevenueEntry>)
    ensures SortedDescending(SortByRevenue(s))
  {
    if s != [] {
      SortByRevenueSorted(s[..|s| - 1]);
      InsertSorted(SortByRevenue(s[..|s| - 1]), s[|s| - 1]);
    }
  }

  /** The sort neither adds nor drops an entry. */
  lemma {:induction false} SortByRevenuePermutes(s: seq<RevenueEntry>)
    ensures multiset(SortByRevenue(s)) == multiset(s)
  {
    if s != [] {
      var init, last := s[..|s| - 1], s[|s| - 1];
      var sortedInit := SortByRevenue(init);
      assert SortByRevenue(s) == Insert(sortedInit, last);
      SortByRevenuePermutes(init);
      InsertPermutes(sortedInit, last);
      SnocMultiset(s);
    }
  }

  lemma SnocMultiset(s: seq<RevenueEntry>)
    requires s != []
    ensures multiset(s) == multiset(s[..|s| - 1]) + multiset{s[|s| - 1]}
  {
    assert s == s[..|s| - 1] + [s[|s| - 1]];
  }

  /** clientRevenue: each client's received payments, highest first, the first five. */
  function TopClients(clients: seq<Client>, payments: seq<Payment>): seq<RevenueEntry> {
    var sorted := SortByRevenue(RevenueEntries(clients, payments));
    if |sorted| <= 5 then sorted else sorted[..5]
  }

  /** The entries `slice(0, 5)` cuts off. */
  function Omitted(clients: seq<Client>, payments: seq<Payment>): seq<RevenueEntry> {
    var sorted := SortByRevenue(RevenueEntries(clients, payments));
    if |sorted| <= 5 then [] else sorted[5..]
  }

  /** At most five entries, highest first, and none omitted earns more than one kept. */
  lemma TopClientsRanked(clients: seq<Client>, payments: seq<Payment>)
    ensures |TopClients(clients, payments)| <= 5
    ensures SortedDescending(TopClients(clients, payments))
    ensures forall i, j :: 0 <= i < |TopClients(clients, payments)| && 0 <= j < |Omitted(clients, payments)| ==>
              Omitted(clients, payments)[j].revenue <= TopClients(clients, payments)[i].revenue
  {
    var sorted := SortByRevenue(RevenueEntries(clients, payments));
    SortByRevenueSorted(RevenueEntries(clients, payments));
    if |sorted| > 5 {
      forall i, j | 0 <= i < 5 && 0 <= j < |sorted| - 5 ensures sorted[5..][j].revenue <= sorted[..5][i].revenue {
        assert sorted[5..][j] == sorted[5 + j];
      }
    }
  }

  /** The kept and the omitted entries together are exactly the clients' totals. */
  lemma TopClientsPartition(clients: seq<Client>, payments: seq<Payment>)
    ensures multiset(TopClients(clients, payments)) + multiset(Omitted(clients, payments)) == multiset(RevenueEntries(clients, payments))
  {
    var entries := RevenueEntries(clients, payments);
    SortByRevenuePermutes(entries);
    SplitAtFive(SortByRevenue(entries));
  }

  lemma SplitAtFive(s: seq<RevenueEntry>)
    ensures multiset(if |s| <= 5 then s else s[..5]) + multiset(if |s| <= 5 then [] else s[5..]) == multiset(s)
  {
    if |s| > 5 {
      assert s == s[..5] + s[5..];
    }
  }

  datatype Report = Report(
    totalEarned: real, totalInvoiced: real, outstanding: real, avgInvoice: real,
    monthlyData: seq<MonthlyPoint>, statusData: seq<StatusSlice>, clientRevenue: seq<RevenueEntry>)

  /** The average invoice card: the invoiced total over the count, 0 when there are none. */
  function AverageInvoice(invoices: seq<Invoice>): real {
    if |invoices| > 0 then Sum(invoices, InvoiceTotal) / |invoices| as real else 0.0
  }

  /** The average times the count is the invoiced total, and no invoices average to 0. */
  lemma AverageInvoiceSpec(invoices: seq<Invoice>)
    ensures AverageInvoice(invoices) * |invoices| as real == Sum(invoices, InvoiceTotal)
    ensures |invoices| == 0 ==> AverageInvoice(invoices) == 0.0
  {
  }

  /**
   * stats: nothing while either list is missing; otherwise the totals, the outstanding
   * balance as invoiced minus received, and the charts.
   */
  method ComputeReport(invoices: Option<seq<Invoice>>, payments: Option<seq<Payment>>, clients: seq<Client>,
                       currentMonth: MonthIndex, currentYear: int,
                       invoiceMonth: string -> Option<CalendarMonth>, paymentMonth: int -> Option<CalendarMonth>)
    returns (r: Option<Report>)
    ensures r.None? <==> invoices.None? || payments.None?
    ensures r.Some? ==>
              && r.value.totalEarned == Sum(payments.value, PaymentAmount)
              && r.value.totalInvoiced == Sum(invoices.value, InvoiceTotal)
              && r.value.outstanding == r.value.totalInvoiced - r.value.totalEarned
              && r.value.avgInvoice == AverageInvoice(invoices.value)
              && |r.value.monthlyData| == 6
              && (forall k :: 0 <= k < 6 ==>
                    r.value.monthlyData[k] == MonthPoint(invoices.value, payments.value, WindowMonth(currentMonth, currentYear, 5 - k), invoiceMonth, paymentMonth))
              && r.value.statusData == StatusData(invoices.value)
              && r.value.clientRevenue == TopClients(clients, payments.value)
  {
    if invoices.None? || payments.None? {
      return None;
    }
    var inv, pay := invoices.value, payments.value;
    var totalEarned := Sum(pay, PaymentAmount);
    var totalInvoiced := Sum(inv, InvoiceTotal);
    var monthly := MonthlyData(inv, pay, currentMonth, currentYear, invoiceMonth, paymentMonth);
    r := Some(Report(totalEarned, totalInvoiced, totalInvoiced - totalEarned, AverageInvoice(inv),
                     monthly, StatusData(inv), TopClients(clients, pay)));
  }
}
