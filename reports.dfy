/** `ReportController`: the dashboard detail view, the filterable summary and
    the spreadsheet export, over a company's joined payables. */
module Reports {
  import opened Tenancy
  import opened Calendar
  import opened Sequences
  import opened Store
  import opened Aggregation
  import Payables

  lemma RowsOfPrefix(js: seq<Joined>, i: int)
    requires 0 <= i < |js|
    ensures RowsOf(js[..i + 1]) == RowsOf(js[..i]) + [js[i].row]
    ensures (RowsOf(js[..i]) + [js[i].row])[..i] == RowsOf(js[..i])
  {
  }

  /** Extending the rows by one row adds that row's amount to each window sum it falls in. */
  lemma WindowStep(js: seq<Joined>, i: int, lo: Date, hi: Date)
    requires 0 <= i < |js|
    ensures var p := js[i].row;
      var inside := InWindow(p.dueDate, lo, hi);
      && DueWithinAmount(RowsOf(js[..i + 1]), lo, hi)
         == DueWithinAmount(RowsOf(js[..i]), lo, hi) + (if inside then p.amount else 0)
      && PaidDueWithinAmount(RowsOf(js[..i + 1]), lo, hi)
         == PaidDueWithinAmount(RowsOf(js[..i]), lo, hi) + (if inside && IsPaid(p) then p.amount else 0)
      && UnpaidDueWithinAmount(RowsOf(js[..i + 1]), lo, hi)
         == UnpaidDueWithinAmount(RowsOf(js[..i]), lo, hi) + (if inside && !IsPaid(p) then p.amount else 0)
  {
    RowsOfPrefix(js, i);
  }

  lemma TallyStep(js: seq<Joined>, i: int, key: Joined -> string)
    requires 0 <= i < |js|
    ensures GroupTallies(js[..i + 1], key)
         == Credit(GroupTallies(js[..i], key), key(js[i]), js[i].row.amount, IsPaid(js[i].row))
  {
    assert js[..i + 1][..i] == js[..i];
  }

  // ------------------------------------------------- dashboardDetailedStats

  datatype Window = Window(paid: int, payable: int, total: int)

  /** Next month carries no paid figure. */
  datatype NextWindow = NextWindow(payable: int, total: int)

  datatype Detail = Detail(byUnit: seq<Entry>, byCategory: seq<Entry>, currentMonth: Window, nextMonth: NextWindow)

  const EmptyDetail: Detail := Detail([], [], Window(0, 0, 0), NextWindow(0, 0))

  /** What the detail view reports for the rows `js` on the day `today`. */
  function DetailOf(js: seq<Joined>, today: Date): Detail {
    var cur := MonthOf(today);
    var nxt := NextMonth(cur);
    var rows := RowsOf(js);
    Detail(
      ToEntries(GroupTallies(js, UnitLabel)),
      ToEntries(GroupTallies(js, CategoryLabel)),
      Window(PaidDueWithinAmount(rows, FirstDay(cur), LastDay(cur)),
             UnpaidDueWithinAmount(rows, FirstDay(cur), LastDay(cur)),
             DueWithinAmount(rows, FirstDay(cur), LastDay(cur))),
      NextWindow(UnpaidDueWithinAmount(rows, FirstDay(nxt), LastDay(nxt)),
                 DueWithinAmount(rows, FirstDay(nxt), LastDay(nxt))))
  }

  /** Adds a row to the current-month figures when it is due that month:
      to `total`, and to `paid` or `payable` by whether it is paid. */
  function CountInMonth(w: Window, p: Payable, lo: Date, hi: Date): Window {
    if !InWindow(p.dueDate, lo, hi) then w
    else if IsPaid(p) then Window(w.paid + p.amount, w.payable, w.total + p.amount)
    else Window(w.paid, w.payable + p.amount, w.total + p.amount)
  }

  /** Adds a row to the next-month figures when it is due that month: to
      `total`, and to `payable` only when unpaid. */
  function CountInNextMonth(w: NextWindow, p: Payable, lo: Date, hi: Date): NextWindow {
    if !InWindow(p.dueDate, lo, hi) then w
    else if IsPaid(p) then NextWindow(w.payable, w.total + p.amount)
    else NextWindow(w.payable + p.amount, w.total + p.amount)
  }

  /** The `forEach` of `dashboardDetailedStats`: one pass that credits each
      row to its unit, its category and the month windows it falls in. */
  method Detailed(js: seq<Joined>, today: Date) returns (d: Detail)
    ensures d == DetailOf(js, today)
  {
    var cur := MonthOf(today);
    var nxt := NextMonth(cur);
    var lo, hi := FirstDay(cur), LastDay(cur);
    var nlo, nhi := FirstDay(nxt), LastDay(nxt);
    var byUnit: seq<Tally> := [];
    var byCategory: seq<Tally> := [];
    var month := Window(0, 0, 0);
    var next := NextWindow(0, 0);
    var i := 0;
    while i < |js|
      invariant 0 <= i <= |js|
      invariant byUnit == GroupTallies(js[..i], UnitLabel)
      invariant byCategory == GroupTallies(js[..i], CategoryLabel)
      invariant month == Window(PaidDueWithinAmount(RowsOf(js[..i]), lo, hi),
                                UnpaidDueWithinAmount(RowsOf(js[..i]), lo, hi),
                                DueWithinAmount(RowsOf(js[..i]), lo, hi))
      invariant next == NextWindow(UnpaidDueWithinAmount(RowsOf(js[..i]), nlo, nhi),
                                   DueWithinAmount(RowsOf(js[..i]), nlo, nhi))
    {
      var p := js[i];
      var amount := p.row.amount;
      var isPaid := IsPaid(p.row);
      TallyStep(js, i, UnitLabel);
      TallyStep(js, i, CategoryLabel);
      WindowStep(js, i, lo, hi);
      WindowStep(js, i, nlo, nhi);
      byUnit := Credit(byUnit, UnitLabel(p), amount, isPaid);
      byCategory := Credit(byCategory, CategoryLabel(p), amount, isPaid);
      month := CountInMonth(month, p.row, lo, hi);
      next := CountInNextMonth(next, p.row, nlo, nhi);
      i := i + 1;
    }
    assert js[..i] == js;
    d := Detail(ToEntries(byUnit), ToEntries(byCategory), month, next);
  }

  /** Both groupings account for every amount exactly once. */
  lemma DetailGroupsConserve(js: seq<Joined>, today: Date)
    ensures EntryTotal(DetailOf(js, today).byUnit) == TotalAmount(RowsOf(js))
    ensures EntryTotal(DetailOf(js, today).byCategory) == TotalAmount(RowsOf(js))
  {
    GroupedEntriesTotal(js, UnitLabel);
    GroupedEntriesTotal(js, CategoryLabel);
  }

  /** Each unit and category entry holds exactly the paid, unpaid and total
      sums of the rows filed under its name. */
  lemma DetailGroupsByKey(js: seq<Joined>, today: Date)
    ensures forall e :: e in DetailOf(js, today).byUnit ==>
      && e.paid == PaidAmount(GroupRows(js, UnitLabel, e.name))
      && e.payable == OpenAmount(GroupRows(js, UnitLabel, e.name))
      && e.total == TotalAmount(GroupRows(js, UnitLabel, e.name))
    ensures forall e :: e in DetailOf(js, today).byCategory ==>
      && e.paid == PaidAmount(GroupRows(js, CategoryLabel, e.name))
      && e.payable == OpenAmount(GroupRows(js, CategoryLabel, e.name))
      && e.total == TotalAmount(GroupRows(js, CategoryLabel, e.name))
  {
    forall e | e in DetailOf(js, today).byUnit
      ensures e.paid == PaidAmount(GroupRows(js, UnitLabel, e.name))
      ensures e.payable == OpenAmount(GroupRows(js, UnitLabel, e.name))
      ensures e.total == TotalAmount(GroupRows(js, UnitLabel, e.name))
    {
      GroupEntryByKey(js, UnitLabel, e);
    }
    forall e | e in DetailOf(js, today).byCategory
      ensures e.paid == PaidAmount(GroupRows(js, CategoryLabel, e.name))
      ensures e.payable == OpenAmount(GroupRows(js, CategoryLabel, e.name))
      ensures e.total == TotalAmount(GroupRows(js, CategoryLabel, e.name))
    {
      GroupEntryByKey(js, CategoryLabel, e);
    }
  }

  /** One entry per unit label and per category label; a row with no unit
      (no category) is counted in the `Sem Unidade` (`Sem Categoria`) entry,
      which holds the paid and unpaid sums of exactly the rows so labelled. */
  lemma DetailGroupNames(js: seq<Joined>, j: Joined)
    requires j in js
    ensures j.unit == "" ==> "Sem Unidade" in TallyNames(GroupTallies(js, UnitLabel))
    ensures j.unit == "" ==> j.row in GroupRows(js, UnitLabel, "Sem Unidade")
    ensures forall t :: t in GroupTallies(js, UnitLabel) && t.name == "Sem Unidade" ==>
      t.paid == PaidAmount(GroupRows(js, UnitLabel, "Sem Unidade"))
      && t.payable == OpenAmount(GroupRows(js, UnitLabel, "Sem Unidade"))
    ensures j.category == "" ==> "Sem Categoria" in TallyNames(GroupTallies(js, CategoryLabel))
    ensures j.category == "" ==> j.row in GroupRows(js, CategoryLabel, "Sem Categoria")
    ensures forall t :: t in GroupTallies(js, CategoryLabel) && t.name == "Sem Categoria" ==>
      t.paid == PaidAmount(GroupRows(js, CategoryLabel, "Sem Categoria"))
      && t.payable == OpenAmount(GroupRows(js, CategoryLabel, "Sem Categoria"))
    ensures DistinctNames(GroupTallies(js, UnitLabel)) && DistinctNames(GroupTallies(js, CategoryLabel))
  {
    GroupTalliesNames(js, UnitLabel);
    GroupTalliesNames(js, CategoryLabel);
    LabelledRow(js, UnitLabel, j);
    LabelledRow(js, CategoryLabel, j);
    forall t | t in GroupTallies(js, UnitLabel)
      ensures t.paid == PaidAmount(GroupRows(js, UnitLabel, t.name))
      ensures t.payable == OpenAmount(GroupRows(js, UnitLabel, t.name))
    {
      GroupTalliesByKey(js, UnitLabel, t);
    }
    forall t | t in GroupTallies(js, CategoryLabel)
      ensures t.paid == PaidAmount(GroupRows(js, CategoryLabel, t.name))
      ensures t.payable == OpenAmount(GroupRows(js, CategoryLabel, t.name))
    {
      GroupTalliesByKey(js, CategoryLabel, t);
    }
  }

  /** A row is among the rows filed under its own key. */
  lemma LabelledRow(js: seq<Joined>, key: Joined -> string, j: Joined)
    requires j in js
    ensures j.row in GroupRows(js, key, key(j))
  {
    var f := Filter(js, KeyIs(key, key(j)));
    assert j in f;
    var k :| 0 <= k < |f| && f[k] == j;
    assert RowsOf(f)[k] == j.row;
  }

  /** The current-month window splits into paid and payable; the next
      month's payable part is within its total when no amount is negative. */
  lemma DetailWindows(js: seq<Joined>, today: Date)
    requires forall i :: 0 <= i < |js| ==> js[i].row.amount >= 0
    ensures DetailOf(js, today).currentMonth.total
         == DetailOf(js, today).currentMonth.paid + DetailOf(js, today).currentMonth.payable
    ensures 0 <= DetailOf(js, today).nextMonth.payable <= DetailOf(js, today).nextMonth.total
  {
    var rows := RowsOf(js);
    var cur := MonthOf(today);
    var nxt := NextMonth(cur);
    WindowPaidPlusUnpaid(rows, FirstDay(cur), LastDay(cur));
    SumWhereMonotone(rows, (p: Payable) => !IsPaid(p) && InWindow(p.dueDate, FirstDay(nxt), LastDay(nxt)),
                     (p: Payable) => InWindow(p.dueDate, FirstDay(nxt), LastDay(nxt)));
    SumWhereMonotone(rows, (p: Payable) => false,
                     (p: Payable) => !IsPaid(p) && InWindow(p.dueDate, FirstDay(nxt), LastDay(nxt)));
    SumWhereNone(rows, (p: Payable) => false);
  }

  /** The detail view's current month and the payables stats' expected
      total for the month agree on the same company and day. */
  lemma CurrentMonthReconciles(db: Database, c: Uuid, today: Date)
    ensures DetailOf(JoinedOf(db.JoinedPayables(), c), today).currentMonth.total
         == Payables.StatsOf(PayablesOf(db.accountsPayable, c), today).totalMonthExpected
  {
    JoinedOfRows(db.JoinedPayables(), c);
  }

  /** `dashboardDetailedStats`: empty figures without a context or a
      company (never 403), otherwise the company's detail view. */
  method DashboardDetailedStats(db: Database, uid: Uuid, today: Date) returns (d: Detail)
    ensures var ctx := LookupContext(db.users, uid);
      && (ctx.None? || ctx.value.companyId.None? ==> d == EmptyDetail)
      && (ctx.Some? && ctx.value.companyId.Some? ==> d == DetailOf(JoinedOf(db.JoinedPayables(), ctx.value.companyId.value), today))
  {
    var ctx := LookupContext(db.users, uid);
    if ctx.None? || ctx.value.companyId.None? {
      return EmptyDetail;
    }
    d := Detailed(JoinedOf(db.JoinedPayables(), ctx.value.companyId.value), today);
  }

  // --------------------------------------------------------- report query

  /** Which column the date filters apply to. */
  datatype Column = DueDateColumn | CreatedAtColumn

  /** `created_at` only for exactly `dateType === 'created_at'`. */
  function FilterColumn(dateType: string): (col: Column)
    ensures col == CreatedAtColumn <==> dateType == "created_at"
  {
    if dateType == "created_at" then CreatedAtColumn else DueDateColumn
  }

  /** The query string of `payablesSummary` and `exportXls`. `companyId` is
      read and never used. */
  datatype ReportQuery = ReportQuery(
    startDate: Option<Date>, endDate: Option<Date>, month: Option<Month>,
    categoryId: Option<Uuid>, unitId: Option<Uuid>, companyId: Option<Uuid>,
    dateType: string)

  /** The filtered column as an instant; a `date` compares as its midnight. */
  function ColumnValue(col: Column, p: Payable): Instant {
    if col == CreatedAtColumn then p.createdAt else Midnight(p.dueDate)
  }

  /** Upper bound of the `month` filter: the last day, widened to
      `T23:59:59` on `created_at`. */
  function MonthUpper(col: Column, m: Month): Instant {
    if col == CreatedAtColumn then EndOfDayBound(LastDay(m)) else Midnight(LastDay(m))
  }

  predicate MatchesQuery(q: ReportQuery, p: Payable) {
    var col := FilterColumn(q.dateType);
    var v := ColumnValue(col, p);
    && (q.startDate.Some? ==> InstantAtOrBefore(Midnight(q.startDate.value), v))
    && (q.endDate.Some? ==> InstantAtOrBefore(v, Midnight(q.endDate.value)))
    && (q.month.Some? ==>
          InstantAtOrBefore(Midnight(FirstDay(q.month.value)), v) && InstantAtOrBefore(v, MonthUpper(col, q.month.value)))
    && (q.categoryId.Some? ==> p.categoryId == q.categoryId)
    && (q.unitId.Some? ==> p.unitId == q.unitId)
  }

  /** The company's rows that pass every filter of the query. */
  function Selected(js: seq<Joined>, c: Uuid, q: ReportQuery): seq<Joined> {
    Filter(js, Selector(c, q))
  }

  function Selector(c: Uuid, q: ReportQuery): Joined -> bool {
    (j: Joined) => j.row.companyId == c && MatchesQuery(q, j.row)
  }

  /** The `companyId` query parameter changes nothing. */
  lemma CompanyIdIgnored(js: seq<Joined>, c: Uuid, q: ReportQuery, other: Option<Uuid>)
    ensures Selected(js, c, q.(companyId := other)) == Selected(js, c, q)
  {
    FilterSame(js, Selector(c, q.(companyId := other)), Selector(c, q));
  }

  /** On `due_date` the start and end dates are inclusive bounds on the date. */
  lemma DueDateBoundsInclusive(q: ReportQuery, p: Payable)
    requires FilterColumn(q.dateType) == DueDateColumn && q.month.None? && q.categoryId.None? && q.unitId.None?
    ensures MatchesQuery(q, p) <==>
      (q.startDate.Some? ==> AtOrBefore(q.startDate.value, p.dueDate))
      && (q.endDate.Some? ==> AtOrBefore(p.dueDate, q.endDate.value))
  {
  }

  /** On `due_date` the month filter keeps exactly the bills due that month. */
  lemma MonthFilterOnDueDate(q: ReportQuery, p: Payable)
    requires FilterColumn(q.dateType) == DueDateColumn && q.month.Some?
    requires q.startDate.None? && q.endDate.None? && q.categoryId.None? && q.unitId.None?
    ensures MatchesQuery(q, p) <==> MonthOf(p.dueDate) == q.month.value
  {
    MonthWindowExact(p.dueDate, q.month.value);
  }

  /** On `created_at` the widened month filter keeps the rows created that
      month up to 23:59:59.000000 of its last day; a row created later in
      that final second falls outside. */
  lemma MonthFilterOnCreatedAt(q: ReportQuery, p: Payable)
    requires FilterColumn(q.dateType) == CreatedAtColumn && q.month.Some?
    requires q.startDate.None? && q.endDate.None? && q.categoryId.None? && q.unitId.None?
    ensures MatchesQuery(q, p) <==>
      MonthOf(p.createdAt.date) == q.month.value
      && (p.createdAt.date == LastDay(q.month.value) ==> p.createdAt.micros <= LastWholeSecond)
  {
    MonthWindowExact(p.createdAt.date, q.month.value);
  }

  /** An `endDate` bound on `created_at` is that day's midnight: a row created
      later on the end date itself is left out. */
  lemma EndDateOnCreatedAtExcludesThatDay(q: ReportQuery, p: Payable)
    requires FilterColumn(q.dateType) == CreatedAtColumn && q.endDate.Some?
    requires p.createdAt.date == q.endDate.value && p.createdAt.micros > 0
    ensures !MatchesQuery(q, p)
  {
  }

  // ------------------------------------------------------ payablesSummary

  datatype StatusSplit = StatusSplit(paid: int, pending: int, overdue: int)

  datatype Summary = Summary(
    byCategory: seq<Bucket>, bySupplier: seq<Bucket>, byUnit: seq<Bucket>,
    byStatus: StatusSplit, total: int)

  /** What the summary reports for the selected rows on the day `today`. */
  function SummaryOf(js: seq<Joined>, today: Date): Summary {
    var rows := RowsOf(js);
    Summary(
      GroupBuckets(js, CategoryLabel),
      GroupBuckets(js, SupplierLabel),
      GroupBuckets(js, UnitLabel),
      StatusOfRows(rows, today),
      TotalAmount(rows))
  }

  /** `byStatus` after one more row: `paid` or `pending` by whether it is
      paid, and `overdue` too when unpaid and due before today. */
  function CountStatus(st: StatusSplit, p: Payable, today: Date): StatusSplit {
    if IsPaid(p) then st.(paid := st.paid + p.amount)
    else if Before(p.dueDate, today) then StatusSplit(st.paid, st.pending + p.amount, st.overdue + p.amount)
    else st.(pending := st.pending + p.amount)
  }

  function StatusOfRows(rows: seq<Payable>, today: Date): StatusSplit {
    StatusSplit(PaidAmount(rows), OpenAmount(rows), OverdueAmount(rows, today))
  }

  lemma StatusStep(js: seq<Joined>, i: int, today: Date)
    requires 0 <= i < |js|
    ensures StatusOfRows(RowsOf(js[..i + 1]), today) == CountStatus(StatusOfRows(RowsOf(js[..i]), today), js[i].row, today)
  {
    RowsOfPrefix(js, i);
  }

  lemma BucketStep(js: seq<Joined>, i: int, key: Joined -> string)
    requires 0 <= i < |js|
    ensures GroupBuckets(js[..i + 1], key) == AddTo(GroupBuckets(js[..i], key), key(js[i]), js[i].row.amount)
  {
    assert js[..i + 1][..i] == js[..i];
  }

  /** The `forEach` that fills the three charts and `byStatus`, then the
      `reduce` that computes `total`. */
  method Summarize(js: seq<Joined>, today: Date) returns (s: Summary)
    ensures s == SummaryOf(js, today)
  {
    var byCategory: seq<Bucket> := [];
    var bySupplier: seq<Bucket> := [];
    var byUnit: seq<Bucket> := [];
    var status := StatusSplit(0, 0, 0);
    var i := 0;
    while i < |js|
      invariant 0 <= i <= |js|
      invariant byCategory == GroupBuckets(js[..i], CategoryLabel)
      invariant bySupplier == GroupBuckets(js[..i], SupplierLabel)
      invariant byUnit == GroupBuckets(js[..i], UnitLabel)
      invariant status == StatusOfRows(RowsOf(js[..i]), today)
    {
      var p := js[i];
      var amount := p.row.amount;
      BucketStep(js, i, CategoryLabel);
      BucketStep(js, i, SupplierLabel);
      BucketStep(js, i, UnitLabel);
      StatusStep(js, i, today);
      byCategory := AddTo(byCategory, CategoryLabel(p), amount);
      bySupplier := AddTo(bySupplier, SupplierLabel(p), amount);
      byUnit := AddTo(byUnit, UnitLabel(p), amount);
      status := CountStatus(status, p.row, today);
      i := i + 1;
    }
    var total := 0;
    var k := 0;
    while k < |js|
      invariant 0 <= k <= |js|
      invariant total == TotalAmount(RowsOf(js[..k]))
    {
      RowsOfPrefix(js, k);
      total := total + js[k].row.amount;
      k := k + 1;
    }
    assert js[..i] == js;
    s := Summary(byCategory, bySupplier, byUnit, status, total);
  }

  /** Paid and pending partition the total; the three charts each add up to it. */
  lemma SummaryConserves(js: seq<Joined>, today: Date)
    ensures SummaryOf(js, today).byStatus.paid + SummaryOf(js, today).byStatus.pending == SummaryOf(js, today).total
    ensures ValueSum(SummaryOf(js, today).byCategory) == SummaryOf(js, today).total
    ensures ValueSum(SummaryOf(js, today).bySupplier) == SummaryOf(js, today).total
    ensures ValueSum(SummaryOf(js, today).byUnit) == SummaryOf(js, today).total
  {
    PaidPlusOpenIsTotal(RowsOf(js));
    GroupBucketsConserve(js, CategoryLabel);
    GroupBucketsConserve(js, SupplierLabel);
    GroupBucketsConserve(js, UnitLabel);
  }

  /** Each bar of the three charts is the total of exactly the rows whose
      category, supplier or unit label is its name. */
  lemma SummaryChartsByKey(js: seq<Joined>, today: Date)
    ensures forall b :: b in SummaryOf(js, today).byCategory ==> b.value == TotalAmount(GroupRows(js, CategoryLabel, b.name))
    ensures forall b :: b in SummaryOf(js, today).bySupplier ==> b.value == TotalAmount(GroupRows(js, SupplierLabel, b.name))
    ensures forall b :: b in SummaryOf(js, today).byUnit ==> b.value == TotalAmount(GroupRows(js, UnitLabel, b.name))
  {
    forall b | b in SummaryOf(js, today).byCategory ensures b.value == TotalAmount(GroupRows(js, CategoryLabel, b.name)) {
      GroupBucketsByKey(js, CategoryLabel, b);
    }
    forall b | b in SummaryOf(js, today).bySupplier ensures b.value == TotalAmount(GroupRows(js, SupplierLabel, b.name)) {
      GroupBucketsByKey(js, SupplierLabel, b);
    }
    forall b | b in SummaryOf(js, today).byUnit ensures b.value == TotalAmount(GroupRows(js, UnitLabel, b.name)) {
      GroupBucketsByKey(js, UnitLabel, b);
    }
  }

  /** Overdue is a part of pending when no amount is negative. */
  lemma SummaryOverdueWithinPending(js: seq<Joined>, today: Date)
    requires forall i :: 0 <= i < |js| ==> js[i].row.amount >= 0
    ensures 0 <= SummaryOf(js, today).byStatus.overdue <= SummaryOf(js, today).byStatus.pending
  {
    var rows := RowsOf(js);
    SumWhereMonotone(rows, (p: Payable) => IsOverdue(p, today), (p: Payable) => !IsPaid(p));
    SumWhereMonotone(rows, (p: Payable) => false, (p: Payable) => IsOverdue(p, today));
    SumWhereNone(rows, (p: Payable) => false);
  }

  /** `payablesSummary`: 403 without a context, `{}` without a company,
      otherwise the summary of the company's rows that pass the filters. */
  method PayablesSummary(db: Database, uid: Uuid, q: ReportQuery, today: Date) returns (out: Outcome<Summary>)
    ensures var ctx := LookupContext(db.users, uid);
      && (ctx.None? ==> out == Forbidden403)
      && (ctx.Some? && ctx.value.companyId.None? ==> out == Empty)
      && (ctx.Some? && ctx.value.companyId.Some? ==>
            out == Ok(SummaryOf(Selected(db.JoinedPayables(), ctx.value.companyId.value, q), today)))
  {
    var ctx := LookupContext(db.users, uid);
    if ctx.None? {
      return Forbidden403;
    }
    if ctx.value.companyId.None? {
      return Empty;
    }
    var s := Summarize(Selected(db.JoinedPayables(), ctx.value.companyId.value, q), today);
    out := Ok(s);
  }

  // ------------------------------------------------------------ exportXls

  /** One spreadsheet line. `paymentDate == None` is the empty cell. */
  datatype SheetRow = SheetRow(
    supplier: string, category: string, unit: string, value: int,
    dueDate: Date, paymentDate: Option<Date>, status: string,
    document: string, notes: string)

  /** `new Date(p.due_date) < new Date()`: the due date's midnight (UTC)
      against the current instant. */
  function ExportStatus(p: Payable, now: Instant): string {
    if IsPaid(p) then "Pago"
    else if InstantBefore(Midnight(p.dueDate), now) then "Vencido"
    else "Aberto"
  }

  function OrNA(name: string): (r: string)
    ensures r != ""
  {
    if name == "" then "N/A" else name
  }

  function SheetRowOf(j: Joined, now: Instant): SheetRow {
    SheetRow(OrNA(j.supplier), OrNA(j.category), OrNA(j.unit), j.row.amount,
             j.row.dueDate, j.row.paymentDate, ExportStatus(j.row, now),
             j.row.documentNumber, j.row.notes)
  }

  function SheetRows(js: seq<Joined>, now: Instant): (rs: seq<SheetRow>)
    ensures |rs| == |js|
    ensures forall i :: 0 <= i < |js| ==> rs[i] == SheetRowOf(js[i], now)
  {
    if js == [] then [] else [SheetRowOf(js[0], now)] + SheetRows(js[1..], now)
  }

  /** A bill due today, unpaid, exported after midnight reads `Vencido`,
      while the summary does not count it as overdue. */
  lemma DueTodayDisagreement(p: Payable, now: Instant)
    requires !IsPaid(p) && p.dueDate == now.date && now.micros > 0
    ensures ExportStatus(p, now) == "Vencido"
    ensures !IsOverdue(p, now.date) && StatusOf(p, now.date) == Open
  {
  }

  /** Away from the due day itself the export label and the derived status agree. */
  lemma ExportStatusMatchesStatus(p: Payable, now: Instant)
    requires p.dueDate != now.date
    ensures ExportStatus(p, now) == "Pago" <==> StatusOf(p, now.date) == Paid
    ensures ExportStatus(p, now) == "Vencido" <==> StatusOf(p, now.date) == Overdue
    ensures ExportStatus(p, now) == "Aberto" <==> StatusOf(p, now.date) == Open
  {
  }

  predicate CreatedAtLe(a: Joined, b: Joined) {
    InstantAtOrBefore(a.row.createdAt, b.row.createdAt)
  }

  lemma CreatedAtOrder()
    ensures TotalPreorder(CreatedAtLe)
  {
    forall a: Joined, b: Joined | true ensures CreatedAtLe(a, b) || CreatedAtLe(b, a) {
      InstantAtOrBeforeTotal(a.row.createdAt, b.row.createdAt);
    }
    forall a: Joined, b: Joined, c: Joined | CreatedAtLe(a, b) && CreatedAtLe(b, c)
      ensures CreatedAtLe(a, c)
    {
      InstantAtOrBeforeTransitive(a.row.createdAt, b.row.createdAt, c.row.createdAt);
    }
  }

  function ColumnLe(col: Column): (Joined, Joined) -> bool {
    if col == CreatedAtColumn then CreatedAtLe else Payables.DueDateLe
  }

  /** `order(filterDateCol, { ascending: true })` */
  function OrderByColumn(js: seq<Joined>, col: Column): (r: seq<Joined>)
    ensures multiset(r) == multiset(js)
    ensures SortedBy(r, ColumnLe(col))
  {
    CreatedAtOrder();
    Payables.DueDateOrder();
    SortBy(js, ColumnLe(col))
  }

  /** `exportXls`: 403 without a context, `[]` without a company, otherwise
      one sheet line per selected row, in ascending order of the filtered
      column. */
  method ExportXls(db: Database, uid: Uuid, q: ReportQuery, now: Instant) returns (out: Outcome<seq<SheetRow>>)
    ensures var ctx := LookupContext(db.users, uid);
      && (ctx.None? ==> out == Forbidden403)
      && (ctx.Some? && ctx.value.companyId.None? ==> out == Empty)
      && (ctx.Some? && ctx.value.companyId.Some? ==>
            var sel := Selected(db.JoinedPayables(), ctx.value.companyId.value, q);
            exists ordered ::
              && multiset(ordered) == multiset(sel)
              && SortedBy(ordered, ColumnLe(FilterColumn(q.dateType)))
              && out == Ok(SheetRows(ordered, now)))
  {
    var ctx := LookupContext(db.users, uid);
    if ctx.None? {
      return Forbidden403;
    }
    if ctx.value.companyId.None? {
      return Empty;
    }
    var sel := Selected(db.JoinedPayables(), ctx.value.companyId.value, q);
    var ordered := OrderByColumn(sel, FilterColumn(q.dateType));
    out := Ok(SheetRows(ordered, now));
  }
}
