/** `PayableController`: list, create, pay, update, delete and the five
    dashboard totals over the `accounts_payable` table. */
module Payables {
  import opened Tenancy
  import opened Calendar
  import opened Sequences
  import opened Store
  import opened Aggregation

  /** The eight columns a create or an update takes from the request body. */
  datatype PayableFields = PayableFields(
    supplierId: Option<Uuid>,
    unitId: Option<Uuid>,
    categoryId: Option<Uuid>,
    documentNumber: string,
    dueDate: Date,
    amount: int,
    notes: string,
    barcodeOrPix: string)

  // ------------------------------------------------------------------ list

  predicate DueDateLe(a: Joined, b: Joined) {
    AtOrBefore(a.row.dueDate, b.row.dueDate)
  }

  lemma DueDateOrder()
    ensures TotalPreorder(DueDateLe)
  {
    forall a: Joined, b: Joined, c: Joined | DueDateLe(a, b) && DueDateLe(b, c)
      ensures DueDateLe(a, c)
    {
      AtOrBeforeTransitive(a.row.dueDate, b.row.dueDate, c.row.dueDate);
    }
  }

  /** `list`: 403 without a context; `[]` without a company, for a superadmin
      too; otherwise exactly the caller's company's rows, by due date. */
  method List(db: Database, uid: Uuid) returns (out: Outcome<seq<Joined>>)
    ensures LookupContext(db.users, uid).None? ==> out == Forbidden403
    ensures LookupContext(db.users, uid).Some? && LookupContext(db.users, uid).value.companyId.None? ==>
      out == Ok([])
    ensures LookupContext(db.users, uid).Some? && LookupContext(db.users, uid).value.companyId.Some? ==>
      var c := LookupContext(db.users, uid).value.companyId.value;
      && out.Ok?
      && multiset(out.value) == multiset(JoinedOf(db.JoinedPayables(), c))
      && SortedBy(out.value, DueDateLe)
  {
    var ctx := LookupContext(db.users, uid);
    if ctx.None? {
      return Forbidden403;
    }
    match TenantReadScope(ctx.value)
    case Nothing =>
      out := Ok([]);
    case Company(c) =>
      DueDateOrder();
      out := Ok(SortBy(JoinedOf(db.JoinedPayables(), c), DueDateLe));
  }

  // ---------------------------------------------------------------- create

  /** The checks of `create`, in order: context, viewer role, target company,
      then `amount <= 0`. */
  function CreateDecision(ctx: Option<Context>, requested: Option<Uuid>, amount: int): (g: Grant)
    ensures CreateGrant(ctx, requested).Refuse? ==> g == CreateGrant(ctx, requested)
    ensures g.Allow? <==> CreateGrant(ctx, requested).Allow? && amount > 0
    ensures g.Allow? ==> g == CreateGrant(ctx, requested)
    ensures g == Refuse(Forbidden) <==> ctx.None? || ctx.value.role == Visualizacao
  {
    var g := CreateGrant(ctx, requested);
    if g.Refuse? then g else if amount <= 0 then Refuse(BadRequest) else g
  }

  /** The row `create` inserts: unpaid, owned by the target company, created by the caller. */
  function NewPayable(id: Uuid, company: Uuid, f: PayableFields, creator: Uuid, now: Instant): Payable {
    Payable(id, company, f.supplierId, f.unitId, f.categoryId, f.documentNumber, f.dueDate,
            f.amount, f.notes, f.barcodeOrPix, "", None, now, creator)
  }

  /** `create`. `newId` and `now` are the id and `created_at` the store assigns. */
  method Create(db: Database, uid: Uuid, requested: Option<Uuid>, f: PayableFields, newId: Uuid, now: Instant)
    returns (out: Outcome<Payable>)
    modifies db`accountsPayable
    ensures var g := CreateDecision(LookupContext(db.users, uid), requested, f.amount);
      && (g.Refuse? ==> out == Answer(g.why) && db.accountsPayable == old(db.accountsPayable))
      && (g.Allow? ==>
            var row := NewPayable(newId, g.company, f, uid, now);
            out == Created(row) && db.accountsPayable == old(db.accountsPayable) + [row])
  {
    var g := CreateDecision(LookupContext(db.users, uid), requested, f.amount);
    if g.Refuse? {
      return Answer(g.why);
    }
    var row := NewPayable(newId, g.company, f, uid, now);
    db.accountsPayable := db.accountsPayable + [row];
    out := Created(row);
  }

  // ------------------------------------------------------ row-level writes

  /** The rows `.eq('id', id)` plus the optional company filter reaches. */
  predicate Targets(p: Payable, id: Uuid, scope: Scope) {
    p.id == id && InScope(scope, p.companyId)
  }

  /** `payment_date || new Date().toISOString()` */
  function PaymentDateFor(given: Option<Date>, now: Instant): Date {
    if given.Some? then given.value else now.date
  }

  /** The table after `update({ payment_date })` on the targeted rows. */
  function MarkPaid(rows: seq<Payable>, id: Uuid, scope: Scope, date: Date): (r: seq<Payable>)
    ensures |r| == |rows|
    ensures forall i :: 0 <= i < |rows| && Targets(rows[i], id, scope) ==> r[i] == rows[i].(paymentDate := Some(date))
    ensures forall i :: 0 <= i < |rows| && !Targets(rows[i], id, scope) ==> r[i] == rows[i]
  {
    if rows == [] then []
    else
      var p := rows[0];
      [if Targets(p, id, scope) then p.(paymentDate := Some(date)) else p] + MarkPaid(rows[1..], id, scope, date)
  }

  /** Paying twice with the same date leaves the table as paying once. */
  lemma MarkPaidIdempotent(rows: seq<Payable>, id: Uuid, scope: Scope, date: Date)
    ensures MarkPaid(MarkPaid(rows, id, scope, date), id, scope, date) == MarkPaid(rows, id, scope, date)
  {
    var once := MarkPaid(rows, id, scope, date);
    var twice := MarkPaid(once, id, scope, date);
    assert forall i :: 0 <= i < |rows| ==> Targets(once[i], id, scope) == Targets(rows[i], id, scope);
    assert twice == once;
  }

  /** Paying changes `payment_date` and nothing else, already-paid rows included. */
  lemma MarkPaidOnlyPaymentDate(rows: seq<Payable>, id: Uuid, scope: Scope, date: Date, i: int)
    requires 0 <= i < |rows|
    ensures MarkPaid(rows, id, scope, date)[i].(paymentDate := rows[i].paymentDate) == rows[i]
  {
  }

  /** `pay`: 403 without a context or for a viewer; otherwise `{ success }`
      whether or not a row matched. */
  method Pay(db: Database, uid: Uuid, id: Uuid, given: Option<Date>, now: Instant) returns (out: Outcome<()>)
    modifies db`accountsPayable
    ensures var g := RowWriteGuard(LookupContext(db.users, uid));
      && (g.Denied? ==> out == Forbidden403 && db.accountsPayable == old(db.accountsPayable))
      && (g.Permitted? ==>
            out == Done
            && db.accountsPayable == MarkPaid(old(db.accountsPayable), id, g.scope, PaymentDateFor(given, now)))
  {
    var g := RowWriteGuard(LookupContext(db.users, uid));
    if g.Denied? {
      return Forbidden403;
    }
    db.accountsPayable := MarkPaid(db.accountsPayable, id, g.scope, PaymentDateFor(given, now));
    out := Done;
  }

  /** A row after `update` replaced the eight body columns; id, company,
      payment and audit columns stay. */
  function Revised(p: Payable, f: PayableFields): Payable {
    p.(supplierId := f.supplierId, unitId := f.unitId, categoryId := f.categoryId,
       documentNumber := f.documentNumber, dueDate := f.dueDate, amount := f.amount,
       notes := f.notes, barcodeOrPix := f.barcodeOrPix)
  }

  function ReviseRows(rows: seq<Payable>, id: Uuid, scope: Scope, f: PayableFields): (r: seq<Payable>)
    ensures |r| == |rows|
    ensures forall i :: 0 <= i < |rows| && Targets(rows[i], id, scope) ==> r[i] == Revised(rows[i], f)
    ensures forall i :: 0 <= i < |rows| && !Targets(rows[i], id, scope) ==> r[i] == rows[i]
  {
    if rows == [] then []
    else
      var p := rows[0];
      [if Targets(p, id, scope) then Revised(p, f) else p] + ReviseRows(rows[1..], id, scope, f)
  }

  /** `update` stores whatever amount it is given: a zero or negative amount
      that `create` turns away with 400 lands in the reached row. */
  lemma UpdateSkipsAmountCheck(rows: seq<Payable>, id: Uuid, scope: Scope, f: PayableFields,
                               ctx: Context, requested: Option<Uuid>, i: int)
    requires f.amount <= 0
    requires 0 <= i < |rows| && Targets(rows[i], id, scope)
    ensures ReviseRows(rows, id, scope, f)[i].amount == f.amount
    ensures CreateDecision(Some(ctx), requested, f.amount).Refuse?
  {
  }

  /** `update` */
  method Update(db: Database, uid: Uuid, id: Uuid, f: PayableFields) returns (out: Outcome<()>)
    modifies db`accountsPayable
    ensures var g := RowWriteGuard(LookupContext(db.users, uid));
      && (g.Denied? ==> out == Forbidden403 && db.accountsPayable == old(db.accountsPayable))
      && (g.Permitted? ==> out == Done && db.accountsPayable == ReviseRows(old(db.accountsPayable), id, g.scope, f))
  {
    var g := RowWriteGuard(LookupContext(db.users, uid));
    if g.Denied? {
      return Forbidden403;
    }
    db.accountsPayable := ReviseRows(db.accountsPayable, id, g.scope, f);
    out := Done;
  }

  function RemoveTargets(rows: seq<Payable>, id: Uuid, scope: Scope): (r: seq<Payable>)
    ensures forall p :: p in r <==> p in rows && !Targets(p, id, scope)
  {
    Filter(rows, (p: Payable) => !Targets(p, id, scope))
  }

  /** A non-superadmin cannot delete another company's row. */
  lemma DeleteKeepsOtherCompanies(rows: seq<Payable>, id: Uuid, ctx: Context, p: Payable)
    requires ctx.role != Superadmin
    requires p in rows && Some(p.companyId) != ctx.companyId
    ensures p in RemoveTargets(rows, id, RowScope(ctx))
  {
  }

  /** `delete` */
  method Delete(db: Database, uid: Uuid, id: Uuid) returns (out: Outcome<()>)
    modifies db`accountsPayable
    ensures var g := RowWriteGuard(LookupContext(db.users, uid));
      && (g.Denied? ==> out == Forbidden403 && db.accountsPayable == old(db.accountsPayable))
      && (g.Permitted? ==> out == Done && db.accountsPayable == RemoveTargets(old(db.accountsPayable), id, g.scope))
  {
    var g := RowWriteGuard(LookupContext(db.users, uid));
    if g.Denied? {
      return Forbidden403;
    }
    db.accountsPayable := RemoveTargets(db.accountsPayable, id, g.scope);
    out := Done;
  }

  // ------------------------------------------------------ dashboard stats

  datatype Totals = Totals(
    totalOpen: int, totalOverdue: int, totalToday: int,
    totalMonthPaid: int, totalMonthExpected: int)

  /** The five sums over one company's rows on the day `today`. */
  function StatsOf(rows: seq<Payable>, today: Date): Totals {
    var m := MonthOf(today);
    Totals(
      OpenAmount(rows),
      OverdueAmount(rows, today),
      DueOnAmount(rows, today),
      PaidWithinAmount(rows, FirstDay(m), LastDay(m)),
      DueWithinAmount(rows, FirstDay(m), LastDay(m)))
  }

  function UpcomingAmount(rows: seq<Payable>, today: Date): int {
    SumWhere(rows, (p: Payable) => !IsPaid(p) && Before(today, p.dueDate))
  }

  /** The open total splits into the disjoint overdue, due-today and
      not-yet-due parts. */
  lemma OpenSplitsByDueDate(rows: seq<Payable>, today: Date)
    ensures StatsOf(rows, today).totalOpen
         == StatsOf(rows, today).totalOverdue + StatsOf(rows, today).totalToday + UpcomingAmount(rows, today)
  {
    var notOverdue := (p: Payable) => !IsPaid(p) && !Before(p.dueDate, today);
    SumWhereSplit(rows, (p: Payable) => !IsPaid(p), (p: Payable) => IsOverdue(p, today), notOverdue);
    SumWhereSplit(rows, notOverdue, (p: Payable) => IsDueOn(p, today),
                  (p: Payable) => !IsPaid(p) && Before(today, p.dueDate));
  }

  /** With no negative amounts, overdue plus due today never exceeds open. */
  lemma OverdueAndTodayWithinOpen(rows: seq<Payable>, today: Date)
    requires forall i :: 0 <= i < |rows| ==> rows[i].amount >= 0
    ensures StatsOf(rows, today).totalOverdue + StatsOf(rows, today).totalToday <= StatsOf(rows, today).totalOpen
  {
    OpenSplitsByDueDate(rows, today);
    SumWhereMonotone(rows, (p: Payable) => false, (p: Payable) => !IsPaid(p) && Before(today, p.dueDate));
    SumWhereNone(rows, (p: Payable) => false);
  }

  /** No row is both overdue and due today. */
  lemma OverdueTodayDisjoint(p: Payable, today: Date)
    ensures !(IsOverdue(p, today) && IsDueOn(p, today))
  {
  }

  /** `dashboardStats`: 403 without a context, all zeros without a company,
      otherwise the five sums over the company's rows. */
  method DashboardStats(db: Database, uid: Uuid, today: Date) returns (out: Outcome<Totals>)
    ensures LookupContext(db.users, uid).None? ==> out == Forbidden403
    ensures LookupContext(db.users, uid).Some? && LookupContext(db.users, uid).value.companyId.None? ==>
      out == Ok(Totals(0, 0, 0, 0, 0))
    ensures LookupContext(db.users, uid).Some? && LookupContext(db.users, uid).value.companyId.Some? ==>
      out == Ok(StatsOf(PayablesOf(db.accountsPayable, LookupContext(db.users, uid).value.companyId.value), today))
  {
    var ctx := LookupContext(db.users, uid);
    if ctx.None? {
      return Forbidden403;
    }
    if ctx.value.companyId.None? {
      return Ok(Totals(0, 0, 0, 0, 0));
    }
    out := Ok(StatsOf(PayablesOf(db.accountsPayable, ctx.value.companyId.value), today));
  }
}
