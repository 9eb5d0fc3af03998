# Accounts-payable ERP core, modelled in Dafny

This project models the request logic of a multi-tenant accounts-payable
backend and the route guard of its web front end. Every company (tenant)
keeps bills to pay (`accounts_payable`), suppliers, units (branches or cost
centres) and member profiles. Every handler first looks up the caller's
context: the caller's `company_id` and `role`, one of `superadmin`, `admin`,
`financeiro` or `visualizacao`. It then refuses, scopes or writes rows.

The data store is a `Store.Database` object with one sequence per table and
the set of user ids known to the identity provider. Each handler is a
method on it that returns an `Outcome`: `Forbidden403`, `BadRequest400`,
`NotFound404`, `Ok`, `Created`, `Done` (`{ success: true }`) or `Empty` (the
`[]`/`{}` placeholder body).

The model covers:

- `Tenancy`: the shared access decisions. These are the target company of a create, the row scope of payables writes, and the two read scopes of the lists.
- `Payables`: list, create, pay, update, delete and the five dashboard totals.
- `Aggregation` and `Reports`:
  - the dashboard detail loop, with unit and category groups and month windows;
  - the summary loop, with category, supplier and unit charts, the paid/pending/overdue split and the grand total;
  - the query filters;
  - the export's row transform and status label.
- `Alerts` and `WhatsApp`: the daily due-date sweep as a service object that appends every send attempt to an outbox, and the phone normalisation of the messaging channel.
- `Users`, `Suppliers`, `Units`, `Tenants`: the remaining controllers.
- `RouteGuard`: the pass/redirect decision of the front-end middleware.
- `Calendar` and `Sequences`: supporting definitions. These are Gregorian dates with leap years, month windows, microsecond instants, filtering, and a sorted permutation for `order(...)`.

Amounts are integer cents. Dates are calendar triples compared like their
ISO strings. Whatever the handlers get from outside the process is a
parameter: ids and `created_at` values the store assigns, "now", whether a
store call or an identity-provider call went through, and the environment
variables.

Behaviours modelled as the code has them:

- A superadmin who has a company of their own and sends no `companyId` creates rows in their own company (`Tenancy.SuperadminDefaultsToOwnCompany`). The code falls back to the caller's `company_id` when the body has no `companyId`.
- The `companyId` query parameter of the reports is read and never used (`Reports.CompanyIdIgnored`).
- The export labels an unpaid bill due today `Vencido`. It compares the due date's midnight with the current instant. The summary counts a bill as overdue only when it is due before today (`Reports.DueTodayDisagreement`).

## Model

| member | source | states |
|---|---|---|
| Tenancy.ParseRole | backend/src/controllers/users.controller.ts:5-14 | the stored role string falls outside the four names the code tests exactly when it parses to `Other` |
| Tenancy.RoleNameRoundTrip | backend/src/controllers/users.controller.ts:91 | any role string stored by `create` reads back unchanged |
| Tenancy.TargetCompany | backend/src/controllers/payables.controller.ts:57-60 | the target is the body's `companyId` only for a superadmin who sends one; every other role gets its own company |
| Tenancy.CreateGrant | backend/src/controllers/suppliers.controller.ts:42-56 | 403 exactly when there is no context or the role is `visualizacao`; 400 exactly when the caller passes that check and has no target; otherwise the row goes to the target company |
| Tenancy.CreateStaysInOwnCompany | backend/src/controllers/units.controller.ts:49-56 | a non-superadmin only creates rows in their own company and is refused without one |
| Tenancy.SuperadminDefaultsToOwnCompany | backend/src/controllers/payables.controller.ts:57-64 | a superadmin with a company who sends no `companyId` is allowed and writes into their own company |
| Tenancy.RowScope | backend/src/controllers/payables.controller.ts:112-115 | a superadmin matches by id in all companies; every other role only in its own `company_id` |
| Tenancy.RowWriteGuard | backend/src/controllers/payables.controller.ts:99-103 | pay/update/delete are denied exactly without a context or for a viewer, and otherwise scoped by `RowScope` |
| Tenancy.TenantReadScope | backend/src/controllers/payables.controller.ts:35-38 | payables and suppliers lists never read every company; they read nothing exactly when the caller has no company, else the caller's company |
| Tenancy.RoleReadScope | backend/src/controllers/units.controller.ts:26-29 | only a superadmin reads every company; other roles read as the tenant scope does |
| Tenancy.UnboundCallerReadsNothing | backend/src/controllers/users.controller.ts:36-39 | a non-superadmin without a company reads no row under either read rule |
| Store.LookupContext | backend/src/controllers/payables.controller.ts:5-17 | a context exists exactly when one `users` row has the caller's id, and it is that row's company and role |
| Store.SupplierName | backend/src/controllers/payables.controller.ts:25-32 | the joined supplier name is the name of the first supplier with the referenced id, and empty when no supplier has it |
| Store.UnitName | backend/src/controllers/payables.controller.ts:25-32 | the joined unit name is the name of the first unit with the referenced id, and empty when no unit has it |
| Store.CategoryName | backend/src/controllers/payables.controller.ts:25-32 | the joined category name is the name of the first category with the referenced id, and empty when no category has it |
| Store.JoinAll | backend/src/controllers/payables.controller.ts:25-32 | joining keeps every payable in place and attaches to it the names its supplier, category and unit references resolve to |
| Store.JoinedOfRows | backend/src/controllers/payables.controller.ts:36 | scoping the joined rows to a company and scoping the bare rows give the same bills |
| Store.Database.JoinedPayables | backend/src/controllers/payables.controller.ts:25-32 | the embedded query returns exactly the `accounts_payable` rows, each with the names its references resolve to |
| Calendar.DaysInMonth | backend/src/controllers/reports.controller.ts:140-141 | February has 29 days exactly in leap years, April, June, September and November 30, the other months 31 |
| Calendar.NextDay | backend/src/services/alert.service.ts:47 | "tomorrow" is strictly after today |
| Calendar.NextDayIsSuccessor | backend/src/services/alert.service.ts:46-47 | no date lies strictly between today and tomorrow |
| Calendar.NextMonth | backend/src/controllers/reports.controller.ts:32-34 | the next month starts after the current month's last day |
| Calendar.MonthWindowExact | backend/src/controllers/reports.controller.ts:30-31 | the window [first day, last day] holds exactly the dates of that month |
| Calendar.MonthWindowsDisjoint | backend/src/controllers/reports.controller.ts:30-34 | the current-month and next-month windows share no date |
| Calendar.MidnightLowerBound | backend/src/controllers/reports.controller.ts:134-135 | a date-only lower bound on a timestamp compares the timestamp's date |
| Calendar.InstantAtOrBeforeTotal | backend/src/controllers/reports.controller.ts:245 | any two timestamps compare |
| Calendar.InstantAtOrBeforeTransitive | backend/src/controllers/reports.controller.ts:245 | the timestamp order chains |
| Calendar.AtOrBeforeTotal | backend/src/controllers/payables.controller.ts:38 | any two dates compare |
| Calendar.AtOrBeforeTransitive | backend/src/controllers/payables.controller.ts:38 | the date order chains |
| Sequences.Filter | backend/src/controllers/payables.controller.ts:36 | a filtered query keeps exactly the rows that satisfy the filter, never more rows or new ones |
| Sequences.FilterAppend | backend/src/services/alert.service.ts:63-86 | filtering a concatenation filters each part |
| Sequences.FilterSame | backend/src/controllers/reports.controller.ts:115 | two filters that agree on every row select the same rows |
| Sequences.FilterKeepsAll | backend/src/controllers/units.controller.ts:26-27 | a filter that holds for every row keeps the table as it is |
| Sequences.FilterKeepsNone | backend/src/controllers/users.controller.ts:38-39 | a filter that holds for no row yields `[]` |
| Sequences.Insert | backend/src/controllers/suppliers.controller.ts:31 | inserting into an ordered result keeps it ordered and adds exactly that row |
| Sequences.HeadBelowRest | backend/src/controllers/suppliers.controller.ts:31 | when a row goes after the head of an ordered list, the head is at or before every row of the rest |
| Sequences.SortBy | backend/src/controllers/suppliers.controller.ts:31 | `order(...)` returns a permutation of the rows, ordered by the column |
| Sequences.SortByMembers | backend/src/controllers/units.controller.ts:31 | ordering keeps exactly the rows it was given |
| Sequences.TextLeTotal | backend/src/controllers/users.controller.ts:41 | any two names compare |
| Sequences.TextLeTransitive | backend/src/controllers/users.controller.ts:41 | the name order chains |
| Sequences.ByTextOrder | backend/src/controllers/suppliers.controller.ts:31 | ordering rows by a text column such as `name` is a total preorder |
| Sequences.ReplaceWhere | backend/src/controllers/suppliers.controller.ts:84-87 | an update by id rewrites exactly the rows it matches and keeps every other row, each in its place |
| Aggregation.SumWhereAppend | backend/src/controllers/payables.controller.ts:238 | the sum over two batches of rows is the sum of the two sums |
| Aggregation.SumWhereSnoc | backend/src/controllers/reports.controller.ts:165-183 | one more row adds its amount exactly when it is kept |
| Aggregation.SumWhereSplit | backend/src/controllers/payables.controller.ts:231-238 | a sum over a disjoint union of two predicates is the sum of their sums |
| Aggregation.SumWhereMonotone | backend/src/controllers/payables.controller.ts:231-238 | with no negative amounts, a weaker predicate never sums to less |
| Aggregation.SumWhereNone | backend/src/controllers/payables.controller.ts:238 | an empty selection sums to 0 |
| Aggregation.StatusOf | backend/src/controllers/reports.controller.ts:175-181 | a bill is paid exactly when it has a payment date, and overdue exactly when unpaid and due before today |
| Aggregation.PaidPlusOpenIsTotal | backend/src/controllers/reports.controller.ts:175-193 | the paid and unpaid sums add up to the total |
| Aggregation.WindowPaidPlusUnpaid | backend/src/controllers/reports.controller.ts:76-81 | inside a due-date window, paid plus unpaid is the window total |
| Aggregation.Credit | backend/src/controllers/reports.controller.ts:63-73 | crediting a row raises the paid or the payable total by its amount, adds that name once, and creates no duplicate name |
| Aggregation.CreditFor | backend/src/controllers/reports.controller.ts:63-73 | crediting a row adds its amount to the paid or the payable side of the entry named by its key, and leaves every other name's amounts as they were |
| Aggregation.GroupTalliesConserve | backend/src/controllers/reports.controller.ts:58-73 | the grouped paid sides add up to the paid total and the payable sides to the unpaid total |
| Aggregation.GroupTalliesNames | backend/src/controllers/reports.controller.ts:61-73 | one entry per group name, and exactly the names the rows carry |
| Aggregation.GroupRowsSnoc | backend/src/controllers/reports.controller.ts:61-73 | one more row joins the rows filed under a name exactly when its key is that name |
| Aggregation.TalliesForKey | backend/src/controllers/reports.controller.ts:58-73 | the fold credits each name with exactly the paid and the unpaid sums of the rows filed under it |
| Aggregation.GroupTalliesByKey | backend/src/controllers/reports.controller.ts:58-73 | every group entry holds the paid and unpaid sums of exactly the rows whose key is its name |
| Aggregation.ToEntries | backend/src/controllers/reports.controller.ts:90-95 | every output entry keeps its name and has `total = paid + payable` |
| Aggregation.GroupEntryByKey | backend/src/controllers/reports.controller.ts:58-95 | every output entry's `paid`, `payable` and `total` are the sums over exactly the rows filed under its name |
| Aggregation.EntryTotalOfTallies | backend/src/controllers/reports.controller.ts:90-95 | the entry totals add up to all paid plus all payable amounts |
| Aggregation.GroupedEntriesTotal | backend/src/controllers/reports.controller.ts:58-95 | the totals of a grouping add up to the sum of all row amounts |
| Aggregation.AddTo | backend/src/controllers/reports.controller.ts:171-173 | adding to a chart raises the chart's sum by the amount, adds that name once, and creates no duplicate |
| Aggregation.AddToFor | backend/src/controllers/reports.controller.ts:171-173 | adding to a chart raises the bucket of that name by the amount and leaves every other bucket as it was |
| Aggregation.GroupBucketsConserve | backend/src/controllers/reports.controller.ts:165-186 | each chart adds up to the total, with one bucket per distinct name |
| Aggregation.BucketsForKey | backend/src/controllers/reports.controller.ts:165-173 | the fold gives each name exactly the total of the rows filed under it |
| Aggregation.GroupBucketsByKey | backend/src/controllers/reports.controller.ts:165-173 | every chart bucket holds the total of exactly the rows whose key is its name |
| Payables.DueDateOrder | backend/src/controllers/payables.controller.ts:38 | ordering by `due_date` is a total preorder |
| Payables.List | backend/src/controllers/payables.controller.ts:20-46 | 403 without a context; `[]` without a company, for a superadmin too; otherwise a due-date-ordered permutation of exactly the caller's company's rows |
| Payables.CreateDecision | backend/src/controllers/payables.controller.ts:50-71 | the create checks in source order: context, viewer, target, then `amount <= 0`; allowed exactly when the shared checks pass and the amount is positive |
| Payables.Create | backend/src/controllers/payables.controller.ts:48-90 | a refused create inserts nothing; an allowed one appends one unpaid row with the target company and `created_by` set to the caller |
| Payables.MarkPaid | backend/src/controllers/payables.controller.ts:105-115 | exactly the reached rows get the payment date; every other row is unchanged |
| Payables.MarkPaidIdempotent | backend/src/controllers/payables.controller.ts:105-110 | paying twice with the same date leaves the table as paying once |
| Payables.MarkPaidOnlyPaymentDate | backend/src/controllers/payables.controller.ts:105-110 | paying changes no column other than `payment_date`, already-paid rows included |
| Payables.Pay | backend/src/controllers/payables.controller.ts:92-125 | 403 without a context or for a viewer and nothing changes; otherwise success, whether or not a row matched, with the given date or today's |
| Payables.ReviseRows | backend/src/controllers/payables.controller.ts:139-155 | exactly the reached rows get the eight body columns; every other row is unchanged |
| Payables.UpdateSkipsAmountCheck | backend/src/controllers/payables.controller.ts:139-150 | an amount `create` refuses is stored by `update` |
| Payables.Update | backend/src/controllers/payables.controller.ts:127-165 | 403 for no context or a viewer; otherwise the scoped rewrite and success |
| Payables.RemoveTargets | backend/src/controllers/payables.controller.ts:179-187 | delete removes exactly the rows with the id in the caller's scope |
| Payables.DeleteKeepsOtherCompanies | backend/src/controllers/payables.controller.ts:184-187 | a non-superadmin never deletes another company's row |
| Payables.Delete | backend/src/controllers/payables.controller.ts:167-197 | 403 for no context or a viewer; otherwise the scoped removal and success |
| Payables.OpenSplitsByDueDate | backend/src/controllers/payables.controller.ts:231-238 | the open total is overdue plus due today plus not yet due |
| Payables.OverdueAndTodayWithinOpen | backend/src/controllers/payables.controller.ts:231-238 | with no negative amounts, overdue plus due-today is at most the open total |
| Payables.OverdueTodayDisjoint | backend/src/controllers/payables.controller.ts:232-233 | no bill is both overdue and due today |
| Payables.DashboardStats | backend/src/controllers/payables.controller.ts:199-252 | 403 without a context; five zeros without a company; otherwise the five sums over the company's rows for today and this month |
| Reports.WindowStep | backend/src/controllers/reports.controller.ts:76-86 | one more row adds its amount to each window sum it falls in |
| Reports.TallyStep | backend/src/controllers/reports.controller.ts:58-73 | one more row credits the accumulator built so far |
| Reports.Detailed | backend/src/controllers/reports.controller.ts:29-95 | the single pass computes the unit and category groups and the two month windows of the rows |
| Reports.DetailGroupsConserve | backend/src/controllers/reports.controller.ts:58-95 | the unit grouping and the category grouping each add up to the sum of all amounts |
| Reports.DetailGroupsByKey | backend/src/controllers/reports.controller.ts:58-95 | each unit and category entry holds the paid, unpaid and total sums of exactly the rows filed under its name |
| Reports.DetailGroupNames | backend/src/controllers/reports.controller.ts:61-62 | a row with no unit (category) is counted in the `Sem Unidade` (`Sem Categoria`) entry, which holds the paid and unpaid sums of exactly the rows with that label; names are not repeated |
| Reports.DetailWindows | backend/src/controllers/reports.controller.ts:76-86 | the current month's total is paid plus payable; next month's payable is between 0 and its total |
| Reports.CurrentMonthReconciles | backend/src/controllers/reports.controller.ts:76-77 | the detail view's current-month total equals the payables dashboard's expected total for the month |
| Reports.DashboardDetailedStats | backend/src/controllers/reports.controller.ts:17-108 | empty groups and zero windows without a context or a company, never 403; otherwise the company's detail |
| Reports.FilterColumn | backend/src/controllers/reports.controller.ts:116 | the filter column is `created_at` exactly when `dateType` is exactly `created_at` |
| Reports.CompanyIdIgnored | backend/src/controllers/reports.controller.ts:115 | the `companyId` parameter changes no selected row |
| Reports.DueDateBoundsInclusive | backend/src/controllers/reports.controller.ts:134-135 | on `due_date`, `startDate` and `endDate` are inclusive date bounds |
| Reports.MonthFilterOnDueDate | backend/src/controllers/reports.controller.ts:137-149 | on `due_date` the month filter keeps exactly the bills due that month |
| Reports.MonthFilterOnCreatedAt | backend/src/controllers/reports.controller.ts:137-149 | on `created_at` the month filter keeps rows created that month up to `T23:59:59` of its last day, and nothing later |
| Reports.EndDateOnCreatedAtExcludesThatDay | backend/src/controllers/reports.controller.ts:135 | on `created_at`, a row created after midnight of the end date is left out |
| Reports.Summarize | backend/src/controllers/reports.controller.ts:163-193 | the loop and the reduce compute the three charts, the status split and the total of the selected rows |
| Reports.StatusStep | backend/src/controllers/reports.controller.ts:175-181 | one more row adds its amount to paid or to pending, and to overdue when unpaid and past due |
| Reports.BucketStep | backend/src/controllers/reports.controller.ts:171-173 | one more row adds its amount to the bucket of its key and leaves the other buckets as they were |
| Reports.SummaryConserves | backend/src/controllers/reports.controller.ts:165-193 | paid plus pending is the total, and each chart adds up to the total |
| Reports.SummaryChartsByKey | backend/src/controllers/reports.controller.ts:165-186 | each bar of the category, supplier and unit charts is the total of exactly the rows with that label |
| Reports.SummaryOverdueWithinPending | backend/src/controllers/reports.controller.ts:175-181 | with no negative amounts, overdue is between 0 and pending |
| Reports.PayablesSummary | backend/src/controllers/reports.controller.ts:110-200 | 403 without a context; `{}` without a company; otherwise the summary of the company's rows that pass the filters |
| Reports.OrNA | backend/src/controllers/reports.controller.ts:250-252 | a missing name becomes `N/A` and the cell is never empty |
| Reports.SheetRows | backend/src/controllers/reports.controller.ts:249-259 | one sheet line per row, in the same order, each the row's transform |
| Reports.DueTodayDisagreement | backend/src/controllers/reports.controller.ts:256 | an unpaid bill due today, exported after midnight, reads `Vencido` while its derived status is open |
| Reports.ExportStatusMatchesStatus | backend/src/controllers/reports.controller.ts:256 | away from the due day, `Pago`/`Vencido`/`Aberto` match paid/overdue/open exactly |
| Reports.CreatedAtOrder | backend/src/controllers/reports.controller.ts:245 | ordering by `created_at` is a total preorder |
| Reports.OrderByColumn | backend/src/controllers/reports.controller.ts:245 | the rows are a permutation of the selection, ascending by the filter column |
| Reports.ExportXls | backend/src/controllers/reports.controller.ts:202-276 | 403 without a context; `[]` without a company; otherwise one line per selected row, ascending by the filter column |
| WhatsApp.Digits | backend/src/services/whatsapp.service.ts:6 | the cleaned number holds only digits, exactly the digits of the input, and is no longer than the input |
| WhatsApp.DigitsAppend | backend/src/services/whatsapp.service.ts:6 | cleaning keeps the digits in their original order |
| WhatsApp.DigitsOfDigits | backend/src/services/whatsapp.service.ts:6 | an all-digit number is unchanged by cleaning |
| WhatsApp.TargetPhone | backend/src/services/whatsapp.service.ts:6-7 | the target is all digits and starts with `55`; it is the digits when they already start with `55`, else `55` plus the digits; its length is the digit count or that plus 2 |
| WhatsApp.TargetPhoneIdempotent | backend/src/services/whatsapp.service.ts:6-7 | normalising a normalised number changes nothing |
| WhatsApp.TargetPhoneIgnoresFormatting | backend/src/services/whatsapp.service.ts:6-7 | numbers with the same digits have the same target |
| WhatsApp.SendMessage | backend/src/services/whatsapp.service.ts:4-35 | only a simulation exactly when the gateway URL or key is unset; either way addressed to the normalised number |
| Alerts.DueAccounts | backend/src/services/alert.service.ts:46-54 | the sweep selects exactly the unpaid rows due today or tomorrow |
| Alerts.Admins | backend/src/services/alert.service.ts:65-69 | the recipients are exactly the users of the account's company whose role is exactly `admin` |
| Alerts.AccountLabel | backend/src/services/alert.service.ts:75 | a missing description is rendered as `Conta sem descrição` |
| Alerts.Greeting | backend/src/services/alert.service.ts:81 | a missing user name is greeted as `Admin` |
| Alerts.EmailsAppend | backend/src/services/alert.service.ts:72-84 | the emails and the chats of a concatenated log are those of each part |
| Alerts.UserDispatchCounts | backend/src/services/alert.service.ts:72-84 | each recipient gets one email, and one WhatsApp message exactly when their phone is set |
| Alerts.AccountDispatchCounts | backend/src/services/alert.service.ts:72-84 | an account sends one email per recipient and one WhatsApp message per recipient with a phone |
| Alerts.WithPhoneSnoc | backend/src/services/alert.service.ts:80 | one more recipient adds one phone exactly when theirs is set |
| Alerts.UserDispatchOrder | backend/src/services/alert.service.ts:73-83 | the email comes first, then the WhatsApp message to the same recipient's normalised number |
| Alerts.AccountEmailsToAdmins | backend/src/services/alert.service.ts:65-78 | every email of an account goes to an admin of its company and names the account |
| Alerts.SweepEmailsToAdmins | backend/src/services/alert.service.ts:63-86 | every email of a sweep goes to an admin of a swept account's company and names that account |
| Alerts.AccountReachesEveryAdmin | backend/src/services/alert.service.ts:72-78 | every admin of the company gets the account's email |
| Alerts.SweepSimulation | backend/src/services/alert.service.ts:14-18 | an email is only simulated exactly when `RESEND_API_KEY` is unset, and a WhatsApp message exactly when the gateway is unset |
| Alerts.AccountSimulation | backend/src/services/alert.service.ts:14-18 | the same for the sends of one account |
| Alerts.ClientAfterSend | backend/src/services/alert.service.ts:10-12 | the email client is built once, from `RESEND_API_KEY` when set, and is kept afterwards |
| Alerts.AlertService.constructor | backend/src/services/alert.service.ts:6 | the service starts with no client and an empty log |
| Alerts.AlertService.SendOverdueAlert | backend/src/services/alert.service.ts:9-41 | the client is built lazily and one email attempt is recorded, simulated or not; a failed send does not stop the caller |
| Alerts.AlertService.NotifyAccount | backend/src/services/alert.service.ts:72-84 | the inner loop appends exactly the account's dispatches, recipient by recipient |
| Alerts.AlertService.RunDailyCheck | backend/src/services/alert.service.ts:43-89 | a failed query dispatches nothing; otherwise the log grows by exactly the sweep of the due accounts, skipping accounts whose recipient lookup failed |
| Alerts.AlertService.NotifyAll | backend/src/services/alert.service.ts:63-86 | the outer loop appends exactly the sweep, account by account |
| Alerts.AlertService.NotifyUnlessFailed | backend/src/services/alert.service.ts:65-84 | an account whose recipient lookup failed adds nothing; any other account adds its dispatches to its company's admins |
| Alerts.SweepStep | backend/src/services/alert.service.ts:63-86 | one more account extends the sweep by its dispatches, or by nothing when skipped |
| Alerts.AccountStep | backend/src/services/alert.service.ts:72-84 | one more recipient appends their email, then their WhatsApp message when their phone is set, and builds the client at the first send |
| Alerts.ClientAfterAppend | backend/src/services/alert.service.ts:10-12 | once built, the client stays the same over any later sends |
| Alerts.NoRecipientsNoDispatches | backend/src/services/alert.service.ts:71-72 | an account sends nothing exactly when it has no recipients |
| Users.Me | backend/src/controllers/users.controller.ts:17-25 | 404 exactly when the caller has no single profile row; otherwise that row's company and role |
| Users.Visible | backend/src/controllers/users.controller.ts:34-39 | the list holds exactly the profiles the caller's scope reads |
| Users.VisibleExtremes | backend/src/controllers/users.controller.ts:36-39 | a superadmin sees every member; a non-superadmin without a company sees none |
| Users.List | backend/src/controllers/users.controller.ts:27-48 | 403 without a context; otherwise a name-ordered permutation of the visible members |
| Users.MayAddMembers | backend/src/controllers/users.controller.ts:53-62 | create passes exactly when neither the company check nor the manager check refuses |
| Users.MemberRole | backend/src/controllers/users.controller.ts:91 | the role defaults to `visualizacao` and is otherwise stored as given |
| Users.CreateKeepsPaired | backend/src/controllers/users.controller.ts:96-100 | when the profile insert or the compensating delete goes through, no identity-provider user is left without a profile |
| Users.Create | backend/src/controllers/users.controller.ts:50-107 | 403 unless a manager; 400 when the identity provider refuses; otherwise the profile goes to the target company with the defaulted role, or the auth user is removed again when the insert fails and the cleanup goes through |
| Users.EditProfiles | backend/src/controllers/users.controller.ts:121-131 | exactly the profiles with the id get the new name, role and phone, in any company |
| Users.EditMovesOnlyForSuperadmin | backend/src/controllers/users.controller.ts:121-126 | a profile's company changes only when a superadmin sends `companyId` |
| Users.Update | backend/src/controllers/users.controller.ts:111-138 | 403 unless an admin or a superadmin; otherwise the edit by id and success |
| Users.WithoutProfile | backend/src/controllers/users.controller.ts:151-154 | delete removes exactly the profiles with the id |
| Users.Delete | backend/src/controllers/users.controller.ts:140-170 | 403 unless an admin or a superadmin; otherwise profile removed, auth user removed if that call succeeds, and success either way |
| Users.DeleteMayOrphan | backend/src/controllers/users.controller.ts:159-165 | a failed auth delete leaves an identity-provider user without a profile |
| Suppliers.CompanySuppliers | backend/src/controllers/suppliers.controller.ts:29 | exactly the suppliers of the caller's company |
| Suppliers.List | backend/src/controllers/suppliers.controller.ts:19-38 | 403 without a context; `[]` without a company, for a superadmin too; otherwise a name-ordered permutation of the company's suppliers |
| Suppliers.Create | backend/src/controllers/suppliers.controller.ts:40-71 | refused exactly as the shared create checks say, inserting nothing; otherwise one row in the target company |
| Suppliers.RewriteKeepsOwner | backend/src/controllers/suppliers.controller.ts:76-87 | an update keeps every row's id and company and writes exactly the seven columns |
| Suppliers.Update | backend/src/controllers/suppliers.controller.ts:73-94 | 403 only for a known viewer; otherwise the rewrite by id and success |
| Suppliers.DropById | backend/src/controllers/suppliers.controller.ts:106-107 | delete removes exactly the rows with the id, in any company |
| Suppliers.Delete | backend/src/controllers/suppliers.controller.ts:96-113 | 403 only for a known viewer; otherwise the removal by id and success |
| Suppliers.UnknownCallerMayWrite | backend/src/controllers/suppliers.controller.ts:79-82 | a caller without a profile is not refused by update or delete |
| Units.Visible | backend/src/controllers/units.controller.ts:26-29 | exactly the units the caller's scope reads |
| Units.SuperadminSeesAllUnits | backend/src/controllers/units.controller.ts:26-27 | a superadmin's list holds every unit of every company |
| Units.List | backend/src/controllers/units.controller.ts:17-38 | 403 without a context; `[]` for a non-superadmin without a company; otherwise a name-ordered permutation of the visible units |
| Units.Create | backend/src/controllers/units.controller.ts:40-71 | refused exactly as the shared create checks say, inserting nothing; otherwise one `{company_id, name, address, phone}` row in the target company |
| Units.RewriteKeepsOwner | backend/src/controllers/units.controller.ts:76-87 | an update keeps every unit's id and company |
| Units.Update | backend/src/controllers/units.controller.ts:73-94 | 403 only for a known viewer; otherwise the rewrite by id and success |
| Units.DropById | backend/src/controllers/units.controller.ts:106-109 | delete removes exactly the rows with the id, in any company |
| Units.Delete | backend/src/controllers/units.controller.ts:96-115 | 403 only for a known viewer; otherwise the removal by id and success |
| Tenants.NewerFirstOrder | backend/src/controllers/tenants.controller.ts:28-31 | newest-first by `created_at` is a total preorder |
| Tenants.List | backend/src/controllers/tenants.controller.ts:7-38 | 403 without a profile; `[]` for every role but superadmin; for a superadmin every company, newest first |
| Tenants.Create | backend/src/controllers/tenants.controller.ts:40-59 | 400 and no insert unless `name` and `cnpj` are both set; otherwise one new company, without any role check |
| Tenants.LinkRole | backend/src/controllers/tenants.controller.ts:68 | the linked role defaults to `admin` and is otherwise stored as given |
| Tenants.LinkProfiles | backend/src/controllers/tenants.controller.ts:66-69 | exactly the profiles with the id get the company and the role |
| Tenants.LinkMakesAdmin | backend/src/controllers/tenants.controller.ts:62-76 | linking a user without a role makes them an admin of that company |
| Tenants.LinkKeepsIds | backend/src/controllers/tenants.controller.ts:66-69 | linking changes no profile id |
| Tenants.LinkUser | backend/src/controllers/tenants.controller.ts:62-76 | success with no role check, whether or not a profile matched |
| Tenants.Update | backend/src/controllers/tenants.controller.ts:78-93 | the rewrite by id and success, with no role check |
| Tenants.UpdateMayBlankName | backend/src/controllers/tenants.controller.ts:78-93 | unlike create, update stores an empty name |
| Tenants.DropById | backend/src/controllers/tenants.controller.ts:100-103 | delete removes exactly the company with the id |
| Tenants.Delete | backend/src/controllers/tenants.controller.ts:95-110 | the removal by id and success, with no role check |
| RouteGuard.PublicPrefixes | frontend/middleware.ts:43-44 | a path is public exactly when it starts with `/login`, `/register` or `/auth/callback` |
| RouteGuard.Decide | frontend/middleware.ts:35-57 | assets always pass; redirect to login exactly when signed out on a non-public non-asset path; to the dashboard exactly when signed in on exactly `/login`; otherwise pass |
| RouteGuard.PageNotAsset | frontend/middleware.ts:38 | a dotless path that does not start with `/_` or `/s` is not an asset |
| RouteGuard.PublicPagesOpen | frontend/middleware.ts:47-57 | a signed-out request for a public route is never redirected |
| RouteGuard.OnlyExactLoginRedirects | frontend/middleware.ts:52-55 | only exactly `/login` sends a signed-in user to the dashboard; `/register` and `/login/` pass |
| RouteGuard.PrefixWidensPublic | frontend/middleware.ts:44 | the prefix test makes `/loginhelp` public |
| RouteGuard.AssetCheckFirst | frontend/middleware.ts:38-40 | the asset check runs before both redirects |
| RouteGuard.ProtectedPagesClosed | frontend/middleware.ts:47-50 | a signed-out request for `/dashboard` goes to the login page; a signed-in one passes |

## Left out

- Data-store internals are abstracted to in-memory tables. This covers PostgREST query semantics, how `!inner` joins drop rows without a category or unit (backend/src/controllers/reports.controller.ts:126-128), and `.single()` errors other than "not exactly one row". The summary and the export select from every payable of the company.
- Store and network errors that answer 500 or 400 with the error text are not modelled. Each store write is taken to succeed, except where the code acts on a failure: the identity-provider calls and the profile insert of `Users.Create`, the auth delete of `Users.Delete`, and the alert queries.
- Amounts are integer cents, not JavaScript floating-point `Number` sums.
- Timezones are left out. "Today" and "now" are parameters in UTC. The local-midnight `toISOString()` shifts of the month windows are not modelled, and the `payment_date` written as a full timestamp is kept as its date.
- Message text, HTML templates, `toFixed` and `toLocaleDateString` formatting are left out. The Resend and axios transport, the WhatsApp instance URL, the xlsx workbook serialisation and headers, and the cron registration (backend/src/services/alert.service.ts:92-101) are left out too. Dispatches record the recipient, the account label, the amount and the due date.
- The log lines of the services are left out.
- backend/src/services/email.service.ts is not part of this model. It is an older copy of the sweep that nothing imports. backend/src/controllers/plans.controller.ts, the route table, the server bootstrap, the front-end pages and the one-off scripts are not part of this model either.
- The middleware's cookie plumbing, session retrieval and `matcher` configuration are left out. The decision takes "signed in" as a parameter.
- Passwords are left out. They go to the identity provider only.
- A malformed `month` query value (not `YYYY-MM`) is not modelled: the filter takes a valid month or none. Date query values are likewise valid dates or absent.
- Request bodies are full records. A field left out of a JSON body, which the store then leaves untouched, is modelled as the value "" or `None` being written. For `linkUser` this means an absent `companyId` is the same as clearing it.
- Text ordering is by code unit, without the database's collation.
- Group keys of the report accumulators keep first-appearance order. JavaScript's reordering of integer-like object keys is not modelled.
- Reports.ExportXls: the row order is stated as some ascending permutation of the selection. Rows that tie on the filter column keep no particular order.
- Users.Create: whether the profile insert and the compensating identity-provider delete succeed are parameters. The model says what follows from each outcome; it does not predict them.
- Alerts.AlertService.RunDailyCheck: a failing send is recorded like a successful one, because the code catches the error and goes on. Which accounts' recipient lookups fail is a parameter.
- Reports.DashboardDetailedStats: store errors, which the code answers with 500, are not modelled.
