/** The tables the controllers read and write through the data-store client,
    held in memory, and the two lookups every request starts from: the
    caller's context and the names joined onto a payable. */
module Store {
  import opened Tenancy
  import opened Calendar
  import opened Sequences

  /** A row of `accounts_payable`. Amounts are in cents; `paymentDate` is
      `None` while the bill is unpaid. `description` is a column no handler
      writes, read only by the alert sweep. */
  datatype Payable = Payable(
    id: Uuid,
    companyId: Uuid,
    supplierId: Option<Uuid>,
    unitId: Option<Uuid>,
    categoryId: Option<Uuid>,
    documentNumber: string,
    dueDate: Date,
    amount: int,
    notes: string,
    barcodeOrPix: string,
    description: string,
    paymentDate: Option<Date>,
    createdAt: Instant,
    createdBy: Uuid)

  predicate IsPaid(p: Payable) {
    p.paymentDate.Some?
  }

  /** A row of `users` (the profile kept beside the identity provider's user). */
  datatype UserRow = UserRow(
    id: Uuid, name: string, email: string, phone: string,
    companyId: Option<Uuid>, role: string)

  datatype SupplierRow = SupplierRow(
    id: Uuid, companyId: Uuid, name: string, document: string, bank: string,
    notes: string, address: string, phone: string, email: string)

  datatype UnitRow = UnitRow(id: Uuid, companyId: Uuid, name: string, address: string, phone: string)

  datatype CategoryRow = CategoryRow(id: Uuid, name: string)

  datatype CompanyRow = CompanyRow(
    id: Uuid, name: string, cnpj: string, address: string, phone: string,
    email: string, createdAt: Instant)

  /** A payable with the names of its supplier, category and unit, as the
      `suppliers (name)`, `expense_categories (name)`, `units (name)` embeds
      return them; "" when the reference is unset or the name is empty. */
  datatype Joined = Joined(row: Payable, supplier: string, category: string, unit: string)

  // -------------------------------------------------------------- context

  function UsersWithId(users: seq<UserRow>, uid: Uuid): seq<UserRow> {
    Filter(users, (u: UserRow) => u.id == uid)
  }

  function ContextOf(u: UserRow): Context {
    Context(u.companyId, ParseRole(u.role))
  }

  /** `getUserContext`: `.single()` yields a row only when exactly one
      `users` row has the caller's id; otherwise the context is missing. */
  function LookupContext(users: seq<UserRow>, uid: Uuid): (ctx: Option<Context>)
    ensures ctx.Some? <==> |UsersWithId(users, uid)| == 1
    ensures ctx.Some? ==> exists u :: u in users && u.id == uid && ctx.value == ContextOf(u)
  {
    var found := UsersWithId(users, uid);
    if |found| == 1 then
      assert found[0] in found;
      Some(ContextOf(found[0]))
    else None
  }

  // ----------------------------------------------------------------- join

  /** The name of the first row with the referenced id, "" if none. */
  function SupplierName(rows: seq<SupplierRow>, ref: Option<Uuid>): (name: string)
    ensures name != "" ==> exists s :: s in rows && Some(s.id) == ref && s.name == name
    ensures forall i ::
      (0 <= i < |rows| && Some(rows[i].id) == ref && forall k :: 0 <= k < i ==> rows[k].id != rows[i].id)
      ==> name == rows[i].name
    ensures (forall s :: s in rows ==> Some(s.id) != ref) ==> name == ""
  {
    if rows == [] || ref.None? then ""
    else if rows[0].id == ref.value then rows[0].name
    else SupplierName(rows[1..], ref)
  }

  function UnitName(rows: seq<UnitRow>, ref: Option<Uuid>): (name: string)
    ensures name != "" ==> exists u :: u in rows && Some(u.id) == ref && u.name == name
    ensures forall i ::
      (0 <= i < |rows| && Some(rows[i].id) == ref && forall k :: 0 <= k < i ==> rows[k].id != rows[i].id)
      ==> name == rows[i].name
    ensures (forall u :: u in rows ==> Some(u.id) != ref) ==> name == ""
  {
    if rows == [] || ref.None? then ""
    else if rows[0].id == ref.value then rows[0].name
    else UnitName(rows[1..], ref)
  }

  function CategoryName(rows: seq<CategoryRow>, ref: Option<Uuid>): (name: string)
    ensures name != "" ==> exists c :: c in rows && Some(c.id) == ref && c.name == name
    ensures forall i ::
      (0 <= i < |rows| && Some(rows[i].id) == ref && forall k :: 0 <= k < i ==> rows[k].id != rows[i].id)
      ==> name == rows[i].name
    ensures (forall c :: c in rows ==> Some(c.id) != ref) ==> name == ""
  {
    if rows == [] || ref.None? then ""
    else if rows[0].id == ref.value then rows[0].name
    else CategoryName(rows[1..], ref)
  }

  function JoinAll(rows: seq<Payable>, suppliers: seq<SupplierRow>, categories: seq<CategoryRow>,
                   units: seq<UnitRow>): (js: seq<Joined>)
    ensures |js| == |rows|
    ensures forall i :: 0 <= i < |js| ==> js[i].row == rows[i]
    ensures forall i :: 0 <= i < |js| ==>
      && js[i].supplier == SupplierName(suppliers, rows[i].supplierId)
      && js[i].category == CategoryName(categories, rows[i].categoryId)
      && js[i].unit == UnitName(units, rows[i].unitId)
  {
    if rows == [] then []
    else
      var p := rows[0];
      [Joined(p, SupplierName(suppliers, p.supplierId), CategoryName(categories, p.categoryId),
              UnitName(units, p.unitId))]
      + JoinAll(rows[1..], suppliers, categories, units)
  }

  /** The payables under a list of joined rows. */
  function RowsOf(js: seq<Joined>): (rows: seq<Payable>)
    ensures |rows| == |js|
  {
    seq(|js|, i requires 0 <= i < |js| => js[i].row)
  }

  function PayablesOf(rows: seq<Payable>, c: Uuid): seq<Payable> {
    Filter(rows, (p: Payable) => p.companyId == c)
  }

  function JoinedOf(js: seq<Joined>, c: Uuid): seq<Joined> {
    Filter(js, (j: Joined) => j.row.companyId == c)
  }

  /** Scoping the joined rows and then dropping the names gives the company's
      payables: both views of a tenant hold the same bills. */
  lemma {:induction false} JoinedOfRows(js: seq<Joined>, c: Uuid)
    ensures RowsOf(JoinedOf(js, c)) == PayablesOf(RowsOf(js), c)
  {
    if js != [] {
      JoinedOfRows(js[1..], c);
      assert RowsOf(js) == [js[0].row] + RowsOf(js[1..]);
      if js[0].row.companyId == c {
        assert RowsOf([js[0]] + JoinedOf(js[1..], c)) == [js[0].row] + RowsOf(JoinedOf(js[1..], c));
      }
    }
  }

  lemma RowsOfJoinAll(rows: seq<Payable>, suppliers: seq<SupplierRow>, categories: seq<CategoryRow>,
                      units: seq<UnitRow>)
    ensures RowsOf(JoinAll(rows, suppliers, categories, units)) == rows
  {
  }

  // ------------------------------------------------------------- database

  /** The data store: one sequence per table, plus the ids known to the
      identity provider. */
  class Database {
    var accountsPayable: seq<Payable>
    var users: seq<UserRow>
    var suppliers: seq<SupplierRow>
    var units: seq<UnitRow>
    var categories: seq<CategoryRow>
    var companies: seq<CompanyRow>
    var authUsers: set<Uuid>

    constructor ()
      ensures accountsPayable == [] && users == [] && suppliers == [] && units == []
      ensures categories == [] && companies == [] && authUsers == {}
    {
      accountsPayable, users, suppliers, units := [], [], [], [];
      categories, companies, authUsers := [], [], {};
    }

    /** `accounts_payable` with the supplier, category and unit names embedded. */
    function JoinedPayables(): (js: seq<Joined>)
      reads this
      ensures RowsOf(js) == accountsPayable
      ensures forall i :: 0 <= i < |js| ==>
        && js[i].supplier == SupplierName(suppliers, accountsPayable[i].supplierId)
        && js[i].category == CategoryName(categories, accountsPayable[i].categoryId)
        && js[i].unit == UnitName(units, accountsPayable[i].unitId)
    {
      RowsOfJoinAll(accountsPayable, suppliers, categories, units);
      JoinAll(accountsPayable, suppliers, categories, units)
    }
  }
}
