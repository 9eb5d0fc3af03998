/** `SupplierController`: the `suppliers` table of a company. */
module Suppliers {
  import opened Tenancy
  import opened Sequences
  import opened Store

  /** The `name` column that `list` orders by. */
  function NameOf(s: SupplierRow): string {
    s.name
  }

  function CompanySuppliers(rows: seq<SupplierRow>, c: Uuid): (r: seq<SupplierRow>)
    ensures forall s :: s in r <==> s in rows && s.companyId == c
  {
    Filter(rows, (s: SupplierRow) => s.companyId == c)
  }

  /** `list`: 403 without a context, `[]` without a company (a superadmin
      too), otherwise the caller's company's suppliers by name. */
  method List(db: Database, uid: Uuid) returns (out: Outcome<seq<SupplierRow>>)
    ensures LookupContext(db.users, uid).None? ==> out == Forbidden403
    ensures LookupContext(db.users, uid).Some? && LookupContext(db.users, uid).value.companyId.None? ==>
      out == Ok([])
    ensures LookupContext(db.users, uid).Some? && LookupContext(db.users, uid).value.companyId.Some? ==>
      && out.Ok?
      && multiset(out.value) == multiset(CompanySuppliers(db.suppliers, LookupContext(db.users, uid).value.companyId.value))
      && SortedBy(out.value, ByText(NameOf))
  {
    var ctx := LookupContext(db.users, uid);
    if ctx.None? {
      return Forbidden403;
    }
    if ctx.value.companyId.None? {
      return Ok([]);
    }
    ByTextOrder(NameOf);
    out := Ok(SortBy(CompanySuppliers(db.suppliers, ctx.value.companyId.value), ByText(NameOf)));
  }

  /** The seven columns `create` and `update` take from the body. */
  datatype SupplierFields = SupplierFields(
    name: string, document: string, bank: string, notes: string,
    address: string, phone: string, email: string)

  function NewSupplier(id: Uuid, company: Uuid, f: SupplierFields): SupplierRow {
    SupplierRow(id, company, f.name, f.document, f.bank, f.notes, f.address, f.phone, f.email)
  }

  /** `create`: the shared create checks, then the insert into the target
      company. `newId` is the id the store assigns. */
  method Create(db: Database, uid: Uuid, requested: Option<Uuid>, f: SupplierFields, newId: Uuid)
    returns (out: Outcome<SupplierRow>)
    modifies db`suppliers
    ensures var g := CreateGrant(LookupContext(db.users, uid), requested);
      && (g.Refuse? ==> out == Answer(g.why) && db.suppliers == old(db.suppliers))
      && (g.Allow? ==>
            out == Created(NewSupplier(newId, g.company, f))
            && db.suppliers == old(db.suppliers) + [NewSupplier(newId, g.company, f)])
  {
    var g := CreateGrant(LookupContext(db.users, uid), requested);
    if g.Refuse? {
      return Answer(g.why);
    }
    var row := NewSupplier(newId, g.company, f);
    db.suppliers := db.suppliers + [row];
    out := Created(row);
  }

  /** A row after `update`: the seven body columns replaced. */
  function Rewritten(s: SupplierRow, f: SupplierFields): SupplierRow {
    s.(name := f.name, document := f.document, bank := f.bank, notes := f.notes,
       address := f.address, phone := f.phone, email := f.email)
  }

  /** `.update(...).eq('id', id)`: every row with that id, in any company. */
  function RewriteById(rows: seq<SupplierRow>, id: Uuid, f: SupplierFields): seq<SupplierRow> {
    ReplaceWhere(rows, (s: SupplierRow) => s.id == id, (s: SupplierRow) => Rewritten(s, f))
  }

  /** An update keeps every row's id and company, and writes the seven body
      columns of every row with the id, whichever company owns it. */
  lemma RewriteKeepsOwner(rows: seq<SupplierRow>, id: Uuid, f: SupplierFields, i: int)
    requires 0 <= i < |rows|
    ensures RewriteById(rows, id, f)[i].id == rows[i].id
    ensures RewriteById(rows, id, f)[i].companyId == rows[i].companyId
    ensures rows[i].id == id ==>
      var r := RewriteById(rows, id, f)[i];
      SupplierFields(r.name, r.document, r.bank, r.notes, r.address, r.phone, r.email) == f
  {
  }

  /** `update`: 403 only for a known viewer; otherwise `{ success }`. */
  method Update(db: Database, uid: Uuid, id: Uuid, f: SupplierFields) returns (out: Outcome<()>)
    modifies db`suppliers
    ensures ViewerOnly(LookupContext(db.users, uid)) ==> out == Forbidden403 && db.suppliers == old(db.suppliers)
    ensures !ViewerOnly(LookupContext(db.users, uid)) ==> out == Done && db.suppliers == RewriteById(old(db.suppliers), id, f)
  {
    if ViewerOnly(LookupContext(db.users, uid)) {
      return Forbidden403;
    }
    db.suppliers := RewriteById(db.suppliers, id, f);
    out := Done;
  }

  function DropById(rows: seq<SupplierRow>, id: Uuid): (r: seq<SupplierRow>)
    ensures forall s :: s in r <==> s in rows && s.id != id
  {
    Filter(rows, (s: SupplierRow) => s.id != id)
  }

  /** `delete`: 403 only for a known viewer; otherwise `{ success }`. */
  method Delete(db: Database, uid: Uuid, id: Uuid) returns (out: Outcome<()>)
    modifies db`suppliers
    ensures ViewerOnly(LookupContext(db.users, uid)) ==> out == Forbidden403 && db.suppliers == old(db.suppliers)
    ensures !ViewerOnly(LookupContext(db.users, uid)) ==> out == Done && db.suppliers == DropById(old(db.suppliers), id)
  {
    if ViewerOnly(LookupContext(db.users, uid)) {
      return Forbidden403;
    }
    db.suppliers := DropById(db.suppliers, id);
    out := Done;
  }

  /** A caller without any profile is not refused by `update` or `delete`. */
  lemma UnknownCallerMayWrite(users: seq<UserRow>, uid: Uuid)
    requires |UsersWithId(users, uid)| != 1
    ensures !ViewerOnly(LookupContext(users, uid))
  {
  }
}
