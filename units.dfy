/** `UnitController`: the `units` table (a company's branches or cost centres). */
module Units {
  import opened Tenancy
  import opened Sequences
  import opened Store

  /** The `name` column that `list` orders by. */
  function NameOf(u: UnitRow): string {
    u.name
  }

  function Visible(rows: seq<UnitRow>, scope: ReadScope): (r: seq<UnitRow>)
    ensures forall u :: u in r <==> u in rows && Reads(scope, Some(u.companyId))
  {
    Filter(rows, (u: UnitRow) => Reads(scope, Some(u.companyId)))
  }

  /** A superadmin reads the units of every company. */
  lemma SuperadminSeesAllUnits(rows: seq<UnitRow>, ctx: Context)
    requires ctx.role == Superadmin
    ensures Visible(rows, RoleReadScope(ctx)) == rows
  {
    FilterKeepsAll(rows, (u: UnitRow) => Reads(RoleReadScope(ctx), Some(u.companyId)));
  }

  /** `list`: 403 without a context; `[]` for a caller who is neither a
      superadmin nor bound to a company; otherwise the units the role may
      read, by name. */
  method List(db: Database, uid: Uuid) returns (out: Outcome<seq<UnitRow>>)
    ensures LookupContext(db.users, uid).None? ==> out == Forbidden403
    ensures LookupContext(db.users, uid).Some? && RoleReadScope(LookupContext(db.users, uid).value).Nothing? ==>
      out == Ok([])
    ensures LookupContext(db.users, uid).Some? ==>
      && out.Ok?
      && multiset(out.value) == multiset(Visible(db.units, RoleReadScope(LookupContext(db.users, uid).value)))
      && SortedBy(out.value, ByText(NameOf))
  {
    var ctx := LookupContext(db.users, uid);
    if ctx.None? {
      return Forbidden403;
    }
    var scope := RoleReadScope(ctx.value);
    if scope.Nothing? {
      FilterKeepsNone(db.units, (u: UnitRow) => Reads(scope, Some(u.companyId)));
      return Ok([]);
    }
    ByTextOrder(NameOf);
    out := Ok(SortBy(Visible(db.units, scope), ByText(NameOf)));
  }

  /** The three columns `create` and `update` take from the body. */
  datatype UnitFields = UnitFields(name: string, address: string, phone: string)

  function NewUnit(id: Uuid, company: Uuid, f: UnitFields): UnitRow {
    UnitRow(id, company, f.name, f.address, f.phone)
  }

  /** `create`: the shared create checks, then `{ company_id, name, address,
      phone }` into the target company. */
  method Create(db: Database, uid: Uuid, requested: Option<Uuid>, f: UnitFields, newId: Uuid)
    returns (out: Outcome<UnitRow>)
    modifies db`units
    ensures var g := CreateGrant(LookupContext(db.users, uid), requested);
      && (g.Refuse? ==> out == Answer(g.why) && db.units == old(db.units))
      && (g.Allow? ==>
            out == Created(NewUnit(newId, g.company, f))
            && db.units == old(db.units) + [NewUnit(newId, g.company, f)])
  {
    var g := CreateGrant(LookupContext(db.users, uid), requested);
    if g.Refuse? {
      return Answer(g.why);
    }
    var row := NewUnit(newId, g.company, f);
    db.units := db.units + [row];
    out := Created(row);
  }

  function Rewritten(u: UnitRow, f: UnitFields): UnitRow {
    u.(name := f.name, address := f.address, phone := f.phone)
  }

  /** `.update({ name, address, phone }).eq('id', id)`, in any company. */
  function RewriteById(rows: seq<UnitRow>, id: Uuid, f: UnitFields): seq<UnitRow> {
    ReplaceWhere(rows, (u: UnitRow) => u.id == id, (u: UnitRow) => Rewritten(u, f))
  }

  /** An update keeps every unit's id and company. */
  lemma RewriteKeepsOwner(rows: seq<UnitRow>, id: Uuid, f: UnitFields, i: int)
    requires 0 <= i < |rows|
    ensures RewriteById(rows, id, f)[i].id == rows[i].id
    ensures RewriteById(rows, id, f)[i].companyId == rows[i].companyId
    ensures rows[i].id == id ==>
      var r := RewriteById(rows, id, f)[i];
      UnitFields(r.name, r.address, r.phone) == f
  {
  }

  /** `update`: 403 only for a known viewer. */
  method Update(db: Database, uid: Uuid, id: Uuid, f: UnitFields) returns (out: Outcome<()>)
    modifies db`units
    ensures ViewerOnly(LookupContext(db.users, uid)) ==> out == Forbidden403 && db.units == old(db.units)
    ensures !ViewerOnly(LookupContext(db.users, uid)) ==> out == Done && db.units == RewriteById(old(db.units), id, f)
  {
    if ViewerOnly(LookupContext(db.users, uid)) {
      return Forbidden403;
    }
    db.units := RewriteById(db.units, id, f);
    out := Done;
  }

  function DropById(rows: seq<UnitRow>, id: Uuid): (r: seq<UnitRow>)
    ensures forall u :: u in r <==> u in rows && u.id != id
  {
    Filter(rows, (u: UnitRow) => u.id != id)
  }

  /** `delete`: 403 only for a known viewer. */
  method Delete(db: Database, uid: Uuid, id: Uuid) returns (out: Outcome<()>)
    modifies db`units
    ensures ViewerOnly(LookupContext(db.users, uid)) ==> out == Forbidden403 && db.units == old(db.units)
    ensures !ViewerOnly(LookupContext(db.users, uid)) ==> out == Done && db.units == DropById(old(db.units), id)
  {
    if ViewerOnly(LookupContext(db.users, uid)) {
      return Forbidden403;
    }
    db.units := DropById(db.units, id);
    out := Done;
  }
}
