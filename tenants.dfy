/** `TenantController`: the `companies` table (the tenants) and the linking of
    a user to one. Only `list` looks at the caller; the other handlers take
    no caller at all. */
module Tenants {
  import opened Tenancy
  import opened Calendar
  import opened Sequences
  import opened Store

  /** `order('created_at', { ascending: false })` */
  predicate NewerFirst(a: CompanyRow, b: CompanyRow) {
    InstantAtOrBefore(b.createdAt, a.createdAt)
  }

  lemma NewerFirstOrder()
    ensures TotalPreorder(NewerFirst)
  {
    forall a: CompanyRow, b: CompanyRow | true ensures NewerFirst(a, b) || NewerFirst(b, a) {
      InstantAtOrBeforeTotal(a.createdAt, b.createdAt);
    }
    forall a: CompanyRow, b: CompanyRow, c: CompanyRow | NewerFirst(a, b) && NewerFirst(b, c)
      ensures NewerFirst(a, c)
    {
      InstantAtOrBeforeTransitive(c.createdAt, b.createdAt, a.createdAt);
    }
  }

  /** `list`: 403 without a profile, `[]` for every role but superadmin, and
      for a superadmin every company, newest first. */
  method List(db: Database, uid: Uuid) returns (out: Outcome<seq<CompanyRow>>)
    ensures LookupContext(db.users, uid).None? ==> out == Forbidden403
    ensures LookupContext(db.users, uid).Some? && LookupContext(db.users, uid).value.role != Superadmin ==>
      out == Ok([])
    ensures LookupContext(db.users, uid).Some? && LookupContext(db.users, uid).value.role == Superadmin ==>
      && out.Ok?
      && multiset(out.value) == multiset(db.companies)
      && SortedBy(out.value, NewerFirst)
  {
    var ctx := LookupContext(db.users, uid);
    if ctx.None? {
      return Forbidden403;
    }
    if ctx.value.role != Superadmin {
      return Ok([]);
    }
    NewerFirstOrder();
    out := Ok(SortBy(db.companies, NewerFirst));
  }

  /** The five columns `create` and `update` take from the body. */
  datatype CompanyFields = CompanyFields(name: string, cnpj: string, address: string, phone: string, email: string)

  function NewCompany(id: Uuid, f: CompanyFields, now: Instant): CompanyRow {
    CompanyRow(id, f.name, f.cnpj, f.address, f.phone, f.email, now)
  }

  /** `create`: 400 and no insert unless both `name` and `cnpj` are set. */
  method Create(db: Database, f: CompanyFields, newId: Uuid, now: Instant) returns (out: Outcome<CompanyRow>)
    modifies db`companies
    ensures f.name == "" || f.cnpj == "" ==> out == BadRequest400 && db.companies == old(db.companies)
    ensures f.name != "" && f.cnpj != "" ==>
      out == Created(NewCompany(newId, f, now)) && db.companies == old(db.companies) + [NewCompany(newId, f, now)]
  {
    if f.name == "" || f.cnpj == "" {
      return BadRequest400;
    }
    var row := NewCompany(newId, f, now);
    db.companies := db.companies + [row];
    out := Created(row);
  }

  /** `role || 'admin'` */
  function LinkRole(role: string): (r: string)
    ensures r != ""
    ensures role != "" ==> r == role
    ensures role == "" ==> ParseRole(r) == Admin
  {
    if role == "" then "admin" else role
  }

  /** `.update({ company_id, role }).eq('id', userId)` */
  function LinkProfiles(users: seq<UserRow>, userId: Uuid, company: Option<Uuid>, role: string): (r: seq<UserRow>)
    ensures |r| == |users|
    ensures forall i :: 0 <= i < |users| ==>
      r[i] == (if users[i].id == userId then users[i].(companyId := company, role := LinkRole(role)) else users[i])
  {
    if users == [] then []
    else
      [if users[0].id == userId then users[0].(companyId := company, role := LinkRole(role)) else users[0]]
      + LinkProfiles(users[1..], userId, company, role)
  }

  /** Linking without a role makes the user an admin of the company; when
      exactly one profile has the id, that user's context becomes that. */
  lemma LinkMakesAdmin(users: seq<UserRow>, userId: Uuid, company: Uuid)
    requires |UsersWithId(users, userId)| == 1
    ensures LookupContext(LinkProfiles(users, userId, Some(company), ""), userId) == Some(Context(Some(company), Admin))
  {
    var linked := LinkProfiles(users, userId, Some(company), "");
    LinkKeepsIds(users, userId, Some(company), "");
    var u := UsersWithId(linked, userId)[0];
    assert u in UsersWithId(linked, userId);
    var i :| 0 <= i < |linked| && linked[i] == u;
    assert users[i].id == userId;
  }

  /** Linking rewrites matching profiles in place: the ids, and so who
      matches an id, stay as they were. */
  lemma {:induction false} LinkKeepsIds(users: seq<UserRow>, userId: Uuid, company: Option<Uuid>, role: string)
    ensures |UsersWithId(LinkProfiles(users, userId, company, role), userId)| == |UsersWithId(users, userId)|
  {
    if users != [] {
      LinkKeepsIds(users[1..], userId, company, role);
      var linked := LinkProfiles(users, userId, company, role);
      assert linked == [linked[0]] + LinkProfiles(users[1..], userId, company, role);
      assert users == [users[0]] + users[1..];
    }
  }

  /** `linkUser`: no role check; success whether or not a profile matched. */
  method LinkUser(db: Database, userId: Uuid, company: Option<Uuid>, role: string) returns (out: Outcome<()>)
    modifies db`users
    ensures out == Done && db.users == LinkProfiles(old(db.users), userId, company, role)
  {
    db.users := LinkProfiles(db.users, userId, company, role);
    out := Done;
  }

  function Rewritten(c: CompanyRow, f: CompanyFields): CompanyRow {
    c.(name := f.name, cnpj := f.cnpj, address := f.address, phone := f.phone, email := f.email)
  }

  function RewriteById(rows: seq<CompanyRow>, id: Uuid, f: CompanyFields): seq<CompanyRow> {
    ReplaceWhere(rows, (c: CompanyRow) => c.id == id, (c: CompanyRow) => Rewritten(c, f))
  }

  /** `update`: unlike `create`, no check that `name` and `cnpj` are set. */
  method Update(db: Database, id: Uuid, f: CompanyFields) returns (out: Outcome<()>)
    modifies db`companies
    ensures out == Done && db.companies == RewriteById(old(db.companies), id, f)
  {
    db.companies := RewriteById(db.companies, id, f);
    out := Done;
  }

  /** `update` can blank the name that `create` requires. */
  lemma UpdateMayBlankName(rows: seq<CompanyRow>, id: Uuid, f: CompanyFields, i: int)
    requires f.name == "" && 0 <= i < |rows| && rows[i].id == id
    ensures RewriteById(rows, id, f)[i].name == ""
    ensures RewriteById(rows, id, f)[i].createdAt == rows[i].createdAt
  {
  }

  function DropById(rows: seq<CompanyRow>, id: Uuid): (r: seq<CompanyRow>)
    ensures forall c :: c in r <==> c in rows && c.id != id
  {
    Filter(rows, (c: CompanyRow) => c.id != id)
  }

  /** `delete`: removes the company row only; the rows that refer to it are
      not touched. */
  method Delete(db: Database, id: Uuid) returns (out: Outcome<()>)
    modifies db`companies
    ensures out == Done && db.companies == DropById(old(db.companies), id)
  {
    db.companies := DropById(db.companies, id);
    out := Done;
  }
}
