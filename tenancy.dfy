/** The caller's tenant context and the access decisions every controller
    repeats: who may write, which company a new row lands in, and which rows
    a read or a row-level write may reach. */
module Tenancy {

  datatype Option<T> = None | Some(value: T)

  /** A row id or company id. Ids are never empty, so `None` stands for every
      falsy value the controllers test with `!x` (null, undefined, ""). */
  type Uuid = s: string | s != [] witness "0"

  /** The `role` column. Any string can be stored there (users.create keeps
      what the body sends); the four names the code tests are singled out. */
  datatype Role = Superadmin | Admin | Financeiro | Visualizacao | Other(name: string)

  function ParseRole(s: string): (r: Role)
    ensures r.Other? <==> s !in {"superadmin", "admin", "financeiro", "visualizacao"}
  {
    if s == "superadmin" then Superadmin
    else if s == "admin" then Admin
    else if s == "financeiro" then Financeiro
    else if s == "visualizacao" then Visualizacao
    else Other(s)
  }

  function RoleName(r: Role): string {
    match r
    case Superadmin => "superadmin"
    case Admin => "admin"
    case Financeiro => "financeiro"
    case Visualizacao => "visualizacao"
    case Other(s) => s
  }

  /** Reading a stored role and writing it back gives the same string. */
  lemma RoleNameRoundTrip(s: string)
    ensures RoleName(ParseRole(s)) == s
  {
  }

  /** `getUserContext`: the caller's `company_id` and `role`. */
  datatype Context = Context(companyId: Option<Uuid>, role: Role)

  /** An HTTP answer of a handler. `Empty` is the placeholder body (`[]` or
      `{}`) some handlers send instead of their normal response; `Done` is
      `{ success: true }`. */
  datatype Outcome<T> =
    | Forbidden403
    | BadRequest400
    | NotFound404
    | Ok(value: T)
    | Created(value: T)
    | Done
    | Empty

  // ------------------------------------------------------------ creation

  /** The company a create lands in: the body's `companyId` only for a
      superadmin who sends one, otherwise the caller's own company. */
  function TargetCompany(ctx: Context, requested: Option<Uuid>): (t: Option<Uuid>)
    ensures t.Some? ==> t == ctx.companyId || (ctx.role == Superadmin && t == requested)
    ensures ctx.role != Superadmin ==> t == ctx.companyId
  {
    if ctx.role == Superadmin && requested.Some? then requested else ctx.companyId
  }

  datatype Refusal = Forbidden | BadRequest

  datatype Grant = Refuse(why: Refusal) | Allow(company: Uuid)

  /** The checks in front of payables, suppliers and units `create`, in the
      order the controllers make them: no context, viewer role, no target. */
  function CreateGrant(ctx: Option<Context>, requested: Option<Uuid>): (g: Grant)
    ensures g == Refuse(Forbidden) <==> ctx.None? || ctx.value.role == Visualizacao
    ensures g == Refuse(BadRequest) <==>
      ctx.Some? && ctx.value.role != Visualizacao && TargetCompany(ctx.value, requested).None?
    ensures g.Allow? ==> Some(g.company) == TargetCompany(ctx.value, requested)
  {
    if ctx.None? then Refuse(Forbidden)
    else if ctx.value.role == Visualizacao then Refuse(Forbidden)
    else
      var target := TargetCompany(ctx.value, requested);
      if target.None? then Refuse(BadRequest) else Allow(target.value)
  }

  /** The status a refused create answers with. */
  function Answer<T>(why: Refusal): Outcome<T> {
    if why == Forbidden then Forbidden403 else BadRequest400
  }

  /** A caller who is not a superadmin only ever creates rows in their own company. */
  lemma CreateStaysInOwnCompany(ctx: Context, requested: Option<Uuid>)
    requires ctx.role != Superadmin
    ensures CreateGrant(Some(ctx), requested).Allow? ==> Some(CreateGrant(Some(ctx), requested).company) == ctx.companyId
    ensures ctx.companyId.None? ==> CreateGrant(Some(ctx), requested).Refuse?
  {
  }

  /** A superadmin bound to a company who sends no `companyId` writes into
      that company; the request is not refused for lacking a target. */
  lemma SuperadminDefaultsToOwnCompany(c: Uuid)
    ensures CreateGrant(Some(Context(Some(c), Superadmin)), None) == Allow(c)
  {
  }

  // ------------------------------------------------------------ row scope

  /** Which rows a filtered query or a row write can reach. `OnlyCompany(None)`
      is `.eq('company_id', null)`, which matches no row. */
  datatype Scope = AllCompanies | OnlyCompany(company: Option<Uuid>)

  predicate InScope(scope: Scope, company: Uuid) {
    scope.AllCompanies? || scope.company == Some(company)
  }

  /** Payables pay/update/delete: a superadmin matches by id alone, every
      other role also by its own `company_id`. */
  function RowScope(ctx: Context): (s: Scope)
    ensures s.AllCompanies? <==> ctx.role == Superadmin
    ensures forall c: Uuid :: InScope(s, c) ==> ctx.role == Superadmin || ctx.companyId == Some(c)
  {
    if ctx.role == Superadmin then AllCompanies else OnlyCompany(ctx.companyId)
  }

  datatype Guard = Denied | Permitted(scope: Scope)

  /** The checks in front of payables pay/update/delete. */
  function RowWriteGuard(ctx: Option<Context>): (g: Guard)
    ensures g.Denied? <==> ctx.None? || ctx.value.role == Visualizacao
    ensures g.Permitted? ==> g.scope == RowScope(ctx.value)
  {
    if ctx.None? || ctx.value.role == Visualizacao then Denied else Permitted(RowScope(ctx.value))
  }

  /** Suppliers and units update/delete refuse only a known viewer: a caller
      without any context passes (`context?.role === 'visualizacao'`). */
  predicate ViewerOnly(ctx: Option<Context>) {
    ctx.Some? && ctx.value.role == Visualizacao
  }

  /** Users update/delete: only `admin` and `superadmin`. */
  predicate ManagesUsers(ctx: Option<Context>) {
    ctx.Some? && (ctx.value.role == Admin || ctx.value.role == Superadmin)
  }

  // ----------------------------------------------------------- read scope

  datatype ReadScope = Everything | Company(id: Uuid) | Nothing

  predicate Reads(scope: ReadScope, company: Option<Uuid>) {
    scope.Everything? || (scope.Company? && company == Some(scope.id))
  }

  /** Payables and suppliers list: always the caller's company, for a
      superadmin too; nothing for a caller without one. */
  function TenantReadScope(ctx: Context): (s: ReadScope)
    ensures !s.Everything?
    ensures s.Nothing? <==> ctx.companyId.None?
    ensures s.Company? ==> Some(s.id) == ctx.companyId
  {
    if ctx.companyId.None? then Nothing else Company(ctx.companyId.value)
  }

  /** Units and users list: a superadmin sees every company; other roles
      their own company, or nothing without one. */
  function RoleReadScope(ctx: Context): (s: ReadScope)
    ensures s.Everything? <==> ctx.role == Superadmin
    ensures ctx.role != Superadmin ==> s == TenantReadScope(ctx)
  {
    if ctx.role == Superadmin then Everything
    else if ctx.companyId.None? then Nothing
    else Company(ctx.companyId.value)
  }

  /** A caller without a company who is not a superadmin reads no row,
      whichever of the two read rules a list uses. */
  lemma UnboundCallerReadsNothing(ctx: Context, company: Option<Uuid>)
    requires ctx.companyId.None? && ctx.role != Superadmin
    ensures !Reads(TenantReadScope(ctx), company) && !Reads(RoleReadScope(ctx), company)
  {
  }
}
