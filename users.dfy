/** `UserController`: the caller's own profile, the member list, and member
    creation, update and removal, which keep the `users` profile table and
    the identity provider's users in step. */
module Users {
  import opened Tenancy
  import opened Sequences
  import opened Store

  // -------------------------------------------------------------------- me

  /** `me`: 404 when the caller has no profile, otherwise their context. */
  method Me(db: Database, uid: Uuid) returns (out: Outcome<Context>)
    ensures out == NotFound404 <==> |UsersWithId(db.users, uid)| != 1
    ensures out.Ok? ==> exists u :: u in db.users && u.id == uid && out.value == ContextOf(u)
    ensures out.Ok? || out == NotFound404
  {
    var ctx := LookupContext(db.users, uid);
    if ctx.None? {
      return NotFound404;
    }
    out := Ok(ctx.value);
  }

  // ------------------------------------------------------------------ list

  /** The `name` column that `list` orders by. */
  function NameOf(u: UserRow): string {
    u.name
  }

  function Visible(users: seq<UserRow>, scope: ReadScope): (r: seq<UserRow>)
    ensures forall u :: u in r <==> u in users && Reads(scope, u.companyId)
  {
    Filter(users, (u: UserRow) => Reads(scope, u.companyId))
  }

  /** A superadmin sees every member; a caller who is not a superadmin and
      has no company sees none. */
  lemma VisibleExtremes(users: seq<UserRow>, ctx: Context)
    ensures ctx.role == Superadmin ==> Visible(users, RoleReadScope(ctx)) == users
    ensures ctx.role != Superadmin && ctx.companyId.None? ==> Visible(users, RoleReadScope(ctx)) == []
  {
    if ctx.role == Superadmin {
      FilterKeepsAll(users, (u: UserRow) => Reads(RoleReadScope(ctx), u.companyId));
    } else if ctx.companyId.None? {
      FilterKeepsNone(users, (u: UserRow) => Reads(RoleReadScope(ctx), u.companyId));
    }
  }

  /** `list`: 403 without a context; otherwise the members the caller's role
      may read, ordered by name. */
  method List(db: Database, uid: Uuid) returns (out: Outcome<seq<UserRow>>)
    ensures LookupContext(db.users, uid).None? ==> out == Forbidden403
    ensures LookupContext(db.users, uid).Some? ==>
      && out.Ok?
      && multiset(out.value) == multiset(Visible(db.users, RoleReadScope(LookupContext(db.users, uid).value)))
      && SortedBy(out.value, ByText(NameOf))
  {
    var ctx := LookupContext(db.users, uid);
    if ctx.None? {
      return Forbidden403;
    }
    var scope := RoleReadScope(ctx.value);
    if scope.Nothing? {
      VisibleExtremes(db.users, ctx.value);
      return Ok([]);
    }
    ByTextOrder(NameOf);
    out := Ok(SortBy(Visible(db.users, scope), ByText(NameOf)));
  }

  // ---------------------------------------------------------------- create

  /** The first check of `create`: no context or no company, unless a superadmin. */
  predicate NeedsCompany(ctx: Option<Context>) {
    (ctx.None? || ctx.value.companyId.None?) && !(ctx.Some? && ctx.value.role == Superadmin)
  }

  /** The second check: only `admin` and `superadmin` manage members. */
  predicate NotManager(ctx: Option<Context>) {
    ctx.Some? && ctx.value.role != Admin && ctx.value.role != Superadmin
  }

  /** Who passes both checks: a superadmin, with or without a company, or an
      admin bound to a company. */
  function MayAddMembers(ctx: Option<Context>): (ok: bool)
    ensures ok <==> !NeedsCompany(ctx) && !NotManager(ctx)
  {
    ctx.Some? && (ctx.value.role == Superadmin || (ctx.value.role == Admin && ctx.value.companyId.Some?))
  }

  /** The fields of a new member taken from the body; the password goes to
      the identity provider only and is not modelled. */
  datatype NewMember = NewMember(email: string, name: string, role: string, phone: string, companyId: Option<Uuid>)

  /** `role || 'visualizacao'` */
  function MemberRole(role: string): (r: string)
    ensures r != ""
    ensures role != "" ==> r == role
    ensures role == "" ==> ParseRole(r) == Visualizacao
  {
    if role == "" then "visualizacao" else role
  }

  function MemberRow(id: Uuid, m: NewMember, target: Option<Uuid>): UserRow {
    UserRow(id, m.name, m.email, m.phone, target, MemberRole(m.role))
  }

  /** The profiles after `create` reached the insert. */
  function ProfilesAfterCreate(users: seq<UserRow>, row: UserRow, inserted: bool): seq<UserRow> {
    if inserted then users + [row] else users
  }

  /** The identity provider's users after `create` made `id`: it stays when
      the profile was inserted, and the compensating delete removes it
      otherwise, if that delete goes through. */
  function AuthAfterCreate(auth: set<Uuid>, id: Uuid, inserted: bool, cleanedUp: bool): set<Uuid> {
    if inserted || !cleanedUp then auth + {id} else auth + {id} - {id}
  }

  /** Every identity-provider user has a profile. */
  predicate Paired(auth: set<Uuid>, users: seq<UserRow>) {
    forall a :: a in auth ==> exists u :: u in users && u.id == a
  }

  /** A `create` that inserts the profile, or whose compensating delete goes
      through, leaves no identity-provider user without a profile. */
  lemma CreateKeepsPaired(auth: set<Uuid>, users: seq<UserRow>, row: UserRow, inserted: bool, cleanedUp: bool)
    requires Paired(auth, users)
    requires inserted || cleanedUp
    ensures Paired(AuthAfterCreate(auth, row.id, inserted, cleanedUp), ProfilesAfterCreate(users, row, inserted))
  {
    var auth' := AuthAfterCreate(auth, row.id, inserted, cleanedUp);
    var users' := ProfilesAfterCreate(users, row, inserted);
    forall a | a in auth' ensures exists u :: u in users' && u.id == a {
      if a == row.id && inserted {
        assert row in users';
      } else {
        var u :| u in users && u.id == a;
        assert u in users';
      }
    }
  }

  /** `create`. `authId` is the user the identity provider made (`None`
      when it refused); `inserted` whether the profile insert went through;
      `cleanedUp` whether the compensating delete went through. */
  method Create(db: Database, uid: Uuid, m: NewMember, authId: Option<Uuid>, inserted: bool, cleanedUp: bool)
    returns (out: Outcome<UserRow>)
    modifies db`users, db`authUsers
    ensures var ctx := LookupContext(old(db.users), uid);
      && (!MayAddMembers(ctx) ==>
            out == Forbidden403 && db.users == old(db.users) && db.authUsers == old(db.authUsers))
      && (MayAddMembers(ctx) && authId.None? ==>
            out == BadRequest400 && db.users == old(db.users) && db.authUsers == old(db.authUsers))
      && (MayAddMembers(ctx) && authId.Some? ==>
            var row := MemberRow(authId.value, m, TargetCompany(ctx.value, m.companyId));
            && out == (if inserted then Created(row) else BadRequest400)
            && db.users == ProfilesAfterCreate(old(db.users), row, inserted)
            && db.authUsers == AuthAfterCreate(old(db.authUsers), authId.value, inserted, cleanedUp))
  {
    var ctx := LookupContext(db.users, uid);
    if NeedsCompany(ctx) {
      return Forbidden403;
    }
    if NotManager(ctx) {
      return Forbidden403;
    }
    var target := TargetCompany(ctx.value, m.companyId);
    if authId.None? {
      return BadRequest400;
    }
    var id := authId.value;
    db.authUsers := db.authUsers + {id};
    var row := MemberRow(id, m, target);
    if !inserted {
      if cleanedUp {
        db.authUsers := db.authUsers - {id};
      }
      return BadRequest400;
    }
    db.users := db.users + [row];
    out := Created(row);
  }

  // ---------------------------------------------------------------- update

  /** The body of `update`: `name`, `role` and `phone` always, `companyId`
      only when a superadmin sends it. */
  datatype MemberEdit = MemberEdit(name: string, role: string, phone: string, companyId: Option<Uuid>)

  function Edited(u: UserRow, e: MemberEdit, ctx: Context): UserRow {
    u.(name := e.name, role := e.role, phone := e.phone,
       companyId := if ctx.role == Superadmin && e.companyId.Some? then e.companyId else u.companyId)
  }

  /** `.update(updateData).eq('id', id)`: every profile with that id, in any company. */
  function EditProfiles(users: seq<UserRow>, id: Uuid, e: MemberEdit, ctx: Context): (r: seq<UserRow>)
    ensures |r| == |users|
    ensures forall i :: 0 <= i < |users| ==> r[i] == (if users[i].id == id then Edited(users[i], e, ctx) else users[i])
  {
    if users == [] then []
    else [if users[0].id == id then Edited(users[0], e, ctx) else users[0]] + EditProfiles(users[1..], id, e, ctx)
  }

  /** Only a superadmin who sends `companyId` moves a member to another
      company; an admin may edit a member of any company. */
  lemma EditMovesOnlyForSuperadmin(users: seq<UserRow>, id: Uuid, e: MemberEdit, ctx: Context, i: int)
    requires 0 <= i < |users|
    ensures EditProfiles(users, id, e, ctx)[i].companyId != users[i].companyId ==>
      ctx.role == Superadmin && e.companyId.Some? && users[i].id == id
    ensures users[i].id == id ==>
      EditProfiles(users, id, e, ctx)[i].name == e.name && EditProfiles(users, id, e, ctx)[i].role == e.role
  {
  }

  /** `update`: 403 unless an admin or a superadmin. */
  method Update(db: Database, uid: Uuid, id: Uuid, e: MemberEdit) returns (out: Outcome<()>)
    modifies db`users
    ensures var ctx := LookupContext(old(db.users), uid);
      && (!ManagesUsers(ctx) ==> out == Forbidden403 && db.users == old(db.users))
      && (ManagesUsers(ctx) ==> out == Done && db.users == EditProfiles(old(db.users), id, e, ctx.value))
  {
    var ctx := LookupContext(db.users, uid);
    if !ManagesUsers(ctx) {
      return Forbidden403;
    }
    db.users := EditProfiles(db.users, id, e, ctx.value);
    out := Done;
  }

  // ---------------------------------------------------------------- delete

  function WithoutProfile(users: seq<UserRow>, id: Uuid): (r: seq<UserRow>)
    ensures forall u :: u in r <==> u in users && u.id != id
  {
    Filter(users, (u: UserRow) => u.id != id)
  }

  /** `delete`: 403 unless an admin or a superadmin; otherwise the profile
      goes first, then the identity-provider user (`authDeleted` says
      whether that went through), and the answer is success either way. */
  method Delete(db: Database, uid: Uuid, id: Uuid, authDeleted: bool) returns (out: Outcome<()>)
    modifies db`users, db`authUsers
    ensures var ctx := LookupContext(old(db.users), uid);
      && (!ManagesUsers(ctx) ==>
            out == Forbidden403 && db.users == old(db.users) && db.authUsers == old(db.authUsers))
      && (ManagesUsers(ctx) ==>
            && out == Done
            && db.users == WithoutProfile(old(db.users), id)
            && db.authUsers == (if authDeleted then old(db.authUsers) - {id} else old(db.authUsers)))
  {
    var ctx := LookupContext(db.users, uid);
    if !ManagesUsers(ctx) {
      return Forbidden403;
    }
    db.users := WithoutProfile(db.users, id);
    if authDeleted {
      db.authUsers := db.authUsers - {id};
    }
    out := Done;
  }

  /** A failed identity-provider delete leaves a user without a profile
      behind, although the answer is success. */
  lemma DeleteMayOrphan(auth: set<Uuid>, users: seq<UserRow>, id: Uuid)
    requires id in auth
    ensures !Paired(auth, WithoutProfile(users, id))
  {
  }
}
