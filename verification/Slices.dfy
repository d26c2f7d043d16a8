/**
 One tenant's part of the shared world, and the run of one tenant on that part alone.
 */
module Slices {
  import opened Options
  import opened Tenants
  import opened Effects
  import opened Saga

  datatype Slice = Slice(
    row: Option<TenantRow>,
    users: map<string, UserRow>,
    domains: map<string, DomainRow>,
    credential: Option<string>,
    job: Option<JobRow>,
    audit: seq<Step>,
    role: Option<string>,
    database: Option<Database>,
    fineract: Option<FineractTenant>)

  function UsersOf(users: map<string, UserRow>, id: TenantId, email: string): map<string, UserRow> {
    map m | m in users && (users[m].tenant == Some(id) || m == email) :: users[m]
  }

  function DomainsOf(domains: map<string, DomainRow>, id: TenantId, host: string): map<string, DomainRow> {
    map h | h in domains && (domains[h].tenant == id || h == host) :: domains[h]
  }

  /** What of w a run of pl can see or touch: its rows, the rows holding its email and hostname, and
      the role, database and Fineract tenant under its names. */
  ghost function SliceOf(w: World, pl: Plan): Slice {
    Slice(
      Get(w.tenants, pl.id),
      UsersOf(w.users, pl.id, pl.email),
      DomainsOf(w.domains, pl.id, pl.Host()),
      Get(w.credentials, pl.id),
      Get(w.jobs, pl.id),
      if pl.id in w.audit then w.audit[pl.id] else [],
      Get(w.roles, pl.Role()),
      Get(w.databases, pl.DbName()),
      Get(w.fineract, pl.code))
  }

  /** What a run can make. */
  datatype Resource = RoleMade | DatabaseMade | FineractMade | UsersMade | DomainMade

  function Held(x: Slice): set<Resource> {
    (if x.role.Some? then {RoleMade} else {})
    + (if x.database.Some? then {DatabaseMade} else {})
    + (if x.fineract.Some? then {FineractMade} else {})
    + (if x.users != map[] then {UsersMade} else {})
    + (if x.domains != map[] then {DomainMade} else {})
  }

  datatype LocalOutcome = LocalOutcome(slice: Slice, result: Result)

  /** The effects of a tenant's own run on its own slice. */
  ghost function PerformLocal(pl: Plan, x: Slice, e: Effect): LocalOutcome {
    var refused := LocalOutcome(x, Raised(REFUSED));
    match e
    case SaveStatus(_, status) =>
      if x.row.None? then refused else LocalOutcome(x.(row := Some(x.row.value.(status := status))), Done)
    case SaveDbName(_, dbName) =>
      if x.row.None? then refused else LocalOutcome(x.(row := Some(x.row.value.(dbName := dbName))), Done)
    case SaveConnection(_, dbUser, dbHost) =>
      if x.row.None? then refused
      else LocalOutcome(x.(row := Some(x.row.value.(dbUser := dbUser, dbHost := dbHost))), Done)
    case SaveIdentifier(_, identifier) =>
      if x.row.None? then refused else LocalOutcome(x.(row := Some(x.row.value.(identifier := identifier))), Done)
    case SaveActivation(_) =>
      if x.row.None? then refused
      else LocalOutcome(x.(row := Some(x.row.value.(status := READY, isActive := true))), Done)
    case SaveJobStep(_, step) =>
      if x.job.None? then refused else LocalOutcome(x.(job := Some(x.job.value.(step := step))), Done)
    case SaveJob(_, job) => if x.job.None? then refused else LocalOutcome(x.(job := Some(job)), Done)
    case Connect => LocalOutcome(x, Done)
    case SelectRole(_) => LocalOutcome(x, if x.role.Some? then Done else Absent)
    case CreateRole(_, password) =>
      if x.role.Some? then refused else LocalOutcome(x.(role := Some(password)), Done)
    case SelectDatabase(_) => LocalOutcome(x, if x.database.Some? then Done else Absent)
    case CreateDatabase(_, owner) =>
      if x.database.Some? || x.role.None? then refused
      else LocalOutcome(x.(database := Some(Database(owner, {}))), Done)
    case Grant(_, role) =>
      if x.database.None? || x.role.None? then refused
      else
        var db := x.database.value;
        LocalOutcome(x.(database := Some(db.(grantees := db.grantees + {role}))), Done)
    case DropDatabase(_) => LocalOutcome(x.(database := None), Done)
    case DropRole(role) =>
      if x.role.Some? && x.database.Some? && (x.database.value.owner == role || role in x.database.value.grantees)
      then refused
      else LocalOutcome(x.(role := None), Done)
    case FetchCredential(_) =>
      if x.credential.Some? then LocalOutcome(x, Done) else LocalOutcome(x.(credential := Some("")), Done)
    case SaveCredential(_, password) => LocalOutcome(x.(credential := Some(password)), Done)
    case CreateFineractTenant(_, dbHost, dbName) =>
      if x.fineract.Some? then refused
      else LocalOutcome(x.(fineract := Some(FineractTenant(dbHost, dbName, map[]))), Done)
    case CreateFineractUser(_, email, password) =>
      if x.fineract.None? || email in x.fineract.value.users then refused
      else
        var ft := x.fineract.value;
        LocalOutcome(x.(fineract := Some(ft.(users := ft.users[email := password]))), Done)
    case DeleteFineractTenant(_) => LocalOutcome(x.(fineract := None), Done)
    case CreateUser(email, id, password) =>
      if email == "" || email in x.users then refused
      else LocalOutcome(x.(users := x.users[email := UserRow(Some(id), password, CEO)]), Done)
    case DeleteUsers(id) =>
      LocalOutcome(x.(users := WithoutTenant(x.users, id)), Done)
    case QueueEmail => LocalOutcome(x, Done)
    case CreateDomain(hostname, id) =>
      if hostname in x.domains || HasPrimary(x.domains, id) then refused
      else LocalOutcome(x.(domains := x.domains[hostname := DomainRow(id, true)]), Done)
    case WriteAudit(_, step) => LocalOutcome(x.(audit := x.audit + [step]), Done)
  }

  ghost function ApplyLocal(pl: Plan, x: Slice, e: Effect, f: Fate): LocalOutcome {
    var o := PerformLocal(pl, x, e);
    match f
    case Succeeds => o
    case Fails(tookEffect, message) => LocalOutcome(if tookEffect then o.slice else x, Raised(message))
  }

  /** Which effects change which part of a slice. */
  lemma OnlyTheyTouch(pl: Plan, x: Slice, e: Effect)
    ensures var y := PerformLocal(pl, x, e).slice;
            && (!e.CreateDomain? ==> y.domains == x.domains)
            && (!e.CreateUser? && !e.DeleteUsers? ==> y.users == x.users)
            && (!e.CreateRole? && !e.DropRole? ==> y.role == x.role)
            && (!e.CreateDatabase? && !e.DropDatabase? ==> (y.database.Some? <==> x.database.Some?))
            && (!e.CreateFineractTenant? && !e.DeleteFineractTenant? ==> (y.fineract.Some? <==> x.fineract.Some?))
            && (!e.FetchCredential? && !e.SaveCredential? ==> y.credential == x.credential)
            && (x.row.None? <==> y.row.None?)
            && (x.row.Some? && !e.SaveActivation? ==> y.row.value.isActive == x.row.value.isActive)
            && (x.row.Some? && !e.SaveActivation? && !e.SaveStatus? ==> y.row.value.status == x.row.value.status)
  {
    hide WithoutTenant, HasPrimary;
  }

  /** Which calls have those effects. */
  lemma CallKinds(pl: Plan, p: Proc)
    requires !Halted(p)
    ensures var e := EffectOf(pl, p);
            && (e.CreateDomain? <==> p.pc.CreatingDomain?)
            && (e.CreateUser? <==> p.pc.CreatingUser?) && (e.DeleteUsers? <==> p.pc.DeletingUsers?)
            && (e.CreateRole? <==> p.pc.CreatingRole?) && (e.DropRole? <==> p.pc.DroppingRole?)
            && (e.CreateDatabase? <==> p.pc.CreatingDatabase?) && (e.DropDatabase? <==> p.pc.DroppingDatabase?)
            && (e.CreateFineractTenant? <==> p.pc.RegisteringTenant?)
            && (e.DeleteFineractTenant? <==> p.pc.DeletingFineract?)
            && (e.FetchCredential? <==> p.pc.FetchingCredential?) && (e.SaveCredential? <==> p.pc.SavingCredential?)
            && (e.SaveActivation? <==> p.pc.SavingReady?)
            && (e.SaveStatus? <==> p.pc.SavingProvisioning? || p.pc.SavingInitializing? || p.pc.SavingTenantFailure?)
  {
    hide Plan.Role, Plan.DbName, Plan.Host;
  }

  datatype Local = Local(slice: Slice, proc: Proc)

  ghost function NextLocal(pl: Plan, s: Local, f: Fate): Local {
    if Halted(s.proc) then s
    else
      var o := ApplyLocal(pl, s.slice, EffectOf(pl, s.proc), f);
      Local(o.slice, Resume(pl, s.proc, o.result))
  }

  /** The run of pl, alone, on the slice x. */
  ghost function ExecLocal(x: Slice, pl: Plan, fates: seq<Fate>): Local {
    if fates == [] then Local(x, Start(pl))
    else NextLocal(pl, ExecLocal(x, pl, fates[..|fates| - 1]), fates[|fates| - 1])
  }
}
