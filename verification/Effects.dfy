/**
 The shared state that provisioning works on, and the effects it is made of.

 World holds the registry tables (tenants, users, domains, credentials, jobs, audit), the roles and
 databases of the Postgres instance, and the tenants known to Fineract.  Every call that leaves the
 process is one Effect on that World.  A Fate says what happens to a call: it succeeds, or it raises,
 and a call that raises may or may not have taken effect first.
 */
module Effects {
  import opened Options
  import opened Tenants

  function Get<K, V>(m: map<K, V>, k: K): Option<V> {
    if k in m then Some(m[k]) else None
  }

  datatype Step =
    | VALIDATE
    | CREATE_DB
    | CREATE_DB_USER
    | GRANT_PERMISSIONS
    | RUN_FINERACT_SCHEMA
    | REGISTER_FINERACT_TENANT
    | SAVE_REGISTRY
    | CREATE_ADMIN_USER
    | SEND_WELCOME_EMAIL
    | ACTIVATE
    | DONE

  datatype Role = CEO | OTHER

  datatype TenantRow = TenantRow(
    code: string, dbName: string, dbUser: string, dbHost: string,
    identifier: string, status: Status, isActive: bool)
  datatype UserRow = UserRow(tenant: Option<TenantId>, password: string, role: Role)
  datatype DomainRow = DomainRow(tenant: TenantId, isPrimary: bool)
  datatype JobRow = JobRow(step: Step, success: Option<bool>, error: string)
  datatype Database = Database(owner: string, grantees: set<string>)
  datatype FineractTenant = FineractTenant(dbHost: string, dbName: string, users: map<string, string>)

  /** users is keyed by email and domains by hostname, both unique columns; the job and the audit
      trail kept for a tenant are those of its latest run and of all its rollbacks. */
  datatype World = World(
    tenants: map<TenantId, TenantRow>,
    users: map<string, UserRow>,
    domains: map<string, DomainRow>,
    credentials: map<TenantId, string>,
    jobs: map<TenantId, JobRow>,
    audit: map<TenantId, seq<Step>>,
    roles: map<string, string>,
    databases: map<string, Database>,
    fineract: map<string, FineractTenant>)

  datatype Effect =
    | SaveStatus(id: TenantId, status: Status)
    | SaveDbName(id: TenantId, dbName: string)
    | SaveConnection(id: TenantId, dbUser: string, dbHost: string)
    | SaveIdentifier(id: TenantId, identifier: string)
    | SaveActivation(id: TenantId)
    | SaveJobStep(id: TenantId, step: Step)
    | SaveJob(id: TenantId, job: JobRow)
    | Connect
    | SelectRole(role: string)
    | CreateRole(role: string, password: string)
    | SelectDatabase(dbName: string)
    | CreateDatabase(dbName: string, owner: string)
    | Grant(dbName: string, role: string)
    | DropDatabase(dbName: string)
    | DropRole(role: string)
    | FetchCredential(id: TenantId)
    | SaveCredential(id: TenantId, password: string)
    | CreateFineractTenant(identifier: string, dbHost: string, dbName: string)
    | CreateFineractUser(identifier: string, email: string, password: string)
    | DeleteFineractTenant(identifier: string)
    | CreateUser(email: string, id: TenantId, password: string)
    | DeleteUsers(id: TenantId)
    | QueueEmail
    | CreateDomain(hostname: string, id: TenantId)
    | WriteAudit(id: TenantId, step: Step)

  datatype Result = Done | Absent | Raised(message: string)
  datatype Outcome = Outcome(world: World, result: Result)
  datatype Fate = Succeeds | Fails(tookEffect: bool, message: string)

  const REFUSED := "refused"

  predicate HasPrimary(domains: map<string, DomainRow>, id: TenantId) {
    exists h :: h in domains && domains[h].tenant == id && domains[h].isPrimary
  }

  /** DROP ROLE is refused while a database belongs to the role or grants it privileges. */
  predicate RoleInUse(databases: map<string, Database>, role: string) {
    exists d :: d in databases && (databases[d].owner == role || role in databases[d].grantees)
  }

  predicate DbNameTaken(tenants: map<TenantId, TenantRow>, id: TenantId, dbName: string) {
    exists u :: u in tenants && u != id && tenants[u].dbName == dbName
  }

  predicate IdentifierTaken(tenants: map<TenantId, TenantRow>, id: TenantId, identifier: string) {
    exists u :: u in tenants && u != id && tenants[u].identifier == identifier
  }

  /** User.objects.filter(tenant=id).delete() */
  function WithoutTenant(users: map<string, UserRow>, id: TenantId): map<string, UserRow> {
    map m | m in users && users[m].tenant != Some(id) :: users[m]
  }

  function SaveRow(w: World, id: TenantId, row: TenantRow): Outcome {
    Outcome(w.(tenants := w.tenants[id := row]), Done)
  }

  /** What the called system does with e when nothing goes wrong on the way; constraints of the
      tables and of Postgres are refused with an exception and no change. */
  function Perform(w: World, e: Effect): Outcome {
    var refused := Outcome(w, Raised(REFUSED));
    match e
    case SaveStatus(id, status) =>
      if id in w.tenants then SaveRow(w, id, w.tenants[id].(status := status)) else refused
    case SaveDbName(id, dbName) =>
      if id in w.tenants && !DbNameTaken(w.tenants, id, dbName)
      then SaveRow(w, id, w.tenants[id].(dbName := dbName))
      else refused
    case SaveConnection(id, dbUser, dbHost) =>
      if id in w.tenants then SaveRow(w, id, w.tenants[id].(dbUser := dbUser, dbHost := dbHost)) else refused
    case SaveIdentifier(id, identifier) =>
      if id in w.tenants && !IdentifierTaken(w.tenants, id, identifier)
      then SaveRow(w, id, w.tenants[id].(identifier := identifier))
      else refused
    case SaveActivation(id) =>
      if id in w.tenants then SaveRow(w, id, w.tenants[id].(status := READY, isActive := true)) else refused
    case SaveJobStep(id, step) =>
      if id in w.jobs then Outcome(w.(jobs := w.jobs[id := w.jobs[id].(step := step)]), Done) else refused
    case SaveJob(id, job) =>
      if id in w.jobs then Outcome(w.(jobs := w.jobs[id := job]), Done) else refused
    case Connect => Outcome(w, Done)
    case SelectRole(role) => Outcome(w, if role in w.roles then Done else Absent)
    case CreateRole(role, password) =>
      if role in w.roles then refused else Outcome(w.(roles := w.roles[role := password]), Done)
    case SelectDatabase(dbName) => Outcome(w, if dbName in w.databases then Done else Absent)
    case CreateDatabase(dbName, owner) =>
      if dbName in w.databases || owner !in w.roles then refused
      else Outcome(w.(databases := w.databases[dbName := Database(owner, {})]), Done)
    case Grant(dbName, role) =>
      if dbName !in w.databases || role !in w.roles then refused
      else
        var db := w.databases[dbName];
        Outcome(w.(databases := w.databases[dbName := db.(grantees := db.grantees + {role})]), Done)
    case DropDatabase(dbName) => Outcome(w.(databases := w.databases - {dbName}), Done)
    case DropRole(role) =>
      if role in w.roles && RoleInUse(w.databases, role) then refused else Outcome(w.(roles := w.roles - {role}), Done)
    case FetchCredential(id) =>
      if id in w.credentials then Outcome(w, Done) else Outcome(w.(credentials := w.credentials[id := ""]), Done)
    case SaveCredential(id, password) => Outcome(w.(credentials := w.credentials[id := password]), Done)
    case CreateFineractTenant(identifier, dbHost, dbName) =>
      if identifier in w.fineract then refused
      else Outcome(w.(fineract := w.fineract[identifier := FineractTenant(dbHost, dbName, map[])]), Done)
    case CreateFineractUser(identifier, email, password) =>
      if identifier !in w.fineract || email in w.fineract[identifier].users then refused
      else
        var ft := w.fineract[identifier];
        Outcome(w.(fineract := w.fineract[identifier := ft.(users := ft.users[email := password])]), Done)
    case DeleteFineractTenant(identifier) => Outcome(w.(fineract := w.fineract - {identifier}), Done)
    case CreateUser(email, id, password) =>
      if email == "" || email in w.users then refused
      else Outcome(w.(users := w.users[email := UserRow(Some(id), password, CEO)]), Done)
    case DeleteUsers(id) =>
      Outcome(w.(users := WithoutTenant(w.users, id)), Done)
    case QueueEmail => Outcome(w, Done)
    case CreateDomain(hostname, id) =>
      if hostname in w.domains || HasPrimary(w.domains, id) then refused
      else Outcome(w.(domains := w.domains[hostname := DomainRow(id, true)]), Done)
    case WriteAudit(id, step) =>
      var trail := if id in w.audit then w.audit[id] else [];
      Outcome(w.(audit := w.audit[id := trail + [step]]), Done)
  }

  /** e under a given fate: a call that fails may still have taken effect. */
  function Apply(w: World, e: Effect, f: Fate): Outcome {
    var o := Perform(w, e);
    match f
    case Succeeds => o
    case Fails(tookEffect, message) =>
      Outcome(if tookEffect then o.world else w, Raised(message))
  }
}
