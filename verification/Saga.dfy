/**
 ProvisioningService.run as a step machine.

 A Proc is one run in progress.  Its program counter names the next external call, EffectOf says which
 Effect that call is, and Resume says where the code goes once the call has returned or raised.  All
 faults and all interleavings are expressed on this machine; Provisioning.dfy shows that the
 imperative code takes exactly these steps.
 */
module Saga {
  import opened Options
  import opened Tenants
  import opened Effects

  /** The declaration order of ProvisionJob.Step, which the rollback walks backwards. */
  const ORDER: seq<Step> := [
    VALIDATE, CREATE_DB, CREATE_DB_USER, GRANT_PERMISSIONS, RUN_FINERACT_SCHEMA,
    REGISTER_FINERACT_TENANT, SAVE_REGISTRY, CREATE_ADMIN_USER, SEND_WELCOME_EMAIL, ACTIVATE, DONE]

  /** order.index(step) */
  function Rank(s: Step): (k: nat)
    ensures k < |ORDER| && ORDER[k] == s
  {
    match s
    case VALIDATE => 0
    case CREATE_DB => 1
    case CREATE_DB_USER => 2
    case GRANT_PERMISSIONS => 3
    case RUN_FINERACT_SCHEMA => 4
    case REGISTER_FINERACT_TENANT => 5
    case SAVE_REGISTRY => 6
    case CREATE_ADMIN_USER => 7
    case SEND_WELCOME_EMAIL => 8
    case ACTIVATE => 9
    case DONE => 10
  }

  const BASE_DOMAIN := "banking.silktechagency.com"

  function RoleName(dbName: string): string { dbName + "_role" }

  function Subdomain(code: string): string { code + "." + BASE_DOMAIN }

  function DefaultDbName(code: string): string { "tenant_" + code }

  /** The tenant row and organization a run starts from, and the two secrets it draws. */
  datatype Plan = Plan(
    id: TenantId, code: string, storedDbName: string, identifier: string,
    email: string, dbHost: string, password: string, adminPassword: string)
  {
    function DbName(): string { if storedDbName == "" then DefaultDbName(code) else storedDbName }
    function Role(): string { RoleName(DbName()) }
    function Host(): string { Subdomain(code) }
  }

  datatype Pc =
    | SavingProvisioning | SavingDbName
    | MarkingStep
    | ConnectingToCreate | SelectingRole | CreatingRole | SelectingDatabase | CreatingDatabase
    | SavingConnection | FetchingCredential | SavingCredential
    | ConnectingToGrant | Granting
    | SavingInitializing
    | RegisteringTenant | SavingIdentifier | ResavingIdentifier
    | CreatingUser | RegisteringUser
    | QueueingEmail
    | CreatingDomain | SavingReady | SavingDone
    | SavingJobFailure | SavingTenantFailure
    | DeletingUsers | DeletingFineract
    | ConnectingToDrop(pass: nat) | DroppingDatabase(pass: nat) | DroppingRole(pass: nat)
    | Auditing
    | Returned | Escaped

  /** step is job.current_step in memory, identifier tenant.fineract_tenant_identifier in memory,
      registrationError the registrar's error ("" is both None and the empty string, which the code
      does not tell apart) and failure the message of the exception that stopped the run. */
  datatype Proc = Proc(pc: Pc, step: Step, identifier: string, registrationError: string, failure: string)

  predicate Halted(p: Proc) { p.pc.Returned? || p.pc.Escaped? }

  /** The calls made after the exception was caught. */
  predicate Recovering(p: Proc) {
    match p.pc
    case SavingJobFailure | SavingTenantFailure | DeletingUsers | DeletingFineract
       | ConnectingToDrop(_) | DroppingDatabase(_) | DroppingRole(_) | Auditing => true
    case _ => false
  }

  function Start(pl: Plan): Proc { Proc(SavingProvisioning, VALIDATE, pl.identifier, "", "") }

  const READY_BUT := "Tenant is READY, but Fineract registration failed and can be retried later: "

  function FinalError(registrationError: string): string {
    if registrationError == "" then "" else READY_BUT + registrationError
  }

  function EffectOf(pl: Plan, p: Proc): Effect
    requires !Halted(p)
  {
    match p.pc
    case SavingProvisioning => SaveStatus(pl.id, PROVISIONING)
    case SavingDbName => SaveDbName(pl.id, pl.DbName())
    case MarkingStep => SaveJobStep(pl.id, p.step)
    case ConnectingToCreate => Connect
    case SelectingRole => SelectRole(pl.Role())
    case CreatingRole => CreateRole(pl.Role(), pl.password)
    case SelectingDatabase => SelectDatabase(pl.DbName())
    case CreatingDatabase => CreateDatabase(pl.DbName(), pl.Role())
    case SavingConnection => SaveConnection(pl.id, pl.Role(), pl.dbHost)
    case FetchingCredential => FetchCredential(pl.id)
    case SavingCredential => SaveCredential(pl.id, pl.password)
    case ConnectingToGrant => Connect
    case Granting => Grant(pl.DbName(), pl.Role())
    case SavingInitializing => SaveStatus(pl.id, INITIALIZING)
    case RegisteringTenant => CreateFineractTenant(pl.code, pl.dbHost, pl.DbName())
    case SavingIdentifier => SaveIdentifier(pl.id, pl.code)
    case ResavingIdentifier => SaveIdentifier(pl.id, pl.code)
    case CreatingUser => CreateUser(pl.email, pl.id, pl.adminPassword)
    case RegisteringUser => CreateFineractUser(p.identifier, pl.email, pl.adminPassword)
    case QueueingEmail => QueueEmail
    case CreatingDomain => CreateDomain(pl.Host(), pl.id)
    case SavingReady => SaveActivation(pl.id)
    case SavingDone => SaveJob(pl.id, JobRow(DONE, Some(true), FinalError(p.registrationError)))
    case SavingJobFailure => SaveJob(pl.id, JobRow(p.step, Some(false), p.failure))
    case SavingTenantFailure => SaveStatus(pl.id, FAILED)
    case DeletingUsers => DeleteUsers(pl.id)
    case DeletingFineract => DeleteFineractTenant(p.identifier)
    case ConnectingToDrop(_) => Connect
    case DroppingDatabase(_) => DropDatabase(pl.DbName())
    case DroppingRole(_) => DropRole(pl.Role())
    case Auditing => WriteAudit(pl.id, p.step)
  }

  /** The first line of _step: current_step is set before it is saved. */
  function Enter(p: Proc, s: Step): Proc { p.(pc := MarkingStep, step := s) }

  function Fail(p: Proc, message: string): Proc { p.(pc := SavingJobFailure, failure := message) }

  function Goto(p: Proc, pc: Pc): Proc { p.(pc := pc) }

  /** A call inside the try block whose exception is not swallowed. */
  function Guarded(p: Proc, r: Result, next: Proc): Proc {
    if r.Raised? then Fail(p, r.message) else next
  }

  /** reversed(order[: last + 1]): the next step that has a handler, or the audit entry. */
  function Unwind(p: Proc, last: int): Proc
    requires last < |ORDER|
    decreases last
  {
    if last < 0 then Goto(p, Auditing)
    else match ORDER[last]
      case CREATE_ADMIN_USER => Goto(p, DeletingUsers)
      case REGISTER_FINERACT_TENANT => if p.identifier == "" then Unwind(p, last - 1) else Goto(p, DeletingFineract)
      case CREATE_DB_USER | CREATE_DB => Goto(p, ConnectingToDrop(last))
      case _ => Unwind(p, last - 1)
  }

  /** The walk back depends on nothing but where it stands. */
  lemma UnwindIgnoresPc(p: Proc, q: Proc, last: int)
    requires last < |ORDER| && q == Goto(p, q.pc)
    ensures Unwind(q, last) == Unwind(p, last)
    decreases last
  {
    if 0 <= last {
      UnwindIgnoresPc(p, q, last - 1);
    }
  }

  /** What _step runs once the step has been saved. */
  function Action(p: Proc): Proc {
    match p.step
    case CREATE_DB => Goto(p, ConnectingToCreate)
    case CREATE_DB_USER => Enter(p, GRANT_PERMISSIONS)
    case GRANT_PERMISSIONS => Goto(p, ConnectingToGrant)
    case RUN_FINERACT_SCHEMA => Enter(p, REGISTER_FINERACT_TENANT)
    case REGISTER_FINERACT_TENANT => Goto(p, RegisteringTenant)
    case CREATE_ADMIN_USER => Goto(p, CreatingUser)
    case SEND_WELCOME_EMAIL => Goto(p, QueueingEmail)
    case _ => Goto(p, CreatingDomain)
  }

  function Resume(pl: Plan, p: Proc, r: Result): Proc
    requires !Halted(p)
  {
    match p.pc
    case SavingProvisioning =>
      if r.Raised? then Goto(p, Escaped).(failure := r.message)
      else if pl.storedDbName == "" then Goto(p, SavingDbName) else Enter(p, CREATE_DB)
    case SavingDbName =>
      if r.Raised? then Goto(p, Escaped).(failure := r.message) else Enter(p, CREATE_DB)
    case MarkingStep => Guarded(p, r, Action(p))
    case ConnectingToCreate => Guarded(p, r, Goto(p, SelectingRole))
    case SelectingRole => Guarded(p, r, Goto(p, if r.Absent? then CreatingRole else SelectingDatabase))
    case CreatingRole => Guarded(p, r, Goto(p, SelectingDatabase))
    case SelectingDatabase => Guarded(p, r, Goto(p, if r.Absent? then CreatingDatabase else SavingConnection))
    case CreatingDatabase => Guarded(p, r, Goto(p, SavingConnection))
    case SavingConnection => Guarded(p, r, Goto(p, FetchingCredential))
    case FetchingCredential => Guarded(p, r, Goto(p, SavingCredential))
    case SavingCredential => Guarded(p, r, Enter(p, CREATE_DB_USER))
    case ConnectingToGrant => Guarded(p, r, Goto(p, Granting))
    case Granting => Guarded(p, r, Goto(p, SavingInitializing))
    case SavingInitializing => Guarded(p, r, Enter(p, RUN_FINERACT_SCHEMA))
    case RegisteringTenant =>
      if r.Raised? then Goto(p, ResavingIdentifier).(identifier := pl.code, registrationError := r.message)
      else Goto(p, SavingIdentifier).(identifier := pl.code)
    case SavingIdentifier =>
      if r.Raised? then Goto(p, ResavingIdentifier).(registrationError := r.message)
      else Enter(p, CREATE_ADMIN_USER)
    case ResavingIdentifier => Guarded(p, r, Enter(p, CREATE_ADMIN_USER))
    case CreatingUser =>
      Guarded(p, r, if p.registrationError == "" then Goto(p, RegisteringUser) else Enter(p, SEND_WELCOME_EMAIL))
    case RegisteringUser =>
      Enter(if r.Raised? then p.(registrationError := r.message) else p, SEND_WELCOME_EMAIL)
    case QueueingEmail => Enter(p, ACTIVATE)
    case CreatingDomain => Guarded(p, r, Goto(p, SavingReady))
    case SavingReady => Guarded(p, r, Goto(p, SavingDone).(step := DONE))
    case SavingDone => Guarded(p, r, Goto(p, Returned))
    case SavingJobFailure => Goto(p, if r.Raised? then Escaped else SavingTenantFailure)
    case SavingTenantFailure => if r.Raised? then Goto(p, Escaped) else Unwind(p, Rank(p.step))
    case DeletingUsers => if r.Raised? then Goto(p, Escaped) else Unwind(p, Rank(CREATE_ADMIN_USER) - 1)
    case DeletingFineract => Unwind(p, Rank(REGISTER_FINERACT_TENANT) - 1)
    case ConnectingToDrop(k) => Goto(p, if r.Raised? then Escaped else DroppingDatabase(k))
    case DroppingDatabase(k) => if r.Raised? then NextPass(p, k) else Goto(p, DroppingRole(k))
    case DroppingRole(k) => NextPass(p, k)
    case Auditing => Goto(p, Escaped)
  }

  /** After drop_all for the step of rank k, whose SQL errors are swallowed. */
  function NextPass(p: Proc, k: nat): Proc { Unwind(p, if k < |ORDER| then k - 1 else -1) }

  datatype State = State(world: World, proc: Proc)

  ghost function Next(pl: Plan, s: State, f: Fate): State {
    if Halted(s.proc) then s
    else
      var o := Apply(s.world, EffectOf(pl, s.proc), f);
      State(o.world, Resume(pl, s.proc, o.result))
  }

  /** The run of pl in w after as many calls as there are fates. */
  ghost function Exec(w: World, pl: Plan, fates: seq<Fate>): State {
    if fates == [] then State(w, Start(pl))
    else Next(pl, Exec(w, pl, fates[..|fates| - 1]), fates[|fates| - 1])
  }
}
