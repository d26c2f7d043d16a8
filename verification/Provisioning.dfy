/**
 DatabaseCreator, TenantRegistrar, RollbackManager and ProvisioningService, statement by statement, over
 one tenant and one job held in memory.  Each method is proved to make exactly the calls of the step
 machine of Saga.dfy, so all that is proved about the machine holds of this code.
 */
module Provisioning {
  import opened Options
  import opened Tenants
  import opened Effects
  import opened Saga

  /** Everything outside the process.  fate(i) is what happens to the i-th call it ever receives. */
  class Platform {
    var world: World
    var clock: nat
    const fate: nat -> Fate

    constructor (world: World, fate: nat -> Fate)
      ensures this.world == world && this.fate == fate && clock == 0
    {
      this.world, this.fate, this.clock := world, fate, 0;
    }

    method Call(e: Effect) returns (r: Result)
      modifies this
      ensures Outcome(world, r) == Apply(old(world), e, fate(old(clock))) && clock == old(clock) + 1
    {
      var o := Apply(world, e, fate(clock));
      world, clock, r := o.world, clock + 1, o.result;
    }
  }

  ghost function Fates(fate: nat -> Fate, from: nat, to: nat): (fates: seq<Fate>)
    requires from <= to
    ensures |fates| == to - from
  {
    seq(to - from, i requires 0 <= i => fate(from + i))
  }

  lemma ExecExtends(origin: World, plan: Plan, fate: nat -> Fate, begun: nat, clock: nat)
    requires begun <= clock
    ensures Exec(origin, plan, Fates(fate, begun, clock + 1)) ==
              Next(plan, Exec(origin, plan, Fates(fate, begun, clock)), fate(clock))
  {
    hide Next;
    var after := Fates(fate, begun, clock + 1);
    assert after[..|after| - 1] == Fates(fate, begun, clock);
  }

  class ProvisioningService {
    const platform: Platform
    const plan: Plan
    // self.tenant and self.job in memory
    var dbName: string
    var dbUser: string
    var identifier: string
    var currentStep: Step
    // self.registrar
    var lastCreatedPassword: Option<string>
    var registrationError: string
    // the machine this code follows
    ghost var origin: World
    ghost var begun: nat
    ghost var proc: Proc

    /** The calls made so far are those of the machine. */
    ghost predicate Tracks()
      reads this, platform
    {
      && begun <= platform.clock
      && State(platform.world, proc) == Exec(origin, plan, Fates(platform.fate, begun, platform.clock))
    }

    constructor (platform: Platform, plan: Plan)
      ensures this.platform == platform && this.plan == plan
      ensures Tracks() && proc == Start(plan) && origin == platform.world && begun == platform.clock
      ensures dbName == plan.storedDbName && identifier == plan.identifier && currentStep == VALIDATE
      ensures registrationError == "" && lastCreatedPassword == None
    {
      this.platform, this.plan := platform, plan;
      dbName, dbUser, identifier, currentStep := plan.storedDbName, "", plan.identifier, VALIDATE;
      lastCreatedPassword, registrationError := None, "";
      origin, begun, proc := platform.world, platform.clock, Start(plan);
    }

    /** A call, allowed only if it is the one the machine makes next. */
    method Call(e: Effect) returns (r: Result)
      requires Tracks() && !Halted(proc) && e == EffectOf(plan, proc)
      modifies platform, this`proc
      ensures Tracks() && proc == Resume(plan, old(proc), r)
    {
      hide Exec, Fates, Apply, EffectOf, Resume;
      ExecExtends(origin, plan, platform.fate, begun, platform.clock);
      r := platform.Call(e);
      proc := Resume(plan, proc, r);
    }

    // ---- DatabaseCreator ----

    method CreateDatabase() returns (ok: bool, message: string)
      requires Tracks() && proc.pc.ConnectingToCreate? && dbName == plan.DbName()
      modifies platform, this`proc, this`dbUser
      ensures Tracks()
      ensures if ok then proc == Enter(old(proc), CREATE_DB_USER) && dbUser == plan.Role()
              else proc == Fail(old(proc), message)
    {
      hide Exec;
      var roleName := RoleName(dbName);
      ok, message := CreateRoleAndDatabase(roleName);
      if !ok { return; }
      dbUser := roleName;
      ok := false;
      var r := Call(SaveConnection(plan.id, dbUser, plan.dbHost));
      if r.Raised? { message := r.message; return; }
      r := Call(FetchCredential(plan.id));
      if r.Raised? { message := r.message; return; }
      r := Call(SaveCredential(plan.id, plan.password));
      if r.Raised? { message := r.message; return; }
      ok := true;
    }

    /** The part made on the superuser connection. */
    method CreateRoleAndDatabase(roleName: string) returns (ok: bool, message: string)
      requires Tracks() && proc.pc.ConnectingToCreate? && dbName == plan.DbName() && roleName == plan.Role()
      modifies platform, this`proc
      ensures Tracks()
      ensures proc == if ok then Goto(old(proc), SavingConnection) else Fail(old(proc), message)
    {
      hide Exec;
      ok, message := false, "";
      var r := Call(Connect);
      if r.Raised? { message := r.message; return; }
      r := Call(SelectRole(roleName));
      if r.Raised? { message := r.message; return; }
      if r.Absent? {
        r := Call(CreateRole(roleName, plan.password));
        if r.Raised? { message := r.message; return; }
      }
      r := Call(SelectDatabase(dbName));
      if r.Raised? { message := r.message; return; }
      if r.Absent? {
        r := Call(Effect.CreateDatabase(dbName, roleName));
        if r.Raised? { message := r.message; return; }
      }
      ok := true;
    }

    method GrantPermissions() returns (ok: bool, message: string)
      requires Tracks() && proc.pc.ConnectingToGrant? && dbName == plan.DbName() && dbUser == plan.Role()
      modifies platform, this`proc
      ensures Tracks()
      ensures proc == if ok then Goto(old(proc), SavingInitializing) else Fail(old(proc), message)
    {
      hide Exec;
      ok, message := false, "";
      var r := Call(Connect);
      if r.Raised? { message := r.message; return; }
      r := Call(Grant(dbName, dbUser));
      if r.Raised? { message := r.message; return; }
      ok := true;
    }

    /** Raises only if the connection fails; SQL errors are swallowed. */
    method DropAll() returns (ok: bool)
      requires Tracks() && proc.pc.ConnectingToDrop? && dbName == plan.DbName()
      modifies platform, this`proc
      ensures Tracks()
      ensures proc == if ok then NextPass(old(proc), old(proc).pc.pass) else Goto(old(proc), Escaped)
    {
      hide Exec, Unwind;
      ghost var p := proc;
      var roleName := RoleName(dbName);
      var r := Call(Connect);
      if r.Raised? { ok := false; return; }
      r := Call(DropDatabase(dbName));
      if !r.Raised? {
        r := Call(DropRole(roleName));
      }
      UnwindIgnoresPc(p, Goto(p, DroppingDatabase(p.pc.pass)), if p.pc.pass < |ORDER| then p.pc.pass - 1 else -1);
      UnwindIgnoresPc(p, Goto(p, DroppingRole(p.pc.pass)), if p.pc.pass < |ORDER| then p.pc.pass - 1 else -1);
      ok := true;
    }

    // ---- TenantRegistrar ----

    method RegisterInFineract() returns (ok: bool, message: string)
      requires Tracks() && proc.pc.RegisteringTenant? && dbName == plan.DbName()
      requires registrationError == proc.registrationError
      modifies platform, this`proc, this`identifier, this`registrationError
      ensures Tracks() && identifier == proc.identifier == plan.code && registrationError == proc.registrationError
      ensures proc.(registrationError := "") ==
                (if ok then Enter(old(proc), CREATE_ADMIN_USER) else Fail(old(proc), message))
                  .(identifier := plan.code, registrationError := "")
    {
      hide Exec;
      ok, message := false, "";
      var r := Call(CreateFineractTenant(plan.code, plan.dbHost, dbName));
      identifier := plan.code;
      if !r.Raised? {
        r := Call(SaveIdentifier(plan.id, identifier));
      }
      if r.Raised? {
        registrationError := r.message;
        identifier := plan.code;
        r := Call(SaveIdentifier(plan.id, identifier));
        if r.Raised? { message := r.message; return; }
      }
      ok := true;
    }

    method CreateAdminUser() returns (ok: bool, message: string)
      requires Tracks() && proc.pc.CreatingUser?
      requires identifier == proc.identifier && registrationError == proc.registrationError
      modifies platform, this`proc, this`lastCreatedPassword, this`registrationError
      ensures Tracks() && registrationError == proc.registrationError
      ensures proc.(registrationError := "") ==
                (if ok then Enter(old(proc), SEND_WELCOME_EMAIL) else Fail(old(proc), message))
                  .(registrationError := "")
      ensures lastCreatedPassword == if ok then Some(plan.adminPassword) else old(lastCreatedPassword)
    {
      hide Exec;
      ok, message := false, "";
      var r := Call(CreateUser(plan.email, plan.id, plan.adminPassword));
      if r.Raised? { message := r.message; return; }
      lastCreatedPassword := Some(plan.adminPassword);
      if registrationError == "" {
        r := Call(CreateFineractUser(identifier, plan.email, plan.adminPassword));
        if r.Raised? {
          registrationError := r.message;
        }
      }
      ok := true;
    }

    // ---- RollbackManager ----

    /** The handler of the step of rank k, if it has one. */
    method Undo(k: nat) returns (ok: bool)
      requires k < |ORDER| && Tracks() && proc == Unwind(proc, k)
      requires dbName == plan.DbName() && identifier == proc.identifier
      modifies platform, this`proc
      ensures Tracks()
      ensures proc == if ok then Unwind(old(proc), k - 1) else Goto(old(proc), Escaped)
    {
      hide Exec;
      ghost var p := proc;
      ok := true;
      match ORDER[k] {
        case CREATE_ADMIN_USER =>
          var r := Call(DeleteUsers(plan.id));
          ok := !r.Raised?;
        case REGISTER_FINERACT_TENANT =>
          if identifier != "" {
            var r := Call(DeleteFineractTenant(identifier));
          }
        case CREATE_DB_USER | CREATE_DB =>
          ok := DropAll();
        case _ =>
      }
    }

    /** Walks back from failedStep.  A handler that raises ends the walk, and with it the run. */
    method ExecuteFrom(failedStep: Step)
      requires Tracks() && failedStep == proc.step && proc == Unwind(proc, Rank(failedStep))
      requires dbName == plan.DbName() && identifier == proc.identifier
      modifies platform, this`proc
      ensures Tracks() && proc == Goto(old(proc), Escaped)
    {
      hide Exec;
      ghost var p := proc;
      var k := Rank(failedStep);
      while k >= 0
        invariant -1 <= k < |ORDER| && Tracks() && proc == Unwind(p, k)
        invariant p == Goto(proc, p.pc)
      {
        UnwindIgnoresPc(p, proc, k);
        ghost var q := proc;
        var ok := Undo(k);
        if !ok { return; }
        UnwindIgnoresPc(p, q, k - 1);
        UnwindKeepsProc(p, k - 1);
        k := k - 1;
      }
      var r := Call(WriteAudit(plan.id, failedStep));
    }

    // ---- ProvisioningService ----

    /** The memory the except clause relies on. */
    ghost predicate InStep()
      reads this
    {
      && dbName == plan.DbName() && currentStep == proc.step
      && identifier == proc.identifier && registrationError == proc.registrationError
    }

    /** The part of _step before fn(). */
    method MarkStep(step: Step) returns (ok: bool, message: string)
      requires Tracks() && proc.pc.MarkingStep? && proc.step == step
      modifies platform, this`proc, this`currentStep
      ensures Tracks() && currentStep == step
      ensures proc == if ok then Action(old(proc)) else Fail(old(proc), message)
    {
      hide Exec;
      ok, message := true, "";
      currentStep := step;
      var r := Call(SaveJobStep(plan.id, currentStep));
      if r.Raised? { ok, message := false, r.message; }
    }

    method SendWelcomeEmail()
      requires Tracks() && proc.pc.QueueingEmail?
      modifies platform, this`proc
      ensures Tracks() && proc == Enter(old(proc), ACTIVATE)
    {
      hide Exec;
      var r := Call(QueueEmail);
    }

    /** The save of INITIALIZING between two steps. */
    method AdvanceStatus() returns (ok: bool, message: string)
      requires Tracks() && proc.pc.SavingInitializing?
      modifies platform, this`proc
      ensures Tracks()
      ensures proc == if ok then Enter(old(proc), RUN_FINERACT_SCHEMA) else Fail(old(proc), message)
    {
      hide Exec;
      var r := Call(SaveStatus(plan.id, INITIALIZING));
      ok, message := !r.Raised?, if r.Raised? then r.message else "";
    }

    /** From _step(CREATE_DB) to the INITIALIZING status. */
    method BuildDatabase() returns (ok: bool, message: string)
      requires Tracks() && proc == Enter(proc, CREATE_DB) && dbName == plan.DbName()
      requires identifier == proc.identifier && registrationError == proc.registrationError
      modifies platform, this`proc, this`currentStep, this`dbUser
      ensures Tracks()
      ensures if ok then proc == Enter(old(proc), RUN_FINERACT_SCHEMA)
              else proc.pc.SavingJobFailure? && proc.failure == message && InStep()
    {
      hide Exec, Fates, Unwind, Resume, EffectOf, Plan.Role, Plan.DbName;
      ok, message := MarkStep(CREATE_DB);
      if !ok { return; }
      ok, message := CreateDatabase();
      if !ok { return; }
      ok, message := MarkStep(CREATE_DB_USER);
      if !ok { return; }
      ok, message := MarkStep(GRANT_PERMISSIONS);
      if !ok { return; }
      ok, message := GrantPermissions();
      if !ok { return; }
      ok, message := AdvanceStatus();
    }

    /** From _step(RUN_FINERACT_SCHEMA) to the welcome email. */
    method RegisterTenant() returns (ok: bool, message: string)
      requires Tracks() && proc == Enter(proc, RUN_FINERACT_SCHEMA) && dbName == plan.DbName()
      requires identifier == proc.identifier && registrationError == proc.registrationError
      modifies platform, this`proc, this`currentStep, this`identifier, this`registrationError, this`lastCreatedPassword
      ensures Tracks() && identifier == proc.identifier && registrationError == proc.registrationError
      ensures if ok then proc == Enter(proc, ACTIVATE)
              else proc.pc.SavingJobFailure? && proc.failure == message && InStep()
      ensures ok ==> lastCreatedPassword == Some(plan.adminPassword)
    {
      hide Exec, Fates, Unwind, RoleName, Subdomain, DefaultDbName;
      ok, message := MarkStep(RUN_FINERACT_SCHEMA);  // bootstrap_fineract_schema is a placeholder
      if !ok { return; }
      ok, message := MarkStep(REGISTER_FINERACT_TENANT);
      if !ok { return; }
      ok, message := RegisterInFineract();
      if !ok { return; }
      ok, message := MarkStep(CREATE_ADMIN_USER);
      if !ok { return; }
      ok, message := CreateAdminUser();
      if !ok { return; }
      ok, message := MarkStep(SEND_WELCOME_EMAIL);
      if !ok { return; }
      SendWelcomeEmail();
    }

    /** From _step(ACTIVATE) to the finished job. */
    method Activate() returns (ok: bool, message: string)
      requires Tracks() && proc == Enter(proc, ACTIVATE) && dbName == plan.DbName()
      requires identifier == proc.identifier && registrationError == proc.registrationError
      modifies platform, this`proc, this`currentStep
      ensures Tracks()
      ensures if ok then proc.pc.Returned?
              else proc.pc.SavingJobFailure? && proc.failure == message && InStep()
    {
      hide Exec, Fates, Unwind, RoleName, Subdomain, DefaultDbName;
      ok, message := MarkStep(ACTIVATE);
      if !ok { return; }
      ok := false;
      var r := Call(CreateDomain(Subdomain(plan.code), plan.id));
      if r.Raised? { message := r.message; return; }
      r := Call(SaveActivation(plan.id));
      if r.Raised? { message := r.message; return; }
      currentStep := DONE;
      r := Call(SaveJob(plan.id, JobRow(currentStep, Some(true), FinalError(registrationError))));
      if r.Raised? { message := r.message; return; }
      ok := true;
    }

    /** The except clause, which always raises. */
    method Recover(message: string)
      requires Tracks() && proc.pc.SavingJobFailure? && proc.failure == message && InStep()
      modifies platform, this`proc
      ensures Tracks() && proc == Goto(old(proc), Escaped)
    {
      hide Exec, Unwind;
      ghost var p := proc;
      var r := Call(SaveJob(plan.id, JobRow(currentStep, Some(false), message)));
      if r.Raised? { return; }
      r := Call(SaveStatus(plan.id, FAILED));
      if r.Raised? { return; }
      UnwindIgnoresPc(p, Goto(p, SavingTenantFailure), Rank(p.step));
      UnwindKeepsProc(p, Rank(p.step));
      UnwindIgnoresPc(p, proc, Rank(p.step));
      ExecuteFrom(currentStep);
    }

    /** run(): the calls it makes and the world it leaves are those of Exec, to the end. */
    method Run() returns (ok: bool)
      requires Tracks() && proc == Start(plan) && origin == platform.world && begun == platform.clock
      requires dbName == plan.storedDbName && identifier == plan.identifier && registrationError == ""
      modifies platform, this
      ensures begun == old(platform.clock) <= platform.clock
      ensures State(platform.world, proc) ==
                Exec(old(platform.world), plan, Fates(platform.fate, old(platform.clock), platform.clock))
      ensures if ok then proc.pc.Returned? else proc.pc.Escaped?
      ensures ok ==> lastCreatedPassword == Some(plan.adminPassword)
    {
      hide Exec, Fates, Unwind, RoleName, Subdomain, DefaultDbName, Action;
      var message := "";
      ok := false;
      var r := Call(SaveStatus(plan.id, PROVISIONING));
      if r.Raised? { return; }
      if dbName == "" {
        dbName := DefaultDbName(plan.code);
        r := Call(SaveDbName(plan.id, dbName));
        if r.Raised? { return; }
      }
      ok, message := BuildDatabase();
      if ok {
        ok, message := RegisterTenant();
        if ok {
          ok, message := Activate();
        }
      }
      if !ok {
        Recover(message);
      }
    }
  }

  lemma UnwindKeepsProc(p: Proc, last: int)
    requires last < |ORDER|
    ensures p == Goto(Unwind(p, last), p.pc)
    decreases last
  {
    if 0 <= last {
      UnwindKeepsProc(p, last - 1);
    }
  }
}
