/**
 What the tables say of a run, to the last column: while it is going on, when it has returned, and in
 the error message of a job that was finished in spite of an error.
 */
module Reports {
  import opened Options
  import opened Tenants
  import opened Effects
  import opened Saga
  import opened Slices
  import opened Compensation
  import opened Runs

  /** The step saved before the one being saved; the order of the script. */
  function StepBefore(step: Step): Step {
    match step
    case CREATE_DB_USER => CREATE_DB
    case GRANT_PERMISSIONS => CREATE_DB_USER
    case RUN_FINERACT_SCHEMA => GRANT_PERMISSIONS
    case REGISTER_FINERACT_TENANT => RUN_FINERACT_SCHEMA
    case CREATE_ADMIN_USER => REGISTER_FINERACT_TENANT
    case SEND_WELCOME_EMAIL => CREATE_ADMIN_USER
    case ACTIVATE => SEND_WELCOME_EMAIL
    case DONE => ACTIVATE
    case _ => VALIDATE
  }

  function Checkpoint(p: Proc): Step {
    if p.pc.MarkingStep? || p.pc.SavingDone? then StepBefore(p.step) else p.step
  }

  lemma PlaceShowsProgress(x0: Slice, pl: Plan, x: Slice, p: Proc)
    requires Fresh(x0, pl) && AtPlace(pl, p) && Built(x0, pl, x, Pos(p)) && p.step != VALIDATE
    ensures x.job == Some(JobRow(Checkpoint(p), None, ""))
    ensures x.row.Some?
    ensures x.row.value.status ==
              if p.step in {CREATE_DB, CREATE_DB_USER, GRANT_PERMISSIONS} then PROVISIONING
              else if p.pc.SavingDone? then READY else INITIALIZING
  {
    hide Plan.Role, Plan.DbName, Plan.Host;
  }

  /** The checkpoints.  At every moment of the try block, under any faults, the job shows the step whose
      action is going on, and during the save of a step the one before it in the script; the tenant is
      PROVISIONING until its privileges are granted and INITIALIZING from then on, and READY only when
      nothing but the last save of the job is to come. */
  lemma {:induction false} ProgressIsShown(x0: Slice, pl: Plan, fates: seq<Fate>)
    requires Fresh(x0, pl)
    requires var p := ExecLocal(x0, pl, fates).proc; Forward(p) && !Halted(p) && p.step != VALIDATE
    ensures var x, p := ExecLocal(x0, pl, fates).slice, ExecLocal(x0, pl, fates).proc;
            && x.job == Some(JobRow(Checkpoint(p), None, ""))
            && x.row.Some?
            && x.row.value.status ==
                 if p.step in {CREATE_DB, CREATE_DB_USER, GRANT_PERMISSIONS} then PROVISIONING
                 else if p.pc.SavingDone? then READY else INITIALIZING
  {
    hide ExecLocal, Fresh, Inv, AtPlace, Built;
    ForwardInv(x0, pl, fates);
    FreshHasRow(x0, pl);
    var s := ExecLocal(x0, pl, fates);
    InvAtPlace(x0, pl, s);
    PlaceShowsProgress(x0, pl, s.slice, s.proc);
  }

  // ---- A run that returned ----

  /** Everything a run that returned has written, spelled out. */
  lemma {:induction false} ReadyTenantIs(x0: Slice, pl: Plan, fates: seq<Fate>)
    requires Fresh(x0, pl) && ExecLocal(x0, pl, fates).proc.pc.Returned?
    ensures var x, row0 := ExecLocal(x0, pl, fates).slice, x0.row.value;
            var dbName := if pl.storedDbName == "" then "tenant_" + pl.code else pl.storedDbName;
            var role := dbName + "_role";
            && x.row == Some(TenantRow(row0.code, dbName, role, pl.dbHost, pl.code, READY, true))
            && x.users == map[pl.email := UserRow(Some(pl.id), pl.adminPassword, CEO)]
            && x.domains == map[pl.code + "." + "banking.silktechagency.com" := DomainRow(pl.id, true)]
            && x.credential == x.role == Some(pl.password)
            && x.database == Some(Database(role, {role}))
            && x.job.Some? && x.job.value.step == DONE && x.job.value.success == Some(true)
            && x.audit == x0.audit
  {
    ReturnedRunIsReady(x0, pl, fates);
    SpelledOut(x0, pl);
    hide ExecLocal, Fresh, RowAt, Admin, Primary;
  }

  lemma SpelledOut(x0: Slice, pl: Plan)
    requires Fresh(x0, pl)
    ensures var row0 := x0.row.value;
            var dbName := if pl.storedDbName == "" then "tenant_" + pl.code else pl.storedDbName;
            && RowAt(row0, pl, 30) == TenantRow(row0.code, dbName, dbName + "_role", pl.dbHost, pl.code, READY, true)
            && Admin(pl) == map[pl.email := UserRow(Some(pl.id), pl.adminPassword, CEO)]
            && Primary(pl) == map[pl.code + "." + "banking.silktechagency.com" := DomainRow(pl.id, true)]
            && pl.Role() == dbName + "_role"
  {
  }

  // ---- The message of a finished job ----

  /** The message of the last exception of the registrar that was swallowed. */
  ghost function LastSwallowed(x: Slice, pl: Plan, fates: seq<Fate>): string {
    if fates == [] then ""
    else
      var n := |fates| - 1;
      var s := ExecLocal(x, pl, fates[..n]);
      if (s.proc.pc.RegisteringTenant? || s.proc.pc.SavingIdentifier? || s.proc.pc.RegisteringUser?)
         && ApplyLocal(pl, s.slice, EffectOf(pl, s.proc), fates[n]).result.Raised?
      then Message(fates[n])
      else LastSwallowed(x, pl, fates[..n])
  }

  lemma ErrorMoves(pl: Plan, p: Proc, r: Result)
    requires !Halted(p)
    ensures Resume(pl, p, r).registrationError ==
              if (p.pc.RegisteringTenant? || p.pc.SavingIdentifier? || p.pc.RegisteringUser?) && r.Raised?
              then r.message else p.registrationError
  {
    hide Unwind;
    UnwindKeepsError(p, Rank(p.step));
    UnwindKeepsError(p, 6);
    UnwindKeepsError(p, 4);
    if p.pc.DroppingDatabase? || p.pc.DroppingRole? {
      UnwindKeepsError(p, if p.pc.pass < |ORDER| then p.pc.pass - 1 else -1);
    }
  }

  lemma UnwindKeepsError(p: Proc, last: int)
    requires last < |ORDER|
    ensures Unwind(p, last).registrationError == p.registrationError
    decreases last
  {
    if 0 <= last {
      UnwindKeepsError(p, last - 1);
    }
  }

  lemma {:induction false} ErrorIsLastSwallowed(x: Slice, pl: Plan, fates: seq<Fate>)
    ensures ExecLocal(x, pl, fates).proc.registrationError == LastSwallowed(x, pl, fates)
  {
    if fates != [] {
      hide PerformLocal, EffectOf, Resume;
      var n := |fates| - 1;
      ErrorIsLastSwallowed(x, pl, fates[..n]);
      var s := ExecLocal(x, pl, fates[..n]);
      if !Halted(s.proc) {
        RaisedMessage(pl, s.slice, EffectOf(pl, s.proc), fates[n]);
        ErrorMoves(pl, s.proc, ApplyLocal(pl, s.slice, EffectOf(pl, s.proc), fates[n]).result);
      }
    }
  }

  /** A run that returned, from any start, has finished its job with no error message, or with the
      notice and the message of the last exception of the registrar. */
  lemma {:induction false} FinishedJobNamesError(x: Slice, pl: Plan, fates: seq<Fate>)
    requires x.job.Some? && ExecLocal(x, pl, fates).proc.pc.Returned?
    ensures var swallowed := LastSwallowed(x, pl, fates);
            ExecLocal(x, pl, fates).slice.job == Some(JobRow(DONE, Some(true),
              if swallowed == "" then ""
              else "Tenant is READY, but Fineract registration failed and can be retried later: " + swallowed))
  {
    JobRecordsOutcome(x, pl, fates);
    ErrorIsLastSwallowed(x, pl, fates);
    hide ExecLocal, LastSwallowed;
  }
}
