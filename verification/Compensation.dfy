/**
 What one run leaves behind, whatever fails and wherever: the contents of the slice at every program
 counter of a run that starts with nothing, and the states in which it can stop.
 */
module Compensation {
  import opened Options
  import opened Tenants
  import opened Effects
  import opened Saga
  import opened Slices

  /** The place of a forward program counter in the script of run. */
  function Pos(p: Proc): nat {
    match p.pc
    case SavingProvisioning => 0
    case SavingDbName => 1
    case MarkingStep =>
      (match p.step
       case CREATE_DB => 2
       case CREATE_DB_USER => 11
       case GRANT_PERMISSIONS => 12
       case RUN_FINERACT_SCHEMA => 16
       case REGISTER_FINERACT_TENANT => 17
       case CREATE_ADMIN_USER => 21
       case SEND_WELCOME_EMAIL => 24
       case _ => 26)
    case ConnectingToCreate => 3
    case SelectingRole => 4
    case CreatingRole => 5
    case SelectingDatabase => 6
    case CreatingDatabase => 7
    case SavingConnection => 8
    case FetchingCredential => 9
    case SavingCredential => 10
    case ConnectingToGrant => 13
    case Granting => 14
    case SavingInitializing => 15
    case RegisteringTenant => 18
    case SavingIdentifier => 19
    case ResavingIdentifier => 20
    case CreatingUser => 22
    case RegisteringUser => 23
    case QueueingEmail => 25
    case CreatingDomain => 27
    case SavingReady => 28
    case SavingDone => 29
    case _ => 30
  }

  /** job.current_step at each place of the script. */
  function StepAt(n: nat): Step {
    if n <= 1 then VALIDATE
    else if n <= 10 then CREATE_DB
    else if n == 11 then CREATE_DB_USER
    else if n <= 15 then GRANT_PERMISSIONS
    else if n == 16 then RUN_FINERACT_SCHEMA
    else if n <= 20 then REGISTER_FINERACT_TENANT
    else if n <= 23 then CREATE_ADMIN_USER
    else if n <= 25 then SEND_WELCOME_EMAIL
    else if n <= 28 then ACTIVATE
    else DONE
  }

  /** job.current_step in the table before each call: the step whose save was the last to succeed. */
  function StoredStep(n: nat): Step {
    if n <= 2 then VALIDATE
    else if n <= 11 then CREATE_DB
    else if n == 12 then CREATE_DB_USER
    else if n <= 16 then GRANT_PERMISSIONS
    else if n == 17 then RUN_FINERACT_SCHEMA
    else if n <= 21 then REGISTER_FINERACT_TENANT
    else if n <= 24 then CREATE_ADMIN_USER
    else if n <= 26 then SEND_WELCOME_EMAIL
    else ACTIVATE
  }

  predicate Forward(p: Proc) { !Recovering(p) && !p.pc.Escaped? }

  /** The four resources a rollback has to remove are not there. */
  predicate Bare(x: Slice) {
    x.role.None? && x.database.None? && x.fineract.None? && x.users == map[]
  }

  /** A tenant as both creation views leave it: named, and owning nothing yet. */
  predicate Fresh(x: Slice, pl: Plan) {
    && x.row.Some?
    && x.row.value.dbName == pl.storedDbName
    && x.row.value.identifier == pl.identifier == pl.code != ""
    && x.job == Some(JobRow(VALIDATE, None, ""))
    && pl.email != ""
    && Bare(x) && x.domains == map[]
  }

  function RowAt(r0: TenantRow, pl: Plan, n: nat): TenantRow {
    r0.(dbName := if n <= 1 then r0.dbName else pl.DbName(),
        dbUser := if n <= 8 then r0.dbUser else pl.Role(),
        dbHost := if n <= 8 then r0.dbHost else pl.dbHost,
        status := if n == 0 then r0.status else if n <= 15 then PROVISIONING
                   else if n <= 28 then INITIALIZING else READY,
        isActive := n > 28 || r0.isActive)
  }

  function Admin(pl: Plan): map<string, UserRow> { map[pl.email := UserRow(Some(pl.id), pl.adminPassword, CEO)] }

  function Primary(pl: Plan): map<string, DomainRow> { map[pl.Host() := DomainRow(pl.id, true)] }

  /** The slice when a run that started fresh in x0 is about to make call number n of the script. */
  ghost predicate Built(x0: Slice, pl: Plan, x: Slice, n: nat)
    requires x0.row.Some?
  {
    && x.row == Some(RowAt(x0.row.value, pl, n))
    && x.job.Some? && (n <= 29 ==> x.job.value == JobRow(StoredStep(n), None, ""))
    && x.role == (if n <= 5 then None else Some(pl.password))
    && x.database == (if n <= 7 then None else Some(Database(pl.Role(), if n <= 14 then {} else {pl.Role()})))
    && x.credential == (if n <= 9 then x0.credential
                        else if n == 10 then Some(if x0.credential.Some? then x0.credential.value else "")
                        else Some(pl.password))
    && (n <= 18 ==> x.fineract.None?)
    && x.users == (if n <= 22 then map[] else Admin(pl))
    && x.domains == (if n <= 27 then map[] else Primary(pl))
    && x.audit == x0.audit
  }

  /** How far back the rollback still has to go. */
  function Cursor(p: Proc): nat {
    match p.pc
    case SavingJobFailure | SavingTenantFailure => Rank(p.step)
    case DeletingUsers => Rank(CREATE_ADMIN_USER)
    case DeletingFineract => Rank(REGISTER_FINERACT_TENANT)
    case ConnectingToDrop(k) => k
    case DroppingDatabase(k) => k
    case DroppingRole(k) => k
    case _ => 0
  }

  /** A resource is still there only if the step whose handler removes it is at rank c or below. */
  predicate Bounded(pl: Plan, x: Slice, c: nat) {
    && (c < Rank(CREATE_DB) ==> x.role.None? && x.database.None?)
    && (c < Rank(REGISTER_FINERACT_TENANT) ==> x.fineract.None?)
    && (x.users == map[] || (c >= Rank(CREATE_ADMIN_USER) && x.users == Admin(pl)))
  }

  /** What no handler undoes: the primary domain, which only a failure in ACTIVATE or later can
      leave behind, and is_active, which is set after it. */
  predicate Lasting(x0: Slice, pl: Plan, x: Slice, step: Step)
    requires x0.row.Some?
  {
    && x.job.Some? && x.row.Some?
    && x.row.value.code == x0.row.value.code && x.row.value.dbName == pl.DbName() && x.row.value.identifier == pl.code
    && (x.domains == map[] || x.domains == Primary(pl))
    && (x.domains == map[] ==> x.row.value.isActive == x0.row.value.isActive && step != DONE)
    && (x.domains != map[] ==> Rank(step) >= Rank(ACTIVATE))
  }

  /** Compensation as an invariant of the failure path.  It rests on every resource being created at
      a step no earlier than the one whose handler removes it. */
  predicate Cleaning(x0: Slice, pl: Plan, s: Local)
    requires x0.row.Some?
  {
    var x, p := s.slice, s.proc;
    && p.step != VALIDATE && p.identifier == pl.code
    && (p.pc.ConnectingToDrop? || p.pc.DroppingDatabase? || p.pc.DroppingRole? ==> 1 <= p.pc.pass <= 2)
    && Bounded(pl, x, Cursor(p))
    && (p.pc.DroppingRole? ==> x.database.None?)
    && Lasting(x0, pl, x, p.step)
    && (p.pc.SavingJobFailure? || x.job == Some(JobRow(p.step, Some(false), p.failure)))
    && (p.pc.SavingJobFailure? || p.pc.SavingTenantFailure? || x.row.value.status == FAILED)
    && x.audit == (if p.pc.Escaped? then x0.audit + [p.step] else x0.audit)
  }

  /** A run stopped by one of the two saves made before the try block has built nothing. */
  predicate Untouched(x0: Slice, pl: Plan, x: Slice)
    requires x0.row.Some?
  {
    && Bare(x) && x.domains == map[] && x.audit == x0.audit
    && x.job.Some? && x.row.Some?
    && x.row.value.dbName in {pl.storedDbName, pl.DbName()}
    && x.row.value.status in {x0.row.value.status, PROVISIONING}
    && x.row.value == x0.row.value.(dbName := x.row.value.dbName, status := x.row.value.status)
  }

  /** Everything a run from x0 keeps, on both sides of the except clause. */
  ghost predicate Inv(x0: Slice, pl: Plan, s: Local)
    requires x0.row.Some?
  {
    if Forward(s.proc) then
      && (Halted(s.proc) || AtPlace(pl, s.proc))
      && Built(x0, pl, s.slice, Pos(s.proc))
    else if s.proc.pc.Escaped? && s.proc.step == VALIDATE then
      Untouched(x0, pl, s.slice)
    else
      Cleaning(x0, pl, s)
  }

  // ---- The script ----

  /** Call number n of the script, made on what calls 0 to n - 1 built, builds the next piece. */
  ghost predicate Builds(x0: Slice, pl: Plan, x: Slice, p: Proc)
    requires x0.row.Some? && !Halted(p)
  {
    var o := PerformLocal(pl, x, EffectOf(pl, p));
    && Built(x0, pl, o.slice, Pos(p) + 1)
    && (o.result.Raised? ==> p.pc.RegisteringUser?)
    && (o.result.Absent? <==> p.pc.SelectingRole? || p.pc.SelectingDatabase?)
  }

  predicate AtPlace(pl: Plan, p: Proc) {
    && Forward(p) && !Halted(p) && p.step == StepAt(Pos(p)) && p.identifier == pl.code
    && (p.pc.SavingDbName? ==> pl.storedDbName == "")
  }

  lemma CallBuildsDatabase(x0: Slice, pl: Plan, x: Slice, p: Proc)
    requires Fresh(x0, pl) && AtPlace(pl, p) && Built(x0, pl, x, Pos(p)) && Pos(p) <= 10
    ensures Builds(x0, pl, x, p)
  {
    hide Plan.Role, Plan.DbName, Plan.Host, RoleName, Subdomain, WithoutTenant, HasPrimary;
  }

  lemma CallBuildsRegistration(x0: Slice, pl: Plan, x: Slice, p: Proc)
    requires Fresh(x0, pl) && AtPlace(pl, p) && Built(x0, pl, x, Pos(p)) && 11 <= Pos(p) <= 20
    ensures Builds(x0, pl, x, p)
  {
    hide Plan.Role, Plan.DbName, Plan.Host, RoleName, Subdomain, WithoutTenant, HasPrimary;
    assert {} + {pl.Role()} == {pl.Role()};
  }

  lemma CallBuildsDomain(x0: Slice, pl: Plan, x: Slice, p: Proc)
    requires Fresh(x0, pl) && AtPlace(pl, p) && Built(x0, pl, x, Pos(p)) && 21 <= Pos(p)
    ensures Builds(x0, pl, x, p)
  {
    hide Plan.Role, Plan.DbName, Plan.Host, RoleName, Subdomain, WithoutTenant;
  }

  lemma {:induction false} CallBuilds(x0: Slice, pl: Plan, x: Slice, p: Proc)
    requires Fresh(x0, pl) && AtPlace(pl, p) && Built(x0, pl, x, Pos(p))
    ensures Builds(x0, pl, x, p)
  {
    if Pos(p) <= 10 {
      CallBuildsDatabase(x0, pl, x, p);
    } else if Pos(p) <= 20 {
      CallBuildsRegistration(x0, pl, x, p);
    } else {
      CallBuildsDomain(x0, pl, x, p);
    }
  }

  /** The calls of the script whose exceptions never stop a run. */
  predicate Swallowed(pc: Pc) {
    pc.RegisteringTenant? || pc.SavingIdentifier? || pc.RegisteringUser? || pc.QueueingEmail?
  }

  /** A step of the script is never repeated, and the only calls left out are the rename of a named
      database, the second attempt to save the identifier, and the Fineract user. */
  predicate InPlace(pl: Plan, p: Proc, r: Result, q: Proc) {
    if Forward(q) then
      && (Halted(q) || AtPlace(pl, q)) && q.step == StepAt(Pos(q)) && q.identifier == pl.code
      && (r.Raised? ==> Swallowed(p.pc))
      && (|| Pos(q) == Pos(p) + 1
          || (Pos(p) == 0 && Pos(q) == 2 && pl.storedDbName != "")
          || (Pos(p) == 18 && Pos(q) == 20 && r.Raised?)
          || (Pos(p) == 19 && Pos(q) == 21)
          || (Pos(p) == 22 && Pos(q) == 24))
    else
      && r.Raised? && !Swallowed(p.pc)
      && if Pos(p) <= 1 then q.pc.Escaped? && q.step == VALIDATE else q == Fail(p, r.message)
  }

  lemma EarlyInPlace(pl: Plan, p: Proc, r: Result)
    requires AtPlace(pl, p) && Pos(p) <= 10
    requires r.Absent? <==> !r.Raised? && (p.pc.SelectingRole? || p.pc.SelectingDatabase?)
    ensures InPlace(pl, p, r, Resume(pl, p, r))
  {
    hide Unwind;
  }

  lemma MiddleInPlace(pl: Plan, p: Proc, r: Result)
    requires AtPlace(pl, p) && 11 <= Pos(p) <= 20 && !r.Absent?
    ensures InPlace(pl, p, r, Resume(pl, p, r))
  {
    hide Unwind;
  }

  lemma LateInPlace(pl: Plan, p: Proc, r: Result)
    requires AtPlace(pl, p) && 21 <= Pos(p) && !r.Absent?
    ensures InPlace(pl, p, r, Resume(pl, p, r))
  {
    hide Unwind;
  }

  lemma ResumesInPlace(pl: Plan, p: Proc, r: Result)
    requires AtPlace(pl, p)
    requires r.Absent? <==> !r.Raised? && (p.pc.SelectingRole? || p.pc.SelectingDatabase?)
    ensures InPlace(pl, p, r, Resume(pl, p, r))
  {
    hide InPlace, Resume, AtPlace;
    if Pos(p) <= 10 {
      EarlyInPlace(pl, p, r);
    } else if Pos(p) <= 20 {
      MiddleInPlace(pl, p, r);
    } else {
      LateInPlace(pl, p, r);
    }
  }

  lemma FailureIsBounded(x0: Slice, pl: Plan, x: Slice, n: nat, m: nat)
    requires Fresh(x0, pl) && 2 <= n <= m <= n + 1 && m <= 30 && n != 30
    requires Built(x0, pl, x, m)
    ensures Bounded(pl, x, Rank(StepAt(n))) && Lasting(x0, pl, x, StepAt(n))
  {
    assert pl.Host() in Primary(pl);
  }

  // ---- The way back ----

  lemma UnwindIs(p: Proc, last: int)
    requires last < |ORDER| && p.identifier != ""
    ensures Unwind(p, last) == Goto(p,
              if last >= 7 then DeletingUsers else if last >= 5 then DeletingFineract
              else if last >= 2 then ConnectingToDrop(2) else if last == 1 then ConnectingToDrop(1)
              else Auditing)
  {
  }

  /** A failing call of the script leaves a state the failure path can start from. */
  lemma FailureStartsCleaning(x0: Slice, pl: Plan, x: Slice, p: Proc, m: nat, message: string)
    requires Fresh(x0, pl) && AtPlace(pl, p) && 2 <= Pos(p) <= m <= Pos(p) + 1 && Built(x0, pl, x, m)
    ensures Cleaning(x0, pl, Local(x, Fail(p, message)))
  {
    hide Fresh, Bounded, Lasting;
    FailureIsBounded(x0, pl, x, Pos(p), m);
  }

  /** Nothing a rollback has to know about is built between these places. */
  lemma BuiltAcross(x0: Slice, pl: Plan, x: Slice, n: nat, m: nat)
    requires Fresh(x0, pl) && Built(x0, pl, x, n)
    requires || n == m || (n == 1 && m == 2 && pl.storedDbName != "")
             || 18 <= n <= m <= 21 || 23 <= n <= m <= 24 || 25 <= n <= m <= 26
    ensures Built(x0, pl, x, m)
  {
  }

  /** Under any fate the call has built its piece or nothing, and the result fits ResumesInPlace. */
  lemma CallBuildsOrNot(x0: Slice, pl: Plan, s: Local, f: Fate)
    requires Fresh(x0, pl) && AtPlace(pl, s.proc) && Built(x0, pl, s.slice, Pos(s.proc))
    ensures var o, n := ApplyLocal(pl, s.slice, EffectOf(pl, s.proc), f), Pos(s.proc);
            && (Built(x0, pl, o.slice, n) || Built(x0, pl, o.slice, n + 1))
            && (!o.result.Raised? ==> Built(x0, pl, o.slice, n + 1))
            && (o.result.Absent? <==> !o.result.Raised? && (s.proc.pc.SelectingRole? || s.proc.pc.SelectingDatabase?))
  {
    CallBuilds(x0, pl, s.slice, s.proc);
    assert x0.row.Some?;
    hide PerformLocal, EffectOf, Built, Fresh;
  }

  /** Where the code goes after the call, Inv holds of what the call left. */
  lemma LandsInInv(x0: Slice, pl: Plan, x: Slice, p: Proc, r: Result, q: Proc, m: nat)
    requires Fresh(x0, pl) && AtPlace(pl, p) && InPlace(pl, p, r, q) && Built(x0, pl, x, m)
    requires m == Pos(p) + 1 || (m == Pos(p) && r.Raised?)
    ensures Inv(x0, pl, Local(x, q))
  {
    assert x0.row.Some?;
    hide Built, Fresh, Cleaning, Untouched, AtPlace, RowAt;
    if Forward(q) {
      BuiltAcross(x0, pl, x, m, Pos(q));
    } else if Pos(p) >= 2 {
      FailureStartsCleaning(x0, pl, x, p, m, q.failure);
    } else {
      EarlyIsUntouched(x0, pl, x, m);
    }
  }

  /** A step of the script keeps Inv under every fate. */
  lemma {:induction false} ForwardKeepsInv(x0: Slice, pl: Plan, s: Local, f: Fate)
    requires Fresh(x0, pl) && Inv(x0, pl, s) && Forward(s.proc) && !Halted(s.proc)
    ensures Inv(x0, pl, NextLocal(pl, s, f))
  {
    assert x0.row.Some? && AtPlace(pl, s.proc) && Built(x0, pl, s.slice, Pos(s.proc));
    hide PerformLocal, ApplyLocal, EffectOf, Resume, Built, Fresh, Inv, InPlace, AtPlace;
    var n, o := Pos(s.proc), ApplyLocal(pl, s.slice, EffectOf(pl, s.proc), f);
    CallBuildsOrNot(x0, pl, s, f);
    ResumesInPlace(pl, s.proc, o.result);
    var m := if Built(x0, pl, o.slice, n + 1) then n + 1 else n;
    LandsInInv(x0, pl, o.slice, s.proc, o.result, Resume(pl, s.proc, o.result), m);
  }

  lemma EarlyIsUntouched(x0: Slice, pl: Plan, x: Slice, n: nat)
    requires Fresh(x0, pl) && Built(x0, pl, x, n)
    ensures n <= 2 ==> Untouched(x0, pl, x)
  {
  }

  /** How far back the rollback has to go once the call at p has been made. */
  function Remaining(p: Proc): nat {
    match p.pc
    case DeletingUsers => Rank(CREATE_ADMIN_USER) - 1
    case DeletingFineract => Rank(REGISTER_FINERACT_TENANT) - 1
    case DroppingRole(k) => if k == 0 then 0 else k - 1
    case _ => Cursor(p)
  }

  /** What a call of the failure path that succeeds removes, and what it keeps. */
  ghost predicate Cleans(x0: Slice, pl: Plan, s: Local)
    requires x0.row.Some? && Recovering(s.proc)
  {
    var o, p := PerformLocal(pl, s.slice, EffectOf(pl, s.proc)), s.proc;
    && o.result.Done?
    && Lasting(x0, pl, o.slice, p.step)
    && o.slice.job == Some(JobRow(p.step, Some(false), p.failure))
    && Bounded(pl, o.slice, Remaining(p))
    && (p.pc.DroppingDatabase? ==> o.slice.database.None?)
    && (p.pc.SavingJobFailure? || o.slice.row.value.status == FAILED)
    && o.slice.audit == (if p.pc.Auditing? then x0.audit + [p.step] else x0.audit)
  }

  lemma HandlerCleans(x0: Slice, pl: Plan, s: Local)
    requires Fresh(x0, pl) && Cleaning(x0, pl, s) && s.proc.pc.DeletingUsers?
    ensures Cleans(x0, pl, s)
  {
    hide Plan.Role, Plan.DbName, Plan.Host, RoleName, Subdomain, HasPrimary, Unwind;
    if s.slice.users == Admin(pl) {
      assert pl.email in Admin(pl);
    }
  }

  lemma SaveCleans(x0: Slice, pl: Plan, s: Local)
    requires Fresh(x0, pl) && Cleaning(x0, pl, s)
    requires (s.proc.pc.SavingJobFailure? || s.proc.pc.SavingTenantFailure? || s.proc.pc.Auditing?)
    ensures Cleans(x0, pl, s)
  {
    hide Plan.Role, Plan.DbName, Plan.Host, RoleName, Subdomain, HasPrimary, Unwind, WithoutTenant;
  }

  lemma DropCleans(x0: Slice, pl: Plan, s: Local)
    requires Fresh(x0, pl) && Cleaning(x0, pl, s)
    requires (s.proc.pc.ConnectingToDrop? || s.proc.pc.DroppingDatabase? || s.proc.pc.DroppingRole?)
    ensures Cleans(x0, pl, s)
  {
    hide Plan.Role, Plan.DbName, Plan.Host, RoleName, Subdomain, HasPrimary, Unwind, WithoutTenant;
  }

  lemma FineractCleans(x0: Slice, pl: Plan, s: Local)
    requires Fresh(x0, pl) && Cleaning(x0, pl, s) && (s.proc.pc.DeletingFineract?)
    ensures Cleans(x0, pl, s)
  {
    hide Plan.Role, Plan.DbName, Plan.Host, RoleName, Subdomain, HasPrimary, Unwind, WithoutTenant;
  }

  lemma CallCleans(x0: Slice, pl: Plan, s: Local)
    requires Fresh(x0, pl) && Cleaning(x0, pl, s) && Recovering(s.proc)
    ensures Cleans(x0, pl, s)
  {
    hide Cleaning, Cleans, Fresh;
    match s.proc.pc {
      case DeletingUsers => HandlerCleans(x0, pl, s);
      case DeletingFineract => FineractCleans(x0, pl, s);
      case ConnectingToDrop(_) => DropCleans(x0, pl, s);
      case DroppingDatabase(_) => DropCleans(x0, pl, s);
      case DroppingRole(_) => DropCleans(x0, pl, s);
      case _ => SaveCleans(x0, pl, s);
    }
  }

  /** Walking back from rank r to rank c passes no handler. */
  predicate Bounds(r: nat, c: nat) {
    && (r >= Rank(CREATE_DB) ==> c >= Rank(CREATE_DB))
    && (r >= Rank(REGISTER_FINERACT_TENANT) ==> c >= Rank(REGISTER_FINERACT_TENANT))
    && (r >= Rank(CREATE_ADMIN_USER) ==> c >= Rank(CREATE_ADMIN_USER))
  }

  /** Where the code goes after a call of the failure path that succeeded. */
  predicate WalksBack(p: Proc, q: Proc) {
    && q == Goto(p, q.pc) && !Forward(q)
    && Bounds(Remaining(p), Cursor(q))
    && (q.pc.ConnectingToDrop? || q.pc.DroppingDatabase? || q.pc.DroppingRole? ==> 1 <= q.pc.pass <= 2)
    && (q.pc.DroppingRole? ==> p.pc.DroppingDatabase?)
    && (q.pc.SavingJobFailure? || q.pc.SavingTenantFailure? <==> p.pc.SavingJobFailure?)
    && (q.pc.Escaped? <==> p.pc.Auditing?)
  }

  lemma EntersRollback(pl: Plan, p: Proc)
    requires p.pc.SavingTenantFailure? && p.identifier != ""
    ensures WalksBack(p, Resume(pl, p, Done))
  {
    UnwindIs(p, Rank(p.step));
    hide Unwind;
  }

  lemma LeavesHandler(pl: Plan, p: Proc)
    requires p.identifier != ""
    requires p.pc.DeletingUsers? || p.pc.DeletingFineract? || (p.pc.DroppingRole? && 1 <= p.pc.pass <= 2)
    ensures WalksBack(p, Resume(pl, p, Done))
  {
    UnwindIs(p, if p.pc.DeletingUsers? then 6 else if p.pc.DeletingFineract? then 4 else p.pc.pass - 1);
    hide Unwind;
  }

  lemma StaysInHandler(pl: Plan, p: Proc)
    requires p.pc.SavingJobFailure? || p.pc.ConnectingToDrop? || p.pc.DroppingDatabase? || p.pc.Auditing?
    requires p.pc.ConnectingToDrop? || p.pc.DroppingDatabase? ==> 1 <= p.pc.pass <= 2
    ensures WalksBack(p, Resume(pl, p, Done))
  {
    hide Unwind;
  }

  lemma WalksBackOneHandler(pl: Plan, p: Proc)
    requires Recovering(p) && p.identifier != ""
    requires p.pc.ConnectingToDrop? || p.pc.DroppingDatabase? || p.pc.DroppingRole? ==> 1 <= p.pc.pass <= 2
    ensures WalksBack(p, Resume(pl, p, Done))
  {
    hide WalksBack, Resume;
    if p.pc.SavingTenantFailure? {
      EntersRollback(pl, p);
    } else if p.pc.DeletingUsers? || p.pc.DeletingFineract? || p.pc.DroppingRole? {
      LeavesHandler(pl, p);
    } else {
      StaysInHandler(pl, p);
    }
  }

  /** A step of the failure path keeps Inv when its call succeeds. */
  lemma {:induction false} BackwardKeepsInv(x0: Slice, pl: Plan, s: Local)
    requires Fresh(x0, pl) && Inv(x0, pl, s) && Recovering(s.proc)
    ensures Inv(x0, pl, NextLocal(pl, s, Succeeds))
  {
    assert x0.row.Some? && Cleaning(x0, pl, s) && s.proc.identifier == pl.code != "" && s.proc.step != VALIDATE;
    hide PerformLocal, EffectOf, Resume, Fresh, Lasting;
    CallCleans(x0, pl, s);
    WalksBackOneHandler(pl, s.proc);
  }

  /** drop_all runs for CREATE_DB_USER and again for CREATE_DB, so an SQL error the first of the two
      passes swallows has a second chance. */
  predicate SecondChance(p: Proc) {
    p.pc == DroppingDatabase(2) || p.pc == DroppingRole(2)
  }

  lemma SpoiledPassKeepsInv(x0: Slice, pl: Plan, s: Local, f: Fate)
    requires Fresh(x0, pl) && Inv(x0, pl, s) && SecondChance(s.proc) && f.Fails?
    ensures Inv(x0, pl, NextLocal(pl, s, f))
  {
    assert Resume(pl, s.proc, Raised(f.message)) == Goto(s.proc, ConnectingToDrop(1)) by {
      UnwindIs(s.proc, 1);
    }
    hide Plan.Role, Plan.DbName, Plan.Host, RoleName, Subdomain, HasPrimary, Unwind, WithoutTenant, Resume, Fresh;
  }
}
