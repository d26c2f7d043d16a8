/**
 Histories of runs for one tenant: when a run can return at all, which credential it leaves, and what
 a retry reaches after any number of failed runs.
 */
module Retries {
  import opened Options
  import opened Tenants
  import opened Effects
  import opened Saga
  import opened Slices
  import opened Compensation
  import opened Runs
  import opened CleanRuns

  // ---- When a run can return ----

  /** What the code leaves to the last steps to find out: the contact email and the hostname are free
      and the tenant has no primary domain.  Nothing is asked of the role or the database. */
  ghost predicate Unblocked(x: Slice, pl: Plan) {
    && pl.email != "" && pl.email !in x.users
    && pl.Host() !in x.domains && !HasPrimary(x.domains, pl.id)
  }

  /** A run that has not yet inserted its user or its domain leaves the obstacle where it is. */
  ghost predicate Obstructed(x: Slice, pl: Plan, p: Proc) {
    Forward(p) ==>
      || ((pl.email == "" || pl.email in x.users) && Pos(p) <= 22)
      || ((pl.Host() in x.domains || HasPrimary(x.domains, pl.id)) && Pos(p) <= 27)
  }

  lemma RowsSurvive(pl: Plan, x: Slice, p: Proc, f: Fate)
    requires !Halted(p)
    ensures var o := ApplyLocal(pl, x, EffectOf(pl, p), f);
            && (forall h :: h in x.domains ==> h in o.slice.domains && o.slice.domains[h] == x.domains[h])
            && (!p.pc.DeletingUsers? && pl.email in x.users ==> pl.email in o.slice.users)
  {
    var e := EffectOf(pl, p);
    CallKinds(pl, p);
    OnlyTheyTouch(pl, x, e);
    if e.CreateDomain? || e.CreateUser? {
      InsertsKeepRows(pl, x, e);
    }
    hide PerformLocal, EffectOf;
  }

  lemma InsertsKeepRows(pl: Plan, x: Slice, e: Effect)
    requires e.CreateDomain? || e.CreateUser?
    ensures var o := PerformLocal(pl, x, e);
            && (forall h :: h in x.domains ==> h in o.slice.domains && o.slice.domains[h] == x.domains[h])
            && (forall m :: m in x.users ==> m in o.slice.users)
  {
  }

  lemma ObstacleIsRefused(pl: Plan, x: Slice, p: Proc, f: Fate)
    requires p.pc.CreatingUser? || p.pc.CreatingDomain?
    requires p.pc.CreatingUser? ==> pl.email == "" || pl.email in x.users
    requires p.pc.CreatingDomain? ==> pl.Host() in x.domains || HasPrimary(x.domains, pl.id)
    ensures ApplyLocal(pl, x, EffectOf(pl, p), f).result.Raised?
  {
  }

  lemma NoLeap(pl: Plan, p: Proc, r: Result)
    requires Forward(p) && !Halted(p)
    ensures Forward(Resume(pl, p, r)) && Pos(p) < 22 ==> Pos(Resume(pl, p, r)) <= 22
    ensures Forward(Resume(pl, p, r)) && Pos(p) < 27 ==> Pos(Resume(pl, p, r)) <= 27
    ensures (p.pc.CreatingUser? || p.pc.CreatingDomain?) && r.Raised? ==> !Forward(Resume(pl, p, r))
    ensures Pos(p) == 22 <==> p.pc.CreatingUser?
    ensures Pos(p) == 27 <==> p.pc.CreatingDomain?
  {
  }

  lemma StaysObstructed(pl: Plan, s: Local, f: Fate)
    requires Obstructed(s.slice, pl, s.proc)
    ensures Obstructed(NextLocal(pl, s, f).slice, pl, NextLocal(pl, s, f).proc)
  {
    if !Halted(s.proc) {
      var o := ApplyLocal(pl, s.slice, EffectOf(pl, s.proc), f);
      RowsSurvive(pl, s.slice, s.proc, f);
      if Recovering(s.proc) {
        NeverForwardAgain(pl, s.proc, o.result);
      } else {
        NoLeap(pl, s.proc, o.result);
        if (s.proc.pc.CreatingUser? && (pl.email == "" || pl.email in s.slice.users))
           || (s.proc.pc.CreatingDomain? && (pl.Host() in s.slice.domains || HasPrimary(s.slice.domains, pl.id)))
        {
          ObstacleIsRefused(pl, s.slice, s.proc, f);
        }
      }
      hide PerformLocal, EffectOf, Resume, Forward, Pos, Halted;
    }
  }

  /** A run started against an obstacle never returns, whatever happens. */
  lemma {:induction false} BlockedNeverReturns(x: Slice, pl: Plan, fates: seq<Fate>)
    requires !Unblocked(x, pl)
    ensures Obstructed(ExecLocal(x, pl, fates).slice, pl, ExecLocal(x, pl, fates).proc)
    ensures !ExecLocal(x, pl, fates).proc.pc.Returned?
  {
    if fates != [] {
      BlockedNeverReturns(x, pl, fates[..|fates| - 1]);
      StaysObstructed(pl, ExecLocal(x, pl, fates[..|fates| - 1]), fates[|fates| - 1]);
      hide NextLocal, Obstructed;
      ObstructedIsNotReturned(ExecLocal(x, pl, fates), pl);
    }
  }

  lemma ObstructedIsNotReturned(s: Local, pl: Plan)
    requires Obstructed(s.slice, pl, s.proc)
    ensures !s.proc.pc.Returned?
  {
  }

  /** The other direction needs only a registered tenant: role, database, Fineract tenant and
      credential may be there or not, in any combination and left by anyone. */
  ghost predicate Viable(pl: Plan, s: Local) {
    var x, p, n := s.slice, s.proc, Pos(s.proc);
    && Forward(p) && x.row.Some? && x.job.Some? && pl.email != ""
    && (n > 5 ==> x.role.Some?) && (n > 7 ==> x.database.Some?)
    && (n <= 22 ==> pl.email !in x.users)
    && (n <= 27 ==> pl.Host() !in x.domains && !HasPrimary(x.domains, pl.id))
    && (n == 5 ==> x.role.None?) && (n == 7 ==> x.database.None?)
  }

  lemma ViableCall(pl: Plan, s: Local)
    requires Viable(pl, s) && !Halted(s.proc)
    ensures var o, n := PerformLocal(pl, s.slice, EffectOf(pl, s.proc)), Pos(s.proc);
            && (o.result.Raised? ==> n == 18 || n == 23)
            && (n == 4 ==> (o.result.Absent? <==> o.slice.role.None?))
            && (n == 6 ==> (o.result.Absent? <==> o.slice.database.None?))
            && o.slice.row.Some? && o.slice.job.Some?
            && (n >= 5 ==> o.slice.role.Some?) && (n >= 7 ==> o.slice.database.Some?)
            && (n < 22 ==> o.slice.users == s.slice.users) && (n < 27 ==> o.slice.domains == s.slice.domains)
  {
    hide HasPrimary, WithoutTenant, Plan.Role, Plan.DbName, Plan.Host;
  }

  lemma ViableMovesOn(pl: Plan, p: Proc, r: Result)
    requires Forward(p) && !Halted(p) && (r.Raised? ==> Pos(p) == 18 || Pos(p) == 23)
    ensures var q := Resume(pl, p, r);
            && Forward(q) && Pos(p) < Pos(q)
            && (Pos(q) == 5 <==> Pos(p) == 4 && r.Absent?) && (Pos(q) == 7 <==> Pos(p) == 6 && r.Absent?)
            && (Pos(p) < 4 ==> Pos(q) <= 4) && (Pos(p) in {4, 5} ==> Pos(q) <= 6)
  {
  }

  lemma StaysViable(pl: Plan, s: Local)
    requires Viable(pl, s) && !Halted(s.proc)
    ensures Viable(pl, NextLocal(pl, s, Succeeds)) && Pos(NextLocal(pl, s, Succeeds).proc) > Pos(s.proc)
  {
    ViableCall(pl, s);
    var r := PerformLocal(pl, s.slice, EffectOf(pl, s.proc)).result;
    ViableMovesOn(pl, s.proc, r);
    NoLeap(pl, s.proc, r);
    hide PerformLocal, EffectOf, Resume, Forward, Halted;
  }

  lemma {:induction false} ViableRun(x: Slice, pl: Plan, n: nat)
    requires x.row.Some? && x.job.Some? && Unblocked(x, pl)
    ensures var s := ExecLocal(x, pl, Clean(n));
            Viable(pl, s) && (s.proc.pc.Returned? || Pos(s.proc) >= n)
  {
    if n > 0 {
      hide NextLocal, Viable, Unblocked;
      ViableRun(x, pl, n - 1);
      assert Clean(n)[..n - 1] == Clean(n - 1) && Clean(n)[n - 1] == Succeeds;
      var s := ExecLocal(x, pl, Clean(n - 1));
      if Halted(s.proc) {
        HaltedStays(pl, s);
        ViableHaltedReturned(pl, s);
      } else {
        StaysViable(pl, s);
      }
    } else {
      ViableStart(x, pl);
    }
  }

  lemma ViableHaltedReturned(pl: Plan, s: Local)
    requires Viable(pl, s) && Halted(s.proc)
    ensures s.proc.pc.Returned?
  {
  }

  lemma ViableStart(x: Slice, pl: Plan)
    requires x.row.Some? && x.job.Some? && Unblocked(x, pl)
    ensures Viable(pl, Local(x, Start(pl)))
  {
  }

  /** A run of a registered tenant can return if and only if nothing blocks it, and then it is enough
      that no call fails.  Since no handler removes a domain row, this decides every later run too. */
  lemma {:induction false} CanReturnIffUnblocked(x: Slice, pl: Plan)
    requires x.row.Some? && x.job.Some?
    ensures (exists fates :: ExecLocal(x, pl, fates).proc.pc.Returned?) <==> Unblocked(x, pl)
    ensures Unblocked(x, pl) ==> ExecLocal(x, pl, Clean(30)).proc.pc.Returned?
  {
    if Unblocked(x, pl) {
      ViableRun(x, pl, 30);
      assert ExecLocal(x, pl, Clean(30)).proc.pc.Returned?;
    } else {
      forall fates ensures !ExecLocal(x, pl, fates).proc.pc.Returned? {
        BlockedNeverReturns(x, pl, fates);
      }
    }
  }

  /** No handler removes a domain row: whatever a run does, a row that was there stays. */
  lemma {:induction false} DomainRowsStay(x: Slice, pl: Plan, fates: seq<Fate>, h: string)
    requires h in x.domains
    ensures h in ExecLocal(x, pl, fates).slice.domains && ExecLocal(x, pl, fates).slice.domains[h] == x.domains[h]
  {
    if fates != [] {
      DomainRowsStay(x, pl, fates[..|fates| - 1], h);
      var s := ExecLocal(x, pl, fates[..|fates| - 1]);
      if !Halted(s.proc) {
        RowsSurvive(pl, s.slice, s.proc, fates[|fates| - 1]);
      }
      hide PerformLocal, EffectOf, Resume;
    }
  }

  // ---- Credentials ----

  /** create_database draws a password before it looks for the role, and stores it either way. */
  ghost predicate CredentialSoFar(x0: Slice, pl: Plan, s: Local) {
    var x, n := s.slice, Pos(s.proc);
    Forward(s.proc) ==>
      && (x0.role.Some? ==> x.role == x0.role && n != 5)
      && (x0.role.None? ==> x.role == (if n <= 5 then None else Some(pl.password)))
      && (n > 10 ==> x.credential == Some(pl.password))
  }

  lemma RoleAndCredentialCalls(pl: Plan, x: Slice, p: Proc, f: Fate)
    requires Forward(p) && !Halted(p)
    ensures var o := ApplyLocal(pl, x, EffectOf(pl, p), f);
            && (!p.pc.CreatingRole? ==> o.slice.role == x.role)
            && (p.pc.CreatingRole? && x.role.None? && !o.result.Raised? ==> o.slice.role == Some(pl.password))
            && (!p.pc.FetchingCredential? && !p.pc.SavingCredential? ==> o.slice.credential == x.credential)
            && (p.pc.SavingCredential? && !o.result.Raised? ==> o.slice.credential == Some(pl.password))
            && (p.pc.SelectingRole? && !o.result.Raised? ==> (o.result.Absent? <==> x.role.None?))
  {
    CallKinds(pl, p);
    OnlyTheyTouch(pl, x, EffectOf(pl, p));
    if p.pc.CreatingRole? || p.pc.SavingCredential? || p.pc.SelectingRole? {
      RoleAndCredentialEffects(pl, x, p);
    }
    hide PerformLocal, EffectOf;
  }

  lemma RoleAndCredentialEffects(pl: Plan, x: Slice, p: Proc)
    requires p.pc.CreatingRole? || p.pc.SavingCredential? || p.pc.SelectingRole?
    ensures var o := PerformLocal(pl, x, EffectOf(pl, p));
            && (p.pc.CreatingRole? && x.role.None? ==> o.slice.role == Some(pl.password))
            && (p.pc.SavingCredential? ==> o.slice.credential == Some(pl.password))
            && (p.pc.SelectingRole? ==> (o.result.Absent? <==> x.role.None?))
  {
  }

  lemma CredentialMoves(pl: Plan, p: Proc, r: Result)
    requires Forward(p) && !Halted(p) && Forward(Resume(pl, p, r))
    ensures var q := Resume(pl, p, r);
            && Pos(p) < Pos(q) && (Pos(p) < 10 ==> Pos(q) <= 10)
            && (Pos(p) <= 10 && Pos(p) != 0 && Pos(p) != 1 ==> !r.Raised?)
            && (Pos(p) < 4 ==> Pos(q) <= 4) && (Pos(q) == 5 ==> Pos(p) == 4)
            && (Pos(p) == 4 ==> Pos(q) == (if r.Absent? then 5 else 6))
            && (p.pc.CreatingRole? <==> Pos(p) == 5) && (p.pc.SelectingRole? <==> Pos(p) == 4)
            && (p.pc.FetchingCredential? <==> Pos(p) == 9) && (p.pc.SavingCredential? <==> Pos(p) == 10)
  {
  }

  lemma CredentialStep(x0: Slice, pl: Plan, s: Local, f: Fate)
    requires CredentialSoFar(x0, pl, s) && Forward(s.proc) && !Halted(s.proc)
    ensures CredentialSoFar(x0, pl, NextLocal(pl, s, f))
  {
    RoleAndCredentialCalls(pl, s.slice, s.proc, f);
    var r := ApplyLocal(pl, s.slice, EffectOf(pl, s.proc), f).result;
    if Forward(Resume(pl, s.proc, r)) {
      CredentialMoves(pl, s.proc, r);
    }
    hide PerformLocal, EffectOf, Resume, Forward, Pos;
  }

  lemma {:induction false} CredentialThroughout(x0: Slice, pl: Plan, fates: seq<Fate>)
    ensures CredentialSoFar(x0, pl, ExecLocal(x0, pl, fates))
  {
    if fates == [] {
    } else {
      CredentialThroughout(x0, pl, fates[..|fates| - 1]);
      var s, f := ExecLocal(x0, pl, fates[..|fates| - 1]), fates[|fates| - 1];
      if !Halted(s.proc) {
        if Forward(s.proc) {
          CredentialStep(x0, pl, s, f);
        } else {
          NeverForwardAgain(pl, s.proc, ApplyLocal(pl, s.slice, EffectOf(pl, s.proc), f).result);
        }
      }
    }
  }

  /** After a run that returned, the stored credential opens the role if and only if the role did not
      exist when the run started, or had by chance the password drawn by this run. */
  lemma {:induction false} CredentialMatchesIffRoleWasNew(x: Slice, pl: Plan, fates: seq<Fate>)
    requires ExecLocal(x, pl, fates).proc.pc.Returned?
    ensures var y := ExecLocal(x, pl, fates).slice;
            && y.credential.Some? && y.role.Some?
            && (y.credential == y.role <==> x.role.None? || x.role == Some(pl.password))
  {
    CredentialThroughout(x, pl, fates);
    hide NextLocal, ExecLocal;
  }

  // ---- Histories ----

  /** One press of the retry button: the secrets drawn, and the faults met. */
  datatype Attempt = Attempt(password: string, adminPassword: string, fates: seq<Fate>)

  /** tenant_retry: a new job, and the tenant as it is stored now. */
  function Renew(x: Slice): Slice {
    x.(job := Some(JobRow(VALIDATE, None, "")))
  }

  function PlanFor(pl: Plan, x: Slice, a: Attempt): Plan {
    var named :=
      if x.row.None? then pl else pl.(storedDbName := x.row.value.dbName, identifier := x.row.value.identifier);
    named.(password := a.password, adminPassword := a.adminPassword)
  }

  ghost function Attempted(x: Slice, pl: Plan, a: Attempt): Local {
    ExecLocal(Renew(x), PlanFor(pl, x, a), a.fates)
  }

  ghost function History(x: Slice, pl: Plan, tries: seq<Attempt>): Slice {
    if tries == [] then x else Attempted(History(x, pl, tries[..|tries| - 1]), pl, tries[|tries| - 1]).slice
  }

  /** Every attempt but the last returned or really dropped the role. */
  ghost predicate RolesDropped(x: Slice, pl: Plan, tries: seq<Attempt>) {
    forall i :: 0 < i < |tries| ==>
      || Attempted(History(x, pl, tries[..i - 1]), pl, tries[i - 1]).proc.pc.Returned?
      || History(x, pl, tries[..i]).role.None?
  }

  lemma {:induction false} ReturnedRunOwnsHost(x: Slice, pl: Plan, fates: seq<Fate>)
    requires Forward(ExecLocal(x, pl, fates).proc) && Pos(ExecLocal(x, pl, fates).proc) > 27
    ensures pl.Host() in ExecLocal(x, pl, fates).slice.domains
  {
    if fates != [] {
      var s, f := ExecLocal(x, pl, fates[..|fates| - 1]), fates[|fates| - 1];
      if Halted(s.proc) {
        ReturnedRunOwnsHost(x, pl, fates[..|fates| - 1]);
      } else {
        var o := ApplyLocal(pl, s.slice, EffectOf(pl, s.proc), f);
        if Recovering(s.proc) {
          NeverForwardAgain(pl, s.proc, o.result);
        } else if Pos(s.proc) > 27 {
          ReturnedRunOwnsHost(x, pl, fates[..|fates| - 1]);
          RowsSurvive(pl, s.slice, s.proc, f);
        } else {
          NoLeap(pl, s.proc, o.result);
          InsertOrRaise(pl, s, f);
        }
      }
      hide PerformLocal, EffectOf, Resume;
    }
  }

  lemma InsertOrRaise(pl: Plan, s: Local, f: Fate)
    requires s.proc.pc.CreatingDomain?
    ensures Forward(NextLocal(pl, s, f).proc) ==> pl.Host() in NextLocal(pl, s, f).slice.domains
  {
  }

  // ---- Retries ----

  /** An attempt that raised, left no domain row, and whose failure path worked. */
  ghost predicate FailedCleanly(x: Slice, pl: Plan, a: Attempt) {
    var plan := PlanFor(pl, x, a);
    && Attempted(x, pl, a).proc.pc.Escaped?
    && QuietRecovery(Renew(x), plan, a.fates)
    && !DomainWritten(Renew(x), plan, a.fates)
  }

  ghost predicate AllCleanly(x0: Slice, pl: Plan, tries: seq<Attempt>) {
    forall i :: 0 <= i < |tries| ==> FailedCleanly(History(x0, pl, tries[..i]), pl, tries[i])
  }

  lemma AllCleanlySnoc(x0: Slice, pl: Plan, tries: seq<Attempt>)
    requires tries != []
    ensures var n := |tries| - 1;
            AllCleanly(x0, pl, tries) <==>
              AllCleanly(x0, pl, tries[..n]) && FailedCleanly(History(x0, pl, tries[..n]), pl, tries[n])
  {
    hide FailedCleanly, History;
    var n := |tries| - 1;
    forall i | 0 <= i < n
      ensures FailedCleanly(History(x0, pl, tries[..n][..i]), pl, tries[..n][i]) <==>
              FailedCleanly(History(x0, pl, tries[..i]), pl, tries[i])
    {
      assert tries[..n][..i] == tries[..i];
    }
  }

  /** A tenant waiting for its first run, or for the next one. */
  predicate Retriable(x0: Slice, pl: Plan, x: Slice) {
    && pl.code != "" && pl.email != ""
    && x0.row.Some? && x.row.Some?
    && x.row.value.identifier == x0.row.value.identifier == pl.identifier == pl.code
    && x.row.value.code == x0.row.value.code && x.row.value.isActive == x0.row.value.isActive
    && x.row.value.dbName in {pl.storedDbName, pl.DbName()} && x0.row.value.dbName == pl.storedDbName
    && Bare(x) && x.domains == map[]
  }

  lemma SamePlan(x0: Slice, pl: Plan, x: Slice, a: Attempt)
    requires Retriable(x0, pl, x)
    ensures var plan := PlanFor(pl, x, a);
            && plan.DbName() == pl.DbName() && plan.Role() == pl.Role() && plan.Host() == pl.Host()
            && Fresh(Renew(x), plan)
  {
  }

  lemma CleanFailureIsRetriable(x0: Slice, pl: Plan, x: Slice, a: Attempt)
    requires Retriable(x0, pl, x) && FailedCleanly(x, pl, a)
    ensures Retriable(x0, pl, Attempted(x, pl, a).slice)
  {
    SamePlan(x0, pl, x, a);
    hide ExecLocal, NextLocal, QuietRecovery, DomainWritten, Fresh;
    RaisedRunIsCompensated(Renew(x), PlanFor(pl, x, a), a.fates);
  }

  lemma {:induction false} FailuresAreRetriable(x0: Slice, pl: Plan, tries: seq<Attempt>)
    requires Retriable(x0, pl, x0)
    requires AllCleanly(x0, pl, tries)
    ensures Retriable(x0, pl, History(x0, pl, tries))
  {
    if tries != [] {
      var n := |tries| - 1;
      AllCleanlySnoc(x0, pl, tries);
      hide FailedCleanly, Retriable, Attempted, AllCleanly;
      FailuresAreRetriable(x0, pl, tries[..n]);
      CleanFailureIsRetriable(x0, pl, History(x0, pl, tries[..n]), tries[n]);
    }
  }

  /** Retry convergence.  After any number of attempts that failed wherever they failed, an attempt in
      which nothing fails leaves the tenant exactly as if it had been the first one: database, role,
      credential, Fineract tenant, user, domain, job and tenant row are the same, and only the audit
      trail tells the difference. */
  lemma {:induction false} RetryConverges(x0: Slice, pl: Plan, failures: seq<Attempt>, last: Attempt)
    requires Retriable(x0, pl, x0)
    requires AllCleanly(x0, pl, failures)
    requires exists n: nat :: n >= 30 && last.fates == Clean(n)
    ensures var x := History(x0, pl, failures);
            && Attempted(x, pl, last).proc.pc.Returned?
            && Attempted(x, pl, last).slice == Attempted(x0, pl, last).slice.(audit := x.audit)
  {
    var x := History(x0, pl, failures);
    var n: nat :| n >= 30 && last.fates == Clean(n);
    FailuresAreRetriable(x0, pl, failures);
    SamePlan(x0, pl, x, last);
    SamePlan(x0, pl, x0, last);
    CleanRunIsReady(Renew(x), PlanFor(pl, x, last), n);
    CleanRunIsReady(Renew(x0), PlanFor(pl, x0, last), n);
    hide ExecLocal, NextLocal, AllCleanly, History;
  }

  // ---- Exactly when a retry works ----

  /** An attempt that raised and whose failure path worked; it may have left a domain row behind. */
  ghost predicate FailedQuietly(x: Slice, pl: Plan, a: Attempt) {
    Attempted(x, pl, a).proc.pc.Escaped? && QuietRecovery(Renew(x), PlanFor(pl, x, a), a.fates)
  }

  ghost predicate AllQuietly(x0: Slice, pl: Plan, tries: seq<Attempt>) {
    forall i :: 0 <= i < |tries| ==> FailedQuietly(History(x0, pl, tries[..i]), pl, tries[i])
  }

  lemma AllQuietlySnoc(x0: Slice, pl: Plan, tries: seq<Attempt>)
    requires tries != [] && AllQuietly(x0, pl, tries)
    ensures var n := |tries| - 1;
            AllQuietly(x0, pl, tries[..n]) && FailedQuietly(History(x0, pl, tries[..n]), pl, tries[n])
  {
    hide FailedQuietly, History;
    var n := |tries| - 1;
    forall i | 0 <= i < n ensures FailedQuietly(History(x0, pl, tries[..n][..i]), pl, tries[..n][i]) {
      assert tries[..n][..i] == tries[..i];
    }
  }

  lemma HostStays(x: Slice, pl: Plan, a: Attempt)
    ensures pl.Host() in x.domains ==> pl.Host() in Attempted(x, pl, a).slice.domains
  {
    hide ExecLocal, Plan.Host;
    if pl.Host() in x.domains {
      DomainRowsStay(Renew(x), PlanFor(pl, x, a), a.fates, pl.Host());
    }
  }

  lemma NoHostMeansCleanFailure(x0: Slice, pl: Plan, x: Slice, a: Attempt)
    requires Retriable(x0, pl, x) && FailedQuietly(x, pl, a) && pl.Host() !in Attempted(x, pl, a).slice.domains
    ensures FailedCleanly(x, pl, a)
  {
    hide ExecLocal, QuietRecovery, DomainWritten, Fresh;
    SamePlan(x0, pl, x, a);
    DomainsFollowInsert(Renew(x), PlanFor(pl, x, a), a.fates);
  }

  /** A tenant without its hostname has had no attempt that failed after inserting it. */
  lemma {:induction false} NoHostMeansCleanFailures(x0: Slice, pl: Plan, tries: seq<Attempt>)
    requires Retriable(x0, pl, x0)
    requires AllQuietly(x0, pl, tries)
    requires pl.Host() !in History(x0, pl, tries).domains
    ensures AllCleanly(x0, pl, tries)
  {
    if tries != [] {
      hide FailedQuietly, FailedCleanly, Retriable, Attempted, AllQuietly, AllCleanly, Plan.Host;
      var n := |tries| - 1;
      AllQuietlySnoc(x0, pl, tries);
      HostStays(History(x0, pl, tries[..n]), pl, tries[n]);
      NoHostMeansCleanFailures(x0, pl, tries[..n]);
      FailuresAreRetriable(x0, pl, tries[..n]);
      NoHostMeansCleanFailure(x0, pl, History(x0, pl, tries[..n]), tries[n]);
      AllCleanlySnoc(x0, pl, tries);
    }
  }

  /** After any failures whose handlers worked, a retry without faults returns if and only if no row
      for the tenant's hostname was left behind, and then it converges. */
  lemma {:induction false} RetryReturnsIffHostIsFree(x0: Slice, pl: Plan, failures: seq<Attempt>, last: Attempt)
    requires Retriable(x0, pl, x0)
    requires AllQuietly(x0, pl, failures)
    requires exists n: nat :: n >= 30 && last.fates == Clean(n)
    ensures var x := History(x0, pl, failures);
            && (Attempted(x, pl, last).proc.pc.Returned? <==> pl.Host() !in x.domains)
            && (pl.Host() !in x.domains ==>
                Attempted(x, pl, last).slice == Attempted(x0, pl, last).slice.(audit := x.audit))
  {
    hide ExecLocal, AllQuietly, AllCleanly, History, Retriable, Clean;
    var x := History(x0, pl, failures);
    if pl.Host() in x.domains {
      BlockedNeverReturns(Renew(x), PlanFor(pl, x, last), last.fates);
    } else {
      NoHostMeansCleanFailures(x0, pl, failures);
      RetryConverges(x0, pl, failures, last);
    }
  }
}
