/**
 What tenant_retry does to a tenant whose provisioning cannot be repeated: nothing stops it before its last
 steps, and then the rollback removes what earlier runs, or the Celery worker, built.
 */
module Teardown {
  import opened Options
  import opened Tenants
  import opened Effects
  import opened Saga
  import opened Slices
  import opened Compensation
  import opened Runs
  import opened CleanRuns
  import opened Retries

  ghost predicate EmailTaken(x: Slice, pl: Plan) {
    pl.email == "" || pl.email in x.users
  }

  ghost predicate DomainTaken(x: Slice, pl: Plan) {
    pl.Host() in x.domains || HasPrimary(x.domains, pl.id)
  }

  /** The rows no call before the activation, and no handler, changes. */
  ghost predicate Kept(x0: Slice, x: Slice) {
    && x0.row.Some? && x.row.Some? && x.job.Some? && x.domains == x0.domains
    && x.row.value.isActive == x0.row.value.isActive
  }

  function WithAdmin(x0: Slice, pl: Plan): map<string, UserRow> {
    x0.users[pl.email := UserRow(Some(pl.id), pl.adminPassword, CEO)]
  }

  /** The run is on its way to the call that will be refused: the creation of the user if the email is
      taken, and the insert of the domain if not. */
  ghost predicate Doomed(x0: Slice, pl: Plan, s: Local) {
    var x, n := s.slice, Pos(s.proc);
    && AtPlace(pl, s.proc) && n <= (if EmailTaken(x0, pl) then 22 else 27)
    && Kept(x0, x) && x.users == (if n <= 22 then x0.users else WithAdmin(x0, pl))
    && (n > 5 ==> x.role.Some?) && (n > 7 ==> x.database.Some?)
    && (n == 5 ==> x.role.None?) && (n == 7 ==> x.database.None?)
  }

  /** The rollback has yet to go back to rank c. */
  ghost predicate Swept(x0: Slice, pl: Plan, x: Slice, c: nat) {
    var others := WithoutTenant(x0.users, pl.id);
    && WithoutTenant(x.users, pl.id) == others
    && (c < Rank(CREATE_ADMIN_USER) ==> x.users == others)
    && (c < Rank(REGISTER_FINERACT_TENANT) ==> x.fineract.None?)
    && (c < Rank(CREATE_DB) ==> x.role.None? && x.database.None?)
  }

  ghost predicate Sweeping(x0: Slice, pl: Plan, s: Local) {
    var x, p := s.slice, s.proc;
    && !Forward(p) && p.identifier == pl.code != "" && p.step in {CREATE_ADMIN_USER, ACTIVATE}
    && (p.pc.ConnectingToDrop? || p.pc.DroppingDatabase? || p.pc.DroppingRole? ==> 1 <= p.pc.pass <= 2)
    && Kept(x0, x) && Swept(x0, pl, x, Cursor(p))
    && (p.pc.DroppingRole? ==> x.database.None?)
    && (p.pc.SavingJobFailure? || p.pc.SavingTenantFailure? || x.row.value.status == FAILED)
  }

  /** What a call on the way does when it succeeds. */
  ghost predicate DoomedOutcome(x0: Slice, pl: Plan, n: nat, o: LocalOutcome) {
    && (o.result.Raised? ==> n in {18, 23, 27} || (n == 22 && EmailTaken(x0, pl)))
    && (n == 22 && EmailTaken(x0, pl) ==> o.result.Raised?) && (n == 27 ==> o.result.Raised?)
    && (o.result.Absent? ==> (n == 4 && o.slice.role.None?) || (n == 6 && o.slice.database.None?))
    && (n == 4 && !o.result.Absent? ==> o.slice.role.Some?)
    && (n == 6 && !o.result.Absent? ==> o.slice.database.Some?)
    && Kept(x0, o.slice)
    && o.slice.users == (if n < 22 || (n == 22 && EmailTaken(x0, pl)) then x0.users else WithAdmin(x0, pl))
    && (n >= 5 ==> o.slice.role.Some?) && (n >= 7 ==> o.slice.database.Some?)
  }

  lemma DoomedEarly(x0: Slice, pl: Plan, s: Local)
    requires Doomed(x0, pl, s) && Pos(s.proc) <= 17
    ensures DoomedOutcome(x0, pl, Pos(s.proc), PerformLocal(pl, s.slice, EffectOf(pl, s.proc)))
  {
    hide HasPrimary, WithoutTenant, WithAdmin, Plan.Role, Plan.DbName, Plan.Host;
  }

  lemma DoomedLate(x0: Slice, pl: Plan, s: Local)
    requires Doomed(x0, pl, s) && 18 <= Pos(s.proc) && (EmailTaken(x0, pl) || DomainTaken(x0, pl))
    ensures DoomedOutcome(x0, pl, Pos(s.proc), PerformLocal(pl, s.slice, EffectOf(pl, s.proc)))
  {
    hide HasPrimary, WithoutTenant, Plan.Role, Plan.DbName, Plan.Host;
  }

  ghost predicate DoomedPlaces(pl: Plan, p: Proc, r: Result, q: Proc) {
    && (Pos(p) in {22, 27} && r.Raised? ==> q == Fail(p, r.message) && p.step in {CREATE_ADMIN_USER, ACTIVATE})
    && (Pos(p) < 27 && !(Pos(p) == 22 && r.Raised?) ==> AtPlace(pl, q) && Pos(p) < Pos(q) <= 27)
    && (Pos(p) < 22 ==> Pos(q) <= 22) && (Pos(p) == 22 ==> Pos(q) > 22)
    && (Pos(q) == 5 <==> Pos(p) == 4 && r.Absent?) && (Pos(q) == 7 <==> Pos(p) == 6 && r.Absent?)
    && (Pos(p) < 4 ==> Pos(q) <= 4) && (Pos(p) in {4, 5} ==> Pos(q) <= 6)
  }

  lemma DoomedEarlyMoves(pl: Plan, p: Proc, r: Result)
    requires AtPlace(pl, p) && Pos(p) <= 17 && !r.Raised?
    requires r.Absent? ==> Pos(p) == 4 || Pos(p) == 6
    ensures DoomedPlaces(pl, p, r, Resume(pl, p, r))
  {
    hide Unwind;
  }

  lemma DoomedLateMoves(pl: Plan, p: Proc, r: Result)
    requires AtPlace(pl, p) && 18 <= Pos(p) <= 27 && !r.Absent?
    requires r.Raised? ==> Pos(p) in {18, 22, 23, 27}
    ensures DoomedPlaces(pl, p, r, Resume(pl, p, r))
  {
    hide Unwind;
  }

  lemma DoomedStep(x0: Slice, pl: Plan, s: Local)
    requires Doomed(x0, pl, s) && (EmailTaken(x0, pl) || DomainTaken(x0, pl)) && pl.code != ""
    ensures var q := NextLocal(pl, s, Succeeds);
            Sweeping(x0, pl, q) || (Doomed(x0, pl, q) && Pos(s.proc) < Pos(q.proc))
  {
    var r := PerformLocal(pl, s.slice, EffectOf(pl, s.proc)).result;
    if Pos(s.proc) <= 17 {
      DoomedEarly(x0, pl, s);
      DoomedEarlyMoves(pl, s.proc, r);
    } else {
      DoomedLate(x0, pl, s);
      DoomedLateMoves(pl, s.proc, r);
    }
    AdminIsOwn(x0, pl);
    hide PerformLocal, EffectOf, Resume, StepAt, WithoutTenant, WithAdmin, DomainTaken;
  }

  lemma AdminIsOwn(x0: Slice, pl: Plan)
    ensures pl.email !in x0.users ==> WithoutTenant(WithAdmin(x0, pl), pl.id) == WithoutTenant(x0.users, pl.id)
  {
  }

  lemma SweepingCall(x0: Slice, pl: Plan, s: Local)
    requires Sweeping(x0, pl, s) && Recovering(s.proc)
    ensures var o, p := PerformLocal(pl, s.slice, EffectOf(pl, s.proc)), s.proc;
            && o.result.Done? && Kept(x0, o.slice) && Swept(x0, pl, o.slice, Remaining(p))
            && (p.pc.DroppingDatabase? ==> o.slice.database.None?)
            && (p.pc.SavingJobFailure? || o.slice.row.value.status == FAILED)
  {
    assert WithoutTenant(WithoutTenant(x0.users, pl.id), pl.id) == WithoutTenant(x0.users, pl.id);
    hide WithoutTenant, HasPrimary, Plan.Role, Plan.DbName, Plan.Host, Unwind;
  }

  lemma SweepingStep(x0: Slice, pl: Plan, s: Local)
    requires Sweeping(x0, pl, s)
    ensures Sweeping(x0, pl, NextLocal(pl, s, Succeeds))
  {
    if Recovering(s.proc) {
      SweepingCall(x0, pl, s);
      WalksBackOneHandler(pl, s.proc);
    }
    hide PerformLocal, EffectOf, Resume, WithoutTenant, Kept;
  }

  lemma {:induction false} DoomedRun(x0: Slice, pl: Plan, n: nat)
    requires x0.row.Some? && x0.job.Some? && !Unblocked(x0, pl) && pl.identifier == pl.code != ""
    ensures var s := ExecLocal(x0, pl, Clean(n)); Doomed(x0, pl, s) || Sweeping(x0, pl, s)
  {
    if n > 0 {
      hide NextLocal, Doomed, Sweeping;
      DoomedRun(x0, pl, n - 1);
      assert Clean(n)[..n - 1] == Clean(n - 1);
      var s := ExecLocal(x0, pl, Clean(n - 1));
      if Doomed(x0, pl, s) {
        DoomedStep(x0, pl, s);
      } else {
        SweepingStep(x0, pl, s);
      }
    }
  }

  /** Raised, and every resource with a handler gone, whoever made it; domain rows and is_active stay. */
  ghost predicate TornDown(x0: Slice, pl: Plan, s: Local)
    requires x0.row.Some?
  {
    && s.proc.pc.Escaped? && s.slice.row.Some? && s.slice.row.value.status == FAILED
    && s.slice.row.value.isActive == x0.row.value.isActive
    && s.slice.role.None? && s.slice.database.None? && s.slice.fineract.None?
    && s.slice.users == WithoutTenant(x0.users, pl.id) && s.slice.domains == x0.domains
  }

  /** What a run without faults does to a tenant in any state: it returns if the contact email and the
      hostname are free and there is no primary domain, and otherwise it tears the tenant down. */
  lemma {:induction false} CleanRunReturnsOrTearsDown(x0: Slice, pl: Plan, n: nat)
    requires x0.row.Some? && x0.job.Some? && pl.identifier == pl.code != "" && n >= 59
    ensures var s := ExecLocal(x0, pl, Clean(n));
            && (s.proc.pc.Returned? <==> Unblocked(x0, pl))
            && (TornDown(x0, pl, s) <==> !Unblocked(x0, pl))
  {
    hide ExecLocal, WithoutTenant, Unblocked;
    if Unblocked(x0, pl) {
      ViableRun(x0, pl, n);
      PlacesEnd(ExecLocal(x0, pl, Clean(n)).proc);
    } else {
      DoomedRun(x0, pl, n);
      RunHalts(x0, pl, Clean(n));
    }
  }

  lemma PlacesEnd(p: Proc)
    requires Forward(p) && Pos(p) >= 30
    ensures p.pc.Returned?
  {
  }

  lemma SameNames(x: Slice, pl: Plan, a: Attempt)
    requires x.row.Some? && x.row.value.identifier == pl.code
    ensures var plan := PlanFor(pl, x, a);
            && plan.id == pl.id && plan.identifier == plan.code == pl.code
            && plan.email == pl.email && plan.Host() == pl.Host()
            && (Unblocked(Renew(x), plan) <==> Unblocked(x, pl))
  {
  }

  /** tenant_retry on a tenant in any state, none of which its view refuses: without a fault it returns
      or tears the tenant down, and in the second case no later attempt can return either if it is the
      hostname or a primary domain that stands in the way. */
  lemma {:induction false} RetryReturnsOrTearsDown(x: Slice, pl: Plan, a: Attempt, n: nat, later: Attempt)
    requires x.row.Some? && x.row.value.identifier == pl.code != "" && n >= 59 && a.fates == Clean(n)
    ensures var s := Attempted(x, pl, a);
            && (s.proc.pc.Returned? <==> Unblocked(x, pl))
            && (TornDown(x, pl, s) <==> !Unblocked(x, pl))
            && (DomainTaken(x, pl) ==> !Attempted(s.slice, pl, later).proc.pc.Returned?)
  {
    SameNames(x, pl, a);
    CleanRunReturnsOrTearsDown(Renew(x), PlanFor(pl, x, a), n);
    var y := Attempted(x, pl, a).slice;
    hide ExecLocal, WithoutTenant, HasPrimary, Plan.Host;
    if DomainTaken(x, pl) {
      assert y.domains == x.domains && y.row.Some?;
      SameHostAndId(y, pl, later);
      BlockedNeverReturns(Renew(y), PlanFor(pl, y, later), later.fates);
    }
  }

  lemma SameHostAndId(x: Slice, pl: Plan, a: Attempt)
    ensures PlanFor(pl, x, a).Host() == pl.Host() && PlanFor(pl, x, a).id == pl.id
  {
  }

  /** The tenant a run made READY and serving: what that run built is destroyed, its hostname stays, it
      is FAILED though still active, and no later attempt can return. */
  lemma {:induction false} RetryDestroysReadyTenant(x0: Slice, pl: Plan, a: Attempt, n: nat, later: Attempt)
    requires Fresh(x0, pl) && n >= 59 && a.fates == Clean(n)
    ensures var t := Attempted(ReadySlice(x0, pl), pl, a);
            && t.proc.pc.Escaped? && Bare(t.slice) && t.slice.domains == Primary(pl)
            && t.slice.row.Some? && t.slice.row.value.status == FAILED && t.slice.row.value.isActive
            && !Attempted(t.slice, pl, later).proc.pc.Returned?
  {
    var x := ReadySlice(x0, pl);
    assert pl.email in x.users && pl.Host() in x.domains;
    assert WithoutTenant(Admin(pl), pl.id) == map[];
    hide ExecLocal, WithoutTenant, Attempted;
    RetryReturnsOrTearsDown(x, pl, a, n, later);
  }

  /** The tenant the Celery worker finished, or left after its domain insert: it has its database and a
      primary domain and no user yet, and fares no better. */
  lemma {:induction false} RetryDestroysWorkersTenant(x: Slice, pl: Plan, a: Attempt, n: nat, later: Attempt)
    requires x.row.Some? && x.row.value.identifier == pl.code != "" && n >= 59 && a.fates == Clean(n)
    requires x.database.Some? && HasPrimary(x.domains, pl.id) && x.users == map[]
    ensures var t := Attempted(x, pl, a);
            && t.proc.pc.Escaped? && Bare(t.slice) && t.slice.domains == x.domains
            && t.slice.row.Some? && t.slice.row.value.status == FAILED
            && !Attempted(t.slice, pl, later).proc.pc.Returned?
  {
    assert WithoutTenant(map[], pl.id) == map[];
    hide ExecLocal, WithoutTenant, Attempted, HasPrimary;
    RetryReturnsOrTearsDown(x, pl, a, n, later);
  }
}
