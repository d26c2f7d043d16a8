/**
 The stored credential of a READY tenant, in every state its runs pass through.
 */
module Credentials {
  import opened Options
  import opened Tenants
  import opened Effects
  import opened Saga
  import opened Slices
  import opened Compensation
  import opened Runs
  import opened CleanRuns
  import opened Retries

  /** A READY tenant has a stored credential, and it opens the role. */
  predicate ReadyMatches(x: Slice) {
    x.row.Some? && x.row.value.status == READY ==> x.credential.Some? && x.credential == x.role
  }

  predicate NotReady(x: Slice) {
    x.row.Some? ==> x.row.value.status != READY
  }

  /** The handlers and the audit entry, after FAILED has been saved. */
  predicate RollingBack(p: Proc) {
    Recovering(p) && !p.pc.SavingJobFailure? && !p.pc.SavingTenantFailure?
  }

  /** A tenant is not READY between the first save of a run and its activation, nor in a rollback. */
  ghost predicate ReadySoFar(s: Local) {
    && ReadyMatches(s.slice)
    && (Forward(s.proc) && 1 <= Pos(s.proc) <= 28 ==> NotReady(s.slice))
    && (RollingBack(s.proc) ==> NotReady(s.slice))
  }

  /** The status after a call, and which calls leave role and credential alone. */
  ghost predicate StatusMoves(x: Slice, p: Proc, y: Slice, r: Result) {
    && (x.row.None? <==> y.row.None?)
    && (y.row.Some? && y.row.value.status == READY ==> x.row.value.status == READY || p.pc.SavingReady?)
    && (p.pc.SavingProvisioning? || p.pc.SavingTenantFailure? ==> r.Raised? || NotReady(y))
    && (y.role != x.role ==> p.pc.CreatingRole? || p.pc.DroppingRole?)
    && (y.credential != x.credential ==> p.pc.FetchingCredential? || p.pc.SavingCredential?)
  }

  lemma CallMovesStatus(pl: Plan, x: Slice, p: Proc, f: Fate)
    requires !Halted(p)
    ensures var o := ApplyLocal(pl, x, EffectOf(pl, p), f);
            StatusMoves(x, p, o.slice, o.result)
  {
    CallKinds(pl, p);
    OnlyTheyTouch(pl, x, EffectOf(pl, p));
    if EffectOf(pl, p).SaveStatus? {
      StatusCall(pl, x, p);
    }
    hide PerformLocal, EffectOf;
  }

  lemma StatusCall(pl: Plan, x: Slice, p: Proc)
    requires !Halted(p) && EffectOf(pl, p).SaveStatus?
    ensures var o := PerformLocal(pl, x, EffectOf(pl, p)); NotReady(o.slice)
    ensures EffectOf(pl, p).status != READY
  {
    hide Plan.Role, Plan.DbName, Plan.Host;
  }

  lemma UnwindRollsBack(p: Proc, last: int)
    requires last < |ORDER|
    ensures RollingBack(Unwind(p, last))
    decreases last
  {
    if 0 <= last {
      UnwindRollsBack(p, last - 1);
    }
  }

  lemma ForwardPlaces(pl: Plan, p: Proc, r: Result)
    requires Forward(p) && !Halted(p)
    ensures var q := Resume(pl, p, r);
            && !RollingBack(q)
            && (Forward(q) && Pos(q) <= 28 ==> Pos(p) < Pos(q))
            && (p.pc.SavingProvisioning? <==> Pos(p) == 0)
            && (p.pc.SavingProvisioning? && r.Raised? ==> !Forward(q))
            && (p.pc.CreatingRole? || p.pc.FetchingCredential? || p.pc.SavingCredential? ==> 1 <= Pos(p) <= 28)
            && (p.pc.SavingReady? <==> Pos(p) == 28)
  {
    hide Unwind;
  }

  lemma RecoveryPlaces(pl: Plan, p: Proc, r: Result)
    requires Recovering(p)
    ensures RollingBack(Resume(pl, p, r)) ==> RollingBack(p) || (p.pc.SavingTenantFailure? && !r.Raised?)
    ensures !Forward(Resume(pl, p, r))
  {
    NeverForwardAgain(pl, p, r);
    hide Unwind;
  }

  lemma ReadyStep(pl: Plan, s: Local, f: Fate)
    requires ReadySoFar(s) && !Halted(s.proc)
    requires s.proc.pc.SavingReady? ==> s.slice.credential.Some? && s.slice.credential == s.slice.role
    ensures ReadySoFar(NextLocal(pl, s, f))
  {
    CallMovesStatus(pl, s.slice, s.proc, f);
    var r := ApplyLocal(pl, s.slice, EffectOf(pl, s.proc), f).result;
    if Recovering(s.proc) {
      RecoveryPlaces(pl, s.proc, r);
    } else {
      ForwardPlaces(pl, s.proc, r);
    }
    hide ApplyLocal, EffectOf, Resume, Pos;
  }

  /** At every moment of a run that finds no role, or that cannot return. */
  lemma {:induction false} ReadyThroughout(x0: Slice, pl: Plan, fates: seq<Fate>)
    requires ReadyMatches(x0) && (x0.role.None? || pl.Host() in x0.domains)
    ensures ReadySoFar(ExecLocal(x0, pl, fates))
  {
    if fates != [] {
      var n := |fates| - 1;
      var s := ExecLocal(x0, pl, fates[..n]);
      hide ReadySoFar, PerformLocal, EffectOf, Resume;
      ReadyThroughout(x0, pl, fates[..n]);
      if s.proc.pc.SavingReady? {
        ActivationMatches(x0, pl, fates[..n]);
      }
      if !Halted(s.proc) {
        ReadyStep(pl, s, fates[n]);
      }
    }
  }

  lemma ActivationMatches(x0: Slice, pl: Plan, fates: seq<Fate>)
    requires x0.role.None? || pl.Host() in x0.domains
    requires ExecLocal(x0, pl, fates).proc.pc.SavingReady?
    ensures var x := ExecLocal(x0, pl, fates).slice; x.credential.Some? && x.credential == x.role
  {
    hide ExecLocal;
    CredentialThroughout(x0, pl, fates);
    if pl.Host() in x0.domains {
      BlockedNeverReturns(x0, pl, fates);
    }
  }

  /** The condition under which an attempt keeps ReadyMatches. */
  ghost predicate Left(x: Slice, pl: Plan) {
    ReadyMatches(x) && (x.role.None? || pl.Host() in x.domains)
  }

  lemma LeftByAttempt(x: Slice, pl: Plan, a: Attempt)
    requires Left(x, pl) && (Attempted(x, pl, a).proc.pc.Returned? || Attempted(x, pl, a).slice.role.None?)
    ensures Left(Attempted(x, pl, a).slice, pl)
  {
    hide ExecLocal, ReadyMatches, Plan.Host;
    AttemptReady(x, pl, a);
    if Attempted(x, pl, a).proc.pc.Returned? {
      ReturnedRunOwnsHost(Renew(x), PlanFor(pl, x, a), a.fates);
    }
    SameHost(pl, x, a);
  }

  lemma SameHost(pl: Plan, x: Slice, a: Attempt)
    ensures PlanFor(pl, x, a).Host() == pl.Host()
  {
  }

  /** What the attempts before the last one leave behind. */
  lemma {:induction false} LeftForLast(x: Slice, pl: Plan, tries: seq<Attempt>)
    requires tries != [] && Left(x, pl) && RolesDropped(x, pl, tries)
    ensures Left(History(x, pl, tries[..|tries| - 1]), pl)
  {
    hide Left, RolesDropped, Attempted;
    var n := |tries| - 1;
    if n > 0 {
      RolesDroppedPrefix(x, pl, tries);
      assert tries[..n][..n - 1] == tries[..n - 1];
      LeftForLast(x, pl, tries[..n]);
      LeftByAttempt(History(x, pl, tries[..n - 1]), pl, tries[n - 1]);
    }
  }

  lemma RolesDroppedPrefix(x: Slice, pl: Plan, tries: seq<Attempt>)
    requires |tries| > 1 && RolesDropped(x, pl, tries)
    ensures var n := |tries| - 1;
            && RolesDropped(x, pl, tries[..n])
            && (|| Attempted(History(x, pl, tries[..n - 1]), pl, tries[n - 1]).proc.pc.Returned?
                || History(x, pl, tries[..n]).role.None?)
  {
    var n := |tries| - 1;
    assert tries[..n + 1] == tries;
    forall i | 0 < i < n
      ensures || Attempted(History(x, pl, tries[..n][..i - 1]), pl, tries[..n][i - 1]).proc.pc.Returned?
              || History(x, pl, tries[..n][..i]).role.None?
    {
      assert tries[..n][..i] == tries[..i] && tries[..n][..i - 1] == tries[..i - 1];
    }
    hide History, Attempted;
  }

  lemma AttemptReady(x: Slice, pl: Plan, a: Attempt)
    requires ReadyMatches(x) && (x.role.None? || pl.Host() in x.domains)
    ensures ReadyMatches(Attempted(x, pl, a).slice)
  {
    hide ExecLocal;
    ReadyThroughout(Renew(x), PlanFor(pl, x, a), a.fates);
  }

  /** Credential agreement.  A tenant that starts without a role and is not READY is attempted any
      number of times, under any faults.  If every attempt but the last returned or really dropped the
      role, then whenever the tenant is READY, at any moment of the last attempt and after it, its
      stored credential is the password of its role. */
  lemma {:induction false} ReadyCredentialAgrees(x: Slice, pl: Plan, tries: seq<Attempt>, k: nat)
    requires tries != [] && x.role.None? && NotReady(x) && RolesDropped(x, pl, tries)
    requires k <= |tries[|tries| - 1].fates|
    ensures ReadyMatches(History(x, pl, tries))
    ensures var before, last := History(x, pl, tries[..|tries| - 1]), tries[|tries| - 1];
            ReadyMatches(ExecLocal(Renew(before), PlanFor(pl, before, last), last.fates[..k]).slice)
  {
    hide ExecLocal, RolesDropped;
    LeftForLast(x, pl, tries);
    var before, last := History(x, pl, tries[..|tries| - 1]), tries[|tries| - 1];
    AttemptReady(before, pl, last);
    ReadyThroughout(Renew(before), PlanFor(pl, before, last), last.fates[..k]);
  }

  // ---- How the two can come apart ----

  lemma ReadyAfterActivation(pl: Plan, s: Local, f: Fate)
    requires s.proc.pc.SavingReady? && Forward(NextLocal(pl, s, f).proc)
    ensures var x := NextLocal(pl, s, f).slice; x.row.Some? && x.row.value.status == READY
  {
  }

  lemma StatusStaysAtEnd(pl: Plan, s: Local, f: Fate)
    requires s.proc.pc.SavingDone?
    ensures NextLocal(pl, s, f).slice.row == s.slice.row
  {
  }

  /** The two calls after which a run stands behind its activation. */
  lemma PastActivation(pl: Plan, s: Local, f: Fate)
    requires !Halted(s.proc)
    requires Forward(NextLocal(pl, s, f).proc) && Pos(NextLocal(pl, s, f).proc) > 28
    ensures var x := NextLocal(pl, s, f).slice;
            || (x.row.Some? && x.row.value.status == READY)
            || (Forward(s.proc) && Pos(s.proc) > 28 && x.row == s.slice.row)
  {
    var r := ApplyLocal(pl, s.slice, EffectOf(pl, s.proc), f).result;
    if Recovering(s.proc) {
      NeverForwardAgain(pl, s.proc, r);
    } else {
      LateCalls(pl, s.proc, r);
      if s.proc.pc.SavingReady? {
        ReadyAfterActivation(pl, s, f);
      } else {
        StatusStaysAtEnd(pl, s, f);
      }
    }
    hide PerformLocal, EffectOf, Resume;
  }

  /** A run that gets past its activation, and so one that returns, leaves the tenant READY. */
  lemma {:induction false} ReturnedMeansReady(x0: Slice, pl: Plan, fates: seq<Fate>)
    requires Forward(ExecLocal(x0, pl, fates).proc) && Pos(ExecLocal(x0, pl, fates).proc) > 28
    ensures var x := ExecLocal(x0, pl, fates).slice; x.row.Some? && x.row.value.status == READY
  {
    if fates != [] {
      hide NextLocal;
      var s, f := ExecLocal(x0, pl, fates[..|fates| - 1]), fates[|fates| - 1];
      if Halted(s.proc) {
        HaltedStays(pl, s);
        ReturnedMeansReady(x0, pl, fates[..|fates| - 1]);
      } else {
        PastActivation(pl, s, f);
        if Forward(s.proc) && Pos(s.proc) > 28 {
          ReturnedMeansReady(x0, pl, fates[..|fates| - 1]);
        }
      }
    }
  }

  lemma LateCalls(pl: Plan, p: Proc, r: Result)
    requires Forward(p) && !Halted(p) && Forward(Resume(pl, p, r)) && Pos(Resume(pl, p, r)) > 28
    ensures p.pc.SavingReady? || p.pc.SavingDone?
  {
    hide Unwind;
  }

  lemma TwoFailures(pl: Plan, s: Local, f: Fate)
    requires s.proc.pc.SavingConnection? && f.Fails? && !f.tookEffect
    ensures var q := NextLocal(pl, NextLocal(pl, s, f), f);
            q.proc.pc.Escaped? && q.slice == s.slice
  {
  }

  /** A first attempt can leave its role behind: it fails once the role and the database exist, and so
      does the save of that failure, which comes before the rollback. */
  lemma {:induction false} RoleCanSurvive(x0: Slice, pl: Plan) returns (fates: seq<Fate>)
    requires Fresh(x0, pl)
    ensures var s := ExecLocal(x0, pl, fates);
            && s.proc.pc.Escaped? && s.slice.row.Some? && s.slice.job.Some?
            && s.slice.role == Some(pl.password) && s.slice.users == map[] && s.slice.domains == map[]
  {
    hide NextLocal, Inv;
    StartsAtZero(x0, pl);
    var n := Visits(x0, pl, 0, 8);
    var s, lost := ExecLocal(x0, pl, Clean(n)), Fails(false, "lost connection");
    ForwardInv(x0, pl, Clean(n));
    BuiltRole(x0, pl, s);
    TwoFailures(pl, s, lost);
    var once := Clean(n) + [lost];
    fates := once + [lost];
    assert once[..n] == Clean(n) && fates[..n + 1] == once;
  }

  lemma BuiltRole(x0: Slice, pl: Plan, s: Local)
    requires Fresh(x0, pl) && Inv(x0, pl, s) && Forward(s.proc) && Pos(s.proc) == 8
    ensures s.proc.pc.SavingConnection? && s.slice.row.Some? && s.slice.job.Some?
    ensures s.slice.role == Some(pl.password) && s.slice.users == map[] && s.slice.domains == map[]
  {
  }

  /** The failing input of CredentialMatchesIffRoleWasNew is reached: from every fresh start, and for any
      two different passwords drawn, there are two attempts of which the second returns, the tenant is
      READY, and the stored credential is not the password of the role. */
  lemma {:induction false} CredentialCanDisagree(x0: Slice, pl: Plan, old': Attempt, new': Attempt)
    returns (first: Attempt, second: Attempt)
    requires Retriable(x0, pl, x0) && old'.password != new'.password
    ensures first == old'.(fates := first.fates) && second == new'.(fates := second.fates)
    ensures var t := Attempted(History(x0, pl, [first]), pl, second);
            && t.proc.pc.Returned? && t.slice.row.Some? && t.slice.row.value.status == READY
            && t.slice.credential == Some(new'.password) && t.slice.role == Some(old'.password)
  {
    hide ExecLocal;
    SamePlan(x0, pl, x0, old');
    var fates := RoleCanSurvive(Renew(x0), PlanFor(pl, x0, old'));
    first := old'.(fates := fates);
    var y := Attempted(x0, pl, first).slice;
    assert [first][..0] == [] && History(x0, pl, [first]) == y;
    second := new'.(fates := Clean(30));
    var x, plan := Renew(y), PlanFor(pl, y, second);
    CanReturnIffUnblocked(x, plan);
    CredentialThroughout(x, plan, Clean(30));
    ReturnedMeansReady(x, plan, Clean(30));
  }
}
