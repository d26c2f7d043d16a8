/**
 Exactly what a run leaves behind when anything at all may fail, its failure path included.
 */
module Leftovers {
  import opened Options
  import opened Tenants
  import opened Effects
  import opened Saga
  import opened Slices
  import opened Compensation
  import opened Runs
  import opened CleanRuns
  import opened Handlers

  /** A role is only dropped once its database is gone, whatever failed before. */
  ghost predicate Tidy(pl: Plan, s: Local) {
    OwnUsers(s.slice, pl.id) && (s.proc.pc.DroppingRole? ==> s.slice.database.None?)
  }

  // ---- One call ----

  lemma TouchesOnly(pl: Plan, x: Slice, p: Proc, f: Fate, res: Resource)
    requires !Halted(p) && !Makes(p.pc, res) && !Drops(p.pc, res)
    ensures res in Held(ApplyLocal(pl, x, EffectOf(pl, p), f).slice) <==> res in Held(x)
  {
    CallKinds(pl, p);
    OnlyTheyTouch(pl, x, EffectOf(pl, p));
    hide PerformLocal, EffectOf;
  }

  lemma RegistrationMakes(pl: Plan, x: Slice, p: Proc)
    requires p.pc.RegisteringTenant? && x.fineract.None?
    ensures FineractMade in Held(PerformLocal(pl, x, EffectOf(pl, p)).slice)
  {
    hide Plan.Role, Plan.DbName, Plan.Host, WithoutTenant, HasPrimary;
  }

  lemma MakingCallMakes(x0: Slice, pl: Plan, s: Local, res: Resource)
    requires Fresh(x0, pl) && AtPlace(pl, s.proc) && Built(x0, pl, s.slice, Pos(s.proc)) && Makes(s.proc.pc, res)
    ensures res in Held(PerformLocal(pl, s.slice, EffectOf(pl, s.proc)).slice)
    ensures res !in Held(s.slice)
  {
    FreshHasRow(x0, pl);
    BuiltHolds(x0, pl, s.slice, Pos(s.proc), res);
    if res.FineractMade? {
      NoFineract(s.slice);
      RegistrationMakes(pl, s.slice, s.proc);
      hide PerformLocal, EffectOf, Built, Held, Fresh;
    } else {
      CallBuilds(x0, pl, s.slice, s.proc);
      hide PerformLocal, EffectOf, Built, Held, Fresh;
      BuiltHolds(x0, pl, PerformLocal(pl, s.slice, EffectOf(pl, s.proc)).slice, Pos(s.proc) + 1, res);
    }
  }

  lemma NoFineract(x: Slice)
    ensures FineractMade in Held(x) <==> x.fineract.Some?
  {
  }

  /** Which resources the script has made before call n; Fineract's answer is not known from the place. */
  lemma BuiltHolds(x0: Slice, pl: Plan, x: Slice, n: nat, res: Resource)
    requires Fresh(x0, pl) && Built(x0, pl, x, n)
    ensures res == RoleMade ==> (res in Held(x) <==> n > 5)
    ensures res == DatabaseMade ==> (res in Held(x) <==> n > 7)
    ensures res == FineractMade && n <= 18 ==> res !in Held(x)
    ensures res == UsersMade ==> (res in Held(x) <==> n > 22)
    ensures res == DomainMade ==> (res in Held(x) <==> n > 27)
  {
    assert pl.email in Admin(pl) && pl.Host() in Primary(pl);
    hide RowAt, Plan.Role, Plan.DbName, Plan.Host;
  }

  /** What a call does to a resource: it makes it, drops it, or leaves it. */
  ghost predicate HeldMoves(s: Local, f: Fate, q: Local, res: Resource) {
    res in Held(q.slice) <==> (res in Held(s.slice) || Reaches(s, f, Made(res))) && !Reaches(s, f, Dropped(res))
  }

  lemma ScriptMovesHeld(x0: Slice, pl: Plan, s: Local, f: Fate, res: Resource)
    requires Fresh(x0, pl) && AtPlace(pl, s.proc) && Built(x0, pl, s.slice, Pos(s.proc))
    ensures HeldMoves(s, f, NextLocal(pl, s, f), res)
  {
    hide PerformLocal, EffectOf, Resume, Held, Built, Fresh;
    if Makes(s.proc.pc, res) {
      MakingCallMakes(x0, pl, s, res);
    } else {
      ScriptDropsNothing(s.proc, res);
      TouchesOnly(pl, s.slice, s.proc, f, res);
    }
  }

  lemma RecoveryMovesHeld(pl: Plan, s: Local, f: Fate, res: Resource)
    requires Recovering(s.proc) && Tidy(pl, s)
    ensures HeldMoves(s, f, NextLocal(pl, s, f), res)
  {
    hide PerformLocal, EffectOf, Resume, Held, OwnUsers;
    KindsApart(s, f, res);
    if Drops(s.proc.pc, res) {
      CallRemoves(pl, s.slice, s.proc);
      assert res in Removes(s.proc.pc);
    } else {
      assert !Makes(s.proc.pc, res);
      TouchesOnly(pl, s.slice, s.proc, f, res);
    }
  }

  lemma ScriptDropsNothing(p: Proc, res: Resource)
    requires Forward(p)
    ensures !Drops(p.pc, res)
  {
  }

  // ---- Tidiness under all faults ----

  lemma TidyScript(x0: Slice, pl: Plan, s: Local, f: Fate)
    requires Fresh(x0, pl) && Inv(x0, pl, s) && Forward(s.proc) && !Halted(s.proc)
    ensures Tidy(pl, NextLocal(pl, s, f))
  {
    FreshHasRow(x0, pl);
    InvAtPlace(x0, pl, s);
    CallBuildsOrNot(x0, pl, s, f);
    var o, n := ApplyLocal(pl, s.slice, EffectOf(pl, s.proc), f), Pos(s.proc);
    ResumesInPlace(pl, s.proc, o.result);
    hide ApplyLocal, EffectOf, Resume, Fresh, Inv, Built, OwnUsers;
    BuiltIsOwn(x0, pl, o.slice, if Built(x0, pl, o.slice, n) then n else n + 1);
  }

  lemma OnlyDropLeadsToRole(pl: Plan, p: Proc, r: Result)
    requires Recovering(p) && Resume(pl, p, r).pc.DroppingRole?
    ensures p.pc.DroppingDatabase? && !r.Raised?
  {
    UnwindIsNoDrop(p, if p.pc.SavingTenantFailure? then Rank(p.step) else if p.pc.DeletingUsers? then 6 else 4);
    if p.pc.DroppingDatabase? || p.pc.DroppingRole? {
      UnwindIsNoDrop(p, if p.pc.pass < |ORDER| then p.pc.pass - 1 else -1);
    }
    hide Unwind;
  }

  lemma UnwindIsNoDrop(p: Proc, last: int)
    requires last < |ORDER|
    ensures !Unwind(p, last).pc.DroppingRole?
    decreases last
  {
    if 0 <= last {
      UnwindIsNoDrop(p, last - 1);
    }
  }

  lemma TidyRecovery(pl: Plan, s: Local, f: Fate)
    requires Recovering(s.proc) && Tidy(pl, s)
    ensures Tidy(pl, NextLocal(pl, s, f))
  {
    CallRemoves(pl, s.slice, s.proc);
    var o := ApplyLocal(pl, s.slice, EffectOf(pl, s.proc), f);
    if Resume(pl, s.proc, o.result).pc.DroppingRole? {
      OnlyDropLeadsToRole(pl, s.proc, o.result);
      RemovalCalls(pl, s.slice, s.proc);
    }
    hide PerformLocal, EffectOf, Resume, Held, OwnUsers;
  }

  lemma StartIsTidy(x0: Slice, pl: Plan)
    requires Fresh(x0, pl)
    ensures Tidy(pl, Local(x0, Start(pl))) && Held(x0) == {}
  {
  }

  // ---- Whole runs, under all faults ----

  /** After a prefix of a run: a resource is held if and only if it was made and not dropped, and nothing
      is dropped before the except clause. */
  ghost predicate Accounted(x0: Slice, pl: Plan, fates: seq<Fate>, res: Resource) {
    var s := ExecLocal(x0, pl, fates);
    && Tidy(pl, s)
    && (res in Held(s.slice) <==> Reached(x0, pl, fates, Made(res)) && !Reached(x0, pl, fates, Dropped(res)))
    && (Forward(s.proc) ==> !Reached(x0, pl, fates, Dropped(res)))
  }

  lemma KindsApart(s: Local, f: Fate, res: Resource)
    ensures Reaches(s, f, Made(res)) ==> !Recovering(s.proc)
    ensures Reaches(s, f, Dropped(res)) ==> Recovering(s.proc)
  {
  }

  lemma AccountedStep(x0: Slice, pl: Plan, fates: seq<Fate>, res: Resource)
    requires Fresh(x0, pl) && fates != [] && Accounted(x0, pl, fates[..|fates| - 1], res)
    requires !Halted(ExecLocal(x0, pl, fates[..|fates| - 1]).proc)
    ensures Accounted(x0, pl, fates, res)
  {
    var n := |fates| - 1;
    var s, f := ExecLocal(x0, pl, fates[..n]), fates[n];
    assert ExecLocal(x0, pl, fates) == NextLocal(pl, s, f);
    ReachedPrefix(x0, pl, fates, Made(res));
    ReachedPrefix(x0, pl, fates, Dropped(res));
    KindsApart(s, f, res);
    if Recovering(s.proc) {
      RecoveryMovesHeld(pl, s, f, res);
      TidyRecovery(pl, s, f);
      NeverForwardAgain(pl, s.proc, ApplyLocal(pl, s.slice, EffectOf(pl, s.proc), f).result);
      NextIsResumed(pl, s, f);
    } else {
      ForwardInv(x0, pl, fates[..n]);
      InvAtPlace(x0, pl, s);
      ScriptMovesHeld(x0, pl, s, f, res);
      TidyScript(x0, pl, s, f);
    }
    hide ExecLocal, NextLocal, Fresh, Inv, Built, AtPlace, Tidy, Reached, Reaches, Held, ApplyLocal, EffectOf, Resume;
  }

  lemma NextIsResumed(pl: Plan, s: Local, f: Fate)
    requires !Halted(s.proc)
    ensures NextLocal(pl, s, f).proc == Resume(pl, s.proc, ApplyLocal(pl, s.slice, EffectOf(pl, s.proc), f).result)
  {
  }

  lemma {:induction false} AlwaysAccounted(x0: Slice, pl: Plan, fates: seq<Fate>, res: Resource)
    requires Fresh(x0, pl)
    ensures Accounted(x0, pl, fates, res)
  {
    if fates == [] {
      StartIsTidy(x0, pl);
      NothingReached(x0, pl, Made(res));
      NothingReached(x0, pl, Dropped(res));
      hide Tidy, Reached, Held;
    } else {
      var n := |fates| - 1;
      AlwaysAccounted(x0, pl, fates[..n], res);
      var s := ExecLocal(x0, pl, fates[..n]);
      if Halted(s.proc) {
        HaltedStays(pl, s);
        ReachedPrefix(x0, pl, fates, Made(res));
        ReachedPrefix(x0, pl, fates, Dropped(res));
        HaltedReachesNothing(s, fates[n], Made(res));
        HaltedReachesNothing(s, fates[n], Dropped(res));
        hide NextLocal, Tidy, Reached, Reaches, Held;
      } else {
        AccountedStep(x0, pl, fates, res);
      }
    }
  }

  /** Exact compensation, without any hypothesis on the failure path: after any run from a fresh start,
      under any faults, a resource is there if and only if the call that makes it took effect and the
      call that removes it did not. */
  lemma {:induction false} HeldIffMadeAndNotDropped(x0: Slice, pl: Plan, fates: seq<Fate>, res: Resource)
    requires Fresh(x0, pl)
    ensures res in Held(ExecLocal(x0, pl, fates).slice) <==>
              Reached(x0, pl, fates, Made(res)) && !Reached(x0, pl, fates, Dropped(res))
  {
    AlwaysAccounted(x0, pl, fates, res);
    hide ExecLocal, Held, Reached, Fresh;
  }

  /** In particular a run is compensated if and only if whatever it made and has a handler was dropped. */
  lemma {:induction false} BareIffAllDropped(x0: Slice, pl: Plan, fates: seq<Fate>)
    requires Fresh(x0, pl)
    ensures Bare(ExecLocal(x0, pl, fates).slice) <==>
              forall res ::
                res != DomainMade && Reached(x0, pl, fates, Made(res)) ==> Reached(x0, pl, fates, Dropped(res))
  {
    forall res {
      HeldIffMadeAndNotDropped(x0, pl, fates, res);
    }
    BareIsNothingHeld(ExecLocal(x0, pl, fates).slice);
    hide ExecLocal, Held, Reached, Fresh, Bare;
  }

  lemma BareIsNothingHeld(x: Slice)
    ensures Bare(x) <==> forall res :: res in Held(x) ==> res == DomainMade
  {
    if forall res :: res in Held(x) ==> res == DomainMade {
      assert RoleMade !in Held(x) && DatabaseMade !in Held(x) && FineractMade !in Held(x) && UsersMade !in Held(x);
    }
  }
}
