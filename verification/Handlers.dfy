/**
 The step list of RollbackManager as an instance of Rollbacks: which step creates what, and which handler
 removes it.
 */
module Handlers {
  import opened Options
  import opened Tenants
  import opened Effects
  import opened Saga
  import opened Slices
  import opened Compensation
  import opened Runs
  import opened CleanRuns
  import opened Rollbacks

  function StageOf(step: Step): Stage<Resource> {
    match step
    case CREATE_DB => Stage({RoleMade, DatabaseMade}, {RoleMade, DatabaseMade})
    case CREATE_DB_USER => Stage({}, {RoleMade, DatabaseMade})
    case REGISTER_FINERACT_TENANT => Stage({FineractMade}, {FineractMade})
    case CREATE_ADMIN_USER => Stage({UsersMade}, {UsersMade})
    case ACTIVATE => Stage({DomainMade}, {})
    case _ => Stage({}, {})
  }

  function Stages(): seq<Stage<Resource>> {
    seq(|ORDER|, i requires 0 <= i < |ORDER| => StageOf(ORDER[i]))
  }

  /** The ranks of the values job.current_step takes, in the order it takes them. */
  const SCRIPT: seq<nat> := [1, 2, 3, 4, 5, 7, 8, 9, 10]

  /** The place of the step a run is in, within the script. */
  function PlaceIn(step: Step): (k: nat)
    requires step !in {VALIDATE, SAVE_REGISTRY}
    ensures k < |SCRIPT| && ORDER[SCRIPT[k]] == step
  {
    match step
    case CREATE_DB => 0
    case CREATE_DB_USER => 1
    case GRANT_PERMISSIONS => 2
    case RUN_FINERACT_SCHEMA => 3
    case REGISTER_FINERACT_TENANT => 4
    case CREATE_ADMIN_USER => 5
    case SEND_WELCOME_EMAIL => 6
    case ACTIVATE => 7
    case DONE => 8
  }

  /** What the steps before the k-th of the script create. */
  function MadeBefore(k: nat): set<Resource> {
    (if k > 0 then {RoleMade, DatabaseMade} else {})
    + (if k > 4 then {FineractMade} else {})
    + (if k > 5 then {UsersMade} else {})
    + (if k > 7 then {DomainMade} else {})
  }

  lemma CreatedUpTo(k: nat)
    requires k <= |SCRIPT|
    ensures Within(Stages(), SCRIPT[..k]) && Created(Stages(), SCRIPT[..k]) == MadeBefore(k)
  {
    if k > 0 {
      CreatedUpTo(k - 1);
      assert SCRIPT[..k][..k - 1] == SCRIPT[..k - 1];
      assert Stages()[SCRIPT[k - 1]] == StageOf(ORDER[SCRIPT[k - 1]]);
    }
  }

  lemma HeldIsMade(x0: Slice, pl: Plan, x: Slice, n: nat, m: nat)
    requires Fresh(x0, pl) && 2 <= n <= m <= n + 1 && n <= 29 && Built(x0, pl, x, m)
    ensures Held(x) <= MadeBefore(PlaceIn(StepAt(n))) + StageOf(StepAt(n)).creates
  {
    hide RowAt, Plan.Role, Plan.DbName, Plan.Host;
  }

  /** The calls of the machine create what the list says: at any place of the script, before or after
      the call that is made there, the slice holds what the finished steps create and part of what the
      current step does. */
  lemma HeldIsCreated(x0: Slice, pl: Plan, x: Slice, n: nat, m: nat)
    requires Fresh(x0, pl) && 2 <= n <= m <= n + 1 && n <= 29 && Built(x0, pl, x, m)
    ensures var k := PlaceIn(StepAt(n));
            && Within(Stages(), SCRIPT[..k])
            && Held(x) <= Created(Stages(), SCRIPT[..k]) + StageOf(StepAt(n)).creates
  {
    hide Created, Within, Stages, Built, Fresh, Held, MadeBefore, StageOf;
    CreatedUpTo(PlaceIn(StepAt(n)));
    HeldIsMade(x0, pl, x, n, m);
  }

  /** The domain is the one resource no handler up to its step removes; without it the list is covered. */
  lemma OnlyDomainIsUncovered(r: nat, res: Resource)
    requires r < |ORDER| && res in StageOf(ORDER[r]).creates
    ensures UndoneBy(Stages(), res, r) <==> res != DomainMade
  {
    assert forall h :: 0 <= h < |ORDER| ==> Stages()[h] == StageOf(ORDER[h]);
    if res != DomainMade {
      assert res in Stages()[r].undoes;
    }
  }

  lemma NoHandlerForDomain(r: nat)
    requires r < |ORDER|
    ensures !UndoneBy(Stages(), DomainMade, r)
  {
    assert forall h :: 0 <= h < |ORDER| ==> Stages()[h] == StageOf(ORDER[h]);
  }

  /** Hence the rollback of this list is clean up to the domain, and not beyond. */
  lemma LeavesAtMostDomain(script: seq<nat>, part: set<Resource>)
    requires script != [] && Within(Stages(), script) && Increasing(script)
    requires part <= Stages()[script[|script| - 1]].creates
    ensures Leftover(Stages(), script, part) <= {DomainMade}
    ensures !AlwaysClean(Stages())
  {
    forall res | res in Leftover(Stages(), script, part) ensures res == DomainMade {
      var r := LeftoverIsUncovered(Stages(), script, part, res);
      assert Stages()[r] == StageOf(ORDER[r]);
      OnlyDomainIsUncovered(r, res);
    }
    AlwaysCleanIffCovered(Stages());
    assert DomainMade in Stages()[9].creates;
    NoHandlerForDomain(9);
  }

  // ---- The handlers of the machine are those of the list ----

  predicate OwnUsers(x: Slice, id: TenantId) {
    forall m :: m in x.users ==> x.users[m].tenant == Some(id)
  }

  function Removes(pc: Pc): set<Resource> {
    match pc
    case DeletingUsers => {UsersMade}
    case DeletingFineract => {FineractMade}
    case DroppingDatabase(_) => {DatabaseMade}
    case DroppingRole(_) => {RoleMade}
    case _ => {}
  }

  lemma RemovalCalls(pl: Plan, x: Slice, p: Proc)
    requires OwnUsers(x, pl.id)
    requires p.pc.DeletingUsers? || p.pc.DeletingFineract? || p.pc.DroppingDatabase?
             || (p.pc.DroppingRole? && x.database.None?)
    ensures var y := PerformLocal(pl, x, EffectOf(pl, p)).slice;
            && (p.pc.DeletingUsers? ==> y == x.(users := map[]))
            && (p.pc.DeletingFineract? ==> y == x.(fineract := None))
            && (p.pc.DroppingDatabase? ==> y == x.(database := None))
            && (p.pc.DroppingRole? ==> y == x.(role := None))
  {
    assert WithoutTenant(x.users, pl.id) == map[];
    hide WithoutTenant, HasPrimary, Plan.Role, Plan.DbName, Plan.Host;
  }

  lemma CallRemoves(pl: Plan, x: Slice, p: Proc)
    requires Recovering(p) && OwnUsers(x, pl.id) && (p.pc.DroppingRole? ==> x.database.None?)
    ensures var y := PerformLocal(pl, x, EffectOf(pl, p)).slice;
            Held(y) == Held(x) - Removes(p.pc) && OwnUsers(y, pl.id)
  {
    if p.pc.DeletingUsers? || p.pc.DeletingFineract? || p.pc.DroppingDatabase? || p.pc.DroppingRole? {
      RemovalCalls(pl, x, p);
    } else {
      CallKinds(pl, p);
      OnlyTheyTouch(pl, x, EffectOf(pl, p));
      assert Removes(p.pc) == {};
    }
    hide PerformLocal, EffectOf;
  }

  /** n calls that succeed. */
  ghost function Quietly(pl: Plan, s: Local, n: nat): Local {
    if n == 0 then s else NextLocal(pl, Quietly(pl, s, n - 1), Succeeds)
  }

  lemma {:induction false} QuietlyAdds(pl: Plan, s: Local, m: nat, n: nat)
    ensures Quietly(pl, Quietly(pl, s, m), n) == Quietly(pl, s, m + n)
  {
    hide NextLocal;
    var t := Quietly(pl, s, m);
    if n > 0 {
      QuietlyAdds(pl, s, m, n - 1);
      assert Quietly(pl, t, n) == NextLocal(pl, Quietly(pl, t, n - 1), Succeeds);
      assert Quietly(pl, s, m + n) == NextLocal(pl, Quietly(pl, s, m + n - 1), Succeeds);
    }
  }

  lemma OneCall(pl: Plan, p: Proc, x: Slice)
    requires Recovering(p) && OwnUsers(x, pl.id) && (p.pc.DroppingRole? ==> x.database.None?)
    requires !p.pc.SavingJobFailure? && !p.pc.SavingTenantFailure?
    ensures var q := NextLocal(pl, Local(x, p), Succeeds);
            q.proc == Resume(pl, p, Done) && Held(q.slice) == Held(x) - Removes(p.pc) && OwnUsers(q.slice, pl.id)
  {
    CallRemoves(pl, x, p);
    CallIsDone(pl, x, p);
    hide PerformLocal, EffectOf, Resume, Held;
  }

  lemma CallIsDone(pl: Plan, x: Slice, p: Proc)
    requires Recovering(p) && !p.pc.SavingJobFailure? && !p.pc.SavingTenantFailure?
    requires p.pc.DroppingRole? ==> x.database.None?
    ensures PerformLocal(pl, x, EffectOf(pl, p)).result.Done?
  {
    hide WithoutTenant, HasPrimary, Plan.Role, Plan.DbName, Plan.Host;
  }

  lemma ThreeCalls(pl: Plan, s: Local)
    ensures Quietly(pl, s, 0) == s && Quietly(pl, s, 1) == NextLocal(pl, s, Succeeds)
    ensures Quietly(pl, s, 2) == NextLocal(pl, NextLocal(pl, s, Succeeds), Succeeds)
    ensures Quietly(pl, s, 3) == NextLocal(pl, NextLocal(pl, NextLocal(pl, s, Succeeds), Succeeds), Succeeds)
  {
    hide NextLocal;
    assert Quietly(pl, s, 0) == s;
    assert Quietly(pl, s, 1) == NextLocal(pl, s, Succeeds);
    assert Quietly(pl, s, 2) == NextLocal(pl, Quietly(pl, s, 1), Succeeds);
  }

  lemma DropAllIsThreeCalls(pl: Plan, p: Proc, k: nat)
    requires k == 1 || k == 2
    ensures Resume(pl, Goto(p, ConnectingToDrop(k)), Done) == Goto(p, DroppingDatabase(k))
    ensures Resume(pl, Goto(p, DroppingDatabase(k)), Done) == Goto(p, DroppingRole(k))
    ensures Resume(pl, Goto(p, DroppingRole(k)), Done) == Unwind(p, k - 1)
  {
    UnwindIgnoresPc(p, Goto(p, DroppingRole(k)), k - 1);
    hide Unwind;
  }

  /** The three calls of drop_all. */
  lemma DropUndoes(pl: Plan, p: Proc, x: Slice, k: nat)
    requires k == 1 || k == 2
    requires OwnUsers(x, pl.id)
    ensures var q := Quietly(pl, Local(x, Goto(p, ConnectingToDrop(k))), 3);
            && q.proc == Unwind(p, k - 1)
            && Held(q.slice) == Held(x) - {RoleMade, DatabaseMade} && OwnUsers(q.slice, pl.id)
  {
    hide NextLocal, Held, Resume, Unwind, Quietly, OwnUsers;
    var s0 := Local(x, Goto(p, ConnectingToDrop(k)));
    ThreeCalls(pl, s0);
    DropAllIsThreeCalls(pl, p, k);
    OneCall(pl, s0.proc, x);
    var s1 := NextLocal(pl, s0, Succeeds);
    OneCall(pl, s1.proc, s1.slice);
    var s2 := NextLocal(pl, s1, Succeeds);
    NoDatabase(s2.slice);
    OneCall(pl, s2.proc, s2.slice);
    assert Held(x) - {} - {DatabaseMade} - {RoleMade} == Held(x) - {RoleMade, DatabaseMade};
  }

  lemma NoDatabase(x: Slice)
    ensures DatabaseMade !in Held(x) <==> x.database.None?
  {
  }

  /** The calls of the handler of rank k remove exactly what the list says, and the walk goes on. */
  lemma HandlerUndoes(pl: Plan, p: Proc, x: Slice, k: nat) returns (n: nat)
    requires k < |ORDER| && p.identifier != "" && OwnUsers(x, pl.id)
    ensures var q := Quietly(pl, Local(x, Unwind(p, k)), n);
            && q.proc == Unwind(p, k - 1)
            && Held(q.slice) == Held(x) - StageOf(ORDER[k]).undoes && OwnUsers(q.slice, pl.id)
  {
    if ORDER[k] in {CREATE_DB, CREATE_DB_USER} {
      n := 3;
      DropUndoes(pl, p, x, k);
      hide NextLocal, Held, Quietly;
    } else if ORDER[k] in {REGISTER_FINERACT_TENANT, CREATE_ADMIN_USER} {
      n := 1;
      var u := Unwind(p, k);
      OneCall(pl, u, x);
      UnwindIgnoresPc(p, u, k - 1);
      assert Quietly(pl, Local(x, u), 0) == Local(x, u);
      hide NextLocal, Held;
    } else {
      n := 0;
      hide NextLocal, Held;
    }
  }

  lemma WalkEnds(pl: Plan, p: Proc, x: Slice)
    ensures Quietly(pl, Local(x, Unwind(p, -1)), 0) == Local(x, Goto(p, Auditing))
    ensures Undone(Stages(), Held(x), -1) == Held(x)
  {
  }

  lemma UndoneStep(held: set<Resource>, r: nat)
    requires r < |ORDER|
    ensures Undone(Stages(), held, r) == Undone(Stages(), held - StageOf(ORDER[r]).undoes, r - 1)
  {
    assert Stages()[r] == StageOf(ORDER[r]);
  }

  /** The walk back from rank r is the generic one: it leaves what Undone says. */
  lemma {:induction false} WalkUndoes(pl: Plan, p: Proc, x: Slice, r: int) returns (n: nat)
    requires -1 <= r < |ORDER| && p.identifier != "" && OwnUsers(x, pl.id)
    ensures var q := Quietly(pl, Local(x, Unwind(p, r)), n);
            q.proc == Goto(p, Auditing) && Held(q.slice) == Undone(Stages(), Held(x), r)
    decreases r
  {
    hide Held, NextLocal, Quietly, Unwind, Undone, Stages, StageOf, OwnUsers;
    if r < 0 {
      n := 0;
      WalkEnds(pl, p, x);
    } else {
      var m := HandlerUndoes(pl, p, x, r);
      var s := Local(x, Unwind(p, r));
      var y := Quietly(pl, s, m).slice;
      var rest := WalkUndoes(pl, p, y, r - 1);
      UndoneStep(Held(x), r);
      QuietlyAdds(pl, s, m, rest);
      n := m + rest;
    }
  }

  // ---- What a failed run leaves, by the generic argument ----

  lemma {:induction false} ExecIsQuietly(x: Slice, pl: Plan, fates: seq<Fate>, n: nat)
    ensures ExecLocal(x, pl, fates + Clean(n)) == Quietly(pl, ExecLocal(x, pl, fates), n)
  {
    hide NextLocal;
    if n == 0 {
      assert fates + Clean(0) == fates;
    } else {
      ExecIsQuietly(x, pl, fates, n - 1);
      var all := fates + Clean(n);
      assert all[..|all| - 1] == fates + Clean(n - 1) && all[|all| - 1] == Succeeds;
    }
  }

  lemma {:induction false} HaltedForGood(pl: Plan, s: Local, m: nat, n: nat)
    requires m <= n && Halted(Quietly(pl, s, m).proc)
    ensures Quietly(pl, s, n) == Quietly(pl, s, m)
  {
    if m < n {
      HaltedForGood(pl, s, m, n - 1);
      HaltedStays(pl, Quietly(pl, s, n - 1));
      hide NextLocal;
    }
  }

  lemma SaveHolds(pl: Plan, s: Local)
    requires s.proc.pc.SavingJobFailure? || s.proc.pc.SavingTenantFailure? || s.proc.pc.Auditing?
    requires s.slice.job.Some? && s.slice.row.Some?
    ensures var q := NextLocal(pl, s, Succeeds);
            && q.proc == Resume(pl, s.proc, Done) && q.slice.users == s.slice.users
            && Held(q.slice) == Held(s.slice) && q.slice.job.Some? && q.slice.row.Some?
  {
    CallKinds(pl, s.proc);
    OnlyTheyTouch(pl, s.slice, EffectOf(pl, s.proc));
    SaveIsDone(pl, s);
    hide PerformLocal, EffectOf, Resume;
  }

  lemma SaveIsDone(pl: Plan, s: Local)
    requires s.proc.pc.SavingJobFailure? || s.proc.pc.SavingTenantFailure? || s.proc.pc.Auditing?
    requires s.slice.job.Some? && s.slice.row.Some?
    ensures var o := PerformLocal(pl, s.slice, EffectOf(pl, s.proc)); o.result.Done? && o.slice.job.Some?
  {
    hide WithoutTenant, HasPrimary, Plan.Role, Plan.DbName, Plan.Host;
  }

  lemma EntersWalk(pl: Plan, p: Proc)
    requires p.pc.SavingJobFailure?
    ensures Resume(pl, p, Done) == Goto(p, SavingTenantFailure)
    ensures Resume(pl, Goto(p, SavingTenantFailure), Done) == Unwind(p, Rank(p.step))
    ensures Resume(pl, Goto(p, Auditing), Done) == Goto(p, Escaped)
  {
    UnwindIgnoresPc(p, Goto(p, SavingTenantFailure), Rank(p.step));
    hide Unwind;
  }

  lemma AuditHolds(pl: Plan, s: Local)
    requires s.proc.pc.Auditing?
    ensures var q := NextLocal(pl, s, Succeeds); q.proc == Goto(s.proc, Escaped) && Held(q.slice) == Held(s.slice)
  {
    hide Held;
    assert Held(s.slice.(audit := s.slice.audit + [s.proc.step])) == Held(s.slice) by {
      SameHeld(s.slice, s.slice.audit + [s.proc.step]);
    }
  }

  lemma SameHeld(x: Slice, audit: seq<Step>)
    ensures Held(x.(audit := audit)) == Held(x)
  {
  }

  /** From the except clause on, calls that succeed lead to the end of the walk. */
  lemma FailurePathUndoes(pl: Plan, s: Local) returns (n: nat)
    requires s.proc.pc.SavingJobFailure? && s.slice.job.Some? && s.slice.row.Some?
    requires s.proc.identifier != "" && OwnUsers(s.slice, pl.id)
    ensures var q := Quietly(pl, s, n);
            q.proc.pc.Escaped? && Held(q.slice) == Undone(Stages(), Held(s.slice), Rank(s.proc.step))
  {
    hide NextLocal, Held, Stages, Unwind, Undone, Quietly, Resume;
    EntersWalk(pl, s.proc);
    ThreeCalls(pl, s);
    SaveHolds(pl, s);
    var s1 := NextLocal(pl, s, Succeeds);
    SaveHolds(pl, s1);
    var s2 := NextLocal(pl, s1, Succeeds);
    var m := WalkUndoes(pl, s.proc, s2.slice, Rank(s.proc.step));
    QuietlyAdds(pl, s, 2, m);
    var w := Quietly(pl, s, 2 + m);
    AuditHolds(pl, w);
    QuietlyAdds(pl, s, 2 + m, 1);
    ThreeCalls(pl, w);
    n := 2 + m + 1;
  }

  // ---- Whole runs ----

  lemma FailureComesFromScript(pl: Plan, p: Proc, r: Result)
    requires !Halted(p) && Resume(pl, p, r).pc.SavingJobFailure?
    ensures Forward(p) && Pos(p) >= 2
  {
    if Recovering(p) {
      RecoveryMovesOn(pl, p, r);
    }
    hide Unwind;
  }

  lemma RecoveryMovesOn(pl: Plan, p: Proc, r: Result)
    requires Recovering(p)
    ensures !Resume(pl, p, r).pc.SavingJobFailure?
  {
    if p.pc.SavingTenantFailure? && !r.Raised? {
      UnwindIsNoFailure(p, Rank(p.step));
    } else if p.pc.DeletingUsers? && !r.Raised? {
      UnwindIsNoFailure(p, 6);
    } else if p.pc.DeletingFineract? {
      UnwindIsNoFailure(p, 4);
    } else if p.pc.DroppingDatabase? || p.pc.DroppingRole? {
      UnwindIsNoFailure(p, if p.pc.pass < |ORDER| then p.pc.pass - 1 else -1);
    }
    hide Unwind;
  }

  lemma UnwindIsNoFailure(p: Proc, last: int)
    requires last < |ORDER|
    ensures !Unwind(p, last).pc.SavingJobFailure?
    decreases last
  {
    if 0 <= last {
      UnwindIsNoFailure(p, last - 1);
    }
  }

  /** A run that has just entered the except clause holds no more than its step and those before it
      create, and its users are its own. */
  lemma FailedHolds(x0: Slice, pl: Plan, fates: seq<Fate>)
    requires Fresh(x0, pl) && ExecLocal(x0, pl, fates).proc.pc.SavingJobFailure?
    ensures var s := ExecLocal(x0, pl, fates);
            && s.slice.job.Some? && s.slice.row.Some? && s.proc.identifier != "" && OwnUsers(s.slice, pl.id)
            && s.proc.step !in {VALIDATE, SAVE_REGISTRY}
            && var k := PlaceIn(s.proc.step);
               && Within(Stages(), SCRIPT[..k])
               && Held(s.slice) <= Created(Stages(), SCRIPT[..k]) + StageOf(s.proc.step).creates
  {
    hide ExecLocal, NextLocal, Fresh, Inv, Built, Created, Within, Stages, StageOf, Held, OwnUsers, PlaceIn;
    LastWasForward(x0, pl, fates);
    var n := |fates| - 1;
    var s, q := ExecLocal(x0, pl, fates[..n]), ExecLocal(x0, pl, fates);
    var m := FailingCall(x0, pl, s, fates[n]);
    StepsInScript(Pos(s.proc));
    HeldIsCreated(x0, pl, q.slice, Pos(s.proc), m);
    BuiltIsOwn(x0, pl, q.slice, m);
  }

  lemma LastWasForward(x0: Slice, pl: Plan, fates: seq<Fate>)
    requires Fresh(x0, pl) && ExecLocal(x0, pl, fates).proc.pc.SavingJobFailure?
    ensures fates != []
    ensures var s := ExecLocal(x0, pl, fates[..|fates| - 1]);
            && ExecLocal(x0, pl, fates) == NextLocal(pl, s, fates[|fates| - 1])
            && Forward(s.proc) && !Halted(s.proc) && Inv(x0, pl, s)
  {
    var n := |fates| - 1;
    var s := ExecLocal(x0, pl, fates[..n]);
    FailureComesFromScript(pl, s.proc, ApplyLocal(pl, s.slice, EffectOf(pl, s.proc), fates[n]).result);
    ForwardInv(x0, pl, fates[..n]);
    hide PerformLocal, EffectOf, Resume, Inv;
  }

  lemma FailingCall(x0: Slice, pl: Plan, s: Local, f: Fate) returns (m: nat)
    requires Fresh(x0, pl) && Inv(x0, pl, s) && Forward(s.proc) && !Halted(s.proc)
    requires NextLocal(pl, s, f).proc.pc.SavingJobFailure?
    ensures var q, n := NextLocal(pl, s, f), Pos(s.proc);
            && 2 <= n <= m <= n + 1 && n <= 29 && x0.row.Some? && Built(x0, pl, q.slice, m)
            && q.proc.step == StepAt(n) && q.proc.identifier == pl.code
  {
    hide ApplyLocal, EffectOf, Resume, Fresh, Inv, Built, AtPlace, StepAt, Unwind;
    FreshHasRow(x0, pl);
    InvAtPlace(x0, pl, s);
    CallBuildsOrNot(x0, pl, s, f);
    var o := ApplyLocal(pl, s.slice, EffectOf(pl, s.proc), f);
    ResumesInPlace(pl, s.proc, o.result);
    m := if Built(x0, pl, o.slice, Pos(s.proc) + 1) then Pos(s.proc) + 1 else Pos(s.proc);
    AtItsStep(pl, s.proc);
  }

  lemma AtItsStep(pl: Plan, p: Proc)
    requires AtPlace(pl, p)
    ensures p.step == StepAt(Pos(p)) && p.identifier == pl.code && Pos(p) <= 29
  {
  }

  lemma BuiltIsOwn(x0: Slice, pl: Plan, x: Slice, m: nat)
    requires Fresh(x0, pl) && Built(x0, pl, x, m)
    ensures x.job.Some? && x.row.Some? && OwnUsers(x, pl.id) && pl.code != ""
  {
  }

  lemma StepsInScript(n: nat)
    requires 2 <= n <= 29
    ensures StepAt(n) !in {VALIDATE, SAVE_REGISTRY}
  {
  }

  /** A walk that starts with more ends with more. */
  lemma UndoneGrows(held: set<Resource>, more: set<Resource>, r: nat)
    requires held <= more && r < |ORDER|
    ensures Undone(Stages(), held, r) <= Undone(Stages(), more, r)
  {
    forall res | res in Undone(Stages(), held, r) ensures res in Undone(Stages(), more, r) {
      UndoneIs(Stages(), held, r, res);
      UndoneIs(Stages(), more, r, res);
    }
  }

  lemma WalkIsLeftover(held: set<Resource>, k: nat)
    requires k < |SCRIPT| && Within(Stages(), SCRIPT[..k])
    requires held <= Created(Stages(), SCRIPT[..k]) + Stages()[SCRIPT[k]].creates
    ensures Undone(Stages(), held, SCRIPT[k]) <= {DomainMade}
  {
    hide Created, Undone;
    var script, part := SCRIPT[..k + 1], Stages()[SCRIPT[k]].creates;
    assert script[..k] == SCRIPT[..k] && script[k] == SCRIPT[k];
    assert Within(Stages(), script) && Increasing(script);
    hide Stages;
    UndoneGrows(held, Created(Stages(), SCRIPT[..k]) + part, SCRIPT[k]);
    LeavesAtMostDomain(script, part);
  }

  /** Compensation by the generic argument: a run that enters the except clause after any faults, and
      whose calls succeed from there on, ends holding what the step list leaves of what it held, and that
      is at most the domain. */
  lemma {:induction false} FailedRunLeavesAtMostDomain(x0: Slice, pl: Plan, fates: seq<Fate>, n: nat)
    requires Fresh(x0, pl) && ExecLocal(x0, pl, fates).proc.pc.SavingJobFailure? && n >= 59
    ensures var s, t := ExecLocal(x0, pl, fates), ExecLocal(x0, pl, fates + Clean(n));
            && t.proc.pc.Escaped?
            && Held(t.slice) == Undone(Stages(), Held(s.slice), Rank(s.proc.step)) <= {DomainMade}
  {
    hide NextLocal, ExecLocal, Fresh, Quietly, Held, Undone, Stages, Created, Within, StageOf;
    var s := ExecLocal(x0, pl, fates);
    FailedHolds(x0, pl, fates);
    var m := FailurePathUndoes(pl, s);
    ExecIsQuietly(x0, pl, fates, n);
    RunHalts(x0, pl, fates + Clean(n));
    if m <= n {
      HaltedForGood(pl, s, m, n);
    } else {
      HaltedForGood(pl, s, n, m);
    }
    var k := PlaceIn(s.proc.step);
    StageAt(k);
    WalkIsLeftover(Held(s.slice), k);
  }

  lemma StageAt(k: nat)
    requires k < |SCRIPT|
    ensures Stages()[SCRIPT[k]] == StageOf(ORDER[SCRIPT[k]]) && Rank(ORDER[SCRIPT[k]]) == SCRIPT[k]
  {
  }
}
