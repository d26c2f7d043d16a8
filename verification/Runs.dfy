/**
 Whole runs of ProvisioningService.run, over every sequence of faults: they stop, a run that raises has
 been compensated, and a run that returns has built everything.
 */
module Runs {
  import opened Options
  import opened Tenants
  import opened Effects
  import opened Saga
  import opened Slices
  import opened Compensation

  /** The state of the run after its first i calls. */
  ghost function StateAt(x: Slice, pl: Plan, fates: seq<Fate>, i: nat): Local
    requires i <= |fates|
  {
    ExecLocal(x, pl, fates[..i])
  }

  /** The failure path works: its calls succeed, but for SQL errors in the first of two drop passes. */
  ghost predicate QuietRecovery(x: Slice, pl: Plan, fates: seq<Fate>) {
    forall i :: 0 <= i < |fates| ==>
      Recovering(StateAt(x, pl, fates, i).proc) && !SecondChance(StateAt(x, pl, fates, i).proc) ==> fates[i].Succeeds?
  }

  /** The calls whose effects outlive a run in ways that matter later. */
  datatype Milestone = PrimaryDomain | Activation | FineractUser | Made(res: Resource) | Dropped(res: Resource)

  /** The call made in s under f takes effect, whether or not it then raises, and reaches m. */
  ghost predicate Reaches(s: Local, f: Fate, m: Milestone) {
    && (f.Succeeds? || f.tookEffect)
    && match m
       case PrimaryDomain => s.proc.pc.CreatingDomain?
       case Activation => s.proc.pc.SavingReady?
       case FineractUser => s.proc.pc.RegisteringUser? && s.slice.fineract.Some?
       case Made(res) => Makes(s.proc.pc, res)
       case Dropped(res) => Drops(s.proc.pc, res)
  }

  /** The call that makes a resource, and the one that removes it. */
  predicate Makes(pc: Pc, res: Resource) {
    match res
    case RoleMade => pc.CreatingRole?
    case DatabaseMade => pc.CreatingDatabase?
    case FineractMade => pc.RegisteringTenant?
    case UsersMade => pc.CreatingUser?
    case DomainMade => pc.CreatingDomain?
  }

  predicate Drops(pc: Pc, res: Resource) {
    match res
    case RoleMade => pc.DroppingRole?
    case DatabaseMade => pc.DroppingDatabase?
    case FineractMade => pc.DeletingFineract?
    case UsersMade => pc.DeletingUsers?
    case DomainMade => false
  }

  ghost predicate Reached(x: Slice, pl: Plan, fates: seq<Fate>, m: Milestone) {
    exists i :: 0 <= i < |fates| && Reaches(StateAt(x, pl, fates, i), fates[i], m)
  }

  /** The insert of the primary domain took effect. */
  ghost predicate DomainWritten(x: Slice, pl: Plan, fates: seq<Fate>) {
    Reached(x, pl, fates, PrimaryDomain)
  }

  /** The save that sets READY and is_active took effect. */
  ghost predicate ActivationWritten(x: Slice, pl: Plan, fates: seq<Fate>) {
    Reached(x, pl, fates, Activation)
  }

  /** The admin user was added to a tenant that Fineract has. */
  ghost predicate FineractUserWritten(x: Slice, pl: Plan, fates: seq<Fate>) {
    Reached(x, pl, fates, FineractUser)
  }

  lemma PrefixStates(x: Slice, pl: Plan, fates: seq<Fate>)
    requires fates != []
    ensures var n := |fates| - 1;
            && StateAt(x, pl, fates, n) == ExecLocal(x, pl, fates[..n])
            && (forall i :: 0 <= i <= n ==> StateAt(x, pl, fates, i) == StateAt(x, pl, fates[..n], i))
  {
    hide NextLocal;
    var n := |fates| - 1;
    forall i | 0 <= i <= n
      ensures StateAt(x, pl, fates, i) == StateAt(x, pl, fates[..n], i)
    {
      assert fates[..n][..i] == fates[..i];
    }
  }

  lemma QuietPrefix(x: Slice, pl: Plan, fates: seq<Fate>)
    requires fates != [] && QuietRecovery(x, pl, fates)
    ensures var n := |fates| - 1;
            var p := ExecLocal(x, pl, fates[..n]).proc;
            QuietRecovery(x, pl, fates[..n]) && (Recovering(p) && !SecondChance(p) ==> fates[n].Succeeds?)
  {
    PrefixStates(x, pl, fates);
    hide NextLocal, ExecLocal, StateAt, Recovering, SecondChance;
  }

  lemma ReachedPrefix(x: Slice, pl: Plan, fates: seq<Fate>, m: Milestone)
    requires fates != []
    ensures var n := |fates| - 1;
            Reached(x, pl, fates, m) <==>
              Reached(x, pl, fates[..n], m) || Reaches(ExecLocal(x, pl, fates[..n]), fates[n], m)
  {
    hide NextLocal, ExecLocal, StateAt, Reaches;
    PrefixStates(x, pl, fates);
    var n := |fates| - 1;
    assert forall i :: 0 <= i < n ==> fates[..n][i] == fates[i];
    if Reached(x, pl, fates[..n], m) {
      var i :| 0 <= i < n && Reaches(StateAt(x, pl, fates[..n], i), fates[..n][i], m);
      assert Reaches(StateAt(x, pl, fates, i), fates[i], m);
    }
    if Reached(x, pl, fates, m) {
      var i :| 0 <= i <= n && Reaches(StateAt(x, pl, fates, i), fates[i], m);
      assert i < n ==> Reaches(StateAt(x, pl, fates[..n], i), fates[..n][i], m);
    }
  }

  // ---- Every run stops ----

  /** A bound on the number of calls still to come. */
  function Fuel(p: Proc): nat {
    match p.pc
    case SavingJobFailure => 28
    case SavingTenantFailure => 27
    case DeletingUsers => 25
    case DeletingFineract => 19
    case ConnectingToDrop(k) => 3 * k + 4
    case DroppingDatabase(k) => 3 * k + 3
    case DroppingRole(k) => 3 * k + 2
    case Auditing => 1
    case Returned => 0
    case Escaped => 0
    case _ => 59 - Pos(p)
  }

  lemma UnwindFuel(p: Proc, last: int)
    requires last < |ORDER|
    ensures Fuel(Unwind(p, last)) <= (if last >= 7 then 25 else if last < 0 then 1 else 3 * last + 4)
    decreases last
  {
    if 0 <= last {
      UnwindFuel(p, last - 1);
    }
  }

  lemma FuelBurnsForward(pl: Plan, p: Proc, r: Result)
    requires !Halted(p) && !Recovering(p)
    ensures Fuel(Resume(pl, p, r)) < Fuel(p)
  {
    hide Unwind, NextPass;
  }

  lemma FuelBurns(pl: Plan, p: Proc, r: Result)
    requires !Halted(p)
    ensures Fuel(Resume(pl, p, r)) < Fuel(p)
  {
    hide Action, Enter, Guarded;
    match p.pc {
      case SavingJobFailure =>
      case SavingTenantFailure => UnwindFuel(p, Rank(p.step));
      case DeletingUsers => UnwindFuel(p, 6);
      case DeletingFineract => UnwindFuel(p, 4);
      case ConnectingToDrop(_) =>
      case DroppingDatabase(k) => UnwindFuel(p, if k < |ORDER| then k - 1 else -1);
      case DroppingRole(k) => UnwindFuel(p, if k < |ORDER| then k - 1 else -1);
      case Auditing =>
      case _ => FuelBurnsForward(pl, p, r);
    }
  }

  lemma {:induction false} FuelLeft(x: Slice, pl: Plan, fates: seq<Fate>)
    ensures Halted(ExecLocal(x, pl, fates).proc) || Fuel(ExecLocal(x, pl, fates).proc) + |fates| <= 59
  {
    if fates != [] {
      var n := |fates| - 1;
      FuelLeft(x, pl, fates[..n]);
      var s := ExecLocal(x, pl, fates[..n]);
      if !Halted(s.proc) {
        FuelBurns(pl, s.proc, ApplyLocal(pl, s.slice, EffectOf(pl, s.proc), fates[n]).result);
      }
    }
  }

  /** From any slice and under any faults, a run makes at most 59 calls. */
  lemma {:induction false} RunHalts(x: Slice, pl: Plan, fates: seq<Fate>)
    requires |fates| >= 59
    ensures Halted(ExecLocal(x, pl, fates).proc)
  {
    hide ExecLocal;
    FuelLeft(x, pl, fates);
  }

  // ---- A run that starts fresh ----

  lemma NeverForwardAgain(pl: Plan, p: Proc, r: Result)
    requires Recovering(p)
    ensures !Forward(Resume(pl, p, r)) && Resume(pl, p, r).step == p.step
  {
    hide Unwind, Action, Guarded, Enter;
    match p.pc {
      case SavingTenantFailure => UnwindBackward(p, Rank(p.step));
      case DeletingUsers => UnwindBackward(p, 6);
      case DeletingFineract => UnwindBackward(p, 4);
      case DroppingDatabase(k) => UnwindBackward(p, if k < |ORDER| then k - 1 else -1);
      case DroppingRole(k) => UnwindBackward(p, if k < |ORDER| then k - 1 else -1);
      case _ =>
    }
  }

  lemma UnwindBackward(p: Proc, last: int)
    requires last < |ORDER|
    ensures !Forward(Unwind(p, last)) && Unwind(p, last).step == p.step
    decreases last
  {
    if 0 <= last {
      UnwindBackward(p, last - 1);
    }
  }

  lemma StartsBuilt(x0: Slice, pl: Plan)
    requires Fresh(x0, pl)
    ensures Inv(x0, pl, Local(x0, Start(pl)))
  {
  }

  /** The script is kept to under all faults; a failure path that went wrong is never left. */
  lemma {:induction false} ForwardInv(x0: Slice, pl: Plan, fates: seq<Fate>)
    requires Fresh(x0, pl)
    ensures Forward(ExecLocal(x0, pl, fates).proc) ==> Inv(x0, pl, ExecLocal(x0, pl, fates))
  {
    if fates == [] {
      StartsBuilt(x0, pl);
    } else {
      var n := |fates| - 1;
      ForwardInv(x0, pl, fates[..n]);
      var s := ExecLocal(x0, pl, fates[..n]);
      if Forward(s.proc) {
        if !Halted(s.proc) {
          ForwardKeepsInv(x0, pl, s, fates[n]);
        }
      } else if Recovering(s.proc) {
        NeverForwardAgain(pl, s.proc, ApplyLocal(pl, s.slice, EffectOf(pl, s.proc), fates[n]).result);
      }
    }
  }

  /** Inv holds after every call of every run whose failure path works. */
  lemma {:induction false} RunKeepsInv(x0: Slice, pl: Plan, fates: seq<Fate>)
    requires Fresh(x0, pl) && QuietRecovery(x0, pl, fates)
    ensures Inv(x0, pl, ExecLocal(x0, pl, fates))
  {
    if fates == [] {
      StartsBuilt(x0, pl);
    } else {
      var n := |fates| - 1;
      QuietPrefix(x0, pl, fates);
      RunKeepsInv(x0, pl, fates[..n]);
      var s, f := ExecLocal(x0, pl, fates[..n]), fates[n];
      if !Halted(s.proc) {
        if Forward(s.proc) {
          ForwardKeepsInv(x0, pl, s, f);
        } else if f.Succeeds? {
          BackwardKeepsInv(x0, pl, s);
        } else {
          SpoiledPassKeepsInv(x0, pl, s, f);
        }
      }
    }
  }

  lemma OnlyInsertMakesDomains(pl: Plan, x: Slice, p: Proc, f: Fate)
    requires !Halted(p)
    ensures !p.pc.CreatingDomain? ==> ApplyLocal(pl, x, EffectOf(pl, p), f).slice.domains == x.domains
    ensures p.pc.CreatingDomain? && x.domains == map[] ==>
              ApplyLocal(pl, x, EffectOf(pl, p), f).slice.domains ==
                (if f.Succeeds? || f.tookEffect then Primary(pl) else map[])
  {
    if p.pc.CreatingDomain? {
      if x.domains == map[] {
        InsertMakesPrimary(pl, x);
      }
      assert EffectOf(pl, p) == CreateDomain(pl.Host(), pl.id);
    } else {
      CallKinds(pl, p);
      OnlyTheyTouch(pl, x, EffectOf(pl, p));
    }
    hide PerformLocal, EffectOf;
  }

  lemma InsertMakesPrimary(pl: Plan, x: Slice)
    requires x.domains == map[]
    ensures PerformLocal(pl, x, CreateDomain(pl.Host(), pl.id)).slice.domains == Primary(pl)
  {
    hide Plan.Host;
  }

  lemma NothingBeforeInsert(x0: Slice, pl: Plan, s: Local)
    requires Fresh(x0, pl) && Inv(x0, pl, s) && s.proc.pc.CreatingDomain?
    ensures s.slice.domains == map[]
  {
  }

  /** From a fresh start a domain row exists exactly when its insert took effect. */
  lemma {:induction false} DomainsFollowInsert(x0: Slice, pl: Plan, fates: seq<Fate>)
    requires Fresh(x0, pl)
    ensures ExecLocal(x0, pl, fates).slice.domains == (if DomainWritten(x0, pl, fates) then Primary(pl) else map[])
  {
    if fates == [] {
    } else {
      hide PerformLocal, EffectOf, Resume, Inv, Fresh, Reached;
      var n := |fates| - 1;
      DomainsFollowInsert(x0, pl, fates[..n]);
      ReachedPrefix(x0, pl, fates, PrimaryDomain);
      var s := ExecLocal(x0, pl, fates[..n]);
      if s.proc.pc.CreatingDomain? {
        ForwardInv(x0, pl, fates[..n]);
        NothingBeforeInsert(x0, pl, s);
        assert pl.Host() !in s.slice.domains && pl.Host() in Primary(pl);
      }
      if !Halted(s.proc) {
        OnlyInsertMakesDomains(pl, s.slice, s.proc, fates[n]);
      }
    }
  }

  lemma OnlyActivationActivates(pl: Plan, x: Slice, p: Proc, f: Fate)
    requires !Halted(p) && x.row.Some?
    ensures var y := ApplyLocal(pl, x, EffectOf(pl, p), f).slice;
            && y.row.Some?
            && y.row.value.isActive == (x.row.value.isActive || Reaches(Local(x, p), f, Activation))
  {
    CallKinds(pl, p);
    OnlyTheyTouch(pl, x, EffectOf(pl, p));
    if p.pc.SavingReady? {
      assert EffectOf(pl, p) == SaveActivation(pl.id);
      assert PerformLocal(pl, x, SaveActivation(pl.id)).slice.row.value.isActive;
    }
    hide PerformLocal, EffectOf;
  }

  /** From any start a tenant is active exactly when it was before, or its activation took effect; no
      call of any run clears the flag. */
  lemma {:induction false} ActiveFollowsActivation(x0: Slice, pl: Plan, fates: seq<Fate>)
    requires x0.row.Some?
    ensures var row := ExecLocal(x0, pl, fates).slice.row;
            row.Some? && row.value.isActive == (x0.row.value.isActive || ActivationWritten(x0, pl, fates))
  {
    hide PerformLocal, EffectOf, Resume, Reached, Reaches;
    if fates == [] {
      NothingReached(x0, pl, Activation);
    } else {
      var n := |fates| - 1;
      ActiveFollowsActivation(x0, pl, fates[..n]);
      ReachedPrefix(x0, pl, fates, Activation);
      var s := ExecLocal(x0, pl, fates[..n]);
      if Halted(s.proc) {
        HaltedReachesNothing(s, fates[n], Activation);
      } else {
        OnlyActivationActivates(pl, s.slice, s.proc, fates[n]);
      }
    }
  }

  lemma NothingReached(x: Slice, pl: Plan, m: Milestone)
    ensures !Reached(x, pl, [], m)
  {
  }

  lemma HaltedReachesNothing(s: Local, f: Fate, m: Milestone)
    requires Halted(s.proc)
    ensures !Reaches(s, f, m)
  {
  }

  /** The outcome of a run that raises: everything with a handler is gone, the domain is there if it
      was inserted, and the tenant is active if it was before or the activation took effect. */
  predicate Compensated(
    x0: Slice, pl: Plan, x: Slice, step: Step, message: string, inserted: bool, activated: bool)
    requires x0.row.Some?
  {
    && Bare(x) && x.domains == (if inserted then Primary(pl) else map[])
    && x.row.Some?
    && (step != VALIDATE ==> x.job == Some(JobRow(step, Some(false), message)))
    && x.row.value.code == x0.row.value.code && x.row.value.identifier == pl.code
    && x.row.value.isActive == (x0.row.value.isActive || activated)
    && (if inserted then step in {ACTIVATE, DONE} else x.row.value.isActive == x0.row.value.isActive)
    && (if step == VALIDATE
        then x.row.value.dbName in {pl.storedDbName, pl.DbName()}
             && x.row.value.status in {x0.row.value.status, PROVISIONING} && x.audit == x0.audit
        else x.row.value.dbName == pl.DbName() && x.row.value.status == FAILED && x.audit == x0.audit + [step])
  }

  lemma EscapedIsCompensated(x0: Slice, pl: Plan, s: Local, inserted: bool, activated: bool)
    requires Fresh(x0, pl) && Inv(x0, pl, s) && s.proc.pc.Escaped?
    requires s.slice.domains == (if inserted then Primary(pl) else map[])
    requires s.slice.row.Some? && s.slice.row.value.isActive == (x0.row.value.isActive || activated)
    ensures Compensated(x0, pl, s.slice, s.proc.step, s.proc.failure, inserted, activated)
  {
    assert pl.Host() in Primary(pl);
  }

  // ---- What the failure is said to be ----

  /** The message of the exception a call raises, if it raises one. */
  function Message(f: Fate): string {
    match f
    case Fails(_, message) => message
    case Succeeds => REFUSED
  }

  /** Call i of the run is the one whose exception stops the script. */
  ghost predicate StopsAt(x: Slice, pl: Plan, fates: seq<Fate>, i: nat)
    requires i < |fates|
  {
    Forward(StateAt(x, pl, fates, i).proc) && !Forward(StateAt(x, pl, fates, i + 1).proc)
  }

  /** step is the step in which the run was stopped, and message that of the exception that stopped it. */
  ghost predicate StoppedBy(x: Slice, pl: Plan, fates: seq<Fate>, step: Step, message: string) {
    exists i :: 0 <= i < |fates| && StopsAt(x, pl, fates, i)
                && step == StateAt(x, pl, fates, i).proc.step && message == Message(fates[i])
  }

  lemma RaisedMessage(pl: Plan, x: Slice, e: Effect, f: Fate)
    ensures var r := ApplyLocal(pl, x, e, f).result; r.Raised? ==> r.message == Message(f)
  {
    hide WithoutTenant, HasPrimary;
  }

  lemma StopKeepsStep(pl: Plan, p: Proc, r: Result)
    requires Forward(p) && !Halted(p) && !Forward(Resume(pl, p, r))
    ensures r.Raised? && Resume(pl, p, r).step == p.step && Resume(pl, p, r).failure == r.message
  {
    hide Unwind;
  }

  lemma UnwindKeepsFailure(p: Proc, last: int)
    requires last < |ORDER|
    ensures Unwind(p, last).failure == p.failure && Unwind(p, last).step == p.step
    decreases last
  {
    if 0 <= last {
      UnwindKeepsFailure(p, last - 1);
    }
  }

  lemma RecoveryKeepsFailure(pl: Plan, p: Proc, r: Result)
    requires Recovering(p)
    ensures Resume(pl, p, r).failure == p.failure && Resume(pl, p, r).step == p.step
  {
    hide Unwind, Action, Guarded, Enter;
    match p.pc {
      case SavingTenantFailure => UnwindKeepsFailure(p, Rank(p.step));
      case DeletingUsers => UnwindKeepsFailure(p, 6);
      case DeletingFineract => UnwindKeepsFailure(p, 4);
      case DroppingDatabase(k) => UnwindKeepsFailure(p, if k < |ORDER| then k - 1 else -1);
      case DroppingRole(k) => UnwindKeepsFailure(p, if k < |ORDER| then k - 1 else -1);
      case _ =>
    }
  }

  lemma StoppedByExtends(x: Slice, pl: Plan, fates: seq<Fate>, step: Step, message: string)
    requires fates != [] && StoppedBy(x, pl, fates[..|fates| - 1], step, message)
    ensures StoppedBy(x, pl, fates, step, message)
  {
    hide ExecLocal, Forward;
    var n := |fates| - 1;
    var i :| 0 <= i < n && StopsAt(x, pl, fates[..n], i)
             && step == StateAt(x, pl, fates[..n], i).proc.step && message == Message(fates[..n][i]);
    assert fates[..n][..i] == fates[..i] && fates[..n][..i + 1] == fates[..i + 1];
    assert StopsAt(x, pl, fates, i);
  }

  /** From any start and under any faults, the exception a run is failing with is the one that stopped
      its script, and the step it names the one that was stopped. */
  lemma {:induction false} FailureIsTheCause(x: Slice, pl: Plan, fates: seq<Fate>)
    requires !Forward(ExecLocal(x, pl, fates).proc)
    ensures StoppedBy(x, pl, fates, ExecLocal(x, pl, fates).proc.step, ExecLocal(x, pl, fates).proc.failure)
  {
    hide PerformLocal, EffectOf, Resume, StoppedBy;
    var n := |fates| - 1;
    var s, f := ExecLocal(x, pl, fates[..n]), fates[n];
    var r := if Halted(s.proc) then Done else ApplyLocal(pl, s.slice, EffectOf(pl, s.proc), f).result;
    if Forward(s.proc) {
      StopKeepsStep(pl, s.proc, r);
      RaisedMessage(pl, s.slice, EffectOf(pl, s.proc), f);
      StopsLast(x, pl, fates);
    } else {
      FailureIsTheCause(x, pl, fates[..n]);
      StoppedByExtends(x, pl, fates, s.proc.step, s.proc.failure);
      if Recovering(s.proc) {
        RecoveryKeepsFailure(pl, s.proc, r);
      }
    }
  }

  lemma StopsLast(x: Slice, pl: Plan, fates: seq<Fate>)
    requires fates != [] && Forward(ExecLocal(x, pl, fates[..|fates| - 1]).proc)
    requires !Forward(ExecLocal(x, pl, fates).proc)
    ensures var n := |fates| - 1;
            StoppedBy(x, pl, fates, ExecLocal(x, pl, fates[..n]).proc.step, Message(fates[n]))
  {
    hide ExecLocal, Forward;
    var n := |fates| - 1;
    assert fates[..n + 1] == fates;
    assert StopsAt(x, pl, fates, n);
  }

  /** Compensation.  If the failure path works, a run that raises leaves neither role, database,
      Fineract tenant nor user, and, if it raised from the try block, status FAILED, one audit entry and
      a job that failed in the step that was stopped, with the message of the exception that stopped it;
      the domain row survives exactly when its insert had taken effect, and is_active is set exactly
      when it was before the run or the save of the activation had taken effect. */
  lemma {:induction false} RaisedRunIsCompensated(x0: Slice, pl: Plan, fates: seq<Fate>)
    requires Fresh(x0, pl) && QuietRecovery(x0, pl, fates)
    requires ExecLocal(x0, pl, fates).proc.pc.Escaped?
    ensures var p := ExecLocal(x0, pl, fates).proc;
            && Compensated(x0, pl, ExecLocal(x0, pl, fates).slice, p.step, p.failure,
                           DomainWritten(x0, pl, fates), ActivationWritten(x0, pl, fates))
            && StoppedBy(x0, pl, fates, p.step, p.failure)
  {
    assert x0.row.Some?;
    hide NextLocal, Fresh, Inv, DomainWritten, ActivationWritten, Compensated, QuietRecovery, StoppedBy;
    var inserted, activated := DomainWritten(x0, pl, fates), ActivationWritten(x0, pl, fates);
    RunKeepsInv(x0, pl, fates);
    DomainsFollowInsert(x0, pl, fates);
    ActiveFollowsActivation(x0, pl, fates);
    FailureIsTheCause(x0, pl, fates);
    EscapedIsCompensated(x0, pl, ExecLocal(x0, pl, fates), inserted, activated);
  }

  // ---- Failure paths that do not work ----

  /** The calls of the failure path whose exceptions do not end it. */
  predicate Shrugged(pc: Pc) {
    pc.DeletingFineract? || pc.DroppingDatabase? || pc.DroppingRole?
  }

  /** A call of the failure path that raises ends the run there, unless it is one of those three. */
  lemma RecoveryStopsIff(pl: Plan, p: Proc, message: string)
    requires Recovering(p)
    ensures Resume(pl, p, Raised(message)).pc.Escaped? <==> !Shrugged(p.pc)
    ensures Resume(pl, p, Done).pc.Escaped? <==> p.pc.Auditing?
  {
    hide Unwind, Action, Guarded, Enter;
    UnwindGoesOn(p, Rank(p.step));
    UnwindGoesOn(p, 6);
    UnwindGoesOn(p, 4);
    if p.pc.DroppingDatabase? || p.pc.DroppingRole? {
      UnwindGoesOn(p, if p.pc.pass < |ORDER| then p.pc.pass - 1 else -1);
    }
  }

  lemma UnwindGoesOn(p: Proc, last: int)
    requires last < |ORDER|
    ensures var q := Unwind(p, last).pc;
            !q.Escaped? && !q.SavingJobFailure? && !q.SavingTenantFailure? && !q.Returned?
    decreases last
  {
    if 0 <= last {
      UnwindGoesOn(p, last - 1);
    }
  }

  /** Only the shrugged calls of the failure path fail. */
  ghost predicate ShruggedRecovery(x: Slice, pl: Plan, fates: seq<Fate>) {
    forall i :: 0 <= i < |fates| ==>
      Recovering(StateAt(x, pl, fates, i).proc) && !Shrugged(StateAt(x, pl, fates, i).proc.pc) ==> fates[i].Succeeds?
  }

  /** What the failure path writes about the failure, as far as it has come. */
  predicate Telling(x0: Slice, s: Local) {
    var x, p := s.slice, s.proc;
    && x.row.Some? && x.job.Some?
    && (p.pc.SavingJobFailure? || x.job == Some(JobRow(p.step, Some(false), p.failure)))
    && (p.pc.SavingJobFailure? || p.pc.SavingTenantFailure? || x.row.value.status == FAILED)
    && x.audit == (if p.pc.Escaped? then x0.audit + [p.step] else x0.audit)
  }

  lemma TellingCall(x0: Slice, pl: Plan, s: Local, f: Fate)
    requires Recovering(s.proc) && Telling(x0, s) && (f.Succeeds? || Shrugged(s.proc.pc))
    ensures var o, p := ApplyLocal(pl, s.slice, EffectOf(pl, s.proc), f), s.proc;
            && (o.result.Raised? ==> Shrugged(p.pc)) && !o.result.Absent?
            && o.slice.row.Some? && o.slice.job == Some(JobRow(p.step, Some(false), p.failure))
            && (p.pc.SavingJobFailure? || o.slice.row.value.status == FAILED)
            && o.slice.audit == (if p.pc.Auditing? then x0.audit + [p.step] else x0.audit)
  {
    hide WithoutTenant, HasPrimary, Plan.Role, Plan.DbName, Plan.Host, Unwind;
  }

  lemma TellingMoves(pl: Plan, p: Proc, r: Result)
    requires Recovering(p) && (r.Raised? ==> Shrugged(p.pc)) && !r.Absent?
    ensures var q := Resume(pl, p, r);
            && (q.pc.Escaped? <==> p.pc.Auditing?) && !q.pc.SavingJobFailure?
            && (q.pc.SavingTenantFailure? <==> p.pc.SavingJobFailure?)
  {
    hide Unwind, Action, Guarded, Enter;
    UnwindGoesOn(p, Rank(p.step));
    UnwindGoesOn(p, 6);
    UnwindGoesOn(p, 4);
    if p.pc.DroppingDatabase? || p.pc.DroppingRole? {
      UnwindGoesOn(p, if p.pc.pass < |ORDER| then p.pc.pass - 1 else -1);
    }
  }

  lemma TellingStep(x0: Slice, pl: Plan, s: Local, f: Fate)
    requires Recovering(s.proc) && Telling(x0, s) && (f.Succeeds? || Shrugged(s.proc.pc))
    ensures Telling(x0, NextLocal(pl, s, f))
  {
    hide PerformLocal, ApplyLocal, EffectOf, Resume;
    TellingCall(x0, pl, s, f);
    var r := ApplyLocal(pl, s.slice, EffectOf(pl, s.proc), f).result;
    TellingMoves(pl, s.proc, r);
    RecoveryKeepsFailure(pl, s.proc, r);
  }

  lemma TellingStart(x0: Slice, pl: Plan, s: Local, f: Fate)
    requires Fresh(x0, pl) && Inv(x0, pl, s) && Forward(s.proc) && !Halted(s.proc)
    requires var q := NextLocal(pl, s, f).proc; !Forward(q) && q.step != VALIDATE
    ensures Telling(x0, NextLocal(pl, s, f))
  {
    ForwardKeepsInv(x0, pl, s, f);
    FreshHasRow(x0, pl);
    var r := ApplyLocal(pl, s.slice, EffectOf(pl, s.proc), f).result;
    InvAtPlace(x0, pl, s);
    CallBuildsOrNot(x0, pl, s, f);
    ResumesInPlace(pl, s.proc, r);
    hide ApplyLocal, EffectOf, Resume, Built, Fresh, AtPlace;
  }

  lemma ShruggedPrefix(x: Slice, pl: Plan, fates: seq<Fate>)
    requires fates != [] && ShruggedRecovery(x, pl, fates)
    ensures var n := |fates| - 1;
            var p := ExecLocal(x, pl, fates[..n]).proc;
            ShruggedRecovery(x, pl, fates[..n]) && (Recovering(p) && !Shrugged(p.pc) ==> fates[n].Succeeds?)
  {
    PrefixStates(x, pl, fates);
    hide NextLocal, ExecLocal, StateAt, Recovering, Shrugged;
  }

  lemma {:induction false} TellsThroughout(x0: Slice, pl: Plan, fates: seq<Fate>)
    requires Fresh(x0, pl) && ShruggedRecovery(x0, pl, fates)
    requires !Forward(ExecLocal(x0, pl, fates).proc) && ExecLocal(x0, pl, fates).proc.step != VALIDATE
    ensures Telling(x0, ExecLocal(x0, pl, fates))
  {
    hide PerformLocal, EffectOf, Resume, Telling, Inv, Fresh, ShruggedRecovery;
    var n := |fates| - 1;
    var s := ExecLocal(x0, pl, fates[..n]);
    ShruggedPrefix(x0, pl, fates);
    if Forward(s.proc) {
      ForwardInv(x0, pl, fates[..n]);
      TellingStart(x0, pl, s, fates[n]);
    } else {
      if Recovering(s.proc) {
        RecoveryKeepsFailure(pl, s.proc, ApplyLocal(pl, s.slice, EffectOf(pl, s.proc), fates[n]).result);
      }
      TellsThroughout(x0, pl, fates[..n]);
      if Recovering(s.proc) {
        TellingStep(x0, pl, s, fates[n]);
      }
    }
  }

  /** Errors of Fineract and of SQL never stop a rollback: whatever DROP DATABASE, DROP ROLE and the
      deletion in Fineract do, a run that raised from its try block has set FAILED, written its audit
      entry and recorded the exception that stopped it. */
  lemma {:induction false} ShruggedErrorsAreRecorded(x0: Slice, pl: Plan, fates: seq<Fate>)
    requires Fresh(x0, pl) && ShruggedRecovery(x0, pl, fates)
    requires ExecLocal(x0, pl, fates).proc.pc.Escaped? && ExecLocal(x0, pl, fates).proc.step != VALIDATE
    ensures var x, p := ExecLocal(x0, pl, fates).slice, ExecLocal(x0, pl, fates).proc;
            && x.row.Some? && x.row.value.status == FAILED && x.audit == x0.audit + [p.step]
            && x.job == Some(JobRow(p.step, Some(false), p.failure))
            && StoppedBy(x0, pl, fates, p.step, p.failure)
  {
    TellsThroughout(x0, pl, fates);
    FailureIsTheCause(x0, pl, fates);
    hide ExecLocal, StoppedBy, Fresh;
  }

  // ---- What success means ----

  predicate Loud(f: Fate) { f.Fails? ==> f.message != "" }

  function FineractOf(pl: Plan, users: map<string, string>): Option<FineractTenant> {
    Some(FineractTenant(pl.dbHost, pl.DbName(), users))
  }

  /** While no registration error is recorded, Fineract holds what was sent to it. */
  ghost predicate FineractAsSent(pl: Plan, s: Local) {
    var n, ft, clean := Pos(s.proc), s.slice.fineract, s.proc.registrationError == "";
    && (n <= 18 ==> ft.None?)
    && (n in {18, 19, 23} ==> clean)
    && (n == 20 ==> !clean)
    && (clean && 19 <= n <= 23 ==> ft == FineractOf(pl, map[]))
    && (clean && 24 <= n ==> ft == FineractOf(pl, map[pl.email := pl.adminPassword]))
    && (n <= 18 ==> clean)
  }

  lemma OtherCallsLeaveFineract(pl: Plan, x: Slice, p: Proc, f: Fate)
    requires AtPlace(pl, p) && !(18 <= Pos(p) <= 23)
    ensures var o := ApplyLocal(pl, x, EffectOf(pl, p), f);
            o.slice.fineract == x.fineract && Resume(pl, p, o.result).registrationError == p.registrationError
  {
  }

  lemma OtherCallsStayPut(pl: Plan, p: Proc, r: Result)
    requires AtPlace(pl, p) && !(18 <= Pos(p) <= 23) && Forward(Resume(pl, p, r))
    ensures Pos(p) < Pos(Resume(pl, p, r)) && (Pos(p) <= 17 ==> Pos(Resume(pl, p, r)) <= 18)
  {
  }

  lemma RegistrationCalls(pl: Plan, s: Local, f: Fate)
    requires AtPlace(pl, s.proc) && FineractAsSent(pl, s) && Loud(f) && 18 <= Pos(s.proc) <= 20
    ensures Forward(NextLocal(pl, s, f).proc) ==> FineractAsSent(pl, NextLocal(pl, s, f))
  {
    hide Plan.Role, Plan.DbName, Plan.Host, WithoutTenant, HasPrimary, StepAt, Unwind;
  }

  lemma LocalUserPlaces(pl: Plan, p: Proc, r: Result)
    requires AtPlace(pl, p) && 21 <= Pos(p) <= 22
    ensures var q := Resume(pl, p, r);
            Forward(q) ==>
              && q.registrationError == p.registrationError
              && Pos(q) == (if Pos(p) == 21 then 22 else if p.registrationError == "" then 23 else 24)
  {
    hide Unwind;
  }

  lemma LocalUserCalls(pl: Plan, s: Local, f: Fate)
    requires AtPlace(pl, s.proc) && FineractAsSent(pl, s) && Loud(f) && 21 <= Pos(s.proc) <= 22
    ensures Forward(NextLocal(pl, s, f).proc) ==> FineractAsSent(pl, NextLocal(pl, s, f))
  {
    hide PerformLocal, EffectOf, Resume;
    BetweenCallsKeepFineract(pl, s.slice, s.proc);
    LocalUserPlaces(pl, s.proc, ApplyLocal(pl, s.slice, EffectOf(pl, s.proc), f).result);
  }

  lemma FineractUserCall(pl: Plan, s: Local, f: Fate)
    requires AtPlace(pl, s.proc) && FineractAsSent(pl, s) && Loud(f) && s.proc.pc.RegisteringUser?
    ensures Forward(NextLocal(pl, s, f).proc) ==> FineractAsSent(pl, NextLocal(pl, s, f))
  {
    hide Plan.Role, Plan.DbName, Plan.Host, WithoutTenant, HasPrimary, StepAt, Unwind;
  }

  lemma RegisteredStep(pl: Plan, s: Local, f: Fate)
    requires AtPlace(pl, s.proc) && FineractAsSent(pl, s) && Loud(f)
    ensures Forward(NextLocal(pl, s, f).proc) ==> FineractAsSent(pl, NextLocal(pl, s, f))
  {
    if 18 <= Pos(s.proc) <= 20 {
      RegistrationCalls(pl, s, f);
    } else if 21 <= Pos(s.proc) <= 22 {
      LocalUserCalls(pl, s, f);
    } else if s.proc.pc.RegisteringUser? {
      FineractUserCall(pl, s, f);
    } else {
      hide PerformLocal, EffectOf, Resume;
      OtherCallsLeaveFineract(pl, s.slice, s.proc, f);
      var r := ApplyLocal(pl, s.slice, EffectOf(pl, s.proc), f).result;
      if Forward(Resume(pl, s.proc, r)) {
        OtherCallsStayPut(pl, s.proc, r);
      }
    }
  }

  lemma {:induction false} RegisteredThroughout(x0: Slice, pl: Plan, fates: seq<Fate>)
    requires Fresh(x0, pl) && forall f :: f in fates ==> Loud(f)
    ensures Forward(ExecLocal(x0, pl, fates).proc) ==> FineractAsSent(pl, ExecLocal(x0, pl, fates))
  {
    if fates != [] {
      var n := |fates| - 1;
      RegisteredThroughout(x0, pl, fates[..n]);
      ForwardInv(x0, pl, fates[..n]);
      hide PerformLocal, EffectOf, Resume, FineractAsSent;
      var s := ExecLocal(x0, pl, fates[..n]);
      if Recovering(s.proc) {
        NeverForwardAgain(pl, s.proc, ApplyLocal(pl, s.slice, EffectOf(pl, s.proc), fates[n]).result);
      } else if !Halted(s.proc) {
        RegisteredStep(pl, s, fates[n]);
      }
    }
  }

  lemma {:induction false} JobRecordsOutcome(x0: Slice, pl: Plan, fates: seq<Fate>)
    requires x0.job.Some? && ExecLocal(x0, pl, fates).proc.pc.Returned?
    ensures ExecLocal(x0, pl, fates).slice.job ==
              Some(JobRow(DONE, Some(true), FinalError(ExecLocal(x0, pl, fates).proc.registrationError)))
  {
    var n := |fates| - 1;
    var s := ExecLocal(x0, pl, fates[..n]);
    if Halted(s.proc) {
      JobRecordsOutcome(x0, pl, fates[..n]);
    } else {
      ReturnsFromSavingDone(pl, s, fates[n]);
    }
  }

  lemma ReturnsFromSavingDone(pl: Plan, s: Local, f: Fate)
    requires !Halted(s.proc) && NextLocal(pl, s, f).proc.pc.Returned?
    ensures s.proc.pc.SavingDone? && f.Succeeds? && s.slice.job.Some?
    ensures NextLocal(pl, s, f).proc.registrationError == s.proc.registrationError
    ensures NextLocal(pl, s, f).slice ==
              s.slice.(job := Some(JobRow(DONE, Some(true), FinalError(s.proc.registrationError))))
  {
    var r := ApplyLocal(pl, s.slice, EffectOf(pl, s.proc), f).result;
    if Recovering(s.proc) {
      NeverForwardAgain(pl, s.proc, r);
    }
  }

  /** The slice of a tenant whose run went well throughout. */
  function ReadySlice(x0: Slice, pl: Plan): Slice
    requires x0.row.Some?
  {
    Slice(Some(RowAt(x0.row.value, pl, 30)), Admin(pl), Primary(pl), Some(pl.password),
          Some(JobRow(DONE, Some(true), "")), x0.audit, Some(pl.password),
          Some(Database(pl.Role(), {pl.Role()})), FineractOf(pl, map[pl.email := pl.adminPassword]))
  }

  predicate IsReady(x0: Slice, pl: Plan, s: Local)
    requires x0.row.Some?
  {
    s.slice == ReadySlice(x0, pl).(fineract := s.slice.fineract,
                                   job := Some(JobRow(DONE, Some(true), FinalError(s.proc.registrationError))))
  }

  lemma BuiltToTheEnd(x0: Slice, pl: Plan, s: Local)
    requires Fresh(x0, pl) && Inv(x0, pl, s) && s.proc.pc.Returned?
    requires s.slice.job == Some(JobRow(DONE, Some(true), FinalError(s.proc.registrationError)))
    ensures IsReady(x0, pl, s)
  {
  }

  /** What success means.  Whatever was swallowed on the way, a run that returns leaves the database
      owned by the role and granted to it, one CEO user, one primary domain, the stored credential
      equal to the role's password, READY and a finished job. */
  lemma {:induction false} ReturnedRunIsReady(x0: Slice, pl: Plan, fates: seq<Fate>)
    requires Fresh(x0, pl) && ExecLocal(x0, pl, fates).proc.pc.Returned?
    ensures IsReady(x0, pl, ExecLocal(x0, pl, fates))
  {
    assert x0.row.Some? && x0.job.Some?;
    hide NextLocal, ExecLocal, Fresh, Inv, IsReady, FinalError;
    ForwardInv(x0, pl, fates);
    JobRecordsOutcome(x0, pl, fates);
    BuiltToTheEnd(x0, pl, ExecLocal(x0, pl, fates));
  }

  /** If no exception has an empty message, a finished job without an error message means that
      Fineract holds the tenant and an admin user with the local user's password. */
  lemma {:induction false} NoErrorMeansRegistered(x0: Slice, pl: Plan, fates: seq<Fate>)
    requires Fresh(x0, pl) && forall f :: f in fates ==> Loud(f)
    requires ExecLocal(x0, pl, fates).proc.pc.Returned? && ExecLocal(x0, pl, fates).slice.job.Some?
    requires ExecLocal(x0, pl, fates).slice.job.value.error == ""
    ensures ExecLocal(x0, pl, fates).slice == ReadySlice(x0, pl)
  {
    hide NextLocal, ExecLocal, Fresh, Built;
    ReturnedRunIsReady(x0, pl, fates);
    RegisteredThroughout(x0, pl, fates);
  }

  /** Fineract's tenant at each place of the script; registered says whether the user was written. */
  ghost predicate FineractTracked(pl: Plan, s: Local, registered: bool) {
    var n, ft, full := Pos(s.proc), s.slice.fineract, FineractOf(pl, map[pl.email := pl.adminPassword]);
    && (ft.None? || ft == FineractOf(pl, map[]) || ft == full)
    && (n <= 18 ==> ft.None?)
    && (registered <==> ft == full)
    && (registered ==> 24 <= n)
  }

  lemma RegistrationTracked(pl: Plan, s: Local, f: Fate)
    requires AtPlace(pl, s.proc) && FineractTracked(pl, s, false) && s.proc.pc.RegisteringTenant?
    ensures Forward(NextLocal(pl, s, f).proc) ==> FineractTracked(pl, NextLocal(pl, s, f), false)
  {
    hide Plan.Role, Plan.DbName, Plan.Host, WithoutTenant, HasPrimary, StepAt;
    assert pl.email in map[pl.email := pl.adminPassword];
  }

  lemma BetweenCallsKeepFineract(pl: Plan, x: Slice, p: Proc)
    requires AtPlace(pl, p) && 19 <= Pos(p) <= 22
    ensures PerformLocal(pl, x, EffectOf(pl, p)).slice.fineract == x.fineract
  {
    hide Plan.Role, Plan.DbName, Plan.Host, WithoutTenant, HasPrimary, StepAt, Unwind;
  }

  lemma BetweenCallsStayPast(pl: Plan, p: Proc, r: Result)
    requires AtPlace(pl, p) && 19 <= Pos(p) <= 22
    ensures Forward(Resume(pl, p, r)) ==> 19 <= Pos(Resume(pl, p, r))
  {
    hide Unwind;
  }

  lemma BetweenFineractCalls(pl: Plan, x: Slice, p: Proc, f: Fate)
    requires AtPlace(pl, p) && 19 <= Pos(p) <= 22
    ensures var o := ApplyLocal(pl, x, EffectOf(pl, p), f);
            && o.slice.fineract == x.fineract
            && (Forward(Resume(pl, p, o.result)) ==> 19 <= Pos(Resume(pl, p, o.result)))
  {
    hide PerformLocal, EffectOf, Resume;
    BetweenCallsKeepFineract(pl, x, p);
    BetweenCallsStayPast(pl, p, ApplyLocal(pl, x, EffectOf(pl, p), f).result);
  }

  lemma OnlyUserCallReaches(s: Local, f: Fate)
    ensures !s.proc.pc.RegisteringUser? ==> !Reaches(s, f, FineractUser)
  {
  }

  lemma UserCallTracked(pl: Plan, s: Local, f: Fate)
    requires AtPlace(pl, s.proc) && FineractTracked(pl, s, false) && s.proc.pc.RegisteringUser?
    ensures FineractTracked(pl, NextLocal(pl, s, f), Reaches(s, f, FineractUser))
  {
    hide Plan.Role, Plan.DbName, Plan.Host, WithoutTenant, HasPrimary, StepAt;
    assert pl.email in map[pl.email := pl.adminPassword];
    assert map[][pl.email := pl.adminPassword] == map[pl.email := pl.adminPassword];
  }

  lemma TrackedStep(pl: Plan, s: Local, f: Fate, registered: bool)
    requires AtPlace(pl, s.proc) && FineractTracked(pl, s, registered)
    requires Forward(NextLocal(pl, s, f).proc)
    ensures FineractTracked(pl, NextLocal(pl, s, f), registered || Reaches(s, f, FineractUser))
  {
    if s.proc.pc.RegisteringUser? {
      UserCallTracked(pl, s, f);
    } else if s.proc.pc.RegisteringTenant? {
      RegistrationTracked(pl, s, f);
      OnlyUserCallReaches(s, f);
      hide PerformLocal, EffectOf, Resume;
    } else if 19 <= Pos(s.proc) <= 22 {
      BetweenFineractCalls(pl, s.slice, s.proc, f);
      OnlyUserCallReaches(s, f);
      hide PerformLocal, EffectOf, Resume;
    } else {
      hide PerformLocal, EffectOf, Resume;
      OtherCallsLeaveFineract(pl, s.slice, s.proc, f);
      OtherCallsStayPut(pl, s.proc, ApplyLocal(pl, s.slice, EffectOf(pl, s.proc), f).result);
    }
  }

  /** Whatever happens, Fineract has the admin user exactly when the call that creates it took effect
      while Fineract had the tenant. */
  lemma {:induction false} FineractFollowsUserCall(x0: Slice, pl: Plan, fates: seq<Fate>)
    requires Fresh(x0, pl) && Forward(ExecLocal(x0, pl, fates).proc)
    ensures FineractTracked(pl, ExecLocal(x0, pl, fates), FineractUserWritten(x0, pl, fates))
  {
    hide PerformLocal, EffectOf, Resume, FineractTracked, Reached, Reaches;
    if fates == [] {
      NothingReached(x0, pl, FineractUser);
      StartIsTracked(x0, pl);
    } else {
      var n := |fates| - 1;
      var s := ExecLocal(x0, pl, fates[..n]);
      ReachedPrefix(x0, pl, fates, FineractUser);
      if Recovering(s.proc) {
        NeverForwardAgain(pl, s.proc, ApplyLocal(pl, s.slice, EffectOf(pl, s.proc), fates[n]).result);
      } else {
        ForwardInv(x0, pl, fates[..n]);
        FineractFollowsUserCall(x0, pl, fates[..n]);
        if Halted(s.proc) {
          HaltedReachesNothing(s, fates[n], FineractUser);
        } else {
          TrackedStep(pl, s, fates[n], FineractUserWritten(x0, pl, fates[..n]));
        }
      }
    }
  }

  lemma StartIsTracked(x0: Slice, pl: Plan)
    requires Fresh(x0, pl)
    ensures FineractTracked(pl, Local(x0, Start(pl)), false)
  {
  }

  /** Exactly when a run that returned has done everything: its job has no error message, and the call
      that creates the Fineract user took effect while Fineract had the tenant. */
  lemma {:induction false} ReadyIffUserWritten(x0: Slice, pl: Plan, fates: seq<Fate>)
    requires Fresh(x0, pl) && ExecLocal(x0, pl, fates).proc.pc.Returned?
    ensures var x := ExecLocal(x0, pl, fates).slice;
            && x.job.Some?
            && (x == ReadySlice(x0, pl) <==> x.job.value.error == "" && FineractUserWritten(x0, pl, fates))
  {
    hide NextLocal, ExecLocal, Fresh, Built, FineractUserWritten;
    ReturnedRunIsReady(x0, pl, fates);
    FineractFollowsUserCall(x0, pl, fates);
  }

  lemma InvAtPlace(x0: Slice, pl: Plan, s: Local)
    requires Fresh(x0, pl) && Inv(x0, pl, s) && Forward(s.proc) && !Halted(s.proc)
    ensures AtPlace(pl, s.proc) && Built(x0, pl, s.slice, Pos(s.proc))
  {
  }

  lemma FreshHasRow(x0: Slice, pl: Plan)
    requires Fresh(x0, pl)
    ensures x0.row.Some?
  {
  }
}
