/**
 Runs without faults, and the single faults that show where the guarantees of a run end.
 */
module CleanRuns {
  import opened Options
  import opened Tenants
  import opened Effects
  import opened Saga
  import opened Slices
  import opened Compensation
  import opened Runs

  function Clean(n: nat): seq<Fate> {
    seq(n, _ => Succeeds)
  }

  lemma CleanCallMovesOn(x0: Slice, pl: Plan, s: Local)
    requires Fresh(x0, pl) && Inv(x0, pl, s) && Forward(s.proc) && !Halted(s.proc)
    ensures var q := NextLocal(pl, s, Succeeds);
            && Forward(q.proc) && Inv(x0, pl, q) && Pos(q.proc) > Pos(s.proc)
            && (Pos(s.proc) >= 24 ==>
                q.slice.fineract == s.slice.fineract && q.proc.registrationError == s.proc.registrationError)
  {
    ForwardKeepsInv(x0, pl, s, Succeeds);
    CallBuilds(x0, pl, s.slice, s.proc);
    hide PerformLocal, EffectOf, Resume, Built, Fresh;
    var r := ApplyLocal(pl, s.slice, EffectOf(pl, s.proc), Succeeds).result;
    ResumesInPlace(pl, s.proc, r);
    CleanCallIsNotCaught(pl, s.proc, r);
    if Pos(s.proc) >= 24 {
      OtherCallsLeaveFineract(pl, s.slice, s.proc, Succeeds);
    }
  }

  lemma CleanCallIsNotCaught(pl: Plan, p: Proc, r: Result)
    requires AtPlace(pl, p) && (r.Raised? ==> p.pc.RegisteringUser?)
    ensures Forward(Resume(pl, p, r))
  {
  }

  /** From any place of the script, calls that succeed lead to the end of it. */
  lemma {:induction false} CleanTail(x0: Slice, pl: Plan, fates: seq<Fate>, n: nat)
    requires Fresh(x0, pl) && Forward(ExecLocal(x0, pl, fates).proc)
    ensures var s, q := ExecLocal(x0, pl, fates), ExecLocal(x0, pl, fates + Clean(n));
            && Forward(q.proc) && Inv(x0, pl, q) && (q.proc.pc.Returned? || Pos(q.proc) >= Pos(s.proc) + n)
            && (Pos(s.proc) >= 24 ==>
                q.slice.fineract == s.slice.fineract && q.proc.registrationError == s.proc.registrationError)
            && Pos(q.proc) >= Pos(s.proc)
  {
    hide NextLocal, Inv, Fresh, Pos;
    if n == 0 {
      assert fates + Clean(0) == fates;
      ForwardInv(x0, pl, fates);
    } else {
      CleanTail(x0, pl, fates, n - 1);
      var all := fates + Clean(n);
      assert all[..|all| - 1] == fates + Clean(n - 1) && all[|all| - 1] == Succeeds;
      var q := ExecLocal(x0, pl, fates + Clean(n - 1));
      if !Halted(q.proc) {
        CleanCallMovesOn(x0, pl, q);
      } else {
        HaltedStays(pl, q);
      }
    }
  }

  lemma HaltedStays(pl: Plan, s: Local)
    requires Halted(s.proc)
    ensures forall f :: NextLocal(pl, s, f) == s
  {
  }

  lemma CleanCallHasNoError(x0: Slice, pl: Plan, s: Local)
    requires Fresh(x0, pl) && Built(x0, pl, s.slice, Pos(s.proc))
    requires AtPlace(pl, s.proc) && FineractAsSent(pl, s) && s.proc.registrationError == ""
    ensures NextLocal(pl, s, Succeeds).proc.registrationError == ""
  {
    if !(18 <= Pos(s.proc) <= 23) {
      OtherCallsLeaveFineract(pl, s.slice, s.proc, Succeeds);
    }
  }

  lemma {:induction false} CleanHasNoError(x0: Slice, pl: Plan, n: nat)
    requires Fresh(x0, pl)
    ensures ExecLocal(x0, pl, Clean(n)).proc.registrationError == ""
  {
    if n > 0 {
      hide NextLocal, FineractAsSent, Fresh, Inv;
      CleanHasNoError(x0, pl, n - 1);
      assert Clean(n)[..n - 1] == Clean(n - 1);
      var s := ExecLocal(x0, pl, Clean(n - 1));
      if Halted(s.proc) {
        HaltedStays(pl, s);
      } else {
        assert [] + Clean(n - 1) == Clean(n - 1);
        CleanTail(x0, pl, [], n - 1);
        RegisteredThroughout(x0, pl, Clean(n - 1));
        InvAtPlace(x0, pl, s);
        CleanCallHasNoError(x0, pl, s);
      }
    }
  }

  /** A run in which nothing fails returns, with everything in place. */
  lemma {:induction false} CleanRunIsReady(x0: Slice, pl: Plan, n: nat)
    requires Fresh(x0, pl) && n >= 30
    ensures ExecLocal(x0, pl, Clean(n)).proc.pc.Returned?
    ensures ExecLocal(x0, pl, Clean(n)).slice == ReadySlice(x0, pl)
  {
    hide NextLocal, Fresh, Built, Inv;
    assert [] + Clean(n) == Clean(n);
    CleanTail(x0, pl, [], n);
    CleanHasNoError(x0, pl, n);
    ReturnedRunIsReady(x0, pl, Clean(n));
    RegisteredThroughout(x0, pl, Clean(n));
  }

  /** What is known along a run without faults. */
  lemma CleanIsForward(x0: Slice, pl: Plan, k: nat)
    requires Fresh(x0, pl)
    requires var s := ExecLocal(x0, pl, Clean(k)); Forward(s.proc) && !Halted(s.proc)
    ensures var s := ExecLocal(x0, pl, Clean(k));
            && x0.row.Some? && Inv(x0, pl, s) && AtPlace(pl, s.proc) && Builds(x0, pl, s.slice, s.proc)
            && s.proc.registrationError == ""
  {
    FreshHasRow(x0, pl);
    hide ExecLocal, Fresh, Inv, AtPlace, Built, Builds;
    ForwardInv(x0, pl, Clean(k));
    CleanHasNoError(x0, pl, k);
    InvAtPlace(x0, pl, ExecLocal(x0, pl, Clean(k)));
    CallBuilds(x0, pl, ExecLocal(x0, pl, Clean(k)).slice, ExecLocal(x0, pl, Clean(k)).proc);
  }

  /** The place after n in a run without faults from a fresh start. */
  function PlaceAfter(pl: Plan, n: nat): nat {
    if n == 0 && pl.storedDbName != "" then 2 else if n == 19 then 21 else n + 1
  }

  lemma CleanCallIsNext(x0: Slice, pl: Plan, s: Local)
    requires AtPlace(pl, s.proc) && s.proc.registrationError == "" && x0.row.Some? && Builds(x0, pl, s.slice, s.proc)
    ensures Pos(NextLocal(pl, s, Succeeds).proc) == PlaceAfter(pl, Pos(s.proc))
  {
    var r := PerformLocal(pl, s.slice, EffectOf(pl, s.proc)).result;
    CleanResumesNext(pl, s.proc, r);
    hide PerformLocal, EffectOf, Resume, Built;
  }

  lemma CleanResumesNext(pl: Plan, p: Proc, r: Result)
    requires AtPlace(pl, p) && p.registrationError == "" && (r.Raised? ==> p.pc.RegisteringUser?)
    requires r.Absent? <==> p.pc.SelectingRole? || p.pc.SelectingDatabase?
    ensures Pos(Resume(pl, p, r)) == PlaceAfter(pl, Pos(p))
  {
    hide Unwind;
  }

  lemma CleanStep(x0: Slice, pl: Plan, k: nat)
    requires Fresh(x0, pl)
    requires var s := ExecLocal(x0, pl, Clean(k)); Forward(s.proc) && !Halted(s.proc)
    ensures var s, q := ExecLocal(x0, pl, Clean(k)), ExecLocal(x0, pl, Clean(k + 1));
            Forward(q.proc) && Pos(q.proc) == PlaceAfter(pl, Pos(s.proc))
  {
    hide NextLocal, Fresh, Inv, AtPlace, Built, Builds, Forward, Pos, PlaceAfter;
    var s := ExecLocal(x0, pl, Clean(k));
    CleanIsForward(x0, pl, k);
    CleanCallIsNext(x0, pl, s);
    CleanCallMovesOn(x0, pl, s);
    assert Clean(k + 1)[..k] == Clean(k);
  }

  /** A run without faults makes every call of the script but the ones that repair: it comes to every
      place but the rename, which a named database skips, and the second save of the identifier. */
  lemma {:induction false} Visits(x0: Slice, pl: Plan, k: nat, n: nat) returns (m: nat)
    requires Fresh(x0, pl) && Forward(ExecLocal(x0, pl, Clean(k)).proc)
    requires Pos(ExecLocal(x0, pl, Clean(k)).proc) <= n <= 29 && n != 1 && n != 20
    ensures Forward(ExecLocal(x0, pl, Clean(m)).proc) && Pos(ExecLocal(x0, pl, Clean(m)).proc) == n
    decreases n - Pos(ExecLocal(x0, pl, Clean(k)).proc)
  {
    hide ExecLocal, Fresh;
    if Pos(ExecLocal(x0, pl, Clean(k)).proc) == n {
      m := k;
    } else {
      CleanStep(x0, pl, k);
      m := Visits(x0, pl, k + 1, n);
    }
  }

  /** Why NoErrorMeansRegistered needs messages: if the call that creates the Fineract user raises an
      exception whose message is empty, the run still ends with a finished job, an empty error
      message and a Fineract tenant without any user. */
  lemma {:induction false} EmptyMessageHidesFailure(x0: Slice, pl: Plan) returns (fates: seq<Fate>)
    requires Fresh(x0, pl)
    ensures var s := ExecLocal(x0, pl, fates);
            && s.proc.pc.Returned? && s.slice.job == Some(JobRow(DONE, Some(true), ""))
            && s.slice.fineract == FineractOf(pl, map[])
  {
    hide NextLocal, Fresh, Inv, FineractAsSent, Resume, EffectOf, PerformLocal;
    StartsAtZero(x0, pl);
    var n := Visits(x0, pl, 0, 23);
    var silent := Clean(n) + [Fails(false, "")];
    assert silent[..n] == Clean(n);
    CleanHasNoError(x0, pl, n);
    RegisteredThroughout(x0, pl, Clean(n));
    SilentFailureGoesOn(pl, ExecLocal(x0, pl, Clean(n)));
    CleanTail(x0, pl, silent, 30);
    fates := silent + Clean(30);
    ReturnedRunIsReady(x0, pl, fates);
  }

  lemma StartsAtZero(x0: Slice, pl: Plan)
    ensures Forward(ExecLocal(x0, pl, Clean(0)).proc) && Pos(ExecLocal(x0, pl, Clean(0)).proc) == 0
  {
  }

  lemma SilentFailureGoesOn(pl: Plan, s: Local)
    requires s.proc.pc.RegisteringUser? && s.proc.registrationError == "" && FineractAsSent(pl, s)
    ensures var q := NextLocal(pl, s, Fails(false, ""));
            && Forward(q.proc) && Pos(q.proc) == 24 && q.proc.registrationError == ""
            && q.slice.fineract == FineractOf(pl, map[])
  {
  }

  // ---- A failed tenant that stays active ----

  lemma {:induction false} NeverForwardLater(x: Slice, pl: Plan, fates: seq<Fate>, more: seq<Fate>)
    requires !Forward(ExecLocal(x, pl, fates).proc)
    ensures var q := ExecLocal(x, pl, fates + more).proc;
            !Forward(q) && q.step == ExecLocal(x, pl, fates).proc.step
  {
    if more == [] {
      assert fates + more == fates;
    } else {
      hide PerformLocal, EffectOf, Resume;
      var n := |more| - 1;
      NeverForwardLater(x, pl, fates, more[..n]);
      assert (fates + more)[..|fates + more| - 1] == fates + more[..n];
      var s := ExecLocal(x, pl, fates + more[..n]);
      if Recovering(s.proc) {
        NeverForwardAgain(pl, s.proc, ApplyLocal(pl, s.slice, EffectOf(pl, s.proc), more[n]).result);
      }
    }
  }

  lemma LastSaveFails(pl: Plan, s: Local, message: string)
    requires s.proc.pc.SavingDone?
    ensures var q := NextLocal(pl, s, Fails(false, message));
            q.proc.pc.SavingJobFailure? && q.slice == s.slice && q.proc.step == s.proc.step
  {
  }

  /** Once a tenant is active it stays so. */
  lemma {:induction false} StaysActive(x0: Slice, pl: Plan, fates: seq<Fate>, more: seq<Fate>)
    requires x0.row.Some?
    requires ExecLocal(x0, pl, fates).slice.row.Some? && ExecLocal(x0, pl, fates).slice.row.value.isActive
    ensures var row := ExecLocal(x0, pl, fates + more).slice.row; row.Some? && row.value.isActive
  {
    if more == [] {
      assert fates + more == fates;
    } else {
      hide PerformLocal, EffectOf, Resume, Reaches;
      var n := |more| - 1;
      StaysActive(x0, pl, fates, more[..n]);
      assert (fates + more)[..|fates + more| - 1] == fates + more[..n];
      var s := ExecLocal(x0, pl, fates + more[..n]);
      if !Halted(s.proc) {
        OnlyActivationActivates(pl, s.slice, s.proc, more[n]);
      }
    }
  }

  /** The only failure after n clean calls is one of the script. */
  lemma OneFaultIsQuiet(x0: Slice, pl: Plan, n: nat, f: Fate, m: nat)
    requires !Recovering(ExecLocal(x0, pl, Clean(n)).proc)
    ensures QuietRecovery(x0, pl, Clean(n) + [f] + Clean(m))
  {
    hide ExecLocal;
    var fates := Clean(n) + [f] + Clean(m);
    assert fates[..n] == Clean(n);
    assert forall i :: 0 <= i < |fates| && i != n ==> fates[i].Succeeds?;
  }

  lemma ActiveBeforeLastSave(x0: Slice, pl: Plan, s: Local)
    requires Fresh(x0, pl) && Inv(x0, pl, s) && s.proc.pc.SavingDone?
    ensures s.slice.row.Some? && s.slice.row.value.isActive && s.proc.step == DONE
  {
  }

  /** From every fresh start there is a fault after which the run ends with a tenant that is FAILED and
      rolled back, yet active: the last save of the job fails. */
  lemma {:induction false} FailureCanLeaveActive(x0: Slice, pl: Plan) returns (fates: seq<Fate>)
    requires Fresh(x0, pl)
    ensures QuietRecovery(x0, pl, fates) && ExecLocal(x0, pl, fates).proc.pc.Escaped?
    ensures var x := ExecLocal(x0, pl, fates).slice;
            Bare(x) && x.row.Some? && x.row.value.status == FAILED && x.row.value.isActive
  {
    hide NextLocal, Fresh, Inv, DomainWritten, ActivationWritten, QuietRecovery;
    StartsAtZero(x0, pl);
    var n := Visits(x0, pl, 0, 29);
    var failed := Clean(n) + [Fails(false, "lost connection")];
    assert failed[..n] == Clean(n);
    var s := ExecLocal(x0, pl, Clean(n));
    ForwardInv(x0, pl, Clean(n));
    ActiveBeforeLastSave(x0, pl, s);
    LastSaveFails(pl, s, "lost connection");
    fates := failed + Clean(59);
    OneFaultIsQuiet(x0, pl, n, Fails(false, "lost connection"), 59);
    NeverForwardLater(x0, pl, failed, Clean(59));
    RunHalts(x0, pl, fates);
    FreshHasRow(x0, pl);
    StaysActive(x0, pl, failed, Clean(59));
    RaisedRunIsCompensated(x0, pl, fates);
    HasFailed(x0, pl, fates);
  }

  lemma HasFailed(x0: Slice, pl: Plan, fates: seq<Fate>)
    requires x0.row.Some?
    requires var s := ExecLocal(x0, pl, fates);
             s.proc.step != VALIDATE
             && Compensated(x0, pl, s.slice, s.proc.step, s.proc.failure,
                            DomainWritten(x0, pl, fates), ActivationWritten(x0, pl, fates))
    ensures var x := ExecLocal(x0, pl, fates).slice;
            Bare(x) && x.row.Some? && x.row.value.status == FAILED
  {
    hide ExecLocal, DomainWritten, ActivationWritten;
  }
}
