/**
 Many tenants, each with any number of attempts, on the shared tables: an attempt may be started whenever
 the tenant's earlier one has ended, and the calls of all of them are interleaved in any way.
 */
module Histories {
  import opened Options
  import opened Tenants
  import opened Effects
  import opened Saga
  import opened Slices
  import opened Compensation
  import opened Runs
  import opened CleanRuns
  import opened Retries
  import opened Credentials
  import opened Interleaving

  /** The latest attempt of a tenant, on the plan made of its row when it was started, and the record of
      the attempts before it. */
  datatype Try = Try(plan: Plan, proc: Proc, past: seq<Attempt>, current: Attempt)
  datatype Cluster = Cluster(world: World, tries: map<TenantId, Try>)
  datatype Act = Press(id: TenantId, password: string, adminPassword: string) | Called(id: TenantId, fate: Fate)

  function NewJob(w: World, id: TenantId): World {
    w.(jobs := w.jobs[id := JobRow(VALIDATE, None, "")])
  }

  /** The tenant is loaded from its row. */
  function Loaded(pl: Plan, row: TenantRow, password: string, adminPassword: string): Plan {
    pl.(storedDbName := row.dbName, identifier := row.identifier, password := password, adminPassword := adminPassword)
  }

  predicate MayPress(plans: map<TenantId, Plan>, m: Cluster, id: TenantId) {
    id in plans && id in m.world.tenants && (id in m.tries ==> Halted(m.tries[id].proc))
  }

  ghost function Do(plans: map<TenantId, Plan>, m: Cluster, a: Act): Cluster {
    match a
    case Press(id, password, adminPassword) =>
      if !MayPress(plans, m, id) then m
      else
        var plan := Loaded(plans[id], m.world.tenants[id], password, adminPassword);
        var past := if id in m.tries then m.tries[id].past + [m.tries[id].current] else [];
        Cluster(NewJob(m.world, id), m.tries[id := Try(plan, Start(plan), past, Attempt(password, adminPassword, []))])
    case Called(id, fate) =>
      if id !in m.tries then m
      else
        var r := m.tries[id];
        var s := Next(r.plan, State(m.world, r.proc), fate);
        Cluster(s.world, m.tries[id := r.(proc := s.proc, current := r.current.(fates := r.current.fates + [fate]))])
  }

  ghost function Play(w: World, plans: map<TenantId, Plan>, acts: seq<Act>): Cluster {
    if acts == [] then Cluster(w, map[])
    else Do(plans, Play(w, plans, acts[..|acts| - 1]), acts[|acts| - 1])
  }

  // ---- Names do not change ----

  predicate SameTenant(pl: Plan, plan: Plan) {
    && plan.id == pl.id && plan.code == pl.code && plan.email == pl.email && plan.DbName() == pl.DbName()
    && plan.identifier == pl.identifier
  }

  /** The row carries the plan's names, or is still unnamed. */
  predicate Named(pl: Plan, x: Slice) {
    x.row.Some? ==> x.row.value.dbName in {pl.storedDbName, pl.DbName()} && x.row.value.identifier == pl.code
  }

  lemma SameSlice(w: World, pl: Plan, plan: Plan)
    requires SameTenant(pl, plan)
    ensures plan.Role() == pl.Role() && plan.Host() == pl.Host()
    ensures SliceOf(w, plan) == SliceOf(w, pl) && (Unclaimed(w, plan) <==> Unclaimed(w, pl))
  {
  }

  lemma LoadedIsSame(pl: Plan, x: Slice, row: TenantRow, password: string, adminPassword: string)
    requires x.row == Some(row) && Named(pl, x) && pl.identifier == pl.code
    ensures SameTenant(pl, Loaded(pl, row, password, adminPassword))
    ensures forall fates ::
              PlanFor(pl, x, Attempt(password, adminPassword, fates)) == Loaded(pl, row, password, adminPassword)
  {
  }

  lemma EffectKeepsNames(pl: Plan, plan: Plan, x: Slice, e: Effect)
    requires Named(pl, x) && SameTenant(pl, plan) && Owned(plan, e)
    ensures Named(pl, PerformLocal(plan, x, e).slice)
  {
    hide WithoutTenant, HasPrimary, Plan.Role, Plan.Host, Plan.DbName;
  }

  lemma CallKeepsNames(pl: Plan, plan: Plan, s: Local, f: Fate)
    requires Named(pl, s.slice) && SameTenant(pl, plan) && s.proc.identifier == plan.code
    ensures Named(pl, NextLocal(plan, s, f).slice)
  {
    if !Halted(s.proc) {
      RunOwnsItsEffects(plan, s.proc);
      EffectKeepsNames(pl, plan, s.slice, EffectOf(plan, s.proc));
    }
    hide PerformLocal, EffectOf, Resume, Owned, SameTenant, Named;
  }

  // ---- The invariant ----

  ghost predicate NamesKept(w: World, plans: map<TenantId, Plan>) {
    forall t :: t in plans ==> Named(plans[t], SliceOf(w, plans[t]))
  }

  /** Every try belongs to its tenant. */
  ghost predicate TriesFit(plans: map<TenantId, Plan>, tries: map<TenantId, Try>) {
    tries.Keys <= plans.Keys && forall t :: t in tries ==> Fits(plans[t], tries[t])
  }

  predicate Fits(pl: Plan, r: Try) {
    SameTenant(pl, r.plan) && r.proc.identifier == pl.code
  }

  /** The tables are as every run wants them. */
  ghost predicate Calm(plans: map<TenantId, Plan>, m: Cluster) {
    NamesFree(m.world, plans) && NamesKept(m.world, plans) && TriesFit(plans, m.tries)
  }

  /** An email that is not another tenant's stays so. */
  ghost predicate SameEmails(w: World, v: World, pl: Plan) {
    forall other: Plan :: other.id != pl.id && EmailNotOf(w, pl, other) ==> EmailNotOf(v, pl, other)
  }

  /** The tenant's slice, its latest plan and its latest run are those of its own history. */
  ghost predicate InHistory(x: Slice, pl: Plan, y: Slice, r: Try) {
    var before := History(x, pl, r.past);
    r.plan == PlanFor(pl, before, r.current) && Local(y, r.proc) == Attempted(before, pl, r.current)
  }

  ghost predicate OnItsOwn(w: World, plans: map<TenantId, Plan>, m: Cluster, t: TenantId)
    requires t in plans
  {
    var x, y := SliceOf(w, plans[t]), SliceOf(m.world, plans[t]);
    if t in m.tries then InHistory(x, plans[t], y, m.tries[t]) else y == x
  }

  // ---- Pressing ----

  lemma PressFrames(w: World, id: TenantId, pl: Plan)
    ensures pl.id != id ==> SliceOf(NewJob(w, id), pl) == SliceOf(w, pl)
    ensures pl.id == id ==> SliceOf(NewJob(w, id), pl) == Renew(SliceOf(w, pl))
    ensures Unclaimed(NewJob(w, id), pl) <==> Unclaimed(w, pl)
  {
    hide UsersOf, DomainsOf, Plan.Role, Plan.Host, Plan.DbName, DbNameTaken, IdentifierTaken;
  }

  lemma PressKeepsTables(w: World, plans: map<TenantId, Plan>, id: TenantId)
    requires Separate(plans) && NamesFree(w, plans) && NamesKept(w, plans) && id in plans
    ensures NamesFree(NewJob(w, id), plans) && NamesKept(NewJob(w, id), plans)
  {
    var v := NewJob(w, id);
    forall t | t in plans ensures Unclaimed(v, plans[t]) && Named(plans[t], SliceOf(v, plans[t])) {
      PressFrames(w, id, plans[t]);
    }
    assert v.users == w.users;
    hide SliceOf, Unclaimed, Distinct, NewJob;
  }

  lemma PressFits(plans: map<TenantId, Plan>, m: Cluster, a: Act)
    requires Separate(plans) && NamesKept(m.world, plans) && a.Press? && MayPress(plans, m, a.id)
    ensures a.id in Do(plans, m, a).tries && Fits(plans[a.id], Do(plans, m, a).tries[a.id])
  {
    var pl := plans[a.id];
    assert SliceOf(m.world, pl).row == Some(m.world.tenants[a.id]);
    hide SliceOf, SameTenant, Loaded, Distinct, NewJob;
    LoadedIsSame(pl, SliceOf(m.world, pl), m.world.tenants[a.id], a.password, a.adminPassword);
    StartsNamed(Loaded(pl, m.world.tenants[a.id], a.password, a.adminPassword), pl);
  }

  lemma PressKeepsCalm(plans: map<TenantId, Plan>, m: Cluster, a: Act)
    requires Separate(plans) && Calm(plans, m) && a.Press? && MayPress(plans, m, a.id)
    ensures Calm(plans, Do(plans, m, a))
  {
    hide NamesFree, NamesKept, Fits, Distinct, NewJob, Loaded;
    PressFits(plans, m, a);
    PressKeepsTables(m.world, plans, a.id);
  }

  lemma StartsNamed(plan: Plan, pl: Plan)
    requires SameTenant(pl, plan)
    ensures Start(plan).identifier == pl.identifier
  {
  }

  lemma PressExtendsHistory(w: World, plans: map<TenantId, Plan>, m: Cluster, a: Act)
    requires Separate(plans) && Calm(plans, m) && a.Press? && MayPress(plans, m, a.id)
    requires OnItsOwn(w, plans, m, a.id)
    ensures OnItsOwn(w, plans, Do(plans, m, a), a.id)
  {
    var pl, q := plans[a.id], Do(plans, m, a);
    var x, y := SliceOf(w, pl), SliceOf(m.world, pl);
    LoadedIsSame(pl, y, m.world.tenants[a.id], a.password, a.adminPassword);
    PressFrames(m.world, a.id, pl);
    var r := q.tries[a.id];
    if a.id in m.tries {
      HistorySnoc(x, pl, m.tries[a.id].past, m.tries[a.id].current);
    }
    assert History(x, pl, r.past) == y;
    FirstState(pl, y, r.current);
    hide SliceOf, History, Attempted, PlanFor, Loaded;
  }

  lemma HistorySnoc(x: Slice, pl: Plan, past: seq<Attempt>, current: Attempt)
    ensures History(x, pl, past + [current]) == Attempted(History(x, pl, past), pl, current).slice
  {
    assert (past + [current])[..|past|] == past;
    hide Attempted;
  }

  lemma FirstState(pl: Plan, x: Slice, a: Attempt)
    requires a.fates == []
    ensures Attempted(x, pl, a) == Local(Renew(x), Start(PlanFor(pl, x, a)))
  {
  }

  // ---- Calling ----

  lemma CallMovesOwn(w: World, plans: map<TenantId, Plan>, m: Cluster, a: Act)
    requires Separate(plans) && Calm(plans, m) && a.Called? && a.id in m.tries && OnItsOwn(w, plans, m, a.id)
    ensures var q := Do(plans, m, a);
            && OnItsOwn(w, plans, q, a.id)
            && Unclaimed(q.world, plans[a.id]) && Named(plans[a.id], SliceOf(q.world, plans[a.id]))
            && q.tries[a.id].proc.identifier == plans[a.id].code
            && SameEmails(m.world, q.world, plans[a.id])
  {
    var pl, r, q := plans[a.id], m.tries[a.id], Do(plans, m, a);
    SameSlice(m.world, pl, r.plan);
    SameSlice(q.world, pl, r.plan);
    hide Next, NextLocal, SliceOf, Unclaimed, EmailNotOf, History, PlanFor, Distinct, Named;
    OwnTick(m.world, r.plan, r.proc, a.fate);
    CallKeepsNames(pl, r.plan, Local(SliceOf(m.world, pl), r.proc), a.fate);
    SameEmail(pl, r.plan, m.world, q.world);
    AttemptedSnoc(pl, History(SliceOf(w, pl), pl, r.past), r.current, a.fate);
  }

  lemma SameEmail(pl: Plan, plan: Plan, w: World, v: World)
    requires SameTenant(pl, plan)
    requires SameEmails(w, v, plan)
    ensures SameEmails(w, v, pl)
  {
    forall other: Plan | other.id != pl.id && EmailNotOf(w, pl, other) ensures EmailNotOf(v, pl, other) {
      assert EmailNotOf(w, plan, other);
    }
  }

  lemma AttemptedSnoc(pl: Plan, x: Slice, a: Attempt, f: Fate)
    ensures var b := a.(fates := a.fates + [f]);
            && PlanFor(pl, x, b) == PlanFor(pl, x, a)
            && Attempted(x, pl, b) == NextLocal(PlanFor(pl, x, a), Attempted(x, pl, a), f)
  {
    assert (a.fates + [f])[..|a.fates|] == a.fates;
    hide NextLocal;
  }

  lemma CallFramesOther(plans: map<TenantId, Plan>, m: Cluster, a: Act, t: TenantId)
    requires Separate(plans) && Calm(plans, m) && a.Called? && a.id in m.tries && t in plans && t != a.id
    ensures Framed(m.world, Do(plans, m, a).world, plans[t])
  {
    var r := m.tries[a.id];
    SameSlice(m.world, plans[a.id], r.plan);
    SameDistance(plans[t], plans[a.id], r.plan, m.world);
    hide Next, SliceOf, Unclaimed, EmailNotOf, Distinct, Framed, SameTenant;
    OtherTick(m.world, plans[t], r.plan, r.proc, a.fate);
  }

  lemma SameDistance(pl: Plan, other: Plan, plan: Plan, w: World)
    requires SameTenant(other, plan) && Distinct(pl, other) && EmailNotOf(w, pl, other)
    ensures Distinct(pl, plan) && EmailNotOf(w, pl, plan) && plan.code == other.code
  {
  }

  lemma CallKeepsTenant(w: World, plans: map<TenantId, Plan>, m: Cluster, a: Act, t: TenantId)
    requires Separate(plans) && Calm(plans, m) && a.Called? && a.id in m.tries && OnItsOwn(w, plans, m, a.id)
    requires t in plans
    ensures var v := Do(plans, m, a).world; Unclaimed(v, plans[t]) && Named(plans[t], SliceOf(v, plans[t]))
  {
    hide Do, SliceOf, Unclaimed, EmailNotOf, Distinct, SameTenant, Named, InHistory;
    if t == a.id {
      CallMovesOwn(w, plans, m, a);
    } else {
      CallFramesOther(plans, m, a, t);
    }
  }

  lemma CallKeepsEmails(w: World, plans: map<TenantId, Plan>, m: Cluster, a: Act, t: TenantId, u: TenantId)
    requires Separate(plans) && Calm(plans, m) && a.Called? && a.id in m.tries && OnItsOwn(w, plans, m, a.id)
    requires t in plans && u in plans && t != u
    ensures EmailNotOf(Do(plans, m, a).world, plans[t], plans[u])
  {
    hide Do, SliceOf, Unclaimed, EmailNotOf, Distinct, SameTenant, Named, InHistory, Framed;
    if t == a.id {
      CallMovesOwn(w, plans, m, a);
    } else {
      CallFramesOther(plans, m, a, t);
      FramedKeepsEmail(m.world, Do(plans, m, a).world, plans[t], plans[u]);
    }
  }

  lemma CallKeepsFit(w: World, plans: map<TenantId, Plan>, m: Cluster, a: Act)
    requires Separate(plans) && Calm(plans, m) && a.Called? && a.id in m.tries && OnItsOwn(w, plans, m, a.id)
    ensures TriesFit(plans, Do(plans, m, a).tries)
  {
    hide Next, NamesFree, NamesKept, SameTenant, OnItsOwn, SameEmails, Named, Unclaimed, Distinct;
    CallMovesOwn(w, plans, m, a);
    assert Fits(plans[a.id], Do(plans, m, a).tries[a.id]);
  }

  lemma CallKeepsCalm(w: World, plans: map<TenantId, Plan>, m: Cluster, a: Act)
    requires Separate(plans) && Calm(plans, m) && a.Called? && a.id in m.tries && OnItsOwn(w, plans, m, a.id)
    ensures Calm(plans, Do(plans, m, a))
  {
    hide Do, SliceOf, Unclaimed, EmailNotOf, Separate, Named, OnItsOwn, TriesFit;
    var q := Do(plans, m, a);
    CallKeepsFit(w, plans, m, a);
    forall t | t in plans ensures Unclaimed(q.world, plans[t]) && Named(plans[t], SliceOf(q.world, plans[t])) {
      CallKeepsTenant(w, plans, m, a, t);
    }
    forall t, u | t in plans && u in plans && t != u ensures EmailNotOf(q.world, plans[t], plans[u]) {
      CallKeepsEmails(w, plans, m, a, t, u);
    }
  }

  // ---- Any cluster ----

  ghost predicate AllOnTheirOwn(w: World, plans: map<TenantId, Plan>, m: Cluster) {
    Calm(plans, m) && forall t :: t in plans ==> OnItsOwn(w, plans, m, t)
  }

  lemma ActKeepsOthers(w: World, plans: map<TenantId, Plan>, m: Cluster, a: Act, t: TenantId)
    requires Separate(plans) && Calm(plans, m) && t in plans && t != a.id && OnItsOwn(w, plans, m, t)
    ensures OnItsOwn(w, plans, Do(plans, m, a), t)
  {
    if a.Press? {
      PressFrames(m.world, a.id, plans[t]);
    } else if a.id in m.tries {
      CallFramesOther(plans, m, a, t);
    }
    hide Next, SliceOf, Unclaimed, InHistory, NewJob;
  }

  lemma ActKeepsAll(w: World, plans: map<TenantId, Plan>, m: Cluster, a: Act)
    requires Separate(plans) && AllOnTheirOwn(w, plans, m)
    ensures AllOnTheirOwn(w, plans, Do(plans, m, a))
  {
    hide OnItsOwn, Calm, Separate;
    if a.id in plans {
      if a.Press? && MayPress(plans, m, a.id) {
        PressKeepsCalm(plans, m, a);
        PressExtendsHistory(w, plans, m, a);
      } else if a.Called? && a.id in m.tries {
        CallKeepsCalm(w, plans, m, a);
        CallMovesOwn(w, plans, m, a);
      }
    } else {
      NoSuchTenant(plans, m, a);
    }
    forall t | t in plans && t != a.id ensures OnItsOwn(w, plans, Do(plans, m, a), t) {
      ActKeepsOthers(w, plans, m, a, t);
    }
  }

  lemma NoSuchTenant(plans: map<TenantId, Plan>, m: Cluster, a: Act)
    requires Calm(plans, m) && a.id !in plans
    ensures Do(plans, m, a) == m
  {
  }

  /** Isolation of histories.  However the attempts of any number of tenants, retries included, are
      started and interleaved, and whatever fails, every tenant's slice of the shared tables and its
      latest run are those of its own history of attempts, made alone one after the other. */
  lemma {:induction false} HistoriesAreAlone(w: World, plans: map<TenantId, Plan>, acts: seq<Act>)
    requires Separate(plans) && NamesFree(w, plans)
    requires NamesKept(w, plans)
    ensures AllOnTheirOwn(w, plans, Play(w, plans, acts))
  {
    if acts != [] {
      hide AllOnTheirOwn, Do, Named, NamesFree;
      HistoriesAreAlone(w, plans, acts[..|acts| - 1]);
      ActKeepsAll(w, plans, Play(w, plans, acts[..|acts| - 1]), acts[|acts| - 1]);
    }
  }

  // ---- What this carries into the shared tables ----

  /** All attempts of a tenant so far, the latest last. */
  function TriesOf(r: Try): seq<Attempt> { r.past + [r.current] }

  lemma SliceIsHistory(w: World, plans: map<TenantId, Plan>, acts: seq<Act>, t: TenantId)
    requires Separate(plans) && NamesFree(w, plans) && NamesKept(w, plans)
    requires t in plans && t in Play(w, plans, acts).tries
    ensures var m, x, pl := Play(w, plans, acts), SliceOf(w, plans[t]), plans[t];
            && SliceOf(m.world, pl) == History(x, pl, TriesOf(m.tries[t]))
            && Local(SliceOf(m.world, pl), m.tries[t].proc) ==
                 Attempted(History(x, pl, m.tries[t].past), pl, m.tries[t].current)
  {
    HistoriesAreAlone(w, plans, acts);
    var m := Play(w, plans, acts);
    HistorySnoc(SliceOf(w, plans[t]), plans[t], m.tries[t].past, m.tries[t].current);
    hide Play, SliceOf, History, Attempted, Calm;
  }

  /** Credential agreement in the shared tables, at every moment: a tenant that started without a role and
      not READY, and whose earlier attempts returned or really dropped the role, has the password of its
      role stored whenever its row says READY, whatever the other tenants' attempts are doing. */
  lemma {:induction false} ReadyCredentialInTables(w: World, plans: map<TenantId, Plan>, acts: seq<Act>, t: TenantId)
    requires Separate(plans) && NamesFree(w, plans) && NamesKept(w, plans)
    requires t in plans && t in Play(w, plans, acts).tries
    requires SliceOf(w, plans[t]).role.None? && NotReady(SliceOf(w, plans[t]))
    requires RolesDropped(SliceOf(w, plans[t]), plans[t], TriesOf(Play(w, plans, acts).tries[t]))
    ensures var v, pl := Play(w, plans, acts).world, plans[t];
            t in v.tenants && v.tenants[t].status == READY ==>
              t in v.credentials && pl.Role() in v.roles && v.credentials[t] == v.roles[pl.Role()]
  {
    SliceIsHistory(w, plans, acts, t);
    var m, pl := Play(w, plans, acts), plans[t];
    ReadyCredentialAgrees(SliceOf(w, pl), pl, TriesOf(m.tries[t]), 0);
    hide Play, History, RolesDropped, UsersOf, DomainsOf, Plan.Role;
  }

  /** Retry convergence in the shared tables: after any clean failures, interleaved with anything, a
      latest attempt that met no fault has left the tenant as its first attempt alone would have. */
  lemma {:induction false} RetryConvergesInTables(
    w: World, plans: map<TenantId, Plan>, acts: seq<Act>, t: TenantId, n: nat)
    requires Separate(plans) && NamesFree(w, plans) && NamesKept(w, plans)
    requires t in plans && t in Play(w, plans, acts).tries
    requires Retriable(SliceOf(w, plans[t]), plans[t], SliceOf(w, plans[t]))
    requires AllCleanly(SliceOf(w, plans[t]), plans[t], Play(w, plans, acts).tries[t].past)
    requires Play(w, plans, acts).tries[t].current.fates == Clean(n) && n >= 30
    ensures var m, x, pl := Play(w, plans, acts), SliceOf(w, plans[t]), plans[t];
            && m.tries[t].proc.pc.Returned?
            && SliceOf(m.world, pl) ==
                 Attempted(x, pl, m.tries[t].current).slice.(audit := History(x, pl, m.tries[t].past).audit)
  {
    SliceIsHistory(w, plans, acts, t);
    var m, pl := Play(w, plans, acts), plans[t];
    RetryConverges(SliceOf(w, pl), pl, m.tries[t].past, m.tries[t].current);
    hide Play, History, AllCleanly, SliceOf, Attempted, Retriable;
  }
}
