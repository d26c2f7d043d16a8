/**
 Many runs at once on the shared tables.  The calls of different tenants' runs may be interleaved in any
 way; each run still ends exactly as if it had been alone.
 */
module Interleaving {
  import opened Options
  import opened Tenants
  import opened Effects
  import opened Saga
  import opened Slices
  import opened Compensation
  import opened Runs

  // ---- Names ----

  lemma SuffixInjective(a: string, b: string, suffix: string)
    requires a + suffix == b + suffix
    ensures a == b
  {
    assert |a| == |b|;
    assert (a + suffix)[..|a|] == a && (b + suffix)[..|b|] == b;
  }

  /** Distinct database names have distinct roles, and distinct codes distinct hostnames. */
  lemma NamesInjective(pl: Plan, other: Plan)
    ensures pl.Role() == other.Role() ==> pl.DbName() == other.DbName()
    ensures pl.Host() == other.Host() ==> pl.code == other.code
  {
    if pl.Role() == other.Role() {
      SuffixInjective(pl.DbName(), other.DbName(), "_role");
    }
    if pl.Host() == other.Host() {
      var suffix := "." + BASE_DOMAIN;
      assert pl.Host() == pl.code + suffix && other.Host() == other.code + suffix;
      SuffixInjective(pl.code, other.code, suffix);
    }
  }

  /** What the unique columns give two tenants, and distinct contact emails. */
  predicate Distinct(pl: Plan, other: Plan) {
    pl.id != other.id && pl.DbName() != other.DbName() && pl.code != other.code && pl.email != other.email
  }

  /** e names only what belongs to pl. */
  predicate Owned(pl: Plan, e: Effect) {
    match e
    case SaveStatus(id, _) => id == pl.id
    case SaveDbName(id, dbName) => id == pl.id && dbName == pl.DbName()
    case SaveConnection(id, _, _) => id == pl.id
    case SaveIdentifier(id, identifier) => id == pl.id && identifier == pl.code
    case SaveActivation(id) => id == pl.id
    case SaveJobStep(id, _) => id == pl.id
    case SaveJob(id, _) => id == pl.id
    case Connect => true
    case SelectRole(role) => role == pl.Role()
    case CreateRole(role, _) => role == pl.Role()
    case SelectDatabase(dbName) => dbName == pl.DbName()
    case CreateDatabase(dbName, owner) => dbName == pl.DbName() && owner == pl.Role()
    case Grant(dbName, role) => dbName == pl.DbName() && role == pl.Role()
    case DropDatabase(dbName) => dbName == pl.DbName()
    case DropRole(role) => role == pl.Role()
    case FetchCredential(id) => id == pl.id
    case SaveCredential(id, _) => id == pl.id
    case CreateFineractTenant(identifier, _, _) => identifier == pl.code
    case CreateFineractUser(identifier, _, _) => identifier == pl.code
    case DeleteFineractTenant(identifier) => identifier == pl.code
    case CreateUser(email, id, _) => email == pl.email && id == pl.id
    case DeleteUsers(id) => id == pl.id
    case QueueEmail => true
    case CreateDomain(hostname, id) => hostname == pl.Host() && id == pl.id
    case WriteAudit(id, _) => id == pl.id
  }

  lemma RunOwnsItsEffects(pl: Plan, p: Proc)
    requires !Halted(p) && p.identifier == pl.code
    ensures Owned(pl, EffectOf(pl, p))
  {
  }

  lemma IdentifierStays(pl: Plan, p: Proc, r: Result)
    requires !Halted(p) && p.identifier == pl.code
    ensures Resume(pl, p, r).identifier == pl.code
  {
    hide Pos;
    match p.pc {
      case SavingTenantFailure => UnwindKeepsIdentifier(p, Rank(p.step));
      case DeletingUsers => UnwindKeepsIdentifier(p, 6);
      case DeletingFineract => UnwindKeepsIdentifier(p, 4);
      case DroppingDatabase(k) => UnwindKeepsIdentifier(p, if k < |ORDER| then k - 1 else -1);
      case DroppingRole(k) => UnwindKeepsIdentifier(p, if k < |ORDER| then k - 1 else -1);
      case _ =>
    }
  }

  lemma UnwindKeepsIdentifier(p: Proc, last: int)
    requires last < |ORDER|
    ensures Unwind(p, last).identifier == p.identifier
    decreases last
  {
    if 0 <= last {
      UnwindKeepsIdentifier(p, last - 1);
    }
  }

  // ---- One effect ----

  /** No other tenant's rows or databases use the names of pl. */
  ghost predicate Unclaimed(w: World, pl: Plan) {
    && !DbNameTaken(w.tenants, pl.id, pl.DbName()) && !IdentifierTaken(w.tenants, pl.id, pl.code)
    && forall d :: d in w.databases && d != pl.DbName() ==>
         w.databases[d].owner != pl.Role() && pl.Role() !in w.databases[d].grantees
  }

  /** The row that holds pl's email, if any, is not one that other's rollback deletes. */
  predicate EmailNotOf(w: World, pl: Plan, other: Plan) {
    pl.email in w.users ==> w.users[pl.email].tenant != Some(other.id)
  }

  ghost predicate Agrees(w: World, pl: Plan, e: Effect) {
    var o, l := Perform(w, e), PerformLocal(pl, SliceOf(w, pl), e);
    SliceOf(o.world, pl) == l.slice && o.result == l.result
  }

  predicate RowEffect(e: Effect) {
    e.SaveStatus? || e.SaveDbName? || e.SaveConnection? || e.SaveIdentifier? || e.SaveActivation?
  }

  predicate RoleEffect(e: Effect) {
    e.SelectRole? || e.CreateRole? || e.DropRole?
  }

  predicate DatabaseEffect(e: Effect) {
    e.SelectDatabase? || e.CreateDatabase? || e.Grant? || e.DropDatabase?
  }

  predicate FineractEffect(e: Effect) {
    e.CreateFineractTenant? || e.CreateFineractUser? || e.DeleteFineractTenant?
  }

  /** Saves in the tables keyed by tenant, and calls that change nothing here. */
  predicate LedgerEffect(e: Effect) {
    || e.SaveJobStep? || e.SaveJob? || e.FetchCredential? || e.SaveCredential? || e.WriteAudit?
    || e.Connect? || e.QueueEmail?
  }

  lemma RowEffectAgrees(w: World, pl: Plan, e: Effect)
    requires Unclaimed(w, pl) && Owned(pl, e) && RowEffect(e)
    ensures Agrees(w, pl, e)
  {
  }

  /** Only pl's own database can keep its role in use. */
  lemma UsedByOwnDatabase(w: World, pl: Plan)
    requires Unclaimed(w, pl)
    ensures var role, dbName := pl.Role(), pl.DbName();
            RoleInUse(w.databases, role) <==>
            dbName in w.databases && (w.databases[dbName].owner == role || role in w.databases[dbName].grantees)
  {
    hide DbNameTaken, IdentifierTaken, Plan.Role, Plan.DbName;
  }

  lemma RolesSlice(w: World, roles: map<string, string>, pl: Plan)
    ensures SliceOf(w.(roles := roles), pl) == SliceOf(w, pl).(role := Get(roles, pl.Role()))
  {
    hide UsersOf, DomainsOf, Plan.Host, Plan.Role, Plan.DbName, Get;
  }

  lemma DropRoleAgrees(w: World, pl: Plan)
    requires Unclaimed(w, pl)
    ensures Agrees(w, pl, DropRole(pl.Role()))
  {
    hide UsersOf, DomainsOf, Plan.Host, Plan.Role, Plan.DbName, HasPrimary, WithoutTenant, RoleInUse, Unclaimed;
    UsedByOwnDatabase(w, pl);
    var role, x := pl.Role(), SliceOf(w, pl);
    assert x.database == Get(w.databases, pl.DbName()) && x.role == Get(w.roles, role);
    RolesSlice(w, w.roles - {role}, pl);
    hide SliceOf;
  }

  lemma RoleEffectAgrees(w: World, pl: Plan, e: Effect)
    requires Unclaimed(w, pl) && Owned(pl, e) && RoleEffect(e)
    ensures Agrees(w, pl, e)
  {
    hide UsersOf, DomainsOf, Plan.Host, Plan.Role, Plan.DbName;
    hide DbNameTaken, IdentifierTaken, RoleInUse, HasPrimary, WithoutTenant;
    if e.DropRole? {
      DropRoleAgrees(w, pl);
    }
  }

  lemma GrantAgrees(w: World, pl: Plan)
    ensures Agrees(w, pl, Grant(pl.DbName(), pl.Role()))
  {
    hide UsersOf, DomainsOf, Plan.Host, Plan.Role, Plan.DbName;
    hide DbNameTaken, IdentifierTaken, RoleInUse, HasPrimary, WithoutTenant;
  }

  lemma DatabaseEffectAgrees(w: World, pl: Plan, e: Effect)
    requires Owned(pl, e) && DatabaseEffect(e)
    ensures Agrees(w, pl, e)
  {
    hide UsersOf, DomainsOf, Plan.Host, Plan.Role, Plan.DbName;
    hide DbNameTaken, IdentifierTaken, RoleInUse, HasPrimary, WithoutTenant;
    if e.Grant? {
      GrantAgrees(w, pl);
    }
  }

  lemma FineractUserAgrees(w: World, pl: Plan, email: string, password: string)
    ensures Agrees(w, pl, CreateFineractUser(pl.code, email, password))
  {
    hide UsersOf, DomainsOf, Plan.Host, Plan.Role, Plan.DbName;
    hide DbNameTaken, IdentifierTaken, RoleInUse, HasPrimary, WithoutTenant;
  }

  lemma FineractEffectAgrees(w: World, pl: Plan, e: Effect)
    requires Owned(pl, e) && FineractEffect(e)
    ensures Agrees(w, pl, e)
  {
    hide UsersOf, DomainsOf, Plan.Host, Plan.Role, Plan.DbName;
    hide DbNameTaken, IdentifierTaken, RoleInUse, HasPrimary, WithoutTenant;
    if e.CreateFineractUser? {
      FineractUserAgrees(w, pl, e.email, e.password);
    }
  }

  lemma JobEffectAgrees(w: World, pl: Plan, e: Effect)
    requires Owned(pl, e) && (e.SaveJobStep? || e.SaveJob? || e.Connect? || e.QueueEmail?)
    ensures Agrees(w, pl, e)
  {
    hide UsersOf, DomainsOf, Plan.Host, Plan.Role, Plan.DbName;
    hide DbNameTaken, IdentifierTaken, RoleInUse, HasPrimary, WithoutTenant;
  }

  lemma CredentialEffectAgrees(w: World, pl: Plan, e: Effect)
    requires Owned(pl, e) && (e.FetchCredential? || e.SaveCredential?)
    ensures Agrees(w, pl, e)
  {
    hide UsersOf, DomainsOf, Plan.Host, Plan.Role, Plan.DbName;
    hide DbNameTaken, IdentifierTaken, RoleInUse, HasPrimary, WithoutTenant;
  }

  lemma AuditEffectAgrees(w: World, pl: Plan, e: Effect)
    requires Owned(pl, e) && (e.WriteAudit?)
    ensures Agrees(w, pl, e)
  {
    hide UsersOf, DomainsOf, Plan.Host, Plan.Role, Plan.DbName;
    hide DbNameTaken, IdentifierTaken, RoleInUse, HasPrimary, WithoutTenant;
  }

  lemma CreateUserAgrees(w: World, pl: Plan, e: Effect)
    requires Owned(pl, e) && e.CreateUser?
    ensures Agrees(w, pl, e)
  {
    var row := UserRow(Some(pl.id), e.password, CEO);
    assert UsersOf(w.users[pl.email := row], pl.id, pl.email) == UsersOf(w.users, pl.id, pl.email)[pl.email := row];
    assert pl.email in w.users <==> pl.email in UsersOf(w.users, pl.id, pl.email);
    hide UsersOf, DomainsOf;
  }

  lemma DeleteUsersAgrees(w: World, pl: Plan, e: Effect)
    requires Owned(pl, e) && e.DeleteUsers?
    ensures Agrees(w, pl, e)
  {
    assert UsersOf(WithoutTenant(w.users, pl.id), pl.id, pl.email)
         == WithoutTenant(UsersOf(w.users, pl.id, pl.email), pl.id);
    hide UsersOf, DomainsOf, WithoutTenant;
  }

  lemma CreateDomainAgrees(w: World, pl: Plan, e: Effect)
    requires Owned(pl, e) && e.CreateDomain?
    ensures Agrees(w, pl, e)
  {
    var host, row, mine := pl.Host(), DomainRow(pl.id, true), DomainsOf(w.domains, pl.id, pl.Host());
    assert DomainsOf(w.domains[host := row], pl.id, host) == mine[host := row];
    assert host in w.domains <==> host in mine;
    assert HasPrimary(w.domains, pl.id) <==> HasPrimary(mine, pl.id) by {
      if HasPrimary(w.domains, pl.id) {
        var h :| h in w.domains && w.domains[h].tenant == pl.id && w.domains[h].isPrimary;
        assert h in mine;
      }
    }
    hide HasPrimary, UsersOf, DomainsOf;
  }

  /** An effect of pl's own run does to the shared world what PerformLocal says on its slice. */
  lemma {:induction false} OwnEffectAgrees(w: World, pl: Plan, e: Effect)
    requires Unclaimed(w, pl) && Owned(pl, e)
    ensures Agrees(w, pl, e)
  {
    hide Agrees, Unclaimed;
    if RowEffect(e) {
      RowEffectAgrees(w, pl, e);
    } else if RoleEffect(e) {
      RoleEffectAgrees(w, pl, e);
    } else if DatabaseEffect(e) {
      DatabaseEffectAgrees(w, pl, e);
    } else if FineractEffect(e) {
      FineractEffectAgrees(w, pl, e);
    } else if e.CreateUser? {
      CreateUserAgrees(w, pl, e);
    } else if e.DeleteUsers? {
      DeleteUsersAgrees(w, pl, e);
    } else if e.CreateDomain? {
      CreateDomainAgrees(w, pl, e);
    } else if e.FetchCredential? || e.SaveCredential? {
      CredentialEffectAgrees(w, pl, e);
    } else if e.WriteAudit? {
      AuditEffectAgrees(w, pl, e);
    } else {
      JobEffectAgrees(w, pl, e);
    }
  }

  /** An effect of pl's own run keeps the conditions it runs under, and those of every other run. */
  lemma OwnEffectKeeps(w: World, pl: Plan, e: Effect)
    requires Unclaimed(w, pl) && Owned(pl, e)
    ensures Unclaimed(Perform(w, e).world, pl)
    ensures forall other: Plan :: other.id != pl.id && EmailNotOf(w, pl, other)
              ==> EmailNotOf(Perform(w, e).world, pl, other)
  {
  }

  /** w and v look the same to pl, and pl's names are still its own. */
  ghost predicate Framed(w: World, v: World, pl: Plan) {
    SliceOf(v, pl) == SliceOf(w, pl) && (Unclaimed(w, pl) ==> Unclaimed(v, pl))
  }

  lemma OtherRowEffectFrames(w: World, pl: Plan, other: Plan, e: Effect)
    requires Distinct(pl, other) && Owned(other, e) && RowEffect(e)
    ensures Framed(w, Perform(w, e).world, pl)
  {
  }

  lemma RolesFrame(w: World, roles: map<string, string>, pl: Plan)
    requires Get(roles, pl.Role()) == Get(w.roles, pl.Role())
    ensures Framed(w, w.(roles := roles), pl)
  {
    hide DbNameTaken, IdentifierTaken, UsersOf, DomainsOf, Plan.Host, Plan.Role, Plan.DbName, Get;
  }

  lemma OtherRoleEffectFrames(w: World, pl: Plan, other: Plan, e: Effect)
    requires Distinct(pl, other) && Owned(other, e) && RoleEffect(e)
    ensures Framed(w, Perform(w, e).world, pl)
  {
    hide DbNameTaken, IdentifierTaken, RoleInUse, HasPrimary, WithoutTenant, SliceOf, Framed;
    hide RoleName, Plan.Role, Plan.DbName, Plan.Host;
    NamesInjective(pl, other);
    RolesFrame(w, Perform(w, e).world.roles, pl);
  }

  lemma OtherDatabaseEffectFrames(w: World, pl: Plan, other: Plan, e: Effect)
    requires Distinct(pl, other) && Owned(other, e) && DatabaseEffect(e)
    ensures Framed(w, Perform(w, e).world, pl)
  {
    hide DbNameTaken, IdentifierTaken, RoleInUse, UsersOf, DomainsOf, HasPrimary, WithoutTenant;
    hide RoleName, Plan.Role, Plan.DbName, Plan.Host;
    NamesInjective(pl, other);
  }

  lemma OtherUserRows(users: map<string, UserRow>, pl: Plan, other: Plan, row: UserRow)
    requires Distinct(pl, other) && (pl.email in users ==> users[pl.email].tenant != Some(other.id))
    requires row.tenant == Some(other.id)
    ensures UsersOf(WithoutTenant(users, other.id), pl.id, pl.email) == UsersOf(users, pl.id, pl.email)
    ensures other.email !in users ==>
              UsersOf(users[other.email := row], pl.id, pl.email) == UsersOf(users, pl.id, pl.email)
  {
    hide Plan.DbName;
  }

  lemma UsersFrame(w: World, users: map<string, UserRow>, pl: Plan)
    requires UsersOf(users, pl.id, pl.email) == UsersOf(w.users, pl.id, pl.email)
    ensures Framed(w, w.(users := users), pl)
  {
    hide DbNameTaken, IdentifierTaken, UsersOf, DomainsOf, Plan.Host, Plan.Role, Plan.DbName, Get;
  }

  lemma OtherUserEffectFrames(w: World, pl: Plan, other: Plan, e: Effect)
    requires Distinct(pl, other) && EmailNotOf(w, pl, other) && Owned(other, e) && (e.CreateUser? || e.DeleteUsers?)
    ensures Framed(w, Perform(w, e).world, pl)
  {
    hide Plan.Role, Plan.DbName, Plan.Host, UsersOf, DomainsOf, SliceOf, Framed;
    hide DbNameTaken, IdentifierTaken, RoleInUse, HasPrimary, WithoutTenant;
    OtherUserRows(w.users, pl, other, UserRow(Some(other.id), if e.CreateUser? then e.password else "", CEO));
    UsersFrame(w, Perform(w, e).world.users, pl);
  }

  lemma OtherDomainRows(domains: map<string, DomainRow>, pl: Plan, other: Plan)
    requires Distinct(pl, other)
    ensures var added := domains[other.Host() := DomainRow(other.id, true)];
            other.Host() !in domains ==> DomainsOf(added, pl.id, pl.Host()) == DomainsOf(domains, pl.id, pl.Host())
  {
    hide Plan.Role, Plan.DbName, Plan.Host;
    NamesInjective(pl, other);
  }

  lemma DomainsFrame(w: World, domains: map<string, DomainRow>, pl: Plan)
    requires DomainsOf(domains, pl.id, pl.Host()) == DomainsOf(w.domains, pl.id, pl.Host())
    ensures Framed(w, w.(domains := domains), pl)
  {
    hide DbNameTaken, IdentifierTaken, UsersOf, DomainsOf, Plan.Host, Plan.Role, Plan.DbName, Get;
  }

  lemma OtherDomainEffectFrames(w: World, pl: Plan, other: Plan, e: Effect)
    requires Distinct(pl, other) && Owned(other, e) && e.CreateDomain?
    ensures Framed(w, Perform(w, e).world, pl)
  {
    hide Plan.Role, Plan.DbName, Plan.Host, UsersOf, DomainsOf, SliceOf, Framed;
    hide DbNameTaken, IdentifierTaken, RoleInUse, HasPrimary, WithoutTenant;
    OtherDomainRows(w.domains, pl, other);
    DomainsFrame(w, Perform(w, e).world.domains, pl);
  }

  lemma FineractFrame(w: World, fineract: map<string, FineractTenant>, pl: Plan)
    requires Get(fineract, pl.code) == Get(w.fineract, pl.code)
    ensures Framed(w, w.(fineract := fineract), pl)
  {
    hide DbNameTaken, IdentifierTaken, UsersOf, DomainsOf, Plan.Host, Plan.Role, Plan.DbName, Get;
  }

  lemma OtherFineractEffectFrames(w: World, pl: Plan, other: Plan, e: Effect)
    requires Distinct(pl, other) && Owned(other, e) && FineractEffect(e)
    ensures Framed(w, Perform(w, e).world, pl)
  {
    hide Plan.Role, Plan.DbName, Plan.Host, UsersOf, DomainsOf, SliceOf, Framed;
    hide DbNameTaken, IdentifierTaken, RoleInUse, HasPrimary, WithoutTenant;
    FineractFrame(w, Perform(w, e).world.fineract, pl);
  }

  lemma LedgerFrame(
    w: World, jobs: map<TenantId, JobRow>, credentials: map<TenantId, string>,
    audit: map<TenantId, seq<Step>>, pl: Plan)
    requires Get(jobs, pl.id) == Get(w.jobs, pl.id) && Get(credentials, pl.id) == Get(w.credentials, pl.id)
    requires Get(audit, pl.id) == Get(w.audit, pl.id)
    ensures Framed(w, w.(jobs := jobs, credentials := credentials, audit := audit), pl)
  {
    hide DbNameTaken, IdentifierTaken, UsersOf, DomainsOf, Plan.Host, Plan.Role, Plan.DbName;
  }

  lemma OtherLedgerEffectFrames(w: World, pl: Plan, other: Plan, e: Effect)
    requires Distinct(pl, other) && Owned(other, e) && LedgerEffect(e)
    ensures Framed(w, Perform(w, e).world, pl)
  {
    hide Plan.Role, Plan.DbName, Plan.Host, UsersOf, DomainsOf, SliceOf, Framed;
    hide DbNameTaken, IdentifierTaken, RoleInUse, HasPrimary, WithoutTenant;
    var v := Perform(w, e).world;
    LedgerFrame(w, v.jobs, v.credentials, v.audit, pl);
  }

  /** No effect of another tenant's run, handlers included, touches the slice of pl. */
  lemma {:induction false} OtherEffectFrames(w: World, pl: Plan, other: Plan, e: Effect)
    requires Distinct(pl, other) && EmailNotOf(w, pl, other) && Owned(other, e)
    ensures Framed(w, Perform(w, e).world, pl)
  {
    hide Framed, Perform, Owned;
    if RowEffect(e) {
      OtherRowEffectFrames(w, pl, other, e);
    } else if RoleEffect(e) {
      OtherRoleEffectFrames(w, pl, other, e);
    } else if DatabaseEffect(e) {
      OtherDatabaseEffectFrames(w, pl, other, e);
    } else if e.CreateUser? || e.DeleteUsers? {
      OtherUserEffectFrames(w, pl, other, e);
    } else if e.CreateDomain? {
      OtherDomainEffectFrames(w, pl, other, e);
    } else if FineractEffect(e) {
      OtherFineractEffectFrames(w, pl, other, e);
    } else {
      OtherLedgerEffectFrames(w, pl, other, e);
    }
  }

  // ---- Any number of runs ----

  datatype Machine = Machine(world: World, procs: map<TenantId, Proc>)
  datatype Event = Event(id: TenantId, fate: Fate)

  /** One call of one of the runs. */
  ghost function Tick(plans: map<TenantId, Plan>, m: Machine, ev: Event): Machine {
    if ev.id !in plans || ev.id !in m.procs then m
    else
      var s := Next(plans[ev.id], State(m.world, m.procs[ev.id]), ev.fate);
      Machine(s.world, m.procs[ev.id := s.proc])
  }

  ghost function Interleave(w: World, plans: map<TenantId, Plan>, events: seq<Event>): Machine {
    if events == [] then Machine(w, map t | t in plans :: Start(plans[t]))
    else Tick(plans, Interleave(w, plans, events[..|events| - 1]), events[|events| - 1])
  }

  /** The fates that fell to one tenant. */
  function FatesOf(events: seq<Event>, t: TenantId): seq<Fate> {
    if events == [] then []
    else
      var before, last := FatesOf(events[..|events| - 1], t), events[|events| - 1];
      if last.id == t then before + [last.fate] else before
  }

  predicate Separate(plans: map<TenantId, Plan>) {
    && (forall t :: t in plans ==> plans[t].id == t && plans[t].identifier == plans[t].code)
    && forall t, u :: t in plans && u in plans && t != u ==> Distinct(plans[t], plans[u])
  }

  ghost predicate NamesFree(w: World, plans: map<TenantId, Plan>) {
    && (forall t :: t in plans ==> Unclaimed(w, plans[t]))
    && forall t, u :: t in plans && u in plans && t != u ==> EmailNotOf(w, plans[t], plans[u])
  }

  /** A call is its Effect, or nothing. */
  lemma ApplyIsPerformOrNothing(w: World, pl: Plan, e: Effect, f: Fate)
    requires Agrees(w, pl, e)
    ensures Apply(w, e, f).world in {w, Perform(w, e).world}
    ensures Apply(w, e, f).result == ApplyLocal(pl, SliceOf(w, pl), e, f).result
    ensures SliceOf(Apply(w, e, f).world, pl) == ApplyLocal(pl, SliceOf(w, pl), e, f).slice
  {
    hide Perform, PerformLocal, SliceOf;
  }

  /** The run whose turn it is moves as it would move alone. */
  lemma {:induction false} OwnTick(w: World, pl: Plan, p: Proc, f: Fate)
    requires Unclaimed(w, pl) && p.identifier == pl.code
    ensures var s, l := Next(pl, State(w, p), f), NextLocal(pl, Local(SliceOf(w, pl), p), f);
            && SliceOf(s.world, pl) == l.slice && s.proc == l.proc
            && Unclaimed(s.world, pl) && s.proc.identifier == pl.code
            && (forall other: Plan :: other.id != pl.id && EmailNotOf(w, pl, other) ==> EmailNotOf(s.world, pl, other))
  {
    hide Perform, PerformLocal, SliceOf, EffectOf, Resume, Owned, Unclaimed, EmailNotOf, Agrees;
    if !Halted(p) {
      var e := EffectOf(pl, p);
      RunOwnsItsEffects(pl, p);
      OwnEffectAgrees(w, pl, e);
      OwnEffectKeeps(w, pl, e);
      ApplyIsPerformOrNothing(w, pl, e, f);
      IdentifierStays(pl, p, Apply(w, e, f).result);
    }
  }

  /** The other runs do not notice. */
  lemma {:induction false} OtherTick(w: World, pl: Plan, other: Plan, p: Proc, f: Fate)
    requires Distinct(pl, other) && EmailNotOf(w, pl, other) && p.identifier == other.code
    requires Unclaimed(w, pl) && Unclaimed(w, other)
    ensures Framed(w, Next(other, State(w, p), f).world, pl)
  {
    if !Halted(p) {
      var e := EffectOf(other, p);
      RunOwnsItsEffects(other, p);
      OtherEffectFrames(w, pl, other, e);
      OwnEffectAgrees(w, other, e);
      ApplyIsPerformOrNothing(w, other, e, f);
    }
    hide Perform, PerformLocal, EffectOf, Resume, SliceOf, Unclaimed;
  }

  lemma FramedKeepsEmail(w: World, v: World, pl: Plan, other: Plan)
    requires Framed(w, v, pl) && EmailNotOf(w, pl, other)
    ensures EmailNotOf(v, pl, other)
  {
    assert SliceOf(w, pl).users == SliceOf(v, pl).users;
    assert pl.email in v.users <==> pl.email in SliceOf(v, pl).users;
    hide Unclaimed, DomainsOf;
  }

  ghost predicate Running(plans: map<TenantId, Plan>, m: Machine) {
    && m.procs.Keys == plans.Keys && NamesFree(m.world, plans)
    && forall t :: t in plans ==> m.procs[t].identifier == plans[t].code
  }

  lemma OthersAreFramed(plans: map<TenantId, Plan>, m: Machine, ev: Event)
    requires Separate(plans) && Running(plans, m) && ev.id in plans
    ensures forall t :: t in plans && t != ev.id ==> Framed(m.world, Tick(plans, m, ev).world, plans[t])
  {
    hide Next, Framed, Unclaimed, EmailNotOf, Distinct;
    forall t | t in plans && t != ev.id
      ensures Framed(m.world, Tick(plans, m, ev).world, plans[t])
    {
      OtherTick(m.world, plans[t], plans[ev.id], m.procs[ev.id], ev.fate);
    }
  }

  lemma NamesStayUnclaimed(plans: map<TenantId, Plan>, m: Machine, ev: Event, t: TenantId)
    requires Separate(plans) && Running(plans, m) && ev.id in plans && t in plans
    ensures Unclaimed(Tick(plans, m, ev).world, plans[t])
  {
    hide Next, NextLocal, SliceOf, Unclaimed, EmailNotOf, Distinct;
    if t == ev.id {
      OwnTick(m.world, plans[t], m.procs[t], ev.fate);
    } else {
      OtherTick(m.world, plans[t], plans[ev.id], m.procs[ev.id], ev.fate);
    }
  }

  lemma EmailsStayApart(plans: map<TenantId, Plan>, m: Machine, ev: Event, t: TenantId, u: TenantId)
    requires Separate(plans) && Running(plans, m) && ev.id in plans && t in plans && u in plans && t != u
    ensures EmailNotOf(Tick(plans, m, ev).world, plans[t], plans[u])
  {
    hide Next, NextLocal, SliceOf, Unclaimed, EmailNotOf, Distinct, Framed;
    if t == ev.id {
      OwnTick(m.world, plans[t], m.procs[t], ev.fate);
    } else {
      OtherTick(m.world, plans[t], plans[ev.id], m.procs[ev.id], ev.fate);
      FramedKeepsEmail(m.world, Tick(plans, m, ev).world, plans[t], plans[u]);
    }
  }

  lemma TickedProcs(plans: map<TenantId, Plan>, m: Machine, ev: Event)
    requires Separate(plans) && Running(plans, m) && ev.id in plans
    ensures var q := Tick(plans, m, ev);
            q.procs.Keys == plans.Keys && forall t :: t in plans ==> q.procs[t].identifier == plans[t].code
  {
    hide Next, NextLocal, SliceOf, Unclaimed, EmailNotOf, Distinct;
    OwnTick(m.world, plans[ev.id], m.procs[ev.id], ev.fate);
  }

  lemma {:induction false} KeepsRunning(plans: map<TenantId, Plan>, m: Machine, ev: Event)
    requires Separate(plans) && Running(plans, m) && ev.id in plans
    ensures Running(plans, Tick(plans, m, ev))
  {
    hide Tick, Unclaimed, EmailNotOf, Separate;
    var v := Tick(plans, m, ev).world;
    TickedProcs(plans, m, ev);
    forall t | t in plans ensures Unclaimed(v, plans[t]) {
      NamesStayUnclaimed(plans, m, ev, t);
    }
    forall t, u | t in plans && u in plans && t != u ensures EmailNotOf(v, plans[t], plans[u]) {
      EmailsStayApart(plans, m, ev, t, u);
    }
  }

  /** Tenant t's part of the interleaving is what its own run makes of its own slice. */
  ghost predicate Alone(w: World, plans: map<TenantId, Plan>, m: Machine, events: seq<Event>, t: TenantId)
    requires t in plans && t in m.procs
  {
    Local(SliceOf(m.world, plans[t]), m.procs[t]) == ExecLocal(SliceOf(w, plans[t]), plans[t], FatesOf(events, t))
  }

  /** What holds of every run at every moment of an interleaving. */
  ghost predicate AloneSoFar(w: World, plans: map<TenantId, Plan>, events: seq<Event>) {
    var m := Interleave(w, plans, events);
    Running(plans, m) && forall t :: t in plans ==> Alone(w, plans, m, events, t)
  }

  lemma TickKeepsOwn(w: World, plans: map<TenantId, Plan>, m: Machine, events: seq<Event>)
    requires events != [] && events[|events| - 1].id in plans && Separate(plans) && Running(plans, m)
    requires Alone(w, plans, m, events[..|events| - 1], events[|events| - 1].id)
    ensures Alone(w, plans, Tick(plans, m, events[|events| - 1]), events, events[|events| - 1].id)
  {
    var ev := events[|events| - 1];
    hide Next, NextLocal, SliceOf, ExecLocal, FatesOf, Unclaimed, EmailNotOf;
    OwnTick(m.world, plans[ev.id], m.procs[ev.id], ev.fate);
    ExtendsOwn(SliceOf(w, plans[ev.id]), plans[ev.id], events);
  }

  lemma TickKeepsOther(w: World, plans: map<TenantId, Plan>, m: Machine, events: seq<Event>, t: TenantId)
    requires events != [] && Separate(plans) && Running(plans, m)
    requires t in plans && t != events[|events| - 1].id && Alone(w, plans, m, events[..|events| - 1], t)
    ensures Alone(w, plans, Tick(plans, m, events[|events| - 1]), events, t)
  {
    hide Next, SliceOf, ExecLocal, Unclaimed, EmailNotOf;
    if events[|events| - 1].id in plans {
      OthersAreFramed(plans, m, events[|events| - 1]);
    }
  }

  lemma {:induction false} TickKeepsAlone(w: World, plans: map<TenantId, Plan>, events: seq<Event>)
    requires events != [] && Separate(plans) && AloneSoFar(w, plans, events[..|events| - 1])
    ensures AloneSoFar(w, plans, events)
  {
    var m, ev := Interleave(w, plans, events[..|events| - 1]), events[|events| - 1];
    hide Next, NamesFree, Distinct, Alone;
    if ev.id in plans {
      KeepsRunning(plans, m, ev);
      TickKeepsOwn(w, plans, m, events);
    }
    forall t | t in plans && t != ev.id ensures Alone(w, plans, Tick(plans, m, ev), events, t) {
      TickKeepsOther(w, plans, m, events, t);
    }
  }

  lemma ExtendsOwn(x: Slice, pl: Plan, events: seq<Event>)
    requires events != [] && events[|events| - 1].id == pl.id
    ensures var n := |events| - 1;
            ExecLocal(x, pl, FatesOf(events, pl.id)) ==
              NextLocal(pl, ExecLocal(x, pl, FatesOf(events[..n], pl.id)), events[n].fate)
  {
    var n := |events| - 1;
    var before := FatesOf(events[..n], pl.id);
    assert (before + [events[n].fate])[..|before|] == before;
    hide NextLocal;
  }

  /** Isolation.  In any interleaving of the calls of the runs of any number of tenants, faults and
      rollbacks included, every tenant's database, role, users, domains, credential, job, audit trail
      and Fineract tenant, and the state of its run, are those of the same run made alone. */
  lemma {:induction false} InterleavedRunsAreAlone(w: World, plans: map<TenantId, Plan>, events: seq<Event>)
    requires Separate(plans) && NamesFree(w, plans)
    ensures AloneSoFar(w, plans, events)
  {
    if events != [] {
      InterleavedRunsAreAlone(w, plans, events[..|events| - 1]);
      TickKeepsAlone(w, plans, events);
    }
  }

  /** The same for one run made by itself on the shared tables. */
  lemma {:induction false} RunIsOnItsSlice(w: World, pl: Plan, fates: seq<Fate>)
    requires Unclaimed(w, pl) && pl.identifier == pl.code
    ensures var s, l := Exec(w, pl, fates), ExecLocal(SliceOf(w, pl), pl, fates);
            && SliceOf(s.world, pl) == l.slice && s.proc == l.proc
            && Unclaimed(s.world, pl) && s.proc.identifier == pl.code
  {
    if fates != [] {
      var n := |fates| - 1;
      RunIsOnItsSlice(w, pl, fates[..n]);
      var s := Exec(w, pl, fates[..n]);
      OwnTick(s.world, pl, s.proc, fates[n]);
      hide Next, NextLocal, SliceOf, Unclaimed, EmailNotOf;
    }
  }

  /** No role, database, Fineract tenant or user of pl is left in the shared tables. */
  ghost predicate Gone(v: World, pl: Plan) {
    && pl.Role() !in v.roles && pl.DbName() !in v.databases && pl.code !in v.fineract
    && (forall m :: m in v.users ==> v.users[m].tenant != Some(pl.id) && m != pl.email)
  }

  lemma BareMeansGone(v: World, pl: Plan)
    requires Bare(SliceOf(v, pl))
    ensures Gone(v, pl)
  {
    forall m | m in v.users ensures v.users[m].tenant != Some(pl.id) && m != pl.email {
      assert m !in SliceOf(v, pl).users;
    }
  }

  /** Compensation in a crowd: however the other runs are interleaved with it, a tenant's run that
      raised and whose failure path worked has left no resource with a handler in the shared tables,
      and its rows, the surviving domain row and is_active among them, are those of Compensated. */
  lemma {:induction false} InterleavedRunIsCompensated(
    w: World, plans: map<TenantId, Plan>, events: seq<Event>, t: TenantId)
    requires Separate(plans) && NamesFree(w, plans) && t in plans
    requires Fresh(SliceOf(w, plans[t]), plans[t])
    requires QuietRecovery(SliceOf(w, plans[t]), plans[t], FatesOf(events, t))
    requires t in Interleave(w, plans, events).procs && Interleave(w, plans, events).procs[t].pc.Escaped?
    ensures var m, pl, x0, fates := Interleave(w, plans, events), plans[t], SliceOf(w, plans[t]), FatesOf(events, t);
            && Gone(m.world, pl)
            && Compensated(x0, pl, SliceOf(m.world, pl), m.procs[t].step, m.procs[t].failure,
                           DomainWritten(x0, pl, fates), ActivationWritten(x0, pl, fates))
            && StoppedBy(x0, pl, fates, m.procs[t].step, m.procs[t].failure)
  {
    InterleavedRunsAreAlone(w, plans, events);
    hide Interleave, ExecLocal, QuietRecovery, DomainWritten, ActivationWritten, StoppedBy;
    hide NamesFree, Fresh, Gone, Distinct, Bare, SliceOf;
    var x0, pl := SliceOf(w, plans[t]), plans[t];
    FreshHasRow(x0, pl);
    RaisedRunIsCompensated(x0, pl, FatesOf(events, t));
    BareMeansGone(Interleave(w, plans, events).world, pl);
  }
}
