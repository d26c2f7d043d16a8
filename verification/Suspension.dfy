/**
 The login endpoints behind the resolver: what a suspension does to the sessions of a tenant.
 */
module Suspension {
  import opened Options
  import opened Tenants
  import L = Lockout
  import S = Sessions
  import R = Resolver

  const LOGIN_PATH := "/api/v1/auth/login/"
  const REFRESH_PATH := "/api/v1/auth/refresh/"
  const LOGOUT_PATH := "/api/v1/auth/logout-all/"

  datatype System = System(auth: S.Auth, registry: R.Registry)

  /** A request is one step: it is resolved and, if it is let through, served. */
  datatype Event =
    | LogIn(rawHost: string, user: S.UserId, login: L.Login, device: string)
    | Refresh(rawHost: string, token: S.Token, time: int)
    | LogOutAll(rawHost: string, user: S.UserId, time: int)
    | RevokeTenant(tenant: TenantId)
    | Purge(time: int)
    | Change(change: R.Timed)

  /** request.tenant for the view, if the request gets that far. */
  function Scope(response: R.Response): Option<Option<TenantId>> {
    match response
    case PlatformScope => Some(None)
    case Tenant(id) => Some(Some(id))
    case _ => None
  }

  function Serve(adminHosts: set<string>, y: System, path: string, rawHost: string, time: int, ok: S.Event): System {
    var response := R.Respond(y.registry, adminHosts, path, rawHost, time);
    System(if Scope(response).None? then y.auth else S.Do(y.auth, ok).auth,
           R.AfterRequest(y.registry, adminHosts, path, rawHost, time))
  }

  function Next(adminHosts: set<string>, y: System, e: Event): System {
    match e
    case LogIn(rawHost, user, login, device) =>
      var scope := Scope(R.Respond(y.registry, adminHosts, LOGIN_PATH, rawHost, login.time));
      Serve(adminHosts, y, LOGIN_PATH, rawHost, login.time,
            S.LogIn(if scope.Some? then scope.value else None, user, login, device))
    case Refresh(rawHost, token, time) => Serve(adminHosts, y, REFRESH_PATH, rawHost, time, S.Refresh(token, time))
    case LogOutAll(rawHost, user, time) => Serve(adminHosts, y, LOGOUT_PATH, rawHost, time, S.LogOutAll(user))
    case RevokeTenant(tenant) => y.(auth := S.TenantRevoked(y.auth, tenant))
    case Purge(time) => y.(auth := S.Purged(y.auth, time))
    case Change(change) => y.(registry := R.Next(adminHosts, y.registry, change))
  }

  function Run(adminHosts: set<string>, y: System, trace: seq<Event>): System {
    if trace == [] then y else Next(adminHosts, Run(adminHosts, y, trace[..|trace| - 1]), trace[|trace| - 1])
  }

  predicate IsSuspended(y: System, tenant: TenantId) {
    tenant in y.registry.tenants && y.registry.tenants[tenant] == SUSPENDED
  }

  /** No session of a user of the tenant is live. */
  predicate Silenced(y: System, tenant: TenantId) {
    forall h ::
      (&& h in y.auth.sessions && y.auth.sessions[h].user in y.auth.users
       && y.auth.users[y.auth.sessions[h].user].tenant == Some(tenant))
      ==> y.auth.sessions[h].isRevoked
  }

  /** Sessions belong to existing users. */
  predicate UsersExist(y: System) {
    forall h :: h in y.auth.sessions ==> y.auth.sessions[h].user in y.auth.users
  }

  predicate Changes(e: R.Event, tenant: TenantId) {
    e.SetStatus? && e.tenant == tenant
  }

  /** The status of the tenant is not changed in the trace, but for being suspended again. */
  predicate StaysSuspended(trace: seq<Event>, tenant: TenantId) {
    forall i :: 0 <= i < |trace| && trace[i].Change? && Changes(trace[i].change.event, tenant)
      ==> trace[i].change.event.status == SUSPENDED
  }

  /** No event gives a suspended tenant's users a live session: a login is scoped to another tenant or
      to the platform, and a rotation needs a live session to start with. */
  lemma StaysSilenced(adminHosts: set<string>, y: System, e: Event, tenant: TenantId)
    requires IsSuspended(y, tenant) && UsersExist(y) && StaysSuspended([e], tenant)
    ensures IsSuspended(Next(adminHosts, y, e), tenant) && UsersExist(Next(adminHosts, y, e))
    ensures Silenced(y, tenant) ==> Silenced(Next(adminHosts, y, e), tenant)
  {
    assert e == [e][0];
    hide R.Exempt, R.Lookup;
  }

  lemma {:induction false} SuspensionIsFinal(adminHosts: set<string>, y: System, trace: seq<Event>, tenant: TenantId)
    requires IsSuspended(y, tenant) && UsersExist(y) && StaysSuspended(trace, tenant)
    ensures IsSuspended(Run(adminHosts, y, trace), tenant) && UsersExist(Run(adminHosts, y, trace))
    ensures Silenced(y, tenant) ==> Silenced(Run(adminHosts, y, trace), tenant)
  {
    if trace != [] {
      var n := |trace| - 1;
      SuspensionIsFinal(adminHosts, y, trace[..n], tenant);
      StaysSilenced(adminHosts, Run(adminHosts, y, trace[..n]), trace[n], tenant);
    }
  }

  lemma {:induction false} RunConcat(adminHosts: set<string>, y: System, a: seq<Event>, b: seq<Event>)
    ensures Run(adminHosts, y, a + b) == Run(adminHosts, Run(adminHosts, y, a), b)
  {
    if b == [] {
      assert a + b == a;
    } else {
      var n := |b| - 1;
      RunConcat(adminHosts, y, a, b[..n]);
      assert (a + b)[..|a + b| - 1] == a + b[..n];
    }
  }

  /** While a tenant stays suspended, once its sessions have been revoked after the suspension, no
      sequence of logins on any host, rotations, logouts, purges, domain changes or cache losses makes
      a session of one of its users live again. */
  lemma RevokedTenantStaysOut(
    adminHosts: set<string>, y: System, before: seq<Event>, after: seq<Event>, tenant: TenantId)
    requires IsSuspended(y, tenant) && UsersExist(y)
    requires StaysSuspended(before, tenant) && StaysSuspended(after, tenant)
    ensures Silenced(Run(adminHosts, y, before + [RevokeTenant(tenant)] + after), tenant)
  {
    SuspensionIsFinal(adminHosts, y, before, tenant);
    var mid := before + [RevokeTenant(tenant)];
    assert mid[..|mid| - 1] == before;
    var z := Run(adminHosts, y, mid);
    assert z == Next(adminHosts, Run(adminHosts, y, before), RevokeTenant(tenant));
    assert Silenced(z, tenant) && UsersExist(z) && IsSuspended(z, tenant);
    SuspensionIsFinal(adminHosts, z, after, tenant);
    RunConcat(adminHosts, y, mid, after);
  }

  /** Exactly when a login on a host gives a session: the request is let through, on a platform host for
      platform staff and on a READY tenant's host for that tenant's users, and nobody else's. */
  lemma LoginNeedsItsHost(
    adminHosts: set<string>, y: System, rawHost: string, user: S.UserId, l: L.Login, device: string)
    requires S.Sound(y.auth)
    ensures var z, born := Next(adminHosts, y, LogIn(rawHost, user, l, device)), S.Sha256(y.auth.nextToken);
            var response := R.Respond(y.registry, adminHosts, LOGIN_PATH, rawHost, l.time);
            S.Live(z.auth, born) <==>
              && user in y.auth.users
              && (|| (response == R.PlatformScope && y.auth.users[user].tenant == None)
                  || (response.Tenant? && y.auth.users[user].tenant == Some(response.id)))
              && !(y.auth.users[user].lockedUntil.Some? && y.auth.users[user].lockedUntil.value > l.time)
              && l.passwordOk && (y.auth.users[user].mfaEnabled ==> l.mfaOk)
  {
    hide R.Respond, R.AfterRequest;
    assert S.Sha256(y.auth.nextToken) !in y.auth.sessions;
  }

  /** Exactly when a refresh gives a live session: the token's row is live, and the request gets to the
      view, on a platform host or on the host of a tenant that is READY.  Which tenant the session's user
      belongs to does not matter, so until the revocation has run, a suspended tenant's sessions rotate
      on every such host. */
  lemma RefreshRotatesIff(
    adminHosts: set<string>, y: System, rawHost: string, token: S.Token, time: int, tenant: TenantId)
    requires S.Sound(y.auth)
    ensures var z, born := Next(adminHosts, y, Refresh(rawHost, token, time)), S.Sha256(y.auth.nextToken);
            var served := Scope(R.Respond(y.registry, adminHosts, REFRESH_PATH, rawHost, time)).Some?;
            && (S.Live(z.auth, born) <==> S.Live(y.auth, S.Sha256(token)) && served)
            && (S.Live(z.auth, born) ==>
                z.auth.sessions[born].user == y.auth.sessions[S.Sha256(token)].user
                && (S.InTenant(y.auth, z.auth.sessions[born].user, tenant) ==> !Silenced(z, tenant)))
  {
    hide R.Respond, R.AfterRequest;
    assert S.Sha256(y.auth.nextToken) !in y.auth.sessions;
  }

  /** Which hosts those are, for a tenant that is suspended: never its own. */
  lemma OwnHostsRefuse(adminHosts: set<string>, y: System, path: string, rawHost: string, time: int, tenant: TenantId)
    requires IsSuspended(y, tenant) && !R.Exempt(adminHosts, path, rawHost)
    requires R.Lookup(y.registry, R.Hosts.Normalize(rawHost), time) == Some(tenant)
    ensures Scope(R.Respond(y.registry, adminHosts, path, rawHost, time)).None?
  {
    hide R.Exempt, R.Lookup;
  }
}
