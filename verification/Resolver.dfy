/**
 TenantResolverMiddleware and the parts of TenantService and DomainManager that feed it: hosts are looked
 up in the Domain table through a cache of tenant ids, tenant status always in the table.
 */
module Resolver {
  import opened Options
  import opened Tenants
  import opened Windows
  import opened Hosts

  const DOMAIN_CACHE_TTL := 300 * SECOND

  datatype Entry = Entry(tenant: TenantId, expires: int)

  datatype Registry = Registry(domains: map<string, TenantId>, tenants: map<TenantId, Status>,
    cache: map<string, Entry>)

  /** request.tenant, or the error page. */
  datatype Response = PlatformScope | Tenant(id: TenantId) | NotFound | Suspended | NotReady

  predicate StartsWith(s: string, prefix: string) { prefix <= s }

  predicate Exempt(adminHosts: set<string>, path: string, host: string) {
    || StartsWith(path, "/admin/") || StartsWith(path, "/api/v1/health")
    || Normalize(host) in adminHosts || StartsWith(Normalize(host), "admin.")
  }

  /** The tenant id a request for host works with: the cached one if there is one. */
  function Lookup(r: Registry, host: string, now: int): Option<TenantId> {
    if host in r.cache && now < r.cache[host].expires then Some(r.cache[host].tenant)
    else if host in r.domains then Some(r.domains[host])
    else None
  }

  function Verdict(r: Registry, found: Option<TenantId>): Response {
    if found.None? || found.value !in r.tenants then NotFound
    else
      match r.tenants[found.value]
      case SUSPENDED => Suspended
      case READY => Tenant(found.value)
      case _ => NotReady
  }

  /** Only a miss that finds a Domain row writes the cache. */
  function Remember(r: Registry, host: string, now: int): Registry {
    if !(host in r.cache && now < r.cache[host].expires) && host in r.domains
    then r.(cache := r.cache[host := Entry(r.domains[host], now + DOMAIN_CACHE_TTL)])
    else r
  }

  function Respond(r: Registry, adminHosts: set<string>, path: string, rawHost: string, now: int): Response {
    if Exempt(adminHosts, path, rawHost) then PlatformScope else Verdict(r, Lookup(r, Normalize(rawHost), now))
  }

  function AfterRequest(r: Registry, adminHosts: set<string>, path: string, rawHost: string, now: int): Registry {
    if Exempt(adminHosts, path, rawHost) then r else Remember(r, Normalize(rawHost), now)
  }

  /** Every domain row has its tenant. */
  predicate ForeignKeys(r: Registry) {
    forall h :: h in r.domains ==> r.domains[h] in r.tenants
  }

  // ---- What the caller is promised ----

  /** Which requests are in platform scope: those to the admin site and the health check, and those to a
      platform host or to a host that begins with "admin."; nobody else's. */
  lemma PlatformScopeIff(r: Registry, adminHosts: set<string>, path: string, rawHost: string, now: int)
    ensures Respond(r, adminHosts, path, rawHost, now) == PlatformScope <==>
              || "/admin/" <= path || "/api/v1/health" <= path
              || Normalize(rawHost) in adminHosts || "admin." <= Normalize(rawHost)
  {
    hide Normalize;
  }

  /** The answer to every other request, by the tenant its host resolves to, the cached one first. */
  lemma TenantScopeIs(r: Registry, adminHosts: set<string>, path: string, rawHost: string, now: int)
    requires Respond(r, adminHosts, path, rawHost, now) != PlatformScope
    ensures var host := Normalize(rawHost);
            var hit := host in r.cache && now < r.cache[host].expires;
            var response := Respond(r, adminHosts, path, rawHost, now);
            if !hit && host !in r.domains then response == NotFound
            else
              var id := if hit then r.cache[host].tenant else r.domains[host];
              if id !in r.tenants then response == NotFound
              else if r.tenants[id] == SUSPENDED then response == Suspended
              else if r.tenants[id] == READY then response == Tenant(id)
              else response == NotReady
  {
    hide Normalize, Exempt;
  }

  /** What a request writes: a miss that finds its host is remembered for 300 seconds, whatever the
      tenant's status; a hit is not prolonged, and an unknown host not remembered. */
  lemma RequestWrites(r: Registry, adminHosts: set<string>, path: string, rawHost: string, now: int)
    ensures var host := Normalize(rawHost);
            var hit := host in r.cache && now < r.cache[host].expires;
            AfterRequest(r, adminHosts, path, rawHost, now) ==
              if Respond(r, adminHosts, path, rawHost, now) != PlatformScope && !hit && host in r.domains
              then r.(cache := r.cache[host := Entry(r.domains[host], now + 300 * 1_000_000)]) else r
  {
    hide Normalize, Exempt;
  }

  class TenantResolverMiddleware {
    const adminHosts: set<string>
    var domains: map<string, TenantId>
    var tenants: map<TenantId, Status>
    var cache: map<string, Entry>
    // the tenants whose is_active is set; requests do not look at it
    var active: set<TenantId>

    function State(): Registry
      reads this
    {
      Registry(domains, tenants, cache)
    }

    /** The hosts of the settings are normalized as requests are. */
    constructor (platformHosts: set<string>, domains: map<string, TenantId>, tenants: map<TenantId, Status>)
      ensures State() == Registry(domains, tenants, map[]) && active == {}
      ensures adminHosts == set h | h in platformHosts :: Normalize(h)
    {
      adminHosts := set h | h in platformHosts :: Normalize(h);
      this.domains, this.tenants, cache, active := domains, tenants, map[], {};
    }

    method Call(path: string, rawHost: string, now: int) returns (response: Response)
      requires ForeignKeys(State())
      modifies this`cache
      ensures response == Respond(old(State()), adminHosts, path, rawHost, now)
      ensures State() == AfterRequest(old(State()), adminHosts, path, rawHost, now)
      ensures response.Tenant? ==> response.id in tenants && tenants[response.id] == READY
    {
      if StartsWith(path, "/admin/") || StartsWith(path, "/api/v1/health") {
        return PlatformScope;
      }
      var host := Normalize(rawHost);
      if host in adminHosts || StartsWith(host, "admin.") {
        return PlatformScope;
      }
      var tenant: TenantId;
      if !(host in cache && now < cache[host].expires) {
        if host !in domains {
          return NotFound;
        }
        tenant := domains[host];
        cache := cache[host := Entry(tenant, now + DOMAIN_CACHE_TTL)];
      } else {
        tenant := cache[host].tenant;
        if tenant !in tenants {
          return NotFound;
        }
      }
      if tenants[tenant] == SUSPENDED {
        return Suspended;
      }
      if tenants[tenant] != READY {
        return NotReady;
      }
      return Tenant(tenant);
    }

    /** Best effort: the cache may stop answering after any number of deletions. */
    method BustCache(tenant: TenantId, answers: nat)
      modifies this`cache
      ensures cache.Keys <= old(cache).Keys && (forall h :: h in cache ==> cache[h] == old(cache)[h])
      ensures forall h :: h in old(cache) && !(h in domains && domains[h] == tenant) ==> h in cache
      ensures answers >= |HostsOf(domains, tenant)| ==>
                forall h :: h in domains && domains[h] == tenant ==> h !in cache
    {
      var hosts, left := HostsOf(domains, tenant), answers;
      while hosts != {} && left > 0
        invariant cache.Keys <= old(cache).Keys && (forall h :: h in cache ==> cache[h] == old(cache)[h])
        invariant hosts <= HostsOf(domains, tenant)
        invariant forall h :: h in old(cache) && (h !in HostsOf(domains, tenant) || h in hosts) ==> h in cache
        invariant forall h :: h in HostsOf(domains, tenant) && h !in hosts ==> h !in cache
        invariant answers >= |HostsOf(domains, tenant)| ==> left >= |hosts|
        decreases hosts
      {
        var h :| h in hosts;
        cache := cache - {h};
        hosts, left := hosts - {h}, left - 1;
      }
    }

    /** The new status is saved before the cache is touched, and does not depend on it. */
    method Suspend(tenant: TenantId, answers: nat)
      requires tenant in tenants
      modifies this`tenants, this`cache
      ensures tenants == old(tenants)[tenant := SUSPENDED]
      ensures forall h :: h in cache ==> h in old(cache) && cache[h] == old(cache)[h]
    {
      tenants := tenants[tenant := SUSPENDED];
      BustCache(tenant, answers);
    }

    method Activate(tenant: TenantId, answers: nat)
      requires tenant in tenants
      modifies this`tenants, this`active, this`cache
      ensures tenants == old(tenants)[tenant := READY] && active == old(active) + {tenant}
      ensures forall h :: h in cache ==> h in old(cache) && cache[h] == old(cache)[h]
    {
      tenants, active := tenants[tenant := READY], active + {tenant};
      BustCache(tenant, answers);
    }
  }

  function HostsOf(domains: map<string, TenantId>, tenant: TenantId): set<string> {
    set h | h in domains && domains[h] == tenant
  }

  // ---- Traces ----

  datatype Event =
    | Visit(path: string, rawHost: string)
    | InsertDomain(host: string, tenant: TenantId)
    | MoveDomain(host: string, tenant: TenantId)
    | DeleteDomain(host: string)
    | SetStatus(tenant: TenantId, status: Status)
    | Evict(hosts: set<string>)

  datatype Timed = Timed(time: int, event: Event)

  /** Inserts respect the unique hostname and the foreign key; Evict is a bust, a restart or a loss. */
  function Next(adminHosts: set<string>, r: Registry, ev: Timed): Registry {
    match ev.event
    case Visit(path, rawHost) => AfterRequest(r, adminHosts, path, rawHost, ev.time)
    case InsertDomain(host, tenant) =>
      if host in r.domains || tenant !in r.tenants then r else r.(domains := r.domains[host := tenant])
    case MoveDomain(host, tenant) =>
      if host !in r.domains || tenant !in r.tenants then r else r.(domains := r.domains[host := tenant])
    case DeleteDomain(host) => r.(domains := r.domains - {host})
    case SetStatus(tenant, status) => r.(tenants := r.tenants[tenant := status])
    case Evict(hosts) => r.(cache := r.cache - hosts)
  }

  function Replay(adminHosts: set<string>, r: Registry, trace: seq<Timed>): Registry {
    if trace == [] then r else Next(adminHosts, Replay(adminHosts, r, trace[..|trace| - 1]), trace[|trace| - 1])
  }

  /** The Domain table when event k of the trace arrives. */
  function TableAt(adminHosts: set<string>, r: Registry, trace: seq<Timed>, k: nat): map<string, TenantId>
    requires k <= |trace|
  {
    Replay(adminHosts, r, trace[..k]).domains
  }

  /** Event k read from the Domain table what entry e says about host. */
  ghost predicate ReadAt(adminHosts: set<string>, r: Registry, trace: seq<Timed>, k: nat, host: string, e: Entry)
    requires k < |trace|
  {
    && trace[k].time == e.expires - DOMAIN_CACHE_TTL
    && host in TableAt(adminHosts, r, trace, k) && TableAt(adminHosts, r, trace, k)[host] == e.tenant
  }

  /** Every cached id was read from the table by an event exactly one time to live before it expires. */
  ghost predicate Witnessed(adminHosts: set<string>, r: Registry, trace: seq<Timed>) {
    var cache := Replay(adminHosts, r, trace).cache;
    forall host :: host in cache ==> exists k: nat :: k < |trace| && ReadAt(adminHosts, r, trace, k, host, cache[host])
  }

  lemma ReadAtExtends(adminHosts: set<string>, r: Registry, trace: seq<Timed>, k: nat, host: string, e: Entry)
    requires k < |trace| - 1 && ReadAt(adminHosts, r, trace[..|trace| - 1], k, host, e)
    ensures ReadAt(adminHosts, r, trace, k, host, e)
  {
    assert trace[..|trace| - 1][..k] == trace[..k];
  }

  lemma {:induction false} CacheIsWitnessed(adminHosts: set<string>, r: Registry, trace: seq<Timed>)
    requires r.cache == map[]
    ensures Witnessed(adminHosts, r, trace)
  {
    hide Exempt, Normalize, HostsOf;
    if trace != [] {
      var n := |trace| - 1;
      CacheIsWitnessed(adminHosts, r, trace[..n]);
      var before, after := Replay(adminHosts, r, trace[..n]), Replay(adminHosts, r, trace);
      forall host | host in after.cache
        ensures exists k: nat :: k < |trace| && ReadAt(adminHosts, r, trace, k, host, after.cache[host])
      {
        if host in before.cache && after.cache[host] == before.cache[host] {
          var k: nat :| k < n && ReadAt(adminHosts, r, trace[..n], k, host, before.cache[host]);
          ReadAtExtends(adminHosts, r, trace, k, host, before.cache[host]);
        } else {
          assert ReadAt(adminHosts, r, trace, n, host, after.cache[host]);
        }
      }
    }
  }

  /** Bounded staleness.  The tenant id a request works with at time now is the one the Domain table
      holds for the host now, or one it held less than 300 seconds ago. */
  lemma StalenessIsBounded(adminHosts: set<string>, r: Registry, trace: seq<Timed>, host: string, now: int)
    requires r.cache == map[] && forall i :: 0 <= i < |trace| ==> trace[i].time <= now
    ensures var found := Lookup(Replay(adminHosts, r, trace), host, now);
            found.Some? ==>
              exists k: nat :: k <= |trace|
                && host in TableAt(adminHosts, r, trace, k) && TableAt(adminHosts, r, trace, k)[host] == found.value
                && (k == |trace| || now - 300 * 1_000_000 < trace[k].time <= now)
  {
    CacheIsWitnessed(adminHosts, r, trace);
    var last := Replay(adminHosts, r, trace);
    if host in last.cache && now < last.cache[host].expires {
      var k: nat :| k < |trace| && ReadAt(adminHosts, r, trace, k, host, last.cache[host]);
      assert now - DOMAIN_CACHE_TTL < trace[k].time <= now;
    } else if host in last.domains {
      assert trace[..|trace|] == trace;
      assert TableAt(adminHosts, r, trace, |trace|) == last.domains;
    }
  }

  /** The tenant is not made READY in the trace. */
  predicate StaysOut(trace: seq<Timed>, tenant: TenantId) {
    forall i :: 0 <= i < |trace| && trace[i].event.SetStatus? && trace[i].event.tenant == tenant
      ==> trace[i].event.status != READY
  }

  lemma {:induction false} StaysUnready(adminHosts: set<string>, r: Registry, trace: seq<Timed>, tenant: TenantId)
    requires tenant in r.tenants && r.tenants[tenant] != READY && StaysOut(trace, tenant)
    ensures var last := Replay(adminHosts, r, trace); tenant in last.tenants && last.tenants[tenant] != READY
  {
    if trace != [] {
      StaysUnready(adminHosts, r, trace[..|trace| - 1], tenant);
      assert trace[|trace| - 1].event.SetStatus? && trace[|trace| - 1].event.tenant == tenant
        ==> trace[|trace| - 1].event.status != READY;
      hide Exempt;
    }
  }

  /** A suspension binds at once, on every host and until the tenant is made READY again: whatever the
      cache holds or held, whatever happens to the domains, no request works with the tenant. */
  lemma SuspensionBinds(
    adminHosts: set<string>, r: Registry, trace: seq<Timed>, tenant: TenantId, path: string, rawHost: string, now: int)
    requires tenant in r.tenants && r.tenants[tenant] != READY && StaysOut(trace, tenant)
    ensures Respond(Replay(adminHosts, r, trace), adminHosts, path, rawHost, now) != Tenant(tenant)
  {
    StaysUnready(adminHosts, r, trace, tenant);
    hide Replay, Exempt, Lookup;
  }

  // ---- When the cache cannot be seen at all ----

  predicate Stable(trace: seq<Timed>) {
    forall i :: 0 <= i < |trace| ==> !trace[i].event.MoveDomain? && !trace[i].event.DeleteDomain?
  }

  predicate CacheAgrees(r: Registry) {
    forall h :: h in r.cache ==> h in r.domains && r.domains[h] == r.cache[h].tenant
  }

  lemma {:induction false} StaysAgreed(adminHosts: set<string>, r: Registry, trace: seq<Timed>)
    requires Stable(trace) && CacheAgrees(r)
    ensures CacheAgrees(Replay(adminHosts, r, trace))
  {
    if trace != [] {
      StaysAgreed(adminHosts, r, trace[..|trace| - 1]);
      assert !trace[|trace| - 1].event.MoveDomain? && !trace[|trace| - 1].event.DeleteDomain?;
    }
  }

  function Uncached(r: Registry): Registry { r.(cache := map[]) }

  /** Cache transparency.  While no domain row is moved or deleted, every request gets the response it
      would get without a cache. */
  lemma CacheIsTransparent(
    adminHosts: set<string>, r: Registry, trace: seq<Timed>, path: string, rawHost: string, now: int)
    requires Stable(trace) && CacheAgrees(r)
    ensures var last := Replay(adminHosts, r, trace);
            Respond(last, adminHosts, path, rawHost, now) == Respond(Uncached(last), adminHosts, path, rawHost, now)
  {
    StaysAgreed(adminHosts, r, trace);
  }

  /** A deleted domain goes on being served until its entry expires, and not a moment longer. */
  lemma DeletedDomainLingers(adminHosts: set<string>, r: Registry, host: string, tenant: TenantId, t0: int, later: int)
    requires r.cache == map[] && host in r.domains && r.domains[host] == tenant
    requires tenant in r.tenants && r.tenants[tenant] == READY
    requires Normalize(host) == host && !Exempt(adminHosts, "/", host) && t0 <= later
    ensures var trace := [Timed(t0, Visit("/", host)), Timed(t0, DeleteDomain(host))];
            Respond(Replay(adminHosts, r, trace), adminHosts, "/", host, later) ==
              (if later < t0 + 300 * 1_000_000 then Tenant(tenant) else NotFound)
  {
    var trace := [Timed(t0, Visit("/", host)), Timed(t0, DeleteDomain(host))];
    assert trace[..1] == [trace[0]] && trace[..1][..0] == [];
    assert Replay(adminHosts, r, trace[..1]) == Next(adminHosts, r, trace[0]);
  }
}
