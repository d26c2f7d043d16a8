/**
 provision_tenant_database_task: the Celery task that can be run again after any failure.
 */
module ProvisionTask {
  import opened Options
  import opened Tenants
  import opened Effects
  import Hosts
  import Saga

  datatype Job = Job(step: Step, success: Option<bool>, error: string, retryCount: nat)

  /** What a worker works on: the databases and domains, the tenant's row and its job. */
  datatype Site = Site(databases: set<string>, domains: map<string, DomainRow>,
    status: Status, isActive: bool, job: Job)

  predicate Contains(s: string, part: string) {
    exists i :: 0 <= i <= |s| && part <= s[i..]
  }

  /** "already exists" in str(e).lower() */
  predicate SaysExists(message: string) { Contains(Hosts.Lower(message), "already exists") }

  const EXISTS_MESSAGE := "already exists"

  lemma ExistsMessageSaysExists()
    ensures SaysExists(EXISTS_MESSAGE)
  {
    var lowered := Hosts.Lower(EXISTS_MESSAGE);
    assert lowered == EXISTS_MESSAGE;
    assert EXISTS_MESSAGE <= lowered[0..];
  }

  /** A CREATE DATABASE fails without effect and says that a database exists which does not; the code
      takes any such message for success. */
  predicate Misleads(f: Fate, exists': bool) {
    f.Fails? && !f.tookEffect && !exists' && SaysExists(f.message)
  }

  datatype Outcome = Finished | Retry(message: string) | Crashed

  /** How the try block ends, and the number of the save to be made next. */
  datatype Ending = Works(next: nat) | Stops(message: string, next: nat)

  /** The tenant's part of a site after an attempt: the database and the primary domain may have been
      added, and nothing else has changed in either table. */
  ghost predicate Progress(id: TenantId, host: string, dbName: string, s: Site, t: Site) {
    && (t.databases == s.databases || t.databases == s.databases + {dbName})
    && (t.domains == s.domains
        || (!HasPrimary(s.domains, id) && host !in s.domains && t.domains == s.domains[host := DomainRow(id, true)]))
  }

  /** What the job says about the way is true: it has reached the step of everything that was added. */
  ghost predicate StepCovers(s: Site, t: Site) {
    && (t.databases != s.databases ==> Saga.Rank(t.job.step) >= Saga.Rank(CREATE_DB))
    && (t.domains != s.domains ==> Saga.Rank(t.job.step) >= Saga.Rank(ACTIVATE))
  }

  /** What a successful attempt establishes, but for the database. */
  predicate IsServed(id: TenantId, s: Site) {
    HasPrimary(s.domains, id) && s.status == READY && s.isActive && s.job.step == DONE && s.job.success == Some(true)
  }

  predicate IsFinished(id: TenantId, dbName: string, s: Site) {
    dbName in s.databases && IsServed(id, s)
  }

  class Worker {
    const id: TenantId
    const code: string
    const dbName: string
    // what happens to the i-th save, and to the i-th CREATE DATABASE
    const fate: nat -> Fate
    const createFate: nat -> Fate
    var clock: nat
    var creates: nat
    var databases: set<string>
    var domains: map<string, DomainRow>
    var status: Status
    var isActive: bool
    var job: Job
    var autocommit: bool
    // the last CREATE DATABASE misled this code
    ghost var misled: bool

    constructor (id: TenantId, code: string, dbName: string, fate: nat -> Fate, createFate: nat -> Fate, site: Site)
      ensures State() == site
      ensures this.id == id && this.code == code && this.dbName == dbName
      ensures this.fate == fate && this.createFate == createFate
    {
      this.id, this.code, this.dbName := id, code, dbName;
      this.fate, this.createFate, clock, creates := fate, createFate, 0, 0;
      databases, domains, status, isActive, job := site.databases, site.domains, site.status, site.isActive, site.job;
      autocommit, misled := false, false;
    }

    function State(): Site
      reads this
    {
      Site(databases, domains, status, isActive, job)
    }

    ghost predicate Faultless()
    {
      forall i :: fate(i).Succeeds? && createFate(i).Succeeds?
    }

    /** The rest of the try block from the i-th save on: three steps that only mark the job. */
    function EndOfMarks(i: nat, primary: bool, taken: bool): Ending {
      if fate(i).Fails? then Stops(fate(i).message, i + 1)
      else if fate(i + 1).Fails? then Stops(fate(i + 1).message, i + 2)
      else if fate(i + 2).Fails? then Stops(fate(i + 2).message, i + 3)
      else EndOfServing(i + 3, primary, taken)
    }

    /** The domain, the tenant's status and the finished job. */
    function EndOfServing(i: nat, primary: bool, taken: bool): Ending {
      if primary then EndOfSaves(i)
      else if fate(i).Fails? then Stops(fate(i).message, i + 1)
      else if taken then Stops(REFUSED, i + 1)
      else EndOfSaves(i + 1)
    }

    function EndOfSaves(i: nat): Ending {
      if fate(i).Fails? then Stops(fate(i).message, i + 1)
      else if fate(i + 1).Fails? then Stops(fate(i + 1).message, i + 2)
      else Works(i + 2)
    }

    /** CREATE DATABASE raises unless the database exists, or is said to exist. */
    predicate CreateRaises(k: nat) {
      createFate(k).Fails? && !Contains(Hosts.Lower(createFate(k).message), "already exists")
    }

    /** How the try block ends if its first save is the i-th and its CREATE DATABASE the k-th; primary
        says whether the tenant has a primary domain, and taken whether its hostname is in the table. */
    function EndOfTry(i: nat, k: nat, primary: bool, taken: bool): Ending {
      if fate(i).Fails? then Stops(fate(i).message, i + 1)
      else if dbName == "" then Stops("Tenant '" + code + "' has no db_name defined.", i + 1)
      else if fate(i + 1).Fails? then Stops(fate(i + 1).message, i + 2)
      else if CreateRaises(k) then Stops(createFate(k).message, i + 2)
      else EndOfMarks(i + 2, primary, taken)
    }

    /** The try block works exactly when the tenant has a database name, CREATE DATABASE does not raise,
        the hostname is free or not needed, and all its saves succeed: seven, and the insert of the
        domain if there is no primary one. */
    lemma TryWorksIff(i: nat, k: nat, primary: bool, taken: bool)
      ensures EndOfTry(i, k, primary, taken).Works? <==>
                && dbName != "" && (primary || !taken)
                && (createFate(k).Succeeds? || Contains(Hosts.Lower(createFate(k).message), "already exists"))
                && forall j :: i <= j < i + (if primary then 7 else 8) ==> fate(j).Succeeds?
    {
    }

    method SaveJobStep(step: Step) returns (f: Fate)
      modifies this`clock, this`job
      ensures f == fate(old(clock)) && clock == old(clock) + 1
      ensures job == old(job).(step := if f.Succeeds? || f.tookEffect then step else old(job.step))
    {
      f := fate(clock);
      clock := clock + 1;
      if f.Succeeds? || f.tookEffect {
        job := job.(step := step);
      }
    }

    /** autocommit is restored on every way out. */
    method CreatePostgresqlDatabase() returns (f: Fate)
      modifies this`creates, this`databases, this`autocommit, this`misled
      ensures autocommit == old(autocommit)
      ensures misled == Misleads(createFate(old(creates)), dbName in old(databases))
      ensures databases == old(databases) || databases == old(databases) + {dbName}
      ensures creates == old(creates) + 1
      ensures f.Fails? <==> CreateRaises(old(creates))
      ensures f.Fails? ==> f.message == createFate(old(creates)).message
      ensures f.Succeeds? ==> (dbName in databases <==> !misled)
    {
      ExistsMessageSaysExists();
      var oldAutocommit := autocommit;
      autocommit := true;
      f := createFate(creates);
      misled := Misleads(f, dbName in databases);
      creates := creates + 1;
      if f.Succeeds? && dbName in databases {
        f := Fails(false, EXISTS_MESSAGE);
      } else if f.Succeeds? || f.tookEffect {
        databases := databases + {dbName};
      }
      if f.Fails? && SaysExists(f.message) {
        f := Succeeds;
      }
      autocommit := oldAutocommit;
    }

    method CreatePrimaryDomain() returns (f: Fate)
      modifies this`clock, this`domains
      ensures Progress(id, Saga.Subdomain(code), dbName, old(State()), State())
      ensures f.Succeeds? ==> HasPrimary(domains, id)
      ensures clock == old(clock) + 1
      ensures var refused := Saga.Subdomain(code) in old(domains) || HasPrimary(old(domains), id);
              f == if fate(old(clock)).Succeeds? && refused
                   then Fails(false, REFUSED) else fate(old(clock))
    {
      var host := Saga.Subdomain(code);
      f := fate(clock);
      clock := clock + 1;
      if host in domains || HasPrimary(domains, id) {
        if f.Succeeds? { f := Fails(false, REFUSED); }
      } else if f.Succeeds? || f.tookEffect {
        domains := domains[host := DomainRow(id, true)];
        assert domains[host].tenant == id && domains[host].isPrimary;
      }
    }

    method SaveTenant(status': Status, active: bool) returns (f: Fate)
      modifies this`clock, this`status, this`isActive
      ensures f == fate(old(clock)) && clock == old(clock) + 1
      ensures if f.Succeeds? || f.tookEffect then status == status' && isActive == active
              else status == old(status) && isActive == old(isActive)
    {
      f := fate(clock);
      clock := clock + 1;
      if f.Succeeds? || f.tookEffect {
        status, isActive := status', active;
      }
    }

    method SaveJob(job': Job) returns (f: Fate)
      modifies this`clock, this`job
      ensures f == fate(old(clock)) && clock == old(clock) + 1
      ensures job == if f.Succeeds? || f.tookEffect then job' else old(job)
    {
      f := fate(clock);
      clock := clock + 1;
      if f.Succeeds? || f.tookEffect {
        job := job';
      }
    }

    /** The start of the try block, up to the database. */
    method ProvideDatabase() returns (f: Fate)
      modifies this`clock, this`creates, this`databases, this`autocommit, this`misled, this`job
      ensures databases == old(databases) || databases == old(databases) + {dbName}
      ensures autocommit == old(autocommit) && (databases != old(databases) ==> job.step == CREATE_DB)
      ensures job == old(job).(step := job.step)
      ensures fate(old(clock)).Succeeds? ==> job.step in {VALIDATE, CREATE_DB}
      ensures f.Succeeds? ==> job.step == CREATE_DB && (dbName in databases <==> !misled) && clock == old(clock) + 2
      ensures forall p, q ::
                EndOfTry(old(clock), old(creates), p, q) ==
                  if f.Fails? then Stops(f.message, clock) else EndOfMarks(clock, p, q)
    {
      hide Misleads, EndOfMarks;
      f := SaveJobStep(VALIDATE);
      if f.Fails? { return; }
      if dbName == "" {
        return Fails(false, "Tenant '" + code + "' has no db_name defined.");
      }
      f := SaveJobStep(CREATE_DB);
      if f.Fails? { return; }
      f := CreatePostgresqlDatabase();
    }

    /** The end of the try block, from the domain on. */
    method ServeTenant() returns (f: Fate)
      modifies this`clock, this`domains, this`status, this`isActive, this`job
      ensures Progress(id, Saga.Subdomain(code), dbName, old(State()), State())
      ensures job == (if f.Succeeds? then old(job).(step := DONE, success := Some(true)) else job)
      ensures job in {old(job), old(job).(step := DONE, success := Some(true))}
      ensures f.Succeeds? ==> IsServed(id, State())
      ensures EndOfServing(old(clock), HasPrimary(old(domains), id), Saga.Subdomain(code) in old(domains)) ==
                if f.Fails? then Stops(f.message, clock) else Works(clock)
    {
      hide HasPrimary, Saga.Subdomain;
      if !HasPrimary(domains, id) {
        f := CreatePrimaryDomain();
        if f.Fails? { return; }
      }
      f := SaveTenant(READY, true);
      if f.Fails? { return; }
      f := SaveJob(job.(step := DONE, success := Some(true)));
    }

    /** The steps that only mark the job, up to ACTIVATE. */
    method MarkSteps() returns (f: Fate)
      modifies this`clock, this`job
      ensures job == old(job).(step := job.step)
      ensures var marks, n := [RUN_FINERACT_SCHEMA, REGISTER_FINERACT_TENANT, ACTIVATE], clock - old(clock);
              && 1 <= n <= 3 && (f.Succeeds? ==> n == 3)
              && job.step == if f.Succeeds? || f.tookEffect then marks[n - 1]
                             else if n == 1 then old(job.step) else marks[n - 2]
      ensures forall p, q ::
                EndOfMarks(old(clock), p, q) ==
                  if f.Fails? then Stops(f.message, clock) else EndOfServing(clock, p, q)
    {
      hide EndOfServing;
      f := SaveJobStep(RUN_FINERACT_SCHEMA);
      if f.Fails? { return; }
      f := SaveJobStep(REGISTER_FINERACT_TENANT);
      if f.Fails? { return; }
      f := SaveJobStep(ACTIVATE);
    }

    /** The body of the try block. */
    method Provision() returns (f: Fate)
      modifies this
      ensures Progress(id, Saga.Subdomain(code), dbName, old(State()), State()) && autocommit == old(autocommit)
      ensures StepCovers(old(State()), State())
      ensures f.Succeeds? ==> IsServed(id, State()) && (dbName in databases <==> !misled)
      ensures f.Succeeds? ==> job == old(job).(step := DONE, success := Some(true))
      ensures f.Fails? ==> job in {old(job).(step := job.step), old(job).(step := DONE, success := Some(true))}
      ensures EndOfTry(old(clock), old(creates), HasPrimary(old(domains), id), Saga.Subdomain(code) in old(domains)) ==
                if f.Fails? then Stops(f.message, clock) else Works(clock)
    {
      hide HasPrimary, Saga.Subdomain, Misleads, EndOfTry, EndOfMarks, EndOfServing;
      f := ProvideDatabase();
      if f.Fails? { return; }
      f := MarkSteps();
      if f.Fails? { return; }
      f := ServeTenant();
    }

    /** The outcome of an execution whose first save is the i-th. */
    function OutcomeOf(i: nat, k: nat, primary: bool, taken: bool): Outcome {
      if fate(i).Fails? then Crashed
      else match EndOfTry(i + 1, k, primary, taken)
        case Works(_) => Finished
        case Stops(message, j) => if fate(j).Fails? || fate(j + 1).Fails? then Crashed else Retry(message)
    }

    /** One Celery execution; retries is self.request.retries.  It crashes exactly if the save of the
        Celery id raised, or the try block stopped and one of the two saves of its failure raised. */
    method Attempt(retries: nat) returns (o: Outcome)
      modifies this
      ensures Progress(id, Saga.Subdomain(code), dbName, old(State()), State()) && autocommit == old(autocommit)
      ensures StepCovers(old(State()), State())
      ensures var i, primary, taken := old(clock), HasPrimary(old(domains), id), Saga.Subdomain(code) in old(domains);
              var ending := EndOfTry(i + 1, old(creates), primary, taken);
              && o == OutcomeOf(i, old(creates), primary, taken)
              && (o.Crashed? <==>
                  fate(i).Fails? || (ending.Stops? && (fate(ending.next).Fails? || fate(ending.next + 1).Fails?)))
              && (o.Retry? ==> ending == Stops(o.message, ending.next))
      ensures o.Finished? ==> IsServed(id, State()) && (IsFinished(id, dbName, State()) <==> !misled)
      ensures o.Finished? ==> job == old(job).(step := DONE, success := Some(true))
      ensures o.Retry? ==> status == FAILED && !isActive
      ensures o.Retry? ==> job.success == Some(false) && job.error == o.message && job.retryCount == retries
    {
      hide HasPrimary, Saga.Subdomain, EndOfTry;
      var f := SaveJob(job);  // celery_task_id
      if f.Fails? { return Crashed; }
      f := Provision();
      if f.Succeeds? { return Finished; }
      var message := f.message;
      f := SaveJob(job.(success := Some(false), error := message, retryCount := retries));
      if f.Fails? { return Crashed; }
      f := SaveTenant(FAILED, false);
      if f.Fails? { return Crashed; }
      o := Retry(message);
    }

    /** Without faults an execution finishes, unless there is no database name or the hostname is taken. */
    lemma FaultlessFinishes(i: nat, k: nat, primary: bool, taken: bool)
      requires Faultless() && dbName != "" && (primary || !taken)
      ensures OutcomeOf(i, k, primary, taken) == Finished
    {
      TryWorksIff(i + 1, k, primary, taken);
      hide EndOfTry;
    }

    /** Every execution is recorded with what it met. */
    ghost predicate Honest(r: Report) {
      r.outcome == OutcomeOf(r.clock, r.creates, r.primary, r.taken)
    }

    /** A submission: an execution that ends with a retry is followed by another one until four have been
        made, and no other is. */
    method Submit() returns (o: Outcome, attempts: nat, ghost reports: seq<Report>)
      modifies this
      ensures 1 <= attempts <= 4 && |reports| == attempts && reports[0].clock == old(clock)
      ensures reports[attempts - 1].outcome == o && forall k :: 0 <= k < attempts - 1 ==> reports[k].outcome.Retry?
      ensures forall k :: 0 <= k < attempts ==> Honest(reports[k])
      ensures Progress(id, Saga.Subdomain(code), dbName, old(State()), State()) && autocommit == old(autocommit)
      ensures o.Finished? ==> IsServed(id, State()) && (IsFinished(id, dbName, State()) <==> !misled)
      ensures o.Retry? ==> attempts == 4 && status == FAILED && !isActive && job.retryCount == 3
    {
      hide OutcomeOf, HasPrimary, Saga.Subdomain;
      ghost var origin := State();
      ghost var host := Saga.Subdomain(code);
      ghost var met := Report(clock, creates, HasPrimary(domains, id), host in domains, Crashed);
      o := Attempt(0);
      attempts, reports := 1, [met.(outcome := o)];
      while o.Retry? && attempts <= 3
        invariant 1 <= attempts <= 4 && |reports| == attempts && reports[0].clock == old(clock)
        invariant reports[attempts - 1].outcome == o && forall k :: 0 <= k < attempts - 1 ==> reports[k].outcome.Retry?
        invariant forall k :: 0 <= k < attempts ==> Honest(reports[k])
        invariant Progress(id, Saga.Subdomain(code), dbName, origin, State()) && autocommit == old(autocommit)
        invariant o.Finished? ==> IsServed(id, State()) && (IsFinished(id, dbName, State()) <==> !misled)
        invariant o.Retry? ==> status == FAILED && !isActive && job.retryCount == attempts - 1
        decreases 4 - attempts
      {
        ghost var before := State();
        met := Report(clock, creates, HasPrimary(domains, id), host in domains, Crashed);
        o := Attempt(attempts);
        ProgressComposes(id, Saga.Subdomain(code), dbName, origin, before, State());
        attempts, reports := attempts + 1, reports + [met.(outcome := o)];
      }
    }
  }

  /** What an execution met: the numbers of its first save and CREATE DATABASE, and the domain table. */
  datatype Report = Report(clock: nat, creates: nat, primary: bool, taken: bool, outcome: Outcome)

  /** Two attempts in a row add no more than one. */
  lemma ProgressComposes(id: TenantId, host: string, dbName: string, s: Site, t: Site, u: Site)
    requires Progress(id, host, dbName, s, t) && Progress(id, host, dbName, t, u)
    ensures Progress(id, host, dbName, s, u)
  {
    if t.domains != s.domains {
      assert t.domains[host].tenant == id && t.domains[host].isPrimary;
      assert HasPrimary(t.domains, id);
    }
    assert s.databases + {dbName} + {dbName} == s.databases + {dbName};
  }

  /** A history of attempts, each with any outcome. */
  ghost predicate Attempts(id: TenantId, host: string, dbName: string, sites: seq<Site>) {
    sites != [] && forall i :: 0 < i < |sites| ==> Progress(id, host, dbName, sites[i - 1], sites[i])
  }

  lemma {:induction false} AttemptsProgress(id: TenantId, host: string, dbName: string, sites: seq<Site>)
    requires Attempts(id, host, dbName, sites)
    ensures Progress(id, host, dbName, sites[0], sites[|sites| - 1])
  {
    var n := |sites| - 1;
    if n > 0 {
      AttemptsProgress(id, host, dbName, sites[..n]);
      ProgressComposes(id, host, dbName, sites[0], sites[n - 1], sites[n]);
    }
  }

  /** Idempotence: any two histories of attempts that start from the same site and end in success, a
      single clean attempt among them, leave the same databases and the same domains.  That is the
      content; that status, is_active and the end of the job agree is part of IsFinished, which every
      successful attempt ensures. */
  lemma FinishedSitesAgree(id: TenantId, host: string, dbName: string, one: seq<Site>, other: seq<Site>)
    requires Attempts(id, host, dbName, one) && Attempts(id, host, dbName, other) && one[0] == other[0]
    requires IsFinished(id, dbName, one[|one| - 1]) && IsFinished(id, dbName, other[|other| - 1])
    ensures var s, t := one[|one| - 1], other[|other| - 1];
            t == s.(job := t.job) && s.job.step == t.job.step && s.job.success == t.job.success
  {
    AttemptsProgress(id, host, dbName, one);
    AttemptsProgress(id, host, dbName, other);
    var o, s, t := one[0], one[|one| - 1], other[|other| - 1];
    assert s.databases == o.databases + {dbName} == t.databases;
    hide Attempts;
  }

  predicate AtMostOnePrimary(id: TenantId, domains: map<string, DomainRow>) {
    forall g, h ::
      (g in domains && h in domains && domains[g] == domains[h] == DomainRow(id, true)) ==> g == h
  }

  /** No history of attempts gives a tenant a second primary domain. */
  lemma NeverTwoPrimaries(id: TenantId, host: string, dbName: string, sites: seq<Site>)
    requires Attempts(id, host, dbName, sites) && AtMostOnePrimary(id, sites[0].domains)
    ensures AtMostOnePrimary(id, sites[|sites| - 1].domains)
  {
    AttemptsProgress(id, host, dbName, sites);
  }
}
