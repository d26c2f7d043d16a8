# Tenant manager: provisioning, sessions and the request path

A Dafny model of the Django control plane that provisions banking tenants, authenticates their users and
routes requests to them, with proofs about whole runs of it.

## What is modelled

**Provisioning** (`Tenants`, `Effects`, `Saga`, `Slices`, `Rollbacks`, `Compensation`, `Runs`, `CleanRuns`,
`Reports`, `Handlers`, `Leftovers`, `Retries`, `Credentials`, `Teardown`, `Interleaving`, `Histories`, `Provisioning`).
`World` holds the registry tables, the Postgres roles and databases, and the tenants known to Fineract. Every call that leaves the process is an `Effect` on it and meets a `Fate`: it succeeds, raises
before taking effect, or raises after. `Saga` is `ProvisioningService.run` as a step machine whose steps are
single calls, so a fault may hit between any two statements, also inside the except clause and the rollback.
`Provisioning.ProvisioningService` is the same code as a class with mutable fields, loops and early exits; its
methods are proved to make exactly the calls of the machine, and everything else is proved about the machine:
for one tenant alone on its slice of the world (`Compensation`, `Runs`, `CleanRuns`, `Leftovers`), over
histories of retries (`Retries`, `Credentials`, `Teardown`), and for any interleaving of the runs, or of whole
histories of attempts, of any number of tenants (`Interleaving`, `Histories`). `Rollbacks` is the argument for
undoing steps in reverse order over an arbitrary step list, and `Handlers` derives the compensation of this
program's machine from it.

**Sessions and lockout** (`Lockout`, `Sessions`, `Suspension`). Login counters, login sessions, refresh-token
rotation with reuse detection in the manner of section 4.14.2 of RFC 9700, the two bulk tasks, and the login
endpoints behind the tenant resolver.

**Request path** (`Windows`, `RateLimit`, `Hosts`, `Resolver`). The rate limiter's counter, host
normalization, and the tenant resolver with its cache of tenant ids. Time is whole microseconds.

**Smaller loops** (`ProvisionTask`, `TenantCodes`, `PasswordStrength`). The Celery task that may be run again,
the two searches for a free tenant code, and the password validator.

Where the code falls short of what one might claim for it, the exact condition is proved, or an input that
shows the failure:

- No handler removes the primary domain. `Retries.CanReturnIffUnblocked` and
  `Retries.RetryReturnsIffHostIsFree` say exactly when a later run can succeed.
- A role that survives a failed attempt keeps its old password while a new one is stored: the exact condition is
  `Retries.CredentialMatchesIffRoleWasNew`, and `Credentials.CredentialCanDisagree` gives, from every fresh start,
  two attempts after which the tenant is READY with a credential that is not its role's password.
- The failure path of `run` leaves `is_active` as it is. After any run, from any start, a tenant is active
  if and only if it was before or the save of READY and is_active had taken effect
  (`Runs.ActiveFollowsActivation`); `CleanRuns.FailureCanLeaveActive` gives faults after which it is FAILED, rolled
  back and active.
- A registration error with an empty message is taken for success: `CleanRuns.EmptyMessageHidesFailure`. A run that
  returned has done everything if and only if its job has no error message and the call that creates the
  Fineract user took effect while Fineract had the tenant: `Runs.ReadyIffUserWritten`.
- `tenant_retry` asks nothing about the status of the tenant (the page offers its button only for FAILED tenants
  or after an error; the view itself has no guard). Without any fault it returns if and only if contact email and
  hostname are free and there is no primary domain, and otherwise it removes role, database, Fineract tenant and
  users, whoever made them: `Teardown.RetryReturnsOrTearsDown`. That is the fate of every tenant that `run` or the
  Celery worker made READY, and of one the worker left FAILED after its domain insert.
- A failure path that itself fails leaves exactly what was made and not removed:
  `Leftovers.HeldIffMadeAndNotDropped`.
- The Celery worker takes any failure whose message says "already exists" for success. A finished attempt has
  its database if and only if its last CREATE DATABASE was not misleading in this way:
  `ProvisionTask.Worker.Attempt`.
- The rate limiter's docstring (backend/authentication/middleware.py:14-17) calls it a sliding window. The code
  keeps one counter per burst, which is safe but stricter: `RateLimit.WindowSafety`,
  `RateLimit.StricterThanSlidingWindow`.
- A replayed token whose row has been purged sets off nothing: `Sessions.PurgedReplayIsIgnored`.
- Between a suspension and `revoke_tenant_sessions`, the tenant's sessions still rotate, on exactly the hosts whose
  requests reach the view: `Suspension.RefreshRotatesIff`.
- A deleted domain is served until its cache entry expires: `Resolver.DeletedDomainLingers`.

## Conventions

- Exceptions are values: an effect answers `Raised(message)`, a method returns `ok` and `message`, a reply is
  `Refused(code)`.
- `DatabaseCreator`, `TenantRegistrar`, `RollbackManager` and `ProvisioningService` share one tenant and one
  job object in memory; the model is one class with their fields.
- The two random secrets a run draws are part of its `Plan`. A stored credential is the plain password, since
  encrypting and decrypting it gives it back. The registrar's error is a string; None and the empty string,
  which the code does not tell apart, are both "".
- Of Fineract it is assumed that it refuses a tenant or user that exists and a user of a tenant that does not;
  of Postgres, that it refuses to drop a role while a database belongs to it or grants to it.
- `Compensation.Fresh` is a tenant as both creation views leave it: named, with identifier equal to its code,
  a new job, and no role, database, Fineract tenant, user or domain under its names.
- `Runs.QuietRecovery` is the hypothesis of compensation: the calls made after the exception was caught
  succeed, except that an SQL error swallowed by the first of the two `drop_all` passes is allowed.
- Interleaved runs have distinct ids, codes, database names and contact emails (the first three are unique
  columns), and nobody else's row uses their names.
- A run is made of atomic calls; an HTTP request of the other components is one atomic step. Tokens are fresh
  and SHA-256 is injective. Password and one-time-code checks are booleans of the event.

## Model

| member | source | states |
|---|---|---|
| Saga.Rank | backend/provisioning/models.py:6-17 | the index of a step in the declared order, which holds that step at that index |
| Rollbacks.AlwaysCleanIffCovered | backend/provisioning/services.py:251-264 | for an arbitrary step list: every run of every increasing script, failing halfway through any step, is rolled back to nothing if and only if each resource is removed by a handler no later than the step that creates it |
| Rollbacks.LeftoverIsUncovered | backend/provisioning/services.py:258-264 | whatever such a rollback leaves was created by a step that no handler up to it undoes |
| Handlers.HeldIsCreated | backend/provisioning/services.py:317-335 | at every place of the script a tenant holds no more than the step list says the steps so far create, the current one in part |
| Handlers.OnlyDomainIsUncovered | backend/provisioning/services.py:273-288 | in this program's step list the primary domain is the one resource without such a handler |
| Handlers.LeavesAtMostDomain | backend/provisioning/services.py:251-288 | every failed run of every increasing script over this list leaves at most the domain, and some leave it |
| Handlers.HandlerUndoes | backend/provisioning/services.py:261-288 | the calls the machine makes for the handler of a step remove exactly what the step list says that handler removes, and the walk goes on to the step before |
| Handlers.WalkUndoes | backend/provisioning/services.py:258-264 | the machine's walk back from any step leaves what the generic argument computes from the list |
| Handlers.FailedRunLeavesAtMostDomain | backend/provisioning/services.py:251-288 | compensation of the machine by the generic argument: after any faults, a run that enters the except clause and meets no further fault ends holding what the list leaves of what it held, at most the domain |
| Leftovers.HeldIffMadeAndNotDropped | backend/provisioning/services.py:251-376 | after any run from a fresh start, under any faults in the failure path too, each resource is there if and only if the call that makes it took effect and the call that removes it did not |
| Leftovers.BareIffAllDropped | backend/provisioning/services.py:251-376 | a run is compensated if and only if whatever it made and has a handler was removed |
| Compensation.CallBuilds | backend/provisioning/services.py:300-348 | from a fresh start every call of the script adds exactly the next resource, or checkpoint of the job, and is refused by nobody, except for the Fineract user call, which is swallowed |
| Compensation.ResumesInPlace | backend/provisioning/services.py:317-355 | the script is an increasing subsequence of the step order: no step is repeated, only three calls are ever left out, and an exception is swallowed exactly if the registration, the save of the identifier, the Fineract user or the email raised it; any other ends the run before the try block and enters the except clause with its message inside it |
| Compensation.FailureIsBounded | backend/provisioning/services.py:258-260 | every resource that exists when a step fails was created at a rank the rollback, failed step included, still has to visit |
| Compensation.UnwindIs | backend/provisioning/services.py:258-264 | the walk back from any rank stops next at users, then Fineract, then the database twice, then the audit entry |
| Compensation.ForwardKeepsInv | backend/provisioning/services.py:317-376 | a call of the script keeps the run invariant whether it succeeds, raises, or raises after taking effect |
| Compensation.BackwardKeepsInv | backend/provisioning/services.py:273-288 | a successful call of the failure path keeps it: what a handler at rank r removes is gone once the walk is below r |
| Compensation.SpoiledPassKeepsInv | backend/provisioning/services.py:135-149 | an SQL error swallowed in the drop pass for CREATE_DB_USER is made good by the pass for CREATE_DB |
| Runs.RunHalts | backend/provisioning/services.py:300-369 | from any state and under any faults a run makes at most 59 external calls |
| Runs.RunKeepsInv | backend/provisioning/services.py:300-376 | the run invariant holds after every call of every run whose failure path works |
| Runs.DomainsFollowInsert | backend/provisioning/services.py:333-335 | from a fresh start the tenant's domains are its primary domain if the insert took effect, even if the call then raised, and otherwise none |
| Runs.RaisedRunIsCompensated | backend/provisioning/services.py:251-288 | compensation: whatever call failed, after a run that raised the role, database, Fineract tenant and users are gone, status is FAILED, one audit entry was written and the job has failed in the step that was stopped, with the message of the exception that stopped it; the domain row remains exactly if its insert had taken effect, and is_active is set exactly if it was or its save had taken effect |
| Runs.FailureIsTheCause | backend/provisioning/services.py:355-363 | from any start and under any faults, the step and message a run fails with are those of the one call whose exception stopped its script |
| Runs.RecoveryStopsIff | backend/provisioning/services.py:135-149 | an exception in the failure path ends it, unless DROP DATABASE, DROP ROLE or the deletion in Fineract raised it |
| Runs.ShruggedErrorsAreRecorded | backend/provisioning/services.py:232-271 | whatever those three do, a run that raised from its try block has set FAILED, written its audit entry and recorded step and message in the job |
| Reports.ProgressIsShown | backend/provisioning/services.py:317-376 | at every moment of the try block and under any faults the stored job step is the step going on, or the one before it in the script while a step is being saved, and the status is PROVISIONING, INITIALIZING or READY accordingly |
| Reports.ReadyTenantIs | backend/provisioning/services.py:300-348 | everything a run that returned has written in the tenant's rows, roles and databases, spelled out |
| Reports.FinishedJobNamesError | backend/provisioning/services.py:340-348 | a run that returned, from any start, has a finished job without error message, or with the notice and the message of the last exception of the registrar |
| Runs.ActiveFollowsActivation | backend/provisioning/services.py:337-365 | from any start and under any faults, a tenant is active if and only if it was before or the activation took effect |
| CleanRuns.FailureCanLeaveActive | backend/provisioning/services.py:355-367 | from every fresh start there is a single fault after which the run ends FAILED, rolled back and still active |
| Runs.ReturnedRunIsReady | backend/provisioning/services.py:317-348 | a run that returns has left the database owned by and granted to the role, one CEO user, one primary domain, the role's password as stored credential, status READY and a finished job |
| Runs.FineractFollowsUserCall | backend/provisioning/services.py:164-230 | under any faults Fineract has the admin user exactly when the call that creates it took effect while Fineract had the tenant |
| Runs.ReadyIffUserWritten | backend/provisioning/services.py:340-348 | a run that returned has left the complete ready state if and only if its job has no error message and that call took effect |
| Runs.NoErrorMeansRegistered | backend/provisioning/services.py:340-348 | if exceptions have messages, an empty job error message means Fineract holds the tenant and an admin user with the local user's password |
| CleanRuns.EmptyMessageHidesFailure | backend/provisioning/services.py:213-230 | from every fresh start there are faults, one with an empty message, after which the job looks fine and Fineract has no user |
| CleanRuns.CleanRunIsReady | backend/provisioning/services.py:300-348 | a run without faults returns and leaves the one ready slice |
| CleanRuns.Visits | backend/provisioning/services.py:300-348 | a run without faults from a fresh start makes every call of the script but the two that repair or rename |
| Retries.BlockedNeverReturns | backend/provisioning/services.py:194-211 | a run started while the contact email or hostname is taken, or with a primary domain, never returns under any faults |
| Retries.CanReturnIffUnblocked | backend/provisioning/services.py:300-369 | a registered tenant's run can return under some faults if and only if email and hostname are free and it has no primary domain; then a run without faults does |
| Retries.DomainRowsStay | backend/provisioning/services.py:258-288 | no run, rollback included, ever removes or changes a domain row |
| Retries.CredentialMatchesIffRoleWasNew | backend/provisioning/services.py:48-104 | after a run that returned, from any start, the stored credential is the role's password if and only if the role was new or already had the drawn password |
| Credentials.ReadyThroughout | backend/provisioning/services.py:48-104 | at every moment of a run that finds no role, or that cannot return, a READY tenant's stored credential is its role's password |
| Credentials.ReadyCredentialAgrees | backend/provisioning/services.py:101-149 | after any history of attempts in which all but the last returned or really dropped the role, and at every moment of the last one, a READY tenant's stored credential is its role's password |
| Credentials.RoleCanSurvive | backend/provisioning/services.py:355-367 | from every fresh start there are faults after which a run has ended with its role and database left behind: the save of the failure comes before the rollback |
| Credentials.CredentialCanDisagree | backend/provisioning/services.py:50-104 | from every fresh start and for any two different passwords drawn there are two attempts after which the tenant is READY and the stored credential is not the role's password |
| Retries.FailuresAreRetriable | backend/dashboard/views.py:145-152 | after any number of compensated failures the tenant can be run again |
| Retries.RetryConverges | backend/dashboard/views.py:145-152 | after any number of compensated failures a retry without faults leaves the same state as if it had been the first run, but for the audit trail |
| Retries.RetryReturnsIffHostIsFree | backend/dashboard/views.py:145-152 | after any failures whose handlers worked, a retry without faults returns if and only if no row for the tenant's hostname was left behind, and then it converges |
| Teardown.CleanRunReturnsOrTearsDown | backend/provisioning/services.py:300-369 | a run without faults, from any state of the tenant, returns if and only if contact email and hostname are free and there is no primary domain, and otherwise raises and removes role, database, Fineract tenant and all users of the tenant, whoever made them, while every domain row stays |
| Teardown.RetryReturnsOrTearsDown | backend/dashboard/views.py:141-153 | so does a retry, whatever the status; and after one stopped by hostname or primary domain no later attempt can return |
| Teardown.RetryDestroysReadyTenant | backend/dashboard/views.py:141-153 | a retry of the tenant a run made READY ends FAILED and active with everything but the domain gone |
| Teardown.RetryDestroysWorkersTenant | backend/organizations/views.py:52-64 | a retry of the tenant the Celery worker finished, or left after its domain insert, destroys its database |
| Interleaving.NamesInjective | backend/tenants/services.py:44-48 | distinct database names have distinct roles and distinct codes distinct hostnames |
| Interleaving.OwnEffectAgrees | backend/provisioning/services.py:48-239 | every effect of a run does to the shared tables, constraints included, what it does to the tenant's own slice |
| Interleaving.OtherEffectFrames | backend/provisioning/services.py:245-390 | no effect of another tenant's run, undo handlers included, changes a tenant's slice or takes its names |
| Interleaving.InterleavedRunsAreAlone | backend/provisioning/services.py:245-390 | isolation: in any interleaving with any faults, every tenant's resources and run state are those of its run made alone |
| Interleaving.RunIsOnItsSlice | backend/provisioning/services.py:300-390 | a run on the shared world is its run on its slice |
| Interleaving.InterleavedRunIsCompensated | backend/provisioning/services.py:251-288 | compensation, surviving domain row, is_active and audit entry included, holds in the shared tables however other runs are interleaved |
| Histories.HistoriesAreAlone | backend/dashboard/views.py:141-153 | isolation of histories: however the attempts and retries of any number of tenants are started and interleaved, every tenant's part of the shared tables is that of its own attempts made alone one after the other |
| Histories.ReadyCredentialInTables | backend/provisioning/services.py:101-149 | credential agreement holds in the shared tables at every moment, whatever other tenants' attempts do |
| Histories.RetryConvergesInTables | backend/dashboard/views.py:145-152 | retry convergence holds in the shared tables |
| Provisioning.ExecExtends | backend/provisioning/services.py:300-390 | one more external call is one more step of the machine |
| Provisioning.ProvisioningService.CreateDatabase | backend/provisioning/services.py:48-104 | makes the machine's calls for the step, and either ends it with db_user set to the role or enters the except clause with the message |
| Provisioning.ProvisioningService.GrantPermissions | backend/provisioning/services.py:106-125 | makes the machine's calls for the grant |
| Provisioning.ProvisioningService.DropAll | backend/provisioning/services.py:127-149 | swallows SQL errors and goes on with the walk; a failed connection ends the run |
| Provisioning.ProvisioningService.RegisterInFineract | backend/provisioning/services.py:164-192 | a failed registration does not stop the run; the identifier in memory is the code either way; only a failure of the second save raises |
| Provisioning.ProvisioningService.CreateAdminUser | backend/provisioning/services.py:194-230 | creates the user and, unless an error is recorded, the Fineract user, whose failure is only recorded; the password is kept for display |
| Provisioning.ProvisioningService.ExecuteFrom | backend/provisioning/services.py:251-271 | the reversed loop over handlers is the machine's walk back, ended early by a handler that raises |
| Provisioning.ProvisioningService.Undo | backend/provisioning/services.py:261-288 | the handler of a step, if it has one, makes the calls between two stops of the walk |
| Provisioning.ProvisioningService.MarkStep | backend/provisioning/services.py:371-376 | the step is set in memory before it is saved, so a failed save is rolled back as that step |
| Provisioning.ProvisioningService.AdvanceStatus | backend/provisioning/services.py:322-324 | a failed save of INITIALIZING is a failure of the step before it |
| Provisioning.ProvisioningService.SendWelcomeEmail | backend/provisioning/services.py:378-390 | a failure to queue the email never stops the run |
| Provisioning.ProvisioningService.Recover | backend/provisioning/services.py:355-369 | the except clause records the failure, walks back and always raises |
| Provisioning.ProvisioningService.Run | backend/provisioning/services.py:300-369 | run makes exactly the calls of the machine, from start to end, and leaves its world; it returns the admin password when it returns |
| Sessions.LoginIsGrantedIff | backend/authentication/services.py:28-56 | a login is granted if and only if the user is in the request's tenant, not locked, has the right password and, with MFA enabled, the code; which code each refusal carries |
| Sessions.LoginWrites | backend/authentication/services.py:36-72 | what a login writes: a counted failure and from the fifth on a lock of 30 minutes, or cleared counters and one session of seven days, and nothing otherwise |
| Sessions.RotationAnswers | backend/authentication/services.py:74-96 | the three answers to a presented token, and the seven days of the session that replaces a live one |
| Sessions.AuthenticationService.Authenticate | backend/authentication/services.py:28-56 | makes the changes and gives the answers that LoginIsGrantedIff and LoginWrites state |
| Sessions.AuthenticationService.IssueSession | backend/authentication/services.py:58-72 | adds one live session under a fresh token and nothing else |
| Sessions.AuthenticationService.RotateRefreshToken | backend/authentication/services.py:74-96 | unknown token refused; revoked token refused and all the user's sessions revoked; live token replaced by one new session of the same user and device |
| Sessions.AuthenticationService.RevokeAllSessions | backend/authentication/services.py:98-100 | afterwards the user has no live session, every other user's live sessions are the same, and nothing was revived |
| Sessions.AuthenticationService.RevokeTenantSessions | backend/authentication/tasks.py:12-14 | afterwards the tenant's users have no live session, everyone else's live sessions are the same, and nothing was revived |
| Sessions.AuthenticationService.PurgeExpiredSessions | backend/authentication/tasks.py:7-9 | exactly the sessions not yet expired remain, each as it was, and nothing was revived |
| Sessions.LineageHolds | backend/authentication/services.py:58-100 | in every run each login's chain of sessions has at most one live member, and user and device are constant along it |
| Sessions.DeadForever | backend/authentication/services.py:74-100 | revocation and purge are never undone |
| Sessions.RotatesAtMostOnce | backend/authentication/services.py:79-96 | a refresh token rotates successfully at most once, whatever happens in between |
| Sessions.ReplayKillsUser | backend/authentication/services.py:79-87 | replaying a rotated token leaves its user without live sessions, and every later rotation for that user fails until a login succeeds |
| Sessions.PurgedReplayIsIgnored | backend/authentication/services.py:77-87 | replaying a purged token changes nothing |
| Sessions.LiveSessionsConserved | backend/authentication/services.py:28-100 | one event: a login adds one live session for its user, a rotation conserves the number, nothing else adds any |
| Sessions.LiveCountIsLogIns | backend/authentication/services.py:28-100 | over a trace without an event that ends sessions of a user, the number of live sessions is what it was plus the number of successful logins |
| Sessions.EndsAll | backend/authentication/services.py:79-100 | the events that end sessions of a user end all of them, but for a purge |
| Lockout.User.RegisterFailedLogin | backend/authentication/models.py:98-102 | counts the failure and locks for 30 minutes from the fifth on |
| Lockout.User.RegisterSuccessfulLogin | backend/authentication/models.py:104-109 | clears counter and lock |
| Lockout.LockedIffRecentFailures | backend/authentication/models.py:94-109 | after any logins an account is locked if and only if five failures or more were recorded since its last success and the last of them is less than half an hour old |
| Lockout.StaysConsistent | backend/authentication/models.py:98-109 | in every run the counter is at five or more exactly when locked_until is set |
| Lockout.RelocksAtOnce | backend/authentication/models.py:94-102 | the counter survives the lock: the next wrong password after it locks again at once |
| Lockout.FailuresAreSpaced | backend/authentication/models.py:94-102 | from the fifth on, recorded failures are at least half an hour apart |
| Lockout.LockoutBound | backend/authentication/services.py:36-51 | without a successful login at most 5 + floor(T / 30 min) failed checks are recorded in any interval of length T |
| Lockout.BoundIsTight | backend/authentication/models.py:98-102 | for every n an attack of n half hours gets exactly 5 + n failures recorded, meeting the bound |
| RateLimit.RateLimiter.Call | backend/authentication/middleware.py:24-39 | answers 429 at the limit of the request's kind, which the login path decides, without touching the counter; otherwise counts and restarts the time to live |
| RateLimit.CounterIsBurst | backend/authentication/middleware.py:32-38 | the cached counter of every bucket is the length of its last burst of admissions, and expires a window after the last of them |
| RateLimit.RefusedIffBurstIsFull | backend/authentication/middleware.py:32-38 | a request is refused if and only if its bucket's burst is still going on and already has limit members, or limit is not positive; limit is the login limit for login buckets and the general one for all others |
| RateLimit.PauseReadmits | backend/authentication/middleware.py:32-38 | with limit at least 1, a request 60 seconds after the last admission is admitted |
| RateLimit.WindowSafety | backend/authentication/middleware.py:24-39 | on every ordered trace at most the login limit of requests of a login bucket, and at most the general limit of any other, are admitted in any half-open 60 second window |
| RateLimit.StricterThanSlidingWindow | backend/authentication/middleware.py:14-38 | a trace on which a request is refused that a sliding window would admit |
| Hosts.PortIgnored | backend/tenants/middleware.py:161-166 | a port makes no difference to the lookup |
| Hosts.TrailingDotIgnored | backend/tenants/middleware.py:161-166 | nor does a trailing dot |
| Hosts.LetterCaseIgnored | backend/tenants/middleware.py:161-166 | hosts that differ only in letter case are normalized to the same text |
| Hosts.EverySpellingIsFound | backend/tenants/middleware.py:161-166 | a stored host is recovered from every spelling of it: any letter case, trailing dots, white space on either side, with or without a port |
| Hosts.IdempotentIff | backend/tenants/middleware.py:161-166 | normalizing again changes nothing if and only if the stripped text in front of the port does not end in dots with white space before them |
| Hosts.IdempotentWithoutSpace | backend/tenants/middleware.py:116-119 | a host without white space, as a request carries, is normalized once and for all |
| Resolver.PlatformScopeIff | backend/tenants/middleware.py:112-123 | a request is in platform scope if and only if its path begins with /admin/ or /api/v1/health, or its host is a platform host or begins with admin. |
| Resolver.TenantScopeIs | backend/tenants/middleware.py:125-159 | the answer to every other request: not found, suspended, not ready, or the tenant, by the cached id first and the status in the table |
| Resolver.RequestWrites | backend/tenants/middleware.py:128-140 | only a miss that finds its host is remembered, for 300 seconds |
| Resolver.TenantResolverMiddleware.Call | backend/tenants/middleware.py:111-159 | gives the answer and makes the cache update those three state, and a tenant it lets through is READY in the table now |
| Resolver.TenantResolverMiddleware.BustCache | backend/tenants/services.py:55-72 | deletes only entries of the tenant's hosts, all of them if the cache keeps answering |
| Resolver.TenantResolverMiddleware.Suspend | backend/tenants/services.py:17-26 | the status changes even if the cache stops answering, and no entry is added |
| Resolver.TenantResolverMiddleware.Activate | backend/tenants/services.py:30-40 | sets READY and is_active from any status, and no entry is added |
| Resolver.SuspensionBinds | backend/tenants/middleware.py:125-159 | from a suspension on until the tenant is made READY again, no request on any host works with it, whatever happens to domains and cache |
| Resolver.CacheIsWitnessed | backend/tenants/middleware.py:128-140 | every cached id was read from the Domain table exactly one time to live before it expires |
| Resolver.StalenessIsBounded | backend/tenants/middleware.py:128-144 | the tenant id used at time t is one the Domain table held for the host in (t - 300 s, t], under inserts, moves, deletes and cache losses |
| Resolver.CacheIsTransparent | backend/tenants/middleware.py:125-159 | if no domain row is moved or deleted, every response is that of a resolver without a cache |
| Resolver.DeletedDomainLingers | backend/tenants/middleware.py:128-144 | a deleted domain is served until its entry expires and not after |
| Suspension.StaysSilenced | backend/authentication/services.py:31-96 | no single login, rotation, logout, revocation, purge or domain change revives a session of a suspended tenant's users |
| Suspension.RevokedTenantStaysOut | backend/tenants/signals.py:37-41 | once revoke_tenant_sessions has run after a suspension, no sequence of events on any hosts makes a session of its users live while it stays suspended |
| Suspension.LoginNeedsItsHost | backend/authentication/services.py:28-56 | a login on a host gives a session if and only if the request is let through, on a platform host for platform staff and on a READY tenant's host for its users, and the credentials are right and not locked |
| Suspension.RefreshRotatesIff | backend/authentication/services.py:74-96 | a refresh gives a live session if and only if the token's row is live and the request reaches the view, whichever tenant the session belongs to and whatever its status |
| Suspension.OwnHostsRefuse | backend/tenants/middleware.py:146-150 | the hosts that resolve to a suspended tenant never let a request through |
| ProvisionTask.Worker.CreatePostgresqlDatabase | backend/provisioning/tasks.py:93-110 | an existing database counts as success; after success the database exists if and only if the call was not misleading; autocommit is restored on every way out |
| ProvisionTask.Worker.ProvideDatabase | backend/provisioning/tasks.py:26-35 | the database is added only once the job says CREATE_DB |
| ProvisionTask.Worker.CreatePrimaryDomain | backend/tenants/services.py:50-53 | adds the primary domain, or nothing if the hostname or a primary domain is there |
| ProvisionTask.Worker.ServeTenant | backend/provisioning/tasks.py:47-77 | from the ACTIVATE step on: the domain is added only if there is no primary one, and success means a primary domain, READY, active and a finished job |
| ProvisionTask.Worker.MarkSteps | backend/provisioning/tasks.py:37-51 | the three steps that only mark the job, in order, each save stopping the try block if it raises |
| ProvisionTask.Worker.TryWorksIff | backend/provisioning/tasks.py:25-77 | the try block works if and only if there is a database name, CREATE DATABASE does not raise or says that it exists, the hostname is free or not needed, and all seven or eight saves succeed |
| ProvisionTask.Worker.FaultlessFinishes | backend/provisioning/tasks.py:25-77 | without faults an execution finishes |
| ProvisionTask.Worker.Attempt | backend/provisioning/tasks.py:21-90 | an execution crashes if and only if the save of the Celery id raised, or the try block stopped and one of the two saves of its failure raised; otherwise it finishes the site, or leaves it FAILED and inactive with the error recorded and retries; it adds at most the database and the domain, and the job's step is never behind what was added |
| ProvisionTask.Worker.Submit | backend/provisioning/tasks.py:13-90 | an execution that ends with a retry is followed by another until four have been made, and no other is; together they add at most what one adds |
| ProvisionTask.FinishedSitesAgree | backend/provisioning/tasks.py:25-90 | idempotence: any two histories of attempts from the same start that end in success leave the same databases and domains |
| ProvisionTask.NeverTwoPrimaries | backend/provisioning/tasks.py:55-56 | no history of attempts gives a tenant a second primary domain |
| TenantCodes.UniqueTenantCode | backend/dashboard/views.py:36-43 | terminates with the first free candidate, the first 24 characters of the slug or org if that is free and otherwise the same with the least free suffix from 2 on, at a suffix of at most the number of codes plus one, within 32 characters while that has eight digits |
| TenantCodes.SuggestTenantCode | backend/organizations/views.py:40-50 | the same of the second copy of the loop |
| TenantCodes.DecimalIsNumeral | backend/dashboard/views.py:42 | the suffix is the decimal numeral of its number: digits without a leading zero, worth that number |
| TenantCodes.FirstFreeIsUnique | backend/organizations/views.py:40-50 | the first free candidate is unique, so both loops compute the same code |
| TenantCodes.TakenAreFew | backend/dashboard/views.py:40-42 | n codes in use cannot take more than n candidates |
| TenantCodes.DerivedNamesDiffer | backend/dashboard/views.py:82-87 | distinct codes give distinct database names, roles and hostnames |
| PasswordStrength.Validate | backend/authentication/validators.py:15-27 | the nested scan rejects for a sequence exactly when four consecutive characters of the lowered password run along a pattern forwards or backwards, and for repetition first |
| PasswordStrength.RunsAreRefused | backend/authentication/validators.py:13-27 | four neighbours of the alphabet or of the digits, in either direction, are always refused |
| PasswordStrength.VerdictIgnoresDirection | backend/authentication/validators.py:15-27 | a password and its reversal get the same verdict |
| PasswordStrength.PaddingKeepsSequence | backend/authentication/validators.py:21-27 | extending a password on either side never hides a sequence |

## Left out

- Runs.RaisedRunIsCompensated: is stated for runs whose failure path works, because a handler that raises ends the rollback; what is left then is stated exactly by Leftovers.HeldIffMadeAndNotDropped.
- Runs.ReturnedRunIsReady: the job keeps no message of its own before the run, because every run of the code is given a new job.
- Runs.NoErrorMeansRegistered: is the half a reader of the job can use without looking at the run; the exact condition is Runs.ReadyIffUserWritten.
- Retries.RetryConverges: job and audit history are those of the last run and of all rollbacks; timestamps and earlier jobs are not modelled.
- Histories.HistoriesAreAlone: a tenant's next attempt starts when its last one has ended; two runs of the same tenant at once are not modelled.
- Sessions.AuthenticationService.Authenticate: the case-insensitive lookup by email within a tenant is reduced to a user id; last_login_ip and audit entries are left out.
- Sessions.AuthenticationService.RotateRefreshToken: ignores expires_at and the outcome of blacklisting the old token, as the code does; the blacklist itself is an abstract step that returns.
- Suspension.RevokedTenantStaysOut: a user's tenant is constant, and tenants are not deleted; reassigning users in the admin site is left out.
- RateLimit.RateLimiter.Call: the cache answers every call; an unreachable cache raises in the code and is not modelled.
- Resolver.TenantResolverMiddleware.Call: the same holds for the resolver's reads; domain rows are taken to be stored in normalized form.
- Hosts.EverySpellingIsFound: white space and letter case are those of ASCII.
- PasswordStrength.Validate: lower() is that of ASCII.
- TenantCodes.UniqueTenantCode: slugify is taken as an input, and two requests that pick the same code at once are left to the unique column.
- ProvisionTask.Worker.Submit: a missing job row is left out.
- ProvisionTask.Worker.Attempt: timestamps, the Celery task id and the 15 second countdown are left out.
- Races between unlocked reads and writes inside one request (login counter, rate counter, rotation).
- Logging, timestamps, organization names, email normalization and failures to close a connection.
- The second provisioning task in backend/tenants/tasks.py, which reads ProvisionJob.Status, a name its model does not define.
- The creation path of backend/tenants/admin.py, which makes the user and the domain before the run and so breaks the start condition of Compensation.Fresh.
- Django session logins of the dashboard and the portal, which bypass lockout and login sessions.
- Token encoding, password hashing, one-time codes, encryption, the Fineract and Redis clients, email, templates, serializers, permissions, URL tables and settings.
- Subscription, billing and audit listing, which hold one-branch facts.
