/**
 The login counter of User and the checks authenticate makes on it.
 */
module Lockout {
  import opened Options
  import opened Tenants
  import opened Windows

  const LOCK_TIME := 30 * MINUTE
  const MAX_ATTEMPTS := 5

  /** The columns of a user row that a login reads or writes. */
  datatype Account = Account(tenant: Option<TenantId>, mfaEnabled: bool, failedAttempts: nat, lockedUntil: Option<int>)

  predicate IsLocked(a: Account, now: int) {
    a.lockedUntil.Some? && a.lockedUntil.value > now
  }

  function Failed(a: Account, now: int): Account {
    a.(failedAttempts := a.failedAttempts + 1,
       lockedUntil := if a.failedAttempts + 1 >= MAX_ATTEMPTS then Some(now + LOCK_TIME) else a.lockedUntil)
  }

  function Succeeded(a: Account): Account {
    a.(failedAttempts := 0, lockedUntil := None)
  }

  /** A user loaded from its row; save() writes Row() back. */
  class User {
    const tenant: Option<TenantId>
    const mfaEnabled: bool
    var failedLoginAttempts: nat
    var lockedUntil: Option<int>

    function Row(): Account
      reads this
    {
      Account(tenant, mfaEnabled, failedLoginAttempts, lockedUntil)
    }

    constructor FromRow(row: Account)
      ensures Row() == row
    {
      tenant, mfaEnabled := row.tenant, row.mfaEnabled;
      failedLoginAttempts, lockedUntil := row.failedAttempts, row.lockedUntil;
    }

    method IsLockedNow(now: int) returns (locked: bool)
      ensures locked == IsLocked(Row(), now)
    {
      locked := lockedUntil.Some? && lockedUntil.value > now;
    }

    method RegisterFailedLogin(now: int)
      modifies this
      ensures Row() == Failed(old(Row()), now)
    {
      failedLoginAttempts := failedLoginAttempts + 1;
      if failedLoginAttempts >= 5 {
        lockedUntil := Some(now + 30 * MINUTE);
      }
    }

    method RegisterSuccessfulLogin()
      modifies this
      ensures Row() == Succeeded(old(Row()))
    {
      failedLoginAttempts := 0;
      lockedUntil := None;
    }
  }

  // ---- One login ----

  datatype Verdict = Locked | WrongPassword | MfaRequired | Accepted

  /** What the clock, the password hash and the one-time code say of a login. */
  datatype Login = Login(time: int, passwordOk: bool, mfaOk: bool)

  function Check(a: Account, l: Login): Verdict {
    if IsLocked(a, l.time) then Locked
    else if !l.passwordOk then WrongPassword
    else if a.mfaEnabled && !l.mfaOk then MfaRequired
    else Accepted
  }

  function Record(a: Account, l: Login): Account {
    match Check(a, l)
    case WrongPassword => Failed(a, l.time)
    case Accepted => Succeeded(a)
    case _ => a
  }

  // ---- Many logins ----

  function RecordAll(a: Account, logins: seq<Login>): Account
    decreases |logins|
  {
    if logins == [] then a else RecordAll(Record(a, logins[0]), logins[1..])
  }

  /** The times of the failed password checks that were recorded. */
  function Failures(a: Account, logins: seq<Login>): seq<int>
    decreases |logins|
  {
    if logins == [] then []
    else (if Check(a, logins[0]).WrongPassword? then [logins[0].time] else [])
         + Failures(Record(a, logins[0]), logins[1..])
  }

  predicate NoneAccepted(a: Account, logins: seq<Login>)
    decreases |logins|
  {
    logins == [] || (!Check(a, logins[0]).Accepted? && NoneAccepted(Record(a, logins[0]), logins[1..]))
  }

  predicate Monotone(logins: seq<Login>) {
    forall i, j :: 0 <= i < j < |logins| ==> logins[i].time <= logins[j].time
  }

  /** The counter has reached the limit exactly when a lock time is set, expired or not. */
  predicate Consistent(a: Account) {
    a.failedAttempts >= MAX_ATTEMPTS <==> a.lockedUntil.Some?
  }

  lemma {:induction false} StaysConsistent(a: Account, logins: seq<Login>)
    requires Consistent(a)
    ensures Consistent(RecordAll(a, logins))
    decreases |logins|
  {
    if logins != [] {
      StaysConsistent(Record(a, logins[0]), logins[1..]);
    }
  }

  /** The counter survives the end of a lock: with five failures on record, the next wrong password
      after the lock locks the account again at once. */
  lemma {:induction false} RelocksAtOnce(a: Account, logins: seq<Login>, l: Login)
    requires Consistent(a) && a.lockedUntil.Some? && NoneAccepted(a, logins)
    requires !IsLocked(RecordAll(a, logins), l.time) && !l.passwordOk
    ensures IsLocked(Record(RecordAll(a, logins), l), l.time)
    decreases |logins|
  {
    if logins != [] {
      RelocksAtOnce(Record(a, logins[0]), logins[1..], l);
    }
  }

  /** From the failure that fills the counter on, failures are half an hour apart, and none comes
      before a lock already set has ended. */
  ghost predicate Spaced(a: Account, times: seq<int>) {
    && (forall j :: 1 <= j < |times| && a.failedAttempts + j >= MAX_ATTEMPTS ==> times[j] >= times[j - 1] + LOCK_TIME)
    && (times != [] && a.lockedUntil.Some? ==> times[0] >= a.lockedUntil.value)
  }

  lemma SpacedStep(a: Account, t: int, rest: seq<int>)
    requires Consistent(a) && !IsLocked(a, t) && Spaced(Failed(a, t), rest)
    ensures Spaced(a, [t] + rest)
  {
    var times := [t] + rest;
    forall j | 1 <= j < |times| && a.failedAttempts + j >= MAX_ATTEMPTS
      ensures times[j] >= times[j - 1] + LOCK_TIME
    {
      if j > 1 {
        assert rest[j - 1] >= rest[j - 2] + LOCK_TIME;
      }
    }
  }

  lemma {:induction false} FailuresAreSpaced(a: Account, logins: seq<Login>)
    requires Consistent(a) && NoneAccepted(a, logins)
    ensures Spaced(a, Failures(a, logins))
    decreases |logins|
  {
    assert Spaced(a, []);
    assert logins != [] ==> (Check(a, logins[0]).WrongPassword? ==> !IsLocked(a, logins[0].time));
    assert logins != [] ==> Consistent(Record(a, logins[0]));
    hide Spaced, IsLocked, Failed, Consistent;
    if logins != [] {
      var l := logins[0];
      FailuresAreSpaced(Record(a, l), logins[1..]);
      var rest := Failures(Record(a, l), logins[1..]);
      if Check(a, l).WrongPassword? {
        SpacedStep(a, l.time, rest);
      } else {
        assert [] + rest == rest;
      }
    }
  }

  lemma {:induction false} FailuresAreOrdered(a: Account, logins: seq<Login>)
    requires Monotone(logins)
    ensures Ordered(Failures(a, logins))
    ensures forall k :: 0 <= k < |Failures(a, logins)| ==> logins != [] && logins[0].time <= Failures(a, logins)[k]
    decreases |logins|
  {
    if logins != [] {
      assert forall i :: 0 <= i < |logins| ==> logins[0].time <= logins[i].time;
      FailuresAreOrdered(Record(a, logins[0]), logins[1..]);
    }
  }

  lemma {:induction false} SpacedSum(times: seq<int>, i: nat, j: nat)
    requires i <= j < |times| && forall k :: i < k <= j ==> times[k] >= times[k - 1] + LOCK_TIME
    ensures times[j] - times[i] >= (j - i) * LOCK_TIME
  {
    if i < j {
      SpacedSum(times, i, j - 1);
    }
  }

  /** Lockout bound.  Without a successful login, a user's recorded failures in any interval of length
      duration are at most five, and one more for every full half hour in it. */
  lemma LockoutBound(a: Account, logins: seq<Login>, start: int, duration: nat)
    requires Consistent(a) && Monotone(logins) && NoneAccepted(a, logins)
    ensures CountIn(Failures(a, logins), start, start + duration + 1) <= 5 + duration / (30 * 60 * 1_000_000)
  {
    hide Failures, NoneAccepted, Monotone, Ordered, CountIn, Consistent;
    var times := Failures(a, logins);
    FailuresAreSpaced(a, logins);
    FailuresAreOrdered(a, logins);
    if CountIn(times, start, start + duration + 1) > MAX_ATTEMPTS {
      var i, j := CountSpan(times, start, start + duration + 1);
      SpanIsLong(a, times, i, j);
      DivideBound(j - i - 4, duration);
    }
  }

  lemma SpanIsLong(a: Account, times: seq<int>, i: nat, j: nat)
    requires Spaced(a, times) && Ordered(times) && i + 4 <= j < |times|
    ensures (j - i - 4) * LOCK_TIME <= times[j] - times[i]
  {
    assert times[i] <= times[i + 4];
    SpacedSum(times, i + 4, j);
  }

  lemma DivideBound(n: nat, duration: nat)
    requires n * LOCK_TIME <= duration
    ensures n <= duration / LOCK_TIME
  {
  }

  /** Wrong passwords at the half hours from the k-th to the n-th. */
  function Persistent(k: nat, n: nat): seq<Login>
    decreases n - k
  {
    if k > n then [] else [Login(k * LOCK_TIME, false, false)] + Persistent(k + 1, n)
  }

  /** Four wrong passwords at once, and then one every half hour. */
  function Attack(n: nat): seq<Login> {
    var wrong := Login(0, false, false);
    [wrong, wrong, wrong, wrong] + Persistent(0, n)
  }

  lemma {:induction false} PersistentIs(k: nat, n: nat)
    ensures |Persistent(k, n)| == if k > n then 0 else n + 1 - k
    ensures forall i :: 0 <= i < |Persistent(k, n)| ==> Persistent(k, n)[i] == Login((k + i) * LOCK_TIME, false, false)
    decreases n - k
  {
    if k <= n {
      PersistentIs(k + 1, n);
    }
  }

  lemma {:induction false} AllRecorded(a: Account, k: nat, n: nat)
    requires a.failedAttempts >= MAX_ATTEMPTS - 1 && !IsLocked(a, k * LOCK_TIME)
    ensures NoneAccepted(a, Persistent(k, n))
    ensures |Failures(a, Persistent(k, n))| == |Persistent(k, n)|
    ensures forall t :: t in Failures(a, Persistent(k, n)) ==> k * LOCK_TIME <= t <= n * LOCK_TIME
    decreases n - k
  {
    if k <= n {
      var l := Login(k * LOCK_TIME, false, false);
      assert ([l] + Persistent(k + 1, n))[1..] == Persistent(k + 1, n);
      assert k * LOCK_TIME + LOCK_TIME == (k + 1) * LOCK_TIME;
      AllRecorded(Failed(a, l.time), k + 1, n);
      assert k * LOCK_TIME <= n * LOCK_TIME;
    }
  }

  lemma {:induction false} CountAll(times: seq<int>, lo: int, hi: int)
    requires forall i :: 0 <= i < |times| ==> lo <= times[i] < hi
    ensures CountIn(times, lo, hi) == |times|
  {
    if times != [] {
      CountAll(times[..|times| - 1], lo, hi);
    }
  }

  lemma FailuresCons(a: Account, l: Login, rest: seq<Login>)
    requires Check(a, l).WrongPassword?
    ensures Failures(a, [l] + rest) == [l.time] + Failures(Failed(a, l.time), rest)
    ensures NoneAccepted(Failed(a, l.time), rest) ==> NoneAccepted(a, [l] + rest)
  {
    assert ([l] + rest)[1..] == rest;
  }

  lemma AttackIsRecorded(a: Account, n: nat)
    requires a.failedAttempts == 0 && a.lockedUntil.None?
    ensures NoneAccepted(a, Attack(n)) && |Failures(a, Attack(n))| == MAX_ATTEMPTS + n
    ensures forall t :: t in Failures(a, Attack(n)) ==> 0 <= t <= n * LOCK_TIME
  {
    var wrong, rest := Login(0, false, false), Persistent(0, n);
    AllRecorded(a.(failedAttempts := 4), 0, n);
    PersistentIs(0, n);
    FailuresCons(a.(failedAttempts := 3), wrong, rest);
    FailuresCons(a.(failedAttempts := 2), wrong, [wrong] + rest);
    FailuresCons(a.(failedAttempts := 1), wrong, [wrong] + ([wrong] + rest));
    FailuresCons(a, wrong, [wrong] + ([wrong] + ([wrong] + rest)));
    hide Failures, NoneAccepted, Persistent;
    assert Attack(n) == [wrong] + ([wrong] + ([wrong] + ([wrong] + rest)));
  }

  /** The bound is met for every duration: an attack of n half hours gets 5 + n failures recorded. */
  lemma BoundIsTight(a: Account, n: nat)
    requires a.failedAttempts == 0 && a.lockedUntil.None?
    ensures Monotone(Attack(n)) && NoneAccepted(a, Attack(n))
    ensures var duration := n * (30 * 60 * 1_000_000);
            CountIn(Failures(a, Attack(n)), 0, duration + 1) == 5 + duration / (30 * 60 * 1_000_000)
  {
    AttackIsRecorded(a, n);
    PersistentIs(0, n);
    var times := Failures(a, Attack(n));
    assert forall i :: 0 <= i < |times| ==> times[i] in times;
    CountAll(times, 0, n * LOCK_TIME + 1);
    AttackIsMonotone(n);
    assert n * LOCK_TIME / LOCK_TIME == n;
    hide Failures, NoneAccepted, Attack, Monotone, CountIn;
  }

  lemma AttackIsMonotone(n: nat)
    ensures Monotone(Attack(n))
  {
    PersistentIs(0, n);
    var logins := Attack(n);
    assert forall i :: 4 <= i < |logins| ==> logins[i].time == (i - 4) * LOCK_TIME;
    hide Attack, Persistent;
    forall i, j | 0 <= i < j < |logins| ensures logins[i].time <= logins[j].time {
    }
  }

  // ---- When an account is locked ----

  lemma {:induction false} RecordAllIs(a: Account, logins: seq<Login>)
    requires NoneAccepted(a, logins)
    ensures var b, times := RecordAll(a, logins), Failures(a, logins);
            && b.failedAttempts == a.failedAttempts + |times|
            && b.lockedUntil == if times != [] && b.failedAttempts >= MAX_ATTEMPTS
                                then Some(times[|times| - 1] + LOCK_TIME) else a.lockedUntil
    decreases |logins|
  {
    if logins != [] {
      RecordAllIs(Record(a, logins[0]), logins[1..]);
    }
  }

  /** An account is locked exactly for the half hour after its last recorded failure, once there have
      been five since its last successful login. */
  lemma LockedIffRecentFailures(a: Account, logins: seq<Login>, now: int)
    requires a == Succeeded(a) && NoneAccepted(a, logins)
    ensures var times := Failures(a, logins);
            IsLocked(RecordAll(a, logins), now) <==>
              |times| >= 5 && now < times[|times| - 1] + 30 * 60 * 1_000_000
  {
    RecordAllIs(a, logins);
    hide RecordAll, Failures, NoneAccepted;
  }
}
