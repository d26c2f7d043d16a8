/**
 AuthenticationService: logins, refresh-token rotation with reuse detection, and the bulk tasks on the
 session table.  A rotation moves the live end of a login's chain of sessions; the replay of a token
 that has been rotated away kills every session of its user, as section 4.14.2 of RFC 9700 advises.
 */
module Sessions {
  import opened Options
  import opened Tenants
  import opened Windows
  import opened Lockout

  type UserId = nat
  /** Tokens are numbered in the order they are issued; any number may be presented. */
  type Token = nat

  /** SHA-256 of a token, taken to be injective. */
  datatype Hash = Sha256(token: Token)

  datatype LoginSession = LoginSession(user: UserId, device: string, isRevoked: bool, expiresAt: int)

  const REFRESH_LIFETIME := 7 * 24 * 60 * MINUTE

  datatype Auth = Auth(users: map<UserId, Account>, sessions: map<Hash, LoginSession>, nextToken: Token)

  datatype Code = INVALID_CREDENTIALS | ACCOUNT_LOCKED | MFA_REQUIRED | TOKEN_INVALID
  datatype Reply = Tokens(refresh: Token) | Refused(code: Code) | Silent

  predicate Live(s: Auth, h: Hash) {
    h in s.sessions && !s.sessions[h].isRevoked
  }

  function LiveOf(s: Auth, user: UserId): set<Hash> {
    set h | h in s.sessions && Live(s, h) && s.sessions[h].user == user
  }

  // ---- What each operation does to the tables ----

  datatype Answer = Answer(auth: Auth, reply: Reply)

  function Issued(s: Auth, user: UserId, device: string, now: int): Answer {
    var row := LoginSession(user, device, false, now + REFRESH_LIFETIME);
    Answer(s.(sessions := s.sessions[Sha256(s.nextToken) := row], nextToken := s.nextToken + 1), Tokens(s.nextToken))
  }

  /** scope is request.tenant, user the row found by email within it, if its tenant is scope. */
  function Authenticated(s: Auth, scope: Option<TenantId>, user: UserId, l: Login, device: string): Answer {
    if user !in s.users || s.users[user].tenant != scope then Answer(s, Refused(INVALID_CREDENTIALS))
    else
      var recorded := s.(users := s.users[user := Record(s.users[user], l)]);
      match Check(s.users[user], l)
      case Locked => Answer(s, Refused(ACCOUNT_LOCKED))
      case WrongPassword => Answer(recorded, Refused(INVALID_CREDENTIALS))
      case MfaRequired => Answer(s, Refused(MFA_REQUIRED))
      case Accepted => Issued(recorded, user, device, l.time)
  }

  function Revoked(row: LoginSession): LoginSession { row.(isRevoked := true) }

  function AllRevoked(s: Auth, user: UserId): Auth {
    s.(sessions := map h | h in s.sessions ::
      if s.sessions[h].user == user then Revoked(s.sessions[h]) else s.sessions[h])
  }

  function Rotated(s: Auth, token: Token, now: int): Answer {
    var h := Sha256(token);
    if h !in s.sessions then Answer(s, Refused(TOKEN_INVALID))
    else
      var row := s.sessions[h];
      if row.isRevoked then Answer(AllRevoked(s, row.user), Refused(TOKEN_INVALID))
      else Issued(s.(sessions := s.sessions[h := Revoked(row)]), row.user, row.device, now)
  }

  predicate InTenant(s: Auth, user: UserId, tenant: TenantId) {
    user in s.users && s.users[user].tenant == Some(tenant)
  }

  function TenantRevoked(s: Auth, tenant: TenantId): Auth {
    s.(sessions := map h | h in s.sessions ::
      if InTenant(s, s.sessions[h].user, tenant) then Revoked(s.sessions[h]) else s.sessions[h])
  }

  function Purged(s: Auth, now: int): Auth {
    s.(sessions := map h | h in s.sessions && s.sessions[h].expiresAt >= now :: s.sessions[h])
  }

  // ---- What the caller is promised ----

  /** Only tokens already issued have sessions. */
  predicate Sound(s: Auth) {
    forall h :: h in s.sessions ==> h.token < s.nextToken
  }

  predicate Found(s: Auth, scope: Option<TenantId>, user: UserId) {
    user in s.users && s.users[user].tenant == scope
  }

  /** A login is granted to a user of the request's tenant, or of the platform, who is not locked out, has
      the password right and, with MFA enabled, the code too; each refusal has its own code. */
  lemma LoginIsGrantedIff(s: Auth, scope: Option<TenantId>, user: UserId, l: Login, device: string)
    ensures var reply := Authenticated(s, scope, user, l, device).reply;
            if !Found(s, scope, user) then reply == Refused(INVALID_CREDENTIALS)
            else if s.users[user].lockedUntil.Some? && s.users[user].lockedUntil.value > l.time
            then reply == Refused(ACCOUNT_LOCKED)
            else if !l.passwordOk then reply == Refused(INVALID_CREDENTIALS)
            else if s.users[user].mfaEnabled && !l.mfaOk then reply == Refused(MFA_REQUIRED)
            else reply == Tokens(s.nextToken)
  {
  }

  /** What a login writes: nothing if it is refused, but for a wrong password of a user who is not locked,
      which is counted and from the fifth on locks the user for 30 minutes; if it is granted, the counter
      and the lock are cleared and one session is added, which expires after seven days. */
  lemma LoginWrites(s: Auth, scope: Option<TenantId>, user: UserId, l: Login, device: string)
    ensures var a := Authenticated(s, scope, user, l, device);
            if a.reply.Tokens? then
              var cleared := s.users[user].(failedAttempts := 0, lockedUntil := None);
              var row := LoginSession(user, device, false, l.time + 7 * 24 * 60 * 60 * 1_000_000);
              a.auth == Auth(s.users[user := cleared], s.sessions[Sha256(s.nextToken) := row], s.nextToken + 1)
            else if a.reply == Refused(INVALID_CREDENTIALS) && Found(s, scope, user) then
              var row, n := s.users[user], s.users[user].failedAttempts + 1;
              var until := if n >= 5 then Some(l.time + 30 * 60 * 1_000_000) else row.lockedUntil;
              a.auth == s.(users := s.users[user := row.(failedAttempts := n, lockedUntil := until)])
            else a.auth == s
  {
    LoginIsGrantedIff(s, scope, user, l, device);
  }

  /** A presented token that is unknown changes nothing; one that was revoked takes all live sessions of
      its user with it; a live one is revoked and replaced by one session of the same user and device,
      which expires seven days from now, and the expiry of the old one is not looked at. */
  lemma RotationAnswers(s: Auth, token: Token, now: int)
    requires Sound(s)
    ensures var a, h := Rotated(s, token, now), Sha256(token);
            if h !in s.sessions then a == Answer(s, Refused(TOKEN_INVALID))
            else
              var row := s.sessions[h];
              if row.isRevoked then
                && a.reply == Refused(TOKEN_INVALID) && a.auth.users == s.users
                && a.auth.sessions.Keys == s.sessions.Keys
                && forall g :: g in s.sessions ==>
                     a.auth.sessions[g] ==
                       if s.sessions[g].user == row.user then s.sessions[g].(isRevoked := true) else s.sessions[g]
              else
                var next := LoginSession(row.user, row.device, false, now + 7 * 24 * 60 * 60 * 1_000_000);
                && a.reply == Tokens(s.nextToken) && a.auth.users == s.users
                && a.auth.sessions == s.sessions[h := row.(isRevoked := true)][Sha256(s.nextToken) := next]
  {
  }

  class AuthenticationService {
    var users: map<UserId, Account>
    var sessions: map<Hash, LoginSession>
    var nextToken: Token

    function State(): Auth
      reads this
    {
      Auth(users, sessions, nextToken)
    }

    constructor (users: map<UserId, Account>)
      ensures State() == Auth(users, map[], 0)
    {
      this.users, sessions, nextToken := users, map[], 0;
    }

    method Authenticate(scope: Option<TenantId>, user: UserId, passwordOk: bool, mfaOk: bool, device: string, now: int)
      returns (reply: Reply)
      modifies this
      ensures Answer(State(), reply) == Authenticated(old(State()), scope, user, Login(now, passwordOk, mfaOk), device)
    {
      if user !in users || users[user].tenant != scope {
        return Refused(INVALID_CREDENTIALS);
      }
      var row := new User.FromRow(users[user]);
      var locked := row.IsLockedNow(now);
      if locked {
        return Refused(ACCOUNT_LOCKED);
      }
      if !passwordOk {
        row.RegisterFailedLogin(now);
        users := users[user := row.Row()];
        return Refused(INVALID_CREDENTIALS);
      }
      if row.mfaEnabled && !mfaOk {
        return Refused(MFA_REQUIRED);
      }
      row.RegisterSuccessfulLogin();
      users := users[user := row.Row()];
      reply := IssueSession(user, device, now);
    }

    method IssueSession(user: UserId, device: string, now: int) returns (reply: Reply)
      modifies this
      ensures Answer(State(), reply) == Issued(old(State()), user, device, now)
    {
      var refresh := nextToken;
      nextToken := nextToken + 1;
      sessions := sessions[Sha256(refresh) := LoginSession(user, device, false, now + REFRESH_LIFETIME)];
      reply := Tokens(refresh);
    }

    method RotateRefreshToken(token: Token, now: int) returns (reply: Reply)
      modifies this
      ensures Answer(State(), reply) == Rotated(old(State()), token, now)
    {
      var h := Sha256(token);
      if h !in sessions || sessions[h].isRevoked {
        if h in sessions {
          RevokeAllSessions(sessions[h].user);
        }
        return Refused(TOKEN_INVALID);
      }
      var session := sessions[h];
      sessions := sessions[h := session.(isRevoked := true)];
      reply := IssueSession(session.user, session.device, now);
    }

    method RevokeAllSessions(user: UserId)
      modifies this
      ensures State() == AllRevoked(old(State()), user)
      ensures LiveOf(State(), user) == {} && OnlyKills(old(State()), State())
      ensures forall other :: other != user ==> LiveOf(State(), other) == LiveOf(old(State()), other)
    {
      sessions := map h | h in sessions :: if sessions[h].user == user then Revoked(sessions[h]) else sessions[h];
    }

    method RevokeTenantSessions(tenant: TenantId)
      modifies this
      ensures State() == TenantRevoked(old(State()), tenant)
      ensures OnlyKills(old(State()), State())
      ensures forall user :: LiveOf(State(), user) ==
                if user in users && users[user].tenant == Some(tenant) then {} else LiveOf(old(State()), user)
      ensures users == old(users)
    {
      sessions := map h | h in sessions ::
        if sessions[h].user in users && users[sessions[h].user].tenant == Some(tenant)
        then Revoked(sessions[h]) else sessions[h];
    }

    method PurgeExpiredSessions(now: int)
      modifies this
      ensures State() == Purged(old(State()), now)
      ensures OnlyKills(old(State()), State())
      ensures forall h :: h in sessions <==> h in old(sessions) && old(sessions)[h].expiresAt >= now
      ensures forall h :: h in sessions ==> sessions[h] == old(sessions)[h]
    {
      sessions := map h | h in sessions && sessions[h].expiresAt >= now :: sessions[h];
    }
  }

  // ---- Runs ----

  datatype Event =
    | LogIn(scope: Option<TenantId>, user: UserId, login: Login, device: string)
    | Refresh(token: Token, time: int)
    | LogOutAll(user: UserId)
    | RevokeTenant(tenant: TenantId)
    | Purge(time: int)

  function Do(s: Auth, e: Event): Answer {
    match e
    case LogIn(scope, user, login, device) => Authenticated(s, scope, user, login, device)
    case Refresh(token, time) => Rotated(s, token, time)
    case LogOutAll(user) => Answer(AllRevoked(s, user), Silent)
    case RevokeTenant(tenant) => Answer(TenantRevoked(s, tenant), Silent)
    case Purge(time) => Answer(Purged(s, time), Silent)
  }

  /** For every token ever issued: the first token of its login, and whom it was issued to. */
  datatype Birth = Birth(root: Hash, user: UserId, device: string)

  datatype Ledger = Ledger(auth: Auth, births: map<Hash, Birth>)

  function Book(l: Ledger, e: Event): Ledger {
    var a := Do(l.auth, e);
    Ledger(a.auth,
      if !a.reply.Tokens? then l.births
      else
        var h := Sha256(a.reply.refresh);
        match e
        case LogIn(_, user, _, device) => l.births[h := Birth(h, user, device)]
        case Refresh(token, _) =>
          if Sha256(token) in l.births && Sha256(token) in l.auth.sessions
          then
            var row := l.auth.sessions[Sha256(token)];
            l.births[h := Birth(l.births[Sha256(token)].root, row.user, row.device)]
          else l.births
        case _ => l.births)
  }

  function Books(users: map<UserId, Account>, trace: seq<Event>): Ledger {
    if trace == [] then Ledger(Auth(users, map[], 0), map[])
    else Book(Books(users, trace[..|trace| - 1]), trace[|trace| - 1])
  }

  /** Every session was issued, and is of the user and device it was issued to. */
  ghost predicate Recorded(l: Ledger) {
    && (forall h :: h in l.births <==> h.token < l.auth.nextToken)
    && (forall h :: h in l.auth.sessions ==>
          && h in l.births
          && l.auth.sessions[h].user == l.births[h].user && l.auth.sessions[h].device == l.births[h].device)
  }

  /** User and device are constant along a chain. */
  ghost predicate Rooted(l: Ledger) {
    forall h :: h in l.births ==> l.births[h].root in l.births && l.births[l.births[h].root] == l.births[h]
  }

  /** A chain has at most one live end. */
  ghost predicate OneLive(l: Ledger) {
    forall g, h ::
      (g in l.births && h in l.births && Live(l.auth, g) && Live(l.auth, h) && l.births[g].root == l.births[h].root)
      ==> g == h
  }

  ghost predicate Lineage(l: Ledger) {
    Recorded(l) && Rooted(l) && OneLive(l)
  }

  /** s2 is s after some sessions were revoked or deleted. */
  ghost predicate OnlyKills(s: Auth, s2: Auth) {
    && s2.nextToken == s.nextToken
    && forall h :: h in s2.sessions ==>
         (h in s.sessions && s2.sessions[h] == s.sessions[h].(isRevoked := s2.sessions[h].isRevoked)
          && (s.sessions[h].isRevoked ==> s2.sessions[h].isRevoked))
  }

  lemma BulkOnlyKills(s: Auth, user: UserId, tenant: TenantId, h: Hash, now: int)
    ensures OnlyKills(s, AllRevoked(s, user)) && OnlyKills(s, TenantRevoked(s, tenant)) && OnlyKills(s, Purged(s, now))
    ensures h in s.sessions ==> OnlyKills(s, s.(sessions := s.sessions[h := Revoked(s.sessions[h])]))
  {
  }

  lemma KillsKeepOneLive(l: Ledger, s2: Auth)
    requires OneLive(l) && OnlyKills(l.auth, s2)
    ensures OneLive(Ledger(s2, l.births))
  {
    forall g | Live(s2, g) ensures Live(l.auth, g) {
    }
    hide Live, OnlyKills;
  }

  lemma KillsKeepRecorded(l: Ledger, s2: Auth)
    requires Recorded(l) && OnlyKills(l.auth, s2)
    ensures Recorded(Ledger(s2, l.births))
  {
  }

  lemma KillsKeepLineage(l: Ledger, s2: Auth)
    requires Lineage(l) && OnlyKills(l.auth, s2)
    ensures Lineage(Ledger(s2, l.births))
  {
    KillsKeepOneLive(l, s2);
    KillsKeepRecorded(l, s2);
    hide Recorded, OneLive, OnlyKills;
  }

  /** A chain may grow only when its last end is dead. */
  ghost predicate MayGrow(l: Ledger, birth: Birth) {
    || birth.root == Sha256(l.auth.nextToken)
    || (&& birth.root in l.births && l.births[birth.root] == birth
        && forall g :: g in l.births && Live(l.auth, g) ==> l.births[g].root != birth.root)
  }

  function Grown(l: Ledger, birth: Birth, now: int): Ledger {
    Ledger(Issued(l.auth, birth.user, birth.device, now).auth, l.births[Sha256(l.auth.nextToken) := birth])
  }

  lemma IssueKeepsRecorded(l: Ledger, birth: Birth, now: int)
    requires Recorded(l)
    ensures Recorded(Grown(l, birth, now))
  {
  }

  lemma IssueKeepsRooted(l: Ledger, birth: Birth, now: int)
    requires Recorded(l) && Rooted(l) && MayGrow(l, birth)
    ensures Rooted(Grown(l, birth, now))
  {
    hide Live;
  }

  lemma IssueKeepsOneLive(l: Ledger, birth: Birth, now: int)
    requires Recorded(l) && Rooted(l) && OneLive(l) && MayGrow(l, birth)
    ensures OneLive(Grown(l, birth, now))
  {
    var m, born := Grown(l, birth, now), Sha256(l.auth.nextToken);
    assert born !in l.births;
    forall g, h | g in m.births && h in m.births && Live(m.auth, g) && Live(m.auth, h)
      && m.births[g].root == m.births[h].root
      ensures g == h
    {
      assert g != born ==> g in l.births && Live(l.auth, g);
      assert h != born ==> h in l.births && Live(l.auth, h);
    }
  }

  lemma IssueKeepsLineage(l: Ledger, birth: Birth, now: int)
    requires Lineage(l) && MayGrow(l, birth)
    ensures Lineage(Grown(l, birth, now))
  {
    hide Recorded, Rooted, OneLive, MayGrow, Grown;
    IssueKeepsRecorded(l, birth, now);
    IssueKeepsRooted(l, birth, now);
    IssueKeepsOneLive(l, birth, now);
  }

  lemma BookKeepsLineage(l: Ledger, e: Event)
    requires Lineage(l)
    ensures Lineage(Book(l, e))
  {
    match e {
      case LogIn(scope, user, login, device) =>
        if Do(l.auth, e).reply.Tokens? {
          var recorded := l.auth.(users := l.auth.users[user := Record(l.auth.users[user], login)]);
          KillsKeepLineage(l, recorded);
          IssueKeepsLineage(Ledger(recorded, l.births), Birth(Sha256(l.auth.nextToken), user, device), login.time);
        } else {
          KillsKeepLineage(l, Do(l.auth, e).auth);
        }
      case Refresh(token, time) =>
        RotationKeepsLineage(l, token, time);
      case LogOutAll(user) =>
        BulkOnlyKills(l.auth, user, 0, Sha256(0), 0);
        KillsKeepLineage(l, AllRevoked(l.auth, user));
      case RevokeTenant(tenant) =>
        BulkOnlyKills(l.auth, 0, tenant, Sha256(0), 0);
        KillsKeepLineage(l, TenantRevoked(l.auth, tenant));
      case Purge(time) =>
        BulkOnlyKills(l.auth, 0, 0, Sha256(0), time);
        KillsKeepLineage(l, Purged(l.auth, time));
    }
    hide Lineage, OnlyKills, Check, Record;
  }

  /** Once its live end is revoked a chain has no live member. */
  lemma ChainIsDead(l: Ledger, h: Hash)
    requires Lineage(l) && h in l.auth.sessions && !l.auth.sessions[h].isRevoked
    ensures var killed := l.auth.(sessions := l.auth.sessions[h := Revoked(l.auth.sessions[h])]);
            forall g :: g in l.births && Live(killed, g) ==> l.births[g].root != l.births[h].root
  {
    assert Live(l.auth, h);
  }

  lemma BirthOfRoot(l: Ledger, h: Hash)
    requires Lineage(l) && h in l.auth.sessions
    ensures h in l.births && l.births[h].root in l.births && l.births[l.births[h].root] == l.births[h]
    ensures l.births[h] == Birth(l.births[h].root, l.auth.sessions[h].user, l.auth.sessions[h].device)
  {
  }

  lemma RotationKeepsLineage(l: Ledger, token: Token, time: int)
    requires Lineage(l)
    ensures Lineage(Book(l, Refresh(token, time)))
  {
    hide Lineage, OnlyKills, Live;
    var h := Sha256(token);
    if h in l.auth.sessions {
      var row := l.auth.sessions[h];
      BulkOnlyKills(l.auth, row.user, 0, h, 0);
      BirthOfRoot(l, h);
      if row.isRevoked {
        KillsKeepLineage(l, AllRevoked(l.auth, row.user));
      } else {
        var killed := l.auth.(sessions := l.auth.sessions[h := Revoked(row)]);
        KillsKeepLineage(l, killed);
        ChainIsDead(l, h);
        IssueKeepsLineage(Ledger(killed, l.births), l.births[h], time);
      }
    }
  }

  /** In every run each login's chain of sessions has at most one live member, and all its members
      belong to the same user and device. */
  lemma {:induction false} LineageHolds(users: map<UserId, Account>, trace: seq<Event>)
    ensures Lineage(Books(users, trace))
  {
    if trace != [] {
      hide Book;
      LineageHolds(users, trace[..|trace| - 1]);
      BookKeepsLineage(Books(users, trace[..|trace| - 1]), trace[|trace| - 1]);
    }
  }

  // ---- Dead sessions stay dead ----

  function After(s: Auth, trace: seq<Event>): Auth {
    if trace == [] then s else Do(After(s, trace[..|trace| - 1]), trace[|trace| - 1]).auth
  }

  lemma DeadStays(s: Auth, e: Event, h: Hash)
    requires Sound(s) && h.token < s.nextToken && !Live(s, h)
    ensures Sound(Do(s, e).auth) && h.token < Do(s, e).auth.nextToken && !Live(Do(s, e).auth, h)
  {
  }

  /** Revocation is never undone, and neither is a purge. */
  lemma {:induction false} DeadForever(s: Auth, trace: seq<Event>, h: Hash)
    requires Sound(s) && h.token < s.nextToken && !Live(s, h)
    ensures Sound(After(s, trace)) && h.token < After(s, trace).nextToken && !Live(After(s, trace), h)
  {
    if trace != [] {
      DeadForever(s, trace[..|trace| - 1], h);
      DeadStays(After(s, trace[..|trace| - 1]), trace[|trace| - 1], h);
    }
  }

  /** A refresh token rotates at most once, whatever happens between the two presentations. */
  lemma RotatesAtMostOnce(s: Auth, token: Token, first: int, trace: seq<Event>, second: int)
    requires Sound(s) && Rotated(s, token, first).reply.Tokens?
    ensures Rotated(After(Rotated(s, token, first).auth, trace), token, second).reply == Refused(TOKEN_INVALID)
  {
    DeadForever(Rotated(s, token, first).auth, trace, Sha256(token));
  }

  // ---- Replay ----

  predicate LogsIn(s: Auth, e: Event, user: UserId) {
    e.LogIn? && e.user == user && Do(s, e).reply.Tokens?
  }

  /** No authenticate for user succeeds in the trace. */
  predicate NoLogIn(s: Auth, trace: seq<Event>, user: UserId) {
    forall i :: 0 <= i < |trace| ==> !LogsIn(After(s, trace[..i]), trace[i], user)
  }

  predicate NoneLive(s: Auth, user: UserId) {
    forall h :: h in s.sessions && s.sessions[h].user == user ==> s.sessions[h].isRevoked
  }

  lemma NoneLiveStep(s: Auth, e: Event, user: UserId)
    requires NoneLive(s, user) && !LogsIn(s, e, user)
    ensures NoneLive(Do(s, e).auth, user)
  {
  }

  lemma {:induction false} StaysNoneLive(s: Auth, trace: seq<Event>, user: UserId)
    requires NoneLive(s, user) && NoLogIn(s, trace, user)
    ensures NoneLive(After(s, trace), user)
  {
    if trace != [] {
      var n := |trace| - 1;
      assert forall i :: 0 <= i < n ==> trace[..n][..i] == trace[..i];
      StaysNoneLive(s, trace[..n], user);
      NoneLiveStep(After(s, trace[..n]), trace[n], user);
    }
  }

  /** Replay response.  Presenting a token that was rotated away, and whose row is still there, leaves
      its user without a live session, and from then on no token of that user rotates until the user
      logs in again. */
  lemma ReplayKillsUser(s: Auth, token: Token, time: int, trace: seq<Event>, next: Token, later: int)
    requires Sha256(token) in s.sessions && s.sessions[Sha256(token)].isRevoked
    requires NoLogIn(Rotated(s, token, time).auth, trace, s.sessions[Sha256(token)].user)
    ensures var user, t := s.sessions[Sha256(token)].user, After(Rotated(s, token, time).auth, trace);
            && LiveOf(t, user) == {}
            && (Sha256(next) in t.sessions && t.sessions[Sha256(next)].user == user ==>
                Rotated(t, next, later).reply == Refused(TOKEN_INVALID))
  {
    var user, s2 := s.sessions[Sha256(token)].user, Rotated(s, token, time).auth;
    assert NoneLive(s2, user);
    StaysNoneLive(s2, trace, user);
    hide After, NoLogIn;
  }

  /** Where the response ends: a token whose row has been purged is unknown, and presenting it changes
      nothing. */
  lemma PurgedReplayIsIgnored(s: Auth, token: Token, purge: int, time: int)
    requires Sha256(token) in s.sessions && s.sessions[Sha256(token)].expiresAt < purge
    ensures Rotated(Purged(s, purge), token, time) == Answer(Purged(s, purge), Refused(TOKEN_INVALID))
  {
  }

  lemma IssueAddsOne(s: Auth, owner: UserId, device: string, now: int, user: UserId)
    requires Sound(s)
    ensures var t := Issued(s, owner, device, now).auth;
            |LiveOf(t, user)| == |LiveOf(s, user)| + if owner == user then 1 else 0
  {
    var t, born := Issued(s, owner, device, now).auth, Sha256(s.nextToken);
    assert LiveOf(t, user) == LiveOf(s, user) + if owner == user then {born} else {};
    assert born !in LiveOf(s, user);
  }

  lemma RevokingTakesOne(s: Auth, h: Hash, user: UserId)
    requires h in s.sessions && !s.sessions[h].isRevoked
    ensures var t := s.(sessions := s.sessions[h := Revoked(s.sessions[h])]);
            |LiveOf(t, user)| == |LiveOf(s, user)| - if s.sessions[h].user == user then 1 else 0
  {
    var t := s.(sessions := s.sessions[h := Revoked(s.sessions[h])]);
    assert LiveOf(t, user) == LiveOf(s, user) - if s.sessions[h].user == user then {h} else {};
    assert s.sessions[h].user == user <==> h in LiveOf(s, user);
  }

  lemma BulkTakes(s: Auth, e: Event, user: UserId)
    requires !Do(s, e).reply.Tokens?
    ensures LiveOf(Do(s, e).auth, user) <= LiveOf(s, user)
  {
  }

  /** One event: a login adds one live session, a rotation replaces one, and nothing else ever
      adds one. */
  lemma LiveSessionsConserved(s: Auth, e: Event, user: UserId)
    requires Sound(s)
    ensures var t, issued := Do(s, e).auth, Do(s, e).reply.Tokens?;
            if issued then |LiveOf(t, user)| == |LiveOf(s, user)| + (if LogsIn(s, e, user) then 1 else 0)
            else LiveOf(t, user) <= LiveOf(s, user)
  {
    if !Do(s, e).reply.Tokens? {
      BulkTakes(s, e, user);
    } else if e.LogIn? {
      var recorded := s.(users := s.users[e.user := Record(s.users[e.user], e.login)]);
      assert LiveOf(recorded, user) == LiveOf(s, user);
      IssueAddsOne(recorded, e.user, e.device, e.login.time, user);
    } else {
      var h := Sha256(e.token);
      var row := s.sessions[h];
      RevokingTakesOne(s, h, user);
      IssueAddsOne(s.(sessions := s.sessions[h := Revoked(row)]), row.user, row.device, e.time, user);
    }
    hide LiveOf, Check, Record;
  }

  // ---- Conservation over traces ----

  /** The events that end sessions of user: a replay, a logout, a revocation, and a purge that meets
      a live one. */
  predicate Ends(s: Auth, e: Event, user: UserId) {
    match e
    case LogIn(_, _, _, _) => false
    case Refresh(token, _) =>
      Sha256(token) in s.sessions && s.sessions[Sha256(token)].isRevoked && s.sessions[Sha256(token)].user == user
    case LogOutAll(u) => u == user
    case RevokeTenant(tenant) => InTenant(s, user, tenant)
    case Purge(time) => exists h :: h in LiveOf(s, user) && s.sessions[h].expiresAt < time
  }

  predicate Undisturbed(s: Auth, trace: seq<Event>, user: UserId) {
    forall i :: 0 <= i < |trace| ==> !Ends(After(s, trace[..i]), trace[i], user)
  }

  /** The number of logins of user that succeed. */
  function LogIns(s: Auth, trace: seq<Event>, user: UserId): nat {
    if trace == [] then 0
    else
      var n := |trace| - 1;
      LogIns(s, trace[..n], user) + if LogsIn(After(s, trace[..n]), trace[n], user) then 1 else 0
  }

  lemma QuietEventKeepsLive(s: Auth, e: Event, user: UserId)
    requires !Ends(s, e, user) && !Do(s, e).reply.Tokens?
    ensures LiveOf(Do(s, e).auth, user) == LiveOf(s, user)
  {
    if e.Refresh? && Sha256(e.token) in s.sessions {
      assert s.sessions[Sha256(e.token)].isRevoked;
    }
  }

  lemma SoundAfter(s: Auth, e: Event)
    requires Sound(s)
    ensures Sound(Do(s, e).auth)
  {
  }

  /** Conservation.  Between two events that end sessions of a user, the number of the user's live
      sessions is what it was plus one for every successful login: rotations conserve it. */
  lemma {:induction false} LiveCountIsLogIns(s: Auth, trace: seq<Event>, user: UserId)
    requires Sound(s) && Undisturbed(s, trace, user)
    ensures Sound(After(s, trace))
    ensures |LiveOf(After(s, trace), user)| == |LiveOf(s, user)| + LogIns(s, trace, user)
  {
    if trace != [] {
      hide Sound, LiveOf, Do, Ends, LogsIn;
      var n := |trace| - 1;
      assert forall i :: 0 <= i < n ==> trace[..n][..i] == trace[..i];
      LiveCountIsLogIns(s, trace[..n], user);
      var t := After(s, trace[..n]);
      SoundAfter(t, trace[n]);
      LiveSessionsConserved(t, trace[n], user);
      if !Do(t, trace[n]).reply.Tokens? {
        QuietEventKeepsLive(t, trace[n], user);
        OnlyTokensLogIn(t, trace[n], user);
      }
    }
  }

  lemma OnlyTokensLogIn(s: Auth, e: Event, user: UserId)
    requires !Do(s, e).reply.Tokens?
    ensures !LogsIn(s, e, user)
  {
  }

  /** All of them but a purge end every session of the user. */
  lemma EndsAll(s: Auth, e: Event, user: UserId)
    requires Ends(s, e, user) && !e.Purge?
    ensures LiveOf(Do(s, e).auth, user) == {}
  {
  }
}
