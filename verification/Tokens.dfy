/**
 * One-time tokens and sessions: resetting a password and verifying an email, each as the statements of one
 * database transaction, interleaved with each other and with logins, refreshes and logouts.
 */
module Tokens {
  import opened Prelude

  datatype User = User(passwordHash: string, emailVerified: bool, updatedAt: Time)

  datatype Session = Session(
    user: Id, refreshHash: string, createdAt: Time, expiresAt: Time, lastUsedAt: Option<Time>, revokedAt: Option<Time>)

  datatype Purpose = PasswordReset | EmailVerification

  datatype Token = Token(user: Id, purpose: Purpose, hash: string, expiresAt: Time, usedAt: Option<Time>)

  datatype Store = Store(users: map<Id, User>, sessions: map<Id, Session>, tokens: map<Id, Token>)

  datatype AuthError = InvalidAccessToken | InvalidRefreshToken | InvalidToken

  // ---- What a session is good for -----------------------------------------

  predicate Accepts(s: Session, at: Time) {
    s.revokedAt.None? && s.expiresAt > at
  }

  /** The check behind every authenticated request, for the user and session named by a verified access token. */
  function Authenticate(db: Store, user: Id, session: Id, at: Time): Result<Session, AuthError> {
    if user !in db.users || session !in db.sessions then Failure(InvalidAccessToken)
    else
      var s := db.sessions[session];
      if s.user != user || s.revokedAt.Some? || !(s.expiresAt > at) then Failure(InvalidAccessToken)
      else Success(s)
  }

  /** The active session found by the hash of a refresh token. */
  function ActiveByRefreshHash(db: Store, session: Id, hash: string, at: Time): Result<Session, AuthError> {
    if session !in db.sessions || db.sessions[session].refreshHash != hash then Failure(InvalidRefreshToken)
    else if db.sessions[session].revokedAt.Some? || !(db.sessions[session].expiresAt > at) then Failure(InvalidRefreshToken)
    else Success(db.sessions[session])
  }

  /** A refresh looks the session up and then touches it, each at its own instant and on its own state. */
  predicate Refreshes(found: Store, touched: Store, session: Id, hash: string, foundAt: Time, touchedAt: Time) {
    ActiveByRefreshHash(found, session, hash, foundAt).Success?
    && session in touched.sessions && Accepts(touched.sessions[session], touchedAt)
  }

  /** A request passes for an existing user with a session of its own that is neither revoked nor expired. */
  lemma WhoIsAccepted(db: Store, user: Id, session: Id, hash: string, at: Time)
    ensures Authenticate(db, user, session, at).Success? <==>
              && user in db.users && session in db.sessions && db.sessions[session].user == user
              && db.sessions[session].revokedAt == None && at < db.sessions[session].expiresAt
    ensures Authenticate(db, user, session, at).Success? ==> Authenticate(db, user, session, at).value == db.sessions[session]
    ensures ActiveByRefreshHash(db, session, hash, at).Success? <==>
              && session in db.sessions && db.sessions[session].refreshHash == hash
              && db.sessions[session].revokedAt == None && at < db.sessions[session].expiresAt
  {
  }

  // ---- Statements ---------------------------------------------------------

  function WithPassword(u: User, hash: string, now: Time): User {
    u.(passwordHash := hash, updatedAt := now)
  }

  function WithVerified(u: User, now: Time): User {
    u.(emailVerified := true, updatedAt := now)
  }

  /** The rows that revoking all sessions of a user writes. */
  function RevokedRows(sessions: map<Id, Session>, user: Id, now: Time): map<Id, Session> {
    map k | k in sessions && sessions[k].user == user && Accepts(sessions[k], now) :: sessions[k].(revokedAt := Some(now))
  }

  predicate Usable(t: Token, now: Time) {
    t.usedAt.None? && t.expiresAt > now
  }

  // ---- Attempts -----------------------------------------------------------

  datatype Stage = Found | Timed | Written | Revoked | Marked

  /** The uncommitted rows of an attempt, which nobody else can write. */
  datatype Held = Held(user: Option<User>, sessions: map<Id, Session>, token: Option<Token>)

  const NOTHING := Held(None, map[], None)

  /** A running attempt remembers the sessions of its user that were committed when it revoked them. */
  datatype Attempt =
    | Idle
    | Asked(purpose: Purpose, hash: string, password: string)
    | Running(purpose: Purpose, password: string, token: Id, user: Id, now: Time, stage: Stage, held: Held, witnessed: set<Id>)

  datatype System = System(committed: Store, attempts: seq<Attempt>)

  datatype Event =
    | Begin(i: nat, purpose: Purpose, hash: string, password: string)
    | Find(i: nat, token: Id)
    | ReadClock(i: nat)
    | WriteUser(i: nat)
    | RevokeSessions(i: nat)
    | MarkToken(i: nat)
    | Commit(i: nat)
    | Abort(i: nat)
    | AddUser(user: Id, row: User)
    | AddToken(id: Id, issued: Token)
    | AddSession(session: Id, login: Session)
    | Touch(session: Id, now: Time)
    | RevokeOne(session: Id, now: Time)
    | RevokeAll(user: Id, now: Time)

  predicate HoldsUser(a: Attempt, user: Id) {
    a.Running? && a.held.user.Some? && a.user == user
  }

  predicate HoldsSession(a: Attempt, session: Id) {
    a.Running? && session in a.held.sessions
  }

  predicate HoldsToken(a: Attempt, token: Id) {
    a.Running? && a.held.token.Some? && a.token == token
  }

  predicate UserFree(s: System, user: Id) {
    forall j | 0 <= j < |s.attempts| :: !HoldsUser(s.attempts[j], user)
  }

  predicate SessionFree(s: System, session: Id) {
    forall j | 0 <= j < |s.attempts| :: !HoldsSession(s.attempts[j], session)
  }

  predicate SessionsFree(s: System, rows: map<Id, Session>) {
    forall k | k in rows :: SessionFree(s, k)
  }

  predicate TokenFree(s: System, token: Id) {
    forall j | 0 <= j < |s.attempts| :: !HoldsToken(s.attempts[j], token)
  }

  predicate At(a: Attempt, stage: Stage) {
    a.Running? && a.stage == stage
  }

  /** The events of one attempt, statement by statement; a statement that finds no row ends in a rollback instead. */
  predicate AttemptEnabled(s: System, e: Event, at: Time)
    requires !(e.AddUser? || e.AddToken? || e.AddSession? || e.Touch? || e.RevokeOne? || e.RevokeAll?)
  {
    e.i < |s.attempts| &&
    var a := s.attempts[e.i];
    match e
    case Begin(_, _, _, _) => a.Idle?
    case Find(_, token) =>
      a.Asked? && token in s.committed.tokens && s.committed.tokens[token].purpose == a.purpose
      && s.committed.tokens[token].hash == a.hash && Usable(s.committed.tokens[token], at)
    case ReadClock(_) => At(a, Found)
    case WriteUser(_) => At(a, Timed) && a.user in s.committed.users && UserFree(s, a.user)
    case RevokeSessions(_) =>
      At(a, Written) && a.purpose == PasswordReset && SessionsFree(s, RevokedRows(s.committed.sessions, a.user, a.now))
    case MarkToken(_) =>
      At(a, if a.Running? && a.purpose == PasswordReset then Revoked else Written)
      && a.token in s.committed.tokens && Usable(s.committed.tokens[a.token], a.now) && TokenFree(s, a.token)
    case Commit(_) => At(a, Marked)
    case Abort(_) => !a.Idle?
  }

  /** The single statements of the other services commit at once; they wait for locked rows too. */
  predicate SingleEnabled(s: System, e: Event)
    requires e.AddUser? || e.AddToken? || e.AddSession? || e.Touch? || e.RevokeOne? || e.RevokeAll?
  {
    match e
    case AddUser(user, _) => user !in s.committed.users
    case AddToken(id, issued) => id !in s.committed.tokens && issued.usedAt.None?
    case AddSession(session, login) => session !in s.committed.sessions && login.revokedAt.None?
    case Touch(session, now) => session in s.committed.sessions && Accepts(s.committed.sessions[session], now) && SessionFree(s, session)
    case RevokeOne(session, _) =>
      session in s.committed.sessions && s.committed.sessions[session].revokedAt.None? && SessionFree(s, session)
    case RevokeAll(user, now) => SessionsFree(s, RevokedRows(s.committed.sessions, user, now))
  }

  predicate Single(e: Event) {
    e.AddUser? || e.AddToken? || e.AddSession? || e.Touch? || e.RevokeOne? || e.RevokeAll?
  }

  predicate Enabled(s: System, e: Event, at: Time) {
    if Single(e) then SingleEnabled(s, e) else AttemptEnabled(s, e, at)
  }

  function AfterSingle(db: Store, e: Event): Store
    requires Single(e) && (e.Touch? || e.RevokeOne? ==> e.session in db.sessions)
  {
    match e
    case AddUser(user, row) => db.(users := db.users[user := row])
    case AddToken(id, issued) => db.(tokens := db.tokens[id := issued])
    case AddSession(session, login) => db.(sessions := db.sessions[session := login])
    case Touch(session, now) => db.(sessions := db.sessions[session := db.sessions[session].(lastUsedAt := Some(now))])
    case RevokeOne(session, now) => db.(sessions := db.sessions[session := db.sessions[session].(revokedAt := Some(now))])
    case RevokeAll(user, now) => db.(sessions := db.sessions + RevokedRows(db.sessions, user, now))
  }

  /** The committed store once an attempt's rows are committed. */
  function Committed(db: Store, a: Attempt): Store
    requires a.Running? && a.held.user.Some? && a.held.token.Some?
  {
    Store(db.users[a.user := a.held.user.value], db.sessions + a.held.sessions, db.tokens[a.token := a.held.token.value])
  }

  function WrittenUser(a: Attempt, u: User): User
    requires a.Running?
  {
    if a.purpose == PasswordReset then WithPassword(u, a.password, a.now) else WithVerified(u, a.now)
  }

  function AfterAttempt(db: Store, a: Attempt, e: Event, at: Time): Attempt
    requires !Single(e)
    requires e.Find? ==> a.Asked? && e.token in db.tokens
    requires e.ReadClock? || e.WriteUser? || e.RevokeSessions? || e.MarkToken? ==> a.Running?
    requires e.WriteUser? ==> a.user in db.users
    requires e.MarkToken? ==> a.token in db.tokens
  {
    match e
    case Begin(_, purpose, hash, password) => Asked(purpose, hash, password)
    case Find(_, token) => Running(a.purpose, a.password, token, db.tokens[token].user, at, Found, NOTHING, {})
    case ReadClock(_) => a.(now := at, stage := Timed)
    case WriteUser(_) => a.(stage := Written, held := a.held.(user := Some(WrittenUser(a, db.users[a.user]))))
    case RevokeSessions(_) =>
      a.(stage := Revoked, held := a.held.(sessions := RevokedRows(db.sessions, a.user, a.now)),
         witnessed := set k | k in db.sessions && db.sessions[k].user == a.user)
    case MarkToken(_) => a.(stage := Marked, held := a.held.(token := Some(db.tokens[a.token].(usedAt := Some(a.now)))))
    case Commit(_) => Idle
    case Abort(_) => Idle
  }

  function After(s: System, e: Event, at: Time): System
    requires Enabled(s, e, at)
    requires e.Commit? ==> Ready(s.attempts[e.i])
  {
    if Single(e) then s.(committed := AfterSingle(s.committed, e))
    else
      System(if e.Commit? then Committed(s.committed, s.attempts[e.i]) else s.committed,
             s.attempts[e.i := AfterAttempt(s.committed, s.attempts[e.i], e, at)])
  }

  /** An attempt that has written its user and marked its token. */
  predicate Ready(a: Attempt) {
    a.Running? && a.held.user.Some? && a.held.token.Some?
  }

  // ---- The invariant ------------------------------------------------------

  /** Never accepted again: revoked, or expired by `now`. */
  predicate Dead(db: Store, session: Id, now: Time) {
    session in db.sessions && (db.sessions[session].revokedAt.Some? || db.sessions[session].expiresAt <= now)
  }

  predicate HeldOk(db: Store, a: Attempt)
    requires a.Running?
  {
    && (a.held.user.Some? <==> a.stage in {Written, Revoked, Marked})
    && (a.held.user.Some? ==> a.user in db.users && a.held.user.value == WrittenUser(a, db.users[a.user]))
    && (a.held.token.Some? <==> a.stage == Marked)
    && (a.held.token.Some? ==> a.token in db.tokens && db.tokens[a.token].usedAt.None?
                               && a.held.token.value == db.tokens[a.token].(usedAt := Some(a.now)))
    && (forall k | k in a.held.sessions :: k in db.sessions && a.held.sessions[k] == db.sessions[k].(revokedAt := Some(a.now)))
  }

  predicate WitnessedOk(db: Store, a: Attempt)
    requires a.Running?
  {
    && a.held.sessions.Keys <= a.witnessed && (a.stage in {Found, Timed, Written} ==> a.witnessed == {})
    && (forall k | k in a.witnessed :: k in db.sessions && db.sessions[k].user == a.user
                                       && (k in a.held.sessions || Dead(db, k, a.now)))
  }

  predicate AttemptOk(db: Store, a: Attempt, at: Time) {
    a.Running? ==>
      HeldOk(db, a) && WitnessedOk(db, a) && a.now <= at && a.token in db.tokens && db.tokens[a.token].user == a.user
  }

  predicate Apart(a: Attempt, b: Attempt) {
    a.Running? && b.Running? ==>
      a.held.sessions.Keys !! b.held.sessions.Keys
      && !(a.held.user.Some? && b.held.user.Some? && a.user == b.user)
      && !(a.held.token.Some? && b.held.token.Some? && a.token == b.token)
  }

  predicate AllApart(attempts: seq<Attempt>) {
    forall i, j | 0 <= i < j < |attempts| :: Apart(attempts[i], attempts[j])
  }

  predicate Inv(s: System, at: Time) {
    (forall i | 0 <= i < |s.attempts| :: AttemptOk(s.committed, s.attempts[i], at)) && AllApart(s.attempts)
  }

  /** What every event leaves of the store: rows stay, used tokens stay used, dead sessions stay dead. */
  predicate Endures(db: Store, next: Store) {
    && db.users.Keys <= next.users.Keys
    && (forall k | k in db.tokens :: k in next.tokens && next.tokens[k] == db.tokens[k].(usedAt := next.tokens[k].usedAt)
                                     && (db.tokens[k].usedAt.Some? ==> next.tokens[k] == db.tokens[k]))
    && (forall k | k in db.sessions ::
          k in next.sessions && next.sessions[k].user == db.sessions[k].user && next.sessions[k].expiresAt == db.sessions[k].expiresAt
          && (db.sessions[k].revokedAt.Some? ==> next.sessions[k].revokedAt.Some?))
  }

  // ---- Events keep the invariant ------------------------------------------

  /** Rows that an attempt has locked are the same in both stores. */
  predicate LockedSame(db: Store, next: Store, a: Attempt)
    requires a.Running?
  {
    && (a.held.user.Some? && a.user in db.users ==> a.user in next.users && next.users[a.user] == db.users[a.user])
    && (a.held.token.Some? && a.token in db.tokens ==> a.token in next.tokens && next.tokens[a.token] == db.tokens[a.token])
    && (forall k | k in a.held.sessions && k in db.sessions :: k in next.sessions && next.sessions[k] == db.sessions[k])
  }

  lemma SingleLocked(s: System, e: Event, i: nat)
    requires Single(e) && SingleEnabled(s, e) && i < |s.attempts| && s.attempts[i].Running?
    requires s.attempts[i].held.user.Some? ==> s.attempts[i].user in s.committed.users
    ensures LockedSame(s.committed, AfterSingle(s.committed, e), s.attempts[i])
  {
    var a := s.attempts[i];
    if e.Touch? || e.RevokeOne? {
      assert !HoldsSession(a, e.session);
    }
    if e.RevokeAll? {
      var rows := RevokedRows(s.committed.sessions, e.user, e.now);
      forall k | k in a.held.sessions ensures k !in rows {
        if k in rows {
          assert SessionFree(s, k) && HoldsSession(a, k);
        }
      }
    }
  }

  lemma InvSingle(s: System, e: Event, at: Time, later: Time)
    requires Inv(s, at) && at <= later && Single(e) && Enabled(s, e, later)
    ensures Inv(After(s, e, later), later)
  {
    forall i | 0 <= i < |s.attempts| ensures AttemptOk(AfterSingle(s.committed, e), s.attempts[i], later) {
      if s.attempts[i].Running? {
        SingleLocked(s, e, i);
      }
    }
  }

  lemma ReplaceApart(s: System, i: nat, a: Attempt, at: Time)
    requires Inv(s, at) && i < |s.attempts| && forall j | 0 <= j < |s.attempts| && j != i :: Apart(a, s.attempts[j])
    ensures AllApart(s.attempts[i := a])
  {
    var next := s.attempts[i := a];
    forall j, k | 0 <= j < k < |next| ensures Apart(next[j], next[k]) {
      if k == i {
        assert Apart(a, s.attempts[j]);
      }
    }
  }

  lemma InvMove(s: System, e: Event, at: Time, later: Time)
    requires Inv(s, at) && at <= later && !Single(e) && !e.Commit? && Enabled(s, e, later)
    ensures Inv(After(s, e, later), later)
  {
    var a := AfterAttempt(s.committed, s.attempts[e.i], e, later);
    forall j | 0 <= j < |s.attempts| && j != e.i ensures Apart(a, s.attempts[j]) && AttemptOk(s.committed, s.attempts[j], later) {}
    ReplaceApart(s, e.i, a, at);
  }

  lemma CommitLocked(db: Store, a: Attempt, b: Attempt)
    requires Ready(a) && b.Running? && Apart(a, b)
    ensures LockedSame(db, Committed(db, a), b)
  {
  }

  lemma InvCommit(s: System, e: Event, at: Time, later: Time)
    requires Inv(s, at) && at <= later && e.Commit? && Enabled(s, e, later) && Ready(s.attempts[e.i])
    ensures Inv(After(s, e, later), later)
  {
    var a := s.attempts[e.i];
    var next := Committed(s.committed, a);
    assert AttemptOk(s.committed, a, at);
    forall j | 0 <= j < |s.attempts| && j != e.i ensures AttemptOk(next, s.attempts[j], later) {
      if s.attempts[j].Running? {
        CommitLocked(s.committed, a, s.attempts[j]);
      }
    }
    ReplaceApart(s, e.i, Idle, at);
  }

  lemma EventEndures(s: System, e: Event, at: Time, later: Time)
    requires Inv(s, at) && Enabled(s, e, later) && (e.Commit? ==> Ready(s.attempts[e.i]))
    ensures Endures(s.committed, After(s, e, later).committed)
  {
    if e.Commit? {
      assert AttemptOk(s.committed, s.attempts[e.i], at);
    }
  }

  // ---- Interleavings ------------------------------------------------------

  const EMPTY := Store(map[], map[], map[])

  predicate Happens(events: seq<Event>, times: seq<Time>, states: seq<System>, n: nat)
    requires |times| == |events| && |states| == |events| + 1 && n < |events|
  {
    Enabled(states[n], events[n], times[n])
    && (events[n].Commit? ==> Ready(states[n].attempts[events[n].i]))
    && states[n + 1] == After(states[n], events[n], times[n])
  }

  /** An interleaving from an empty store under a clock that never runs backwards. */
  predicate IsInterleaving(events: seq<Event>, times: seq<Time>, states: seq<System>) {
    && |times| == |events| && |states| == |events| + 1
    && states[0].committed == EMPTY && (forall i | 0 <= i < |states[0].attempts| :: states[0].attempts[i] == Idle)
    && (forall m, n | 0 <= m < n < |times| :: times[m] <= times[n])
    && (forall n | 0 <= n < |events| :: Happens(events, times, states, n))
  }

  /** The instant up to which the run has come before event `n`. */
  function Reached(times: seq<Time>, n: nat): Time
    requires n <= |times|
  {
    if |times| == 0 then 0 else if n == 0 then times[0] else times[n - 1]
  }

  lemma {:induction false} AlwaysInv(events: seq<Event>, times: seq<Time>, states: seq<System>, n: nat)
    requires IsInterleaving(events, times, states) && n <= |events|
    ensures Inv(states[n], Reached(times, n))
  {
    if n > 0 {
      AlwaysInv(events, times, states, n - 1);
      InvHappens(events, times, states, n - 1);
    }
  }

  lemma InvHappens(events: seq<Event>, times: seq<Time>, states: seq<System>, n: nat)
    requires IsInterleaving(events, times, states) && n < |events| && Inv(states[n], Reached(times, n))
    ensures Inv(states[n + 1], times[n])
  {
    assert Happens(events, times, states, n);
    var s, e, at, later := states[n], events[n], Reached(times, n), times[n];
    if Single(e) {
      InvSingle(s, e, at, later);
    } else if e.Commit? {
      InvCommit(s, e, at, later);
    } else {
      InvMove(s, e, at, later);
    }
  }

  lemma {:induction false} Endure(events: seq<Event>, times: seq<Time>, states: seq<System>, m: nat, n: nat)
    requires IsInterleaving(events, times, states) && m <= n <= |events|
    ensures Endures(states[m].committed, states[n].committed)
    decreases n
  {
    if m < n {
      Endure(events, times, states, m, n - 1);
      AlwaysInv(events, times, states, n - 1);
      assert Happens(events, times, states, n - 1);
      EventEndures(states[n - 1], events[n - 1], Reached(times, n - 1), times[n - 1]);
      EnduresThen(states[m].committed, states[n - 1].committed, states[n].committed);
    } else {
    }
  }

  lemma EnduresThen(a: Store, b: Store, c: Store)
    requires Endures(a, b) && Endures(b, c)
    ensures Endures(a, c)
  {
  }

  /** The token an event commits. */
  predicate Consumes(events: seq<Event>, states: seq<System>, n: nat, token: Id)
    requires |states| == |events| + 1 && n < |events|
  {
    events[n].Commit? && events[n].i < |states[n].attempts|
    && states[n].attempts[events[n].i].Running? && states[n].attempts[events[n].i].token == token
  }

  lemma ConsumedOnce(events: seq<Event>, times: seq<Time>, states: seq<System>, n: nat, token: Id)
    requires IsInterleaving(events, times, states) && n < |events| && Consumes(events, states, n, token)
    ensures token in states[n].committed.tokens && states[n].committed.tokens[token].usedAt.None?
    ensures token in states[n + 1].committed.tokens && states[n + 1].committed.tokens[token].usedAt.Some?
  {
    AlwaysInv(events, times, states, n);
    assert Happens(events, times, states, n);
    assert AttemptOk(states[n].committed, states[n].attempts[events[n].i], Reached(times, n));
  }

  /** Whatever the interleaving, at most one attempt commits per token. */
  lemma AtMostOneCommit(events: seq<Event>, times: seq<Time>, states: seq<System>, m: nat, n: nat, token: Id)
    requires IsInterleaving(events, times, states) && m < n < |events|
    requires Consumes(events, states, m, token)
    ensures !Consumes(events, states, n, token)
  {
    ConsumedOnce(events, times, states, m, token);
    Endure(events, times, states, m + 1, n);
    if Consumes(events, states, n, token) {
      ConsumedOnce(events, times, states, n, token);
    }
  }

  /** A commit writes the user, the sessions it revoked and the token, and nothing else; no other event of an attempt writes. */
  lemma CommitWrites(events: seq<Event>, times: seq<Time>, states: seq<System>, n: nat)
    requires IsInterleaving(events, times, states) && n < |events|
    ensures !events[n].Commit? && !Single(events[n]) ==> states[n + 1].committed == states[n].committed
    ensures events[n].Commit? ==> events[n].i < |states[n].attempts| && states[n].attempts[events[n].i].Running?
    ensures events[n].Commit? ==>
              var a := states[n].attempts[events[n].i];
              var before, after := states[n].committed, states[n + 1].committed;
              && a.user in before.users && after.users == before.users[a.user := WrittenUser(a, before.users[a.user])]
              && a.token in before.tokens && after.tokens == before.tokens[a.token := before.tokens[a.token].(usedAt := Some(a.now))]
              && after.sessions.Keys == before.sessions.Keys
              && forall k | k in before.sessions ::
                   after.sessions[k] == if k in a.held.sessions then before.sessions[k].(revokedAt := Some(a.now)) else before.sessions[k]
  {
    AlwaysInv(events, times, states, n);
    assert Happens(events, times, states, n);
    if events[n].Commit? {
      assert AttemptOk(states[n].committed, states[n].attempts[events[n].i], Reached(times, n));
    }
  }

  // ---- What an attempt does to its user -----------------------------------

  /** A reset gives its user the new hash, a verification a verified email; neither touches anything else of any user. */
  predicate Served(before: map<Id, User>, after: map<Id, User>, user: Id, purpose: Purpose, password: string, now: Time) {
    && user in before && after.Keys == before.Keys && (forall k | k in before && k != user :: after[k] == before[k])
    && after[user].updatedAt == now
    && match purpose
       case PasswordReset => after[user].passwordHash == password && after[user].emailVerified == before[user].emailVerified
       case EmailVerification => after[user].passwordHash == before[user].passwordHash && after[user].emailVerified
  }

  /** An attempt was begun by event `b`, and has found the token it was begun with. */
  predicate BegunAt(events: seq<Event>, b: nat, n: nat, db: Store, a: Attempt, i: nat) {
    && b < n <= |events| && events[b].Begin? && events[b].i == i && GoesOn(events, i, b, n)
    && (a.Asked? ==> a == Asked(events[b].purpose, events[b].hash, events[b].password))
    && (a.Running? ==> a.purpose == events[b].purpose && a.password == events[b].password && a.token in db.tokens
                       && db.tokens[a.token].hash == events[b].hash && db.tokens[a.token].purpose == events[b].purpose
                       && db.tokens[a.token].user == a.user)
  }

  lemma {:induction false} HasBegun(events: seq<Event>, times: seq<Time>, states: seq<System>, n: nat, i: nat) returns (b: nat)
    requires IsInterleaving(events, times, states) && n <= |events| && i < |states[n].attempts| && !states[n].attempts[i].Idle?
    ensures BegunAt(events, b, n, states[n].committed, states[n].attempts[i], i)
  {
    if n > 0 {
      assert Happens(events, times, states, n - 1);
      if events[n - 1].Begin? && events[n - 1].i == i {
        b := n - 1;
      } else {
        b := HasBegun(events, times, states, n - 1, i);
        Endure(events, times, states, n - 1, n);
      }
    }
  }

  /** The instant of an attempt is the one its clock showed. */
  lemma {:induction false} HasReadClock(events: seq<Event>, times: seq<Time>, states: seq<System>, n: nat, i: nat) returns (c: nat)
    requires IsInterleaving(events, times, states) && n <= |events| && i < |states[n].attempts| && states[n].attempts[i].Running?
    requires states[n].attempts[i].stage != Found
    ensures c < n && events[c] == ReadClock(i) && GoesOn(events, i, c, n) && states[n].attempts[i].now == times[c]
  {
    if n > 0 {
      assert Happens(events, times, states, n - 1);
      if events[n - 1] == ReadClock(i) {
        c := n - 1;
      } else {
        c := HasReadClock(events, times, states, n - 1, i);
      }
    }
  }

  /**
   * Whatever the interleaving, a commit serves the user of the token whose hash the attempt was begun with, for the
   * purpose and with the password it was begun with, at the instant its clock showed.
   */
  lemma CommitServes(events: seq<Event>, times: seq<Time>, states: seq<System>, n: nat) returns (b: nat, c: nat, token: Id)
    requires IsInterleaving(events, times, states) && n < |events| && events[n].Commit?
    ensures b < c < n && events[b].Begin? && events[b].i == events[n].i && events[c] == ReadClock(events[n].i)
    ensures GoesOn(events, events[n].i, b, n)
    ensures token in states[n].committed.tokens && states[n].committed.tokens[token].hash == events[b].hash
            && states[n].committed.tokens[token].purpose == events[b].purpose
    ensures states[n + 1].committed.tokens ==
            states[n].committed.tokens[token := states[n].committed.tokens[token].(usedAt := Some(times[c]))]
    ensures Served(states[n].committed.users, states[n + 1].committed.users, states[n].committed.tokens[token].user,
                   events[b].purpose, events[b].password, times[c])
  {
    CommitWrites(events, times, states, n);
    var a := states[n].attempts[events[n].i];
    assert Happens(events, times, states, n);
    token := a.token;
    b := HasBegun(events, times, states, n, events[n].i);
    c := HasReadClock(events, times, states, n, events[n].i);
    ReadsClockLater(events, times, states, n, b, c);
  }

  /** A clock read belongs to the attempt begun last before it. */
  lemma ReadsClockLater(events: seq<Event>, times: seq<Time>, states: seq<System>, n: nat, b: nat, c: nat)
    requires IsInterleaving(events, times, states) && b < n <= |events| && c < n && events[b].Begin? && events[c] == ReadClock(events[b].i)
    requires GoesOn(events, events[b].i, c, n)
    ensures b < c
  {
    assert Happens(events, times, states, b);
    if c < b {
      StillRunning(events, times, states, c, b, events[b].i);
    }
  }

  lemma {:induction false} StillRunning(events: seq<Event>, times: seq<Time>, states: seq<System>, c: nat, m: nat, i: nat)
    requires IsInterleaving(events, times, states) && c < m <= |events| && events[c] == ReadClock(i) && GoesOn(events, i, c, m)
    ensures i < |states[m].attempts| && states[m].attempts[i].Running?
    decreases m
  {
    assert Happens(events, times, states, m - 1);
    if c < m - 1 {
      StillRunning(events, times, states, c, m - 1, i);
    }
  }

  /** From a logout on, its session is never accepted again, whoever asks and whenever. */
  lemma LoggedOutForGood(events: seq<Event>, times: seq<Time>, states: seq<System>, n: nat, m: nat, at: Time)
    requires IsInterleaving(events, times, states) && n < m <= |events| && events[n].RevokeOne?
    ensures var session := events[n].session;
            session in states[m].committed.sessions && !Accepts(states[m].committed.sessions[session], at)
  {
    assert Happens(events, times, states, n);
    Endure(events, times, states, n + 1, m);
  }

  /** From a logout everywhere on, none of the sessions its user had is accepted again. */
  lemma AllLoggedOutForGood(events: seq<Event>, times: seq<Time>, states: seq<System>, n: nat, m: nat, session: Id, at: Time)
    requires IsInterleaving(events, times, states) && n < m <= |events| && events[n].RevokeAll? && at >= events[n].now
    requires session in states[n].committed.sessions && states[n].committed.sessions[session].user == events[n].user
    ensures session in states[m].committed.sessions && !Accepts(states[m].committed.sessions[session], at)
  {
    assert Happens(events, times, states, n);
    Endure(events, times, states, n + 1, m);
  }

  // ---- What a reset does to sessions --------------------------------------

  /** Attempt `i` does not end between two events. */
  predicate GoesOn(events: seq<Event>, i: nat, r: nat, n: nat)
    requires n <= |events|
  {
    forall p | r < p < n && (events[p].Commit? || events[p].Abort?) :: events[p].i != i
  }

  /** The attempt that commits at `n` is a reset that revoked its user's sessions at `r`. */
  predicate Resets(events: seq<Event>, r: nat, n: nat) {
    r < n < |events| && events[r].RevokeSessions? && events[n] == Commit(events[r].i) && GoesOn(events, events[r].i, r, n)
  }

  /** A session of the user that is committed when the reset revokes them, at `r`. */
  predicate Covers(events: seq<Event>, states: seq<System>, r: nat, session: Id)
    requires r < |events| < |states| && events[r].RevokeSessions?
  {
    events[r].i < |states[r].attempts| && states[r].attempts[events[r].i].Running?
    && session in SessionsOf(states[r].committed, states[r].attempts[events[r].i].user)
  }

  function SessionsOf(db: Store, user: Id): set<Id> {
    set k | k in db.sessions && db.sessions[k].user == user
  }

  /** The attempt after it has revoked: it remembers the sessions it witnessed until it ends. */
  ghost predicate HasRevoked(events: seq<Event>, states: seq<System>, r: nat, m: nat)
    requires r < |events| < |states| && m < |states| && events[r].RevokeSessions?
  {
    var i := events[r].i;
    && i < |states[r].attempts| && i < |states[m].attempts| && states[m].attempts[i].Running?
    && states[m].attempts[i].stage in {Revoked, Marked} && states[m].attempts[i].purpose == PasswordReset
    && forall k :: k in states[m].attempts[i].witnessed <==> Covers(events, states, r, k)
  }

  lemma {:induction false} WitnessedStay(events: seq<Event>, times: seq<Time>, states: seq<System>, r: nat, m: nat)
    requires IsInterleaving(events, times, states) && r < m <= |events| && events[r].RevokeSessions?
    requires GoesOn(events, events[r].i, r, m)
    ensures HasRevoked(events, states, r, m)
    decreases m
  {
    assert Happens(events, times, states, m - 1);
    if r < m - 1 {
      WitnessedStay(events, times, states, r, m - 1);
    }
  }

  /** Every committed reset has revoked its user's sessions before. */
  lemma ResetHasRevoked(events: seq<Event>, times: seq<Time>, states: seq<System>, n: nat) returns (r: nat)
    requires IsInterleaving(events, times, states) && n < |events| && events[n].Commit?
    requires events[n].i < |states[n].attempts| && states[n].attempts[events[n].i].Running?
    requires states[n].attempts[events[n].i].purpose == PasswordReset
    ensures Resets(events, r, n)
  {
    assert Happens(events, times, states, n);
    r := RevokedBefore(events, times, states, n, events[n].i);
  }

  lemma {:induction false} RevokedBefore(events: seq<Event>, times: seq<Time>, states: seq<System>, m: nat, i: nat) returns (r: nat)
    requires IsInterleaving(events, times, states) && m <= |events| && i < |states[m].attempts| && states[m].attempts[i].Running?
    requires states[m].attempts[i].purpose == PasswordReset && states[m].attempts[i].stage in {Revoked, Marked}
    ensures r < m && events[r] == RevokeSessions(i) && GoesOn(events, i, r, m)
    decreases m
  {
    if m > 0 {
      assert Happens(events, times, states, m - 1);
      if events[m - 1] == RevokeSessions(i) {
        r := m - 1;
      } else {
        r := RevokedBefore(events, times, states, m - 1, i);
      }
    }
  }

  lemma WitnessedDead(events: seq<Event>, times: seq<Time>, states: seq<System>, n: nat, m: nat, session: Id, at: Time)
    requires IsInterleaving(events, times, states) && n < m <= |events| && events[n].Commit?
    requires events[n].i < |states[n].attempts| && states[n].attempts[events[n].i].Running?
    requires session in states[n].attempts[events[n].i].witnessed && at >= times[n]
    ensures session in states[m].committed.sessions && !Accepts(states[m].committed.sessions[session], at)
  {
    var a := states[n].attempts[events[n].i];
    AlwaysInv(events, times, states, n);
    assert Happens(events, times, states, n);
    assert AttemptOk(states[n].committed, a, Reached(times, n));
    CommitWrites(events, times, states, n);
    assert Dead(states[n + 1].committed, session, a.now);
    Endure(events, times, states, n + 1, m);
    assert Reached(times, n) <= times[n];
  }

  /**
   * From the commit of a reset at `n` on, none of its user's sessions that were committed when it revoked them,
   * at `r`, is acceptable again.
   */
  lemma RevokedForGood(events: seq<Event>, times: seq<Time>, states: seq<System>, r: nat, n: nat, m: nat, session: Id, at: Time)
    requires IsInterleaving(events, times, states) && Resets(events, r, n) && n < m <= |events|
    requires Covers(events, states, r, session) && at >= times[n]
    ensures session in states[m].committed.sessions && !Accepts(states[m].committed.sessions[session], at)
  {
    WitnessedStay(events, times, states, r, n);
    WitnessedDead(events, times, states, n, m, session, at);
  }

  /** Neither the request check nor a refresh accepts such a session again. */
  lemma NeverAccepted(events: seq<Event>, times: seq<Time>, states: seq<System>, r: nat, n: nat, m: nat, k: nat, session: Id, user: Id,
                      hash: string, at: Time, later: Time)
    requires IsInterleaving(events, times, states) && Resets(events, r, n) && n < m <= k <= |events|
    requires Covers(events, states, r, session) && times[n] <= at <= later
    ensures Authenticate(states[m].committed, user, session, at).Failure?
    ensures !Refreshes(states[m].committed, states[k].committed, session, hash, at, later)
  {
    RevokedForGood(events, times, states, r, n, m, session, at);
  }

  /**
   * Just after the commit of a reset, a session is accepted exactly when it was accepted just before and is
   * not one of those its user had when the reset revoked them: one created in between lives on.
   */
  lemma SurvivorsExactly(events: seq<Event>, times: seq<Time>, states: seq<System>, r: nat, n: nat, session: Id, at: Time)
    requires IsInterleaving(events, times, states) && Resets(events, r, n) && at >= times[n]
    requires session in states[n].committed.sessions
    ensures session in states[n + 1].committed.sessions
    ensures Accepts(states[n + 1].committed.sessions[session], at) <==>
            Accepts(states[n].committed.sessions[session], at) && !Covers(events, states, r, session)
  {
    WitnessedStay(events, times, states, r, n);
    if Covers(events, states, r, session) {
      RevokedForGood(events, times, states, r, n, n + 1, session, at);
    } else {
      CommitWrites(events, times, states, n);
      if session in states[n].attempts[events[r].i].held.sessions {
        HeldAreCovered(events, times, states, r, n, session);
      }
    }
  }

  /** A reset holds only sessions that it covers. */
  lemma HeldAreCovered(events: seq<Event>, times: seq<Time>, states: seq<System>, r: nat, n: nat, session: Id)
    requires IsInterleaving(events, times, states) && Resets(events, r, n) && HasRevoked(events, states, r, n)
    requires session in states[n].attempts[events[r].i].held.sessions
    ensures Covers(events, states, r, session)
  {
    AlwaysInv(events, times, states, n);
    assert AttemptOk(states[n].committed, states[n].attempts[events[r].i], Reached(times, n));
  }

  // ---- A session created in between ---------------------------------------

  const LOGIN := Session("u", "r", 0, 10, None, None)

  const OLD := User("old", false, 0)
  const NEW := User("new", false, 0)
  const TOKEN := Token("u", PasswordReset, "h", 10, None)
  const USED := Token("u", PasswordReset, "h", 10, Some(0))
  const BEFORE := Store(map["u" := OLD], map[], map["t" := TOKEN])
  const BETWEEN := Store(map["u" := OLD], map["s" := LOGIN], map["t" := TOKEN])
  const AFTER := Store(map["u" := NEW], map["s" := LOGIN], map["t" := USED])

  /** A reset at one of its stages, at instant zero. */
  function ResetAt(stage: Stage): Attempt {
    Running(PasswordReset, "new", "t", "u", 0, stage,
            Held(if stage == Found || stage == Timed then None else Some(NEW), map[], if stage == Marked then Some(USED) else None), {})
  }

  /** The events and the states of a reset during which its user logs in, after the sessions were revoked and before the commit. */
  function SlipEvent(n: nat): Event {
    match n
    case 0 => AddUser("u", OLD)
    case 1 => AddToken("t", TOKEN)
    case 2 => Begin(0, PasswordReset, "h", "new")
    case 3 => Find(0, "t")
    case 4 => ReadClock(0)
    case 5 => WriteUser(0)
    case 6 => RevokeSessions(0)
    case 7 => AddSession("s", LOGIN)
    case 8 => MarkToken(0)
    case _ => Commit(0)
  }

  function SlipState(n: nat): System {
    match n
    case 0 => System(EMPTY, [Idle])
    case 1 => System(Store(map["u" := OLD], map[], map[]), [Idle])
    case 2 => System(BEFORE, [Idle])
    case 3 => System(BEFORE, [Asked(PasswordReset, "h", "new")])
    case 4 => System(BEFORE, [ResetAt(Found)])
    case 5 => System(BEFORE, [ResetAt(Timed)])
    case 6 => System(BEFORE, [ResetAt(Written)])
    case 7 => System(BEFORE, [ResetAt(Revoked)])
    case 8 => System(BETWEEN, [ResetAt(Revoked)])
    case 9 => System(BETWEEN, [ResetAt(Marked)])
    case _ => System(AFTER, [Idle])
  }

  predicate Leads(s: System, e: Event, t: System) {
    Enabled(s, e, 0) && (e.Commit? ==> Ready(s.attempts[e.i])) && t == After(s, e, 0)
  }

  lemma SlipBegins()
    ensures Leads(SlipState(0), SlipEvent(0), SlipState(1))
    ensures Leads(SlipState(1), SlipEvent(1), SlipState(2))
    ensures Leads(SlipState(2), SlipEvent(2), SlipState(3))
  {
  }

  lemma SlipFinds()
    ensures Leads(SlipState(3), SlipEvent(3), SlipState(4))
    ensures Leads(SlipState(4), SlipEvent(4), SlipState(5))
    ensures Leads(SlipState(5), SlipEvent(5), SlipState(6))
  {
  }

  lemma SlipRevokes()
    ensures Leads(SlipState(6), SlipEvent(6), SlipState(7))
    ensures Leads(SlipState(7), SlipEvent(7), SlipState(8))
  {
    RevokesNothing(BEFORE, ResetAt(Written));
  }

  /** Without sessions there is nothing to revoke. */
  lemma RevokesNothing(db: Store, a: Attempt)
    requires db.sessions.Keys == {} && a.Running?
    ensures RevokedRows(db.sessions, a.user, a.now) == map[]
    ensures AfterAttempt(db, a, RevokeSessions(0), 0) == a.(stage := Revoked, held := a.held.(sessions := map[]), witnessed := {})
  {
  }

  lemma SlipMarks()
    ensures Leads(SlipState(8), SlipEvent(8), SlipState(9))
  {
  }

  lemma SlipCommits()
    ensures Leads(SlipState(9), SlipEvent(9), SlipState(10))
  {
  }

  lemma SlipLeads(n: nat)
    requires n < 10
    ensures Leads(SlipState(n), SlipEvent(n), SlipState(n + 1))
  {
    if n < 3 {
      SlipBegins();
    } else if n < 6 {
      SlipFinds();
    } else if n < 8 {
      SlipRevokes();
    } else if n < 9 {
      SlipMarks();
    } else {
      SlipCommits();
    }
  }

  /** A session created between the revoking and the commit of a reset is still accepted afterwards. */
  lemma LoginSlipsThrough() returns (events: seq<Event>, times: seq<Time>, states: seq<System>)
    ensures IsInterleaving(events, times, states) && |events| == 10 && events[9] == Commit(0)
    ensures "s" in states[9].committed.sessions && Authenticate(states[10].committed, "u", "s", times[9]).Success?
  {
    events, times, states := seq(10, n requires 0 <= n < 10 => SlipEvent(n)), seq(10, n => 0), seq(11, n requires 0 <= n < 11 => SlipState(n));
    forall n | 0 <= n < 10 ensures Happens(events, times, states, n) {
      SlipLeads(n);
    }
    assert states[9] == SlipState(9) && states[10] == SlipState(10);
  }

  // ---- The services, one call at a time -----------------------------------

  predicate Active(t: Token, purpose: Purpose, hash: string, at: Time) {
    t.purpose == purpose && t.hash == hash && Usable(t, at)
  }

  /** The store after a token has been used for what it is for. */
  function Consumed(db: Store, token: Id, password: string, now: Time): Store
    requires token in db.tokens && db.tokens[token].user in db.users
  {
    var t := db.tokens[token];
    if t.purpose == PasswordReset then
      Store(db.users[t.user := WithPassword(db.users[t.user], password, now)],
            db.sessions + RevokedRows(db.sessions, t.user, now), db.tokens[token := t.(usedAt := Some(now))])
    else
      Store(db.users[t.user := WithVerified(db.users[t.user], now)], db.sessions, db.tokens[token := t.(usedAt := Some(now))])
  }

  /** A token has served its user: it is used, and a reset has revoked the user's sessions that were still good. */
  predicate UsedUp(before: Store, after: Store, token: Id, password: string, now: Time)
    requires token in before.tokens
  {
    var t := before.tokens[token];
    && Served(before.users, after.users, t.user, t.purpose, password, now)
    && after.tokens == before.tokens[token := t.(usedAt := Some(now))] && after.sessions.Keys == before.sessions.Keys
    && forall k | k in before.sessions ::
         var s := before.sessions[k];
         after.sessions[k] == if t.purpose == PasswordReset && s.user == t.user && s.revokedAt == None && s.expiresAt > now
                              then s.(revokedAt := Some(now)) else s
  }

  lemma ConsumedIsUsedUp(db: Store, token: Id, password: string, now: Time)
    requires token in db.tokens && db.tokens[token].user in db.users
    ensures UsedUp(db, Consumed(db, token, password, now), token, password, now)
  {
  }

  /** An attempt whose statements all see one store commits what the service does on that store. */
  lemma AloneConsumes(db: Store, token: Id, password: string, now: Time)
    requires token in db.tokens && db.tokens[token].user in db.users
    ensures var t := db.tokens[token];
            var timed := Running(t.purpose, password, token, t.user, now, Timed, NOTHING, {});
            var written := AfterAttempt(db, timed, WriteUser(0), now);
            var revoked := if t.purpose == PasswordReset then AfterAttempt(db, written, RevokeSessions(0), now) else written;
            var marked := AfterAttempt(db, revoked, MarkToken(0), now);
            Ready(marked) && Committed(db, marked) == Consumed(db, token, password, now)
  {
    assert db.sessions + map[] == db.sessions;
  }

  class AuthStore {
    var users: map<Id, User>
    var sessions: map<Id, Session>
    var tokens: map<Id, Token>

    function State(): Store
      reads this
    {
      Store(users, sessions, tokens)
    }

    constructor ()
      ensures State() == EMPTY
    {
      users, sessions, tokens := map[], map[], map[];
    }

    method FindActiveByHash(purpose: Purpose, hash: string, at: Time) returns (found: Option<Id>)
      ensures match found
              case Some(k) => k in tokens && Active(tokens[k], purpose, hash, at)
              case None => forall k | k in tokens :: !Active(tokens[k], purpose, hash, at)
    {
      if exists k | k in tokens :: Active(tokens[k], purpose, hash, at) {
        var k :| k in tokens && Active(tokens[k], purpose, hash, at);
        return Some(k);
      }
      return None;
    }

    method UpdatePassword(user: Id, hash: string, now: Time) returns (found: bool)
      modifies this
      ensures found <==> user in old(users)
      ensures sessions == old(sessions) && tokens == old(tokens)
      ensures users == if found then old(users)[user := WithPassword(old(users)[user], hash, now)] else old(users)
    {
      found := user in users;
      if found {
        users := users[user := WithPassword(users[user], hash, now)];
      }
    }

    method MarkEmailVerified(user: Id, now: Time) returns (found: bool)
      modifies this
      ensures found <==> user in old(users)
      ensures sessions == old(sessions) && tokens == old(tokens)
      ensures users == if found then old(users)[user := WithVerified(old(users)[user], now)] else old(users)
    {
      found := user in users;
      if found {
        users := users[user := WithVerified(users[user], now)];
      }
    }

    method RevokeAllByUserID(user: Id, now: Time)
      modifies this
      ensures users == old(users) && tokens == old(tokens) && sessions == old(sessions) + RevokedRows(old(sessions), user, now)
    {
      sessions := sessions + RevokedRows(sessions, user, now);
    }

    method MarkUsed(token: Id, now: Time) returns (found: bool)
      modifies this
      ensures found <==> token in old(tokens) && Usable(old(tokens)[token], now)
      ensures users == old(users) && sessions == old(sessions)
      ensures tokens == if found then old(tokens)[token := old(tokens)[token].(usedAt := Some(now))] else old(tokens)
    {
      found := token in tokens && Usable(tokens[token], now);
      if found {
        tokens := tokens[token := tokens[token].(usedAt := Some(now))];
      }
    }

    method Rollback(saved: Store)
      modifies this
      ensures State() == saved
    {
      users, sessions, tokens := saved.users, saved.sessions, saved.tokens;
    }

    /** Everything but the lookup, inside the database transaction; a failure may leave statements to undo. */
    method ConsumeInTx(purpose: Purpose, token: Id, password: string, now: Time) returns (ok: bool)
      requires token in tokens && tokens[token].purpose == purpose
      modifies this
      ensures ok <==> old(tokens)[token].user in old(users) && Usable(old(tokens)[token], now)
      ensures ok ==> State() == Consumed(old(State()), token, password, now)
    {
      var user := tokens[token].user;
      if purpose == PasswordReset {
        ok := UpdatePassword(user, password, now);
        if !ok {
          return;
        }
        RevokeAllByUserID(user, now);
      } else {
        ok := MarkEmailVerified(user, now);
        if !ok {
          return;
        }
      }
      ok := MarkUsed(token, now);
    }

    /**
     * Resets a password, or verifies an email, by a token: the token found active at `foundAt` is consumed
     * at `now`, or the call fails and changes nothing.
     */
    method Consume(purpose: Purpose, hash: string, password: string, foundAt: Time, now: Time) returns (r: Result<Id, AuthError>)
      modifies this
      ensures r.Failure? ==> State() == old(State()) && r.error == InvalidToken
      ensures r.Failure? ==>
                forall k | k in old(tokens) && Active(old(tokens)[k], purpose, hash, foundAt) && old(tokens)[k].user in old(users) ::
                  !Usable(old(tokens)[k], now) || exists j | j in old(tokens) :: j != k && Active(old(tokens)[j], purpose, hash, foundAt)
      ensures r.Success? ==>
                && r.value in old(tokens) && Active(old(tokens)[r.value], purpose, hash, foundAt) && Usable(old(tokens)[r.value], now)
                && old(tokens)[r.value].user in old(users)
                && State() == Consumed(old(State()), r.value, password, now)
      ensures r.Success? ==> UsedUp(old(State()), State(), r.value, password, now)
    {
      var saved := State();
      var found := FindActiveByHash(purpose, hash, foundAt);
      if found.None? {
        return Failure(InvalidToken);
      }
      var ok := ConsumeInTx(purpose, found.value, password, now);
      if !ok {
        Rollback(saved);
        return Failure(InvalidToken);
      }
      ConsumedIsUsedUp(saved, found.value, password, now);
      return Success(found.value);
    }
  }
}
