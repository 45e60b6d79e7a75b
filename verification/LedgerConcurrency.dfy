/**
 * Several clients at once, statement by statement: reads see committed rows and own writes, a written
 * row stays locked until its writer commits or rolls back, and a guarded write checks the row as it is
 * when the write gets its lock.
 */
module LedgerConcurrency {
  import opened Prelude
  import opened LedgerRows
  import opened LedgerSpec
  import opened LedgerInvariant
  import opened LedgerRuns
  import opened LedgerStatements
  import opened LedgerPlans

  // ---- Clients ------------------------------------------------------------

  /** The uncommitted rows of a client, which nobody else can write; a deleted row is `None`. */
  datatype Locks = Locks(rows: map<Id, Option<Transaction>>, accounts: map<Id, Account>)

  const NO_LOCKS := Locks(map[], map[])

  /**
   * An active client has begun the first `|seen|` commands of its request. Their steps are those it has
   * `done` (the last of them at `now`) followed by those in its `queue`.
   */
  datatype Client =
    | Idle
    | Active(user: Id, request: seq<Command>, seen: seq<Observation>, done: seq<Step>, queue: seq<Step>, now: Progress, locks: Locks)

  /** Committed tables, clients, and every version of a row that was ever committed. */
  datatype System = System(committed: Db, clients: seq<Client>, rows: set<Transaction>, accounts: set<Account>)

  /** The tables as a client sees them. */
  function View(base: Db, locks: Locks): Db {
    Db(base.accounts + locks.accounts,
       map k | k in base.transactions.Keys + locks.rows.Keys && (k in locks.rows ==> locks.rows[k].Some?) ::
         if k in locks.rows then locks.rows[k].value else base.transactions[k])
  }

  /** The row a statement has written joins the client's locked rows. */
  function Lock(locks: Locks, s: Statement, view: Db): Locks {
    var id := KeyOf(s).id;
    if OnTransaction(s) then locks.(rows := locks.rows[id := Row(view, id)])
    else if !s.ReadAccount? && id in view.accounts then locks.(accounts := locks.accounts[id := view.accounts[id]])
    else locks
  }

  predicate Holds(locks: Locks, key: Key) {
    match key
    case TransactionKey(id) => id in locks.rows
    case AccountKey(id) => id in locks.accounts
  }

  predicate Finished(c: Client) {
    c.Active? && c.now == Doing([]) && c.queue == [] && |c.seen| == |c.request|
  }

  predicate CanAdvance(c: Client) {
    c.Active? && |c.seen| <= |c.request| && !Finished(c) && !c.now.Failed?
  }

  /** The next thing a client does on the tables it sees: take a command, take a step, read, or send a statement. */
  function Advanced(base: Db, c: Client): Result<Client, LedgerError>
    requires CanAdvance(c)
  {
    var view := View(base, c.locks);
    match c.now
    case Reading(user, id, use) =>
      if !OwnsTransaction(view, user, id) then Failure(TransactionNotFound) else
        (match UseTransaction(view.transactions[id], user, use)
         case Failure(e) => Failure(e)
         case Success(ss) => Success(c.(now := Doing(ss))))
    case Doing(ss) =>
      if ss != [] then
        match Act(view, ss[0])
        case Failure(e) => Failure(e)
        case Success(acted) => Success(c.(now := Doing(acted.todo + ss[1..]), locks := Lock(c.locks, ss[0], acted.db)))
      else if c.queue != [] then
        Success(c.(done := c.done + [c.queue[0]], queue := c.queue[1..], now := Begun(c.queue[0])))
      else
        var command := c.request[|c.seen|];
        Success(c.(seen := c.seen + [Observe(view, command)], queue := StepsOf(command, Observe(view, command))))
  }

  function Wanted(c: Client): Option<Key> {
    if c.Active? && c.now.Doing? && c.now.statements != [] && !c.now.statements[0].ReadAccount?
    then Some(KeyOf(c.now.statements[0])) else None
  }

  /** Client `i` wants to write a row that client `j` has locked. */
  predicate Waits(s: System, i: nat, j: nat) {
    i < |s.clients| && j < |s.clients| && i != j && Wanted(s.clients[i]).Some? && s.clients[j].Active?
    && Holds(s.clients[j].locks, Wanted(s.clients[i]).value)
  }

  predicate Blocked(s: System, i: nat) {
    exists j | 0 <= j < |s.clients| :: Waits(s, i, j)
  }

  datatype Event = Begin(i: nat, user: Id, request: seq<Command>) | Advance(i: nat) | Commit(i: nat) | Abort(i: nat)

  function Started(user: Id, request: seq<Command>): Client {
    Active(user, request, [], [], [], Doing([]), NO_LOCKS)
  }

  /** A client after an advance: a failed statement rolls its database transaction back. */
  function AfterAdvance(base: Db, c: Client): Client
    requires CanAdvance(c)
  {
    match Advanced(base, c)
    case Success(next) => next
    case Failure(_) => Idle
  }

  predicate Enabled(s: System, e: Event) {
    e.i < |s.clients| &&
    match e
    case Begin(i, user, request) => s.clients[i].Idle? && IsRequest(request, user)
    case Advance(i) => CanAdvance(s.clients[i]) && !Blocked(s, i)
    case Commit(i) => Finished(s.clients[i])
    case Abort(i) => s.clients[i].Active?
  }

  function After(s: System, e: Event): System
    requires Enabled(s, e)
  {
    match e
    case Begin(i, user, request) => s.(clients := s.clients[i := Started(user, request)])
    case Advance(i) => s.(clients := s.clients[i := AfterAdvance(s.committed, s.clients[i])])
    case Commit(i) =>
      var next := View(s.committed, s.clients[i].locks);
      System(next, s.clients[i := Idle], s.rows + next.transactions.Values, s.accounts + next.accounts.Values)
    case Abort(i) => s.(clients := s.clients[i := Idle])
  }

  /** No row carries the same stamp in two different committed versions. */
  predicate Fresh(s: System) {
    (forall t, u | t in s.rows && u in s.rows && t.id == u.id && t.updatedAt == u.updatedAt :: t == u) &&
    (forall a, b | a in s.accounts && b in s.accounts && a.id == b.id && a.updatedAt == b.updatedAt :: a == b)
  }

  // ---- The invariant ------------------------------------------------------

  predicate Guarded(s: Statement) {
    s.WriteTransaction? || s.DeleteTransaction? || s.WriteAccount?
  }

  /** The row a guarded write was computed from is still the one in `b`. */
  predicate Current(b: Db, s: Statement)
    requires Guarded(s)
  {
    if s.WriteAccount? then AccountRow(b, KeyOf(s).id) == Some(s.was) else Row(b, KeyOf(s).id) == Some(s.seen)
  }

  predicate Pending(now: Progress) {
    now.Doing? && now.statements != [] && Guarded(now.statements[0])
  }

  /**
   * Tables `b` could have been the committed ones all along: they agree with `base` on the locked rows,
   * still have its accounts, and hold the row that the next guarded write was computed from.
   */
  ghost predicate Compatible(b: Db, base: Db, now: Progress, locks: Locks) {
    && Sound(b) && AccountsKept(base, b)
    && (forall k | k in locks.rows :: Row(b, k) == Row(base, k))
    && (forall k | k in locks.accounts :: AccountRow(b, k) == AccountRow(base, k))
    && (Pending(now) && !Holds(locks, KeyOf(now.statements[0])) ==> Current(b, now.statements[0]))
  }

  /** From `b`, a client's steps done as wholes end where finishing its last step from its view ends. */
  predicate Explains(b: Db, done: seq<Step>, now: Progress, locks: Locks) {
    PerformAll(b, done) == Rest(View(b, locks), now)
  }

  ghost predicate Explained(base: Db, done: seq<Step>, now: Progress, locks: Locks) {
    forall b | Compatible(b, base, now, locks) :: Explains(b, done, now, locks)
  }

  /** Locked rows sit under their ids. */
  predicate LocksKeyed(locks: Locks) {
    (forall k | k in locks.rows && locks.rows[k].Some? :: locks.rows[k].value.id == k) &&
    (forall k | k in locks.accounts :: locks.accounts[k].id == k)
  }

  /** Only the next statement can be a guarded write, and what it was computed from is locked or was committed once. */
  predicate Traced(s: System, now: Progress, locks: Locks) {
    now.Doing? ==>
      (forall k | 0 < k < |now.statements| :: !Guarded(now.statements[k])) &&
      (Pending(now) && !Holds(locks, KeyOf(now.statements[0])) ==> Remembered(s, now.statements[0]))
  }

  predicate Remembered(s: System, w: Statement)
    requires Guarded(w)
  {
    if w.WriteAccount? then w.was in s.accounts && w.was.id == w.become.id
    else w.seen in s.rows && w.seen.id == KeyOf(w).id
  }

  predicate OnPlan(c: Client)
    requires c.Active?
  {
    |c.seen| <= |c.request| && IsRequest(c.request, c.user) && Plan(c.request, c.seen) == c.done + c.queue
  }

  ghost predicate ClientOk(s: System, c: Client) {
    c.Active? ==>
      OnPlan(c) && LocksKeyed(c.locks) && Traced(s, c.now, c.locks) && Explained(s.committed, c.done, c.now, c.locks)
  }

  predicate Apart(c: Client, d: Client) {
    c.Active? && d.Active? ==> c.locks.rows.Keys !! d.locks.rows.Keys && c.locks.accounts.Keys !! d.locks.accounts.Keys
  }

  predicate AllApart(clients: seq<Client>) {
    forall i, j | 0 <= i < j < |clients| :: Apart(clients[i], clients[j])
  }

  predicate History(s: System) {
    s.committed.transactions.Values <= s.rows && s.committed.accounts.Values <= s.accounts
  }

  ghost predicate Inv(s: System) {
    && Sound(s.committed) && History(s)
    && (forall i | 0 <= i < |s.clients| :: ClientOk(s, s.clients[i]))
    && AllApart(s.clients)
  }

  // ---- Views --------------------------------------------------------------

  lemma ViewNothing(base: Db)
    ensures View(base, NO_LOCKS) == base
  {
    assert View(base, NO_LOCKS).accounts == base.accounts;
    assert View(base, NO_LOCKS).transactions == base.transactions;
  }

  lemma ViewRow(base: Db, locks: Locks, k: Id)
    ensures Row(View(base, locks), k) == if k in locks.rows then locks.rows[k] else Row(base, k)
  {
  }

  lemma ViewAccount(base: Db, locks: Locks, k: Id)
    ensures AccountRow(View(base, locks), k) == if k in locks.accounts then Some(locks.accounts[k]) else AccountRow(base, k)
  {
  }

  /** A statement changes the view in the row it locks, and nowhere else. */
  lemma LockView(b: Db, locks: Locks, s: Statement, next: Db)
    requires !s.ReadAccount?
    requires Act(View(b, locks), s) == Success(Acted(next, []))
    ensures View(b, Lock(locks, s, next)) == next
  {
    if OnTransaction(s) {
      LockViewRow(b, locks, s, next);
    } else {
      assert View(b, Lock(locks, s, next)).accounts == next.accounts;
    }
  }

  lemma LockViewRow(b: Db, locks: Locks, s: Statement, next: Db)
    requires OnTransaction(s) && Act(View(b, locks), s) == Success(Acted(next, []))
    ensures View(b, Lock(locks, s, next)) == next
  {
    var after := View(b, Lock(locks, s, next));
    forall k ensures Row(after, k) == Row(next, k) {
      ViewRow(b, locks, k);
    }
    SameRows(after, next);
  }

  lemma SameRows(a: Db, b: Db)
    requires forall k :: Row(a, k) == Row(b, k)
    ensures a.transactions == b.transactions
  {
    forall k ensures k in a.transactions <==> k in b.transactions {
      assert Row(a, k) == Row(b, k);
    }
    forall k | k in a.transactions ensures a.transactions[k] == b.transactions[k] {
      assert Row(a, k) == Row(b, k);
    }
  }

  lemma ReferableKept(b: Db, base: Db, locks: Locks, s: Statement)
    requires OnTransaction(s) && AccountsKept(base, b) && Referable(View(base, locks), s)
    ensures Referable(View(b, locks), s)
  {
  }

  /** Two views that agree on the row of a writing statement let it do the same to that row. */
  lemma ActLocal(v: Db, w: Db, s: Statement, next: Db, locks: Locks) returns (other: Db)
    requires !s.ReadAccount? && Act(v, s) == Success(Acted(next, []))
    requires if OnTransaction(s) then Row(v, KeyOf(s).id) == Row(w, KeyOf(s).id) && (Referable(v, s) ==> Referable(w, s))
             else AccountRow(v, KeyOf(s).id) == AccountRow(w, KeyOf(s).id)
    ensures Act(w, s) == Success(Acted(other, []))
    ensures Lock(locks, s, other) == Lock(locks, s, next)
  {
    other := Act(w, s).value.db;
  }

  // ---- A step keeps a client explained ------------------------------------

  /** A guarded write that passes its guard was computed from the row it replaces. */
  lemma GuardedCurrent(s: System, locks: Locks, w: Statement)
    requires Guarded(w) && Fresh(s) && History(s) && Consistent(s.committed)
    requires !Holds(locks, KeyOf(w)) && Remembered(s, w)
    requires Act(View(s.committed, locks), w).Success?
    ensures Current(s.committed, w)
  {
    var id := KeyOf(w).id;
    if w.WriteAccount? {
      ViewAccount(s.committed, locks, id);
      assert s.committed.accounts[id] in s.committed.accounts.Values;
    } else {
      ViewRow(s.committed, locks, id);
      assert s.committed.transactions[id] in s.committed.transactions.Values;
    }
  }

  /** Agreeing on the locked rows after a write includes agreeing on those before it, and on the row it was computed from. */
  lemma CompatibleBefore(b: Db, base: Db, ss: seq<Statement>, locks: Locks, after: Progress, next: Db)
    requires ss != [] && !ss[0].ReadAccount? && Act(View(base, locks), ss[0]) == Success(Acted(next, []))
    requires Compatible(b, base, after, Lock(locks, ss[0], next))
    requires Guarded(ss[0]) && !Holds(locks, KeyOf(ss[0])) ==> Current(base, ss[0])
    ensures Compatible(b, base, Doing(ss), locks)
    ensures Holds(Lock(locks, ss[0], next), KeyOf(ss[0]))
    ensures if OnTransaction(ss[0]) then Row(b, KeyOf(ss[0]).id) == Row(base, KeyOf(ss[0]).id)
            else AccountRow(b, KeyOf(ss[0]).id) == AccountRow(base, KeyOf(ss[0]).id)
  {
    LockHolds(View(base, locks), locks, ss[0], next);
  }

  /** A write adds its own row to the locked ones. */
  lemma LockHolds(view: Db, locks: Locks, w: Statement, next: Db)
    requires !w.ReadAccount? && Act(view, w) == Success(Acted(next, []))
    ensures Holds(Lock(locks, w, next), KeyOf(w))
    ensures locks.rows.Keys <= Lock(locks, w, next).rows.Keys && locks.accounts.Keys <= Lock(locks, w, next).accounts.Keys
  {
  }

  /** A writing statement, from any tables that could have been the committed ones. */
  lemma WriteExplains(b: Db, base: Db, done: seq<Step>, ss: seq<Statement>, locks: Locks, next: Db)
    requires ss != [] && !ss[0].ReadAccount? && Act(View(base, locks), ss[0]) == Success(Acted(next, []))
    requires Explained(base, done, Doing(ss), locks)
    requires Compatible(b, base, Doing(ss[1..]), Lock(locks, ss[0], next))
    requires Guarded(ss[0]) && !Holds(locks, KeyOf(ss[0])) ==> Current(base, ss[0])
    ensures Explains(b, done, Doing(ss[1..]), Lock(locks, ss[0], next))
  {
    CompatibleBefore(b, base, ss, locks, Doing(ss[1..]), next);
    assert Explains(b, done, Doing(ss), locks);
    var id := KeyOf(ss[0]).id;
    if OnTransaction(ss[0]) {
      ViewRow(b, locks, id);
      ViewRow(base, locks, id);
      if Referable(View(base, locks), ss[0]) {
        ReferableKept(b, base, locks, ss[0]);
      }
    } else {
      ViewAccount(b, locks, id);
      ViewAccount(base, locks, id);
    }
    var other := ActLocal(View(base, locks), View(b, locks), ss[0], next, locks);
    LockView(b, locks, ss[0], other);
    FinishHead(View(b, locks), ss, other, []);
  }

  lemma FinishHead(db: Db, ss: seq<Statement>, next: Db, todo: seq<Statement>)
    requires ss != [] && Act(db, ss[0]) == Success(Acted(next, todo))
    ensures Finish(db, ss) == Finish(next, todo + ss[1..])
    ensures todo == [] ==> todo + ss[1..] == ss[1..]
  {
  }

  /** Reading an account before its guarded write. */
  lemma ReadExplains(b: Db, base: Db, done: seq<Step>, ss: seq<Statement>, locks: Locks, w: Statement)
    requires ss != [] && ss[0].ReadAccount? && Act(View(base, locks), ss[0]) == Success(Acted(View(base, locks), [w]))
    requires ss[0].account in View(base, locks).accounts ==> View(base, locks).accounts[ss[0].account].id == ss[0].account
    requires Explained(base, done, Doing(ss), locks)
    requires Compatible(b, base, Doing([w] + ss[1..]), locks)
    ensures Explains(b, done, Doing([w] + ss[1..]), locks)
  {
    ReadKey(View(base, locks), ss[0], w);
    ReadCompatible(b, base, ss, locks, w);
    ReadAgain(b, base, locks, ss[0], w);
    ReadFinishes(b, done, ss, locks, w);
  }

  lemma ReadCompatible(b: Db, base: Db, ss: seq<Statement>, locks: Locks, w: Statement)
    requires ss != [] && ss[0].ReadAccount? && w.WriteAccount?
    requires Compatible(b, base, Doing([w] + ss[1..]), locks)
    ensures Compatible(b, base, Doing(ss), locks)
    ensures !Holds(locks, KeyOf(w)) ==> AccountRow(b, KeyOf(w).id) == Some(w.was)
  {
    assert ([w] + ss[1..])[0] == w;
  }

  lemma ReadFinishes(b: Db, done: seq<Step>, ss: seq<Statement>, locks: Locks, w: Statement)
    requires ss != [] && Act(View(b, locks), ss[0]) == Success(Acted(View(b, locks), [w]))
    requires Explains(b, done, Doing(ss), locks)
    ensures Explains(b, done, Doing([w] + ss[1..]), locks)
  {
    FinishHead(View(b, locks), ss, View(b, locks), [w]);
  }

  lemma ReadAgain(b: Db, base: Db, locks: Locks, r: Statement, w: Statement)
    requires r.ReadAccount? && Act(View(base, locks), r) == Success(Acted(View(base, locks), [w]))
    requires r.account in View(base, locks).accounts && w.WriteAccount?
    requires w.was == View(base, locks).accounts[r.account] && KeyOf(w) == AccountKey(r.account)
    requires r.account !in locks.accounts ==> AccountRow(b, r.account) == Some(w.was)
    ensures Act(View(b, locks), r) == Success(Acted(View(b, locks), [w]))
  {
    ViewAccount(b, locks, r.account);
    ViewAccount(base, locks, r.account);
    assert AccountRow(View(b, locks), r.account) == AccountRow(View(base, locks), r.account);
  }

  lemma ReadKey(view: Db, r: Statement, w: Statement)
    requires r.ReadAccount? && Act(view, r) == Success(Acted(view, [w]))
    requires r.account in view.accounts ==> view.accounts[r.account].id == r.account
    ensures w.WriteAccount? && r.account in view.accounts && w.was == view.accounts[r.account]
    ensures KeyOf(w) == AccountKey(r.account) && w.become.id == w.was.id
  {
  }

  /** Reading a transaction before its guarded write. */
  lemma ReadingExplains(b: Db, base: Db, done: seq<Step>, user: Id, id: Id, use: TransactionUse, locks: Locks, ss: seq<Statement>)
    requires OwnsTransaction(View(base, locks), user, id) && View(base, locks).transactions[id].id == id
    requires UseTransaction(View(base, locks).transactions[id], user, use) == Success(ss)
    requires Explained(base, done, Reading(user, id, use), locks)
    requires Compatible(b, base, Doing(ss), locks)
    ensures Explains(b, done, Doing(ss), locks)
  {
    assert Compatible(b, base, Reading(user, id, use), locks);
    assert Explains(b, done, Reading(user, id, use), locks);
    ViewRow(b, locks, id);
    ViewRow(base, locks, id);
    assert Row(View(b, locks), id) == Row(View(base, locks), id);
  }

  /** Taking the next step of the queue. */
  lemma StepExplains(b: Db, base: Db, done: seq<Step>, step: Step, user: Id, locks: Locks)
    requires Explained(base, done, Doing([]), locks) && PlanFor(done, user) && Built(step)
    requires Compatible(b, base, Begun(step), locks)
    ensures Explains(b, done + [step], Begun(step), locks)
  {
    assert Compatible(b, base, Doing([]), locks);
    assert Explains(b, done, Doing([]), locks);
    assert PerformAll(b, done) == Success(View(b, locks));
    PlanKeeps(b, done, user);
    StepAlone(View(b, locks), step);
    PerformStep(b, done, step);
  }

  /** What others commit leaves a client explained: its locked rows stay, and accounts are never lost. */
  lemma ExplainedElsewhere(base: Db, next: Db, done: seq<Step>, now: Progress, locks: Locks)
    requires Explained(base, done, now, locks) && AccountsKept(base, next)
    requires forall k | k in locks.rows :: Row(next, k) == Row(base, k)
    requires forall k | k in locks.accounts :: AccountRow(next, k) == AccountRow(base, k)
    ensures Explained(next, done, now, locks)
  {
    forall b | Compatible(b, next, now, locks) ensures Explains(b, done, now, locks) {
      assert AccountsKept(base, b);
      assert Compatible(b, base, now, locks);
    }
  }

  // ---- A client's own moves -----------------------------------------------

  lemma ViewKeyed(base: Db, locks: Locks)
    requires Consistent(base) && LocksKeyed(locks)
    ensures forall k | k in View(base, locks).transactions :: View(base, locks).transactions[k].id == k
    ensures forall k | k in View(base, locks).accounts :: View(base, locks).accounts[k].id == k
  {
  }

  lemma RememberedRow(s: System, locks: Locks, id: Id)
    requires History(s) && id in View(s.committed, locks).transactions && id !in locks.rows
    ensures View(s.committed, locks).transactions[id] in s.rows
  {
    assert s.committed.transactions[id] in s.committed.transactions.Values;
  }

  lemma RememberedAccount(s: System, locks: Locks, id: Id)
    requires History(s) && id in View(s.committed, locks).accounts && id !in locks.accounts
    ensures View(s.committed, locks).accounts[id] in s.accounts
  {
    assert s.committed.accounts[id] in s.committed.accounts.Values;
  }

  lemma ReadingOk(s: System, done: seq<Step>, user: Id, id: Id, use: TransactionUse, locks: Locks, ss: seq<Statement>)
    requires Sound(s.committed) && History(s) && LocksKeyed(locks)
    requires OwnsTransaction(View(s.committed, locks), user, id)
    requires UseTransaction(View(s.committed, locks).transactions[id], user, use) == Success(ss)
    requires Explained(s.committed, done, Reading(user, id, use), locks)
    ensures Traced(s, Doing(ss), locks) && Explained(s.committed, done, Doing(ss), locks)
  {
    ViewKeyed(s.committed, locks);
    if id !in locks.rows {
      RememberedRow(s, locks, id);
    }
    forall b | Compatible(b, s.committed, Doing(ss), locks) ensures Explains(b, done, Doing(ss), locks) {
      ReadingExplains(b, s.committed, done, user, id, use, locks, ss);
    }
  }

  lemma ReadOk(s: System, done: seq<Step>, ss: seq<Statement>, locks: Locks, w: Statement)
    requires Sound(s.committed) && History(s) && LocksKeyed(locks) && Traced(s, Doing(ss), locks)
    requires ss != [] && ss[0].ReadAccount? && Act(View(s.committed, locks), ss[0]) == Success(Acted(View(s.committed, locks), [w]))
    requires Explained(s.committed, done, Doing(ss), locks)
    ensures Traced(s, Doing([w] + ss[1..]), locks) && Explained(s.committed, done, Doing([w] + ss[1..]), locks)
  {
    ViewKeyed(s.committed, locks);
    ReadKey(View(s.committed, locks), ss[0], w);
    if ss[0].account !in locks.accounts {
      RememberedAccount(s, locks, ss[0].account);
    }
    forall b | Compatible(b, s.committed, Doing([w] + ss[1..]), locks)
      ensures Explains(b, done, Doing([w] + ss[1..]), locks)
    {
      ReadExplains(b, s.committed, done, ss, locks, w);
    }
  }

  lemma LockKeyed(view: Db, locks: Locks, w: Statement, next: Db)
    requires !w.ReadAccount? && Act(view, w) == Success(Acted(next, [])) && LocksKeyed(locks)
    requires forall k | k in view.accounts :: view.accounts[k].id == k
    ensures LocksKeyed(Lock(locks, w, next))
  {
  }

  lemma WriteOk(s: System, done: seq<Step>, ss: seq<Statement>, locks: Locks, next: Db)
    requires Sound(s.committed) && History(s) && Fresh(s) && LocksKeyed(locks) && Traced(s, Doing(ss), locks)
    requires ss != [] && !ss[0].ReadAccount? && Act(View(s.committed, locks), ss[0]) == Success(Acted(next, []))
    requires Explained(s.committed, done, Doing(ss), locks)
    ensures var locked := Lock(locks, ss[0], next);
            LocksKeyed(locked) && Traced(s, Doing(ss[1..]), locked) && Explained(s.committed, done, Doing(ss[1..]), locked)
  {
    ViewKeyed(s.committed, locks);
    LockKeyed(View(s.committed, locks), locks, ss[0], next);
    if Guarded(ss[0]) && !Holds(locks, KeyOf(ss[0])) {
      GuardedCurrent(s, locks, ss[0]);
    }
    forall b | Compatible(b, s.committed, Doing(ss[1..]), Lock(locks, ss[0], next))
      ensures Explains(b, done, Doing(ss[1..]), Lock(locks, ss[0], next))
    {
      WriteExplains(b, s.committed, done, ss, locks, next);
    }
  }

  lemma BegunTraced(s: System, step: Step, locks: Locks)
    ensures Traced(s, Begun(step), locks)
  {
  }

  lemma StepOk(s: System, done: seq<Step>, step: Step, user: Id, locks: Locks)
    requires Explained(s.committed, done, Doing([]), locks) && PlanFor(done, user) && Built(step)
    ensures Traced(s, Begun(step), locks) && Explained(s.committed, done + [step], Begun(step), locks)
  {
    BegunTraced(s, step, locks);
    forall b | Compatible(b, s.committed, Begun(step), locks) ensures Explains(b, done + [step], Begun(step), locks) {
      StepExplains(b, s.committed, done, step, user, locks);
    }
  }

  lemma PlanPrefix(c: Client)
    requires c.Active? && OnPlan(c)
    ensures PlanFor(c.done, c.user) && forall i | 0 <= i < |c.queue| :: Built(c.queue[i])
  {
    PlanIsFor(c.request, c.seen, c.user);
    PlanSplit(Plan(c.request, c.seen), c.done, c.queue, c.user);
  }

  lemma PlanSplit(plan: seq<Step>, done: seq<Step>, queue: seq<Step>, user: Id)
    requires plan == done + queue && PlanFor(plan, user)
    ensures PlanFor(done, user) && forall i | 0 <= i < |queue| :: Built(queue[i])
  {
    assert forall i | 0 <= i < |done| :: done[i] == plan[i];
    assert forall i | 0 <= i < |queue| :: queue[i] == plan[|done| + i];
  }

  lemma NextCommandOk(c: Client, o: Observation)
    requires c.Active? && OnPlan(c) && c.queue == [] && |c.seen| < |c.request|
    ensures OnPlan(c.(seen := c.seen + [o], queue := StepsOf(c.request[|c.seen|], o)))
  {
    PlanGrows(c.request, c.seen, o);
    assert c.done + c.queue == c.done;
  }

  lemma PlanGrows(request: seq<Command>, seen: seq<Observation>, o: Observation)
    requires |seen| < |request|
    ensures Plan(request, seen + [o]) == Plan(request, seen) + StepsOf(request[|seen|], o)
  {
    assert (seen + [o])[..|seen|] == seen;
  }

  /** Whatever a client does next, it stays explained. */
  lemma AdvanceOk(s: System, c: Client)
    requires Sound(s.committed) && History(s) && Fresh(s) && ClientOk(s, c) && CanAdvance(c)
    ensures ClientOk(s, AfterAdvance(s.committed, c))
  {
    if Advanced(s.committed, c).Success? {
      if c.now.Reading? {
        ReadingClientOk(s, c, c.now.user, c.now.id, c.now.use);
      } else if c.now.statements != [] {
        StatementOk(s, c, c.now.statements);
      } else if c.queue != [] {
        StepClientOk(s, c);
      } else {
        CommandClientOk(s, c);
      }
    }
  }

  lemma ReadingClientOk(s: System, c: Client, user: Id, id: Id, use: TransactionUse)
    requires Sound(s.committed) && History(s) && ClientOk(s, c) && CanAdvance(c)
    requires c.now == Reading(user, id, use) && Advanced(s.committed, c).Success?
    ensures ClientOk(s, Advanced(s.committed, c).value)
  {
    ReadingOk(s, c.done, user, id, use, c.locks, UseTransaction(View(s.committed, c.locks).transactions[id], user, use).value);
  }

  lemma StepClientOk(s: System, c: Client)
    requires ClientOk(s, c) && CanAdvance(c) && c.now == Doing([]) && c.queue != []
    ensures Advanced(s.committed, c).Success? && ClientOk(s, Advanced(s.committed, c).value)
  {
    PlanPrefix(c);
    StepOk(s, c.done, c.queue[0], c.user, c.locks);
    assert c.done + c.queue == c.done + [c.queue[0]] + c.queue[1..];
  }

  lemma CommandClientOk(s: System, c: Client)
    requires ClientOk(s, c) && CanAdvance(c) && c.now == Doing([]) && c.queue == []
    ensures Advanced(s.committed, c).Success? && ClientOk(s, Advanced(s.committed, c).value)
  {
    var command := c.request[|c.seen|];
    NextCommandOk(c, Observe(View(s.committed, c.locks), command));
  }

  lemma StatementOk(s: System, c: Client, ss: seq<Statement>)
    requires Sound(s.committed) && History(s) && Fresh(s) && ClientOk(s, c) && CanAdvance(c)
    requires c.now == Doing(ss) && ss != [] && Advanced(s.committed, c).Success?
    ensures ClientOk(s, Advanced(s.committed, c).value)
  {
    var acted := Act(View(s.committed, c.locks), ss[0]).value;
    if ss[0].ReadAccount? {
      assert acted == Acted(View(s.committed, c.locks), [acted.todo[0]]);
      ReadOk(s, c.done, ss, c.locks, acted.todo[0]);
    } else {
      WriteOk(s, c.done, ss, c.locks, acted.db);
      assert acted.todo + ss[1..] == ss[1..];
    }
  }

  // ---- Events keep the invariant ------------------------------------------

  /** An unblocked client locks no row that another client holds. */
  lemma AdvanceApart(s: System, i: nat, j: nat)
    requires i < |s.clients| && j < |s.clients| && i != j && CanAdvance(s.clients[i]) && !Blocked(s, i)
    requires Apart(s.clients[i], s.clients[j])
    ensures Apart(AfterAdvance(s.committed, s.clients[i]), s.clients[j])
  {
    var c, d := s.clients[i], s.clients[j];
    if Advanced(s.committed, c).Success? && d.Active? && c.now.Doing? && c.now.statements != [] && !c.now.statements[0].ReadAccount? {
      assert !Waits(s, i, j);
      var key := KeyOf(c.now.statements[0]);
      assert !Holds(d.locks, key);
      assert forall k | k in Advanced(s.committed, c).value.locks.rows :: k in c.locks.rows || key == TransactionKey(k);
      assert forall k | k in Advanced(s.committed, c).value.locks.accounts :: k in c.locks.accounts || key == AccountKey(k);
    }
  }

  lemma ApartSymmetric(c: Client, d: Client)
    ensures Apart(c, d) <==> Apart(d, c)
  {
  }

  lemma ReplaceApart(clients: seq<Client>, i: nat, c: Client)
    requires i < |clients| && AllApart(clients)
    requires forall j | 0 <= j < |clients| && j != i :: Apart(c, clients[j])
    ensures AllApart(clients[i := c])
  {
    var next := clients[i := c];
    forall j, k | 0 <= j < k < |next| ensures Apart(next[j], next[k]) {
      if k == i {
        ApartSymmetric(c, clients[j]);
      }
    }
  }

  lemma InvAdvance(s: System, i: nat)
    requires Inv(s) && Fresh(s) && Enabled(s, Advance(i))
    ensures Inv(After(s, Advance(i)))
  {
    AdvanceOk(s, s.clients[i]);
    var c := AfterAdvance(s.committed, s.clients[i]);
    forall j | 0 <= j < |s.clients| && j != i ensures Apart(c, s.clients[j]) {
      if j < i {
        ApartSymmetric(s.clients[j], s.clients[i]);
      }
      AdvanceApart(s, i, j);
    }
    ReplaceApart(s.clients, i, c);
    SameClients(s, After(s, Advance(i)), i);
  }

  /** Clients that do not move stay as they should when only one client changes. */
  lemma SameClients(s: System, t: System, i: nat)
    requires i < |s.clients| == |t.clients| && s.committed == t.committed && s.rows == t.rows && s.accounts == t.accounts
    requires forall j | 0 <= j < |s.clients| :: ClientOk(s, s.clients[j])
    requires forall j | 0 <= j < |s.clients| && j != i :: t.clients[j] == s.clients[j]
    requires ClientOk(s, t.clients[i])
    ensures forall j | 0 <= j < |t.clients| :: ClientOk(t, t.clients[j])
  {
    forall j | 0 <= j < |t.clients| ensures ClientOk(t, t.clients[j]) {
      assert ClientOk(s, t.clients[j]);
    }
  }

  lemma StartedOk(s: System, user: Id, request: seq<Command>)
    requires IsRequest(request, user)
    ensures ClientOk(s, Started(user, request))
  {
    forall b: Db ensures Explains(b, [], Doing([]), NO_LOCKS) {
      ViewNothing(b);
    }
  }

  lemma InvOther(s: System, e: Event)
    requires Inv(s) && Enabled(s, e) && (e.Begin? || e.Abort?)
    ensures Inv(After(s, e))
  {
    if e.Begin? {
      StartedOk(s, e.user, e.request);
    }
    ReplaceApart(s.clients, e.i, After(s, e).clients[e.i]);
    SameClients(s, After(s, e), e.i);
  }

  /** A finished client's view is its whole plan done from the committed tables. */
  lemma FinishedIsSerial(s: System, c: Client)
    requires Sound(s.committed) && ClientOk(s, c) && Finished(c)
    ensures |c.seen| == |c.request| && IsRequest(c.request, c.user)
    ensures PerformAll(s.committed, Plan(c.request, c.seen)) == Success(View(s.committed, c.locks))
    ensures Keeps(s.committed, View(s.committed, c.locks), c.user)
  {
    assert Compatible(s.committed, s.committed, c.now, c.locks);
    assert Explains(s.committed, c.done, c.now, c.locks);
    assert c.done + c.queue == c.done;
    PlanIsFor(c.request, c.seen, c.user);
    PlanKeeps(s.committed, c.done, c.user);
  }

  lemma ElsewhereOk(s: System, t: System, c: Client, d: Client)
    requires ClientOk(s, d) && c.Active? && Apart(c, d) && t.committed == View(s.committed, c.locks)
    requires AccountsKept(s.committed, t.committed) && s.rows <= t.rows && s.accounts <= t.accounts
    ensures ClientOk(t, d)
  {
    if d.Active? {
      forall k | k in d.locks.rows ensures Row(t.committed, k) == Row(s.committed, k) {
        ViewRow(s.committed, c.locks, k);
      }
      forall k | k in d.locks.accounts ensures AccountRow(t.committed, k) == AccountRow(s.committed, k) {
        ViewAccount(s.committed, c.locks, k);
      }
      ExplainedElsewhere(s.committed, t.committed, d.done, d.now, d.locks);
    }
  }

  lemma InvCommit(s: System, i: nat)
    requires Inv(s) && Enabled(s, Commit(i))
    ensures Inv(After(s, Commit(i)))
  {
    var c, t := s.clients[i], After(s, Commit(i));
    FinishedIsSerial(s, c);
    forall j | 0 <= j < |t.clients| ensures ClientOk(t, t.clients[j]) {
      if j != i {
        ApartSymmetric(s.clients[j], c);
        ElsewhereOk(s, t, c, s.clients[j]);
      }
    }
    ReplaceApart(s.clients, i, Idle);
  }

  lemma InvAfter(s: System, e: Event)
    requires Inv(s) && Fresh(s) && Enabled(s, e)
    ensures Inv(After(s, e))
  {
    match e
    case Advance(i) => InvAdvance(s, i);
    case Commit(i) => InvCommit(s, i);
    case _ => InvOther(s, e);
  }
}
