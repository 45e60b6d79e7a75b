/** An interleaving in which a bulk patch goes through that would have failed at the moment of its commit. */
module LedgerStale {
  import opened Prelude
  import opened LedgerRows
  import opened LedgerSpec
  import opened LedgerInvariant
  import opened LedgerDatabase
  import opened LedgerStatements
  import opened LedgerPlans
  import opened LedgerConcurrency
  import opened LedgerInterleavings
  import opened LedgerScenarios

  /** An item that asks for planned, and whose patch would go through even once the row is posted at `at`. */
  predicate PatchesOncePosted(t: Transaction, item: PatchItem, at: Time) {
    AsksPlanned(item) && !item.patchEnv.refused && item.input.user == t.user && item.input.id == t.id
    && PatchedRow(PostedIncome(t, at), item.input.(status := None), item.patchEnv.now).Success?
  }

  function RewrittenRow(t: Transaction, item: PatchItem, at: Time): Transaction
    requires PatchesOncePosted(t, item, at)
  {
    PatchedRow(PostedIncome(t, at), item.input.(status := None), item.patchEnv.now).value
  }

  function PatchOf(item: PatchItem): Step {
    PatchStep(item.input.(status := None), item.patchEnv)
  }

  /** The bulk client once it has observed the planned row. */
  function Observed(t: Transaction, item: PatchItem): Client {
    Active(t.user, [ItemCommand(item)], [SawTransaction(t)], [], [PatchOf(item)], Doing([]), NO_LOCKS)
  }

  /** The bulk client at work on its only step. */
  function AtWork(t: Transaction, item: PatchItem, now: Progress, locks: Locks): Client {
    Active(t.user, [ItemCommand(item)], [SawTransaction(t)], [PatchOf(item)], [], now, locks)
  }

  lemma ObservesPlanned(s: System, t: Transaction, item: PatchItem)
    requires |s.clients| == 2 && s.clients[0] == Idle && Row(s.committed, t.id) == Some(t) && t.status == Planned
    requires AsksPlanned(item) && item.input.user == t.user && item.input.id == t.id
    ensures Reaches(s, [Begin(0, t.user, [ItemCommand(item)])] + [Advance(0)], With(s, 0, Observed(t, item)))
  {
    var begun := With(s, 0, Started(t.user, [ItemCommand(item)]));
    ReachesOne(s, Begin(0, t.user, [ItemCommand(item)]), begun);
    ViewNothing(s.committed);
    assert StepsOf(ItemCommand(item), SawTransaction(t)) == [PatchOf(item)] + [] == [PatchOf(item)];
    assert [] + [SawTransaction(t)] == [SawTransaction(t)];
    FreeAdvance(begun, 0, Observed(t, item));
    assert With(begun, 0, Observed(t, item)) == With(s, 0, Observed(t, item));
    ReachesThen(s, [Begin(0, t.user, [ItemCommand(item)])], begun, [Advance(0)], With(s, 0, Observed(t, item)));
  }

  /** The other client posts the row and commits. */
  lemma OtherPosts(s: System, t: Transaction, item: PatchItem, account: Id, post: Env) returns (events: seq<Event>, m: System)
    requires s.clients == [Observed(t, item), Idle] && t.id in s.committed.transactions && s.committed.transactions[t.id] == t
    requires PlannedIncome(s.committed, t.user, t.id, account) && !post.refused
    ensures Reaches(s, events, m) && m.clients == s.clients
    ensures m.committed == CreditCommitted(s.committed, s.committed.accounts[account], t, post)
    ensures m.rows == s.rows + m.committed.transactions.Values && m.accounts == s.accounts + m.committed.accounts.Values
  {
    var ready := With(s, 1, AboutToCredit(s.committed, t.user, t.id, account, post));
    var e1 := PostGetsReady(s, 1, t.user, t.id, account, post);
    var e2;
    e2, m := CreditCommits(ready, 1, s.committed, t.user, t.id, account, post);
    ReachesThen(s, e1, ready, e2, m);
    events := e1 + e2;
  }

  /** The posted row, which the bulk client finds when it reads the row again. */
  predicate HasPosted(db: Db, t: Transaction, at: Time) {
    Row(db, t.id) == Some(PostedIncome(t, at)) && References(db, t)
  }

  /** Two advances take the bulk client from what it has observed to the write of the posted row. */
  lemma BulkReadsPosted(s: System, t: Transaction, item: PatchItem, at: Time)
    requires |s.clients| == 2 && s.clients[0] == Observed(t, item) && HasPosted(s.committed, t, at) && PatchesOncePosted(t, item, at)
    ensures Reaches(s, [Advance(0)] + [Advance(0)],
                    With(s, 0, AtWork(t, item, Doing([WriteTransaction(PostedIncome(t, at), RewrittenRow(t, item, at), false)]), NO_LOCKS)))
  {
    var reading := AtWork(t, item, Begun(PatchOf(item)), NO_LOCKS);
    var writing := AtWork(t, item, Doing([WriteTransaction(PostedIncome(t, at), RewrittenRow(t, item, at), false)]), NO_LOCKS);
    assert [] + [PatchOf(item)] == [PatchOf(item)] && [PatchOf(item)][1..] == [];
    FreeAdvance(s, 0, reading);
    ViewNothing(s.committed);
    FreeAdvance(With(s, 0, reading), 0, writing);
    ReachesThen(s, [Advance(0)], With(s, 0, reading), [Advance(0)], With(s, 0, writing));
  }

  lemma RewrittenRowIs(t: Transaction, item: PatchItem, at: Time)
    requires PatchesOncePosted(t, item, at)
    ensures var next := RewrittenRow(t, item, at);
            next.id == t.id && next.user == t.user && next.status == Posted && next.createdAt == t.createdAt
            && next.accountFrom == t.accountFrom && next.accountTo == t.accountTo && next.updatedAt == item.patchEnv.now
  {
    PatchedRowKeeps(PostedIncome(t, at), item.input.(status := None), item.patchEnv.now);
    PatchedIdentity(PostedIncome(t, at), item.input.(status := None), item.patchEnv.now);
  }

  function LocksOf(t: Transaction, item: PatchItem, at: Time): Locks
    requires PatchesOncePosted(t, item, at)
  {
    Locks(map[t.id := Some(RewrittenRow(t, item, at))], map[])
  }

  lemma BulkWritesPosted(s: System, t: Transaction, item: PatchItem, at: Time)
    requires |s.clients| == 2 && s.clients[1] == Idle && HasPosted(s.committed, t, at) && PatchesOncePosted(t, item, at)
    requires s.clients[0] == AtWork(t, item, Doing([WriteTransaction(PostedIncome(t, at), RewrittenRow(t, item, at), false)]), NO_LOCKS)
    ensures Reaches(s, [Advance(0)], With(s, 0, AtWork(t, item, Doing([]), LocksOf(t, item, at))))
  {
    var w := WriteTransaction(PostedIncome(t, at), RewrittenRow(t, item, at), false);
    RewrittenRowIs(t, item, at);
    ViewNothing(s.committed);
    assert Act(s.committed, w) == Success(Acted(SetRow(s.committed, t.id, Some(w.next)), []));
    assert [] + [w][1..] == [];
    assert Lock(NO_LOCKS, w, SetRow(s.committed, t.id, Some(w.next))) == LocksOf(t, item, at);
    LockingAdvance(s, 0, AtWork(t, item, Doing([]), LocksOf(t, item, at)));
  }

  /** What the bulk client commits: its patch of a row that stays posted. */
  lemma BulkCommits(s: System, t: Transaction, item: PatchItem, at: Time)
    requires |s.clients| == 2 && HasPosted(s.committed, t, at) && PatchesOncePosted(t, item, at)
    requires s.clients[0] == AtWork(t, item, Doing([]), LocksOf(t, item, at))
    ensures Enabled(s, Commit(0))
    ensures var next := After(s, Commit(0));
            && next.committed == SetRow(s.committed, t.id, Some(RewrittenRow(t, item, at)))
            && next.rows == s.rows + next.committed.transactions.Values && next.accounts == s.accounts + next.committed.accounts.Values
  {
    var next := View(s.committed, LocksOf(t, item, at));
    assert next.accounts == s.committed.accounts;
    assert next.transactions == s.committed.transactions[t.id := RewrittenRow(t, item, at)];
  }

  /** At the moment of the commit the single-item step would refuse the item. */
  lemma SingleItemRefuses(db: Db, t: Transaction, item: PatchItem, at: Time)
    requires HasPosted(db, t, at) && PatchesOncePosted(t, item, at)
    ensures PatchBulk(db, [item]) == Failure(BulkItem(0, PostedPatchConflict))
  {
    RewrittenRowIs(t, item, at);
    assert PatchInTx(db, item.input.(status := None), item.patchEnv).Success?;
    assert PatchOne(db, item) == Failure(PostedPatchConflict);
    assert Fold(PatchOne, db, [item], 0) == Success(Batch(db, []));
    assert Fold(PatchOne, db, [item], 1) == Failure(BulkItem(0, PostedPatchConflict));
  }

  /** Neither clock shows a stamp that any committed version carries. */
  predicate NewStamps(s: System, post: Time, patch: Time) {
    post != patch && (forall t | t in s.rows :: t.updatedAt != post && t.updatedAt != patch)
    && (forall a | a in s.accounts :: a.updatedAt != post)
  }

  lemma StaysFresh(s: System, m: System, t: System, row: Transaction, item: PatchItem, account: Id, post: Env)
    requires Fresh(s) && History(s) && NewStamps(s, post.now, item.patchEnv.now)
    requires row.id in s.committed.transactions && PatchesOncePosted(row, item, post.now)
    requires account in s.committed.accounts && s.committed.accounts[account].id == account
    requires m.committed == CreditCommitted(s.committed, s.committed.accounts[account], row, post)
    requires m.rows == s.rows + m.committed.transactions.Values && m.accounts == s.accounts + m.committed.accounts.Values
    requires t.committed == SetRow(m.committed, row.id, Some(RewrittenRow(row, item, post.now)))
    requires t.rows == m.rows + t.committed.transactions.Values && t.accounts == m.accounts + t.committed.accounts.Values
    ensures Fresh(t)
  {
    var posted, patched := PostedIncome(row, post.now), RewrittenRow(row, item, post.now);
    var credited := m.committed.accounts[account];
    RewrittenRowIs(row, item, post.now);
    assert forall u | u in t.rows :: u in s.rows || u == posted || u == patched;
    assert forall a | a in t.accounts :: a in s.accounts || a == credited;
  }

  /**
   * A bulk patch whose item has observed a planned row and asks for planned goes through although the row has
   * been posted meanwhile, when the same item by itself would be refused. No stamps need be equal for it.
   */
  lemma StaleItemGoesThrough(s: System, row: Transaction, account: Id, post: Env, item: PatchItem)
    returns (events: seq<Event>, m: System, t: System)
    requires s.clients == [Idle, Idle] && PlannedIncome(s.committed, row.user, row.id, account) && !post.refused
    requires s.committed.transactions[row.id] == row && PatchesOncePosted(row, item, post.now)
    ensures Reaches(s, events, m) && Enabled(m, Commit(0)) && t == After(m, Commit(0))
    ensures m.clients[0].request == [ItemCommand(item)] && m.clients[0].seen == [SawTransaction(row)] && row.status == Planned
    ensures PatchBulk(m.committed, [item]) == Failure(BulkItem(0, PostedPatchConflict))
    ensures StatusIs(t.committed, row.id, Posted) && t.committed.transactions[row.id] == RewrittenRow(row, item, post.now)
    ensures Fresh(s) && History(s) && NewStamps(s, post.now, item.patchEnv.now) ==> Fresh(t)
  {
    var s1 := With(s, 0, Observed(row, item));
    ObservesPlanned(s, row, item);
    var e1 := [Begin(0, row.user, [ItemCommand(item)])] + [Advance(0)];
    var e2, s2 := OtherPosts(s1, row, item, account, post);
    ReachesThen(s, e1, s1, e2, s2);
    m := BulkFinishes(s2, row, item, post.now);
    var e3 := [Advance(0)] + [Advance(0)] + [Advance(0)];
    ReachesThen(s, e1 + e2, s2, e3, m);
    events := e1 + e2 + e3;
    BulkCommits(m, row, item, post.now);
    t := After(m, Commit(0));
    SingleItemRefuses(m.committed, row, item, post.now);
    RewrittenRowIs(row, item, post.now);
    if Fresh(s) && History(s) && NewStamps(s, post.now, item.patchEnv.now) {
      StaysFresh(s, m, t, row, item, account, post);
    }
  }

  lemma BulkFinishes(s: System, t: Transaction, item: PatchItem, at: Time) returns (m: System)
    requires s.clients == [Observed(t, item), Idle] && HasPosted(s.committed, t, at) && PatchesOncePosted(t, item, at)
    ensures Reaches(s, [Advance(0)] + [Advance(0)] + [Advance(0)], m)
    ensures m == With(s, 0, AtWork(t, item, Doing([]), LocksOf(t, item, at)))
  {
    var read := With(s, 0, AtWork(t, item, Doing([WriteTransaction(PostedIncome(t, at), RewrittenRow(t, item, at), false)]), NO_LOCKS));
    BulkReadsPosted(s, t, item, at);
    BulkWritesPosted(read, t, item, at);
    m := With(s, 0, AtWork(t, item, Doing([]), LocksOf(t, item, at)));
    assert With(read, 0, m.clients[0]) == m;
    ReachesThen(s, [Advance(0)] + [Advance(0)], read, [Advance(0)], m);
  }
}
