/** Interleavings of any number of clients: they are serial in commit order, and what follows from that. */
module LedgerInterleavings {
  import opened Prelude
  import opened LedgerRows
  import opened LedgerSpec
  import opened LedgerInvariant
  import opened LedgerRuns
  import opened LedgerStatements
  import opened LedgerPlans
  import opened LedgerConcurrency

  // ---- Interleavings ------------------------------------------------------

  function Initial(n: nat): System {
    System(EMPTY, seq(n, i => Idle), {}, {})
  }

  predicate Happens(events: seq<Event>, states: seq<System>, n: nat)
    requires |states| == |events| + 1 && n < |events|
  {
    Enabled(states[n], events[n]) && states[n + 1] == After(states[n], events[n])
  }

  /** An interleaving of any number of clients from empty tables in which no row is committed twice with one stamp. */
  predicate IsInterleaving(events: seq<Event>, states: seq<System>) {
    && |states| == |events| + 1 && states[0] == Initial(|states[0].clients|)
    && (forall n | 0 <= n < |events| :: Happens(events, states, n))
    && Fresh(states[|events|])
  }

  lemma {:induction false} HistoryGrows(events: seq<Event>, states: seq<System>, n: nat, m: nat)
    requires IsInterleaving(events, states) && n <= m <= |events|
    ensures states[n].rows <= states[m].rows && states[n].accounts <= states[m].accounts
    decreases m - n
  {
    if n < m {
      assert Happens(events, states, n);
      HistoryGrows(events, states, n + 1, m);
    }
  }

  lemma AlwaysFresh(events: seq<Event>, states: seq<System>, n: nat)
    requires IsInterleaving(events, states) && n <= |events|
    ensures Fresh(states[n])
  {
    HistoryGrows(events, states, n, |events|);
  }

  lemma {:induction false} AlwaysInv(events: seq<Event>, states: seq<System>, n: nat)
    requires IsInterleaving(events, states) && n <= |events|
    ensures Inv(states[n])
  {
    if n > 0 {
      AlwaysInv(events, states, n - 1);
      NextInv(events, states, n - 1);
    }
  }

  lemma NextInv(events: seq<Event>, states: seq<System>, n: nat)
    requires IsInterleaving(events, states) && n < |events| && Inv(states[n])
    ensures Inv(states[n + 1])
  {
    AlwaysFresh(events, states, n);
    assert Happens(events, states, n);
    InvAfter(states[n], events[n]);
  }

  /**
   * Every interleaving is serial: the committed tables change only when a client commits, and then
   * exactly as if its whole request ran at that moment, step by step and alone, on what it had observed.
   */
  lemma CommitsAreSerial(events: seq<Event>, states: seq<System>, n: nat)
    requires IsInterleaving(events, states) && n < |events|
    ensures !events[n].Commit? ==> states[n + 1].committed == states[n].committed
    ensures events[n].Commit? && events[n].i < |states[n].clients| ==>
              var c := states[n].clients[events[n].i];
              c.Active? && |c.seen| == |c.request| && IsRequest(c.request, c.user)
              && PerformAll(states[n].committed, Plan(c.request, c.seen)) == Success(states[n + 1].committed)
  {
    AlwaysInv(events, states, n);
    assert Happens(events, states, n);
    if events[n].Commit? {
      FinishedIsSerial(states[n], states[n].clients[events[n].i]);
    }
  }

  /** A committed single operation whose reads are all guarded did exactly what the operation does when it runs alone. */
  lemma GuardedCommitsAreSequential(events: seq<Event>, states: seq<System>, n: nat, c: Command)
    requires IsInterleaving(events, states) && n < |events|
    requires events[n].Commit? && events[n].i < |states[n].clients| && ObservesNothing(c)
    requires states[n].clients[events[n].i].Active? && states[n].clients[events[n].i].request == [c]
    ensures Sequential(states[n].committed, c) == Success(states[n + 1].committed)
  {
    CommitsAreSerial(events, states, n);
    var client := states[n].clients[events[n].i];
    assert Plan([c], client.seen) == StepsOf(c, client.seen[0]) by {
      assert client.seen[..0] == [];
      assert [] + StepsOf(c, client.seen[0]) == StepsOf(c, client.seen[0]);
    }
    ObservationIrrelevant(c, client.seen[0], states[n].committed);
    CommandAlone(states[n].committed, c);
  }

  /** A committed bulk creation is the left fold of its single creations, done at the moment of the commit. */
  lemma BulkCreationsAreSequential(events: seq<Event>, states: seq<System>, n: nat, items: seq<CreateItem>)
    requires IsInterleaving(events, states) && n < |events|
    requires events[n].Commit? && events[n].i < |states[n].clients|
    requires states[n].clients[events[n].i].Active? && Creates(states[n].clients[events[n].i].request, items)
    ensures CreateBulk(states[n].committed, items).Success?
    ensures CreateBulk(states[n].committed, items).value.db == states[n + 1].committed
  {
    CommitsAreSerial(events, states, n);
    var client := states[n].clients[events[n].i];
    CreatesFold(states[n].committed, client.request, items, client.seen);
  }

  /**
   * A committed bulk patch is the left fold of its single-item steps at the moment of the commit if and only
   * if no item is stale; with a stale one, the fold would have failed.
   */
  lemma BulkPatchesAreSequential(events: seq<Event>, states: seq<System>, n: nat, items: seq<PatchItem>)
    requires IsInterleaving(events, states) && n < |events|
    requires events[n].Commit? && events[n].i < |states[n].clients|
    requires states[n].clients[events[n].i].Active? && IsBulkPatch(states[n].clients[events[n].i].request, items)
    ensures var c, db := states[n].clients[events[n].i], states[n].committed;
            && |c.seen| == |c.request|
            && if AnyStale(db, c.request, items, c.seen) then PatchBulk(db, items).Failure?
               else PatchBulk(db, items).Success? && PatchBulk(db, items).value.db == states[n + 1].committed
  {
    CommitsAreSerial(events, states, n);
    AlwaysInv(events, states, n);
    var c := states[n].clients[events[n].i];
    PatchesFold(states[n].committed, c.request, items, c.seen, c.user);
  }

  lemma FirstIdle(events: seq<Event>, states: seq<System>, i: nat)
    requires IsInterleaving(events, states) && i < |states[0].clients|
    ensures states[0].clients[i].Idle?
  {
    var n := |states[0].clients|;
    assert states[0] == Initial(n);
  }

  /**
   * What a client has observed, it observed earlier in the run, in the tables it saw then: every unguarded read
   * is of a row that was committed at that moment or that the client had written itself.
   */
  lemma {:induction false} ObservedEarlier(events: seq<Event>, states: seq<System>, n: nat, i: nat, k: nat) returns (m: nat)
    requires IsInterleaving(events, states) && n <= |events| && i < |states[n].clients|
    requires states[n].clients[i].Active? && k < |states[n].clients[i].seen| <= |states[n].clients[i].request|
    ensures m < n && i < |states[m].clients| && ObservesAt(states[m], i, states[n].clients[i], k)
    decreases n
  {
    if n == 0 {
      FirstIdle(events, states, i);
    } else {
      assert Happens(events, states, n - 1);
      var before, now := states[n - 1].clients[i], states[n].clients[i];
      if before.Active? && k < |before.seen| && before.request == now.request && before.seen <= now.seen {
        m := ObservedEarlier(events, states, n - 1, i, k);
      } else {
        m := n - 1;
      }
    }
  }

  /** In state `s` client `i`, with the request of `c`, is about to make the observation `k` of `c`. */
  predicate ObservesAt(s: System, i: nat, c: Client, k: nat)
    requires i < |s.clients| && c.Active? && k < |c.seen| <= |c.request|
  {
    var d := s.clients[i];
    d.Active? && d.request == c.request && d.seen == c.seen[..k] && c.seen[k] == Observe(View(s.committed, d.locks), c.request[k])
  }

  /** The row a bulk item observed was the committed one at that moment, or the client's own uncommitted one. */
  lemma ObservedRow(s: System, i: nat, c: Client, k: nat)
    requires i < |s.clients| && c.Active? && k < |c.seen| <= |c.request| && ObservesAt(s, i, c, k)
    requires c.request[k].ItemCommand? && c.seen[k].SawTransaction?
    ensures var id, locks := c.request[k].item.input.id, s.clients[i].locks;
            Some(c.seen[k].t) == if id in locks.rows then locks.rows[id] else Row(s.committed, id)
  {
    ViewRow(s.committed, s.clients[i].locks, c.request[k].item.input.id);
  }

  /**
   * Every committed balance is its initial balance plus the effects of its owner's committed posted
   * transactions modulo 2^64, whatever the interleaving, and exactly that sum while it is an `int64`.
   */
  lemma CommittedBalances(events: seq<Event>, states: seq<System>, n: nat, account: Id)
    requires IsInterleaving(events, states) && n <= |events| && account in states[n].committed.accounts
    ensures var a := states[n].committed.accounts[account];
            && a.balance.minor == Wrap64(Owed(states[n].committed, a))
            && (a.balance.minor == Owed(states[n].committed, a) <==> InInt64(Owed(states[n].committed, a)))
  {
    AlwaysInv(events, states, n);
    WrapExact(Owed(states[n].committed, states[n].committed.accounts[account]));
  }

  /** A commit touches the rows of its own user only, loses no account and moves statuses forward. */
  lemma CommitsKeep(events: seq<Event>, states: seq<System>, n: nat)
    requires IsInterleaving(events, states) && n < |events|
    ensures MovesForward(states[n].committed, states[n + 1].committed)
    ensures AccountsKept(states[n].committed, states[n + 1].committed)
    ensures events[n].Commit? && events[n].i < |states[n].clients| && states[n].clients[events[n].i].Active? ==>
              OthersKept(states[n].committed, states[n + 1].committed, states[n].clients[events[n].i].user)
  {
    AlwaysInv(events, states, n);
    assert Happens(events, states, n);
    if events[n].Commit? {
      FinishedIsSerial(states[n], states[n].clients[events[n].i]);
    }
  }

  predicate StatusIs(db: Db, id: Id, status: Status) {
    id in db.transactions && db.transactions[id].status == status
  }

  predicate Becomes(states: seq<System>, n: nat, id: Id, status: Status)
    requires n + 1 < |states|
  {
    !StatusIs(states[n].committed, id, status) && StatusIs(states[n + 1].committed, id, status)
  }

  predicate Settled(db: Db, id: Id) {
    id in db.transactions && db.transactions[id].status in {Posted, Cancelled}
  }

  /** A posted row stays posted or cancelled, and a cancelled one cancelled, as long as it exists. */
  lemma {:induction false} NeverUnsettled(events: seq<Event>, states: seq<System>, i: nat, j: nat, id: Id)
    requires IsInterleaving(events, states) && i <= j <= |events|
    requires forall m | i <= m <= j :: id in states[m].committed.transactions
    requires Settled(states[i].committed, id)
    ensures Settled(states[j].committed, id)
    ensures StatusIs(states[i].committed, id, Cancelled) ==> StatusIs(states[j].committed, id, Cancelled)
    decreases j
  {
    if i < j {
      NeverUnsettled(events, states, i, j - 1, id);
      CommitsKeep(events, states, j - 1);
      assert id in states[j - 1].committed.transactions;
    }
  }

  /** No transaction is posted twice, and none is cancelled twice: no commit after the one that did it does it again. */
  lemma NeverTwice(events: seq<Event>, states: seq<System>, i: nat, j: nat, id: Id, status: Status)
    requires IsInterleaving(events, states) && i < j < |events| && status in {Posted, Cancelled}
    requires forall m | i < m <= j :: id in states[m].committed.transactions
    requires Becomes(states, i, id, status)
    ensures !Becomes(states, j, id, status)
  {
    NeverUnsettled(events, states, i + 1, j, id);
    CommitsKeep(events, states, j);
  }

  /** No update is lost: a commit moves each balance by exactly the change of the posted effects it commits. */
  lemma NothingLost(events: seq<Event>, states: seq<System>, n: nat, account: Id)
    requires IsInterleaving(events, states) && n < |events|
    requires account in states[n].committed.accounts
    ensures account in states[n + 1].committed.accounts
    ensures var a, b := states[n].committed.accounts[account], states[n + 1].committed.accounts[account];
            Same64(b.balance.minor - a.balance.minor,
                   Total(states[n + 1].committed.transactions, a.user, account) - Total(states[n].committed.transactions, a.user, account))
  {
    AccountsKeptAt(events, states, n);
    SumsAt(events, states, n, account);
    SumsAt(events, states, n + 1, account);
    MovesBySum(states[n].committed, states[n + 1].committed, account);
  }

  lemma AccountsKeptAt(events: seq<Event>, states: seq<System>, n: nat)
    requires IsInterleaving(events, states) && n < |events|
    ensures AccountsKept(states[n].committed, states[n + 1].committed)
  {
    CommitsKeep(events, states, n);
  }

  lemma SumsAt(events: seq<Event>, states: seq<System>, n: nat, account: Id)
    requires IsInterleaving(events, states) && n <= |events| && account in states[n].committed.accounts
    ensures var db := states[n].committed;
            SumsUp(db.accounts[account], Total(db.transactions, db.accounts[account].user, account))
  {
    AlwaysInv(events, states, n);
    BalanceIs(states[n].committed, account);
  }

  lemma MovesBySum(db: Db, next: Db, account: Id)
    requires AccountsKept(db, next) && account in db.accounts
    requires SumsUp(db.accounts[account], Total(db.transactions, db.accounts[account].user, account))
    requires account in next.accounts
             && SumsUp(next.accounts[account], Total(next.transactions, next.accounts[account].user, account))
    ensures var a := db.accounts[account];
            Same64(next.accounts[account].balance.minor - a.balance.minor,
                   Total(next.transactions, a.user, account) - Total(db.transactions, a.user, account))
  {
    var a, b := db.accounts[account], next.accounts[account];
    SameDifference(a.balance.minor, b.balance.minor, a.initialBalance.minor,
                   Total(db.transactions, a.user, account), Total(next.transactions, a.user, account));
  }

  lemma SameDifference(x: int, y: int, start: int, before: int, after: int)
    requires x == Wrap64(start + before) && y == Wrap64(start + after)
    ensures Same64(y - x, after - before)
  {
    Same64Multiple(y - x, after - before);
  }
}
