/** What every ledger operation keeps: balances, ownership, the order of statuses and the terms of posted rows. */
module LedgerInvariant {
  import opened Prelude
  import opened LedgerRows
  import opened LedgerSpec
  import Strings

  // ---- The sum of the posted effects --------------------------------------

  /** The sum of the effects of all rows on one account of one user. */
  ghost function Total(ts: map<Id, Transaction>, user: Id, account: Id): int
    decreases |ts|
  {
    if ts == map[] then 0 else
      var k :| k in ts;
      Effect(ts[k], user, account) + Total(ts - {k}, user, account)
  }

  lemma {:induction false} TotalSplit(ts: map<Id, Transaction>, k: Id, user: Id, account: Id)
    requires k in ts
    ensures Total(ts, user, account) == Effect(ts[k], user, account) + Total(ts - {k}, user, account)
    decreases |ts|
  {
    var j :| j in ts && Total(ts, user, account) == Effect(ts[j], user, account) + Total(ts - {j}, user, account);
    if j != k {
      TotalSplit(ts - {j}, k, user, account);
      TotalSplit(ts - {k}, j, user, account);
      assert ts - {j} - {k} == ts - {k} - {j};
    }
  }

  /** Writing a row changes the sum by the difference of the effects. */
  lemma TotalWrite(ts: map<Id, Transaction>, t: Transaction, user: Id, account: Id)
    ensures Total(ts[t.id := t], user, account) == Total(ts, user, account) + Effect(t, user, account)
            - (if t.id in ts then Effect(ts[t.id], user, account) else 0)
  {
    TotalSplit(ts[t.id := t], t.id, user, account);
    assert ts[t.id := t] - {t.id} == ts - {t.id};
    if t.id in ts {
      TotalSplit(ts, t.id, user, account);
    } else {
      assert ts - {t.id} == ts;
    }
  }

  lemma TotalRemove(ts: map<Id, Transaction>, k: Id, user: Id, account: Id)
    requires k in ts && ts[k].status != Posted
    ensures Total(ts - {k}, user, account) == Total(ts, user, account)
  {
    TotalSplit(ts, k, user, account);
  }

  // ---- The invariant ------------------------------------------------------

  /** The true sum behind a balance, in unbounded integers. */
  ghost function Owed(db: Db, a: Account): int {
    a.initialBalance.minor + Total(db.transactions, a.user, a.id)
  }

  /** Every balance is its initial balance plus the effects of its owner's posted transactions, modulo 2^64. */
  ghost predicate Balanced(db: Db) {
    forall k | k in db.accounts :: db.accounts[k].balance.minor == Wrap64(Owed(db, db.accounts[k]))
  }

  predicate AllowedMove(t: Transaction, u: Transaction) {
    t == u ||
    (t.id == u.id && t.user == u.user &&
     ((t.status == Planned && u.status in {Planned, Posted, Cancelled}) ||
      (t.status == Posted && u.status in {Posted, Cancelled} && SameTerms(t, u))))
  }

  /** Rows of other users stay as they are, and none is added or removed. */
  predicate OthersKept(db: Db, next: Db, user: Id) {
    && (forall k | k in db.accounts && db.accounts[k].user != user :: k in next.accounts && next.accounts[k] == db.accounts[k])
    && (forall k | k in next.accounts && next.accounts[k].user != user :: k in db.accounts && db.accounts[k] == next.accounts[k])
    && (forall k | k in db.transactions && db.transactions[k].user != user ::
          k in next.transactions && next.transactions[k] == db.transactions[k])
    && (forall k | k in next.transactions && next.transactions[k].user != user ::
          k in db.transactions && db.transactions[k] == next.transactions[k])
  }

  /** Statuses only move forward, the terms of a posted row are frozen and no posted row disappears. */
  predicate MovesForward(db: Db, next: Db) {
    && (forall k | k in db.transactions && k in next.transactions :: AllowedMove(db.transactions[k], next.transactions[k]))
    && (forall k | k in db.transactions && k !in next.transactions :: db.transactions[k].status != Posted)
  }

  /** Accounts stay, with their owner and their initial balance. */
  predicate AccountsKept(db: Db, next: Db) {
    forall k | k in db.accounts ::
      k in next.accounts && next.accounts[k].user == db.accounts[k].user
      && next.accounts[k].initialBalance == db.accounts[k].initialBalance
  }

  ghost predicate Sound(db: Db) {
    Consistent(db) && Balanced(db)
  }

  /** What one operation of `user` keeps. */
  ghost predicate Keeps(db: Db, next: Db, user: Id) {
    Sound(next) && OthersKept(db, next, user) && MovesForward(db, next) && AccountsKept(db, next)
  }

  lemma KeepsNothing(db: Db, user: Id)
    requires Sound(db)
    ensures Keeps(db, db, user)
  {
  }

  lemma MovesForwardThen(a: Db, b: Db, c: Db)
    requires MovesForward(a, b) && MovesForward(b, c)
    requires a.transactions.Keys <= b.transactions.Keys <= c.transactions.Keys
    ensures MovesForward(a, c)
  {
    forall k | k in a.transactions ensures AllowedMove(a.transactions[k], c.transactions[k]) {
      assert AllowedMove(a.transactions[k], b.transactions[k]) && AllowedMove(b.transactions[k], c.transactions[k]);
    }
  }

  /** Two operations of one user that delete nothing keep together what each of them keeps. */
  lemma KeepsThen(a: Db, b: Db, c: Db, user: Id)
    requires Keeps(a, b, user) && Keeps(b, c, user)
    requires a.transactions.Keys <= b.transactions.Keys <= c.transactions.Keys
    ensures Keeps(a, c, user)
  {
    MovesForwardThen(a, b, c);
    assert AccountsKept(a, c) by {
      assert AccountsKept(a, b) && AccountsKept(b, c);
    }
  }

  // ---- Table steps --------------------------------------------------------

  lemma ReferencesKept(db: Db, next: Db, t: Transaction)
    requires AccountsKept(db, next) && References(db, t)
    ensures References(next, t)
  {
  }

  /** Tables stay consistent when accounts are kept and every changed row is a good one. */
  lemma ConsistentAfter(db: Db, next: Db)
    requires Consistent(db) && AccountsKept(db, next)
    requires forall k | k in next.accounts :: next.accounts[k].id == k && StoredAccount(next.accounts[k])
    requires forall k | k in next.transactions ::
               (k in db.transactions && next.transactions[k] == db.transactions[k]) ||
               (next.transactions[k].id == k && StoredTransaction(next.transactions[k]) && References(next, next.transactions[k]))
    ensures Consistent(next)
  {
    forall k | k in next.transactions
      ensures next.transactions[k].id == k && StoredTransaction(next.transactions[k]) && References(next, next.transactions[k])
    {
      if k in db.transactions && next.transactions[k] == db.transactions[k] {
        ReferencesKept(db, next, db.transactions[k]);
      }
    }
  }

  /** Writing one row that refers to the user's accounts keeps the tables consistent. */
  lemma ConsistentWrite(db: Db, t: Transaction)
    requires Consistent(db) && StoredTransaction(t) && References(db, t)
    ensures Consistent(db.(transactions := db.transactions[t.id := t]))
  {
    var next := db.(transactions := db.transactions[t.id := t]);
    assert References(next, t);
    ConsistentAfter(db, next);
  }

  lemma DeltaTouches(t: Transaction, account: Id)
    requires Delta(t, account) != 0
    ensures account in Touched(t)
  {
  }

  /** The accounts of `user` that a transaction moves are credited with its signed deltas; all others keep their rows. */
  ghost predicate Adjusts(before: map<Id, Account>, after: map<Id, Account>, user: Id, t: Transaction, sign: int, now: Time) {
    && after.Keys == before.Keys
    && (forall k | k in before && Delta(t, k) == 0 :: after[k] == before[k])
    && (forall k | k in before && Delta(t, k) != 0 ::
          before[k].user == user && after[k] == Credited(before[k], Signed(sign, Delta(t, k)), now))
  }

  lemma SettleAdjusts(db: Db, user: Id, t: Transaction, sign: int, now: Time)
    requires Settle(db, user, t, sign, now).Success?
    ensures Settle(db, user, t, sign, now).value.transactions == db.transactions
    ensures Adjusts(db.accounts, Settle(db, user, t, sign, now).value.accounts, user, t, sign, now)
  {
    forall k | k in db.accounts && Delta(t, k) != 0 ensures db.accounts[k].user == user {
      DeltaTouches(t, k);
    }
  }

  /** An adjustment and a forward write of one user's row disturb nothing else. */
  lemma WriteFrame(db: Db, next: Db, t: Transaction, terms: Transaction, sign: int, now: Time)
    requires Adjusts(db.accounts, next.accounts, t.user, terms, sign, now)
    requires next.transactions == db.transactions[t.id := t]
    requires t.id in db.transactions ==> AllowedMove(db.transactions[t.id], t) && db.transactions[t.id].user == t.user
    ensures OthersKept(db, next, t.user) && MovesForward(db, next) && AccountsKept(db, next)
  {
  }

  lemma CreditedStored(a: Account, amount: int, now: Time)
    requires StoredAccount(a)
    ensures StoredAccount(Credited(a, amount, now))
  {
  }

  lemma SettleConsistent(db: Db, user: Id, t: Transaction, sign: int, now: Time)
    requires Consistent(db) && Settle(db, user, t, sign, now).Success?
    ensures Consistent(Settle(db, user, t, sign, now).value)
  {
    SettleAdjusts(db, user, t, sign, now);
    var next := Settle(db, user, t, sign, now).value;
    forall k | k in next.accounts ensures next.accounts[k].id == k && StoredAccount(next.accounts[k]) {
      CreditedStored(db.accounts[k], Signed(sign, Delta(t, k)), now);
    }
    ConsistentAfter(db, next);
  }

  /** Moving the balances by a delta and the sum by the same delta keeps the tables balanced. */
  lemma BalancedAfter(db: Db, next: Db, t: Transaction, sign: int, now: Time)
    requires Balanced(db) && forall k | k in db.accounts :: db.accounts[k].id == k
    requires Adjusts(db.accounts, next.accounts, t.user, t, sign, now)
    requires forall k | k in db.accounts ::
               Total(next.transactions, db.accounts[k].user, k) ==
               Total(db.transactions, db.accounts[k].user, k) + (if db.accounts[k].user == t.user then Signed(sign, Delta(t, k)) else 0)
    ensures Balanced(next)
  {
    forall k | k in next.accounts ensures next.accounts[k].balance.minor == Wrap64(Owed(next, next.accounts[k])) {
      BalancedAccount(db.accounts[k], next.accounts[k], Owed(db, db.accounts[k]), Owed(next, next.accounts[k]), t, sign, now);
    }
  }

  lemma BalancedAccount(before: Account, after: Account, owed: int, owedAfter: int, t: Transaction, sign: int, now: Time)
    requires before.balance.minor == Wrap64(owed)
    requires Delta(t, before.id) != 0 ==> before.user == t.user
    requires after == if Delta(t, before.id) == 0 then before else Credited(before, Signed(sign, Delta(t, before.id)), now)
    requires owedAfter == owed + if before.user == t.user then Signed(sign, Delta(t, before.id)) else 0
    ensures after.balance.minor == Wrap64(owedAfter)
  {
    WrapAbsorbs(owed, Signed(sign, Delta(t, before.id)));
  }

  /** Writing a row that keeps its effect leaves the tables balanced. */
  lemma WriteSameEffect(db: Db, t: Transaction)
    requires Balanced(db)
    requires forall u, a :: Effect(t, u, a) == if t.id in db.transactions then Effect(db.transactions[t.id], u, a) else 0
    ensures Balanced(db.(transactions := db.transactions[t.id := t]))
  {
    var next := db.(transactions := db.transactions[t.id := t]);
    forall k | k in next.accounts ensures next.accounts[k].balance.minor == Wrap64(Owed(next, next.accounts[k])) {
      TotalWrite(db.transactions, t, db.accounts[k].user, db.accounts[k].id);
    }
  }

  /** Writing a row together with the adjustment of its accounts by the change of its effect. */
  lemma WriteAndSettle(db: Db, t: Transaction, terms: Transaction, sign: int, now: Time)
    requires Sound(db) && StoredTransaction(t) && References(db, t)
    requires Settle(db, t.user, terms, sign, now).Success? && terms.user == t.user
    requires forall u, a ::
               Effect(t, u, a) - (if t.id in db.transactions then Effect(db.transactions[t.id], u, a) else 0)
               == if u == t.user then Signed(sign, Delta(terms, a)) else 0
    ensures var moved := Settle(db, t.user, terms, sign, now).value;
            var next := Db(moved.accounts, db.transactions[t.id := t]);
            Sound(next) && References(moved, t) && Adjusts(db.accounts, next.accounts, t.user, terms, sign, now)
  {
    SettleAdjusts(db, t.user, terms, sign, now);
    SettleConsistent(db, t.user, terms, sign, now);
    var moved := Settle(db, t.user, terms, sign, now).value;
    var next := Db(moved.accounts, db.transactions[t.id := t]);
    ReferencesKept(db, moved, t);
    ConsistentWrite(moved, t);
    forall k | k in db.accounts
      ensures Total(next.transactions, db.accounts[k].user, k) ==
              Total(db.transactions, db.accounts[k].user, k)
              + (if db.accounts[k].user == terms.user then Signed(sign, Delta(terms, k)) else 0)
    {
      TotalWrite(db.transactions, t, db.accounts[k].user, k);
    }
    BalancedAfter(db, next, terms, sign, now);
  }

  // ---- Transaction operations ---------------------------------------------

  lemma NewTransactionStored(p: Transaction)
    requires NewTransaction(p).Success?
    ensures StoredTransaction(NewTransaction(p).value)
    ensures NewTransaction(p).value == p.(comment := NormalizeComment(p.comment))
  {
    if p.comment.Some? {
      Strings.TrimTwice(p.comment.value);
    }
    var t := p.(comment := NormalizeComment(p.comment));
    assert TypeError(t) == TypeError(p);
  }

  /** A stored row survives a change of status, stamps and occurrence date. */
  lemma StoredStamps(t: Transaction, u: Transaction)
    requires StoredTransaction(t) && u.status != UnknownStatus
    requires u == t.(status := u.status, occurredAt := u.occurredAt, postedAt := u.postedAt,
                     cancelledAt := u.cancelledAt, updatedAt := u.updatedAt)
    ensures StoredTransaction(u)
  {
    assert TypeError(u) == TypeError(t);
  }

  lemma EnterKeeps(db: Db, t: Transaction, env: Env)
    requires Sound(db) && StoredTransaction(t)
    requires Enter(db, t, env).Success?
    ensures Keeps(db, Enter(db, t, env).value.db, t.user)
    ensures Enter(db, t, env).value == Done(Enter(db, t, env).value.db, t)
    ensures t.id !in db.transactions
    ensures Enter(db, t, env).value.db.transactions == db.transactions[t.id := t]
  {
    if t.status != Posted {
      WriteSameEffect(db, t);
      ConsistentWrite(db, t);
    } else {
      SettleReferences(db, t, 1, env.now);
      WriteAndSettle(db, t, t, 1, env.now);
      WriteFrame(db, Enter(db, t, env).value.db, t, t, 1, env.now);
    }
  }

  /** Adjusting balances does not create accounts, so what can be referred to afterwards could be before. */
  lemma SettleReferences(db: Db, t: Transaction, sign: int, now: Time)
    requires Settle(db, t.user, t, sign, now).Success?
    ensures References(Settle(db, t.user, t, sign, now).value, t) ==> References(db, t)
  {
    SettleAdjusts(db, t.user, t, sign, now);
  }

  lemma CreateKeeps(db: Db, input: CreateInput, env: Env)
    requires Sound(db) && Create(db, input, env).Success?
    ensures Keeps(db, Create(db, input, env).value.db, input.user)
    ensures env.newId !in db.transactions
    ensures Create(db, input, env).value.db.transactions == db.transactions[env.newId := Create(db, input, env).value.row]
  {
    NewTransactionStored(CreateParams(input, env));
    EnterKeeps(db, NewTransaction(CreateParams(input, env)).value, env);
  }

  lemma DuplicateKeeps(db: Db, input: DuplicateInput, env: Env)
    requires Sound(db) && Duplicate(db, input, env).Success?
    ensures Keeps(db, Duplicate(db, input, env).value.db, input.user)
    ensures env.newId !in db.transactions
    ensures Duplicate(db, input, env).value.db.transactions == db.transactions[env.newId := Duplicate(db, input, env).value.row]
  {
    var params := DuplicateParams(db.transactions[input.id], input, env);
    NewTransactionStored(params);
    EnterKeeps(db, NewTransaction(params).value, env);
  }

  /** A patched row keeps its identity and status; a posted one keeps its terms. */
  lemma PatchedRowKeeps(t: Transaction, p: PatchInput, now: Time)
    requires PatchedRow(t, p, now).Success?
    ensures var u := PatchedRow(t, p, now).value;
            StoredTransaction(u) && AllowedMove(t, u) && u.status == t.status && u.id == t.id && u.user == t.user
            && t.status != Cancelled && u.updatedAt == now
    ensures forall user, a :: Effect(PatchedRow(t, p, now).value, user, a) == Effect(t, user, a)
  {
    NewTransactionStored(PatchParams(t, p, now).value);
  }

  lemma PatchInTxKeeps(db: Db, p: PatchInput, env: Env)
    requires Sound(db) && PatchInTx(db, p, env).Success?
    ensures Keeps(db, PatchInTx(db, p, env).value.db, p.user)
    ensures PatchInTx(db, p, env).value.db.transactions.Keys == db.transactions.Keys
    ensures PatchInTx(db, p, env).value.db.transactions[p.id] == PatchInTx(db, p, env).value.row
  {
    var t := db.transactions[p.id];
    PatchedRowKeeps(t, p, env.now);
    var u := PatchedRow(t, p, env.now).value;
    WriteSameEffect(db, u);
    ConsistentWrite(db, u);
  }

  lemma RemoveKeepsOwed(db: Db, id: Id, a: Account)
    requires id in db.transactions && db.transactions[id].status != Posted
    ensures Owed(Db(db.accounts, db.transactions - {id}), a) == Owed(db, a)
  {
    TotalRemove(db.transactions, id, a.user, a.id);
  }

  lemma DeleteBalanced(db: Db, id: Id)
    requires Balanced(db) && id in db.transactions && db.transactions[id].status != Posted
    ensures Balanced(Db(db.accounts, db.transactions - {id}))
  {
    forall k | k in db.accounts
      ensures Owed(Db(db.accounts, db.transactions - {id}), db.accounts[k]) == Owed(db, db.accounts[k])
    {
      RemoveKeepsOwed(db, id, db.accounts[k]);
    }
  }

  lemma DeleteSound(db: Db, id: Id)
    requires Sound(db) && id in db.transactions && db.transactions[id].status != Posted
    ensures Sound(Db(db.accounts, db.transactions - {id}))
  {
    DeleteBalanced(db, id);
    ConsistentAfter(db, Db(db.accounts, db.transactions - {id}));
  }

  lemma DeleteKeeps(db: Db, user: Id, id: Id, refused: bool)
    requires Sound(db) && Delete(db, user, id, refused).Success?
    ensures Keeps(db, Delete(db, user, id, refused).value.db, user)
  {
    DeleteSound(db, id);
    var next := Delete(db, user, id, refused).value.db;
    assert OthersKept(db, next, user);
    assert MovesForward(db, next);
  }

  /** Posting adds the row's deltas once. */
  lemma PostKeeps(db: Db, user: Id, id: Id, env: Env)
    requires Sound(db) && Post(db, user, id, env).Success?
    ensures Keeps(db, Post(db, user, id, env).value.db, user)
    ensures db.transactions[id].status == Planned
    ensures Post(db, user, id, env).value.db.transactions == db.transactions[id := Post(db, user, id, env).value.row]
  {
    var t := db.transactions[id];
    var row := PostedRow(t, env.now).value;
    StoredStamps(t, row);
    var written := db.(transactions := db.transactions[id := row]);
    SameAccountsSettle(db, written, user, row, 1, env.now);
    WriteAndSettle(db, row, row, 1, env.now);
    WriteFrame(db, Post(db, user, id, env).value.db, row, row, 1, env.now);
  }

  /** Cancelling a posted row takes its deltas off again; cancelling a planned one moves nothing. */
  lemma CancelKeeps(db: Db, user: Id, id: Id, env: Env)
    requires Sound(db) && Cancel(db, user, id, env).Success?
    ensures Keeps(db, Cancel(db, user, id, env).value.db, user)
    ensures db.transactions[id].status in {Planned, Posted}
    ensures Cancel(db, user, id, env).value.db.transactions == db.transactions[id := Cancel(db, user, id, env).value.row]
    ensures Cancel(db, user, id, env).value.row.status == Cancelled
    ensures SameTerms(db.transactions[id], Cancel(db, user, id, env).value.row)
  {
    var t := db.transactions[id];
    var row := CancelledRow(t, env.now).value;
    StoredStamps(t, row);
    var written := db.(transactions := db.transactions[id := row]);
    if t.status != Posted {
      WriteSameEffect(db, row);
      ConsistentWrite(db, row);
    } else {
      SameAccountsSettle(db, written, user, t, -1, env.now);
      WriteAndSettle(db, row, t, -1, env.now);
      WriteFrame(db, Cancel(db, user, id, env).value.db, row, t, -1, env.now);
    }
  }

  lemma SameAccountsSettle(a: Db, b: Db, user: Id, t: Transaction, sign: int, now: Time)
    requires a.accounts == b.accounts
    ensures Settle(a, user, t, sign, now).Success? <==> Settle(b, user, t, sign, now).Success?
    ensures Settle(a, user, t, sign, now).Success? ==>
              Settle(a, user, t, sign, now).value.accounts == Settle(b, user, t, sign, now).value.accounts
  {
  }

  /** The foreign keys see to it that posting and cancelling never miss an account. */
  lemma SettleSucceeds(db: Db, t: Transaction, sign: int, now: Time)
    requires References(db, t)
    ensures Settle(db, t.user, t, sign, now).Success?
  {
  }
}
