/** The ledger services over two mutable tables, statement by statement as the program issues them. */
module LedgerDatabase {
  import opened Prelude
  import opened LedgerRows
  import opened LedgerSpec
  import LedgerInvariant
  import Strings

  type RowResult = Result<Transaction, LedgerError>
  type AccountResult = Result<Account, LedgerError>

  class Database {
    var accounts: map<Id, Account>
    var transactions: map<Id, Transaction>

    function Tables(): Db
      reads this
    {
      Db(accounts, transactions)
    }

    constructor ()
      ensures Tables() == Db(map[], map[])
    {
      accounts, transactions := map[], map[];
    }

    /** The tables as they are when a database transaction begins. */
    method Begin() returns (saved: Db)
      ensures saved == Tables()
    {
      return Db(accounts, transactions);
    }

    method Rollback(saved: Db)
      modifies this
      ensures Tables() == saved
    {
      accounts, transactions := saved.accounts, saved.transactions;
    }

    // ---- Statements -------------------------------------------------------

    method FindTransaction(user: Id, id: Id) returns (r: RowResult)
      ensures r == if OwnsTransaction(Tables(), user, id) then Success(transactions[id]) else Failure(TransactionNotFound)
    {
      if id in transactions && transactions[id].user == user {
        return Success(transactions[id]);
      }
      return Failure(TransactionNotFound);
    }

    method FindAccount(user: Id, id: Id) returns (r: AccountResult)
      ensures r == if OwnsAccount(Tables(), user, id) then Success(accounts[id]) else Failure(AccountNotFound)
    {
      if id in accounts && accounts[id].user == user {
        return Success(accounts[id]);
      }
      return Failure(AccountNotFound);
    }

    method InsertTransaction(t: Transaction, refused: bool) returns (error: Option<LedgerError>)
      modifies this
      ensures match Insert(old(Tables()), t, refused)
              case Success(done) => error == None && Tables() == done.db
              case Failure(e) => error == Some(e) && Tables() == old(Tables())
    {
      if refused || t.id in transactions || !References(Tables(), t) {
        return Some(WriteRefused);
      }
      transactions := transactions[t.id := t];
      return None;
    }

    /** Rewrites a row that still carries the stamp it was read with; the creation date is not written. */
    method UpdateTransaction(t: Transaction, expected: Time, refused: bool) returns (error: Option<LedgerError>)
      modifies this
      ensures error.Some? ==> Tables() == old(Tables())
      ensures if !OwnsTransaction(old(Tables()), t.user, t.id) then error == Some(TransactionNotFound)
              else if old(transactions)[t.id].updatedAt != expected then error == Some(ConcurrentTransactionUpdate)
              else if refused || !References(old(Tables()), t) then error == Some(WriteRefused)
              else error == None && accounts == old(accounts) &&
                   transactions == old(transactions)[t.id := t.(createdAt := old(transactions)[t.id].createdAt)]
    {
      if t.id !in transactions || transactions[t.id].user != t.user {
        return Some(TransactionNotFound);
      }
      if transactions[t.id].updatedAt != expected {
        return Some(ConcurrentTransactionUpdate);
      }
      if refused || !References(Tables(), t) {
        return Some(WriteRefused);
      }
      transactions := transactions[t.id := t.(createdAt := transactions[t.id].createdAt)];
      return None;
    }

    /** Deletes a row that still carries the stamp it was read with and is not posted. */
    method DeleteTransaction(user: Id, id: Id, expected: Time, refused: bool) returns (error: Option<LedgerError>)
      modifies this
      ensures error.Some? ==> Tables() == old(Tables())
      ensures if !OwnsTransaction(old(Tables()), user, id) then error == Some(TransactionNotFound)
              else if old(transactions)[id].status == Posted then error == Some(PostedDeleteConflict)
              else if old(transactions)[id].updatedAt != expected then error == Some(ConcurrentTransactionUpdate)
              else if refused then error == Some(WriteRefused)
              else error == None && accounts == old(accounts) && transactions == old(transactions) - {id}
    {
      if id !in transactions || transactions[id].user != user {
        return Some(TransactionNotFound);
      }
      if transactions[id].status == Posted {
        return Some(PostedDeleteConflict);
      }
      if transactions[id].updatedAt != expected {
        return Some(ConcurrentTransactionUpdate);
      }
      if refused {
        return Some(WriteRefused);
      }
      transactions := transactions - {id};
      return None;
    }

    /** Rewrites an account that still carries the stamp it was read with; currency, archive and creation dates are not written. */
    method UpdateAccountRow(a: Account, expected: Time, refused: bool) returns (error: Option<LedgerError>)
      modifies this
      ensures error.Some? ==> Tables() == old(Tables())
      ensures if !OwnsAccount(old(Tables()), a.user, a.id) then error == Some(AccountNotFound)
              else if old(accounts)[a.id].updatedAt != expected then error == Some(ConcurrentAccountUpdate)
              else if refused then error == Some(WriteRefused)
              else error == None && transactions == old(transactions) &&
                   accounts == old(accounts)[a.id := Rewritten(old(accounts)[a.id], a)]
    {
      if a.id !in accounts || accounts[a.id].user != a.user {
        return Some(AccountNotFound);
      }
      if accounts[a.id].updatedAt != expected {
        return Some(ConcurrentAccountUpdate);
      }
      if refused {
        return Some(WriteRefused);
      }
      accounts := accounts[a.id := Rewritten(accounts[a.id], a)];
      return None;
    }

    method InsertAccount(a: Account, refused: bool) returns (error: Option<LedgerError>)
      modifies this
      ensures error.Some? ==> Tables() == old(Tables())
      ensures if refused || a.id in old(accounts) || Blank(a.id) then error == Some(WriteRefused)
              else error == None && transactions == old(transactions) && accounts == old(accounts)[a.id := a]
    {
      if refused || a.id in accounts || Blank(a.id) {
        return Some(WriteRefused);
      }
      accounts := accounts[a.id := a];
      return None;
    }

    /** Sets the archive date of an active account, or clears it: both unguarded. */
    method StampAccount(user: Id, id: Id, archivedAt: Option<Time>, now: Time, refused: bool) returns (error: Option<LedgerError>)
      modifies this
      ensures error.Some? ==> Tables() == old(Tables())
      ensures if !OwnsAccount(old(Tables()), user, id) || (archivedAt.Some? && old(accounts)[id].archivedAt.Some?)
              then error == Some(AccountNotFound)
              else if refused then error == Some(WriteRefused)
              else error == None && transactions == old(transactions) &&
                   accounts == old(accounts)[id := old(accounts)[id].(archivedAt := archivedAt, updatedAt := now)]
    {
      if id !in accounts || accounts[id].user != user || (archivedAt.Some? && accounts[id].archivedAt.Some?) {
        return Some(AccountNotFound);
      }
      if refused {
        return Some(WriteRefused);
      }
      accounts := accounts[id := accounts[id].(archivedAt := archivedAt, updatedAt := now)];
      return None;
    }

    // ---- Balance effects --------------------------------------------------

    method TransactionAccountDeltas(t: Transaction) returns (r: Result<map<Id, Int64>, LedgerError>)
      ensures r == Deltas(t)
    {
      var deltas: map<Id, Int64> := map[];
      var amount := t.amount.minor as int;
      match t.kind {
        case Income =>
          if t.accountTo.None? {
            return Failure(IncompleteAccounts);
          }
          deltas := Plus(deltas, t.accountTo.value, amount);
        case Expense =>
          if t.accountFrom.None? {
            return Failure(IncompleteAccounts);
          }
          deltas := Plus(deltas, t.accountFrom.value, -amount);
        case Transfer =>
          if t.accountFrom.None? || t.accountTo.None? {
            return Failure(IncompleteAccounts);
          }
          deltas := Plus(deltas, t.accountFrom.value, -amount);
          deltas := Plus(deltas, t.accountTo.value, amount);
        case Saving =>
          if t.accountFrom.None? {
            return Failure(IncompleteAccounts);
          }
          deltas := Plus(deltas, t.accountFrom.value, -amount);
        case Investment =>
          if t.accountFrom.None? {
            return Failure(IncompleteAccounts);
          }
          deltas := Plus(deltas, t.accountFrom.value, -amount);
        case UnknownType =>
          return Failure(InvalidType);
      }
      return Success(deltas);
    }

    /** Negates every collected delta, in whatever order the map yields them. */
    method Negate(deltas: map<Id, Int64>) returns (negated: map<Id, Int64>)
      ensures negated.Keys == deltas.Keys
      ensures forall a | a in deltas :: negated[a] == Negated(deltas[a])
    {
      negated := deltas;
      var unvisited := deltas.Keys;
      while unvisited != {}
        invariant unvisited <= deltas.Keys && negated.Keys == deltas.Keys
        invariant forall a | a in deltas :: negated[a] == if a in unvisited then deltas[a] else Negated(deltas[a])
      {
        var a :| a in unvisited;
        unvisited := unvisited - {a};
        negated := negated[a := Negated(negated[a])];
      }
    }

    /** Adds a delta to one account by a guarded rewrite of the row just read. */
    method AddDelta(user: Id, id: Id, delta: Int64, now: Time) returns (error: Option<LedgerError>)
      requires id in accounts ==> accounts[id].id == id && StoredAccount(accounts[id])
      modifies this
      ensures transactions == old(transactions)
      ensures if Owns(old(accounts), user, id)
              then error == None && accounts == old(accounts)[id := Credited(old(accounts)[id], delta, now)]
              else error == Some(AccountNotFound) && accounts == old(accounts)
    {
      var found := FindAccount(user, id);
      if found.Failure? {
        return Some(found.error);
      }
      var account := found.value;
      var built := NewAccount(account.(balance := account.balance.(minor := Wrap64(account.balance.minor + delta)),
                                       updatedAt := now));
      assert built == Success(Credited(account, delta, now));
      error := UpdateAccountRow(built.value, account.updatedAt, false);
    }

    /** One round of the loop over the deltas: an account without a delta is skipped. */
    method AddNextDelta(user: Id, id: Id, deltas: map<Id, Int64>, now: Time, ghost start: map<Id, Account>, ghost visited: set<Id>)
      returns (error: Option<LedgerError>)
      requires id in deltas && id !in visited && StoredAccounts(start) && AddedSoFar(start, deltas, visited, accounts, user, now)
      modifies this
      ensures transactions == old(transactions)
      ensures error == if deltas[id] == 0 || Owns(start, user, id) then None else Some(AccountNotFound)
      ensures error == None ==> AddedSoFar(start, deltas, visited + {id}, accounts, user, now)
    {
      if deltas[id] != 0 {
        error := AddDelta(user, id, deltas[id], now);
        if error.Some? {
          return;
        }
      }
      AddedNext(start, deltas, visited, old(accounts), accounts, user, id, now);
      return None;
    }

    /** Adds each delta to its account, in ascending id order. */
    method AddDeltas(user: Id, deltas: map<Id, Int64>, now: Time) returns (error: Option<LedgerError>)
      requires StoredAccounts(accounts)
      modifies this
      ensures transactions == old(transactions)
      ensures error == None || error == Some(AccountNotFound)
      ensures error == None <==> forall a | a in deltas && deltas[a] != 0 :: Owns(old(accounts), user, a)
      ensures error == None ==> accounts == Added(old(accounts), deltas, deltas.Keys, now)
    {
      var ids := Strings.SortedSeq(deltas.Keys);
      Strings.SortedSeqElements(deltas.Keys);
      Strings.SortedSeqAscending(deltas.Keys);
      ghost var start := accounts;
      ghost var visited: set<Id> := {};
      for i := 0 to |ids|
        invariant transactions == old(transactions)
        invariant forall a :: a in visited <==> a in ids[..i]
        invariant AddedSoFar(start, deltas, visited, accounts, user, now)
      {
        Strings.AscendingFresh(ids, i);
        error := AddNextDelta(user, ids[i], deltas, now, start, visited);
        if error.Some? {
          return;
        }
        visited := visited + {ids[i]};
      }
      assert visited == deltas.Keys;
      return None;
    }

    /**
     * Applies a transaction's balance effect on behalf of a user: its deltas for a non-negative
     * sign, their opposites for a negative one.
     */
    method ApplyBalanceEffect(user: Id, t: Transaction, sign: int, now: Time) returns (error: Option<LedgerError>)
      requires StoredAccounts(accounts) && ValidRow(t)
      modifies this
      ensures transactions == old(transactions)
      ensures match Settle(old(Tables()), user, t, sign, now)
              case Success(next) => error == None && Tables() == next
              case Failure(e) => error == Some(e)
    {
      var collected := TransactionAccountDeltas(t);
      CollectedDeltas(t);
      var deltas := collected.value;
      if sign < 0 {
        deltas := Negate(deltas);
      }
      CollectedSettle(Tables(), user, t, sign, deltas, now);
      error := AddDeltas(user, deltas, now);
    }
  }

  predicate Owns(accounts: map<Id, Account>, user: Id, id: Id) {
    id in accounts && accounts[id].user == user
  }

  predicate StoredAccounts(accounts: map<Id, Account>) {
    forall k | k in accounts :: accounts[k].id == k && StoredAccount(accounts[k])
  }

  function Added(accounts: map<Id, Account>, deltas: map<Id, Int64>, visited: set<Id>, now: Time): map<Id, Account> {
    map a | a in accounts ::
      if a in visited && a in deltas && deltas[a] != 0 then Credited(accounts[a], deltas[a], now) else accounts[a]
  }

  /** The visited accounts have their deltas, and those that had one belong to the user. */
  predicate AddedSoFar(start: map<Id, Account>, deltas: map<Id, Int64>, visited: set<Id>, accounts: map<Id, Account>, user: Id, now: Time) {
    accounts == Added(start, deltas, visited, now) &&
    forall a | a in visited && a in deltas && deltas[a] != 0 :: Owns(start, user, a)
  }

  lemma AddedNext(start: map<Id, Account>, deltas: map<Id, Int64>, visited: set<Id>, before: map<Id, Account>, after: map<Id, Account>,
                  user: Id, id: Id, now: Time)
    requires AddedSoFar(start, deltas, visited, before, user, now) && id in deltas && id !in visited
    requires if deltas[id] == 0 then after == before
             else Owns(before, user, id) && after == before[id := Credited(before[id], deltas[id], now)]
    ensures AddedSoFar(start, deltas, visited + {id}, after, user, now)
  {
  }

  /** The deltas as collected: the accounts a transaction touches, each with its delta. */
  lemma CollectedDeltas(t: Transaction)
    requires ValidRow(t)
    ensures Deltas(t).Success? && Deltas(t).value.Keys == Touched(t)
    ensures forall a | a in Deltas(t).value :: Deltas(t).value[a] == Delta(t, a)
  {
    forall a ensures Deltas(t).Success? && (if a in Deltas(t).value then Deltas(t).value[a] as int else 0) == Delta(t, a) {
      DeltasAreDeltas(t, a);
    }
  }

  /** Adding the signed deltas one account after the other settles the transaction. */
  lemma CollectedSettle(db: Db, user: Id, t: Transaction, sign: int, deltas: map<Id, Int64>, now: Time)
    requires ValidRow(t) && deltas.Keys == Touched(t)
    requires forall a | a in deltas :: deltas[a] == if sign < 0 then Wrap64(-Delta(t, a)) else Delta(t, a)
    ensures Settle(db, user, t, sign, now).Success? <==> forall a | a in deltas && deltas[a] != 0 :: Owns(db.accounts, user, a)
    ensures Settle(db, user, t, sign, now).Success? ==>
              Settle(db, user, t, sign, now).value == db.(accounts := Added(db.accounts, deltas, deltas.Keys, now))
  {
    forall a ensures SettleDelta(deltas, t, sign, a) {
      SettleDeltaHolds(deltas, t, sign, a);
    }
    AddedIsAdjusted(db.accounts, t, sign, deltas, now);
    OwnersFound(db, user, t, sign, deltas);
  }

  lemma AddedIsAdjusted(accounts: map<Id, Account>, t: Transaction, sign: int, deltas: map<Id, Int64>, now: Time)
    requires forall a :: SettleDelta(deltas, t, sign, a)
    ensures Added(accounts, deltas, deltas.Keys, now) == Adjusted(accounts, t, sign, now)
  {
    forall a | a in accounts
      ensures Added(accounts, deltas, deltas.Keys, now)[a] == Adjusted(accounts, t, sign, now)[a]
    {
      assert SettleDelta(deltas, t, sign, a);
    }
  }

  lemma OwnersFound(db: Db, user: Id, t: Transaction, sign: int, deltas: map<Id, Int64>)
    requires deltas.Keys == Touched(t) && forall a :: SettleDelta(deltas, t, sign, a)
    ensures (exists a | a in Touched(t) :: Delta(t, a) != 0 && !OwnsAccount(db, user, a))
            <==> !(forall a | a in deltas && deltas[a] != 0 :: Owns(db.accounts, user, a))
  {
    forall a | a in deltas ensures deltas[a] != 0 <==> Delta(t, a) != 0 {
      assert SettleDelta(deltas, t, sign, a);
    }
  }

  predicate SettleDelta(deltas: map<Id, Int64>, t: Transaction, sign: int, a: Id) {
    (if a in deltas then deltas[a] as int else 0) == Signed(sign, Delta(t, a))
  }

  lemma SettleDeltaHolds(deltas: map<Id, Int64>, t: Transaction, sign: int, a: Id)
    requires ValidRow(t) && deltas.Keys == Touched(t)
    requires a in deltas ==> deltas[a] == if sign < 0 then Wrap64(-Delta(t, a)) else Delta(t, a)
    ensures SettleDelta(deltas, t, sign, a)
  {
    DeltaRange(t, a);
    WrapExact(-Delta(t, a));
    if Delta(t, a) != 0 {
      LedgerInvariant.DeltaTouches(t, a);
    }
  }

  function Negated(d: Int64): Int64 {
    Wrap64(-(d as int))
  }

  /** `deltas[id] += amount` on a map whose missing entries read as zero. */
  function Plus(deltas: map<Id, Int64>, id: Id, amount: int): map<Id, Int64> {
    deltas[id := Wrap64((if id in deltas then deltas[id] as int else 0) + amount)]
  }

  /** What the guarded rewrite of an account changes. */
  function Rewritten(old_: Account, a: Account): Account {
    old_.(name := a.name, kind := a.kind, balance := old_.balance.(minor := a.balance.minor),
          initialBalance := old_.initialBalance.(minor := a.initialBalance.minor),
          inNetWorth := a.inNetWorth, inDailyBudget := a.inDailyBudget, updatedAt := a.updatedAt)
  }
}
