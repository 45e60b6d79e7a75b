/** Sequential runs of the ledger: what holds in every reachable state, and between any two of them. */
module LedgerRuns {
  import opened Prelude
  import opened LedgerRows
  import opened LedgerSpec
  import opened LedgerInvariant
  import Strings

  // ---- Account operations -------------------------------------------------

  lemma {:induction false} TotalZero(ts: map<Id, Transaction>, user: Id, account: Id)
    requires forall k | k in ts :: Effect(ts[k], user, account) == 0
    ensures Total(ts, user, account) == 0
    decreases |ts|
  {
    if ts != map[] {
      var k :| k in ts;
      TotalSplit(ts, k, user, account);
      TotalZero(ts - {k}, user, account);
    }
  }

  /** An account that does not exist yet owes nothing to any transaction. */
  lemma UnknownAccountOwesNothing(db: Db, user: Id, account: Id)
    requires Consistent(db) && account !in db.accounts
    ensures Total(db.transactions, user, account) == 0
  {
    forall k | k in db.transactions ensures Effect(db.transactions[k], user, account) == 0 {
      assert References(db, db.transactions[k]);
    }
    TotalZero(db.transactions, user, account);
  }

  lemma NewAccountStored(p: Account)
    requires NewAccount(p).Success? && !Blank(p.id)
    ensures StoredAccount(NewAccount(p).value) && NewAccount(p).value == p.(name := Strings.TrimSpace(p.name))
  {
    Strings.TrimTwice(p.name);
    BlankIsTrimmedAway(p.name);
    BlankIsTrimmedAway(Strings.TrimSpace(p.name));
  }

  lemma CreateAccountKeeps(db: Db, input: AccountInput, env: Env)
    requires Sound(db) && CreateAccount(db, input, env).Success?
    ensures Keeps(db, CreateAccount(db, input, env).value.db, input.user)
    ensures CreateAccount(db, input, env).value.row.balance == input.initialBalance
  {
    var a := CreateAccount(db, input, env).value.row;
    NewAccountStored(Account(env.newId, input.user, input.name, input.kind, input.initialBalance, input.initialBalance,
                             input.inNetWorth, input.inDailyBudget, None, env.now, env.now));
    InsertAccountKeeps(db, a);
  }

  /** A new account whose balance is its initial balance. */
  lemma InsertAccountKeeps(db: Db, a: Account)
    requires Sound(db) && StoredAccount(a) && a.id !in db.accounts && a.balance == a.initialBalance
    ensures Keeps(db, db.(accounts := db.accounts[a.id := a]), a.user)
  {
    ConsistentInsert(db, a);
    UnknownAccountOwesNothing(db, a.user, a.id);
    BalancedInsert(db, a);
    InsertFrame(db, a);
  }

  lemma BalancedInsert(db: Db, a: Account)
    requires Balanced(db) && a.id !in db.accounts && a.balance == a.initialBalance && Total(db.transactions, a.user, a.id) == 0
    ensures Balanced(db.(accounts := db.accounts[a.id := a]))
  {
    WrapExact(a.balance.minor);
    BalancedAccounts(db, db.(accounts := db.accounts[a.id := a]), a.id);
  }

  lemma InsertFrame(db: Db, a: Account)
    requires a.id !in db.accounts
    ensures var next := db.(accounts := db.accounts[a.id := a]);
            OthersKept(db, next, a.user) && MovesForward(db, next) && AccountsKept(db, next)
  {
  }

  lemma ConsistentInsert(db: Db, a: Account)
    requires Consistent(db) && StoredAccount(a)
    requires a.id in db.accounts ==> db.accounts[a.id].user == a.user && db.accounts[a.id].initialBalance == a.initialBalance
    ensures Consistent(db.(accounts := db.accounts[a.id := a]))
  {
    ConsistentAfter(db, db.(accounts := db.accounts[a.id := a]));
  }

  /** Balances stay true when no account but `id` changes, and that one is true itself. */
  lemma BalancedAccounts(db: Db, next: Db, id: Id)
    requires Balanced(db) && next.transactions == db.transactions
    requires forall k | k in next.accounts && k != id :: k in db.accounts && next.accounts[k] == db.accounts[k]
    requires id in next.accounts ==> next.accounts[id].balance.minor == Wrap64(Owed(db, next.accounts[id]))
    ensures Balanced(next)
  {
    forall k | k in next.accounts ensures next.accounts[k].balance.minor == Wrap64(Owed(next, next.accounts[k])) {
      assert Owed(next, next.accounts[k]) == Owed(db, next.accounts[k]);
    }
  }

  /** Rewriting an account without touching its owner and its balances keeps everything. */
  lemma AccountRowKeeps(db: Db, a: Account)
    requires Sound(db) && a.id in db.accounts && StoredAccount(a)
    requires a.user == db.accounts[a.id].user
    requires a.balance == db.accounts[a.id].balance && a.initialBalance == db.accounts[a.id].initialBalance
    ensures Keeps(db, db.(accounts := db.accounts[a.id := a]), a.user)
  {
    var next := db.(accounts := db.accounts[a.id := a]);
    ConsistentInsert(db, a);
    assert db.accounts[a.id].id == a.id;
    assert Owed(db, a) == Owed(db, db.accounts[a.id]);
    BalancedAccounts(db, next, a.id);
    assert OthersKept(db, next, a.user);
  }

  lemma UpdateAccountKeeps(db: Db, p: AccountPatch, env: Env)
    requires Sound(db) && UpdateAccount(db, p, env).Success?
    ensures Keeps(db, UpdateAccount(db, p, env).value.db, p.user)
    ensures UpdateAccount(db, p, env).value.row.balance == db.accounts[p.id].balance
  {
    var a := db.accounts[p.id];
    NewAccountStored(a.(name := if p.name.Some? then Strings.TrimSpace(p.name.value) else a.name,
                        kind := Set(p.kind, a.kind), inNetWorth := Set(p.inNetWorth, a.inNetWorth),
                        inDailyBudget := Set(p.inDailyBudget, a.inDailyBudget), updatedAt := env.now));
    AccountRowKeeps(db, UpdateAccount(db, p, env).value.row);
  }

  lemma ArchiveAccountKeeps(db: Db, user: Id, id: Id, env: Env)
    requires Sound(db) && ArchiveAccount(db, user, id, env).Success?
    ensures Keeps(db, ArchiveAccount(db, user, id, env).value.db, user)
  {
    if db.accounts[id].archivedAt.None? {
      AccountRowKeeps(db, ArchiveAccount(db, user, id, env).value.row);
    }
  }

  lemma RestoreAccountKeeps(db: Db, user: Id, id: Id, env: Env)
    requires Sound(db) && RestoreAccount(db, user, id, env).Success?
    ensures Keeps(db, RestoreAccount(db, user, id, env).value.db, user)
  {
    if db.accounts[id].archivedAt.Some? {
      AccountRowKeeps(db, RestoreAccount(db, user, id, env).value.row);
    }
  }

  // ---- Bulk operations ----------------------------------------------------

  /** A fold of steps that each keep everything keeps everything. */
  lemma {:induction false} FoldKeeps<I>(step: (Db, I) -> Outcome, db: Db, items: seq<I>, n: nat, user: Id)
    requires Sound(db) && n <= |items| && Fold(step, db, items, n).Success?
    requires forall d: Db, i | 0 <= i < |items| && Sound(d) && step(d, items[i]).Success? ::
               Keeps(d, step(d, items[i]).value.db, user) && d.transactions.Keys <= step(d, items[i]).value.db.transactions.Keys
    ensures Keeps(db, Fold(step, db, items, n).value.db, user)
    ensures db.transactions.Keys <= Fold(step, db, items, n).value.db.transactions.Keys
    ensures |Fold(step, db, items, n).value.rows| == n
  {
    if n == 0 {
      KeepsNothing(db, user);
    } else {
      FoldKeeps(step, db, items, n - 1, user);
      var b := Fold(step, db, items, n - 1).value.db;
      KeepsThen(db, b, step(b, items[n - 1]).value.db, user);
    }
  }

  lemma CreateBulkKeeps(db: Db, items: seq<CreateItem>, user: Id)
    requires Sound(db) && CreateBulk(db, items).Success?
    requires forall i | 0 <= i < |items| :: items[i].input.user == user
    ensures Keeps(db, CreateBulk(db, items).value.db, user)
  {
    forall d: Db, i | 0 <= i < |items| && Sound(d) && CreateOne(d, items[i]).Success?
      ensures Keeps(d, CreateOne(d, items[i]).value.db, user)
      ensures d.transactions.Keys <= CreateOne(d, items[i]).value.db.transactions.Keys
    {
      CreateKeeps(d, items[i].input, items[i].env);
    }
    FoldKeeps(CreateOne, db, items, |items|, user);
  }

  lemma StatusStepKeeps(patched: Done, p: PatchInput, target: Status, env: Env)
    requires Sound(patched.db) && StatusStep(patched, p, target, env).Success?
    ensures Keeps(patched.db, StatusStep(patched, p, target, env).value.db, p.user)
    ensures StatusStep(patched, p, target, env).value.db.transactions.Keys == patched.db.transactions.Keys
  {
    if target == Posted {
      PostKeeps(patched.db, p.user, p.id, env);
    } else if target == Cancelled {
      CancelKeeps(patched.db, p.user, p.id, env);
    }
  }

  lemma PatchOneKeeps(db: Db, item: PatchItem)
    requires Sound(db) && PatchOne(db, item).Success?
    ensures Keeps(db, PatchOne(db, item).value.db, item.input.user)
    ensures PatchOne(db, item).value.db.transactions.Keys == db.transactions.Keys
  {
    var p := item.input.(status := None);
    PatchInTxKeeps(db, p, item.patchEnv);
    if item.input.status.Some? {
      var patched := PatchInTx(db, p, item.patchEnv).value;
      StatusStepKeeps(patched, item.input, item.input.status.value.value, item.statusEnv);
      KeepsThen(db, patched.db, PatchOne(db, item).value.db, p.user);
    }
  }

  lemma PatchBulkKeeps(db: Db, items: seq<PatchItem>, user: Id)
    requires Sound(db) && PatchBulk(db, items).Success?
    requires forall i | 0 <= i < |items| :: items[i].input.user == user
    ensures Keeps(db, PatchBulk(db, items).value.db, user)
  {
    forall d: Db, i | 0 <= i < |items| && Sound(d) && PatchOne(d, items[i]).Success?
      ensures Keeps(d, PatchOne(d, items[i]).value.db, user)
      ensures d.transactions.Keys <= PatchOne(d, items[i]).value.db.transactions.Keys
    {
      PatchOneKeeps(d, items[i]);
    }
    FoldKeeps(PatchOne, db, items, |items|, user);
  }

  /** Item `i` is the first to fail, with error `e`, after the items before it went through one by one. */
  predicate FailsAt<I>(step: (Db, I) -> Outcome, db: Db, items: seq<I>, i: nat, e: LedgerError)
    requires i < |items|
  {
    Fold(step, db, items, i).Success? && step(Fold(step, db, items, i).value.db, items[i]) == Failure(e)
  }

  lemma {:induction false} FoldStops<I>(step: (Db, I) -> Outcome, db: Db, items: seq<I>, m: nat, n: nat)
    requires m <= n <= |items|
    ensures Fold(step, db, items, m).Failure? ==> Fold(step, db, items, n) == Fold(step, db, items, m)
  {
    if m < n {
      FoldStops(step, db, items, m, n - 1);
    }
  }

  lemma {:induction false} FoldCause<I>(step: (Db, I) -> Outcome, db: Db, items: seq<I>, n: nat)
    requires n <= |items| && Fold(step, db, items, n).Failure?
    ensures exists i, e :: 0 <= i < n && FailsAt(step, db, items, i, e) && Fold(step, db, items, n) == Failure(BulkItem(i, e))
  {
    if Fold(step, db, items, n - 1).Success? {
      assert FailsAt(step, db, items, n - 1, step(Fold(step, db, items, n - 1).value.db, items[n - 1]).error);
    } else {
      FoldCause(step, db, items, n - 1);
    }
  }

  /** A bulk operation of acceptable size fails exactly with the index and error of the first item that fails. */
  lemma BulkFailsFirst<I>(step: (Db, I) -> Outcome, db: Db, items: seq<I>, i: nat, e: LedgerError)
    requires 0 < |items| <= BULK_MAX_ITEMS
    ensures Bulk(step, db, items) == Failure(BulkItem(i, e)) <==> i < |items| && FailsAt(step, db, items, i, e)
  {
    if i < |items| && FailsAt(step, db, items, i, e) {
      assert Fold(step, db, items, i + 1) == Failure(BulkItem(i, e));
      FoldStops(step, db, items, i + 1, |items|);
    }
    if Bulk(step, db, items).Failure? {
      FoldCause(step, db, items, |items|);
    }
  }

  // ---- Runs ---------------------------------------------------------------

  /** An operation of the services, or one item of a bulk patch by itself. */
  datatype Op =
    | CreateAccountOp(account: AccountInput, env: Env)
    | UpdateAccountOp(accountPatch: AccountPatch, env: Env)
    | ArchiveAccountOp(user: Id, id: Id, env: Env)
    | RestoreAccountOp(user: Id, id: Id, env: Env)
    | CreateOp(create: CreateInput, env: Env)
    | PatchOp(patch: PatchInput, env: Env)
    | DeleteOp(user: Id, id: Id, env: Env)
    | PostOp(user: Id, id: Id, env: Env)
    | CancelOp(user: Id, id: Id, env: Env)
    | DuplicateOp(duplicate: DuplicateInput, env: Env)
    | CreateBulkOp(user: Id, creates: seq<CreateItem>)
    | PatchBulkOp(user: Id, patches: seq<PatchItem>)
    | ItemOp(item: PatchItem)

  /** The user an operation acts for; every item of a bulk operation belongs to the same user. */
  function Actor(op: Op): Id {
    match op
    case CreateAccountOp(input, _) => input.user
    case UpdateAccountOp(p, _) => p.user
    case CreateOp(input, _) => input.user
    case PatchOp(p, _) => p.user
    case DuplicateOp(input, _) => input.user
    case ArchiveAccountOp(user, _, _) => user
    case RestoreAccountOp(user, _, _) => user
    case DeleteOp(user, _, _) => user
    case PostOp(user, _, _) => user
    case CancelOp(user, _, _) => user
    case CreateBulkOp(user, _) => user
    case PatchBulkOp(user, _) => user
    case ItemOp(item) => item.input.user
  }

  predicate ForOneUser(op: Op) {
    match op
    case CreateBulkOp(user, items) => forall i | 0 <= i < |items| :: items[i].input.user == user
    case PatchBulkOp(user, items) => forall i | 0 <= i < |items| :: items[i].input.user == user
    case _ => true
  }

  function Committed(db: Db, r: Outcome): Db {
    if r.Success? then r.value.db else db
  }

  function CommittedBatch(db: Db, r: BatchOutcome): Db {
    if r.Success? then r.value.db else db
  }

  function CommittedAccount(db: Db, r: AccountOutcome): Db {
    if r.Success? then r.value.db else db
  }

  /** The tables after an operation: a failed one leaves them as they were. */
  function Apply(db: Db, op: Op): Db {
    match op
    case CreateAccountOp(input, env) => CommittedAccount(db, CreateAccount(db, input, env))
    case UpdateAccountOp(p, env) => CommittedAccount(db, UpdateAccount(db, p, env))
    case ArchiveAccountOp(user, id, env) => CommittedAccount(db, ArchiveAccount(db, user, id, env))
    case RestoreAccountOp(user, id, env) => CommittedAccount(db, RestoreAccount(db, user, id, env))
    case CreateOp(input, env) => Committed(db, Create(db, input, env))
    case PatchOp(p, env) => Committed(db, Patch(db, p, env))
    case DeleteOp(user, id, env) => Committed(db, Delete(db, user, id, env.refused))
    case PostOp(user, id, env) => Committed(db, Post(db, user, id, env))
    case CancelOp(user, id, env) => Committed(db, Cancel(db, user, id, env))
    case DuplicateOp(input, env) => Committed(db, Duplicate(db, input, env))
    case CreateBulkOp(_, items) => CommittedBatch(db, CreateBulk(db, items))
    case PatchBulkOp(_, items) => CommittedBatch(db, PatchBulk(db, items))
    case ItemOp(item) => Committed(db, PatchOne(db, item))
  }

  /** Every operation keeps the balances true, other users' rows untouched and statuses moving forward. */
  lemma ApplyKeeps(db: Db, op: Op)
    requires Sound(db) && ForOneUser(op)
    ensures Keeps(db, Apply(db, op), Actor(op))
  {
    KeepsNothing(db, Actor(op));
    match op
    case CreateAccountOp(input, env) => if CreateAccount(db, input, env).Success? { CreateAccountKeeps(db, input, env); }
    case UpdateAccountOp(p, env) => if UpdateAccount(db, p, env).Success? { UpdateAccountKeeps(db, p, env); }
    case ArchiveAccountOp(user, id, env) => if ArchiveAccount(db, user, id, env).Success? { ArchiveAccountKeeps(db, user, id, env); }
    case RestoreAccountOp(user, id, env) => if RestoreAccount(db, user, id, env).Success? { RestoreAccountKeeps(db, user, id, env); }
    case CreateOp(input, env) => if Create(db, input, env).Success? { CreateKeeps(db, input, env); }
    case PatchOp(p, env) => if Patch(db, p, env).Success? { PatchInTxKeeps(db, p, env); }
    case DeleteOp(user, id, env) => if Delete(db, user, id, env.refused).Success? { DeleteKeeps(db, user, id, env.refused); }
    case PostOp(user, id, env) => if Post(db, user, id, env).Success? { PostKeeps(db, user, id, env); }
    case CancelOp(user, id, env) => if Cancel(db, user, id, env).Success? { CancelKeeps(db, user, id, env); }
    case DuplicateOp(input, env) => if Duplicate(db, input, env).Success? { DuplicateKeeps(db, input, env); }
    case CreateBulkOp(user, items) => if CreateBulk(db, items).Success? { CreateBulkKeeps(db, items, user); }
    case PatchBulkOp(user, items) => if PatchBulk(db, items).Success? { PatchBulkKeeps(db, items, user); }
    case ItemOp(item) => if PatchOne(db, item).Success? { PatchOneKeeps(db, item); }
  }

  const EMPTY: Db := Db(map[], map[])

  predicate StepAt(ops: seq<Op>, states: seq<Db>, n: nat)
    requires |states| == |ops| + 1 && n < |ops|
  {
    ForOneUser(ops[n]) && states[n + 1] == Apply(states[n], ops[n])
  }

  /** `states` are the tables before and after each operation of a run that starts from empty tables. */
  predicate IsRun(ops: seq<Op>, states: seq<Db>) {
    |states| == |ops| + 1 && states[0] == EMPTY && forall n | 0 <= n < |ops| :: StepAt(ops, states, n)
  }

  lemma StepAtKeeps(ops: seq<Op>, states: seq<Db>, n: nat)
    requires |states| == |ops| + 1 && n < |ops| && StepAt(ops, states, n) && Sound(states[n])
    ensures Keeps(states[n], states[n + 1], Actor(ops[n]))
  {
    ApplyKeeps(states[n], ops[n]);
  }

  lemma StepAtSound(ops: seq<Op>, states: seq<Db>, n: nat)
    requires |states| == |ops| + 1 && n < |ops| && StepAt(ops, states, n) && Sound(states[n])
    ensures Sound(states[n + 1])
  {
    StepAtKeeps(ops, states, n);
  }

  /** Every state of a run is sound. */
  lemma {:induction false} RunSound(ops: seq<Op>, states: seq<Db>, n: nat)
    requires IsRun(ops, states) && n <= |ops|
    ensures Sound(states[n])
  {
    if n > 0 {
      RunSound(ops, states, n - 1);
      StepAtSound(ops, states, n - 1);
    }
  }

  /** Each operation of a run keeps what it must. */
  lemma RunKeeps(ops: seq<Op>, states: seq<Db>, n: nat)
    requires IsRun(ops, states) && n < |ops|
    ensures Keeps(states[n], states[n + 1], Actor(ops[n]))
  {
    RunSound(ops, states, n);
    StepAtKeeps(ops, states, n);
  }

  /**
   * In every reachable state every balance is its initial balance plus the signed deltas of its
   * owner's posted transactions modulo 2^64; it is that sum exactly as long as the sum is an `int64`.
   */
  lemma ReachableBalance(ops: seq<Op>, states: seq<Db>, n: nat, account: Id)
    requires IsRun(ops, states) && n <= |ops| && account in states[n].accounts
    ensures states[n].accounts[account].balance.minor == Wrap64(Owed(states[n], states[n].accounts[account]))
    ensures states[n].accounts[account].balance.minor == Owed(states[n], states[n].accounts[account])
            <==> InInt64(Owed(states[n], states[n].accounts[account]))
  {
    RunSound(ops, states, n);
    WrapExact(Owed(states[n], states[n].accounts[account]));
  }

  predicate PostedIn(db: Db, id: Id) {
    id in db.transactions && db.transactions[id].status == Posted
  }

  /**
   * As long as a posted row has not been cancelled it is there, with the terms it was posted with,
   * and it still has them when it is cancelled.
   */
  lemma {:induction false} PostedTermsFrozen(ops: seq<Op>, states: seq<Db>, i: nat, j: nat, id: Id)
    requires IsRun(ops, states) && i < j <= |ops|
    requires forall m | i <= m < j :: PostedIn(states[m], id)
    ensures PostedIn(states[i], id)
    ensures id in states[j].transactions && states[j].transactions[id].status in {Posted, Cancelled}
    ensures SameTerms(states[i].transactions[id], states[j].transactions[id])
    decreases j
  {
    assert PostedIn(states[i], id) && PostedIn(states[j - 1], id);
    MovesAt(ops, states, j - 1);
    if i < j - 1 {
      PostedTermsFrozen(ops, states, i, j - 1, id);
    }
  }

  lemma MovesAt(ops: seq<Op>, states: seq<Db>, n: nat)
    requires IsRun(ops, states) && n < |ops|
    ensures MovesForward(states[n], states[n + 1])
  {
    RunKeeps(ops, states, n);
  }

  // ---- What posting put on an account, cancelling takes off ---------------

  /** No transaction row but the one under `id` is written, added or removed. */
  ghost predicate OneRow(db: Db, next: Db, id: Id) {
    forall k | k != id :: (k in db.transactions <==> k in next.transactions)
                          && (k in db.transactions ==> next.transactions[k] == db.transactions[k])
  }

  /** What the row under `id`, if there is one, contributes to an account. */
  function EffectAt(db: Db, id: Id, user: Id, account: Id): int {
    if id in db.transactions then Effect(db.transactions[id], user, account) else 0
  }

  lemma TotalOneRow(db: Db, next: Db, id: Id, user: Id, account: Id)
    requires OneRow(db, next, id)
    ensures Total(next.transactions, user, account) - EffectAt(next, id, user, account) ==
            Total(db.transactions, user, account) - EffectAt(db, id, user, account)
  {
    assert db.transactions - {id} == next.transactions - {id};
    TotalWithout(db, id, user, account);
    TotalWithout(next, id, user, account);
  }

  lemma TotalWithout(db: Db, id: Id, user: Id, account: Id)
    ensures Total(db.transactions, user, account) == EffectAt(db, id, user, account) + Total(db.transactions - {id}, user, account)
  {
    if id in db.transactions {
      TotalSplit(db.transactions, id, user, account);
    } else {
      assert db.transactions - {id} == db.transactions;
    }
  }

  /** The balance of an account moves by `d`, modulo 2^64. */
  predicate Moved(db: Db, next: Db, account: Id, d: int)
    requires account in db.accounts
  {
    account in next.accounts && next.accounts[account].balance.minor == Wrap64(db.accounts[account].balance.minor + d)
  }

  /** The balance of an account, stated without the other rows. */
  predicate SumsUp(a: Account, total: int) {
    a.balance.minor == Wrap64(a.initialBalance.minor + total)
  }

  lemma BalanceIs(db: Db, account: Id)
    requires Sound(db) && account in db.accounts
    ensures SumsUp(db.accounts[account], Total(db.transactions, db.accounts[account].user, account))
  {
    assert db.accounts[account].id == account;
    assert Owed(db, db.accounts[account]) ==
           db.accounts[account].initialBalance.minor + Total(db.transactions, db.accounts[account].user, account);
  }

  lemma SumMoves(before: Account, after: Account, total: int, d: int)
    requires SumsUp(before, total) && SumsUp(after, total + d) && after.initialBalance == before.initialBalance
    ensures after.balance.minor == Wrap64(before.balance.minor + d)
  {
    WrapAbsorbs(before.initialBalance.minor + total, d);
  }

  /** When one row changes, every balance moves by the change of that row's effect. */
  lemma OneRowMoves(db: Db, next: Db, id: Id, account: Id)
    requires Sound(db) && Sound(next) && AccountsKept(db, next) && OneRow(db, next, id) && account in db.accounts
    ensures var user := db.accounts[account].user;
            Moved(db, next, account, EffectAt(next, id, user, account) - EffectAt(db, id, user, account))
  {
    BalanceIs(db, account);
    assert account in next.accounts;
    BalanceIs(next, account);
    EffectMoves(db, next, id, account);
  }

  lemma EffectMoves(db: Db, next: Db, id: Id, account: Id)
    requires AccountsKept(db, next) && OneRow(db, next, id) && account in db.accounts && account in next.accounts
    requires SumsUp(db.accounts[account], Total(db.transactions, db.accounts[account].user, account))
    requires SumsUp(next.accounts[account], Total(next.transactions, next.accounts[account].user, account))
    ensures var user := db.accounts[account].user;
            Moved(db, next, account, EffectAt(next, id, user, account) - EffectAt(db, id, user, account))
  {
    var user := db.accounts[account].user;
    TotalOneRow(db, next, id, user, account);
    SumMoves(db.accounts[account], next.accounts[account], Total(db.transactions, user, account),
             EffectAt(next, id, user, account) - EffectAt(db, id, user, account));
  }

  predicate IsBulk(op: Op) {
    op.CreateBulkOp? || op.PatchBulkOp?
  }

  /** The row an operation may change. */
  function RowOf(op: Op): Id {
    match op
    case CreateOp(_, env) => env.newId
    case DuplicateOp(_, env) => env.newId
    case PatchOp(p, _) => p.id
    case DeleteOp(_, id, _) => id
    case PostOp(_, id, _) => id
    case CancelOp(_, id, _) => id
    case ItemOp(item) => item.input.id
    case _ => ""
  }

  /** Anything but a bulk operation changes at most one row. */
  lemma OneRowAtATime(db: Db, op: Op)
    requires Sound(db) && !IsBulk(op)
    ensures OneRow(db, Apply(db, op), RowOf(op))
  {
    if op.CreateOp? || op.DuplicateOp? {
      EnteringOneRow(db, op);
    } else if op.PostOp? || op.CancelOp? {
      StatusOneRow(db, op);
    } else if op.PatchOp? || op.ItemOp? {
      PatchingOneRow(db, op);
    } else {
      OtherOneRow(db, op);
    }
  }

  lemma EnteringOneRow(db: Db, op: Op)
    requires Sound(db) && (op.CreateOp? || op.DuplicateOp?)
    ensures OneRow(db, Apply(db, op), RowOf(op))
  {
    if op.CreateOp? {
      CreateOneRow(db, op.create, op.env);
    } else {
      DuplicateOneRow(db, op.duplicate, op.env);
    }
  }

  lemma StatusOneRow(db: Db, op: Op)
    requires Sound(db) && (op.PostOp? || op.CancelOp?)
    ensures OneRow(db, Apply(db, op), RowOf(op))
  {
    if op.PostOp? {
      PostOneRow(db, op.user, op.id, op.env);
    } else {
      CancelOneRow(db, op.user, op.id, op.env);
    }
  }

  lemma PatchingOneRow(db: Db, op: Op)
    requires Sound(db) && (op.PatchOp? || op.ItemOp?)
    ensures OneRow(db, Apply(db, op), RowOf(op))
  {
    if op.PatchOp? {
      PatchOneRow(db, op.patch, op.env);
    } else {
      ItemOneRow(db, op.item);
    }
  }

  lemma OtherOneRow(db: Db, op: Op)
    requires op.DeleteOp? || op.CreateAccountOp? || op.UpdateAccountOp? || op.ArchiveAccountOp? || op.RestoreAccountOp?
    ensures OneRow(db, Apply(db, op), RowOf(op))
  {
  }

  lemma CreateOneRow(db: Db, input: CreateInput, env: Env)
    requires Sound(db)
    ensures Create(db, input, env).Success? ==> OneRow(db, Create(db, input, env).value.db, env.newId)
  {
    if Create(db, input, env).Success? {
      CreateKeeps(db, input, env);
    }
  }

  lemma DuplicateOneRow(db: Db, input: DuplicateInput, env: Env)
    requires Sound(db)
    ensures Duplicate(db, input, env).Success? ==> OneRow(db, Duplicate(db, input, env).value.db, env.newId)
  {
    if Duplicate(db, input, env).Success? {
      DuplicateKeeps(db, input, env);
    }
  }

  lemma PostOneRow(db: Db, user: Id, id: Id, env: Env)
    requires Sound(db)
    ensures Post(db, user, id, env).Success? ==> OneRow(db, Post(db, user, id, env).value.db, id)
  {
    if Post(db, user, id, env).Success? {
      PostKeeps(db, user, id, env);
    }
  }

  lemma CancelOneRow(db: Db, user: Id, id: Id, env: Env)
    requires Sound(db)
    ensures Cancel(db, user, id, env).Success? ==> OneRow(db, Cancel(db, user, id, env).value.db, id)
  {
    if Cancel(db, user, id, env).Success? {
      CancelKeeps(db, user, id, env);
    }
  }

  lemma PatchOneRow(db: Db, p: PatchInput, env: Env)
    requires Sound(db)
    ensures PatchInTx(db, p, env).Success? ==> OneRow(db, PatchInTx(db, p, env).value.db, p.id)
  {
    if PatchInTx(db, p, env).Success? {
      PatchedRowKeeps(db.transactions[p.id], p, env.now);
    }
  }

  lemma ItemOneRow(db: Db, item: PatchItem)
    requires Sound(db)
    ensures PatchOne(db, item).Success? ==> OneRow(db, PatchOne(db, item).value.db, item.input.id)
  {
    var p := item.input.(status := None);
    PatchOneRow(db, p, item.patchEnv);
    if PatchOne(db, item).Success? && item.input.status.Some? {
      PatchInTxKeeps(db, p, item.patchEnv);
      StatusStepOneRow(PatchInTx(db, p, item.patchEnv).value, item.input, item.input.status.value.value, item.statusEnv);
    }
  }

  lemma StatusStepOneRow(patched: Done, p: PatchInput, target: Status, env: Env)
    requires Sound(patched.db) && StatusStep(patched, p, target, env).Success?
    ensures OneRow(patched.db, StatusStep(patched, p, target, env).value.db, p.id)
  {
    PostOneRow(patched.db, p.user, p.id, env);
    CancelOneRow(patched.db, p.user, p.id, env);
  }

  /** A transaction moves only accounts of its own user. */
  lemma ForeignDelta(db: Db, id: Id, account: Id)
    requires Consistent(db) && id in db.transactions && account in db.accounts
    ensures db.transactions[id].user != db.accounts[account].user ==> Delta(db.transactions[id], account) == 0
  {
    assert References(db, db.transactions[id]);
  }

  /** A row becoming posted moves each balance by its delta, one ceasing to be posted by the opposite. */
  predicate StatusMoved(db: Db, next: Db, id: Id, account: Id)
    requires account in db.accounts
  {
    (!PostedIn(db, id) && PostedIn(next, id) ==> Moved(db, next, account, Delta(next.transactions[id], account))) &&
    (PostedIn(db, id) && !PostedIn(next, id) ==> Moved(db, next, account, -Delta(db.transactions[id], account)))
  }

  lemma StatusMoves(db: Db, next: Db, k: Id, id: Id, account: Id)
    requires Sound(db) && Sound(next) && AccountsKept(db, next) && OneRow(db, next, k) && account in db.accounts
    ensures StatusMoved(db, next, id, account)
  {
    if PostedIn(db, id) != PostedIn(next, id) {
      assert k == id;
      OneRowMoves(db, next, id, account);
      PostedEffect(db, id, account);
      PostedEffect(next, id, account);
      EffectsToDeltas(db, next, id, account);
    }
  }

  /** While a row is posted its effect on an account is its delta, whoever owns the account. */
  lemma PostedEffect(db: Db, id: Id, account: Id)
    requires Consistent(db)
    ensures account in db.accounts ==> EffectIsDelta(db, id, db.accounts[account].user, account)
  {
    if account in db.accounts && PostedIn(db, id) {
      ForeignDelta(db, id, account);
    }
  }

  predicate EffectIsDelta(db: Db, id: Id, user: Id, account: Id) {
    EffectAt(db, id, user, account) == if PostedIn(db, id) then Delta(db.transactions[id], account) else 0
  }

  lemma EffectsToDeltas(db: Db, next: Db, id: Id, account: Id)
    requires account in db.accounts
    requires var user := db.accounts[account].user;
             EffectIsDelta(db, id, user, account) && EffectIsDelta(next, id, user, account)
             && Moved(db, next, account, EffectAt(next, id, user, account) - EffectAt(db, id, user, account))
    ensures StatusMoved(db, next, id, account)
  {
  }

  /**
   * However a row became posted and however it is cancelled, cancelling takes off every account exactly what
   * posting put on it, whatever ran in between and whether or not a balance wrapped.
   */
  lemma CancelUndoesPost(ops: seq<Op>, states: seq<Db>, i: nat, j: nat, id: Id, account: Id)
    requires IsRun(ops, states) && i < j < |ops| && !IsBulk(ops[i]) && !IsBulk(ops[j])
    requires !PostedIn(states[i], id) && (forall m | i < m <= j :: PostedIn(states[m], id)) && !PostedIn(states[j + 1], id)
    requires account in states[i].accounts && account in states[j].accounts
    ensures id in states[i + 1].transactions && id in states[j + 1].transactions
    ensures Moved(states[i], states[i + 1], account, Delta(states[i + 1].transactions[id], account))
    ensures Moved(states[j], states[j + 1], account, -Delta(states[i + 1].transactions[id], account))
    ensures states[j + 1].transactions[id].status == Cancelled
  {
    assert PostedIn(states[i + 1], id) && PostedIn(states[j], id);
    PostedTermsFrozen(ops, states, i + 1, j + 1, id);
    if i + 1 < j {
      PostedTermsFrozen(ops, states, i + 1, j, id);
    }
    MovesInRun(ops, states, i, id, account);
    MovesInRun(ops, states, j, id, account);
  }

  lemma MovesInRun(ops: seq<Op>, states: seq<Db>, n: nat, id: Id, account: Id)
    requires IsRun(ops, states) && n < |ops| && !IsBulk(ops[n]) && account in states[n].accounts
    ensures StatusMoved(states[n], states[n + 1], id, account)
  {
    RunSound(ops, states, n);
    RunKeeps(ops, states, n);
    RunOneRow(ops, states, n);
    StatusMoves(states[n], states[n + 1], RowOf(ops[n]), id, account);
  }

  lemma RunOneRow(ops: seq<Op>, states: seq<Db>, n: nat)
    requires IsRun(ops, states) && n < |ops| && !IsBulk(ops[n])
    ensures OneRow(states[n], states[n + 1], RowOf(ops[n]))
  {
    RunSound(ops, states, n);
    assert StepAt(ops, states, n);
    OneRowAtATime(states[n], ops[n]);
  }

  // ---- Bulk operations item by item ---------------------------------------

  /** Operations other than bulk ones, one after the other, and the tables they go through. */
  predicate Path(ops: seq<Op>, states: seq<Db>) {
    |states| == |ops| + 1 && forall n | 0 <= n < |ops| :: !IsBulk(ops[n]) && StepAt(ops, states, n)
  }

  lemma PathThen(ops: seq<Op>, states: seq<Db>, more: seq<Op>, others: seq<Db>)
    requires Path(ops, states) && Path(more, others) && states[|ops|] == others[0]
    ensures Path(ops + more, states + others[1..])
    ensures (states + others[1..])[|ops| + |more|] == others[|more|]
  {
    var longer, through := ops + more, states + others[1..];
    forall n | 0 <= n < |longer| ensures !IsBulk(longer[n]) && StepAt(longer, through, n) {
      if n < |ops| {
        assert StepAt(ops, states, n) && longer[n] == ops[n] && through[n] == states[n] && through[n + 1] == states[n + 1];
      } else {
        assert StepAt(more, others, n - |ops|) && longer[n] == more[n - |ops|];
        assert through[n] == others[n - |ops|] && through[n + 1] == others[n - |ops| + 1];
      }
    }
  }

  lemma OneStepPath(db: Db, op: Op)
    requires !IsBulk(op)
    ensures Path([op], [db, Apply(db, op)])
  {
    assert StepAt([op], [db, Apply(db, op)], 0);
  }

  /** `single` turns an item into the operation that does what `step` does with it. */
  ghost predicate IsSingleOf<I>(step: (Db, I) -> Outcome, single: I -> Op, item: I) {
    !IsBulk(single(item)) && forall d: Db :: Apply(d, single(item)) == Committed(d, step(d, item))
  }

  function CreateOf(item: CreateItem): Op {
    CreateOp(item.input, item.env)
  }

  function ItemOf(item: PatchItem): Op {
    ItemOp(item)
  }

  lemma CreatesAreSingle(item: CreateItem)
    ensures IsSingleOf(CreateOne, CreateOf, item)
  {
  }

  lemma ItemsAreSingle(item: PatchItem)
    ensures IsSingleOf(PatchOne, ItemOf, item)
  {
    forall d: Db ensures Apply(d, ItemOf(item)) == Committed(d, PatchOne(d, item)) {
      ItemApplies(d, item);
    }
  }

  lemma ItemApplies(db: Db, item: PatchItem)
    ensures Apply(db, ItemOp(item)) == Committed(db, PatchOne(db, item))
  {
  }

  /** A fold that goes through is a path of its items, each as an operation of its own. */
  lemma {:induction false} FoldPath<I>(step: (Db, I) -> Outcome, single: I -> Op, db: Db, items: seq<I>, n: nat)
    returns (ops: seq<Op>, states: seq<Db>)
    requires n <= |items| && Fold(step, db, items, n).Success?
    requires forall i | 0 <= i < |items| :: IsSingleOf(step, single, items[i])
    ensures Path(ops, states) && |ops| == n && states[0] == db && states[n] == Fold(step, db, items, n).value.db
  {
    if n == 0 {
      ops, states := [], [db];
    } else {
      ops, states := FoldPath(step, single, db, items, n - 1);
      var before := states[n - 1];
      OneStepPath(before, single(items[n - 1]));
      PathThen(ops, states, [single(items[n - 1])], [before, Apply(before, single(items[n - 1]))]);
      states := states + [before, Apply(before, single(items[n - 1]))][1..];
      ops := ops + [single(items[n - 1])];
    }
  }

  lemma BulkPath<I>(step: (Db, I) -> Outcome, single: I -> Op, db: Db, items: seq<I>) returns (ops: seq<Op>, states: seq<Db>)
    requires forall i | 0 <= i < |items| :: IsSingleOf(step, single, items[i])
    ensures Path(ops, states) && states[0] == db && states[|ops|] == CommittedBatch(db, Bulk(step, db, items))
  {
    if Bulk(step, db, items).Success? {
      ops, states := FoldPath(step, single, db, items, |items|);
    } else {
      ops, states := [], [db];
    }
  }

  lemma CreateBulkPath(db: Db, items: seq<CreateItem>) returns (ops: seq<Op>, states: seq<Db>)
    ensures Path(ops, states) && states[0] == db && states[|ops|] == CommittedBatch(db, CreateBulk(db, items))
  {
    forall i | 0 <= i < |items| ensures IsSingleOf(CreateOne, CreateOf, items[i]) {
      CreatesAreSingle(items[i]);
    }
    ops, states := BulkPath(CreateOne, CreateOf, db, items);
  }

  lemma PatchBulkPath(db: Db, items: seq<PatchItem>) returns (ops: seq<Op>, states: seq<Db>)
    ensures Path(ops, states) && states[0] == db && states[|ops|] == CommittedBatch(db, PatchBulk(db, items))
  {
    forall i | 0 <= i < |items| ensures IsSingleOf(PatchOne, ItemOf, items[i]) {
      ItemsAreSingle(items[i]);
    }
    ops, states := BulkPath(PatchOne, ItemOf, db, items);
  }

  /** Every operation is a path: itself, the items of a bulk operation, or nothing when that fails. */
  lemma OpPath(db: Db, op: Op) returns (ops: seq<Op>, states: seq<Db>)
    ensures Path(ops, states) && states[0] == db && states[|ops|] == Apply(db, op)
  {
    if op.CreateBulkOp? {
      ops, states := CreateBulkPath(db, op.creates);
    } else if op.PatchBulkOp? {
      ops, states := PatchBulkPath(db, op.patches);
    } else {
      OneStepPath(db, op);
      ops, states := [op], [db, Apply(db, op)];
    }
  }

  /** Every run is a run of single operations and items that goes through all its states, `at` the places given. */
  lemma {:induction false} ItemByItem(ops: seq<Op>, states: seq<Db>, n: nat) returns (fine: seq<Op>, through: seq<Db>, at: seq<nat>)
    requires IsRun(ops, states) && n <= |ops|
    ensures IsRun(fine, through) && Path(fine, through) && |at| == n + 1 && at[n] == |fine|
    ensures forall m | 0 <= m < n :: at[m] <= at[m + 1]
    ensures forall m | 0 <= m <= n :: at[m] <= |fine| && through[at[m]] == states[m]
  {
    if n == 0 {
      fine, through, at := [], [EMPTY], [0];
    } else {
      fine, through, at := ItemByItem(ops, states, n - 1);
      assert StepAt(ops, states, n - 1);
      var more, others := OpPath(states[n - 1], ops[n - 1]);
      PathThen(fine, through, more, others);
      fine, through, at := fine + more, through + others[1..], at + [|fine| + |more|];
    }
  }
}
