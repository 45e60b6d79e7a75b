/** The ledger services, each against what it does to the tables as a whole. */
module LedgerServices {
  import opened Prelude
  import opened LedgerRows
  import opened LedgerSpec
  import opened LedgerDatabase
  import opened LedgerInvariant
  import LedgerRuns
  import Strings

  /** The result and the tables are those of the specification; a failure may leave statements to undo. */
  predicate Matches(r: RowResult, tables: Db, spec: Outcome) {
    match spec
    case Success(done) => r == Success(done.row) && tables == done.db
    case Failure(e) => r == Failure(e)
  }

  /** The result is that of the specification, and a failure leaves the tables as they were. */
  predicate Commits(r: RowResult, before: Db, after: Db, spec: Outcome) {
    Matches(r, after, spec) && (r.Failure? ==> after == before)
  }

  // ---- Creating -----------------------------------------------------------

  method EnterInTx(db: Database, t: Transaction, env: Env) returns (r: RowResult)
    requires StoredAccounts(db.accounts) && ValidRow(t)
    modifies db
    ensures Matches(r, db.Tables(), Enter(old(db.Tables()), t, env))
  {
    if t.status == Posted {
      var failed := db.ApplyBalanceEffect(t.user, t, 1, env.now);
      if failed.Some? {
        return Failure(failed.value);
      }
    }
    var refused := db.InsertTransaction(t, env.refused);
    if refused.Some? {
      return Failure(refused.value);
    }
    return Success(t);
  }

  method CreateInTx(db: Database, input: CreateInput, env: Env) returns (r: RowResult)
    requires StoredAccounts(db.accounts)
    modifies db
    ensures Matches(r, db.Tables(), Create(old(db.Tables()), input, env))
  {
    var status := if input.status.Some? then input.status.value else Planned;
    var occurredAt := input.occurredAt;
    var postedAt: Option<Time> := None;
    if status == Posted {
      if occurredAt.None? {
        occurredAt := Some(env.now);
      }
      postedAt := occurredAt;
    }
    var built := NewTransaction(Transaction(
      env.newId, input.user, input.kind, status, input.amount, input.accountFrom, input.accountTo,
      input.category, input.subcategory, input.incomeSource, NormalizeComment(input.comment),
      occurredAt, input.plannedAt, postedAt, None, env.now, env.now));
    if built.Failure? {
      return Failure(built.error);
    }
    LedgerInvariant.NewTransactionStored(CreateParams(input, env));
    r := EnterInTx(db, built.value, env);
  }

  method CreateTransaction(db: Database, input: CreateInput, env: Env) returns (r: RowResult)
    requires StoredAccounts(db.accounts)
    modifies db
    ensures Commits(r, old(db.Tables()), db.Tables(), Create(old(db.Tables()), input, env))
  {
    var saved := db.Begin();
    r := CreateInTx(db, input, env);
    if r.Failure? {
      db.Rollback(saved);
    }
  }

  method DuplicateTransaction(db: Database, input: DuplicateInput, env: Env) returns (r: RowResult)
    requires StoredAccounts(db.accounts)
    modifies db
    ensures Commits(r, old(db.Tables()), db.Tables(), Duplicate(old(db.Tables()), input, env))
  {
    var saved := db.Begin();
    r := DuplicateInTx(db, input, env);
    if r.Failure? {
      db.Rollback(saved);
    }
  }

  method DuplicateInTx(db: Database, input: DuplicateInput, env: Env) returns (r: RowResult)
    requires StoredAccounts(db.accounts)
    modifies db
    ensures Matches(r, db.Tables(), Duplicate(old(db.Tables()), input, env))
  {
    var found := db.FindTransaction(input.user, input.id);
    if found.Failure? {
      return found;
    }
    var source := found.value;
    var status := Planned;
    if input.status.Some? {
      status := input.status.value;
    }
    var occurredAt := source.occurredAt;
    if input.occurredAt.Some? {
      occurredAt := input.occurredAt;
    }
    var plannedAt := source.plannedAt;
    if input.plannedAt.Some? {
      plannedAt := input.plannedAt;
    }
    if plannedAt.None? && occurredAt.Some? {
      plannedAt := occurredAt;
    }
    var comment := source.comment;
    if input.comment.Some? {
      comment := NormalizeComment(input.comment);
    }
    var postedAt: Option<Time> := None;
    if status == Posted {
      if occurredAt.None? {
        occurredAt := Some(env.now);
      }
      postedAt := occurredAt;
    }
    var built := NewTransaction(Transaction(
      env.newId, input.user, source.kind, status, source.amount, source.accountFrom, source.accountTo,
      source.category, source.subcategory, source.incomeSource, comment,
      occurredAt, plannedAt, postedAt, None, env.now, env.now));
    if built.Failure? {
      return Failure(built.error);
    }
    LedgerInvariant.NewTransactionStored(DuplicateParams(source, input, env));
    r := EnterInTx(db, built.value, env);
  }

  // ---- Patching and deleting ----------------------------------------------

  method PatchRowInTx(db: Database, p: PatchInput, env: Env) returns (r: RowResult)
    requires Consistent(db.Tables())
    modifies db
    ensures Matches(r, db.Tables(), PatchInTx(old(db.Tables()), p, env))
  {
    var found := db.FindTransaction(p.user, p.id);
    if found.Failure? {
      return found;
    }
    var current := found.value;
    assert current.id == p.id;
    if current.status == Cancelled {
      return Failure(CancelledPatchConflict);
    }
    if current.status == Posted {
      if p.kind.Some? || p.status.Some? || p.amount.Some? || p.currencySet || p.accountFrom.Some? || p.accountTo.Some?
         || p.incomeSource.Some? || p.plannedAt.Some?
      {
        return Failure(PostedPatchConflict);
      }
    }
    var next := current;
    if p.kind.Some? {
      if p.kind.value.None? {
        return Failure(PostedPatchConflict);
      }
      next := next.(kind := p.kind.value.value);
    }
    if p.amount.Some? {
      if p.amount.value.None? {
        return Failure(PostedPatchConflict);
      }
      next := next.(amount := p.amount.value.value);
    }
    next := next.(accountFrom := Set(p.accountFrom, current.accountFrom), accountTo := Set(p.accountTo, current.accountTo),
                  category := Set(p.category, current.category), subcategory := Set(p.subcategory, current.subcategory),
                  incomeSource := Set(p.incomeSource, current.incomeSource));
    if p.comment.Some? {
      next := next.(comment := NormalizeComment(p.comment.value));
    }
    next := next.(occurredAt := Set(p.occurredAt, current.occurredAt), plannedAt := Set(p.plannedAt, current.plannedAt),
                  updatedAt := env.now);
    var built := NewTransaction(next);
    if built.Failure? {
      return Failure(built.error);
    }
    var failed := db.UpdateTransaction(built.value, current.updatedAt, env.refused);
    if failed.Some? {
      return Failure(failed.value);
    }
    return Success(built.value);
  }

  method PatchTransaction(db: Database, p: PatchInput, env: Env) returns (r: RowResult)
    requires Consistent(db.Tables())
    modifies db
    ensures Commits(r, old(db.Tables()), db.Tables(), Patch(old(db.Tables()), p, env))
  {
    if p.status.Some? {
      return Failure(PostedPatchConflict);
    }
    var saved := db.Begin();
    r := PatchRowInTx(db, p, env);
    if r.Failure? {
      db.Rollback(saved);
    }
  }

  method DeleteTransaction(db: Database, user: Id, id: Id, env: Env) returns (r: RowResult)
    modifies db
    ensures Commits(r, old(db.Tables()), db.Tables(), Delete(old(db.Tables()), user, id, env.refused))
  {
    var saved := db.Begin();
    r := db.FindTransaction(user, id);
    if r.Failure? {
      return;
    }
    if r.value.status == Posted {
      return Failure(PostedDeleteConflict);
    }
    var failed := db.DeleteTransaction(user, id, r.value.updatedAt, env.refused);
    if failed.Some? {
      db.Rollback(saved);
      return Failure(failed.value);
    }
  }

  // ---- Posting and cancelling ---------------------------------------------

  /** The status step of a row copy that the caller then writes. */
  method MarkPosted(t: Transaction, at: Time) returns (r: RowResult)
    ensures r == match t.status
                 case Planned => Success(t.(status := Posted, postedAt := Some(at), updatedAt := at))
                 case Posted => Failure(AlreadyPosted)
                 case Cancelled => Failure(AlreadyCancelled)
                 case UnknownStatus => Failure(InvalidStatus)
  {
    var next := t;
    match t.status {
      case Posted => return Failure(AlreadyPosted);
      case Cancelled => return Failure(AlreadyCancelled);
      case Planned =>
        next := next.(status := Posted);
        next := next.(postedAt := Some(at));
        next := next.(updatedAt := at);
        return Success(next);
      case UnknownStatus => return Failure(InvalidStatus);
    }
  }

  method PostInTx(db: Database, user: Id, id: Id, env: Env) returns (r: RowResult)
    requires Consistent(db.Tables())
    modifies db
    ensures Matches(r, db.Tables(), Post(old(db.Tables()), user, id, env))
  {
    var found := db.FindTransaction(user, id);
    if found.Failure? {
      return found;
    }
    var current := found.value;
    assert current.id == id && StoredTransaction(current);
    var occurredAt := current.occurredAt;
    if occurredAt.None? {
      occurredAt := Some(env.now);
    }
    var dated := NewTransaction(current.(occurredAt := occurredAt, updatedAt := env.now));
    DatedRow(current, occurredAt, env.now);
    var marked := MarkPosted(dated.value, env.now);
    if marked.Failure? {
      return marked;
    }
    var candidate := marked.value;
    LedgerInvariant.StoredStamps(current, candidate);
    var failed := db.UpdateTransaction(candidate, current.updatedAt, env.refused);
    if failed.Some? {
      return Failure(failed.value);
    }
    failed := db.ApplyBalanceEffect(user, candidate, 1, env.now);
    if failed.Some? {
      return Failure(failed.value);
    }
    return Success(candidate);
  }

  lemma DatedRow(t: Transaction, occurredAt: Option<Time>, now: Time)
    requires StoredTransaction(t)
    ensures NewTransaction(t.(occurredAt := occurredAt, updatedAt := now)) ==
            Success(t.(occurredAt := occurredAt, updatedAt := now))
  {
    LedgerInvariant.StoredStamps(t, t.(occurredAt := occurredAt, updatedAt := now));
  }

  method PostTransaction(db: Database, user: Id, id: Id, env: Env) returns (r: RowResult)
    requires Consistent(db.Tables())
    modifies db
    ensures Commits(r, old(db.Tables()), db.Tables(), Post(old(db.Tables()), user, id, env))
  {
    var saved := db.Begin();
    r := PostInTx(db, user, id, env);
    if r.Failure? {
      db.Rollback(saved);
    }
  }

  method CancelInTx(db: Database, user: Id, id: Id, env: Env) returns (r: RowResult)
    requires Consistent(db.Tables())
    modifies db
    ensures Matches(r, db.Tables(), Cancel(old(db.Tables()), user, id, env))
  {
    var found := db.FindTransaction(user, id);
    if found.Failure? {
      return found;
    }
    var current := found.value;
    assert current.id == id && StoredTransaction(current);
    var wasPosted := current.status == Posted;
    if current.status == Cancelled {
      return Failure(AlreadyCancelled);
    }
    if current.status == UnknownStatus {
      return Failure(InvalidStatus);
    }
    var candidate := current.(status := Cancelled, cancelledAt := Some(env.now), updatedAt := env.now);
    var failed := db.UpdateTransaction(candidate, current.updatedAt, env.refused);
    if failed.Some? {
      return Failure(failed.value);
    }
    if wasPosted {
      failed := db.ApplyBalanceEffect(user, current, -1, env.now);
      if failed.Some? {
        return Failure(failed.value);
      }
    }
    return Success(candidate);
  }

  method CancelTransaction(db: Database, user: Id, id: Id, env: Env) returns (r: RowResult)
    requires Consistent(db.Tables())
    modifies db
    ensures Commits(r, old(db.Tables()), db.Tables(), Cancel(old(db.Tables()), user, id, env))
  {
    var saved := db.Begin();
    r := CancelInTx(db, user, id, env);
    if r.Failure? {
      db.Rollback(saved);
    }
  }

  // ---- Bulk forms ---------------------------------------------------------

  /** The rows and the tables are those of the specification, and a failure leaves the tables as they were. */
  predicate CommitsBatch(r: Result<seq<Transaction>, LedgerError>, before: Db, after: Db, spec: BatchOutcome) {
    match spec
    case Success(batch) => r == Success(batch.rows) && after == batch.db
    case Failure(e) => r == Failure(e) && after == before
  }

  /** A fold goes on with the next step's tables and row, or stops with its index and error. */
  lemma FoldNext<I>(step: (Db, I) -> Outcome, db: Db, items: seq<I>, idx: nat, batch: Batch, r: RowResult, tables: Db)
    requires idx < |items| && Fold(step, db, items, idx) == Success(batch)
    requires Matches(r, tables, step(batch.db, items[idx]))
    ensures r.Success? ==> Fold(step, db, items, idx + 1) == Success(Batch(tables, batch.rows + [r.value]))
    ensures r.Failure? ==> Fold(step, db, items, |items|) == Failure(BulkItem(idx, r.error))
  {
    LedgerRuns.FoldStops(step, db, items, idx + 1, |items|);
  }

  method CreateItemInTx(db: Database, item: CreateItem) returns (r: RowResult)
    requires StoredAccounts(db.accounts)
    modifies db
    ensures Matches(r, db.Tables(), CreateOne(old(db.Tables()), item))
    ensures r.Success? ==> StoredAccounts(db.accounts)
  {
    r := CreateInTx(db, item.input, item.env);
  }

  /** The work of a bulk create inside its database transaction. */
  method CreateAll(db: Database, items: seq<CreateItem>) returns (r: Result<seq<Transaction>, LedgerError>)
    requires StoredAccounts(db.accounts)
    modifies db
    ensures match Fold(CreateOne, old(db.Tables()), items, |items|)
            case Success(batch) => r == Success(batch.rows) && db.Tables() == batch.db
            case Failure(e) => r == Failure(e)
  {
    ghost var start := db.Tables();
    var created: seq<Transaction> := [];
    for idx := 0 to |items|
      invariant StoredAccounts(db.accounts)
      invariant Fold(CreateOne, start, items, idx) == Success(Batch(db.Tables(), created))
    {
      ghost var batch := Batch(db.Tables(), created);
      var one := CreateItemInTx(db, items[idx]);
      FoldNext(CreateOne, start, items, idx, batch, one, db.Tables());
      if one.Failure? {
        return Failure(BulkItem(idx, one.error));
      }
      created := created + [one.value];
    }
    return Success(created);
  }

  method CreateTransactions(db: Database, items: seq<CreateItem>) returns (r: Result<seq<Transaction>, LedgerError>)
    requires StoredAccounts(db.accounts)
    modifies db
    ensures CommitsBatch(r, old(db.Tables()), db.Tables(), CreateBulk(old(db.Tables()), items))
  {
    if |items| == 0 {
      return Failure(BulkItem(0, NoItems));
    }
    if |items| > BULK_MAX_ITEMS {
      return Failure(BulkItem(0, TooManyItems));
    }
    var saved := db.Begin();
    r := CreateAll(db, items);
    if r.Failure? {
      db.Rollback(saved);
    }
  }

  /** Whether a bulk patch may move a row from one status to another. */
  method ValidateTransition(current: Status, target: Status) returns (error: Option<LedgerError>)
    ensures error == TransitionError(current, target)
  {
    match current {
      case Planned =>
        if target == Planned || target == Posted || target == Cancelled {
          return None;
        }
      case Posted =>
        if target == Cancelled {
          return None;
        }
      case Cancelled =>
        return Some(AlreadyCancelled);
      case UnknownStatus =>
    }
    return Some(PostedPatchConflict);
  }

  method PatchStepInTx(db: Database, item: PatchItem) returns (r: RowResult)
    requires Sound(db.Tables())
    modifies db
    ensures Matches(r, db.Tables(), PatchOne(old(db.Tables()), item))
  {
    ghost var before := db.Tables();
    var p := item.input;
    var found := db.FindTransaction(p.user, p.id);
    if found.Failure? {
      return found;
    }
    var current := found.value;
    r := PatchRowInTx(db, p.(status := None), item.patchEnv);
    if r.Failure? || p.status.None? {
      return;
    }
    LedgerInvariant.PatchInTxKeeps(before, p.(status := None), item.patchEnv);
    if p.status.value.None? {
      return Failure(PostedPatchConflict);
    }
    var illegal := ValidateTransition(current.status, p.status.value.value);
    if illegal.Some? {
      return Failure(illegal.value);
    }
    match p.status.value.value {
      case Posted => r := PostInTx(db, p.user, p.id, item.statusEnv);
      case Cancelled => r := CancelInTx(db, p.user, p.id, item.statusEnv);
      case _ =>
    }
  }

  method PatchItemInTx(db: Database, item: PatchItem) returns (r: RowResult)
    requires Sound(db.Tables())
    modifies db
    ensures Matches(r, db.Tables(), PatchOne(old(db.Tables()), item))
    ensures r.Success? ==> Sound(db.Tables())
  {
    ghost var before := db.Tables();
    r := PatchStepInTx(db, item);
    if r.Success? {
      LedgerRuns.PatchOneKeeps(before, item);
    }
  }

  /** The work of a bulk patch inside its database transaction. */
  method PatchAll(db: Database, items: seq<PatchItem>) returns (r: Result<seq<Transaction>, LedgerError>)
    requires Sound(db.Tables())
    modifies db
    ensures match Fold(PatchOne, old(db.Tables()), items, |items|)
            case Success(batch) => r == Success(batch.rows) && db.Tables() == batch.db
            case Failure(e) => r == Failure(e)
  {
    ghost var start := db.Tables();
    var updated: seq<Transaction> := [];
    for idx := 0 to |items|
      invariant Sound(db.Tables())
      invariant Fold(PatchOne, start, items, idx) == Success(Batch(db.Tables(), updated))
    {
      ghost var batch := Batch(db.Tables(), updated);
      var one := PatchItemInTx(db, items[idx]);
      FoldNext(PatchOne, start, items, idx, batch, one, db.Tables());
      if one.Failure? {
        return Failure(BulkItem(idx, one.error));
      }
      updated := updated + [one.value];
    }
    return Success(updated);
  }

  method PatchTransactions(db: Database, items: seq<PatchItem>) returns (r: Result<seq<Transaction>, LedgerError>)
    requires Sound(db.Tables())
    modifies db
    ensures CommitsBatch(r, old(db.Tables()), db.Tables(), PatchBulk(old(db.Tables()), items))
  {
    if |items| == 0 {
      return Failure(BulkItem(0, NoItems));
    }
    if |items| > BULK_MAX_ITEMS {
      return Failure(BulkItem(0, TooManyItems));
    }
    var saved := db.Begin();
    r := PatchAll(db, items);
    if r.Failure? {
      db.Rollback(saved);
    }
  }

  // ---- Accounts -----------------------------------------------------------

  predicate CommitsAccount(r: AccountResult, before: Db, after: Db, spec: AccountOutcome) {
    match spec
    case Success(done) => r == Success(done.row) && after == done.db
    case Failure(e) => r == Failure(e) && after == before
  }

  method CreateAccountRow(db: Database, input: AccountInput, env: Env) returns (r: AccountResult)
    modifies db
    ensures CommitsAccount(r, old(db.Tables()), db.Tables(), CreateAccount(old(db.Tables()), input, env))
  {
    if input.initialBalance.minor < 0 {
      return Failure(NegativeInitialBalance);
    }
    r := NewAccount(Account(env.newId, input.user, input.name, input.kind, input.initialBalance, input.initialBalance,
                            input.inNetWorth, input.inDailyBudget, None, env.now, env.now));
    if r.Success? {
      var failed := db.InsertAccount(r.value, env.refused);
      if failed.Some? {
        return Failure(failed.value);
      }
    }
  }

  /** Updates an account's description; the balance it writes is the one it read. */
  method UpdateAccountDetails(db: Database, p: AccountPatch, env: Env) returns (r: AccountResult)
    requires StoredAccounts(db.accounts)
    modifies db
    ensures CommitsAccount(r, old(db.Tables()), db.Tables(), UpdateAccount(old(db.Tables()), p, env))
  {
    var found := db.FindAccount(p.user, p.id);
    if found.Failure? {
      return found;
    }
    var account := found.value;
    assert account.id == p.id;
    var name := account.name;
    if p.name.Some? {
      name := Strings.TrimSpace(p.name.value);
    }
    r := NewAccount(account.(name := name, kind := Set(p.kind, account.kind), inNetWorth := Set(p.inNetWorth, account.inNetWorth),
                             inDailyBudget := Set(p.inDailyBudget, account.inDailyBudget), updatedAt := env.now));
    if r.Failure? {
      return;
    }
    var failed := db.UpdateAccountRow(r.value, account.updatedAt, env.refused);
    if failed.Some? {
      return Failure(failed.value);
    }
  }

  method ArchiveAccountRow(db: Database, user: Id, id: Id, env: Env) returns (r: AccountResult)
    modifies db
    ensures CommitsAccount(r, old(db.Tables()), db.Tables(), ArchiveAccount(old(db.Tables()), user, id, env))
  {
    r := db.FindAccount(user, id);
    if r.Failure? || r.value.archivedAt.Some? {
      return;
    }
    var failed := db.StampAccount(user, id, Some(env.now), env.now, false);
    r := Success(r.value.(archivedAt := Some(env.now), updatedAt := env.now));
  }

  method RestoreAccountRow(db: Database, user: Id, id: Id, env: Env) returns (r: AccountResult)
    modifies db
    ensures CommitsAccount(r, old(db.Tables()), db.Tables(), RestoreAccount(old(db.Tables()), user, id, env))
  {
    r := db.FindAccount(user, id);
    if r.Failure? || r.value.archivedAt.None? {
      return;
    }
    var failed := db.StampAccount(user, id, None, env.now, env.refused);
    if failed.Some? {
      return Failure(failed.value);
    }
    r := Success(r.value.(archivedAt := None, updatedAt := env.now));
  }
}
