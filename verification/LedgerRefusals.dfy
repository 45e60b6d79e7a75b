/** Why the ledger operations fail: each error says what is wrong with the request, and the tables are never to blame. */
module LedgerRefusals {
  import opened Prelude
  import opened LedgerRows
  import opened LedgerSpec
  import opened LedgerInvariant
  import opened LedgerOutcomes
  import Strings

  // ---- Rows that are not well formed --------------------------------------

  /** The rule that an error names, and that a row breaks. */
  predicate Breaks(t: Transaction, e: LedgerError) {
    match e
    case IdRequired => Strings.TrimSpace(t.id) == ""
    case UserRequired => Strings.TrimSpace(t.user) == ""
    case InvalidType => t.kind == UnknownType
    case InvalidStatus => t.status == UnknownStatus
    case AmountNegative => t.amount.minor < 0
    case AccountFromRequired => t.kind in {Expense, Transfer, Investment, Saving} && !Named(t.accountFrom)
    case AccountToRequired => t.kind in {Income, Transfer} && !Named(t.accountTo)
    case AccountFromMustBeEmpty => t.kind == Income && Named(t.accountFrom)
    case AccountToMustBeEmpty => t.kind in {Expense, Investment, Saving} && Named(t.accountTo)
    case CategoryRequired => !Named(t.category) && (t.kind in {Expense, Investment, Saving} || (t.kind == Income && Named(t.subcategory)))
    case CategoryMustBeEmpty => t.kind == Transfer && Named(t.category)
    case SubcategoryMustBeEmpty => t.kind == Transfer && Named(t.subcategory)
    case TransferAccountsMustDiffer =>
      t.kind == Transfer && Named(t.accountFrom) && Named(t.accountTo)
      && Strings.TrimSpace(t.accountFrom.value) == Strings.TrimSpace(t.accountTo.value)
    case _ => false
  }

  /** The place of a rule in the order in which rules are checked. */
  function Place(t: Transaction, e: LedgerError): nat {
    match e
    case IdRequired => 0
    case UserRequired => 1
    case InvalidType => 2
    case InvalidStatus => 3
    case AmountNegative => 4
    case CategoryRequired => if Named(t.subcategory) then 5 else if t.kind == Expense then 9 else 7
    case AccountFromRequired => 6
    case AccountToRequired => 7
    case AccountToMustBeEmpty => 8
    case AccountFromMustBeEmpty => 8
    case TransferAccountsMustDiffer => 8
    case CategoryMustBeEmpty => 9
    case SubcategoryMustBeEmpty => 10
    case _ => 11
  }

  /** A row that is not well formed breaks a rule, and the refusal names the first it breaks. */
  lemma RefusalNamesTheRule(t: Transaction)
    ensures RowError(t).Some? ==> Breaks(t, RowError(t).value)
    ensures forall e :: Breaks(t, e) ==> RowError(t).Some? && Place(t, RowError(t).value) <= Place(t, e)
    ensures RowError(t).Some? <==> !WellFormed(t)
  {
    ValidIsWellFormed(t);
    BlankIsTrimmedAway(t.id);
    BlankIsTrimmedAway(t.user);
    NamedHasId(t.accountFrom);
    NamedHasId(t.accountTo);
    NamedHasId(t.category);
    NamedHasId(t.subcategory);
  }

  /** The first rule a row breaks. */
  ghost predicate FirstBroken(t: Transaction, e: LedgerError) {
    Breaks(t, e) && forall d :: Breaks(t, d) ==> Place(t, e) <= Place(t, d)
  }

  lemma NewRowRefused(t: Transaction, u: Transaction)
    requires u == t.(comment := u.comment)
    ensures NewTransaction(t).Failure? <==> !WellFormed(u)
    ensures NewTransaction(t).Failure? ==> FirstBroken(u, NewTransaction(t).error)
  {
    SameValidity(t, u);
    RefusalNamesTheRule(u);
    assert RowError(t) == RowError(u) by {
      assert TypeError(t) == TypeError(u);
    }
  }

  // ---- Operations that enter a row ----------------------------------------

  predicate Owned(db: Db, user: Id, account: Id) {
    account in db.accounts && db.accounts[account].user == user
  }

  /** A posted row would move money on an account that its user does not have. */
  predicate MovesForeign(db: Db, t: Transaction) {
    t.status == Posted && t.amount.minor != 0 &&
    ((t.kind in {Income, Transfer} && t.accountTo.Some? && !Owned(db, t.user, t.accountTo.value))
     || (t.kind in {Expense, Transfer, Investment, Saving} && t.accountFrom.Some? && !Owned(db, t.user, t.accountFrom.value)))
  }

  /** Why a row is not entered. */
  ghost predicate EntryRefused(db: Db, t: Transaction, e: LedgerError) {
    if !WellFormed(t) then FirstBroken(t, e) else e == if MovesForeign(db, t) then AccountNotFound else WriteRefused
  }

  lemma SettleFails(db: Db, t: Transaction, now: Time)
    requires WellFormed(t) && t.status == Posted
    ensures Settle(db, t.user, t, 1, now).Failure? <==> MovesForeign(db, t)
    ensures Settle(db, t.user, t, 1, now).Failure? ==> Settle(db, t.user, t, 1, now).error == AccountNotFound
  {
    if t.kind == Transfer {
      assert t.accountFrom != t.accountTo;
    }
    if t.accountTo.Some? {
      assert MovesForeign(db, t) && t.kind in {Income, Transfer} && !Owned(db, t.user, t.accountTo.value) ==>
          t.accountTo.value in Touched(t) && Delta(t, t.accountTo.value) != 0;
    }
    if t.accountFrom.Some? {
      assert MovesForeign(db, t) && Debits(t.kind) && !Owned(db, t.user, t.accountFrom.value) ==>
          t.accountFrom.value in Touched(t) && Delta(t, t.accountFrom.value) != 0;
    }
  }

  lemma EnterFails(db: Db, t: Transaction, env: Env)
    requires WellFormed(t) && Enter(db, t, env).Failure?
    ensures Enter(db, t, env).error == if MovesForeign(db, t) then AccountNotFound else WriteRefused
  {
    if t.status == Posted {
      SettleFails(db, t, env.now);
    }
  }

  lemma CreateRefused(db: Db, input: CreateInput, env: Env, t: Transaction)
    requires AsRequested(t, input, env) && Create(db, input, env).Failure?
    ensures EntryRefused(db, t, Create(db, input, env).error)
  {
    var params := CreateParams(input, env);
    CommentKept(input.comment);
    assert t == params;
    NewRowRefused(params, t);
    if WellFormed(t) {
      EnterFails(db, t, env);
    }
  }

  lemma DuplicateRefused(db: Db, input: DuplicateInput, env: Env, t: Transaction)
    requires Consistent(db) && Duplicate(db, input, env).Failure?
    requires OwnsTransaction(db, input.user, input.id) ==> Duplicated(t, db.transactions[input.id], input, env)
    ensures if OwnsTransaction(db, input.user, input.id) then EntryRefused(db, t, Duplicate(db, input, env).error)
            else Duplicate(db, input, env).error == TransactionNotFound
  {
    if OwnsTransaction(db, input.user, input.id) {
      var params := DuplicateParams(db.transactions[input.id], input, env);
      CommentKept(input.comment);
      CommentKept(db.transactions[input.id].comment);
      assert t == params;
      NewRowRefused(params, t);
      if WellFormed(t) {
        EnterFails(db, t, env);
      }
    }
  }

  // ---- Operations on a row that is there ----------------------------------

  /** Why a patch is refused. */
  ghost predicate PatchRefused(t: Transaction, p: PatchInput, u: Transaction, e: LedgerError) {
    if !MayPatch(t, p) then e == if t.status == Cancelled then CancelledPatchConflict else PostedPatchConflict
    else if !WellFormed(u) then FirstBroken(u, e)
    else e == WriteRefused
  }

  lemma PatchInTxRefused(db: Db, p: PatchInput, env: Env, u: Transaction)
    requires Consistent(db) && PatchInTx(db, p, env).Failure?
    requires OwnsTransaction(db, p.user, p.id) && MayPatch(db.transactions[p.id], p) ==> AsPatched(u, db.transactions[p.id], p, env.now)
    ensures if OwnsTransaction(db, p.user, p.id) then PatchRefused(db.transactions[p.id], p, u, PatchInTx(db, p, env).error)
            else PatchInTx(db, p, env).error == TransactionNotFound
  {
    if OwnsTransaction(db, p.user, p.id) {
      var t := db.transactions[p.id];
      assert StoredTransaction(t);
      if MayPatch(t, p) {
        PatchAccepts(t, p, env.now, u);
        PatchedRefused(t, p, env.now, u);
      }
    }
  }

  lemma PatchedRefused(t: Transaction, p: PatchInput, now: Time, u: Transaction)
    requires StoredTransaction(t) && MayPatch(t, p) && AsPatched(u, t, p, now)
    ensures PatchedRow(t, p, now).Failure? <==> !WellFormed(u)
    ensures PatchedRow(t, p, now).Failure? ==> FirstBroken(u, PatchedRow(t, p, now).error)
  {
    if p.comment.Some? {
      CommentKept(p.comment.value);
    }
    NewRowRefused(PatchParams(t, p, now).value, u);
  }

  /** Why an item of a bulk patch is refused: its patch, or the status it asks for, or the write of its status step. */
  lemma ItemRefused(db: Db, item: PatchItem, u: Transaction)
    requires Sound(db) && PatchOne(db, item).Failure?
    requires var p := item.input.(status := None);
             OwnsTransaction(db, p.user, p.id) && MayPatch(db.transactions[p.id], p) ==> AsPatched(u, db.transactions[p.id], p, item.patchEnv.now)
    ensures var p, e := item.input.(status := None), PatchOne(db, item).error;
            if !OwnsTransaction(db, p.user, p.id) then e == TransactionNotFound
            else if PatchInTx(db, p, item.patchEnv).Failure? then PatchRefused(db.transactions[p.id], p, u, e)
            else e == if MayMove(db.transactions[p.id].status, item.input.status) then WriteRefused else PostedPatchConflict
  {
    var p := item.input.(status := None);
    if OwnsTransaction(db, p.user, p.id) {
      if PatchInTx(db, p, item.patchEnv).Failure? {
        PatchInTxRefused(db, p, item.patchEnv, u);
      } else {
        PatchOutcome(db, p, item.patchEnv);
        PatchInTxKeeps(db, p, item.patchEnv);
        StepRefused(db, item, PatchInTx(db, p, item.patchEnv).value);
      }
    }
  }

  lemma StepRefused(db: Db, item: PatchItem, patched: Done)
    requires OwnsTransaction(db, item.input.user, item.input.id) && PatchOne(db, item).Failure?
    requires PatchInTx(db, item.input.(status := None), item.patchEnv) == Success(patched) && Consistent(patched.db)
    requires OwnsTransaction(patched.db, item.input.user, item.input.id)
    requires patched.db.transactions[item.input.id].status == db.transactions[item.input.id].status
    requires db.transactions[item.input.id].status != Cancelled
    ensures PatchOne(db, item).error ==
            if MayMove(db.transactions[item.input.id].status, item.input.status) then WriteRefused else PostedPatchConflict
  {
    var asked := item.input.status;
    ItemThen(db, item, patched);
    if asked.Some? && asked.value.Some? {
      MayMoveIs(db.transactions[item.input.id].status, asked.value.value);
      if asked.value.value == Posted && MayMove(db.transactions[item.input.id].status, asked) {
        PostRefused(patched.db, item.input.user, item.input.id, item.statusEnv);
      }
      if asked.value.value == Cancelled && MayMove(db.transactions[item.input.id].status, asked) {
        CancelRefused(patched.db, item.input.user, item.input.id, item.statusEnv);
      }
    }
  }

  lemma PostRefused(db: Db, user: Id, id: Id, env: Env)
    requires Consistent(db)
    ensures Post(db, user, id, env).Failure? ==>
              Post(db, user, id, env).error ==
              if !OwnsTransaction(db, user, id) then TransactionNotFound
              else if db.transactions[id].status == Posted then AlreadyPosted
              else if db.transactions[id].status == Cancelled then AlreadyCancelled
              else WriteRefused
  {
    if OwnsTransaction(db, user, id) {
      StoredIsWellFormed(db, id);
      if db.transactions[id].status == Planned {
        WriteOrSettle(db, user, id, env);
      }
    }
  }

  /** The accounts of a stored row are there for its user, so paying it never fails. */
  lemma WriteOrSettle(db: Db, user: Id, id: Id, env: Env)
    requires Consistent(db) && OwnsTransaction(db, user, id) && db.transactions[id].status == Planned
    ensures Post(db, user, id, env).Failure? ==> Post(db, user, id, env).error == WriteRefused
  {
    PostOutcome(db, user, id, env);
  }

  lemma CancelRefused(db: Db, user: Id, id: Id, env: Env)
    requires Consistent(db)
    ensures Cancel(db, user, id, env).Failure? ==>
              Cancel(db, user, id, env).error ==
              if !OwnsTransaction(db, user, id) then TransactionNotFound
              else if db.transactions[id].status == Cancelled then AlreadyCancelled
              else WriteRefused
  {
    CancelOutcome(db, user, id, env);
    if OwnsTransaction(db, user, id) {
      StoredIsWellFormed(db, id);
    }
  }

  lemma DeleteRefused(db: Db, user: Id, id: Id, refused: bool)
    ensures Delete(db, user, id, refused).Failure? ==>
              Delete(db, user, id, refused).error ==
              if !OwnsTransaction(db, user, id) then TransactionNotFound
              else if db.transactions[id].status == Posted then PostedDeleteConflict
              else WriteRefused
  {
  }
}
