/**
 * What each ledger operation makes of the tables, field by field and balance by balance, and exactly when it
 * succeeds: said in terms of the request and the stored rows alone.
 */
module LedgerOutcomes {
  import opened Prelude
  import opened LedgerRows
  import opened LedgerSpec
  import opened LedgerInvariant
  import opened LedgerRuns
  import Strings

  // ---- Where the money goes -----------------------------------------------

  /** What a transaction brings to an account. */
  function Received(t: Transaction, account: Id): int {
    if t.kind in {Income, Transfer} && t.accountTo == Some(account) then t.amount.minor else 0
  }

  /** What a transaction takes from an account. */
  function Spent(t: Transaction, account: Id): int {
    if t.kind in {Expense, Transfer, Investment, Saving} && t.accountFrom == Some(account) then t.amount.minor else 0
  }

  /** An account whose balance has moved by `d`; one that has not moved keeps its stamp too. */
  predicate MovedBy(a: Account, b: Account, d: int, now: Time) {
    && b.balance.minor == Wrap64(a.balance.minor + d) && b.balance.currency == a.balance.currency
    && b.updatedAt == (if d == 0 then a.updatedAt else now)
    && b.id == a.id && b.user == a.user && b.name == a.name && b.kind == a.kind && b.initialBalance == a.initialBalance
    && b.inNetWorth == a.inNetWorth && b.inDailyBudget == a.inDailyBudget && b.archivedAt == a.archivedAt && b.createdAt == a.createdAt
  }

  /** Every account has received and spent what a transaction says. */
  predicate Paid(before: map<Id, Account>, after: map<Id, Account>, t: Transaction, now: Time) {
    after.Keys == before.Keys && forall a | a in before :: MovedBy(before[a], after[a], Received(t, a) - Spent(t, a), now)
  }

  /** Every account has given back what it received and got back what it spent. */
  predicate PaidBack(before: map<Id, Account>, after: map<Id, Account>, t: Transaction, now: Time) {
    after.Keys == before.Keys && forall a | a in before :: MovedBy(before[a], after[a], Spent(t, a) - Received(t, a), now)
  }

  lemma CreditMoves(a: Account, t: Transaction, sign: int, now: Time)
    ensures var d := Signed(sign, Delta(t, a.id));
            MovedBy(a, if Delta(t, a.id) == 0 then a else Credited(a, d, now),
                    if sign < 0 then Spent(t, a.id) - Received(t, a.id) else Received(t, a.id) - Spent(t, a.id), now)
  {
    WrapExact(a.balance.minor);
  }

  lemma SettledIsPaid(db: Db, user: Id, t: Transaction, now: Time)
    requires Keyed(db.accounts) && Settle(db, user, t, 1, now).Success?
    ensures Paid(db.accounts, Settle(db, user, t, 1, now).value.accounts, t, now)
  {
    forall a | a in db.accounts
      ensures MovedBy(db.accounts[a], Settle(db, user, t, 1, now).value.accounts[a], Received(t, a) - Spent(t, a), now)
    {
      CreditMoves(db.accounts[a], t, 1, now);
    }
  }

  lemma UnsettledIsPaidBack(db: Db, user: Id, t: Transaction, now: Time)
    requires Keyed(db.accounts) && Settle(db, user, t, -1, now).Success?
    ensures PaidBack(db.accounts, Settle(db, user, t, -1, now).value.accounts, t, now)
  {
    forall a | a in db.accounts
      ensures MovedBy(db.accounts[a], Settle(db, user, t, -1, now).value.accounts[a], Spent(t, a) - Received(t, a), now)
    {
      CreditMoves(db.accounts[a], t, -1, now);
    }
  }

  predicate Keyed(accounts: map<Id, Account>) {
    forall a | a in accounts :: accounts[a].id == a
  }

  /** An amount has moved from one account to another, and nothing else has changed. */
  predicate Moved(before: map<Id, Account>, after: map<Id, Account>, from: Id, to: Id, amount: int, now: Time) {
    && from != to && from in before && to in before && after.Keys == before.Keys
    && MovedBy(before[from], after[from], -amount, now) && MovedBy(before[to], after[to], amount, now)
    && forall a | a in before && a != from && a != to :: after[a] == before[a]
  }

  lemma TransferMoves(before: map<Id, Account>, after: map<Id, Account>, t: Transaction, now: Time, from: Id, to: Id)
    requires Paid(before, after, t, now) && t.kind == Transfer && WellFormed(t)
    requires t.accountFrom == Some(from) && t.accountTo == Some(to) && from in before && to in before
    ensures Moved(before, after, from, to, t.amount.minor, now)
  {
    forall a | a in before && a != from && a != to ensures after[a] == before[a] {
      NotMoved(before[a], after[a], now);
    }
  }

  /** Money has moved between two accounts and none has come or gone: their sum is the same modulo 2^64, and no other account has changed. */
  predicate Conserved(before: map<Id, Account>, after: map<Id, Account>, from: Id, to: Id) {
    && from != to && from in before && to in before && after.Keys == before.Keys
    && Same64(after[from].balance.minor + after[to].balance.minor, before[from].balance.minor + before[to].balance.minor)
    && forall a | a in before && a != from && a != to :: after[a] == before[a]
  }

  lemma MovedConserves(before: map<Id, Account>, after: map<Id, Account>, from: Id, to: Id, amount: int, now: Time)
    requires Moved(before, after, from, to, amount, now)
    ensures Conserved(before, after, from, to)
  {
    SumKept(before[from].balance.minor, before[to].balance.minor, amount);
  }

  lemma SumKept(x: int, y: int, d: int)
    ensures Same64(Wrap64(x - d) + Wrap64(y + d), x + y)
  {
    WrapAbsorbs(x - d, Wrap64(y + d));
    WrapAbsorbs(y + d, x - d);
  }

  lemma NotMoved(a: Account, b: Account, now: Time)
    requires MovedBy(a, b, 0, now)
    ensures b == a
  {
    WrapExact(a.balance.minor);
  }

  // ---- Which rows are well formed -----------------------------------------

  predicate Named(id: Option<Id>) {
    id.Some? && Strings.TrimSpace(id.value) != ""
  }

  /** What every stored transaction is: each type with the accounts and the category it needs, and none it must not have. */
  predicate WellFormed(t: Transaction) {
    && Strings.TrimSpace(t.id) != "" && Strings.TrimSpace(t.user) != "" && t.amount.minor >= 0
    && t.status in {Planned, Posted, Cancelled}
    && (Named(t.subcategory) ==> Named(t.category))
    && match t.kind
       case Income => Named(t.accountTo) && !Named(t.accountFrom)
       case Expense | Investment | Saving => Named(t.accountFrom) && !Named(t.accountTo) && Named(t.category)
       case Transfer =>
         Named(t.accountFrom) && Named(t.accountTo) && !Named(t.category)
         && Strings.TrimSpace(t.accountFrom.value) != Strings.TrimSpace(t.accountTo.value)
       case UnknownType => false
  }

  lemma NamedHasId(id: Option<Id>)
    ensures HasId(id) <==> Named(id)
  {
    if id.Some? {
      BlankIsTrimmedAway(id.value);
    }
  }

  /** Validation accepts exactly the well-formed rows. */
  lemma ValidIsWellFormed(t: Transaction)
    ensures ValidRow(t) <==> WellFormed(t)
  {
    BlankIsTrimmedAway(t.id);
    BlankIsTrimmedAway(t.user);
    NamedHasId(t.accountFrom);
    NamedHasId(t.accountTo);
    NamedHasId(t.category);
    NamedHasId(t.subcategory);
  }

  // ---- Creating and duplicating -------------------------------------------

  /** The comment that is kept: trimmed, and none when nothing is left. */
  function Kept(comment: Option<string>): Option<string> {
    if comment.Some? && Strings.TrimSpace(comment.value) != "" then Some(Strings.TrimSpace(comment.value)) else None
  }

  /** The row a creation asks for. */
  predicate AsRequested(t: Transaction, input: CreateInput, env: Env) {
    && t.id == env.newId && t.user == input.user && t.kind == input.kind && t.amount == input.amount
    && t.accountFrom == input.accountFrom && t.accountTo == input.accountTo
    && t.category == input.category && t.subcategory == input.subcategory && t.incomeSource == input.incomeSource
    && t.comment == Kept(input.comment) && t.plannedAt == input.plannedAt
    && t.status == (if input.status == None then Planned else input.status.value)
    && t.occurredAt == (if t.status == Posted && input.occurredAt == None then Some(env.now) else input.occurredAt)
    && t.postedAt == (if t.status == Posted then t.occurredAt else None) && t.cancelledAt == None
    && t.createdAt == env.now && t.updatedAt == env.now
  }

  /** A new row is accepted when it is well formed, its id is free and it refers to accounts of its user. */
  predicate Acceptable(db: Db, t: Transaction, refused: bool) {
    WellFormed(t) && t.id !in db.transactions && RefersToOwn(db, t) && !refused
  }

  predicate RefersToOwn(db: Db, t: Transaction) {
    && (t.accountFrom.Some? ==> t.accountFrom.value in db.accounts && db.accounts[t.accountFrom.value].user == t.user)
    && (t.accountTo.Some? ==> t.accountTo.value in db.accounts && db.accounts[t.accountTo.value].user == t.user)
  }

  /** The tables with one more row, paid for if it is posted. */
  predicate Entered(db: Db, next: Db, t: Transaction, now: Time) {
    && next.transactions == db.transactions[t.id := t]
    && if t.status == Posted then Paid(db.accounts, next.accounts, t, now) else next.accounts == db.accounts
  }

  lemma EnterOutcome(db: Db, t: Transaction, env: Env)
    requires Consistent(db)
    ensures Enter(db, t, env).Success? <==> t.id !in db.transactions && RefersToOwn(db, t) && !env.refused
    ensures Enter(db, t, env).Success? ==> Entered(db, Enter(db, t, env).value.db, t, env.now) && Enter(db, t, env).value.row == t
  {
    if t.status == Posted {
      EnterPosted(db, t, env);
    }
  }

  lemma EnterPosted(db: Db, t: Transaction, env: Env)
    requires Keyed(db.accounts) && t.status == Posted
    ensures Enter(db, t, env).Success? <==> t.id !in db.transactions && RefersToOwn(db, t) && !env.refused
    ensures Enter(db, t, env).Success? ==> Entered(db, Enter(db, t, env).value.db, t, env.now) && Enter(db, t, env).value.row == t
  {
    var settled := Settle(db, t.user, t, 1, env.now);
    if References(db, t) {
      SettleSucceeds(db, t, 1, env.now);
    }
    if settled.Success? {
      SettledIsPaid(db, t.user, t, env.now);
      SameReferences(db, settled.value, t);
    }
  }

  lemma SameReferences(db: Db, next: Db, t: Transaction)
    requires next.accounts.Keys == db.accounts.Keys && forall a | a in db.accounts :: next.accounts[a].user == db.accounts[a].user
    ensures References(next, t) <==> RefersToOwn(db, t)
  {
  }

  /** Creating enters exactly the row that was asked for, exactly when that is acceptable. */
  lemma CreateOutcome(db: Db, input: CreateInput, env: Env) returns (t: Transaction)
    requires Consistent(db)
    ensures AsRequested(t, input, env)
    ensures Create(db, input, env).Success? <==> Acceptable(db, t, env.refused)
    ensures Create(db, input, env).Success? ==>
              Create(db, input, env).value.row == t && Entered(db, Create(db, input, env).value.db, t, env.now)
  {
    var params := CreateParams(input, env);
    t := params.(comment := Kept(input.comment));
    CommentKept(input.comment);
    SameValidity(params, t);
    ValidIsWellFormed(t);
    EnterOutcome(db, t, env);
  }

  lemma CommentKept(comment: Option<string>)
    ensures NormalizeComment(comment) == Kept(comment) && Kept(Kept(comment)) == Kept(comment)
  {
    if comment.Some? {
      Strings.TrimTwice(comment.value);
    }
  }

  /** Validation does not look at the comment. */
  lemma SameValidity(t: Transaction, u: Transaction)
    requires u == t.(comment := u.comment)
    ensures ValidRow(t) <==> ValidRow(u)
  {
    assert TypeError(t) == TypeError(u);
  }

  /** The row a duplication asks for: its source's, but for the dates, the status and the comment of the request. */
  predicate Duplicated(t: Transaction, source: Transaction, input: DuplicateInput, env: Env) {
    && t.id == env.newId && t.user == input.user && t.kind == source.kind && t.amount == source.amount
    && t.accountFrom == source.accountFrom && t.accountTo == source.accountTo
    && t.category == source.category && t.subcategory == source.subcategory && t.incomeSource == source.incomeSource
    && t.comment == (if input.comment == None then source.comment else Kept(input.comment))
    && t.status == (if input.status == None then Planned else input.status.value)
    && DuplicatedDates(t, source, input, env.now)
    && t.postedAt == (if t.status == Posted then t.occurredAt else None) && t.cancelledAt == None
    && t.createdAt == env.now && t.updatedAt == env.now
  }

  /** The occurrence date given, else the source's, else now for a posted row; the planned date falls back on it in turn. */
  predicate DuplicatedDates(t: Transaction, source: Transaction, input: DuplicateInput, now: Time) {
    var occurred := if input.occurredAt != None then input.occurredAt else source.occurredAt;
    && t.occurredAt == (if occurred == None && t.status == Posted then Some(now) else occurred)
    && t.plannedAt == (if input.plannedAt != None then input.plannedAt else if source.plannedAt != None then source.plannedAt else occurred)
  }

  /** Duplicating enters exactly the row that was asked for, exactly when its source is there and that row is acceptable. */
  lemma DuplicateOutcome(db: Db, input: DuplicateInput, env: Env, source: Transaction) returns (t: Transaction)
    requires Consistent(db) && OwnsTransaction(db, input.user, input.id) && source == db.transactions[input.id]
    ensures Duplicated(t, source, input, env)
    ensures Duplicate(db, input, env).Success? <==> Acceptable(db, t, env.refused)
    ensures Duplicate(db, input, env).Success? ==>
              Duplicate(db, input, env).value.row == t && Entered(db, Duplicate(db, input, env).value.db, t, env.now)
  {
    var params := DuplicateParams(source, input, env);
    CommentKept(input.comment);
    CommentKept(source.comment);
    t := params.(comment := NormalizeComment(params.comment));
    SameValidity(params, t);
    ValidIsWellFormed(t);
    EnterOutcome(db, t, env);
  }

  // ---- Patching -----------------------------------------------------------

  /** A field of a patched row: what the patch sets it to, or what it was. */
  predicate SetTo<T(==)>(patch: Option<T>, was: T, is_: T) {
    is_ == if patch.Some? then patch.value else was
  }

  /** The row a patch asks for. */
  predicate AsPatched(u: Transaction, t: Transaction, p: PatchInput, now: Time) {
    && (if p.kind.Some? then p.kind.value == Some(u.kind) else u.kind == t.kind)
    && (if p.amount.Some? then p.amount.value == Some(u.amount) else u.amount == t.amount)
    && SetTo(p.accountFrom, t.accountFrom, u.accountFrom) && SetTo(p.accountTo, t.accountTo, u.accountTo)
    && SetTo(p.category, t.category, u.category) && SetTo(p.subcategory, t.subcategory, u.subcategory)
    && SetTo(p.incomeSource, t.incomeSource, u.incomeSource)
    && u.comment == (if p.comment.Some? then Kept(p.comment.value) else t.comment)
    && SetTo(p.occurredAt, t.occurredAt, u.occurredAt) && SetTo(p.plannedAt, t.plannedAt, u.plannedAt)
    && u.updatedAt == now
    && u.id == t.id && u.user == t.user && u.status == t.status
    && u.postedAt == t.postedAt && u.cancelledAt == t.cancelledAt && u.createdAt == t.createdAt
  }

  /** A planned row may be patched in every field, a posted one in its category, comment and occurrence date, a cancelled one not at all. */
  predicate MayPatch(t: Transaction, p: PatchInput) {
    && p.kind != Some(None) && p.amount != Some(None)
    && match t.status
       case Planned => true
       case Posted =>
         p.kind == None && p.status == None && p.amount == None && !p.currencySet && p.accountFrom == None && p.accountTo == None
         && p.incomeSource == None && p.plannedAt == None
       case _ => false
  }

  /** A patch writes exactly the row that was asked for. */
  lemma PatchOutcome(db: Db, p: PatchInput, env: Env)
    requires Consistent(db) && PatchInTx(db, p, env).Success?
    ensures OwnsTransaction(db, p.user, p.id)
    ensures var done := PatchInTx(db, p, env).value;
            AsPatched(done.row, db.transactions[p.id], p, env.now)
            && done.db == Db(db.accounts, db.transactions[p.id := done.row])
  {
    PatchBuilds(db.transactions[p.id], p, env.now);
  }

  lemma PatchBuilds(t: Transaction, p: PatchInput, now: Time)
    requires StoredTransaction(t) && PatchedRow(t, p, now).Success?
    ensures AsPatched(PatchedRow(t, p, now).value, t, p, now)
  {
    CommentKept(t.comment);
    if p.comment.Some? {
      CommentKept(p.comment.value);
    }
  }

  /** It succeeds exactly when the row may be patched so and the row asked for is acceptable. */
  lemma PatchSucceeds(db: Db, p: PatchInput, env: Env, u: Transaction)
    requires Consistent(db) && OwnsTransaction(db, p.user, p.id) && AsPatched(u, db.transactions[p.id], p, env.now)
    ensures PatchInTx(db, p, env).Success? <==> MayPatch(db.transactions[p.id], p) && WellFormed(u) && RefersToOwn(db, u) && !env.refused
  {
    PatchAccepts(db.transactions[p.id], p, env.now, u);
  }

  lemma PatchAccepts(t: Transaction, p: PatchInput, now: Time, u: Transaction)
    requires StoredTransaction(t) && AsPatched(u, t, p, now)
    ensures PatchedRow(t, p, now) == Success(u) <==> MayPatch(t, p) && WellFormed(u)
    ensures PatchedRow(t, p, now).Success? ==> PatchedRow(t, p, now).value == u
  {
    if PatchParams(t, p, now).Success? {
      var params := PatchParams(t, p, now).value;
      CommentKept(t.comment);
      if p.comment.Some? {
        CommentKept(p.comment.value);
      }
      assert params.(comment := u.comment) == u;
      SameValidity(params, u);
    }
    ValidIsWellFormed(u);
  }

  // ---- Posting, cancelling and deleting -----------------------------------

  /** The row a posting asks for: an occurrence date already given is kept. */
  predicate AsPosted(u: Transaction, t: Transaction, now: Time) {
    && u == t.(status := Posted, occurredAt := u.occurredAt, postedAt := Some(now), updatedAt := now)
    && u.occurredAt == (if t.occurredAt == None then Some(now) else t.occurredAt)
  }

  predicate AsCancelled(u: Transaction, t: Transaction, now: Time) {
    u == t.(status := Cancelled, cancelledAt := Some(now), updatedAt := now)
  }

  /** Posting succeeds exactly on a planned row of the user, and pays it. */
  lemma PostOutcome(db: Db, user: Id, id: Id, env: Env)
    requires Consistent(db)
    ensures Post(db, user, id, env).Success? <==> OwnsTransaction(db, user, id) && db.transactions[id].status == Planned && !env.refused
    ensures Post(db, user, id, env).Success? ==>
              var done := Post(db, user, id, env).value;
              && AsPosted(done.row, db.transactions[id], env.now) && done.db.transactions == db.transactions[id := done.row]
              && Paid(db.accounts, done.db.accounts, done.row, env.now)
  {
    if OwnsTransaction(db, user, id) && db.transactions[id].status == Planned && !env.refused {
      var t := db.transactions[id];
      var row := PostedRow(t, env.now).value;
      var written := db.(transactions := db.transactions[id := row]);
      assert References(db, t);
      SettleSucceeds(written, row, 1, env.now);
      SettledIsPaid(written, user, row, env.now);
    }
  }

  /** A posted transfer takes from one account what it brings to the other. */
  lemma PostedTransferConserves(db: Db, user: Id, id: Id, env: Env, from: Id, to: Id)
    requires Consistent(db) && Post(db, user, id, env).Success? && db.transactions[id].kind == Transfer
    requires db.transactions[id].accountFrom == Some(from) && db.transactions[id].accountTo == Some(to)
    ensures Conserved(db.accounts, Post(db, user, id, env).value.db.accounts, from, to)
  {
    PostOutcome(db, user, id, env);
    StoredIsWellFormed(db, id);
    PaidTransferConserves(db.accounts, Post(db, user, id, env).value, db.transactions[id], env.now, from, to);
  }

  lemma PaidTransferConserves(before: map<Id, Account>, done: Done, t: Transaction, now: Time, from: Id, to: Id)
    requires AsPosted(done.row, t, now) && Paid(before, done.db.accounts, done.row, now) && WellFormed(t) && t.kind == Transfer
    requires t.accountFrom == Some(from) && t.accountTo == Some(to) && from in before && to in before
    ensures Conserved(before, done.db.accounts, from, to)
  {
    TransferMoves(before, done.db.accounts, done.row, now, from, to);
    MovedConserves(before, done.db.accounts, from, to, t.amount.minor, now);
  }

  lemma StoredIsWellFormed(db: Db, id: Id)
    requires Consistent(db) && id in db.transactions
    ensures WellFormed(db.transactions[id]) && RefersToOwn(db, db.transactions[id])
  {
    ValidIsWellFormed(db.transactions[id]);
    assert References(db, db.transactions[id]);
  }

  /** Cancelling succeeds exactly on a planned or posted row of the user, and pays a posted one back. */
  lemma CancelOutcome(db: Db, user: Id, id: Id, env: Env)
    requires Consistent(db)
    ensures Cancel(db, user, id, env).Success? <==>
              OwnsTransaction(db, user, id) && db.transactions[id].status in {Planned, Posted} && !env.refused
    ensures Cancel(db, user, id, env).Success? ==>
              var done, t := Cancel(db, user, id, env).value, db.transactions[id];
              && AsCancelled(done.row, t, env.now) && done.db.transactions == db.transactions[id := done.row]
              && if t.status == Posted then PaidBack(db.accounts, done.db.accounts, t, env.now) else done.db.accounts == db.accounts
  {
    if OwnsTransaction(db, user, id) && db.transactions[id].status in {Planned, Posted} && !env.refused {
      var t := db.transactions[id];
      var row := CancelledRow(t, env.now).value;
      var written := db.(transactions := db.transactions[id := row]);
      assert References(db, t);
      SettleSucceeds(written, t, -1, env.now);
      UnsettledIsPaidBack(written, user, t, env.now);
    }
  }

  /** Deleting succeeds exactly on a row of the user that is not posted, and takes that row only. */
  lemma DeleteOutcome(db: Db, user: Id, id: Id, refused: bool)
    ensures Delete(db, user, id, refused).Success? <==> OwnsTransaction(db, user, id) && db.transactions[id].status != Posted && !refused
    ensures Delete(db, user, id, refused).Success? ==> Delete(db, user, id, refused).value.db == Db(db.accounts, db.transactions - {id})
  {
  }

  // ---- Items of a bulk patch ----------------------------------------------

  /** The status changes an item may ask for: none, from planned anywhere, from posted to cancelled. */
  predicate MayMove(current: Status, asked: Option<Option<Status>>) {
    || asked == None
    || (current == Planned && asked in {Some(Some(Planned)), Some(Some(Posted)), Some(Some(Cancelled))})
    || (current == Posted && asked == Some(Some(Cancelled)))
  }

  /** What becomes of the patched row `u` of an item, and of the accounts. */
  predicate ItemDone(before: map<Id, Account>, after: map<Id, Account>, u: Transaction, row: Transaction, item: PatchItem) {
    var now := item.statusEnv.now;
    if item.input.status == Some(Some(Posted)) then AsPosted(row, u, now) && Paid(before, after, row, now)
    else if item.input.status == Some(Some(Cancelled)) then
      AsCancelled(row, u, now) && if u.status == Posted then PaidBack(before, after, u, now) else after == before
    else row == u && after == before
  }

  predicate Steps(item: PatchItem) {
    item.input.status in {Some(Some(Posted)), Some(Some(Cancelled))}
  }

  /** The status step of an item whose row has been patched, and may move to the status asked for. */
  lemma StatusStepOutcome(patched: Done, item: PatchItem, target: Status)
    requires Consistent(patched.db) && OwnsTransaction(patched.db, item.input.user, item.input.id)
    requires patched.row == patched.db.transactions[item.input.id]
    requires item.input.status == Some(Some(target)) && MayMove(patched.row.status, item.input.status)
    ensures var r := StatusStep(patched, item.input, target, item.statusEnv);
            && (r.Success? <==> (Steps(item) ==> !item.statusEnv.refused))
            && (r.Success? ==> ItemDone(patched.db.accounts, r.value.db.accounts, patched.row, r.value.row, item)
                               && r.value.db.transactions == patched.db.transactions[item.input.id := r.value.row])
  {
    if target == Posted {
      PostOutcome(patched.db, item.input.user, item.input.id, item.statusEnv);
    } else if target == Cancelled {
      CancelOutcome(patched.db, item.input.user, item.input.id, item.statusEnv);
    }
  }

  /** An item after its patch: the status step, if one is asked for and allowed. */
  lemma ItemSteps(db: Db, item: PatchItem, u: Transaction)
    requires Consistent(db) && OwnsTransaction(db, item.input.user, item.input.id) && u.status == db.transactions[item.input.id].status
    requires var patched := Done(Db(db.accounts, db.transactions[item.input.id := u]), u);
             && PatchInTx(db, item.input.(status := None), item.patchEnv) == Success(patched) && Consistent(patched.db)
             && u.user == item.input.user
    ensures PatchOne(db, item).Success? <==> MayMove(u.status, item.input.status) && (Steps(item) ==> !item.statusEnv.refused)
    ensures PatchOne(db, item).Success? ==>
              var done := PatchOne(db, item).value;
              ItemDone(db.accounts, done.db.accounts, u, done.row, item) && done.db.transactions == db.transactions[item.input.id := done.row]
  {
    var patched := Done(Db(db.accounts, db.transactions[item.input.id := u]), u);
    ItemThen(db, item, patched);
    if item.input.status.Some? && item.input.status.value.Some? {
      MayMoveIs(u.status, item.input.status.value.value);
      if MayMove(u.status, item.input.status) {
        StatusStepOutcome(patched, item, item.input.status.value.value);
      }
    }
  }

  lemma ItemThen(db: Db, item: PatchItem, patched: Done)
    requires OwnsTransaction(db, item.input.user, item.input.id)
    requires PatchInTx(db, item.input.(status := None), item.patchEnv) == Success(patched)
    ensures var current, asked := db.transactions[item.input.id].status, item.input.status;
            && (asked.None? ==> PatchOne(db, item) == Success(patched))
            && (asked == Some(None) ==> PatchOne(db, item).Failure?)
            && (asked.Some? && asked.value.Some? ==>
                  if TransitionError(current, asked.value.value).Some? then PatchOne(db, item).Failure?
                  else PatchOne(db, item) == StatusStep(patched, item.input, asked.value.value, item.statusEnv))
  {
  }

  /** The transitions that are no error are those an item may ask for. */
  lemma MayMoveIs(current: Status, target: Status)
    ensures TransitionError(current, target).None? <==> MayMove(current, Some(Some(target)))
    ensures TransitionError(current, target).Some? ==>
              TransitionError(current, target).value == if current == Cancelled then AlreadyCancelled else PostedPatchConflict
  {
  }

  /** An item patches its row as asked and then moves it to the status asked for, exactly when both are allowed. */
  lemma ItemOutcome(db: Db, item: PatchItem, u: Transaction)
    requires Sound(db) && OwnsTransaction(db, item.input.user, item.input.id)
    requires AsPatched(u, db.transactions[item.input.id], item.input.(status := None), item.patchEnv.now)
    ensures var t := db.transactions[item.input.id];
            PatchOne(db, item).Success? <==>
            && MayPatch(t, item.input.(status := None)) && WellFormed(u) && RefersToOwn(db, u) && !item.patchEnv.refused
            && MayMove(t.status, item.input.status) && (Steps(item) ==> !item.statusEnv.refused)
    ensures PatchOne(db, item).Success? ==>
              var done := PatchOne(db, item).value;
              ItemDone(db.accounts, done.db.accounts, u, done.row, item) && done.db.transactions == db.transactions[item.input.id := done.row]
  {
    var p := item.input.(status := None);
    PatchSucceeds(db, p, item.patchEnv, u);
    if PatchInTx(db, p, item.patchEnv).Success? {
      PatchedIs(db, p, item.patchEnv, u);
      PatchInTxKeeps(db, p, item.patchEnv);
      ItemSteps(db, item, u);
    }
  }

  lemma PatchedIs(db: Db, p: PatchInput, env: Env, u: Transaction)
    requires Consistent(db) && PatchInTx(db, p, env).Success? && AsPatched(u, db.transactions[p.id], p, env.now)
    ensures PatchInTx(db, p, env) == Success(Done(Db(db.accounts, db.transactions[p.id := u]), u))
  {
    PatchOutcome(db, p, env);
    PatchAccepts(db.transactions[p.id], p, env.now, u);
  }

  // ---- Accounts -----------------------------------------------------------

  /** The account a creation asks for: it starts with its initial balance. */
  predicate AccountAsRequested(a: Account, input: AccountInput, env: Env) {
    && a.id == env.newId && a.user == input.user && a.name == Strings.TrimSpace(input.name) && a.kind == input.kind
    && a.balance == input.initialBalance && a.initialBalance == input.initialBalance
    && a.inNetWorth == input.inNetWorth && a.inDailyBudget == input.inDailyBudget
    && a.archivedAt == None && a.createdAt == env.now && a.updatedAt == env.now
  }

  lemma CreateAccountOutcome(db: Db, input: AccountInput, env: Env)
    ensures CreateAccount(db, input, env).Success? <==>
            && input.initialBalance.minor >= 0 && Strings.TrimSpace(input.name) != "" && input.kind != UnknownAccountType
            && Strings.TrimSpace(env.newId) != "" && env.newId !in db.accounts && !env.refused
    ensures CreateAccount(db, input, env).Success? ==>
              var done := CreateAccount(db, input, env).value;
              AccountAsRequested(done.row, input, env) && done.db == Db(db.accounts[env.newId := done.row], db.transactions)
  {
    BlankIsTrimmedAway(input.name);
    BlankIsTrimmedAway(env.newId);
  }

  /** The account an update asks for; balances, currency and dates stay. */
  predicate AccountAsPatched(b: Account, a: Account, p: AccountPatch, now: Time) {
    && b == a.(name := b.name, kind := b.kind, inNetWorth := b.inNetWorth, inDailyBudget := b.inDailyBudget, updatedAt := now)
    && b.name == (if p.name.Some? then Strings.TrimSpace(p.name.value) else a.name)
    && SetTo(p.kind, a.kind, b.kind) && SetTo(p.inNetWorth, a.inNetWorth, b.inNetWorth)
    && SetTo(p.inDailyBudget, a.inDailyBudget, b.inDailyBudget)
  }

  lemma UpdateAccountOutcome(db: Db, p: AccountPatch, env: Env)
    requires Consistent(db)
    ensures UpdateAccount(db, p, env).Success? <==>
            && OwnsAccount(db, p.user, p.id) && !env.refused && p.kind != Some(UnknownAccountType)
            && (p.name.Some? ==> Strings.TrimSpace(p.name.value) != "")
    ensures UpdateAccount(db, p, env).Success? ==>
              var done := UpdateAccount(db, p, env).value;
              AccountAsPatched(done.row, db.accounts[p.id], p, env.now) && done.db == Db(db.accounts[p.id := done.row], db.transactions)
  {
    if OwnsAccount(db, p.user, p.id) {
      assert StoredAccount(db.accounts[p.id]);
      if p.name.Some? {
        Strings.TrimTwice(p.name.value);
        BlankIsTrimmedAway(Strings.TrimSpace(p.name.value));
      }
    }
  }

  /** Archiving stamps an active account, restoring clears the stamp of an archived one; doing either again changes nothing. */
  lemma ArchiveAccountOutcome(db: Db, user: Id, id: Id, env: Env)
    ensures ArchiveAccount(db, user, id, env).Success? <==> OwnsAccount(db, user, id)
    ensures ArchiveAccount(db, user, id, env).Success? ==>
              var a, next := db.accounts[id], ArchiveAccount(db, user, id, env).value.db;
              if a.archivedAt.Some? then next == db
              else next == Db(db.accounts[id := a.(archivedAt := Some(env.now), updatedAt := env.now)], db.transactions)
    ensures RestoreAccount(db, user, id, env).Success? <==>
              OwnsAccount(db, user, id) && (db.accounts[id].archivedAt.Some? ==> !env.refused)
    ensures RestoreAccount(db, user, id, env).Success? ==>
              var a, next := db.accounts[id], RestoreAccount(db, user, id, env).value.db;
              if a.archivedAt.None? then next == db
              else next == Db(db.accounts[id := a.(archivedAt := None, updatedAt := env.now)], db.transactions)
  {
  }
}
