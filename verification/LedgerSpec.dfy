/** What each ledger operation does to the two tables, stated on whole tables. */
module LedgerSpec {
  import opened Prelude
  import opened LedgerRows
  import Strings

  datatype Db = Db(accounts: map<Id, Account>, transactions: map<Id, Transaction>)

  /**
   * What a call takes from outside: the clock, a generated id, and whether the database refuses
   * the row it writes for a reason that is not modelled (a unique name, a category reference).
   */
  datatype Env = Env(now: Time, newId: Id, refused: bool)

  datatype Done = Done(db: Db, row: Transaction)
  datatype AccountDone = AccountDone(db: Db, row: Account)

  type Outcome = Result<Done, LedgerError>
  type AccountOutcome = Result<AccountDone, LedgerError>

  // ---- Table constraints --------------------------------------------------

  predicate OwnsAccount(db: Db, user: Id, id: Id) {
    id in db.accounts && db.accounts[id].user == user
  }

  predicate OwnsTransaction(db: Db, user: Id, id: Id) {
    id in db.transactions && db.transactions[id].user == user
  }

  /** The foreign keys of a transaction row: its accounts exist and belong to its user. */
  predicate References(db: Db, t: Transaction) {
    (t.accountFrom.Some? ==> OwnsAccount(db, t.user, t.accountFrom.value)) &&
    (t.accountTo.Some? ==> OwnsAccount(db, t.user, t.accountTo.value))
  }

  predicate StoredAccount(a: Account) {
    ValidAccount(a) && Strings.TrimSpace(a.name) == a.name
  }

  predicate StoredTransaction(t: Transaction) {
    ValidRow(t) && NormalizeComment(t.comment) == t.comment
  }

  /** Rows are stored under their ids as the constructors build them, and their references hold. */
  predicate Consistent(db: Db) {
    (forall k | k in db.accounts :: db.accounts[k].id == k && StoredAccount(db.accounts[k])) &&
    (forall k | k in db.transactions ::
       db.transactions[k].id == k && StoredTransaction(db.transactions[k]) && References(db, db.transactions[k]))
  }

  // ---- Balance adjustment -------------------------------------------------

  function Touched(t: Transaction): set<Id> {
    (if Debits(t.kind) && t.accountFrom.Some? then {t.accountFrom.value} else {}) +
    (if Credits(t.kind) && t.accountTo.Some? then {t.accountTo.value} else {})
  }

  function Credited(a: Account, amount: int, now: Time): Account {
    a.(balance := a.balance.(minor := Wrap64(a.balance.minor + amount)), updatedAt := now)
  }

  function Signed(sign: int, amount: int): int {
    if sign < 0 then -amount else amount
  }

  /** The accounts after a transaction's deltas, negated for a negative `sign`; an account with no delta keeps its row. */
  function Adjusted(accounts: map<Id, Account>, t: Transaction, sign: int, now: Time): map<Id, Account> {
    map a | a in accounts ::
      if Delta(t, a) == 0 then accounts[a] else Credited(accounts[a], Signed(sign, Delta(t, a)), now)
  }

  /** Applies a balance effect on behalf of a user, who must own every account the effect moves. */
  function Settle(db: Db, user: Id, t: Transaction, sign: int, now: Time): Result<Db, LedgerError> {
    if exists a | a in Touched(t) :: Delta(t, a) != 0 && !OwnsAccount(db, user, a) then Failure(AccountNotFound)
    else Success(db.(accounts := Adjusted(db.accounts, t, sign, now)))
  }

  // ---- Transactions -------------------------------------------------------

  datatype CreateInput = CreateInput(
    user: Id, kind: TransactionType, status: Option<Status>, amount: Money,
    accountFrom: Option<Id>, accountTo: Option<Id>, category: Option<Id>, subcategory: Option<Id>,
    incomeSource: Option<Id>, comment: Option<string>, occurredAt: Option<Time>, plannedAt: Option<Time>)

  function OrElse<T>(o: Option<T>, d: Option<T>): Option<T> {
    if o.Some? then o else d
  }

  function CreateParams(input: CreateInput, env: Env): Transaction {
    var status := if input.status.Some? then input.status.value else Planned;
    var occurredAt := if status == Posted then OrElse(input.occurredAt, Some(env.now)) else input.occurredAt;
    Transaction(env.newId, input.user, input.kind, status, input.amount,
                input.accountFrom, input.accountTo, input.category, input.subcategory,
                input.incomeSource, NormalizeComment(input.comment),
                occurredAt, input.plannedAt, if status == Posted then occurredAt else None, None,
                env.now, env.now)
  }

  function Insert(db: Db, t: Transaction, refused: bool): Outcome {
    if refused || t.id in db.transactions || !References(db, t) then Failure(WriteRefused)
    else Success(Done(db.(transactions := db.transactions[t.id := t]), t))
  }

  /** Inserts a built row; a posted one moves its accounts first. */
  function Enter(db: Db, t: Transaction, env: Env): Outcome {
    if t.status != Posted then Insert(db, t, env.refused) else
      match Settle(db, t.user, t, 1, env.now)
      case Failure(e) => Failure(e)
      case Success(moved) => Insert(moved, t, env.refused)
  }

  function Create(db: Db, input: CreateInput, env: Env): Outcome {
    match NewTransaction(CreateParams(input, env))
    case Failure(e) => Failure(e)
    case Success(t) => Enter(db, t, env)
  }

  /** A field that a patch leaves alone, or sets. */
  datatype PatchInput = PatchInput(
    user: Id, id: Id, kind: Option<Option<TransactionType>>, status: Option<Option<Status>>,
    amount: Option<Option<Money>>, currencySet: bool,
    accountFrom: Option<Option<Id>>, accountTo: Option<Option<Id>>,
    category: Option<Option<Id>>, subcategory: Option<Option<Id>>, incomeSource: Option<Option<Id>>,
    comment: Option<Option<string>>, occurredAt: Option<Option<Time>>, plannedAt: Option<Option<Time>>)

  function Set<T>(patch: Option<T>, current: T): T {
    if patch.Some? then patch.value else current
  }

  /** The fields a posted transaction refuses to change. */
  predicate TouchesTerms(p: PatchInput) {
    p.kind.Some? || p.status.Some? || p.amount.Some? || p.currencySet || p.accountFrom.Some? || p.accountTo.Some?
    || p.incomeSource.Some? || p.plannedAt.Some?
  }

  function PatchParams(t: Transaction, p: PatchInput, now: Time): Result<Transaction, LedgerError> {
    if t.status == Cancelled then Failure(CancelledPatchConflict)
    else if t.status == Posted && TouchesTerms(p) then Failure(PostedPatchConflict)
    else if p.kind == Some(None) || p.amount == Some(None) then Failure(PostedPatchConflict)
    else Success(t.(
      kind := if p.kind.Some? then p.kind.value.value else t.kind,
      amount := if p.amount.Some? then p.amount.value.value else t.amount,
      accountFrom := Set(p.accountFrom, t.accountFrom),
      accountTo := Set(p.accountTo, t.accountTo),
      category := Set(p.category, t.category),
      subcategory := Set(p.subcategory, t.subcategory),
      incomeSource := Set(p.incomeSource, t.incomeSource),
      comment := if p.comment.Some? then NormalizeComment(p.comment.value) else t.comment,
      occurredAt := Set(p.occurredAt, t.occurredAt),
      plannedAt := Set(p.plannedAt, t.plannedAt),
      updatedAt := now))
  }

  function Write(db: Db, t: Transaction, refused: bool): Outcome {
    if refused || !References(db, t) then Failure(WriteRefused)
    else Success(Done(db.(transactions := db.transactions[t.id := t]), t))
  }

  function PatchedRow(t: Transaction, p: PatchInput, now: Time): Result<Transaction, LedgerError> {
    match PatchParams(t, p, now)
    case Failure(e) => Failure(e)
    case Success(params) => NewTransaction(params)
  }

  /** A patch inside a database transaction, whatever it says about the status. */
  function PatchInTx(db: Db, p: PatchInput, env: Env): Outcome {
    if !OwnsTransaction(db, p.user, p.id) then Failure(TransactionNotFound) else
      match PatchedRow(db.transactions[p.id], p, env.now)
      case Failure(e) => Failure(e)
      case Success(next) => Write(db, next, env.refused)
  }

  /** The patch service itself refuses to set a status. */
  function Patch(db: Db, p: PatchInput, env: Env): Outcome {
    if p.status.Some? then Failure(PostedPatchConflict) else PatchInTx(db, p, env)
  }

  function Delete(db: Db, user: Id, id: Id, refused: bool): Outcome {
    if !OwnsTransaction(db, user, id) then Failure(TransactionNotFound)
    else if db.transactions[id].status == Posted then Failure(PostedDeleteConflict)
    else if refused then Failure(WriteRefused)
    else Success(Done(db.(transactions := db.transactions - {id}), db.transactions[id]))
  }

  function PostedRow(t: Transaction, now: Time): Result<Transaction, LedgerError> {
    match t.status
    case Planned => Success(t.(status := Posted, occurredAt := OrElse(t.occurredAt, Some(now)),
                               postedAt := Some(now), updatedAt := now))
    case Posted => Failure(AlreadyPosted)
    case Cancelled => Failure(AlreadyCancelled)
    case UnknownStatus => Failure(InvalidStatus)
  }

  function Post(db: Db, user: Id, id: Id, env: Env): Outcome {
    if !OwnsTransaction(db, user, id) then Failure(TransactionNotFound) else
      match PostedRow(db.transactions[id], env.now)
      case Failure(e) => Failure(e)
      case Success(row) =>
        match Write(db, row, env.refused)
        case Failure(e) => Failure(e)
        case Success(written) =>
          match Settle(written.db, user, row, 1, env.now)
          case Failure(e) => Failure(e)
          case Success(moved) => Success(Done(moved, row))
  }

  function CancelledRow(t: Transaction, now: Time): Result<Transaction, LedgerError> {
    match t.status
    case Planned | Posted => Success(t.(status := Cancelled, cancelledAt := Some(now), updatedAt := now))
    case Cancelled => Failure(AlreadyCancelled)
    case UnknownStatus => Failure(InvalidStatus)
  }

  function Cancel(db: Db, user: Id, id: Id, env: Env): Outcome {
    if !OwnsTransaction(db, user, id) then Failure(TransactionNotFound) else
      var t := db.transactions[id];
      match CancelledRow(t, env.now)
      case Failure(e) => Failure(e)
      case Success(row) =>
        match Write(db, row, env.refused)
        case Failure(e) => Failure(e)
        case Success(written) =>
          if t.status != Posted then Success(written) else
            match Settle(written.db, user, t, -1, env.now)
            case Failure(e) => Failure(e)
            case Success(moved) => Success(Done(moved, row))
  }

  datatype DuplicateInput = DuplicateInput(
    user: Id, id: Id, status: Option<Status>, occurredAt: Option<Time>, plannedAt: Option<Time>, comment: Option<string>)

  function DuplicateParams(source: Transaction, input: DuplicateInput, env: Env): Transaction {
    var status := if input.status.Some? then input.status.value else Planned;
    var given := OrElse(input.occurredAt, source.occurredAt);
    var plannedAt := OrElse(OrElse(input.plannedAt, source.plannedAt), given);
    var occurredAt := if status == Posted then OrElse(given, Some(env.now)) else given;
    source.(id := env.newId, user := input.user, status := status,
            comment := if input.comment.Some? then NormalizeComment(input.comment) else source.comment,
            occurredAt := occurredAt, plannedAt := plannedAt,
            postedAt := if status == Posted then occurredAt else None, cancelledAt := None,
            createdAt := env.now, updatedAt := env.now)
  }

  function Duplicate(db: Db, input: DuplicateInput, env: Env): Outcome {
    if !OwnsTransaction(db, input.user, input.id) then Failure(TransactionNotFound) else
      match NewTransaction(DuplicateParams(db.transactions[input.id], input, env))
      case Failure(e) => Failure(e)
      case Success(t) => Enter(db, t, env)
  }

  // ---- Accounts -----------------------------------------------------------

  datatype AccountInput = AccountInput(
    user: Id, name: string, kind: AccountType, initialBalance: Money, inNetWorth: bool, inDailyBudget: bool)

  function CreateAccount(db: Db, input: AccountInput, env: Env): AccountOutcome {
    if input.initialBalance.minor < 0 then Failure(NegativeInitialBalance) else
      match NewAccount(Account(env.newId, input.user, input.name, input.kind, input.initialBalance, input.initialBalance,
                               input.inNetWorth, input.inDailyBudget, None, env.now, env.now))
      case Failure(e) => Failure(e)
      case Success(a) =>
        if env.refused || a.id in db.accounts || Blank(a.id) then Failure(WriteRefused)
        else Success(AccountDone(db.(accounts := db.accounts[a.id := a]), a))
  }

  datatype AccountPatch = AccountPatch(
    user: Id, id: Id, name: Option<string>, kind: Option<AccountType>, inNetWorth: Option<bool>, inDailyBudget: Option<bool>)

  function PatchedAccount(a: Account, p: AccountPatch, now: Time): Result<Account, LedgerError> {
    NewAccount(a.(name := if p.name.Some? then Strings.TrimSpace(p.name.value) else a.name,
                  kind := Set(p.kind, a.kind), inNetWorth := Set(p.inNetWorth, a.inNetWorth),
                  inDailyBudget := Set(p.inDailyBudget, a.inDailyBudget), updatedAt := now))
  }

  function UpdateAccount(db: Db, p: AccountPatch, env: Env): AccountOutcome {
    if !OwnsAccount(db, p.user, p.id) then Failure(AccountNotFound) else
      match PatchedAccount(db.accounts[p.id], p, env.now)
      case Failure(e) => Failure(e)
      case Success(a) =>
        if env.refused then Failure(WriteRefused)
        else Success(AccountDone(db.(accounts := db.accounts[p.id := a]), a))
  }

  function ArchiveAccount(db: Db, user: Id, id: Id, env: Env): AccountOutcome {
    if !OwnsAccount(db, user, id) then Failure(AccountNotFound)
    else if db.accounts[id].archivedAt.Some? then Success(AccountDone(db, db.accounts[id]))
    else
      var a := db.accounts[id].(archivedAt := Some(env.now), updatedAt := env.now);
      Success(AccountDone(db.(accounts := db.accounts[id := a]), a))
  }

  function RestoreAccount(db: Db, user: Id, id: Id, env: Env): AccountOutcome {
    if !OwnsAccount(db, user, id) then Failure(AccountNotFound)
    else if db.accounts[id].archivedAt.None? then Success(AccountDone(db, db.accounts[id]))
    else if env.refused then Failure(WriteRefused)
    else
      var a := db.accounts[id].(archivedAt := None, updatedAt := env.now);
      Success(AccountDone(db.(accounts := db.accounts[id := a]), a))
  }

  // ---- Bulk forms ---------------------------------------------------------

  const BULK_MAX_ITEMS: nat := 100

  datatype Batch = Batch(db: Db, rows: seq<Transaction>)

  type BatchOutcome = Result<Batch, LedgerError>

  datatype CreateItem = CreateItem(input: CreateInput, env: Env)

  /** A bulk patch item reads the clock once for the patch and once for the status step. */
  datatype PatchItem = PatchItem(input: PatchInput, patchEnv: Env, statusEnv: Env)

  /** The state after the first `n` items, one single-item step after the other, or the first failure with its index. */
  function Fold<I>(step: (Db, I) -> Outcome, db: Db, items: seq<I>, n: nat): BatchOutcome
    requires n <= |items|
  {
    if n == 0 then Success(Batch(db, [])) else
      match Fold(step, db, items, n - 1)
      case Failure(e) => Failure(e)
      case Success(b) =>
        match step(b.db, items[n - 1])
        case Failure(e) => Failure(BulkItem(n - 1, e))
        case Success(d) => Success(Batch(d.db, b.rows + [d.row]))
  }

  function Bulk<I>(step: (Db, I) -> Outcome, db: Db, items: seq<I>): BatchOutcome {
    if |items| == 0 then Failure(BulkItem(0, NoItems))
    else if |items| > BULK_MAX_ITEMS then Failure(BulkItem(0, TooManyItems))
    else Fold(step, db, items, |items|)
  }

  function CreateOne(db: Db, item: CreateItem): Outcome {
    Create(db, item.input, item.env)
  }

  function CreateBulk(db: Db, items: seq<CreateItem>): BatchOutcome {
    Bulk(CreateOne, db, items)
  }

  /** The status changes a bulk patch may ask for. */
  function TransitionError(current: Status, target: Status): Option<LedgerError> {
    match current
    case Planned => if target == UnknownStatus then Some(PostedPatchConflict) else None
    case Posted => if target == Cancelled then None else Some(PostedPatchConflict)
    case Cancelled => Some(AlreadyCancelled)
    case UnknownStatus => Some(PostedPatchConflict)
  }

  /** The single status step a bulk item may ask for after its patch. */
  function StatusStep(patched: Done, p: PatchInput, target: Status, env: Env): Outcome {
    match target
    case Posted => Post(patched.db, p.user, p.id, env)
    case Cancelled => Cancel(patched.db, p.user, p.id, env)
    case _ => Success(patched)
  }

  /** One bulk item: the patch without its status, then the single status step it asks for. */
  function PatchOne(db: Db, item: PatchItem): Outcome {
    var p := item.input;
    if !OwnsTransaction(db, p.user, p.id) then Failure(TransactionNotFound) else
      var current := db.transactions[p.id].status;
      match PatchInTx(db, p.(status := None), item.patchEnv)
      case Failure(e) => Failure(e)
      case Success(patched) =>
        if p.status.None? then Success(patched)
        else if p.status.value.None? then Failure(PostedPatchConflict)
        else if TransitionError(current, p.status.value.value).Some? then Failure(TransitionError(current, p.status.value.value).value)
        else StatusStep(patched, p, p.status.value.value, item.statusEnv)
  }

  function PatchBulk(db: Db, items: seq<PatchItem>): BatchOutcome {
    Bulk(PatchOne, db, items)
  }
}
