/** Accounts and transactions: the two rows of the ledger, their validation and their balance effects. */
module LedgerRows {
  import opened Prelude
  import Strings

  datatype TransactionType = Income | Expense | Transfer | Investment | Saving | UnknownType

  datatype Status = Planned | Posted | Cancelled | UnknownStatus

  datatype AccountType = Cash | DebitCard | Savings | Brokerage | CreditCard | Deposit | Debt | Other | UnknownAccountType

  datatype Money = Money(minor: Int64, currency: string)

  datatype Transaction = Transaction(
    id: Id, user: Id, kind: TransactionType, status: Status, amount: Money,
    accountFrom: Option<Id>, accountTo: Option<Id>, category: Option<Id>, subcategory: Option<Id>,
    incomeSource: Option<Id>, comment: Option<string>,
    occurredAt: Option<Time>, plannedAt: Option<Time>, postedAt: Option<Time>, cancelledAt: Option<Time>,
    createdAt: Time, updatedAt: Time)

  datatype Account = Account(
    id: Id, user: Id, name: string, kind: AccountType, balance: Money, initialBalance: Money,
    inNetWorth: bool, inDailyBudget: bool, archivedAt: Option<Time>, createdAt: Time, updatedAt: Time)

  datatype LedgerError =
    | IdRequired | UserRequired | InvalidType | InvalidStatus | AmountNegative
    | AccountFromRequired | AccountToRequired | AccountFromMustBeEmpty | AccountToMustBeEmpty
    | CategoryMustBeEmpty | SubcategoryMustBeEmpty | CategoryRequired | TransferAccountsMustDiffer
    | AlreadyPosted | AlreadyCancelled | PostedPatchConflict | PostedDeleteConflict | CancelledPatchConflict
    | TransactionNotFound | ConcurrentTransactionUpdate | AccountNotFound | ConcurrentAccountUpdate
    | InvalidAccountName | InvalidAccountType | AccountCurrencyMismatch | NegativeInitialBalance
    | IncompleteAccounts | WriteRefused | NoItems | TooManyItems
    | BulkItem(index: nat, cause: LedgerError)

  // ---- Validation ---------------------------------------------------------

  /** Only white space: `strings.TrimSpace(s) == ""`. */
  predicate Blank(s: string) {
    forall i | 0 <= i < |s| :: Strings.IsSpace(s[i])
  }

  lemma BlankIsTrimmedAway(s: string)
    ensures Blank(s) <==> Strings.TrimSpace(s) == ""
  {
    var i, j := Strings.TrimmedStretch(s);
  }

  predicate HasId(id: Option<Id>) {
    id.Some? && !Blank(id.value)
  }

  function NormalizeComment(comment: Option<string>): Option<string> {
    if comment.None? || Strings.TrimSpace(comment.value) == "" then None
    else Some(Strings.TrimSpace(comment.value))
  }

  /** The first rule of its type that a transaction breaks. */
  function TypeError(t: Transaction): Option<LedgerError> {
    match t.kind
    case Income =>
      if !HasId(t.accountTo) then Some(AccountToRequired)
      else if HasId(t.accountFrom) then Some(AccountFromMustBeEmpty)
      else None
    case Expense =>
      if !HasId(t.accountFrom) then Some(AccountFromRequired)
      else if HasId(t.accountTo) then Some(AccountToMustBeEmpty)
      else if !HasId(t.category) then Some(CategoryRequired)
      else None
    case Transfer =>
      if !HasId(t.accountFrom) then Some(AccountFromRequired)
      else if !HasId(t.accountTo) then Some(AccountToRequired)
      else if Strings.TrimSpace(t.accountFrom.value) == Strings.TrimSpace(t.accountTo.value) then Some(TransferAccountsMustDiffer)
      else if HasId(t.category) then Some(CategoryMustBeEmpty)
      else if HasId(t.subcategory) then Some(SubcategoryMustBeEmpty)
      else None
    case Investment | Saving =>
      if !HasId(t.accountFrom) then Some(AccountFromRequired)
      else if !HasId(t.category) then Some(CategoryRequired)
      else if HasId(t.accountTo) then Some(AccountToMustBeEmpty)
      else None
    case UnknownType => Some(InvalidType)
  }

  /** The first rule a transaction breaks. */
  function RowError(t: Transaction): Option<LedgerError> {
    if Blank(t.id) then Some(IdRequired)
    else if Blank(t.user) then Some(UserRequired)
    else if t.kind == UnknownType then Some(InvalidType)
    else if t.status == UnknownStatus then Some(InvalidStatus)
    else if t.amount.minor < 0 then Some(AmountNegative)
    else if t.kind != Transfer && HasId(t.subcategory) && !HasId(t.category) then Some(CategoryRequired)
    else TypeError(t)
  }

  predicate ValidRow(t: Transaction) {
    RowError(t) == None
  }

  /** Builds a transaction from its parameters. */
  function NewTransaction(t: Transaction): Result<Transaction, LedgerError> {
    match RowError(t)
    case Some(e) => Failure(e)
    case None => Success(t.(comment := NormalizeComment(t.comment)))
  }

  predicate ValidAccount(a: Account) {
    !Blank(a.id) && AccountError(a) == None
  }

  function AccountError(a: Account): Option<LedgerError> {
    if Blank(a.name) then Some(InvalidAccountName)
    else if a.kind == UnknownAccountType then Some(InvalidAccountType)
    else if a.balance.currency != a.initialBalance.currency then Some(AccountCurrencyMismatch)
    else None
  }

  function NewAccount(a: Account): Result<Account, LedgerError> {
    match AccountError(a)
    case Some(e) => Failure(e)
    case None => Success(a.(name := Strings.TrimSpace(a.name)))
  }

  // ---- Balance effects ----------------------------------------------------

  predicate Credits(kind: TransactionType) {
    kind == Income || kind == Transfer
  }

  predicate Debits(kind: TransactionType) {
    kind == Expense || kind == Transfer || kind == Investment || kind == Saving
  }

  /** What posting a transaction adds to the balance of one account. */
  function Delta(t: Transaction, account: Id): int {
    (if Credits(t.kind) && t.accountTo == Some(account) then t.amount.minor as int else 0) -
    (if Debits(t.kind) && t.accountFrom == Some(account) then t.amount.minor as int else 0)
  }

  /** What a transaction row contributes to one account of one user: its delta while it is posted. */
  function Effect(t: Transaction, user: Id, account: Id): int {
    if t.status == Posted && t.user == user then Delta(t, account) else 0
  }

  /** The fields that fix a transaction's effect. */
  predicate SameTerms(t: Transaction, u: Transaction) {
    t.kind == u.kind && t.amount == u.amount && t.accountFrom == u.accountFrom && t.accountTo == u.accountTo
    && t.id == u.id && t.user == u.user
  }

  /** The accounts and signed amounts of a transaction, as the service collects them. */
  function Deltas(t: Transaction): Result<map<Id, Int64>, LedgerError> {
    var amount := t.amount.minor as int;
    match t.kind
    case Income =>
      if t.accountTo.None? then Failure(IncompleteAccounts)
      else Success(map[t.accountTo.value := Wrap64(0 + amount)])
    case Expense =>
      if t.accountFrom.None? then Failure(IncompleteAccounts)
      else Success(map[t.accountFrom.value := Wrap64(0 - amount)])
    case Transfer =>
      if t.accountFrom.None? || t.accountTo.None? then Failure(IncompleteAccounts)
      else
        var debit := map[t.accountFrom.value := Wrap64(0 - amount)];
        var to := t.accountTo.value;
        Success(debit[to := Wrap64((if to in debit then debit[to] as int else 0) + amount)])
    case Saving | Investment =>
      if t.accountFrom.None? then Failure(IncompleteAccounts)
      else Success(map[t.accountFrom.value := Wrap64(0 - amount)])
    case UnknownType => Failure(InvalidType)
  }

  /** The collected amounts are the deltas, account by account, and a valid transaction has them. */
  lemma DeltasAreDeltas(t: Transaction, account: Id)
    requires ValidRow(t)
    ensures Deltas(t).Success?
    ensures (if account in Deltas(t).value then Deltas(t).value[account] as int else 0) == Delta(t, account)
  {
  }

  /** No delta of a valid transaction is the least `int64`, so negating it is exact. */
  lemma DeltaRange(t: Transaction, account: Id)
    requires ValidRow(t)
    ensures -MAX_INT64 <= Delta(t, account) <= MAX_INT64
  {
  }
}
