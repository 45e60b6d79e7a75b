# Moneo: a verified model of the ledger and its neighbours

This project models the parts of the personal-finance backend in which a mistake would silently falsify
money, and proves what they promise.

**The ledger.** Accounts carry a denormalised balance that nothing in the program ever recomputes. The model
keeps the two tables as maps from id to row and covers creating, patching, posting, cancelling, duplicating and
deleting transactions, the two bulk forms, and creating, updating, archiving and restoring accounts.

* `LedgerRows` holds the rows, their validation and the signed delta a transaction puts on an account.
* `LedgerSpec` says what each operation does to the tables as a whole.
* `LedgerDatabase` and `LedgerServices` are the services in the program's own form: methods over two mutable
  tables, statement by statement, with the guard on `updated_at`, rollback on error and the loop over sorted
  account ids. Each is proved to do what `LedgerSpec` says, including its error and what it leaves untouched.
* `LedgerInvariant` and `LedgerRuns` prove what every operation keeps and what holds in every reachable state.
* `LedgerOutcomes` says what each operation makes of the rows and of the balances, field by field, in terms of the request and
  the stored rows alone, and exactly when it succeeds; `LedgerRefusals` says why it fails when it does.
* `LedgerStatements`, `LedgerPlans`, `LedgerConcurrency` and `LedgerInterleavings` interleave any number of clients
  statement by statement: reads see committed rows and own writes, a written row stays locked until its writer commits or
  rolls back, and a guarded write checks the row as it stands when the write gets its lock. Provided no row
  carries the same `updated_at` in two different committed versions, every interleaving is shown to be
  serial in commit order, from which the balances, the order of statuses and the absence of lost updates follow.
* `LedgerLocks` shows that requests that go upward lock rows in one global order, so they never wait in a cycle: all
  single operations, and bulk ones with ascending ids of which only the last item may write accounts. `LedgerIds`
  derives from distinct generated ids that nobody waits in order to insert.
* `LedgerScenarios`, `LedgerStale` and `LedgerCrossing` hold the runs on the other side of each condition.
* `LedgerStamps` shows that every row the services commit already has the stamps the repair job would give it.

**The money codec** (`MoneyDecimal`): the parser's exact language and value, the printer, and both round trips.
**The rate limiter** (`RateLimiter`): the fixed-window counters with lazy eviction, against a limiter that never
forgets. **The repair and verification jobs** (`Keyset`, `TransactionFormat`, `RepairJob`, `VerificationJob`):
paging, the row patch, the counters and samples, and the comparison of two snapshots. **The catalog** (`Catalog`,
`CatalogOutcomes`): the archive and restore cascade of categories, and what each call makes of each field.
**Tokens and sessions** (`Tokens`): one-time tokens and what a password reset does to sessions, interleaved.
**The account list** (`AccountList`): its orders and pages.
`Prelude` and `Strings` hold what they share.

Amounts are 64-bit and wrap: balances are stated modulo 2^64, and exactly whenever the true sum fits. Instants are
integers. The clock, generated ids, name folding, the outcome of unique indexes and category references, and which
statements fail are parameters. The currency of a transaction is never compared with that of its account, so
everything is stated in minor units.

Where a promise holds only under a condition, the condition is stated and the other side is shown by a lemma with
a concrete run: the least `int64` in the codec (`MoneyDecimal.RoundTrip`), a clock that lags one instant too far
(`RateLimiter.SlackIsExact`), a stale status in a bulk patch (`LedgerStale.StaleItemGoesThrough`), two archives at one instant
(`Catalog.SameInstantRevives`), a login between the revoking and the commit of a reset (`Tokens.LoginSlipsThrough`),
bulk requests that do not go upward (`LedgerCrossing.DownwardCanDeadlock`, `LedgerCrossing.CreationsCanDeadlock`)
and equal stamps (`LedgerScenarios.EqualStampsLoseAnUpdate`).

## Model

| member | source | states |
|---|---|---|
| `MoneyDecimal.AnswersExactly` | internal/domain/shared/money_decimal.go:35-102 | the parser succeeds with v exactly on the texts that stand for v: optional minus, digits, optional point with one or two digits, magnitude at most the greatest int64, leading zeros of any length |
| `MoneyDecimal.ParseMinorUnitsDecimal` | internal/domain/shared/money_decimal.go:35-102 | an unsupported currency is refused; otherwise the answer is the verdict on the text's only reading, or the exact refusal when it has none; every local is an int64, so no step overflows |
| `MoneyDecimal.ParseParts` | internal/domain/shared/money_decimal.go:52-95 | major and fraction combine to the exact magnitude, with overflow, too many digits and malformed parts told apart in the order the code checks them |
| `MoneyDecimal.ParseMinorUnitsDecimalNonNegative` | internal/domain/shared/money_decimal.go:104-114 | succeeds exactly on the accepted texts of a non-negative number, and reports a negative amount exactly on those of a negative one |
| `MoneyDecimal.IsDigits` | internal/domain/shared/money_decimal.go:160-172 | true exactly for a non-empty text of digits |
| `MoneyDecimal.Int64Pow10` | internal/domain/shared/money_decimal.go:152-158 | the loop computes the power of ten without overflow |
| `MoneyDecimal.FormatMinorUnitsDecimal` | internal/domain/shared/money_decimal.go:120-141 | prints the one canonical text of the amount |
| `MoneyDecimal.TextInjective` | internal/domain/shared/money_decimal.go:35-102 | an amount's text has one reading |
| `MoneyDecimal.DenotesUnique` | internal/domain/shared/money_decimal.go:35-102 | an accepted text stands for one number |
| `MoneyDecimal.CanonicalMagnitude` | internal/domain/shared/money_decimal.go:120-141 | the printed text is well formed, has a fraction of accepted length and stands for the printed number |
| `MoneyDecimal.RoundTrip` | internal/domain/shared/money_decimal.go:35-141 | parsing a printed int64 gives it back and nothing else, except the least int64, whose text is refused with overflow |
| `MoneyDecimal.CanonicalOf` | internal/domain/shared/money_decimal.go:120-141 | printing a parsed amount drops leading zeros and a negative zero's sign and pads the fraction, nothing else |
| `MoneyDecimal.PrintParsed` | internal/domain/shared/money_decimal.go:35-141 | printing what was parsed reproduces the text if and only if the text was canonical |
| `RateLimiter.AuthRateLimiter.Allow` | internal/transport/http/auth_security.go:336-373 | one call does to the counters, and decides, what the evicting specification says |
| `RateLimiter.AuthRateLimiter.CleanupExpired` | internal/transport/http/auth_security.go:375-392 | whatever the map order, exactly the stale counters go |
| `RateLimiter.EvictionInvisible` | internal/transport/http/auth_security.go:336-392 | on every call of every run with clock reads lagging at most one window, decision and delay are those of a limiter that never evicts |
| `RateLimiter.AtMostTwice` | internal/transport/http/auth_security.go:336-373 | no half-open interval one window long holds more than twice the allowed attempts of a bucket |
| `RateLimiter.RefusedOnlyWhenSpent` | internal/transport/http/auth_security.go:356-363 | a refusal means the allowed attempts were admitted within the last window |
| `RateLimiter.WaitingHelps` | internal/transport/http/auth_security.go:356-373 | a refused client that waits the delay it was told, or longer, with no call for its bucket in between, is admitted |
| `RateLimiter.WaitingLessDoesNotHelp` | internal/transport/http/auth_security.go:356-363 | one that waits less than the delay it was told, when that is more than a second, is refused again |
| `RateLimiter.DelayIsExact` | internal/transport/http/auth_security.go:356-363 | for every refusal there is a time, positive and at most a window, after which a retry is admitted and before which it is refused, whatever other buckets do in between; the delay told is that time, or exactly a second when less is left |
| `RateLimiter.AdmittedAtOnce` | internal/transport/http/auth_security.go:336-373 | only a refusal comes with a delay, and a path without a limit refuses nobody |
| `RateLimiter.SlackIsExact` | internal/transport/http/auth_security.go:388-390 | one instant more of lag and an eviction changes a decision, on every limited path of any rules: a concrete run |
| `LedgerRows.BlankIsTrimmedAway` | internal/domain/transactions/transaction.go:343-345 | an id is missing exactly when trimming leaves nothing |
| `LedgerDatabase.Database.UpdateTransaction` | internal/infra/postgres/transaction_repository.go:216-281 | the guarded update: not found, concurrent update, refusal or the rewritten row, creation date untouched |
| `LedgerDatabase.Database.DeleteTransaction` | internal/infra/postgres/transaction_repository.go:283-317 | the guarded delete refuses posted rows and changed stamps, and removes exactly one row |
| `LedgerDatabase.Database.InsertTransaction` | internal/infra/postgres/transaction_repository.go:26-88 | a row enters only under a fresh id and with accounts of its own user |
| `LedgerDatabase.Database.UpdateAccountRow` | internal/infra/postgres/account_repository.go:196-249 | the guarded account update leaves owner, currency, archive and creation dates as they are |
| `LedgerDatabase.Database.StampAccount` | internal/infra/postgres/account_repository.go:150-194 | archiving needs an active row, restoring any; neither touches the balance |
| `LedgerDatabase.Database.TransactionAccountDeltas` | internal/app/accounting/transactions.go:802-833 | the loop-free switch collects the deltas of the specification, errors included |
| `LedgerDatabase.Database.Negate` | internal/app/accounting/transactions.go:750-754 | every delta is negated once, in whatever order the map yields them |
| `LedgerDatabase.Database.AddDeltas` | internal/app/accounting/transactions.go:756-799 | the loop over sorted ids credits every account once and succeeds exactly when the user owns every account with a delta |
| `LedgerDatabase.Database.ApplyBalanceEffect` | internal/app/accounting/transactions.go:738-800 | the whole effect, positive or negative, is the settlement of the specification or its error |
| `LedgerDatabase.CollectedSettle` | internal/app/accounting/transactions.go:738-800 | adding the signed deltas account by account is settling the transaction at once |
| `LedgerServices.CreateTransaction` | internal/app/accounting/transactions.go:104-181 | creating does exactly what the specification says and a failure leaves both tables as they were |
| `LedgerServices.DuplicateTransaction` | internal/app/accounting/transactions.go:644-736 | the same for duplicating |
| `LedgerServices.PatchTransaction` | internal/app/accounting/transactions.go:298-423 | the same for patching; a patch that sets a status is refused |
| `LedgerServices.DeleteTransaction` | internal/app/accounting/transactions.go:446-475 | the same for deleting |
| `LedgerServices.PostTransaction` | internal/app/accounting/transactions.go:498-547 | the same for posting |
| `LedgerServices.CancelTransaction` | internal/app/accounting/transactions.go:570-618 | the same for cancelling |
| `LedgerServices.CreateTransactions` | internal/app/accounting/transactions_bulk.go:46-76 | bulk creation is the left fold of single creations, or the first failing index and error with the tables unchanged |
| `LedgerServices.PatchTransactions` | internal/app/accounting/transactions_bulk.go:101-181 | bulk patching is the left fold of patch and status step per item, repeated ids included, or the first failing index and error with the tables unchanged |
| `LedgerServices.CreateAccountRow` | internal/app/accounting/create_account.go:58-89 | an account starts with its initial balance, never a negative one, or nothing changes |
| `LedgerServices.UpdateAccountDetails` | internal/app/accounting/update_account.go:44-99 | the details change and the balance read is the balance written |
| `LedgerServices.ArchiveAccountRow` | internal/app/accounting/archive_account.go:30-55 | archiving is idempotent and touches one row |
| `LedgerServices.RestoreAccountRow` | internal/app/accounting/restore_account.go:30-52 | restoring is idempotent and touches one row |
| `LedgerInvariant.TotalWrite` | internal/app/accounting/transactions.go:738-833 | writing one row changes the sum of posted effects by the difference of its effects |
| `LedgerInvariant.CreateKeeps` | internal/app/accounting/transactions.go:122-181 | creating keeps every balance true, other users' rows, statuses moving forward, under a fresh id |
| `LedgerInvariant.DuplicateKeeps` | internal/app/accounting/transactions.go:644-736 | the same for duplicating |
| `LedgerInvariant.PatchedRowKeeps` | internal/app/accounting/transactions.go:330-414 | a patch never changes a status, nor the terms or the effect of a posted row |
| `LedgerInvariant.PatchInTxKeeps` | internal/app/accounting/transactions.go:322-423 | patching keeps every balance true |
| `LedgerInvariant.DeleteKeeps` | internal/app/accounting/transactions.go:446-475 | deleting keeps every balance true and never removes a posted row |
| `LedgerInvariant.PostKeeps` | internal/app/accounting/transactions.go:520-547 | posting a planned row adds its deltas once and keeps every balance true |
| `LedgerInvariant.CancelKeeps` | internal/app/accounting/transactions.go:592-618 | cancelling takes a posted row's deltas off again, a planned row's not at all |
| `LedgerOutcomes.PostOutcome` | internal/app/accounting/transactions.go:520-547 | posting succeeds exactly on a planned row of the user whose write is not refused; the row is posted now and keeps an occurrence date it has; every account ends with its balance plus the amount if the row is an income or a transfer to it, minus the amount if it is an expense, transfer, investment or saving from it, wrapped to int64, and keeps everything else |
| `LedgerOutcomes.CancelOutcome` | internal/app/accounting/transactions.go:592-618 | cancelling succeeds exactly on a planned or posted row of the user; of a posted one every account gives back what it received and gets back what it spent; of a planned one no account moves |
| `LedgerOutcomes.PostedTransferConserves` | internal/app/accounting/transactions.go:802-833 | a posted transfer leaves the sum of its two balances as it was modulo 2^64 and every other account untouched |
| `LedgerOutcomes.CreateOutcome` | internal/app/accounting/transactions.go:122-181 | exactly one row is what a creation asks for, field by field, and it is entered, and paid for if posted, exactly when it is well formed, its id is free, its accounts are its user's and the write is not refused |
| `LedgerOutcomes.DuplicateOutcome` | internal/app/accounting/transactions.go:644-736 | which fields come from the source row and which from the request, with both dates' fallbacks, and the same exact condition |
| `LedgerOutcomes.PatchOutcome` | internal/app/accounting/transactions.go:322-423 | a patched row has the value asked for in each field the patch sets and the old value in every other, is stamped now, and is the only row written; no account moves |
| `LedgerOutcomes.PatchSucceeds` | internal/app/accounting/transactions.go:330-414 | a patch succeeds exactly when the row is planned, or posted and only category, comment or occurrence date are set, the row asked for is well formed, its accounts are its user's and the write is not refused |
| `LedgerOutcomes.DeleteOutcome` | internal/app/accounting/transactions.go:446-475 | deleting succeeds exactly on a row of the user that is not posted, and takes that row only |
| `LedgerOutcomes.ItemOutcome` | internal/app/accounting/transactions_bulk.go:114-173 | a bulk item patches its row as asked and then posts it, cancels it or leaves its status, moving the accounts accordingly, exactly when the patch is acceptable and the status change allowed |
| `LedgerOutcomes.ValidIsWellFormed` | internal/domain/transactions/transaction.go:87-181 | validation accepts exactly the rows that have the accounts and the category their type needs and none that it must not have |
| `LedgerOutcomes.CreateAccountOutcome` | internal/app/accounting/create_account.go:58-89 | a new account has the fields asked for and its initial balance, exactly when that is not negative and name, type and id are good |
| `LedgerOutcomes.UpdateAccountOutcome` | internal/app/accounting/update_account.go:44-99 | an account update sets exactly the fields asked for and succeeds exactly on an account of the user with a good name and type |
| `LedgerOutcomes.ArchiveAccountOutcome` | internal/app/accounting/archive_account.go:30-55 | archiving stamps an active account of the user, restoring clears the stamp of an archived one, and nothing else changes |
| `LedgerRefusals.RefusalNamesTheRule` | internal/domain/transactions/transaction.go:87-181 | a row that is not well formed is refused with the first rule it breaks, in the order the rules are checked |
| `LedgerRefusals.CreateRefused` | internal/app/accounting/transactions.go:104-181 | a creation fails with the first broken rule, with account not found exactly when a posted row would move money on an account its user does not have, and with a refused write otherwise |
| `LedgerRefusals.DuplicateRefused` | internal/app/accounting/transactions.go:644-736 | the same for duplicating, or not found when the source is not the user's |
| `LedgerRefusals.PatchInTxRefused` | internal/app/accounting/transactions.go:322-423 | why a patch fails: not found, cancelled, posted terms, the first rule the row asked for breaks, or a refused write |
| `LedgerRefusals.ItemRefused` | internal/app/accounting/transactions_bulk.go:114-173 | why a bulk item fails: its patch, a status change that is not allowed, or the write of its status step |
| `LedgerRefusals.PostRefused` | internal/app/accounting/transactions.go:520-547 | posting fails only as not found, already posted, already cancelled or a refused write, in that order: in consistent tables paying never fails |
| `LedgerRefusals.CancelRefused` | internal/app/accounting/transactions.go:592-618 | the same for cancelling |
| `LedgerRefusals.DeleteRefused` | internal/app/accounting/transactions.go:446-475 | deleting fails only as not found, posted or a refused write |
| `LedgerRuns.CreateAccountKeeps` | internal/app/accounting/create_account.go:58-89 | a new account owes nothing to any transaction, so its balance is true |
| `LedgerRuns.UpdateAccountKeeps` | internal/app/accounting/update_account.go:44-99 | an account update carries the balance it read |
| `LedgerRuns.CreateBulkKeeps` | internal/app/accounting/transactions_bulk.go:46-76 | a bulk creation of any length keeps what one creation keeps |
| `LedgerRuns.PatchBulkKeeps` | internal/app/accounting/transactions_bulk.go:101-181 | a bulk patch of any length keeps what one item keeps |
| `LedgerRuns.BulkFailsFirst` | internal/app/accounting/transactions_bulk.go:58-73 | a batch fails with index i and error e if and only if the items before i go through one by one and item i fails with e |
| `LedgerRuns.ApplyKeeps` | internal/app/accounting/transactions.go:104-736 | every operation, successful or not, keeps balances true, other users' rows untouched and statuses moving forward |
| `LedgerRuns.ReachableBalance` | internal/app/accounting/transactions.go:738-833 | in every reachable state each balance is its initial balance plus the signed deltas of its owner's posted transactions modulo 2^64, and exactly as long as that sum is an int64 |
| `LedgerRuns.PostedTermsFrozen` | internal/app/accounting/transactions.go:334-345 | until it is cancelled a posted row keeps type, amount and accounts through any run, and still has them when cancelled |
| `LedgerRuns.OneRowAtATime` | internal/app/accounting/transactions.go:104-736 | every operation but a bulk one changes at most one transaction row, the one it names or creates |
| `LedgerRuns.OneRowMoves` | internal/app/accounting/transactions.go:738-800 | when one row changes, every balance moves by exactly the change of that row's effect modulo 2^64 |
| `LedgerRuns.CancelUndoesPost` | internal/app/accounting/transactions.go:592-618 | however a row became posted (created, duplicated, posted, or by an item of a bulk operation), cancelling it moves every balance by exactly the opposite, whatever ran in between and even when int64 wraps |
| `LedgerRuns.ItemByItem` | internal/app/accounting/transactions_bulk.go:46-181 | every run with bulk operations is a run of their items one by one that goes through the same states, so what holds of single operations holds of items |
| `LedgerStatements.CreditAlone` | internal/app/accounting/transactions.go:771-796 | reading an account and rewriting it under its guard adds the delta, or fails when the user does not own it |
| `LedgerStatements.EffectsAlone` | internal/app/accounting/transactions.go:738-800 | the statements of a balance effect, run alone, settle the transaction |
| `LedgerStatements.StepAlone` | internal/app/accounting/transactions.go:104-736 | the statements of each service step, run alone, do exactly what the step is specified to do, errors included |
| `LedgerPlans.PlanKeeps` | internal/infra/postgres/tx.go:20-43 | a database transaction of any number of steps keeps what each step keeps |
| `LedgerPlans.CommandAlone` | internal/app/accounting/transactions.go:104-736 | a request whose unguarded read is still true ends in the tables of the operation |
| `LedgerPlans.StaleItem` | internal/app/accounting/transactions_bulk.go:115-171 | from any tables, a bulk item whose steps go through on an observed status ends as the single-item step would, except exactly when the row was planned when observed, is posted now and the item asks for planned |
| `LedgerPlans.PatchesFold` | internal/app/accounting/transactions_bulk.go:114-173 | the steps of a bulk patch that goes through are the left fold of its single items, unless an item is stale, when that fold would fail |
| `LedgerPlans.CreatesFold` | internal/app/accounting/transactions_bulk.go:58-73 | the steps of a bulk creation are the left fold of its single creations |
| `LedgerConcurrency.GuardedCurrent` | internal/infra/postgres/transaction_repository.go:238-240 | a guarded write that passes its guard was computed from the very row it replaces |
| `LedgerConcurrency.AdvanceOk` | internal/infra/postgres/tx.go:20-43 | whatever a client does next, its view stays what its steps so far would produce alone from the committed tables |
| `LedgerConcurrency.InvAfter` | internal/infra/postgres/tx.go:20-43 | every event of every client keeps committed tables sound, locks disjoint and every client explained |
| `LedgerInterleavings.CommitsAreSerial` | internal/infra/postgres/tx.go:20-43 | every interleaving is serial: a commit changes the tables exactly as if the whole request ran at that moment alone, on what it had observed |
| `LedgerInterleavings.GuardedCommitsAreSequential` | internal/app/accounting/transactions.go:520-618 | a committed create, patch, delete, post, cancel, account creation or account update did exactly what the operation does when it runs alone |
| `LedgerInterleavings.BulkCreationsAreSequential` | internal/app/accounting/transactions_bulk.go:46-76 | a committed bulk creation is the left fold of its creations at the moment of the commit |
| `LedgerInterleavings.BulkPatchesAreSequential` | internal/app/accounting/transactions_bulk.go:101-181 | a committed bulk patch is the left fold of its items at the moment of the commit if and only if no item is stale; with a stale one the fold would have failed |
| `LedgerInterleavings.ObservedEarlier` | internal/app/accounting/transactions_bulk.go:115-124 | every unguarded read of a client was made at an earlier point of the run, in the tables the client saw then |
| `LedgerInterleavings.ObservedRow` | internal/app/accounting/transactions_bulk.go:115-124 | the row a bulk item observed was the committed one at that point, or the client's own uncommitted one |
| `LedgerStale.StaleItemGoesThrough` | internal/app/accounting/transactions_bulk.go:115-155 | a bulk item observes a planned row, another client posts it and commits, and the bulk commits although the item alone would be refused, with all stamps distinct: a concrete run |
| `LedgerInterleavings.CommittedBalances` | internal/app/accounting/transactions.go:738-833 | in every interleaving each committed balance is its initial balance plus the effects of committed posted transactions modulo 2^64, and exactly while that sum is an int64 |
| `LedgerInterleavings.CommitsKeep` | internal/infra/postgres/account_repository.go:196-249 | a commit touches its own user's rows only, loses no account and moves statuses forward |
| `LedgerInterleavings.NeverTwice` | internal/app/accounting/transactions.go:520-618 | no transaction is posted twice and none is cancelled twice, whatever the interleaving |
| `LedgerInterleavings.NothingLost` | internal/infra/postgres/account_repository.go:196-249 | no update is lost: each commit moves each balance by exactly the change of the posted effects it commits |
| `LedgerIds.InsertsNeverWait` | internal/infra/postgres/transaction_repository.go:26-88 | when no two requests of a run bring the same generated id, nobody ever waits in order to insert a row |
| `LedgerLocks.EffectsInOrder` | internal/app/accounting/transactions.go:756-764 | a balance effect reads and writes accounts in ascending id order |
| `LedgerLocks.OrderedAdvance` | internal/app/accounting/transactions.go:540-543 | a client whose request goes upward never wants a row before one it has locked |
| `LedgerLocks.NoWaitCycle` | internal/app/accounting/transactions.go:540-613 | requests that go upward never wait for each other in a cycle: single operations, and bulk ones whose items name ascending ids and of which only the last may write accounts |
| `LedgerLocks.SomeoneGoesOn` | internal/app/accounting/transactions.go:540-613 | while all requests under way go upward, one of them can always go on |
| `LedgerScenarios.BulksCanDeadlock` | internal/app/accounting/transactions_bulk.go:114-124 | two bulk patches that name the same two transactions in opposite orders can come to wait for each other, from any tables in which each patch would go through |
| `LedgerCrossing.DownwardCanDeadlock` | internal/app/accounting/transactions_bulk.go:114-124 | a bulk patch of two rows that does not go upward can come to wait in a cycle with one that does, so for patches without a status the condition is exact |
| `LedgerCrossing.CreationsCanDeadlock` | internal/app/accounting/transactions_bulk.go:58-73 | bulk creations that settle an item before their last can come to wait for each other |
| `LedgerScenarios.EqualStampsLoseAnUpdate` | internal/infra/postgres/account_repository.go:210-212 | when the first of two posts leaves the account with the stamp both have read, both commit and its credit is lost: a concrete run |
| `LedgerStamps.CommittedRowsNeedNoRepair` | internal/transport/http/transactions_handler.go:574-576 | with creations and duplications only as planned or posted and no income source set, no row any interleaving commits needs repair |
| `Keyset.PageFollows` | internal/ops/repair/transactions_format_job.go:219-280 | the page after the first n ids holds exactly the ids that follow them |
| `TransactionFormat.FirstNonNilTime` | internal/ops/repair/transactions_format_job.go:387-402 | the first present instant of a list |
| `TransactionFormat.FirstPresentIsLeftmost` | internal/ops/repair/transactions_format_job.go:387-402 | the leftmost present value, and nothing only when none is present |
| `TransactionFormat.BuildTransactionFormatPatch` | internal/ops/repair/transactions_format_job.go:282-332 | the assignments compute the patch that the row's status asks for |
| `TransactionFormat.PatchAligns` | internal/ops/repair/transactions_format_job.go:282-332 | a row gets a patch if and only if it is out of order, the patched row is in order, a second patch finds nothing, and stamps in order are left alone |
| `TransactionFormat.RepairedRow` | internal/ops/repair/transactions_format_job.go:282-370 | a repaired row field by field: a missing posting stamp becomes the occurrence date, else the last update; a missing cancellation stamp the last update; stamps its status must not have and reserved references go; all else stays but updatedAt |
| `RepairJob.Job.ApplyPatch` | internal/ops/repair/transactions_format_job.go:334-370 | the guarded update writes the row only if its stamp is the one read, whatever others did meanwhile |
| `RepairJob.Job.TreatRow` | internal/ops/repair/transactions_format_job.go:121-174 | one row updates the counters, the issues and the table in exactly one of five ways |
| `RepairJob.Job.Run` | internal/ops/repair/transactions_format_job.go:79-217 | the run terminates and is, for any page size, one pass over the first rows in id order up to the limit |
| `RepairJob.RunReport` | internal/ops/repair/transactions_format_job.go:121-174 | scanned is the visited rows and skipped plus those needing a fix, which are exactly the rows out of order, counted by stamps and by reserved references too, and, unless dry, repaired plus conflicts plus errors; issues stop at one hundred; a dry run changes nothing |
| `RepairJob.ObstaclesAreTold` | internal/ops/repair/transactions_format_job.go:121-174 | a real run counts the visited rows out of order whose statement fails as errors and those whose stamp someone has changed as conflicts, and its issues are the first hundred of them in id order with their reasons |
| `RepairJob.RowsAfter` | internal/ops/repair/transactions_format_job.go:151-173 | each visited row ends as its own treatment leaves it, conflicts and failures included, and all others as they were |
| `RepairJob.SecondRunFindsNothing` | internal/ops/repair/transactions_format_job.go:79-217 | after an unlimited real run without a failed statement, whose concurrent writers leave rows in order with new stamps, a second run finds nothing |
| `VerificationJob.TakeRow` | internal/ops/repair/transactions_verification_job.go:265-351 | one row updates every aggregate, counter and sample as specified |
| `VerificationJob.CollectSnapshot` | internal/ops/repair/transactions_verification_job.go:223-356 | the snapshot does not depend on the page size |
| `VerificationJob.StockIsExact` | internal/ops/repair/transactions_verification_job.go:265-351 | every counter is the number of visited rows showing its code, or with a blank status, type or currency, every sample their first ids, every map the count or wrapped sum of exactly the occurring keys, and repairs plus aligned rows are all rows |
| `VerificationJob.ChecksAgree` | internal/ops/repair/transactions_verification_job.go:305-346 | no row needs repair if and only if the six separately written counters are all zero |
| `VerificationJob.UnionKeys` | internal/ops/repair/transactions_verification_job.go:622-636 | the sorted union of both key sets, whatever the map order |
| `VerificationJob.AppendMapDiffs` | internal/ops/repair/transactions_verification_job.go:595-620 | the loop appends the entries of the differing keys |
| `VerificationJob.CompareSnapshots` | internal/ops/repair/transactions_verification_job.go:527-593 | the entries of the two totals and the three maps, in order |
| `VerificationJob.DiffsAreExact` | internal/ops/repair/transactions_verification_job.go:595-636 | one entry per key that differs with missing keys read as zero, keys ascending, and nothing else |
| `VerificationJob.ComparisonEmpty` | internal/ops/repair/transactions_verification_job.go:527-593 | the comparison is empty if and only if all compared figures agree with missing keys read as zero |
| `VerificationJob.WhatIsReported` | internal/ops/repair/transactions_verification_job.go:527-620 | an entry is in the comparison if and only if it is one of the two totals or a key of one of the three maps whose figures differ, with its code, severity and both figures |
| `Catalog.Database.Archive` | internal/app/catalog/category_management.go:298-335 | archiving takes the active subcategories along, or fails and changes nothing |
| `Catalog.Database.Restore` | internal/app/catalog/category_management.go:367-413 | restoring revives the subcategories with the category's own archive date, or fails and changes nothing |
| `Catalog.Database.RestoreByCategory` | internal/infra/postgres/subcategory_repository.go:313-342 | the set-wide update goes through as a whole or is refused as a whole by the unique index |
| `Catalog.Database.AddSubcategory` | internal/app/catalog/subcategory_management.go:58-96 | a subcategory enters only under an active category of its user |
| `Catalog.Database.ArchiveOne` | internal/app/catalog/subcategory_management.go:243-262 | archiving one subcategory is idempotent |
| `Catalog.Database.RestoreOne` | internal/app/catalog/subcategory_management.go:287-320 | a subcategory is restored only under an active category of its user |
| `Catalog.ReachableGood` | internal/infra/postgres/subcategory_repository.go:25-342 | in every reachable state no active subcategory is under an archived category and active names are unique |
| `Catalog.StaysFrozen` | internal/infra/postgres/subcategory_repository.go:246-284 | while a category stays archived, nothing about the archiving of its subcategories changes |
| `Catalog.ArchiveThenRestore` | internal/app/catalog/category_management.go:298-413 | whatever runs in between, a restore fails and changes nothing or leaves active exactly what was active before the archive and what had been archived at that very instant |
| `Catalog.BringsBackIff` | internal/app/catalog/category_management.go:390-397 | the restore brings back exactly what was active if and only if nothing had been archived at the instant of the archive |
| `Catalog.RestoreBringsBack` | internal/app/catalog/category_management.go:298-413 | with an advancing clock the restore brings back exactly the subcategories active before, or fails and changes nothing |
| `Catalog.SameInstantRevives` | internal/infra/postgres/subcategory_repository.go:324-331 | with one instant shown twice a subcategory archived on its own is revived: a concrete run |
| `CatalogOutcomes.CreateCategoryOutcome` | internal/app/catalog/category_management.go:53-78 | a category is entered with exactly the fields asked for, texts trimmed and sort order 100 unless given, exactly when name, type and color are good and no active category of the user has its folded name |
| `CatalogOutcomes.UpdateCategoryOutcome` | internal/app/catalog/category_management.go:196-247 | an update sets exactly the fields asked for, exactly when the result is good and its name free or the category archived |
| `CatalogOutcomes.CreateSubcategoryOutcome` | internal/app/catalog/subcategory_management.go:58-96 | the same for creating a subcategory, under an active category of the user |
| `CatalogOutcomes.UpdateSubcategoryOutcome` | internal/app/catalog/subcategory_management.go:176-221 | the same for updating one |
| `CatalogOutcomes.ArchiveCategoryOutcome` | internal/app/catalog/category_management.go:298-335 | archiving succeeds exactly on a category of the user; archive date and update stamp of it and of its active subcategories become now, and no other field and no other row changes |
| `CatalogOutcomes.RestoreCategoryOutcome` | internal/app/catalog/category_management.go:367-413 | restoring succeeds exactly when the category is active already or its name and the names of all subcategories then active stay different; it clears the archive dates that equal the category's and changes nothing else |
| `CatalogOutcomes.SubcategoryArchiveOutcome` | internal/app/catalog/subcategory_management.go:243-320 | archiving or restoring one subcategory marks that row only; restoring succeeds exactly under an active category and with its name free |
| `Tokens.AuthStore.Consume` | internal/app/identity/post_mvp.go:204-294 | resetting a password or verifying an email consumes one active token: it is used now, the user has the new hash and no session that still held, or a verified email, and nothing else changes; or it fails and changes nothing |
| `Tokens.AuthStore.RevokeAllByUserID` | internal/infra/postgres/auth_repositories.go:503-518 | exactly the user's unrevoked, unexpired sessions are revoked |
| `Tokens.AuthStore.MarkUsed` | internal/infra/postgres/auth_repositories.go:626-645 | a token is marked only while unused and unexpired |
| `Tokens.AuthStore.FindActiveByHash` | internal/infra/postgres/auth_repositories.go:560-624 | an unused, unexpired token of the purpose and hash, or none when there is none |
| `Tokens.InvHappens` | internal/app/identity/post_mvp.go:204-235 | every event keeps held rows disjoint and tied to the committed ones |
| `Tokens.AtMostOneCommit` | internal/infra/postgres/auth_repositories.go:626-645 | over every interleaving at most one attempt commits per token |
| `Tokens.CommitWrites` | internal/app/identity/post_mvp.go:204-235 | a commit writes the user, the sessions it revoked and the token, and nothing else; no other event of an attempt writes, so one that does not commit leaves password, sessions and tokens unchanged |
| `Tokens.CommitServes` | internal/app/identity/post_mvp.go:204-294 | in every interleaving a commit marks the token of the hash and purpose its attempt was begun with as used; a reset leaves the token's user with exactly the hash begun with and the verification as it was, a verification with the email verified and the same hash, stamped at the attempt's instant, and every other user as before |
| `Tokens.AloneConsumes` | internal/app/identity/post_mvp.go:204-294 | the statements of an attempt, run on one store, commit exactly what the service does on that store |
| `Tokens.WhoIsAccepted` | internal/app/identity/access_auth.go:43-76 | a request passes exactly for an existing user with a session of its own that is neither revoked nor expired |
| `Tokens.LoggedOutForGood` | internal/infra/postgres/auth_repositories.go:483-501 | from a logout on its session is never accepted again |
| `Tokens.AllLoggedOutForGood` | internal/infra/postgres/auth_repositories.go:503-518 | from a logout everywhere on no session the user had is accepted again |
| `Tokens.ResetHasRevoked` | internal/app/identity/post_mvp.go:215-232 | every committed reset ran its revoking statement before |
| `Tokens.RevokedForGood` | internal/infra/postgres/auth_repositories.go:503-518 | a session of the user that is committed when the reset's revoking statement runs is never acceptable again after its commit, under a clock that never runs backwards |
| `Tokens.NeverAccepted` | internal/app/identity/access_auth.go:65-73 | neither the request check nor a refresh ever accepts such a session |
| `Tokens.SurvivorsExactly` | internal/app/identity/post_mvp.go:215-232 | just after the commit a session is accepted if and only if it was just before and is not one its user had when the revoking statement ran |
| `Tokens.LoginSlipsThrough` | internal/app/identity/post_mvp.go:223-227 | a session created between the revoking statement and the commit survives the reset: a concrete run |
| `AccountList.StrictTotalOrder` | internal/app/accounting/list_accounts.go:55-91 | each sort mode is a strict total order on accounts with different ids |
| `AccountList.WhoComesFirst` | internal/app/accounting/list_accounts.go:55-91 | the newest account first, the first name, or the greatest balance; the lesser id first among equals |
| `AccountList.WhatIsListed` | internal/app/accounting/list_accounts.go:33-54 | the list keeps exactly the accounts of the type and of the currency asked for, each as often as it came |
| `AccountList.ListByUser` | internal/app/accounting/list_accounts.go:33-94 | the list is the wanted accounts, in the order of its mode |
| `AccountList.OrderIsUnique` | internal/app/accounting/list_accounts.go:55-91 | there is only one way to put given accounts in order |
| `AccountList.ListIsUnique` | internal/app/accounting/list_accounts.go:33-94 | the list does not depend on the order in which the rows arrive |
| `AccountList.Paginate` | internal/transport/http/catalog_contract.go:109-121 | a page is the stretch of at most limit items at its offset, short only at the end |
| `AccountList.PagesRebuild` | internal/transport/http/catalog_contract.go:109-121 | consecutive pages of any positive size rebuild the list, nothing lost and nothing repeated |

## Left out

- HTTP handlers, generated API code, routing, middleware and error envelopes: flat mappings. Only what they admit (statuses on creation, no income source) is used.
- SQL text, drivers and migrations: each statement is modelled as a step on one row, or on a set of rows for the cascades. Waiting on unique indexes and key-share locks of foreign keys are not modelled; accounts are never deleted and their keys never change, so the latter block nothing.
- Refusals by unique names and by category and subcategory references of the ledger are a parameter of each call (`refused`), not derived from the tables.
- The field name that a bulk error carries besides its index and cause, and wrapping texts of errors.
- Canonical spelling of UUIDs: ids are strings compared as such, which is the order of their canonical text.
- Which of two different blank names, currencies or comments was given: only what the code keeps after trimming.
- Reading a row back that the domain constructors would reject (it makes the read fail in the program): stored rows are kept as the constructors build them, which every operation preserves.
- Statement errors of the ledger other than refusals (a lost connection, a failed commit): they end in a rollback, which the interleavings allow at any point.
- A run in which a bulk patch that posts or cancels before its last item waits in a cycle: that the condition on accounts is needed is shown for creations.
- Overflow of counters in the jobs and of the attempt counter of the limiter: they are unbounded here.
- Row deletions by others while the repair or verification job runs, and rows inserted meanwhile; rewriting by others between the read and the update of a row is modelled.
- Reports, logs, markdown, files, configuration and the final sorting of discrepancies by severity.
- Password hashing, access-token signing, email and the checks on the shape of a new password: library calls before the transaction begins.
- The row a catalog service returns besides what it leaves in the tables, and listing categories.
- Concurrent catalog calls: each service call is one step, as its transaction makes it for its own rows.
- The library's sort is modelled by an insertion sort with the same result, which is unique.
- Account summaries, enum parsers, getters and the empty contexts (budgeting, debts, goals, investments, members, recurrence, reporting).
