/** The ledger services as the statements they send, and what a service does when it runs alone. */
module LedgerStatements {
  import opened Prelude
  import opened LedgerRows
  import opened LedgerSpec
  import opened LedgerInvariant
  import opened LedgerDatabase
  import Strings

  // ---- Statements ---------------------------------------------------------

  /** What a service does with an account it has read. */
  datatype AccountUse = ToCredit(delta: Int64, at: Time) | ToRewrite(patch: AccountPatch, env: Env)

  /** What a service does with a transaction it has read. */
  datatype TransactionUse = ToPatch(p: PatchInput, env: Env) | ToPost(env: Env) | ToCancel(env: Env) | ToDelete(refused: bool)

  /** One statement on one row; a guarded write carries the row it was computed from. */
  datatype Statement =
    | WriteTransaction(seen: Transaction, next: Transaction, refused: bool)
    | DeleteTransaction(seen: Transaction, refused: bool)
    | InsertTransaction(next: Transaction, refused: bool)
    | ReadAccount(user: Id, account: Id, use: AccountUse)
    | WriteAccount(was: Account, become: Account, refused: bool)
    | InsertAccount(become: Account, refused: bool)
    | StampAccount(user: Id, account: Id, archivedAt: Option<Time>, at: Time, refused: bool)

  /** The row a statement is about. */
  datatype Key = TransactionKey(id: Id) | AccountKey(id: Id)

  function KeyOf(s: Statement): Key {
    match s
    case WriteTransaction(_, next, _) => TransactionKey(next.id)
    case DeleteTransaction(seen, _) => TransactionKey(seen.id)
    case InsertTransaction(next, _) => TransactionKey(next.id)
    case ReadAccount(_, account, _) => AccountKey(account)
    case WriteAccount(_, become, _) => AccountKey(become.id)
    case InsertAccount(become, _) => AccountKey(become.id)
    case StampAccount(_, account, _, _, _) => AccountKey(account)
  }

  predicate OnTransaction(s: Statement) {
    s.WriteTransaction? || s.DeleteTransaction? || s.InsertTransaction?
  }

  function Row(db: Db, id: Id): Option<Transaction> {
    if id in db.transactions then Some(db.transactions[id]) else None
  }

  function AccountRow(db: Db, id: Id): Option<Account> {
    if id in db.accounts then Some(db.accounts[id]) else None
  }

  function SetRow(db: Db, id: Id, row: Option<Transaction>): Db {
    db.(transactions := if row.Some? then db.transactions[id := row.value] else db.transactions - {id})
  }

  predicate Referable(db: Db, s: Statement)
    requires OnTransaction(s)
  {
    s.DeleteTransaction? || References(db, s.next)
  }

  /** What a statement makes of the transaction row it is about, given that row and whether the references hold. */
  function NextRow(current: Option<Transaction>, s: Statement, referable: bool): Result<Option<Transaction>, LedgerError>
    requires OnTransaction(s)
  {
    match s
    case WriteTransaction(seen, next, refused) =>
      if current.None? || current.value.user != next.user then Failure(TransactionNotFound)
      else if current.value.updatedAt != seen.updatedAt then Failure(ConcurrentTransactionUpdate)
      else if refused || !referable then Failure(WriteRefused)
      else Success(Some(next.(createdAt := current.value.createdAt)))
    case DeleteTransaction(seen, refused) =>
      if current.None? || current.value.user != seen.user then Failure(TransactionNotFound)
      else if current.value.status == Posted then Failure(PostedDeleteConflict)
      else if current.value.updatedAt != seen.updatedAt then Failure(ConcurrentTransactionUpdate)
      else if refused then Failure(WriteRefused)
      else Success(None)
    case InsertTransaction(next, refused) =>
      if refused || current.Some? || !referable then Failure(WriteRefused) else Success(Some(next))
  }

  /** What a writing statement makes of the account it is about. */
  function NextAccount(current: Option<Account>, s: Statement): Result<Account, LedgerError>
    requires !OnTransaction(s) && !s.ReadAccount?
  {
    match s
    case WriteAccount(was, become, refused) =>
      if current.None? || current.value.user != become.user then Failure(AccountNotFound)
      else if current.value.updatedAt != was.updatedAt then Failure(ConcurrentAccountUpdate)
      else if refused then Failure(WriteRefused)
      else Success(Rewritten(current.value, become))
    case InsertAccount(become, refused) =>
      if refused || current.Some? || Blank(become.id) then Failure(WriteRefused) else Success(become)
    case StampAccount(user, _, archivedAt, at, refused) =>
      if current.None? || current.value.user != user || (archivedAt.Some? && current.value.archivedAt.Some?) then Failure(AccountNotFound)
      else if refused then Failure(WriteRefused)
      else Success(current.value.(archivedAt := archivedAt, updatedAt := at))
  }

  /** The guarded write that follows the reading of an account. */
  function UseAccount(a: Account, use: AccountUse): (r: Result<Statement, LedgerError>)
    ensures r.Success? ==> r.value.WriteAccount? && r.value.was == a && r.value.become.id == a.id
  {
    match use
    case ToCredit(delta, at) =>
      (match NewAccount(a.(balance := a.balance.(minor := Wrap64(a.balance.minor + delta)), updatedAt := at))
       case Failure(e) => Failure(e)
       case Success(b) => Success(WriteAccount(a, b, false)))
    case ToRewrite(p, env) =>
      match PatchedAccount(a, p, env.now)
      case Failure(e) => Failure(e)
      case Success(b) => Success(WriteAccount(a, b, env.refused))
  }

  /** The tables after a statement, and the statement that a read leaves to do. */
  datatype Acted = Acted(db: Db, todo: seq<Statement>)

  function Act(db: Db, s: Statement): (r: Result<Acted, LedgerError>)
    ensures r.Success? ==> |r.value.todo| <= (if s.ReadAccount? then 1 else 0)
    ensures r.Success? && r.value.todo != [] ==> r.value.todo[0].WriteAccount?
  {
    if OnTransaction(s) then
      match NextRow(Row(db, KeyOf(s).id), s, Referable(db, s))
      case Failure(e) => Failure(e)
      case Success(row) => Success(Acted(SetRow(db, KeyOf(s).id, row), []))
    else if s.ReadAccount? then
      if !OwnsAccount(db, s.user, s.account) then Failure(AccountNotFound)
      else
        match UseAccount(db.accounts[s.account], s.use)
        case Failure(e) => Failure(e)
        case Success(w) => Success(Acted(db, [w]))
    else
      match NextAccount(AccountRow(db, KeyOf(s).id), s)
      case Failure(e) => Failure(e)
      case Success(a) => Success(Acted(db.(accounts := db.accounts[KeyOf(s).id := a]), []))
  }

  /** Statements one after the other, with nobody else at work. */
  function Finish(db: Db, ss: seq<Statement>): Result<Db, LedgerError>
    decreases |ss|, if ss != [] && ss[0].ReadAccount? then 1 else 0
  {
    if ss == [] then Success(db) else
      match Act(db, ss[0])
      case Failure(e) => Failure(e)
      case Success(acted) => Finish(acted.db, acted.todo + ss[1..])
  }

  // ---- Services -----------------------------------------------------------

  /** The collected deltas of a transaction, negated for a negative sign. */
  function SignedDeltas(deltas: map<Id, Int64>, sign: int): map<Id, Int64> {
    if sign < 0 then map a | a in deltas :: Negated(deltas[a]) else deltas
  }

  /** Reads of the accounts to credit, in the order given; an account without a delta is skipped. */
  function Adjustments(user: Id, deltas: map<Id, Int64>, ids: seq<Id>, at: Time): (ss: seq<Statement>)
    requires forall i | 0 <= i < |ids| :: ids[i] in deltas
    ensures forall k | 0 <= k < |ss| :: ss[k].ReadAccount?
  {
    if ids == [] then [] else
      (if deltas[ids[0]] == 0 then [] else [ReadAccount(user, ids[0], ToCredit(deltas[ids[0]], at))])
      + Adjustments(user, deltas, ids[1..], at)
  }

  /** The statements that apply a transaction's balance effect. */
  function Effects(user: Id, t: Transaction, sign: int, at: Time): (r: Result<seq<Statement>, LedgerError>)
    ensures r.Success? ==> forall k | 0 <= k < |r.value| :: r.value[k].ReadAccount?
  {
    match Deltas(t)
    case Failure(e) => Failure(e)
    case Success(collected) =>
      var deltas := SignedDeltas(collected, sign);
      var ids := Strings.SortedSeq(deltas.Keys);
      Strings.SortedSeqElements(deltas.Keys);
      Success(Adjustments(user, deltas, ids, at))
  }

  /** One step of a service on the ledger: a single read-compute-write, or a write computed beforehand. */
  datatype Step =
    | EnterStep(t: Transaction, env: Env)
    | PatchStep(p: PatchInput, env: Env)
    | PostStep(user: Id, id: Id, env: Env)
    | CancelStep(user: Id, id: Id, env: Env)
    | DeleteStep(user: Id, id: Id, refused: bool)
    | InsertAccountStep(a: Account, refused: bool)
    | PatchAccountStep(patch: AccountPatch, env: Env)
    | StampStep(user: Id, id: Id, archivedAt: Option<Time>, at: Time, refused: bool)
    | RaiseStep(e: LedgerError)

  /** Where a step is: about to read a transaction, with statements to do, or failed. */
  datatype Progress =
    | Reading(user: Id, id: Id, use: TransactionUse)
    | Doing(statements: seq<Statement>)
    | Failed(e: LedgerError)

  function Begun(step: Step): Progress {
    match step
    case EnterStep(t, env) =>
      if t.status != Posted then Doing([InsertTransaction(t, env.refused)]) else
        (match Effects(t.user, t, 1, env.now)
         case Failure(e) => Failed(e)
         case Success(adjusts) => Doing(adjusts + [InsertTransaction(t, env.refused)]))
    case PatchStep(p, env) => Reading(p.user, p.id, ToPatch(p, env))
    case PostStep(user, id, env) => Reading(user, id, ToPost(env))
    case CancelStep(user, id, env) => Reading(user, id, ToCancel(env))
    case DeleteStep(user, id, refused) => Reading(user, id, ToDelete(refused))
    case InsertAccountStep(a, refused) => Doing([InsertAccount(a, refused)])
    case PatchAccountStep(p, env) => Doing([ReadAccount(p.user, p.id, ToRewrite(p, env))])
    case StampStep(user, id, archivedAt, at, refused) => Doing([StampAccount(user, id, archivedAt, at, refused)])
    case RaiseStep(e) => Failed(e)
  }

  /** What a service sends after reading a transaction: the guarded write of that row first, then any balance effect. */
  function UseTransaction(t: Transaction, user: Id, use: TransactionUse): (r: Result<seq<Statement>, LedgerError>)
    ensures r.Success? ==> r.value != [] && (r.value[0].WriteTransaction? || r.value[0].DeleteTransaction?) && r.value[0].seen == t
    ensures r.Success? ==> KeyOf(r.value[0]) == TransactionKey(t.id) && forall k | 0 < k < |r.value| :: r.value[k].ReadAccount?
  {
    match use
    case ToPatch(p, env) =>
      (match PatchedRow(t, p, env.now)
       case Failure(e) => Failure(e)
       case Success(next) => Success([WriteTransaction(t, next, env.refused)]))
    case ToPost(env) =>
      (match PostedRow(t, env.now)
       case Failure(e) => Failure(e)
       case Success(next) =>
         match Effects(user, next, 1, env.now)
         case Failure(e) => Failure(e)
         case Success(adjusts) => Success([WriteTransaction(t, next, env.refused)] + adjusts))
    case ToCancel(env) =>
      (match CancelledRow(t, env.now)
       case Failure(e) => Failure(e)
       case Success(next) =>
         if t.status != Posted then Success([WriteTransaction(t, next, env.refused)]) else
           match Effects(user, t, -1, env.now)
           case Failure(e) => Failure(e)
           case Success(adjusts) => Success([WriteTransaction(t, next, env.refused)] + adjusts))
    case ToDelete(refused) =>
      if t.status == Posted then Failure(PostedDeleteConflict) else Success([DeleteTransaction(t, refused)])
  }

  /** The rest of a step with nobody else at work. */
  function Rest(db: Db, p: Progress): Result<Db, LedgerError> {
    match p
    case Failed(e) => Failure(e)
    case Doing(ss) => Finish(db, ss)
    case Reading(user, id, use) =>
      if !OwnsTransaction(db, user, id) then Failure(TransactionNotFound) else
        match UseTransaction(db.transactions[id], user, use)
        case Failure(e) => Failure(e)
        case Success(ss) => Finish(db, ss)
  }

  // ---- What a step does as a whole ----------------------------------------

  function TablesOf(o: Outcome): Result<Db, LedgerError> {
    match o
    case Success(done) => Success(done.db)
    case Failure(e) => Failure(e)
  }

  function AccountTablesOf(o: AccountOutcome): Result<Db, LedgerError> {
    match o
    case Success(done) => Success(done.db)
    case Failure(e) => Failure(e)
  }

  function InsertRow(db: Db, a: Account, refused: bool): Result<Db, LedgerError> {
    if refused || a.id in db.accounts || Blank(a.id) then Failure(WriteRefused)
    else Success(db.(accounts := db.accounts[a.id := a]))
  }

  function Stamp(db: Db, user: Id, id: Id, archivedAt: Option<Time>, at: Time, refused: bool): Result<Db, LedgerError> {
    if !OwnsAccount(db, user, id) || (archivedAt.Some? && db.accounts[id].archivedAt.Some?) then Failure(AccountNotFound)
    else if refused then Failure(WriteRefused)
    else Success(db.(accounts := db.accounts[id := db.accounts[id].(archivedAt := archivedAt, updatedAt := at)]))
  }

  function Perform(db: Db, step: Step): Result<Db, LedgerError> {
    match step
    case EnterStep(t, env) => TablesOf(Enter(db, t, env))
    case PatchStep(p, env) => TablesOf(PatchInTx(db, p, env))
    case PostStep(user, id, env) => TablesOf(Post(db, user, id, env))
    case CancelStep(user, id, env) => TablesOf(Cancel(db, user, id, env))
    case DeleteStep(user, id, refused) => TablesOf(Delete(db, user, id, refused))
    case InsertAccountStep(a, refused) => InsertRow(db, a, refused)
    case PatchAccountStep(p, env) => AccountTablesOf(UpdateAccount(db, p, env))
    case StampStep(user, id, archivedAt, at, refused) => Stamp(db, user, id, archivedAt, at, refused)
    case RaiseStep(e) => Failure(e)
  }

  // ---- A step alone does what its specification says ----------------------

  ghost predicate Distinct(ids: seq<Id>) {
    forall i, j | 0 <= i < j < |ids| :: ids[i] != ids[j]
  }

  function Elements(ids: seq<Id>): set<Id> {
    set a | a in ids
  }

  lemma FinishFirst(db: Db, s: Statement, tail: seq<Statement>)
    ensures Act(db, s).Failure? ==> Finish(db, [s] + tail) == Failure(Act(db, s).error)
    ensures Act(db, s).Success? ==> Finish(db, [s] + tail) == Finish(Act(db, s).value.db, Act(db, s).value.todo + tail)
  {
    assert ([s] + tail)[0] == s && ([s] + tail)[1..] == tail;
  }

  lemma CreditBuilt(a: Account, delta: Int64, at: Time)
    requires StoredAccount(a)
    ensures UseAccount(a, ToCredit(delta, at)) == Success(WriteAccount(a, Credited(a, delta, at), false))
    ensures NextAccount(Some(a), WriteAccount(a, Credited(a, delta, at), false)) == Success(Credited(a, delta, at))
  {
    CreditedStored(a, delta, at);
  }

  /** Adding one delta to an owned account: its read and its guarded write, alone. */
  lemma CreditAlone(db: Db, user: Id, a: Id, delta: Int64, at: Time, tail: seq<Statement>)
    requires a in db.accounts ==> db.accounts[a].id == a && StoredAccount(db.accounts[a])
    ensures Finish(db, [ReadAccount(user, a, ToCredit(delta, at))] + tail) ==
            if Owns(db.accounts, user, a)
            then Finish(db.(accounts := db.accounts[a := Credited(db.accounts[a], delta, at)]), tail)
            else Failure(AccountNotFound)
  {
    FinishFirst(db, ReadAccount(user, a, ToCredit(delta, at)), tail);
    if Owns(db.accounts, user, a) {
      var w := WriteAccount(db.accounts[a], Credited(db.accounts[a], delta, at), false);
      CreditBuilt(db.accounts[a], delta, at);
      FinishFirst(db, w, tail);
      assert [] + tail == tail;
    }
  }

  predicate AllOwned(accounts: map<Id, Account>, user: Id, deltas: map<Id, Int64>, ids: set<Id>) {
    forall a | a in ids && a in deltas && deltas[a] != 0 :: Owns(accounts, user, a)
  }

  /** All the deltas of owned accounts at once, then the statements that follow. */
  function FinishAdded(db: Db, user: Id, deltas: map<Id, Int64>, ids: set<Id>, at: Time, tail: seq<Statement>): Result<Db, LedgerError> {
    if AllOwned(db.accounts, user, deltas, ids) then Finish(db.(accounts := Added(db.accounts, deltas, ids, at)), tail)
    else Failure(AccountNotFound)
  }

  lemma {:induction false} AdjustmentsAlone(db: Db, user: Id, deltas: map<Id, Int64>, ids: seq<Id>, at: Time, tail: seq<Statement>)
    requires StoredAccounts(db.accounts) && Distinct(ids)
    requires forall i | 0 <= i < |ids| :: ids[i] in deltas
    ensures Finish(db, Adjustments(user, deltas, ids, at) + tail) == FinishAdded(db, user, deltas, Elements(ids), at, tail)
    decreases |ids|
  {
    if ids == [] {
      assert Adjustments(user, deltas, ids, at) + tail == tail;
      assert Added(db.accounts, deltas, Elements(ids), at) == db.accounts;
    } else {
      ElementsOf(ids);
      FirstAdjustment(user, deltas, ids, at, tail);
      if deltas[ids[0]] == 0 {
        AdjustmentsAlone(db, user, deltas, ids[1..], at, tail);
        AddedNothing(db.accounts, deltas, Elements(ids[1..]), ids[0], user, at);
      } else {
        CreditAlone(db, user, ids[0], deltas[ids[0]], at, Adjustments(user, deltas, ids[1..], at) + tail);
        if Owns(db.accounts, user, ids[0]) {
          var next := db.(accounts := db.accounts[ids[0] := Credited(db.accounts[ids[0]], deltas[ids[0]], at)]);
          AddedOne(db.accounts, deltas, Elements(ids[1..]), ids[0], user, at);
          AdjustmentsAlone(next, user, deltas, ids[1..], at, tail);
          FinishAddedOne(db, next, user, deltas, Elements(ids[1..]), ids[0], at, tail);
        } else {
          assert !AllOwned(db.accounts, user, deltas, Elements(ids));
        }
      }
    }
  }

  lemma FinishAddedOne(db: Db, next: Db, user: Id, deltas: map<Id, Int64>, others: set<Id>, a: Id, at: Time, tail: seq<Statement>)
    requires next.transactions == db.transactions
    requires Added(db.accounts, deltas, {a} + others, at) == Added(next.accounts, deltas, others, at)
    requires AllOwned(db.accounts, user, deltas, {a} + others) == AllOwned(next.accounts, user, deltas, others)
    ensures FinishAdded(db, user, deltas, {a} + others, at, tail) == FinishAdded(next, user, deltas, others, at, tail)
  {
  }

  lemma FirstAdjustment(user: Id, deltas: map<Id, Int64>, ids: seq<Id>, at: Time, tail: seq<Statement>)
    requires ids != [] && forall i | 0 <= i < |ids| :: ids[i] in deltas
    ensures var later := Adjustments(user, deltas, ids[1..], at) + tail;
            Adjustments(user, deltas, ids, at) + tail ==
            if deltas[ids[0]] == 0 then later else [ReadAccount(user, ids[0], ToCredit(deltas[ids[0]], at))] + later
  {
  }

  lemma AddedNothing(accounts: map<Id, Account>, deltas: map<Id, Int64>, others: set<Id>, a: Id, user: Id, at: Time)
    requires a in deltas && deltas[a] == 0
    ensures Added(accounts, deltas, {a} + others, at) == Added(accounts, deltas, others, at)
    ensures AllOwned(accounts, user, deltas, {a} + others) == AllOwned(accounts, user, deltas, others)
  {
  }

  lemma AddedOne(accounts: map<Id, Account>, deltas: map<Id, Int64>, others: set<Id>, a: Id, user: Id, at: Time)
    requires a in deltas && deltas[a] != 0 && a !in others && Owns(accounts, user, a) && StoredAccounts(accounts)
    ensures var next := accounts[a := Credited(accounts[a], deltas[a], at)];
            StoredAccounts(next)
            && Added(accounts, deltas, {a} + others, at) == Added(next, deltas, others, at)
            && AllOwned(accounts, user, deltas, {a} + others) == AllOwned(next, user, deltas, others)
  {
    var next := accounts[a := Credited(accounts[a], deltas[a], at)];
    CreditedStored(accounts[a], deltas[a], at);
    SameAdded(accounts, next, deltas, others, a, at);
    SameOwned(accounts, next, deltas, others, a, user);
  }

  lemma SameAdded(accounts: map<Id, Account>, next: map<Id, Account>, deltas: map<Id, Int64>, others: set<Id>, a: Id, at: Time)
    requires a in deltas && deltas[a] != 0 && a !in others && a in accounts
    requires next == accounts[a := Credited(accounts[a], deltas[a], at)]
    ensures Added(accounts, deltas, {a} + others, at) == Added(next, deltas, others, at)
  {
    var left, right := Added(accounts, deltas, {a} + others, at), Added(next, deltas, others, at);
    assert left.Keys == right.Keys;
    forall k | k in left ensures left[k] == right[k] {
      if k != a {
        assert k in {a} + others <==> k in others;
      }
    }
  }

  lemma SameOwned(accounts: map<Id, Account>, next: map<Id, Account>, deltas: map<Id, Int64>, others: set<Id>, a: Id, user: Id)
    requires a in deltas && deltas[a] != 0 && Owns(accounts, user, a)
    requires next.Keys == accounts.Keys && forall k | k in accounts :: next[k].user == accounts[k].user
    ensures AllOwned(accounts, user, deltas, {a} + others) == AllOwned(next, user, deltas, others)
  {
  }

  lemma ElementsOf(ids: seq<Id>)
    requires ids != [] && Distinct(ids)
    ensures Elements(ids) == {ids[0]} + Elements(ids[1..]) && ids[0] !in Elements(ids[1..])
  {
    assert ids == [ids[0]] + ids[1..];
  }

  /** Applying a balance effect, alone. */
  lemma EffectsAlone(db: Db, user: Id, t: Transaction, sign: int, at: Time, tail: seq<Statement>)
    requires StoredAccounts(db.accounts) && ValidRow(t)
    ensures Effects(user, t, sign, at).Success?
    ensures var adjusts := Effects(user, t, sign, at).value;
            var settled := Settle(db, user, t, sign, at);
            && (settled.Failure? ==> Finish(db, adjusts + tail) == Failure(settled.error))
            && (settled.Success? ==> Finish(db, adjusts + tail) == Finish(settled.value, tail))
  {
    SignedCollected(t, sign);
    var deltas := SignedDeltas(Deltas(t).value, sign);
    var ids := Strings.SortedSeq(deltas.Keys);
    SortedDistinct(deltas.Keys);
    AdjustmentsAlone(db, user, deltas, ids, at, tail);
    SettleAdded(db, user, t, sign, deltas, at);
  }

  lemma SignedCollected(t: Transaction, sign: int)
    requires ValidRow(t)
    ensures Deltas(t).Success?
    ensures SignedDeltas(Deltas(t).value, sign).Keys == Touched(t)
    ensures forall a | a in SignedDeltas(Deltas(t).value, sign) ::
              SignedDeltas(Deltas(t).value, sign)[a] == if sign < 0 then Wrap64(-Delta(t, a)) else Delta(t, a)
  {
    CollectedDeltas(t);
  }

  lemma SortedDistinct(s: set<Id>)
    ensures Distinct(Strings.SortedSeq(s)) && Elements(Strings.SortedSeq(s)) == s
  {
    Strings.SortedSeqElements(s);
    Strings.SortedSeqAscending(s);
    AscendingDistinct(Strings.SortedSeq(s));
  }

  lemma SettleAdded(db: Db, user: Id, t: Transaction, sign: int, deltas: map<Id, Int64>, at: Time)
    requires ValidRow(t) && deltas.Keys == Touched(t)
    requires forall a | a in deltas :: deltas[a] == if sign < 0 then Wrap64(-Delta(t, a)) else Delta(t, a)
    ensures Settle(db, user, t, sign, at) ==
            if AllOwned(db.accounts, user, deltas, deltas.Keys)
            then Success(db.(accounts := Added(db.accounts, deltas, deltas.Keys, at)))
            else Failure(AccountNotFound)
  {
    CollectedSettle(db, user, t, sign, deltas, at);
  }

  lemma AscendingDistinct(ids: seq<Id>)
    requires Strings.Ascending(ids)
    ensures Distinct(ids)
  {
    forall i, j | 0 <= i < j < |ids| ensures ids[i] != ids[j] {
      Strings.LessIrreflexive(ids[i]);
    }
  }

  /** A step that enters a row carries one that the constructor built. */
  predicate Built(step: Step) {
    match step
    case EnterStep(t, _) => StoredTransaction(t)
    case InsertAccountStep(a, _) => a.balance == a.initialBalance && (Blank(a.id) || StoredAccount(a))
    case _ => true
  }

  lemma FinishLast(db: Db, s: Statement)
    requires !s.ReadAccount?
    ensures Finish(db, [s]) == match Act(db, s)
                               case Failure(e) => Failure(e)
                               case Success(acted) => Success(acted.db)
  {
    FinishFirst(db, s, []);
    assert [s] + [] == [s];
  }

  lemma InsertAlone(db: Db, t: Transaction, refused: bool)
    ensures Finish(db, [InsertTransaction(t, refused)]) == TablesOf(Insert(db, t, refused))
  {
    FinishLast(db, InsertTransaction(t, refused));
  }

  lemma EnterAlone(db: Db, t: Transaction, env: Env)
    requires StoredAccounts(db.accounts) && ValidRow(t)
    ensures Rest(db, Begun(EnterStep(t, env))) == TablesOf(Enter(db, t, env))
  {
    if t.status != Posted {
      InsertAlone(db, t, env.refused);
    } else {
      EffectsAlone(db, t.user, t, 1, env.now, [InsertTransaction(t, env.refused)]);
      var settled := Settle(db, t.user, t, 1, env.now);
      if settled.Success? {
        InsertAlone(settled.value, t, env.refused);
      }
    }
  }

  /** The guarded write of the row just read always passes its guard. */
  lemma WriteAlone(db: Db, t: Transaction, next: Transaction, refused: bool, tail: seq<Statement>)
    requires Row(db, t.id) == Some(t) && next.id == t.id && next.user == t.user && next.createdAt == t.createdAt
    ensures var written := Write(db, next, refused);
            && (written.Failure? ==> Finish(db, [WriteTransaction(t, next, refused)] + tail) == Failure(written.error))
            && (written.Success? ==> Finish(db, [WriteTransaction(t, next, refused)] + tail) == Finish(written.value.db, tail))
  {
    FinishFirst(db, WriteTransaction(t, next, refused), tail);
    assert [] + tail == tail;
  }

  predicate Keyed(db: Db) {
    forall k | k in db.transactions :: db.transactions[k].id == k && StoredTransaction(db.transactions[k])
  }

  lemma PatchAlone(db: Db, p: PatchInput, env: Env)
    requires Keyed(db)
    ensures Rest(db, Begun(PatchStep(p, env))) == TablesOf(PatchInTx(db, p, env))
  {
    if OwnsTransaction(db, p.user, p.id) && PatchedRow(db.transactions[p.id], p, env.now).Success? {
      var t := db.transactions[p.id];
      var next := PatchedRow(t, p, env.now).value;
      PatchedIdentity(t, p, env.now);
      WriteAlone(db, t, next, env.refused, []);
      assert [WriteTransaction(t, next, env.refused)] + [] == [WriteTransaction(t, next, env.refused)];
    }
  }

  lemma PatchedIdentity(t: Transaction, p: PatchInput, now: Time)
    requires PatchedRow(t, p, now).Success?
    ensures var next := PatchedRow(t, p, now).value; next.id == t.id && next.user == t.user && next.createdAt == t.createdAt
  {
    NewTransactionStored(PatchParams(t, p, now).value);
  }

  lemma PostAlone(db: Db, user: Id, id: Id, env: Env)
    requires StoredAccounts(db.accounts) && Keyed(db)
    ensures Rest(db, Begun(PostStep(user, id, env))) == TablesOf(Post(db, user, id, env))
  {
    if OwnsTransaction(db, user, id) && PostedRow(db.transactions[id], env.now).Success? {
      var t := db.transactions[id];
      var next := PostedRow(t, env.now).value;
      StoredStamps(t, next);
      WriteThenEffects(db, user, t, next, next, 1, env);
    }
  }

  /** A status change alone: the write of the row, then its balance effect. */
  lemma WriteThenEffects(db: Db, user: Id, t: Transaction, next: Transaction, terms: Transaction, sign: int, env: Env)
    requires StoredAccounts(db.accounts) && ValidRow(terms) && Row(db, t.id) == Some(t)
    requires next.id == t.id && next.user == t.user && next.createdAt == t.createdAt
    ensures Effects(user, terms, sign, env.now).Success?
    ensures Finish(db, [WriteTransaction(t, next, env.refused)] + Effects(user, terms, sign, env.now).value) ==
            match Write(db, next, env.refused)
            case Failure(e) => Failure(e)
            case Success(written) => Settle(written.db, user, terms, sign, env.now)
  {
    EffectsAlone(db, user, terms, sign, env.now, []);
    var adjusts := Effects(user, terms, sign, env.now).value;
    WriteAlone(db, t, next, env.refused, adjusts);
    if Write(db, next, env.refused).Success? {
      EffectsAlone(Write(db, next, env.refused).value.db, user, terms, sign, env.now, []);
      assert adjusts + [] == adjusts;
    }
  }

  lemma CancelAlone(db: Db, user: Id, id: Id, env: Env)
    requires StoredAccounts(db.accounts) && Keyed(db)
    ensures Rest(db, Begun(CancelStep(user, id, env))) == TablesOf(Cancel(db, user, id, env))
  {
    if OwnsTransaction(db, user, id) && CancelledRow(db.transactions[id], env.now).Success? {
      var t := db.transactions[id];
      var next := CancelledRow(t, env.now).value;
      if t.status == Posted {
        WriteThenEffects(db, user, t, next, t, -1, env);
      } else {
        WriteAlone(db, t, next, env.refused, []);
        assert [WriteTransaction(t, next, env.refused)] + [] == [WriteTransaction(t, next, env.refused)];
      }
    }
  }

  lemma PatchedAccountWritten(a: Account, p: AccountPatch, env: Env)
    requires PatchedAccount(a, p, env.now).Success?
    ensures var next := PatchedAccount(a, p, env.now).value;
            next.id == a.id && next.user == a.user && Rewritten(a, next) == next
  {
  }

  lemma PatchAccountAlone(db: Db, p: AccountPatch, env: Env)
    requires p.id in db.accounts ==> db.accounts[p.id].id == p.id
    ensures Rest(db, Begun(PatchAccountStep(p, env))) == AccountTablesOf(UpdateAccount(db, p, env))
  {
    var read := ReadAccount(p.user, p.id, ToRewrite(p, env));
    FinishFirst(db, read, []);
    assert [read] + [] == [read];
    if OwnsAccount(db, p.user, p.id) && PatchedAccount(db.accounts[p.id], p, env.now).Success? {
      var a := db.accounts[p.id];
      var next := PatchedAccount(a, p, env.now).value;
      PatchedAccountWritten(a, p, env);
      AccountWriteAlone(db, a, next, env.refused);
      assert [WriteAccount(a, next, env.refused)] + [] == [WriteAccount(a, next, env.refused)];
    }
  }

  lemma AccountWriteAlone(db: Db, a: Account, next: Account, refused: bool)
    requires AccountRow(db, a.id) == Some(a) && next.id == a.id && next.user == a.user && Rewritten(a, next) == next
    ensures Finish(db, [WriteAccount(a, next, refused)]) ==
            if refused then Failure(WriteRefused) else Success(db.(accounts := db.accounts[a.id := next]))
  {
    FinishLast(db, WriteAccount(a, next, refused));
  }

  /** Running the statements of a step with nobody else at work does exactly what the step is specified to do. */
  lemma StepAlone(db: Db, step: Step)
    requires Consistent(db) && Built(step)
    ensures Rest(db, Begun(step)) == Perform(db, step)
  {
    match step
    case EnterStep(t, env) => EnterAlone(db, t, env);
    case PatchStep(p, env) => PatchAlone(db, p, env);
    case PostStep(user, id, env) => PostAlone(db, user, id, env);
    case CancelStep(user, id, env) => CancelAlone(db, user, id, env);
    case DeleteStep(user, id, refused) =>
      if OwnsTransaction(db, user, id) {
        FinishLast(db, DeleteTransaction(db.transactions[id], refused));
      }
    case InsertAccountStep(a, refused) => FinishLast(db, InsertAccount(a, refused));
    case PatchAccountStep(p, env) => PatchAccountAlone(db, p, env);
    case StampStep(user, id, archivedAt, at, refused) => FinishLast(db, StampAccount(user, id, archivedAt, at, refused));
    case RaiseStep(_) =>
  }
}
