/** Requests to the ledger services, the steps each request comes down to, and what a whole plan of steps keeps. */
module LedgerPlans {
  import opened Prelude
  import opened LedgerRows
  import opened LedgerSpec
  import opened LedgerInvariant
  import opened LedgerRuns
  import opened LedgerStatements

  // ---- Plans --------------------------------------------------------------

  /** Steps one after the other, each as a whole. */
  function PerformAll(db: Db, plan: seq<Step>): Result<Db, LedgerError> {
    if plan == [] then Success(db) else
      match PerformAll(db, plan[..|plan| - 1])
      case Failure(e) => Failure(e)
      case Success(next) => Perform(next, plan[|plan| - 1])
  }

  predicate IsFor(step: Step, user: Id) {
    match step
    case EnterStep(t, _) => t.user == user
    case PatchStep(p, _) => p.user == user
    case PostStep(u, _, _) => u == user
    case CancelStep(u, _, _) => u == user
    case DeleteStep(u, _, _) => u == user
    case InsertAccountStep(a, _) => a.user == user
    case PatchAccountStep(p, _) => p.user == user
    case StampStep(u, _, _, _, _) => u == user
    case RaiseStep(_) => true
  }

  lemma StampKeeps(db: Db, user: Id, id: Id, archivedAt: Option<Time>, at: Time, refused: bool)
    requires Sound(db) && Stamp(db, user, id, archivedAt, at, refused).Success?
    ensures Keeps(db, Stamp(db, user, id, archivedAt, at, refused).value, user)
  {
    var a := db.accounts[id].(archivedAt := archivedAt, updatedAt := at);
    assert StoredAccount(db.accounts[id]) && db.accounts[id].id == id;
    assert StoredAccount(a);
    AccountRowKeeps(db, a);
  }

  lemma StepKeeps(db: Db, step: Step, user: Id)
    requires Sound(db) && Built(step) && IsFor(step, user) && Perform(db, step).Success?
    ensures Keeps(db, Perform(db, step).value, user)
  {
    match step
    case EnterStep(t, env) => EnterKeeps(db, t, env);
    case PatchStep(p, env) => PatchInTxKeeps(db, p, env);
    case PostStep(u, id, env) => PostKeeps(db, u, id, env);
    case CancelStep(u, id, env) => CancelKeeps(db, u, id, env);
    case DeleteStep(u, id, refused) => DeleteKeeps(db, u, id, refused);
    case InsertAccountStep(a, _) => InsertAccountKeeps(db, a);
    case PatchAccountStep(p, env) => UpdateAccountKeeps(db, p, env);
    case StampStep(u, id, archivedAt, at, refused) => StampKeeps(db, u, id, archivedAt, at, refused);
  }

  /** Only a deletion takes a transaction row away. */
  lemma StepGrows(db: Db, step: Step)
    requires Sound(db) && Built(step) && !step.DeleteStep? && Perform(db, step).Success?
    ensures db.transactions.Keys <= Perform(db, step).value.transactions.Keys
  {
    match step
    case EnterStep(t, env) => EnterKeeps(db, t, env);
    case PatchStep(p, env) => PatchInTxKeeps(db, p, env);
    case PostStep(u, id, env) => PostKeeps(db, u, id, env);
    case CancelStep(u, id, env) => CancelKeeps(db, u, id, env);
    case _ =>
  }

  /** A plan of one user: built rows, and a deletion only on its own. */
  predicate PlanFor(plan: seq<Step>, user: Id) {
    (forall i | 0 <= i < |plan| :: Built(plan[i]) && IsFor(plan[i], user)) &&
    (|plan| <= 1 || forall i | 0 <= i < |plan| :: !plan[i].DeleteStep?)
  }

  lemma {:induction false} PlanKeeps(db: Db, plan: seq<Step>, user: Id)
    requires Sound(db) && PlanFor(plan, user) && PerformAll(db, plan).Success?
    ensures Keeps(db, PerformAll(db, plan).value, user)
    ensures |plan| > 1 ==> db.transactions.Keys <= PerformAll(db, plan).value.transactions.Keys
    decreases |plan|
  {
    if plan == [] {
      KeepsNothing(db, user);
    } else {
      var before, last := plan[..|plan| - 1], plan[|plan| - 1];
      PlanKeeps(db, before, user);
      var middle := PerformAll(db, before).value;
      StepKeeps(middle, last, user);
      if before != [] {
        StepGrows(middle, last);
        if |before| == 1 {
          SingleStep(db, before);
          StepGrows(db, before[0]);
        }
        KeepsThen(db, middle, Perform(middle, last).value, user);
      }
    }
  }

  lemma SingleStep(db: Db, plan: seq<Step>)
    requires |plan| == 1
    ensures PerformAll(db, plan) == Perform(db, plan[0])
  {
    assert plan[..0] == [];
  }

  // ---- Requests -----------------------------------------------------------

  /** What one item of a request asks for. */
  datatype Command =
    | CreateCommand(create: CreateInput, env: Env)
    | DuplicateCommand(duplicate: DuplicateInput, env: Env)
    | PatchCommand(patch: PatchInput, env: Env)
    | ItemCommand(item: PatchItem)
    | DeleteCommand(user: Id, id: Id, env: Env)
    | PostCommand(user: Id, id: Id, env: Env)
    | CancelCommand(user: Id, id: Id, env: Env)
    | CreateAccountCommand(account: AccountInput, env: Env)
    | UpdateAccountCommand(accountPatch: AccountPatch, env: Env)
    | ArchiveAccountCommand(user: Id, id: Id, env: Env)
    | RestoreAccountCommand(user: Id, id: Id, env: Env)

  function UserOf(c: Command): Id {
    match c
    case CreateCommand(input, _) => input.user
    case DuplicateCommand(input, _) => input.user
    case PatchCommand(p, _) => p.user
    case ItemCommand(item) => item.input.user
    case DeleteCommand(user, _, _) => user
    case PostCommand(user, _, _) => user
    case CancelCommand(user, _, _) => user
    case CreateAccountCommand(input, _) => input.user
    case UpdateAccountCommand(p, _) => p.user
    case ArchiveAccountCommand(user, _, _) => user
    case RestoreAccountCommand(user, _, _) => user
  }

  /** A single operation, or a bulk of creations or of patches. */
  predicate IsRequest(request: seq<Command>, user: Id) {
    0 < |request| <= BULK_MAX_ITEMS &&
    (forall i | 0 <= i < |request| :: UserOf(request[i]) == user) &&
    (|request| == 1
     || (forall i | 0 <= i < |request| :: request[i].CreateCommand?)
     || (forall i | 0 <= i < |request| :: request[i].ItemCommand?))
  }

  /** A row a service reads without guarding its later writes by it. */
  datatype Observation = SawNothing | SawTransaction(t: Transaction) | SawAccount(a: Account)

  function ObserveTransaction(db: Db, user: Id, id: Id): Observation {
    if OwnsTransaction(db, user, id) then SawTransaction(db.transactions[id]) else SawNothing
  }

  function ObserveAccount(db: Db, user: Id, id: Id): Observation {
    if OwnsAccount(db, user, id) then SawAccount(db.accounts[id]) else SawNothing
  }

  function Observe(db: Db, c: Command): Observation {
    match c
    case DuplicateCommand(input, _) => ObserveTransaction(db, input.user, input.id)
    case ItemCommand(item) => ObserveTransaction(db, item.input.user, item.input.id)
    case ArchiveAccountCommand(user, id, _) => ObserveAccount(db, user, id)
    case RestoreAccountCommand(user, id, _) => ObserveAccount(db, user, id)
    case _ => SawNothing
  }

  function EnterSteps(built: Result<Transaction, LedgerError>, env: Env): seq<Step> {
    match built
    case Failure(e) => [RaiseStep(e)]
    case Success(t) => [EnterStep(t, env)]
  }

  function NewAccountSteps(input: AccountInput, env: Env): seq<Step> {
    if input.initialBalance.minor < 0 then [RaiseStep(NegativeInitialBalance)] else
      match NewAccount(Account(env.newId, input.user, input.name, input.kind, input.initialBalance, input.initialBalance,
                               input.inNetWorth, input.inDailyBudget, None, env.now, env.now))
      case Failure(e) => [RaiseStep(e)]
      case Success(a) => [InsertAccountStep(a, env.refused)]
  }

  /** The status step of a bulk item whose row had status `current` when the item began. */
  function StatusSteps(p: PatchInput, current: Status, env: Env): seq<Step> {
    if p.status.None? then []
    else if p.status.value.None? then [RaiseStep(PostedPatchConflict)]
    else
      var target := p.status.value.value;
      match TransitionError(current, target)
      case Some(e) => [RaiseStep(e)]
      case None =>
        if target == Posted then [PostStep(p.user, p.id, env)]
        else if target == Cancelled then [CancelStep(p.user, p.id, env)]
        else []
  }

  /** The steps a command comes down to, given what it observed. */
  function StepsOf(c: Command, seen: Observation): seq<Step> {
    match c
    case CreateCommand(input, env) => EnterSteps(NewTransaction(CreateParams(input, env)), env)
    case DuplicateCommand(input, env) =>
      if !seen.SawTransaction? then [RaiseStep(TransactionNotFound)]
      else EnterSteps(NewTransaction(DuplicateParams(seen.t, input, env)), env)
    case PatchCommand(p, env) => if p.status.Some? then [RaiseStep(PostedPatchConflict)] else [PatchStep(p, env)]
    case ItemCommand(item) =>
      if !seen.SawTransaction? then [RaiseStep(TransactionNotFound)]
      else [PatchStep(item.input.(status := None), item.patchEnv)] + StatusSteps(item.input, seen.t.status, item.statusEnv)
    case DeleteCommand(user, id, env) => [DeleteStep(user, id, env.refused)]
    case PostCommand(user, id, env) => [PostStep(user, id, env)]
    case CancelCommand(user, id, env) => [CancelStep(user, id, env)]
    case CreateAccountCommand(input, env) => NewAccountSteps(input, env)
    case UpdateAccountCommand(p, env) => [PatchAccountStep(p, env)]
    case ArchiveAccountCommand(user, id, env) =>
      if !seen.SawAccount? then [RaiseStep(AccountNotFound)]
      else if seen.a.archivedAt.Some? then [] else [StampStep(user, id, Some(env.now), env.now, false)]
    case RestoreAccountCommand(user, id, env) =>
      if !seen.SawAccount? then [RaiseStep(AccountNotFound)]
      else if seen.a.archivedAt.None? then [] else [StampStep(user, id, None, env.now, env.refused)]
  }

  /** The steps of the commands begun so far, one observation each. */
  function Plan(request: seq<Command>, seen: seq<Observation>): seq<Step>
    requires |seen| <= |request|
    decreases |seen|
  {
    if seen == [] then [] else
      Plan(request, seen[..|seen| - 1]) + StepsOf(request[|seen| - 1], seen[|seen| - 1])
  }

  lemma StepsFor(c: Command, seen: Observation)
    ensures forall i | 0 <= i < |StepsOf(c, seen)| :: Built(StepsOf(c, seen)[i]) && IsFor(StepsOf(c, seen)[i], UserOf(c))
    ensures !c.DeleteCommand? ==> forall i | 0 <= i < |StepsOf(c, seen)| :: !StepsOf(c, seen)[i].DeleteStep?
    ensures c.DeleteCommand? ==> |StepsOf(c, seen)| == 1
  {
    match c
    case CreateCommand(input, env) => EnterStepsFor(CreateParams(input, env), env);
    case DuplicateCommand(input, env) => if seen.SawTransaction? { EnterStepsFor(DuplicateParams(seen.t, input, env), env); }
    case CreateAccountCommand(input, env) =>
      var p := Account(env.newId, input.user, input.name, input.kind, input.initialBalance, input.initialBalance,
                       input.inNetWorth, input.inDailyBudget, None, env.now, env.now);
      if NewAccount(p).Success? && !Blank(p.id) {
        NewAccountStored(p);
      }
    case _ =>
  }

  lemma EnterStepsFor(p: Transaction, env: Env)
    ensures forall i | 0 <= i < |EnterSteps(NewTransaction(p), env)| ::
              var step := EnterSteps(NewTransaction(p), env)[i]; Built(step) && IsFor(step, p.user) && !step.DeleteStep?
  {
    if NewTransaction(p).Success? {
      NewTransactionStored(p);
    }
  }

  lemma {:induction false} PlanSteps(request: seq<Command>, seen: seq<Observation>, user: Id)
    requires |seen| <= |request| && forall i | 0 <= i < |request| :: UserOf(request[i]) == user
    ensures forall i | 0 <= i < |Plan(request, seen)| :: Built(Plan(request, seen)[i]) && IsFor(Plan(request, seen)[i], user)
    ensures (forall i | 0 <= i < |request| :: !request[i].DeleteCommand?)
            ==> forall i | 0 <= i < |Plan(request, seen)| :: !Plan(request, seen)[i].DeleteStep?
    ensures |request| == 1 && request[0].DeleteCommand? ==> |Plan(request, seen)| <= 1
    decreases |seen|
  {
    if seen != [] {
      PlanSteps(request, seen[..|seen| - 1], user);
      StepsFor(request[|seen| - 1], seen[|seen| - 1]);
    }
  }

  /** The plan of a request, however far it has come, is a plan of its user. */
  lemma PlanIsFor(request: seq<Command>, seen: seq<Observation>, user: Id)
    requires |seen| <= |request| && IsRequest(request, user)
    ensures PlanFor(Plan(request, seen), user)
  {
    PlanSteps(request, seen, user);
  }

  // ---- Plans against the operations on whole tables -----------------------

  /** The tables after a command that runs as one operation. */
  function Sequential(db: Db, c: Command): Result<Db, LedgerError> {
    match c
    case CreateCommand(input, env) => TablesOf(Create(db, input, env))
    case DuplicateCommand(input, env) => TablesOf(Duplicate(db, input, env))
    case PatchCommand(p, env) => TablesOf(Patch(db, p, env))
    case ItemCommand(item) => TablesOf(PatchOne(db, item))
    case DeleteCommand(user, id, env) => TablesOf(Delete(db, user, id, env.refused))
    case PostCommand(user, id, env) => TablesOf(Post(db, user, id, env))
    case CancelCommand(user, id, env) => TablesOf(Cancel(db, user, id, env))
    case CreateAccountCommand(input, env) => AccountTablesOf(CreateAccount(db, input, env))
    case UpdateAccountCommand(p, env) => AccountTablesOf(UpdateAccount(db, p, env))
    case ArchiveAccountCommand(user, id, env) => AccountTablesOf(ArchiveAccount(db, user, id, env))
    case RestoreAccountCommand(user, id, env) => AccountTablesOf(RestoreAccount(db, user, id, env))
  }

  /** Both fail, or both end in the same tables. */
  predicate Agree(r: Result<Db, LedgerError>, q: Result<Db, LedgerError>) {
    (r.Failure? && q.Failure?) || r == q
  }

  lemma PerformStep(db: Db, plan: seq<Step>, step: Step)
    ensures PerformAll(db, plan).Failure? ==> PerformAll(db, plan + [step]) == PerformAll(db, plan)
    ensures PerformAll(db, plan).Success? ==> PerformAll(db, plan + [step]) == Perform(PerformAll(db, plan).value, step)
  {
    assert (plan + [step])[..|plan|] == plan;
  }

  lemma EnterStepsAlone(db: Db, p: Transaction, env: Env)
    ensures Agree(PerformAll(db, EnterSteps(NewTransaction(p), env)),
                  if NewTransaction(p).Success? then TablesOf(Enter(db, NewTransaction(p).value, env)) else Failure(WriteRefused))
  {
    SingleStep(db, EnterSteps(NewTransaction(p), env));
  }

  lemma ItemAlone(db: Db, item: PatchItem)
    requires OwnsTransaction(db, item.input.user, item.input.id)
    ensures Agree(PerformAll(db, StepsOf(ItemCommand(item), SawTransaction(db.transactions[item.input.id]))), TablesOf(PatchOne(db, item)))
  {
    ItemSteps(db, item, db.transactions[item.input.id].status);
  }

  /** The two steps of a bulk item, told apart. */
  lemma ItemSteps(db: Db, item: PatchItem, current: Status)
    ensures var p := item.input;
            var patched := PatchInTx(db, p.(status := None), item.patchEnv);
            var both := PerformAll(db, [PatchStep(p.(status := None), item.patchEnv)] + StatusSteps(p, current, item.statusEnv));
            && (patched.Failure? ==> both.Failure?)
            && (patched.Success? ==>
                  if p.status.None? then both == Success(patched.value.db)
                  else if p.status.value.None? || TransitionError(current, p.status.value.value).Some? then both.Failure?
                  else both == TablesOf(StatusStep(patched.value, p, p.status.value.value, item.statusEnv)))
  {
    var first := PatchStep(item.input.(status := None), item.patchEnv);
    var second := StatusSteps(item.input, current, item.statusEnv);
    SingleStep(db, [first]);
    var patched := PatchInTx(db, item.input.(status := None), item.patchEnv);
    if patched.Success? {
      StatusStepsAlone(patched.value, item.input, current, item.statusEnv);
    }
    if second == [] {
      assert [first] + second == [first];
    } else {
      PerformStep(db, [first], second[0]);
      assert [first] + second == [first] + [second[0]];
    }
  }

  lemma StatusStepsAlone(patched: Done, p: PatchInput, current: Status, env: Env)
    ensures var steps := StatusSteps(p, current, env);
            && |steps| <= 1
            && (p.status.None? ==> steps == [])
            && (p.status.Some? && (p.status.value.None? || TransitionError(current, p.status.value.value).Some?) ==>
                  steps != [] && Perform(patched.db, steps[0]).Failure?)
            && (p.status.Some? && p.status.value.Some? && TransitionError(current, p.status.value.value).None? ==>
                  TablesOf(StatusStep(patched, p, p.status.value.value, env)) ==
                  if steps == [] then Success(patched.db) else Perform(patched.db, steps[0]))
  {
  }

  /** A command whose observation is still true does what the operation does. */
  lemma CommandAlone(db: Db, c: Command)
    ensures Agree(PerformAll(db, StepsOf(c, Observe(db, c))), Sequential(db, c))
  {
    var steps := StepsOf(c, Observe(db, c));
    match c
    case CreateCommand(input, env) => EnterStepsAlone(db, CreateParams(input, env), env);
    case DuplicateCommand(input, env) =>
      if OwnsTransaction(db, input.user, input.id) {
        EnterStepsAlone(db, DuplicateParams(db.transactions[input.id], input, env), env);
      } else {
        SingleStep(db, steps);
      }
    case ItemCommand(item) =>
      if OwnsTransaction(db, item.input.user, item.input.id) {
        ItemAlone(db, item);
      } else {
        SingleStep(db, steps);
      }
    case _ =>
      if steps != [] {
        SingleStep(db, steps);
      }
  }

  /** Commands all of whose reads are guarded by their writes, or that read nothing. */
  predicate ObservesNothing(c: Command) {
    !c.DuplicateCommand? && !c.ItemCommand? && !c.ArchiveAccountCommand? && !c.RestoreAccountCommand?
  }

  lemma ObservationIrrelevant(c: Command, o: Observation, db: Db)
    requires ObservesNothing(c)
    ensures StepsOf(c, o) == StepsOf(c, Observe(db, c))
  {
  }

  /**
   * A bulk item that went through on an observed status ends as the single-item step ends, except in
   * one case: the row was planned when observed, has been posted since, and the item asks for planned.
   */
  lemma StaleItem(db: Db, item: PatchItem, observed: Transaction)
    requires Consistent(db) && OwnsTransaction(db, item.input.user, item.input.id)
    requires PerformAll(db, StepsOf(ItemCommand(item), SawTransaction(observed))).Success?
    ensures Agree(PerformAll(db, StepsOf(ItemCommand(item), SawTransaction(observed))), TablesOf(PatchOne(db, item))) <==>
            !(observed.status == Planned && item.input.status == Some(Some(Planned))
              && db.transactions[item.input.id].status == Posted)
  {
    ItemSteps(db, item, observed.status);
    PatchedStatus(db, item);
    if item.input.status.Some? {
      StatusStepNeeds(PatchInTx(db, item.input.(status := None), item.patchEnv).value, item.input,
                      item.input.status.value.value, item.statusEnv);
    }
  }

  /** The patch of a bulk item leaves the status of its row, which is planned or posted. */
  lemma PatchedStatus(db: Db, item: PatchItem)
    requires Consistent(db) && OwnsTransaction(db, item.input.user, item.input.id)
    requires PatchInTx(db, item.input.(status := None), item.patchEnv).Success?
    ensures var patched := PatchInTx(db, item.input.(status := None), item.patchEnv).value;
            StatusIn(patched.db, item.input.id, db.transactions[item.input.id].status)
    ensures db.transactions[item.input.id].status in {Planned, Posted}
  {
    PatchedRowKeeps(db.transactions[item.input.id], item.input.(status := None), item.patchEnv.now);
  }

  predicate StatusIn(db: Db, id: Id, status: Status) {
    id in db.transactions && db.transactions[id].status == status
  }

  lemma StatusStepNeeds(patched: Done, p: PatchInput, target: Status, env: Env)
    requires StatusStep(patched, p, target, env).Success?
    ensures target == Posted ==> StatusIn(patched.db, p.id, Planned)
    ensures target == Cancelled ==> StatusIn(patched.db, p.id, Planned) || StatusIn(patched.db, p.id, Posted)
  {
  }

  function BatchTables(b: BatchOutcome): Result<Db, LedgerError> {
    match b
    case Success(batch) => Success(batch.db)
    case Failure(e) => Failure(e)
  }

  predicate Creates(request: seq<Command>, items: seq<CreateItem>) {
    |items| == |request| && forall i | 0 <= i < |request| :: request[i] == CreateCommand(items[i].input, items[i].env)
  }

  /** The plan of a bulk creation is the left fold of single creations. */
  lemma {:induction false} CreatesFold(db: Db, request: seq<Command>, items: seq<CreateItem>, seen: seq<Observation>)
    requires |seen| <= |request| && Creates(request, items)
    ensures Agree(PerformAll(db, Plan(request, seen)), BatchTables(Fold(CreateOne, db, items, |seen|)))
    decreases |seen|
  {
    if seen != [] {
      CreatesFold(db, request, items, seen[..|seen| - 1]);
      CreatesNext(db, request, items, seen);
    }
  }

  lemma CreatesNext(db: Db, request: seq<Command>, items: seq<CreateItem>, seen: seq<Observation>)
    requires 0 < |seen| <= |request| && Creates(request, items)
    requires Agree(PerformAll(db, Plan(request, seen[..|seen| - 1])), BatchTables(Fold(CreateOne, db, items, |seen| - 1)))
    ensures Agree(PerformAll(db, Plan(request, seen)), BatchTables(Fold(CreateOne, db, items, |seen|)))
  {
    var n := |seen| - 1;
    var before := Plan(request, seen[..n]);
    var middle := PerformAll(db, before);
    var step := CreateCommandAlone(if middle.Success? then middle.value else db, items[n], seen[n]);
    PerformStep(db, before, step);
    FoldTables(db, items, n);
  }

  lemma CreateCommandAlone(db: Db, item: CreateItem, seen: Observation) returns (step: Step)
    ensures StepsOf(CreateCommand(item.input, item.env), seen) == [step]
    ensures Agree(Perform(db, step), TablesOf(CreateOne(db, item)))
  {
    step := StepsOf(CreateCommand(item.input, item.env), seen)[0];
    EnterStepsAlone(db, CreateParams(item.input, item.env), item.env);
    SingleStep(db, [step]);
  }

  lemma FoldTables(db: Db, items: seq<CreateItem>, n: nat)
    requires n < |items|
    ensures var b, next := Fold(CreateOne, db, items, n), BatchTables(Fold(CreateOne, db, items, n + 1));
            if b.Failure? then next.Failure? else Agree(next, TablesOf(CreateOne(b.value.db, items[n])))
  {
  }

  // ---- The plan of a bulk patch -------------------------------------------

  predicate IsBulkPatch(request: seq<Command>, items: seq<PatchItem>) {
    |items| == |request| && forall i | 0 <= i < |request| :: request[i] == ItemCommand(items[i])
  }

  /**
   * Item `k` observed a planned row and asks for planned, but finds the row posted: its status
   * change is judged by what it observed, so it goes through where the single-item step would fail.
   */
  predicate StaleAt(db: Db, request: seq<Command>, items: seq<PatchItem>, seen: seq<Observation>, k: nat)
    requires IsBulkPatch(request, items) && k < |seen| <= |request|
  {
    var before := PerformAll(db, Plan(request, seen[..k]));
    seen[k].SawTransaction? && seen[k].t.status == Planned && AsksPlanned(items[k])
    && before.Success? && StatusIn(before.value, items[k].input.id, Posted)
  }

  predicate AsksPlanned(item: PatchItem) {
    item.input.status == Some(Some(Planned))
  }

  lemma {:induction false} PerformThen(db: Db, plan: seq<Step>, more: seq<Step>)
    ensures PerformAll(db, plan).Failure? ==> PerformAll(db, plan + more) == PerformAll(db, plan)
    ensures PerformAll(db, plan).Success? ==> PerformAll(db, plan + more) == PerformAll(PerformAll(db, plan).value, more)
    decreases |more|
  {
    if more == [] {
      assert plan + more == plan;
    } else {
      var most, last := more[..|more| - 1], more[|more| - 1];
      PerformThen(db, plan, most);
      PerformStep(db, plan + most, last);
      assert plan + most + [last] == plan + more;
    }
  }

  lemma StaleItemFails(db: Db, item: PatchItem)
    requires StatusIn(db, item.input.id, Posted) && AsksPlanned(item)
    ensures PatchOne(db, item).Failure?
  {
  }

  /** An item whose steps go through does what the single-item step does, unless it is stale, when that would fail. */
  lemma ItemGoesThrough(db: Db, item: PatchItem, seen: Observation)
    requires Consistent(db) && PerformAll(db, StepsOf(ItemCommand(item), seen)).Success?
    ensures seen.SawTransaction? && OwnsTransaction(db, item.input.user, item.input.id)
    ensures if seen.t.status == Planned && AsksPlanned(item) && StatusIn(db, item.input.id, Posted)
            then PatchOne(db, item).Failure?
            else TablesOf(PatchOne(db, item)) == PerformAll(db, StepsOf(ItemCommand(item), seen))
  {
    ItemObserved(db, item, seen);
    if seen.t.status == Planned && AsksPlanned(item) && StatusIn(db, item.input.id, Posted) {
      StaleItemFails(db, item);
    } else {
      StaleItem(db, item, seen.t);
    }
  }

  lemma ItemObserved(db: Db, item: PatchItem, seen: Observation)
    requires PerformAll(db, StepsOf(ItemCommand(item), seen)).Success?
    ensures seen.SawTransaction? && OwnsTransaction(db, item.input.user, item.input.id)
  {
    if seen.SawTransaction? {
      ItemSteps(db, item, seen.t.status);
    } else {
      SingleStep(db, StepsOf(ItemCommand(item), seen));
    }
  }

  ghost predicate AnyStale(db: Db, request: seq<Command>, items: seq<PatchItem>, seen: seq<Observation>)
    requires IsBulkPatch(request, items) && |seen| <= |request|
  {
    exists k :: 0 <= k < |seen| && StaleAt(db, request, items, seen, k)
  }

  lemma StaleBefore(db: Db, request: seq<Command>, items: seq<PatchItem>, seen: seq<Observation>, k: nat)
    requires IsBulkPatch(request, items) && k < |seen| - 1 && |seen| <= |request|
    ensures StaleAt(db, request, items, seen[..|seen| - 1], k) == StaleAt(db, request, items, seen, k)
  {
    assert seen[..|seen| - 1][..k] == seen[..k];
  }

  lemma AnyStaleSoFar(db: Db, request: seq<Command>, items: seq<PatchItem>, seen: seq<Observation>)
    requires IsBulkPatch(request, items) && 0 < |seen| <= |request|
    ensures AnyStale(db, request, items, seen) <==>
            AnyStale(db, request, items, seen[..|seen| - 1]) || StaleAt(db, request, items, seen, |seen| - 1)
  {
    forall k | 0 <= k < |seen| - 1
      ensures StaleAt(db, request, items, seen[..|seen| - 1], k) == StaleAt(db, request, items, seen, k)
    {
      StaleBefore(db, request, items, seen, k);
    }
    if AnyStale(db, request, items, seen[..|seen| - 1]) {
      var k :| 0 <= k < |seen[..|seen| - 1]| && StaleAt(db, request, items, seen[..|seen| - 1], k);
      assert StaleAt(db, request, items, seen, k);
    }
  }

  /** A fold after one more item, when the fold so far either failed or ended in `middle`. */
  lemma FoldsOneMore(db: Db, items: seq<PatchItem>, n: nat, stale: bool, middle: Db, staleNow: bool, after: Result<Db, LedgerError>)
    requires n < |items| && after.Success?
    requires if stale then Fold(PatchOne, db, items, n).Failure? else BatchTables(Fold(PatchOne, db, items, n)) == Success(middle)
    requires if staleNow then PatchOne(middle, items[n]).Failure? else TablesOf(PatchOne(middle, items[n])) == after
    ensures if stale || staleNow then Fold(PatchOne, db, items, n + 1).Failure?
            else BatchTables(Fold(PatchOne, db, items, n + 1)) == after
  {
  }

  /** The plan of a bulk patch that goes through is the left fold of its items, unless one is stale, when that would fail. */
  lemma {:induction false} PatchesFold(db: Db, request: seq<Command>, items: seq<PatchItem>, seen: seq<Observation>, user: Id)
    requires Sound(db) && IsRequest(request, user) && IsBulkPatch(request, items) && |seen| <= |request|
    requires PerformAll(db, Plan(request, seen)).Success?
    ensures if AnyStale(db, request, items, seen) then Fold(PatchOne, db, items, |seen|).Failure?
            else BatchTables(Fold(PatchOne, db, items, |seen|)) == PerformAll(db, Plan(request, seen))
    decreases |seen|
  {
    if seen != [] {
      var n := |seen| - 1;
      var before, steps := Plan(request, seen[..n]), StepsOf(request[n], seen[n]);
      PerformThen(db, before, steps);
      PatchesFold(db, request, items, seen[..n], user);
      SoundSoFar(db, request, seen[..n], user);
      var middle := PerformAll(db, before).value;
      ItemGoesThrough(middle, items[n], seen[n]);
      AnyStaleSoFar(db, request, items, seen);
      FoldsOneMore(db, items, n, AnyStale(db, request, items, seen[..n]), middle,
                   StaleAt(db, request, items, seen, n), PerformAll(middle, steps));
    }
  }

  lemma SoundSoFar(db: Db, request: seq<Command>, seen: seq<Observation>, user: Id)
    requires Sound(db) && IsRequest(request, user) && |seen| <= |request| && PerformAll(db, Plan(request, seen)).Success?
    ensures Consistent(PerformAll(db, Plan(request, seen)).value)
  {
    PlanIsFor(request, seen, user);
    PlanKeeps(db, Plan(request, seen), user);
  }
}
