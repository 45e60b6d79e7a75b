/** The stamps of the rows the ledger services commit, as the repair job looks at them. */
module LedgerStamps {
  import opened Prelude
  import opened LedgerRows
  import opened LedgerSpec
  import opened LedgerInvariant
  import opened LedgerOutcomes
  import opened LedgerStatements
  import opened LedgerPlans
  import opened LedgerConcurrency
  import opened LedgerInterleavings
  import T = TransactionFormat

  function StatusText(status: Status): string {
    match status
    case Planned => "planned"
    case Posted => "posted"
    case Cancelled => "cancelled"
    case UnknownStatus => ""
  }

  /** A ledger row as it is stored: of the reserved references only the income source can be written at all. */
  function Stored(t: Transaction): T.FormatRow {
    T.FormatRow(t.id, StatusText(t.status), t.occurredAt, t.plannedAt, t.postedAt, t.cancelledAt,
                T.NO_RESERVED.(incomeSource := t.incomeSource), t.createdAt, t.updatedAt)
  }

  /** The stamps that go with a status, and no income source. */
  predicate WellStamped(t: Transaction) {
    t.incomeSource == None &&
    match t.status
    case Planned => t.postedAt.None? && t.cancelledAt.None?
    case Posted => t.postedAt.Some? && t.cancelledAt.None?
    case Cancelled => t.cancelledAt.Some?
    case UnknownStatus => false
  }

  predicate AllWellStamped(db: Db) {
    forall k | k in db.transactions :: WellStamped(db.transactions[k])
  }

  // ---- What the transport layer lets through ------------------------------

  /** Creations and duplications only as planned or posted, and no income source anywhere. */
  predicate Admitted(c: Command) {
    match c
    case CreateCommand(input, _) => input.incomeSource == None && input.status in {None, Some(Planned), Some(Posted)}
    case DuplicateCommand(input, _) => input.status in {None, Some(Planned), Some(Posted)}
    case PatchCommand(p, _) => p.incomeSource in {None, Some(None)}
    case ItemCommand(item) => item.input.incomeSource in {None, Some(None)}
    case _ => true
  }

  predicate AllAdmitted(request: seq<Command>) {
    forall i | 0 <= i < |request| :: Admitted(request[i])
  }

  predicate StampsStep(step: Step) {
    match step
    case EnterStep(t, _) => WellStamped(t)
    case PatchStep(p, _) => p.incomeSource in {None, Some(None)}
    case _ => true
  }

  predicate StampsPlan(plan: seq<Step>) {
    forall i | 0 <= i < |plan| :: StampsStep(plan[i])
  }

  /** What was observed had the stamps of its status. */
  predicate StampedObservation(o: Observation) {
    o.SawTransaction? ==> WellStamped(o.t)
  }

  lemma StepsStamped(c: Command, o: Observation)
    requires Admitted(c) && StampedObservation(o)
    ensures StampsPlan(StepsOf(c, o))
  {
  }

  // ---- Every step keeps the stamps ----------------------------------------

  lemma RowStamped(db: Db, next: Db, id: Id, row: Transaction)
    requires AllWellStamped(db) && WellStamped(row) && next.transactions == db.transactions[id := row]
    ensures AllWellStamped(next)
  {
  }

  lemma PatchKeepsStamps(db: Db, p: PatchInput, env: Env)
    requires AllWellStamped(db) && p.incomeSource in {None, Some(None)} && PatchInTx(db, p, env).Success?
    ensures AllWellStamped(PatchInTx(db, p, env).value.db)
  {
    var next := PatchedRow(db.transactions[p.id], p, env.now).value;
    RowStamped(db, PatchInTx(db, p, env).value.db, next.id, next);
  }

  lemma PostKeepsStamps(db: Db, user: Id, id: Id, env: Env)
    requires Sound(db) && AllWellStamped(db) && Post(db, user, id, env).Success?
    ensures AllWellStamped(Post(db, user, id, env).value.db)
  {
    var done := Post(db, user, id, env).value;
    PostOutcome(db, user, id, env);
    RowStamped(db, done.db, id, done.row);
  }

  lemma CancelKeepsStamps(db: Db, user: Id, id: Id, env: Env)
    requires Sound(db) && AllWellStamped(db) && Cancel(db, user, id, env).Success?
    ensures AllWellStamped(Cancel(db, user, id, env).value.db)
  {
    var done := Cancel(db, user, id, env).value;
    CancelOutcome(db, user, id, env);
    RowStamped(db, done.db, id, done.row);
  }

  lemma EnterKeepsStamps(db: Db, t: Transaction, env: Env)
    requires Sound(db) && StoredTransaction(t) && WellStamped(t) && AllWellStamped(db) && Enter(db, t, env).Success?
    ensures AllWellStamped(Enter(db, t, env).value.db)
  {
    EnterKeeps(db, t, env);
    RowStamped(db, Enter(db, t, env).value.db, t.id, t);
  }

  lemma StepKeepsStamps(db: Db, step: Step)
    requires Sound(db) && AllWellStamped(db) && Built(step) && StampsStep(step) && Perform(db, step).Success?
    ensures AllWellStamped(Perform(db, step).value)
  {
    match step
    case EnterStep(t, env) => EnterKeepsStamps(db, t, env);
    case PatchStep(p, env) => PatchKeepsStamps(db, p, env);
    case PostStep(u, id, env) => PostKeepsStamps(db, u, id, env);
    case CancelStep(u, id, env) => CancelKeepsStamps(db, u, id, env);
    case _ =>
  }

  lemma {:induction false} PlanKeepsStamps(db: Db, plan: seq<Step>, user: Id)
    requires Sound(db) && AllWellStamped(db) && PlanFor(plan, user) && StampsPlan(plan) && PerformAll(db, plan).Success?
    ensures AllWellStamped(PerformAll(db, plan).value)
    decreases |plan|
  {
    if plan != [] {
      var before := plan[..|plan| - 1];
      PlanKeeps(db, before, user);
      PlanKeepsStamps(db, before, user);
      StepKeepsStamps(PerformAll(db, before).value, plan[|plan| - 1]);
    }
  }

  // ---- Every interleaving keeps the stamps --------------------------------

  predicate ClientStamped(c: Client) {
    c.Active? ==> |c.seen| <= |c.request| && AllAdmitted(c.request) && StampsPlan(Plan(c.request, c.seen))
  }

  predicate Stamped(s: System) {
    AllWellStamped(s.committed) && forall i | 0 <= i < |s.clients| :: ClientStamped(s.clients[i])
  }

  /** Between two steps a client sees only rows with the stamps of their status. */
  lemma ViewStamped(s: System, c: Client)
    requires Sound(s.committed) && ClientOk(s, c) && c.Active? && c.now == Doing([])
    requires AllWellStamped(s.committed) && ClientStamped(c)
    ensures AllWellStamped(View(s.committed, c.locks))
  {
    assert Compatible(s.committed, s.committed, c.now, c.locks);
    assert Explains(s.committed, c.done, c.now, c.locks);
    PlanPrefix(c);
    var plan := Plan(c.request, c.seen);
    assert forall i | 0 <= i < |c.done| :: c.done[i] == plan[i];
    PlanKeepsStamps(s.committed, c.done, c.user);
  }

  lemma StampedAdvance(s: System, c: Client)
    requires Sound(s.committed) && ClientOk(s, c) && CanAdvance(c) && AllWellStamped(s.committed) && ClientStamped(c)
    ensures ClientStamped(AfterAdvance(s.committed, c))
  {
    if c.now == Doing([]) && c.queue == [] {
      var view := View(s.committed, c.locks);
      var command := c.request[|c.seen|];
      ViewStamped(s, c);
      assert StampedObservation(Observe(view, command));
      StepsStamped(command, Observe(view, command));
      PlanGrows(c.request, c.seen, Observe(view, command));
    }
  }

  lemma StampedCommit(s: System, c: Client)
    requires Sound(s.committed) && ClientOk(s, c) && Finished(c) && AllWellStamped(s.committed) && ClientStamped(c)
    ensures AllWellStamped(View(s.committed, c.locks))
  {
    ViewStamped(s, c);
  }

  lemma StampedAfter(s: System, e: Event)
    requires Inv(s) && Stamped(s) && Enabled(s, e) && (e.Begin? ==> AllAdmitted(e.request))
    ensures Stamped(After(s, e))
  {
    var c := s.clients[e.i];
    assert ClientOk(s, c) && ClientStamped(c);
    match e
    case Advance(_) => StampedAdvance(s, c);
    case Commit(_) => StampedCommit(s, c);
    case _ =>
  }

  predicate OnlyAdmitted(events: seq<Event>) {
    forall n | 0 <= n < |events| && events[n].Begin? :: AllAdmitted(events[n].request)
  }

  lemma {:induction false} AlwaysStamped(events: seq<Event>, states: seq<System>, n: nat)
    requires IsInterleaving(events, states) && OnlyAdmitted(events) && n <= |events|
    ensures Stamped(states[n])
  {
    if n > 0 {
      AlwaysStamped(events, states, n - 1);
      AlwaysInv(events, states, n - 1);
      StampedHappens(events, states, n - 1);
    }
  }

  lemma StampedHappens(events: seq<Event>, states: seq<System>, n: nat)
    requires IsInterleaving(events, states) && n < |events| && Inv(states[n]) && Stamped(states[n])
    requires events[n].Begin? ==> AllAdmitted(events[n].request)
    ensures Stamped(states[n + 1])
  {
    assert Happens(events, states, n);
    StampedAfter(states[n], events[n]);
  }

  /** The repair job would find nothing to do on any row the services ever commit, whatever the interleaving. */
  lemma CommittedRowsNeedNoRepair(events: seq<Event>, states: seq<System>, n: nat, id: Id)
    requires IsInterleaving(events, states) && OnlyAdmitted(events) && n <= |events|
    requires id in states[n].committed.transactions
    ensures !T.PatchFor(Stored(states[n].committed.transactions[id])).needsFix
  {
    AlwaysStamped(events, states, n);
    assert WellStamped(states[n].committed.transactions[id]);
  }
}
