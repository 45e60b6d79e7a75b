/** Generated ids: when no two requests bring the same one, nobody ever waits in order to insert a row. */
module LedgerIds {
  import opened Prelude
  import opened LedgerSpec
  import opened LedgerStatements
  import opened LedgerPlans
  import opened LedgerConcurrency
  import opened LedgerInterleavings

  /** The row a command brings a generated id for. */
  function Generated(c: Command): Option<Key> {
    match c
    case CreateCommand(_, env) => Some(TransactionKey(env.newId))
    case DuplicateCommand(_, env) => Some(TransactionKey(env.newId))
    case CreateAccountCommand(_, env) => Some(AccountKey(env.newId))
    case _ => None
  }

  predicate Generates(request: seq<Command>, key: Key) {
    exists a :: 0 <= a < |request| && Generated(request[a]) == Some(key)
  }

  /** No two requests of the run bring the same generated id. */
  ghost predicate DistinctIds(events: seq<Event>) {
    forall m, n, key | 0 <= m < n < |events| && events[m].Begin? && events[n].Begin? ::
      !(Generates(events[m].request, key) && Generates(events[n].request, key))
  }

  /** Some committed version of the row has existed. */
  predicate Used(s: System, key: Key) {
    match key
    case TransactionKey(id) => exists t | t in s.rows :: t.id == id
    case AccountKey(id) => exists a | a in s.accounts :: a.id == id
  }

  predicate Inserts(s: Statement) {
    s.InsertTransaction? || s.InsertAccount?
  }

  // ---- What clients know of ids -------------------------------------------

  predicate StepOwn(request: seq<Command>, step: Step) {
    (step.EnterStep? ==> Generates(request, TransactionKey(step.t.id))) &&
    (step.InsertAccountStep? ==> Generates(request, AccountKey(step.a.id)))
  }

  /** Whatever a client is going to insert has an id that its request brought. */
  predicate InsertsOwn(request: seq<Command>, now: Progress, queue: seq<Step>) {
    (forall k | 0 <= k < |queue| :: StepOwn(request, queue[k])) &&
    (now.Doing? ==> forall k | 0 <= k < |now.statements| && Inserts(now.statements[k]) :: Generates(request, KeyOf(now.statements[k])))
  }

  /** Whatever a client has locked is a row that was committed once or one it brought itself. */
  ghost predicate LocksKnown(s: System, request: seq<Command>, locks: Locks) {
    forall key | Holds(locks, key) :: Used(s, key) || Generates(request, key)
  }

  ghost predicate Unused(s: System, request: seq<Command>) {
    forall key | Generates(request, key) :: !Used(s, key)
  }

  ghost predicate OwnIds(s: System, c: Client) {
    c.Active? ==> InsertsOwn(c.request, c.now, c.queue) && LocksKnown(s, c.request, c.locks) && Unused(s, c.request)
  }

  ghost predicate NoCommonIds(c: Client, d: Client) {
    c.Active? && d.Active? ==> forall key :: !(Generates(c.request, key) && Generates(d.request, key))
  }

  /** One of the first `n` events began a request that brought the id. */
  predicate Brought(events: seq<Event>, n: nat, key: Key)
    requires n <= |events|
  {
    exists m :: 0 <= m < n && events[m].Begin? && Generates(events[m].request, key)
  }

  ghost predicate AllBrought(s: System, events: seq<Event>, n: nat)
    requires n <= |events|
  {
    (forall key | Used(s, key) :: Brought(events, n, key)) &&
    (forall i, key | 0 <= i < |s.clients| && s.clients[i].Active? && Generates(s.clients[i].request, key) :: Brought(events, n, key))
  }

  ghost predicate IdsOk(s: System) {
    (forall i | 0 <= i < |s.clients| :: OwnIds(s, s.clients[i])) &&
    (forall i, j | 0 <= i < |s.clients| && 0 <= j < |s.clients| && i != j :: NoCommonIds(s.clients[i], s.clients[j]))
  }

  // ---- A client's own moves -----------------------------------------------

  lemma CommandOwn(request: seq<Command>, n: nat, o: Observation)
    requires n < |request|
    ensures forall k | 0 <= k < |StepsOf(request[n], o)| :: StepOwn(request, StepsOf(request[n], o)[k])
  {
    if request[n].CreateAccountCommand? {
      assert Generated(request[n]) == Some(AccountKey(request[n].env.newId));
    }
  }

  lemma BegunOwn(request: seq<Command>, step: Step)
    requires StepOwn(request, step)
    ensures InsertsOwn(request, Begun(step), [])
  {
  }

  /** The row a guarded write or a stamp is about has been committed once, or is one the client has written. */
  lemma WrittenKnown(s: System, request: seq<Command>, locks: Locks, w: Statement)
    requires Consistent(s.committed) && History(s) && LocksKnown(s, request, locks)
    requires !w.ReadAccount? && !Inserts(w) && Act(View(s.committed, locks), w).Success?
    ensures Used(s, KeyOf(w)) || Generates(request, KeyOf(w))
  {
    var key := KeyOf(w);
    if OnTransaction(w) {
      ViewRow(s.committed, locks, key.id);
    } else {
      ViewAccount(s.committed, locks, key.id);
    }
  }

  lemma OwnAdvance(s: System, c: Client)
    requires Consistent(s.committed) && History(s) && OwnIds(s, c) && CanAdvance(c)
    ensures OwnIds(s, AfterAdvance(s.committed, c))
  {
    if Advanced(s.committed, c).Success? && c.now.Doing? {
      if c.now.statements != [] {
        OwnStatement(s, c, c.now.statements);
      } else if c.queue != [] {
        BegunOwn(c.request, c.queue[0]);
      } else {
        CommandOwn(c.request, |c.seen|, Observe(View(s.committed, c.locks), c.request[|c.seen|]));
      }
    }
  }

  lemma OwnStatement(s: System, c: Client, ss: seq<Statement>)
    requires Consistent(s.committed) && History(s) && OwnIds(s, c) && CanAdvance(c)
    requires c.now == Doing(ss) && ss != [] && Advanced(s.committed, c).Success?
    ensures OwnIds(s, Advanced(s.committed, c).value)
  {
    if !ss[0].ReadAccount? && !Inserts(ss[0]) {
      WrittenKnown(s, c.request, c.locks, ss[0]);
    }
  }

  // ---- Events -------------------------------------------------------------

  /** A request that begins brings ids that nobody has and that no row has ever had. */
  lemma BeginsUnused(s: System, events: seq<Event>, n: nat)
    requires DistinctIds(events) && n < |events| && events[n].Begin? && AllBrought(s, events, n)
    ensures Unused(s, events[n].request)
    ensures forall i | 0 <= i < |s.clients| :: NoCommonIds(Started(events[n].user, events[n].request), s.clients[i])
  {
    forall key | Generates(events[n].request, key) ensures !Brought(events, n, key) {}
  }

  /** Every client knows only its own ids when one of them has moved and none has committed. */
  lemma IdsReplaced(s: System, t: System, i: nat)
    requires IdsOk(s) && i < |s.clients| == |t.clients| && s.rows == t.rows && s.accounts == t.accounts
    requires forall j | 0 <= j < |s.clients| && j != i :: t.clients[j] == s.clients[j]
    requires OwnIds(s, t.clients[i]) && forall j | 0 <= j < |s.clients| && j != i :: NoCommonIds(t.clients[i], s.clients[j])
    ensures IdsOk(t)
  {
    assert forall key :: Used(s, key) == Used(t, key);
    forall j | 0 <= j < |t.clients| ensures OwnIds(t, t.clients[j]) {
      assert OwnIds(s, t.clients[j]);
    }
    forall j, k | 0 <= j < |t.clients| && 0 <= k < |t.clients| && j != k ensures NoCommonIds(t.clients[j], t.clients[k]) {
      if j != i && k != i {
        assert NoCommonIds(s.clients[j], s.clients[k]);
      } else {
        assert NoCommonIds(t.clients[i], s.clients[if j == i then k else j]);
      }
    }
  }

  lemma IdsAdvance(s: System, i: nat)
    requires Inv(s) && IdsOk(s) && Enabled(s, Advance(i))
    ensures IdsOk(After(s, Advance(i)))
  {
    var c := AfterAdvance(s.committed, s.clients[i]);
    assert OwnIds(s, s.clients[i]);
    OwnAdvance(s, s.clients[i]);
    forall j | 0 <= j < |s.clients| && j != i ensures NoCommonIds(c, s.clients[j]) {}
    IdsReplaced(s, After(s, Advance(i)), i);
  }

  lemma IdsBegin(s: System, events: seq<Event>, n: nat)
    requires IdsOk(s) && DistinctIds(events) && n < |events| && events[n].Begin? && AllBrought(s, events, n) && Enabled(s, events[n])
    ensures IdsOk(After(s, events[n]))
  {
    BeginsUnused(s, events, n);
    IdsReplaced(s, After(s, events[n]), events[n].i);
  }

  lemma UsedAfterCommit(s: System, i: nat)
    requires Inv(s) && IdsOk(s) && Enabled(s, Commit(i))
    ensures forall key | Used(After(s, Commit(i)), key) :: Used(s, key) || Generates(s.clients[i].request, key)
  {
    var c, t := s.clients[i], After(s, Commit(i));
    assert OwnIds(s, c) && ClientOk(s, c);
    forall key | Used(t, key) ensures Used(s, key) || Generates(c.request, key) {}
  }

  lemma IdsCommit(s: System, i: nat)
    requires Inv(s) && IdsOk(s) && Enabled(s, Commit(i))
    ensures IdsOk(After(s, Commit(i)))
  {
    var c, t := s.clients[i], After(s, Commit(i));
    UsedAfterCommit(s, i);
    forall j | 0 <= j < |t.clients| ensures OwnIds(t, t.clients[j]) {
      if j != i {
        assert OwnIds(s, s.clients[j]) && NoCommonIds(c, s.clients[j]);
      }
    }
    forall j, k | 0 <= j < |t.clients| && 0 <= k < |t.clients| && j != k ensures NoCommonIds(t.clients[j], t.clients[k]) {
      assert NoCommonIds(s.clients[j], s.clients[k]);
    }
  }

  lemma IdsAfter(s: System, events: seq<Event>, n: nat)
    requires Inv(s) && IdsOk(s) && DistinctIds(events) && n < |events| && AllBrought(s, events, n) && Enabled(s, events[n])
    ensures IdsOk(After(s, events[n]))
  {
    match events[n]
    case Begin(_, _, _) => IdsBegin(s, events, n);
    case Advance(i) => IdsAdvance(s, i);
    case Commit(i) => IdsCommit(s, i);
    case Abort(i) => IdsReplaced(s, After(s, events[n]), i);
  }

  lemma BroughtAfter(s: System, events: seq<Event>, n: nat)
    requires Inv(s) && IdsOk(s) && n < |events| && AllBrought(s, events, n) && Enabled(s, events[n])
    ensures AllBrought(After(s, events[n]), events, n + 1)
  {
    if events[n].Begin? {
      BroughtBegin(s, events, n);
    } else {
      if events[n].Commit? {
        UsedAfterCommit(s, events[n].i);
      }
      BroughtMore(s, After(s, events[n]), events, n);
    }
  }

  lemma BroughtLater(events: seq<Event>, n: nat, key: Key)
    requires n < |events|
    ensures Brought(events, n, key) ==> Brought(events, n + 1, key)
    ensures events[n].Begin? && Generates(events[n].request, key) ==> Brought(events, n + 1, key)
  {
  }

  lemma BroughtMore(s: System, t: System, events: seq<Event>, n: nat)
    requires n < |events| && AllBrought(s, events, n) && |t.clients| == |s.clients|
    requires forall i | 0 <= i < |t.clients| && t.clients[i].Active? :: s.clients[i].Active? && t.clients[i].request == s.clients[i].request
    requires forall key | Used(t, key) ::
               Used(s, key) || exists i :: 0 <= i < |s.clients| && s.clients[i].Active? && Generates(s.clients[i].request, key)
    ensures AllBrought(t, events, n + 1)
  {
    forall key | Brought(events, n, key) ensures Brought(events, n + 1, key) {
      BroughtLater(events, n, key);
    }
    forall key | Used(t, key) ensures Brought(events, n + 1, key) {
      if !Used(s, key) {
        var i :| 0 <= i < |s.clients| && s.clients[i].Active? && Generates(s.clients[i].request, key);
        assert Brought(events, n, key);
      }
    }
    forall i, key | 0 <= i < |t.clients| && t.clients[i].Active? && Generates(t.clients[i].request, key) ensures Brought(events, n + 1, key) {
      assert Generates(s.clients[i].request, key) && Brought(events, n, key);
    }
  }

  lemma BroughtBegin(s: System, events: seq<Event>, n: nat)
    requires n < |events| && AllBrought(s, events, n) && events[n].Begin? && Enabled(s, events[n])
    ensures AllBrought(After(s, events[n]), events, n + 1)
  {
    var t := After(s, events[n]);
    forall key | Used(t, key) ensures Brought(events, n + 1, key) {
      assert Used(s, key);
      BroughtLater(events, n, key);
    }
    forall i, key | 0 <= i < |t.clients| && t.clients[i].Active? && Generates(t.clients[i].request, key) ensures Brought(events, n + 1, key) {
      BroughtLater(events, n, key);
    }
  }

  lemma {:induction false} AlwaysOwnIds(events: seq<Event>, states: seq<System>, n: nat)
    requires IsInterleaving(events, states) && DistinctIds(events) && n <= |events|
    ensures IdsOk(states[n]) && AllBrought(states[n], events, n)
  {
    if n > 0 {
      AlwaysOwnIds(events, states, n - 1);
      NextIds(events, states, n - 1);
    }
  }

  lemma NextIds(events: seq<Event>, states: seq<System>, n: nat)
    requires IsInterleaving(events, states) && DistinctIds(events) && n < |events|
    requires IdsOk(states[n]) && AllBrought(states[n], events, n)
    ensures IdsOk(states[n + 1]) && AllBrought(states[n + 1], events, n + 1)
  {
    AlwaysInv(events, states, n);
    assert Happens(events, states, n);
    IdsAfter(states[n], events, n);
    BroughtAfter(states[n], events, n);
  }

  // ---- Waiting ------------------------------------------------------------

  /** Nobody waits in order to insert. */
  predicate NoInsertWaits(s: System) {
    forall i, j | 0 <= i < |s.clients| && 0 <= j < |s.clients| && Waits(s, i, j) :: !Inserts(s.clients[i].now.statements[0])
  }

  /** With distinct generated ids nobody ever waits in order to insert a row. */
  lemma InsertsNeverWait(events: seq<Event>, states: seq<System>, n: nat)
    requires IsInterleaving(events, states) && DistinctIds(events) && n <= |events|
    ensures NoInsertWaits(states[n])
  {
    AlwaysOwnIds(events, states, n);
    var s := states[n];
    forall i, j | 0 <= i < |s.clients| && 0 <= j < |s.clients| && Waits(s, i, j) ensures !Inserts(s.clients[i].now.statements[0]) {
      assert OwnIds(s, s.clients[i]) && OwnIds(s, s.clients[j]) && NoCommonIds(s.clients[i], s.clients[j]);
    }
  }
}
