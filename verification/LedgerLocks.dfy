/** The order in which the ledger operations lock rows, and what it means for waiting. */
module LedgerLocks {
  import opened Prelude
  import opened LedgerRows
  import opened LedgerSpec
  import opened LedgerInvariant
  import opened LedgerStatements
  import opened LedgerPlans
  import opened LedgerConcurrency
  import opened LedgerInterleavings
  import opened LedgerIds
  import Strings

  // ---- The order of the rows ----------------------------------------------

  /** Transaction rows come before accounts, and rows of one table come in ascending id order. */
  predicate Before(a: Key, b: Key) {
    if a.TransactionKey? == b.TransactionKey? then Strings.Less(a.id, b.id) else a.TransactionKey?
  }

  predicate UpTo(a: Key, b: Key) {
    a == b || Before(a, b)
  }

  lemma BeforeTransitive(a: Key, b: Key, c: Key)
    requires Before(a, b) && Before(b, c)
    ensures Before(a, c)
  {
    if a.TransactionKey? == c.TransactionKey? {
      Strings.LessTransitive(a.id, b.id, c.id);
    }
  }

  lemma BeforeIrreflexive(a: Key)
    ensures !Before(a, a)
  {
    Strings.LessIrreflexive(a.id);
  }

  // ---- Requests that go upward --------------------------------------------

  /** The transaction row a command names for writing. */
  function Names(c: Command): Option<Id> {
    match c
    case PatchCommand(p, _) => Some(p.id)
    case ItemCommand(item) => Some(item.input.id)
    case DeleteCommand(_, id, _) => Some(id)
    case PostCommand(_, id, _) => Some(id)
    case CancelCommand(_, id, _) => Some(id)
    case _ => None
  }

  /** Commands that may write accounts. */
  predicate Settles(c: Command) {
    match c
    case CreateCommand(input, _) => input.status == Some(Posted)
    case ItemCommand(item) => item.input.status in {Some(Some(Posted)), Some(Some(Cancelled))}
    case PatchCommand(_, _) | DeleteCommand(_, _, _) => false
    case _ => true
  }

  /**
   * The commands name their rows in ascending id order and none but the last may write accounts. Every
   * single operation is such a request; a caller can see of a bulk one whether it is.
   */
  predicate Upward(request: seq<Command>) {
    forall a, b | 0 <= a < b < |request| :: !Settles(request[a]) && InTurn(request[a], request[b])
  }

  predicate InTurn(c: Command, d: Command) {
    Names(c).Some? && Names(d).Some? ==> UpTo(TransactionKey(Names(c).value), TransactionKey(Names(d).value))
  }

  predicate GoesUpward(c: Client) {
    c.Active? && Upward(c.request)
  }

  /** The statements to do want their rows in order, with an insertion only at the end. */
  predicate InOrder(ss: seq<Statement>) {
    (forall j, k | 0 <= j < k < |ss| && !Inserts(ss[k]) :: Before(KeyOf(ss[j]), KeyOf(ss[k]))) &&
    (forall k | 0 <= k < |ss| && Inserts(ss[k]) :: k == |ss| - 1)
  }

  /** No locked row comes after a row still wanted. */
  predicate LockedBefore(locks: Locks, ss: seq<Statement>) {
    forall k | 0 <= k < |ss| && !Inserts(ss[k]) :: LockedUpTo(locks, KeyOf(ss[k]))
  }

  predicate LockedUpTo(locks: Locks, key: Key) {
    (forall id | id in locks.rows :: UpTo(TransactionKey(id), key)) && (forall id | id in locks.accounts :: UpTo(AccountKey(id), key))
  }

  /** The transaction row a step reads and then writes. */
  function Reads(step: Step): Option<Id> {
    match step
    case PatchStep(p, _) => Some(p.id)
    case PostStep(_, id, _) => Some(id)
    case CancelStep(_, id, _) => Some(id)
    case DeleteStep(_, id, _) => Some(id)
    case _ => None
  }

  /** Steps that write no account. */
  predicate Light(step: Step) {
    step.PatchStep? || step.DeleteStep? || step.RaiseStep? || (step.EnterStep? && step.t.status != Posted)
  }

  /** So far no account has been touched, and the step under way will not touch one. */
  predicate Quiet(locks: Locks, now: Progress) {
    && locks.accounts == map[]
    && (now.Reading? ==> now.use.ToPatch? || now.use.ToDelete?)
    && (now.Doing? ==> forall k | 0 <= k < |now.statements| :: OnTransaction(now.statements[k]))
  }

  /** Nothing locked or under way concerns a transaction row after the one under `id`. */
  predicate Behind(locks: Locks, now: Progress, id: Id) {
    && (forall k | k in locks.rows :: UpTo(TransactionKey(k), TransactionKey(id)))
    && (now.Reading? ==> UpTo(TransactionKey(now.id), TransactionKey(id)))
    && (now.Doing? ==> forall k | 0 <= k < |now.statements| && OnTransaction(now.statements[k]) ::
                         UpTo(KeyOf(now.statements[k]), TransactionKey(id)))
  }

  /** What is locked fits what the step under way still wants. */
  predicate Fits(locks: Locks, now: Progress) {
    && (now.Doing? ==> InOrder(now.statements) && LockedBefore(locks, now.statements))
    && (now.Reading? ==> LockedUpTo(locks, TransactionKey(now.id)))
  }

  /** The steps still queued are at most two, on one row, and only the last may touch accounts. */
  predicate QueueFits(locks: Locks, now: Progress, queue: seq<Step>) {
    && (queue != [] ==> Quiet(locks, now))
    && (forall k | 0 <= k < |queue| && Reads(queue[k]).Some? :: Behind(locks, now, Reads(queue[k]).value))
    && |queue| <= 2 && (|queue| == 2 ==> queue[0].PatchStep? && (Reads(queue[1]).Some? ==> Reads(queue[1]) == Reads(queue[0])))
  }

  /** A command still to come names no row before anything locked, under way or queued. */
  predicate ComesAfter(locks: Locks, now: Progress, queue: seq<Step>, later: Command) {
    && Quiet(locks, now) && (forall k | 0 <= k < |queue| :: Light(queue[k]))
    && (Names(later).Some? ==>
          Behind(locks, now, Names(later).value)
          && forall k | 0 <= k < |queue| ::
               queue[k].RaiseStep?
               || (Reads(queue[k]).Some? && UpTo(TransactionKey(Reads(queue[k]).value), TransactionKey(Names(later).value))))
  }

  predicate Ordered(c: Client) {
    GoesUpward(c) ==>
      && Fits(c.locks, c.now) && QueueFits(c.locks, c.now, c.queue)
      && forall k | |c.seen| <= k < |c.request| :: ComesAfter(c.locks, c.now, c.queue, c.request[k])
  }

  // ---- The statements of a step are in order ------------------------------

  lemma {:induction false} AdjustmentsKeys(user: Id, deltas: map<Id, Int64>, ids: seq<Id>, at: Time)
    requires forall i | 0 <= i < |ids| :: ids[i] in deltas
    ensures forall k | 0 <= k < |Adjustments(user, deltas, ids, at)| ::
              var s := Adjustments(user, deltas, ids, at)[k]; s.ReadAccount? && s.account in ids
  {
    if ids != [] {
      AdjustmentsKeys(user, deltas, ids[1..], at);
    }
  }

  lemma {:induction false} AdjustmentsInOrder(user: Id, deltas: map<Id, Int64>, ids: seq<Id>, at: Time)
    requires Strings.Ascending(ids) && forall i | 0 <= i < |ids| :: ids[i] in deltas
    ensures InOrder(Adjustments(user, deltas, ids, at))
  {
    if ids != [] {
      AdjustmentsInOrder(user, deltas, ids[1..], at);
      AdjustmentsKeys(user, deltas, ids[1..], at);
      var rest := Adjustments(user, deltas, ids[1..], at);
      forall k | 0 <= k < |rest| ensures Before(AccountKey(ids[0]), KeyOf(rest[k])) {
        var i :| 0 <= i < |ids[1..]| && ids[1..][i] == rest[k].account;
        assert ids[i + 1] == rest[k].account;
      }
    }
  }

  lemma EffectsInOrder(user: Id, t: Transaction, sign: int, at: Time)
    requires Effects(user, t, sign, at).Success?
    ensures InOrder(Effects(user, t, sign, at).value)
  {
    var deltas := SignedDeltas(Deltas(t).value, sign);
    Strings.SortedSeqElements(deltas.Keys);
    Strings.SortedSeqAscending(deltas.Keys);
    AdjustmentsInOrder(user, deltas, Strings.SortedSeq(deltas.Keys), at);
  }

  lemma BegunInOrder(step: Step)
    requires Begun(step).Doing?
    ensures InOrder(Begun(step).statements)
  {
    match step
    case EnterStep(t, env) =>
      if t.status == Posted {
        EffectsInOrder(t.user, t, 1, env.now);
      }
    case _ =>
  }

  lemma UseInOrder(t: Transaction, user: Id, use: TransactionUse)
    requires UseTransaction(t, user, use).Success?
    ensures InOrder(UseTransaction(t, user, use).value)
  {
    match use
    case ToPost(env) =>
      var next := PostedRow(t, env.now).value;
      EffectsInOrder(user, next, 1, env.now);
    case ToCancel(env) =>
      if t.status == Posted {
        EffectsInOrder(user, t, -1, env.now);
      }
    case _ =>
  }

  // ---- What a command's steps are like ------------------------------------

  /** At most two steps, on the row the command names, and light ones before the last or throughout. */
  lemma StepsAreLike(c: Command, o: Observation)
    ensures var steps := StepsOf(c, o);
            && |steps| <= 2
            && (forall k | 0 <= k < |steps| && Reads(steps[k]).Some? :: Names(c) == Reads(steps[k]))
            && (forall k | 0 <= k < |steps| && !Settles(c) :: Light(steps[k]))
            && (|steps| == 2 ==> steps[0].PatchStep?)
            && (c.ItemCommand? ==> forall k | 0 <= k < |steps| :: steps[k].RaiseStep? || Reads(steps[k]).Some?)
  {
    match c
    case CreateCommand(input, env) =>
      if NewTransaction(CreateParams(input, env)).Success? {
        NewTransactionStored(CreateParams(input, env));
      }
    case _ =>
  }

  // ---- Clients stay ordered -----------------------------------------------

  lemma TakesCommand(c: Client, o: Observation)
    requires GoesUpward(c) && IsRequest(c.request, c.user) && Ordered(c) && c.now == Doing([]) && c.queue == [] && |c.seen| < |c.request|
    ensures Ordered(c.(seen := c.seen + [o], queue := StepsOf(c.request[|c.seen|], o)))
  {
    var n := |c.seen|;
    var queue := StepsOf(c.request[n], o);
    StepsAreLike(c.request[n], o);
    assert ComesAfter(c.locks, c.now, c.queue, c.request[n]);
    forall k | n < k < |c.request| ensures ComesAfter(c.locks, c.now, queue, c.request[k]) {
      assert ComesAfter(c.locks, c.now, c.queue, c.request[k]) && !Settles(c.request[n]) && InTurn(c.request[n], c.request[k]);
    }
  }

  lemma BeginsStep(locks: Locks, step: Step)
    requires locks.accounts == map[] && (Reads(step).Some? ==> LockedUpTo(locks, TransactionKey(Reads(step).value)))
    ensures Fits(locks, Begun(step))
    ensures Light(step) ==> Quiet(locks, Begun(step))
    ensures Begun(step).Reading? ==> Reads(step) == Some(Begun(step).id)
    ensures step.RaiseStep? ==> Begun(step).Failed?
    ensures Begun(step).Doing? ==> Reads(step).None?
  {
    if Begun(step).Doing? {
      BegunInOrder(step);
    }
  }

  lemma TakesStep(c: Client)
    requires GoesUpward(c) && Ordered(c) && c.now == Doing([]) && c.queue != []
    ensures Ordered(c.(done := c.done + [c.queue[0]], queue := c.queue[1..], now := Begun(c.queue[0])))
  {
    var step, rest, now := c.queue[0], c.queue[1..], Begun(c.queue[0]);
    BeginsStep(c.locks, step);
    assert |rest| > 0 ==> rest == [c.queue[1]];
    forall k | |c.seen| <= k < |c.request| ensures ComesAfter(c.locks, now, rest, c.request[k]) {
      assert ComesAfter(c.locks, c.now, c.queue, c.request[k]);
    }
  }

  lemma UsesRead(t: Transaction, user: Id, use: TransactionUse, ss: seq<Statement>, locks: Locks)
    requires UseTransaction(t, user, use) == Success(ss) && LockedUpTo(locks, TransactionKey(t.id)) && locks.accounts == map[]
    ensures Fits(locks, Doing(ss))
    ensures use.ToPatch? || use.ToDelete? ==> Quiet(locks, Doing(ss))
    ensures forall k | 0 <= k < |ss| && OnTransaction(ss[k]) :: KeyOf(ss[k]) == TransactionKey(t.id)
  {
    UseInOrder(t, user, use);
  }

  lemma ReadsRow(c: Client, t: Transaction, ss: seq<Statement>)
    requires GoesUpward(c) && Ordered(c) && c.now.Reading? && t.id == c.now.id
    requires UseTransaction(t, c.now.user, c.now.use) == Success(ss)
    ensures Ordered(c.(now := Doing(ss)))
  {
    assert c.locks.accounts == map[] by {
      assert forall id | id in c.locks.accounts :: UpTo(AccountKey(id), TransactionKey(t.id));
    }
    UsesRead(t, c.now.user, c.now.use, ss, c.locks);
    forall k | |c.seen| <= k < |c.request| ensures ComesAfter(c.locks, Doing(ss), c.queue, c.request[k]) {
      assert ComesAfter(c.locks, c.now, c.queue, c.request[k]);
    }
  }

  lemma ReadInOrder(ss: seq<Statement>, locks: Locks, w: Statement)
    requires Fits(locks, Doing(ss)) && ss != [] && ss[0].ReadAccount? && w.WriteAccount? && KeyOf(w) == KeyOf(ss[0])
    ensures Fits(locks, Doing([w] + ss[1..]))
  {
    var next := [w] + ss[1..];
    assert forall k | 0 <= k < |ss| :: KeyOf(next[k]) == KeyOf(ss[k]) && Inserts(next[k]) == Inserts(ss[k]);
  }

  /** A statement on an account is one of the last things a client does. */
  lemma AccountsComeLast(c: Client, ss: seq<Statement>)
    requires GoesUpward(c) && Ordered(c) && c.now == Doing(ss) && ss != [] && !OnTransaction(ss[0])
    ensures c.queue == [] && |c.seen| >= |c.request|
  {
    var k := |c.seen|;
    assert !Quiet(c.locks, c.now) && (k < |c.request| ==> ComesAfter(c.locks, c.now, c.queue, c.request[k]));
  }

  lemma Writes(c: Client, ss: seq<Statement>, next: Db)
    requires GoesUpward(c) && Ordered(c) && c.now == Doing(ss) && ss != [] && !ss[0].ReadAccount?
    ensures Ordered(c.(now := Doing(ss[1..]), locks := Lock(c.locks, ss[0], next)))
  {
    var locked := Lock(c.locks, ss[0], next);
    if OnTransaction(ss[0]) {
      forall k | |c.seen| <= k < |c.request| ensures ComesAfter(locked, Doing(ss[1..]), c.queue, c.request[k]) {
        assert ComesAfter(c.locks, c.now, c.queue, c.request[k]);
      }
    } else {
      AccountsComeLast(c, ss);
    }
  }

  lemma ReadsAccount(c: Client, view: Db, ss: seq<Statement>, acted: Acted)
    requires GoesUpward(c) && Ordered(c) && c.now == Doing(ss) && ss != [] && ss[0].ReadAccount? && Act(view, ss[0]) == Success(acted)
    requires forall k | k in view.accounts :: view.accounts[k].id == k
    ensures Ordered(c.(now := Doing(acted.todo + ss[1..])))
  {
    assert acted == Acted(view, [acted.todo[0]]);
    ReadKey(view, ss[0], acted.todo[0]);
    ReadInOrder(ss, c.locks, acted.todo[0]);
    AccountsComeLast(c, ss);
  }

  /** Whatever a client that goes upward does next, it never wants a row before one it has locked. */
  lemma OrderedAdvance(s: System, c: Client)
    requires Consistent(s.committed) && Ordered(c) && CanAdvance(c) && LocksKeyed(c.locks) && IsRequest(c.request, c.user)
    ensures Ordered(AfterAdvance(s.committed, c))
  {
    if GoesUpward(c) && Advanced(s.committed, c).Success? {
      var view := View(s.committed, c.locks);
      ViewKeyed(s.committed, c.locks);
      match c.now
      case Reading(user, id, use) => ReadsRow(c, view.transactions[id], UseTransaction(view.transactions[id], user, use).value);
      case Doing(ss) =>
        if ss != [] {
          OrderedStatement(c, view, ss, Act(view, ss[0]).value);
        } else if c.queue != [] {
          TakesStep(c);
        } else {
          TakesCommand(c, Observe(view, c.request[|c.seen|]));
        }
    }
  }

  lemma OrderedStatement(c: Client, view: Db, ss: seq<Statement>, acted: Acted)
    requires GoesUpward(c) && Ordered(c) && c.now == Doing(ss) && ss != [] && Act(view, ss[0]) == Success(acted)
    requires forall k | k in view.accounts :: view.accounts[k].id == k
    ensures Ordered(c.(now := Doing(acted.todo + ss[1..]), locks := Lock(c.locks, ss[0], acted.db)))
  {
    if ss[0].ReadAccount? {
      ReadsAccount(c, view, ss, acted);
    } else {
      Writes(c, ss, acted.db);
      assert acted.todo + ss[1..] == ss[1..];
    }
  }

  predicate AllOrdered(s: System) {
    forall i | 0 <= i < |s.clients| :: Ordered(s.clients[i])
  }

  lemma OrderedAfter(s: System, e: Event)
    requires Inv(s) && AllOrdered(s) && Enabled(s, e)
    ensures AllOrdered(After(s, e))
  {
    if e.Advance? {
      assert ClientOk(s, s.clients[e.i]);
      OrderedAdvance(s, s.clients[e.i]);
    }
    forall i | 0 <= i < |s.clients| ensures Ordered(After(s, e).clients[i]) {
      assert Ordered(s.clients[i]);
    }
  }

  lemma {:induction false} AlwaysOrdered(events: seq<Event>, states: seq<System>, n: nat)
    requires IsInterleaving(events, states) && n <= |events|
    ensures AllOrdered(states[n])
  {
    if n > 0 {
      AlwaysOrdered(events, states, n - 1);
      OrderedHappens(events, states, n - 1);
    }
  }

  lemma OrderedHappens(events: seq<Event>, states: seq<System>, n: nat)
    requires IsInterleaving(events, states) && n < |events| && AllOrdered(states[n])
    ensures AllOrdered(states[n + 1])
  {
    AlwaysInv(events, states, n);
    assert Happens(events, states, n);
    OrderedAfter(states[n], events[n]);
  }

  // ---- Waiting ------------------------------------------------------------

  /** A client that waits for a row holds only rows before it, so whoever it waits for wants a later row still. */
  lemma WaitsForward(s: System, i: nat, j: nat, k: nat)
    requires Inv(s) && AllOrdered(s) && NoInsertWaits(s)
    requires Waits(s, i, j) && Waits(s, j, k) && GoesUpward(s.clients[j])
    ensures Before(Wanted(s.clients[i]).value, Wanted(s.clients[j]).value)
  {
    assert Ordered(s.clients[j]) && !Inserts(s.clients[j].now.statements[0]);
    var first, second := Wanted(s.clients[i]).value, Wanted(s.clients[j]).value;
    assert LockedUpTo(s.clients[j].locks, second) && UpTo(first, second);
  }

  /** Each client of the sequence waits for the next one, and the last for the first. */
  predicate WaitCycle(s: System, cycle: seq<nat>) {
    cycle != [] &&
    (forall k | 0 <= k < |cycle| - 1 :: Waits(s, cycle[k], cycle[k + 1])) && Waits(s, cycle[|cycle| - 1], cycle[0])
  }

  lemma {:induction false} WantedAscends(s: System, cycle: seq<nat>, k: nat)
    requires Inv(s) && AllOrdered(s) && NoInsertWaits(s) && WaitCycle(s, cycle) && 0 < k < |cycle|
    requires forall m | 0 <= m < |cycle| :: cycle[m] < |s.clients| && GoesUpward(s.clients[cycle[m]])
    ensures Wanted(s.clients[cycle[0]]).Some? && Wanted(s.clients[cycle[k]]).Some?
    ensures Before(Wanted(s.clients[cycle[0]]).value, Wanted(s.clients[cycle[k]]).value)
  {
    assert Waits(s, cycle[k - 1], cycle[k]);
    var after := if k + 1 < |cycle| then cycle[k + 1] else cycle[0];
    assert Waits(s, cycle[k], after);
    WaitsForward(s, cycle[k - 1], cycle[k], after);
    if k > 1 {
      WantedAscends(s, cycle, k - 1);
      BeforeTransitive(Wanted(s.clients[cycle[0]]).value, Wanted(s.clients[cycle[k - 1]]).value, Wanted(s.clients[cycle[k]]).value);
    }
  }

  /** Clients that go upward, as single operations do, never wait for each other in a cycle. */
  lemma NoWaitCycle(events: seq<Event>, states: seq<System>, n: nat, cycle: seq<nat>)
    requires IsInterleaving(events, states) && n <= |events| && DistinctIds(events)
    requires forall m | 0 <= m < |cycle| :: cycle[m] < |states[n].clients| && GoesUpward(states[n].clients[cycle[m]])
    ensures !WaitCycle(states[n], cycle)
  {
    AlwaysInv(events, states, n);
    AlwaysOrdered(events, states, n);
    InsertsNeverWait(events, states, n);
    var s := states[n];
    if WaitCycle(s, cycle) {
      var first, last := cycle[0], cycle[|cycle| - 1];
      assert |cycle| > 1;
      assert Waits(s, first, cycle[1]);
      WaitsForward(s, last, first, cycle[1]);
      WantedAscends(s, cycle, |cycle| - 1);
      BeforeTransitive(Wanted(s.clients[first]).value, Wanted(s.clients[last]).value, Wanted(s.clients[first]).value);
      BeforeIrreflexive(Wanted(s.clients[first]).value);
    }
  }

  /** The clients that want a row after the one `i` wants. */
  function WantingLater(s: System, i: nat): set<nat>
    requires i < |s.clients| && Wanted(s.clients[i]).Some?
  {
    set k: nat | 0 <= k < |s.clients| && Wanted(s.clients[k]).Some? && Before(Wanted(s.clients[i]).value, Wanted(s.clients[k]).value)
  }

  lemma LaterShrinks(s: System, i: nat, j: nat)
    requires i < |s.clients| && j < |s.clients| && Wanted(s.clients[i]).Some? && Wanted(s.clients[j]).Some?
    requires Before(Wanted(s.clients[i]).value, Wanted(s.clients[j]).value)
    ensures WantingLater(s, j) < WantingLater(s, i)
  {
    forall k | k in WantingLater(s, j) ensures k in WantingLater(s, i) {
      BeforeTransitive(Wanted(s.clients[i]).value, Wanted(s.clients[j]).value, Wanted(s.clients[k]).value);
    }
    BeforeIrreflexive(Wanted(s.clients[j]).value);
    assert j in WantingLater(s, i);
  }

  lemma {:induction false} FollowWaits(s: System, i: nat) returns (free: nat)
    requires Inv(s) && AllOrdered(s) && NoInsertWaits(s) && i < |s.clients| && s.clients[i].Active?
    requires forall k | 0 <= k < |s.clients| && s.clients[k].Active? :: GoesUpward(s.clients[k])
    ensures free < |s.clients| && s.clients[free].Active? && !Blocked(s, free)
    decreases if Wanted(s.clients[i]).Some? then |WantingLater(s, i)| + 1 else 0
  {
    free := i;
    if Blocked(s, i) {
      var j: nat :| j < |s.clients| && Waits(s, i, j);
      free := j;
      if Blocked(s, j) {
        var k: nat :| k < |s.clients| && Waits(s, j, k);
        WaitsForward(s, i, j, k);
        LaterShrinks(s, i, j);
        SmallerSet(WantingLater(s, j), WantingLater(s, i));
        free := FollowWaits(s, j);
      }
    }
  }

  lemma {:induction false} SmallerSet(a: set<nat>, b: set<nat>)
    requires a < b
    ensures |a| < |b|
    decreases |a|
  {
    if a != {} {
      var x :| x in a;
      var y :| y in b && y !in a;
      assert y in b - {x} && y !in a - {x};
      SmallerSet(a - {x}, b - {x});
    }
  }

  /** While all that are under way go upward, one of them can always go on. */
  lemma SomeoneGoesOn(events: seq<Event>, states: seq<System>, n: nat, i: nat) returns (free: nat)
    requires IsInterleaving(events, states) && n <= |events| && DistinctIds(events)
    requires i < |states[n].clients| && states[n].clients[i].Active?
    requires forall k | 0 <= k < |states[n].clients| && states[n].clients[k].Active? :: GoesUpward(states[n].clients[k])
    ensures free < |states[n].clients| && states[n].clients[free].Active? && !Blocked(states[n], free)
  {
    AlwaysInv(events, states, n);
    AlwaysOrdered(events, states, n);
    InsertsNeverWait(events, states, n);
    free := FollowWaits(states[n], i);
  }
}
