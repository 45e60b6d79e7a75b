/** Two interleavings that show where the guarantees of the ledger end: crossing bulk patches, and equal stamps. */
module LedgerScenarios {
  import opened Prelude
  import opened LedgerRows
  import opened LedgerSpec
  import opened LedgerInvariant
  import opened LedgerDatabase
  import opened LedgerStatements
  import opened LedgerPlans
  import opened LedgerConcurrency
  import opened LedgerInterleavings
  import Strings

  // ---- Getting from one state to another ----------------------------------

  predicate Reaches(s: System, events: seq<Event>, t: System)
    decreases |events|
  {
    if events == [] then s == t else Enabled(s, events[0]) && Reaches(After(s, events[0]), events[1..], t)
  }

  lemma ReachesOne(s: System, e: Event, t: System)
    requires Enabled(s, e) && t == After(s, e)
    ensures Reaches(s, [e], t)
  {
    assert [e][1..] == [];
  }

  lemma ReachesMore(s: System, e: Event, m: System, rest: seq<Event>, t: System)
    requires Enabled(s, e) && m == After(s, e) && Reaches(m, rest, t)
    ensures Reaches(s, [e] + rest, t)
  {
    assert ([e] + rest)[1..] == rest;
  }

  lemma {:induction false} ReachesThen(s: System, first: seq<Event>, m: System, second: seq<Event>, t: System)
    requires Reaches(s, first, m) && Reaches(m, second, t)
    ensures Reaches(s, first + second, t)
    decreases |first|
  {
    if first == [] {
      assert first + second == second;
    } else {
      var next := After(s, first[0]);
      ReachesThen(next, first[1..], m, second, t);
      ReachesMore(s, first[0], next, first[1..] + second, t);
      assert [first[0]] + (first[1..] + second) == first + second;
    }
  }

  function With(s: System, i: nat, c: Client): System
    requires i < |s.clients|
  {
    s.(clients := s.clients[i := c])
  }

  /** An advance that locks nothing cannot be blocked. */
  lemma FreeAdvance(s: System, i: nat, next: Client)
    requires i < |s.clients| && CanAdvance(s.clients[i]) && Wanted(s.clients[i]).None?
    requires Advanced(s.committed, s.clients[i]) == Success(next)
    ensures Reaches(s, [Advance(i)], With(s, i, next))
  {
    ReachesOne(s, Advance(i), With(s, i, next));
  }

  /** Nobody but client `i` holds a row. */
  predicate FreeFor(s: System, i: nat, key: Key) {
    forall j | 0 <= j < |s.clients| && j != i && s.clients[j].Active? :: !Holds(s.clients[j].locks, key)
  }

  lemma LockingAdvance(s: System, i: nat, next: Client)
    requires i < |s.clients| && CanAdvance(s.clients[i]) && Wanted(s.clients[i]).Some? && FreeFor(s, i, Wanted(s.clients[i]).value)
    requires Advanced(s.committed, s.clients[i]) == Success(next)
    ensures Reaches(s, [Advance(i)], With(s, i, next))
  {
    ReachesOne(s, Advance(i), With(s, i, next));
  }

  /** A client between two commands that holds no account. */
  predicate AtRest(c: Client) {
    c.Active? && c.now == Doing([]) && c.queue == [] && |c.seen| < |c.request| && c.locks.accounts == map[]
  }

  // ---- One bulk item ------------------------------------------------------

  /** An item that would patch the committed row under its id, without a status change. */
  predicate Patches(db: Db, item: PatchItem) {
    item.input.status.None? && OwnsTransaction(db, item.input.user, item.input.id)
    && db.transactions[item.input.id].id == item.input.id
    && PatchedRow(db.transactions[item.input.id], item.input, item.patchEnv.now).Success?
    && !item.patchEnv.refused && References(db, PatchedRow(db.transactions[item.input.id], item.input, item.patchEnv.now).value)
  }

  function NextOf(db: Db, item: PatchItem): Transaction
    requires Patches(db, item)
  {
    PatchedRow(db.transactions[item.input.id], item.input, item.patchEnv.now).value
  }

  /** The client once it has read the row of its next item and is about to write it. */
  function AboutToWrite(db: Db, c: Client, item: PatchItem): (d: Client)
    requires AtRest(c) && Patches(db, item)
    ensures d.Active?
  {
    var row := db.transactions[item.input.id];
    c.(seen := c.seen + [SawTransaction(row)], done := c.done + [PatchStep(item.input, item.patchEnv)],
       now := Doing([WriteTransaction(row, NextOf(db, item), false)]))
  }

  /** The client once it has written that row. */
  function Wrote(db: Db, c: Client, item: PatchItem): Client
    requires AtRest(c) && Patches(db, item)
  {
    var d := AboutToWrite(db, c, item);
    d.(now := Doing([]), locks := Locks(c.locks.rows[item.input.id := Some(NextOf(db, item))], c.locks.accounts))
  }

  /** Three advances take a client from rest to the write of its next item. */
  lemma ItemRead(s: System, i: nat, item: PatchItem)
    requires i < |s.clients| && AtRest(s.clients[i]) && Patches(s.committed, item)
    requires s.clients[i].request[|s.clients[i].seen|] == ItemCommand(item) && item.input.id !in s.clients[i].locks.rows
    ensures Reaches(s, [Advance(i), Advance(i), Advance(i)], With(s, i, AboutToWrite(s.committed, s.clients[i], item)))
  {
    var c := s.clients[i];
    var c1 := Chosen(s.committed, c, item);
    var c2 := c1.(done := c.done + [c1.queue[0]], queue := [], now := Begun(c1.queue[0]));
    var c3 := AboutToWrite(s.committed, c, item);
    ItemObserved(s, i, item);
    assert c1.queue[1..] == [];
    FreeAdvance(With(s, i, c1), i, c2);
    FreeAdvance(With(s, i, c2), i, c3);
    ReachesThen(s, [Advance(i)], With(s, i, c1), [Advance(i)], With(s, i, c2));
    ReachesThen(s, [Advance(i)] + [Advance(i)], With(s, i, c2), [Advance(i)], With(s, i, c3));
    assert [Advance(i)] + [Advance(i)] + [Advance(i)] == [Advance(i), Advance(i), Advance(i)];
  }

  /** The client once it has observed the row of its next item. */
  function Chosen(db: Db, c: Client, item: PatchItem): (d: Client)
    requires AtRest(c) && Patches(db, item)
    ensures d.Active? && d.queue == [PatchStep(item.input, item.patchEnv)]
  {
    c.(seen := c.seen + [SawTransaction(db.transactions[item.input.id])], queue := [PatchStep(item.input, item.patchEnv)])
  }

  lemma ItemObserved(s: System, i: nat, item: PatchItem)
    requires i < |s.clients| && AtRest(s.clients[i]) && Patches(s.committed, item)
    requires s.clients[i].request[|s.clients[i].seen|] == ItemCommand(item) && item.input.id !in s.clients[i].locks.rows
    ensures Reaches(s, [Advance(i)], With(s, i, Chosen(s.committed, s.clients[i], item)))
  {
    var c, step := s.clients[i], PatchStep(item.input, item.patchEnv);
    assert item.input.(status := None) == item.input;
    assert StepsOf(ItemCommand(item), SawTransaction(s.committed.transactions[item.input.id])) == [step] + [] == [step];
    FreeAdvance(s, i, Chosen(s.committed, c, item));
  }

  /** A fourth advance writes the row and locks it. */
  lemma ItemWritten(s: System, i: nat, c: Client, item: PatchItem)
    requires i < |s.clients| && AtRest(c) && Patches(s.committed, item) && item.input.id !in c.locks.rows
    requires s.clients[i] == AboutToWrite(s.committed, c, item) && FreeFor(s, i, TransactionKey(item.input.id))
    ensures Reaches(s, [Advance(i)], With(s, i, Wrote(s.committed, c, item)))
  {
    var row, next := s.committed.transactions[item.input.id], NextOf(s.committed, item);
    PatchedIdentity(row, item.input, item.patchEnv.now);
    var w := WriteTransaction(row, next, false);
    assert Act(View(s.committed, c.locks), w) == Success(Acted(SetRow(View(s.committed, c.locks), next.id, Some(next)), []));
    assert [] + [w][1..] == [];
    LockingAdvance(s, i, Wrote(s.committed, c, item));
  }

  // ---- Crossing bulk patches ----------------------------------------------

  /** The state after client `i` has patched its first item and is about to write its second. */
  function Crossing(s: System, i: nat, user: Id, first: PatchItem, second: PatchItem): Client
    requires Patches(s.committed, first) && Patches(s.committed, second)
  {
    AboutToWrite(s.committed, Wrote(s.committed, Started(user, [ItemCommand(first), ItemCommand(second)]), first), second)
  }

  lemma BulkBegins(s: System, i: nat, user: Id, first: PatchItem, second: PatchItem)
    requires i < |s.clients| && s.clients[i] == Idle && Patches(s.committed, first) && Patches(s.committed, second)
    requires first.input.user == user && second.input.user == user && FreeFor(s, i, TransactionKey(first.input.id))
    ensures Reaches(s, [Begin(i, user, [ItemCommand(first), ItemCommand(second)])] + [Advance(i), Advance(i), Advance(i)] + [Advance(i)],
                    With(s, i, Wrote(s.committed, Started(user, [ItemCommand(first), ItemCommand(second)]), first)))
  {
    var request := [ItemCommand(first), ItemCommand(second)];
    var c := Started(user, request);
    var read := With(s, i, AboutToWrite(s.committed, c, first));
    BulkReads(s, i, user, first, second);
    ItemWritten(read, i, c, first);
    assert With(read, i, Wrote(s.committed, c, first)) == With(s, i, Wrote(s.committed, c, first));
    ReachesThen(s, [Begin(i, user, request)] + [Advance(i), Advance(i), Advance(i)], read, [Advance(i)], With(s, i, Wrote(s.committed, c, first)));
  }

  lemma BulkReads(s: System, i: nat, user: Id, first: PatchItem, second: PatchItem)
    requires i < |s.clients| && s.clients[i] == Idle && Patches(s.committed, first)
    requires first.input.user == user && second.input.user == user
    ensures var request := [ItemCommand(first), ItemCommand(second)];
            Reaches(s, [Begin(i, user, request)] + [Advance(i), Advance(i), Advance(i)],
                    With(s, i, AboutToWrite(s.committed, Started(user, request), first)))
  {
    var request := [ItemCommand(first), ItemCommand(second)];
    var c := Started(user, request);
    var begun, read := With(s, i, c), With(s, i, AboutToWrite(s.committed, c, first));
    ReachesOne(s, Begin(i, user, request), begun);
    ItemRead(begun, i, first);
    assert With(begun, i, read.clients[i]) == read;
    ReachesThen(s, [Begin(i, user, request)], begun, [Advance(i), Advance(i), Advance(i)], read);
  }

  /** Each client has written its own first row. */
  function EachHoldsOne(s: System, user: Id, one: PatchItem, two: PatchItem): System
    requires Patches(s.committed, one) && Patches(s.committed, two)
  {
    System(s.committed, [Wrote(s.committed, Started(user, [ItemCommand(one), ItemCommand(two)]), one),
                         Wrote(s.committed, Started(user, [ItemCommand(two), ItemCommand(one)]), two)], s.rows, s.accounts)
  }

  /** Each client is about to write the row of the other. */
  function EachWantsOne(s: System, user: Id, one: PatchItem, two: PatchItem): System
    requires Patches(s.committed, one) && Patches(s.committed, two)
  {
    System(s.committed, [Crossing(s, 0, user, one, two), Crossing(s, 1, user, two, one)], s.rows, s.accounts)
  }

  lemma EachTakesOne(s: System, user: Id, one: PatchItem, two: PatchItem) returns (events: seq<Event>)
    requires s.clients == [Idle, Idle] && one.input.id != two.input.id
    requires Patches(s.committed, one) && Patches(s.committed, two) && one.input.user == user && two.input.user == user
    ensures Reaches(s, events, EachHoldsOne(s, user, one, two))
  {
    var here := Wrote(s.committed, Started(user, [ItemCommand(one), ItemCommand(two)]), one);
    var s1 := With(s, 0, here);
    BulkBegins(s, 0, user, one, two);
    BulkBegins(s1, 1, user, two, one);
    var e1 := [Begin(0, user, [ItemCommand(one), ItemCommand(two)])] + [Advance(0), Advance(0), Advance(0)] + [Advance(0)];
    var e2 := [Begin(1, user, [ItemCommand(two), ItemCommand(one)])] + [Advance(1), Advance(1), Advance(1)] + [Advance(1)];
    var there := Wrote(s.committed, Started(user, [ItemCommand(two), ItemCommand(one)]), two);
    assert With(s1, 1, there) == EachHoldsOne(s, user, one, two);
    ReachesThen(s, e1, s1, e2, EachHoldsOne(s, user, one, two));
    events := e1 + e2;
  }

  lemma EachTurns(s: System, user: Id, one: PatchItem, two: PatchItem) returns (events: seq<Event>)
    requires s.clients == [Idle, Idle] && one.input.id != two.input.id
    requires Patches(s.committed, one) && Patches(s.committed, two) && one.input.user == user && two.input.user == user
    ensures Reaches(EachHoldsOne(s, user, one, two), events, EachWantsOne(s, user, one, two))
  {
    var s2, t := EachHoldsOne(s, user, one, two), EachWantsOne(s, user, one, two);
    var s3 := With(s2, 0, Crossing(s, 0, user, one, two));
    ItemRead(s2, 0, two);
    ItemRead(s3, 1, one);
    assert With(s3, 1, Crossing(s, 1, user, two, one)) == t;
    ReachesThen(s2, [Advance(0), Advance(0), Advance(0)], s3, [Advance(1), Advance(1), Advance(1)], t);
    events := [Advance(0), Advance(0), Advance(0)] + [Advance(1), Advance(1), Advance(1)];
  }

  /**
   * Two bulk patches that take the same two rows in opposite orders can end up waiting for each other,
   * whatever the rows and the patches, as long as each patch would go through alone.
   */
  lemma BulksCanDeadlock(s: System, user: Id, one: PatchItem, two: PatchItem) returns (events: seq<Event>, t: System)
    requires s.clients == [Idle, Idle] && one.input.id != two.input.id
    requires Patches(s.committed, one) && Patches(s.committed, two) && one.input.user == user && two.input.user == user
    ensures Reaches(s, events, t) && Waits(t, 0, 1) && Waits(t, 1, 0)
    ensures t.clients[0].request == [ItemCommand(one), ItemCommand(two)] && t.clients[1].request == [ItemCommand(two), ItemCommand(one)]
  {
    t := EachWantsOne(s, user, one, two);
    var first := EachTakesOne(s, user, one, two);
    var second := EachTurns(s, user, one, two);
    ReachesThen(s, first, EachHoldsOne(s, user, one, two), second, t);
    events := first + second;
  }

  // ---- Equal stamps -------------------------------------------------------

  /** A planned income of a positive amount to an account of its user. */
  predicate PlannedIncome(db: Db, user: Id, id: Id, account: Id) {
    OwnsTransaction(db, user, id) && OwnsAccount(db, user, account) &&
    var t := db.transactions[id];
    t.id == id && StoredTransaction(t) && t.kind == Income && t.status == Planned && t.amount.minor > 0
    && t.accountTo == Some(account) && References(db, t)
    && db.accounts[account].id == account && StoredAccount(db.accounts[account])
  }

  /** The row after it has been posted. */
  function PostedIncome(t: Transaction, now: Time): Transaction {
    t.(status := Posted, occurredAt := OrElse(t.occurredAt, Some(now)), postedAt := Some(now), updatedAt := now)
  }

  lemma IncomeEffects(t: Transaction, account: Id, now: Time)
    requires t.kind == Income && t.accountTo == Some(account) && t.amount.minor > 0
    ensures Effects(t.user, t, 1, now) == Success([ReadAccount(t.user, account, ToCredit(t.amount.minor, now))])
  {
    var deltas := map[account := t.amount.minor];
    WrapExact(t.amount.minor);
    assert Deltas(t) == Success(deltas) && SignedDeltas(deltas, 1) == deltas && deltas.Keys == {account};
    OneAccount(account);
    var read := ReadAccount(t.user, account, ToCredit(t.amount.minor, now));
    assert Adjustments(t.user, deltas, [account], now) == [read] + [] == [read];
  }

  lemma OneAccount(account: Id)
    ensures Strings.SortedSeq({account}) == [account]
  {
    Strings.SortedSeqElements({account});
    assert Strings.SortedSeq({account})[0] in Strings.SortedSeq({account});
  }

  /** A client that posts the income and has read the account it is about to credit. */
  function AboutToCredit(db: Db, user: Id, id: Id, account: Id, env: Env): (c: Client)
    requires PlannedIncome(db, user, id, account)
    ensures c.Active?
  {
    var t := db.transactions[id];
    Active(user, [PostCommand(user, id, env)], [SawNothing], [PostStep(user, id, env)], [],
           Doing([WriteAccount(db.accounts[account], Credited(db.accounts[account], t.amount.minor, env.now), false)]),
           Locks(map[id := Some(PostedIncome(t, env.now))], map[]))
  }

  /** A request of one command without an unguarded read, up to the start of its only step. */
  function Begins(user: Id, command: Command, step: Step): Client {
    Active(user, [command], [SawNothing], [step], [], Begun(step), NO_LOCKS)
  }

  lemma DirectBegins(s: System, i: nat, user: Id, command: Command, step: Step)
    requires i < |s.clients| && s.clients[i] == Idle && UserOf(command) == user && ObservesNothing(command)
    requires StepsOf(command, SawNothing) == [step]
    ensures Reaches(s, [Begin(i, user, [command])] + [Advance(i)] + [Advance(i)], With(s, i, Begins(user, command, step)))
  {
    var c0 := Started(user, [command]);
    var c1 := Active(user, [command], [SawNothing], [], [step], Doing([]), NO_LOCKS);
    ReachesOne(s, Begin(i, user, [command]), With(s, i, c0));
    assert [] + [SawNothing] == [SawNothing];
    FreeAdvance(With(s, i, c0), i, c1);
    assert [] + [step] == [step] && [step][1..] == [];
    FreeAdvance(With(s, i, c1), i, Begins(user, command, step));
    ReachesThen(s, [Begin(i, user, [command])], With(s, i, c0), [Advance(i)], With(s, i, c1));
    ReachesThen(s, [Begin(i, user, [command])] + [Advance(i)], With(s, i, c1), [Advance(i)], With(s, i, Begins(user, command, step)));
  }

  /** The client that has read the planned row. */
  function AboutToPost(db: Db, user: Id, id: Id, account: Id, env: Env): Client
    requires PlannedIncome(db, user, id, account)
  {
    var t := db.transactions[id];
    Active(user, [PostCommand(user, id, env)], [SawNothing], [PostStep(user, id, env)], [],
           Doing([WriteTransaction(t, PostedIncome(t, env.now), false), ReadAccount(user, account, ToCredit(t.amount.minor, env.now))]), NO_LOCKS)
  }

  /** The client that has written the posted row. */
  function AboutToRead(db: Db, user: Id, id: Id, account: Id, env: Env): Client
    requires PlannedIncome(db, user, id, account)
  {
    var t := db.transactions[id];
    Active(user, [PostCommand(user, id, env)], [SawNothing], [PostStep(user, id, env)], [],
           Doing([ReadAccount(user, account, ToCredit(t.amount.minor, env.now))]),
           Locks(map[id := Some(PostedIncome(t, env.now))], map[]))
  }

  lemma PostReads(s: System, i: nat, user: Id, id: Id, account: Id, env: Env)
    requires i < |s.clients| && PlannedIncome(s.committed, user, id, account) && !env.refused
    requires s.clients[i] == Begins(user, PostCommand(user, id, env), PostStep(user, id, env))
    ensures Reaches(s, [Advance(i)], With(s, i, AboutToPost(s.committed, user, id, account, env)))
  {
    ViewNothing(s.committed);
    var t := s.committed.transactions[id];
    var write := WriteTransaction(t, PostedIncome(t, env.now), false);
    var read := ReadAccount(user, account, ToCredit(t.amount.minor, env.now));
    IncomeEffects(PostedIncome(t, env.now), account, env.now);
    assert UseTransaction(t, user, ToPost(env)) == Success([write] + [read]);
    assert [write] + [read] == [write, read];
    FreeAdvance(s, i, AboutToPost(s.committed, user, id, account, env));
  }

  lemma PostWrites(s: System, i: nat, user: Id, id: Id, account: Id, env: Env)
    requires i < |s.clients| && PlannedIncome(s.committed, user, id, account) && FreeFor(s, i, TransactionKey(id))
    requires s.clients[i] == AboutToPost(s.committed, user, id, account, env)
    ensures Reaches(s, [Advance(i)], With(s, i, AboutToRead(s.committed, user, id, account, env)))
  {
    var t := s.committed.transactions[id];
    IncomeWritten(s.committed, t, PostedIncome(t, env.now), ReadAccount(user, account, ToCredit(t.amount.minor, env.now)));
    LockingAdvance(s, i, AboutToRead(s.committed, user, id, account, env));
  }

  lemma PostReadsAccount(s: System, i: nat, user: Id, id: Id, account: Id, env: Env)
    requires i < |s.clients| && PlannedIncome(s.committed, user, id, account)
    requires s.clients[i] == AboutToRead(s.committed, user, id, account, env)
    ensures Reaches(s, [Advance(i)], With(s, i, AboutToCredit(s.committed, user, id, account, env)))
  {
    var t := s.committed.transactions[id];
    IncomeRead(s.committed, user, id, account, env, s.clients[i].locks, ReadAccount(user, account, ToCredit(t.amount.minor, env.now)));
    FreeAdvance(s, i, AboutToCredit(s.committed, user, id, account, env));
  }

  /** From idle to the point where the account has been read. */
  lemma PostGetsReady(s: System, i: nat, user: Id, id: Id, account: Id, env: Env) returns (events: seq<Event>)
    requires i < |s.clients| && s.clients[i] == Idle && PlannedIncome(s.committed, user, id, account) && !env.refused
    requires FreeFor(s, i, TransactionKey(id))
    ensures Reaches(s, events, With(s, i, AboutToCredit(s.committed, user, id, account, env)))
  {
    var s3 := With(s, i, AboutToRead(s.committed, user, id, account, env));
    var s4 := With(s, i, AboutToCredit(s.committed, user, id, account, env));
    events := PostTakesRow(s, i, user, id, account, env);
    PostReadsAccount(s3, i, user, id, account, env);
    ReachesThen(s, events, s3, [Advance(i)], s4);
    events := events + [Advance(i)];
  }

  lemma PostTakesRow(s: System, i: nat, user: Id, id: Id, account: Id, env: Env) returns (events: seq<Event>)
    requires i < |s.clients| && s.clients[i] == Idle && PlannedIncome(s.committed, user, id, account) && !env.refused
    requires FreeFor(s, i, TransactionKey(id))
    ensures Reaches(s, events, With(s, i, AboutToRead(s.committed, user, id, account, env)))
  {
    var s2 := With(s, i, AboutToPost(s.committed, user, id, account, env));
    var s3 := With(s, i, AboutToRead(s.committed, user, id, account, env));
    events := PostGetsRow(s, i, user, id, account, env);
    PostWrites(s2, i, user, id, account, env);
    ReachesThen(s, events, s2, [Advance(i)], s3);
    events := events + [Advance(i)];
  }

  lemma PostGetsRow(s: System, i: nat, user: Id, id: Id, account: Id, env: Env) returns (events: seq<Event>)
    requires i < |s.clients| && s.clients[i] == Idle && PlannedIncome(s.committed, user, id, account) && !env.refused
    ensures Reaches(s, events, With(s, i, AboutToPost(s.committed, user, id, account, env)))
  {
    var s1 := With(s, i, Begins(user, PostCommand(user, id, env), PostStep(user, id, env)));
    var s2 := With(s, i, AboutToPost(s.committed, user, id, account, env));
    DirectBegins(s, i, user, PostCommand(user, id, env), PostStep(user, id, env));
    PostReads(s1, i, user, id, account, env);
    events := [Begin(i, user, [PostCommand(user, id, env)])] + [Advance(i)] + [Advance(i)];
    ReachesThen(s, events, s1, [Advance(i)], s2);
    events := events + [Advance(i)];
  }

  lemma IncomeWritten(db: Db, t: Transaction, next: Transaction, read: Statement)
    requires Row(db, t.id) == Some(t) && References(db, t) && next == PostedIncome(t, next.updatedAt)
    ensures Act(View(db, NO_LOCKS), WriteTransaction(t, next, false)) == Success(Acted(SetRow(db, t.id, Some(next)), []))
    ensures Lock(NO_LOCKS, WriteTransaction(t, next, false), SetRow(db, t.id, Some(next))) == Locks(map[t.id := Some(next)], map[])
    ensures [] + [WriteTransaction(t, next, false), read][1..] == [read]
  {
    ViewNothing(db);
  }

  lemma IncomeRead(db: Db, user: Id, id: Id, account: Id, env: Env, locks: Locks, read: Statement)
    requires PlannedIncome(db, user, id, account) && locks.accounts == map[]
    requires read == ReadAccount(user, account, ToCredit(db.transactions[id].amount.minor, env.now))
    ensures Act(View(db, locks), read) ==
            Success(Acted(View(db, locks), [WriteAccount(db.accounts[account], Credited(db.accounts[account], db.transactions[id].amount.minor, env.now), false)]))
    ensures [WriteAccount(db.accounts[account], Credited(db.accounts[account], db.transactions[id].amount.minor, env.now), false)] + [read][1..]
            == [WriteAccount(db.accounts[account], Credited(db.accounts[account], db.transactions[id].amount.minor, env.now), false)]
  {
    ViewAccount(db, locks, account);
    CreditBuilt(db.accounts[account], db.transactions[id].amount.minor, env.now);
  }

  /** The tables once a client that was about to credit has committed on top of `base`: its row, and the balance it computed. */
  function CreditCommitted(base: Db, was: Account, t: Transaction, env: Env): Db
    requires was.id in base.accounts
  {
    Db(base.accounts[was.id := Rewritten(base.accounts[was.id], Credited(was, t.amount.minor, env.now))],
       base.transactions[t.id := PostedIncome(t, env.now)])
  }

  lemma CreditedView(base: Db, account: Id, credited: Account, id: Id, row: Transaction)
    requires account in base.accounts
    ensures View(base, Locks(map[id := Some(row)], map[account := credited])) ==
            Db(base.accounts[account := credited], base.transactions[id := row])
  {
    var locks := Locks(map[id := Some(row)], map[account := credited]);
    assert View(base, locks).accounts == base.accounts[account := credited];
    assert View(base, locks).transactions == base.transactions[id := row];
  }

  /** A client about to credit writes and commits, as long as the account still carries the stamp it read. */
  lemma CreditCommits(s: System, i: nat, db: Db, user: Id, id: Id, account: Id, env: Env) returns (events: seq<Event>, t: System)
    requires i < |s.clients| && PlannedIncome(db, user, id, account)
    requires s.clients[i] == AboutToCredit(db, user, id, account, env) && FreeFor(s, i, AccountKey(account))
    requires OwnsAccount(s.committed, user, account) && s.committed.accounts[account].updatedAt == db.accounts[account].updatedAt
    ensures Reaches(s, events, t) && |t.clients| == |s.clients| && t.clients == s.clients[i := Idle]
    ensures t.committed == CreditCommitted(s.committed, db.accounts[account], db.transactions[id], env)
    ensures t.rows == s.rows + t.committed.transactions.Values && t.accounts == s.accounts + t.committed.accounts.Values
  {
    var c, was, row := s.clients[i], db.accounts[account], PostedIncome(db.transactions[id], env.now);
    var w := WriteAccount(was, Credited(was, db.transactions[id].amount.minor, env.now), false);
    var credited := Rewritten(s.committed.accounts[account], w.become);
    var view := View(s.committed, c.locks);
    ViewAccount(s.committed, c.locks, account);
    var locks := Locks(map[id := Some(row)], map[account := credited]);
    var c1 := Active(c.user, c.request, c.seen, c.done, c.queue, Doing([]), locks);
    assert Act(view, w) == Success(Acted(view.(accounts := view.accounts[account := credited]), []));
    assert map[][account := credited] == map[account := credited];
    assert [] + [w][1..] == [];
    LockingAdvance(s, i, c1);
    CreditedView(s.committed, account, credited, id, row);
    var s1 := With(s, i, c1);
    t := After(s1, Commit(i));
    ReachesOne(s1, Commit(i), t);
    ReachesThen(s, [Advance(i)], s1, [Commit(i)], t);
    events := [Advance(i)] + [Commit(i)];
  }

  /** Both clients have posted their rows and read the account they are about to credit. */
  function BothRead(s: System, user: Id, one: Id, two: Id, account: Id, first: Env, second: Env): System
    requires PlannedIncome(s.committed, user, one, account) && PlannedIncome(s.committed, user, two, account)
  {
    System(s.committed, [AboutToCredit(s.committed, user, one, account, first), AboutToCredit(s.committed, user, two, account, second)],
           s.rows, s.accounts)
  }

  lemma BothGetReady(s: System, user: Id, one: Id, two: Id, account: Id, first: Env, second: Env) returns (events: seq<Event>)
    requires s.clients == [Idle, Idle] && one != two && !first.refused && !second.refused
    requires PlannedIncome(s.committed, user, one, account) && PlannedIncome(s.committed, user, two, account)
    ensures Reaches(s, events, BothRead(s, user, one, two, account, first, second))
  {
    var e1 := PostGetsReady(s, 0, user, one, account, first);
    var s1 := With(s, 0, AboutToCredit(s.committed, user, one, account, first));
    var e2 := PostGetsReady(s1, 1, user, two, account, second);
    assert With(s1, 1, AboutToCredit(s.committed, user, two, account, second)) == BothRead(s, user, one, two, account, first, second);
    ReachesThen(s, e1, s1, e2, BothRead(s, user, one, two, account, first, second));
    events := e1 + e2;
  }

  /** Both rows are posted, but the balance has moved by the second amount only and is no longer true. */
  ghost predicate LosesFirst(db: Db, next: Db, one: Id, two: Id, account: Id) {
    && StatusIs(next, one, Posted) && StatusIs(next, two, Posted)
    && account in db.accounts && account in next.accounts && two in db.transactions
    && next.accounts[account].balance.minor == Wrap64(db.accounts[account].balance.minor + db.transactions[two].amount.minor)
    && !Balanced(next)
  }

  /** Two posts of which the first to commit leaves the account with the stamp both of them have read: its update is lost. */
  lemma EqualStampsLoseAnUpdate(s: System, user: Id, one: Id, two: Id, account: Id, first: Env, second: Env)
    returns (events: seq<Event>, t: System)
    requires s.clients == [Idle, Idle] && one != two && !first.refused && !second.refused && Balanced(s.committed)
    requires PlannedIncome(s.committed, user, one, account) && PlannedIncome(s.committed, user, two, account)
    requires first.now == s.committed.accounts[account].updatedAt
    ensures Reaches(s, events, t) && LosesFirst(s.committed, t.committed, one, two, account)
  {
    var s1 := BothRead(s, user, one, two, account, first, second);
    var e1 := BothGetReady(s, user, one, two, account, first, second);
    var e2;
    e2, t := BothCommit(s1, s.committed, user, one, two, account, first, second);
    ReachesThen(s, e1, s1, e2, t);
    events := e1 + e2;
    FirstIsLost(s.committed, t.committed, user, one, two, account, first, second);
  }

  lemma FirstIsLost(db: Db, next: Db, user: Id, one: Id, two: Id, account: Id, first: Env, second: Env)
    requires PlannedIncome(db, user, one, account) && PlannedIncome(db, user, two, account) && one != two && Balanced(db)
    requires next == TwiceCredited(db, one, two, account, first, second)
    ensures LosesFirst(db, next, one, two, account)
  {
    OneAmountMissing(db, next, user, one, two, account, first, second);
  }

  /** What the two commits make of the tables. */
  function TwiceCredited(db: Db, one: Id, two: Id, account: Id, first: Env, second: Env): Db
    requires one in db.transactions && two in db.transactions && account in db.accounts && db.accounts[account].id == account
  {
    CreditCommitted(CreditCommitted(db, db.accounts[account], db.transactions[one], first), db.accounts[account], db.transactions[two], second)
  }

  lemma BothCommit(s1: System, db: Db, user: Id, one: Id, two: Id, account: Id, first: Env, second: Env)
    returns (events: seq<Event>, t: System)
    requires s1.committed == db && PlannedIncome(db, user, one, account) && PlannedIncome(db, user, two, account)
    requires s1.clients == [AboutToCredit(db, user, one, account, first), AboutToCredit(db, user, two, account, second)]
    requires first.now == db.accounts[account].updatedAt
    ensures Reaches(s1, events, t) && t.committed == TwiceCredited(db, one, two, account, first, second)
  {
    var e1, s2 := CreditCommits(s1, 0, db, user, one, account, first);
    var e2;
    e2, t := CreditCommits(s2, 1, db, user, two, account, second);
    ReachesThen(s1, e1, s2, e2, t);
    events := e1 + e2;
  }

  lemma IncomeTotal(ts: map<Id, Transaction>, t: Transaction, account: Id, now: Time)
    requires t.id in ts && ts[t.id] == t && t.kind == Income && t.status == Planned && t.accountTo == Some(account)
    ensures Total(ts[t.id := PostedIncome(t, now)], t.user, account) == Total(ts, t.user, account) + t.amount.minor
  {
    TotalWrite(ts, PostedIncome(t, now), t.user, account);
  }

  lemma NotBalanced(db: Db, account: Id)
    requires account in db.accounts && db.accounts[account].balance.minor != Wrap64(Owed(db, db.accounts[account]))
    ensures !Balanced(db)
  {
  }

  /** With both rows posted, a balance that moved by one amount only is off by the other. */
  lemma OneAmountMissing(db: Db, next: Db, user: Id, one: Id, two: Id, account: Id, first: Env, second: Env)
    requires PlannedIncome(db, user, one, account) && PlannedIncome(db, user, two, account) && one != two && Balanced(db)
    requires next == TwiceCredited(db, one, two, account, first, second)
    ensures !Balanced(next)
  {
    var a, b := db.accounts[account], next.accounts[account];
    var missing, amount := db.transactions[one].amount.minor, db.transactions[two].amount.minor;
    OwedTwice(db, next, user, one, two, account, first, second);
    OffByOne(Owed(db, a), Owed(next, b), a.balance.minor, missing, amount);
    NotBalanced(next, account);
  }

  lemma OwedTwice(db: Db, next: Db, user: Id, one: Id, two: Id, account: Id, first: Env, second: Env)
    requires PlannedIncome(db, user, one, account) && PlannedIncome(db, user, two, account) && one != two
    requires next == TwiceCredited(db, one, two, account, first, second)
    ensures account in next.accounts
    ensures Owed(next, next.accounts[account]) ==
            Owed(db, db.accounts[account]) + db.transactions[one].amount.minor + db.transactions[two].amount.minor
    ensures next.accounts[account].balance.minor == Wrap64(db.accounts[account].balance.minor + db.transactions[two].amount.minor)
  {
    var t1, t2 := db.transactions[one], db.transactions[two];
    IncomeTotal(db.transactions, t1, account, first.now);
    IncomeTotal(db.transactions[one := PostedIncome(t1, first.now)], t2, account, second.now);
  }

  lemma OffByOne(owed: int, owedAfter: int, balance: Int64, missing: int, amount: int)
    requires balance == Wrap64(owed) && owedAfter == owed + missing + amount && 0 < missing <= MAX_INT64
    ensures Wrap64(balance + amount) != Wrap64(owedAfter)
  {
    WrapAbsorbs(owed, amount);
    Same64Multiple(owed + amount, owedAfter);
  }
}
