/** Bulk requests that do not go upward: patches in descending order, and creations that settle before their last item. */
module LedgerCrossing {
  import opened Prelude
  import opened LedgerRows
  import opened LedgerSpec
  import opened LedgerDatabase
  import opened LedgerStatements
  import opened LedgerPlans
  import opened LedgerConcurrency
  import opened LedgerLocks
  import opened LedgerScenarios
  import Strings

  // ---- Bulk patches -------------------------------------------------------

  /** Two different rows are named upward in exactly one order. */
  lemma UpwardPair(one: PatchItem, two: PatchItem)
    requires one.input.status.None? && one.input.id != two.input.id
    ensures Upward([ItemCommand(one), ItemCommand(two)]) <==> Strings.Less(one.input.id, two.input.id)
    ensures Strings.Less(one.input.id, two.input.id) <==> !Strings.Less(two.input.id, one.input.id)
  {
    var request := [ItemCommand(one), ItemCommand(two)];
    assert Upward(request) ==> InTurn(request[0], request[1]);
    assert !Settles(request[0]);
    assert InTurn(request[0], request[1]) <==> Strings.Less(one.input.id, two.input.id);
    if InTurn(request[0], request[1]) {
      forall a, b | 0 <= a < b < |request| ensures !Settles(request[a]) && InTurn(request[a], request[b]) {
        assert a == 0 && b == 1;
      }
    }
    Strings.LessTotal(one.input.id, two.input.id);
    if Strings.Less(one.input.id, two.input.id) {
      Strings.LessAsymmetric(one.input.id, two.input.id);
    }
  }

  /**
   * A bulk patch of two rows without a status change goes upward, or it can come to wait in a cycle with a bulk
   * patch that does: the same one turned around.
   */
  lemma DownwardCanDeadlock(s: System, user: Id, one: PatchItem, two: PatchItem) returns (events: seq<Event>, t: System)
    requires s.clients == [Idle, Idle] && one.input.id != two.input.id
    requires Patches(s.committed, one) && Patches(s.committed, two) && one.input.user == user && two.input.user == user
    requires !Upward([ItemCommand(one), ItemCommand(two)])
    ensures Upward([ItemCommand(two), ItemCommand(one)])
    ensures Reaches(s, events, t) && Waits(t, 0, 1) && Waits(t, 1, 0)
    ensures t.clients[0].Active? && t.clients[0].request == [ItemCommand(one), ItemCommand(two)]
    ensures t.clients[1].Active? && t.clients[1].request == [ItemCommand(two), ItemCommand(one)]
  {
    events, t := BulksCanDeadlock(s, user, one, two);
    UpwardPair(one, two);
    UpwardPair(two, one);
  }

  // ---- Bulk creations -----------------------------------------------------

  function RowOf(item: CreateItem): Transaction {
    CreateParams(item.input, item.env).(comment := NormalizeComment(item.input.comment))
  }

  /** An item that would create a posted income of a positive amount on an account of its user, under an unused id. */
  predicate Earns(db: Db, user: Id, item: CreateItem, account: Id) {
    var t := RowOf(item);
    && item.input.user == user && !item.env.refused && NewTransaction(CreateParams(item.input, item.env)) == Success(t)
    && t.kind == Income && t.status == Posted && t.amount.minor > 0 && t.accountTo == Some(account)
    && t.id !in db.transactions && References(db, t)
    && OwnsAccount(db, user, account) && db.accounts[account].id == account && StoredAccount(db.accounts[account])
  }

  /** A client between two creations. */
  predicate AtRest(c: Client, item: CreateItem) {
    c.Active? && c.now == Doing([]) && c.queue == [] && |c.seen| < |c.request|
    && c.request[|c.seen|] == CreateCommand(item.input, item.env)
  }

  function Credit(db: Db, item: CreateItem, account: Id): Account
    requires account in db.accounts
  {
    Credited(db.accounts[account], item.input.amount.minor, item.env.now)
  }

  /** The client once it has read the account and is about to credit it. */
  function AboutToCreditNew(db: Db, c: Client, item: CreateItem, account: Id): (d: Client)
    requires c.Active? && account in db.accounts
    ensures d.Active?
  {
    c.(seen := c.seen + [SawNothing], done := c.done + [EnterStep(RowOf(item), item.env)],
       now := Doing([WriteAccount(db.accounts[account], Credit(db, item, account), false), InsertTransaction(RowOf(item), false)]))
  }

  /** The client once it has credited the account and inserted the row. */
  function Created(db: Db, c: Client, item: CreateItem, account: Id): (d: Client)
    requires c.Active? && account in db.accounts
    ensures d.Active?
  {
    var d := AboutToCreditNew(db, c, item, account);
    d.(now := Doing([]), locks := Locks(c.locks.rows[RowOf(item).id := Some(RowOf(item))], c.locks.accounts[account := Credit(db, item, account)]))
  }

  /** The client once it has taken its next item, and once it has begun its step. */
  function Taken(c: Client, item: CreateItem): (d: Client)
    requires c.Active?
    ensures d.Active? && d.queue == [EnterStep(RowOf(item), item.env)]
  {
    c.(seen := c.seen + [SawNothing], queue := [EnterStep(RowOf(item), item.env)])
  }

  function AboutToReadNew(c: Client, user: Id, item: CreateItem, account: Id): (d: Client)
    requires c.Active?
    ensures d.Active?
  {
    c.(seen := c.seen + [SawNothing], done := c.done + [EnterStep(RowOf(item), item.env)],
       now := Doing([ReadAccount(user, account, ToCredit(RowOf(item).amount.minor, item.env.now)), InsertTransaction(RowOf(item), false)]))
  }

  lemma CreationBegins(s: System, i: nat, user: Id, item: CreateItem, account: Id)
    requires i < |s.clients| && AtRest(s.clients[i], item) && Earns(s.committed, user, item, account)
    ensures Reaches(s, [Advance(i)] + [Advance(i)], With(s, i, AboutToReadNew(s.clients[i], user, item, account)))
  {
    var c, t := s.clients[i], RowOf(item);
    FreeAdvance(s, i, Taken(c, item));
    IncomeBegun(t, account, item.env);
    assert [EnterStep(t, item.env)][1..] == [];
    FreeAdvance(With(s, i, Taken(c, item)), i, AboutToReadNew(c, user, item, account));
    ReachesThen(s, [Advance(i)], With(s, i, Taken(c, item)), [Advance(i)], With(s, i, AboutToReadNew(c, user, item, account)));
  }

  /** Three advances take a client from rest to the credit of its next income. */
  lemma CreationReads(s: System, i: nat, user: Id, item: CreateItem, account: Id) returns (events: seq<Event>)
    requires i < |s.clients| && AtRest(s.clients[i], item) && Earns(s.committed, user, item, account)
    requires account !in s.clients[i].locks.accounts
    ensures Reaches(s, events, With(s, i, AboutToCreditNew(s.committed, s.clients[i], item, account)))
  {
    var c, t := s.clients[i], RowOf(item);
    var s1, s2 := With(s, i, AboutToReadNew(c, user, item, account)), With(s, i, AboutToCreditNew(s.committed, c, item, account));
    CreationBegins(s, i, user, item, account);
    AccountRead(s.committed, c.locks, user, account, t.amount.minor, item.env.now, InsertTransaction(t, false));
    FreeAdvance(s1, i, s2.clients[i]);
    ReachesThen(s, [Advance(i)] + [Advance(i)], s1, [Advance(i)], s2);
    events := [Advance(i)] + [Advance(i)] + [Advance(i)];
  }

  lemma IncomeBegun(t: Transaction, account: Id, env: Env)
    requires t.kind == Income && t.status == Posted && t.accountTo == Some(account) && t.amount.minor > 0 && !env.refused
    ensures Begun(EnterStep(t, env)) ==
            Doing([ReadAccount(t.user, account, ToCredit(t.amount.minor, env.now)), InsertTransaction(t, false)])
  {
    IncomeEffects(t, account, env.now);
  }

  lemma AccountRead(db: Db, locks: Locks, user: Id, account: Id, amount: Int64, now: Time, last: Statement)
    requires OwnsAccount(db, user, account) && db.accounts[account].id == account && StoredAccount(db.accounts[account])
    requires account !in locks.accounts
    ensures var read, write := ReadAccount(user, account, ToCredit(amount, now)),
                               WriteAccount(db.accounts[account], Credited(db.accounts[account], amount, now), false);
            Act(View(db, locks), read) == Success(Acted(View(db, locks), [write])) && [write] + [read, last][1..] == [write, last]
  {
    ViewAccount(db, locks, account);
    CreditBuilt(db.accounts[account], amount, now);
  }

  /** The client once it has credited the account. */
  function AboutToInsert(db: Db, c: Client, item: CreateItem, account: Id): (d: Client)
    requires c.Active? && account in db.accounts
    ensures d.Active?
  {
    var d := AboutToCreditNew(db, c, item, account);
    d.(now := Doing([InsertTransaction(RowOf(item), false)]), locks := Locks(map[], map[account := Credit(db, item, account)]))
  }

  lemma CreationCredits(s: System, i: nat, c: Client, user: Id, item: CreateItem, account: Id)
    requires i < |s.clients| && AtRest(c, item) && Earns(s.committed, user, item, account) && c.locks == NO_LOCKS
    requires s.clients[i] == AboutToCreditNew(s.committed, c, item, account) && FreeFor(s, i, AccountKey(account))
    ensures Reaches(s, [Advance(i)], With(s, i, AboutToInsert(s.committed, c, item, account)))
  {
    var db, credited := s.committed, Credit(s.committed, item, account);
    var write, insert := WriteAccount(db.accounts[account], credited, false), InsertTransaction(RowOf(item), false);
    ViewNothing(db);
    assert Act(db, write) == Success(Acted(db.(accounts := db.accounts[account := credited]), []));
    assert [] + [write, insert][1..] == [insert] && map[][account := credited] == map[account := credited];
    LockingAdvance(s, i, AboutToInsert(db, c, item, account));
  }

  lemma CreationInserts(s: System, i: nat, c: Client, user: Id, item: CreateItem, account: Id)
    requires i < |s.clients| && AtRest(c, item) && Earns(s.committed, user, item, account) && c.locks == NO_LOCKS
    requires s.clients[i] == AboutToInsert(s.committed, c, item, account) && FreeFor(s, i, TransactionKey(RowOf(item).id))
    ensures Reaches(s, [Advance(i)], With(s, i, Created(s.committed, c, item, account)))
  {
    var db, t, credited := s.committed, RowOf(item), Credit(s.committed, item, account);
    RowInserted(db, s.clients[i].locks, t, credited);
    assert map[][account := credited] == map[account := credited] && map[][t.id := Some(t)] == map[t.id := Some(t)];
    LockingAdvance(s, i, Created(db, c, item, account));
  }

  /** Two more advances credit the account and insert the row. */
  lemma CreationWrites(s: System, i: nat, c: Client, user: Id, item: CreateItem, account: Id) returns (events: seq<Event>)
    requires i < |s.clients| && AtRest(c, item) && Earns(s.committed, user, item, account) && c.locks == NO_LOCKS
    requires s.clients[i] == AboutToCreditNew(s.committed, c, item, account)
    requires FreeFor(s, i, AccountKey(account)) && FreeFor(s, i, TransactionKey(RowOf(item).id))
    ensures Reaches(s, events, With(s, i, Created(s.committed, c, item, account)))
  {
    var s1, s2 := With(s, i, AboutToInsert(s.committed, c, item, account)), With(s, i, Created(s.committed, c, item, account));
    CreationCredits(s, i, c, user, item, account);
    CreationInserts(s1, i, c, user, item, account);
    assert With(s1, i, s2.clients[i]) == s2;
    ReachesThen(s, [Advance(i)], s1, [Advance(i)], s2);
    events := [Advance(i)] + [Advance(i)];
  }

  lemma RowInserted(db: Db, locks: Locks, t: Transaction, credited: Account)
    requires t.id !in db.transactions && References(db, t) && credited.id in db.accounts && credited.user == db.accounts[credited.id].user
    requires locks == Locks(map[], map[credited.id := credited])
    ensures var view := View(db, locks);
            Act(view, InsertTransaction(t, false)) == Success(Acted(SetRow(view, t.id, Some(t)), []))
            && Lock(locks, InsertTransaction(t, false), SetRow(view, t.id, Some(t))) == Locks(map[t.id := Some(t)], locks.accounts)
    ensures [] + [InsertTransaction(t, false)][1..] == []
  {
    ViewRow(db, locks, t.id);
  }

  function Request(first: CreateItem, second: CreateItem): seq<Command> {
    [CreateCommand(first.input, first.env), CreateCommand(second.input, second.env)]
  }

  function FirstCreated(db: Db, user: Id, first: CreateItem, second: CreateItem, account: Id): (c: Client)
    requires account in db.accounts
    ensures c.Active?
  {
    Created(db, Started(user, Request(first, second)), first, account)
  }

  lemma CreationStarts(s: System, i: nat, user: Id, first: CreateItem, second: CreateItem, account: Id) returns (events: seq<Event>)
    requires i < |s.clients| && s.clients[i] == Idle && Earns(s.committed, user, first, account) && second.input.user == user
    ensures Reaches(s, events, With(s, i, AboutToCreditNew(s.committed, Started(user, Request(first, second)), first, account)))
  {
    var c := Started(user, Request(first, second));
    var begun, read := With(s, i, c), With(s, i, AboutToCreditNew(s.committed, c, first, account));
    ReachesOne(s, Begin(i, user, Request(first, second)), begun);
    var more := CreationReads(begun, i, user, first, account);
    assert With(begun, i, read.clients[i]) == read;
    ReachesThen(s, [Begin(i, user, Request(first, second))], begun, more, read);
    events := [Begin(i, user, Request(first, second))] + more;
  }

  /** From idle to the point where the first item has been created. */
  lemma CreatesFirst(s: System, i: nat, user: Id, first: CreateItem, second: CreateItem, account: Id) returns (events: seq<Event>)
    requires i < |s.clients| && s.clients[i] == Idle && Earns(s.committed, user, first, account) && second.input.user == user
    requires FreeFor(s, i, AccountKey(account)) && FreeFor(s, i, TransactionKey(RowOf(first).id))
    ensures Reaches(s, events, With(s, i, FirstCreated(s.committed, user, first, second, account)))
  {
    var c := Started(user, Request(first, second));
    var read, done := With(s, i, AboutToCreditNew(s.committed, c, first, account)), With(s, i, Created(s.committed, c, first, account));
    var start := CreationStarts(s, i, user, first, second, account);
    var rest := CreationWrites(read, i, c, user, first, account);
    assert With(read, i, done.clients[i]) == done;
    ReachesThen(s, start, read, rest, done);
    events := start + rest;
  }

  /** The client that has created its first item and is about to credit the account of its second. */
  function Crossed(db: Db, user: Id, first: CreateItem, second: CreateItem, one: Id, two: Id): (c: Client)
    requires one in db.accounts && two in db.accounts
    ensures c.Active?
  {
    AboutToCreditNew(db, FirstCreated(db, user, first, second, one), second, two)
  }

  lemma CrossedHolds(db: Db, user: Id, first: CreateItem, second: CreateItem, one: Id, two: Id)
    requires Earns(db, user, first, one) && Earns(db, user, second, two)
    ensures Wanted(Crossed(db, user, first, second, one, two)) == Some(AccountKey(two))
    ensures Holds(Crossed(db, user, first, second, one, two).locks, AccountKey(one))
  {
  }

  lemma OnlyLastSettles(c: Command, d: Command)
    ensures Upward([c, d]) ==> !Settles(c)
  {
    var request := [c, d];
    var inTurn := InTurn(request[0], request[1]);
    assert request[0] == c;
  }

  /** The ids of the four rows differ, as generated ids do. */
  predicate Apart4(a: CreateItem, b: CreateItem, c: CreateItem, d: CreateItem) {
    var (i, j, k, l) := (RowOf(a).id, RowOf(b).id, RowOf(c).id, RowOf(d).id);
    i != j && i != k && i != l && j != k && j != l && k != l
  }

  /**
   * Two bulk creations of two posted incomes each, on the same two accounts in opposite orders, can end up
   * waiting for each other, whatever the rows. Neither goes upward, as each settles an item before its last.
   */
  lemma CreationsCanDeadlock(s: System, user: Id, one: Id, two: Id, a: CreateItem, b: CreateItem, c: CreateItem, d: CreateItem)
    returns (events: seq<Event>, t: System)
    requires s.clients == [Idle, Idle] && one != two && Apart4(a, b, c, d)
    requires Earns(s.committed, user, a, one) && Earns(s.committed, user, b, two)
    requires Earns(s.committed, user, c, two) && Earns(s.committed, user, d, one)
    ensures Reaches(s, events, t) && Waits(t, 0, 1) && Waits(t, 1, 0)
    ensures !Upward(Request(a, b)) && !Upward(Request(c, d))
  {
    OnlyLastSettles(Request(a, b)[0], Request(a, b)[1]);
    OnlyLastSettles(Request(c, d)[0], Request(c, d)[1]);
    var e1, s2 := BothCreateFirst(s, user, one, two, a, b, c, d);
    var e2;
    e2, t := BothReadSecond(s2, user, one, two, a, b, c, d);
    ReachesThen(s, e1, s2, e2, t);
    events := e1 + e2;
    CrossedHolds(s.committed, user, a, b, one, two);
    CrossedHolds(s.committed, user, c, d, two, one);
  }

  lemma BothCreateFirst(s: System, user: Id, one: Id, two: Id, a: CreateItem, b: CreateItem, c: CreateItem, d: CreateItem)
    returns (events: seq<Event>, t: System)
    requires s.clients == [Idle, Idle] && one != two && Apart4(a, b, c, d)
    requires Earns(s.committed, user, a, one) && Earns(s.committed, user, b, two)
    requires Earns(s.committed, user, c, two) && Earns(s.committed, user, d, one)
    ensures Reaches(s, events, t) && t.committed == s.committed
    ensures t.clients == [FirstCreated(s.committed, user, a, b, one), FirstCreated(s.committed, user, c, d, two)]
  {
    var e1 := CreatesFirst(s, 0, user, a, b, one);
    var s1 := With(s, 0, FirstCreated(s.committed, user, a, b, one));
    var e2 := CreatesFirst(s1, 1, user, c, d, two);
    t := With(s1, 1, FirstCreated(s.committed, user, c, d, two));
    ReachesThen(s, e1, s1, e2, t);
    events := e1 + e2;
  }

  /** A client that has created its first item is at rest before its second, holding one account. */
  lemma RestsBeforeSecond(db: Db, user: Id, first: CreateItem, second: CreateItem, one: Id, two: Id)
    requires one in db.accounts && one != two
    ensures var c := FirstCreated(db, user, first, second, one); AtRest(c, second) && two !in c.locks.accounts
  {
  }

  lemma ReadsSecond(s: System, i: nat, user: Id, first: CreateItem, second: CreateItem, one: Id, two: Id) returns (events: seq<Event>)
    requires i < |s.clients| && one in s.committed.accounts && one != two && Earns(s.committed, user, second, two)
    requires s.clients[i] == FirstCreated(s.committed, user, first, second, one)
    ensures Reaches(s, events, With(s, i, Crossed(s.committed, user, first, second, one, two)))
  {
    RestsBeforeSecond(s.committed, user, first, second, one, two);
    events := CreationReads(s, i, user, second, two);
  }

  lemma BothReadSecond(s: System, user: Id, one: Id, two: Id, a: CreateItem, b: CreateItem, c: CreateItem, d: CreateItem)
    returns (events: seq<Event>, t: System)
    requires one != two && Earns(s.committed, user, a, one) && Earns(s.committed, user, b, two)
    requires Earns(s.committed, user, c, two) && Earns(s.committed, user, d, one)
    requires s.clients == [FirstCreated(s.committed, user, a, b, one), FirstCreated(s.committed, user, c, d, two)]
    ensures Reaches(s, events, t)
    ensures t.clients == [Crossed(s.committed, user, a, b, one, two), Crossed(s.committed, user, c, d, two, one)]
  {
    var s1 := With(s, 0, Crossed(s.committed, user, a, b, one, two));
    var e := ReadsSecond(s, 0, user, a, b, one, two);
    var f := ReadsSecond(s1, 1, user, c, d, two, one);
    t := With(s1, 1, Crossed(s.committed, user, c, d, two, one));
    ReachesThen(s, e, s1, f, t);
    events := e + f;
  }
}
