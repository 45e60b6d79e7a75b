/** The account list: its filter, its three sort orders and its pages. */
module AccountList {
  import opened Prelude
  import opened LedgerRows
  import Strings

  datatype Sort = CreatedAtDesc | NameAsc | BalanceDesc

  datatype ListInput = ListInput(kind: Option<AccountType>, currency: Option<string>, sort: Option<Sort>)

  /** How names are lowered before they are compared. */
  type Lowering = string -> string

  // ---- The comparison -----------------------------------------------------

  function CompareText(a: string, b: string): int {
    if Strings.Less(a, b) then -1 else if Strings.Less(b, a) then 1 else 0
  }

  function CompareInt(a: int, b: int): int {
    if a < b then -1 else if a > b then 1 else 0
  }

  /** By the mode first, by id when that does not decide. */
  function Compare(mode: Sort, lower: Lowering, a: Account, b: Account): int {
    var first :=
      match mode
      case NameAsc => CompareText(lower(a.name), lower(b.name))
      case BalanceDesc => CompareInt(b.balance.minor, a.balance.minor)
      case CreatedAtDesc => CompareInt(b.createdAt, a.createdAt);
    if first != 0 then first else CompareText(a.id, b.id)
  }

  predicate Precedes(mode: Sort, lower: Lowering, a: Account, b: Account) {
    Compare(mode, lower, a, b) < 0
  }

  lemma TextOrder(a: string, b: string, c: string)
    ensures CompareText(a, b) == -CompareText(b, a)
    ensures CompareText(a, b) == 0 <==> a == b
    ensures CompareText(a, b) <= 0 && CompareText(b, c) <= 0 ==>
              CompareText(a, c) <= 0 && (CompareText(a, c) == 0 ==> a == b == c)
  {
    Strings.LessIrreflexive(a);
    Strings.LessTotal(a, b);
    if Strings.Less(a, b) {
      Strings.LessAsymmetric(a, b);
    }
    if Strings.Less(b, a) {
      Strings.LessAsymmetric(b, a);
    }
    TextOrderThen(a, b, c);
  }

  lemma TextOrderThen(a: string, b: string, c: string)
    ensures CompareText(a, b) <= 0 && CompareText(b, c) <= 0 ==>
              CompareText(a, c) <= 0 && (CompareText(a, c) == 0 ==> a == b == c)
  {
    Strings.LessTotal(a, b);
    Strings.LessTotal(b, c);
    if Strings.Less(a, b) && Strings.Less(b, c) {
      Strings.LessTransitive(a, b, c);
      Strings.LessAsymmetric(a, c);
    }
    if a == b && Strings.Less(b, c) {
      Strings.LessAsymmetric(b, c);
    }
    if b == c && Strings.Less(a, b) {
      Strings.LessAsymmetric(a, b);
    }
    Strings.LessIrreflexive(a);
  }

  /** Each mode is a strict total order on accounts with different ids. */
  lemma StrictTotalOrder(mode: Sort, lower: Lowering, a: Account, b: Account, c: Account)
    ensures !Precedes(mode, lower, a, a)
    ensures a.id != b.id ==> (Precedes(mode, lower, a, b) <==> !Precedes(mode, lower, b, a))
    ensures Precedes(mode, lower, a, b) && Precedes(mode, lower, b, c) ==> Precedes(mode, lower, a, c)
  {
    TextOrder(a.id, b.id, c.id);
    TextOrder(a.id, a.id, a.id);
    TextOrder(b.id, c.id, a.id);
    TextOrder(lower(a.name), lower(b.name), lower(c.name));
    TextOrder(lower(a.name), lower(a.name), lower(a.name));
    TextOrder(lower(b.name), lower(c.name), lower(a.name));
  }

  /** The newest account first, the first name, or the greatest balance; the lesser id first among equals. */
  lemma WhoComesFirst(lower: Lowering, a: Account, b: Account)
    ensures Precedes(CreatedAtDesc, lower, a, b) <==>
              a.createdAt > b.createdAt || (a.createdAt == b.createdAt && Strings.Less(a.id, b.id))
    ensures Precedes(BalanceDesc, lower, a, b) <==>
              a.balance.minor > b.balance.minor || (a.balance.minor == b.balance.minor && Strings.Less(a.id, b.id))
    ensures Precedes(NameAsc, lower, a, b) <==>
              Strings.Less(lower(a.name), lower(b.name)) || (lower(a.name) == lower(b.name) && Strings.Less(a.id, b.id))
  {
    TextOrder(a.id, b.id, a.id);
    TextOrder(lower(a.name), lower(b.name), lower(a.name));
    Strings.LessTotal(a.id, b.id);
    Strings.LessTotal(lower(a.name), lower(b.name));
  }

  // ---- The list -----------------------------------------------------------

  predicate Wanted(a: Account, input: ListInput) {
    (input.kind.Some? ==> a.kind == input.kind.value) && (input.currency.Some? ==> a.balance.currency == input.currency.value)
  }

  function Filtered(accounts: seq<Account>, input: ListInput): seq<Account> {
    if accounts == [] then []
    else Filtered(accounts[..|accounts| - 1], input)
         + if Wanted(accounts[|accounts| - 1], input) then [accounts[|accounts| - 1]] else []
  }

  /** The list keeps the accounts of the type and of the currency asked for, each as often as it came, and no others. */
  lemma {:induction false} WhatIsListed(accounts: seq<Account>, input: ListInput, a: Account)
    ensures multiset(Filtered(accounts, input))[a] ==
            if (input.kind == None || input.kind == Some(a.kind)) && (input.currency == None || input.currency == Some(a.balance.currency))
            then multiset(accounts)[a] else 0
  {
    if accounts != [] {
      WhatIsListed(accounts[..|accounts| - 1], input, a);
      assert accounts == accounts[..|accounts| - 1] + [accounts[|accounts| - 1]];
    }
  }

  ghost predicate InOrder(mode: Sort, lower: Lowering, s: seq<Account>) {
    forall i, j | 0 <= i < j < |s| :: Precedes(mode, lower, s[i], s[j])
  }

  predicate DistinctIds(s: seq<Account>) {
    forall i, j | 0 <= i < j < |s| :: s[i].id != s[j].id
  }

  /** An account put in its place. */
  function Insert(mode: Sort, lower: Lowering, a: Account, s: seq<Account>): seq<Account> {
    if s == [] || Precedes(mode, lower, a, s[0]) then [a] + s else [s[0]] + Insert(mode, lower, a, s[1..])
  }

  /** The accounts in order: what the library's sort returns. */
  function SortFunc(mode: Sort, lower: Lowering, s: seq<Account>): seq<Account> {
    if s == [] then [] else Insert(mode, lower, s[0], SortFunc(mode, lower, s[1..]))
  }

  lemma {:induction false} InsertKeeps(mode: Sort, lower: Lowering, a: Account, s: seq<Account>)
    ensures multiset(Insert(mode, lower, a, s)) == multiset{a} + multiset(s)
  {
    if s == [] || Precedes(mode, lower, a, s[0]) {
    } else {
      InsertKeeps(mode, lower, a, s[1..]);
      assert s == [s[0]] + s[1..];
    }
  }

  lemma {:induction false} InsertOrders(mode: Sort, lower: Lowering, a: Account, s: seq<Account>)
    requires InOrder(mode, lower, s) && forall i | 0 <= i < |s| :: s[i].id != a.id
    ensures InOrder(mode, lower, Insert(mode, lower, a, s))
  {
    if s == [] {
    } else if Precedes(mode, lower, a, s[0]) {
      forall j | 0 <= j < |s| ensures Precedes(mode, lower, a, s[j]) {
        StrictTotalOrder(mode, lower, a, s[0], s[j]);
      }
    } else {
      var rest := Insert(mode, lower, a, s[1..]);
      InsertOrders(mode, lower, a, s[1..]);
      InsertKeeps(mode, lower, a, s[1..]);
      StrictTotalOrder(mode, lower, a, s[0], a);
      forall j | 0 <= j < |rest| ensures Precedes(mode, lower, s[0], rest[j]) {
        assert rest[j] in multiset(rest);
        assert rest[j] == a || rest[j] in s[1..];
      }
    }
  }

  lemma {:induction false} SortKeeps(mode: Sort, lower: Lowering, s: seq<Account>)
    ensures multiset(SortFunc(mode, lower, s)) == multiset(s)
  {
    if s != [] {
      SortKeeps(mode, lower, s[1..]);
      InsertKeeps(mode, lower, s[0], SortFunc(mode, lower, s[1..]));
      assert s == [s[0]] + s[1..];
    }
  }

  lemma {:induction false} SortOrders(mode: Sort, lower: Lowering, s: seq<Account>)
    requires DistinctIds(s)
    ensures InOrder(mode, lower, SortFunc(mode, lower, s))
  {
    if s != [] {
      var rest := SortFunc(mode, lower, s[1..]);
      SortOrders(mode, lower, s[1..]);
      SortKeeps(mode, lower, s[1..]);
      forall i | 0 <= i < |rest| ensures rest[i].id != s[0].id {
        assert rest[i] in multiset(rest);
        assert rest[i] in s[1..];
      }
      InsertOrders(mode, lower, s[0], rest);
    }
  }

  lemma SameHead(mode: Sort, lower: Lowering, s: seq<Account>, t: seq<Account>)
    requires InOrder(mode, lower, s) && InOrder(mode, lower, t) && multiset(s) == multiset(t) && s != [] && t != []
    ensures s[0] == t[0]
  {
    assert s[0] in multiset(t) && s[0] in t;
    assert t[0] in multiset(s) && t[0] in s;
    if s[0] != t[0] {
      StrictTotalOrder(mode, lower, s[0], t[0], s[0]);
    }
  }

  lemma SameRest(s: seq<Account>, t: seq<Account>)
    requires multiset(s) == multiset(t) && s != [] && t != [] && s[0] == t[0]
    ensures multiset(s[1..]) == multiset(t[1..])
  {
    assert s == [s[0]] + s[1..] && t == [t[0]] + t[1..];
    assert multiset(s[1..]) == multiset(s) - multiset{s[0]} == multiset(t[1..]);
  }

  /** There is only one way to put a collection of accounts in order. */
  lemma {:induction false} OrderIsUnique(mode: Sort, lower: Lowering, s: seq<Account>, t: seq<Account>)
    requires InOrder(mode, lower, s) && InOrder(mode, lower, t) && multiset(s) == multiset(t)
    ensures s == t
  {
    assert |s| == |multiset(s)| == |multiset(t)| == |t|;
    if s != [] {
      SameHead(mode, lower, s, t);
      SameRest(s, t);
      OrderIsUnique(mode, lower, s[1..], t[1..]);
      assert s == [s[0]] + s[1..] && t == [t[0]] + t[1..];
    }
  }

  function ModeOf(input: ListInput): Sort {
    if input.sort.Some? then input.sort.value else CreatedAtDesc
  }

  /** The list shows the wanted accounts in the order of its mode. */
  method ListByUser(accounts: seq<Account>, input: ListInput, lower: Lowering) returns (list: seq<Account>)
    requires DistinctIds(accounts)
    ensures multiset(list) == multiset(Filtered(accounts, input))
    ensures InOrder(ModeOf(input), lower, list)
  {
    var filtered: seq<Account> := [];
    for i := 0 to |accounts|
      invariant filtered == Filtered(accounts[..i], input)
    {
      assert accounts[..i + 1][..i] == accounts[..i];
      if input.kind.Some? && accounts[i].kind != input.kind.value {
        continue;
      }
      if input.currency.Some? && accounts[i].balance.currency != input.currency.value {
        continue;
      }
      filtered := filtered + [accounts[i]];
    }
    assert accounts[..|accounts|] == accounts;
    FilteredDistinct(accounts, input);
    var mode := if input.sort.None? then CreatedAtDesc else input.sort.value;
    SortKeeps(mode, lower, filtered);
    SortOrders(mode, lower, filtered);
    list := SortFunc(mode, lower, filtered);
  }

  lemma {:induction false} FilteredDistinct(accounts: seq<Account>, input: ListInput)
    requires DistinctIds(accounts)
    ensures DistinctIds(Filtered(accounts, input))
    ensures forall a :: a in Filtered(accounts, input) <==> a in accounts && Wanted(a, input)
    decreases |accounts|
  {
    if accounts != [] {
      var before, last := accounts[..|accounts| - 1], accounts[|accounts| - 1];
      FilteredDistinct(before, input);
      assert accounts == before + [last];
      var kept := Filtered(before, input);
      forall i | 0 <= i < |kept| ensures kept[i].id != last.id {
        assert kept[i] in before;
      }
    }
  }

  /** Whatever order the accounts come in, any two lists of them with the same input are the same list. */
  lemma ListIsUnique(accounts: seq<Account>, shuffled: seq<Account>, input: ListInput, lower: Lowering, a: seq<Account>, b: seq<Account>)
    requires multiset(accounts) == multiset(shuffled)
    requires multiset(a) == multiset(Filtered(accounts, input)) && InOrder(ModeOf(input), lower, a)
    requires multiset(b) == multiset(Filtered(shuffled, input)) && InOrder(ModeOf(input), lower, b)
    ensures a == b
  {
    forall x ensures multiset(a)[x] == multiset(b)[x] {
      WhatIsListed(accounts, input, x);
      WhatIsListed(shuffled, input, x);
    }
    OrderIsUnique(ModeOf(input), lower, a, b);
  }

  // ---- Pages --------------------------------------------------------------

  function PageOf<T>(items: seq<T>, limit: nat, offset: nat): seq<T> {
    if offset >= |items| then [] else items[offset..if offset + limit > |items| then |items| else offset + limit]
  }

  method Paginate<T>(items: seq<T>, limit: nat, offset: nat) returns (page: seq<T>, total: nat)
    ensures page == PageOf(items, limit, offset) && total == |items|
    ensures |page| <= limit && forall i | 0 <= i < |page| :: offset + i < |items| && page[i] == items[offset + i]
    ensures |page| < limit ==> offset + |page| >= |items|
  {
    total := |items|;
    if offset >= total {
      return [], total;
    }
    var end := offset + limit;
    if end > total {
      end := total;
    }
    page := items[offset..end];
  }

  /** The pages from an offset on, one after the other. */
  function Pages<T>(items: seq<T>, limit: nat, offset: nat): seq<T>
    requires limit > 0
    decreases |items| - offset
  {
    if offset >= |items| then [] else PageOf(items, limit, offset) + Pages(items, limit, offset + limit)
  }

  /** Consecutive pages of any positive size rebuild the list: nothing is lost and nothing repeated. */
  lemma {:induction false} PagesRebuild<T>(items: seq<T>, limit: nat, offset: nat)
    requires limit > 0 && offset <= |items|
    ensures Pages(items, limit, offset) == items[offset..]
    decreases |items| - offset
  {
    if offset < |items| && offset + limit <= |items| {
      PagesRebuild(items, limit, offset + limit);
    }
  }
}
