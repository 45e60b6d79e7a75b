/** Paging through a table in id order, each page starting after the last id seen. */
module Keyset {
  import opened Prelude
  import Strings

  function Min(a: int, b: int): int {
    if a < b then a else b
  }

  function Take<T>(s: seq<T>, n: nat): seq<T> {
    if n < |s| then s[..n] else s
  }

  /** The ids a page query ranges over: all of them for the first page, those after the last id seen for the others. */
  function Later(ids: set<Id>, last: Id): set<Id> {
    set k | k in ids && (last == "" || Strings.Less(last, k))
  }

  /** One page: the least ids of the range, at most `limit` of them. */
  function Page(ids: set<Id>, last: Id, limit: nat): seq<Id> {
    Take(Strings.SortedSeq(Later(ids, last)), limit)
  }

  /** How many of `total` rows a job visits: all of them, or at most `limit` for a positive limit. */
  function VisitedCount(total: nat, limit: int): nat {
    if limit > 0 then Min(limit, total) else total
  }

  /** The last id of the first `n`, empty before the first. */
  function LastOf(all: seq<Id>, n: nat): Id
    requires n <= |all|
  {
    if n == 0 then "" else all[n - 1]
  }

  /** After the first `n` ids the next page holds the ids that follow them. */
  lemma PageFollows(ids: set<Id>, n: nat, limit: nat)
    requires "" !in ids && n <= |Strings.SortedSeq(ids)|
    ensures var all := Strings.SortedSeq(ids);
            Page(ids, LastOf(all, n), limit) == all[n..Min(n + limit, |all|)]
  {
    var all := Strings.SortedSeq(ids);
    Strings.SortedSeqElements(ids);
    Strings.SortedSeqAscending(ids);
    LaterIsSuffix(ids, all, n);
  }

  lemma LaterIsSuffix(ids: set<Id>, all: seq<Id>, n: nat)
    requires Strings.Ascending(all) && "" !in all && n <= |all| && forall x :: x in all <==> x in ids
    ensures Strings.SortedSeq(Later(ids, LastOf(all, n))) == all[n..]
  {
    var later := Later(ids, LastOf(all, n));
    Strings.SortedSeqElements(later);
    Strings.SortedSeqAscending(later);
    SuffixFollows(all, n);
    assert n > 0 ==> all[n - 1] in all;
    Strings.AscendingUnique(all[n..], Strings.SortedSeq(later));
  }

  /** The elements from the `n`-th on are those greater than the one before. */
  lemma SuffixFollows(all: seq<Id>, n: nat)
    requires Strings.Ascending(all) && n <= |all|
    ensures forall x :: x in all[n..] <==> x in all && (n == 0 || Strings.Less(all[n - 1], x))
  {
    forall k | n <= k < |all| ensures all[k] in all[n..] {
      assert all[n..][k - n] == all[k];
    }
    forall k | 0 <= k < n ensures !Strings.Less(all[n - 1], all[k]) {
      if k < n - 1 {
        Strings.LessAsymmetric(all[k], all[n - 1]);
      } else {
        Strings.LessIrreflexive(all[k]);
      }
    }
  }

  // ---- Going through the rows ---------------------------------------------

  /** What the first `n` rows make of `w0`, one after the other. */
  function Fold<W, R>(f: (W, R) -> W, w0: W, rows: seq<R>, n: nat): W
    requires n <= |rows|
  {
    if n == 0 then w0 else f(Fold(f, w0, rows, n - 1), rows[n - 1])
  }

  /** A property that each row carries on holds after any number of rows. */
  lemma {:induction false} FoldCarries<W(!new), R>(f: (W, R) -> W, w0: W, rows: seq<R>, n: nat, p: (W, nat) -> bool)
    requires n <= |rows| && p(w0, 0)
    requires forall w, k: nat | k < |rows| && p(w, k) :: p(f(w, rows[k]), k + 1)
    ensures p(Fold(f, w0, rows, n), n)
  {
    if n > 0 {
      FoldCarries(f, w0, rows, n - 1, p);
    }
  }

  lemma FoldNext<W, R>(f: (W, R) -> W, w0: W, rows: seq<R>, n: nat)
    requires n < |rows|
    ensures Fold(f, w0, rows, n + 1) == f(Fold(f, w0, rows, n), rows[n])
  {
  }

  /** The states of a fold from the `n`-th row to the `m`-th. */
  lemma FoldStates<W, R>(f: (W, R) -> W, w0: W, rows: seq<R>, n: nat, m: nat) returns (states: seq<W>)
    requires n <= m <= |rows|
    ensures |states| == m - n + 1 && states[0] == Fold(f, w0, rows, n) && states[m - n] == Fold(f, w0, rows, m)
    ensures forall k | 0 <= k < m - n :: states[k + 1] == f(states[k], rows[n..m][k])
  {
    states := seq(m - n + 1, k requires 0 <= k <= m - n => Fold(f, w0, rows, n + k));
    forall k | 0 <= k < m - n ensures states[k + 1] == f(states[k], rows[n..m][k]) {
      FoldNext(f, w0, rows, n + k);
    }
  }

  function RowsOf<R>(table: map<Id, R>, ids: seq<Id>): (rows: seq<R>)
    requires forall id | id in ids :: id in table
    ensures |rows| == |ids| && forall i | 0 <= i < |ids| :: ids[i] in table && rows[i] == table[ids[i]]
  {
    assert forall i | 0 <= i < |ids| :: ids[i] in ids;
    seq(|ids|, i requires 0 <= i < |ids| => table[ids[i]])
  }

  /** The rows of a table in ascending id order. */
  function InIdOrder<R>(table: map<Id, R>): (rows: seq<R>)
    ensures |rows| == |Strings.SortedSeq(table.Keys)| == |table|
    ensures forall i | 0 <= i < |rows| ::
              Strings.SortedSeq(table.Keys)[i] in table && rows[i] == table[Strings.SortedSeq(table.Keys)[i]]
  {
    Strings.SortedSeqElements(table.Keys);
    assert |table.Keys| == |table|;
    RowsOf(table, Strings.SortedSeq(table.Keys))
  }

  /** The rows of one page. */
  function Fetched<R>(table: map<Id, R>, last: Id, limit: nat): seq<R> {
    var ids := Page(table.Keys, last, limit);
    Strings.SortedSeqElements(Later(table.Keys, last));
    assert forall id | id in ids :: id in Strings.SortedSeq(Later(table.Keys, last));
    RowsOf(table, ids)
  }

  /** The page after the first `n` rows, read from a table whose later rows are those of the start. */
  lemma FetchedRows<R>(start: map<Id, R>, table: map<Id, R>, n: nat, limit: nat)
    requires "" !in start && n <= |InIdOrder(start)| && table.Keys == start.Keys
    requires forall i | n <= i < |InIdOrder(start)| :: table[Strings.SortedSeq(start.Keys)[i]] == InIdOrder(start)[i]
    ensures Fetched(table, LastOf(Strings.SortedSeq(start.Keys), n), limit) == InIdOrder(start)[n..Min(n + limit, |InIdOrder(start)|)]
  {
    var all := Strings.SortedSeq(start.Keys);
    PageFollows(start.Keys, n, limit);
    var ids := Page(table.Keys, LastOf(all, n), limit);
    assert ids == all[n..Min(n + limit, |all|)];
  }

  lemma CountIds<T>(table: map<Id, T>)
    ensures |Strings.SortedSeq(table.Keys)| == |table|
  {
    Strings.SortedSeqElements(table.Keys);
    assert |table.Keys| == |table|;
  }
}
