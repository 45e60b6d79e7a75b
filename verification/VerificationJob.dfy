/** The job that takes stock of the stored transaction rows, and the comparison of two stocks. */
module VerificationJob {
  import opened Prelude
  import opened TransactionFormat
  import opened Keyset
  import Strings

  const DEFAULT_BATCH_SIZE: nat := 500
  const DEFAULT_SAMPLE_LIMIT: nat := 50

  datatype Options = Options(batchSize: int, limit: int, sampleLimit: int)

  datatype StockRow = StockRow(format: FormatRow, kind: string, currency: string, amount: Int64)

  type Table = map<Id, StockRow>

  /** What a row can be sampled under. */
  datatype Code =
    | RowsNeedingRepair | PostedWithoutPostedAt | PostedWithCancelledAt | PlannedWithPostedAt
    | PlannedWithCancelledAt | CancelledWithoutCancelledAt | ReservedRefsPresent | EffectiveAtMissing

  type Samples = map<Code, seq<Id>>

  datatype Aggregates = Aggregates(
    countByStatus: map<string, nat>, countByType: map<string, nat>, countByCurrency: map<string, nat>,
    amountByCurrency: map<string, Int64>, amountByStatus: map<string, Int64>,
    rowsNeedingRepair: nat, rowsAlreadyAligned: nat, rowsWithUnknownEnum: nat)

  datatype InvariantCounts = InvariantCounts(
    postedWithoutPostedAt: nat, plannedWithPostedAt: nat, plannedWithCancelledAt: nat, postedWithCancelledAt: nat,
    cancelledWithoutCancelledAt: nat, reservedRefsPresent: nat, effectiveAtMissing: nat)

  datatype Snapshot = Snapshot(scanned: nat, aggregates: Aggregates, invariants: InvariantCounts, samples: Samples)

  const EMPTY_SNAPSHOT :=
    Snapshot(0, Aggregates(map[], map[], map[], map[], map[], 0, 0, 0), InvariantCounts(0, 0, 0, 0, 0, 0, 0), map[])

  // ---- One row ------------------------------------------------------------

  function StatusOf(row: StockRow): string {
    Strings.TrimSpace(row.format.status)
  }

  function TypeOf(row: StockRow): string {
    Strings.TrimSpace(row.kind)
  }

  function CurrencyOf(row: StockRow): string {
    Strings.TrimSpace(row.currency)
  }

  /** The statuses the job tells apart. */
  datatype Kind = PostedKind | PlannedKind | CancelledKind | OtherKind

  function KindOf(status: string): Kind {
    if status == "posted" then PostedKind
    else if status == "planned" then PlannedKind
    else if status == "cancelled" then CancelledKind
    else OtherKind
  }

  /** Whether a row shows what a code stands for. */
  predicate Shows(row: StockRow, code: Code) {
    var f := row.format;
    match code
    case RowsNeedingRepair => PatchFor(f).needsFix
    case PostedWithoutPostedAt => KindOf(StatusOf(row)) == PostedKind && f.postedAt.None?
    case PostedWithCancelledAt => KindOf(StatusOf(row)) == PostedKind && f.cancelledAt.Some?
    case PlannedWithPostedAt => KindOf(StatusOf(row)) == PlannedKind && f.postedAt.Some?
    case PlannedWithCancelledAt => KindOf(StatusOf(row)) == PlannedKind && f.cancelledAt.Some?
    case CancelledWithoutCancelledAt => KindOf(StatusOf(row)) == CancelledKind && f.cancelledAt.None?
    case ReservedRefsPresent => f.reserved != NO_RESERVED
    case EffectiveAtMissing => f.occurredAt.None? && f.plannedAt.None?
  }

  function One(b: bool): nat {
    if b then 1 else 0
  }

  /** `m[key]++` on a map whose missing entries read as zero; blank keys are not counted. */
  function Bumped(m: map<string, nat>, key: string): map<string, nat> {
    if key == "" then m else m[key := (if key in m then m[key] else 0) + 1]
  }

  /** `m[key] += amount` in `int64` arithmetic. */
  function Summed(m: map<string, Int64>, key: string, amount: Int64): map<string, Int64> {
    if key == "" then m else m[key := Wrap64((if key in m then m[key] as int else 0) + amount)]
  }

  function SampleOf(samples: Samples, code: Code): seq<Id> {
    if code in samples then samples[code] else []
  }

  function Sampled(samples: Samples, code: Code, id: Id, limit: nat): Samples {
    if |SampleOf(samples, code)| >= limit then samples else samples[code := SampleOf(samples, code) + [id]]
  }

  function SampledIf(samples: Samples, row: StockRow, code: Code, limit: nat): Samples {
    if Shows(row, code) then Sampled(samples, code, row.format.id, limit) else samples
  }

  function StampSamples(samples: Samples, row: StockRow, limit: nat): Samples {
    var posted := SampledIf(SampledIf(samples, row, PostedWithoutPostedAt, limit), row, PostedWithCancelledAt, limit);
    var planned := SampledIf(SampledIf(posted, row, PlannedWithPostedAt, limit), row, PlannedWithCancelledAt, limit);
    SampledIf(planned, row, CancelledWithoutCancelledAt, limit)
  }

  /** The samples after a row, code by code. */
  function SamplesAfter(samples: Samples, row: StockRow, limit: nat): Samples {
    var stamps := StampSamples(SampledIf(samples, row, RowsNeedingRepair, limit), row, limit);
    SampledIf(SampledIf(stamps, row, ReservedRefsPresent, limit), row, EffectiveAtMissing, limit)
  }

  function Aggregated(a: Aggregates, status: string, kind: string, currency: string, amount: Int64, needsFix: bool): Aggregates {
    Aggregates(
      Bumped(a.countByStatus, status), Bumped(a.countByType, kind), Bumped(a.countByCurrency, currency),
      Summed(a.amountByCurrency, currency, amount), Summed(a.amountByStatus, status, amount),
      a.rowsNeedingRepair + One(needsFix), a.rowsAlreadyAligned + One(!needsFix),
      a.rowsWithUnknownEnum + One(SomeBlank(status, kind, currency)))
  }

  predicate SomeBlank(status: string, kind: string, currency: string) {
    status == "" || kind == "" || currency == ""
  }

  function AggregatedRow(a: Aggregates, row: StockRow): Aggregates {
    Aggregated(a, StatusOf(row), TypeOf(row), CurrencyOf(row), row.amount, Shows(row, RowsNeedingRepair))
  }

  function Counted(c: InvariantCounts, row: StockRow): InvariantCounts {
    InvariantCounts(
      c.postedWithoutPostedAt + One(Shows(row, PostedWithoutPostedAt)),
      c.plannedWithPostedAt + One(Shows(row, PlannedWithPostedAt)),
      c.plannedWithCancelledAt + One(Shows(row, PlannedWithCancelledAt)),
      c.postedWithCancelledAt + One(Shows(row, PostedWithCancelledAt)),
      c.cancelledWithoutCancelledAt + One(Shows(row, CancelledWithoutCancelledAt)),
      c.reservedRefsPresent + One(Shows(row, ReservedRefsPresent)),
      c.effectiveAtMissing + One(Shows(row, EffectiveAtMissing)))
  }

  function Taken(s: Snapshot, row: StockRow, limit: nat): Snapshot {
    Snapshot(s.scanned + 1, AggregatedRow(s.aggregates, row), Counted(s.invariants, row), SamplesAfter(s.samples, row, limit))
  }

  // ---- The whole stock ----------------------------------------------------

  /** The rows not updated after a given instant. */
  function Cohort(table: Table, maxUpdatedAt: Option<Time>): Table {
    map k | k in table && (maxUpdatedAt.None? || table[k].format.updatedAt <= maxUpdatedAt.value) :: table[k]
  }

  function Taking(limit: nat): (Snapshot, StockRow) -> Snapshot {
    (s: Snapshot, row: StockRow) => Taken(s, row, limit)
  }

  /** The snapshot after the first `n` rows of a cohort in ascending id order. */
  function SnapshotAt(cohort: Table, n: nat, sampleLimit: nat): Snapshot
    requires n <= |cohort|
  {
    Fold(Taking(sampleLimit), EMPTY_SNAPSHOT, InIdOrder(cohort), n)
  }

  function SampleLimit(options: Options): nat {
    if options.sampleLimit <= 0 then DEFAULT_SAMPLE_LIMIT else options.sampleLimit
  }

  /** The snapshot of a table, said without pages. */
  function Stock(table: Table, options: Options, maxUpdatedAt: Option<Time>): Snapshot {
    var cohort := Cohort(table, maxUpdatedAt);
    SnapshotAt(cohort, VisitedCount(|cohort|, options.limit), SampleLimit(options))
  }

  predicate Keyed(table: Table) {
    forall k | k in table :: table[k].format.id == k
  }

  // ---- The job ------------------------------------------------------------

  method AddSample(samples: Samples, code: Code, id: Id, limit: nat) returns (next: Samples)
    ensures next == Sampled(samples, code, id, limit)
  {
    var values := if code in samples then samples[code] else [];
    if |values| >= limit {
      return samples;
    }
    return samples[code := values + [id]];
  }

  method CountKey(counts: map<string, nat>, key: string) returns (next: map<string, nat>)
    ensures next == Bumped(counts, key)
  {
    next := counts;
    if key != "" {
      next := next[key := (if key in next then next[key] else 0) + 1];
    }
  }

  method AddAmount(amounts: map<string, Int64>, key: string, amount: Int64) returns (next: map<string, Int64>)
    ensures next == Summed(amounts, key, amount)
  {
    next := amounts;
    if key != "" {
      next := next[key := Wrap64((if key in next then next[key] as int else 0) + amount)];
    }
  }

  /** The counts and amounts of a row by its status, type and currency. */
  method Aggregate(a: Aggregates, status: string, kind: string, currency: string, amount: Int64, needsFix: bool) returns (next: Aggregates)
    ensures next == Aggregated(a, status, kind, currency, amount, needsFix)
  {
    var unknown, needing, aligned := CountRepair(a, SomeBlank(status, kind, currency), needsFix);
    var byStatus := CountKey(a.countByStatus, status);
    var amountByStatus := AddAmount(a.amountByStatus, status, amount);
    var byType := CountKey(a.countByType, kind);
    var byCurrency := CountKey(a.countByCurrency, currency);
    var amountByCurrency := AddAmount(a.amountByCurrency, currency, amount);
    next := Aggregates(byStatus, byType, byCurrency, amountByCurrency, amountByStatus, needing, aligned, unknown);
  }

  method CountRepair(a: Aggregates, someBlank: bool, needsFix: bool) returns (unknown: nat, needing: nat, aligned: nat)
    ensures unknown == a.rowsWithUnknownEnum + One(someBlank)
    ensures needing == a.rowsNeedingRepair + One(needsFix) && aligned == a.rowsAlreadyAligned + One(!needsFix)
  {
    unknown, needing, aligned := a.rowsWithUnknownEnum, a.rowsNeedingRepair, a.rowsAlreadyAligned;
    if someBlank {
      unknown := unknown + 1;
    }
    if needsFix {
      needing := needing + 1;
    } else {
      aligned := aligned + 1;
    }
  }

  /** The stamps a row lacks, or has too many of, for its status. */
  method CountStamps(c: InvariantCounts, samples: Samples, row: StockRow, limit: nat) returns (next: InvariantCounts, nextSamples: Samples)
    ensures next.(reservedRefsPresent := 0, effectiveAtMissing := 0) == Counted(c, row).(reservedRefsPresent := 0, effectiveAtMissing := 0)
    ensures next.reservedRefsPresent == c.reservedRefsPresent && next.effectiveAtMissing == c.effectiveAtMissing
    ensures nextSamples == StampSamples(samples, row, limit)
  {
    next, nextSamples := c, samples;
    match KindOf(StatusOf(row)) {
      case PostedKind =>
        if row.format.postedAt.None? {
          next := next.(postedWithoutPostedAt := next.postedWithoutPostedAt + 1);
          nextSamples := AddSample(nextSamples, PostedWithoutPostedAt, row.format.id, limit);
        }
        if row.format.cancelledAt.Some? {
          next := next.(postedWithCancelledAt := next.postedWithCancelledAt + 1);
          nextSamples := AddSample(nextSamples, PostedWithCancelledAt, row.format.id, limit);
        }
      case PlannedKind =>
        if row.format.postedAt.Some? {
          next := next.(plannedWithPostedAt := next.plannedWithPostedAt + 1);
          nextSamples := AddSample(nextSamples, PlannedWithPostedAt, row.format.id, limit);
        }
        if row.format.cancelledAt.Some? {
          next := next.(plannedWithCancelledAt := next.plannedWithCancelledAt + 1);
          nextSamples := AddSample(nextSamples, PlannedWithCancelledAt, row.format.id, limit);
        }
      case CancelledKind =>
        if row.format.cancelledAt.None? {
          next := next.(cancelledWithoutCancelledAt := next.cancelledWithoutCancelledAt + 1);
          nextSamples := AddSample(nextSamples, CancelledWithoutCancelledAt, row.format.id, limit);
        }
      case OtherKind =>
    }
  }

  /** Reserved references, and dates that both are missing. */
  method CountReserved(c: InvariantCounts, samples: Samples, row: StockRow, limit: nat) returns (next: InvariantCounts, nextSamples: Samples)
    ensures next == c.(reservedRefsPresent := c.reservedRefsPresent + One(Shows(row, ReservedRefsPresent)),
                       effectiveAtMissing := c.effectiveAtMissing + One(Shows(row, EffectiveAtMissing)))
    ensures nextSamples == SampledIf(SampledIf(samples, row, ReservedRefsPresent, limit), row, EffectiveAtMissing, limit)
  {
    next, nextSamples := c, samples;
    var reserved := row.format.reserved;
    if reserved.budgetMember.Some? || reserved.incomeSource.Some? || reserved.debt.Some? || reserved.goal.Some?
       || reserved.investment.Some? || reserved.recurringPayment.Some? {
      next := next.(reservedRefsPresent := next.reservedRefsPresent + 1);
      nextSamples := AddSample(nextSamples, ReservedRefsPresent, row.format.id, limit);
    }
    if row.format.occurredAt.None? && row.format.plannedAt.None? {
      next := next.(effectiveAtMissing := next.effectiveAtMissing + 1);
      nextSamples := AddSample(nextSamples, EffectiveAtMissing, row.format.id, limit);
    }
  }

  method TakeRow(s: Snapshot, row: StockRow, limit: nat) returns (next: Snapshot)
    ensures IsTaken(s, row, limit, next)
  {
    var samples := s.samples;
    var patch := BuildTransactionFormatPatch(row.format);
    var aggregates := Aggregate(s.aggregates, StatusOf(row), TypeOf(row), CurrencyOf(row), row.amount, patch.needsFix);
    if patch.needsFix {
      samples := AddSample(samples, RowsNeedingRepair, row.format.id, limit);
    }
    var counts;
    counts, samples := CountStamps(s.invariants, samples, row, limit);
    counts, samples := CountReserved(counts, samples, row, limit);
    next := Snapshot(s.scanned + 1, aggregates, counts, samples);
  }

  predicate IsTaken(s: Snapshot, row: StockRow, limit: nat, next: Snapshot) {
    next == Taken(s, row, limit)
  }

  ghost predicate GoesThrough(s: Snapshot, rows: seq<StockRow>, limit: nat, states: seq<Snapshot>) {
    |states| == |rows| + 1 && states[0] == s && forall k | 0 <= k < |rows| :: IsTaken(states[k], rows[k], limit, states[k + 1])
  }

  /** One page of rows; `states` are the snapshots from one row to the next. */
  method TakePage(rows: seq<StockRow>, s: Snapshot, limit: nat, ghost states: seq<Snapshot>) returns (next: Snapshot, lastID: Id)
    requires rows != [] && GoesThrough(s, rows, limit, states)
    ensures next == states[|rows|] && lastID == rows[|rows| - 1].format.id
  {
    next, lastID := s, "";
    for i := 0 to |rows|
      invariant next == states[i]
      invariant i > 0 ==> lastID == rows[i - 1].format.id
    {
      lastID := rows[i].format.id;
      next := TakeRow(next, rows[i], limit);
    }
  }

  method FetchBatch(table: Table, maxUpdatedAt: Option<Time>, lastID: Id, limit: nat) returns (rows: seq<StockRow>)
    ensures rows == Fetched(Cohort(table, maxUpdatedAt), lastID, limit)
  {
    rows := Fetched(Cohort(table, maxUpdatedAt), lastID, limit);
  }

  /** Fetches and counts the next page; there is none once every row has been counted. */
  method NextPage(table: Table, maxUpdatedAt: Option<Time>, lastID: Id, limit: nat, s: Snapshot, sampleLimit: nat, ghost cohort: Table)
    returns (found: bool, next: Snapshot, nextID: Id)
    requires cohort == Cohort(table, maxUpdatedAt) && Keyed(cohort) && "" !in cohort && limit > 0
    requires s.scanned <= |cohort| == |Strings.SortedSeq(cohort.Keys)| && s == SnapshotAt(cohort, s.scanned, sampleLimit)
    requires lastID == LastOf(Strings.SortedSeq(cohort.Keys), s.scanned)
    ensures next.scanned == Min(s.scanned + limit, |cohort|) && next == SnapshotAt(cohort, next.scanned, sampleLimit)
    ensures found <==> s.scanned < |cohort|
    ensures nextID == LastOf(Strings.SortedSeq(cohort.Keys), next.scanned)
  {
    ghost var m := Min(s.scanned + limit, |cohort|);
    ghost var states := PageStates(cohort, s.scanned, limit, m, sampleLimit, s);
    var rows := FetchBatch(table, maxUpdatedAt, lastID, limit);
    if |rows| == 0 {
      return false, s, lastID;
    }
    next, nextID := TakePage(rows, s, sampleLimit, states);
    assert next.scanned == m;
    found := true;
  }

  /** The snapshot of a table does not depend on the size of the pages it was read in. */
  method CollectSnapshot(table: Table, options: Options, maxUpdatedAt: Option<Time>) returns (s: Snapshot)
    requires Keyed(table) && "" !in table
    ensures s == Stock(table, options, maxUpdatedAt)
  {
    var batchSize: nat := if options.batchSize <= 0 then DEFAULT_BATCH_SIZE else options.batchSize;
    var sampleLimit := SampleLimit(options);
    s := EMPTY_SNAPSHOT;
    var lastID: Id := "";
    ghost var cohort := Cohort(table, maxUpdatedAt);
    CountIds(cohort);
    var found := true;
    while found
      invariant s.scanned <= |cohort| && (options.limit > 0 ==> s.scanned <= options.limit)
      invariant s == SnapshotAt(cohort, s.scanned, sampleLimit)
      invariant lastID == LastOf(Strings.SortedSeq(cohort.Keys), s.scanned)
      invariant !found ==> s.scanned == |cohort|
      decreases |cohort| - s.scanned, found
    {
      var batchLimit := batchSize;
      if options.limit > 0 {
        var remaining := options.limit - s.scanned;
        if remaining <= 0 {
          break;
        }
        if remaining < batchLimit {
          batchLimit := remaining;
        }
      }
      found, s, lastID := NextPage(table, maxUpdatedAt, lastID, batchLimit, s, sampleLimit, cohort);
    }
    assert s.scanned == VisitedCount(|cohort|, options.limit);
  }

  lemma ScannedAt(cohort: Table, n: nat, sampleLimit: nat)
    requires n <= |cohort|
    ensures SnapshotAt(cohort, n, sampleLimit).scanned == n
  {
    FoldCarries(Taking(sampleLimit), EMPTY_SNAPSHOT, InIdOrder(cohort), n, (s: Snapshot, k: nat) => s.scanned == k);
  }

  /** The snapshots from the `n`-th row to the `m`-th. */
  lemma SnapshotsBetween(rows: seq<StockRow>, n: nat, m: nat, limit: nat) returns (states: seq<Snapshot>)
    requires n <= m <= |rows|
    ensures GoesThrough(Fold(Taking(limit), EMPTY_SNAPSHOT, rows, n), rows[n..m], limit, states)
    ensures states[m - n] == Fold(Taking(limit), EMPTY_SNAPSHOT, rows, m)
  {
    states := FoldStates(Taking(limit), EMPTY_SNAPSHOT, rows, n, m);
  }

  /** The rows of the next page, and the last id seen after it. */
  lemma PageRows(cohort: Table, n: nat, limit: nat, m: nat)
    requires m == Min(n + limit, |cohort|) && Keyed(cohort) && "" !in cohort && n <= |cohort| == |Strings.SortedSeq(cohort.Keys)|
    ensures Fetched(cohort, LastOf(Strings.SortedSeq(cohort.Keys), n), limit) == InIdOrder(cohort)[n..m]
    ensures m > n ==> InIdOrder(cohort)[n..m][m - n - 1].format.id == LastOf(Strings.SortedSeq(cohort.Keys), m)
  {
    FetchedRows(cohort, cohort, n, limit);
  }

  /** The snapshots through which the next page goes. */
  lemma PageStates(cohort: Table, n: nat, limit: nat, m: nat, sampleLimit: nat, s: Snapshot) returns (states: seq<Snapshot>)
    requires m == Min(n + limit, |cohort|)
    requires Keyed(cohort) && "" !in cohort && n <= |cohort| == |Strings.SortedSeq(cohort.Keys)| && s == SnapshotAt(cohort, n, sampleLimit)
    ensures var rows := Fetched(cohort, LastOf(Strings.SortedSeq(cohort.Keys), n), limit);
            && |rows| == m - n && GoesThrough(s, rows, sampleLimit, states)
            && (m > n ==> rows[m - n - 1].format.id == LastOf(Strings.SortedSeq(cohort.Keys), m))
            && states[|rows|] == SnapshotAt(cohort, m, sampleLimit) && states[|rows|].scanned == m
  {
    PageRows(cohort, n, limit, m);
    ScannedAt(cohort, m, sampleLimit);
    states := SnapshotsBetween(InIdOrder(cohort), n, m, sampleLimit);
  }

  // ---- What a snapshot says -----------------------------------------------

  /** How many of the first `n` rows show what a code stands for. */
  function CountOf(rows: seq<StockRow>, n: nat, code: Code): nat
    requires n <= |rows|
  {
    if n == 0 then 0 else CountOf(rows, n - 1, code) + One(Shows(rows[n - 1], code))
  }

  /** The ids of those rows, in the order they were visited. */
  function Showing(rows: seq<StockRow>, n: nat, code: Code): seq<Id>
    requires n <= |rows|
  {
    if n == 0 then [] else Showing(rows, n - 1, code) + if Shows(rows[n - 1], code) then [rows[n - 1].format.id] else []
  }

  function CountBy(rows: seq<StockRow>, n: nat, keyOf: StockRow -> string, key: string): nat
    requires n <= |rows|
  {
    if n == 0 then 0 else CountBy(rows, n - 1, keyOf, key) + One(keyOf(rows[n - 1]) == key)
  }

  /** The unbounded sum of the amounts of the rows under a key. */
  function SumBy(rows: seq<StockRow>, n: nat, keyOf: StockRow -> string, key: string): int
    requires n <= |rows|
  {
    if n == 0 then 0
    else SumBy(rows, n - 1, keyOf, key) + if keyOf(rows[n - 1]) == key then rows[n - 1].amount as int else 0
  }

  /** How many of the first `n` rows lack a status, a type or a currency. */
  function BlankCount(rows: seq<StockRow>, n: nat): nat
    requires n <= |rows|
  {
    if n == 0 then 0
    else
      var row := rows[n - 1];
      BlankCount(rows, n - 1)
      + One(Strings.TrimSpace(row.format.status) == "" || Strings.TrimSpace(row.kind) == "" || Strings.TrimSpace(row.currency) == "")
  }

  function CounterOf(s: Snapshot, code: Code): nat {
    match code
    case RowsNeedingRepair => s.aggregates.rowsNeedingRepair
    case PostedWithoutPostedAt => s.invariants.postedWithoutPostedAt
    case PostedWithCancelledAt => s.invariants.postedWithCancelledAt
    case PlannedWithPostedAt => s.invariants.plannedWithPostedAt
    case PlannedWithCancelledAt => s.invariants.plannedWithCancelledAt
    case CancelledWithoutCancelledAt => s.invariants.cancelledWithoutCancelledAt
    case ReservedRefsPresent => s.invariants.reservedRefsPresent
    case EffectiveAtMissing => s.invariants.effectiveAtMissing
  }

  /** A map holds the count of every key that occurs, and no other key. */
  ghost predicate CountsBy(m: map<string, nat>, rows: seq<StockRow>, n: nat, keyOf: StockRow -> string)
    requires n <= |rows|
  {
    forall key :: if key == "" || CountBy(rows, n, keyOf, key) == 0 then key !in m
                  else key in m && m[key] == CountBy(rows, n, keyOf, key)
  }

  /** A map holds the wrapped sum of every key that occurs, and no other key. */
  ghost predicate SumsBy(m: map<string, Int64>, rows: seq<StockRow>, n: nat, keyOf: StockRow -> string)
    requires n <= |rows|
  {
    forall key :: if key == "" || CountBy(rows, n, keyOf, key) == 0 then key !in m
                  else key in m && m[key] == Wrap64(SumBy(rows, n, keyOf, key))
  }

  lemma {:induction false} NoCountNoSum(rows: seq<StockRow>, n: nat, keyOf: StockRow -> string, key: string)
    requires n <= |rows| && CountBy(rows, n, keyOf, key) == 0
    ensures SumBy(rows, n, keyOf, key) == 0
  {
    if n > 0 {
      NoCountNoSum(rows, n - 1, keyOf, key);
    }
  }

  lemma CountsByNext(m: map<string, nat>, rows: seq<StockRow>, n: nat, keyOf: StockRow -> string)
    requires n < |rows| && CountsBy(m, rows, n, keyOf)
    ensures CountsBy(Bumped(m, keyOf(rows[n])), rows, n + 1, keyOf)
  {
  }

  lemma SumsByNext(m: map<string, Int64>, rows: seq<StockRow>, n: nat, keyOf: StockRow -> string)
    requires n < |rows| && SumsBy(m, rows, n, keyOf)
    ensures SumsBy(Summed(m, keyOf(rows[n]), rows[n].amount), rows, n + 1, keyOf)
  {
    var key := keyOf(rows[n]);
    if CountBy(rows, n, keyOf, key) == 0 {
      NoCountNoSum(rows, n, keyOf, key);
    }
    WrapAbsorbs(SumBy(rows, n, keyOf, key), rows[n].amount);
  }

  /** The maps of a snapshot are the counts and sums of the visited rows. */
  ghost predicate MapsAre(a: Aggregates, rows: seq<StockRow>, n: nat)
    requires n <= |rows|
  {
    && CountsBy(a.countByStatus, rows, n, StatusOf) && CountsBy(a.countByType, rows, n, TypeOf)
    && CountsBy(a.countByCurrency, rows, n, CurrencyOf)
    && SumsBy(a.amountByCurrency, rows, n, CurrencyOf) && SumsBy(a.amountByStatus, rows, n, StatusOf)
  }

  /** Each counter counts the rows that show its code, and each sample holds the first of their ids. */
  ghost predicate CountersAre(s: Snapshot, rows: seq<StockRow>, n: nat, limit: nat)
    requires n <= |rows|
  {
    && s.scanned == n == s.aggregates.rowsNeedingRepair + s.aggregates.rowsAlreadyAligned
    && s.aggregates.rowsWithUnknownEnum == BlankCount(rows, n)
    && (forall code :: CounterOf(s, code) == CountOf(rows, n, code))
    && (forall code :: SampleOf(s.samples, code) == Take(Showing(rows, n, code), limit))
  }

  lemma MapsNext(a: Aggregates, rows: seq<StockRow>, n: nat)
    requires n < |rows| && MapsAre(a, rows, n)
    ensures MapsAre(AggregatedRow(a, rows[n]), rows, n + 1)
  {
    CountsByNext(a.countByStatus, rows, n, StatusOf);
    CountsByNext(a.countByType, rows, n, TypeOf);
    CountsByNext(a.countByCurrency, rows, n, CurrencyOf);
    SumsByNext(a.amountByCurrency, rows, n, CurrencyOf);
    SumsByNext(a.amountByStatus, rows, n, StatusOf);
  }

  lemma StampSamplesOf(samples: Samples, row: StockRow, limit: nat, code: Code)
    ensures SampleOf(StampSamples(samples, row, limit), code) ==
            if code in {PostedWithoutPostedAt, PostedWithCancelledAt, PlannedWithPostedAt, PlannedWithCancelledAt, CancelledWithoutCancelledAt}
            then SampleOf(SampledIf(samples, row, code, limit), code) else SampleOf(samples, code)
  {
  }

  /** What sampling a row under a code makes of the sample of that code. */
  function Extended(ids: seq<Id>, row: StockRow, code: Code, limit: nat): seq<Id> {
    if Shows(row, code) && |ids| < limit then ids + [row.format.id] else ids
  }

  /** A row is sampled under each code once, whatever it is sampled under besides. */
  lemma SamplesAfterOf(samples: Samples, row: StockRow, limit: nat, code: Code)
    ensures SampleOf(SamplesAfter(samples, row, limit), code) == Extended(SampleOf(samples, code), row, code, limit)
  {
    var first := SampledIf(samples, row, RowsNeedingRepair, limit);
    var stamps := StampSamples(first, row, limit);
    var reserved := SampledIf(stamps, row, ReservedRefsPresent, limit);
    SampledAt(samples, row, RowsNeedingRepair, limit, code);
    StampSamplesOf(first, row, limit, code);
    SampledAt(stamps, row, ReservedRefsPresent, limit, code);
    SampledAt(reserved, row, EffectiveAtMissing, limit, code);
  }

  lemma SampledAt(samples: Samples, row: StockRow, code: Code, limit: nat, at: Code)
    ensures SampleOf(SampledIf(samples, row, code, limit), at) ==
            if code == at then Extended(SampleOf(samples, at), row, at, limit) else SampleOf(samples, at)
  {
  }

  lemma SamplesNext(samples: Samples, rows: seq<StockRow>, n: nat, limit: nat, code: Code)
    requires n < |rows| && SampleOf(samples, code) == Take(Showing(rows, n, code), limit)
    ensures SampleOf(SamplesAfter(samples, rows[n], limit), code) == Take(Showing(rows, n + 1, code), limit)
  {
    SamplesAfterOf(samples, rows[n], limit, code);
  }

  lemma CountersNext(s: Snapshot, rows: seq<StockRow>, n: nat, limit: nat)
    requires n < |rows| && CountersAre(s, rows, n, limit)
    ensures CountersAre(Taken(s, rows[n], limit), rows, n + 1, limit)
  {
    var next := Taken(s, rows[n], limit);
    forall code
      ensures CounterOf(next, code) == CountOf(rows, n + 1, code)
      ensures SampleOf(next.samples, code) == Take(Showing(rows, n + 1, code), limit)
    {
      assert CounterOf(s, code) == CountOf(rows, n, code);
      CounterNext(s, rows[n], limit, code);
      SamplesNext(s.samples, rows, n, limit, code);
    }
  }

  lemma CounterNext(s: Snapshot, row: StockRow, limit: nat, code: Code)
    ensures CounterOf(Taken(s, row, limit), code) == CounterOf(s, code) + One(Shows(row, code))
  {
  }

  /** A snapshot of the first `n` rows. */
  ghost predicate Exact(s: Snapshot, rows: seq<StockRow>, n: nat, limit: nat) {
    n <= |rows| && CountersAre(s, rows, n, limit) && MapsAre(s.aggregates, rows, n)
  }

  lemma ExactNext(s: Snapshot, rows: seq<StockRow>, n: nat, limit: nat)
    requires n < |rows| && Exact(s, rows, n, limit)
    ensures Exact(Taken(s, rows[n], limit), rows, n + 1, limit)
  {
    CountersNext(s, rows, n, limit);
    MapsNext(s.aggregates, rows, n);
  }

  lemma ExactFold(rows: seq<StockRow>, n: nat, limit: nat)
    requires n <= |rows|
    ensures Exact(Fold(Taking(limit), EMPTY_SNAPSHOT, rows, n), rows, n, limit)
  {
    var p := (s: Snapshot, k: nat) => Exact(s, rows, k, limit);
    forall s: Snapshot, k: nat | k < |rows| && p(s, k) ensures p(Taking(limit)(s, rows[k]), k + 1) {
      ExactNext(s, rows, k, limit);
    }
    FoldCarries(Taking(limit), EMPTY_SNAPSHOT, rows, n, p);
  }

  /** A snapshot counts, sums and samples exactly the rows it visits: the first of its cohort in id order, up to the limit. */
  lemma StockIsExact(table: Table, options: Options, maxUpdatedAt: Option<Time>)
    ensures var rows := InIdOrder(Cohort(table, maxUpdatedAt));
            var n := VisitedCount(|Cohort(table, maxUpdatedAt)|, options.limit);
            Exact(Stock(table, options, maxUpdatedAt), rows, n, SampleLimit(options))
  {
    var cohort := Cohort(table, maxUpdatedAt);
    ExactFold(InIdOrder(cohort), VisitedCount(|cohort|, options.limit), SampleLimit(options));
  }

  // ---- The two checks agree -----------------------------------------------

  lemma {:induction false} CountZero(rows: seq<StockRow>, n: nat, code: Code)
    requires n <= |rows|
    ensures CountOf(rows, n, code) == 0 <==> forall i | 0 <= i < n :: !Shows(rows[i], code)
  {
    if n > 0 {
      CountZero(rows, n - 1, code);
      if Shows(rows[n - 1], code) {
        assert CountOf(rows, n, code) == CountOf(rows, n - 1, code) + 1;
      } else {
        assert CountOf(rows, n, code) == CountOf(rows, n - 1, code);
      }
    }
  }

  predicate RepairCode(code: Code) {
    code != RowsNeedingRepair && code != EffectiveAtMissing
  }

  /** The patch finds something to fix exactly when one of the six separately written checks does. */
  lemma RepairShows(row: StockRow)
    ensures Shows(row, RowsNeedingRepair) <==> exists code :: RepairCode(code) && Shows(row, code)
  {
    PatchAligns(row.format, 0);
    if Shows(row, RowsNeedingRepair) {
      if row.format.reserved != NO_RESERVED {
        assert RepairCode(ReservedRefsPresent) && Shows(row, ReservedRefsPresent);
      } else {
        assert !StampsAligned(row.format);
        assert Shows(row, PostedWithoutPostedAt) || Shows(row, PostedWithCancelledAt) || Shows(row, PlannedWithPostedAt)
               || Shows(row, PlannedWithCancelledAt) || Shows(row, CancelledWithoutCancelledAt);
      }
    }
  }

  /** No row needs repair exactly when the five stamp counters and the reserved-reference counter are all zero. */
  lemma ChecksAgree(table: Table, options: Options, maxUpdatedAt: Option<Time>)
    ensures Stock(table, options, maxUpdatedAt).aggregates.rowsNeedingRepair == 0
            <==> forall code | RepairCode(code) :: CounterOf(Stock(table, options, maxUpdatedAt), code) == 0
  {
    var rows := InIdOrder(Cohort(table, maxUpdatedAt));
    var n := VisitedCount(|Cohort(table, maxUpdatedAt)|, options.limit);
    StockIsExact(table, options, maxUpdatedAt);
    var s := Stock(table, options, maxUpdatedAt);
    assert CounterOf(s, RowsNeedingRepair) == CountOf(rows, n, RowsNeedingRepair);
    ZeroTogether(rows, n);
    assert forall code :: CounterOf(s, code) == CountOf(rows, n, code);
  }

  lemma ZeroTogether(rows: seq<StockRow>, n: nat)
    requires n <= |rows|
    ensures CountOf(rows, n, RowsNeedingRepair) == 0 <==> forall code | RepairCode(code) :: CountOf(rows, n, code) == 0
  {
    forall code ensures CountOf(rows, n, code) == 0 <==> forall i | 0 <= i < n :: !Shows(rows[i], code) {
      CountZero(rows, n, code);
    }
    forall i | 0 <= i < n ensures Shows(rows[i], RowsNeedingRepair) <==> exists code :: RepairCode(code) && Shows(rows[i], code) {
      RepairShows(rows[i]);
    }
  }

  // ---- Comparing two snapshots --------------------------------------------

  datatype Severity = High | Medium | Low

  datatype Discrepancy = Discrepancy(code: string, severity: Severity, before: int, after: int)

  function Get(m: map<string, int>, key: string): int {
    if key in m then m[key] else 0
  }

  function DeltaEntry(code: string, severity: Severity, before: int, after: int): seq<Discrepancy> {
    if before == after then [] else [Discrepancy(code, severity, before, after)]
  }

  /** The entries of the keys listed, in their order. */
  function MapDiffs(prefix: string, severity: Severity, before: map<string, int>, after: map<string, int>, keys: seq<string>): seq<Discrepancy> {
    if keys == [] then [] else
      DeltaEntry(prefix + "." + keys[0], severity, Get(before, keys[0]), Get(after, keys[0]))
      + MapDiffs(prefix, severity, before, after, keys[1..])
  }

  /** The keys of both maps, in whatever order the maps yield them, then sorted. */
  method UnionKeys(left: map<string, int>, right: map<string, int>) returns (keys: seq<string>)
    ensures keys == Strings.SortedSeq(left.Keys + right.Keys)
  {
    var merged: set<string> := {};
    var unvisited := left.Keys;
    while unvisited != {}
      invariant unvisited <= left.Keys && merged == left.Keys - unvisited
    {
      var key :| key in unvisited;
      merged, unvisited := merged + {key}, unvisited - {key};
    }
    unvisited := right.Keys;
    while unvisited != {}
      invariant unvisited <= right.Keys && merged == left.Keys + (right.Keys - unvisited)
    {
      var key :| key in unvisited;
      merged, unvisited := merged + {key}, unvisited - {key};
    }
    assert merged == left.Keys + right.Keys;
    keys := Strings.SortedSeq(merged);
  }

  method AppendMapDiffs(target: seq<Discrepancy>, prefix: string, severity: Severity, before: map<string, int>, after: map<string, int>)
    returns (next: seq<Discrepancy>)
    ensures next == target + MapDiffs(prefix, severity, before, after, Strings.SortedSeq(before.Keys + after.Keys))
  {
    var keys := UnionKeys(before, after);
    next := target;
    assert keys[0..] == keys;
    for i := 0 to |keys|
      invariant next + MapDiffs(prefix, severity, before, after, keys[i..]) == target + MapDiffs(prefix, severity, before, after, keys)
    {
      assert keys[i..][1..] == keys[i + 1..];
      var was, is_ := Get(before, keys[i]), Get(after, keys[i]);
      if was != is_ {
        next := next + [Discrepancy(prefix + "." + keys[i], severity, was, is_)];
      }
    }
    assert keys[|keys|..] == [];
    assert next + [] == next;
  }

  /** The compared figures of a snapshot. */
  datatype Figures = Figures(
    scanned: int, rowsNeedingRepair: int, countByStatus: map<string, int>, countByType: map<string, int>, amountByCurrency: map<string, int>)

  function DiffsOf(prefix: string, severity: Severity, before: map<string, int>, after: map<string, int>): seq<Discrepancy> {
    MapDiffs(prefix, severity, before, after, Strings.SortedSeq(before.Keys + after.Keys))
  }

  function Comparison(before: Figures, after: Figures): seq<Discrepancy> {
    DeltaEntry("delta_total_scanned", Low, before.scanned, after.scanned)
    + DeltaEntry("delta_rows_needing_repair", High, before.rowsNeedingRepair, after.rowsNeedingRepair)
    + DiffsOf("delta_count_by_status", Low, before.countByStatus, after.countByStatus)
    + DiffsOf("delta_count_by_type", Low, before.countByType, after.countByType)
    + DiffsOf("delta_amount_by_currency_minor", Medium, before.amountByCurrency, after.amountByCurrency)
  }

  method AppendDelta(target: seq<Discrepancy>, code: string, severity: Severity, before: int, after: int) returns (next: seq<Discrepancy>)
    ensures next == target + DeltaEntry(code, severity, before, after)
  {
    if before == after {
      return target;
    }
    return target + [Discrepancy(code, severity, before, after)];
  }

  function FiguresOf(s: Snapshot): Figures {
    Figures(s.scanned, s.aggregates.rowsNeedingRepair, s.aggregates.countByStatus, s.aggregates.countByType, s.aggregates.amountByCurrency)
  }

  method CompareSnapshots(before: Snapshot, after: Snapshot) returns (discrepancies: seq<Discrepancy>)
    ensures discrepancies == Comparison(FiguresOf(before), FiguresOf(after))
  {
    var a, b := before.aggregates, after.aggregates;
    discrepancies := AppendDelta([], "delta_total_scanned", Low, before.scanned, after.scanned);
    discrepancies := AppendDelta(discrepancies, "delta_rows_needing_repair", High, a.rowsNeedingRepair, b.rowsNeedingRepair);
    discrepancies := AppendMapDiffs(discrepancies, "delta_count_by_status", Low, a.countByStatus, b.countByStatus);
    discrepancies := AppendMapDiffs(discrepancies, "delta_count_by_type", Low, a.countByType, b.countByType);
    discrepancies := AppendMapDiffs(discrepancies, "delta_amount_by_currency_minor", Medium, a.amountByCurrency, b.amountByCurrency);
  }

  /** The keys under which two maps differ when a missing key reads as zero. */
  function Differing(before: map<string, int>, after: map<string, int>): set<string> {
    set key | key in before.Keys + after.Keys && Get(before, key) != Get(after, key)
  }

  function Entry(prefix: string, severity: Severity, before: map<string, int>, after: map<string, int>, key: string): Discrepancy {
    Discrepancy(prefix + "." + key, severity, Get(before, key), Get(after, key))
  }

  function DifferingOf(before: map<string, int>, after: map<string, int>, keys: seq<string>): seq<string> {
    if keys == [] then [] else
      (if Get(before, keys[0]) != Get(after, keys[0]) then [keys[0]] else []) + DifferingOf(before, after, keys[1..])
  }

  lemma {:induction false} DifferingOfAscends(before: map<string, int>, after: map<string, int>, keys: seq<string>)
    requires Strings.Ascending(keys)
    ensures Strings.Ascending(DifferingOf(before, after, keys))
    ensures forall x :: x in DifferingOf(before, after, keys) <==> x in keys && Get(before, x) != Get(after, x)
  {
    if keys != [] {
      DifferingOfAscends(before, after, keys[1..]);
      var rest := DifferingOf(before, after, keys[1..]);
      assert forall x :: x in keys <==> x == keys[0] || x in keys[1..];
      forall j | 0 <= j < |rest| ensures Strings.Less(keys[0], rest[j]) {
        assert rest[j] in keys[1..];
        var i :| 0 <= i < |keys[1..]| && keys[1..][i] == rest[j];
        assert keys[i + 1] == rest[j];
      }
    }
  }

  lemma {:induction false} MapDiffsEntries(prefix: string, severity: Severity, before: map<string, int>, after: map<string, int>, keys: seq<string>)
    ensures MapDiffs(prefix, severity, before, after, keys) ==
            Entries(prefix, severity, before, after, DifferingOf(before, after, keys))
  {
    if keys != [] {
      MapDiffsEntries(prefix, severity, before, after, keys[1..]);
      EntriesOfFirst(prefix, severity, before, after, keys);
    }
  }

  function Entries(prefix: string, severity: Severity, before: map<string, int>, after: map<string, int>, keys: seq<string>): seq<Discrepancy> {
    seq(|keys|, i requires 0 <= i < |keys| => Entry(prefix, severity, before, after, keys[i]))
  }

  lemma EntriesOfFirst(prefix: string, severity: Severity, before: map<string, int>, after: map<string, int>, keys: seq<string>)
    requires keys != []
    ensures Entries(prefix, severity, before, after, DifferingOf(before, after, keys)) ==
            DeltaEntry(prefix + "." + keys[0], severity, Get(before, keys[0]), Get(after, keys[0]))
            + Entries(prefix, severity, before, after, DifferingOf(before, after, keys[1..]))
  {
    var first := FirstDiffering(before, after, keys);
    var rest := DifferingOf(before, after, keys[1..]);
    EntriesAppend(prefix, severity, before, after, first, rest);
    EntriesOfOne(prefix, severity, before, after, keys[0]);
  }

  lemma FirstDiffering(before: map<string, int>, after: map<string, int>, keys: seq<string>) returns (first: seq<string>)
    requires keys != []
    ensures DifferingOf(before, after, keys) == first + DifferingOf(before, after, keys[1..])
    ensures first == if Get(before, keys[0]) != Get(after, keys[0]) then [keys[0]] else []
  {
    first := if Get(before, keys[0]) != Get(after, keys[0]) then [keys[0]] else [];
  }

  /** A single key gives its one entry if it differs, and none otherwise. */
  lemma EntriesOfOne(prefix: string, severity: Severity, before: map<string, int>, after: map<string, int>, key: string)
    ensures DeltaEntry(prefix + "." + key, severity, Get(before, key), Get(after, key)) ==
            Entries(prefix, severity, before, after, if Get(before, key) != Get(after, key) then [key] else [])
  {
  }

  lemma EntriesAppend(prefix: string, severity: Severity, before: map<string, int>, after: map<string, int>, a: seq<string>, b: seq<string>)
    ensures Entries(prefix, severity, before, after, a + b) ==
            Entries(prefix, severity, before, after, a) + Entries(prefix, severity, before, after, b)
  {
  }

  /** The entries of two maps: one for each differing key, in ascending key order, and nothing else. */
  lemma DiffsAreExact(prefix: string, severity: Severity, before: map<string, int>, after: map<string, int>)
    ensures DiffsOf(prefix, severity, before, after) ==
            Entries(prefix, severity, before, after, Strings.SortedSeq(Differing(before, after)))
  {
    var all := before.Keys + after.Keys;
    var keys := Strings.SortedSeq(all);
    var differing := Differing(before, after);
    Strings.SortedSeqElements(all);
    Strings.SortedSeqAscending(all);
    DifferingOfAscends(before, after, keys);
    Strings.SortedSeqElements(differing);
    Strings.SortedSeqAscending(differing);
    Strings.AscendingUnique(DifferingOf(before, after, keys), Strings.SortedSeq(differing));
    MapDiffsEntries(prefix, severity, before, after, keys);
  }

  /** Two maps agree when a missing key reads as zero. */
  ghost predicate SameFigures(before: map<string, int>, after: map<string, int>) {
    forall key :: Get(before, key) == Get(after, key)
  }

  lemma DiffsEmpty(prefix: string, severity: Severity, before: map<string, int>, after: map<string, int>)
    ensures DiffsOf(prefix, severity, before, after) == [] <==> SameFigures(before, after)
  {
    DiffsAreExact(prefix, severity, before, after);
    Strings.SortedSeqElements(Differing(before, after));
    if Differing(before, after) == {} {
      forall key ensures Get(before, key) == Get(after, key) {
        assert key !in Differing(before, after);
      }
    }
  }

  /** The comparison finds nothing exactly when the compared figures agree. */
  lemma ComparisonEmpty(before: Figures, after: Figures)
    ensures Comparison(before, after) == [] <==>
            before.scanned == after.scanned && before.rowsNeedingRepair == after.rowsNeedingRepair
            && SameFigures(before.countByStatus, after.countByStatus) && SameFigures(before.countByType, after.countByType)
            && SameFigures(before.amountByCurrency, after.amountByCurrency)
  {
    DiffsEmpty("delta_count_by_status", Low, before.countByStatus, after.countByStatus);
    DiffsEmpty("delta_count_by_type", Low, before.countByType, after.countByType);
    DiffsEmpty("delta_amount_by_currency_minor", Medium, before.amountByCurrency, after.amountByCurrency);
  }

  /** What an entry of the comparison is about: a total, or one key of one of the three maps, with how bad that is. */
  predicate Concerns(d: Discrepancy, before: Figures, after: Figures, key: string) {
    || Totals(d, before, after)
    || d == Discrepancy("delta_count_by_status" + "." + key, Low, Get(before.countByStatus, key), Get(after.countByStatus, key))
    || d == Discrepancy("delta_count_by_type" + "." + key, Low, Get(before.countByType, key), Get(after.countByType, key))
    || d == Discrepancy("delta_amount_by_currency_minor" + "." + key, Medium, Get(before.amountByCurrency, key), Get(after.amountByCurrency, key))
  }

  /** The comparison holds exactly the totals and keys whose figures differ. */
  lemma WhatIsReported(before: Figures, after: Figures, d: Discrepancy)
    ensures d in Comparison(before, after) <==> d.before != d.after && exists key :: Concerns(d, before, after, key)
  {
    WhatDiffers("delta_count_by_status", Low, before.countByStatus, after.countByStatus, d);
    WhatDiffers("delta_count_by_type", Low, before.countByType, after.countByType, d);
    WhatDiffers("delta_amount_by_currency_minor", Medium, before.amountByCurrency, after.amountByCurrency, d);
    InParts(before, after, d);
    if d.before != d.after && Totals(d, before, after) {
      assert Concerns(d, before, after, "");
    }
    if d in DiffsOf("delta_count_by_status", Low, before.countByStatus, after.countByStatus) {
      var key :| d == Discrepancy("delta_count_by_status" + "." + key, Low, Get(before.countByStatus, key), Get(after.countByStatus, key));
      assert Concerns(d, before, after, key);
    }
    if d in DiffsOf("delta_count_by_type", Low, before.countByType, after.countByType) {
      var key :| d == Discrepancy("delta_count_by_type" + "." + key, Low, Get(before.countByType, key), Get(after.countByType, key));
      assert Concerns(d, before, after, key);
    }
    if d in DiffsOf("delta_amount_by_currency_minor", Medium, before.amountByCurrency, after.amountByCurrency) {
      var key :| d == Discrepancy("delta_amount_by_currency_minor" + "." + key, Medium, Get(before.amountByCurrency, key), Get(after.amountByCurrency, key));
      assert Concerns(d, before, after, key);
    }
  }

  predicate Totals(d: Discrepancy, before: Figures, after: Figures) {
    || d == Discrepancy("delta_total_scanned", Low, before.scanned, after.scanned)
    || d == Discrepancy("delta_rows_needing_repair", High, before.rowsNeedingRepair, after.rowsNeedingRepair)
  }

  lemma InParts(before: Figures, after: Figures, d: Discrepancy)
    ensures d in Comparison(before, after) <==>
            || (d.before != d.after && Totals(d, before, after))
            || d in DiffsOf("delta_count_by_status", Low, before.countByStatus, after.countByStatus)
            || d in DiffsOf("delta_count_by_type", Low, before.countByType, after.countByType)
            || d in DiffsOf("delta_amount_by_currency_minor", Medium, before.amountByCurrency, after.amountByCurrency)
  {
  }

  lemma WhatDiffers(prefix: string, severity: Severity, before: map<string, int>, after: map<string, int>, d: Discrepancy)
    ensures d in DiffsOf(prefix, severity, before, after) <==>
            d.before != d.after && exists key :: d == Discrepancy(prefix + "." + key, severity, Get(before, key), Get(after, key))
  {
    var differing := Differing(before, after);
    var keys := Strings.SortedSeq(differing);
    DiffsAreExact(prefix, severity, before, after);
    Strings.SortedSeqElements(differing);
    if d.before != d.after && exists key :: d == Discrepancy(prefix + "." + key, severity, Get(before, key), Get(after, key)) {
      var key :| d == Discrepancy(prefix + "." + key, severity, Get(before, key), Get(after, key));
      assert key in differing && key in keys;
      var i :| 0 <= i < |keys| && keys[i] == key;
      assert Entries(prefix, severity, before, after, keys)[i] == d;
    }
    if d in DiffsOf(prefix, severity, before, after) {
      var i :| 0 <= i < |keys| && Entries(prefix, severity, before, after, keys)[i] == d;
      assert keys[i] in differing;
    }
  }
}
