/** The job that puts stored transaction rows in order, page by page. */
module RepairJob {
  import opened Prelude
  import opened TransactionFormat
  import opened Keyset
  import Strings

  const DEFAULT_BATCH_SIZE: nat := 500
  const MAX_ISSUE_SAMPLES: nat := 100

  datatype Options = Options(dryRun: bool, batchSize: int, limit: int)

  datatype Stats = Stats(
    scanned: nat, needsFix: nat, repaired: nat, skipped: nat, conflicts: nat, errors: nat, reservedFixed: nat, timestampFix: nat)

  const NO_STATS := Stats(0, 0, 0, 0, 0, 0, 0, 0)

  datatype Reason = UpdateFailed | ConcurrentUpdate

  datatype Issue = Issue(id: Id, reason: Reason)

  /**
   * What happens around the job: the rows that others rewrite between the read of a row and its update,
   * the rows whose update statement fails, and the clock at each update.
   */
  datatype Scene = Scene(rewritten: map<Id, FormatRow>, failing: set<Id>, clock: map<Id, Time>)

  type Table = map<Id, FormatRow>

  datatype Work = Work(table: Table, stats: Stats, issues: seq<Issue>)

  datatype Applied = Updated | NotUpdated | Broken

  // ---- What the job does to one row ---------------------------------------

  function ClockAt(scene: Scene, id: Id): Time {
    if id in scene.clock then scene.clock[id] else 0
  }

  /** The table when the update of a row is sent. */
  function Disturbed(table: Table, id: Id, scene: Scene): Table {
    if id in table && id in scene.rewritten then table[id := scene.rewritten[id]] else table
  }

  function Application(table: Table, row: FormatRow, scene: Scene): Applied {
    if row.id in scene.failing then Broken
    else if row.id in table && table[row.id].updatedAt == row.updatedAt then Updated
    else NotUpdated
  }

  function AppendIssue(issues: seq<Issue>, issue: Issue): seq<Issue> {
    if |issues| >= MAX_ISSUE_SAMPLES then issues else issues + [issue]
  }

  /** The counters of a row that needs a patch. */
  function Found(stats: Stats, patch: Patch): Stats {
    stats.(scanned := stats.scanned + 1, needsFix := stats.needsFix + 1,
           timestampFix := stats.timestampFix + (if patch.hasTimestamp then 1 else 0),
           reservedFixed := stats.reservedFixed + (if patch.hasReservedIds then 1 else 0))
  }

  function Treat(w: Work, row: FormatRow, dryRun: bool, scene: Scene): Work {
    var patch := PatchFor(row);
    if !patch.needsFix then w.(stats := w.stats.(scanned := w.stats.scanned + 1, skipped := w.stats.skipped + 1))
    else if dryRun then w.(stats := Found(w.stats, patch))
    else
      var table := Disturbed(w.table, row.id, scene);
      var stats := Found(w.stats, patch);
      match Application(table, row, scene)
      case Broken => Work(table, stats.(errors := stats.errors + 1), AppendIssue(w.issues, Issue(row.id, UpdateFailed)))
      case NotUpdated => Work(table, stats.(conflicts := stats.conflicts + 1), AppendIssue(w.issues, Issue(row.id, ConcurrentUpdate)))
      case Updated => Work(table[row.id := Patched(table[row.id], patch, ClockAt(scene, row.id))], stats.(repaired := stats.repaired + 1), w.issues)
  }

  /** One treatment as a step from one state of the work to the next. */
  function Treatment(dryRun: bool, scene: Scene): (Work, FormatRow) -> Work {
    (w: Work, row: FormatRow) => Treat(w, row, dryRun, scene)
  }

  function Unstarted(start: Table): Work {
    Work(start, NO_STATS, [])
  }

  /** The work done once the first `n` rows have been treated, in ascending id order, as they were at the start. */
  function WorkAt(start: Table, n: nat, dryRun: bool, scene: Scene): Work
    requires n <= |start|
  {
    Fold(Treatment(dryRun, scene), Unstarted(start), InIdOrder(start), n)
  }

  /** The whole run, said without pages. */
  function RunResult(start: Table, options: Options, scene: Scene): Work {
    WorkAt(start, VisitedCount(|start|, options.limit), options.dryRun, scene)
  }

  /** `next` is `w` after one more row. */
  predicate Treated(w: Work, row: FormatRow, dryRun: bool, scene: Scene, next: Work) {
    next == Treat(w, row, dryRun, scene)
  }

  /** The states through which some rows lead. */
  ghost predicate GoesThrough(w: Work, rows: seq<FormatRow>, dryRun: bool, scene: Scene, works: seq<Work>) {
    |works| == |rows| + 1 && works[0] == w
    && forall k | 0 <= k < |rows| :: Treated(works[k], rows[k], dryRun, scene, works[k + 1])
  }

  predicate Keyed(table: Table) {
    forall k | k in table :: table[k].id == k
  }

  // ---- The job ------------------------------------------------------------

  class Job {
    var table: Table

    constructor (rows: Table)
      ensures table == rows
    {
      table := rows;
    }

    method FetchBatch(lastID: Id, limit: nat) returns (rows: seq<FormatRow>)
      ensures rows == Fetched(table, lastID, limit)
    {
      rows := Fetched(table, lastID, limit);
    }

    /** The guarded update of one row; others may have rewritten it since it was read. */
    method ApplyPatch(row: FormatRow, patch: Patch, scene: Scene) returns (applied: Applied)
      modifies this
      ensures applied == Application(Disturbed(old(table), row.id, scene), row, scene)
      ensures table == var t := Disturbed(old(table), row.id, scene);
                       if applied.Updated? then t[row.id := Patched(t[row.id], patch, ClockAt(scene, row.id))] else t
    {
      if row.id in table && row.id in scene.rewritten {
        table := table[row.id := scene.rewritten[row.id]];
      }
      if row.id in scene.failing {
        return Broken;
      }
      if row.id in table && table[row.id].updatedAt == row.updatedAt {
        table := table[row.id := Patched(table[row.id], patch, ClockAt(scene, row.id))];
        return Updated;
      }
      return NotUpdated;
    }

    method TreatRow(row: FormatRow, stats: Stats, issues: seq<Issue>, dryRun: bool, scene: Scene) returns (next: Stats, nextIssues: seq<Issue>)
      modifies this
      ensures Treated(Work(old(table), stats, issues), row, dryRun, scene, Work(table, next, nextIssues))
    {
      next, nextIssues := stats.(scanned := stats.scanned + 1), issues;
      var patch := BuildTransactionFormatPatch(row);
      if !patch.needsFix {
        next := next.(skipped := next.skipped + 1);
        return;
      }
      next := next.(needsFix := next.needsFix + 1);
      if patch.hasTimestamp {
        next := next.(timestampFix := next.timestampFix + 1);
      }
      if patch.hasReservedIds {
        next := next.(reservedFixed := next.reservedFixed + 1);
      }
      if dryRun {
        return;
      }
      var applied := ApplyPatch(row, patch, scene);
      match applied {
        case Broken =>
          next, nextIssues := next.(errors := next.errors + 1), AppendIssue(issues, Issue(row.id, UpdateFailed));
        case NotUpdated =>
          next, nextIssues := next.(conflicts := next.conflicts + 1), AppendIssue(issues, Issue(row.id, ConcurrentUpdate));
        case Updated =>
          next := next.(repaired := next.repaired + 1);
      }
    }

    /** One page of rows; `works` are the states from one row to the next. */
    method TreatPage(rows: seq<FormatRow>, stats: Stats, issues: seq<Issue>, dryRun: bool, scene: Scene, ghost works: seq<Work>)
      returns (next: Stats, nextIssues: seq<Issue>, lastID: Id)
      requires rows != [] && GoesThrough(Work(table, stats, issues), rows, dryRun, scene, works)
      modifies this
      ensures works[|rows|] == Work(table, next, nextIssues)
      ensures lastID == rows[|rows| - 1].id
    {
      next, nextIssues, lastID := stats, issues, "";
      for i := 0 to |rows|
        invariant works[i] == Work(table, next, nextIssues)
        invariant i > 0 ==> lastID == rows[i - 1].id
      {
        lastID := rows[i].id;
        next, nextIssues := TreatRow(rows[i], next, nextIssues, dryRun, scene);
      }
    }

    /** Fetches and treats the next page; there is none once every row has been visited. */
    method NextPage(lastID: Id, limit: nat, stats: Stats, issues: seq<Issue>, dryRun: bool, scene: Scene, ghost start: Table)
      returns (found: bool, next: Stats, nextIssues: seq<Issue>, nextID: Id)
      requires Keyed(start) && "" !in start && limit > 0 && stats.scanned <= |start| == |Strings.SortedSeq(start.Keys)|
      requires Work(table, stats, issues) == WorkAt(start, stats.scanned, dryRun, scene)
      requires lastID == LastOf(Strings.SortedSeq(start.Keys), stats.scanned)
      modifies this
      ensures next.scanned == Min(stats.scanned + limit, |start|)
      ensures found <==> stats.scanned < |start|
      ensures Work(table, next, nextIssues) == WorkAt(start, next.scanned, dryRun, scene)
      ensures nextID == LastOf(Strings.SortedSeq(start.Keys), next.scanned)
    {
      ghost var works := PageWorks(start, stats.scanned, limit, dryRun, scene, Work(table, stats, issues));
      var rows := FetchBatch(lastID, limit);
      if |rows| == 0 {
        return false, stats, issues, lastID;
      }
      next, nextIssues, nextID := TreatPage(rows, stats, issues, dryRun, scene, works);
      assert next == works[|rows|].stats;
      found := true;
    }

    /** The whole run, whatever the size of its pages. */
    method Run(options: Options, scene: Scene) returns (stats: Stats, issues: seq<Issue>)
      requires Keyed(table) && "" !in table
      modifies this
      ensures Work(table, stats, issues) == RunResult(old(table), options, scene)
    {
      var batchSize: nat := if options.batchSize <= 0 then DEFAULT_BATCH_SIZE else options.batchSize;
      stats, issues := NO_STATS, [];
      var lastID: Id := "";
      ghost var start := table;
      CountIds(start);
      var found := true;
      while found
        invariant stats.scanned <= |start| && (options.limit > 0 ==> stats.scanned <= options.limit)
        invariant Work(table, stats, issues) == WorkAt(start, stats.scanned, options.dryRun, scene)
        invariant lastID == LastOf(Strings.SortedSeq(start.Keys), stats.scanned)
        invariant !found ==> stats.scanned == |start|
        decreases |start| - stats.scanned, found
      {
        var batchLimit := batchSize;
        if options.limit > 0 {
          var remaining := options.limit - stats.scanned;
          if remaining <= 0 {
            break;
          }
          if remaining < batchLimit {
            batchLimit := remaining;
          }
        }
        found, stats, issues, lastID := NextPage(lastID, batchLimit, stats, issues, options.dryRun, scene, start);
      }
      assert stats.scanned == VisitedCount(|start|, options.limit);
    }
  }

  /** The states through which the next page goes. */
  lemma PageWorks(start: Table, n: nat, limit: nat, dryRun: bool, scene: Scene, w: Work) returns (works: seq<Work>)
    requires Keyed(start) && "" !in start && n <= |start| == |Strings.SortedSeq(start.Keys)| && w == WorkAt(start, n, dryRun, scene)
    ensures var m := Min(n + limit, |start|);
            var rows := Fetched(w.table, LastOf(Strings.SortedSeq(start.Keys), n), limit);
            && |rows| == m - n && GoesThrough(w, rows, dryRun, scene, works)
            && (m > n ==> rows[m - n - 1].id == LastOf(Strings.SortedSeq(start.Keys), m))
            && works[|rows|] == WorkAt(start, m, dryRun, scene) && works[|rows|].stats.scanned == m
  {
    var m := Min(n + limit, |start|);
    PageRows(start, n, limit, dryRun, scene, w);
    UntouchedAt(start, dryRun, scene, m);
    works := FoldStates(Treatment(dryRun, scene), Unstarted(start), InIdOrder(start), n, m);
  }

  /** The next page holds the rows that follow, as they were at the start. */
  lemma PageRows(start: Table, n: nat, limit: nat, dryRun: bool, scene: Scene, w: Work)
    requires Keyed(start) && "" !in start && n <= |start| == |Strings.SortedSeq(start.Keys)| && w == WorkAt(start, n, dryRun, scene)
    ensures var m := Min(n + limit, |start|);
            var rows := Fetched(w.table, LastOf(Strings.SortedSeq(start.Keys), n), limit);
            rows == InIdOrder(start)[n..m] && (m > n ==> rows[m - n - 1].id == LastOf(Strings.SortedSeq(start.Keys), m))
  {
    UntouchedAt(start, dryRun, scene, n);
    FetchedRows(start, w.table, n, limit);
    OrderedIds(start);
  }

  // ---- Rows not yet visited -----------------------------------------------

  /** After `k` rows: `k` have been scanned, no row came or went, and the rows still to come are as they were. */
  predicate Untouched(start: Table, w: Work, k: nat) {
    && w.stats.scanned == k && w.table.Keys == start.Keys
    && forall i | k <= i < |InIdOrder(start)| :: w.table[Strings.SortedSeq(start.Keys)[i]] == InIdOrder(start)[i]
  }

  /** Treating a row changes no other row, and no row comes or goes. */
  lemma TreatFrame(w: Work, row: FormatRow, dryRun: bool, scene: Scene)
    requires row.id in w.table
    ensures Treat(w, row, dryRun, scene).table.Keys == w.table.Keys
    ensures forall k | k in w.table && k != row.id :: Treat(w, row, dryRun, scene).table[k] == w.table[k]
    ensures Treat(w, row, dryRun, scene).stats.scanned == w.stats.scanned + 1
  {
  }

  /** The ids of a keyed table in order, each under its own row and none twice. */
  lemma OrderedIds(start: Table)
    requires Keyed(start)
    ensures forall i | 0 <= i < |InIdOrder(start)| :: InIdOrder(start)[i].id == Strings.SortedSeq(start.Keys)[i]
    ensures forall i, j | 0 <= i < j < |InIdOrder(start)| :: Strings.SortedSeq(start.Keys)[i] != Strings.SortedSeq(start.Keys)[j]
  {
    var all := Strings.SortedSeq(start.Keys);
    Strings.SortedSeqAscending(start.Keys);
    forall i, j | 0 <= i < j < |all| ensures all[i] != all[j] {
      Strings.LessIrreflexive(all[i]);
    }
  }

  lemma UntouchedNext(start: Table, dryRun: bool, scene: Scene, w: Work, k: nat)
    requires Keyed(start) && k < |InIdOrder(start)| && Untouched(start, w, k)
    ensures Untouched(start, Treat(w, InIdOrder(start)[k], dryRun, scene), k + 1)
  {
    OrderedIds(start);
    TreatFrame(w, InIdOrder(start)[k], dryRun, scene);
  }

  lemma UntouchedAt(start: Table, dryRun: bool, scene: Scene, n: nat)
    requires Keyed(start) && n <= |InIdOrder(start)|
    ensures Untouched(start, Fold(Treatment(dryRun, scene), Unstarted(start), InIdOrder(start), n), n)
  {
    var p := (w: Work, k: nat) => Untouched(start, w, k);
    var f := Treatment(dryRun, scene);
    var all := InIdOrder(start);
    forall w, k: nat | k < |all| && p(w, k) ensures p(f(w, all[k]), k + 1) {
      UntouchedNext(start, dryRun, scene, w, k);
    }
    FoldCarries(f, Unstarted(start), all, n, p);
  }

  // ---- What a run amounts to ----------------------------------------------

  function Unaligned(rows: seq<FormatRow>, n: nat): nat
    requires n <= |rows|
  {
    if n == 0 then 0 else Unaligned(rows, n - 1) + if Aligned(rows[n - 1]) then 0 else 1
  }

  function StampsUnaligned(rows: seq<FormatRow>, n: nat): nat
    requires n <= |rows|
  {
    if n == 0 then 0 else StampsUnaligned(rows, n - 1) + if StampsAligned(rows[n - 1]) then 0 else 1
  }

  function WithReserved(rows: seq<FormatRow>, n: nat): nat
    requires n <= |rows|
  {
    if n == 0 then 0 else WithReserved(rows, n - 1) + if rows[n - 1].reserved == NO_RESERVED then 0 else 1
  }

  /** Why a row that a real run wants to repair is not repaired: its statement fails, or someone has changed its stamp. */
  function Obstacle(row: FormatRow, scene: Scene): Option<Reason> {
    if Aligned(row) then None
    else if row.id in scene.failing then Some(UpdateFailed)
    else if row.id in scene.rewritten && scene.rewritten[row.id].updatedAt != row.updatedAt then Some(ConcurrentUpdate)
    else None
  }

  /** The rows not repaired, each with its reason, in the order visited. */
  function Obstacles(rows: seq<FormatRow>, n: nat, scene: Scene): seq<Issue>
    requires n <= |rows|
  {
    if n == 0 then []
    else Obstacles(rows, n - 1, scene)
         + if Obstacle(rows[n - 1], scene).Some? then [Issue(rows[n - 1].id, Obstacle(rows[n - 1], scene).value)] else []
  }

  /** How many of the issues have a reason. */
  function Because(issues: seq<Issue>, reason: Reason): nat {
    if issues == [] then 0 else Because(issues[..|issues| - 1], reason) + if issues[|issues| - 1].reason == reason then 1 else 0
  }

  predicate StatsAddUp(w: Work, dryRun: bool) {
    && w.stats.scanned == w.stats.skipped + w.stats.needsFix
    && (dryRun ==> w.stats.repaired == w.stats.conflicts == w.stats.errors == 0)
    && (!dryRun ==> w.stats.needsFix == w.stats.repaired + w.stats.conflicts + w.stats.errors)
    && |w.issues| == Min(MAX_ISSUE_SAMPLES, w.stats.conflicts + w.stats.errors)
  }

  /** The report after `n` of the rows. */
  predicate Reports(start: Table, dryRun: bool, w: Work, n: nat) {
    && StatsAddUp(w, dryRun) && w.stats.scanned == n <= |InIdOrder(start)|
    && w.stats.needsFix == Unaligned(InIdOrder(start), n)
    && w.stats.timestampFix == StampsUnaligned(InIdOrder(start), n) && w.stats.reservedFixed == WithReserved(InIdOrder(start), n)
    && (dryRun ==> w.table == start)
  }

  lemma TreatAddsUp(w: Work, row: FormatRow, dryRun: bool, scene: Scene)
    requires StatsAddUp(w, dryRun)
    ensures var next := Treat(w, row, dryRun, scene);
            StatsAddUp(next, dryRun) && next.stats.needsFix == w.stats.needsFix + (if Aligned(row) then 0 else 1)
            && next.stats.scanned == w.stats.scanned + 1 && (dryRun ==> next.table == w.table)
            && next.stats.timestampFix == w.stats.timestampFix + (if StampsAligned(row) then 0 else 1)
            && next.stats.reservedFixed == w.stats.reservedFixed + (if row.reserved == NO_RESERVED then 0 else 1)
  {
    PatchAligns(row, 0);
  }

  lemma CountsOneMore(rows: seq<FormatRow>, n: nat)
    requires n < |rows|
    ensures Unaligned(rows, n + 1) == Unaligned(rows, n) + if Aligned(rows[n]) then 0 else 1
    ensures StampsUnaligned(rows, n + 1) == StampsUnaligned(rows, n) + if StampsAligned(rows[n]) then 0 else 1
    ensures WithReserved(rows, n + 1) == WithReserved(rows, n) + if rows[n].reserved == NO_RESERVED then 0 else 1
  {
  }

  lemma ReportsNext(start: Table, dryRun: bool, scene: Scene, w: Work, n: nat, rows: seq<FormatRow>)
    requires rows == InIdOrder(start) && n < |rows| && Reports(start, dryRun, w, n)
    ensures Reports(start, dryRun, Treat(w, rows[n], dryRun, scene), n + 1)
  {
    TreatAddsUp(w, rows[n], dryRun, scene);
    CountsOneMore(rows, n);
  }

  lemma ReportsAt(start: Table, dryRun: bool, scene: Scene, n: nat)
    requires n <= |start|
    ensures Reports(start, dryRun, Fold(Treatment(dryRun, scene), Unstarted(start), InIdOrder(start), n), n)
  {
    var p := (w: Work, k: nat) => Reports(start, dryRun, w, k);
    var f := Treatment(dryRun, scene);
    var all := InIdOrder(start);
    forall w, k: nat | k < |all| && p(w, k) ensures p(f(w, all[k]), k + 1) {
      ReportsNext(start, dryRun, scene, w, k, all);
    }
    FoldCarries(f, Unstarted(start), all, n, p);
  }

  /**
   * The report of a run, for any page size: how many rows it visits, that its counters add up, that every
   * visited row out of order is counted, and that a dry run changes nothing.
   */
  lemma RunReport(start: Table, options: Options, scene: Scene)
    ensures var w := RunResult(start, options, scene);
            var visited := if options.limit > 0 then Min(options.limit, |start|) else |start|;
            && StatsAddUp(w, options.dryRun) && w.stats.scanned == visited
            && w.stats.needsFix == Unaligned(InIdOrder(start), visited)
            && w.stats.timestampFix == StampsUnaligned(InIdOrder(start), visited)
            && w.stats.reservedFixed == WithReserved(InIdOrder(start), visited)
            && (options.dryRun ==> w.table == start)
  {
    ReportsAt(start, options.dryRun, scene, VisitedCount(|start|, options.limit));
  }

  /** What a real run makes of one visited row. */
  function RowAfter(row: FormatRow, scene: Scene): FormatRow {
    if Aligned(row) then row else
      var current := if row.id in scene.rewritten then scene.rewritten[row.id] else row;
      if row.id in scene.failing || current.updatedAt != row.updatedAt then current
      else Patched(current, PatchFor(row), ClockAt(scene, row.id))
  }

  lemma TreatRowAfter(w: Work, row: FormatRow, scene: Scene)
    requires row.id in w.table && w.table[row.id] == row
    ensures row.id in Treat(w, row, false, scene).table && Treat(w, row, false, scene).table[row.id] == RowAfter(row, scene)
    ensures Treat(w, row, false, scene).stats.errors ==
            w.stats.errors + if !Aligned(row) && row.id in scene.failing then 1 else 0
  {
    PatchAligns(row, 0);
  }

  /** The first `n` rows are as their own treatment leaves them, and a failed statement is counted. */
  predicate RowsDone(start: Table, scene: Scene, w: Work, n: nat) {
    && n <= |InIdOrder(start)| && Untouched(start, w, n)
    && (forall i | 0 <= i < n :: w.table[Strings.SortedSeq(start.Keys)[i]] == RowAfter(InIdOrder(start)[i], scene))
    && (w.stats.errors == 0 ==> forall i | 0 <= i < n :: Aligned(InIdOrder(start)[i]) || InIdOrder(start)[i].id !in scene.failing)
  }

  lemma RowsDoneNext(start: Table, scene: Scene, w: Work, n: nat)
    requires Keyed(start) && n < |InIdOrder(start)| && RowsDone(start, scene, w, n)
    ensures RowsDone(start, scene, Treat(w, InIdOrder(start)[n], false, scene), n + 1)
  {
    var row := InIdOrder(start)[n];
    OrderedIds(start);
    UntouchedNext(start, false, scene, w, n);
    TreatRowAfter(w, row, scene);
    TreatFrame(w, row, false, scene);
  }

  /** A real run leaves each visited row as its own treatment does, and the others as they were. */
  lemma RowsAfter(start: Table, options: Options, scene: Scene)
    requires Keyed(start) && !options.dryRun
    ensures RowsDone(start, scene, RunResult(start, options, scene), VisitedCount(|start|, options.limit))
  {
    var p := (w: Work, k: nat) => RowsDone(start, scene, w, k);
    var f := Treatment(false, scene);
    var all := InIdOrder(start);
    forall w, k: nat | k < |all| && p(w, k) ensures p(f(w, all[k]), k + 1) {
      RowsDoneNext(start, scene, w, k);
    }
    FoldCarries(f, Unstarted(start), all, VisitedCount(|start|, options.limit), p);
  }

  lemma TreatTells(w: Work, row: FormatRow, scene: Scene)
    requires row.id in w.table && w.table[row.id] == row
    ensures var next, why := Treat(w, row, false, scene), Obstacle(row, scene);
            && next.stats.errors == w.stats.errors + (if why == Some(UpdateFailed) then 1 else 0)
            && next.stats.conflicts == w.stats.conflicts + (if why == Some(ConcurrentUpdate) then 1 else 0)
            && next.issues == if why.Some? then AppendIssue(w.issues, Issue(row.id, why.value)) else w.issues
  {
    PatchAligns(row, 0);
  }

  /** After `n` rows: those not repaired are counted by their reasons, and the first hundred of them are told. */
  predicate Told(start: Table, scene: Scene, w: Work, n: nat) {
    && n <= |InIdOrder(start)| && Untouched(start, w, n)
    && var all := Obstacles(InIdOrder(start), n, scene);
       w.issues == Take(all, MAX_ISSUE_SAMPLES)
       && w.stats.errors == Because(all, UpdateFailed) && w.stats.conflicts == Because(all, ConcurrentUpdate)
  }

  lemma BecauseOneMore(issues: seq<Issue>, issue: Issue, reason: Reason)
    ensures Because(issues + [issue], reason) == Because(issues, reason) + if issue.reason == reason then 1 else 0
  {
    assert (issues + [issue])[..|issues|] == issues;
  }

  lemma ObstaclesOneMore(rows: seq<FormatRow>, n: nat, scene: Scene)
    requires n < |rows|
    ensures var all, why := Obstacles(rows, n, scene), Obstacle(rows[n], scene);
            Obstacles(rows, n + 1, scene) == if why.Some? then all + [Issue(rows[n].id, why.value)] else all
  {
  }

  lemma AppendTaken(issues: seq<Issue>, issue: Issue)
    ensures AppendIssue(Take(issues, MAX_ISSUE_SAMPLES), issue) == Take(issues + [issue], MAX_ISSUE_SAMPLES)
  {
  }

  lemma ToldNext(start: Table, scene: Scene, w: Work, n: nat)
    requires Keyed(start) && n < |InIdOrder(start)| && Told(start, scene, w, n)
    ensures Told(start, scene, Treat(w, InIdOrder(start)[n], false, scene), n + 1)
  {
    var row := InIdOrder(start)[n];
    OrderedIds(start);
    UntouchedNext(start, false, scene, w, n);
    TreatTells(w, row, scene);
    ObstaclesOneMore(InIdOrder(start), n, scene);
    if Obstacle(row, scene).Some? {
      var all, issue := Obstacles(InIdOrder(start), n, scene), Issue(row.id, Obstacle(row, scene).value);
      BecauseOneMore(all, issue, UpdateFailed);
      BecauseOneMore(all, issue, ConcurrentUpdate);
      AppendTaken(all, issue);
    }
  }

  lemma ToldNothing(start: Table, scene: Scene)
    requires Keyed(start)
    ensures Told(start, scene, Unstarted(start), 0)
  {
    UntouchedAt(start, false, scene, 0);
  }

  lemma ToldAt(start: Table, scene: Scene, n: nat)
    requires Keyed(start) && n <= |InIdOrder(start)|
    ensures Told(start, scene, Fold(Treatment(false, scene), Unstarted(start), InIdOrder(start), n), n)
  {
    ToldNothing(start, scene);
    var p := (w: Work, k: nat) => Told(start, scene, w, k);
    var f := Treatment(false, scene);
    var all := InIdOrder(start);
    forall w, k: nat | k < |all| && p(w, k) ensures p(f(w, all[k]), k + 1) {
      ToldNext(start, scene, w, k);
    }
    FoldCarries(f, Unstarted(start), all, n, p);
  }

  /** A real run counts the visited rows it does not repair by their reasons, and names the first hundred in id order. */
  lemma ObstaclesAreTold(start: Table, options: Options, scene: Scene)
    requires Keyed(start) && !options.dryRun
    ensures Told(start, scene, RunResult(start, options, scene), VisitedCount(|start|, options.limit))
  {
    ToldAt(start, scene, VisitedCount(|start|, options.limit));
  }

  /** Whoever else rewrites a row meanwhile leaves it in order and with a new stamp. */
  predicate Benign(scene: Scene, start: Table) {
    forall id | id in scene.rewritten && id in start ::
      Aligned(scene.rewritten[id]) && scene.rewritten[id].updatedAt != start[id].updatedAt
  }

  lemma RowAfterAligned(row: FormatRow, scene: Scene)
    requires row.id !in scene.failing || Aligned(row)
    requires row.id in scene.rewritten ==> Aligned(scene.rewritten[row.id]) && scene.rewritten[row.id].updatedAt != row.updatedAt
    ensures Aligned(RowAfter(row, scene))
  {
    PatchAligns(row, ClockAt(scene, row.id));
  }

  /** A real, unlimited run without a failed statement leaves every row in order. */
  lemma RunAligns(start: Table, options: Options, scene: Scene)
    requires Keyed(start) && !options.dryRun && options.limit <= 0 && Benign(scene, start)
    requires RunResult(start, options, scene).stats.errors == 0
    ensures RunResult(start, options, scene).table.Keys == start.Keys
    ensures forall id | id in start :: Aligned(RunResult(start, options, scene).table[id])
  {
    RowsAfter(start, options, scene);
    OrderedIds(start);
    Strings.SortedSeqElements(start.Keys);
    var all := Strings.SortedSeq(start.Keys);
    forall id | id in start ensures Aligned(RunResult(start, options, scene).table[id]) {
      var i :| 0 <= i < |all| && all[i] == id;
      RowAfterAligned(InIdOrder(start)[i], scene);
    }
  }

  lemma {:induction false} NothingUnaligned(rows: seq<FormatRow>, n: nat)
    requires n <= |rows| && forall i | 0 <= i < |rows| :: Aligned(rows[i])
    ensures Unaligned(rows, n) == 0
  {
    if n > 0 {
      NothingUnaligned(rows, n - 1);
    }
  }

  lemma AlignedRun(table: Table, options: Options, scene: Scene)
    requires forall id | id in table :: Aligned(table[id])
    ensures var w := RunResult(table, options, scene);
            w.stats.needsFix == 0 && w.stats.conflicts == 0 && w.stats.errors == 0 && w.issues == []
  {
    RunReport(table, options, scene);
    NothingUnaligned(InIdOrder(table), VisitedCount(|table|, options.limit));
  }

  /** After such a run a second one, whatever its options, finds nothing to fix. */
  lemma SecondRunFindsNothing(start: Table, options: Options, scene: Scene, again: Options, later: Scene)
    requires Keyed(start) && !options.dryRun && options.limit <= 0 && Benign(scene, start)
    requires RunResult(start, options, scene).stats.errors == 0
    ensures var second := RunResult(RunResult(start, options, scene).table, again, later);
            second.stats.needsFix == 0 && second.stats.conflicts == 0 && second.stats.errors == 0 && second.issues == []
  {
    RunAligns(start, options, scene);
    AlignedRun(RunResult(start, options, scene).table, again, later);
  }
}
