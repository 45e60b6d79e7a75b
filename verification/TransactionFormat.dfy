/** The stored form of a transaction row that the repair jobs look at, when it is in order, and the patch that puts it in order. */
module TransactionFormat {
  import opened Prelude
  import Strings

  /** The references reserved for later use, which no row may carry yet. */
  datatype Reserved = Reserved(
    budgetMember: Option<Id>, incomeSource: Option<Id>, debt: Option<Id>, goal: Option<Id>,
    investment: Option<Id>, recurringPayment: Option<Id>)

  const NO_RESERVED := Reserved(None, None, None, None, None, None)

  datatype FormatRow = FormatRow(
    id: Id, status: string, occurredAt: Option<Time>, plannedAt: Option<Time>, postedAt: Option<Time>,
    cancelledAt: Option<Time>, reserved: Reserved, createdAt: Time, updatedAt: Time)

  datatype Patch = Patch(needsFix: bool, hasTimestamp: bool, hasReservedIds: bool, postedAt: Option<Time>, cancelledAt: Option<Time>)

  /** The stamps a row carries are those of its status; a status that is none of the three asks for nothing. */
  predicate StampsAligned(row: FormatRow) {
    var status := Strings.TrimSpace(row.status);
    (status == "planned" ==> row.postedAt.None? && row.cancelledAt.None?) &&
    (status == "posted" ==> row.postedAt.Some? && row.cancelledAt.None?) &&
    (status == "cancelled" ==> row.cancelledAt.Some?)
  }

  predicate Aligned(row: FormatRow) {
    StampsAligned(row) && row.reserved == NO_RESERVED
  }

  /** The first value that is present. */
  function FirstPresent(values: seq<Option<Time>>): Option<Time> {
    if values == [] then None else if values[0].Some? then values[0] else FirstPresent(values[1..])
  }

  method FirstNonNilTime(values: seq<Option<Time>>) returns (r: Option<Time>)
    ensures r == FirstPresent(values)
  {
    for i := 0 to |values|
      invariant FirstPresent(values) == FirstPresent(values[i..])
    {
      if values[i].Some? {
        return values[i];
      }
    }
    return None;
  }

  /** `FirstPresent` yields the leftmost present value, and nothing only when none is present. */
  lemma {:induction false} FirstPresentIsLeftmost(values: seq<Option<Time>>)
    ensures FirstPresent(values) == None ==> forall i | 0 <= i < |values| :: values[i] == None
    ensures FirstPresent(values).Some? ==>
              exists i :: 0 <= i < |values| && values[i] == FirstPresent(values) && forall j | 0 <= j < i :: values[j] == None
  {
    if values != [] && values[0].None? {
      FirstPresentIsLeftmost(values[1..]);
      if FirstPresent(values).Some? {
        var i :| 0 <= i < |values[1..]| && values[1..][i] == FirstPresent(values) && forall j | 0 <= j < i :: values[1..][j] == None;
        assert values[i + 1] == FirstPresent(values);
        assert forall j | 0 < j < i + 1 :: values[j] == values[1..][j - 1];
      }
    }
  }

  /** The posting stamp a row should carry. */
  function PostedStamp(row: FormatRow): Option<Time> {
    var status := Strings.TrimSpace(row.status);
    if status == "planned" then None
    else if status == "posted" && row.postedAt.None? then FirstPresent([row.occurredAt, Some(row.updatedAt), Some(row.createdAt)])
    else row.postedAt
  }

  /** The cancellation stamp a row should carry. */
  function CancelledStamp(row: FormatRow): Option<Time> {
    var status := Strings.TrimSpace(row.status);
    if status == "planned" || status == "posted" then None
    else if status == "cancelled" && row.cancelledAt.None?
    then FirstPresent([Some(row.updatedAt), row.postedAt, row.occurredAt, row.plannedAt, Some(row.createdAt)])
    else row.cancelledAt
  }

  function PatchFor(row: FormatRow): Patch {
    var timestamp := PostedStamp(row) != row.postedAt || CancelledStamp(row) != row.cancelledAt;
    var reserved := row.reserved != NO_RESERVED;
    Patch(timestamp || reserved, timestamp, reserved, PostedStamp(row), CancelledStamp(row))
  }

  /** What the update statement of a patch makes of a row. */
  function Patched(row: FormatRow, patch: Patch, at: Time): FormatRow {
    row.(postedAt := patch.postedAt, cancelledAt := patch.cancelledAt, reserved := NO_RESERVED, updatedAt := at)
  }

  method BuildTransactionFormatPatch(row: FormatRow) returns (patch: Patch)
    ensures patch == PatchFor(row)
  {
    var postedAt, cancelledAt := row.postedAt, row.cancelledAt;
    var hasTimestamp, hasReservedIds := false, false;
    var status := Strings.TrimSpace(row.status);
    if status == "planned" {
      if postedAt.Some? {
        postedAt, hasTimestamp := None, true;
      }
      if cancelledAt.Some? {
        cancelledAt, hasTimestamp := None, true;
      }
    } else if status == "posted" {
      if postedAt.None? {
        postedAt := FirstNonNilTime([row.occurredAt, Some(row.updatedAt), Some(row.createdAt)]);
        hasTimestamp := true;
      }
      if cancelledAt.Some? {
        cancelledAt, hasTimestamp := None, true;
      }
    } else if status == "cancelled" {
      if cancelledAt.None? {
        cancelledAt := FirstNonNilTime([Some(row.updatedAt), row.postedAt, row.occurredAt, row.plannedAt, Some(row.createdAt)]);
        hasTimestamp := true;
      }
    }
    if row.reserved.budgetMember.Some? || row.reserved.incomeSource.Some? || row.reserved.debt.Some? ||
       row.reserved.goal.Some? || row.reserved.investment.Some? || row.reserved.recurringPayment.Some? {
      hasReservedIds := true;
    }
    patch := Patch(hasTimestamp || hasReservedIds, hasTimestamp, hasReservedIds, postedAt, cancelledAt);
  }

  lemma TimesPresent(row: FormatRow)
    ensures FirstPresent([row.occurredAt, Some(row.updatedAt), Some(row.createdAt)]).Some?
    ensures FirstPresent([Some(row.updatedAt), row.postedAt, row.occurredAt, row.plannedAt, Some(row.createdAt)]) == Some(row.updatedAt)
  {
  }

  /**
   * A row gets a patch exactly when it is out of order; the patched row is in order, so a second patch
   * would find nothing to do, and stamps that were in order are left alone.
   */
  lemma PatchAligns(row: FormatRow, at: Time)
    ensures PatchFor(row).needsFix <==> !Aligned(row)
    ensures PatchFor(row).hasTimestamp <==> !StampsAligned(row)
    ensures Aligned(Patched(row, PatchFor(row), at)) && !PatchFor(Patched(row, PatchFor(row), at)).needsFix
    ensures StampsAligned(row) ==> Patched(row, PatchFor(row), at) == row.(reserved := NO_RESERVED, updatedAt := at)
  {
    TimesPresent(row);
  }

  /** Some instant if it is known, another one otherwise. */
  function OrTime(t: Option<Time>, other: Time): Option<Time> {
    if t == None then Some(other) else t
  }

  /**
   * What a repaired row looks like: a planned row without stamps; a posted one stamped as it was, else when it
   * occurred, else when it was last updated; a cancelled one stamped as it was, else when it was last updated.
   */
  lemma RepairedRow(row: FormatRow, at: Time)
    ensures var r, status := Patched(row, PatchFor(row), at), Strings.TrimSpace(row.status);
            && r.postedAt == (if status == "planned" then None
                              else if status == "posted" && row.postedAt == None then OrTime(row.occurredAt, row.updatedAt)
                              else row.postedAt)
            && r.cancelledAt == (if status == "planned" || status == "posted" then None
                                 else if status == "cancelled" then OrTime(row.cancelledAt, row.updatedAt)
                                 else row.cancelledAt)
            && r.reserved == Reserved(None, None, None, None, None, None) && r.updatedAt == at
            && r.id == row.id && r.status == row.status && r.occurredAt == row.occurredAt && r.plannedAt == row.plannedAt
            && r.createdAt == row.createdAt
  {
    TimesPresent(row);
  }
}
