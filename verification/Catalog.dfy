/** Categories and subcategories: archiving a category takes its subcategories along, restoring it brings them back. */
module Catalog {
  import opened Prelude
  import Strings

  datatype Category = Category(
    id: Id, user: Id, name: string, kind: string, color: Option<string>, sortOrder: int,
    archivedAt: Option<Time>, createdAt: Time, updatedAt: Time)

  datatype Subcategory = Subcategory(
    id: Id, user: Id, category: Id, name: string, sortOrder: int, archivedAt: Option<Time>, createdAt: Time, updatedAt: Time)

  datatype Tables = Tables(categories: map<Id, Category>, subcategories: map<Id, Subcategory>)

  datatype CatalogError =
    | InvalidName | InvalidType | InvalidColor | CategoryNotFound | SubcategoryNotFound | ParentCategoryArchived
    | CategoryNameAlreadyExists | SubcategoryNameAlreadyExists | DuplicateActiveSubcategoryName | IdTaken

  type Outcome = Result<Tables, CatalogError>

  /** How names are folded before they are compared, as the unique indexes do. */
  type Folding = string -> string

  const DEFAULT_SORT_ORDER := 100

  // ---- Rules --------------------------------------------------------------

  predicate OwnsCategory(db: Tables, user: Id, id: Id) {
    id in db.categories && db.categories[id].user == user
  }

  predicate OwnsSubcategory(db: Tables, user: Id, id: Id) {
    id in db.subcategories && db.subcategories[id].user == user
  }

  const TYPES := {"required", "flexible", "saving", "investment", "debt", "income"}

  predicate HexDigit(c: char) {
    '0' <= c <= '9' || 'A' <= c <= 'F' || 'a' <= c <= 'f'
  }

  predicate ColorText(s: string) {
    |s| == 7 && s[0] == '#' && forall i | 1 <= i < 7 :: HexDigit(s[i])
  }

  function CategoryError(c: Category): Option<CatalogError> {
    if Strings.TrimSpace(c.name) == "" then Some(InvalidName)
    else if c.kind !in TYPES then Some(InvalidType)
    else if c.color.Some? && !ColorText(Strings.TrimSpace(c.color.value)) then Some(InvalidColor)
    else None
  }

  function BuildCategory(c: Category): Result<Category, CatalogError> {
    match CategoryError(c)
    case Some(e) => Failure(e)
    case None =>
      Success(c.(name := Strings.TrimSpace(c.name),
                 color := if c.color.Some? then Some(Strings.TrimSpace(c.color.value)) else None))
  }

  function BuildSubcategory(s: Subcategory): Result<Subcategory, CatalogError> {
    if Strings.TrimSpace(s.name) == "" then Failure(InvalidName) else Success(s.(name := Strings.TrimSpace(s.name)))
  }

  /** No two active categories of a user have the same folded name. */
  predicate UniqueCategories(categories: map<Id, Category>, fold: Folding) {
    forall j, k | j in categories && k in categories && j != k
                  && categories[j].archivedAt.None? && categories[k].archivedAt.None? && categories[j].user == categories[k].user ::
      fold(categories[j].name) != fold(categories[k].name)
  }

  /** No two active subcategories of a category have the same folded name. */
  predicate UniqueSubcategories(subcategories: map<Id, Subcategory>, fold: Folding) {
    forall j, k | j in subcategories && k in subcategories && j != k
                  && subcategories[j].archivedAt.None? && subcategories[k].archivedAt.None?
                  && subcategories[j].category == subcategories[k].category ::
      fold(subcategories[j].name) != fold(subcategories[k].name)
  }

  /** Whether the active row `id` has the folded name of another active category of its user. */
  predicate CategoryClash(categories: map<Id, Category>, id: Id, fold: Folding)
    requires id in categories
  {
    categories[id].archivedAt.None? &&
    exists k | k in categories :: k != id && categories[k].archivedAt.None? && categories[k].user == categories[id].user
                                  && fold(categories[k].name) == fold(categories[id].name)
  }

  predicate SubcategoryClash(subcategories: map<Id, Subcategory>, id: Id, fold: Folding)
    requires id in subcategories
  {
    subcategories[id].archivedAt.None? &&
    exists k | k in subcategories :: k != id && subcategories[k].archivedAt.None? && subcategories[k].category == subcategories[id].category
                                     && fold(subcategories[k].name) == fold(subcategories[id].name)
  }

  function PutCategory(db: Tables, c: Category, fold: Folding): Outcome {
    var next := db.(categories := db.categories[c.id := c]);
    if CategoryClash(next.categories, c.id, fold) then Failure(CategoryNameAlreadyExists) else Success(next)
  }

  function PutSubcategory(db: Tables, s: Subcategory, fold: Folding): Outcome {
    var next := db.(subcategories := db.subcategories[s.id := s]);
    if SubcategoryClash(next.subcategories, s.id, fold) then Failure(SubcategoryNameAlreadyExists) else Success(next)
  }

  // ---- Categories ---------------------------------------------------------

  datatype CategoryInput = CategoryInput(user: Id, name: string, kind: string, color: Option<string>, sortOrder: Option<int>)

  datatype CategoryPatch = CategoryPatch(
    user: Id, id: Id, name: Option<string>, kind: Option<string>, color: Option<string>, sortOrder: Option<int>)

  function CreateCategory(db: Tables, input: CategoryInput, newId: Id, now: Time, fold: Folding): Outcome {
    match BuildCategory(Category(newId, input.user, input.name, input.kind, input.color,
                                 if input.sortOrder.Some? then input.sortOrder.value else DEFAULT_SORT_ORDER, None, now, now))
    case Failure(e) => Failure(e)
    case Success(c) => if newId in db.categories then Failure(IdTaken) else PutCategory(db, c, fold)
  }

  function UpdateCategory(db: Tables, p: CategoryPatch, now: Time, fold: Folding): Outcome {
    if !OwnsCategory(db, p.user, p.id) then Failure(CategoryNotFound) else
      var c := db.categories[p.id];
      match BuildCategory(c.(id := p.id, name := if p.name.Some? then Strings.TrimSpace(p.name.value) else c.name,
                             kind := if p.kind.Some? then p.kind.value else c.kind,
                             color := if p.color.Some? then Some(Strings.TrimSpace(p.color.value)) else c.color,
                             sortOrder := if p.sortOrder.Some? then p.sortOrder.value else c.sortOrder, updatedAt := now))
      case Failure(e) => Failure(e)
      case Success(next) => PutCategory(db, next, fold)
  }

  /** The subcategories after the cascade of an archived category. */
  function Cascaded(subcategories: map<Id, Subcategory>, user: Id, category: Id, now: Time): map<Id, Subcategory> {
    map k | k in subcategories ::
      var s := subcategories[k];
      if s.user == user && s.category == category && s.archivedAt.None? then s.(archivedAt := Some(now), updatedAt := now) else s
  }

  /** The subcategories after the cascade of a category that had been archived at `cascadeAt`. */
  function Revived(subcategories: map<Id, Subcategory>, user: Id, category: Id, now: Time, cascadeAt: Time): map<Id, Subcategory> {
    map k | k in subcategories ::
      var s := subcategories[k];
      if s.user == user && s.category == category && s.archivedAt == Some(cascadeAt) then s.(archivedAt := None, updatedAt := now) else s
  }

  function ArchiveCategory(db: Tables, user: Id, id: Id, now: Time): Outcome {
    if !OwnsCategory(db, user, id) then Failure(CategoryNotFound)
    else if db.categories[id].archivedAt.Some? then Success(db)
    else Success(Tables(db.categories[id := db.categories[id].(archivedAt := Some(now), updatedAt := now)],
                        Cascaded(db.subcategories, user, id, now)))
  }

  function RestoreCategory(db: Tables, user: Id, id: Id, now: Time, fold: Folding): Outcome {
    if !OwnsCategory(db, user, id) then Failure(CategoryNotFound)
    else if db.categories[id].archivedAt.None? then Success(db)
    else
      var c := db.categories[id];
      var categories := db.categories[id := c.(archivedAt := None, updatedAt := now)];
      var subcategories := Revived(db.subcategories, user, id, now, c.archivedAt.value);
      if CategoryClash(categories, id, fold) then Failure(CategoryNameAlreadyExists)
      else if !UniqueSubcategories(subcategories, fold) then Failure(DuplicateActiveSubcategoryName)
      else Success(Tables(categories, subcategories))
  }

  // ---- Subcategories ------------------------------------------------------

  datatype SubcategoryInput = SubcategoryInput(user: Id, category: Id, name: string, sortOrder: Option<int>)

  datatype SubcategoryPatch = SubcategoryPatch(user: Id, id: Id, name: Option<string>, sortOrder: Option<int>)

  function CreateSubcategory(db: Tables, input: SubcategoryInput, newId: Id, now: Time, fold: Folding): Outcome {
    if !OwnsCategory(db, input.user, input.category) then Failure(CategoryNotFound)
    else if db.categories[input.category].archivedAt.Some? then Failure(ParentCategoryArchived)
    else
      match BuildSubcategory(Subcategory(newId, input.user, input.category, input.name,
                                         if input.sortOrder.Some? then input.sortOrder.value else DEFAULT_SORT_ORDER, None, now, now))
      case Failure(e) => Failure(e)
      case Success(s) => if newId in db.subcategories then Failure(IdTaken) else PutSubcategory(db, s, fold)
  }

  function UpdateSubcategory(db: Tables, p: SubcategoryPatch, now: Time, fold: Folding): Outcome {
    if !OwnsSubcategory(db, p.user, p.id) then Failure(SubcategoryNotFound) else
      var s := db.subcategories[p.id];
      match BuildSubcategory(s.(id := p.id, name := if p.name.Some? then Strings.TrimSpace(p.name.value) else s.name,
                                sortOrder := if p.sortOrder.Some? then p.sortOrder.value else s.sortOrder, updatedAt := now))
      case Failure(e) => Failure(e)
      case Success(next) => PutSubcategory(db, next, fold)
  }

  function ArchiveSubcategory(db: Tables, user: Id, id: Id, now: Time): Outcome {
    if !OwnsSubcategory(db, user, id) then Failure(SubcategoryNotFound)
    else if db.subcategories[id].archivedAt.Some? then Success(db)
    else Success(db.(subcategories := db.subcategories[id := db.subcategories[id].(archivedAt := Some(now), updatedAt := now)]))
  }

  function RestoreSubcategory(db: Tables, user: Id, id: Id, now: Time, fold: Folding): Outcome {
    if !OwnsSubcategory(db, user, id) then Failure(SubcategoryNotFound)
    else if db.subcategories[id].archivedAt.None? then Success(db)
    else if !OwnsCategory(db, user, db.subcategories[id].category) then Failure(CategoryNotFound)
    else if db.categories[db.subcategories[id].category].archivedAt.Some? then Failure(ParentCategoryArchived)
    else PutSubcategory(db, db.subcategories[id].(id := id, archivedAt := None, updatedAt := now), fold)
  }

  // ---- The invariant ------------------------------------------------------

  /** Rows sit under their ids, and a subcategory belongs to a category of its user. */
  predicate Rooted(db: Tables) {
    (forall k | k in db.categories :: db.categories[k].id == k) &&
    (forall k | k in db.subcategories :: db.subcategories[k].id == k && OwnsCategory(db, db.subcategories[k].user, db.subcategories[k].category))
  }

  /** No active subcategory under an archived category. */
  predicate Nested(db: Tables)
    requires Rooted(db)
  {
    forall k | k in db.subcategories && db.subcategories[k].archivedAt.None? ::
      db.categories[db.subcategories[k].category].archivedAt.None?
  }

  predicate Good(db: Tables, fold: Folding) {
    Rooted(db) && Nested(db) && UniqueCategories(db.categories, fold) && UniqueSubcategories(db.subcategories, fold)
  }

  datatype Op =
    | CreateCategoryOp(category: CategoryInput, newId: Id, now: Time)
    | UpdateCategoryOp(categoryPatch: CategoryPatch, now: Time)
    | ArchiveCategoryOp(user: Id, id: Id, now: Time)
    | RestoreCategoryOp(user: Id, id: Id, now: Time)
    | CreateSubcategoryOp(subcategory: SubcategoryInput, newId: Id, now: Time)
    | UpdateSubcategoryOp(subcategoryPatch: SubcategoryPatch, now: Time)
    | ArchiveSubcategoryOp(user: Id, id: Id, now: Time)
    | RestoreSubcategoryOp(user: Id, id: Id, now: Time)

  function Attempt(db: Tables, op: Op, fold: Folding): Outcome {
    match op
    case CreateCategoryOp(input, newId, now) => CreateCategory(db, input, newId, now, fold)
    case UpdateCategoryOp(p, now) => UpdateCategory(db, p, now, fold)
    case ArchiveCategoryOp(user, id, now) => ArchiveCategory(db, user, id, now)
    case RestoreCategoryOp(user, id, now) => RestoreCategory(db, user, id, now, fold)
    case CreateSubcategoryOp(input, newId, now) => CreateSubcategory(db, input, newId, now, fold)
    case UpdateSubcategoryOp(p, now) => UpdateSubcategory(db, p, now, fold)
    case ArchiveSubcategoryOp(user, id, now) => ArchiveSubcategory(db, user, id, now)
    case RestoreSubcategoryOp(user, id, now) => RestoreSubcategory(db, user, id, now, fold)
  }

  /** A failed operation leaves the tables as they were. */
  function Apply(db: Tables, op: Op, fold: Folding): Tables {
    var outcome := Attempt(db, op, fold);
    if outcome.Success? then outcome.value else db
  }

  lemma PutCategoryUnique(categories: map<Id, Category>, c: Category, fold: Folding)
    requires UniqueCategories(categories, fold) && !CategoryClash(categories[c.id := c], c.id, fold)
    ensures UniqueCategories(categories[c.id := c], fold)
  {
  }

  lemma ArchiveCategoryGood(db: Tables, user: Id, id: Id, now: Time, fold: Folding)
    requires Good(db, fold) && ArchiveCategory(db, user, id, now).Success?
    ensures Good(ArchiveCategory(db, user, id, now).value, fold)
  {
    if db.categories[id].archivedAt.None? {
      CascadedNested(db, user, id, now);
    }
  }

  lemma CascadedNested(db: Tables, user: Id, id: Id, now: Time)
    requires Rooted(db) && Nested(db) && OwnsCategory(db, user, id) && db.categories[id].archivedAt.None?
    ensures Rooted(ArchiveCategory(db, user, id, now).value) && Nested(ArchiveCategory(db, user, id, now).value)
  {
  }

  lemma RestoreCategoryGood(db: Tables, user: Id, id: Id, now: Time, fold: Folding)
    requires Good(db, fold) && RestoreCategory(db, user, id, now, fold).Success?
    ensures Good(RestoreCategory(db, user, id, now, fold).value, fold)
  {
    if db.categories[id].archivedAt.Some? {
      PutCategoryUnique(db.categories, db.categories[id].(archivedAt := None, updatedAt := now), fold);
    }
  }

  lemma ArchiveSubcategoryGood(db: Tables, user: Id, id: Id, now: Time, fold: Folding)
    requires Good(db, fold) && ArchiveSubcategory(db, user, id, now).Success?
    ensures Good(ArchiveSubcategory(db, user, id, now).value, fold)
  {
  }

  lemma CreateSubcategoryGood(db: Tables, input: SubcategoryInput, newId: Id, now: Time, fold: Folding)
    requires Good(db, fold) && CreateSubcategory(db, input, newId, now, fold).Success?
    ensures Good(CreateSubcategory(db, input, newId, now, fold).value, fold)
  {
  }

  lemma UpdateSubcategoryGood(db: Tables, p: SubcategoryPatch, now: Time, fold: Folding)
    requires Good(db, fold) && UpdateSubcategory(db, p, now, fold).Success?
    ensures Good(UpdateSubcategory(db, p, now, fold).value, fold)
  {
  }

  lemma CreateCategoryGood(db: Tables, input: CategoryInput, newId: Id, now: Time, fold: Folding)
    requires Good(db, fold) && CreateCategory(db, input, newId, now, fold).Success?
    ensures Good(CreateCategory(db, input, newId, now, fold).value, fold)
  {
  }

  lemma UpdateCategoryGood(db: Tables, p: CategoryPatch, now: Time, fold: Folding)
    requires Good(db, fold) && UpdateCategory(db, p, now, fold).Success?
    ensures Good(UpdateCategory(db, p, now, fold).value, fold)
  {
  }

  lemma ApplyGood(db: Tables, op: Op, fold: Folding)
    requires Good(db, fold)
    ensures Good(Apply(db, op, fold), fold)
  {
    if Attempt(db, op, fold).Success? {
      match op
      case CreateCategoryOp(input, newId, now) => CreateCategoryGood(db, input, newId, now, fold);
      case UpdateCategoryOp(p, now) => UpdateCategoryGood(db, p, now, fold);
      case ArchiveCategoryOp(user, id, now) => ArchiveCategoryGood(db, user, id, now, fold);
      case RestoreCategoryOp(user, id, now) => RestoreCategoryGood(db, user, id, now, fold);
      case CreateSubcategoryOp(input, newId, now) => CreateSubcategoryGood(db, input, newId, now, fold);
      case UpdateSubcategoryOp(p, now) => UpdateSubcategoryGood(db, p, now, fold);
      case ArchiveSubcategoryOp(user, id, now) => ArchiveSubcategoryGood(db, user, id, now, fold);
      case RestoreSubcategoryOp(user, id, now) =>
    }
  }

  // ---- Runs ---------------------------------------------------------------

  const EMPTY := Tables(map[], map[])

  predicate StepAt(ops: seq<Op>, states: seq<Tables>, fold: Folding, n: nat)
    requires |states| == |ops| + 1 && n < |ops|
  {
    states[n + 1] == Apply(states[n], ops[n], fold)
  }

  predicate IsRun(ops: seq<Op>, states: seq<Tables>, fold: Folding) {
    |states| == |ops| + 1 && states[0] == EMPTY && forall n | 0 <= n < |ops| :: StepAt(ops, states, fold, n)
  }

  /** In every reachable state no active subcategory is under an archived category, and active names are unique. */
  lemma {:induction false} ReachableGood(ops: seq<Op>, states: seq<Tables>, fold: Folding, n: nat)
    requires IsRun(ops, states, fold) && n <= |ops|
    ensures Good(states[n], fold)
  {
    if n > 0 {
      ReachableGood(ops, states, fold, n - 1);
      GoodAfter(ops, states, fold, n - 1);
    }
  }

  lemma GoodAfter(ops: seq<Op>, states: seq<Tables>, fold: Folding, n: nat)
    requires IsRun(ops, states, fold) && n < |ops| && Good(states[n], fold)
    ensures Good(states[n + 1], fold)
  {
    assert StepAt(ops, states, fold, n);
    ApplyGood(states[n], ops[n], fold);
  }

  // ---- Archiving and restoring --------------------------------------------

  /** The active subcategories of a category. */
  function ActiveUnder(db: Tables, category: Id): set<Id> {
    set k | k in db.subcategories && db.subcategories[k].category == category && db.subcategories[k].archivedAt.None?
  }

  /** Its subcategories archived at an instant. */
  function ArchivedUnder(db: Tables, category: Id, at: Time): set<Id> {
    set k | k in db.subcategories && db.subcategories[k].category == category && db.subcategories[k].archivedAt == Some(at)
  }

  predicate ArchivedCategory(db: Tables, user: Id, id: Id, at: Time) {
    OwnsCategory(db, user, id) && db.categories[id].archivedAt == Some(at)
  }

  predicate Restores(op: Op, user: Id, id: Id) {
    op.RestoreCategoryOp? && op.user == user && op.id == id
  }

  /** The subcategories of a category are the same ones, archived when they were. */
  predicate SameUnder(db: Tables, next: Tables, category: Id) {
    && (forall k | k in db.subcategories && db.subcategories[k].category == category ::
          k in next.subcategories && next.subcategories[k].category == category
          && next.subcategories[k].archivedAt == db.subcategories[k].archivedAt)
    && (forall k | k in next.subcategories && next.subcategories[k].category == category ::
          k in db.subcategories && db.subcategories[k].category == category)
  }

  /** While a category is archived and not restored, nothing about the archiving of its subcategories changes. */
  lemma ArchivedIsFrozen(db: Tables, op: Op, fold: Folding, user: Id, id: Id, at: Time)
    requires Good(db, fold) && ArchivedCategory(db, user, id, at) && !Restores(op, user, id)
    ensures ArchivedCategory(Apply(db, op, fold), user, id, at) && SameUnder(db, Apply(db, op, fold), id)
  {
    if Attempt(db, op, fold).Success? {
      match op
      case ArchiveCategoryOp(u, c, now) =>
        if c != id {
          CascadeElsewhere(db, u, c, now, id);
        }
      case CreateSubcategoryOp(_, _, _) => SubcategoryOpFrozen(db, op, fold, user, id, at);
      case UpdateSubcategoryOp(_, _) => SubcategoryOpFrozen(db, op, fold, user, id, at);
      case ArchiveSubcategoryOp(_, _, _) => SubcategoryOpFrozen(db, op, fold, user, id, at);
      case RestoreSubcategoryOp(_, _, _) => SubcategoryOpFrozen(db, op, fold, user, id, at);
      case _ =>
    }
  }

  lemma SubcategoryOpFrozen(db: Tables, op: Op, fold: Folding, user: Id, id: Id, at: Time)
    requires Rooted(db) && Nested(db) && ArchivedCategory(db, user, id, at) && Attempt(db, op, fold).Success?
    requires op.CreateSubcategoryOp? || op.UpdateSubcategoryOp? || op.ArchiveSubcategoryOp? || op.RestoreSubcategoryOp?
    ensures Attempt(db, op, fold).value.categories == db.categories && SameUnder(db, Attempt(db, op, fold).value, id)
  {
    match op
    case CreateSubcategoryOp(input, newId, now) => assert input.category != id;
    case RestoreSubcategoryOp(u, k, now) => assert db.subcategories[k].archivedAt.Some? ==> db.subcategories[k].category != id;
    case _ =>
  }

  lemma CascadeElsewhere(db: Tables, user: Id, category: Id, now: Time, other: Id)
    requires category != other && ArchiveCategory(db, user, category, now).Success?
    ensures SameUnder(db, ArchiveCategory(db, user, category, now).value, other)
  {
  }

  lemma {:induction false} StaysFrozen(ops: seq<Op>, states: seq<Tables>, fold: Folding, i: nat, j: nat, user: Id, id: Id, at: Time)
    requires IsRun(ops, states, fold) && i <= j <= |ops| && ArchivedCategory(states[i], user, id, at)
    requires forall m | i <= m < j :: !Restores(ops[m], user, id)
    ensures ArchivedCategory(states[j], user, id, at) && SameUnder(states[i], states[j], id)
    decreases j
  {
    if i < j {
      StaysFrozen(ops, states, fold, i, j - 1, user, id, at);
      ReachableGood(ops, states, fold, j - 1);
      assert StepAt(ops, states, fold, j - 1);
      ArchivedIsFrozen(states[j - 1], ops[j - 1], fold, user, id, at);
    }
  }

  /** A category that is archived takes along its active subcategories and no other. */
  lemma CascadeTakes(db: Tables, user: Id, id: Id, now: Time)
    requires Rooted(db) && OwnsCategory(db, user, id) && db.categories[id].archivedAt.None?
    ensures var next := ArchiveCategory(db, user, id, now).value;
            ArchivedCategory(next, user, id, now) && ActiveUnder(next, id) == {}
            && ArchivedUnder(next, id, now) == ActiveUnder(db, id) + ArchivedUnder(db, id, now)
  {
    var next := ArchiveCategory(db, user, id, now).value;
    forall k ensures k in ArchivedUnder(next, id, now) <==> k in ActiveUnder(db, id) + ArchivedUnder(db, id, now) {
      assert k in db.subcategories && db.subcategories[k].category == id ==> db.subcategories[k].user == user;
    }
  }

  /** A restored category gets back exactly the subcategories with its own archive date. */
  lemma RestoreRevives(db: Tables, user: Id, id: Id, at: Time, now: Time, fold: Folding)
    requires Good(db, fold) && ArchivedCategory(db, user, id, at) && RestoreCategory(db, user, id, now, fold).Success?
    ensures ActiveUnder(RestoreCategory(db, user, id, now, fold).value, id) == ArchivedUnder(db, id, at)
  {
    var next := RestoreCategory(db, user, id, now, fold).value;
    forall k ensures k in ActiveUnder(next, id) <==> k in ArchivedUnder(db, id, at) {
      assert k in db.subcategories && db.subcategories[k].category == id ==> db.subcategories[k].user == user;
    }
  }

  /** An archive of a category at step `i` and the restore at step `j` that first undoes it. */
  predicate Undoes(ops: seq<Op>, states: seq<Tables>, i: nat, j: nat, user: Id, id: Id)
    requires |states| == |ops| + 1
  {
    && i < j < |ops| && OwnsCategory(states[i], user, id) && states[i].categories[id].archivedAt.None?
    && ops[i].ArchiveCategoryOp? && ops[i].user == user && ops[i].id == id && Restores(ops[j], user, id)
    && forall m | i < m < j :: !Restores(ops[m], user, id)
  }

  /**
   * Whatever runs in between, restoring an archived category either fails and changes nothing, or leaves
   * active exactly the subcategories active before the archive and those archived before it at the same instant.
   */
  lemma ArchiveThenRestore(ops: seq<Op>, states: seq<Tables>, fold: Folding, i: nat, j: nat, user: Id, id: Id)
    requires IsRun(ops, states, fold) && Undoes(ops, states, i, j, user, id)
    ensures Attempt(states[j], ops[j], fold).Failure? ==> states[j + 1] == states[j]
    ensures Attempt(states[j], ops[j], fold).Success? ==>
              ActiveUnder(states[j + 1], id) == ActiveUnder(states[i], id) + ArchivedUnder(states[i], id, ops[i].now)
  {
    ReachableGood(ops, states, fold, i);
    assert StepAt(ops, states, fold, i) && StepAt(ops, states, fold, j);
    CascadeTakes(states[i], user, id, ops[i].now);
    StaysFrozen(ops, states, fold, i + 1, j, user, id, ops[i].now);
    ReachableGood(ops, states, fold, j);
    if Attempt(states[j], ops[j], fold).Success? {
      RestoreRevives(states[j], user, id, ops[i].now, ops[j].now, fold);
      assert ArchivedUnder(states[j], id, ops[i].now) == ArchivedUnder(states[i + 1], id, ops[i].now);
    }
  }

  /** The restore brings back what was active, and only that, exactly when nothing had been archived at the very instant of the archive. */
  lemma BringsBackIff(ops: seq<Op>, states: seq<Tables>, fold: Folding, i: nat, j: nat, user: Id, id: Id)
    requires IsRun(ops, states, fold) && Undoes(ops, states, i, j, user, id) && Attempt(states[j], ops[j], fold).Success?
    ensures ActiveUnder(states[j + 1], id) == ActiveUnder(states[i], id) <==> ArchivedUnder(states[i], id, ops[i].now) == {}
  {
    ArchiveThenRestore(ops, states, fold, i, j, user, id);
    forall k | k in ArchivedUnder(states[i], id, ops[i].now) ensures k !in ActiveUnder(states[i], id) {}
  }

  /** The clock never shows the same instant to two operations. */
  predicate ClockAdvances(ops: seq<Op>) {
    forall m, n | 0 <= m < n < |ops| :: ops[m].now < ops[n].now
  }

  predicate ArchivedBefore(db: Tables, t: Time) {
    forall k | k in db.subcategories && db.subcategories[k].archivedAt.Some? :: db.subcategories[k].archivedAt.value < t
  }

  lemma {:induction false} StampsPrecede(ops: seq<Op>, states: seq<Tables>, fold: Folding, n: nat, t: Time)
    requires IsRun(ops, states, fold) && ClockAdvances(ops) && n <= |ops| && forall m | 0 <= m < n :: ops[m].now < t
    ensures ArchivedBefore(states[n], t)
  {
    if n > 0 {
      StampsPrecede(ops, states, fold, n - 1, ops[n - 1].now);
      assert StepAt(ops, states, fold, n - 1);
    }
  }

  /**
   * With an advancing clock, restoring an archived category brings back exactly the subcategories that were
   * active when it was archived, or fails and changes nothing.
   */
  lemma RestoreBringsBack(ops: seq<Op>, states: seq<Tables>, fold: Folding, i: nat, j: nat, user: Id, id: Id)
    requires IsRun(ops, states, fold) && Undoes(ops, states, i, j, user, id) && ClockAdvances(ops)
    ensures if Attempt(states[j], ops[j], fold).Success? then ActiveUnder(states[j + 1], id) == ActiveUnder(states[i], id)
            else states[j + 1] == states[j]
  {
    ArchiveThenRestore(ops, states, fold, i, j, user, id);
    StampsPrecede(ops, states, fold, i, ops[i].now);
    if Attempt(states[j], ops[j], fold).Success? {
      BringsBackIff(ops, states, fold, i, j, user, id);
    }
  }

  /** The operations of a run in which a subcategory and then its category are archived at one instant. */
  const COLLISION: seq<Op> := [
    CreateCategoryOp(CategoryInput("u", "n", "debt", None, None), "c", 0),
    CreateSubcategoryOp(SubcategoryInput("u", "c", "n", None), "s", 0),
    ArchiveSubcategoryOp("u", "s", 1),
    ArchiveCategoryOp("u", "c", 1),
    RestoreCategoryOp("u", "c", 2)]

  lemma NameTrimmed(s: string)
    requires |s| == 1 && !Strings.IsSpace(s[0])
    ensures Strings.TrimSpace(s) == s
  {
  }

  /** With a clock that shows one instant twice, the restore can revive a subcategory archived on its own. */
  lemma SameInstantRevives(fold: Folding) returns (states: seq<Tables>)
    ensures IsRun(COLLISION, states, fold) && Undoes(COLLISION, states, 3, 4, "u", "c")
    ensures ActiveUnder(states[3], "c") == {} && ActiveUnder(states[5], "c") == {"s"}
  {
    NameTrimmed("n");
    var c := Category("c", "u", "n", "debt", None, DEFAULT_SORT_ORDER, None, 0, 0);
    var s := Subcategory("s", "u", "c", "n", DEFAULT_SORT_ORDER, None, 0, 0);
    var c1, s1 := c.(archivedAt := Some(1), updatedAt := 1), s.(archivedAt := Some(1), updatedAt := 1);
    var c2, s2 := c.(updatedAt := 2), s.(updatedAt := 2);
    states := [EMPTY, Tables(map["c" := c], map[]), Tables(map["c" := c], map["s" := s]), Tables(map["c" := c], map["s" := s1]),
               Tables(map["c" := c1], map["s" := s1]), Tables(map["c" := c2], map["s" := s2])];
    assert StepAt(COLLISION, states, fold, 0);
    assert StepAt(COLLISION, states, fold, 1);
    assert StepAt(COLLISION, states, fold, 2);
    assert StepAt(COLLISION, states, fold, 3) by {
      assert Cascaded(map["s" := s1], "u", "c", 1) == map["s" := s1];
    }
    assert StepAt(COLLISION, states, fold, 4) by {
      assert Revived(map["s" := s1], "u", "c", 2, 1) == map["s" := s2];
    }
  }

  // ---- The services -------------------------------------------------------

  class Database {
    var categories: map<Id, Category>
    var subcategories: map<Id, Subcategory>

    function State(): Tables
      reads this
    {
      Tables(categories, subcategories)
    }

    constructor ()
      ensures State() == EMPTY
    {
      categories, subcategories := map[], map[];
    }

    /** `UPDATE categories SET archived_at` on one active row. */
    method StampCategory(user: Id, id: Id, now: Time) returns (error: Option<CatalogError>)
      modifies this
      ensures subcategories == old(subcategories)
      ensures if !OwnsCategory(old(State()), user, id) || old(categories)[id].archivedAt.Some?
              then error == Some(CategoryNotFound) && categories == old(categories)
              else error == None && categories == old(categories)[id := old(categories)[id].(archivedAt := Some(now), updatedAt := now)]
    {
      if id !in categories || categories[id].user != user || categories[id].archivedAt.Some? {
        return Some(CategoryNotFound);
      }
      categories := categories[id := categories[id].(archivedAt := Some(now), updatedAt := now)];
      return None;
    }

    method ArchiveByCategory(user: Id, category: Id, now: Time) returns (error: Option<CatalogError>)
      modifies this
      ensures categories == old(categories)
      ensures if OwnsCategory(old(State()), user, category)
              then error == None && subcategories == Cascaded(old(subcategories), user, category, now)
              else error == Some(CategoryNotFound) && subcategories == old(subcategories)
    {
      if category !in categories || categories[category].user != user {
        return Some(CategoryNotFound);
      }
      subcategories := Cascaded(subcategories, user, category, now);
      return None;
    }

    method ReviveCategory(user: Id, id: Id, now: Time, fold: Folding) returns (error: Option<CatalogError>)
      modifies this
      ensures error.Some? ==> State() == old(State())
      ensures if !OwnsCategory(old(State()), user, id) then error == Some(CategoryNotFound)
              else var next := old(categories)[id := old(categories)[id].(archivedAt := None, updatedAt := now)];
                   if CategoryClash(next, id, fold) then error == Some(CategoryNameAlreadyExists)
                   else error == None && categories == next && subcategories == old(subcategories)
    {
      if id !in categories || categories[id].user != user {
        return Some(CategoryNotFound);
      }
      var next := categories[id := categories[id].(archivedAt := None, updatedAt := now)];
      if CategoryClash(next, id, fold) {
        return Some(CategoryNameAlreadyExists);
      }
      categories := next;
      return None;
    }

    /** A set-wide update that the unique index refuses as a whole. */
    method RestoreByCategory(user: Id, category: Id, now: Time, cascadeAt: Time, fold: Folding) returns (error: Option<CatalogError>)
      modifies this
      ensures error.Some? ==> State() == old(State())
      ensures if !OwnsCategory(old(State()), user, category) then error == Some(CategoryNotFound)
              else if !UniqueSubcategories(Revived(old(subcategories), user, category, now, cascadeAt), fold)
              then error == Some(DuplicateActiveSubcategoryName)
              else error == None && categories == old(categories)
                   && subcategories == Revived(old(subcategories), user, category, now, cascadeAt)
    {
      if category !in categories || categories[category].user != user {
        return Some(CategoryNotFound);
      }
      var next := Revived(subcategories, user, category, now, cascadeAt);
      if !UniqueSubcategories(next, fold) {
        return Some(DuplicateActiveSubcategoryName);
      }
      subcategories := next;
      return None;
    }

    method Rollback(saved: Tables)
      modifies this
      ensures State() == saved
    {
      categories, subcategories := saved.categories, saved.subcategories;
    }

    method ArchiveCategoryInTx(user: Id, id: Id, now: Time) returns (error: Option<CatalogError>)
      modifies this
      ensures match ArchiveCategory(old(State()), user, id, now)
              case Success(next) => error == None && State() == next
              case Failure(e) => error == Some(e)
    {
      if id !in categories || categories[id].user != user {
        return Some(CategoryNotFound);
      }
      if categories[id].archivedAt.Some? {
        return None;
      }
      error := StampCategory(user, id, now);
      error := ArchiveByCategory(user, id, now);
    }

    method Archive(user: Id, id: Id, now: Time) returns (error: Option<CatalogError>)
      modifies this
      ensures match ArchiveCategory(old(State()), user, id, now)
              case Success(next) => error == None && State() == next
              case Failure(e) => error == Some(e) && State() == old(State())
    {
      var saved := State();
      error := ArchiveCategoryInTx(user, id, now);
      if error.Some? {
        Rollback(saved);
      }
    }

    method RestoreCategoryInTx(user: Id, id: Id, now: Time, fold: Folding) returns (error: Option<CatalogError>)
      modifies this
      ensures match RestoreCategory(old(State()), user, id, now, fold)
              case Success(next) => error == None && State() == next
              case Failure(e) => error == Some(e)
    {
      if id !in categories || categories[id].user != user {
        return Some(CategoryNotFound);
      }
      var category := categories[id];
      if category.archivedAt.None? {
        return None;
      }
      error := ReviveCategory(user, id, now, fold);
      if error.Some? {
        return;
      }
      error := RestoreByCategory(user, id, now, category.archivedAt.value, fold);
    }

    method Restore(user: Id, id: Id, now: Time, fold: Folding) returns (error: Option<CatalogError>)
      modifies this
      ensures match RestoreCategory(old(State()), user, id, now, fold)
              case Success(next) => error == None && State() == next
              case Failure(e) => error == Some(e) && State() == old(State())
    {
      var saved := State();
      error := RestoreCategoryInTx(user, id, now, fold);
      if error.Some? {
        Rollback(saved);
      }
    }

    method AddSubcategory(input: SubcategoryInput, newId: Id, now: Time, fold: Folding) returns (error: Option<CatalogError>)
      modifies this
      ensures match CreateSubcategory(old(State()), input, newId, now, fold)
              case Success(next) => error == None && State() == next
              case Failure(e) => error == Some(e) && State() == old(State())
    {
      if input.category !in categories || categories[input.category].user != input.user {
        return Some(CategoryNotFound);
      }
      if categories[input.category].archivedAt.Some? {
        return Some(ParentCategoryArchived);
      }
      var order := if input.sortOrder.Some? then input.sortOrder.value else DEFAULT_SORT_ORDER;
      var built := BuildSubcategory(Subcategory(newId, input.user, input.category, input.name, order, None, now, now));
      if built.Failure? {
        return Some(built.error);
      }
      if newId in subcategories {
        return Some(IdTaken);
      }
      error := PutRow(built.value, fold);
    }

    /** An insert or an update of one row under the unique index. */
    method PutRow(s: Subcategory, fold: Folding) returns (error: Option<CatalogError>)
      modifies this
      ensures match PutSubcategory(old(State()), s, fold)
              case Success(next) => error == None && State() == next
              case Failure(e) => error == Some(e) && State() == old(State())
    {
      var next := subcategories[s.id := s];
      if SubcategoryClash(next, s.id, fold) {
        return Some(SubcategoryNameAlreadyExists);
      }
      subcategories := next;
      return None;
    }

    method ArchiveOne(user: Id, id: Id, now: Time) returns (error: Option<CatalogError>)
      modifies this
      ensures match ArchiveSubcategory(old(State()), user, id, now)
              case Success(next) => error == None && State() == next
              case Failure(e) => error == Some(e) && State() == old(State())
    {
      if id !in subcategories || subcategories[id].user != user {
        return Some(SubcategoryNotFound);
      }
      if subcategories[id].archivedAt.Some? {
        return None;
      }
      subcategories := subcategories[id := subcategories[id].(archivedAt := Some(now), updatedAt := now)];
      return None;
    }

    method RestoreOne(user: Id, id: Id, now: Time, fold: Folding) returns (error: Option<CatalogError>)
      modifies this
      ensures match RestoreSubcategory(old(State()), user, id, now, fold)
              case Success(next) => error == None && State() == next
              case Failure(e) => error == Some(e) && State() == old(State())
    {
      if id !in subcategories || subcategories[id].user != user {
        return Some(SubcategoryNotFound);
      }
      var s := subcategories[id];
      if s.archivedAt.None? {
        return None;
      }
      if s.category !in categories || categories[s.category].user != user {
        return Some(CategoryNotFound);
      }
      if categories[s.category].archivedAt.Some? {
        return Some(ParentCategoryArchived);
      }
      error := PutRow(s.(id := id, archivedAt := None, updatedAt := now), fold);
    }
  }
}
