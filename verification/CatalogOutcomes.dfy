/**
 * What each catalog operation makes of its row and of the rows under it, field by field, and exactly when it
 * succeeds: said in terms of the request and the stored rows alone.
 */
module CatalogOutcomes {
  import opened Prelude
  import opened Catalog
  import Strings

  // ---- Names --------------------------------------------------------------

  /** No other active category of the user has the folded name. */
  predicate CategoryNameFree(db: Tables, user: Id, id: Id, name: string, fold: Folding) {
    forall k | k in db.categories ::
      k != id && db.categories[k].user == user && db.categories[k].archivedAt == None ==> fold(db.categories[k].name) != fold(name)
  }

  /** No other active subcategory of the category has the folded name. */
  predicate SubcategoryNameFree(db: Tables, category: Id, id: Id, name: string, fold: Folding) {
    forall k | k in db.subcategories ::
      k != id && db.subcategories[k].category == category && db.subcategories[k].archivedAt == None ==>
        fold(db.subcategories[k].name) != fold(name)
  }

  lemma CategoryFits(db: Tables, c: Category, fold: Folding)
    ensures PutCategory(db, c, fold).Success? <==> c.archivedAt.Some? || CategoryNameFree(db, c.user, c.id, c.name, fold)
    ensures PutCategory(db, c, fold).Success? ==> PutCategory(db, c, fold).value == Tables(db.categories[c.id := c], db.subcategories)
    ensures PutCategory(db, c, fold).Failure? ==> PutCategory(db, c, fold).error == CategoryNameAlreadyExists
  {
    var next := db.categories[c.id := c];
    if c.archivedAt.None? && !CategoryNameFree(db, c.user, c.id, c.name, fold) {
      var k :| k in db.categories && k != c.id && db.categories[k].user == c.user && db.categories[k].archivedAt == None
               && fold(db.categories[k].name) == fold(c.name);
      assert k in next && next[k] == db.categories[k];
    }
  }

  lemma SubcategoryFits(db: Tables, s: Subcategory, fold: Folding)
    ensures PutSubcategory(db, s, fold).Success? <==> s.archivedAt.Some? || SubcategoryNameFree(db, s.category, s.id, s.name, fold)
    ensures PutSubcategory(db, s, fold).Success? ==> PutSubcategory(db, s, fold).value == Tables(db.categories, db.subcategories[s.id := s])
    ensures PutSubcategory(db, s, fold).Failure? ==> PutSubcategory(db, s, fold).error == SubcategoryNameAlreadyExists
  {
    var next := db.subcategories[s.id := s];
    if s.archivedAt.None? && !SubcategoryNameFree(db, s.category, s.id, s.name, fold) {
      var k :| k in db.subcategories && k != s.id && db.subcategories[k].category == s.category && db.subcategories[k].archivedAt == None
               && fold(db.subcategories[k].name) == fold(s.name);
      assert k in next && next[k] == db.subcategories[k];
    }
  }

  // ---- Creating and updating ----------------------------------------------

  predicate GoodCategory(c: Category) {
    && c.name != "" && c.kind in {"required", "flexible", "saving", "investment", "debt", "income"}
    && (c.color.Some? ==> ColorText(c.color.value))
  }

  function Trimmed(text: Option<string>): Option<string> {
    if text.Some? then Some(Strings.TrimSpace(text.value)) else None
  }

  /** The category a creation asks for. */
  predicate CategoryAsRequested(c: Category, input: CategoryInput, newId: Id, now: Time) {
    && c.id == newId && c.user == input.user && c.name == Strings.TrimSpace(input.name) && c.kind == input.kind
    && c.color == Trimmed(input.color) && c.sortOrder == (if input.sortOrder == None then 100 else input.sortOrder.value)
    && c.archivedAt == None && c.createdAt == now && c.updatedAt == now
  }

  lemma CreateCategoryOutcome(db: Tables, input: CategoryInput, newId: Id, now: Time, fold: Folding, c: Category)
    requires CategoryAsRequested(c, input, newId, now)
    ensures CreateCategory(db, input, newId, now, fold).Success? <==>
            GoodCategory(c) && newId !in db.categories && CategoryNameFree(db, input.user, newId, c.name, fold)
    ensures CreateCategory(db, input, newId, now, fold).Success? ==>
              CreateCategory(db, input, newId, now, fold).value == Tables(db.categories[newId := c], db.subcategories)
  {
    CategoryFits(db, c, fold);
  }

  /** A field that a request sets, or that stays. */
  predicate SetTo<T(==)>(asked: Option<T>, was: T, is_: T) {
    is_ == if asked.Some? then asked.value else was
  }

  /** The category an update asks for. */
  predicate CategoryAsPatched(next: Category, c: Category, p: CategoryPatch, now: Time) {
    && next.name == Strings.TrimSpace(if p.name.Some? then p.name.value else c.name)
    && next.color == Trimmed(if p.color.Some? then p.color else c.color)
    && SetTo(p.kind, c.kind, next.kind) && SetTo(p.sortOrder, c.sortOrder, next.sortOrder)
    && next.id == c.id && next.user == c.user && next.archivedAt == c.archivedAt && next.createdAt == c.createdAt && next.updatedAt == now
  }

  lemma UpdateCategoryOutcome(db: Tables, p: CategoryPatch, now: Time, fold: Folding, next: Category)
    requires p.id in db.categories && db.categories[p.id].id == p.id && CategoryAsPatched(next, db.categories[p.id], p, now)
    ensures UpdateCategory(db, p, now, fold).Success? <==>
            && OwnsCategory(db, p.user, p.id) && GoodCategory(next)
            && (next.archivedAt.Some? || CategoryNameFree(db, next.user, p.id, next.name, fold))
    ensures UpdateCategory(db, p, now, fold).Success? ==>
              UpdateCategory(db, p, now, fold).value == Tables(db.categories[p.id := next], db.subcategories)
  {
    CategoryFits(db, next, fold);
    if p.name.Some? {
      Strings.TrimTwice(p.name.value);
    }
    if p.color.Some? {
      Strings.TrimTwice(p.color.value);
    }
  }

  predicate SubcategoryAsRequested(s: Subcategory, input: SubcategoryInput, newId: Id, now: Time) {
    && s.id == newId && s.user == input.user && s.category == input.category && s.name == Strings.TrimSpace(input.name)
    && s.sortOrder == (if input.sortOrder == None then 100 else input.sortOrder.value)
    && s.archivedAt == None && s.createdAt == now && s.updatedAt == now
  }

  /** The category is there for the user and not archived. */
  predicate OpenCategory(db: Tables, user: Id, id: Id) {
    id in db.categories && db.categories[id].user == user && db.categories[id].archivedAt == None
  }

  lemma CreateSubcategoryOutcome(db: Tables, input: SubcategoryInput, newId: Id, now: Time, fold: Folding, s: Subcategory)
    requires SubcategoryAsRequested(s, input, newId, now)
    ensures CreateSubcategory(db, input, newId, now, fold).Success? <==>
            && OpenCategory(db, input.user, input.category) && s.name != "" && newId !in db.subcategories
            && SubcategoryNameFree(db, input.category, newId, s.name, fold)
    ensures CreateSubcategory(db, input, newId, now, fold).Success? ==>
              CreateSubcategory(db, input, newId, now, fold).value == Tables(db.categories, db.subcategories[newId := s])
  {
    SubcategoryFits(db, s, fold);
  }

  predicate SubcategoryAsPatched(next: Subcategory, s: Subcategory, p: SubcategoryPatch, now: Time) {
    && next.name == Strings.TrimSpace(if p.name.Some? then p.name.value else s.name) && SetTo(p.sortOrder, s.sortOrder, next.sortOrder)
    && next.id == s.id && next.user == s.user && next.category == s.category
    && next.archivedAt == s.archivedAt && next.createdAt == s.createdAt && next.updatedAt == now
  }

  lemma UpdateSubcategoryOutcome(db: Tables, p: SubcategoryPatch, now: Time, fold: Folding, next: Subcategory)
    requires p.id in db.subcategories && db.subcategories[p.id].id == p.id && SubcategoryAsPatched(next, db.subcategories[p.id], p, now)
    ensures UpdateSubcategory(db, p, now, fold).Success? <==>
            && OwnsSubcategory(db, p.user, p.id) && next.name != ""
            && (next.archivedAt.Some? || SubcategoryNameFree(db, next.category, p.id, next.name, fold))
    ensures UpdateSubcategory(db, p, now, fold).Success? ==>
              UpdateSubcategory(db, p, now, fold).value == Tables(db.categories, db.subcategories[p.id := next])
  {
    SubcategoryFits(db, next, fold);
    if p.name.Some? {
      Strings.TrimTwice(p.name.value);
    }
  }

  // ---- Archiving and restoring --------------------------------------------

  /** A category whose archive date has been set at `now`; nothing else about it changes. */
  predicate CategoryMarked(next: Category, c: Category, at: Option<Time>, now: Time) {
    && next.archivedAt == at && next.updatedAt == now && next.id == c.id && next.user == c.user && next.name == c.name
    && next.kind == c.kind && next.color == c.color && next.sortOrder == c.sortOrder && next.createdAt == c.createdAt
  }

  predicate SubcategoryMarked(next: Subcategory, s: Subcategory, at: Option<Time>, now: Time) {
    && next.archivedAt == at && next.updatedAt == now && next.id == s.id && next.user == s.user && next.category == s.category
    && next.name == s.name && next.sortOrder == s.sortOrder && next.createdAt == s.createdAt
  }

  /** One category is marked, and exactly those of its user's subcategories that had the archive date `was`; all other rows stay. */
  predicate MarkedTogether(db: Tables, next: Tables, user: Id, id: Id, was: Option<Time>, at: Option<Time>, now: Time) {
    && next.categories.Keys == db.categories.Keys && next.subcategories.Keys == db.subcategories.Keys && id in db.categories
    && CategoryMarked(next.categories[id], db.categories[id], at, now)
    && (forall k | k in db.categories && k != id :: next.categories[k] == db.categories[k])
    && forall k | k in db.subcategories ::
         var s := db.subcategories[k];
         if s.user == user && s.category == id && s.archivedAt == was then SubcategoryMarked(next.subcategories[k], s, at, now)
         else next.subcategories[k] == s
  }

  /** Archiving succeeds exactly on a category of the user; on an archived one it changes nothing. */
  lemma ArchiveCategoryOutcome(db: Tables, user: Id, id: Id, now: Time)
    ensures ArchiveCategory(db, user, id, now).Success? <==> OwnsCategory(db, user, id)
    ensures ArchiveCategory(db, user, id, now).Success? ==>
              var next := ArchiveCategory(db, user, id, now).value;
              if db.categories[id].archivedAt.Some? then next == db else MarkedTogether(db, next, user, id, None, Some(now), now)
  {
  }

  /** Names that the restored category and subcategories would share with active ones. */
  predicate NamesFit(db: Tables, user: Id, id: Id, at: Time, fold: Folding)
    requires OwnsCategory(db, user, id)
  {
    && CategoryNameFree(db, user, id, db.categories[id].name, fold)
    && forall j, k | j in db.subcategories && k in db.subcategories && j != k
                     && Wakes(db, user, id, at, j) && Wakes(db, user, id, at, k)
                     && db.subcategories[j].category == db.subcategories[k].category ::
         fold(db.subcategories[j].name) != fold(db.subcategories[k].name)
  }

  /** Whether a subcategory is active once the category archived at `at` is restored. */
  predicate Wakes(db: Tables, user: Id, id: Id, at: Time, k: Id)
    requires k in db.subcategories
  {
    var s := db.subcategories[k];
    s.archivedAt == None || (s.user == user && s.category == id && s.archivedAt == Some(at))
  }

  /** Restoring succeeds exactly when the category is the user's and is active or would leave all active names different. */
  lemma RestoreCategoryOutcome(db: Tables, user: Id, id: Id, now: Time, fold: Folding)
    requires Rooted(db)
    ensures RestoreCategory(db, user, id, now, fold).Success? <==>
            && OwnsCategory(db, user, id)
            && (db.categories[id].archivedAt.Some? ==> NamesFit(db, user, id, db.categories[id].archivedAt.value, fold))
    ensures RestoreCategory(db, user, id, now, fold).Success? ==>
              var was, next := db.categories[id].archivedAt, RestoreCategory(db, user, id, now, fold).value;
              if was.None? then next == db else MarkedTogether(db, next, user, id, was, None, now)
  {
    if OwnsCategory(db, user, id) && db.categories[id].archivedAt.Some? {
      CategoryFits(db, db.categories[id].(archivedAt := None, updatedAt := now), fold);
      RevivedFits(db, user, id, db.categories[id].archivedAt.value, now, fold);
    }
  }

  lemma RevivedFits(db: Tables, user: Id, id: Id, at: Time, now: Time, fold: Folding)
    requires OwnsCategory(db, user, id)
    ensures UniqueSubcategories(Revived(db.subcategories, user, id, now, at), fold) && CategoryNameFree(db, user, id, db.categories[id].name, fold)
            <==> NamesFit(db, user, id, at, fold)
  {
    var next := Revived(db.subcategories, user, id, now, at);
    forall k | k in db.subcategories ensures Wakes(db, user, id, at, k) <==> next[k].archivedAt.None? {}
    if UniqueSubcategories(next, fold) && CategoryNameFree(db, user, id, db.categories[id].name, fold) {
      forall j, k | j in db.subcategories && k in db.subcategories && j != k && Wakes(db, user, id, at, j) && Wakes(db, user, id, at, k)
                    && db.subcategories[j].category == db.subcategories[k].category
        ensures fold(db.subcategories[j].name) != fold(db.subcategories[k].name)
      {
        assert next[j].name == db.subcategories[j].name && next[k].name == db.subcategories[k].name;
      }
    }
  }

  /** Archiving one subcategory succeeds exactly on one of the user's; restoring it, exactly under an active category and with its name free. */
  lemma SubcategoryArchiveOutcome(db: Tables, user: Id, id: Id, now: Time, fold: Folding)
    requires Rooted(db)
    ensures ArchiveSubcategory(db, user, id, now).Success? <==> OwnsSubcategory(db, user, id)
    ensures ArchiveSubcategory(db, user, id, now).Success? ==>
              var next := ArchiveSubcategory(db, user, id, now).value;
              if db.subcategories[id].archivedAt.Some? then next == db else OneMarked(db, next, id, Some(now), now)
    ensures RestoreSubcategory(db, user, id, now, fold).Success? <==>
            && OwnsSubcategory(db, user, id)
            && (db.subcategories[id].archivedAt.Some? ==>
                  && OpenCategory(db, user, db.subcategories[id].category)
                  && SubcategoryNameFree(db, db.subcategories[id].category, id, db.subcategories[id].name, fold))
    ensures RestoreSubcategory(db, user, id, now, fold).Success? ==>
              var next := RestoreSubcategory(db, user, id, now, fold).value;
              if db.subcategories[id].archivedAt.None? then next == db else OneMarked(db, next, id, None, now)
  {
    if OwnsSubcategory(db, user, id) {
      SubcategoryFits(db, db.subcategories[id].(id := id, archivedAt := None, updatedAt := now), fold);
    }
  }

  predicate OneMarked(db: Tables, next: Tables, id: Id, at: Option<Time>, now: Time) {
    && next.categories == db.categories && next.subcategories.Keys == db.subcategories.Keys && id in db.subcategories
    && SubcategoryMarked(next.subcategories[id], db.subcategories[id], at, now)
    && forall k | k in db.subcategories && k != id :: next.subcategories[k] == db.subcategories[k]
  }
}
