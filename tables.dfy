/** The meaning of every statement of the DAO, as a function from the state of
    the two tables (and their AUTOINCREMENT counters) to the next state or to
    the value a query returns. `Dao.ShoppingDao` applies these in place. */
module Tables {
  import opened Wrappers
  import opened Sequences
  import opened Entities

  /** The `sections` and `shopping_items` tables, and for each the
      `sqlite_sequence` counter behind `autoGenerate = true`. */
  datatype Db = Db(sections: seq<Section>, items: seq<ShoppingItem>, sectionSeq: int, itemSeq: int)

  /** The exception SQLite raises when a row names a missing section. */
  datatype StoreError = ForeignKeyConstraintFailed

  /** A freshly created database. */
  const Empty: Db := Db([], [], 0, 0)

  function SectionKey(s: Section): Id { s.id }
  function ItemKey(it: ShoppingItem): Id { it.id }

  /** The primary keys of a table are distinct. */
  ghost predicate UniqueSectionIds(sections: seq<Section>) { DistinctKeys(sections, SectionKey) }
  ghost predicate UniqueItemIds(items: seq<ShoppingItem>) { DistinctKeys(items, ItemKey) }

  predicate HasSection(sections: seq<Section>, id: Id) {
    exists s :: s in sections && s.id == id
  }

  predicate HasItem(items: seq<ShoppingItem>, id: Id) {
    exists it :: it in items && it.id == id
  }

  /** What the database maintains: distinct keys, no stored key 0 or above its
      counter, no persisted expansion flag, and the foreign key
      `shopping_items.sectionId -> sections.id` satisfied. */
  ghost predicate Consistent(db: Db) {
    && UniqueSectionIds(db.sections)
    && UniqueItemIds(db.items)
    && 0 <= db.sectionSeq && 0 <= db.itemSeq
    && (forall s :: s in db.sections ==> s.id != 0 && s.id <= db.sectionSeq && !s.isExpanded)
    && (forall it :: it in db.items ==> it.id != 0 && it.id <= db.itemSeq)
    && (forall it :: it in db.items ==> HasSection(db.sections, it.sectionId))
  }

  lemma EmptyIsConsistent()
    ensures Consistent(Empty)
  {
  }

  // ---------------------------------------------------------------------
  // Keys

  /** The key a row is stored under: Room treats 0 as "no key" and lets
      AUTOINCREMENT pick one above every key ever used. */
  function RowId(given: Id, counter: int): Id {
    if given == 0 then counter + 1 else given
  }

  /** AUTOINCREMENT remembers the largest key ever stored. */
  function Raise(counter: int, id: Id): int {
    if id > counter then id else counter
  }

  /** A key chosen for a new row on a consistent table is never 0 and never
      above the raised counter. */
  lemma RowIdBounds(given: Id, counter: int)
    requires 0 <= counter
    ensures RowId(given, counter) != 0 && RowId(given, counter) <= Raise(counter, RowId(given, counter))
  {
  }

  // ---------------------------------------------------------------------
  // Row-level helpers

  /** Every row keyed `row.id` becomes `row`; the others stay where they are. */
  function ReplaceSectionRow(sections: seq<Section>, row: Section): (r: seq<Section>)
    ensures |r| == |sections|
    ensures forall i :: 0 <= i < |r| ==> r[i] == (if sections[i].id == row.id then row else sections[i])
  {
    Map(sections, (s: Section) => if s.id == row.id then row else s)
  }

  function ReplaceItemRow(items: seq<ShoppingItem>, row: ShoppingItem): (r: seq<ShoppingItem>)
    ensures |r| == |items|
    ensures forall i :: 0 <= i < |r| ==> r[i] == (if items[i].id == row.id then row else items[i])
  {
    Map(items, (it: ShoppingItem) => if it.id == row.id then row else it)
  }

  /** `DELETE FROM shopping_items WHERE sectionId = :sectionId`, also what the
      `ON DELETE CASCADE` of the foreign key does to a deleted section's items. */
  function DeleteItemsOf(items: seq<ShoppingItem>, sectionId: Id): (r: seq<ShoppingItem>)
    ensures forall it :: it in r ==> it in items && it.sectionId != sectionId
    ensures forall it :: it in items && it.sectionId != sectionId ==> it in r
  {
    Filter(items, (it: ShoppingItem) => it.sectionId != sectionId)
  }

  lemma DeleteItemsOfKeepsKeys(items: seq<ShoppingItem>, sectionId: Id)
    requires UniqueItemIds(items)
    ensures UniqueItemIds(DeleteItemsOf(items, sectionId))
  {
    FilterKeepsKeysDistinct(items, (it: ShoppingItem) => it.sectionId != sectionId, ItemKey);
  }

  /** Deleting the items of a section that owns none leaves the table as it was. */
  lemma DeleteItemsOfNone(items: seq<ShoppingItem>, sectionId: Id)
    requires forall it :: it in items ==> it.sectionId != sectionId
    ensures DeleteItemsOf(items, sectionId) == items
  {
    FilterKeepsAll(items, (it: ShoppingItem) => it.sectionId != sectionId);
  }

  /** The rows that belong to a section, in table order (the `Relation`). */
  function ItemsOf(items: seq<ShoppingItem>, sectionId: Id): (r: seq<ShoppingItem>)
    ensures forall it :: it in r ==> it in items && it.sectionId == sectionId
    ensures forall it :: it in items && it.sectionId == sectionId ==> it in r
  {
    if items == [] then []
    else if items[0].sectionId == sectionId then [items[0]] + ItemsOf(items[1..], sectionId)
    else ItemsOf(items[1..], sectionId)
  }

  lemma {:induction false} ItemsOfAppend(a: seq<ShoppingItem>, b: seq<ShoppingItem>, sectionId: Id)
    ensures ItemsOf(a + b, sectionId) == ItemsOf(a, sectionId) + ItemsOf(b, sectionId)
  {
    if a == [] {
      assert a + b == b;
    } else {
      assert (a + b)[1..] == a[1..] + b;
      ItemsOfAppend(a[1..], b, sectionId);
    }
  }

  // ---------------------------------------------------------------------
  // Section statements

  /** `Insert(onConflict = REPLACE) insertSection`. An unstored section gets a
      fresh key; a section whose key is already present replaces that row, and
      SQLite's REPLACE deletes the old parent row first, so the cascade removes
      its items. The expansion flag is not a column and is not stored. */
  function InsertSection(db: Db, section: Section): Db {
    var id := RowId(section.id, db.sectionSeq);
    var row := section.(id := id, isExpanded := false);
    if HasSection(db.sections, id) then
      Db(ReplaceSectionRow(db.sections, row), DeleteItemsOf(db.items, id), Raise(db.sectionSeq, id), db.itemSeq)
    else
      Db(db.sections + [row], db.items, Raise(db.sectionSeq, id), db.itemSeq)
  }

  /** What `insertSection` does to the tables: the row is stored under its key
      without its expansion flag, every other section stays, and when a row
      with that key was replaced exactly its items are gone. */
  lemma InsertSectionEffect(db: Db, section: Section)
    ensures var r := InsertSection(db, section);
      var id := RowId(section.id, db.sectionSeq);
      && section.(id := id, isExpanded := false) in r.sections
      && (forall s :: s in r.sections ==> s == section.(id := id, isExpanded := false) || (s in db.sections && s.id != id))
      && (forall s :: s in db.sections && s.id != id ==> s in r.sections)
      && (forall it :: it in r.items ==> it in db.items)
      && (forall it :: it in db.items ==> (it in r.items <==> !(HasSection(db.sections, id) && it.sectionId == id)))
      && r.itemSeq == db.itemSeq
  {
    var id := RowId(section.id, db.sectionSeq);
    var row := section.(id := id, isExpanded := false);
    if HasSection(db.sections, id) {
      var r := ReplaceSectionRow(db.sections, row);
      forall s | s in db.sections && s.id != id ensures s in r {
        var i :| 0 <= i < |db.sections| && db.sections[i] == s;
        assert r[i] == s;
      }
      var k :| 0 <= k < |db.sections| && db.sections[k].id == id;
      assert r[k] == row;
    }
  }

  /** `Update updateSection`: the row with the section's key takes its columns;
      no other row and no item changes. */
  function UpdateSection(db: Db, section: Section): (r: Db)
    ensures |r.sections| == |db.sections|
    ensures forall i :: 0 <= i < |r.sections| ==>
      r.sections[i] == if db.sections[i].id == section.id then section.(isExpanded := false) else db.sections[i]
    ensures r.items == db.items && r.sectionSeq == db.sectionSeq && r.itemSeq == db.itemSeq
  {
    db.(sections := ReplaceSectionRow(db.sections, section.(isExpanded := false)))
  }

  /** `Delete deleteSection`: the row with the section's key goes, and the
      cascade takes every item that references it. */
  function DeleteSection(db: Db, section: Section): (r: Db)
    ensures forall s :: s in r.sections <==> s in db.sections && s.id != section.id
    ensures forall it :: it in r.items <==> it in db.items && it.sectionId != section.id
    ensures r.sectionSeq == db.sectionSeq && r.itemSeq == db.itemSeq
  {
    Db(Filter(db.sections, (s: Section) => s.id != section.id), DeleteItemsOf(db.items, section.id),
       db.sectionSeq, db.itemSeq)
  }

  /** `DELETE FROM sections`: the cascade empties the item table as well;
      the counters are kept, so keys are not reused. */
  function DeleteAllSections(db: Db): (r: Db)
    ensures r.sections == [] && r.items == []
    ensures r.sectionSeq == db.sectionSeq && r.itemSeq == db.itemSeq
  {
    Db([], [], db.sectionSeq, db.itemSeq)
  }

  // ---------------------------------------------------------------------
  // Section queries

  ghost predicate SortedByOrder(sections: seq<Section>) {
    forall i, j :: 0 <= i < j < |sections| ==> sections[i].orderIndex <= sections[j].orderIndex
  }

  /** A row no later than every row of a sorted list can go in front of it. */
  lemma ConsSorted(x: Section, rest: seq<Section>)
    requires SortedByOrder(rest) && forall y :: y in rest ==> x.orderIndex <= y.orderIndex
    ensures SortedByOrder([x] + rest)
  {
    var r := [x] + rest;
    forall i, j | 0 <= i < j < |r| ensures r[i].orderIndex <= r[j].orderIndex {
      assert r[j] == rest[j - 1] && rest[j - 1] in rest;
      if i > 0 { assert r[i] == rest[i - 1]; }
    }
  }

  function InsertByOrder(s: Section, sorted: seq<Section>): (r: seq<Section>)
    requires SortedByOrder(sorted)
    ensures SortedByOrder(r)
    ensures multiset(r) == multiset(sorted) + multiset{s}
    ensures |r| == |sorted| + 1
  {
    if sorted == [] then [s]
    else if s.orderIndex <= sorted[0].orderIndex then
      ConsSorted(s, sorted);
      [s] + sorted
    else
      var rest := InsertByOrder(s, sorted[1..]);
      assert sorted == [sorted[0]] + sorted[1..];
      InsertByOrderFront(s, sorted, rest);
      ConsSorted(sorted[0], rest);
      [sorted[0]] + rest
  }

  /** The head of a sorted list is no later than anything in the result of
      inserting a later row into its tail. */
  lemma InsertByOrderFront(s: Section, sorted: seq<Section>, rest: seq<Section>)
    requires sorted != [] && SortedByOrder(sorted) && sorted[0].orderIndex < s.orderIndex
    requires multiset(rest) == multiset(sorted[1..]) + multiset{s}
    ensures forall y :: y in rest ==> sorted[0].orderIndex <= y.orderIndex
  {
    forall y | y in rest ensures sorted[0].orderIndex <= y.orderIndex {
      assert y in multiset(rest);
      if y != s {
        assert y in sorted[1..];
        var m :| 0 <= m < |sorted| - 1 && sorted[1..][m] == y;
        assert sorted[m + 1] == y;
      }
    }
  }

  /** Dropping the first row of a table keeps its keys distinct. */
  lemma TailKeepsSectionKeys(sections: seq<Section>)
    requires sections != [] && UniqueSectionIds(sections)
    ensures UniqueSectionIds(sections[1..])
    ensures forall x :: x in sections[1..] ==> x.id != sections[0].id
  {
    forall i, j | 0 <= i < j < |sections| - 1 ensures sections[1..][i].id != sections[1..][j].id {
      assert sections[1..][i] == sections[i + 1] && sections[1..][j] == sections[j + 1];
    }
    forall x | x in sections[1..] ensures x.id != sections[0].id {
      var m :| 0 <= m < |sections| - 1 && sections[1..][m] == x;
      assert sections[m + 1] == x;
    }
  }

  /** Prepending a row whose key is new keeps the keys distinct. */
  lemma ConsKeepsSectionKeys(s: Section, rest: seq<Section>)
    requires UniqueSectionIds(rest) && forall x :: x in rest ==> x.id != s.id
    ensures UniqueSectionIds([s] + rest)
  {
    var r := [s] + rest;
    forall i, j | 0 <= i < j < |r| ensures r[i].id != r[j].id {
      assert r[j] == rest[j - 1] && rest[j - 1] in rest;
      if i > 0 { assert r[i] == rest[i - 1]; }
    }
  }

  lemma {:induction false} InsertByOrderKeepsKeys(s: Section, sorted: seq<Section>)
    requires SortedByOrder(sorted) && UniqueSectionIds(sorted) && !HasSection(sorted, s.id)
    ensures UniqueSectionIds(InsertByOrder(s, sorted))
  {
    if sorted == [] {
    } else if s.orderIndex <= sorted[0].orderIndex {
      ConsKeepsSectionKeys(s, sorted);
    } else {
      TailKeepsSectionKeys(sorted);
      var rest := InsertByOrder(s, sorted[1..]);
      InsertByOrderKeepsKeys(s, sorted[1..]);
      forall x | x in rest ensures x.id != sorted[0].id {
        assert x in multiset(rest);
      }
      ConsKeepsSectionKeys(sorted[0], rest);
    }
  }

  /** A stable insertion sort on `orderIndex`. */
  function SortByOrderIndex(sections: seq<Section>): (r: seq<Section>)
    ensures SortedByOrder(r)
    ensures multiset(r) == multiset(sections)
    ensures |r| == |sections|
  {
    if sections == [] then []
    else
      assert sections == [sections[0]] + sections[1..];
      InsertByOrder(sections[0], SortByOrderIndex(sections[1..]))
  }

  lemma {:induction false} SortKeepsKeys(sections: seq<Section>)
    requires UniqueSectionIds(sections)
    ensures UniqueSectionIds(SortByOrderIndex(sections))
  {
    if sections != [] {
      TailKeepsSectionKeys(sections);
      SortKeepsKeys(sections[1..]);
      var rest := SortByOrderIndex(sections[1..]);
      forall x | x in rest ensures x.id != sections[0].id {
        assert x in multiset(rest);
      }
      InsertByOrderKeepsKeys(sections[0], rest);
    }
  }

  /** `SELECT * FROM sections ORDER BY orderIndex ASC`. SQL leaves the order of
      equal indices open; the model keeps table order among them. */
  function GetAllSections(db: Db): (r: seq<Section>)
    ensures SortedByOrder(r)
    ensures multiset(r) == multiset(db.sections)
  {
    SortByOrderIndex(db.sections)
  }

  /** The same query with the `Relation` attached: one group per section,
      holding that section's items. */
  function GetAllSectionsWithItems(db: Db): (r: seq<SectionWithItems>)
    ensures |r| == |db.sections|
    ensures forall k :: 0 <= k < |r| ==>
      r[k].section == GetAllSections(db)[k] && r[k].items == ItemsOf(db.items, r[k].section.id)
  {
    Map(GetAllSections(db), (s: Section) => SectionWithItems(s, ItemsOf(db.items, s.id)))
  }

  /** The first section flagged default, as `WHERE isDefault = 1 LIMIT 1` finds it. */
  function FirstDefault(sections: seq<Section>): (r: Option<Section>)
    ensures r.Some? ==> r.value in sections && r.value.isDefault
    ensures r.None? <==> forall s :: s in sections ==> !s.isDefault
  {
    if sections == [] then None
    else if sections[0].isDefault then Some(sections[0])
    else
      assert forall s :: s in sections ==> s == sections[0] || s in sections[1..];
      FirstDefault(sections[1..])
  }

  /** `SELECT * FROM sections WHERE isDefault = 1 LIMIT 1`. */
  function GetDefaultSection(db: Db): Option<Section> {
    FirstDefault(db.sections)
  }

  /** The id of the default section: the `getDefaultSectionId` the repository
      calls, read with the same `WHERE isDefault = 1` condition. */
  function GetDefaultSectionId(db: Db): (r: Option<Id>)
    ensures r.Some? ==> exists s :: s in db.sections && s.isDefault && s.id == r.value
    ensures r.None? <==> forall s :: s in db.sections ==> !s.isDefault
  {
    match GetDefaultSection(db)
    case Some(s) => Some(s.id)
    case None => None
  }

  function FindSection(sections: seq<Section>, id: Id): (r: Option<Section>)
    ensures r.Some? ==> r.value in sections && r.value.id == id
    ensures r.None? <==> !HasSection(sections, id)
  {
    if sections == [] then None
    else if sections[0].id == id then Some(sections[0])
    else
      assert forall s :: s in sections ==> s == sections[0] || s in sections[1..];
      FindSection(sections[1..], id)
  }

  /** `SELECT * FROM sections WHERE id = :sectionId` with its `Relation`. */
  function GetSectionWithItems(db: Db, sectionId: Id): (r: Option<SectionWithItems>)
    ensures r.None? <==> !HasSection(db.sections, sectionId)
    ensures r.Some? ==> r.value.section in db.sections && r.value.section.id == sectionId
                        && r.value.items == ItemsOf(db.items, sectionId)
  {
    match FindSection(db.sections, sectionId)
    case Some(s) => Some(SectionWithItems(s, ItemsOf(db.items, sectionId)))
    case None => None
  }

  // ---------------------------------------------------------------------
  // Item statements

  /** The foreign key lets an item row in only when its section exists. */
  predicate ItemReferenceOk(db: Db, item: ShoppingItem) {
    HasSection(db.sections, item.sectionId)
  }

  /** What `Insert(onConflict = REPLACE) insertItem` returns: the row id, or
      the constraint exception. */
  function InsertItemResult(db: Db, item: ShoppingItem): Result<Id, StoreError> {
    if ItemReferenceOk(db, item) then Success(RowId(item.id, db.itemSeq)) else Failure(ForeignKeyConstraintFailed)
  }

  /** `Insert(onConflict = REPLACE) insertItem`: a new row under a fresh key,
      or the replacement of the row with the same key; nothing on a
      foreign-key failure. */
  function InsertItem(db: Db, item: ShoppingItem): Db {
    if !ItemReferenceOk(db, item) then db
    else
      var id := RowId(item.id, db.itemSeq);
      var row := item.(id := id);
      if HasItem(db.items, id) then db.(items := ReplaceItemRow(db.items, row), itemSeq := Raise(db.itemSeq, id))
      else db.(items := db.items + [row], itemSeq := Raise(db.itemSeq, id))
  }

  /** What `insertItem` does to the tables: the sections stay; with a missing
      section nothing changes; otherwise the row is stored under its key and
      every other row stays. */
  lemma InsertItemEffect(db: Db, item: ShoppingItem)
    ensures var r := InsertItem(db, item);
      && r.sections == db.sections && r.sectionSeq == db.sectionSeq
      && (!ItemReferenceOk(db, item) ==> r == db)
      && (ItemReferenceOk(db, item) ==>
           var id := RowId(item.id, db.itemSeq);
           && item.(id := id) in r.items
           && (forall it :: it in r.items ==> it == item.(id := id) || (it in db.items && it.id != id))
           && (forall it :: it in db.items && it.id != id ==> it in r.items))
  {
    if ItemReferenceOk(db, item) {
      var id := RowId(item.id, db.itemSeq);
      var row := item.(id := id);
      if HasItem(db.items, id) {
        var r := ReplaceItemRow(db.items, row);
        forall it | it in db.items && it.id != id ensures it in r {
          var i :| 0 <= i < |db.items| && db.items[i] == it;
          assert r[i] == it;
        }
        var k :| 0 <= k < |db.items| && db.items[k].id == id;
        assert r[k] == row;
      }
    }
  }

  /** What `Update updateItem` raises: the foreign key is checked only when a
      row is actually changed. */
  function UpdateItemOutcome(db: Db, item: ShoppingItem): Outcome<StoreError> {
    if HasItem(db.items, item.id) && !ItemReferenceOk(db, item) then Fail(ForeignKeyConstraintFailed) else Pass
  }

  /** `Update updateItem`: the row with the item's key takes its columns. */
  function UpdateItem(db: Db, item: ShoppingItem): (r: Db)
    ensures r.sections == db.sections && r.sectionSeq == db.sectionSeq && r.itemSeq == db.itemSeq
    ensures UpdateItemOutcome(db, item).Fail? ==> r == db
    ensures UpdateItemOutcome(db, item).Pass? ==>
      |r.items| == |db.items| &&
      forall i :: 0 <= i < |r.items| ==> r.items[i] == if db.items[i].id == item.id then item else db.items[i]
  {
    if UpdateItemOutcome(db, item).Fail? then db else db.(items := ReplaceItemRow(db.items, item))
  }

  /** `Delete deleteItem`: only the row with the item's key goes. */
  function DeleteItem(db: Db, item: ShoppingItem): (r: Db)
    ensures forall it :: it in r.items <==> it in db.items && it.id != item.id
    ensures r.sections == db.sections && r.sectionSeq == db.sectionSeq && r.itemSeq == db.itemSeq
  {
    db.(items := Filter(db.items, (it: ShoppingItem) => it.id != item.id))
  }

  /** `DELETE FROM shopping_items WHERE sectionId = :sectionId`. */
  function DeleteItemsBySectionId(db: Db, sectionId: Id): (r: Db)
    ensures forall it :: it in r.items <==> it in db.items && it.sectionId != sectionId
    ensures r.sections == db.sections && r.sectionSeq == db.sectionSeq && r.itemSeq == db.itemSeq
  {
    db.(items := DeleteItemsOf(db.items, sectionId))
  }

  /** `DELETE FROM shopping_items`. */
  function DeleteAllItems(db: Db): (r: Db)
    ensures r.items == [] && r.sections == db.sections
    ensures r.sectionSeq == db.sectionSeq && r.itemSeq == db.itemSeq
  {
    db.(items := [])
  }

  /** `SELECT * FROM shopping_items WHERE id = :itemId`. */
  function GetItemById(db: Db, itemId: Id): (r: Option<ShoppingItem>)
    ensures r.Some? ==> r.value in db.items && r.value.id == itemId
    ensures r.None? <==> !HasItem(db.items, itemId)
  {
    FindItem(db.items, itemId)
  }

  function FindItem(items: seq<ShoppingItem>, id: Id): (r: Option<ShoppingItem>)
    ensures r.Some? ==> r.value in items && r.value.id == id
    ensures r.None? <==> !HasItem(items, id)
  {
    if items == [] then None
    else if items[0].id == id then Some(items[0])
    else
      assert forall it :: it in items ==> it == items[0] || it in items[1..];
      FindItem(items[1..], id)
  }

  // ---------------------------------------------------------------------
  // Bulk statements

  /** `UPDATE shopping_items SET isChecked = 0`. */
  function ResetAllItemCheckedStates(db: Db): (r: Db)
    ensures |r.items| == |db.items|
    ensures forall i :: 0 <= i < |r.items| ==> r.items[i] == db.items[i].(isChecked := false)
    ensures r.sections == db.sections && r.sectionSeq == db.sectionSeq && r.itemSeq == db.itemSeq
  {
    db.(items := Map(db.items, (it: ShoppingItem) => it.(isChecked := false)))
  }

  /** `UPDATE shopping_items SET isPlanned = 0 WHERE isAdHoc = 0`. */
  function ResetAllPlannedStates(db: Db): (r: Db)
    ensures |r.items| == |db.items|
    ensures forall i :: 0 <= i < |r.items| ==>
      r.items[i] == if db.items[i].isAdHoc then db.items[i] else db.items[i].(isPlanned := false)
    ensures r.sections == db.sections && r.sectionSeq == db.sectionSeq && r.itemSeq == db.itemSeq
  {
    db.(items := Map(db.items, (it: ShoppingItem) => if it.isAdHoc then it else it.(isPlanned := false)))
  }

  /** `DELETE FROM shopping_items WHERE isAdHoc = 1`. */
  function DeleteAdHocItems(db: Db): (r: Db)
    ensures forall it :: it in r.items ==> it in db.items && !it.isAdHoc
    ensures forall it :: it in db.items && !it.isAdHoc ==> it in r.items
    ensures r.sections == db.sections && r.sectionSeq == db.sectionSeq && r.itemSeq == db.itemSeq
  {
    db.(items := Filter(db.items, (it: ShoppingItem) => !it.isAdHoc))
  }

  /** What the repository's `moveItemsToSection` raises: the foreign key fails
      when rows would be moved to a missing section. */
  function MoveItemsOutcome(db: Db, from: Id, to: Id): Outcome<StoreError> {
    if !HasSection(db.sections, to) && exists it :: it in db.items && it.sectionId == from
    then Fail(ForeignKeyConstraintFailed) else Pass
  }

  /** The `moveItemsToSection(from, to)` the repository calls:
      `sectionId := to` wherever `sectionId == from`. */
  function MoveItemsToSection(db: Db, from: Id, to: Id): (r: Db)
    ensures r.sections == db.sections && r.sectionSeq == db.sectionSeq && r.itemSeq == db.itemSeq
    ensures MoveItemsOutcome(db, from, to).Fail? ==> r == db
    ensures MoveItemsOutcome(db, from, to).Pass? ==>
      |r.items| == |db.items| &&
      forall i :: 0 <= i < |r.items| ==>
        r.items[i] == if db.items[i].sectionId == from then db.items[i].(sectionId := to) else db.items[i]
  {
    if MoveItemsOutcome(db, from, to).Fail? then db
    else db.(items := Map(db.items, (it: ShoppingItem) => if it.sectionId == from then it.(sectionId := to) else it))
  }

  // ---------------------------------------------------------------------
  // Statistics

  predicate IsPlanned(it: ShoppingItem) { it.isPlanned }
  predicate IsUncheckedPlanned(it: ShoppingItem) { !it.isChecked && it.isPlanned }
  predicate IsCheckedPlanned(it: ShoppingItem) { it.isChecked && it.isPlanned }

  /** `SELECT COUNT(*) FROM shopping_items WHERE isChecked = 0 AND isPlanned = 1`. */
  function UncheckedItemsCount(db: Db): nat {
    Count(db.items, IsUncheckedPlanned)
  }

  /** `SELECT COUNT(*) FROM shopping_items WHERE isChecked = 1 AND isPlanned = 1`. */
  function CheckedItemsCount(db: Db): nat {
    Count(db.items, IsCheckedPlanned)
  }
}
