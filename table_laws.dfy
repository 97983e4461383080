/** What the DAO statements guarantee: each keeps the tables consistent (keys
    distinct, foreign key satisfied, expansion flag never stored), and the
    properties the SQL text promises. */
module TableLaws {
  import opened Wrappers
  import opened Sequences
  import opened Entities
  import opened Tables

  // ---------------------------------------------------------------------
  // Every statement keeps the database consistent

  lemma InsertSectionKeepsConsistent(db: Db, section: Section)
    requires Consistent(db)
    ensures Consistent(InsertSection(db, section))
  {
    if HasSection(db.sections, RowId(section.id, db.sectionSeq)) {
      InsertReplacingSectionKeepsConsistent(db, section);
    } else {
      InsertNewSectionKeepsConsistent(db, section);
    }
  }

  /** REPLACE on an existing key: the row is rewritten in place and the
      cascade removes the old row's items. */
  lemma InsertReplacingSectionKeepsConsistent(db: Db, section: Section)
    requires Consistent(db) && HasSection(db.sections, RowId(section.id, db.sectionSeq))
    ensures Consistent(InsertSection(db, section))
  {
    var r := InsertSection(db, section);
    var id := RowId(section.id, db.sectionSeq);
    var row := section.(id := id, isExpanded := false);
    assert r.sections == ReplaceSectionRow(db.sections, row);
    assert forall i :: 0 <= i < |r.sections| ==> r.sections[i].id == db.sections[i].id;
    DeleteItemsOfKeepsKeys(db.items, id);
    assert r.items == DeleteItemsOf(db.items, id);
    forall it | it in r.items ensures HasSection(r.sections, it.sectionId) {
      var s :| s in db.sections && s.id == it.sectionId;
      assert s in r.sections;
    }
  }

  /** A fresh key: the row is appended. */
  lemma InsertNewSectionKeepsConsistent(db: Db, section: Section)
    requires Consistent(db) && !HasSection(db.sections, RowId(section.id, db.sectionSeq))
    ensures Consistent(InsertSection(db, section))
  {
    var r := InsertSection(db, section);
    var id := RowId(section.id, db.sectionSeq);
    var row := section.(id := id, isExpanded := false);
    assert r.sections == db.sections + [row];
    forall i, j | 0 <= i < j < |r.sections| ensures r.sections[i].id != r.sections[j].id {
      if j == |r.sections| - 1 {
        assert r.sections[i] in db.sections;
      } else {
        assert r.sections[i] == db.sections[i] && r.sections[j] == db.sections[j];
      }
    }
    forall it | it in r.items ensures HasSection(r.sections, it.sectionId) {
      var s :| s in db.sections && s.id == it.sectionId;
      assert s in r.sections;
    }
  }

  /** Rewriting sections in place without touching their keys or storing an
      expansion flag keeps the database consistent. */
  lemma SameSectionKeysKeepConsistent(db: Db, r: Db)
    requires Consistent(db)
    requires r.items == db.items && r.sectionSeq == db.sectionSeq && r.itemSeq == db.itemSeq
    requires |r.sections| == |db.sections|
    requires forall i :: 0 <= i < |r.sections| ==> r.sections[i].id == db.sections[i].id && !r.sections[i].isExpanded
    ensures Consistent(r)
  {
    assert forall i :: 0 <= i < |r.sections| ==> SectionKey(db.sections[i]) == SectionKey(r.sections[i]);
    SameKeysKeepDistinct(db.sections, r.sections, SectionKey);
    SameSectionKeysKeepBounds(db, r);
    SameSectionKeysKeepReferences(db, r);
  }

  lemma SameSectionKeysKeepBounds(db: Db, r: Db)
    requires Consistent(db) && r.sectionSeq == db.sectionSeq && |r.sections| == |db.sections|
    requires forall i :: 0 <= i < |r.sections| ==> r.sections[i].id == db.sections[i].id && !r.sections[i].isExpanded
    ensures forall s :: s in r.sections ==> s.id != 0 && s.id <= r.sectionSeq && !s.isExpanded
  {
    forall s | s in r.sections ensures s.id != 0 && s.id <= r.sectionSeq && !s.isExpanded {
      var i :| 0 <= i < |r.sections| && r.sections[i] == s;
      assert db.sections[i] in db.sections;
    }
  }

  lemma SameSectionKeysKeepReferences(db: Db, r: Db)
    requires Consistent(db) && r.items == db.items && |r.sections| == |db.sections|
    requires forall i :: 0 <= i < |r.sections| ==> r.sections[i].id == db.sections[i].id
    ensures forall it :: it in r.items ==> HasSection(r.sections, it.sectionId)
  {
    forall it | it in r.items ensures HasSection(r.sections, it.sectionId) {
      var s :| s in db.sections && s.id == it.sectionId;
      var i :| 0 <= i < |db.sections| && db.sections[i] == s;
      assert r.sections[i].id == s.id && r.sections[i] in r.sections;
    }
  }

  lemma UpdateSectionKeepsConsistent(db: Db, section: Section)
    requires Consistent(db)
    ensures Consistent(UpdateSection(db, section))
  {
    SameSectionKeysKeepConsistent(db, UpdateSection(db, section));
  }

  lemma DeleteSectionKeepsConsistent(db: Db, section: Section)
    requires Consistent(db)
    ensures Consistent(DeleteSection(db, section))
  {
    var r := DeleteSection(db, section);
    FilterKeepsKeysDistinct(db.sections, (s: Section) => s.id != section.id, SectionKey);
    DeleteItemsOfKeepsKeys(db.items, section.id);
    forall it | it in r.items ensures HasSection(r.sections, it.sectionId) {
      var s :| s in db.sections && s.id == it.sectionId;
      assert s in r.sections;
    }
  }

  lemma DeleteAllSectionsKeepsConsistent(db: Db)
    requires Consistent(db)
    ensures Consistent(DeleteAllSections(db))
  {
  }

  lemma InsertItemKeepsConsistent(db: Db, item: ShoppingItem)
    requires Consistent(db)
    ensures Consistent(InsertItem(db, item))
  {
    if ItemReferenceOk(db, item) {
      var r := InsertItem(db, item);
      var id := RowId(item.id, db.itemSeq);
      var row := item.(id := id);
      if HasItem(db.items, id) {
        assert r.items == ReplaceItemRow(db.items, row);
        assert forall i :: 0 <= i < |r.items| ==> r.items[i].id == db.items[i].id;
      } else {
        assert r.items == db.items + [row];
        forall i, j | 0 <= i < j < |r.items| ensures r.items[i].id != r.items[j].id {
          if j == |r.items| - 1 {
            assert r.items[i] in db.items;
          } else {
            assert r.items[i] == db.items[i] && r.items[j] == db.items[j];
          }
        }
      }
    }
  }

  lemma UpdateItemKeepsConsistent(db: Db, item: ShoppingItem)
    requires Consistent(db)
    ensures Consistent(UpdateItem(db, item))
  {
    var r := UpdateItem(db, item);
    if UpdateItemOutcome(db, item).Pass? {
      assert forall i :: 0 <= i < |r.items| ==> r.items[i].id == db.items[i].id;
      forall it | it in r.items
        ensures it.id != 0 && it.id <= r.itemSeq && HasSection(r.sections, it.sectionId)
      {
        var i :| 0 <= i < |r.items| && r.items[i] == it;
        assert db.items[i] in db.items;
        if db.items[i].id == item.id {
          assert HasItem(db.items, item.id);
        }
      }
    }
  }

  lemma DeleteItemKeepsConsistent(db: Db, item: ShoppingItem)
    requires Consistent(db)
    ensures Consistent(DeleteItem(db, item))
  {
    FilterKeepsKeysDistinct(db.items, (it: ShoppingItem) => it.id != item.id, ItemKey);
  }

  lemma DeleteItemsBySectionIdKeepsConsistent(db: Db, sectionId: Id)
    requires Consistent(db)
    ensures Consistent(DeleteItemsBySectionId(db, sectionId))
  {
    DeleteItemsOfKeepsKeys(db.items, sectionId);
  }

  lemma DeleteAllItemsKeepsConsistent(db: Db)
    requires Consistent(db)
    ensures Consistent(DeleteAllItems(db))
  {
  }

  lemma ResetAllItemCheckedStatesKeepsConsistent(db: Db)
    requires Consistent(db)
    ensures Consistent(ResetAllItemCheckedStates(db))
  {
    var r := ResetAllItemCheckedStates(db);
    assert forall i :: 0 <= i < |r.items| ==> r.items[i].id == db.items[i].id;
    forall it | it in r.items ensures it.id != 0 && it.id <= r.itemSeq && HasSection(r.sections, it.sectionId) {
      var i :| 0 <= i < |r.items| && r.items[i] == it;
      assert db.items[i] in db.items;
    }
  }

  lemma ResetAllPlannedStatesKeepsConsistent(db: Db)
    requires Consistent(db)
    ensures Consistent(ResetAllPlannedStates(db))
  {
    var r := ResetAllPlannedStates(db);
    assert forall i :: 0 <= i < |r.items| ==> r.items[i].id == db.items[i].id;
    forall it | it in r.items ensures it.id != 0 && it.id <= r.itemSeq && HasSection(r.sections, it.sectionId) {
      var i :| 0 <= i < |r.items| && r.items[i] == it;
      assert db.items[i] in db.items;
    }
  }

  lemma DeleteAdHocItemsKeepsConsistent(db: Db)
    requires Consistent(db)
    ensures Consistent(DeleteAdHocItems(db))
  {
    FilterKeepsKeysDistinct(db.items, (it: ShoppingItem) => !it.isAdHoc, ItemKey);
  }

  lemma MoveItemsToSectionKeepsConsistent(db: Db, from: Id, to: Id)
    requires Consistent(db)
    ensures Consistent(MoveItemsToSection(db, from, to))
  {
    var r := MoveItemsToSection(db, from, to);
    if MoveItemsOutcome(db, from, to).Pass? {
      assert forall i :: 0 <= i < |r.items| ==> r.items[i].id == db.items[i].id;
      forall it | it in r.items ensures it.id != 0 && it.id <= r.itemSeq && HasSection(r.sections, it.sectionId) {
        var i :| 0 <= i < |r.items| && r.items[i] == it;
        assert db.items[i] in db.items;
      }
    }
  }

  // ---------------------------------------------------------------------
  // Inserting an unstored row (id 0) appends it under the next key

  /** All section keys are at most the counter: what makes the next key fresh. */
  ghost predicate SectionKeysBelow(db: Db) {
    forall s :: s in db.sections ==> s.id <= db.sectionSeq
  }

  /** All item keys are at most the counter. */
  ghost predicate ItemKeysBelow(db: Db) {
    forall it :: it in db.items ==> it.id <= db.itemSeq
  }

  lemma ConsistentKeysBelow(db: Db)
    requires Consistent(db)
    ensures SectionKeysBelow(db) && ItemKeysBelow(db) && 0 <= db.sectionSeq && 0 <= db.itemSeq
  {
  }

  lemma InsertFreshSection(db: Db, section: Section)
    requires SectionKeysBelow(db) && 0 <= db.sectionSeq && section.id == 0
    ensures var r := InsertSection(db, section);
      && r == db.(sections := db.sections + [section.(id := db.sectionSeq + 1, isExpanded := false)],
                  sectionSeq := db.sectionSeq + 1)
      && SectionKeysBelow(r)
  {
    assert !HasSection(db.sections, db.sectionSeq + 1);
  }

  lemma InsertFreshItem(db: Db, item: ShoppingItem)
    requires ItemKeysBelow(db) && 0 <= db.itemSeq && item.id == 0 && HasSection(db.sections, item.sectionId)
    ensures var r := InsertItem(db, item);
      && r == db.(items := db.items + [item.(id := db.itemSeq + 1)], itemSeq := db.itemSeq + 1)
      && ItemKeysBelow(r)
  {
    assert !HasItem(db.items, db.itemSeq + 1);
  }

  // ---------------------------------------------------------------------
  // Bulk resets

  /** After `resetAllItemCheckedStates` no item is checked, every item is still
      there with its other columns, and the section table is untouched. */
  lemma ResetCheckedUnchecksEverything(db: Db)
    ensures var r := ResetAllItemCheckedStates(db);
      && (forall it :: it in r.items ==> !it.isChecked)
      && (forall it :: it in db.items ==> it.(isChecked := false) in r.items)
      && r.sections == db.sections
      && CheckedItemsCount(r) == 0
  {
    var r := ResetAllItemCheckedStates(db);
    forall it | it in r.items ensures !it.isChecked {
      var i :| 0 <= i < |r.items| && r.items[i] == it;
    }
    forall it | it in db.items ensures it.(isChecked := false) in r.items {
      var i :| 0 <= i < |db.items| && db.items[i] == it;
      assert r.items[i] == it.(isChecked := false);
    }
    CountZero(r.items, IsCheckedPlanned);
  }

  /** Resetting checked states twice is the same as once. */
  lemma ResetCheckedIdempotent(db: Db)
    ensures ResetAllItemCheckedStates(ResetAllItemCheckedStates(db)) == ResetAllItemCheckedStates(db)
  {
    var once := ResetAllItemCheckedStates(db);
    var twice := ResetAllItemCheckedStates(once);
    assert twice.items == once.items;
  }

  /** After `resetAllPlannedStates` every item that is not ad hoc is unplanned,
      and the ad-hoc items keep every column. */
  lemma ResetPlannedSparesAdHoc(db: Db)
    ensures var r := ResetAllPlannedStates(db);
      && (forall it :: it in r.items && !it.isAdHoc ==> !it.isPlanned)
      && (forall it :: it in db.items && it.isAdHoc ==> it in r.items)
      && (forall it :: it in r.items && it.isAdHoc ==> it in db.items)
  {
    var r := ResetAllPlannedStates(db);
    forall it | it in r.items ensures (!it.isAdHoc ==> !it.isPlanned) && (it.isAdHoc ==> it in db.items) {
      var i :| 0 <= i < |r.items| && r.items[i] == it;
      assert db.items[i] in db.items;
    }
    forall it | it in db.items && it.isAdHoc ensures it in r.items {
      var i :| 0 <= i < |db.items| && db.items[i] == it;
      assert r.items[i] == it;
    }
  }

  // ---------------------------------------------------------------------
  // Statistics

  /** The two counters split the planned items between them: unchecked plus
      checked is the number of planned items. */
  lemma CountsAddUpToPlanned(db: Db)
    ensures UncheckedItemsCount(db) + CheckedItemsCount(db) == Count(db.items, IsPlanned)
  {
    CountPartition(db.items, IsPlanned, IsUncheckedPlanned, IsCheckedPlanned);
  }

  /** An unplanned item never counts: a table without planned items has both
      counters at zero, and adding an unplanned item changes neither. */
  lemma UnplannedNeverCounted(db: Db, extra: ShoppingItem)
    requires !extra.isPlanned
    ensures (forall it :: it in db.items ==> !it.isPlanned) ==> UncheckedItemsCount(db) == 0 && CheckedItemsCount(db) == 0
    ensures UncheckedItemsCount(db.(items := [extra] + db.items)) == UncheckedItemsCount(db)
    ensures CheckedItemsCount(db.(items := [extra] + db.items)) == CheckedItemsCount(db)
  {
    CountZero(db.items, IsUncheckedPlanned);
    CountZero(db.items, IsCheckedPlanned);
    assert ([extra] + db.items)[1..] == db.items;
  }

  // ---------------------------------------------------------------------
  // Section queries

  /** `getAllSections` returns every stored section once, ordered by
      `orderIndex`, and none of them comes back expanded. */
  lemma GetAllSectionsReturnsEverySection(db: Db)
    requires Consistent(db)
    ensures var r := GetAllSections(db);
      && (forall s :: s in r <==> s in db.sections)
      && |r| == |db.sections|
      && SortedByOrder(r)
      && UniqueSectionIds(r)
      && (forall s :: s in r ==> !s.isExpanded)
  {
    var r := GetAllSections(db);
    SortKeepsKeys(db.sections);
    forall s ensures s in r <==> s in db.sections {
      assert s in r <==> s in multiset(r);
    }
  }

  /** The grouped query has one group per stored section, in `orderIndex`
      order; a section without items still has its (empty) group. */
  lemma GroupsCoverEverySection(db: Db, s: Section)
    requires Consistent(db) && s in db.sections
    ensures var g := GetAllSectionsWithItems(db);
      exists k :: 0 <= k < |g| && g[k].section == s
                  && (g[k].items == [] <==> forall it :: it in db.items ==> it.sectionId != s.id)
  {
    var g := GetAllSectionsWithItems(db);
    GetAllSectionsReturnsEverySection(db);
    var sorted := GetAllSections(db);
    assert s in sorted;
    var k :| 0 <= k < |sorted| && sorted[k] == s;
    assert g[k].section == s;
    if g[k].items != [] {
      assert g[k].items[0] in g[k].items;
    }
  }

  /** Two positions of a key-distinct section list with the same key are one. */
  lemma SameSectionKeySameIndex(sections: seq<Section>, k1: int, k2: int)
    requires UniqueSectionIds(sections)
    requires 0 <= k1 < |sections| && 0 <= k2 < |sections| && sections[k1].id == sections[k2].id
    ensures k1 == k2
  {
    var key1, key2 := SectionKey(sections[k1]), SectionKey(sections[k2]);
  }

  /** Every item of a group belongs to the group's section, and in a
      consistent database every stored item is in exactly one group. */
  lemma EachItemInExactlyOneGroup(db: Db, it: ShoppingItem)
    requires Consistent(db) && it in db.items
    ensures var g := GetAllSectionsWithItems(db);
      && (exists k :: 0 <= k < |g| && it in g[k].items)
      && (forall k1, k2 :: 0 <= k1 < |g| && 0 <= k2 < |g| && it in g[k1].items && it in g[k2].items ==> k1 == k2)
  {
    ItemInSomeGroup(db, it);
    ItemInAtMostOneGroup(db, it);
  }

  lemma ItemInSomeGroup(db: Db, it: ShoppingItem)
    requires Consistent(db) && it in db.items
    ensures var g := GetAllSectionsWithItems(db); exists k :: 0 <= k < |g| && it in g[k].items
  {
    var g := GetAllSectionsWithItems(db);
    var sorted := GetAllSections(db);
    GetAllSectionsReturnsEverySection(db);
    assert HasSection(db.sections, it.sectionId);
    var s :| s in db.sections && s.id == it.sectionId;
    assert s in sorted;
    var k :| 0 <= k < |sorted| && sorted[k] == s;
    assert it in g[k].items;
  }

  lemma ItemInAtMostOneGroup(db: Db, it: ShoppingItem)
    requires Consistent(db)
    ensures var g := GetAllSectionsWithItems(db);
      forall k1, k2 :: 0 <= k1 < |g| && 0 <= k2 < |g| && it in g[k1].items && it in g[k2].items ==> k1 == k2
  {
    var g := GetAllSectionsWithItems(db);
    var sorted := GetAllSections(db);
    GetAllSectionsReturnsEverySection(db);
    forall k1, k2 | 0 <= k1 < |g| && 0 <= k2 < |g| && it in g[k1].items && it in g[k2].items
      ensures k1 == k2
    {
      SameSectionKeySameIndex(sorted, k1, k2);
    }
  }
}
