/** The view model: the shopping-mode flag, and the user actions, each of
    which computes the row to write and hands it to the repository. */
module ViewModel {
  import opened Wrappers
  import opened Sequences
  import opened Entities
  import opened Tables
  import opened Listings
  import TableLaws
  import Repository

  // ---------------------------------------------------------------------
  // Order indices for new rows

  function SectionOrder(s: Section): int { s.orderIndex }
  function ItemOrder(it: ShoppingItem): int { it.orderIndex }

  /** `sections.maxOfOrNull { it.orderIndex }?.plus(1) ?: 0`: one above the
      largest index, or 0 when there is no section. */
  function NextSectionOrderIndex(sections: seq<Section>): (r: int)
    ensures sections == [] ==> r == 0
    ensures forall s :: s in sections ==> s.orderIndex < r
    ensures sections != [] ==> exists s :: s in sections && r == s.orderIndex + 1
  {
    var orders := Map(sections, SectionOrder);
    match MaxOf(orders)
    case None => 0
    case Some(m) =>
      assert forall s :: s in sections ==> SectionOrder(s) in orders by {
        forall s | s in sections ensures SectionOrder(s) in orders {
          var i :| 0 <= i < |sections| && sections[i] == s;
          assert orders[i] == SectionOrder(s);
        }
      }
      var i :| 0 <= i < |orders| && orders[i] == m;
      assert sections[i] in sections;
      m + 1
  }

  /** The same rule over the items of one section. */
  function NextItemOrderIndex(items: seq<ShoppingItem>): (r: int)
    ensures items == [] ==> r == 0
    ensures forall it :: it in items ==> it.orderIndex < r
    ensures items != [] ==> exists it :: it in items && r == it.orderIndex + 1
  {
    var orders := Map(items, ItemOrder);
    match MaxOf(orders)
    case None => 0
    case Some(m) =>
      assert forall it :: it in items ==> ItemOrder(it) in orders by {
        forall it | it in items ensures ItemOrder(it) in orders {
          var i :| 0 <= i < |items| && items[i] == it;
          assert orders[i] == ItemOrder(it);
        }
      }
      var i :| 0 <= i < |orders| && orders[i] == m;
      assert items[i] in items;
      m + 1
  }

  /** `items?.find { it.section.id == sectionId }?.items ?: emptyList()`
      over the value the observed list holds at that moment, which may be
      absent. */
  function ObservedSectionItems(observed: Option<seq<SectionWithItems>>, sectionId: Id): (r: seq<ShoppingItem>)
    ensures observed.None? ==> r == []
    ensures observed.Some? && (forall g :: g in observed.value ==> g.section.id != sectionId) ==> r == []
    ensures observed.Some? && r != [] ==> exists g :: g in observed.value && g.section.id == sectionId && g.items == r
    ensures observed.Some? ==> forall k :: IsFirstGroupOf(observed.value, sectionId, k) ==> r == observed.value[k].items
  {
    match observed
    case None => []
    case Some(groups) => FindGroupItems(groups, sectionId)
  }

  /** Position `k` holds the first group of the section with key `sectionId`. */
  predicate IsFirstGroupOf(groups: seq<SectionWithItems>, sectionId: Id, k: int) {
    && 0 <= k < |groups|
    && groups[k].section.id == sectionId
    && forall j :: 0 <= j < k ==> groups[j].section.id != sectionId
  }

  /** `find { it.section.id == sectionId }?.items ?: emptyList()`: the items
      of the first group for that section, or none when there is none. */
  function FindGroupItems(groups: seq<SectionWithItems>, sectionId: Id): (r: seq<ShoppingItem>)
    ensures (forall g :: g in groups ==> g.section.id != sectionId) ==> r == []
    ensures r != [] ==> exists g :: g in groups && g.section.id == sectionId && g.items == r
    ensures forall k :: IsFirstGroupOf(groups, sectionId, k) ==> r == groups[k].items
  {
    if groups == [] then []
    else if groups[0].section.id == sectionId then groups[0].items
    else
      assert forall g :: g in groups[1..] ==> g in groups;
      assert forall k :: IsFirstGroupOf(groups, sectionId, k) ==> IsFirstGroupOf(groups[1..], sectionId, k - 1);
      FindGroupItems(groups[1..], sectionId)
  }

  /** The `orderIndex` `addItem` picks lies above every item of the target
      section's group in the observed list, and is 0 when that group is
      empty or missing. */
  lemma AddedItemIndexAboveSection(observed: Option<seq<SectionWithItems>>, sectionId: Id)
    ensures var next := NextItemOrderIndex(ObservedSectionItems(observed, sectionId));
      && (forall k :: observed.Some? && IsFirstGroupOf(observed.value, sectionId, k) ==>
            (forall it :: it in observed.value[k].items ==> it.orderIndex < next)
            && (observed.value[k].items == [] ==> next == 0))
      && (observed.None? ==> next == 0)
  {
  }

  /** A sorted rearrangement of a table plus one row whose `orderIndex` is
      strictly larger than every other row's ends with that row. */
  lemma SortedPutsLargestLast(sections: seq<Section>, x: Section, r: seq<Section>)
    requires forall s :: s in sections ==> s.orderIndex < x.orderIndex
    requires SortedByOrder(r) && multiset(r) == multiset(sections) + multiset{x}
    ensures |r| == |sections| + 1 && r[|r| - 1] == x
  {
    assert |r| == |multiset(r)| == |sections| + 1;
    assert x in multiset(r);
    var i :| 0 <= i < |r| && r[i] == x;
    assert r[|r| - 1] in multiset(r);
  }

  /** `addSection` on consistent tables: the new section gets the next key
      and `orderIndex`, is not the default, and comes last in the section
      list. */
  lemma AddedSectionSortsLast(db: Db, name: string)
    requires Consistent(db)
    ensures var idx := NextSectionOrderIndex(GetAllSections(db));
      var r := GetAllSections(InsertSection(db, NewSection(name, idx, false)));
      |r| == |db.sections| + 1 && r[|r| - 1] == Section(db.sectionSeq + 1, name, idx, false, false)
  {
    var idx := NextSectionOrderIndex(GetAllSections(db));
    var added := Section(db.sectionSeq + 1, name, idx, false, false);
    TableLaws.ConsistentKeysBelow(db);
    TableLaws.InsertFreshSection(db, NewSection(name, idx, false));
    var after := InsertSection(db, NewSection(name, idx, false));
    assert after.sections == db.sections + [added];
    var r := GetAllSections(after);
    assert multiset(r) == multiset(db.sections) + multiset{added};
    NextOrderAboveAll(db);
    SortedPutsLargestLast(db.sections, added, r);
  }

  /** The next section index is above every stored section's. */
  lemma NextOrderAboveAll(db: Db)
    ensures forall s :: s in db.sections ==> s.orderIndex < NextSectionOrderIndex(GetAllSections(db))
  {
    var sorted := GetAllSections(db);
    forall s | s in db.sections ensures s.orderIndex < NextSectionOrderIndex(sorted) {
      assert s in multiset(sorted);
    }
  }

  // ---------------------------------------------------------------------
  // Composite effects

  /** `performFullShoppingReset` on the tables: uncheck everything, then drop
      the ad-hoc items. */
  function FullShoppingReset(db: Db): Db {
    DeleteAdHocItems(ResetAllItemCheckedStates(db))
  }

  /** After a full reset no item is checked or ad hoc, every planned-list
      item is still there (unchecked), and no item is counted as checked. */
  lemma FullShoppingResetClearsTrip(db: Db)
    ensures var r := FullShoppingReset(db);
      && (forall it :: it in r.items ==> !it.isChecked && !it.isAdHoc)
      && (forall it :: it in db.items && !it.isAdHoc ==> it.(isChecked := false) in r.items)
      && (forall it :: it in r.items ==> exists old_ :: old_ in db.items && it == old_.(isChecked := false))
      && r.sections == db.sections
      && CheckedItemsCount(r) == 0
  {
    var mid := ResetAllItemCheckedStates(db);
    var r := FullShoppingReset(db);
    TableLaws.ResetCheckedUnchecksEverything(db);
    forall it | it in r.items ensures exists old_ :: old_ in db.items && it == old_.(isChecked := false) {
      var i :| 0 <= i < |mid.items| && mid.items[i] == it;
      assert db.items[i] in db.items;
    }
    CountZero(r.items, IsCheckedPlanned);
  }

  lemma FullShoppingResetKeepsConsistent(db: Db)
    requires Consistent(db)
    ensures Consistent(FullShoppingReset(db))
  {
    TableLaws.ResetAllItemCheckedStatesKeepsConsistent(db);
    TableLaws.DeleteAdHocItemsKeepsConsistent(ResetAllItemCheckedStates(db));
  }

  /** The import keeps the names of sections and items and nothing else. */
  function ToListing(s: SimpleSection): Listing {
    Listing(s.name, ItemNames(s.items))
  }

  function ItemNames(items: seq<SimpleItem>): (r: seq<string>)
    ensures |r| == |items| && forall k :: 0 <= k < |r| ==> r[k] == items[k].name
    decreases |items|
  {
    if items == [] then [] else [items[0].name] + ItemNames(items[1..])
  }

  function ImportListings(data: seq<SimpleSection>): (r: seq<Listing>)
    ensures |r| == |data| && forall k :: 0 <= k < |r| ==> r[k] == ToListing(data[k])
    decreases |data|
  {
    if data == [] then [] else [ToListing(data[0])] + ImportListings(data[1..])
  }

  /** What `importShoppingListData` does to the tables. */
  function Imported(db: Db, data: seq<SimpleSection>): Db {
    AppendListings(FullShoppingReset(db), ImportListings(data), 0)
  }

  /** Every item an import writes is new, unchecked, planned, not ad hoc, of
      quantity 1 and without image or link, whatever the imported record
      said; and it belongs to one of the sections written in the same import. */
  /** A row as the import inserts it: unchecked, planned, not ad hoc, of
      quantity 1, with no image or link, in a section keyed in (lo, hi]. */
  predicate IsImportedRow(it: ShoppingItem, lo: int, hi: int) {
    && !it.isChecked && it.isPlanned && !it.isAdHoc && it.quantity == 1
    && it.imageUri == None && it.productLink == None
    && lo < it.sectionId <= hi
  }

  lemma ItemRowsAreImported(sid: Id, names: seq<string>, seqBefore: int)
    ensures forall it :: it in ItemRows(sid, names, seqBefore, 0) ==> IsImportedRow(it, sid - 1, sid)
  {
    var rows := ItemRows(sid, names, seqBefore, 0);
    forall it | it in rows ensures IsImportedRow(it, sid - 1, sid) {
      var k :| 0 <= k < |rows| && rows[k] == it;
    }
  }

  /** Every item an import inserts is a fresh planned row of one of the
      sections the same import inserted. */
  lemma {:induction false} ImportedItemsAreFresh(ls: seq<Listing>, sectionSeqBefore: int, itemSeqBefore: int)
    ensures forall it :: it in ListingItemRows(ls, sectionSeqBefore, itemSeqBefore) ==>
      IsImportedRow(it, sectionSeqBefore, sectionSeqBefore + |ls|)
    decreases |ls|
  {
    if ls != [] {
      var lo, hi := sectionSeqBefore, sectionSeqBefore + |ls|;
      var rows := ItemRows(lo + 1, ls[0].itemNames, itemSeqBefore, 0);
      var rest := ListingItemRows(ls[1..], lo + 1, itemSeqBefore + |ls[0].itemNames|);
      ImportedItemsAreFresh(ls[1..], lo + 1, itemSeqBefore + |ls[0].itemNames|);
      ItemRowsAreImported(lo + 1, ls[0].itemNames, itemSeqBefore);
      ListingItemRowsCons(ls, lo, itemSeqBefore);
      forall it | it in rows + rest ensures IsImportedRow(it, lo, hi) {
        if it in rows {
          assert IsImportedRow(it, lo, lo + 1);
        } else {
          assert IsImportedRow(it, lo + 1, hi);
        }
      }
    }
  }

  /** On consistent tables, an import first clears the trip, then appends one
      non-default section per imported section (keys after the counter,
      `orderIndex` from 0) and its items; the result is consistent. */
  lemma ImportAppendsRows(db: Db, data: seq<SimpleSection>)
    requires Consistent(db)
    ensures var base := FullShoppingReset(db);
      && Imported(db, data) == WithListings(base, ImportListings(data), 0)
      && Consistent(Imported(db, data))
  {
    var base := FullShoppingReset(db);
    FullShoppingResetKeepsConsistent(db);
    TableLaws.ConsistentKeysBelow(base);
    AppendListingsAppendsRows(base, ImportListings(data), 0);
    AppendListingsKeepsConsistent(base, ImportListings(data), 0);
  }

  /** The section list offered by `getAvailableSections` is the sections of
      the grouped list, which is every section in `orderIndex` order. */
  function GroupSection(g: SectionWithItems): Section { g.section }

  function AvailableSections(groups: seq<SectionWithItems>): (r: seq<Section>)
    ensures |r| == |groups| && forall k :: 0 <= k < |r| ==> r[k] == groups[k].section
  {
    Map(groups, GroupSection)
  }

  lemma AvailableSectionsAreAllSections(db: Db)
    ensures AvailableSections(GetAllSectionsWithItems(db)) == GetAllSections(db)
  {
  }

  // ---------------------------------------------------------------------
  // The view model object

  class ShoppingViewModel {
    const repository: Repository.ShoppingRepository
    var isShoppingMode: bool

    /** A new view model starts in planning mode. */
    constructor (repository: Repository.ShoppingRepository)
      ensures this.repository == repository && !isShoppingMode
    {
      this.repository := repository;
      isShoppingMode := false;
    }

    method ToggleShoppingMode()
      modifies this
      ensures isShoppingMode == !old(isShoppingMode)
    {
      isShoppingMode := !isShoppingMode;
    }

    method SetShoppingMode(enabled: bool)
      modifies this
      ensures isShoppingMode == enabled
    {
      isShoppingMode := enabled;
    }

    // ----- sections

    method AddSection(name: string)
      requires repository.dao.Valid()
      modifies repository.dao
      ensures repository.dao.Valid()
      ensures repository.dao.State()
           == Tables.InsertSection(old(repository.dao.State()),
                NewSection(name, NextSectionOrderIndex(GetAllSections(old(repository.dao.State()))), false))
    {
      var sections := repository.GetAllSections();
      var newOrderIndex := NextSectionOrderIndex(sections);
      var rowId := repository.InsertSection(NewSection(name, newOrderIndex, false));
    }

    method UpdateSection(section: Section, newName: string)
      requires repository.dao.Valid()
      modifies repository.dao
      ensures repository.dao.Valid()
      ensures repository.dao.State() == Tables.UpdateSection(old(repository.dao.State()), CopyWithName(section, newName))
    {
      repository.UpdateSection(CopyWithName(section, newName));
    }

    method DeleteSection(section: Section)
      requires repository.dao.Valid()
      modifies repository.dao
      ensures repository.dao.Valid()
      ensures repository.dao.State() == Repository.DeleteSectionReassigning(old(repository.dao.State()), section)
    {
      repository.DeleteSection(section);
    }

    // ----- items

    /** `observed` is the value the grouped list holds when the action runs. */
    method AddItem(name: string, sectionId: Id, isAdHoc: bool, observed: Option<seq<SectionWithItems>>)
      returns (r: Result<Id, StoreError>)
      requires repository.dao.Valid()
      modifies repository.dao
      ensures repository.dao.Valid()
      ensures var item := NewItem(name, sectionId, isAdHoc := isAdHoc,
                                  orderIndex := NextItemOrderIndex(ObservedSectionItems(observed, sectionId)));
        && repository.dao.State() == Tables.InsertItem(old(repository.dao.State()), item)
        && r == InsertItemResult(old(repository.dao.State()), item)
    {
      var sectionItems := ObservedSectionItems(observed, sectionId);
      var newOrderIndex := NextItemOrderIndex(sectionItems);
      r := repository.InsertItem(NewItem(name, sectionId, isAdHoc := isAdHoc, orderIndex := newOrderIndex));
    }

    method UpdateItem(item: ShoppingItem, newName: string) returns (r: Outcome<StoreError>)
      requires repository.dao.Valid()
      modifies repository.dao
      ensures repository.dao.Valid()
      ensures repository.dao.State() == Tables.UpdateItem(old(repository.dao.State()), item.(name := newName))
      ensures r == UpdateItemOutcome(old(repository.dao.State()), item.(name := newName))
    {
      r := repository.UpdateItem(item.(name := newName));
    }

    method DeleteItem(item: ShoppingItem)
      requires repository.dao.Valid()
      modifies repository.dao
      ensures repository.dao.Valid()
      ensures repository.dao.State() == Tables.DeleteItem(old(repository.dao.State()), item)
    {
      repository.DeleteItem(item);
    }

    method ToggleItemChecked(item: ShoppingItem, isChecked: bool) returns (r: Outcome<StoreError>)
      requires repository.dao.Valid()
      modifies repository.dao
      ensures repository.dao.Valid()
      ensures repository.dao.State() == Tables.UpdateItem(old(repository.dao.State()), item.(isChecked := isChecked))
      ensures r == UpdateItemOutcome(old(repository.dao.State()), item.(isChecked := isChecked))
    {
      r := repository.UpdateItem(item.(isChecked := isChecked));
    }

    method MoveItemToSection(item: ShoppingItem, newSectionId: Id) returns (r: Outcome<StoreError>)
      requires repository.dao.Valid()
      modifies repository.dao
      ensures repository.dao.Valid()
      ensures repository.dao.State() == Tables.UpdateItem(old(repository.dao.State()), item.(sectionId := newSectionId))
      ensures r == UpdateItemOutcome(old(repository.dao.State()), item.(sectionId := newSectionId))
    {
      r := repository.UpdateItem(item.(sectionId := newSectionId));
    }

    // ----- whole-list operations

    method ResetAllItemCheckedStates()
      requires repository.dao.Valid()
      modifies repository.dao
      ensures repository.dao.Valid()
      ensures repository.dao.State() == Tables.ResetAllItemCheckedStates(old(repository.dao.State()))
    {
      repository.ResetAllItemCheckedStates();
    }

    method PerformFullShoppingReset()
      requires repository.dao.Valid()
      modifies this, repository.dao
      ensures repository.dao.Valid()
      ensures repository.dao.State() == FullShoppingReset(old(repository.dao.State()))
      ensures !isShoppingMode
    {
      repository.ResetAllItemCheckedStates();
      repository.DeleteAdHocItems();
      isShoppingMode := false;
    }

    method ImportShoppingListData(importedData: seq<SimpleSection>)
      requires repository.dao.Valid()
      modifies this, repository.dao
      ensures repository.dao.Valid()
      ensures repository.dao.State() == Imported(old(repository.dao.State()), importedData)
      ensures !isShoppingMode
    {
      PerformFullShoppingReset();
      isShoppingMode := false;
      ImportSections(importedData);
    }

    /** The loop over the imported sections, with `orderIndex` from 0. */
    method ImportSections(importedData: seq<SimpleSection>)
      requires repository.dao.Valid()
      modifies repository.dao
      ensures repository.dao.Valid()
      ensures repository.dao.State() == AppendListings(old(repository.dao.State()), ImportListings(importedData), 0)
    {
      ghost var goal := AppendListings(repository.dao.State(), ImportListings(importedData), 0);
      var sectionOrder := 0;
      while sectionOrder < |importedData|
        invariant 0 <= sectionOrder <= |importedData|
        invariant repository.dao.Valid()
        invariant AppendListings(repository.dao.State(), ImportListings(importedData[sectionOrder..]), sectionOrder) == goal
      {
        var simpleSection := importedData[sectionOrder];
        assert importedData[sectionOrder..][0] == simpleSection && importedData[sectionOrder..][1..] == importedData[sectionOrder + 1..];
        ImportSection(simpleSection, sectionOrder);
        sectionOrder := sectionOrder + 1;
      }
    }

    /** One imported section: the section row, then its items by name, with
        `orderIndex` their position. */
    method ImportSection(simpleSection: SimpleSection, sectionOrder: int)
      requires repository.dao.Valid()
      modifies repository.dao
      ensures repository.dao.Valid()
      ensures repository.dao.State() == InsertListing(old(repository.dao.State()), ToListing(simpleSection), sectionOrder)
    {
      var sectionId := repository.InsertSection(NewSection(simpleSection.name, sectionOrder, false));
      ghost var goal := AppendItems(repository.dao.State(), sectionId, ItemNames(simpleSection.items), 0);
      var names := ItemNames(simpleSection.items);
      var itemOrder := 0;
      while itemOrder < |simpleSection.items|
        invariant 0 <= itemOrder <= |simpleSection.items|
        invariant repository.dao.Valid()
        invariant AppendItems(repository.dao.State(), sectionId, names[itemOrder..], itemOrder) == goal
      {
        var simpleItem := simpleSection.items[itemOrder];
        assert names[itemOrder..][0] == simpleItem.name && names[itemOrder..][1..] == names[itemOrder + 1..];
        var rowId := repository.InsertItem(NewItem(simpleItem.name, sectionId, orderIndex := itemOrder, isAdHoc := false, isChecked := false));
        itemOrder := itemOrder + 1;
      }
    }

    /** `getAvailableSections`, read at the current state. */
    function GetAvailableSections(): seq<Section>
      reads repository.dao
    {
      AvailableSections(repository.AllSectionsWithItems())
    }
  }
}
