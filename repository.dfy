/** The repository: a thin layer over the DAO whose one piece of logic is
    that deleting a section first hands its items to the default section. */
module Repository {
  import opened Wrappers
  import opened Entities
  import opened Tables
  import Dao
  import TableLaws

  /** What `deleteSection` does to the tables: when a default section exists
      the section's items are moved there, then the section row is deleted
      (and the cascade takes whatever still references it). */
  function DeleteSectionReassigning(db: Db, section: Section): Db {
    match GetDefaultSectionId(db)
    case Some(d) => DeleteSection(MoveItemsToSection(db, section.id, d), section)
    case None => DeleteSection(db, section)
  }

  /** With a default section, deleting any other section loses no item: every
      item keeps its position and columns, and the deleted section's items
      now belong to the default section. */
  lemma DeleteSectionMovesItemsToDefault(db: Db, section: Section, d: Id)
    requires Consistent(db)
    requires GetDefaultSectionId(db) == Some(d) && d != section.id
    ensures var r := DeleteSectionReassigning(db, section);
      && (forall s :: s in r.sections <==> s in db.sections && s.id != section.id)
      && |r.items| == |db.items|
      && (forall i :: 0 <= i < |r.items| ==>
            r.items[i] == if db.items[i].sectionId == section.id then db.items[i].(sectionId := d) else db.items[i])
      && (forall it :: it in r.items ==> it.sectionId != section.id)
  {
    var s :| s in db.sections && s.isDefault && s.id == d;
    assert HasSection(db.sections, d);
    var m := MoveItemsToSection(db, section.id, d);
    assert m.items == DeleteSection(m, section).items by {
      forall it | it in m.items ensures it.sectionId != section.id {
        var i :| 0 <= i < |m.items| && m.items[i] == it;
      }
      DeleteItemsOfNone(m.items, section.id);
    }
  }

  /** Without a default section, or when the default section itself is
      deleted, the section's items go with it (the cascade); every other
      item stays. */
  lemma DeleteSectionCascadesOtherwise(db: Db, section: Section)
    requires GetDefaultSectionId(db).None? || GetDefaultSectionId(db) == Some(section.id)
    ensures var r := DeleteSectionReassigning(db, section);
      && (forall s :: s in r.sections <==> s in db.sections && s.id != section.id)
      && (forall it :: it in r.items <==> it in db.items && it.sectionId != section.id)
  {
    if GetDefaultSectionId(db).Some? {
      var m := MoveItemsToSection(db, section.id, section.id);
      assert m.items == db.items;
    }
  }

  lemma DeleteSectionReassigningKeepsConsistent(db: Db, section: Section)
    requires Consistent(db)
    ensures Consistent(DeleteSectionReassigning(db, section))
  {
    match GetDefaultSectionId(db)
    case Some(d) =>
      TableLaws.MoveItemsToSectionKeepsConsistent(db, section.id, d);
      TableLaws.DeleteSectionKeepsConsistent(MoveItemsToSection(db, section.id, d), section);
    case None =>
      TableLaws.DeleteSectionKeepsConsistent(db, section);
  }

  class ShoppingRepository {
    const dao: Dao.ShoppingDao

    constructor (dao: Dao.ShoppingDao)
      ensures this.dao == dao
    {
      this.dao := dao;
    }

    // ----- the observed queries (`LiveData`), read at the current state

    function AllSectionsWithItems(): seq<SectionWithItems>
      reads dao
    {
      GetAllSectionsWithItems(dao.State())
    }

    function Unchecked(): nat
      reads dao
    {
      UncheckedItemsCount(dao.State())
    }

    function Checked(): nat
      reads dao
    {
      CheckedItemsCount(dao.State())
    }

    // ----- sections

    method InsertSection(section: Section) returns (rowId: Id)
      requires dao.Valid()
      modifies dao
      ensures dao.Valid()
      ensures dao.State() == Tables.InsertSection(old(dao.State()), section)
      ensures rowId == RowId(section.id, old(dao.sectionSeq))
    {
      rowId := dao.InsertSection(section);
    }

    method UpdateSection(section: Section)
      requires dao.Valid()
      modifies dao
      ensures dao.Valid()
      ensures dao.State() == Tables.UpdateSection(old(dao.State()), section)
    {
      dao.UpdateSection(section);
    }

    method DeleteSection(section: Section)
      requires dao.Valid()
      modifies dao
      ensures dao.Valid()
      ensures dao.State() == DeleteSectionReassigning(old(dao.State()), section)
    {
      var defaultSectionId := dao.GetDefaultSectionId();
      if defaultSectionId.Some? {
        var moved := dao.MoveItemsToSection(section.id, defaultSectionId.value);
      }
      dao.DeleteSection(section);
    }

    method GetAllSections() returns (r: seq<Section>)
      ensures r == Tables.GetAllSections(dao.State())
    {
      r := dao.GetAllSections();
    }

    // ----- items

    method InsertItem(item: ShoppingItem) returns (r: Result<Id, StoreError>)
      requires dao.Valid()
      modifies dao
      ensures dao.Valid()
      ensures dao.State() == Tables.InsertItem(old(dao.State()), item)
      ensures r == InsertItemResult(old(dao.State()), item)
    {
      r := dao.InsertItem(item);
    }

    method UpdateItem(item: ShoppingItem) returns (r: Outcome<StoreError>)
      requires dao.Valid()
      modifies dao
      ensures dao.Valid()
      ensures dao.State() == Tables.UpdateItem(old(dao.State()), item)
      ensures r == UpdateItemOutcome(old(dao.State()), item)
    {
      r := dao.UpdateItem(item);
    }

    method DeleteItem(item: ShoppingItem)
      requires dao.Valid()
      modifies dao
      ensures dao.Valid()
      ensures dao.State() == Tables.DeleteItem(old(dao.State()), item)
    {
      dao.DeleteItem(item);
    }

    // ----- bulk operations

    method ResetAllItemCheckedStates()
      requires dao.Valid()
      modifies dao
      ensures dao.Valid()
      ensures dao.State() == Tables.ResetAllItemCheckedStates(old(dao.State()))
    {
      dao.ResetAllItemCheckedStates();
    }

    method ResetAllPlannedStates()
      requires dao.Valid()
      modifies dao
      ensures dao.Valid()
      ensures dao.State() == Tables.ResetAllPlannedStates(old(dao.State()))
    {
      dao.ResetAllPlannedStates();
    }

    method DeleteAdHocItems()
      requires dao.Valid()
      modifies dao
      ensures dao.Valid()
      ensures dao.State() == Tables.DeleteAdHocItems(old(dao.State()))
    {
      dao.DeleteAdHocItems();
    }

    method DeleteAllSectionsAndItems()
      requires dao.Valid()
      modifies dao
      ensures dao.Valid()
      ensures dao.State() == DeleteAllSections(DeleteAllItems(old(dao.State())))
    {
      dao.DeleteAllItems();
      dao.DeleteAllSections();
    }
  }
}
