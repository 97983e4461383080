/** The Room DAO as an object holding the two tables and their AUTOINCREMENT
    counters.  Every statement replaces the state by the `Tables` function
    that gives its meaning and keeps the tables consistent; every query
    leaves the state alone. */
module Dao {
  import opened Wrappers
  import opened Entities
  import Tables
  import TableLaws

  class ShoppingDao {
    var sections: seq<Section>
    var items: seq<ShoppingItem>
    var sectionSeq: int
    var itemSeq: int

    function State(): Tables.Db
      reads this
    {
      Tables.Db(sections, items, sectionSeq, itemSeq)
    }

    ghost predicate Valid()
      reads this
    {
      Tables.Consistent(State())
    }

    /** A freshly created database: both tables empty, no id handed out yet. */
    constructor ()
      ensures State() == Tables.Empty
      ensures Valid()
    {
      sections, items, sectionSeq, itemSeq := [], [], 0, 0;
      Tables.EmptyIsConsistent();
    }

    /** Commits one statement's result to the two tables and their
        AUTOINCREMENT counters. */
    method Store(db: Tables.Db)
      modifies this
      ensures State() == db
    {
      sections, items, sectionSeq, itemSeq := db.sections, db.items, db.sectionSeq, db.itemSeq;
    }

    // ----- sections

    method InsertSection(section: Section) returns (rowId: Id)
      requires Valid()
      modifies this
      ensures Valid()
      ensures State() == Tables.InsertSection(old(State()), section)
      ensures rowId == Tables.RowId(section.id, old(sectionSeq))
    {
      TableLaws.InsertSectionKeepsConsistent(State(), section);
      rowId := Tables.RowId(section.id, sectionSeq);
      Store(Tables.InsertSection(State(), section));
    }

    method UpdateSection(section: Section)
      requires Valid()
      modifies this
      ensures Valid()
      ensures State() == Tables.UpdateSection(old(State()), section)
    {
      TableLaws.UpdateSectionKeepsConsistent(State(), section);
      Store(Tables.UpdateSection(State(), section));
    }

    method DeleteSection(section: Section)
      requires Valid()
      modifies this
      ensures Valid()
      ensures State() == Tables.DeleteSection(old(State()), section)
    {
      TableLaws.DeleteSectionKeepsConsistent(State(), section);
      Store(Tables.DeleteSection(State(), section));
    }

    method DeleteAllSections()
      requires Valid()
      modifies this
      ensures Valid()
      ensures State() == Tables.DeleteAllSections(old(State()))
    {
      TableLaws.DeleteAllSectionsKeepsConsistent(State());
      Store(Tables.DeleteAllSections(State()));
    }

    method GetAllSections() returns (r: seq<Section>)
      ensures r == Tables.GetAllSections(State())
    {
      r := Tables.GetAllSections(State());
    }

    method GetDefaultSection() returns (r: Option<Section>)
      ensures r == Tables.GetDefaultSection(State())
    {
      r := Tables.GetDefaultSection(State());
    }

    method GetDefaultSectionId() returns (r: Option<Id>)
      ensures r == Tables.GetDefaultSectionId(State())
    {
      r := Tables.GetDefaultSectionId(State());
    }

    method GetSectionWithItems(sectionId: Id) returns (r: Option<SectionWithItems>)
      ensures r == Tables.GetSectionWithItems(State(), sectionId)
    {
      r := Tables.GetSectionWithItems(State(), sectionId);
    }

    // ----- items

    method InsertItem(item: ShoppingItem) returns (r: Result<Id, Tables.StoreError>)
      requires Valid()
      modifies this
      ensures Valid()
      ensures State() == Tables.InsertItem(old(State()), item)
      ensures r == Tables.InsertItemResult(old(State()), item)
    {
      TableLaws.InsertItemKeepsConsistent(State(), item);
      r := Tables.InsertItemResult(State(), item);
      Store(Tables.InsertItem(State(), item));
    }

    method UpdateItem(item: ShoppingItem) returns (r: Outcome<Tables.StoreError>)
      requires Valid()
      modifies this
      ensures Valid()
      ensures State() == Tables.UpdateItem(old(State()), item)
      ensures r == Tables.UpdateItemOutcome(old(State()), item)
    {
      TableLaws.UpdateItemKeepsConsistent(State(), item);
      r := Tables.UpdateItemOutcome(State(), item);
      Store(Tables.UpdateItem(State(), item));
    }

    method DeleteItem(item: ShoppingItem)
      requires Valid()
      modifies this
      ensures Valid()
      ensures State() == Tables.DeleteItem(old(State()), item)
    {
      TableLaws.DeleteItemKeepsConsistent(State(), item);
      Store(Tables.DeleteItem(State(), item));
    }

    method DeleteItemsBySectionId(sectionId: Id)
      requires Valid()
      modifies this
      ensures Valid()
      ensures State() == Tables.DeleteItemsBySectionId(old(State()), sectionId)
    {
      TableLaws.DeleteItemsBySectionIdKeepsConsistent(State(), sectionId);
      Store(Tables.DeleteItemsBySectionId(State(), sectionId));
    }

    method DeleteAllItems()
      requires Valid()
      modifies this
      ensures Valid()
      ensures State() == Tables.DeleteAllItems(old(State()))
    {
      TableLaws.DeleteAllItemsKeepsConsistent(State());
      Store(Tables.DeleteAllItems(State()));
    }

    method GetItemById(itemId: Id) returns (r: Option<ShoppingItem>)
      ensures r == Tables.GetItemById(State(), itemId)
    {
      r := Tables.GetItemById(State(), itemId);
    }

    method MoveItemsToSection(from: Id, to: Id) returns (r: Outcome<Tables.StoreError>)
      requires Valid()
      modifies this
      ensures Valid()
      ensures State() == Tables.MoveItemsToSection(old(State()), from, to)
      ensures r == Tables.MoveItemsOutcome(old(State()), from, to)
    {
      TableLaws.MoveItemsToSectionKeepsConsistent(State(), from, to);
      r := Tables.MoveItemsOutcome(State(), from, to);
      Store(Tables.MoveItemsToSection(State(), from, to));
    }

    // ----- bulk statements

    method ResetAllItemCheckedStates()
      requires Valid()
      modifies this
      ensures Valid()
      ensures State() == Tables.ResetAllItemCheckedStates(old(State()))
    {
      TableLaws.ResetAllItemCheckedStatesKeepsConsistent(State());
      Store(Tables.ResetAllItemCheckedStates(State()));
    }

    method ResetAllPlannedStates()
      requires Valid()
      modifies this
      ensures Valid()
      ensures State() == Tables.ResetAllPlannedStates(old(State()))
    {
      TableLaws.ResetAllPlannedStatesKeepsConsistent(State());
      Store(Tables.ResetAllPlannedStates(State()));
    }

    method DeleteAdHocItems()
      requires Valid()
      modifies this
      ensures Valid()
      ensures State() == Tables.DeleteAdHocItems(old(State()))
    {
      TableLaws.DeleteAdHocItemsKeepsConsistent(State());
      Store(Tables.DeleteAdHocItems(State()));
    }
  }
}
