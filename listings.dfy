/** Building a list from names: a section is inserted, then its items one
    by one, numbered from 0 in their `orderIndex`.  Both the first-run
    catalogue and the list import do exactly this, so both are specified by
    `AppendListings`. */
module Listings {
  import opened Sequences
  import opened Entities
  import opened Tables
  import TableLaws

  /** A section to create, by name, with the names of its items in order. */
  datatype Listing = Listing(name: string, itemNames: seq<string>)

  /** Insert a fresh item for each name into section `sid`, the k-th with
      `orderIndex` `order + k`. */
  function AppendItems(db: Db, sid: Id, names: seq<string>, order: int): Db
    decreases |names|
  {
    if names == [] then db
    else AppendItems(InsertItem(db, NewItem(names[0], sid, orderIndex := order)), sid, names[1..], order + 1)
  }

  /** Insert a fresh, non-default section for `l` with the given
      `orderIndex`, then its items under the key that insert returned. */
  function InsertListing(db: Db, l: Listing, order: int): Db {
    var sid := RowId(0, db.sectionSeq);
    AppendItems(InsertSection(db, NewSection(l.name, order, false)), sid, l.itemNames, 0)
  }

  /** Insert the listings in turn, the k-th with `orderIndex` `order + k`. */
  function AppendListings(db: Db, ls: seq<Listing>, order: int): Db
    decreases |ls|
  {
    if ls == [] then db
    else AppendListings(InsertListing(db, ls[0], order), ls[1..], order + 1)
  }

  /** `AppendListings` inserts its first listing first. */
  lemma AppendListingsFirst(db: Db, ls: seq<Listing>, order: int)
    requires ls != []
    ensures AppendListings(db, ls, order) == AppendListings(InsertListing(db, ls[0], order), ls[1..], order + 1)
  {
  }

  // ---------------------------------------------------------------------
  // The rows those inserts produce

  /** The item rows for `names` in section `sid`, keyed after the counter
      value `seqBefore`. */
  function ItemRows(sid: Id, names: seq<string>, seqBefore: int, order: int): (r: seq<ShoppingItem>)
    ensures |r| == |names|
    ensures forall k :: 0 <= k < |r| ==> r[k] == NewItem(names[k], sid, id := seqBefore + 1 + k, orderIndex := order + k)
    decreases |names|
  {
    if names == [] then []
    else [NewItem(names[0], sid, id := seqBefore + 1, orderIndex := order)] + ItemRows(sid, names[1..], seqBefore + 1, order + 1)
  }

  /** The section rows for `ls`, keyed after the counter value `seqBefore`. */
  function SectionRows(ls: seq<Listing>, seqBefore: int, order: int): (r: seq<Section>)
    ensures |r| == |ls|
    ensures forall k :: 0 <= k < |r| ==> r[k] == Section(seqBefore + 1 + k, ls[k].name, order + k, false, false)
    decreases |ls|
  {
    if ls == [] then []
    else [Section(seqBefore + 1, ls[0].name, order, false, false)] + SectionRows(ls[1..], seqBefore + 1, order + 1)
  }

  function TotalItems(ls: seq<Listing>): nat
    decreases |ls|
  {
    if ls == [] then 0 else |ls[0].itemNames| + TotalItems(ls[1..])
  }

  /** The item rows for all of `ls`: the k-th listing's items belong to
      section `sectionSeqBefore + 1 + k` and start at `orderIndex` 0. */
  function ListingItemRows(ls: seq<Listing>, sectionSeqBefore: int, itemSeqBefore: int): (r: seq<ShoppingItem>)
    ensures |r| == TotalItems(ls)
    decreases |ls|
  {
    if ls == [] then []
    else ItemRows(sectionSeqBefore + 1, ls[0].itemNames, itemSeqBefore, 0)
         + ListingItemRows(ls[1..], sectionSeqBefore + 1, itemSeqBefore + |ls[0].itemNames|)
  }

  lemma SectionRowsCons(ls: seq<Listing>, seqBefore: int, order: int)
    requires ls != []
    ensures SectionRows(ls, seqBefore, order)
         == [Section(seqBefore + 1, ls[0].name, order, false, false)] + SectionRows(ls[1..], seqBefore + 1, order + 1)
  {
  }

  lemma ListingItemRowsCons(ls: seq<Listing>, sectionSeqBefore: int, itemSeqBefore: int)
    requires ls != []
    ensures ListingItemRows(ls, sectionSeqBefore, itemSeqBefore)
         == ItemRows(sectionSeqBefore + 1, ls[0].itemNames, itemSeqBefore, 0)
            + ListingItemRows(ls[1..], sectionSeqBefore + 1, itemSeqBefore + |ls[0].itemNames|)
  {
  }

  // ---------------------------------------------------------------------
  // Characterisation

  /** Appending items keeps the database consistent. */
  lemma {:induction false} AppendItemsKeepsConsistent(db: Db, sid: Id, names: seq<string>, order: int)
    requires Consistent(db)
    ensures Consistent(AppendItems(db, sid, names, order))
    decreases |names|
  {
    if names != [] {
      var item := NewItem(names[0], sid, orderIndex := order);
      TableLaws.InsertItemKeepsConsistent(db, item);
      AppendItemsKeepsConsistent(InsertItem(db, item), sid, names[1..], order + 1);
    }
  }

  /** Appending listings keeps the database consistent. */
  lemma InsertListingKeepsConsistent(db: Db, l: Listing, order: int)
    requires Consistent(db)
    ensures Consistent(InsertListing(db, l, order))
  {
    var section := NewSection(l.name, order, false);
    TableLaws.InsertSectionKeepsConsistent(db, section);
    AppendItemsKeepsConsistent(InsertSection(db, section), RowId(0, db.sectionSeq), l.itemNames, 0);
  }

  lemma {:induction false} AppendListingsKeepsConsistent(db: Db, ls: seq<Listing>, order: int)
    requires Consistent(db)
    ensures Consistent(AppendListings(db, ls, order))
    decreases |ls|
  {
    if ls != [] {
      InsertListingKeepsConsistent(db, ls[0], order);
      AppendListingsKeepsConsistent(InsertListing(db, ls[0], order), ls[1..], order + 1);
    }
  }

  /** The first insert of `AppendItems` on a store with fresh keys appends
      one row under the next key. */
  lemma AppendItemsStep(db: Db, sid: Id, names: seq<string>, order: int)
    requires TableLaws.ItemKeysBelow(db) && 0 <= db.itemSeq && HasSection(db.sections, sid) && names != []
    ensures var db1 := db.(items := db.items + [NewItem(names[0], sid, id := db.itemSeq + 1, orderIndex := order)],
                           itemSeq := db.itemSeq + 1);
      && AppendItems(db, sid, names, order) == AppendItems(db1, sid, names[1..], order + 1)
      && TableLaws.ItemKeysBelow(db1)
  {
    TableLaws.InsertFreshItem(db, NewItem(names[0], sid, orderIndex := order));
  }

  /** Item rows split off their first row. */
  lemma ItemRowsSplit(items: seq<ShoppingItem>, sid: Id, names: seq<string>, seqBefore: int, order: int)
    requires names != []
    ensures items + ItemRows(sid, names, seqBefore, order)
         == (items + [NewItem(names[0], sid, id := seqBefore + 1, orderIndex := order)])
            + ItemRows(sid, names[1..], seqBefore + 1, order + 1)
  {
    var row := NewItem(names[0], sid, id := seqBefore + 1, orderIndex := order);
    var rest := ItemRows(sid, names[1..], seqBefore + 1, order + 1);
    assert ItemRows(sid, names, seqBefore, order) == [row] + rest;
    ConcatAssoc(items, [row], rest);
  }

  /** Appending items to a stored section adds exactly `ItemRows` at the end
      of the item table and raises the counter by their number. */
  lemma {:induction false} AppendItemsEquation(db: Db, sid: Id, names: seq<string>, order: int)
    requires TableLaws.ItemKeysBelow(db) && 0 <= db.itemSeq && HasSection(db.sections, sid)
    ensures AppendItems(db, sid, names, order)
         == db.(items := db.items + ItemRows(sid, names, db.itemSeq, order), itemSeq := db.itemSeq + |names|)
    decreases |names|
  {
    if names != [] {
      var row := NewItem(names[0], sid, id := db.itemSeq + 1, orderIndex := order);
      var db1 := db.(items := db.items + [row], itemSeq := db.itemSeq + 1);
      AppendItemsStep(db, sid, names, order);
      AppendItemsEquation(db1, sid, names[1..], order + 1);
      ItemRowsSplit(db.items, sid, names, db.itemSeq, order);
    }
  }

  /** The same, with the appended keys still within the counter. */
  lemma AppendItemsAppendsRows(db: Db, sid: Id, names: seq<string>, order: int)
    requires TableLaws.ItemKeysBelow(db) && 0 <= db.itemSeq && HasSection(db.sections, sid)
    ensures var r := AppendItems(db, sid, names, order);
      && r == db.(items := db.items + ItemRows(sid, names, db.itemSeq, order), itemSeq := db.itemSeq + |names|)
      && TableLaws.ItemKeysBelow(r)
  {
    AppendItemsEquation(db, sid, names, order);
    var rows := ItemRows(sid, names, db.itemSeq, order);
    forall it | it in db.items + rows ensures it.id <= db.itemSeq + |names| {
      if it !in db.items {
        var k :| 0 <= k < |rows| && rows[k] == it;
      }
    }
  }

  /** The tables after `InsertListing` on a database whose keys are all
      below its counters, written out. */
  function WithListing(db: Db, l: Listing, order: int): Db {
    Db(db.sections + [Section(db.sectionSeq + 1, l.name, order, false, false)],
       db.items + ItemRows(db.sectionSeq + 1, l.itemNames, db.itemSeq, 0),
       db.sectionSeq + 1, db.itemSeq + |l.itemNames|)
  }

  /** Inserting one listing appends its section row and its item rows. */
  lemma InsertListingAppendsRows(db: Db, l: Listing, order: int)
    requires TableLaws.SectionKeysBelow(db) && TableLaws.ItemKeysBelow(db)
    requires 0 <= db.sectionSeq && 0 <= db.itemSeq
    ensures InsertListing(db, l, order) == WithListing(db, l, order)
    ensures TableLaws.SectionKeysBelow(WithListing(db, l, order)) && TableLaws.ItemKeysBelow(WithListing(db, l, order))
  {
    var sid := db.sectionSeq + 1;
    var db1 := InsertSection(db, NewSection(l.name, order, false));
    InsertListingSection(db, l, order);
    AppendItemsAppendsRows(db1, sid, l.itemNames, 0);
  }

  /** The section insert that opens a listing appends its row under the next key. */
  lemma InsertListingSection(db: Db, l: Listing, order: int)
    requires TableLaws.SectionKeysBelow(db) && TableLaws.ItemKeysBelow(db)
    requires 0 <= db.sectionSeq && 0 <= db.itemSeq
    ensures var db1 := InsertSection(db, NewSection(l.name, order, false));
      && db1 == Db(db.sections + [Section(db.sectionSeq + 1, l.name, order, false, false)], db.items, db.sectionSeq + 1, db.itemSeq)
      && HasSection(db1.sections, db.sectionSeq + 1)
      && TableLaws.SectionKeysBelow(db1) && TableLaws.ItemKeysBelow(db1)
  {
    var section := NewSection(l.name, order, false);
    TableLaws.InsertFreshSection(db, section);
    var db1 := InsertSection(db, section);
    var row := Section(db.sectionSeq + 1, l.name, order, false, false);
    assert db1.sections[|db1.sections| - 1] == row;
  }

  /** One step of `AppendListings`, with the first listing's rows written out. */
  lemma AppendListingsStep(db: Db, ls: seq<Listing>, order: int)
    requires ls != []
    requires TableLaws.SectionKeysBelow(db) && TableLaws.ItemKeysBelow(db)
    requires 0 <= db.sectionSeq && 0 <= db.itemSeq
    ensures AppendListings(db, ls, order) == AppendListings(WithListing(db, ls[0], order), ls[1..], order + 1)
    ensures TableLaws.SectionKeysBelow(WithListing(db, ls[0], order)) && TableLaws.ItemKeysBelow(WithListing(db, ls[0], order))
  {
    InsertListingAppendsRows(db, ls[0], order);
  }

  /** The rows of all listings, starting from a database whose keys are all
      below its counters. */
  function WithListings(db: Db, ls: seq<Listing>, order: int): Db {
    Db(db.sections + SectionRows(ls, db.sectionSeq, order),
       db.items + ListingItemRows(ls, db.sectionSeq, db.itemSeq),
       db.sectionSeq + |ls|, db.itemSeq + TotalItems(ls))
  }

  lemma WithListingsStepSections(db: Db, ls: seq<Listing>, order: int)
    requires ls != []
    ensures WithListings(db, ls, order).sections == WithListings(WithListing(db, ls[0], order), ls[1..], order + 1).sections
  {
    var row := Section(db.sectionSeq + 1, ls[0].name, order, false, false);
    SectionRowsCons(ls, db.sectionSeq, order);
    ConcatAssoc(db.sections, [row], SectionRows(ls[1..], db.sectionSeq + 1, order + 1));
  }

  lemma WithListingsStepItems(db: Db, ls: seq<Listing>, order: int)
    requires ls != []
    ensures WithListings(db, ls, order).items == WithListings(WithListing(db, ls[0], order), ls[1..], order + 1).items
  {
    var rows := ItemRows(db.sectionSeq + 1, ls[0].itemNames, db.itemSeq, 0);
    var rest := ListingItemRows(ls[1..], db.sectionSeq + 1, db.itemSeq + |ls[0].itemNames|);
    var db1 := WithListing(db, ls[0], order);
    assert db1.items == db.items + rows;
    assert db1.sectionSeq == db.sectionSeq + 1 && db1.itemSeq == db.itemSeq + |ls[0].itemNames|;
    calc {
      WithListings(db, ls, order).items;
      db.items + ListingItemRows(ls, db.sectionSeq, db.itemSeq);
      { ListingItemRowsCons(ls, db.sectionSeq, db.itemSeq); }
      db.items + (rows + rest);
      { ConcatAssoc(db.items, rows, rest); }
      db1.items + rest;
      WithListings(db1, ls[1..], order + 1).items;
    }
  }

  lemma WithListingsStep(db: Db, ls: seq<Listing>, order: int)
    requires ls != []
    ensures WithListings(db, ls, order) == WithListings(WithListing(db, ls[0], order), ls[1..], order + 1)
  {
    WithListingsStepSections(db, ls, order);
    WithListingsStepItems(db, ls, order);
  }

  /** Appending listings adds exactly `SectionRows` and `ListingItemRows` at
      the end of the two tables, under consecutive fresh keys. */
  lemma {:induction false} AppendListingsAppendsRows(db: Db, ls: seq<Listing>, order: int)
    requires TableLaws.SectionKeysBelow(db) && TableLaws.ItemKeysBelow(db)
    requires 0 <= db.sectionSeq && 0 <= db.itemSeq
    ensures AppendListings(db, ls, order) == WithListings(db, ls, order)
    decreases |ls|
  {
    if ls != [] {
      AppendListingsStep(db, ls, order);
      AppendListingsAppendsRows(WithListing(db, ls[0], order), ls[1..], order + 1);
      WithListingsStep(db, ls, order);
    } else {
      assert SectionRows(ls, db.sectionSeq, order) == [];
      assert ListingItemRows(ls, db.sectionSeq, db.itemSeq) == [];
    }
  }
}
