/** First-run seeding of the database (the `onCreate` callback): the default
    section first, with `orderIndex` 0, then every catalogue section with
    `orderIndex` counting up from 1, each followed by its items numbered
    from 0. */
module Database {
  import opened Wrappers
  import opened Entities
  import opened Tables
  import opened Listings
  import Catalogue
  import TableLaws
  import Dao

  /** The tables after seeding `db` with a default section and `catalogue`. */
  function Seeded(db: Db, defaultName: string, catalogue: seq<Listing>): Db {
    AppendListings(InsertSection(db, NewSection(defaultName, 0, true)), catalogue, 1)
  }

  lemma SeedingEmptyRows(defaultName: string, catalogue: seq<Listing>)
    ensures Seeded(Empty, defaultName, catalogue)
         == Db([Section(1, defaultName, 0, true, false)] + SectionRows(catalogue, 1, 1),
               ListingItemRows(catalogue, 1, 0), 1 + |catalogue|, TotalItems(catalogue))
  {
    var section := NewSection(defaultName, 0, true);
    TableLaws.InsertFreshSection(Empty, section);
    var db1 := InsertSection(Empty, section);
    assert db1 == Db([Section(1, defaultName, 0, true, false)], [], 1, 0);
    AppendListingsAppendsRows(db1, catalogue, 1);
    assert [] + ListingItemRows(catalogue, 1, 0) == ListingItemRows(catalogue, 1, 0);
  }

  lemma SeedingEmptyConsistent(defaultName: string, catalogue: seq<Listing>)
    ensures Consistent(Seeded(Empty, defaultName, catalogue))
  {
    var section := NewSection(defaultName, 0, true);
    EmptyIsConsistent();
    TableLaws.InsertSectionKeepsConsistent(Empty, section);
    AppendListingsKeepsConsistent(InsertSection(Empty, section), catalogue, 1);
  }

  lemma OnlyFirstIsDefault(defaultName: string, catalogue: seq<Listing>)
    ensures var sections := [Section(1, defaultName, 0, true, false)] + SectionRows(catalogue, 1, 1);
      && FirstDefault(sections) == Some(sections[0])
      && (forall s :: s in sections ==> (s.isDefault <==> s.id == 1))
  {
    var rest := SectionRows(catalogue, 1, 1);
    var sections := [Section(1, defaultName, 0, true, false)] + rest;
    forall s | s in sections ensures s.isDefault <==> s.id == 1 {
      if s != sections[0] {
        assert s in rest;
        var k :| 0 <= k < |rest| && rest[k] == s;
      }
    }
  }

  /** Seeding a new, empty database yields exactly the default section
      (key 1, `orderIndex` 0) followed by one row per catalogue section (keys
      from 2, `orderIndex` from 1), the catalogue's items under consecutive
      keys from 1, and consistent tables in which the default section is the
      only default one. */
  lemma SeedingEmptyDatabase(defaultName: string, catalogue: seq<Listing>)
    ensures var r := Seeded(Empty, defaultName, catalogue);
      && r == Db([Section(1, defaultName, 0, true, false)] + SectionRows(catalogue, 1, 1),
                 ListingItemRows(catalogue, 1, 0), 1 + |catalogue|, TotalItems(catalogue))
      && Consistent(r)
      && GetDefaultSectionId(r) == Some(1)
      && (forall s :: s in r.sections ==> (s.isDefault <==> s.id == 1))
  {
    SeedingEmptyRows(defaultName, catalogue);
    SeedingEmptyConsistent(defaultName, catalogue);
    OnlyFirstIsDefault(defaultName, catalogue);
  }

  /** The catalogue seeds ten sections besides the default one, with 172
      items between them. */
  lemma CatalogueSize()
    ensures |Catalogue.Seed| == 10
    ensures TotalItems(Catalogue.Seed) == 172
  {
    var s := Catalogue.Seed;
    assert TotalItems(s[10..]) == 0;
    assert |s[9].itemNames| == 22;
    assert s[9..][1..] == s[10..];
    assert TotalItems(s[9..]) == 22;
    assert |s[8].itemNames| == 6;
    assert s[8..][1..] == s[9..];
    assert TotalItems(s[8..]) == 28;
    assert |s[7].itemNames| == 21;
    assert s[7..][1..] == s[8..];
    assert TotalItems(s[7..]) == 49;
    assert |s[6].itemNames| == 3;
    assert s[6..][1..] == s[7..];
    assert TotalItems(s[6..]) == 52;
    assert |s[5].itemNames| == 10;
    assert s[5..][1..] == s[6..];
    assert TotalItems(s[5..]) == 62;
    assert |s[4].itemNames| == 6;
    assert s[4..][1..] == s[5..];
    assert TotalItems(s[4..]) == 68;
    assert |s[3].itemNames| == 44;
    assert s[3..][1..] == s[4..];
    assert TotalItems(s[3..]) == 112;
    assert |s[2].itemNames| == 3;
    assert s[2..][1..] == s[3..];
    assert TotalItems(s[2..]) == 115;
    assert |s[1].itemNames| == 18;
    assert s[1..][1..] == s[2..];
    assert TotalItems(s[1..]) == 133;
    assert |s[0].itemNames| == 39;
    assert s[0..][1..] == s[1..];
    assert TotalItems(s[0..]) == 172;
    assert s[0..] == s;
  }

  /** `populateDatabase`: the default section, then the catalogue. */
  method PopulateDatabase(dao: Dao.ShoppingDao)
    requires dao.Valid()
    modifies dao
    ensures dao.Valid()
    ensures dao.State() == Seeded(old(dao.State()), Catalogue.DefaultSectionName, Catalogue.Seed)
  {
    var unassignedSectionId := dao.InsertSection(NewSection(Catalogue.DefaultSectionName, 0, true));
    InsertListings(dao, Catalogue.Seed, 1);
  }

  /** One section insert per listing, each followed by its items. */
  method InsertListings(dao: Dao.ShoppingDao, listings: seq<Listing>, firstOrder: int)
    requires dao.Valid()
    modifies dao
    ensures dao.Valid()
    ensures dao.State() == AppendListings(old(dao.State()), listings, firstOrder)
  {
    ghost var goal := AppendListings(dao.State(), listings, firstOrder);
    var sectionOrderIndex := firstOrder;
    var rest := listings;
    while rest != []
      invariant dao.Valid()
      invariant AppendListings(dao.State(), rest, sectionOrderIndex) == goal
      decreases |rest|
    {
      AppendListingsFirst(dao.State(), rest, sectionOrderIndex);
      InsertListingRows(dao, rest[0], sectionOrderIndex);
      sectionOrderIndex := sectionOrderIndex + 1;
      rest := rest[1..];
    }
  }

  /** One block of `populateDatabase`: the section insert, then its items
      under the id that insert returned. */
  method InsertListingRows(dao: Dao.ShoppingDao, listing: Listing, sectionOrderIndex: int)
    requires dao.Valid()
    modifies dao
    ensures dao.Valid()
    ensures dao.State() == InsertListing(old(dao.State()), listing, sectionOrderIndex)
  {
    var sectionId := dao.InsertSection(NewSection(listing.name, sectionOrderIndex, false));
    InsertItems(dao, sectionId, listing.itemNames);
  }

  /** `forEachIndexed { index, name -> insertItem(...) }`: one item per
      name, with `orderIndex` its position. */
  method InsertItems(dao: Dao.ShoppingDao, sectionId: Id, names: seq<string>)
    requires dao.Valid()
    modifies dao
    ensures dao.Valid()
    ensures dao.State() == AppendItems(old(dao.State()), sectionId, names, 0)
  {
    ghost var goal := AppendItems(dao.State(), sectionId, names, 0);
    var index := 0;
    while index < |names|
      invariant 0 <= index <= |names|
      invariant dao.Valid()
      invariant AppendItems(dao.State(), sectionId, names[index..], index) == goal
    {
      assert names[index..][1..] == names[index + 1..];
      var rowId := dao.InsertItem(NewItem(names[index], sectionId, orderIndex := index));
      index := index + 1;
    }
  }
}
