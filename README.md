# ShoppingList, modelled in Dafny

This project models the core of the ShoppingList Android app. The app keeps named
sections of shopping items, has a planning mode and a shopping mode, checks items
off during a trip, and exports and imports its list as JSON. The model covers:

- **The store** (`Tables`, `TableLaws`, `Dao`). The Room database is two
  in-memory tables, sections and items, plus the AUTOINCREMENT counter of each.
  Every DAO statement is a function from one table state to the next, following
  its SQL. This includes the foreign key with `ON DELETE CASCADE`, `REPLACE` on
  insert, update and delete by primary key, the bulk resets, the ad-hoc purge, the
  ordered listing and the two counts. `Dao.ShoppingDao` is a class whose fields
  are the tables. Its methods change them exactly as those functions say, and they
  keep the invariant `Tables.Consistent`: distinct keys, keys below their
  counters, no stored expansion flag, and every item pointing at an existing
  section.
- **The repository** (`Repository`). The pass-through operations, and
  `deleteSection`, which moves the section's items to the default section
  before deleting it.
- **First-run seeding** (`Listings`, `Catalogue`, `Database`). The default
  section, then ten sections with 172 items, inserted one row at a time.
  `Database.SeedingEmptyDatabase` gives the resulting tables in closed form.
- **The view model** (`ViewModel`). The mode flag, order-index assignment for new
  sections and items, the copy-and-update edits, the full trip reset, the list
  import and `getAvailableSections`.
- **Rules inside the UI classes** (`KotlinText`, `MainActivityRules`,
  `ItemAdapter`, `SectionAdapter`):
  - name and link clean-up;
  - the move-target list and the export mapping;
  - which reset the menu offers;
  - the quantity stepper on 32-bit `Int`;
  - checkbox routing;
  - what a row and a section card show in each mode;
  - the two diff callbacks.

The SQL engine's exceptions become a `Result`/`Outcome` value, and the tables
stay unchanged. `Patterns.WEB_URL` is a parameter `isWebUrl`. The LiveData
value `addItem` reads is a parameter `observed`.

Five behaviours of the code are worth stating plainly:

- **Import.** `importShoppingListData` (ShoppingViewModel.kt:109-133) runs
  the full trip reset, then appends the imported sections after the existing
  ones; nothing already stored is overwritten (`ViewModel.Imported`).
- **Imported fields.** Imported items take only their names from the import
  data, so every imported item has quantity 1, is planned, and has no image
  or link (`ViewModel.ImportedItemsAreFresh`).
- **Full reset.** `performFullShoppingReset` only unchecks every item and
  deletes the ad-hoc ones; planned flags and quantities stay
  (`ViewModel.FullShoppingReset`).
- **Quantity.** The store does not enforce a quantity of at least 1; only
  the stepper keeps to it (`ItemAdapter.StepsKeepQuantityPositive`).
- **Mode-switch redraw.** On the mode-change payload, `onBindViewHolder`
  (ItemAdapter.kt:47-57) calls `bindShoppingMode` without raising the
  `isBinding` guard. When an item's checked and planned flags differ, the
  checkbox changes and its listener sends a request. That request writes the
  item back unchanged (`ItemAdapter.ItemViewHolder.RebindShoppingMode`).

The code itself has gaps, which the model fills as follows:

- **Missing DAO methods.** The repository calls `getDefaultSectionId` and
  `moveItemsToSection`, which `ShoppingDao` does not declare. They are modelled
  from their names: the id of the section `WHERE isDefault = 1 LIMIT 1` finds,
  and "`sectionId := to` wherever `sectionId == from`".
- **Missing `isDefault` argument.** `Section(name, orderIndex)` in the view
  model omits `isDefault`, and that parameter has no default. New sections are
  taken as not default.

## Model

| member | source | states |
|---|---|---|
| Entities.NewSection | app/src/main/java/com/org/shoppinglist/data/Section.kt:8-16 | a section built by the constructor is collapsed: `isExpanded` starts false |
| Entities.SectionEqualsIgnoresExpansion | app/src/main/java/com/org/shoppinglist/data/Section.kt:8-16 | Kotlin equality on sections is plain equality once `isExpanded` is forgotten, because it lies outside the constructor |
| Entities.CopyWithName | app/src/main/java/com/org/shoppinglist/ui/ShoppingViewModel.kt:37 | `copy(name = …)` equals the section with only its name changed, and comes back collapsed |
| Entities.NewItemDefaults | app/src/main/java/com/org/shoppinglist/data/ShoppingItem.kt:18-30 | a new item from a name and a section is unstored (id 0), of quantity 1, unchecked, not ad hoc, planned, at index 0, with no image and no link |
| Entities.NewSimpleItemDefaults | app/src/main/java/com/org/shoppinglist/data/ImportExportData.kt:4-10 | a `SimpleItem` built without the optional arguments has quantity 1 and no image or link |
| Tables.EmptyIsConsistent | app/src/main/java/com/org/shoppinglist/data/ShoppingItem.kt:8-17 | a new database satisfies the store invariant: distinct keys, no key 0, keys within their counters, every item's section present |
| Tables.RowIdBounds | app/src/main/java/com/org/shoppinglist/data/ShoppingItem.kt:19-20 | the key chosen for an inserted row is never 0 and never above the raised counter |
| Tables.InsertSectionEffect | app/src/main/java/com/org/shoppinglist/data/ShoppingDao.kt:10-11 | the section is stored under its own key, or the next AUTOINCREMENT key when that is 0, with no expansion flag; other sections stay; replacing an existing key cascades to that section's items and touches no other item |
| Tables.UpdateSection | app/src/main/java/com/org/shoppinglist/data/ShoppingDao.kt:13-14 | only the row with the section's key takes the new columns; items and counters are unchanged |
| Tables.DeleteSection | app/src/main/java/com/org/shoppinglist/data/ShoppingDao.kt:16-17 | exactly the sections with that key disappear, and through the cascade exactly the items pointing at it |
| Tables.DeleteAllSections | app/src/main/java/com/org/shoppinglist/data/ShoppingDao.kt:28-29 | both tables end up empty (the cascade clears the items); the counters stay |
| Tables.GetAllSections | app/src/main/java/com/org/shoppinglist/data/ShoppingDao.kt:22-23 | the result is sorted by `orderIndex` ascending and is a permutation of the section table |
| Tables.GetAllSectionsWithItems | app/src/main/java/com/org/shoppinglist/data/ShoppingDao.kt:19-20 | one group per section in that order, each holding exactly the items whose `sectionId` is the section's key |
| Tables.FirstDefault | app/src/main/java/com/org/shoppinglist/data/ShoppingDao.kt:25-26 | the section found is a default one from the table; none is found exactly when no section is default |
| Tables.GetDefaultSectionId | app/src/main/java/com/org/shoppinglist/data/ShoppingRepository.kt:28 | the id of a default section when one exists, none exactly when no section is default |
| Tables.GetSectionWithItems | app/src/main/java/com/org/shoppinglist/data/ShoppingDao.kt:51-53 | none exactly when the key is absent; otherwise that section with exactly its items |
| Tables.InsertItemEffect | app/src/main/java/com/org/shoppinglist/data/ShoppingDao.kt:32-33 | with an existing section the item is stored under its key or a fresh one, and every other row stays; with a missing section nothing changes |
| Tables.UpdateItem | app/src/main/java/com/org/shoppinglist/data/ShoppingDao.kt:35-36 | only the row with the item's key changes; a foreign-key failure, reported only when a row matches, changes nothing |
| Tables.DeleteItem | app/src/main/java/com/org/shoppinglist/data/ShoppingDao.kt:38-39 | exactly the items with that key disappear; sections stay |
| Tables.DeleteItemsBySectionId | app/src/main/java/com/org/shoppinglist/data/ShoppingDao.kt:41-42 | exactly that section's items disappear and every other item stays |
| Tables.DeleteAllItems | app/src/main/java/com/org/shoppinglist/data/ShoppingDao.kt:44-45 | the item table ends up empty and the sections stay |
| Tables.GetItemById | app/src/main/java/com/org/shoppinglist/data/ShoppingDao.kt:47-48 | the stored item with that key, or none exactly when there is no such key |
| Tables.ResetAllItemCheckedStates | app/src/main/java/com/org/shoppinglist/data/ShoppingDao.kt:56-57 | every item, in place, with only `isChecked` set to false; sections unchanged |
| Tables.ResetAllPlannedStates | app/src/main/java/com/org/shoppinglist/data/ShoppingDao.kt:59-60 | every non-ad-hoc item loses its planned flag; ad-hoc items are unchanged |
| Tables.DeleteAdHocItems | app/src/main/java/com/org/shoppinglist/data/ShoppingDao.kt:62-63 | exactly the ad-hoc items disappear; every other item stays |
| Tables.MoveItemsToSection | app/src/main/java/com/org/shoppinglist/data/ShoppingRepository.kt:30 | every item of the first section points at the second and no other item changes; a move to a missing section fails and changes nothing |
| TableLaws.InsertSectionKeepsConsistent | app/src/main/java/com/org/shoppinglist/data/ShoppingDao.kt:10-11 | inserting or replacing a section keeps the store invariant |
| TableLaws.UpdateSectionKeepsConsistent | app/src/main/java/com/org/shoppinglist/data/ShoppingDao.kt:13-14 | updating a section keeps the store invariant |
| TableLaws.DeleteSectionKeepsConsistent | app/src/main/java/com/org/shoppinglist/data/ShoppingItem.kt:14 | deleting a section keeps the invariant: the cascade leaves no item pointing at it |
| TableLaws.InsertItemKeepsConsistent | app/src/main/java/com/org/shoppinglist/data/ShoppingDao.kt:32-33 | inserting an item keeps distinct keys and the foreign key |
| TableLaws.UpdateItemKeepsConsistent | app/src/main/java/com/org/shoppinglist/data/ShoppingDao.kt:35-36 | updating an item keeps the invariant |
| TableLaws.DeleteItemKeepsConsistent | app/src/main/java/com/org/shoppinglist/data/ShoppingDao.kt:38-39 | deleting an item keeps the invariant |
| TableLaws.DeleteItemsBySectionIdKeepsConsistent | app/src/main/java/com/org/shoppinglist/data/ShoppingDao.kt:41-42 | deleting a section's items keeps the invariant |
| TableLaws.ResetAllItemCheckedStatesKeepsConsistent | app/src/main/java/com/org/shoppinglist/data/ShoppingDao.kt:56-57 | the checked reset keeps the invariant |
| TableLaws.ResetAllPlannedStatesKeepsConsistent | app/src/main/java/com/org/shoppinglist/data/ShoppingDao.kt:59-60 | the planned reset keeps the invariant |
| TableLaws.DeleteAdHocItemsKeepsConsistent | app/src/main/java/com/org/shoppinglist/data/ShoppingDao.kt:62-63 | the ad-hoc purge keeps the invariant |
| TableLaws.MoveItemsToSectionKeepsConsistent | app/src/main/java/com/org/shoppinglist/data/ShoppingRepository.kt:30 | moving items keeps the foreign key |
| TableLaws.InsertFreshSection | app/src/main/java/com/org/shoppinglist/data/Section.kt:9-10 | on a table whose keys are within the counter, an unstored section is appended under key counter+1 and the counter moves up by one |
| TableLaws.InsertFreshItem | app/src/main/java/com/org/shoppinglist/data/ShoppingItem.kt:19-20 | an unstored item with an existing section is appended under key counter+1 |
| TableLaws.ResetCheckedUnchecksEverything | app/src/main/java/com/org/shoppinglist/data/ShoppingDao.kt:56-57 | afterwards no item is checked, every old item is there unchecked, the sections are unchanged and the checked count is 0 |
| TableLaws.ResetCheckedIdempotent | app/src/main/java/com/org/shoppinglist/data/ShoppingDao.kt:56-57 | a second checked reset changes nothing |
| TableLaws.ResetPlannedSparesAdHoc | app/src/main/java/com/org/shoppinglist/data/ShoppingDao.kt:59-60 | afterwards no non-ad-hoc item is planned, and the ad-hoc items are exactly the old ones |
| TableLaws.CountsAddUpToPlanned | app/src/main/java/com/org/shoppinglist/data/ShoppingDao.kt:66-70 | the unchecked count plus the checked count is the number of planned items |
| TableLaws.UnplannedNeverCounted | app/src/main/java/com/org/shoppinglist/data/ShoppingDao.kt:66-70 | unplanned items count in neither total |
| TableLaws.GetAllSectionsReturnsEverySection | app/src/main/java/com/org/shoppinglist/data/ShoppingDao.kt:22-23 | on consistent tables the listing holds exactly the stored sections, once each, sorted, all collapsed |
| TableLaws.GroupsCoverEverySection | app/src/main/java/com/org/shoppinglist/data/SectionWithItems.kt:6-13 | every section has a group, and its items are empty exactly when no item points at it |
| TableLaws.EachItemInExactlyOneGroup | app/src/main/java/com/org/shoppinglist/data/SectionWithItems.kt:8-12 | every stored item appears in exactly one group, its own section's |
| TableLaws.ItemInAtMostOneGroup | app/src/main/java/com/org/shoppinglist/data/SectionWithItems.kt:8-12 | because section keys are distinct, no item, stored or not, can be listed in two groups |
| Dao.ShoppingDao.constructor | app/src/main/java/com/org/shoppinglist/data/ShoppingDao.kt:6-7 | a new store is empty and consistent |
| Dao.ShoppingDao.Store | app/src/main/java/com/org/shoppinglist/data/ShoppingDao.kt:6-7 | one statement's result becomes the whole new state of the tables and counters |
| Dao.ShoppingDao.InsertSection | app/src/main/java/com/org/shoppinglist/data/ShoppingDao.kt:10-11 | the tables become `Tables.InsertSection` of the old ones and the returned row id is the key used |
| Dao.ShoppingDao.UpdateSection | app/src/main/java/com/org/shoppinglist/data/ShoppingDao.kt:13-14 | the tables become `Tables.UpdateSection` of the old ones, invariant kept |
| Dao.ShoppingDao.DeleteSection | app/src/main/java/com/org/shoppinglist/data/ShoppingDao.kt:16-17 | the tables become `Tables.DeleteSection` of the old ones, invariant kept |
| Dao.ShoppingDao.GetAllSections | app/src/main/java/com/org/shoppinglist/data/ShoppingDao.kt:22-23 | the ordered listing of the current tables |
| Dao.ShoppingDao.GetDefaultSection | app/src/main/java/com/org/shoppinglist/data/ShoppingDao.kt:25-26 | the first default section of the current tables, if any |
| Dao.ShoppingDao.DeleteAllSections | app/src/main/java/com/org/shoppinglist/data/ShoppingDao.kt:28-29 | the tables become `Tables.DeleteAllSections` of the old ones |
| Dao.ShoppingDao.InsertItem | app/src/main/java/com/org/shoppinglist/data/ShoppingDao.kt:32-33 | the tables become `Tables.InsertItem` of the old ones; the result is the row id or the foreign-key failure |
| Dao.ShoppingDao.UpdateItem | app/src/main/java/com/org/shoppinglist/data/ShoppingDao.kt:35-36 | the tables become `Tables.UpdateItem` of the old ones; the outcome reports a foreign-key failure |
| Dao.ShoppingDao.DeleteItem | app/src/main/java/com/org/shoppinglist/data/ShoppingDao.kt:38-39 | the tables become `Tables.DeleteItem` of the old ones |
| Dao.ShoppingDao.DeleteItemsBySectionId | app/src/main/java/com/org/shoppinglist/data/ShoppingDao.kt:41-42 | the tables become `Tables.DeleteItemsBySectionId` of the old ones |
| Dao.ShoppingDao.DeleteAllItems | app/src/main/java/com/org/shoppinglist/data/ShoppingDao.kt:44-45 | the tables become `Tables.DeleteAllItems` of the old ones |
| Dao.ShoppingDao.GetItemById | app/src/main/java/com/org/shoppinglist/data/ShoppingDao.kt:47-48 | the item with that key in the current tables, if any |
| Dao.ShoppingDao.GetSectionWithItems | app/src/main/java/com/org/shoppinglist/data/ShoppingDao.kt:51-53 | the section with that key and its items, if any |
| Dao.ShoppingDao.ResetAllItemCheckedStates | app/src/main/java/com/org/shoppinglist/data/ShoppingDao.kt:56-57 | the tables become `Tables.ResetAllItemCheckedStates` of the old ones |
| Dao.ShoppingDao.ResetAllPlannedStates | app/src/main/java/com/org/shoppinglist/data/ShoppingDao.kt:59-60 | the tables become `Tables.ResetAllPlannedStates` of the old ones |
| Dao.ShoppingDao.DeleteAdHocItems | app/src/main/java/com/org/shoppinglist/data/ShoppingDao.kt:62-63 | the tables become `Tables.DeleteAdHocItems` of the old ones |
| Dao.ShoppingDao.GetDefaultSectionId | app/src/main/java/com/org/shoppinglist/data/ShoppingRepository.kt:28 | the id of the first default section of the current tables, if any |
| Dao.ShoppingDao.MoveItemsToSection | app/src/main/java/com/org/shoppinglist/data/ShoppingRepository.kt:30 | the tables become `Tables.MoveItemsToSection` of the old ones; the outcome reports a foreign-key failure |
| Repository.DeleteSectionMovesItemsToDefault | app/src/main/java/com/org/shoppinglist/data/ShoppingRepository.kt:27-33 | with a default section other than the deleted one, the section goes, no item is lost, its items now point at the default section, every other item is unchanged, and no item points at the deleted key |
| Repository.DeleteSectionCascadesOtherwise | app/src/main/java/com/org/shoppinglist/data/ShoppingRepository.kt:27-33 | with no default section, or when the default one is deleted, the section goes, its items go with it, and all other items stay |
| Repository.DeleteSectionReassigningKeepsConsistent | app/src/main/java/com/org/shoppinglist/data/ShoppingRepository.kt:27-33 | reassigning then deleting keeps the store invariant |
| Repository.ShoppingRepository.InsertSection | app/src/main/java/com/org/shoppinglist/data/ShoppingRepository.kt:19-21 | has exactly the DAO insert's effect and result |
| Repository.ShoppingRepository.UpdateSection | app/src/main/java/com/org/shoppinglist/data/ShoppingRepository.kt:23-25 | has exactly the DAO update's effect |
| Repository.ShoppingRepository.DeleteSection | app/src/main/java/com/org/shoppinglist/data/ShoppingRepository.kt:27-33 | looks up the default section, moves the items when there is one, then deletes: the tables become `Repository.DeleteSectionReassigning` of the old ones |
| Repository.ShoppingRepository.GetAllSections | app/src/main/java/com/org/shoppinglist/data/ShoppingRepository.kt:35-37 | the DAO's ordered section listing |
| Repository.ShoppingRepository.InsertItem | app/src/main/java/com/org/shoppinglist/data/ShoppingRepository.kt:39-41 | has exactly the DAO insert's effect and result |
| Repository.ShoppingRepository.UpdateItem | app/src/main/java/com/org/shoppinglist/data/ShoppingRepository.kt:43-45 | has exactly the DAO update's effect and outcome |
| Repository.ShoppingRepository.DeleteItem | app/src/main/java/com/org/shoppinglist/data/ShoppingRepository.kt:47-49 | has exactly the DAO delete's effect |
| Repository.ShoppingRepository.ResetAllItemCheckedStates | app/src/main/java/com/org/shoppinglist/data/ShoppingRepository.kt:51-53 | has exactly the DAO checked reset's effect |
| Repository.ShoppingRepository.ResetAllPlannedStates | app/src/main/java/com/org/shoppinglist/data/ShoppingRepository.kt:55-57 | has exactly the DAO planned reset's effect |
| Repository.ShoppingRepository.DeleteAdHocItems | app/src/main/java/com/org/shoppinglist/data/ShoppingRepository.kt:63-65 | has exactly the DAO ad-hoc purge's effect |
| Repository.ShoppingRepository.DeleteAllSectionsAndItems | app/src/main/java/com/org/shoppinglist/data/ShoppingRepository.kt:68-71 | the items are deleted, then the sections, leaving both tables empty |
| Listings.ItemRows | app/src/main/java/com/org/shoppinglist/data/ShoppingDatabase.kt:65-67 | the k-th row of a section's item block has the k-th name, the section's key, key counter+1+k and `orderIndex` k |
| Listings.SectionRows | app/src/main/java/com/org/shoppinglist/data/ShoppingDatabase.kt:54-57 | the k-th appended section is non-default and collapsed, with the k-th name, key counter+1+k and `orderIndex` first+k |
| Listings.ListingItemRows | app/src/main/java/com/org/shoppinglist/data/ShoppingDatabase.kt:58-67 | the item rows of all listings together, as many as the names |
| Listings.AppendItemsKeepsConsistent | app/src/main/java/com/org/shoppinglist/data/ShoppingDatabase.kt:65-67 | inserting a section's items one by one keeps the store invariant |
| Listings.AppendListingsKeepsConsistent | app/src/main/java/com/org/shoppinglist/data/ShoppingDatabase.kt:54-161 | inserting sections, each followed by its items, keeps the store invariant |
| Listings.AppendItemsAppendsRows | app/src/main/java/com/org/shoppinglist/data/ShoppingDatabase.kt:65-67 | inserting names into an existing section appends exactly `ItemRows` and raises the item counter by their number |
| Listings.InsertListingAppendsRows | app/src/main/java/com/org/shoppinglist/data/ShoppingDatabase.kt:57-67 | one section insert followed by its items appends one section row and its item block |
| Listings.AppendListingsAppendsRows | app/src/main/java/com/org/shoppinglist/data/ShoppingDatabase.kt:54-161 | inserting a sequence of listings appends `SectionRows` to the sections and `ListingItemRows` to the items, whatever the tables held before |
| Database.SeedingEmptyDatabase | app/src/main/java/com/org/shoppinglist/data/ShoppingDatabase.kt:49-162 | seeding an empty database gives the default section (key 1, index 0), then the catalogue's sections (keys 2.., indices 1..) and their items (indices 0..n-1 per section); the result is consistent and exactly one section, key 1, is default |
| Database.CatalogueSize | app/src/main/java/com/org/shoppinglist/data/ShoppingDatabase.kt:56-161 | the seed catalogue has ten sections and 172 items |
| Database.PopulateDatabase | app/src/main/java/com/org/shoppinglist/data/ShoppingDatabase.kt:49-162 | inserts the default section, then each catalogue section followed by its items: the tables become `Database.Seeded` of the old ones |
| Database.InsertListings | app/src/main/java/com/org/shoppinglist/data/ShoppingDatabase.kt:54-161 | the loop over sections with `sectionOrderIndex++` leaves the tables at `Listings.AppendListings` of the old ones |
| Database.InsertListingRows | app/src/main/java/com/org/shoppinglist/data/ShoppingDatabase.kt:57-67 | one block of the seeding code, a section insert and then its items under the returned id, leaves the tables at `Listings.InsertListing` of the old ones |
| Database.InsertItems | app/src/main/java/com/org/shoppinglist/data/ShoppingDatabase.kt:65-67 | `forEachIndexed` inserts one item per name with `orderIndex` its position |
| ViewModel.ShoppingViewModel.constructor | app/src/main/java/com/org/shoppinglist/ui/ShoppingViewModel.kt:14-15 | the mode starts as planning |
| ViewModel.ShoppingViewModel.ToggleShoppingMode | app/src/main/java/com/org/shoppinglist/ui/ShoppingViewModel.kt:17-19 | the mode becomes the opposite of what it was |
| ViewModel.ShoppingViewModel.SetShoppingMode | app/src/main/java/com/org/shoppinglist/ui/ShoppingViewModel.kt:21-23 | the mode becomes the given value |
| ViewModel.NextSectionOrderIndex | app/src/main/java/com/org/shoppinglist/ui/ShoppingViewModel.kt:29 | 0 for no sections; otherwise one above some existing index and above every existing index |
| ViewModel.NextItemOrderIndex | app/src/main/java/com/org/shoppinglist/ui/ShoppingViewModel.kt:53 | 0 for no items; otherwise one above some item's index and above every item's index |
| ViewModel.ObservedSectionItems | app/src/main/java/com/org/shoppinglist/ui/ShoppingViewModel.kt:51-52 | no items when the observed list is unset or lacks the section; when the section has a group, exactly the items of its first group; any items found belong to a group for that section |
| ViewModel.AddedItemIndexAboveSection | app/src/main/java/com/org/shoppinglist/ui/ShoppingViewModel.kt:49-53 | the index `addItem` picks is above every item of the target section's first observed group, and 0 when that group is empty or the list is unset |
| ViewModel.AddedSectionSortsLast | app/src/main/java/com/org/shoppinglist/ui/ShoppingViewModel.kt:26-33 | on consistent tables the added section gets the next key and the next index, is not default, and comes last in the section listing |
| ViewModel.ShoppingViewModel.AddSection | app/src/main/java/com/org/shoppinglist/ui/ShoppingViewModel.kt:26-33 | reads the sections, then inserts a non-default section named `name` with `NextSectionOrderIndex` of them |
| ViewModel.ShoppingViewModel.UpdateSection | app/src/main/java/com/org/shoppinglist/ui/ShoppingViewModel.kt:35-40 | the store applies `UpdateSection` to the renamed copy |
| ViewModel.ShoppingViewModel.DeleteSection | app/src/main/java/com/org/shoppinglist/ui/ShoppingViewModel.kt:42-46 | the repository's reassigning delete |
| ViewModel.ShoppingViewModel.AddItem | app/src/main/java/com/org/shoppinglist/ui/ShoppingViewModel.kt:49-63 | inserts a default item with the name, section and ad-hoc flag, at one above the largest index of the observed section's items, or 0 |
| ViewModel.ShoppingViewModel.UpdateItem | app/src/main/java/com/org/shoppinglist/ui/ShoppingViewModel.kt:66-71 | stores the item with only its name changed |
| ViewModel.ShoppingViewModel.DeleteItem | app/src/main/java/com/org/shoppinglist/ui/ShoppingViewModel.kt:73-77 | the repository's item delete |
| ViewModel.ShoppingViewModel.ToggleItemChecked | app/src/main/java/com/org/shoppinglist/ui/ShoppingViewModel.kt:79-84 | stores the item with only `isChecked` changed |
| ViewModel.ShoppingViewModel.MoveItemToSection | app/src/main/java/com/org/shoppinglist/ui/ShoppingViewModel.kt:86-93 | stores the item with only `sectionId` changed |
| ViewModel.ShoppingViewModel.ResetAllItemCheckedStates | app/src/main/java/com/org/shoppinglist/ui/ShoppingViewModel.kt:95-99 | the repository's checked reset |
| ViewModel.FullShoppingResetClearsTrip | app/src/main/java/com/org/shoppinglist/ui/ShoppingViewModel.kt:101-107 | after the full reset no item is checked or ad hoc, every planned-list item is still there unchecked, nothing else appeared, sections are unchanged and the checked count is 0 |
| ViewModel.FullShoppingResetKeepsConsistent | app/src/main/java/com/org/shoppinglist/ui/ShoppingViewModel.kt:101-107 | the full reset keeps the store invariant |
| ViewModel.ShoppingViewModel.PerformFullShoppingReset | app/src/main/java/com/org/shoppinglist/ui/ShoppingViewModel.kt:101-107 | unchecks everything, deletes ad-hoc items and sets the mode to planning |
| ViewModel.ItemNames | app/src/main/java/com/org/shoppinglist/ui/ShoppingViewModel.kt:120-127 | the k-th name is the k-th imported item's name |
| ViewModel.ImportListings | app/src/main/java/com/org/shoppinglist/ui/ShoppingViewModel.kt:115-130 | one listing per imported section, in order |
| ViewModel.ImportedItemsAreFresh | app/src/main/java/com/org/shoppinglist/ui/ShoppingViewModel.kt:121-127 | every imported item is unchecked, planned, not ad hoc, of quantity 1, without image or link, and in a section of the same import |
| ViewModel.ImportAppendsRows | app/src/main/java/com/org/shoppinglist/ui/ShoppingViewModel.kt:109-133 | on consistent tables an import resets the trip, then appends one non-default section per imported section (indices 0..n-1) with its items (indices 0..m-1), and leaves the tables consistent |
| ViewModel.ShoppingViewModel.ImportShoppingListData | app/src/main/java/com/org/shoppinglist/ui/ShoppingViewModel.kt:109-133 | the tables become `ViewModel.Imported` of the old ones and the mode is planning |
| ViewModel.ShoppingViewModel.ImportSections | app/src/main/java/com/org/shoppinglist/ui/ShoppingViewModel.kt:114-130 | the loop with `sectionOrder++` appends the listings from index 0 |
| ViewModel.ShoppingViewModel.ImportSection | app/src/main/java/com/org/shoppinglist/ui/ShoppingViewModel.kt:116-129 | one section insert, then one item insert per imported item with `itemOrder++` |
| ViewModel.AvailableSections | app/src/main/java/com/org/shoppinglist/ui/ShoppingViewModel.kt:135-139 | the k-th offered section is the k-th group's section |
| ViewModel.AvailableSectionsAreAllSections | app/src/main/java/com/org/shoppinglist/ui/ShoppingViewModel.kt:135-139 | the offered sections are exactly the ordered section listing |
| KotlinText.Trim | app/src/main/java/com/org/shoppinglist/MainActivity.kt:280 | the result is a slice of the text, with only whitespace cut off either end and no whitespace left at either end |
| KotlinText.TrimIdempotent | app/src/main/java/com/org/shoppinglist/MainActivity.kt:280 | trimming twice is trimming once |
| KotlinText.TrimEmptyIffBlank | app/src/main/java/com/org/shoppinglist/MainActivity.kt:475-477 | the trimmed text is empty exactly when the text is blank |
| MainActivityRules.EnteredName | app/src/main/java/com/org/shoppinglist/MainActivity.kt:279-284 | no name exactly when the text is blank; otherwise exactly the trimmed text, a non-empty slice of it |
| MainActivityRules.SubmitSection | app/src/main/java/com/org/shoppinglist/MainActivity.kt:279-284 | blank text changes nothing; otherwise the trimmed name is added as a section |
| MainActivityRules.SubmitItem | app/src/main/java/com/org/shoppinglist/MainActivity.kt:329-334 | blank text changes nothing; otherwise the trimmed name is added as an item |
| MainActivityRules.NormalizeLink | app/src/main/java/com/org/shoppinglist/MainActivity.kt:475-483 | no link exactly when the text is missing or blank; any link starts with `http://` or `https://` and is trimmed |
| MainActivityRules.NormalizeLinkCases | app/src/main/java/com/org/shoppinglist/MainActivity.kt:478-482 | a text that names a web scheme is only trimmed; any other gets `https://` in front of its trimmed form |
| MainActivityRules.NormalizeLinkIdempotent | app/src/main/java/com/org/shoppinglist/MainActivity.kt:475-483 | normalising a normalised link changes nothing |
| MainActivityRules.SaveLinkDecision | app/src/main/java/com/org/shoppinglist/MainActivity.kt:426-434 | blank saves no link; a present link whose normalised form is not a web URL is refused; otherwise exactly `NormalizeLink` of the text is saved, a web URL with a scheme |
| MainActivityRules.OpenLink | app/src/main/java/com/org/shoppinglist/MainActivity.kt:462-473 | missing exactly when blank; a link that is not a web URL is refused; only a valid normalised link is opened |
| MainActivityRules.MoveTargets | app/src/main/java/com/org/shoppinglist/MainActivity.kt:496-506 | nothing when the item's section is unknown; otherwise exactly the sections that are neither the item's own nor default |
| MainActivityRules.MoveTargetsKeepOrder | app/src/main/java/com/org/shoppinglist/MainActivity.kt:496-506 | the targets keep the section list order: those from an earlier part of the list come before those from a later part |
| MainActivityRules.ExportData | app/src/main/java/com/org/shoppinglist/MainActivity.kt:537-550 | one record per group in order, with the section name and, per item, name, planned flag, quantity, image and link |
| MainActivityRules.ExportList | app/src/main/java/com/org/shoppinglist/MainActivity.kt:528-535 | nothing exactly when the list is unset or empty |
| MainActivityRules.ExportThenImportKeepsNames | app/src/main/java/com/org/shoppinglist/MainActivity.kt:537-550 | importing an export gives back the section names and, per section, the item names in order |
| MainActivityRules.ExactlyOneResetVisible | app/src/main/java/com/org/shoppinglist/MainActivity.kt:115-121 | exactly one reset is on the menu: the checked reset in shopping mode, the full reset otherwise |
| MainActivityRules.ConfirmReset | app/src/main/java/com/org/shoppinglist/MainActivity.kt:150-170 | confirming the checked reset unchecks every item and keeps the mode; confirming the full reset runs the full reset |
| ItemAdapter.WrapInt | app/src/main/java/com/org/shoppinglist/ui/adapters/ItemAdapter.kt:142 | the value is in the 32-bit range, equal to the input there, and congruent to it mod 2^32 |
| ItemAdapter.IncreaseRequest | app/src/main/java/com/org/shoppinglist/ui/adapters/ItemAdapter.kt:139-144 | requests quantity + 1, wrapping to `Int.MIN_VALUE` at `Int.MAX_VALUE` |
| ItemAdapter.DecreaseRequest | app/src/main/java/com/org/shoppinglist/ui/adapters/ItemAdapter.kt:146-153 | a request exists exactly when the quantity is above 1, and it is below the quantity but at least 1 |
| ItemAdapter.StepsKeepQuantityPositive | app/src/main/java/com/org/shoppinglist/ui/adapters/ItemAdapter.kt:139-153 | from a quantity of at least 1 any run of stepper clicks stays between 1 and `Int.MAX_VALUE`, unless its increases reach past it |
| ItemAdapter.RowView | app/src/main/java/com/org/shoppinglist/ui/adapters/ItemAdapter.kt:156-189 | the row shows the item's name; the checkbox shows `isChecked` in shopping mode and `isPlanned` in planning mode; strike-through only for checked items in shopping mode; badge for quantity above 1 in shopping mode; editor and edit/delete/move/details buttons in planning mode; link and image only in shopping mode when not blank |
| ItemAdapter.RequestMatchesCheckbox | app/src/main/java/com/org/shoppinglist/ui/adapters/ItemAdapter.kt:89-100 | once a checkbox request is stored, the row redrawn in the same mode shows the new tick, and only the flag the mode shows has changed |
| ItemAdapter.ItemAdapter.UpdateShoppingMode | app/src/main/java/com/org/shoppinglist/ui/adapters/ItemAdapter.kt:33-39 | the mode is stored, and a redraw is requested exactly when it changed |
| ItemAdapter.ItemViewHolder.OnCheckedChanged | app/src/main/java/com/org/shoppinglist/ui/adapters/ItemAdapter.kt:89-101 | ignored while binding; otherwise "checked" in shopping mode and "planned" in planning mode, with the new value |
| ItemAdapter.ItemViewHolder.Bind | app/src/main/java/com/org/shoppinglist/ui/adapters/ItemAdapter.kt:80-87 | draws the row for the adapter's mode and leaves the checkbox at the drawn tick; the checkbox change made while drawing sends no request |
| ItemAdapter.ItemViewHolder.SetCheckbox | app/src/main/java/com/org/shoppinglist/ui/adapters/ItemAdapter.kt:89-101 | setting the tick fires the listener only when it changes; a request is sent exactly when it changes outside a bind, for the flag the mode shows |
| ItemAdapter.ItemViewHolder.RebindShoppingMode | app/src/main/java/com/org/shoppinglist/ui/adapters/ItemAdapter.kt:47-57 | the mode-change redraw raises no guard: when the new mode's flag differs from the tick on screen it sends a request, and that request stores the item unchanged |
| ItemAdapter.RedrawRequestRestoresItem | app/src/main/java/com/org/shoppinglist/ui/adapters/ItemAdapter.kt:156-189 | the request a redraw's checkbox change sends asks to store the item exactly as it is |
| ItemAdapter.ModeSwitchRequestsOnlyOnDifferentFlags | app/src/main/java/com/org/shoppinglist/ui/adapters/ItemAdapter.kt:33-57 | after a mode switch the redraw changes the tick, and so sends a request, exactly when the item's checked and planned flags differ |
| ItemAdapter.SameItemContentsSameRow | app/src/main/java/com/org/shoppinglist/ui/adapters/ItemAdapter.kt:223-231 | equal contents mean the same item and the same row in either mode |
| SectionAdapter.ShoppingProgress | app/src/main/java/com/org/shoppinglist/ui/adapters/SectionAdapter.kt:173-177 | checked is the number of ticked items (`Count` of `isChecked`), 0 exactly when none is ticked; total is the number of items; complete exactly when there is at least one item and all are ticked |
| SectionAdapter.CardView | app/src/main/java/com/org/shoppinglist/ui/adapters/SectionAdapter.kt:138-194 | title is the name; the item list shows exactly when expanded; edit and delete only in planning mode for a non-default section; add-item always; in shopping mode the progress is `ShoppingProgress` of the items, in planning mode the item count; each row drawn in the card's mode |
| SectionAdapter.TickRaisesProgress | app/src/main/java/com/org/shoppinglist/ui/adapters/SectionAdapter.kt:173-177 | ticking one unticked item raises the checked count by exactly one and keeps the total |
| SectionAdapter.ProgressOfParts | app/src/main/java/com/org/shoppinglist/ui/adapters/SectionAdapter.kt:173-174 | the checked counts and totals of two parts of an item list add up to those of the whole |
| Sequences.CountConcat | app/src/main/java/com/org/shoppinglist/ui/adapters/SectionAdapter.kt:173 | `count { }` is additive over concatenation |
| SectionAdapter.ExpandRequest | app/src/main/java/com/org/shoppinglist/ui/adapters/SectionAdapter.kt:107-120 | the click asks for the other expansion state |
| SectionAdapter.ExpandRequestFlipsList | app/src/main/java/com/org/shoppinglist/ui/adapters/SectionAdapter.kt:107-143 | once the new state is in place the item list's visibility flips, and the next click asks for the old state |
| SectionAdapter.SectionAdapter.UpdateShoppingMode | app/src/main/java/com/org/shoppinglist/ui/adapters/SectionAdapter.kt:65-71 | the mode is stored, and a redraw is requested exactly when it changed |
| SectionAdapter.SectionViewHolder.constructor | app/src/main/java/com/org/shoppinglist/ui/adapters/SectionAdapter.kt:91-104 | each card's item adapter is created with the card adapter's mode |
| SectionAdapter.SectionViewHolder.BindShoppingMode | app/src/main/java/com/org/shoppinglist/ui/adapters/SectionAdapter.kt:158-194 | the item adapter gets the card adapter's mode, and the card is drawn in it |
| SectionAdapter.RenamedSectionLooksUnchanged | app/src/main/java/com/org/shoppinglist/ui/adapters/SectionAdapter.kt:202-211 | a renamed section passes the contents check as written although its title differs |
| SectionAdapter.SameSectionContentsSameCard | app/src/main/java/com/org/shoppinglist/ui/adapters/SectionAdapter.kt:202-211 | corrected contents equality implies the same card in either mode, and implies the check as written |

## Left out

- Android plumbing is not modelled: dialogs, `RecyclerView` binding, view lookup, Toasts, menu inflation, intents, Coil image loading, colours and string resources. Only the decisions they display are modelled.
- Coroutines, `viewModelScope.launch`, LiveData observation and the database singleton are not modelled. Every operation is one sequential step. In the import, the reset at `ShoppingViewModel.kt:111` runs in its own coroutine; it is taken to finish before the inserts. Imported rows are unchecked and not ad hoc, so the reset would not touch them either way.
- JSON encoding and decoding with Gson is not modelled. It is a foreign library, and it does not run Kotlin constructor defaults.
- `Patterns.WEB_URL` is a platform regular expression. It is the parameter `isWebUrl`.
- File and content I/O is not modelled: the cache file, `FileProvider`, content streams, URI permissions and the timestamped file name.
- `resetAllItemQuantities` is left out. The repository calls a DAO method that `ShoppingDao` does not declare, and neither its meaning nor a view-model caller is in the code.
- `get*ItemsCount` are not modelled as LiveData. They are the functions `Tables.UncheckedItemsCount` and `Tables.CheckedItemsCount` over the current tables, and the repository reads them as `Unchecked()` and `Checked()`.
- View-model members that MainActivity calls are not in `ShoppingViewModel.kt`: `displayedList`, `updateSectionExpansionState`, `updateItemImage`, `updateItemDetails`, `updateSectionName`, `updateItemName`, `updateItemQuantity`, `setItemPlanned`, `getAllSectionsNonLiveData`. They are not modelled. So the planned-checkbox request and the stepper requests end at the request. The export takes the displayed list as given.
- The seeded names are kept as data. Only their number, order and the default flag take part in the proofs.
- ViewModel.ShoppingViewModel.ToggleShoppingMode: the mode is a `bool`, so the elvis fallback for an unset value is not modelled. The `MutableLiveData` starts at false and is only ever assigned non-null values.
- ViewModel.NextSectionOrderIndex: does not model 32-bit wrap-around of `max + 1`, because no section list reaches `Int.MAX_VALUE` through these operations. The same holds for ViewModel.NextItemOrderIndex and the import counters.
- ItemAdapter.StepsKeepQuantityPositive: the bound holds only while the increases stay within `Int.MAX_VALUE`. One increase there wraps to a negative quantity (`ItemAdapter.IncreaseAtMaxWraps`).
- Tables.GetAllSections: SQL leaves rows with equal `orderIndex` in an unspecified order. The model fixes table order among them, so any order the proofs rely on beyond "sorted and a permutation" is the model's choice.
- Database.PopulateDatabase: the source is straight-line code with one insert block per section. The model runs the same inserts, in the same order, as a loop over the catalogue.

## Findings

| source | as written | input that shows it | evidently intended | confidence | as-written member | corrected member |
|---|---|---|---|---|---|---|
| app/src/main/java/com/org/shoppinglist/ui/adapters/SectionAdapter.kt:208-210 | `areContentsTheSame` compares only `isExpanded` and the item lists, not the section's name or default flag | the old group is section 1 "Fruit" with no items; the new group is the same section renamed "Vegetables"; the check says "same", so the card keeps its old title | contents are the same only when everything the card draws from is equal: name, default flag, expansion and items | medium, not executed | SectionAdapter.RenamedSectionLooksUnchanged | SectionAdapter.SameSectionContentsSameCard |
