/** The records of the data package: a `Section` row, a `ShoppingItem` row,
    the `SectionWithItems` grouping and the two import/export records. */
module Entities {
  import opened Wrappers

  /** A Kotlin `Long` primary key; 0 means "not yet stored". */
  type Id = int

  /** A section row. `isExpanded` is declared outside the Kotlin constructor and
      is not a column: Kotlin equality ignores it and `copy` resets it. */
  datatype Section = Section(id: Id, name: string, orderIndex: int, isDefault: bool, isExpanded: bool)

  /** The Kotlin constructor call `Section(id, name, orderIndex, isDefault)`;
      `isDefault` has no default value, `isExpanded` starts out false. */
  function NewSection(name: string, orderIndex: int, isDefault: bool, id: Id := 0): (s: Section)
    ensures !s.isExpanded
  {
    Section(id, name, orderIndex, isDefault, false)
  }

  /** Kotlin `==` on `Section`: structural over the four constructor fields only. */
  predicate SectionEquals(a: Section, b: Section) {
    a.id == b.id && a.name == b.name && a.orderIndex == b.orderIndex && a.isDefault == b.isDefault
  }

  /** Kotlin equality is ordinary equality once the expansion flag is forgotten. */
  lemma SectionEqualsIgnoresExpansion(a: Section, b: Section)
    ensures SectionEquals(a, b) <==> a.(isExpanded := false) == b.(isExpanded := false)
  {
  }

  /** `section.copy(name = newName)`: a fresh object built by the constructor,
      so the copy is collapsed whatever the original was. */
  function CopyWithName(s: Section, newName: string): (r: Section)
    ensures SectionEquals(r, s.(name := newName)) && !r.isExpanded
  {
    NewSection(newName, s.orderIndex, s.isDefault, s.id)
  }

  /** An item row; Kotlin equality is structural over all ten fields, which is
      Dafny's `==` on this datatype. */
  datatype ShoppingItem = ShoppingItem(
    id: Id,
    name: string,
    sectionId: Id,
    quantity: int,
    isChecked: bool,
    isAdHoc: bool,
    orderIndex: int,
    isPlanned: bool,
    imageUri: Option<string>,
    productLink: Option<string>)

  /** The Kotlin constructor of `ShoppingItem` with its default arguments. */
  function NewItem(
    name: string,
    sectionId: Id,
    id: Id := 0,
    quantity: int := 1,
    isChecked: bool := false,
    isAdHoc: bool := false,
    orderIndex: int := 0,
    isPlanned: bool := true,
    imageUri: Option<string> := None,
    productLink: Option<string> := None): ShoppingItem
  {
    ShoppingItem(id, name, sectionId, quantity, isChecked, isAdHoc, orderIndex, isPlanned, imageUri, productLink)
  }

  /** An item built from a name and a section alone is unstored, of quantity 1,
      unchecked, not ad hoc, first in order, planned, and has no image or link. */
  lemma NewItemDefaults(name: string, sectionId: Id)
    ensures var it := NewItem(name, sectionId);
      && it.id == 0 && it.name == name && it.sectionId == sectionId
      && it.quantity == 1 && !it.isChecked && !it.isAdHoc && it.orderIndex == 0
      && it.isPlanned && it.imageUri == None && it.productLink == None
  {
  }

  /** What the `Relation` query yields for one section. */
  datatype SectionWithItems = SectionWithItems(section: Section, items: seq<ShoppingItem>)

  /** Kotlin `==` on `SectionWithItems`: section equality (which ignores
      `isExpanded`) and list equality of the items. */
  predicate GroupEquals(a: SectionWithItems, b: SectionWithItems) {
    SectionEquals(a.section, b.section) && a.items == b.items
  }

  /** The exchange records of the JSON import/export format. */
  datatype SimpleItem = SimpleItem(
    name: string,
    isPlanned: bool,
    quantity: int,
    imageUri: Option<string>,
    productLink: Option<string>)

  datatype SimpleSection = SimpleSection(name: string, items: seq<SimpleItem>)

  /** The Kotlin constructor of `SimpleItem`: `name` and `isPlanned` are required. */
  function NewSimpleItem(
    name: string,
    isPlanned: bool,
    quantity: int := 1,
    imageUri: Option<string> := None,
    productLink: Option<string> := None): SimpleItem
  {
    SimpleItem(name, isPlanned, quantity, imageUri, productLink)
  }

  /** A `SimpleItem` built without the optional arguments has quantity 1 and no image or link. */
  lemma NewSimpleItemDefaults(name: string, isPlanned: bool)
    ensures NewSimpleItem(name, isPlanned) == SimpleItem(name, isPlanned, 1, None, None)
  {
  }
}
