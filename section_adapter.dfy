/** The section cards: the header in each mode, the shopping progress, the
    expand toggle, the mode hand-down to the item rows and the diff callback. */
module SectionAdapter {
  import opened Wrappers
  import opened Sequences
  import opened Entities
  import ItemAdapter

  predicate IsChecked(it: ShoppingItem) { it.isChecked }

  /** The "checked / total" line and its completion mark. */
  datatype Progress = Progress(checked: nat, total: nat, complete: bool)

  /** What `bind` and `bindShoppingMode` set on a card. */
  datatype SectionView = SectionView(
    title: string,
    itemsVisible: bool,
    highlighted: bool,
    editVisible: bool,
    deleteVisible: bool,
    addItemVisible: bool,
    progress: Option<Progress>,
    itemCount: Option<nat>,
    rows: seq<ItemAdapter.ItemRowView>)

  function ItemRows(items: seq<ShoppingItem>, isShoppingMode: bool): (r: seq<ItemAdapter.ItemRowView>)
    ensures |r| == |items| && forall k :: 0 <= k < |r| ==> r[k] == ItemAdapter.RowView(items[k], isShoppingMode)
    decreases |items|
  {
    if items == [] then [] else [ItemAdapter.RowView(items[0], isShoppingMode)] + ItemRows(items[1..], isShoppingMode)
  }

  /** The progress shown in shopping mode: how many items are ticked, out of
      how many, and the mark once every one of at least one item is ticked. */
  function ShoppingProgress(items: seq<ShoppingItem>): (r: Progress)
    ensures r.checked == Count(items, IsChecked) && r.checked <= r.total == |items|
    ensures r.checked == 0 <==> forall it :: it in items ==> !it.isChecked
    ensures r.complete <==> items != [] && forall it :: it in items ==> it.isChecked
  {
    var checkedCount := Count(items, IsChecked);
    var totalCount := |items|;
    CountAll(items, IsChecked);
    CountZero(items, IsChecked);
    Progress(checkedCount, totalCount, totalCount > 0 && checkedCount == totalCount)
  }

  /** A card: edit and delete only for a non-default section in planning
      mode, add-item always, progress in shopping mode and the item count in
      planning mode; the item list only while expanded. */
  function CardView(g: SectionWithItems, isShoppingMode: bool): (r: SectionView)
    ensures r.title == g.section.name
    ensures r.itemsVisible <==> g.section.isExpanded
    ensures r.highlighted <==> g.section.isDefault
    ensures r.editVisible == r.deleteVisible == (!isShoppingMode && !g.section.isDefault)
    ensures r.addItemVisible
    ensures r.progress.Some? <==> isShoppingMode
    ensures r.progress.Some? ==>
      && r.progress.value == ShoppingProgress(g.items)
      && r.progress.value.checked == Count(g.items, IsChecked)
      && r.progress.value.total == |g.items|
      && (r.progress.value.complete <==> g.items != [] && forall it :: it in g.items ==> it.isChecked)
    ensures r.itemCount.Some? <==> !isShoppingMode
    ensures r.itemCount.Some? ==> r.itemCount.value == |g.items|
    ensures r.rows == ItemRows(g.items, isShoppingMode)
  {
    var buttons := !isShoppingMode && !g.section.isDefault;
    SectionView(
      g.section.name, g.section.isExpanded, g.section.isDefault,
      buttons, buttons, true,
      if isShoppingMode then Some(ShoppingProgress(g.items)) else None,
      if isShoppingMode then None else Some(|g.items|),
      ItemRows(g.items, isShoppingMode))
  }

  /** The progress counts ticks: ticking one unticked item of a section
      raises the checked count by one and leaves the total. */
  lemma TickRaisesProgress(items: seq<ShoppingItem>, k: int)
    requires 0 <= k < |items| && !items[k].isChecked
    ensures var after := ShoppingProgress(items[k := items[k].(isChecked := true)]);
      && after.checked == ShoppingProgress(items).checked + 1
      && after.total == ShoppingProgress(items).total
  {
    CountUpdateUp(items, k, items[k].(isChecked := true), IsChecked);
  }

  /** Counting is over the section's items in any split: the ticks of two
      parts of a list add up to the ticks of the whole. */
  lemma ProgressOfParts(a: seq<ShoppingItem>, b: seq<ShoppingItem>)
    ensures ShoppingProgress(a + b).checked == ShoppingProgress(a).checked + ShoppingProgress(b).checked
    ensures ShoppingProgress(a + b).total == ShoppingProgress(a).total + ShoppingProgress(b).total
  {
    CountConcat(a, b, IsChecked);
  }

  /** A section without items is never shown as complete. */
  lemma EmptySectionNeverComplete(g: SectionWithItems, isShoppingMode: bool)
    requires g.items == []
    ensures CardView(g, isShoppingMode).progress.Some? ==> !CardView(g, isShoppingMode).progress.value.complete
  {
  }

  /** The expand button and the header both request the other state. */
  function ExpandRequest(g: SectionWithItems): (r: bool)
    ensures r != g.section.isExpanded
  {
    !g.section.isExpanded
  }

  /** Once the requested state is in place the item list appears or
      disappears, and a second click asks for the original state again. */
  lemma ExpandRequestFlipsList(g: SectionWithItems, isShoppingMode: bool)
    ensures var g2 := g.(section := g.section.(isExpanded := ExpandRequest(g)));
      && CardView(g2, isShoppingMode).itemsVisible != CardView(g, isShoppingMode).itemsVisible
      && ExpandRequest(g2) == g.section.isExpanded
  {
  }

  // ---------------------------------------------------------------------
  // The diff callback

  predicate SameSection(a: SectionWithItems, b: SectionWithItems) {
    a.section.id == b.section.id
  }

  /** `areContentsTheSame` as written: the expansion flag and the items. */
  predicate SameSectionContentsAsWritten(a: SectionWithItems, b: SectionWithItems) {
    a.section.isExpanded == b.section.isExpanded && a.items == b.items
  }

  /** A section renamed in place looks unchanged to the callback as written,
      although its card title changes, so the card is not redrawn. */
  lemma RenamedSectionLooksUnchanged()
    ensures var a := SectionWithItems(Section(1, "Fruit", 1, false, false), []);
      var b := SectionWithItems(Section(1, "Vegetables", 1, false, false), []);
      && SameSection(a, b)
      && SameSectionContentsAsWritten(a, b)
      && CardView(a, false).title != CardView(b, false).title
  {
    var a := SectionWithItems(Section(1, "Fruit", 1, false, false), []);
    var b := SectionWithItems(Section(1, "Vegetables", 1, false, false), []);
    assert CardView(a, false).title[0] != CardView(b, false).title[0];
  }

  /** The callback with everything a card draws from: name, default flag,
      expansion and items. */
  predicate SameSectionContents(a: SectionWithItems, b: SectionWithItems) {
    && a.section.name == b.section.name
    && a.section.isDefault == b.section.isDefault
    && a.section.isExpanded == b.section.isExpanded
    && a.items == b.items
  }

  /** Same contents, by the corrected callback, means the same card in either
      mode, so skipping the redraw is always safe; and the as-written check
      is implied by it. */
  lemma SameSectionContentsSameCard(a: SectionWithItems, b: SectionWithItems, isShoppingMode: bool)
    requires SameSectionContents(a, b)
    ensures CardView(a, isShoppingMode) == CardView(b, isShoppingMode)
    ensures SameSectionContentsAsWritten(a, b)
  {
  }

  // ---------------------------------------------------------------------
  // The adapter and its cards

  class SectionAdapter {
    var isShoppingMode: bool

    constructor (isShoppingMode: bool)
      ensures this.isShoppingMode == isShoppingMode
    {
      this.isShoppingMode := isShoppingMode;
    }

    /** `updateShoppingMode`: the mode is always stored; a redraw is asked
        for only when it changed. */
    method UpdateShoppingMode(newShoppingMode: bool) returns (refresh: bool)
      modifies this
      ensures isShoppingMode == newShoppingMode
      ensures refresh <==> old(isShoppingMode) != newShoppingMode
    {
      var oldShoppingMode := isShoppingMode;
      isShoppingMode := newShoppingMode;
      refresh := oldShoppingMode != newShoppingMode;
    }
  }

  /** A card holds its own item adapter, created with the card's mode. */
  class SectionViewHolder {
    const adapter: SectionAdapter
    const itemAdapter: ItemAdapter.ItemAdapter

    constructor (adapter: SectionAdapter)
      ensures this.adapter == adapter && fresh(itemAdapter)
      ensures itemAdapter.isShoppingMode == adapter.isShoppingMode
    {
      this.adapter := adapter;
      itemAdapter := new ItemAdapter.ItemAdapter(adapter.isShoppingMode);
    }

    /** `bindShoppingMode`: hands the mode down to the item rows, then draws
        the card in that mode. */
    method BindShoppingMode(g: SectionWithItems) returns (view: SectionView)
      modifies itemAdapter
      ensures itemAdapter.isShoppingMode == adapter.isShoppingMode
      ensures view == CardView(g, adapter.isShoppingMode)
    {
      var refresh := itemAdapter.UpdateShoppingMode(adapter.isShoppingMode);
      view := CardView(g, adapter.isShoppingMode);
    }
  }
}
