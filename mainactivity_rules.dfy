/** The rules MainActivity applies before it hands a request to the view
    model: name and link clean-up, the move-target list, the export mapping
    and which reset the menu offers. */
module MainActivityRules {
  import opened Wrappers
  import opened Sequences
  import opened Entities
  import opened Tables
  import opened Listings
  import opened KotlinText
  import ViewModel

  // ---------------------------------------------------------------------
  // Names entered in the add dialogs

  /** The name taken from the add-section and add-item dialogs: the trimmed
      text, or nothing when that is empty. */
  function EnteredName(text: string): (r: Option<string>)
    ensures r.None? <==> IsBlank(text)
    ensures r.Some? ==> r.value != [] && IsTrimmed(r.value)
    ensures r.Some? ==> r.value == Trim(text)
    ensures r.Some? ==> exists i, j :: 0 <= i <= j <= |text| && r.value == text[i..j]
  {
    TrimEmptyIffBlank(text);
    var name := Trim(text);
    if name == [] then None else Some(name)
  }

  /** The add-section dialog's positive button. */
  method SubmitSection(vm: ViewModel.ShoppingViewModel, text: string)
    requires vm.repository.dao.Valid()
    modifies vm.repository.dao
    ensures vm.repository.dao.Valid()
    ensures IsBlank(text) ==> vm.repository.dao.State() == old(vm.repository.dao.State())
    ensures !IsBlank(text) ==>
      var db := old(vm.repository.dao.State());
      vm.repository.dao.State()
        == InsertSection(db, NewSection(Trim(text), ViewModel.NextSectionOrderIndex(GetAllSections(db)), false))
  {
    var sectionName := EnteredName(text);
    if sectionName.Some? {
      vm.AddSection(sectionName.value);
    }
  }

  /** The add-item dialog's positive button, for both planned and ad-hoc items. */
  method SubmitItem(vm: ViewModel.ShoppingViewModel, text: string, sectionId: Id, isAdHoc: bool,
                    observed: Option<seq<SectionWithItems>>)
    requires vm.repository.dao.Valid()
    modifies vm.repository.dao
    ensures vm.repository.dao.Valid()
    ensures IsBlank(text) ==> vm.repository.dao.State() == old(vm.repository.dao.State())
    ensures !IsBlank(text) ==>
      var item := NewItem(Trim(text), sectionId, isAdHoc := isAdHoc,
        orderIndex := ViewModel.NextItemOrderIndex(ViewModel.ObservedSectionItems(observed, sectionId)));
      vm.repository.dao.State() == InsertItem(old(vm.repository.dao.State()), item)
  {
    var itemName := EnteredName(text);
    if itemName.Some? {
      var r := vm.AddItem(itemName.value, sectionId, isAdHoc, observed);
    }
  }

  // ---------------------------------------------------------------------
  // Product links

  predicate StartsWith(s: string, prefix: string) {
    |prefix| <= |s| && s[..|prefix|] == prefix
  }

  predicate HasWebScheme(s: string) {
    StartsWith(s, "http://") || StartsWith(s, "https://")
  }

  lemma PrefixStarts(prefix: string, rest: string)
    ensures StartsWith(prefix + rest, prefix)
  {
    assert (prefix + rest)[..|prefix|] == prefix;
  }

  /** `normalizeLink`: no link for a missing or blank text; otherwise the
      trimmed text, with `https://` put in front unless it already names
      `http` or `https`. */
  function NormalizeLink(rawLink: Option<string>): (r: Option<string>)
    ensures r.None? <==> IsBlank(rawLink.GetOr(""))
    ensures r.Some? ==> HasWebScheme(r.value) && IsTrimmed(r.value)
  {
    var trimmed := Trim(rawLink.GetOr(""));
    TrimEmptyIffBlank(rawLink.GetOr(""));
    if IsBlank(trimmed) then None
    else if StartsWith(trimmed, "http://") || StartsWith(trimmed, "https://") then Some(trimmed)
    else
      PrefixStarts("https://", trimmed);
      assert ("https://" + trimmed)[|"https://" + trimmed| - 1] == trimmed[|trimmed| - 1];
      Some("https://" + trimmed)
  }

  /** The two non-blank cases: a text naming a web scheme is only trimmed;
      any other gets `https://` in front of its trimmed form. */
  lemma NormalizeLinkCases(rawLink: string)
    requires !IsBlank(rawLink)
    ensures HasWebScheme(Trim(rawLink)) ==> NormalizeLink(Some(rawLink)) == Some(Trim(rawLink))
    ensures !HasWebScheme(Trim(rawLink)) ==> NormalizeLink(Some(rawLink)) == Some("https://" + Trim(rawLink))
  {
    TrimEmptyIffBlank(rawLink);
  }

  lemma NormalizeLinkIdempotent(rawLink: Option<string>)
    ensures NormalizeLink(rawLink).Some? ==>
      NormalizeLink(NormalizeLink(rawLink)) == NormalizeLink(rawLink)
  {
    var n := NormalizeLink(rawLink);
    if n.Some? {
      TrimKeepsTrimmed(n.value);
      assert !IsWhitespace(n.value[0]);
      NormalizeLinkCases(n.value);
    }
  }

  /** The details dialog's save button: a link that is present but not a web
      URL is refused and nothing is saved; otherwise the normalised link,
      possibly none, is saved. `isWebUrl` stands for `Patterns.WEB_URL`. */
  datatype LinkSave = RejectInvalid | SaveLink(link: Option<string>)

  function SaveLinkDecision(rawLink: Option<string>, isWebUrl: string -> bool): (r: LinkSave)
    ensures r == SaveLink(None) <==> IsBlank(rawLink.GetOr(""))
    ensures r.SaveLink? && r.link.Some? ==> isWebUrl(r.link.value) && HasWebScheme(r.link.value)
    ensures r.RejectInvalid? <==> !IsBlank(rawLink.GetOr("")) && !isWebUrl(NormalizeLink(rawLink).value)
    ensures r.SaveLink? ==> r.link == NormalizeLink(rawLink)
  {
    var normalized := NormalizeLink(Some(rawLink.GetOr("")));
    if normalized.Some? && !isWebUrl(normalized.value) then RejectInvalid
    else SaveLink(normalized)
  }

  /** Opening a link, from the details dialog or from an item row. */
  datatype LinkOpen = LinkMissing | LinkInvalid | OpenUrl(url: string)

  function OpenLink(link: Option<string>, isWebUrl: string -> bool): (r: LinkOpen)
    ensures r.LinkMissing? <==> IsBlank(link.GetOr(""))
    ensures r.OpenUrl? ==> isWebUrl(r.url) && HasWebScheme(r.url) && Some(r.url) == NormalizeLink(link)
    ensures r.LinkInvalid? ==> NormalizeLink(link).Some? && !isWebUrl(NormalizeLink(link).value)
  {
    match NormalizeLink(link)
    case None => LinkMissing
    case Some(url) => if isWebUrl(url) then OpenUrl(url) else LinkInvalid
  }

  // ---------------------------------------------------------------------
  // Moving an item

  /** `showMoveItemDialog`: nothing when the item's section is unknown;
      otherwise every other section that is not the default one, in list
      order. */
  function MoveTargets(allSections: seq<Section>, item: ShoppingItem): (r: Option<seq<Section>>)
    ensures r.None? <==> !HasSection(allSections, item.sectionId)
    ensures r.Some? ==> forall s :: s in r.value <==> s in allSections && s.id != item.sectionId && !s.isDefault
  {
    match FindSection(allSections, item.sectionId)
    case None => None
    case Some(currentSection) =>
      Some(Filter(allSections, (s: Section) => s.id != currentSection.id && !s.isDefault))
  }

  /** The move targets keep the order of the section list: for a list made
      of two parts, the targets from the first part come first. */
  lemma MoveTargetsKeepOrder(front: seq<Section>, back: seq<Section>, item: ShoppingItem)
    requires HasSection(front + back, item.sectionId)
    ensures MoveTargets(front + back, item).value
      == Filter(front, (s: Section) => s.id != item.sectionId && !s.isDefault)
       + Filter(back, (s: Section) => s.id != item.sectionId && !s.isDefault)
  {
    var current := FindSection(front + back, item.sectionId).value;
    var keep := (s: Section) => s.id != current.id && !s.isDefault;
    FilterConcat(front, back, keep);
  }

  // ---------------------------------------------------------------------
  // Export

  function ToSimpleItem(it: ShoppingItem): SimpleItem {
    SimpleItem(it.name, it.isPlanned, it.quantity, it.imageUri, it.productLink)
  }

  function ToSimpleSection(g: SectionWithItems): SimpleSection {
    SimpleSection(g.section.name, Map(g.items, ToSimpleItem))
  }

  /** The list `exportShoppingList` encodes: one record per displayed group,
      in order, keeping each item's name, planned flag, quantity, image and
      link. */
  function ExportData(groups: seq<SectionWithItems>): (r: seq<SimpleSection>)
    ensures |r| == |groups|
    ensures forall k :: 0 <= k < |r| ==>
      && r[k].name == groups[k].section.name
      && |r[k].items| == |groups[k].items|
      && forall j :: 0 <= j < |r[k].items| ==>
           var it := groups[k].items[j];
           r[k].items[j] == NewSimpleItem(it.name, it.isPlanned, it.quantity, it.imageUri, it.productLink)
  {
    Map(groups, ToSimpleSection)
  }

  /** Nothing is exported when the displayed list is unset or empty. */
  function ExportList(displayed: Option<seq<SectionWithItems>>): (r: Option<seq<SimpleSection>>)
    ensures r.None? <==> displayed.None? || displayed.value == []
    ensures r.Some? ==> r.value == ExportData(displayed.value) && r.value != []
  {
    match displayed
    case None => None
    case Some(groups) => if groups == [] then None else Some(ExportData(groups))
  }

  function GroupItemNames(g: SectionWithItems): seq<string> {
    Map(g.items, (it: ShoppingItem) => it.name)
  }

  /** Importing an exported list brings back the section names and, per
      section, the item names in order; nothing else survives. */
  lemma ExportThenImportKeepsNames(groups: seq<SectionWithItems>)
    ensures var ls := ViewModel.ImportListings(ExportData(groups));
      && |ls| == |groups|
      && forall k :: 0 <= k < |ls| ==>
           ls[k].name == groups[k].section.name && ls[k].itemNames == GroupItemNames(groups[k])
  {
    var ls := ViewModel.ImportListings(ExportData(groups));
    forall k | 0 <= k < |ls|
      ensures ls[k].name == groups[k].section.name && ls[k].itemNames == GroupItemNames(groups[k])
    {
      var names := ViewModel.ItemNames(ExportData(groups)[k].items);
      assert |names| == |GroupItemNames(groups[k])|;
      forall j | 0 <= j < |names| ensures names[j] == GroupItemNames(groups[k])[j] {
      }
    }
  }

  // ---------------------------------------------------------------------
  // The reset menu

  /** `isShoppingMode.value ?: false` decides which reset the menu shows. */
  function ResetShoppingListVisible(mode: Option<bool>): bool { mode.GetOr(false) }

  function ResetAllVisible(mode: Option<bool>): bool { !mode.GetOr(false) }

  /** Exactly one of the two resets is on offer: the checked-state reset in
      shopping mode, the full reset otherwise (also while the mode is unset). */
  lemma ExactlyOneResetVisible(mode: Option<bool>)
    ensures ResetShoppingListVisible(mode) != ResetAllVisible(mode)
    ensures ResetShoppingListVisible(mode) <==> mode == Some(true)
  {
  }

  datatype ResetChoice = ResetShoppingList | ResetAll

  /** The confirmation dialog of each reset. */
  method ConfirmReset(vm: ViewModel.ShoppingViewModel, choice: ResetChoice)
    requires vm.repository.dao.Valid()
    modifies vm, vm.repository.dao
    ensures vm.repository.dao.Valid()
    ensures choice == ResetShoppingList ==>
      vm.repository.dao.State() == ResetAllItemCheckedStates(old(vm.repository.dao.State()))
      && vm.isShoppingMode == old(vm.isShoppingMode)
    ensures choice == ResetAll ==>
      vm.repository.dao.State() == ViewModel.FullShoppingReset(old(vm.repository.dao.State()))
      && !vm.isShoppingMode
  {
    match choice
    case ResetShoppingList => vm.ResetAllItemCheckedStates();
    case ResetAll => vm.PerformFullShoppingReset();
  }
}
