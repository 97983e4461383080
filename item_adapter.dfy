/** The item rows: the quantity stepper, where a checkbox change goes, what
    a row shows in each mode, and the diff callback. */
module ItemAdapter {
  import opened Wrappers
  import opened Sequences
  import opened Entities
  import opened KotlinText

  // ---------------------------------------------------------------------
  // The quantity stepper, on Kotlin's 32-bit `Int`

  const IntMin: int := -0x8000_0000
  const IntMax: int := 0x7FFF_FFFF

  /** Kotlin `Int` addition wraps around modulo 2^32. */
  function WrapInt(x: int): (r: int)
    ensures IntMin <= r <= IntMax
    ensures IntMin <= x <= IntMax ==> r == x
    ensures (r - x) % 0x1_0000_0000 == 0
  {
    (x - IntMin) % 0x1_0000_0000 + IntMin
  }

  /** The increase button requests `quantity + 1`. */
  function IncreaseRequest(quantity: int): (r: int)
    requires IntMin <= quantity <= IntMax
    ensures quantity < IntMax ==> r == quantity + 1
    ensures quantity == IntMax ==> r == IntMin
  {
    WrapInt(quantity + 1)
  }

  /** The decrease button requests `quantity - 1`, and only above 1. */
  function DecreaseRequest(quantity: int): (r: Option<int>)
    requires IntMin <= quantity <= IntMax
    ensures r.Some? <==> quantity > 1
    ensures r.Some? ==> 1 <= r.value < quantity
  {
    if quantity > 1 then Some(WrapInt(quantity - 1)) else None
  }

  /** Decreasing right after increasing gives the quantity back. */
  lemma DecreaseUndoesIncrease(quantity: int)
    requires 1 <= quantity < IntMax
    ensures DecreaseRequest(IncreaseRequest(quantity)) == Some(quantity)
  {
  }

  datatype Step = Increase | Decrease

  predicate IsIncrease(s: Step) { s.Increase? }

  /** The quantity after the steps, each applied when its button requests a
      change and ignored when it does not. */
  function ApplySteps(quantity: int, steps: seq<Step>): int
    requires IntMin <= quantity <= IntMax
    decreases |steps|
  {
    if steps == [] then quantity
    else
      var next := match steps[0]
        case Increase => IncreaseRequest(quantity)
        case Decrease => DecreaseRequest(quantity).GetOr(quantity);
      assert IntMin <= next <= IntMax;
      ApplySteps(next, steps[1..])
  }

  /** From a quantity of at least 1, the stepper never produces a quantity
      below 1, as long as the increases do not push past `Int.MAX_VALUE`. */
  lemma {:induction false} StepsKeepQuantityPositive(quantity: int, steps: seq<Step>)
    requires 1 <= quantity <= IntMax
    requires quantity + Count(steps, IsIncrease) <= IntMax
    ensures 1 <= ApplySteps(quantity, steps) <= IntMax
    decreases |steps|
  {
    if steps != [] {
      assert steps == [steps[0]] + steps[1..];
      var next := if steps[0].Increase? then IncreaseRequest(quantity) else DecreaseRequest(quantity).GetOr(quantity);
      assert Count(steps, IsIncrease) == (if steps[0].Increase? then 1 else 0) + Count(steps[1..], IsIncrease);
      StepsKeepQuantityPositive(next, steps[1..]);
    }
  }

  /** The one place the guard is not enough: one increase at
      `Int.MAX_VALUE` wraps to a negative quantity. */
  lemma IncreaseAtMaxWraps()
    ensures IncreaseRequest(IntMax) < 1
  {
  }

  // ---------------------------------------------------------------------
  // The row in each mode

  /** What `bindShoppingMode` and `bindLinkButton` set on a row. */
  datatype ItemRowView = ItemRowView(
    name: string,
    checkboxChecked: bool,
    strikeThrough: bool,
    quantityBadgeVisible: bool,
    quantityEditorVisible: bool,
    editVisible: bool,
    deleteVisible: bool,
    moveVisible: bool,
    detailsVisible: bool,
    linkVisible: bool,
    imageVisible: bool)

  predicate HasLink(item: ShoppingItem) {
    !IsNullOrBlank(item.productLink)
  }

  predicate HasImage(item: ShoppingItem) {
    !IsNullOrBlank(item.imageUri)
  }

  function RowView(item: ShoppingItem, isShoppingMode: bool): (r: ItemRowView)
    ensures r.name == item.name
    ensures r.checkboxChecked == (if isShoppingMode then item.isChecked else item.isPlanned)
    ensures r.strikeThrough <==> isShoppingMode && item.isChecked
    ensures r.quantityBadgeVisible <==> isShoppingMode && item.quantity > 1
    ensures r.quantityEditorVisible <==> !isShoppingMode
    ensures r.editVisible == r.deleteVisible == r.moveVisible == r.detailsVisible == !isShoppingMode
    ensures r.linkVisible <==> isShoppingMode && HasLink(item)
    ensures r.imageVisible <==> isShoppingMode && HasImage(item)
  {
    if isShoppingMode then
      ItemRowView(item.name, item.isChecked, item.isChecked, item.quantity > 1, false,
                  false, false, false, false, HasLink(item), HasImage(item))
    else
      ItemRowView(item.name, item.isPlanned, false, false, true,
                  true, true, true, true, false, false)
  }

  /** The badge and the editor are never on screen together, and a struck
      name always has its checkbox ticked. */
  lemma RowViewConsistent(item: ShoppingItem, isShoppingMode: bool)
    ensures var r := RowView(item, isShoppingMode);
      && !(r.quantityBadgeVisible && r.quantityEditorVisible)
      && (r.strikeThrough ==> r.checkboxChecked)
      && (r.linkVisible || r.imageVisible ==> !r.editVisible)
  {
  }

  // ---------------------------------------------------------------------
  // Checkbox changes

  /** The callback a checkbox change reaches. */
  datatype CheckRequest = ItemChecked(item: ShoppingItem, isChecked: bool) | ItemPlanned(item: ShoppingItem, isPlanned: bool)

  /** The item field the request asks the store to change. */
  function Requested(r: CheckRequest): ShoppingItem {
    match r
    case ItemChecked(item, c) => item.(isChecked := c)
    case ItemPlanned(item, p) => item.(isPlanned := p)
  }

  /** The request goes to the field the checkbox shows: once it is stored,
      the row redrawn in the same mode shows the new tick, and nothing but
      that flag has changed. */
  lemma RequestMatchesCheckbox(item: ShoppingItem, isShoppingMode: bool, c: bool)
    ensures var req := if isShoppingMode then ItemChecked(item, c) else ItemPlanned(item, c);
      && RowView(Requested(req), isShoppingMode).checkboxChecked == c
      && Requested(req).(isChecked := item.isChecked, isPlanned := item.isPlanned) == item
  {
  }

  // ---------------------------------------------------------------------
  // The diff callback

  predicate SameItem(a: ShoppingItem, b: ShoppingItem) { a.id == b.id }

  predicate SameItemContents(a: ShoppingItem, b: ShoppingItem) { a == b }

  /** Equal contents imply the same row and the same drawing in either mode. */
  lemma SameItemContentsSameRow(a: ShoppingItem, b: ShoppingItem, isShoppingMode: bool)
    requires SameItemContents(a, b)
    ensures SameItem(a, b) && RowView(a, isShoppingMode) == RowView(b, isShoppingMode)
  {
  }

  // ---------------------------------------------------------------------
  // The adapter and its rows

  class ItemAdapter {
    var isShoppingMode: bool

    constructor (isShoppingMode: bool)
      ensures this.isShoppingMode == isShoppingMode
    {
      this.isShoppingMode := isShoppingMode;
    }

    /** `updateShoppingMode`: the mode is always stored; a redraw is asked
        for only when it changed. */
    method UpdateShoppingMode(newShoppingMode: bool) returns (refresh: bool)
      modifies this
      ensures isShoppingMode == newShoppingMode
      ensures refresh <==> old(isShoppingMode) != newShoppingMode
    {
      var oldShoppingMode := isShoppingMode;
      isShoppingMode := newShoppingMode;
      refresh := oldShoppingMode != newShoppingMode;
    }
  }

  class ItemViewHolder {
    const adapter: ItemAdapter
    var isBinding: bool
    /** The tick `itemCheckBox` shows. */
    var checkboxChecked: bool

    constructor (adapter: ItemAdapter)
      ensures this.adapter == adapter && !isBinding && !checkboxChecked
    {
      this.adapter := adapter;
      isBinding := false;
      checkboxChecked := false;
    }

    /** The checkbox listener: ignored while the row is being bound,
        otherwise "checked" in shopping mode and "planned" in planning mode. */
    method OnCheckedChanged(item: ShoppingItem, isNowChecked: bool) returns (r: Option<CheckRequest>)
      ensures isBinding ==> r == None
      ensures !isBinding && adapter.isShoppingMode ==> r == Some(ItemChecked(item, isNowChecked))
      ensures !isBinding && !adapter.isShoppingMode ==> r == Some(ItemPlanned(item, isNowChecked))
    {
      if isBinding {
        return None;
      }
      if adapter.isShoppingMode {
        r := Some(ItemChecked(item, isNowChecked));
      } else {
        r := Some(ItemPlanned(item, isNowChecked));
      }
    }

    /** `itemCheckBox.isChecked = value`: the listener runs only when the
        tick actually changes. */
    method SetCheckbox(item: ShoppingItem, value: bool) returns (sent: Option<CheckRequest>)
      modifies this
      ensures checkboxChecked == value && isBinding == old(isBinding)
      ensures sent.Some? <==> !isBinding && old(checkboxChecked) != value
      ensures sent.Some? && adapter.isShoppingMode ==> sent.value == ItemChecked(item, value)
      ensures sent.Some? && !adapter.isShoppingMode ==> sent.value == ItemPlanned(item, value)
    {
      var changed := checkboxChecked != value;
      checkboxChecked := value;
      if changed {
        sent := OnCheckedChanged(item, value);
      } else {
        sent := None;
      }
    }

    /** `bind`: draws the row with the guard up. The checkbox is set while
        drawing, and the listener that may fire then sends nothing. */
    method Bind(item: ShoppingItem) returns (view: ItemRowView, sent: Option<CheckRequest>)
      modifies this
      ensures view == RowView(item, adapter.isShoppingMode)
      ensures checkboxChecked == view.checkboxChecked
      ensures sent == None
      ensures !isBinding
    {
      isBinding := true;
      view := RowView(item, adapter.isShoppingMode);
      sent := SetCheckbox(item, view.checkboxChecked);
      isBinding := false;
    }

    /** `onBindViewHolder` with the mode-change payload: `bindShoppingMode`
        alone, without raising the guard. When the new mode's flag differs
        from the tick on screen, the listener fires and sends a request for
        the flag the new mode shows, set to the value the item already has,
        so storing it writes the item back unchanged. */
    method RebindShoppingMode(item: ShoppingItem) returns (view: ItemRowView, sent: Option<CheckRequest>)
      modifies this
      ensures view == RowView(item, adapter.isShoppingMode)
      ensures checkboxChecked == view.checkboxChecked && isBinding == old(isBinding)
      ensures sent.Some? <==> !old(isBinding) && old(checkboxChecked) != view.checkboxChecked
      ensures sent.Some? ==> sent.value == RedrawRequest(item, adapter.isShoppingMode)
      ensures sent.Some? ==> Requested(sent.value) == item
    {
      view := RowView(item, adapter.isShoppingMode);
      sent := SetCheckbox(item, view.checkboxChecked);
      RedrawRequestRestoresItem(item, adapter.isShoppingMode);
    }
  }

  /** The request a redraw's checkbox change sends: the flag the mode shows,
      at the value the row draws. */
  function RedrawRequest(item: ShoppingItem, isShoppingMode: bool): CheckRequest {
    var c := RowView(item, isShoppingMode).checkboxChecked;
    if isShoppingMode then ItemChecked(item, c) else ItemPlanned(item, c)
  }

  /** Such a request asks to store the item exactly as it is. */
  lemma RedrawRequestRestoresItem(item: ShoppingItem, isShoppingMode: bool)
    ensures Requested(RedrawRequest(item, isShoppingMode)) == item
  {
  }

  /** After a bind in one mode, switching the mode and redrawing sends a
      request exactly when the item's checked and planned flags differ, and
      that request stores the item unchanged. */
  lemma ModeSwitchRequestsOnlyOnDifferentFlags(item: ShoppingItem, isShoppingMode: bool)
    ensures var shown := RowView(item, isShoppingMode).checkboxChecked;
      var drawn := RowView(item, !isShoppingMode).checkboxChecked;
      && (shown != drawn <==> item.isChecked != item.isPlanned)
      && Requested(RedrawRequest(item, !isShoppingMode)) == item
  {
  }
}
