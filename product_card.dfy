/** A product card: its size and colour selections, the dropdowns that show them, and the arguments
    its add buttons pass to the cart. The compact layout is the one rendered inside the chat. */
module ProductCard {
  import opened Types
  import opened App
  import Catalog

  /** What an add button passes to `onAddToCart`. */
  datatype AddRequest = AddRequest(product: Product, size: Option<string>, color: Option<string>)

  /** A dropdown: its options in order and its current value. */
  datatype Selector = Selector(options: seq<string>, value: string)

  /** `useState(options?.[0] || '')`: the first option, or '' when there is none. */
  function InitialSelection(options: Option<seq<string>>): (s: string)
    ensures options.Some? && |options.value| > 0 ==> s == options.value[0]
    ensures options.None? || |options.value| == 0 ==> s == ""
  {
    var first := First(options);
    if Truthy(first) then first.value else ""
  }

  /** A selection is one of the options when there are any, and '' otherwise. */
  predicate SelectionValid(options: Option<seq<string>>, s: string)
  {
    if options.Some? && |options.value| > 0 then s in options.value else s == ""
  }

  /** The arguments of the add buttons: the compact card passes its current selections, the two
      buttons of the full card pass the product alone. */
  function AddArguments(p: Product, compact: bool, size: string, color: string): AddRequest
  {
    if compact then AddRequest(p, Some(size), Some(color)) else AddRequest(p, None, None)
  }

  /** `options && <select>`: rendered whenever the list is present (an empty array is truthy). */
  function OptionSelector(options: Option<seq<string>>, selected: string): Option<Selector>
  {
    if options.Some? then Some(Selector(options.value, selected)) else None
  }

  /** Repeated compact-card adds with unchanged, non-empty selections merge into one line whose
      quantity counts the clicks: the value passed equals the value stored. */
  lemma CompactAddsMerge(cart: seq<CartItem>, p: Product, size: string, color: string, n: nat)
    requires size != "" && color != "" && n >= 1
    requires forall i :: 0 <= i < |cart| ==> !SameVariant(cart[i], p.id, Some(size), Some(color))
    ensures var a := AddArguments(p, true, size, color);
      AddTimes(cart, a.product, a.size, a.color, n) == cart + [CartItem(p, n, Some(size), Some(color))]
  {
    RepeatedVariantAddsMerge(cart, p, Some(size), Some(color), n);
  }

  /** A compact card for a product without a size list passes size '' but the cart stores no size,
      so its repeated adds do not merge: two clicks append two equal lines of quantity 1 without a
      size. */
  lemma {:induction false} CompactAddsWithoutSizesDoNotMerge(cart: seq<CartItem>, p: Product, color: string)
    requires p.availableSizes.None?
    requires forall i :: 0 <= i < |cart| ==> !SameVariant(cart[i], p.id, Some(""), Some(color))
    ensures var a := AddArguments(p, true, InitialSelection(p.availableSizes), color);
      var line := NewLine(p, Some(""), Some(color));
      && AddTimes(cart, a.product, a.size, a.color, 2) == cart + [line, line]
      && line.product == p && line.quantity == 1 && line.selectedSize == None
  {
    var line := NewLine(p, Some(""), Some(color));
    assert line.selectedSize == None;
    assert AddTimes(cart, p, Some(""), Some(color), 0) == cart;
    assert AddTimes(cart, p, Some(""), Some(color), 1) == cart + [line];
    assert forall i :: 0 <= i < |cart + [line]| ==> !SameVariant((cart + [line])[i], p.id, Some(""), Some(color));
    assert AddTimes(cart, p, Some(""), Some(color), 2) == (cart + [line]) + [line];
    assert (cart + [line]) + [line] == cart + [line, line];
  }

  /** For every catalog product, a fresh compact card's selections are non-empty, so clicking its
      add button n times yields a single line of quantity n. */
  lemma {:induction false} CatalogCompactCardsMerge(k: nat, cart: seq<CartItem>, n: nat)
    requires k < |Catalog.PRODUCTS| && n >= 1
    ensures var p := Catalog.PRODUCTS[k];
      var s, c := InitialSelection(p.availableSizes), InitialSelection(p.availableColors);
      (forall i :: 0 <= i < |cart| ==> !SameVariant(cart[i], p.id, Some(s), Some(c))) ==>
        AddTimes(cart, p, Some(s), Some(c), n) == cart + [CartItem(p, n, Some(s), Some(c))]
  {
    var p := Catalog.PRODUCTS[k];
    Catalog.CatalogVariantsPresent();
    var s, c := InitialSelection(p.availableSizes), InitialSelection(p.availableColors);
    if forall i :: 0 <= i < |cart| ==> !SameVariant(cart[i], p.id, Some(s), Some(c)) {
      CompactAddsMerge(cart, p, s, c, n);
    }
  }

  /** For every catalog product, two clicks on a full card's add button, whatever its selections,
      append two equal default lines of quantity 1 instead of one line of quantity 2. */
  lemma {:induction false} CatalogFullCardsDoNotMerge(k: nat, cart: seq<CartItem>, size: string, color: string)
    requires k < |Catalog.PRODUCTS|
    ensures var p := Catalog.PRODUCTS[k];
      var a := AddArguments(p, false, size, color);
      var line := NewLine(p, None, None);
      (forall i :: 0 <= i < |cart| ==> !SameVariant(cart[i], p.id, None, None)) ==>
        && AddTimes(cart, a.product, a.size, a.color, 2) == cart + [line, line]
        && line.quantity == 1
  {
    var p := Catalog.PRODUCTS[k];
    Catalog.CatalogVariantsPresent();
    if forall i :: 0 <= i < |cart| ==> !SameVariant(cart[i], p.id, None, None) {
      FullCardAddsDoNotMerge(cart, p);
    }
  }

  /** Two adds of a product with sizes and no arguments append two equal default lines. */
  lemma FullCardAddsDoNotMerge(cart: seq<CartItem>, p: Product)
    requires p.availableSizes.Some? && |p.availableSizes.value| > 0
    requires forall i :: 0 <= i < |cart| ==> !SameVariant(cart[i], p.id, None, None)
    ensures AddTimes(cart, p, None, None, 2) == cart + [NewLine(p, None, None), NewLine(p, None, None)]
  {
    RepeatedDefaultAddsDoNotMerge(cart, p, None);
    var r := AddTimes(cart, p, None, None, 2);
    var line := NewLine(p, None, None);
    assert r == r[..|cart|] + [r[|cart|], r[|cart| + 1]];
  }

  /** A card's state: the product, its layout and the current dropdown selections. */
  class Card {
    const product: Product
    const compact: bool
    var selectedSize: string
    var selectedColor: string

    ghost predicate Valid()
      reads this
    {
      SelectionValid(product.availableSizes, selectedSize) &&
      SelectionValid(product.availableColors, selectedColor)
    }

    constructor (product: Product, compact: bool)
      ensures this.product == product && this.compact == compact
      ensures selectedSize == InitialSelection(product.availableSizes)
      ensures selectedColor == InitialSelection(product.availableColors)
      ensures Valid()
    {
      this.product := product;
      this.compact := compact;
      selectedSize := InitialSelection(product.availableSizes);
      selectedColor := InitialSelection(product.availableColors);
    }

    /** The size dropdown's change handler; only a compact card has the dropdown, and it offers
        only the product's sizes. */
    method SelectSize(size: string)
      requires Valid() && compact
      requires product.availableSizes.Some? && size in product.availableSizes.value
      modifies this
      ensures Valid()
      ensures selectedSize == size && selectedColor == old(selectedColor)
    {
      selectedSize := size;
    }

    /** The colour dropdown's change handler; only a compact card has the dropdown, and it offers
        only the product's colours. */
    method SelectColor(color: string)
      requires Valid() && compact
      requires product.availableColors.Some? && color in product.availableColors.value
      modifies this
      ensures Valid()
      ensures selectedColor == color && selectedSize == old(selectedSize)
    {
      selectedColor := color;
    }

    /** What a click on this card's add button passes: on a compact card, a size and a colour that
        are among the product's options ('' when it lists none); on a full card, neither. */
    function AddClick(): (r: AddRequest)
      reads this
      requires Valid()
      ensures r.product == product
      ensures compact ==> r.size.Some? && SelectionValid(product.availableSizes, r.size.value)
      ensures compact ==> r.color.Some? && SelectionValid(product.availableColors, r.color.value)
      ensures !compact ==> r.size == None && r.color == None
    {
      AddArguments(product, compact, selectedSize, selectedColor)
    }

    /** The size dropdown: present exactly on a compact card whose product has a size list, offering
        exactly that list in order, and showing a value among its options whenever it has any. */
    function SizeSelector(): (r: Option<Selector>)
      reads this
      requires Valid()
      ensures r.Some? <==> compact && product.availableSizes.Some?
      ensures r.Some? ==> r.value.options == product.availableSizes.value && r.value.value == selectedSize
      ensures r.Some? && |r.value.options| > 0 ==> r.value.value in r.value.options
    {
      if compact then OptionSelector(product.availableSizes, selectedSize) else None
    }

    /** The colour dropdown, with the same guarantees as the size dropdown. The full layout shows
        neither dropdown. */
    function ColorSelector(): (r: Option<Selector>)
      reads this
      requires Valid()
      ensures r.Some? <==> compact && product.availableColors.Some?
      ensures r.Some? ==> r.value.options == product.availableColors.value && r.value.value == selectedColor
      ensures r.Some? && |r.value.options| > 0 ==> r.value.value in r.value.options
    {
      if compact then OptionSelector(product.availableColors, selectedColor) else None
    }
  }
}
