/** The storefront page: the cart ledger's updaters (add, remove, set quantity), the badge count,
    the category filter, and the component state that holds them. */
module App {
  import opened Types
  import Catalog

  /** The category tabs, in display order; 'All' is not a product category. */
  const CATEGORIES: seq<string> := ["All", "Tops", "Bottoms", "Outerwear", "Shoes", "Accessories"]

  // ---------------------------------------------------------------------------------------------
  // Cart ledger

  /** The merge test of add: same product id, and the STORED size and colour equal the raw arguments. */
  predicate SameVariant(item: CartItem, id: string, size: Option<string>, color: Option<string>)
  {
    item.product.id == id && item.selectedSize == size && item.selectedColor == color
  }

  /** Every line has a positive quantity. */
  predicate QuantitiesPositive(cart: seq<CartItem>)
  {
    forall i :: 0 <= i < |cart| ==> cart[i].quantity >= 1
  }

  /** `findIndex` of the merge test: the first matching line, or -1 when none matches. */
  function FindLine(cart: seq<CartItem>, id: string, size: Option<string>, color: Option<string>): (k: int)
    ensures -1 <= k < |cart|
    ensures k == -1 <==> forall i :: 0 <= i < |cart| ==> !SameVariant(cart[i], id, size, color)
    ensures k >= 0 ==> SameVariant(cart[k], id, size, color)
    ensures k >= 0 ==> forall i :: 0 <= i < k ==> !SameVariant(cart[i], id, size, color)
  {
    if |cart| == 0 then -1
    else if SameVariant(cart[0], id, size, color) then 0
    else
      var k := FindLine(cart[1..], id, size, color);
      assert forall i :: 0 < i < |cart| ==> cart[i] == cart[1..][i - 1];
      if k == -1 then -1 else k + 1
  }

  /** The line a non-merging add appends: quantity 1, and each of size and colour the argument when
      it is truthy, else the product's first option (absent when the product lists none). */
  function NewLine(p: Product, size: Option<string>, color: Option<string>): CartItem
  {
    CartItem(p, 1, Or(size, First(p.availableSizes)), Or(color, First(p.availableColors)))
  }

  /** The updater of `addToCart`. */
  function AddLine(cart: seq<CartItem>, p: Product, size: Option<string>, color: Option<string>): seq<CartItem>
  {
    var k := FindLine(cart, p.id, size, color);
    if k > -1 then cart[k := cart[k].(quantity := cart[k].quantity + 1)]
    else cart + [NewLine(p, size, color)]
  }

  /** The updater of `removeFromCart`: keep the lines of every other product, in order. */
  function RemoveLines(cart: seq<CartItem>, id: string): (r: seq<CartItem>)
    ensures |r| <= |cart|
    ensures forall x :: x in r <==> x in cart && x.product.id != id
  {
    if |cart| == 0 then []
    else
      var rest := RemoveLines(cart[1..], id);
      assert forall x :: x in cart <==> x == cart[0] || x in cart[1..];
      if cart[0].product.id != id then [cart[0]] + rest else rest
  }

  /** The updater of `updateQuantity`: every line of the product gets quantity q, unclamped. */
  function SetQuantity(cart: seq<CartItem>, id: string, q: int): (r: seq<CartItem>)
    ensures |r| == |cart|
    ensures forall i :: 0 <= i < |cart| ==>
              r[i] == if cart[i].product.id == id then cart[i].(quantity := q) else cart[i]
  {
    if |cart| == 0 then []
    else
      [if cart[0].product.id == id then cart[0].(quantity := q) else cart[0]] + SetQuantity(cart[1..], id, q)
  }

  /** `cart.reduce((s, i) => s + i.quantity, 0)`, folded from the left. */
  function ItemCount(cart: seq<CartItem>): int
  {
    if |cart| == 0 then 0 else ItemCount(cart[..|cart| - 1]) + cart[|cart| - 1].quantity
  }

  /** The cart icon's badge: shown only for a non-empty cart, holding the number of units. */
  function Badge(cart: seq<CartItem>): Option<int>
  {
    if |cart| > 0 then Some(ItemCount(cart)) else None
  }

  /** `n` successive adds of the same arguments. */
  function AddTimes(cart: seq<CartItem>, p: Product, size: Option<string>, color: Option<string>, n: nat): seq<CartItem>
  {
    if n == 0 then cart else AddLine(AddTimes(cart, p, size, color, n - 1), p, size, color)
  }

  /** The unit count is additive over concatenation. */
  lemma {:induction false} ItemCountAppend(a: seq<CartItem>, b: seq<CartItem>)
    ensures ItemCount(a + b) == ItemCount(a) + ItemCount(b)
  {
    if |b| > 0 {
      assert (a + b)[..|a + b| - 1] == a + b[..|b| - 1];
      ItemCountAppend(a, b[..|b| - 1]);
    } else {
      assert a + b == a;
    }
  }

  /** Replacing one line changes the unit count by the change in that line's quantity. */
  lemma {:induction false} ItemCountUpdate(cart: seq<CartItem>, k: nat, x: CartItem)
    requires k < |cart|
    ensures ItemCount(cart[k := x]) == ItemCount(cart) - cart[k].quantity + x.quantity
  {
    var n := |cart|;
    if k == n - 1 {
      assert cart[k := x][..n - 1] == cart[..n - 1];
    } else {
      assert cart[k := x][..n - 1] == cart[..n - 1][k := x];
      ItemCountUpdate(cart[..n - 1], k, x);
    }
  }

  /** A matched add raises the first matching line's quantity by one, in place; nothing else changes. */
  lemma AddMergesFirstMatch(cart: seq<CartItem>, p: Product, size: Option<string>, color: Option<string>, k: nat)
    requires k < |cart| && SameVariant(cart[k], p.id, size, color)
    requires forall i :: 0 <= i < k ==> !SameVariant(cart[i], p.id, size, color)
    ensures |AddLine(cart, p, size, color)| == |cart|
    ensures AddLine(cart, p, size, color)[k] == cart[k].(quantity := cart[k].quantity + 1)
    ensures forall i :: 0 <= i < |cart| && i != k ==> AddLine(cart, p, size, color)[i] == cart[i]
  {
  }

  /** An unmatched add keeps every line and appends one line of quantity 1 whose size and colour are
      the arguments when truthy and otherwise the product's first option. */
  lemma AddAppendsNewLine(cart: seq<CartItem>, p: Product, size: Option<string>, color: Option<string>)
    requires forall i :: 0 <= i < |cart| ==> !SameVariant(cart[i], p.id, size, color)
    ensures var r := AddLine(cart, p, size, color);
      |r| == |cart| + 1 && r[..|cart|] == cart &&
      r[|cart|].product == p && r[|cart|].quantity == 1 &&
      r[|cart|].selectedSize == (if Truthy(size) then size else First(p.availableSizes)) &&
      r[|cart|].selectedColor == (if Truthy(color) then color else First(p.availableColors))
  {
  }

  /** Every add raises the number of units by exactly one. */
  lemma AddCountsOneUnit(cart: seq<CartItem>, p: Product, size: Option<string>, color: Option<string>)
    ensures ItemCount(AddLine(cart, p, size, color)) == ItemCount(cart) + 1
    ensures Badge(AddLine(cart, p, size, color)) == Some(ItemCount(cart) + 1)
  {
    var k := FindLine(cart, p.id, size, color);
    if k > -1 {
      ItemCountUpdate(cart, k, cart[k].(quantity := cart[k].quantity + 1));
    } else {
      ItemCountAppend(cart, [NewLine(p, size, color)]);
      assert ItemCount([NewLine(p, size, color)]) == 1 by {
        assert [NewLine(p, size, color)][..0] == [];
      }
    }
  }

  /** Two adds of a product that lists sizes, with no size argument, give two separate lines of
      quantity 1: the match compares the absent argument with the stored default size. */
  lemma RepeatedDefaultAddsDoNotMerge(cart: seq<CartItem>, p: Product, color: Option<string>)
    requires p.availableSizes.Some? && |p.availableSizes.value| > 0
    requires forall i :: 0 <= i < |cart| ==> !SameVariant(cart[i], p.id, None, color)
    ensures var r := AddTimes(cart, p, None, color, 2);
      |r| == |cart| + 2 && r[..|cart|] == cart &&
      r[|cart|] == NewLine(p, None, color) && r[|cart| + 1] == NewLine(p, None, color) &&
      r[|cart|].quantity == 1 && r[|cart|].selectedSize == Some(p.availableSizes.value[0])
  {
    var line := NewLine(p, None, color);
    var r1 := AddTimes(cart, p, None, color, 1);
    assert AddTimes(cart, p, None, color, 0) == cart;
    assert r1 == cart + [line];
    assert forall i :: 0 <= i < |r1| ==> !SameVariant(r1[i], p.id, None, color) by {
      assert line.selectedSize != None;
    }
    assert AddTimes(cart, p, None, color, 2) == r1 + [line];
  }

  /** After an unmatched prefix, the first match is the appended line. */
  lemma FindLineAfterPrefix(cart: seq<CartItem>, x: CartItem, id: string, size: Option<string>, color: Option<string>)
    requires forall i :: 0 <= i < |cart| ==> !SameVariant(cart[i], id, size, color)
    requires SameVariant(x, id, size, color)
    ensures FindLine(cart + [x], id, size, color) == |cart|
  {
    var c := cart + [x];
    assert forall i :: 0 <= i < |cart| ==> c[i] == cart[i];
    assert SameVariant(c[|cart|], id, size, color);
  }

  /** Adding to a cart without the variant, with truthy size and colour, appends exactly them. */
  lemma FirstVariantAdd(cart: seq<CartItem>, p: Product, size: Option<string>, color: Option<string>)
    requires Truthy(size) && Truthy(color)
    requires forall i :: 0 <= i < |cart| ==> !SameVariant(cart[i], p.id, size, color)
    ensures AddLine(cart, p, size, color) == cart + [CartItem(p, 1, size, color)]
  {
    assert FindLine(cart, p.id, size, color) == -1;
    assert NewLine(p, size, color) == CartItem(p, 1, size, color);
  }

  /** Adding once more to a cart whose only matching line is the last raises that line by one. */
  lemma NextVariantAdd(cart: seq<CartItem>, p: Product, size: Option<string>, color: Option<string>, m: nat)
    requires forall i :: 0 <= i < |cart| ==> !SameVariant(cart[i], p.id, size, color)
    ensures AddLine(cart + [CartItem(p, m, size, color)], p, size, color) == cart + [CartItem(p, m + 1, size, color)]
  {
    var prev := cart + [CartItem(p, m, size, color)];
    FindLineAfterPrefix(cart, CartItem(p, m, size, color), p.id, size, color);
    assert prev[|cart| := CartItem(p, m + 1, size, color)] == cart + [CartItem(p, m + 1, size, color)];
  }

  /** Repeated adds with truthy size and colour merge: starting from a cart without that variant,
      n adds leave the earlier lines alone and one line at the end with quantity n. */
  lemma {:induction false} RepeatedVariantAddsMerge(cart: seq<CartItem>, p: Product, size: Option<string>,
                                                    color: Option<string>, n: nat)
    requires Truthy(size) && Truthy(color)
    requires forall i :: 0 <= i < |cart| ==> !SameVariant(cart[i], p.id, size, color)
    requires n >= 1
    ensures AddTimes(cart, p, size, color, n) == cart + [CartItem(p, n, size, color)]
  {
    if n == 1 {
      assert AddTimes(cart, p, size, color, 0) == cart;
      FirstVariantAdd(cart, p, size, color);
    } else {
      RepeatedVariantAddsMerge(cart, p, size, color, n - 1);
      NextVariantAdd(cart, p, size, color, n - 1);
    }
  }

  /** Removing filters out every variant of the product, keeps all other lines, and keeps their order. */
  lemma {:induction false} RemoveLinesAppend(a: seq<CartItem>, b: seq<CartItem>, id: string)
    ensures RemoveLines(a + b, id) == RemoveLines(a, id) + RemoveLines(b, id)
  {
    if |a| == 0 {
      assert a + b == b;
    } else {
      assert (a + b)[1..] == a[1..] + b;
      RemoveLinesAppend(a[1..], b, id);
    }
  }

  /** Removing an id that no line has leaves the cart unchanged. */
  lemma {:induction false} RemoveAbsentIsNoop(cart: seq<CartItem>, id: string)
    requires forall i :: 0 <= i < |cart| ==> cart[i].product.id != id
    ensures RemoveLines(cart, id) == cart
  {
    if |cart| > 0 {
      RemoveAbsentIsNoop(cart[1..], id);
      assert [cart[0]] + cart[1..] == cart;
    }
  }

  /** Removing drops exactly the lines of the product: their number is the length lost. */
  lemma {:induction false} RemoveLinesCount(cart: seq<CartItem>, id: string)
    ensures |RemoveLines(cart, id)| == |cart| - |LinesOf(cart, id)|
  {
    if |cart| > 0 {
      RemoveLinesCount(cart[1..], id);
    }
  }

  /** Removal empties the cart exactly when every line is of the removed product. */
  lemma {:induction false} RemoveLinesEmpty(cart: seq<CartItem>, id: string)
    ensures RemoveLines(cart, id) == [] <==> forall i :: 0 <= i < |cart| ==> cart[i].product.id == id
  {
    if |cart| > 0 {
      RemoveLinesEmpty(cart[1..], id);
      assert forall i :: 0 < i < |cart| ==> cart[i] == cart[1..][i - 1];
    }
  }

  /** The lines of one product, every variant included. */
  function LinesOf(cart: seq<CartItem>, id: string): seq<CartItem>
  {
    if |cart| == 0 then []
    else (if cart[0].product.id == id then [cart[0]] else []) + LinesOf(cart[1..], id)
  }

  /** An add keeps every quantity positive. */
  lemma AddKeepsQuantitiesPositive(cart: seq<CartItem>, p: Product, size: Option<string>, color: Option<string>)
    requires QuantitiesPositive(cart)
    ensures QuantitiesPositive(AddLine(cart, p, size, color))
  {
  }

  /** A removal keeps every quantity positive. */
  lemma RemoveKeepsQuantitiesPositive(cart: seq<CartItem>, id: string)
    requires QuantitiesPositive(cart)
    ensures QuantitiesPositive(RemoveLines(cart, id))
  {
    var r := RemoveLines(cart, id);
    forall i | 0 <= i < |r| ensures r[i].quantity >= 1 {
      assert r[i] in r;
    }
  }

  // ---------------------------------------------------------------------------------------------
  // Category filter

  /** `catalog.filter(p => p.category === category)`. */
  function FilterCategory(catalog: seq<Product>, category: string): (r: seq<Product>)
    ensures |r| <= |catalog|
    ensures forall p :: p in r <==> p in catalog && p.category.Name() == category
  {
    if |catalog| == 0 then []
    else
      var rest := FilterCategory(catalog[1..], category);
      assert forall p :: p in catalog <==> p == catalog[0] || p in catalog[1..];
      if catalog[0].category.Name() == category then [catalog[0]] + rest else rest
  }

  /** The products shown for the active tab. */
  function FilteredProducts(activeCategory: string): seq<Product>
  {
    if activeCategory == "All" then Catalog.PRODUCTS else FilterCategory(Catalog.PRODUCTS, activeCategory)
  }

  /** The filter keeps catalog order: filtering a concatenation concatenates the filtered parts. */
  lemma {:induction false} FilterCategoryAppend(a: seq<Product>, b: seq<Product>, category: string)
    ensures FilterCategory(a + b, category) == FilterCategory(a, category) + FilterCategory(b, category)
  {
    if |a| == 0 {
      assert a + b == b;
    } else {
      assert (a + b)[1..] == a[1..] + b;
      FilterCategoryAppend(a[1..], b, category);
    }
  }

  /** 'All' shows the whole catalog; any other tab shows exactly the catalog products of that
      category, and a string naming no category shows nothing. */
  lemma FilteredProductsTabs(activeCategory: string)
    ensures activeCategory == "All" ==> FilteredProducts(activeCategory) == Catalog.PRODUCTS
    ensures activeCategory != "All" ==>
              forall p :: p in FilteredProducts(activeCategory) <==>
                          p in Catalog.PRODUCTS && p.category.Name() == activeCategory
    ensures activeCategory !in CATEGORIES ==> FilteredProducts(activeCategory) == []
  {
    if activeCategory !in CATEGORIES {
      FilterNonTabIsEmpty(Catalog.PRODUCTS, activeCategory);
    }
  }

  /** Every category's name is one of the tabs other than 'All'. */
  lemma CategoryNamesAreTabs(c: Category)
    ensures c.Name() in CATEGORIES && c.Name() != "All"
  {
  }

  /** Filtering by a string that is not a tab keeps nothing. */
  lemma {:induction false} FilterNonTabIsEmpty(catalog: seq<Product>, category: string)
    requires category !in CATEGORIES
    ensures FilterCategory(catalog, category) == []
  {
    if |catalog| > 0 {
      CategoryNamesAreTabs(catalog[0].category);
      FilterNonTabIsEmpty(catalog[1..], category);
    }
  }

  // ---------------------------------------------------------------------------------------------
  // Component state

  /** The page's state: the cart, whether the drawer is open, and the active category tab. */
  class Storefront {
    var cart: seq<CartItem>
    var isCartOpen: bool
    var activeCategory: string

    ghost predicate Valid()
      reads this
    {
      QuantitiesPositive(cart)
    }

    constructor ()
      ensures Valid()
      ensures cart == [] && !isCartOpen && activeCategory == "All"
    {
      cart := [];
      isCartOpen := false;
      activeCategory := "All";
    }

    /** Adds one unit of the product (merging with a matching line) and opens the drawer. */
    method AddToCart(product: Product, size: Option<string>, color: Option<string>)
      modifies this
      ensures cart == AddLine(old(cart), product, size, color)
      ensures ItemCount(cart) == ItemCount(old(cart)) + 1
      ensures old(Valid()) ==> Valid()
      ensures isCartOpen && activeCategory == old(activeCategory)
    {
      if QuantitiesPositive(cart) {
        AddKeepsQuantitiesPositive(cart, product, size, color);
      }
      AddCountsOneUnit(cart, product, size, color);
      cart := AddLine(cart, product, size, color);
      isCartOpen := true;
    }

    /** Removes every line of the product, whatever its variant. */
    method RemoveFromCart(id: string)
      modifies this
      ensures cart == RemoveLines(old(cart), id)
      ensures forall i :: 0 <= i < |cart| ==> cart[i].product.id != id
      ensures old(Valid()) ==> Valid()
      ensures isCartOpen == old(isCartOpen) && activeCategory == old(activeCategory)
    {
      if QuantitiesPositive(cart) {
        RemoveKeepsQuantitiesPositive(cart, id);
      }
      cart := RemoveLines(cart, id);
      assert forall i :: 0 <= i < |cart| ==> cart[i] in cart;
    }

    /** Sets the quantity of every line of the product to q, without clamping. */
    method UpdateQuantity(id: string, q: int)
      modifies this
      ensures cart == SetQuantity(old(cart), id, q)
      ensures old(Valid()) && q >= 1 ==> Valid()
      ensures isCartOpen == old(isCartOpen) && activeCategory == old(activeCategory)
    {
      cart := SetQuantity(cart, id, q);
    }

    /** A click on a category tab. */
    method SelectCategory(category: string)
      requires category in CATEGORIES
      modifies this
      ensures activeCategory == category
      ensures cart == old(cart) && isCartOpen == old(isCartOpen)
    {
      activeCategory := category;
    }

    /** The product grid of the current tab. */
    function VisibleProducts(): seq<Product>
      reads this
    {
      FilteredProducts(activeCategory)
    }

    /** The badge on the cart icon. */
    function CartBadge(): Option<int>
      reads this
    {
      Badge(cart)
    }
  }
}
