/** The cart drawer: the subtotal, the quantity requests of its -/+ buttons, the product id its
    remove button passes, and which of its two views is shown. */
module CartDrawer {
  import opened Types
  import opened App

  /** `items.reduce((sum, item) => sum + item.price * item.quantity, 0)` in cents, folded from the left. */
  function Subtotal(items: seq<CartItem>): int
  {
    if |items| == 0 then 0
    else Subtotal(items[..|items| - 1]) + items[|items| - 1].product.price * items[|items| - 1].quantity
  }

  /** Reference sum of price times quantity over the lines, taken from the front. */
  function LineSum(items: seq<CartItem>): int
  {
    if |items| == 0 then 0 else items[0].product.price * items[0].quantity + LineSum(items[1..])
  }

  /** The request of the '-' button: `Math.max(1, quantity - 1)`. */
  function DecrementRequest(quantity: int): (r: int)
    ensures r >= 1
    ensures quantity >= 2 ==> r == quantity - 1
    ensures quantity <= 2 ==> r == 1
  {
    if 1 >= quantity - 1 then 1 else quantity - 1
  }

  /** The request of the '+' button. */
  function IncrementRequest(quantity: int): int
  {
    quantity + 1
  }

  /** The id the remove button of a line passes: the line's product id, not its variant. */
  function RemoveRequest(item: CartItem): string
  {
    item.product.id
  }

  /** The "Your cart is empty" view. */
  predicate ShowsEmptyState(items: seq<CartItem>)
  {
    |items| == 0
  }

  /** The subtotal and checkout footer. */
  predicate ShowsFooter(items: seq<CartItem>)
  {
    |items| > 0
  }

  /** The reference sum is additive over concatenation. */
  lemma {:induction false} LineSumAppend(a: seq<CartItem>, b: seq<CartItem>)
    ensures LineSum(a + b) == LineSum(a) + LineSum(b)
  {
    if |a| == 0 {
      assert a + b == b;
    } else {
      assert (a + b)[1..] == a[1..] + b;
      LineSumAppend(a[1..], b);
    }
  }

  /** The drawer's left fold equals the sum of price times quantity over all lines; an empty cart
      has subtotal 0. */
  lemma {:induction false} SubtotalIsLineSum(items: seq<CartItem>)
    ensures Subtotal(items) == LineSum(items)
    ensures items == [] ==> Subtotal(items) == 0
  {
    if |items| > 0 {
      var n := |items|;
      SubtotalIsLineSum(items[..n - 1]);
      LineSumAppend(items[..n - 1], [items[n - 1]]);
      assert items[..n - 1] + [items[n - 1]] == items;
      assert LineSum([items[n - 1]]) == items[n - 1].product.price * items[n - 1].quantity by {
        assert [items[n - 1]][1..] == [];
      }
    }
  }

  /** With positive quantities the subtotal is never negative. */
  lemma {:induction false} SubtotalNonNegative(items: seq<CartItem>)
    requires QuantitiesPositive(items)
    ensures Subtotal(items) >= 0
  {
    if |items| > 0 {
      SubtotalNonNegative(items[..|items| - 1]);
    }
  }

  /** Replacing one line changes the subtotal by the change in that line's price times quantity. */
  lemma {:induction false} SubtotalUpdate(items: seq<CartItem>, k: nat, x: CartItem)
    requires k < |items|
    ensures Subtotal(items[k := x]) ==
            Subtotal(items) - items[k].product.price * items[k].quantity + x.product.price * x.quantity
  {
    var n := |items|;
    if k == n - 1 {
      assert items[k := x][..n - 1] == items[..n - 1];
    } else {
      assert items[k := x][..n - 1] == items[..n - 1][k := x];
      SubtotalUpdate(items[..n - 1], k, x);
    }
  }

  /** Appending a line adds its price times quantity to the subtotal. */
  lemma SubtotalAppendLine(cart: seq<CartItem>, line: CartItem)
    ensures Subtotal(cart + [line]) == Subtotal(cart) + line.product.price * line.quantity
  {
    assert (cart + [line])[..|cart|] == cart;
  }

  /** Raising one line's quantity by one adds that line's price to the subtotal. */
  lemma SubtotalIncrementLine(cart: seq<CartItem>, k: nat)
    requires k < |cart|
    ensures Subtotal(cart[k := cart[k].(quantity := cart[k].quantity + 1)]) == Subtotal(cart) + cart[k].product.price
  {
    var x := cart[k].(quantity := cart[k].quantity + 1);
    SubtotalUpdate(cart, k, x);
    var price, q := cart[k].product.price, cart[k].quantity;
    assert price * (q + 1) == price * q + price;
  }

  /** When every line of the product carries that same product record (as it does for products
      taken from the catalog), an add raises the subtotal by exactly the product's price. */
  lemma {:induction false} SubtotalAfterAdd(cart: seq<CartItem>, p: Product, size: Option<string>, color: Option<string>)
    requires forall i :: 0 <= i < |cart| && cart[i].product.id == p.id ==> cart[i].product == p
    ensures Subtotal(AddLine(cart, p, size, color)) == Subtotal(cart) + p.price
  {
    var k := FindLine(cart, p.id, size, color);
    if k > -1 {
      assert cart[k].product == p;
      SubtotalIncrementLine(cart, k);
    } else {
      var line := NewLine(p, size, color);
      assert line.quantity == 1 && line.product == p;
      SubtotalAppendLine(cart, line);
      assert line.product.price * line.quantity == p.price;
    }
  }

  /** A '-' or '+' click on line k sets every line of that product to the same requested quantity,
      leaves the other products' lines alone, and keeps every quantity at least 1. The '-' click
      lowers a quantity of 2 or more by one. */
  lemma QuantityClick(cart: seq<CartItem>, k: nat, decrement: bool)
    requires k < |cart| && QuantitiesPositive(cart)
    ensures var id := cart[k].product.id;
      var q := if decrement then DecrementRequest(cart[k].quantity) else IncrementRequest(cart[k].quantity);
      var r := SetQuantity(cart, id, q);
      && QuantitiesPositive(r)
      && |r| == |cart|
      && (forall i :: 0 <= i < |r| && r[i].product.id == id ==> r[i].quantity == r[k].quantity == q)
      && (forall i :: 0 <= i < |r| && cart[i].product.id != id ==> r[i] == cart[i])
      && (decrement && cart[k].quantity >= 2 ==> r[k].quantity == cart[k].quantity - 1)
      && (!decrement ==> r[k].quantity == cart[k].quantity + 1)
  {
  }

  /** The remove button of any line removes every variant of its product: no line of that product
      is left, the line itself is gone, and all other products' lines stay. */
  lemma RemoveButtonRemovesAllVariants(cart: seq<CartItem>, k: nat)
    requires k < |cart|
    ensures var r := RemoveLines(cart, RemoveRequest(cart[k]));
      && (forall i :: 0 <= i < |r| ==> r[i].product.id != cart[k].product.id)
      && cart[k] !in r
      && (forall x :: x in cart && x.product.id != cart[k].product.id ==> x in r)
  {
    var r := RemoveLines(cart, RemoveRequest(cart[k]));
    assert forall i :: 0 <= i < |r| ==> r[i] in r;
  }

  /** What the drawer shows after each cart operation: after an add, the footer and never the empty
      state; after a remove, the empty state exactly when every line was of the removed product; a
      quantity change never switches the view, even to a quantity below 1. */
  lemma DrawerViewAfterEdits(cart: seq<CartItem>, p: Product, size: Option<string>, color: Option<string>,
                             id: string, q: int)
    ensures ShowsFooter(AddLine(cart, p, size, color)) && !ShowsEmptyState(AddLine(cart, p, size, color))
    ensures ShowsEmptyState(RemoveLines(cart, id)) <==> forall i :: 0 <= i < |cart| ==> cart[i].product.id == id
    ensures ShowsFooter(RemoveLines(cart, id)) <==> exists i :: 0 <= i < |cart| && cart[i].product.id != id
    ensures ShowsEmptyState(SetQuantity(cart, id, q)) == ShowsEmptyState(cart)
    ensures ShowsFooter(SetQuantity(cart, id, q)) == ShowsFooter(cart)
  {
    RemoveLinesEmpty(cart, id);
  }
}
