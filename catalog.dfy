/** The fixed product catalog and lookup by id (`PRODUCTS.find(p => p.id === id)`). */
module Catalog {
  import opened Types

  /** The eight products of the store, prices in cents. */
  const PRODUCTS: seq<Product> := [
    Product("p1", "Classic White Tee", 2999, Tops,
      "https://images.unsplash.com/photo-1521572163474-6864f9cf17ab?auto=format&fit=crop&q=80&w=800",
      "A premium cotton basic for every wardrobe.", "White", Casual,
      Some(["S", "M", "L", "XL"]), Some(["White", "Heather Grey", "Black"])),
    Product("p2", "Slim Fit Indigo Jeans", 8999, Bottoms,
      "https://images.unsplash.com/photo-1542272604-787c3835535d?auto=format&fit=crop&q=80&w=800",
      "Deep blue denim with a modern tapered cut.", "Blue", Casual,
      Some(["30", "32", "34", "36"]), Some(["Indigo", "Light Wash", "Black"])),
    Product("p3", "Black Leather Biker Jacket", 19999, Outerwear,
      "https://images.unsplash.com/photo-1551028719-00167b16eac5?auto=format&fit=crop&q=80&w=800",
      "High-quality leather jacket for an edgy look.", "Black", Streetwear,
      Some(["M", "L", "XL"]), Some(["Black", "Dark Brown"])),
    Product("p4", "Minimalist White Sneakers", 12000, Shoes,
      "https://images.unsplash.com/photo-1549298916-b41d501d3772?auto=format&fit=crop&q=80&w=800",
      "Clean design that pairs with everything.", "White", Casual,
      Some(["8", "9", "10", "11", "12"]), Some(["White", "Off-White"])),
    Product("p5", "Charcoal Wool Blazer", 15900, Outerwear,
      "https://images.unsplash.com/photo-1591047139829-d91aecb6caea?auto=format&fit=crop&q=80&w=800",
      "Sophisticated layer for formal occasions.", "Grey", Formal,
      Some(["38R", "40R", "42R", "44R"]), Some(["Charcoal", "Navy"])),
    Product("p6", "Linen Button-Up Shirt", 6500, Tops,
      "https://images.unsplash.com/photo-1596755094514-f87e34085b2c?auto=format&fit=crop&q=80&w=800",
      "Breathable fabric for summer days.", "Beige", Casual,
      Some(["S", "M", "L", "XL"]), Some(["Beige", "Light Blue", "White"])),
    Product("p7", "Chino Trousers", 7500, Bottoms,
      "https://images.unsplash.com/photo-1473966968600-fa804b86d27b?auto=format&fit=crop&q=80&w=800",
      "Versatile cotton chinos in sand color.", "Sand", Casual,
      Some(["30", "32", "34", "36"]), Some(["Sand", "Olive", "Navy"])),
    Product("p8", "Silver Watch", 25000, Accessories,
      "https://images.unsplash.com/photo-1524592094714-0f0654e20314?auto=format&fit=crop&q=80&w=800",
      "Timeless accessory for any outfit.", "Silver", Formal,
      Some(["One Size"]), Some(["Silver", "Gold"]))
  ]

  /** No two products share an id. */
  predicate UniqueIds(catalog: seq<Product>)
  {
    forall i, j :: 0 <= i < j < |catalog| ==> catalog[i].id != catalog[j].id
  }

  /** An option list that is present, non-empty and whose first entry is not ''. */
  predicate HasDefault(options: Option<seq<string>>)
  {
    options.Some? && |options.value| > 0 && options.value[0] != ""
  }

  /** The first product with the given id, or None when no product has it. */
  function FindById(catalog: seq<Product>, id: string): (r: Option<Product>)
    ensures r.None? <==> forall i :: 0 <= i < |catalog| ==> catalog[i].id != id
    ensures r.Some? ==> exists k :: 0 <= k < |catalog| && catalog[k] == r.value && r.value.id == id &&
                                    forall j :: 0 <= j < k ==> catalog[j].id != id
  {
    if |catalog| == 0 then None
    else if catalog[0].id == id then Some(catalog[0])
    else
      var r := FindById(catalog[1..], id);
      assert forall i :: 0 < i < |catalog| ==> catalog[i] == catalog[1..][i - 1];
      if r.Some? then
        ghost var k :| 0 <= k < |catalog[1..]| && catalog[1..][k] == r.value && r.value.id == id &&
                       forall j :: 0 <= j < k ==> catalog[1..][j].id != id;
        assert catalog[k + 1] == r.value;
        r
      else r
  }

  /** In a catalog with unique ids, looking up a product's id finds exactly that product. */
  lemma FindByIdUnique(catalog: seq<Product>, i: nat)
    requires UniqueIds(catalog)
    requires i < |catalog|
    ensures FindById(catalog, catalog[i].id) == Some(catalog[i])
  {
    var r := FindById(catalog, catalog[i].id);
    var k :| 0 <= k < |catalog| && catalog[k] == r.value && r.value.id == catalog[i].id &&
             forall j :: 0 <= j < k ==> catalog[j].id != catalog[i].id;
    assert k == i;
  }

  /** Product ids p1 to p8 are pairwise distinct. */
  lemma CatalogIdsUnique()
    ensures |PRODUCTS| == 8
    ensures UniqueIds(PRODUCTS)
    ensures forall i :: 0 <= i < |PRODUCTS| ==> PRODUCTS[i].id == ["p1", "p2", "p3", "p4", "p5", "p6", "p7", "p8"][i]
  {
  }

  /** Every product lists sizes and colours, and their first entries are non-empty, so a
      missing size or colour argument always resolves to a stored value. */
  lemma CatalogVariantsPresent()
    ensures forall i :: 0 <= i < |PRODUCTS| ==> HasDefault(PRODUCTS[i].availableSizes)
    ensures forall i :: 0 <= i < |PRODUCTS| ==> HasDefault(PRODUCTS[i].availableColors)
  {
  }

  /** The prices, in cents, in catalog order. */
  lemma CatalogPrices()
    ensures |PRODUCTS| == 8
    ensures forall i :: 0 <= i < |PRODUCTS| ==>
              PRODUCTS[i].price == [2999, 8999, 19999, 12000, 15900, 6500, 7500, 25000][i]
  {
  }

  /** Categories and styles, in catalog order; both are enumerations, so no other value occurs. */
  lemma CatalogCategoriesAndStyles()
    ensures |PRODUCTS| == 8
    ensures forall i :: 0 <= i < |PRODUCTS| ==>
              PRODUCTS[i].category == [Tops, Bottoms, Outerwear, Shoes, Outerwear, Tops, Bottoms, Accessories][i]
    ensures forall i :: 0 <= i < |PRODUCTS| ==>
              PRODUCTS[i].style == [Casual, Casual, Streetwear, Casual, Formal, Casual, Casual, Formal][i]
  {
  }
}
