/** The storefront's records: products, cart lines, chat messages and stylist replies.
    Prices are whole cents; optional TypeScript fields become `Option` values. */
module Types {

  datatype Option<T> = None | Some(value: T)

  /** JavaScript truthiness of an optional string: `undefined` and '' are falsy. */
  predicate Truthy(s: Option<string>)
  {
    s.Some? && s.value != ""
  }

  /** The expression `a || b` on optional strings. */
  function Or(a: Option<string>, b: Option<string>): Option<string>
  {
    if Truthy(a) then a else b
  }

  /** The expression `xs?.[0]`: the first element, absent for a missing or empty list. */
  function First(xs: Option<seq<string>>): Option<string>
  {
    if xs.Some? && |xs.value| > 0 then Some(xs.value[0]) else None
  }

  datatype Category = Tops | Bottoms | Shoes | Accessories | Outerwear
  {
    /** The string literal the TypeScript union uses for this category. */
    function Name(): string
    {
      match this
      case Tops => "Tops"
      case Bottoms => "Bottoms"
      case Shoes => "Shoes"
      case Accessories => "Accessories"
      case Outerwear => "Outerwear"
    }
  }

  datatype Style = Casual | Formal | Sporty | Streetwear

  /** A price in whole cents; never negative. */
  type Cents = nat

  datatype Product = Product(
    id: string,
    name: string,
    price: Cents,
    category: Category,
    image: string,
    description: string,
    color: string,
    style: Style,
    availableSizes: Option<seq<string>>,
    availableColors: Option<seq<string>>)

  /** A cart line: the product's fields (kept as one record) plus the quantity and the chosen variant.
      The quantity is whatever the last update stored; the ledger does not clamp it. */
  datatype CartItem = CartItem(
    product: Product,
    quantity: int,
    selectedSize: Option<string>,
    selectedColor: Option<string>)

  datatype Role = User | Model

  /** A transcript entry; the id and the timestamp of the source record are not modelled. */
  datatype ChatMessage = ChatMessage(
    role: Role,
    text: string,
    image: Option<string>,
    recommendations: Option<seq<string>>)

  datatype StylistResponse = StylistResponse(message: string, recommendedProductIds: seq<string>)
}
