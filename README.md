# LumiStyle storefront — a Dafny model

LumiStyle is a single-page fashion storefront. It has a fixed catalog of eight products, a category
filter, a cart drawer and an "AI stylist" chat. The chat sends the shopper's text and optional photo
to a hosted language model. The model's reply names product ids, and the chat renders those
products as compact cards that add straight to the cart.

This project models the page's logic in Dafny, with one module per source file:

| module | source | form |
|---|---|---|
| `Types` | `types.ts` | datatypes for products, cart lines, chat messages and replies; JavaScript truthiness of optional strings |
| `Catalog` | `constants.ts` | the eight products as a constant; lookup by id |
| `App` | `App.tsx` | the cart updaters (add, remove, set quantity), the badge count and the category filter as functions; the page state as class `Storefront` |
| `CartDrawer` | `components/CartDrawer.tsx` | the subtotal, the `-`/`+`/remove requests and the two views |
| `ProductCard` | `components/ProductCard.tsx` | the add arguments of both layouts; the selection state as class `Card` |
| `GeminiService` | `services/geminiService.ts` | the request built for the hosted model, and the fallbacks applied to its reply |
| `StylistChat` | `components/StylistChat.tsx` | the send guard, the prompt and the image payload; recommendation rendering; the chat state as class `Chat` |

Conventions:
- Prices are whole cents (`nat`). The catalog's prices all have at most two decimals, so the cent
  values are exact.
- Quantities are unbounded `int`. `updateQuantity` stores any number it is given; the only clamp is
  the drawer's `-` button (see below).
- An optional string is `Option<string>`. It is truthy when it is present and non-empty.

The hosted model call is not part of the state. `GetStylistAdvice` takes two parameters instead:
- the configured API key, where `""` means unset;
- a `CallOutcome`: the call threw, returned empty text, returned text that does not parse, or
  parsed into an object with optional `message` and `recommendedProductIds` fields.

The model also returns the `Request` it would send, so its contract can say what reaches the
hosted model. `handleSend` is split at its `await`:
- `Chat.Submit` is the part before the await;
- `Chat.Receive` is the part after it;
- `Chat.HandleSend` runs the two in sequence.

Behaviour the code has, modelled as written:
- **Merge key of add.** `addToCart` looks for an existing line by comparing the raw `size`/`color`
  arguments with the line's stored values. A new line stores each argument, or when it is missing
  the product's first option. The full card's buttons pass no size or colour, while the stored line
  has both. So repeated full-card adds never merge: each one appends a new line of quantity 1
  (`App.RepeatedDefaultAddsDoNotMerge`, `ProductCard.CatalogFullCardsDoNotMerge`). Compact-card
  adds with non-empty selections do merge (`App.RepeatedVariantAddsMerge`,
  `ProductCard.CatalogCompactCardsMerge`). A compact card for a product with no size list passes
  `''` but stores no size, so those adds do not merge either
  (`ProductCard.CompactAddsWithoutSizesDoNotMerge`).
- **Remove and set quantity act on the product id, not the variant.** The remove button of one line
  removes every line of that product. A `-`/`+` click sets every line of that product to the one
  quantity computed from the clicked line (`CartDrawer.RemoveButtonRemovesAllVariants`,
  `CartDrawer.QuantityClick`).
- **`updateQuantity` does not clamp.** A quantity below 1 is stored as given. Only the drawer's
  `-` button clamps, with `Math.max(1, q - 1)`. So `Storefront.UpdateQuantity` keeps quantities
  positive only for `q >= 1`.
- **The Enter key is not gated by loading.** The send button is disabled while a reply is pending,
  but the Enter handler calls `handleSend` anyway. Two sends can therefore overlap, and the first
  reply clears the loading flag while the second is still outstanding (`StylistChat.OverlappingSends`).
- **The client is constructed outside the `try`.** The model assumes that constructing it never
  throws; see Left out.

## Model

| member | source | states |
|---|---|---|
| Catalog.FindById | components/StylistChat.tsx:120 | `PRODUCTS.find` by id: None exactly when no product has the id; otherwise the first product with that id |
| Catalog.FindByIdUnique | components/StylistChat.tsx:120 | in a catalog with distinct ids, looking up the id of product i finds product i |
| Catalog.CatalogIdsUnique | constants.ts:4-101 | the catalog has eight products with ids p1..p8 in order, all distinct |
| Catalog.CatalogVariantsPresent | constants.ts:4-101 | every product lists sizes and colours whose first entries are non-empty |
| Catalog.CatalogPrices | constants.ts:4-101 | the eight prices in cents, in catalog order |
| Catalog.CatalogCategoriesAndStyles | constants.ts:4-101 | the category and style of each product, in catalog order |
| Types.Truthy | App.tsx:36-37 | definition of JavaScript truthiness for an optional string (absent and '' are falsy); used by the add lemmas below |
| Types.Or | App.tsx:36-37 | definition of JavaScript `or` on optional strings (the left one when truthy); characterised by App.AddAppendsNewLine |
| Types.First | App.tsx:36-37 | definition of `xs?.[0]`; characterised by App.AddAppendsNewLine and ProductCard.InitialSelection |
| App.FindLine | App.tsx:18-22 | `findIndex` of the merge test: -1 exactly when no line matches; otherwise a matching line with no match before it |
| App.NewLine | App.tsx:33-38 | definition of the appended line; characterised by App.AddAppendsNewLine |
| App.AddLine | App.tsx:16-39 | definition of the add updater; characterised by App.AddMergesFirstMatch, App.AddAppendsNewLine and App.AddCountsOneUnit |
| App.AddTimes | App.tsx:16-39 | definition of n successive adds; characterised by App.RepeatedVariantAddsMerge and App.RepeatedDefaultAddsDoNotMerge |
| App.AddMergesFirstMatch | App.tsx:24-31 | when a line matches, add raises that line's quantity by one in place and changes nothing else |
| App.AddAppendsNewLine | App.tsx:33-38 | when no line matches, add keeps the cart and appends one line of quantity 1 with the argument-or-first-option size and colour |
| App.AddCountsOneUnit | App.tsx:15-38 | every add raises the unit count by exactly one, and the badge then shows the new count |
| App.RepeatedDefaultAddsDoNotMerge | App.tsx:18-38 | two adds without a size, for a product with sizes, leave two new lines of quantity 1 |
| App.FindLineAfterPrefix | App.tsx:18-22 | a line appended after lines that do not match is the one the merge test finds |
| App.FirstVariantAdd | App.tsx:33-38 | an add with truthy size and colour to a cart without that variant appends a line holding exactly them, quantity 1 |
| App.NextVariantAdd | App.tsx:24-31 | an add matching only the last line raises its quantity by one |
| App.RepeatedVariantAddsMerge | App.tsx:18-38 | n adds with the same non-empty size and colour, starting from no match, append a single line of quantity n |
| App.RemoveLines | App.tsx:46 | the lines left are exactly the cart's lines of other products, and the cart never grows |
| App.RemoveLinesAppend | App.tsx:46 | removal distributes over concatenation, so order is kept |
| App.RemoveAbsentIsNoop | App.tsx:46 | removing an id that no line has leaves the cart unchanged |
| App.RemoveLinesCount | App.tsx:46 | removal drops exactly the lines of that product |
| App.RemoveLinesEmpty | App.tsx:46 | removal empties the cart exactly when every line is of the removed product |
| App.RemoveKeepsQuantitiesPositive | App.tsx:46 | removal keeps every quantity positive |
| App.SetQuantity | App.tsx:50 | every line of the product gets quantity q, unclamped; the other lines are unchanged and the length is kept |
| App.AddKeepsQuantitiesPositive | App.tsx:15-38 | add keeps every quantity positive |
| App.ItemCount | App.tsx:82 | definition of the unit-count fold; characterised by App.ItemCountAppend, App.ItemCountUpdate and App.AddCountsOneUnit |
| App.Badge | App.tsx:80-84 | definition of the badge: shown only for a non-empty cart, holding the unit count; characterised by App.AddCountsOneUnit |
| App.ItemCountAppend | App.tsx:82 | the badge fold is additive over concatenation |
| App.ItemCountUpdate | App.tsx:82 | replacing one line changes the badge fold by that line's change in quantity |
| App.FilterCategory | App.tsx:56 | the filtered products are exactly the catalog's products of that category, and there are no more of them than in the catalog |
| App.FilterCategoryAppend | App.tsx:56 | filtering distributes over concatenation, so catalog order is kept |
| App.CategoryNamesAreTabs | App.tsx:53 | every product category's name is a tab other than 'All' |
| App.FilterNonTabIsEmpty | App.tsx:56 | filtering by a string that is not a tab keeps no product |
| App.FilteredProducts | App.tsx:54-56 | definition of the grid's product list; characterised by App.FilteredProductsTabs |
| App.FilteredProductsTabs | App.tsx:53-56 | 'All' shows the whole catalog; any other tab shows exactly the products of that category; a string that is not a tab shows nothing |
| App.Storefront.constructor | App.tsx:11-13 | empty cart, cart closed, tab 'All' |
| App.Storefront.AddToCart | App.tsx:15-41 | the cart becomes the add updater's result, gains one unit and stays positive; the drawer opens |
| App.Storefront.RemoveFromCart | App.tsx:43-47 | the cart becomes the remove updater's result, with no line of that id left |
| App.Storefront.UpdateQuantity | App.tsx:49-51 | the cart becomes the set-quantity result; quantities stay positive when q >= 1 |
| App.Storefront.SelectCategory | App.tsx:128-131 | a tab click sets the active category and nothing else |
| App.Storefront.VisibleProducts | App.tsx:145 | definition: the grid shows the filtered list of the active tab; characterised by App.FilteredProductsTabs |
| App.Storefront.CartBadge | App.tsx:80-84 | definition: the badge of the current cart; after AddToCart it shows the unit count, by App.AddCountsOneUnit |
| CartDrawer.Subtotal | components/CartDrawer.tsx:15 | definition of the subtotal fold; characterised by CartDrawer.SubtotalIsLineSum against the reference CartDrawer.LineSum, and by CartDrawer.SubtotalAfterAdd |
| CartDrawer.LineSum | components/CartDrawer.tsx:15 | reference sum of price times quantity, taken from the front |
| CartDrawer.LineSumAppend | components/CartDrawer.tsx:15 | the reference sum is additive over concatenation |
| CartDrawer.SubtotalIsLineSum | components/CartDrawer.tsx:15 | the subtotal fold equals the sum of price times quantity over the lines; the empty cart's subtotal is 0 |
| CartDrawer.SubtotalNonNegative | components/CartDrawer.tsx:15 | with positive quantities the subtotal is never negative |
| CartDrawer.SubtotalUpdate | components/CartDrawer.tsx:15 | replacing one line changes the subtotal by the difference in its price times quantity |
| CartDrawer.SubtotalAppendLine | components/CartDrawer.tsx:15 | appending a line adds its price times quantity |
| CartDrawer.SubtotalIncrementLine | components/CartDrawer.tsx:15 | raising one line's quantity by one adds its price |
| CartDrawer.SubtotalAfterAdd | components/CartDrawer.tsx:15 | when the product's lines carry the product itself, any add raises the subtotal by exactly the product's price |
| CartDrawer.DecrementRequest | components/CartDrawer.tsx:72 | the '-' request is at least 1; it is q-1 for q >= 2 and 1 otherwise |
| CartDrawer.IncrementRequest | components/CartDrawer.tsx:77 | definition of the '+' request; characterised by CartDrawer.QuantityClick |
| CartDrawer.QuantityClick | components/CartDrawer.tsx:72-77 | a '-'/'+' click sets every line of the clicked product to one quantity, keeps the other products' lines and keeps quantities positive; '-' lowers a quantity of 2 or more by one, '+' raises it by one |
| CartDrawer.RemoveRequest | components/CartDrawer.tsx:52 | definition: the remove button passes the product id, not the variant; characterised by CartDrawer.RemoveButtonRemovesAllVariants |
| CartDrawer.RemoveButtonRemovesAllVariants | components/CartDrawer.tsx:52 | a line's remove button removes that line and every other line of its product, keeping all other products' lines |
| CartDrawer.ShowsEmptyState | components/CartDrawer.tsx:37 | definition of the empty-state view; characterised by CartDrawer.DrawerViewAfterEdits |
| CartDrawer.ShowsFooter | components/CartDrawer.tsx:88 | definition of the subtotal footer; characterised by CartDrawer.DrawerViewAfterEdits |
| CartDrawer.DrawerViewAfterEdits | components/CartDrawer.tsx:37-98 | after an add the footer shows and the empty state never does; after a remove the empty state shows exactly when every line was of the removed product; a quantity change never switches the view |
| ProductCard.InitialSelection | components/ProductCard.tsx:13-14 | the initial selection is the first option, or '' when there is none |
| ProductCard.AddArguments | components/ProductCard.tsx:58-95 | definition of what the add buttons pass; characterised by ProductCard.CompactAddsMerge, ProductCard.CatalogFullCardsDoNotMerge and ProductCard.Card.AddClick |
| ProductCard.CompactAddsMerge | components/ProductCard.tsx:58-59 | repeated compact adds with unchanged non-empty selections give one line whose quantity counts the clicks |
| ProductCard.CompactAddsWithoutSizesDoNotMerge | components/ProductCard.tsx:13-59 | for a product with no sizes, two compact clicks append two equal lines of quantity 1 that store no size, after the unchanged cart |
| ProductCard.CatalogCompactCardsMerge | components/ProductCard.tsx:13-59 | for every catalog product, n clicks on a fresh compact card give one line of quantity n |
| ProductCard.FullCardAddsDoNotMerge | components/ProductCard.tsx:77-91 | for a product with sizes, two adds without arguments append two equal default lines after the unchanged cart |
| ProductCard.CatalogFullCardsDoNotMerge | components/ProductCard.tsx:77-91 | for every catalog product and whatever the card's selections, two full-card clicks append two equal default lines of quantity 1 after the unchanged cart |
| ProductCard.Card.constructor | components/ProductCard.tsx:12-14 | a card starts at its initial selections, which are valid |
| ProductCard.Card.SelectSize | components/ProductCard.tsx:34-39 | on a compact card, choosing an offered size records it, keeps the colour and keeps the selections valid |
| ProductCard.Card.SelectColor | components/ProductCard.tsx:46-51 | on a compact card, choosing an offered colour records it, keeps the size and keeps the selections valid |
| ProductCard.Card.SizeSelector | components/ProductCard.tsx:32-43 | the size dropdown shows exactly on a compact card whose product has sizes; it offers those sizes in order, and its value is among its options |
| ProductCard.Card.ColorSelector | components/ProductCard.tsx:44-55 | the same for the colour dropdown |
| ProductCard.Card.AddClick | components/ProductCard.tsx:58-95 | a compact card's click passes a size and a colour among the product's options ('' when it lists none); a full card's click passes neither |
| GeminiService.Project | services/geminiService.ts:13-21 | definition of one catalog entry; characterised by GeminiService.ProjectionShowsExactlyPromptFields |
| GeminiService.CatalogProjection | services/geminiService.ts:13-21 | one entry per product, in order, each the product's prompt fields |
| GeminiService.ProjectionShowsExactlyPromptFields | services/geminiService.ts:13-21 | two products project equally exactly when they agree on id, name, style, colour, category, sizes and colours |
| GeminiService.ProjectionIdsAreCatalogIds | services/geminiService.ts:12-21 | an id occurs in the projection exactly when the catalog lookup finds it |
| GeminiService.StoreProjection | services/geminiService.ts:13-21 | the instruction lists the eight products, p1..p8, with distinct ids |
| GeminiService.ReplyToResponse | services/geminiService.ts:94-107 | the message is never empty; a failed call, an empty text or a bad parse give the apology with no ids; a parsed reply keeps a truthy message (else the curated line) and present ids (else none) |
| GeminiService.WellFormedReplyUnchanged | services/geminiService.ts:97-101 | a reply with a non-empty message and ids is passed through unchanged |
| GeminiService.GetStylistAdvice | services/geminiService.ts:44-109 | without a key: the missing-key reply and no request. With a key: a request with the model name, JSON response type and catalog projection, whose first part is the prompt (or the default) and whose second part, present exactly for a truthy image, is the JPEG data; the reply follows the fallbacks; the message is never empty |
| StylistChat.IsWhitespace | components/StylistChat.tsx:48 | definition of the characters `trim()` removes: ECMAScript WhiteSpace and LineTerminator |
| StylistChat.TrimStart | components/StylistChat.tsx:48 | the result is empty exactly for all-whitespace input, and otherwise starts with a non-whitespace character |
| StylistChat.TrimEnd | components/StylistChat.tsx:48 | the result is empty exactly for all-whitespace input |
| StylistChat.Trim | components/StylistChat.tsx:48 | definition of `trim()`; characterised by StylistChat.TrimEmptyIffBlank |
| StylistChat.TrimEmptyIffBlank | components/StylistChat.tsx:48 | `trim()` gives '' exactly when every character is whitespace |
| StylistChat.CanSend | components/StylistChat.tsx:48 | definition of the send guard; characterised by StylistChat.SendButtonMatchesGuard and StylistChat.Chat.Submit |
| StylistChat.SendDisabled | components/StylistChat.tsx:179 | definition of the button's `disabled`; characterised by StylistChat.SendButtonMatchesGuard |
| StylistChat.SendButtonMatchesGuard | components/StylistChat.tsx:179 | the send button is enabled exactly when nothing is loading and the send guard passes, i.e. the input has a non-whitespace character or an image is selected |
| StylistChat.PromptFor | components/StylistChat.tsx:65 | the prompt is the raw input when it is non-empty, else the image prompt; it is never empty |
| StylistChat.Split | components/StylistChat.tsx:62 | a split always has at least one field |
| StylistChat.FirstComma | components/StylistChat.tsx:62 | the first comma's index, or -1 exactly when there is none |
| StylistChat.SplitAtFirstComma | components/StylistChat.tsx:62 | the first field is the text before the first comma (all of it without one); the rest is the split of what follows |
| StylistChat.ImagePayload | components/StylistChat.tsx:62 | definition of `selectedImage?.split(',')[1]`; characterised by StylistChat.PayloadBetweenCommas |
| StylistChat.PayloadBetweenCommas | components/StylistChat.tsx:62 | the payload is absent without an image or without a comma; otherwise it is the text between the first comma and the next one, or the end; it never contains a comma |
| StylistChat.UserMessage | components/StylistChat.tsx:50-56 | definition of the user message: the untrimmed input, and the image only when truthy; used by StylistChat.Chat.Submit |
| StylistChat.ModelMessage | components/StylistChat.tsx:67-73 | definition of the model message carrying the reply's ids; used by StylistChat.Chat.Receive and StylistChat.AdviceCards |
| StylistChat.ResolveIds | components/StylistChat.tsx:119-129 | recommended cards are never more than the ids; each is a catalog product whose id was recommended |
| StylistChat.Recommendations | components/StylistChat.tsx:116-129 | a message without ids renders no cards; a message with ids renders exactly their resolution, so the length test hides nothing; only catalog products appear |
| StylistChat.AdviceCards | components/StylistChat.tsx:116-129 | the missing-key reply and the apology render no cards; a parsed reply renders the products of its ids (none when the field is missing) |
| StylistChat.KnownIds | components/StylistChat.tsx:119-129 | reference: the ids the catalog knows, in order; related to StylistChat.ResolveIds by StylistChat.ResolvedAreKnown |
| StylistChat.ResolvedAreKnown | components/StylistChat.tsx:119-129 | the cards are, in order, the products of the ids that the catalog knows; unknown ids are skipped |
| StylistChat.ResolveIdsAppend | components/StylistChat.tsx:119-129 | resolution distributes over concatenation, so the reply's order is kept |
| StylistChat.KnownThenUnknown | components/StylistChat.tsx:119-129 | in any catalog, a known id followed by an unknown one renders only the known product |
| StylistChat.UnknownIdSkipped | components/StylistChat.tsx:119-129 | with the store's catalog, ["p1", "zzz"] renders only the first product |
| StylistChat.RecommendedCardsMerge | components/StylistChat.tsx:119-127 | every recommended card is a compact catalog card, so n clicks on it give one line of quantity n |
| StylistChat.Chat.constructor | components/StylistChat.tsx:15-25 | the transcript is the model's greeting alone (no image, no recommendations), the input is empty, nothing is loading and no image is selected |
| StylistChat.Chat.SetInput | components/StylistChat.tsx:173 | typing replaces the input and nothing else |
| StylistChat.Chat.AttachImage | components/StylistChat.tsx:36-45 | a read file becomes the selected image |
| StylistChat.Chat.ClearImage | components/StylistChat.tsx:150 | the preview's remove button clears the image |
| StylistChat.Chat.Submit | components/StylistChat.tsx:47-63 | a blocked send changes nothing; otherwise it appends the user message, clears input and image, sets loading and yields the prompt and image payload |
| StylistChat.Chat.Receive | components/StylistChat.tsx:67-76 | the reply is appended as a model message with its ids, and loading ends |
| StylistChat.Chat.HandleSend | components/StylistChat.tsx:47-77 | a blocked send changes nothing. Otherwise: the transcript gains the user message, then a non-empty model message (missing-key reply or the fallbacks); input and image are cleared; loading ends; a request is made exactly when a key is set, carrying the prompt and the image payload when truthy |
| StylistChat.OverlappingSends | components/StylistChat.tsx:174 | a second send during a pending reply puts both user messages before the first reply, which clears the loading flag |
| StylistChat.SendKeepsHistory | components/StylistChat.tsx:58-75 | a send never removes or changes an earlier message, and the greeting stays first |

## Left out

- Rendering: layout, styling, icons, images, the hero and footer, `toFixed(2)` price formatting and
  message timestamps. Prices are exact cents instead of binary floating point.
- The cart icon and the drawer's close, backdrop and "Start Shopping" handlers. They only set
  `isCartOpen`. The model keeps `isCartOpen` but only `AddToCart` changes it.
- The chat panel's open/close toggle and the scroll-to-bottom effect. They are presentation only.
- Message ids taken from `Date.now()`, and `new Date()` timestamps. The clock is outside the model.
- `FileReader`: `AttachImage` receives the data URI the reader produces. Reading the file is I/O.
- The hosted model SDK, `JSON.parse` and `JSON.stringify` are foreign code. The model stands for
  them with `CallOutcome`. The output of `JSON.stringify` is the list of `CatalogEntry` values
  and is not a string.
- The system instruction's prose and the response schema are fixed text sent to the hosted model,
  and they constrain nothing on the client side.
- `console.error` in the failure branch. It is logging only.
- React's batching and asynchronous scheduling: the event handlers run one after another.
  `OverlappingSends` shows one interleaving, not all of them.
- GeminiService.GetStylistAdvice: assumes `new GoogleGenAI(...)` does not throw. In the code,
  construction happens before the `try`, and a throw there would reject the promise instead of
  giving the apology.
- StylistChat.Chat.HandleSend: rests on the same assumption. `handleSend` awaits the call without a
  `try` (components/StylistChat.tsx:65), so if the call rejected, `isLoading` would stay true and no
  model message would be appended. The contract states the path where the call resolves.
- GeminiService.ReplyToResponse: only fields with a string or a string-list value are
  expressible. A parse to `null` or to a non-object is represented by `BadJson` or by
  `Parsed(None, None)`. A truthy non-array `recommendedProductIds` value is not modelled.
- App.FilterCategory: the tab strings and `Category.Name` are compared as strings, as the code
  does. The concrete product list of each tab is not computed for the eight-product constant.
