/** The stylist response client: the missing-key short-circuit, the request it would send to the
    hosted model (the catalog projection that grounds the system instruction, and the content
    parts), and the field-level fallbacks applied to the reply. The hosted call itself is an
    abstract outcome supplied by the caller. */
module GeminiService {
  import opened Types
  import Catalog

  const API_KEY_MISSING := "API Key missing. Please configure it to get personalized advice."
  const DEFAULT_PROMPT := "Provide fashion advice for my current look."
  const CURATED_FALLBACK := "I've curated a few pieces for you."
  const APOLOGY := "I'm having trouble connecting to my style database right now. Please try again in a moment!"
  const MODEL := "gemini-3-flash-preview"
  const IMAGE_MIME := "image/jpeg"
  const RESPONSE_MIME := "application/json"

  /** One catalog entry as the system instruction lists it: no price, description or image. */
  datatype CatalogEntry = CatalogEntry(
    id: string,
    name: string,
    style: Style,
    color: string,
    category: Category,
    sizes: Option<seq<string>>,
    colors: Option<seq<string>>)

  /** A content part of the request. */
  datatype Part = Text(text: string) | InlineData(mimeType: string, data: string)

  /** A request to the hosted model: the model name, the catalog embedded in the system instruction,
      the content parts and the requested response type. The instruction's prose is not modelled. */
  datatype Request = Request(model: string, catalog: seq<CatalogEntry>, parts: seq<Part>, responseMimeType: string)

  /** What the hosted call and the parsing of its text produced: the call threw, the text was empty,
      the text was not a JSON object, or an object with these (possibly missing) fields. */
  datatype CallOutcome =
    | Throws
    | EmptyText
    | BadJson
    | Parsed(message: Option<string>, ids: Option<seq<string>>)

  /** The catalog as the system instruction embeds it, built once from the store's products. */
  const SYSTEM_CATALOG: seq<CatalogEntry> := CatalogProjection(Catalog.PRODUCTS)

  /** The fields of one product that the system instruction shows. */
  function Project(p: Product): CatalogEntry
  {
    CatalogEntry(p.id, p.name, p.style, p.color, p.category, p.availableSizes, p.availableColors)
  }

  /** `PRODUCTS.map(p => ({ id, name, style, color, category, sizes, colors }))`. */
  function CatalogProjection(products: seq<Product>): (entries: seq<CatalogEntry>)
    ensures |entries| == |products|
    ensures forall k :: 0 <= k < |products| ==> entries[k] == Project(products[k])
  {
    if |products| == 0 then [] else [Project(products[0])] + CatalogProjection(products[1..])
  }

  /** The try block after the call: an empty text, a failed call or a failed parse give the apology;
      a parsed reply keeps a truthy message (else a generic line) and present ids (else none). */
  function ReplyToResponse(outcome: CallOutcome): (r: StylistResponse)
    ensures r.message != ""
    ensures !outcome.Parsed? ==> r == StylistResponse(APOLOGY, [])
    ensures outcome.Parsed? && Truthy(outcome.message) ==> r.message == outcome.message.value
    ensures outcome.Parsed? && !Truthy(outcome.message) ==> r.message == CURATED_FALLBACK
    ensures outcome.Parsed? && outcome.ids.Some? ==> r.recommendedProductIds == outcome.ids.value
    ensures outcome.Parsed? && outcome.ids.None? ==> r.recommendedProductIds == []
  {
    match outcome
    case Parsed(message, ids) =>
      StylistResponse(
        if Truthy(message) then message.value else CURATED_FALLBACK,
        if ids.Some? then ids.value else [])
    case _ => StylistResponse(APOLOGY, [])
  }

  /** `getStylistAdvice(userPrompt, base64Image)`. `apiKey` is the configured key ('' when unset);
      `outcome` is what the hosted call returns for the request built here. `request` is the
      request that reaches the hosted model, or None when no call is made. */
  method GetStylistAdvice(apiKey: string, userPrompt: string, base64Image: Option<string>, outcome: CallOutcome)
    returns (response: StylistResponse, request: Option<Request>)
    ensures apiKey == "" ==> response == StylistResponse(API_KEY_MISSING, []) && request == None
    ensures apiKey != "" ==> request.Some? && response == ReplyToResponse(outcome)
    ensures request.Some? ==>
              && request.value.model == MODEL
              && request.value.responseMimeType == RESPONSE_MIME
              && request.value.catalog == SYSTEM_CATALOG
              && |request.value.parts| == (if Truthy(base64Image) then 2 else 1)
              && request.value.parts[0] == Text(if userPrompt != "" then userPrompt else DEFAULT_PROMPT)
              && (Truthy(base64Image) ==> request.value.parts[1] == InlineData(IMAGE_MIME, base64Image.value))
    ensures response.message != ""
  {
    if apiKey == "" {
      return StylistResponse(API_KEY_MISSING, []), None;
    }
    var contents := [Text(if userPrompt != "" then userPrompt else DEFAULT_PROMPT)];
    if Truthy(base64Image) {
      contents := contents + [InlineData(IMAGE_MIME, base64Image.value)];
    }
    request := Some(Request(MODEL, SYSTEM_CATALOG, contents, RESPONSE_MIME));
    response := ReplyToResponse(outcome);
  }

  /** A well-formed reply (truthy message, ids present) is returned unchanged. */
  lemma WellFormedReplyUnchanged(message: string, ids: seq<string>)
    requires message != ""
    ensures ReplyToResponse(Parsed(Some(message), Some(ids))) == StylistResponse(message, ids)
  {
  }

  /** Two products have the same catalog entry exactly when they agree on id, name, style, colour,
      category, sizes and colours: price, description and image never reach the prompt. */
  lemma ProjectionShowsExactlyPromptFields(p: Product, q: Product)
    ensures Project(p) == Project(q) <==>
              p.id == q.id && p.name == q.name && p.style == q.style && p.color == q.color &&
              p.category == q.category && p.availableSizes == q.availableSizes &&
              p.availableColors == q.availableColors
  {
  }

  /** The prompt is grounded: an id occurs in the projection exactly when looking it up in the
      products finds one. */
  lemma {:induction false} ProjectionIdsAreCatalogIds(products: seq<Product>, id: string)
    ensures (exists k :: 0 <= k < |products| && CatalogProjection(products)[k].id == id) <==>
            Catalog.FindById(products, id).Some?
  {
    var entries := CatalogProjection(products);
    assert forall k :: 0 <= k < |products| ==> entries[k].id == products[k].id;
    if Catalog.FindById(products, id).Some? {
      var k :| 0 <= k < |products| && products[k].id == id;
      assert CatalogProjection(products)[k].id == id;
      assert exists j :: 0 <= j < |products| && CatalogProjection(products)[j].id == id;
    } else {
      assert forall k :: 0 <= k < |products| ==> entries[k].id != id;
    }
  }

  /** The instruction lists the eight catalog products, in catalog order, with distinct ids. */
  lemma StoreProjection()
    ensures |SYSTEM_CATALOG| == 8
    ensures forall k :: 0 <= k < 8 ==> SYSTEM_CATALOG[k].id == ["p1", "p2", "p3", "p4", "p5", "p6", "p7", "p8"][k]
    ensures forall i, j :: 0 <= i < j < 8 ==> SYSTEM_CATALOG[i].id != SYSTEM_CATALOG[j].id
  {
    Catalog.CatalogIdsUnique();
  }
}
