/** The stylist chat: its transcript, input and pending image, the send guard, the prompt and image
    payload handed to the response client, and the resolution of recommended ids to catalog products. */
module StylistChat {
  import opened Types
  import Catalog
  import GeminiService
  import ProductCard
  import App

  const GREETING := "Hello! I'm your LumiStyle AI Stylist. I can now suggest specific sizes, colors, and the perfect accessories to complete your look. How can I help you today?"
  const IMAGE_PROMPT := "Give me style advice based on this image"

  /** The model's greeting that every session's transcript starts with. */
  const GREETING_MESSAGE := ChatMessage(Model, GREETING, None, None)

  // ---------------------------------------------------------------------------------------------
  // The send guard

  /** The characters `String.prototype.trim` removes: ECMAScript WhiteSpace and LineTerminator. */
  predicate IsWhitespace(c: char)
  {
    || c == '\t' || c == '\n' || c == '\U{000B}' || c == '\U{000C}' || c == '\r' || c == ' '
    || c == '\U{00A0}' || c == '\U{1680}' || ('\U{2000}' <= c <= '\U{200A}')
    || c == '\U{2028}' || c == '\U{2029}' || c == '\U{202F}' || c == '\U{205F}' || c == '\U{3000}'
    || c == '\U{FEFF}'
  }

  predicate AllWhitespace(s: string)
  {
    forall i :: 0 <= i < |s| ==> IsWhitespace(s[i])
  }

  /** Drops leading whitespace. */
  function TrimStart(s: string): (r: string)
    ensures r == "" <==> AllWhitespace(s)
    ensures r == "" || !IsWhitespace(r[0])
  {
    if |s| > 0 && IsWhitespace(s[0]) then
      var r := TrimStart(s[1..]);
      assert AllWhitespace(s) <==> AllWhitespace(s[1..]) by {
        assert forall i :: 0 < i < |s| ==> s[i] == s[1..][i - 1];
      }
      r
    else
      assert |s| > 0 ==> !AllWhitespace(s);
      s
  }

  /** Drops trailing whitespace. */
  function TrimEnd(s: string): (r: string)
    ensures r == "" <==> AllWhitespace(s)
  {
    if |s| > 0 && IsWhitespace(s[|s| - 1]) then
      var r := TrimEnd(s[..|s| - 1]);
      assert AllWhitespace(s) <==> AllWhitespace(s[..|s| - 1]) by {
        assert forall i :: 0 <= i < |s| - 1 ==> s[i] == s[..|s| - 1][i];
      }
      r
    else
      assert |s| > 0 ==> !AllWhitespace(s);
      s
  }

  /** `s.trim()`. */
  function Trim(s: string): string
  {
    TrimEnd(TrimStart(s))
  }

  /** `!s.trim()` holds exactly for strings made only of whitespace. */
  lemma {:induction false} TrimEmptyIffBlank(s: string)
    ensures Trim(s) == "" <==> AllWhitespace(s)
  {
    var t := TrimStart(s);
    if t != "" {
      assert !IsWhitespace(t[0]);
      assert !AllWhitespace(t);
    }
  }

  /** The guard of handleSend: a send goes ahead unless the trimmed input is empty and no image
      is selected. */
  predicate CanSend(input: string, image: Option<string>)
  {
    !(Trim(input) == "" && !Truthy(image))
  }

  /** The send button's `disabled` condition. */
  predicate SendDisabled(isLoading: bool, input: string, image: Option<string>)
  {
    isLoading || (Trim(input) == "" && !Truthy(image))
  }

  /** The button is enabled exactly when nothing is loading and the guard lets a send through;
      a send of blank text with no image is never possible from the button. */
  lemma {:induction false} SendButtonMatchesGuard(isLoading: bool, input: string, image: Option<string>)
    ensures !SendDisabled(isLoading, input, image) <==> !isLoading && CanSend(input, image)
    ensures CanSend(input, image) <==> !AllWhitespace(input) || Truthy(image)
  {
    TrimEmptyIffBlank(input);
  }

  // ---------------------------------------------------------------------------------------------
  // What is passed to the response client

  /** `input || IMAGE_PROMPT`: the raw input when it is non-empty. */
  function PromptFor(input: string): (r: string)
    ensures r != ""
    ensures input != "" ==> r == input
    ensures input == "" ==> r == IMAGE_PROMPT
  {
    if input != "" then input else IMAGE_PROMPT
  }

  /** `s.split(',')`: the fields between commas; one field when there is no comma. */
  function Split(s: string): (parts: seq<string>)
    ensures |parts| >= 1
  {
    if |s| == 0 then [""]
    else
      var rest := Split(s[1..]);
      if s[0] == ',' then [""] + rest else [[s[0]] + rest[0]] + rest[1..]
  }

  /** The index of the first comma, or -1. */
  function FirstComma(s: string): (k: int)
    ensures -1 <= k < |s|
    ensures k == -1 <==> ',' !in s
    ensures k >= 0 ==> s[k] == ',' && ',' !in s[..k]
  {
    if |s| == 0 then -1
    else if s[0] == ',' then 0
    else
      var k := FirstComma(s[1..]);
      assert s == [s[0]] + s[1..];
      if k == -1 then -1
      else
        assert s[..k + 1] == [s[0]] + s[1..][..k];
        k + 1
  }

  /** `selectedImage?.split(',')[1]`: the second comma-separated field of the data URI. */
  function ImagePayload(image: Option<string>): Option<string>
  {
    match image
    case None => None
    case Some(s) =>
      var parts := Split(s);
      if |parts| > 1 then Some(parts[1]) else None
  }

  /** The first field of a split is the text before the first comma (all of it when there is none);
      the remaining fields are the split of the text after that comma. */
  lemma {:induction false} SplitAtFirstComma(s: string)
    ensures FirstComma(s) == -1 ==> Split(s) == [s]
    ensures FirstComma(s) >= 0 ==> Split(s) == [s[..FirstComma(s)]] + Split(s[FirstComma(s) + 1..])
  {
    if |s| > 0 {
      SplitAtFirstComma(s[1..]);
      var k := FirstComma(s);
      if s[0] != ',' {
        assert s == [s[0]] + s[1..];
        if k >= 0 {
          assert s[1..][..k - 1] == s[1..k];
          assert s[1..][k - 1 + 1..] == s[k + 1..];
          assert [s[0]] + s[1..k] == s[..k];
        }
      }
    }
  }

  /** The payload is the text between the first comma and the next one (or the end), and it is
      absent when there is no image or the image has no comma. */
  lemma {:induction false} PayloadBetweenCommas(image: Option<string>)
    ensures image.None? ==> ImagePayload(image) == None
    ensures image.Some? && ',' !in image.value ==> ImagePayload(image) == None
    ensures image.Some? && ',' in image.value ==>
              var s := image.value;
              var rest := s[FirstComma(s) + 1..];
              ImagePayload(image) == Some(if ',' in rest then rest[..FirstComma(rest)] else rest)
    ensures ImagePayload(image).Some? ==> ',' !in ImagePayload(image).value
  {
    if image.Some? {
      var s := image.value;
      SplitAtFirstComma(s);
      if ',' in s {
        var rest := s[FirstComma(s) + 1..];
        SplitAtFirstComma(rest);
      }
    }
  }

  /** The message a send appends: the untrimmed input and the selected image when it is truthy. */
  function UserMessage(input: string, image: Option<string>): ChatMessage
  {
    ChatMessage(User, input, if Truthy(image) then image else None, None)
  }

  /** The message appended when the advice arrives. */
  function ModelMessage(response: StylistResponse): ChatMessage
  {
    ChatMessage(Model, response.message, None, Some(response.recommendedProductIds))
  }

  // ---------------------------------------------------------------------------------------------
  // Recommendation rendering

  /** `ids.map(id => PRODUCTS.find(p => p.id === id))`, dropping the ids with no product. */
  function ResolveIds(ids: seq<string>, catalog: seq<Product>): (r: seq<Product>)
    ensures |r| <= |ids|
    ensures forall p :: p in r ==> p in catalog && p.id in ids
  {
    if |ids| == 0 then []
    else
      var rest := ResolveIds(ids[1..], catalog);
      assert forall id :: id in ids[1..] ==> id in ids;
      match Catalog.FindById(catalog, ids[0])
      case Some(p) => [p] + rest
      case None => rest
  }

  /** The recommended products a message renders. The length test of the guard hides no card: a
      message with ids renders exactly their resolution, and only catalog products appear. */
  function Recommendations(message: ChatMessage, catalog: seq<Product>): (r: seq<Product>)
    ensures message.recommendations.None? ==> r == []
    ensures message.recommendations.Some? ==> r == ResolveIds(message.recommendations.value, catalog)
    ensures forall p :: p in r ==> p in catalog
  {
    if message.recommendations.Some? && |message.recommendations.value| > 0
    then ResolveIds(message.recommendations.value, catalog)
    else []
  }

  /** A reply without usable advice renders no cards: the missing-key reply, and the apology given
      for a failed call, an empty text or a bad parse. A parsed reply renders the products of its
      ids. */
  lemma AdviceCards(outcome: GeminiService.CallOutcome, catalog: seq<Product>)
    ensures Recommendations(ModelMessage(StylistResponse(GeminiService.API_KEY_MISSING, [])), catalog) == []
    ensures !outcome.Parsed? ==> Recommendations(ModelMessage(GeminiService.ReplyToResponse(outcome)), catalog) == []
    ensures outcome.Parsed? ==>
              Recommendations(ModelMessage(GeminiService.ReplyToResponse(outcome)), catalog) ==
              ResolveIds(if outcome.ids.Some? then outcome.ids.value else [], catalog)
  {
  }

  /** Reference: the ids that name a catalog product, in order. */
  function KnownIds(ids: seq<string>, catalog: seq<Product>): seq<string>
  {
    if |ids| == 0 then []
    else (if Catalog.FindById(catalog, ids[0]).Some? then [ids[0]] else []) + KnownIds(ids[1..], catalog)
  }

  /** The rendered products are, in order, the products of the known ids: unknown ids are skipped. */
  lemma {:induction false} ResolvedAreKnown(ids: seq<string>, catalog: seq<Product>)
    ensures |ResolveIds(ids, catalog)| == |KnownIds(ids, catalog)|
    ensures forall k :: 0 <= k < |KnownIds(ids, catalog)| ==>
              Catalog.FindById(catalog, KnownIds(ids, catalog)[k]) == Some(ResolveIds(ids, catalog)[k])
  {
    if |ids| > 0 {
      ResolvedAreKnown(ids[1..], catalog);
    }
  }

  /** Resolution keeps the order of the ids: resolving a concatenation concatenates the results. */
  lemma {:induction false} ResolveIdsAppend(a: seq<string>, b: seq<string>, catalog: seq<Product>)
    ensures ResolveIds(a + b, catalog) == ResolveIds(a, catalog) + ResolveIds(b, catalog)
  {
    if |a| == 0 {
      assert a + b == b;
    } else {
      assert (a + b)[1..] == a[1..] + b;
      ResolveIdsAppend(a[1..], b, catalog);
    }
  }

  /** A known id followed by an unknown one renders only the known id's product. */
  lemma KnownThenUnknown(catalog: seq<Product>, known: string, unknown: string, p: Product)
    requires Catalog.FindById(catalog, known) == Some(p) && Catalog.FindById(catalog, unknown) == None
    ensures ResolveIds([known, unknown], catalog) == [p]
  {
    assert [known, unknown][1..] == [unknown];
    assert [unknown][1..] == [];
  }

  /** With the store's catalog, `["p1", "zzz"]` renders only the white tee. */
  lemma UnknownIdSkipped()
    ensures ResolveIds(["p1", "zzz"], Catalog.PRODUCTS) == [Catalog.PRODUCTS[0]]
  {
    Catalog.CatalogIdsUnique();
    Catalog.FindByIdUnique(Catalog.PRODUCTS, 0);
    var none := Catalog.FindById(Catalog.PRODUCTS, "zzz");
    assert none == None by {
      assert forall i :: 0 <= i < |Catalog.PRODUCTS| ==> Catalog.PRODUCTS[i].id != "zzz";
    }
    KnownThenUnknown(Catalog.PRODUCTS, "p1", "zzz", Catalog.PRODUCTS[0]);
  }

  /** Every recommended card is a compact card of a catalog product, so clicking its add button n
      times with the initial selections yields a single cart line of quantity n. */
  lemma {:induction false} RecommendedCardsMerge(ids: seq<string>, j: nat, cart: seq<CartItem>, n: nat)
    requires j < |ResolveIds(ids, Catalog.PRODUCTS)| && n >= 1
    ensures var p := ResolveIds(ids, Catalog.PRODUCTS)[j];
      var s := ProductCard.InitialSelection(p.availableSizes);
      var c := ProductCard.InitialSelection(p.availableColors);
      var a := ProductCard.AddArguments(p, true, s, c);
      (forall i :: 0 <= i < |cart| ==> !App.SameVariant(cart[i], p.id, Some(s), Some(c))) ==>
        App.AddTimes(cart, a.product, a.size, a.color, n) == cart + [CartItem(p, n, Some(s), Some(c))]
  {
    var p := ResolveIds(ids, Catalog.PRODUCTS)[j];
    assert p in ResolveIds(ids, Catalog.PRODUCTS);
    var k :| 0 <= k < |Catalog.PRODUCTS| && Catalog.PRODUCTS[k] == p;
    ProductCard.CatalogCompactCardsMerge(k, cart, n);
  }

  // ---------------------------------------------------------------------------------------------
  // Session state

  /** The arguments handleSend passes to the response client. */
  datatype AdviceCall = AdviceCall(prompt: string, image: Option<string>)

  /** The chat panel's state. */
  class Chat {
    var messages: seq<ChatMessage>
    var input: string
    var isLoading: bool
    var selectedImage: Option<string>

    /** The transcript still begins with the greeting. */
    ghost predicate Valid()
      reads this
    {
      |messages| >= 1 && messages[0] == GREETING_MESSAGE
    }

    constructor ()
      ensures Valid()
      ensures messages == [GREETING_MESSAGE] && input == "" && !isLoading && selectedImage == None
    {
      messages := [GREETING_MESSAGE];
      input := "";
      isLoading := false;
      selectedImage := None;
    }

    /** The input field's change handler. */
    method SetInput(text: string)
      modifies this
      ensures input == text
      ensures messages == old(messages) && isLoading == old(isLoading) && selectedImage == old(selectedImage)
    {
      input := text;
    }

    /** The upload handler once the file has been read as a data URI. */
    method AttachImage(dataUri: string)
      modifies this
      ensures selectedImage == Some(dataUri)
      ensures messages == old(messages) && input == old(input) && isLoading == old(isLoading)
    {
      selectedImage := Some(dataUri);
    }

    /** The preview's remove button. */
    method ClearImage()
      modifies this
      ensures selectedImage == None
      ensures messages == old(messages) && input == old(input) && isLoading == old(isLoading)
    {
      selectedImage := None;
    }

    /** handleSend up to the await: the guard, the user message, and the state while the advice is
        pending. Returns the client arguments, or None when the guard stops the send. */
    method Submit() returns (call: Option<AdviceCall>)
      modifies this
      ensures !CanSend(old(input), old(selectedImage)) ==>
                && call == None
                && messages == old(messages) && input == old(input)
                && isLoading == old(isLoading) && selectedImage == old(selectedImage)
      ensures CanSend(old(input), old(selectedImage)) ==>
                && call == Some(AdviceCall(PromptFor(old(input)), ImagePayload(old(selectedImage))))
                && messages == old(messages) + [UserMessage(old(input), old(selectedImage))]
                && input == "" && isLoading && selectedImage == None
      ensures old(Valid()) ==> Valid()
    {
      if !CanSend(input, selectedImage) {
        return None;
      }
      var text := input;
      var image := selectedImage;
      messages := messages + [UserMessage(text, image)];
      input := "";
      isLoading := true;
      var payload := ImagePayload(image);
      selectedImage := None;
      call := Some(AdviceCall(PromptFor(text), payload));
    }

    /** handleSend after the await: the model message and the end of loading. */
    method Receive(response: StylistResponse)
      modifies this
      ensures messages == old(messages) + [ModelMessage(response)]
      ensures !isLoading && input == old(input) && selectedImage == old(selectedImage)
      ensures old(Valid()) ==> Valid()
    {
      messages := messages + [ModelMessage(response)];
      isLoading := false;
    }

    /** handleSend as a whole. `apiKey` and `outcome` stand for the client's configuration and the
        hosted call; `request` is what reached the hosted model. Nothing checks `isLoading` here:
        the Enter key calls this even while a reply is pending. */
    method HandleSend(apiKey: string, outcome: GeminiService.CallOutcome)
      returns (request: Option<GeminiService.Request>)
      modifies this
      ensures !CanSend(old(input), old(selectedImage)) ==>
                && request == None
                && messages == old(messages) && input == old(input)
                && isLoading == old(isLoading) && selectedImage == old(selectedImage)
      ensures CanSend(old(input), old(selectedImage)) ==>
                var n := |old(messages)|;
                && |messages| == n + 2 && messages[..n] == old(messages)
                && messages[n] == UserMessage(old(input), old(selectedImage))
                && messages[n + 1] == ModelMessage(
                     if apiKey == "" then StylistResponse(GeminiService.API_KEY_MISSING, [])
                     else GeminiService.ReplyToResponse(outcome))
                && messages[n + 1].text != ""
                && input == "" && selectedImage == None && !isLoading
                && (request.Some? <==> apiKey != "")
                && (request.Some? ==>
                      && |request.value.parts| == (if Truthy(ImagePayload(old(selectedImage))) then 2 else 1)
                      && request.value.parts[0] == GeminiService.Text(PromptFor(old(input)))
                      && (Truthy(ImagePayload(old(selectedImage))) ==>
                            request.value.parts[1] ==
                            GeminiService.InlineData(GeminiService.IMAGE_MIME, ImagePayload(old(selectedImage)).value)))
      ensures old(Valid()) ==> Valid()
    {
      var call := Submit();
      if call == None {
        return None;
      }
      var response;
      response, request := GeminiService.GetStylistAdvice(apiKey, call.value.prompt, call.value.image, outcome);
      Receive(response);
    }
  }

  /** Two sends overlap when Enter is pressed while a reply is pending: both user messages precede
      the first reply, and that reply clears the loading flag although the second call is still
      outstanding. */
  method OverlappingSends(chat: Chat, second: string, first: StylistResponse)
    requires CanSend(chat.input, chat.selectedImage) && Trim(second) != ""
    modifies chat
    ensures chat.messages == old(chat.messages) +
      [UserMessage(old(chat.input), old(chat.selectedImage)), UserMessage(second, None), ModelMessage(first)]
    ensures !chat.isLoading
  {
    var call1 := chat.Submit();
    chat.SetInput(second);
    var call2 := chat.Submit();
    chat.Receive(first);
  }

  /** The transcript only grows: a send of any kind keeps every earlier message in place. */
  method SendKeepsHistory(chat: Chat, apiKey: string, outcome: GeminiService.CallOutcome)
    requires chat.Valid()
    modifies chat
    ensures chat.Valid()
    ensures |chat.messages| >= |old(chat.messages)| && chat.messages[..|old(chat.messages)|] == old(chat.messages)
  {
    var _ := chat.HandleSend(apiKey, outcome);
  }
}
