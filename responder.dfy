/**
  The responder stage: the customer-facing text for each intent, built from
  the tool results and the policy decision, and the JSON trace around it.
 */
module Responder {
  import opened Wrappers
  import opened Text
  import opened Records
  import opened Tools
  import opened Dispatcher

  /** The JSON trace returned with every reply. */
  datatype Trace = Trace(
    intent: string,
    toolsCalled: seq<Tool>,
    evidence: seq<Evidence>,
    policyDecision: Option<PolicyDecision>,
    finalMessage: string)

  /** The apology of process_message's error trace; the responder's own apology prefixes it. */
  const TroubleMessage := "I'm having trouble processing your request right now. Please try again or contact customer support."
  const Apology := "I apologize, but " + TroubleMessage
  // NotFoundReply, CapabilityReply and RefusalOpening start with a short separate literal,
  // so that the verifier can see their first characters and tell them apart from the other replies.
  const NotFoundReply := "I couldn't" + " find an order with that ID and email combination. Please double-check the order number and email address."
  const RephraseReply := "I'm not sure how to help with that. Could you please rephrase your request?"
  const NoProductsLine := "I don't see any products matching those criteria in our current collection."
  const ClosingLine := "\nWould you like more details about any of these options?"
  const DefaultRefund := "Full refund will be processed within 3-5 business days to your original payment method."
  const Bullet := "\U{2022} "
  const CapabilityReply :=
    "I'm" + " here to help you find products and manage your orders. I can:\n\n"
    + "\U{2022} **Find products** - Search by style, price, size, or occasion\n"
    + "\U{2022} **Size guidance** - Help you choose between M and L\n"
    + "\U{2022} **Shipping info** - Provide delivery estimates\n"
    + "\U{2022} **Order help** - Look up orders and handle cancellations (within 60 minutes)\n\n"
    + "What would you like help with?"
  const RefusalOpening := "I don't" + " have access to create custom discount codes, but here are some ways you can save:\n\n"
  const RefusalClosing := "\n\nIs there anything else I can help you find today?"
  const CancelledMark := "\U{2705} **Order "
  const BlockedMark := "\U{274C} **Unable to cancel order "
  const DetailsMark := "\U{1F4CB} **Order "

  // ----- product_assist -----

  /** The header over a non-empty result list: "option" in the singular for one product. */
  function FoundHeader(n: nat): string {
    "I found " + NatText(n) + " great option" + (if n > 1 then "s" else "") + " for you:\n"
  }

  /** "option" is singular exactly for one product, plural for more. */
  lemma HeaderCountsOptions(n: nat)
    ensures n == 1 ==> FoundHeader(n) == "I found 1 great option for you:\n"
    ensures n > 1 ==> FoundHeader(n) == "I found " + NatText(n) + " great options for you:\n"
  {
  }

  /** The numbered line of one product; numbering starts at 1. */
  function ProductLine(number: nat, p: Product): string {
    NatText(number) + ". **" + p.title + "** ($" + IntText(p.price) + ", " + p.color + ") - Available in "
    + Join(", ", p.sizes)
  }

  /** The numbered product lines: line k opens with the number k + 1 and product k's title in bold. */
  function ProductLines(products: seq<Product>): (lines: seq<string>)
    ensures |lines| == |products|
    ensures forall k :: 0 <= k < |products| ==> NatText(k + 1) + ". **" + products[k].title + "**" <= lines[k]
  {
    seq(|products|, k requires 0 <= k < |products| => ProductLine(k + 1, products[k]))
  }

  function SearchParts(results: ToolResults): seq<string> {
    match results.productSearch
    case None => []
    case Some(products) =>
      if |products| > 0 then [FoundHeader(|products|)] + ProductLines(products) else [NoProductsLine]
  }

  function SizeParts(results: ToolResults): seq<string> {
    match results.sizeRecommender
    case None => []
    case Some(advice) => ["\n**Size recommendation:** " + advice.recommendedSize + " - " + advice.rationale]
  }

  function EtaParts(results: ToolResults): seq<string> {
    match results.eta
    case None => []
    case Some(info) => ["\n**Shipping to " + info.zip + ":** " + info.etaDays + " business days"]
  }

  /** The paragraphs after the search results: size advice, delivery estimate, closing question. */
  function AdviceParts(results: ToolResults): seq<string> {
    SizeParts(results) + EtaParts(results) + [ClosingLine]
  }

  /** The paragraphs of the product reply: results, size advice, delivery estimate, closing question. */
  function ProductParts(results: ToolResults): seq<string> {
    SearchParts(results) + AdviceParts(results)
  }

  /** generate_product_response. */
  function ProductResponse(results: ToolResults): string {
    Join("\n", ProductParts(results))
  }

  /** Every product reply ends with the closing question, whatever the tools returned. */
  lemma ProductReplyEndsWithClosing(results: ToolResults)
    ensures EndsWith(ProductResponse(results), ClosingLine)
  {
    JoinEndsWithLast("\n", ProductParts(results));
  }

  /**
    A non-empty result list opens the reply with the count of products, and
    each product appears on its own line numbered from 1.
   */
  lemma ProductReplyListsEveryProduct(results: ToolResults, k: nat)
    requires results.productSearch.Some? && k < |results.productSearch.value|
    ensures var products := results.productSearch.value;
      && FoundHeader(|products|) <= ProductResponse(results)
      && Contains(ProductResponse(results), ProductLine(k + 1, products[k]))
  {
    SearchPartsListProducts(results, k);
    JoinShowsParts(SearchParts(results), AdviceParts(results), k + 1);
  }

  /** Joining `front + back` with newlines starts with front's first part and contains each of its parts. */
  lemma JoinShowsParts(front: seq<string>, back: seq<string>, i: nat)
    requires i < |front|
    ensures front[0] <= Join("\n", front + back)
    ensures Contains(Join("\n", front + back), front[i])
  {
    var parts := front + back;
    assert parts[0] == front[0] && parts[i] == front[i];
    JoinStartsWithFirst("\n", parts);
    JoinContainsPart("\n", parts, i);
  }

  /** The search paragraphs of a non-empty result list: the header, then product k on line k + 1. */
  lemma SearchPartsListProducts(results: ToolResults, k: nat)
    requires results.productSearch.Some? && k < |results.productSearch.value|
    ensures var products := results.productSearch.value;
      && |SearchParts(results)| == |products| + 1
      && SearchParts(results)[0] == FoundHeader(|products|)
      && SearchParts(results)[k + 1] == ProductLine(k + 1, products[k])
  {
  }

  /** An empty result list is said in so many words at the start of the reply. */
  lemma EmptySearchIsReported(results: ToolResults)
    requires results.productSearch == Some([])
    ensures NoProductsLine <= ProductResponse(results)
  {
    JoinStartsWithFirst("\n", ProductParts(results));
  }

  /** generate_product_response: appends the search, size, eta and closing paragraphs and joins them. */
  method GenerateProductResponse(results: ToolResults) returns (r: string)
    ensures r == ProductResponse(results)
  {
    var parts: seq<string> := [];
    if results.productSearch.Some? {
      var products := results.productSearch.value;
      if |products| > 0 {
        var lines := NumberProducts(products);
        parts := [FoundHeader(|products|)] + lines;
      } else {
        parts := [NoProductsLine];
      }
    }
    assert parts == SearchParts(results);
    if results.sizeRecommender.Some? {
      var advice := results.sizeRecommender.value;
      parts := parts + ["\n**Size recommendation:** " + advice.recommendedSize + " - " + advice.rationale];
    }
    assert parts == SearchParts(results) + SizeParts(results);
    if results.eta.Some? {
      var info := results.eta.value;
      parts := parts + ["\n**Shipping to " + info.zip + ":** " + info.etaDays + " business days"];
    }
    assert parts == SearchParts(results) + SizeParts(results) + EtaParts(results);
    parts := parts + [ClosingLine];
    Regroup(SearchParts(results), SizeParts(results), EtaParts(results), [ClosingLine]);
    r := Join("\n", parts);
  }

  /** Appending paragraph by paragraph builds the search paragraphs followed by the rest. */
  lemma Regroup<T>(a: seq<T>, b: seq<T>, c: seq<T>, d: seq<T>)
    ensures a + b + c + d == a + (b + c + d)
  {
  }

  /** The `enumerate(products, 1)` loop: one numbered line per product. */
  method NumberProducts(products: seq<Product>) returns (lines: seq<string>)
    ensures lines == ProductLines(products)
  {
    lines := [];
    for i := 0 to |products|
      invariant lines == ProductLines(products)[..i]
    {
      assert ProductLines(products)[..i + 1] == ProductLines(products)[..i] + [ProductLine(i + 1, products[i])];
      lines := lines + [ProductLine(i + 1, products[i])];
    }
    assert ProductLines(products)[..|products|] == ProductLines(products);
  }

  // ----- order_help -----

  /** `next((p for p in products if p["id"] == id), None)`: the first catalog product with this id. */
  function FindProduct(catalog: seq<Product>, id: string): (r: Option<Product>)
    ensures r.Some? ==> r.value in catalog && r.value.id == id
    ensures r.None? <==> forall k :: 0 <= k < |catalog| ==> catalog[k].id != id
    decreases |catalog|
  {
    if catalog == [] then None
    else if catalog[0].id == id then Some(catalog[0])
    else FindProduct(catalog[1..], id)
  }

  /** The product found is the first one with the id: no earlier catalog entry has it. */
  lemma {:induction false} FindProductIsFirst(catalog: seq<Product>, id: string)
    ensures FindProduct(catalog, id).Some? ==>
      exists k :: 0 <= k < |catalog| && catalog[k] == FindProduct(catalog, id).value
        && forall j :: 0 <= j < k ==> catalog[j].id != id
    decreases |catalog|
  {
    if catalog != [] && catalog[0].id != id {
      FindProductIsFirst(catalog[1..], id);
      if FindProduct(catalog, id).Some? {
        var k :| 0 <= k < |catalog[1..]| && catalog[1..][k] == FindProduct(catalog, id).value
          && forall j :: 0 <= j < k ==> catalog[1..][j].id != id;
        assert catalog[k + 1] == FindProduct(catalog, id).value;
      }
    }
  }

  /** One item of an order: the catalog title when the id is known, else the bare id. */
  function ItemLine(catalog: seq<Product>, item: Item): string {
    match FindProduct(catalog, item.id)
    case Some(p) => "- " + p.title + " (Size " + item.size + ")"
    case None => "- Product " + item.id + " (Size " + item.size + ")"
  }

  /**
    An item whose id is not in the catalog shows "- Product {id} (Size {size})";
    otherwise it shows the title of the first catalog product with that id.
   */
  lemma ItemLineRendering(catalog: seq<Product>, item: Item)
    ensures (forall k :: 0 <= k < |catalog| ==> catalog[k].id != item.id) ==>
      ItemLine(catalog, item) == "- Product " + item.id + " (Size " + item.size + ")"
    ensures (exists k :: 0 <= k < |catalog| && catalog[k].id == item.id) ==>
      exists k :: 0 <= k < |catalog| && catalog[k].id == item.id
        && (forall j :: 0 <= j < k ==> catalog[j].id != item.id)
        && ItemLine(catalog, item) == "- " + catalog[k].title + " (Size " + item.size + ")"
  {
    FindProductIsFirst(catalog, item.id);
  }

  /**
    The item lines; the catalog is reloaded for every item, so a catalog that
    cannot be loaded raises as soon as there is one item (`None`).
   */
  function ItemLines(store: Store, items: seq<Item>): (r: Option<seq<string>>)
    ensures r.None? <==> |items| > 0 && store.products.None?
    ensures r.Some? ==> |r.value| == |items|
    ensures r.Some? && |items| > 0 ==>
      store.products.Some? && forall k :: 0 <= k < |items| ==> r.value[k] == ItemLine(store.products.value, items[k])
  {
    if |items| == 0 then Some([])
    else if store.products.None? then None
    else
      var catalog := store.products.value;
      Some(seq(|items|, k requires 0 <= k < |items| => ItemLine(catalog, items[k])))
  }

  function CancelledReply(order: Order, itemsText: string, placed: string, refund: string): (r: string)
    ensures CancelledMark + order.orderId <= r
  {
    CancelledMark + order.orderId + " has been successfully cancelled.**\n\nOrder details:\n"
    + itemsText + "\n- Placed: " + placed + "\n- Cancelled within our 60-minute window\n\n**Refund:** "
    + refund + "\n\nIs there anything else I can help you with?"
  }

  function AlternativeLines(alternatives: seq<string>): (lines: seq<string>)
    ensures |lines| == |alternatives|
  {
    seq(|alternatives|, k requires 0 <= k < |alternatives| => Bullet + "**" + alternatives[k] + "**")
  }

  function BlockedReply(order: Order, reason: string, alternatives: seq<string>): (r: string)
    ensures BlockedMark + order.orderId <= r
  {
    BlockedMark + order.orderId + "**\n\n" + reason + "\n\n**Alternative options:**\n"
    + Join("\n", AlternativeLines(alternatives)) + "\n\nWhich option would work best for you?"
  }

  function DetailsReply(order: Order, itemsText: string, placed: string): (r: string)
    ensures DetailsMark + order.orderId <= r
  {
    DetailsMark + order.orderId + " Details:**\n\n" + itemsText + "\n- Placed: " + placed
    + "\n- Email: " + order.email + "\n\nHow can I help you with this order?"
  }

  /** The reply for a found order, once its item lines exist. */
  function FoundOrderReply(results: ToolResults, order: Order, lines: seq<string>, dateText: int -> string): (r: string)
    ensures r != [] && (r[0] == '\U{2705}' || r[0] == '\U{274C}' || r[0] == '\U{1F4CB}')
    ensures results.orderCancel.None? ==> DetailsMark + order.orderId <= r
    ensures results.orderCancel.Some? && results.orderCancel.value.success ==> CancelledMark + order.orderId <= r
    ensures results.orderCancel.Some? && !results.orderCancel.value.success ==> BlockedMark + order.orderId <= r
  {
    var itemsText := Join("\n", lines);
    match results.orderCancel
    case None => DetailsReply(order, itemsText, dateText(order.createdAt))
    case Some(cancel) =>
      if cancel.success then CancelledReply(order, itemsText, dateText(order.createdAt), cancel.refundInfo.GetOr(DefaultRefund))
      else BlockedReply(order, cancel.reason, cancel.alternatives.GetOr([]))
  }

  /**
    generate_order_response; `None` when it raises, which happens exactly when
    a found order has items and the catalog cannot be loaded.
   */
  function OrderResponse(results: ToolResults, store: Store, dateText: int -> string): (r: Option<string>)
    ensures r.None? <==>
      results.orderLookup.Some? && results.orderLookup.value.Some?
      && |results.orderLookup.value.value.items| > 0 && store.products.None?
    ensures r == Some(NotFoundReply) <==> results.orderLookup.None? || results.orderLookup.value.None?
  {
    if results.orderLookup.None? || results.orderLookup.value.None? then Some(NotFoundReply)
    else
      var order := results.orderLookup.value.value;
      match ItemLines(store, order.items)
      case None => None
      case Some(lines) =>
        Some(FoundOrderReply(results, order, lines, dateText))
  }

  /** A blocked cancellation names the order and lists every alternative as a bold bullet. */
  lemma BlockedReplyListsEveryAlternative(order: Order, reason: string, alternatives: seq<string>, k: nat)
    requires k < |alternatives|
    ensures Contains(BlockedReply(order, reason, alternatives), Bullet + "**" + alternatives[k] + "**")
  {
    var lines := AlternativeLines(alternatives);
    JoinContainsPart("\n", lines, k);
    var pre := BlockedMark + order.orderId + "**\n\n" + reason + "\n\n**Alternative options:**\n";
    var post := "\n\nWhich option would work best for you?";
    ContainsWithin(pre, Join("\n", lines), post, lines[k]);
  }

  /**
    After a cancellation of a found order (its catalog lookups succeeding), the reply
    confirms it exactly when the verdict is within the window, and otherwise
    refuses it and offers every alternative.
   */
  lemma CancelReplyFollowsVerdict(results: ToolResults, store: Store, dateText: int -> string,
                                  order: Order, now: int, minutesText: int -> string, k: nat)
    requires results.orderLookup == Some(Some(order))
    requires results.orderCancel == Some(CancelDecision(order, now, minutesText))
    requires |order.items| == 0 || store.products.Some?
    requires k < |CancelAlternatives|
    ensures OrderResponse(results, store, dateText).Some?
    ensures now - order.createdAt <= CancelWindowSeconds ==>
      CancelledMark + order.orderId <= OrderResponse(results, store, dateText).value
    ensures now - order.createdAt > CancelWindowSeconds ==>
      BlockedMark + order.orderId <= OrderResponse(results, store, dateText).value
      && Contains(OrderResponse(results, store, dateText).value, Bullet + "**" + CancelAlternatives[k] + "**")
  {
    var cancel := CancelDecision(order, now, minutesText);
    var reply := FoundOrderReply(results, order, ItemLines(store, order.items).value, dateText);
    assert OrderResponse(results, store, dateText) == Some(reply);
    if !cancel.success {
      assert reply == BlockedReply(order, cancel.reason, CancelAlternatives);
      BlockedReplyListsEveryAlternative(order, cancel.reason, CancelAlternatives, k);
    }
  }

  /** The loop of generate_order_response over the order's items, with its early returns. */
  method GenerateOrderResponse(results: ToolResults, store: Store, dateText: int -> string) returns (r: Option<string>)
    ensures r == OrderResponse(results, store, dateText)
  {
    if results.orderLookup.None? || results.orderLookup.value.None? {
      return Some(NotFoundReply);
    }
    var order := results.orderLookup.value.value;
    var lines: seq<string> := [];
    for i := 0 to |order.items|
      invariant store.products.Some? || i == 0
      invariant |lines| == i
      invariant forall k :: 0 <= k < i ==> lines[k] == ItemLine(store.products.value, order.items[k])
    {
      if store.products.None? {
        assert ItemLines(store, order.items).None?;
        return None;
      }
      lines := lines + [ItemLine(store.products.value, order.items[i])];
    }
    var expected := ItemLines(store, order.items).value;
    assert forall k :: 0 <= k < |lines| ==> expected[k] == lines[k];
    assert expected == lines;
    r := Some(FoundOrderReply(results, order, lines, dateText));
  }

  // ----- other -----

  function RefusalReply(alternatives: seq<string>): (r: string)
    ensures RefusalOpening <= r
  {
    var lines := seq(|alternatives|, k requires 0 <= k < |alternatives| => Bullet + alternatives[k]);
    RefusalOpening + Join("\n", lines) + RefusalClosing
  }

  /** generate_other_response: the refusal only for a refusing decision on a message about discounts. */
  function OtherResponse(userInput: string, decision: Option<PolicyDecision>): (r: string)
    ensures r != CapabilityReply <==> decision.Some? && decision.value.Refusal? && Contains(Lower(userInput), "discount")
    ensures r != CapabilityReply ==> decision.Some? && decision.value.Refusal? && r == RefusalReply(decision.value.alternatives)
  {
    if decision.Some? && decision.value.Refusal? && Contains(Lower(userInput), "discount") then
      var r := RefusalReply(decision.value.alternatives);
      assert r[1] == RefusalOpening[1];
      r
    else CapabilityReply
  }

  /** The discount refusal lists every alternative as a bullet. */
  lemma RefusalListsEveryAlternative(alternatives: seq<string>, k: nat)
    requires k < |alternatives|
    ensures Contains(RefusalReply(alternatives), Bullet + alternatives[k])
  {
    var lines := seq(|alternatives|, j requires 0 <= j < |alternatives| => Bullet + alternatives[j]);
    assert lines[k] == Bullet + alternatives[k];
    JoinContainsPart("\n", lines, k);
    ContainsWithin(RefusalOpening, Join("\n", lines), RefusalClosing, lines[k]);
  }

  // ----- dispatch on intent -----

  /** generate_customer_response; `None` when generating the reply raises. */
  function CustomerResponse(intent: string, userInput: string, results: ToolResults,
                            decision: Option<PolicyDecision>, store: Store, env: Env): (r: Option<string>)
    ensures r.Some? ==> r.value != ""
    ensures r.None? ==> intent == "order_help"
  {
    if intent == "product_assist" then
      ProductReplyEndsWithClosing(results);
      Some(ProductResponse(results))
    else if intent == "order_help" then
      OrderResponse(results, store, env.dateText)
    else if intent == "other" then Some(OtherResponse(userInput, decision))
    else Some(RephraseReply)
  }

  /** responder_node's message: the generated reply, or the apology when generating it raises. */
  function FinalMessage(intent: string, userInput: string, results: ToolResults,
                        decision: Option<PolicyDecision>, store: Store, env: Env): (m: string)
    ensures m != ""
    ensures CustomerResponse(intent, userInput, results, decision, store, env).None? ==> m == Apology
    ensures CustomerResponse(intent, userInput, results, decision, store, env).Some? ==>
      m == CustomerResponse(intent, userInput, results, decision, store, env).value
  {
    CustomerResponse(intent, userInput, results, decision, store, env).GetOr(Apology)
  }
}
