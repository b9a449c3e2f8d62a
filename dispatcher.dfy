/**
  The tool selector stage: from the intent and the message it extracts the
  parameters, calls the tools in a fixed order, logs each call in
  `toolsCalled`, keeps each result under its tool's name and collects the
  evidence shown to the user.
 */
module Dispatcher {
  import opened Wrappers
  import opened Text
  import opened Records
  import opened Tools
  import opened Tokens

  /** One fact surfaced to the user: a product summary or an order summary. */
  datatype Evidence =
    | ProductEvidence(productId: string, title: string, price: int, sizes: seq<string>, color: string)
    | OrderEvidence(orderId: string, email: string, createdAt: int, items: seq<Item>)

  /**
    `tool_results`, one entry per tool name; `None` is a missing key. The
    `order_lookup` entry is itself optional because a lookup can store `None`.
   */
  datatype ToolResults = ToolResults(
    productSearch: Option<seq<Product>>,
    sizeRecommender: Option<SizeAdvice>,
    eta: Option<EtaInfo>,
    orderLookup: Option<Option<Order>>,
    orderCancel: Option<CancelResult>)

  const NoResults := ToolResults(None, None, None, None, None)

  /** The five tools, by the name under which each is logged and keyed. */
  datatype Tool = ProductSearchTool | SizeRecommenderTool | EtaTool | OrderLookupTool | OrderCancelTool
  {
    function Name(): string {
      match this
      case ProductSearchTool => "product_search"
      case SizeRecommenderTool => "size_recommender"
      case EtaTool => "eta"
      case OrderLookupTool => "order_lookup"
      case OrderCancelTool => "order_cancel"
    }
  }

  /** What the tool selector writes into the state. */
  datatype Selection = Selection(toolsCalled: seq<Tool>, toolResults: ToolResults, evidence: seq<Evidence>)

  const NoSelection := Selection([], NoResults, [])

  /** The evaluation time of every cancellation: 2025-09-07T12:30:00Z in seconds since the epoch. */
  const PinnedNow := 1757248200

  const SizeWords := ["size", "m/l", "between"]

  function ProductEvidenceOf(p: Product): Evidence {
    ProductEvidence(p.id, p.title, p.price, p.sizes, p.color)
  }

  function OrderEvidenceOf(o: Order): Evidence {
    OrderEvidence(o.orderId, o.email, o.createdAt, o.items)
  }

  /** Python truthiness of an optional string: found and not empty. */
  predicate Present(token: Option<string>) {
    token.Some? && token.value != ""
  }

  /**
    Each tool name is logged exactly when its result is stored, and no tool is
    logged twice.
   */
  predicate LogMatchesResults(s: Selection) {
    && (ProductSearchTool in s.toolsCalled <==> s.toolResults.productSearch.Some?)
    && (SizeRecommenderTool in s.toolsCalled <==> s.toolResults.sizeRecommender.Some?)
    && (EtaTool in s.toolsCalled <==> s.toolResults.eta.Some?)
    && (OrderLookupTool in s.toolsCalled <==> s.toolResults.orderLookup.Some?)
    && (OrderCancelTool in s.toolsCalled <==> s.toolResults.orderCancel.Some?)
    && (forall a, b :: 0 <= a < b < |s.toolsCalled| ==> s.toolsCalled[a] != s.toolsCalled[b])
  }

  /** The evidence for a product result list: one summary per product, in order. */
  function ProductEvidenceList(products: seq<Product>): (evidence: seq<Evidence>)
    ensures |evidence| == |products|
    ensures forall k :: 0 <= k < |products| ==> evidence[k] == ProductEvidenceOf(products[k])
  {
    seq(|products|, k requires 0 <= k < |products| => ProductEvidenceOf(products[k]))
  }

  /** The catalog search of product_assist; `None` when the catalog cannot be loaded. */
  function SearchResult(userInput: string, store: Store): Option<seq<Product>> {
    if store.products.Some? then
      Some(ProductSearch(store.products.value, SearchQuery(userInput), PriceCeiling(userInput), []))
    else None
  }

  /** The log entry of a tool: the tool when it ran, nothing when it was skipped or raised. */
  function Logged(tool: Tool, ran: bool): seq<Tool> {
    if ran then [tool] else []
  }

  lemma ProductLogMatches(products: Option<seq<Product>>, advice: Option<SizeAdvice>, eta: Option<EtaInfo>, evidence: seq<Evidence>)
    ensures LogMatchesResults(Selection(
      Logged(ProductSearchTool, products.Some?) + Logged(SizeRecommenderTool, advice.Some?) + Logged(EtaTool, eta.Some?),
      ToolResults(products, advice, eta, None, None),
      evidence))
  {
  }

  /**
    The product_assist branch, in call order: product_search (skipped when the
    catalog cannot be loaded, as the raised error is swallowed), then
    size_recommender on a size word, then eta on a postal-code token.
   */
  function ProductAssist(userInput: string, store: Store): Selection {
    var inputLower := Lower(userInput);
    var products := SearchResult(userInput, store);
    var advice := if ContainsAny(inputLower, SizeWords) then Some(SizeRecommender(inputLower)) else None;
    var zip := ZipToken(userInput);
    var eta := if zip.Some? then Some(Eta(zip.value)) else None;
    var evidence := ProductEvidenceList(products.GetOr([]));
    Selection(
      Logged(ProductSearchTool, products.Some?) + Logged(SizeRecommenderTool, advice.Some?) + Logged(EtaTool, eta.Some?),
      ToolResults(products, advice, eta, None, None),
      evidence)
  }

  lemma OrderLogMatches(lookup: Option<Option<Order>>, cancel: Option<CancelResult>, evidence: seq<Evidence>)
    ensures LogMatchesResults(Selection(
      Logged(OrderLookupTool, lookup.Some?) + Logged(OrderCancelTool, cancel.Some?),
      ToolResults(None, None, None, lookup, cancel),
      evidence))
  {
  }

  /**
    The order_help branch: order_lookup only with both an order-id token and an
    e-mail token (skipped when the order file cannot be loaded, as the raised
    error is swallowed), then order_cancel at the pinned time for a found order
    whose message says "cancel".
   */
  function OrderHelp(userInput: string, store: Store, env: Env): Selection {
    var orderId := OrderIdToken(userInput);
    var email := env.findEmail(userInput);
    var lookup :=
      if Present(orderId) && Present(email) && store.orders.Some? then
        Some(OrderLookup(store.orders.value, orderId.value, email.value))
      else None;
    var found := lookup.Some? && lookup.value.Some?;
    var cancel :=
      if found && Contains(Lower(userInput), "cancel") then
        Some(OrderCancel(store.orders.value, orderId.value, PinnedNow, env.minutesText))
      else None;
    var evidence := if found then [OrderEvidenceOf(lookup.value.value)] else [];
    Selection(
      Logged(OrderLookupTool, lookup.Some?) + Logged(OrderCancelTool, cancel.Some?),
      ToolResults(None, None, None, lookup, cancel),
      evidence)
  }

  /** tool_selector_node as a function of the intent, the message and the data. */
  function Dispatch(intent: string, userInput: string, store: Store, env: Env): Selection {
    if intent == "product_assist" then ProductAssist(userInput, store)
    else if intent == "order_help" then OrderHelp(userInput, store, env)
    else NoSelection
  }

  /** Whatever the intent, each tool is logged exactly when its result is stored, and at most once. */
  lemma DispatchLogMatchesResults(intent: string, userInput: string, store: Store, env: Env)
    ensures LogMatchesResults(Dispatch(intent, userInput, store, env))
  {
    if intent == "product_assist" {
      var inputLower := Lower(userInput);
      var products := SearchResult(userInput, store);
      var advice := if ContainsAny(inputLower, SizeWords) then Some(SizeRecommender(inputLower)) else None;
      var zip := ZipToken(userInput);
      var eta := if zip.Some? then Some(Eta(zip.value)) else None;
      ProductLogMatches(products, advice, eta, ProductEvidenceList(products.GetOr([])));
    } else if intent == "order_help" {
      var s := OrderHelp(userInput, store, env);
      OrderLogMatches(s.toolResults.orderLookup, s.toolResults.orderCancel, s.evidence);
    }
  }

  /**
    For product_assist: product_search first (when the catalog loads), then
    size_recommender only when a size word occurs, then eta only when a postal
    code token exists.
   */
  lemma ProductAssistCalls(userInput: string, store: Store)
    ensures ProductAssist(userInput, store).toolsCalled ==
      Logged(ProductSearchTool, store.products.Some?)
      + Logged(SizeRecommenderTool, ContainsAny(Lower(userInput), SizeWords))
      + Logged(EtaTool, ZipToken(userInput).Some?)
  {
  }

  /**
    For product_assist the evidence is one summary per returned product, so at
    most two, each priced within the ceiling read from the message.
   */
  lemma ProductEvidenceIsBounded(userInput: string, store: Store)
    ensures var s := ProductAssist(userInput, store);
      && |s.evidence| <= MaxResults
      && (forall k :: 0 <= k < |s.evidence| ==>
            s.evidence[k].ProductEvidence? && s.evidence[k].price <= PriceCeiling(userInput))
      && (s.toolResults.productSearch.Some? ==>
            |s.evidence| == |s.toolResults.productSearch.value|
            && forall k :: 0 <= k < |s.evidence| ==> s.evidence[k] == ProductEvidenceOf(s.toolResults.productSearch.value[k]))
  {
    var s := ProductAssist(userInput, store);
    if store.products.Some? {
      var found := ProductSearch(store.products.value, SearchQuery(userInput), PriceCeiling(userInput), []);
      assert s.toolResults.productSearch == Some(found);
      assert s.evidence == ProductEvidenceList(found);
      forall k | 0 <= k < |s.evidence|
        ensures s.evidence[k].ProductEvidence? && s.evidence[k].price <= PriceCeiling(userInput)
      {
        assert s.evidence[k] == ProductEvidenceOf(found[k]);
      }
    } else {
      assert s.evidence == [];
    }
  }

  /**
    For order_help: order_lookup runs only with both an order-id token and an
    e-mail token; order_cancel only after a successful lookup of a message that
    says "cancel"; the evidence is exactly the found order.
   */
  lemma OrderHelpCalls(userInput: string, store: Store, env: Env)
    ensures var s := OrderHelp(userInput, store, env);
      && (OrderLookupTool in s.toolsCalled <==>
            Present(OrderIdToken(userInput)) && Present(env.findEmail(userInput)) && store.orders.Some?)
      && (OrderCancelTool in s.toolsCalled <==>
            s.toolResults.orderLookup.Some? && s.toolResults.orderLookup.value.Some?
            && Contains(Lower(userInput), "cancel"))
      && (|s.evidence| == 1 <==> s.toolResults.orderLookup.Some? && s.toolResults.orderLookup.value.Some?)
      && |s.evidence| <= 1
  {
  }

  /**
    The cancellation the dispatcher runs always finds its order: it never
    reports "Order not found", but carries either refund information or
    alternatives.
   */
  lemma DispatchedCancelFindsOrder(userInput: string, store: Store, env: Env)
    ensures var s := OrderHelp(userInput, store, env);
      s.toolResults.orderCancel.Some? ==>
        s.toolResults.orderCancel.value != NotFoundResult
        && (s.toolResults.orderCancel.value.refundInfo.Some? || s.toolResults.orderCancel.value.alternatives.Some?)
  {
    var s := OrderHelp(userInput, store, env);
    if s.toolResults.orderCancel.Some? {
      LookedUpOrderIsJudged(store.orders.value, OrderIdToken(userInput).value, env.findEmail(userInput).value,
        PinnedNow, env.minutesText);
    }
  }

  /**
    A cancellation request whose order is found, with unique order ids:
    lookup then cancellation, the found order as evidence, and a verdict on
    that very order, which succeeds exactly when it is at most 60 minutes old at
    the pinned time.
   */
  lemma CancelRequestSelection(userInput: string, store: Store, env: Env, order: Order)
    requires Present(OrderIdToken(userInput)) && Present(env.findEmail(userInput))
    requires store.orders.Some? && UniqueOrderIds(store.orders.value)
    requires OrderLookup(store.orders.value, OrderIdToken(userInput).value, env.findEmail(userInput).value) == Some(order)
    requires Contains(Lower(userInput), "cancel")
    ensures OrderHelp(userInput, store, env) == Selection(
      [OrderLookupTool, OrderCancelTool],
      ToolResults(None, None, None, Some(Some(order)), Some(CancelDecision(order, PinnedNow, env.minutesText))),
      [OrderEvidenceOf(order)])
    ensures CancelDecision(order, PinnedNow, env.minutesText).success <==> PinnedNow - order.createdAt <= CancelWindowSeconds
  {
    var orders := store.orders.value;
    var id := OrderIdToken(userInput).value;
    assert order in orders && order.orderId == id;
    CancelJudgesOrderWithId(orders, order, PinnedNow, env.minutesText);
    assert [OrderLookupTool] + [OrderCancelTool] == [OrderLookupTool, OrderCancelTool];
  }

  /** Any intent other than product_assist and order_help calls no tool and gathers no evidence. */
  lemma OtherIntentCallsNothing(intent: string, userInput: string, store: Store, env: Env)
    requires intent != "product_assist" && intent != "order_help"
    ensures Dispatch(intent, userInput, store, env) == Selection([], NoResults, [])
  {
  }
}
