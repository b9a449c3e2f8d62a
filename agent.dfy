/**
  The agent: a state record threaded through router, tool selector, policy
  guard and responder, and the entry point that runs the four stages and
  turns a failure of the run into an error trace.
 */
module Agent {
  import opened Wrappers
  import opened Text
  import opened Records
  import opened Tools
  import opened Tokens
  import opened Router
  import opened Dispatcher
  import Policy
  import opened Responder

  /** The trace returned when running the stages raises. */
  function ErrorTrace(error: string): (t: Trace)
    ensures t.intent == "error" && t.intent !in Intents && t.toolsCalled == [] && t.evidence == []
    ensures t.policyDecision == Some(Failure(error)) && t.finalMessage == TroubleMessage && t.finalMessage != ""
  {
    Trace("error", [], [], Some(Failure(error)), TroubleMessage)
  }

  /** The state shared by the four stages; each stage updates its own fields. */
  class AgentState {
    var userInput: string
    var intent: string
    var toolsCalled: seq<Tool>
    var toolResults: ToolResults
    var evidence: seq<Evidence>
    var policyDecision: Option<PolicyDecision>
    var finalMessage: string
    var jsonTrace: Option<Trace>

    /** The initial state of process_message. */
    constructor (userInput: string)
      ensures this.userInput == userInput && intent == ""
      ensures toolsCalled == [] && toolResults == NoResults && evidence == []
      ensures policyDecision == None && finalMessage == "" && jsonTrace == None
    {
      this.userInput := userInput;
      intent := "";
      toolsCalled := [];
      toolResults := NoResults;
      evidence := [];
      policyDecision := None;
      finalMessage := "";
      jsonTrace := None;
    }

    /** router_node, given the language model's lower-cased, stripped reply. */
    method Route(llmReply: string)
      modifies this`intent
      ensures intent == RouteIntent(llmReply, userInput) && intent in Intents
    {
      intent := llmReply;
      if intent !in Intents {
        intent := FallbackIntent(userInput);
      }
    }

    /** tool_selector_node: runs the tools for the intent and records calls, results and evidence. */
    method SelectTools(store: Store, env: Env)
      modifies this`toolsCalled, this`toolResults, this`evidence
      ensures Selection(toolsCalled, toolResults, evidence) == Dispatch(intent, userInput, store, env)
      ensures LogMatchesResults(Selection(toolsCalled, toolResults, evidence))
    {
      var selection := NoSelection;
      if intent == "product_assist" {
        selection := SelectProductTools(userInput, store);
      } else if intent == "order_help" {
        selection := SelectOrderTools(userInput, store, env);
      }
      toolsCalled := selection.toolsCalled;
      toolResults := selection.toolResults;
      evidence := selection.evidence;
      DispatchLogMatchesResults(intent, userInput, store, env);
    }

    /** policy_guard_node. */
    method GuardPolicy()
      modifies this`policyDecision
      ensures policyDecision == Policy.GuardPolicy(toolResults, userInput)
    {
      policyDecision := None;
      if toolResults.orderCancel.Some? {
        policyDecision := Some(toolResults.orderCancel.value.policyDecision);
      } else if Contains(Lower(userInput), "discount") && Contains(Lower(userInput), "code") {
        policyDecision := Some(Policy.DiscountRefusal);
      }
    }

    /** responder_node: the reply (or the apology when generating it raises) and the trace that carries it. */
    method Respond(store: Store, env: Env)
      modifies this`finalMessage, this`jsonTrace
      ensures finalMessage == FinalMessage(intent, userInput, toolResults, policyDecision, store, env)
      ensures finalMessage != ""
      ensures jsonTrace == Some(Trace(intent, toolsCalled, evidence, policyDecision, finalMessage))
    {
      var reply: Option<string>;
      if intent == "product_assist" {
        var text := GenerateProductResponse(toolResults);
        reply := Some(text);
      } else if intent == "order_help" {
        reply := GenerateOrderResponse(toolResults, store, env.dateText);
      } else if intent == "other" {
        reply := Some(OtherResponse(userInput, policyDecision));
      } else {
        reply := Some(RephraseReply);
      }
      finalMessage := if reply.Some? then reply.value else Apology;
      jsonTrace := Some(Trace(intent, toolsCalled, evidence, policyDecision, finalMessage));
    }
  }

  /**
    The product_assist branch of tool_selector_node: price scan, search, the
    evidence loop, then the size and delivery tools.
   */
  method SelectProductTools(userInput: string, store: Store) returns (s: Selection)
    ensures s == ProductAssist(userInput, store)
  {
    var inputLower := Lower(userInput);
    var products, gathered := SearchWithEvidence(userInput, store);
    var advice: Option<SizeAdvice> := None;
    if ContainsAny(inputLower, SizeWords) {
      advice := Some(SizeRecommender(inputLower));
    }
    var zip := ZipToken(userInput);
    var etaInfo: Option<EtaInfo> := None;
    if zip.Some? {
      etaInfo := Some(Eta(zip.value));
    }
    s := Selection(
      Logged(ProductSearchTool, products.Some?) + Logged(SizeRecommenderTool, advice.Some?) + Logged(EtaTool, etaInfo.Some?),
      ToolResults(products, advice, etaInfo, None, None),
      gathered);
  }

  /**
    The price scan, the catalog search and the loop that turns each found
    product into evidence; a catalog that cannot be loaded yields no search.
   */
  method SearchWithEvidence(userInput: string, store: Store) returns (products: Option<seq<Product>>, gathered: seq<Evidence>)
    ensures products == SearchResult(userInput, store)
    ensures gathered == ProductEvidenceList(products.GetOr([]))
  {
    var priceMax := ScanPriceCeiling(Words(Lower(userInput)));
    assert priceMax == PriceCeiling(userInput);
    products := None;
    gathered := [];
    if store.products.Some? {
      var found := SearchProducts(store.products.value, SearchQuery(userInput), priceMax, []);
      products := Some(found);
      gathered := EvidenceOf(found);
    }
  }

  /** The loop that appends one evidence entry per found product. */
  method EvidenceOf(found: seq<Product>) returns (gathered: seq<Evidence>)
    ensures gathered == ProductEvidenceList(found)
  {
    gathered := [];
    for k := 0 to |found|
      invariant |gathered| == k
      invariant forall j :: 0 <= j < k ==> gathered[j] == ProductEvidenceOf(found[j])
    {
      gathered := gathered + [ProductEvidenceOf(found[k])];
    }
    var expected := ProductEvidenceList(found);
    assert forall j :: 0 <= j < |found| ==> gathered[j] == expected[j];
  }

  /**
    The order_help branch of tool_selector_node: lookup with both tokens,
    then cancellation at the pinned time for a found order whose message
    says "cancel".
   */
  method SelectOrderTools(userInput: string, store: Store, env: Env) returns (s: Selection)
    ensures s == OrderHelp(userInput, store, env)
  {
    var orderId := OrderIdToken(userInput);
    var email := env.findEmail(userInput);
    var lookup: Option<Option<Order>> := None;
    var cancel: Option<CancelResult> := None;
    var evidence: seq<Evidence> := [];
    if Present(orderId) && Present(email) && store.orders.Some? {
      var order := LookupOrder(store.orders.value, orderId.value, email.value);
      lookup := Some(order);
      if order.Some? {
        evidence := [OrderEvidenceOf(order.value)];
        if Contains(Lower(userInput), "cancel") {
          var result := CancelOrder(store.orders.value, orderId.value, PinnedNow, env.minutesText);
          cancel := Some(result);
        }
      }
    }
    s := Selection(
      Logged(OrderLookupTool, lookup.Some?) + Logged(OrderCancelTool, cancel.Some?),
      ToolResults(None, None, None, lookup, cancel),
      evidence);
  }

  /**
    process_message as a function: the trace of a run through the four
    stages, or the error trace when the run raises (`graphFailure` carries
    the exception text).
   */
  function Process(userInput: string, llmReply: string, store: Store, env: Env, graphFailure: Option<string>): (t: Trace)
    ensures t.finalMessage != ""
    ensures graphFailure.Some? ==> t == ErrorTrace(graphFailure.value)
    ensures graphFailure.None? ==> t.intent in Intents && (t.intent == "other" ==> t.toolsCalled == [] && t.evidence == [])
  {
    if graphFailure.Some? then ErrorTrace(graphFailure.value)
    else
      var intent := RouteIntent(llmReply, userInput);
      var selection := Dispatch(intent, userInput, store, env);
      var decision := Policy.GuardPolicy(selection.toolResults, userInput);
      Trace(intent, selection.toolsCalled, selection.evidence, decision,
            FinalMessage(intent, userInput, selection.toolResults, decision, store, env))
  }

  /** EcommerceAgent.process_message: runs the stages over a fresh state and returns the trace and the reply. */
  method ProcessMessage(userInput: string, llmReply: string, store: Store, env: Env, graphFailure: Option<string>)
    returns (trace: Trace, finalMessage: string)
    ensures trace == Process(userInput, llmReply, store, env, graphFailure)
    ensures finalMessage == trace.finalMessage && finalMessage != ""
  {
    if graphFailure.Some? {
      trace := ErrorTrace(graphFailure.value);
      finalMessage := trace.finalMessage;
      return;
    }
    var state := new AgentState(userInput);
    state.Route(llmReply);
    state.SelectTools(store, env);
    state.GuardPolicy();
    state.Respond(store, env);
    trace := state.jsonTrace.value;
    finalMessage := state.finalMessage;
  }

  /** A run without failure is the composition of the four stages. */
  lemma ProcessComposesStages(userInput: string, llmReply: string, store: Store, env: Env)
    ensures var intent := RouteIntent(llmReply, userInput);
      var s := Dispatch(intent, userInput, store, env);
      var decision := Policy.GuardPolicy(s.toolResults, userInput);
      Process(userInput, llmReply, store, env, None)
        == Trace(intent, s.toolsCalled, s.evidence, decision, FinalMessage(intent, userInput, s.toolResults, decision, store, env))
  {
  }

  /**
    A request for a discount code that is routed to "other" calls no tool,
    records the refusal and answers with every alternative.
   */
  lemma DiscountCodeIsRefused(userInput: string, llmReply: string, store: Store, env: Env, k: nat)
    requires RouteIntent(llmReply, userInput) == "other"
    requires Contains(Lower(userInput), "discount") && Contains(Lower(userInput), "code")
    requires k < |Policy.DiscountAlternatives|
    ensures var t := Process(userInput, llmReply, store, env, None);
      && t.toolsCalled == [] && t.evidence == []
      && t.policyDecision == Some(Policy.DiscountRefusal)
      && RefusalOpening <= t.finalMessage
      && Contains(t.finalMessage, Bullet + Policy.DiscountAlternatives[k])
  {
    RefusalListsEveryAlternative(Policy.DiscountAlternatives, k);
  }

  /**
    A message routed to "other" gets the discount refusal exactly when it
    mentions both "discount" and "code"; otherwise the list of capabilities.
   */
  lemma OtherReplyRefusesOnlyDiscountCodes(userInput: string, llmReply: string, store: Store, env: Env)
    requires RouteIntent(llmReply, userInput) == "other"
    ensures var t := Process(userInput, llmReply, store, env, None);
      t.finalMessage != CapabilityReply <==>
        Contains(Lower(userInput), "discount") && Contains(Lower(userInput), "code")
  {
  }

  /**
    A cancellation request for a found order (unique order ids) calls
    order_lookup then order_cancel, shows the order as evidence, and records a
    verdict that allows the cancellation exactly when the order is at most 60
    minutes old at the pinned time.
   */
  lemma CancellationTrace(userInput: string, llmReply: string, store: Store, env: Env, order: Order)
    requires RouteIntent(llmReply, userInput) == "order_help"
    requires Present(OrderIdToken(userInput)) && Present(env.findEmail(userInput))
    requires store.orders.Some? && UniqueOrderIds(store.orders.value)
    requires OrderLookup(store.orders.value, OrderIdToken(userInput).value, env.findEmail(userInput).value) == Some(order)
    requires Contains(Lower(userInput), "cancel")
    ensures var t := Process(userInput, llmReply, store, env, None);
      && t.toolsCalled == [OrderLookupTool, OrderCancelTool]
      && t.evidence == [OrderEvidenceOf(order)]
      && t.policyDecision.Some? && t.policyDecision.value.CancelPolicy?
      && (t.policyDecision.value.cancelAllowed <==> PinnedNow - order.createdAt <= CancelWindowSeconds)
  {
    var s := OrderHelp(userInput, store, env);
    CancelRequestSelection(userInput, store, env, order);
    ProcessComposesStages(userInput, llmReply, store, env);
    assert Dispatch("order_help", userInput, store, env) == s;
    assert Policy.GuardPolicy(s.toolResults, userInput) == Some(CancelDecision(order, PinnedNow, env.minutesText).policyDecision);
  }

  /**
    The reply to such a request confirms the cancellation exactly when the
    order is at most 60 minutes old at the pinned time; otherwise it refuses and
    offers every alternative (the catalog being loadable when the order has items).
   */
  lemma CancellationReply(userInput: string, llmReply: string, store: Store, env: Env, order: Order, k: nat)
    requires RouteIntent(llmReply, userInput) == "order_help"
    requires Present(OrderIdToken(userInput)) && Present(env.findEmail(userInput))
    requires store.orders.Some? && UniqueOrderIds(store.orders.value)
    requires |order.items| == 0 || store.products.Some?
    requires OrderLookup(store.orders.value, OrderIdToken(userInput).value, env.findEmail(userInput).value) == Some(order)
    requires Contains(Lower(userInput), "cancel")
    requires k < |CancelAlternatives|
    ensures var m := Process(userInput, llmReply, store, env, None).finalMessage;
      && (PinnedNow - order.createdAt <= CancelWindowSeconds ==> CancelledMark + order.orderId <= m)
      && (PinnedNow - order.createdAt > CancelWindowSeconds ==>
            BlockedMark + order.orderId <= m && Contains(m, Bullet + "**" + CancelAlternatives[k] + "**"))
  {
    var s := OrderHelp(userInput, store, env);
    CancelRequestSelection(userInput, store, env, order);
    var decision := Policy.GuardPolicy(s.toolResults, userInput);
    CancelReplyFollowsVerdict(s.toolResults, store, env.dateText, order, PinnedNow, env.minutesText, k);
    ProcessComposesStages(userInput, llmReply, store, env);
    assert Dispatch("order_help", userInput, store, env) == s;
    assert FinalMessage("order_help", userInput, s.toolResults, decision, store, env)
      == OrderResponse(s.toolResults, store, env.dateText).value;
  }

  /**
    A product request with a loadable catalog lists every found product in the
    reply, numbered from 1, and closes with the follow-up question.
   */
  lemma ProductReplyShowsResults(userInput: string, llmReply: string, store: Store, env: Env, k: nat)
    requires RouteIntent(llmReply, userInput) == "product_assist" && store.products.Some?
    requires k < |SearchResult(userInput, store).value|
    ensures var t := Process(userInput, llmReply, store, env, None);
      var found := SearchResult(userInput, store).value;
      && t.toolsCalled[0] == ProductSearchTool
      && t.evidence[k] == ProductEvidenceOf(found[k])
      && Contains(t.finalMessage, ProductLine(k + 1, found[k]))
      && EndsWith(t.finalMessage, ClosingLine)
  {
    var s := Dispatch("product_assist", userInput, store, env);
    ProductReplyListsEveryProduct(s.toolResults, k);
    ProductReplyEndsWithClosing(s.toolResults);
  }
}
