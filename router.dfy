/**
  The router stage: the language-model reply is an input, and only the
  keyword fallback that replaces an unusable reply is specified.
 */
module Router {
  import opened Text

  const Intents := ["product_assist", "order_help", "other"]
  const OrderWords := ["cancel", "order", "refund", "return"]
  const ProductWords := ["dress", "product", "size", "wedding", "find", "recommend"]

  /** The keyword classification: order words win over product words; anything else is "other". */
  function FallbackIntent(userInput: string): (intent: string)
    ensures intent in Intents
    ensures intent == "order_help" <==> ContainsAny(Lower(userInput), OrderWords)
    ensures intent == "product_assist" <==>
      !ContainsAny(Lower(userInput), OrderWords) && ContainsAny(Lower(userInput), ProductWords)
  {
    var inputLower := Lower(userInput);
    if ContainsAny(inputLower, OrderWords) then "order_help"
    else if ContainsAny(inputLower, ProductWords) then "product_assist"
    else "other"
  }

  /**
    router_node: `llmReply` is the model's reply after `.lower().strip()`; a reply
    outside the three intents (the model's own failure text included) falls back
    to the keywords.
   */
  function RouteIntent(llmReply: string, userInput: string): (intent: string)
    ensures intent in Intents
    ensures llmReply in Intents ==> intent == llmReply
    ensures llmReply !in Intents ==> intent == FallbackIntent(userInput)
  {
    if llmReply in Intents then llmReply else FallbackIntent(userInput)
  }

  /** The fallback does not depend on letter case: the message and its lower-cased form get the same intent. */
  lemma FallbackIgnoresCase(userInput: string)
    ensures FallbackIntent(Lower(userInput)) == FallbackIntent(userInput)
  {
    LowerIdempotent(userInput);
  }
}
