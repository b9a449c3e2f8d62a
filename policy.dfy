/** The policy guard stage: the cancellation verdict first, otherwise the discount-code refusal. */
module Policy {
  import opened Wrappers
  import opened Text
  import opened Records
  import opened Tools
  import opened Dispatcher

  const DiscountAlternatives := [
    "Sign up for our newsletter to get future discount codes",
    "Check our current promotions page",
    "First-time customers get 10% off their first order"
  ]

  const DiscountRefusal := Refusal("Non-existent discount code requested", DiscountAlternatives)

  /** policy_guard_node as a function of the tool results and the message. */
  function GuardPolicy(results: ToolResults, userInput: string): (d: Option<PolicyDecision>)
    ensures results.orderCancel.Some? ==> d == Some(results.orderCancel.value.policyDecision)
    ensures results.orderCancel.None? ==>
      (d.Some? <==> Contains(Lower(userInput), "discount") && Contains(Lower(userInput), "code"))
    ensures results.orderCancel.None? && d.Some? ==> d.value.Refusal? && |d.value.alternatives| == 3
  {
    if results.orderCancel.Some? then Some(results.orderCancel.value.policyDecision)
    else if Contains(Lower(userInput), "discount") && Contains(Lower(userInput), "code") then Some(DiscountRefusal)
    else None
  }

  /**
    After dispatch the decision is the cancellation verdict whenever a
    cancellation ran (allowed exactly when it succeeded), even for a message
    that also asks for a discount code.
   */
  lemma GuardAfterDispatch(intent: string, userInput: string, store: Store, env: Env)
    ensures var s := Dispatch(intent, userInput, store, env);
      var d := GuardPolicy(s.toolResults, userInput);
      s.toolResults.orderCancel.Some? ==>
        d.Some? && d.value.CancelPolicy? && d.value.cancelAllowed == s.toolResults.orderCancel.value.success
  {
  }
}
