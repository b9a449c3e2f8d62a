# Customer-support agent core in Dafny

This project models the deterministic core of a small e-commerce
customer-support agent. The agent answers one message in four stages:
Router, ToolSelector, PolicyGuard and Responder. They share one state
record.

- **Router** classifies the message as `product_assist`, `order_help` or
  `other`. A language-model reply outside those three falls back to a keyword
  rule.
- **ToolSelector** reads parameters from the message: a price ceiling, a
  search query, a postal code, an order id and an e-mail address. It then
  calls the business tools in a fixed order and logs each call. It also
  collects evidence for the user.
- **PolicyGuard** records the verdict of a cancellation when one ran.
  Otherwise it records the refusal of a discount-code request.
- **Responder** writes the customer-facing reply for the intent and the JSON
  trace that carries it.

The business tools are `product_search`, `size_recommender`, `eta`,
`order_lookup` and `order_cancel`. `order_cancel` enforces a 60-minute
cancellation window that includes its boundary.

Modules, one per file:

| file | module | contents |
|---|---|---|
| `wrappers.dfy` | `Wrappers` | `Option`, used for Python's `None`-or-value |
| `text.dfy` | `Text` | ASCII `lower`, `in`, `split`, `join`, `replace`, `int()`, `str(int)` |
| `records.dfy` | `Records` | products, orders, policy decisions, the data-file snapshot `Store` and the opaque collaborators `Env` |
| `tools.dfy` | `Tools` | the five tools, each loop as a method proved equal to a specification function |
| `tokens.dfy` | `Tokens` | price ceiling, search query, postal-code and order-id tokens |
| `router.dfy` | `Router` | keyword fallback and intent choice |
| `dispatcher.dfy` | `Dispatcher` | tool selection, the call log, tool results and evidence |
| `policy.dfy` | `Policy` | the policy guard |
| `responder.dfy` | `Responder` | product, order and other replies, and the trace |
| `agent.dfy` | `Agent` | the `AgentState` class, its four stage methods and `process_message` |

The loops that build results step by step (the two search passes, the order
lookup, the cancellation lookup, the price scan, the evidence loop and the
loops that number the product lines and build the item lines) are Dafny methods with
loops and invariants. Each method's postcondition equates its result with a
specification function. List comprehensions, such as the bullets of the
alternatives, are sequence comprehensions. The
properties the source promises are then proved about those functions as
lemmas. The pipeline state is a class. Each stage is a method that changes
only the fields its Python node writes.

Design notes:

- The message's language-model classification is an input, `llmReply`,
  already lower-cased and stripped.
- The two JSON data files are a `Store` snapshot. `None` stands for a file
  that cannot be loaded, so every load of it raises.
- Timestamps are integer seconds since the epoch. Cancellations are judged at
  the pinned time 2025-09-07T12:30:00Z, which is `1757248200`.
- Tools are a datatype `Tool`. `Tool.Name()` gives the name under which each
  is logged and keyed.
- A query of several keywords, such as `"wedding midi"`, is matched as one
  substring, as the code does. It is not matched word by word.
- When the catalog cannot be loaded, the tool selector catches the error,
  does not log `product_search` and carries on with the other tools. The
  same holds for `order_lookup` when the order file cannot be loaded.
- `order_cancel` finds the order by id alone. The e-mail check happens
  earlier, in `order_lookup`. With duplicate order ids, the cancelled order
  could differ from the looked-up one. The end-to-end cancellation lemmas
  therefore assume unique order ids (`Records.UniqueOrderIds`).

## Model

| member | source | states |
|---|---|---|
| Text.Lower | src/tools.py:43 | `str.lower()` on ASCII: each of 'A'..'Z' becomes its lower-case letter, every other character is kept, so no upper-case letter remains |
| Text.Words | src/graph.py:117 | `str.split()` gives non-empty words that contain no whitespace |
| Text.WordsOfOneWord | src/graph.py:117 | a single run of non-space characters, with whitespace around it, splits into exactly that run |
| Text.WordsStep | src/graph.py:117 | leading whitespace is dropped and the first maximal non-space run is the first word, followed by the words of the rest |
| Text.WordsOfSpaces | src/graph.py:117 | a text of whitespace only has no words |
| Text.ContainsIff | src/tools.py:51 | the left-to-right scan of `sub in s` succeeds exactly when `sub` occurs at some position of `s` |
| Text.JoinContainsPart | src/graph.py:360 | every part of `sep.join(parts)` occurs in the joined text |
| Text.JoinStartsWithFirst | src/graph.py:360 | the joined text starts with its first part |
| Text.ParseIntText | src/graph.py:123 | `int(str(n)) == n` for every integer `n` |
| Tools.PriceAndQuery | src/tools.py:45-55 | the first loop keeps only catalog entries within the price ceiling whose title or some tag contains the lower-cased query |
| Tools.KeepTagged | src/tools.py:58-63 | the tag pass keeps only entries with a tag equal, ignoring case, to a requested tag |
| Tools.ProductSearch | src/tools.py:27-66 | at most 2 results; each is from the catalog, within `price_max` and matches the query; with tags given, each carries a requested tag |
| Tools.ProductSearchIsFirstSelected | src/tools.py:45-66 | the result is the first at most two catalog entries, in catalog order, that pass all three filters; the tag filter acts before the cut to two |
| Tools.TwoPassesAreOneFilter | src/tools.py:45-63 | the price-and-query pass followed by the tag pass equals one combined filter over the catalog |
| Tools.ShortResultHoldsEverySelected | src/tools.py:66 | a result shorter than two holds every catalog entry that passes the filters |
| Tools.SearchProducts | src/tools.py:39-66 | the two loops of product_search compute exactly the specified result |
| Tools.SizeRecommender | src/tools.py:82-103 | the size is always M or L, and it is M whenever the lower-cased preference contains "m/l" |
| Tools.SizeIsLExactlyWhenLoose | src/tools.py:84-93 | L exactly when there is no "m/l" but there is "loose" or "comfortable" |
| Tools.Eta | src/tools.py:117-137 | `zip` echoes the input; days are 2-3 for metro, 2-4 for east, 3-5 otherwise; the shipping note names the code and the days |
| Tools.EtaRegionByPrefix | src/tools.py:120-131 | each region is chosen exactly by its own prefix group (560/600/400, 1/2/3, 9/8), and standard exactly when no group matches |
| Tools.FirstMatchingOrder | src/tools.py:154-156 | the returned position is the first order whose id is equal and whose e-mail is equal ignoring case |
| Tools.OrderLookup | src/tools.py:141-158 | an order is returned exactly when some order matches id and e-mail ignoring case, and it is such an order from the file |
| Tools.LookupIgnoresEmailCase | src/tools.py:155 | changing only the letter case of the e-mail never changes the lookup's result |
| Tools.LookupOrder | src/tools.py:154-158 | the loop with its early return computes the specified lookup |
| Tools.FirstOrderWithId | src/tools.py:175-179 | the returned position is the first order with that id, or the list's length |
| Tools.CancelDecision | src/tools.py:192-229 | success exactly when at most 3600 seconds have elapsed; the policy decision allows the cancellation exactly on success; success carries the refund text and no alternatives, and a block carries the 3 alternatives and no refund |
| Tools.OrderCancel | src/tools.py:161-229 | an unknown id gives the "Order not found" result; otherwise the first order with that id is judged by the window; `cancel_allowed` always equals success |
| Tools.CancelJudgesOrderWithId | src/tools.py:176-179 | with unique ids, cancelling by the id of an order in the file judges exactly that order |
| Tools.CancelWindowBoundary | src/tools.py:206 | exactly 60 minutes cancels, 60 minutes and one second is blocked, and a time before creation cancels |
| Tools.LookedUpOrderIsJudged | src/tools.py:161-229 | an order that order_lookup found is never "Order not found" for order_cancel, whose result carries refund information or alternatives |
| Tools.CancelOutcomeIsExclusive | src/tools.py:206-229 | for an existing order, refund information is present exactly on success and alternatives exactly on a block, and there are 3 of them |
| Tools.CancelOrder | src/tools.py:172-229 | the loop with its `break` computes the specified cancellation |
| Tokens.PriceCeilingIsFirstParsable | src/graph.py:116-126 | the ceiling is the value after the first "under"/"below"/"max" whose successor parses once "$" and "," are removed; failed parses are skipped; 1000 when there is none |
| Tokens.ScanPriceCeiling | src/graph.py:116-126 | the loop with `break` and `continue` computes that ceiling, and 1000 when no keyword is followed by a number |
| Tokens.QueryTerms | src/graph.py:130-136 | a keyword is a term exactly when it is one of wedding, midi and party and occurs in the lower-cased message; the terms keep the order wedding, midi, party |
| Tokens.SearchQuery | src/graph.py:138 | the query is "dress" exactly when no keyword occurs, and otherwise the present keywords joined by single spaces |
| Tokens.WeddingMidiQuery | src/graph.py:130-138 | with "wedding" and "midi" but no "party" in the message the query is the one string "wedding midi" |
| Tokens.ZipToken | src/graph.py:171 | a token is found exactly when a word-bounded run of 5 or 6 digits exists; it is the text of the leftmost such match, six digits preferred over five |
| Tokens.OrderIdToken | src/graph.py:189 | a found token is a capital letter followed by at least one digit, and it is the text of the leftmost word-bounded match |
| Tokens.OrderIdTokenFound | src/graph.py:189-191 | a token is found exactly when `\b[A-Z]\d+\b` matches somewhere in the message |
| Router.FallbackIntent | src/graph.py:81-89 | always one of the three intents; order_help exactly when an order word occurs; product_assist exactly when no order word but a product word occurs |
| Router.RouteIntent | src/graph.py:77-96 | always one of the three intents; a reply that already is one is kept, and any other reply gives the keyword fallback |
| Router.FallbackIgnoresCase | src/graph.py:83 | the fallback gives a message and its lower-cased form the same intent |
| Dispatcher.DispatchLogMatchesResults | src/graph.py:114-237 | for every intent, each tool is logged exactly when its result is stored, and none is logged twice |
| Dispatcher.ProductAssistCalls | src/graph.py:139-180 | product_search is logged first when the catalog loads, size_recommender only on a size word, eta only on a postal-code token, in that order |
| Dispatcher.ProductEvidenceIsBounded | src/graph.py:145-153 | product evidence has at most 2 entries, each priced within the ceiling, one per returned product |
| Dispatcher.OrderHelpCalls | src/graph.py:184-229 | order_lookup runs exactly with both an order-id and an e-mail token; order_cancel exactly after a found order in a message saying "cancel"; evidence is one entry exactly when the order was found |
| Dispatcher.DispatchedCancelFindsOrder | src/graph.py:205-221 | the cancellation the dispatcher runs never reports "Order not found"; it carries refund information or alternatives |
| Dispatcher.CancelRequestSelection | src/graph.py:198-221 | a cancellation request for a found order logs lookup then cancel, keeps the order as evidence, and judges that order at the pinned time |
| Dispatcher.OtherIntentCallsNothing | src/graph.py:233-237 | any other intent calls no tool and gathers no evidence |
| Policy.GuardPolicy | src/graph.py:248-269 | a cancellation's decision when one ran; otherwise a refusal with 3 alternatives exactly when the message contains "discount" and "code"; otherwise none |
| Policy.GuardAfterDispatch | src/graph.py:250-253 | after dispatch, a cancellation's verdict wins even over a discount-code request, and it allows exactly what succeeded |
| Responder.HeaderCountsOptions | src/graph.py:337 | the header says "option" for one product and "options" for more |
| Responder.ProductLines | src/graph.py:339-343 | one line per product; line k starts with the number k + 1, a period and product k's title in bold |
| Responder.ProductReplyEndsWithClosing | src/graph.py:358-360 | every product reply ends with the "Would you like more details" line |
| Responder.ProductReplyListsEveryProduct | src/graph.py:336-343 | a non-empty result opens with the count header and contains product k's line numbered k + 1 |
| Responder.EmptySearchIsReported | src/graph.py:344-345 | an empty result list opens the reply with the "no products" line |
| Responder.GenerateProductResponse | src/graph.py:328-360 | appending the search, size, eta and closing paragraphs and joining them computes the specified product reply |
| Responder.NumberProducts | src/graph.py:339-343 | the numbering loop over the found products produces exactly the specified product lines |
| Responder.FindProduct | src/graph.py:379 | a product of the catalog with the item's id, and none exactly when no product has it |
| Responder.FindProductIsFirst | src/graph.py:379 | the product found is the first catalog entry with the id |
| Responder.ItemLineRendering | src/graph.py:379-383 | an item whose id is in the catalog shows the first such product's title and the size; an unknown id shows "- Product {id} (Size {size})" |
| Responder.ItemLines | src/graph.py:374-383 | raises exactly when there are items and the catalog cannot be loaded; otherwise one line per item |
| Responder.CancelledReply | src/graph.py:391-400 | the confirmation starts with the check mark and the order id |
| Responder.BlockedReply | src/graph.py:404-415 | the rejection starts with the cross mark and the order id |
| Responder.DetailsReply | src/graph.py:419-425 | the details block starts with the clipboard mark and the order id |
| Responder.FoundOrderReply | src/graph.py:386-425 | details when no cancellation ran, a confirmation on success, a rejection on a block |
| Responder.OrderResponse | src/graph.py:363-425 | the fixed "couldn't find" reply exactly when order_lookup is absent or None; raises exactly when a found order has items and the catalog cannot be loaded |
| Responder.BlockedReplyListsEveryAlternative | src/graph.py:404-413 | a rejection lists every alternative as a bold bullet |
| Responder.CancelReplyFollowsVerdict | src/graph.py:386-415 | after cancelling a found order, the reply confirms when within the window and otherwise refuses and lists every alternative |
| Responder.GenerateOrderResponse | src/graph.py:366-425 | the loop over the items, with its early returns, computes the specified order reply |
| Responder.RefusalReply | src/graph.py:434-441 | the refusal starts with the "I don't have access" opening |
| Responder.OtherResponse | src/graph.py:428-451 | the capability text unless the decision is a refusal and the message contains "discount"; in that case the refusal reply listing the decision's alternatives |
| Responder.RefusalListsEveryAlternative | src/graph.py:434-439 | the refusal lists every alternative as a bullet |
| Responder.CustomerResponse | src/graph.py:307-325 | a reply is never empty, and only the order branch can raise |
| Responder.FinalMessage | src/graph.py:289-297 | the final message is the generated reply when there is one and the apology when generating it raises; it is never empty |
| Agent.ErrorTrace | src/graph.py:530-545 | the error trace has intent "error", no tools, no evidence, the error as its decision and the fixed "having trouble" message |
| Agent.AgentState.constructor | src/graph.py:506-516 | the initial state: empty intent, log, results, evidence and message, and no decision |
| Agent.AgentState.Route | src/graph.py:69-99 | router_node sets only the intent, to the routed one of the three |
| Agent.AgentState.SelectTools | src/graph.py:102-239 | tool_selector_node sets only log, results and evidence, to the dispatch of the intent, with the log matching the results |
| Agent.AgentState.GuardPolicy | src/graph.py:242-271 | policy_guard_node sets only the decision, to the guard's verdict |
| Agent.AgentState.Respond | src/graph.py:274-304 | responder_node sets the non-empty final message and a trace copying intent, log, evidence, decision and that message |
| Agent.SelectProductTools | src/graph.py:114-180 | the product_assist branch computes the specified selection |
| Agent.SearchWithEvidence | src/graph.py:116-153 | the price scan, search and evidence loop compute the specified search and evidence |
| Agent.EvidenceOf | src/graph.py:145-152 | the evidence loop appends one entry per product, in order |
| Agent.SelectOrderTools | src/graph.py:182-231 | the order_help branch computes the specified selection |
| Agent.Process | src/graph.py:493-545 | the final message is never empty; a failing run gives the error trace; otherwise the intent is one of the three, and "other" calls no tool |
| Agent.ProcessMessage | src/graph.py:493-545 | running the four stage methods on a fresh state returns the specified trace and its non-empty message |
| Agent.DiscountCodeIsRefused | src/graph.py:256-267 | a discount-code request routed to "other" calls no tool, records the refusal and lists every alternative |
| Agent.OtherReplyRefusesOnlyDiscountCodes | src/graph.py:428-451 | for "other", the refusal replaces the capability message exactly when "discount" and "code" both occur |
| Agent.CancellationTrace | src/graph.py:198-253 | a cancellation request for a found order logs lookup then cancel, shows the order, and records a verdict allowing it exactly within 60 minutes of the pinned time |
| Agent.CancellationReply | src/graph.py:386-415 | the reply to that request confirms within the window and otherwise refuses and lists every alternative |
| Agent.ProductReplyShowsResults | src/graph.py:139-360 | a product request lists every found product as evidence and in the reply, numbered from 1, and ends with the follow-up question |

## Left out

- The language-model call (`call_llm`, `genai.configure`, `load_dotenv`) is a remote service. Its lower-cased, stripped reply is the input `llmReply`. The router's `except` branch is not modelled because `call_llm` catches its own errors.
- `load_products` and `load_orders` are file I/O. Their contents are the `Store` snapshot, and `None` means the load raises. The system prompt loader and `src/prompts.py` hold prompt text only.
- The LangGraph wiring (`create_agent_graph`, `graph.invoke`) is a fixed linear composition of the four stages. A failure inside it is the input `graphFailure`.
- Date parsing, the real clock and `strftime` in `format_order_date` are not modelled. Times are integer seconds, the evaluation time is a parameter, and the date text is the opaque `Env.dateText`.
- The float minute arithmetic and its `:.1f` rendering in the cancellation reasons are not modelled. The window compares seconds with 3600, which is the same test as minutes ≤ 60. The rendered number is the opaque `Env.minutesText`.
- The e-mail regular expression is the opaque extractor `Env.findEmail`.
- Lower-casing, `\d`, `\w` and whitespace are ASCII only. Python's Unicode case mapping and Unicode digits are not modelled.
- `int()` accepts an optional sign and ASCII digits only. Its acceptance of surrounding whitespace and `_` separators is not modelled.
- Prices are whole numbers (`int`).
- `print` logging is not modelled, and neither are the test and debug scripts.
- Tools.SizeRecommender: its contract states the size set and the "m/l" rule. The L condition is the separate lemma `Tools.SizeIsLExactlyWhenLoose`.
- Responder.FinalMessage: its contract does not state that a generated reply never equals the apology text, because proving it over every reply text is too expensive.
- The `except` branches around `size_recommender`, `eta` and `order_cancel` in the tool selector (`src/graph.py:166`, `179`, `223-224`) are never taken: timestamps are integers, the order file is one snapshot, and these tools are total in the model, so none of them raises.
- Dispatcher.CancelRequestSelection: it assumes unique order ids. Without them, `order_cancel` judges the first order with the id, which `Tools.OrderCancel` states.
