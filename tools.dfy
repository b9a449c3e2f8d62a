/**
  The five business-rule tools: product search, size advice, shipping ETA,
  order lookup and the 60-minute cancellation policy. The data files are
  parameters (`catalog`, `orders`) and the clock is the explicit `now`.
 */
module Tools {
  import opened Wrappers
  import opened Text
  import opened Records

  // ===== product_search =====

  /** product_search never returns more than this many products. */
  const MaxResults: nat := 2

  /** The query test: the lower-cased query inside the lower-cased title or inside some lower-cased tag. */
  predicate QueryMatches(p: Product, queryLower: string) {
    || Contains(Lower(p.title), queryLower)
    || exists k :: 0 <= k < |p.tags| && Contains(Lower(p.tags[k]), queryLower)
  }

  /** The tag filter: some requested tag equals some product tag, ignoring case (equality, not substring). */
  predicate HasRequestedTag(p: Product, tags: seq<string>) {
    exists k, j :: 0 <= k < |tags| && 0 <= j < |p.tags| && Lower(tags[k]) == Lower(p.tags[j])
  }

  /** The first loop of product_search: catalog entries within the price ceiling that match the query. */
  function PriceAndQuery(ps: seq<Product>, queryLower: string, priceMax: int): (r: seq<Product>)
    ensures |r| <= |ps|
    ensures forall k :: 0 <= k < |r| ==> r[k] in ps && r[k].price <= priceMax && QueryMatches(r[k], queryLower)
    decreases |ps|
  {
    if ps == [] then []
    else
      var rest := PriceAndQuery(ps[..|ps| - 1], queryLower, priceMax);
      var p := ps[|ps| - 1];
      if p.price <= priceMax && QueryMatches(p, queryLower) then rest + [p] else rest
  }

  /** The second loop of product_search: the results carrying a requested tag. */
  function KeepTagged(ps: seq<Product>, tags: seq<string>): (r: seq<Product>)
    ensures |r| <= |ps|
    ensures forall k :: 0 <= k < |r| ==> r[k] in ps && HasRequestedTag(r[k], tags)
    decreases |ps|
  {
    if ps == [] then []
    else
      var rest := KeepTagged(ps[..|ps| - 1], tags);
      var p := ps[|ps| - 1];
      if HasRequestedTag(p, tags) then rest + [p] else rest
  }

  /**
    product_search(query, price_max, tags) over `catalog`; an empty `tags`
    stands for Python's `None` or `[]` (no tag filtering).
   */
  function ProductSearch(catalog: seq<Product>, query: string, priceMax: int, tags: seq<string>): (r: seq<Product>)
    ensures |r| <= MaxResults
    ensures forall k :: 0 <= k < |r| ==> r[k] in catalog && r[k].price <= priceMax && QueryMatches(r[k], Lower(query))
    ensures |tags| > 0 ==> forall k :: 0 <= k < |r| ==> HasRequestedTag(r[k], tags)
  {
    var results := PriceAndQuery(catalog, Lower(query), priceMax);
    var filtered := if |tags| > 0 then KeepTagged(results, tags) else results;
    Take(filtered, MaxResults)
  }

  /** All three filters of product_search as one test. */
  predicate Selected(p: Product, queryLower: string, priceMax: int, tags: seq<string>) {
    p.price <= priceMax && QueryMatches(p, queryLower) && (|tags| > 0 ==> HasRequestedTag(p, tags))
  }

  /** Reference definition: the catalog entries passing all filters, in catalog order. */
  function Matching(ps: seq<Product>, queryLower: string, priceMax: int, tags: seq<string>): seq<Product>
    decreases |ps|
  {
    if ps == [] then []
    else
      var rest := Matching(ps[..|ps| - 1], queryLower, priceMax, tags);
      if Selected(ps[|ps| - 1], queryLower, priceMax, tags) then rest + [ps[|ps| - 1]] else rest
  }

  lemma {:induction false} TwoPassesAreOneFilter(ps: seq<Product>, queryLower: string, priceMax: int, tags: seq<string>)
    ensures |tags| > 0 ==> KeepTagged(PriceAndQuery(ps, queryLower, priceMax), tags) == Matching(ps, queryLower, priceMax, tags)
    ensures |tags| == 0 ==> PriceAndQuery(ps, queryLower, priceMax) == Matching(ps, queryLower, priceMax, tags)
    decreases |ps|
  {
    if ps != [] {
      var init := ps[..|ps| - 1];
      var p := ps[|ps| - 1];
      TwoPassesAreOneFilter(init, queryLower, priceMax, tags);
      var rest := PriceAndQuery(init, queryLower, priceMax);
      if p.price <= priceMax && QueryMatches(p, queryLower) {
        assert (rest + [p])[..|rest|] == rest;
      }
    }
  }

  /**
    product_search returns the first (at most two) catalog entries, in catalog
    order, that pass the price, query and tag filters: the tag filter acts
    before the list is cut to two.
   */
  lemma ProductSearchIsFirstSelected(catalog: seq<Product>, query: string, priceMax: int, tags: seq<string>)
    ensures ProductSearch(catalog, query, priceMax, tags) == Take(Matching(catalog, Lower(query), priceMax, tags), MaxResults)
  {
    TwoPassesAreOneFilter(catalog, Lower(query), priceMax, tags);
  }

  lemma {:induction false} MatchingIsComplete(ps: seq<Product>, queryLower: string, priceMax: int, tags: seq<string>, p: Product)
    requires p in ps && Selected(p, queryLower, priceMax, tags)
    ensures p in Matching(ps, queryLower, priceMax, tags)
    decreases |ps|
  {
    if p != ps[|ps| - 1] {
      var init := ps[..|ps| - 1];
      assert ps == init + [ps[|ps| - 1]];
      MatchingIsComplete(init, queryLower, priceMax, tags, p);
    }
  }

  /** A result shorter than two holds every catalog entry that passes the filters: nothing is dropped but by the cap. */
  lemma ShortResultHoldsEverySelected(catalog: seq<Product>, query: string, priceMax: int, tags: seq<string>, p: Product)
    requires p in catalog && Selected(p, Lower(query), priceMax, tags)
    requires |ProductSearch(catalog, query, priceMax, tags)| < MaxResults
    ensures p in ProductSearch(catalog, query, priceMax, tags)
  {
    ProductSearchIsFirstSelected(catalog, query, priceMax, tags);
    MatchingIsComplete(catalog, Lower(query), priceMax, tags, p);
  }

  /** The loops of product_search, step by step. */
  method SearchProducts(catalog: seq<Product>, query: string, priceMax: int, tags: seq<string>) returns (r: seq<Product>)
    ensures r == ProductSearch(catalog, query, priceMax, tags)
  {
    var queryLower := Lower(query);
    var results: seq<Product> := [];
    for i := 0 to |catalog|
      invariant results == PriceAndQuery(catalog[..i], queryLower, priceMax)
    {
      assert catalog[..i + 1][..i] == catalog[..i];
      var product := catalog[i];
      if product.price > priceMax {
        continue;
      }
      var titleMatch := Contains(Lower(product.title), queryLower);
      var tagMatch := exists k :: 0 <= k < |product.tags| && Contains(Lower(product.tags[k]), queryLower);
      if titleMatch || tagMatch {
        results := results + [product];
      }
    }
    assert catalog[..|catalog|] == catalog;
    if |tags| > 0 {
      var filtered: seq<Product> := [];
      for j := 0 to |results|
        invariant filtered == KeepTagged(results[..j], tags)
      {
        assert results[..j + 1][..j] == results[..j];
        if HasRequestedTag(results[j], tags) {
          filtered := filtered + [results[j]];
        }
      }
      assert results[..|results|] == results;
      results := filtered;
    }
    r := Take(results, MaxResults);
  }

  // ===== size_recommender =====

  datatype SizeAdvice = SizeAdvice(recommendedSize: string, rationale: string)

  const BetweenRationale := "Based on your preference between M/L, I recommend size M for a more fitted look. You can always size up to L if you prefer a looser fit."
  const LooseRationale := "Recommended size L for a comfortable, loose fit."
  const FittedRationale := "Recommended size M for a fitted look."
  const DefaultRationale := "Size M recommended as a versatile middle option that works for most body types."

  /** size_recommender({"preference": preference}): the first rule whose keywords occur decides. */
  function SizeRecommender(preference: string): (r: SizeAdvice)
    ensures r.recommendedSize == "M" || r.recommendedSize == "L"
    ensures Contains(Lower(preference), "m/l") ==> r.recommendedSize == "M"
  {
    var pref := Lower(preference);
    if Contains(pref, "between m/l") || Contains(pref, "m/l") then SizeAdvice("M", BetweenRationale)
    else if Contains(pref, "loose") || Contains(pref, "comfortable") then SizeAdvice("L", LooseRationale)
    else if Contains(pref, "fitted") || Contains(pref, "tight") then SizeAdvice("M", FittedRationale)
    else SizeAdvice("M", DefaultRationale)
  }

  /** L is recommended exactly when there is no "m/l" but there is "loose" or "comfortable". */
  lemma SizeIsLExactlyWhenLoose(preference: string)
    ensures var pref := Lower(preference);
      SizeRecommender(preference).recommendedSize == "L"
      <==> !Contains(pref, "m/l") && (Contains(pref, "loose") || Contains(pref, "comfortable"))
  {
    var pref := Lower(preference);
    if Contains(pref, "between m/l") {
      ContainsSuffix("between ", "m/l");
      assert "between " + "m/l" == "between m/l";
      ContainsTrans(pref, "between m/l", "m/l");
    }
  }

  // ===== eta =====

  datatype EtaInfo = EtaInfo(etaDays: string, zip: string, region: string, shippingNote: string)

  const MetroPrefixes := ["560", "600", "400"]
  const EastPrefixes := ["1", "2", "3"]
  const WestPrefixes := ["9", "8"]

  predicate StartsWithAny(s: string, prefixes: seq<string>) {
    exists k :: 0 <= k < |prefixes| && prefixes[k] <= s
  }

  /** eta(zip_code): the first prefix group the code starts with gives region and days. */
  function Eta(zipCode: string): (r: EtaInfo)
    ensures r.zip == zipCode
    ensures r.etaDays == (if r.region == "metro" then "2-3" else if r.region == "east" then "2-4" else "3-5")
    ensures r.shippingNote == "Standard shipping to " + zipCode + ": " + r.etaDays + " business days"
  {
    var (etaDays, region) :=
      if StartsWithAny(zipCode, MetroPrefixes) then ("2-3", "metro")
      else if StartsWithAny(zipCode, EastPrefixes) then ("2-4", "east")
      else if StartsWithAny(zipCode, WestPrefixes) then ("3-5", "west")
      else ("3-5", "standard");
    EtaInfo(etaDays, zipCode, region, "Standard shipping to " + zipCode + ": " + etaDays + " business days")
  }

  /**
    Each region is reached exactly by its own prefixes: the three groups share no
    first character, so no code could be claimed by two rows of the table.
   */
  lemma EtaRegionByPrefix(zipCode: string)
    ensures Eta(zipCode).region == "metro" <==> StartsWithAny(zipCode, MetroPrefixes)
    ensures Eta(zipCode).region == "east" <==> StartsWithAny(zipCode, EastPrefixes)
    ensures Eta(zipCode).region == "west" <==> StartsWithAny(zipCode, WestPrefixes)
    ensures Eta(zipCode).region == "standard" <==>
      !StartsWithAny(zipCode, MetroPrefixes) && !StartsWithAny(zipCode, EastPrefixes) && !StartsWithAny(zipCode, WestPrefixes)
  {
    if StartsWithAny(zipCode, EastPrefixes) || StartsWithAny(zipCode, WestPrefixes) {
      assert zipCode[0] in "12398";
      assert !StartsWithAny(zipCode, MetroPrefixes);
    }
  }

  // ===== order_lookup =====

  predicate OrderMatches(o: Order, orderId: string, email: string) {
    o.orderId == orderId && Lower(o.email) == Lower(email)
  }

  /** The position of the first order with this id and this e-mail (ignoring case), or |orders|. */
  function FirstMatchingOrder(orders: seq<Order>, orderId: string, email: string): (k: nat)
    ensures k <= |orders|
    ensures forall j :: 0 <= j < k ==> !OrderMatches(orders[j], orderId, email)
    ensures k < |orders| ==> OrderMatches(orders[k], orderId, email)
    decreases |orders|
  {
    if orders == [] then 0
    else if OrderMatches(orders[0], orderId, email) then 0
    else 1 + FirstMatchingOrder(orders[1..], orderId, email)
  }

  /** order_lookup(order_id, email) over `orders`. */
  function OrderLookup(orders: seq<Order>, orderId: string, email: string): (r: Option<Order>)
    ensures r.Some? <==> exists k :: 0 <= k < |orders| && OrderMatches(orders[k], orderId, email)
    ensures r.Some? ==> r.value in orders && OrderMatches(r.value, orderId, email)
  {
    var k := FirstMatchingOrder(orders, orderId, email);
    if k < |orders| then Some(orders[k]) else None
  }

  lemma {:induction false} FirstMatchIgnoresEmailCase(orders: seq<Order>, orderId: string, email1: string, email2: string)
    requires Lower(email1) == Lower(email2)
    ensures FirstMatchingOrder(orders, orderId, email1) == FirstMatchingOrder(orders, orderId, email2)
    decreases |orders|
  {
    if orders != [] {
      FirstMatchIgnoresEmailCase(orders[1..], orderId, email1, email2);
    }
  }

  /** Changing only the letter case of the e-mail never changes what order_lookup returns. */
  lemma LookupIgnoresEmailCase(orders: seq<Order>, orderId: string, email1: string, email2: string)
    requires Lower(email1) == Lower(email2)
    ensures OrderLookup(orders, orderId, email1) == OrderLookup(orders, orderId, email2)
  {
    FirstMatchIgnoresEmailCase(orders, orderId, email1, email2);
  }

  /** The loop of order_lookup with its early return. */
  method LookupOrder(orders: seq<Order>, orderId: string, email: string) returns (r: Option<Order>)
    ensures r == OrderLookup(orders, orderId, email)
  {
    for i := 0 to |orders|
      invariant forall j :: 0 <= j < i ==> !OrderMatches(orders[j], orderId, email)
    {
      if orders[i].orderId == orderId && Lower(orders[i].email) == Lower(email) {
        return Some(orders[i]);
      }
    }
    return None;
  }

  // ===== order_cancel =====

  /** 60 minutes, inclusive. */
  const CancelWindowSeconds := 3600
  const NotFoundReason := "Order not found"
  const RefundInfo := "Full refund will be processed within 3-5 business days."
  const CancelAlternatives := [
    "Edit your shipping address if the order hasn't shipped yet",
    "Convert to store credit for future purchases",
    "Contact customer support for special assistance"
  ]

  /** The dictionary order_cancel returns; absent keys are `None`. */
  datatype CancelResult = CancelResult(
    success: bool,
    reason: string,
    policyDecision: PolicyDecision,
    refundInfo: Option<string>,
    alternatives: Option<seq<string>>)

  const NotFoundResult := CancelResult(false, NotFoundReason, CancelPolicy(false, NotFoundReason), None, None)

  /** The position of the first order with this id, or |orders|. */
  function FirstOrderWithId(orders: seq<Order>, orderId: string): (k: nat)
    ensures k <= |orders|
    ensures forall j :: 0 <= j < k ==> orders[j].orderId != orderId
    ensures k < |orders| ==> orders[k].orderId == orderId
    decreases |orders|
  {
    if orders == [] then 0
    else if orders[0].orderId == orderId then 0
    else 1 + FirstOrderWithId(orders[1..], orderId)
  }

  /** The window decision for a found order, `now` being the evaluation time in seconds. */
  function CancelDecision(order: Order, now: int, minutesText: int -> string): (r: CancelResult)
    ensures r.success <==> now - order.createdAt <= CancelWindowSeconds
    ensures r.policyDecision.CancelPolicy? && r.policyDecision.cancelAllowed == r.success
    ensures r.success ==> r.refundInfo == Some(RefundInfo) && r.alternatives.None?
    ensures !r.success ==> r.refundInfo.None? && r.alternatives == Some(CancelAlternatives)
  {
    var elapsed := now - order.createdAt;
    var minutes := minutesText(elapsed);
    if elapsed <= CancelWindowSeconds then
      CancelResult(
        true,
        "Order cancelled successfully. Cancelled within " + minutes + " minutes of creation.",
        CancelPolicy(true, "Within 60-minute window (" + minutes + " minutes elapsed)"),
        Some(RefundInfo),
        None)
    else
      CancelResult(
        false,
        "Cancellation not allowed. Order was placed " + minutes + " minutes ago, which exceeds our 60-minute cancellation window.",
        CancelPolicy(false, "Exceeds 60-minute limit (" + minutes + " minutes elapsed)"),
        None,
        Some(CancelAlternatives))
  }

  /** order_cancel(order_id, now): looks the order up by id only, then applies the window. */
  function OrderCancel(orders: seq<Order>, orderId: string, now: int, minutesText: int -> string): (r: CancelResult)
    ensures r.policyDecision.CancelPolicy? && r.policyDecision.cancelAllowed == r.success
    ensures (forall k :: 0 <= k < |orders| ==> orders[k].orderId != orderId) ==> r == NotFoundResult
    ensures (exists k :: 0 <= k < |orders| && orders[k].orderId == orderId) ==>
      (r.refundInfo.Some? || r.alternatives.Some?)
      && exists k :: 0 <= k < |orders| && orders[k].orderId == orderId
           && (forall j :: 0 <= j < k ==> orders[j].orderId != orderId)
           && r == CancelDecision(orders[k], now, minutesText)
           && (r.success <==> now - orders[k].createdAt <= CancelWindowSeconds)
    ensures r.success ==> r.refundInfo == Some(RefundInfo) && r.alternatives.None?
    ensures !r.success ==> r.refundInfo.None? && (r.alternatives.Some? ==> r.alternatives == Some(CancelAlternatives))
  {
    var k := FirstOrderWithId(orders, orderId);
    if k < |orders| then CancelDecision(orders[k], now, minutesText) else NotFoundResult
  }

  /**
    With unique order ids, cancelling by the id of an order in the file judges
    exactly that order.
   */
  lemma CancelJudgesOrderWithId(orders: seq<Order>, order: Order, now: int, minutesText: int -> string)
    requires UniqueOrderIds(orders) && order in orders
    ensures OrderCancel(orders, order.orderId, now, minutesText) == CancelDecision(order, now, minutesText)
  {
    var k :| 0 <= k < |orders| && orders[k] == order;
    assert FirstOrderWithId(orders, order.orderId) == k;
  }

  /** The window is inclusive: exactly 60 minutes cancels, one second more is blocked, and a clock before creation cancels. */
  lemma CancelWindowBoundary(order: Order, minutesText: int -> string)
    ensures OrderCancel([order], order.orderId, order.createdAt + 3600, minutesText).success
    ensures !OrderCancel([order], order.orderId, order.createdAt + 3601, minutesText).success
    ensures OrderCancel([order], order.orderId, order.createdAt - 1, minutesText).success
  {
  }

  /** Whenever the order exists, exactly one of refund (cancelled) and alternatives (blocked) is present. */
  lemma CancelOutcomeIsExclusive(orders: seq<Order>, orderId: string, now: int, minutesText: int -> string)
    requires exists k :: 0 <= k < |orders| && orders[k].orderId == orderId
    ensures var r := OrderCancel(orders, orderId, now, minutesText);
      (r.refundInfo.Some? <==> r.success) && (r.alternatives.Some? <==> !r.success)
      && (!r.success ==> |r.alternatives.value| == 3)
  {
  }

  /**
    An order that order_lookup found can always be judged by order_cancel: the
    result is never "Order not found", and carries a refund or alternatives.
   */
  lemma LookedUpOrderIsJudged(orders: seq<Order>, orderId: string, email: string, now: int, minutesText: int -> string)
    requires OrderLookup(orders, orderId, email).Some?
    ensures var r := OrderCancel(orders, orderId, now, minutesText);
      r != NotFoundResult && (r.refundInfo.Some? || r.alternatives.Some?)
  {
    var k :| 0 <= k < |orders| && orders[k] == OrderLookup(orders, orderId, email).value;
    assert orders[k].orderId == orderId;
    assert NotFoundResult.refundInfo.None? && NotFoundResult.alternatives.None?;
  }

  /** The loop of order_cancel that finds the order by id, with its break. */
  method CancelOrder(orders: seq<Order>, orderId: string, now: int, minutesText: int -> string) returns (r: CancelResult)
    ensures r == OrderCancel(orders, orderId, now, minutesText)
  {
    var order: Option<Order> := None;
    var i := 0;
    while i < |orders|
      invariant 0 <= i <= |orders|
      invariant order == None
      invariant forall j :: 0 <= j < i ==> orders[j].orderId != orderId
    {
      if orders[i].orderId == orderId {
        order := Some(orders[i]);
        break;
      }
      i := i + 1;
    }
    if order.None? {
      assert FirstOrderWithId(orders, orderId) == |orders|;
      return NotFoundResult;
    }
    assert FirstOrderWithId(orders, orderId) == i && order.value == orders[i];
    r := CancelDecision(order.value, now, minutesText);
  }
}
