/**
 * The outdoor-shop agent's tools: catalog search with a category filter, a
 * result cap and a fallback; order lookup with the actions an order's status
 * allows; store-policy lookup. The catalog, the order table and the policy
 * table are parameters, reduced to the fields these tools read.
 */
module OutdoorShop {
  import opened Wrappers
  import opened Text
  import opened Json
  import opened Events
  import opened Stream
  import opened Conversation
  import opened Agents

  const Name: string := "outdoor_shop"
  const Welcome: string := "Nimbus Gear support. How can I help?"

  /** A catalog product: the fields search and filter suggestions read. */
  datatype Product = Product(
    id: string,
    name: string,
    category: string,
    description: string,
    seasonRating: Option<string>,
    capacity: Option<int>)

  // ---------------------------------------------------------------------------
  // Product search

  /** `category and product.category != category.lower()`: an empty or absent category filters nothing. */
  predicate Excluded(category: Option<string>, p: Product) {
    category.Some? && category.value != "" && p.category != Lower(category.value)
  }

  /** The lower-cased `"<name> <description> <category>"` the query is looked up in. */
  function SearchText(p: Product): string {
    Lower(p.name + " " + p.description + " " + p.category)
  }

  /** `query` is the lower-cased query of the first loop; `None` is the fallback loop, which keeps everything. */
  predicate Keeps(query: Option<string>, p: Product) {
    query.None? || Contains(SearchText(p), query.value)
  }

  /** The in-scope test of both loops. */
  function InScope(category: Option<string>): Product -> bool {
    p => !Excluded(category, p)
  }

  /** The match test of a loop: the query for the first, everything for the fallback. */
  function Matcher(query: Option<string>): Product -> bool {
    p => Keeps(query, p)
  }

  /**
   * One search loop over `ps` with `cap` results still wanted: a product out
   * of scope is skipped; any other product is kept when it matches, and the
   * loop stops there as soon as no more are wanted.
   */
  function Scan(ps: seq<Product>, inScope: Product -> bool, keep: Product -> bool, cap: int): seq<Product>
    decreases |ps|
  {
    if ps == [] then []
    else if !inScope(ps[0]) then Scan(ps[1..], inScope, keep, cap)
    else
      var head := if keep(ps[0]) then [ps[0]] else [];
      if |head| >= cap then head else head + Scan(ps[1..], inScope, keep, cap - |head|)
  }

  /** One step of a loop, with the product's verdict named. */
  lemma ScanFront(ps: seq<Product>, inScope: Product -> bool, keep: Product -> bool, cap: int)
    requires ps != []
    ensures !inScope(ps[0]) ==> Scan(ps, inScope, keep, cap) == Scan(ps[1..], inScope, keep, cap)
    ensures inScope(ps[0]) ==>
      var head := if keep(ps[0]) then [ps[0]] else [];
      Scan(ps, inScope, keep, cap) == if |head| >= cap then head else head + Scan(ps[1..], inScope, keep, cap - |head|)
  {
  }

  /** The products of `search_products`: the matches, or else the fallback. */
  function Search(catalog: seq<Product>, query: string, category: Option<string>, maxResults: int): seq<Product> {
    var primary := Scan(catalog, InScope(category), Matcher(Some(Lower(query))), maxResults);
    if primary == [] then Scan(catalog, InScope(category), Matcher(None), maxResults) else primary
  }

  /** The products in scope that a loop keeps, in catalog order. */
  function Eligible(ps: seq<Product>, inScope: Product -> bool, keep: Product -> bool): (r: seq<Product>)
    ensures |r| <= |ps|
    ensures forall i | 0 <= i < |r| :: r[i] in ps && inScope(r[i]) && keep(r[i])
    decreases |ps|
  {
    if ps == [] then []
    else if inScope(ps[0]) && keep(ps[0]) then [ps[0]] + Eligible(ps[1..], inScope, keep)
    else Eligible(ps[1..], inScope, keep)
  }

  lemma EligibleFront(ps: seq<Product>, inScope: Product -> bool, keep: Product -> bool)
    requires ps != []
    ensures Eligible(ps, inScope, keep)
         == if inScope(ps[0]) && keep(ps[0]) then [ps[0]] + Eligible(ps[1..], inScope, keep)
            else Eligible(ps[1..], inScope, keep)
  {
  }

  /** The first `n` elements, or all of them when there are fewer. */
  function Take<T>(s: seq<T>, n: nat): (r: seq<T>)
    ensures |r| <= n && |r| <= |s| && r == s[..|r|]
    ensures |s| <= n ==> r == s
  {
    if |s| <= n then s else s[..n]
  }

  lemma TakeCons<T>(x: T, e: seq<T>, n: nat)
    requires n >= 1
    ensures Take([x] + e, n) == [x] + Take(e, n - 1)
  {
    if |e| > n - 1 {
      assert ([x] + e)[..n] == [x] + e[..n - 1];
    }
  }

  /** With a positive cap, a loop returns the first `cap` eligible products. */
  lemma {:induction false} ScanIsTake(ps: seq<Product>, inScope: Product -> bool, keep: Product -> bool, cap: int)
    requires cap >= 1
    ensures Scan(ps, inScope, keep, cap) == Take(Eligible(ps, inScope, keep), cap)
    decreases |ps|
  {
    if ps != [] {
      var rest := ps[1..];
      ScanFront(ps, inScope, keep, cap);
      EligibleFront(ps, inScope, keep);
      if !inScope(ps[0]) || !keep(ps[0]) {
        ScanIsTake(rest, inScope, keep, cap);
      } else {
        if cap > 1 {
          ScanIsTake(rest, inScope, keep, cap - 1);
        }
        TakeCons(ps[0], Eligible(rest, inScope, keep), cap);
      }
    }
  }

  /** With no positive cap, a loop still stops after the first product in scope, so it returns at most one. */
  lemma {:induction false} ScanNonPositiveCap(ps: seq<Product>, inScope: Product -> bool, keep: Product -> bool, cap: int)
    requires cap <= 0
    ensures |Scan(ps, inScope, keep, cap)| <= 1
    ensures (forall p :: keep(p)) && Eligible(ps, inScope, keep) != [] ==>
            Scan(ps, inScope, keep, cap) == [Eligible(ps, inScope, keep)[0]]
    decreases |ps|
  {
    if ps != [] && !inScope(ps[0]) {
      ScanNonPositiveCap(ps[1..], inScope, keep, cap);
    }
  }

  /**
   * For a positive `maxResults`: the first `maxResults` in-scope products
   * that match, in catalog order; when none matches, the first `maxResults`
   * in-scope products.
   */
  lemma SearchSpec(catalog: seq<Product>, query: string, category: Option<string>, maxResults: int)
    requires maxResults >= 1
    ensures var matching := Eligible(catalog, InScope(category), Matcher(Some(Lower(query))));
            Search(catalog, query, category, maxResults)
            == if matching != [] then Take(matching, maxResults)
               else Take(Eligible(catalog, InScope(category), Matcher(None)), maxResults)
    ensures |Search(catalog, query, category, maxResults)| <= maxResults
  {
    ScanIsTake(catalog, InScope(category), Matcher(Some(Lower(query))), maxResults);
    ScanIsTake(catalog, InScope(category), Matcher(None), maxResults);
  }

  /** Every product found is in the catalog and in scope; a product from the first loop also matches the query. */
  lemma SearchFindsInScope(catalog: seq<Product>, query: string, category: Option<string>, maxResults: int)
    requires maxResults >= 1
    ensures forall p | p in Search(catalog, query, category, maxResults) :: p in catalog && !Excluded(category, p)
    ensures Eligible(catalog, InScope(category), Matcher(Some(Lower(query)))) != [] ==>
            forall p | p in Search(catalog, query, category, maxResults) :: Contains(SearchText(p), Lower(query))
  {
    SearchSpec(catalog, query, category, maxResults);
  }

  /** A search with a cap of zero still returns one product when any is in scope. */
  lemma ZeroCapSearch(catalog: seq<Product>, query: string, category: Option<string>)
    requires Eligible(catalog, InScope(category), Matcher(None)) != []
    ensures |Search(catalog, query, category, 0)| == 1
  {
    ScanNonPositiveCap(catalog, InScope(category), Matcher(Some(Lower(query))), 0);
    ScanNonPositiveCap(catalog, InScope(category), Matcher(None), 0);
  }

  /** One search loop, as `search_products` writes it; `query` is `None` in the fallback loop. */
  method Collect(catalog: seq<Product>, category: Option<string>, query: Option<string>, maxResults: int)
    returns (matches: seq<Product>)
    ensures matches == Scan(catalog, InScope(category), Matcher(query), maxResults)
  {
    matches := [];
    var i := 0;
    while i < |catalog|
      invariant 0 <= i <= |catalog|
      invariant matches + Scan(catalog[i..], InScope(category), Matcher(query), maxResults - |matches|)
             == Scan(catalog, InScope(category), Matcher(query), maxResults)
    {
      var product := catalog[i];
      CollectStep(catalog, i, InScope(category), Matcher(query), maxResults, matches);
      if !Excluded(category, product) {
        if query.None? || Contains(SearchText(product), query.value) {
          matches := matches + [product];
        }
        if |matches| >= maxResults {
          break;
        }
      }
      i := i + 1;
    }
  }

  /** What one iteration of `Collect` does to the loop's invariant. */
  lemma CollectStep(catalog: seq<Product>, i: nat, inScope: Product -> bool, keep: Product -> bool,
                    maxResults: int, before: seq<Product>)
    requires i < |catalog|
    requires before + Scan(catalog[i..], inScope, keep, maxResults - |before|)
          == Scan(catalog, inScope, keep, maxResults)
    ensures var p := catalog[i];
            var after := if inScope(p) && keep(p) then before + [p] else before;
            if inScope(p) && |after| >= maxResults then
              after == Scan(catalog, inScope, keep, maxResults)
            else
              after + Scan(catalog[i + 1..], inScope, keep, maxResults - |after|)
              == Scan(catalog, inScope, keep, maxResults)
  {
    var ps := catalog[i..];
    assert ps[0] == catalog[i] && ps[1..] == catalog[i + 1..];
    ScanFront(ps, inScope, keep, maxResults - |before|);
  }

  /** The filter suggestions of one product. */
  function ProductFilters(p: Product): set<string> {
    (if p.seasonRating.Some? && p.seasonRating.value != "" then {p.seasonRating.value} else {})
    + (if p.capacity.Some? && p.capacity.value != 0 then {IntToDecimal(p.capacity.value) + "-person"} else {})
    + {p.category}
  }

  /** Every suggestion the products yield. */
  function FilterSet(ps: seq<Product>): set<string>
    decreases |ps|
  {
    if ps == [] then {} else FilterSet(ps[..|ps| - 1]) + ProductFilters(ps[|ps| - 1])
  }

  /** `sorted(filters)[:5]` */
  ghost function Suggested(ps: seq<Product>): seq<string> {
    Take(Sorted(FilterSet(ps)), 5)
  }

  /** `_get_suggested_filters` */
  method SuggestedFilters(products: seq<Product>) returns (r: seq<string>)
    ensures r == Suggested(products)
  {
    var filters: set<string> := {};
    var i := 0;
    while i < |products|
      invariant 0 <= i <= |products|
      invariant filters == FilterSet(products[..i])
    {
      var p := products[i];
      assert products[..i + 1][..i] == products[..i];
      if p.seasonRating.Some? && p.seasonRating.value != "" {
        filters := filters + {p.seasonRating.value};
      }
      if p.capacity.Some? && p.capacity.value != 0 {
        filters := filters + {IntToDecimal(p.capacity.value) + "-person"};
      }
      filters := filters + {p.category};
      i := i + 1;
    }
    assert products[..i] == products;
    var sorted := SortSet(filters);
    r := if |sorted| <= 5 then sorted else sorted[..5];
  }

  /**
   * The suggestions are sorted, without duplicates, at most five, drawn from
   * the products' filters, and the smallest of them: nothing is left out
   * unless five are listed, and what is left out sorts after all that is listed.
   */
  lemma SuggestedProperties(ps: seq<Product>)
    ensures var r := Suggested(ps);
            && StrictlySorted(r) && |r| <= 5 && Elems(r) <= FilterSet(ps)
            && (|r| < 5 ==> Elems(r) == FilterSet(ps))
            && forall x, i | x in FilterSet(ps) - Elems(r) && 0 <= i < |r| :: Less(r[i], x)
  {
    var all := Sorted(FilterSet(ps));
    var r := Take(all, 5);
    SortedPrefixSmallest(all, |r|);
  }

  /** The results of `search_products`. */
  datatype SearchResults = SearchResults(
    query: string,
    categoryFilter: Option<string>,
    resultsCount: nat,
    products: seq<Product>,
    suggestedFilters: seq<string>)

  /** `search_products` without its stream event. */
  method SearchProducts(catalog: seq<Product>, query: string, category: Option<string>, maxResults: int)
    returns (result: SearchResults)
    ensures result.products == Search(catalog, query, category, maxResults)
    ensures result.resultsCount == |result.products|
    ensures result.query == query && result.categoryFilter == category
    ensures result.suggestedFilters == Suggested(result.products)
  {
    var queryLower := Lower(query);
    var matches := Collect(catalog, category, Some(queryLower), maxResults);
    if matches == [] {
      matches := Collect(catalog, category, None, maxResults);
    }
    var suggested := SuggestedFilters(matches);
    result := SearchResults(query, category, |matches|, matches, suggested);
  }

  // ---------------------------------------------------------------------------
  // Orders

  datatype OrderStatus = Placed | Processing | Packed | Shipped | InTransit | Delivered

  /** An order: the fields the lookup reads. */
  datatype Order = Order(id: string, status: OrderStatus)

  const ContactSupport: string := "contact_support"

  /** The actions an order's status allows: at most one, then always `contact_support`. */
  function Actions(status: OrderStatus): (r: seq<string>)
    ensures 1 <= |r| <= 2 && r[|r| - 1] == ContactSupport
    ensures |r| == 2 <==> status != Placed && status != Packed
  {
    match status
    case Shipped => ["track_package", ContactSupport]
    case InTransit => ["track_package", ContactSupport]
    case Processing => ["request_cancellation", ContactSupport]
    case Delivered => ["initiate_return", ContactSupport]
    case Placed => [ContactSupport]
    case Packed => [ContactSupport]
  }

  /** `_get_available_actions`: start from `contact_support` and insert at the front by status. */
  method AvailableActions(order: Order) returns (actions: seq<string>)
    ensures actions == Actions(order.status)
  {
    actions := [ContactSupport];
    if order.status == Shipped || order.status == InTransit {
      actions := ["track_package"] + actions;
    }
    if order.status == Processing {
      actions := ["request_cancellation"] + actions;
    }
    if order.status == Delivered {
      actions := ["initiate_return"] + actions;
    }
  }

  datatype OrderHelp = OrderHelp(formatHint: string, example: string, contact: string)

  datatype OrderLookup =
    | OrderFound(order: Order, actionsAvailable: seq<string>, supportNote: string)
    | OrderNotFound(orderNumberSearched: string, message: string, help: OrderHelp)

  const SupportNote: string := "For modifications, contact support@nimbusgear.com"
  const OrderNotFoundMessage: string := "Order not found. Please verify the order number."
  const NotFoundHelp: OrderHelp := OrderHelp(
    "Order numbers start with 'NG-' followed by year and number", "NG-2024-12345", "support@nimbusgear.com")

  /** `order_number.upper().strip()` */
  function OrderKey(orderNumber: string): string {
    Strip(Upper(orderNumber))
  }

  /** `lookup_order` without its stream event. */
  function LookupOrder(orders: map<string, Order>, orderNumber: string): (r: OrderLookup)
    ensures r.OrderFound? <==> OrderKey(orderNumber) in orders
    ensures r.OrderFound? ==> r.order == orders[OrderKey(orderNumber)] && r.actionsAvailable == Actions(r.order.status)
    ensures r.OrderNotFound? ==> r.orderNumberSearched == OrderKey(orderNumber) && r.help == NotFoundHelp
  {
    var key := OrderKey(orderNumber);
    if key in orders then OrderFound(orders[key], Actions(orders[key].status), SupportNote)
    else OrderNotFound(key, OrderNotFoundMessage, NotFoundHelp)
  }

  /** Normalising an order number twice changes nothing: the searched key looks up the same. */
  lemma OrderKeyIdempotent(orderNumber: string)
    ensures OrderKey(OrderKey(orderNumber)) == OrderKey(orderNumber)
  {
    NoLowerAfterStripUpper(orderNumber);
    UpperOfUppercase(OrderKey(orderNumber));
    StripIdempotent(Upper(orderNumber));
  }

  // ---------------------------------------------------------------------------
  // Policies

  datatype PolicyLookup<P> =
    | PolicyFound(policy: P, relatedPolicies: seq<string>)
    | PolicyNotFound(policyTypeSearched: string, availablePolicies: seq<string>, message: string)

  function Keys<P>(policies: seq<(string, P)>): (r: seq<string>)
    ensures |r| == |policies| && forall i | 0 <= i < |r| :: r[i] == policies[i].0
  {
    seq(|policies|, i requires 0 <= i < |policies| => policies[i].0)
  }

  /** `[p for p in keys if p != key]` */
  function Without(keys: seq<string>, key: string): (r: seq<string>)
    ensures key !in r
    ensures forall k :: k in r <==> k in keys && k != key
    decreases |keys|
  {
    if keys == [] then []
    else if keys[0] == key then Without(keys[1..], key)
    else [keys[0]] + Without(keys[1..], key)
  }

  /** `policy_type.lower().strip()` */
  function PolicyKey(policyType: string): string {
    Strip(Lower(policyType))
  }

  /** The policy stored under `key`, from the first entry that has it. */
  function FindPolicy<P>(policies: seq<(string, P)>, key: string): (r: Option<P>)
    ensures r.Some? <==> key in Keys(policies)
    ensures r.Some? ==> (key, r.value) in policies
    decreases |policies|
  {
    if policies == [] then None
    else if policies[0].0 == key then Some(policies[0].1)
    else
      assert Keys(policies) == [policies[0].0] + Keys(policies[1..]);
      FindPolicy(policies[1..], key)
  }

  /**
   * `get_policy` without its stream event: found under the normalised key,
   * with the other keys as related policies; otherwise every key is offered
   * and the input is echoed as given.
   */
  function GetPolicy<P>(policies: seq<(string, P)>, policyType: string): (r: PolicyLookup<P>)
    ensures r.PolicyFound? <==> PolicyKey(policyType) in Keys(policies)
    ensures r.PolicyFound? ==>
      && (PolicyKey(policyType), r.policy) in policies
      && r.relatedPolicies == Without(Keys(policies), PolicyKey(policyType))
    ensures r.PolicyNotFound? ==>
      && r.policyTypeSearched == policyType
      && r.availablePolicies == Keys(policies)
      && r.message == "Policy '" + policyType + "' not found."
  {
    var key := PolicyKey(policyType);
    match FindPolicy(policies, key)
    case Some(policy) => PolicyFound(policy, Without(Keys(policies), key))
    case None => PolicyNotFound(policyType, Keys(policies), "Policy '" + policyType + "' not found.")
  }

  /** In a dict (distinct keys) the related policies are all the other keys, one fewer than there are. */
  lemma {:induction false} WithoutDistinct(keys: seq<string>, key: string)
    requires forall i, j | 0 <= i < j < |keys| :: keys[i] != keys[j]
    requires key in keys
    ensures |Without(keys, key)| == |keys| - 1
    decreases |keys|
  {
    if keys[0] != key {
      forall i, j | 0 <= i < j < |keys[1..]| ensures keys[1..][i] != keys[1..][j] {
        assert keys[1..][i] == keys[i + 1] && keys[1..][j] == keys[j + 1];
      }
      WithoutDistinct(keys[1..], key);
    } else {
      assert forall k | 0 <= k < |keys[1..]| :: keys[1..][k] == keys[k + 1];
      WithoutAbsent(keys[1..], key);
    }
  }

  lemma {:induction false} WithoutAbsent(keys: seq<string>, key: string)
    requires key !in keys
    ensures Without(keys, key) == keys
    decreases |keys|
  {
    if keys != [] {
      WithoutAbsent(keys[1..], key);
      assert keys == [keys[0]] + keys[1..];
    }
  }

  // ---------------------------------------------------------------------------
  // The tools, with their stream events

  /** The data event of a tool; the `payload` dump of the full result is not modelled. */
  function SearchEvent(query: string, count: nat): Members {
    [("tool", JStr("search_products")), ("event_type", JStr("product_catalog")),
     ("query", JStr(query)), ("results_count", JInt(count))]
  }

  function LookupEvent(orderNumber: string, found: bool): Members {
    [("tool", JStr("lookup_order")), ("event_type", JStr("order_tracking")),
     ("order_number", JStr(orderNumber)), ("found", JBool(found))]
  }

  function PolicyEvent(policyType: string, found: bool): Members {
    [("tool", JStr("get_policy")), ("event_type", JStr("policy_info")),
     ("policy_type", JStr(policyType)), ("found", JBool(found))]
  }

  method SearchProductsTool(stream: StreamHelper, catalog: seq<Product>, query: string,
                            category: Option<string>, maxResults: int)
    returns (result: SearchResults)
    modifies stream.controller.queue
    ensures result.products == Search(catalog, query, category, maxResults)
    ensures result.resultsCount == |result.products| && result.suggestedFilters == Suggested(result.products)
    ensures stream.State() == Enqueued(old(stream.State()), DataFrame(stream.turnId, SearchEvent(query, result.resultsCount)))
  {
    result := SearchProducts(catalog, query, category, maxResults);
    stream.Data(SearchEvent(query, result.resultsCount));
  }

  method LookupOrderTool(stream: StreamHelper, orders: map<string, Order>, orderNumber: string)
    returns (result: OrderLookup)
    modifies stream.controller.queue
    ensures result == LookupOrder(orders, orderNumber)
    ensures stream.State() == Enqueued(old(stream.State()),
              DataFrame(stream.turnId, LookupEvent(OrderKey(orderNumber), result.OrderFound?)))
  {
    var orderUpper := OrderKey(orderNumber);
    if orderUpper in orders {
      var order := orders[orderUpper];
      var actions := AvailableActions(order);
      result := OrderFound(order, actions, SupportNote);
    } else {
      result := OrderNotFound(orderUpper, OrderNotFoundMessage, NotFoundHelp);
    }
    stream.Data(LookupEvent(orderUpper, result.OrderFound?));
  }

  method GetPolicyTool<P>(stream: StreamHelper, policies: seq<(string, P)>, policyType: string)
    returns (result: PolicyLookup<P>)
    modifies stream.controller.queue
    ensures result == GetPolicy(policies, policyType)
    ensures stream.State() == Enqueued(old(stream.State()),
              DataFrame(stream.turnId, PolicyEvent(PolicyKey(policyType), result.PolicyFound?)))
  {
    result := GetPolicy(policies, policyType);
    stream.Data(PolicyEvent(PolicyKey(policyType), result.PolicyFound?));
  }

  // ---------------------------------------------------------------------------
  // The agent

  function StartScript(): seq<Emission> {
    [EmitTts(Welcome), EmitEnd]
  }

  class OutdoorShopAgent {
    const model: string

    constructor (model: string)
      ensures this.model == model
    {
      this.model := model;
    }

    method HandleSessionStart(payload: Payload, stream: StreamHelper)
      requires payload.SessionStart?
      modifies stream, stream.controller, stream.controller.queue
      ensures stream.State() == Run(old(stream.State()), stream.turnId, StartScript())
    {
      ghost var s0 := stream.State();
      stream.Tts(Welcome);
      RunStep(s0, stream.turnId, [], EmitTts(Welcome));
      stream.End();
      RunStep(s0, stream.turnId, [EmitTts(Welcome)], EmitEnd);
      assert [EmitTts(Welcome)] + [EmitEnd] == StartScript();
    }

    method HandleSessionEnd(payload: Payload)
      requires payload.SessionEnd?
    {
    }
  }

  /** The agent as the webhook runs it; its message handler is a model run, supplied as `run`. */
  function Factory(run: (Payload, seq<ModelMessage>) -> Reply): (f: Agents.Factory)
    ensures forall model :: f(model).className == "OutdoorShopAgent" && f(model).model == model
                         && DisplayName(f(model)) == Name && f(model).onMessage == run
  {
    (model: string) => Agent("OutdoorShopAgent", Some(Name), model, (p: Payload) => Handler(StartScript(), Completed), run)
  }

  /** `@agent("outdoor_shop")`, with the model run as `run`. */
  method Register(registry: Registry, run: (Payload, seq<ModelMessage>) -> Reply)
    requires registry.Valid()
    modifies registry
    ensures registry.Valid()
    ensures registry.entries == old(registry.entries)[Name := Factory(run)]
  {
    LowerOfLowercase(Name);
    var _ := registry.Decorate(Name, Factory(run));
  }
}
