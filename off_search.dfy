/**
 * GET /api/off-search: validates the `q` parameter, queries the Open Food
 * Facts search endpoint with a fixed page size and field list, and
 * normalises every returned product into an item with defaults.
 */
module OffSearch {
  import opened Js
  import opened Wrappers
  import opened Http

  const ShortQuery: string := "Query must be at least 2 characters"
  const UpstreamFailed: string := "Failed to query Open Food Facts"
  const SearchEndpoint: string := "https://world.openfoodfacts.org/api/v2/search"
  const UserAgent: string := "CucinaDietApp/0.1 (youremail@example.com)"
  const PageSize: string := "20"
  const UnnamedProduct: string := "Unnamed product"

  /** The product fields requested, in order. */
  const FieldNames: seq<string> := ["code", "product_name", "brands", "nutriments", "image_small_url", "categories"]

  /** The outgoing GET: endpoint, the three query parameters, the User-Agent and `cache: "no-store"`. */
  datatype FoodsRequest = FoodsRequest(
    endpoint: string, searchText: string, pageSize: string, fields: string, userAgent: string, noStore: bool)

  /** One normalised product. */
  datatype Item = Item(
    code: JsValue, name: JsValue, brand: JsValue, image: JsValue,
    caloriesPer100g: JsValue, proteinPer100g: JsValue, carbsPer100g: JsValue, fatPer100g: JsValue,
    categories: JsValue)

  /** The 200 payload `{ count, items }`. */
  datatype Found = Found(count: nat, items: seq<Item>)

  /** `searchParams.get("q") || ""`: the parameter, or "" when it is absent. */
  function QueryParam(q: Option<string>): (r: string)
    ensures r == "" <==> q.None? || q.value == ""
    ensures q.Some? ==> r == q.value
  {
    if q.Some? then q.value else ""
  }

  /**
   * The guard: a query is rejected when it is empty or its trim is shorter than
   * two UTF-16 code units. The emptiness test is subsumed by the length test.
   */
  predicate QueryRejected(query: string)
    ensures QueryRejected(query) <==> Utf16Length(Trim(query)) < 2
  {
    query == "" || Utf16Length(Trim(query)) < 2
  }

  /**
   * The request sent for an accepted query: the raw query as search_text, page
   * size "20", and a fields parameter that reads back as the six names in order.
   */
  function Request(query: string): (r: FoodsRequest)
    ensures r.endpoint == SearchEndpoint && r.userAgent == UserAgent && r.noStore
    ensures r.searchText == query && r.pageSize == "20"
    ensures Split(r.fields, ',') == FieldNames
  {
    FieldNamesHaveNoComma();
    SplitJoin(FieldNames, ',');
    FoodsRequest(SearchEndpoint, query, PageSize, Join(FieldNames, ','), UserAgent, true)
  }

  lemma FieldNamesHaveNoComma()
    ensures forall i :: 0 <= i < |FieldNames| ==> ',' !in FieldNames[i]
  {
  }

  /** `p.nutriments?.[key] ?? null`: null exactly when the value is null or absent, so a stored 0 stays 0. */
  function Nutrient(p: JsValue, key: string): (r: JsValue)
    ensures r == Null <==> IsNullish(Prop(Prop(p, "nutriments"), key))
    ensures !IsNullish(Prop(Prop(p, "nutriments"), key)) ==> r == Prop(Prop(p, "nutriments"), key)
  {
    Coalesce(Prop(Prop(p, "nutriments"), key), Null)
  }

  /**
   * The per-product map: a falsy name becomes "Unnamed product" (so the name
   * is always truthy), a falsy brand or category list "", a falsy image null.
   */
  function Normalise(p: JsValue): (r: Item)
    ensures Truthy(r.name)
    ensures Truthy(Prop(p, "product_name")) ==> r.name == Prop(p, "product_name")
    ensures !Truthy(Prop(p, "product_name")) ==> r.name == Str(UnnamedProduct)
    ensures r.code == Prop(p, "code")
    ensures r.caloriesPer100g == Nutrient(p, "energy-kcal_100g") && r.proteinPer100g == Nutrient(p, "proteins_100g")
    ensures r.carbsPer100g == Nutrient(p, "carbohydrates_100g") && r.fatPer100g == Nutrient(p, "fat_100g")
    ensures r.brand == (if Truthy(Prop(p, "brands")) then Prop(p, "brands") else Str(""))
    ensures r.image == (if Truthy(Prop(p, "image_small_url")) then Prop(p, "image_small_url") else Null)
    ensures r.categories == (if Truthy(Prop(p, "categories")) then Prop(p, "categories") else Str(""))
  {
    Item(
      Prop(p, "code"),
      Or(Prop(p, "product_name"), Str(UnnamedProduct)),
      Or(Prop(p, "brands"), Str("")),
      Or(Prop(p, "image_small_url"), Null),
      Nutrient(p, "energy-kcal_100g"),
      Nutrient(p, "proteins_100g"),
      Nutrient(p, "carbohydrates_100g"),
      Nutrient(p, "fat_100g"),
      Or(Prop(p, "categories"), Str("")))
  }

  /**
   * `products.map(normalise)`: one item per product, in order, or None when a
   * product is null or undefined and reading its `code` throws.
   */
  function NormaliseAll(products: seq<JsValue>): (r: Option<seq<Item>>)
    ensures r.Some? <==> forall i :: 0 <= i < |products| ==> !IsNullish(products[i])
    ensures r.Some? ==> |r.value| == |products|
    ensures r.Some? ==> forall i :: 0 <= i < |products| ==> r.value[i] == Normalise(products[i])
  {
    if products == [] then Some([])
    else if IsNullish(products[0]) then None
    else
      match NormaliseAll(products[1..])
      case None => None
      case Some(rest) => Some([Normalise(products[0])] + rest)
  }

  /**
   * The handler, with the `q` parameter and `fetch` given as inputs. An
   * accepted query is sent untrimmed; `products` missing gives no items, and
   * any other non-array `products` has no `map` to call.
   */
  function HandleGet(q: Option<string>, fetch: FoodsRequest -> Upstream): (x: Exchange<FoodsRequest, Found>)
    ensures x.reply.Json? ==> x.reply.status in {200, 400, 502}
    ensures x.sent.None? <==> QueryRejected(QueryParam(q))
    ensures x.reply.Json? && x.reply.body.Payload? ==> x.reply.body.value.count == |x.reply.body.value.items|
  {
    var query := QueryParam(q);
    if QueryRejected(query) then Exchange(None, Json(400, ErrorBody(ShortQuery)))
    else
      var request := Request(query);
      Exchange(Some(request), Respond(fetch(request)))
  }

  /**
   * What the handler replies once the upstream has answered: 502 exactly for a
   * non-OK response, otherwise 200 with as many items as `count` says, unless
   * something throws.
   */
  function Respond(answer: Upstream): (r: Reply<Found>)
    ensures r.Json? ==> r.status in {200, 502}
    ensures r.Json? && r.status == 502 <==> answer.Answered? && !answer.ok
    ensures r.Json? && r.status == 200 ==> r.body.Payload? && r.body.value.count == |r.body.value.items|
  {
    match answer
    case Rejected => Uncaught
    case Answered(ok, json) =>
      if !ok then Json(502, ErrorBody(UpstreamFailed))
      else if json.None? then Uncaught
      else
        match Member(json.value, "products")
        case None => Uncaught
        case Some(products) =>
          if IsNullish(products) then Json(200, Payload(Found(0, [])))
          else if !products.Arr? then Uncaught
          else
            match NormaliseAll(products.elems)
            case None => Uncaught
            case Some(items) => Json(200, Payload(Found(|items|, items)))
  }

  /** A rejected query is a 400 and no request is sent. */
  lemma ShortQueryRejected(q: Option<string>, fetch: FoodsRequest -> Upstream)
    requires QueryRejected(QueryParam(q))
    ensures HandleGet(q, fetch) == Exchange(None, Json(400, ErrorBody(ShortQuery)))
  {
  }

  /**
   * The request carries the raw, untrimmed query, page size "20" and the six
   * field names, which the comma-joined parameter lists in order.
   */
  lemma RequestParameters(q: Option<string>, fetch: FoodsRequest -> Upstream)
    requires !QueryRejected(QueryParam(q))
    ensures var r := HandleGet(q, fetch).sent;
      && r == Some(Request(QueryParam(q)))
      && r.value.searchText == QueryParam(q) && r.value.pageSize == "20"
      && Split(r.value.fields, ',') == FieldNames && |FieldNames| == 6
  {
  }

  /** The items mirror the products one for one and in order; a missing `products` gives none. */
  lemma ItemsMirrorProducts(data: JsValue)
    requires !IsNullish(data)
    ensures IsNullish(Prop(data, "products")) ==> Respond(Answered(true, Some(data))) == Json(200, Payload(Found(0, [])))
    ensures var products := Prop(data, "products");
      products.Arr? && (forall i :: 0 <= i < |products.elems| ==> !IsNullish(products.elems[i])) ==>
        exists items ::
          && Respond(Answered(true, Some(data))) == Json(200, Payload(Found(|products.elems|, items)))
          && |items| == |products.elems|
          && forall i :: 0 <= i < |items| ==> items[i] == Normalise(products.elems[i])
  {
    var products := Prop(data, "products");
    if products.Arr? && forall i :: 0 <= i < |products.elems| ==> !IsNullish(products.elems[i]) {
      var items := NormaliseAll(products.elems).value;
      assert Respond(Answered(true, Some(data))) == Json(200, Payload(Found(|products.elems|, items)));
    }
  }

  /** A non-OK response from Open Food Facts is a 502. */
  lemma UpstreamFailure(q: Option<string>, fetch: FoodsRequest -> Upstream)
    requires fetch(Request(QueryParam(q))).Answered? && !fetch(Request(QueryParam(q))).ok
    ensures !QueryRejected(QueryParam(q)) ==> HandleGet(q, fetch).reply == Json(502, ErrorBody(UpstreamFailed))
  {
  }

  /** A stored 0 is kept, and a macro becomes null only when it is null or absent. */
  lemma ZeroMacroKept(p: JsValue, key: string)
    requires Prop(Prop(p, "nutriments"), key) == Num(0.0)
    ensures Nutrient(p, key) == Num(0.0)
  {
  }
}
