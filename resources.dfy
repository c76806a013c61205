/** The resource operations layered on `printifyFetch`: each maps one action
    to one endpoint template, one method, one body and at most one exact
    success-status check. */
module Resources {
  import opened Wrappers
  import opened Js
  import Text
  import Uri
  import RateLimit
  import Gateway

  datatype Action =
    | GetProducts
    | GetProduct(productId: string)
    | CreateProduct(productData: Option<Json>)
    | UpdateProduct(productId: string, productData: Option<Json>)
    | DeleteProduct(productId: string)
    | CreateOrder(orderData: Option<Json>)
    | GetOrders
    | GetOrder(orderId: string)
    | CreateCart
    | LoadCart(cartId: string)
      /** `quantity` defaults to 1 when it is `undefined` (`None`). */
    | AddToCart(cartId: string, variantId: Json, quantity: Option<Json>)
      /** Each line is a JavaScript object, here its own properties. */
    | UpdateCart(cartId: string, lines: seq<map<string, Json>>)
    | DeleteCart(cartId: string)
    | GetAllCollections

  /** A wrapper's own error: `<operation>: <status>`. */
  datatype WrapperError =
    | Upstream(cause: Gateway.GatewayError)
    | UnexpectedStatus(operation: string, status: int)

  /** The endpoint after the `/shops/{shop_id}` prefix that every template
      except GetAllCollections's (which calls nothing) starts with. */
  function ShopPath(a: Action): string {
    match a
    case GetProducts => "/products.json"
    case CreateProduct(_) => "/products.json"
    case GetProduct(id) => "/products/" + id + ".json"
    case UpdateProduct(id, _) => "/products/" + id + ".json"
    case DeleteProduct(id) => "/products/" + id + ".json"
    case CreateOrder(_) => "/orders"
    case GetOrders => "/orders"
    case GetOrder(id) => "/orders/" + id
    case CreateCart => "/carts.json"
    case LoadCart(id) => "/carts/" + id + ".json"
    case AddToCart(id, _, _) => "/carts/" + id + ".json"
    case UpdateCart(id, _) => "/carts/" + id + ".json"
    case DeleteCart(id) => "/carts/" + id + ".json"
    case GetAllCollections => ""
  }

  const ShopPrefix: string := "/shops/"

  function Endpoint(a: Action): string {
    ShopPrefix + Gateway.ShopIdPlaceholder + ShopPath(a)
  }

  /** The method each wrapper passes; the order reads pass none (GET by default). */
  function MethodOf(a: Action): Option<Gateway.Method> {
    match a
    case CreateProduct(_) => Some(Gateway.POST)
    case CreateOrder(_) => Some(Gateway.POST)
    case CreateCart => Some(Gateway.POST)
    case UpdateProduct(_, _) => Some(Gateway.PUT)
    case AddToCart(_, _, _) => Some(Gateway.PUT)
    case UpdateCart(_, _) => Some(Gateway.PUT)
    case DeleteProduct(_) => Some(Gateway.DELETE)
    case DeleteCart(_) => Some(Gateway.DELETE)
    case GetOrders => None
    case GetOrder(_) => None
    case _ => Some(Gateway.GET)
  }

  function Object1(key: string, value: Json): Json {
    JObject(map[key := value])
  }

  /** `{cart: {items: items}}`. */
  function CartBody(items: seq<Json>): Json {
    Object1("cart", Object1("items", JArray(items)))
  }

  /** `{variant_id: line.variant_id, quantity: line.quantity}` as serialized:
      a property the line does not have is `undefined` and is left out. */
  function LineItem(line: map<string, Json>): (item: map<string, Json>)
    ensures item.Keys == line.Keys * {"variant_id", "quantity"}
    ensures forall k :: k in item ==> item[k] == line[k]
  {
    map k | k in line.Keys && (k == "variant_id" || k == "quantity") :: line[k]
  }

  /** `lines.map(...)` in updateCart. */
  function LineItems(lines: seq<map<string, Json>>): (items: seq<Json>)
    ensures |items| == |lines|
    ensures forall i :: 0 <= i < |lines| ==> items[i] == JObject(LineItem(lines[i]))
  {
    if lines == [] then [] else [JObject(LineItem(lines[0]))] + LineItems(lines[1..])
  }

  function BodyOf(a: Action): Option<Json> {
    match a
    case CreateProduct(data) => data
    case UpdateProduct(_, data) => data
    case CreateOrder(data) => data
    case CreateCart => Some(CartBody([]))
    case AddToCart(_, v, q) =>
      Some(CartBody([JObject(map["variant_id" := v, "quantity" := q.GetOr(JNumber(1.0))])]))
    case UpdateCart(_, lines) => Some(CartBody(LineItems(lines)))
    case _ => None
  }

  /** The options each wrapper passes to `printifyFetch`; none passes a shop id. */
  function RequestOf(a: Action): (req: Gateway.Request)
    ensures req.shopId.None?
  {
    Gateway.Request(Endpoint(a), MethodOf(a), BodyOf(a), None)
  }

  /** The one status each wrapper accepts; the order functions check none. */
  function ExpectedStatus(a: Action): Option<int> {
    match a
    case CreateProduct(_) => Some(201)
    case CreateCart => Some(201)
    case CreateOrder(_) => None
    case GetOrders => None
    case GetOrder(_) => None
    case GetAllCollections => None
    case _ => Some(200)
  }

  function Label(a: Action): string {
    match a
    case GetProducts => "Failed to fetch products"
    case GetProduct(_) => "Failed to fetch product"
    case CreateProduct(_) => "Failed to create product"
    case UpdateProduct(_, _) => "Failed to update product"
    case DeleteProduct(_) => "Failed to delete product"
    case CreateCart => "Failed to create cart"
    case LoadCart(_) => "Failed to load cart"
    case AddToCart(_, _, _) => "Failed to add to cart"
    case UpdateCart(_, _) => "Failed to update cart"
    case DeleteCart(_) => "Failed to delete cart"
    case _ => ""
  }

  /** The wrapper's check of the gateway's result. */
  function Check(a: Action, r: Result<Gateway.ApiResponse, Gateway.GatewayError>): (c: Result<Gateway.ApiResponse, WrapperError>)
    // gateway errors pass through unchanged
    ensures r.Failure? ==> c == Failure(Upstream(r.error))
    // success is the gateway's own success, with exactly the expected status if there is one
    ensures c.Success? <==> r.Success? && (ExpectedStatus(a).None? || r.value.status == ExpectedStatus(a).value)
    ensures c.Success? ==> c.value == r.value
    ensures r.Success? && c.Failure? ==> c.error == UnexpectedStatus(Label(a), r.value.status)
  {
    match r
    case Failure(e) => Failure(Upstream(e))
    case Success(resp) =>
      if ExpectedStatus(a).None? || resp.status == ExpectedStatus(a).value then Success(resp)
      else Failure(UnexpectedStatus(Label(a), resp.status))
  }

  /** `getAllCollections()`: a fixed empty listing, with no call upstream. */
  const AllCollections: Gateway.ApiResponse :=
    Gateway.ApiResponse(200, Object1("data", Object1("collections", Object1("edges", JArray([])))))

  /** Every wrapper on the shared limiter; `network` is what the network
      answers if a request is sent. */
  method Perform(limiter: RateLimit.RateLimiter, env: Gateway.Env, a: Action,
                 now: RateLimit.Timestamp, network: Gateway.NetworkReply)
    returns (r: Result<Gateway.ApiResponse, WrapperError>, sent: Option<Gateway.HttpRequest>)
    requires limiter.Valid()
    modifies limiter
    ensures limiter.Valid()
    ensures a.GetAllCollections? ==>
              r == Success(AllCollections) && sent.None? && limiter.requests == old(limiter.requests)
    ensures !a.GetAllCollections? ==>
              var o := Gateway.Fetch(old(limiter.requests), env, RequestOf(a), now, network);
              r == Check(a, o.result) && sent == o.sent && limiter.requests == o.requests
  {
    if a.GetAllCollections? {
      return Success(AllCollections), None;
    }
    var g;
    g, sent := Gateway.PrintifyFetch(limiter, env, RequestOf(a), now, network);
    r := Check(a, g);
  }

  /** A 2xx reply other than the expected status is still a failure:
      createProduct and createCart refuse 200, the read, update and delete
      wrappers refuse 201. */
  lemma OtherSuccessStatusFails(a: Action, status: int)
    requires ExpectedStatus(a).Some? && Gateway.IsOk(status) && status != ExpectedStatus(a).value
    ensures Check(a, Gateway.Classify(Gateway.Reply(status, None))) == Failure(UnexpectedStatus(Label(a), status))
  {
  }

  /** The order functions accept every 2xx reply. */
  lemma OrdersAcceptAnySuccess(a: Action, status: int, body: Option<Json>)
    requires a.CreateOrder? || a.GetOrders? || a.GetOrder?
    requires Gateway.IsOk(status)
    ensures Check(a, Gateway.Classify(Gateway.Reply(status, body)))
         == Success(Gateway.ApiResponse(status, Gateway.ParsedBody(body)))
  {
  }

  /** addToCart sends a list of exactly one line, whatever the cart holds. */
  lemma AddToCartSendsOneLine(cartId: string, variantId: Json, quantity: Option<Json>)
    ensures var items := BodyOf(AddToCart(cartId, variantId, quantity)).value.fields["cart"].fields["items"].elems;
      |items| == 1 && items[0].fields["variant_id"] == variantId
      && items[0].fields["quantity"] == (if quantity.Some? then quantity.value else JNumber(1.0))
  {
  }

  /** updateCart sends one item per line, in the lines' order. */
  lemma UpdateCartMapsLines(cartId: string, lines: seq<map<string, Json>>)
    ensures var items := BodyOf(UpdateCart(cartId, lines)).value.fields["cart"].fields["items"].elems;
      |items| == |lines| && forall i :: 0 <= i < |lines| ==> items[i].fields == LineItem(lines[i])
  {
  }

  /** A path segment that resolves as it is: no `/`, `?` or `#`, and not a
      dot segment. */
  predicate PlainSegment(x: string) {
    '/' !in x && '?' !in x && '#' !in x && x != "." && x != ".."
  }

  /** An unreserved character of section 2.3 of RFC 3986: URL parsers,
      the WHATWG one included, pass it through without encoding it. */
  predicate Unreserved(c: char) {
    'a' <= c <= 'z' || 'A' <= c <= 'Z' || '0' <= c <= '9' || c == '-' || c == '.' || c == '_' || c == '~'
  }

  /** An identifier made of unreserved characters only, other than `.` and `..`. */
  predicate SafeId(x: string) {
    (forall i :: 0 <= i < |x| ==> Unreserved(x[i])) && x != "." && x != ".."
  }

  /** Such an identifier is a plain segment and holds no `$`. */
  lemma SafeIdIsPlain(x: string)
    requires SafeId(x)
    ensures PlainSegment(x) && '$' !in x
  {
    forall c | c in x
      ensures c != '/' && c != '?' && c != '#' && c != '$'
    {
      var i :| 0 <= i < |x| && x[i] == c;
    }
  }

  /** Identifiers that the URL of `a` can carry unchanged. */
  predicate SafeIds(a: Action) {
    match a
    case GetProduct(id) => SafeId(id)
    case UpdateProduct(id, _) => SafeId(id)
    case DeleteProduct(id) => SafeId(id)
    case GetOrder(id) => SafeId(id)
    case LoadCart(id) => SafeId(id)
    case AddToCart(id, _, _) => SafeId(id)
    case UpdateCart(id, _) => SafeId(id)
    case DeleteCart(id) => SafeId(id)
    case _ => true
  }

  lemma OneSegment(x: string)
    requires PlainSegment(x)
    ensures Uri.PlainPath("/" + x) && '?' !in "/" + x && '#' !in "/" + x
  {
    Uri.PlainSegment(x);
  }

  lemma TwoSegments(x: string, y: string)
    requires PlainSegment(x) && PlainSegment(y)
    ensures var p := "/" + x + ("/" + y); Uri.PlainPath(p) && '?' !in p && '#' !in p
  {
    OneSegment(x);
    OneSegment(y);
    Uri.PlainPathConcat("/" + x, "/" + y);
  }

  /** `id` followed by `.json` is a plain segment when `id` is one. */
  lemma JsonSegment(id: string)
    requires PlainSegment(id)
    ensures PlainSegment(id + ".json")
  {
    assert |id + ".json"| >= 5;
  }

  /** The templates without an identifier. */
  lemma ProductsPlain()
    ensures Uri.PlainPath("/products.json")
  {
    SingleSegment("/products.json");
  }

  lemma OrdersPlain()
    ensures Uri.PlainPath("/orders")
  {
    SingleSegment("/orders");
  }

  lemma CartsPlain()
    ensures Uri.PlainPath("/carts.json")
  {
    SingleSegment("/carts.json");
  }

  /** A `/` and one segment without `/` that is not a dot segment. */
  lemma SingleSegment(p: string)
    requires p != [] && p[0] == '/' && '/' !in p[1..] && p[1..] != "." && p[1..] != ".."
    ensures Uri.PlainPath(p)
  {
    Uri.PlainSegment(p[1..]);
    assert "/" + p[1..] == p;
  }

  lemma FixedPathsHaveNoQuery()
    ensures '?' !in "/products.json" && '?' !in "/orders" && '?' !in "/carts.json"
    ensures '#' !in "/products.json" && '#' !in "/orders" && '#' !in "/carts.json"
  {
  }

  lemma PlainShopPath(a: Action)
    requires SafeIds(a)
    ensures var p := ShopPath(a); Uri.PlainPath(p) && '?' !in p && '#' !in p
  {
    match a
    case GetProducts => ProductsPlain(); FixedPathsHaveNoQuery();
    case CreateProduct(_) => ProductsPlain(); FixedPathsHaveNoQuery();
    case GetProduct(id) => SafeIdIsPlain(id); ProductPath(id);
    case UpdateProduct(id, _) => SafeIdIsPlain(id); ProductPath(id);
    case DeleteProduct(id) => SafeIdIsPlain(id); ProductPath(id);
    case CreateOrder(_) => OrdersPlain(); FixedPathsHaveNoQuery();
    case GetOrders => OrdersPlain(); FixedPathsHaveNoQuery();
    case GetOrder(id) =>
      SafeIdIsPlain(id);
      assert ShopPath(a) == "/" + "orders" + ("/" + id);
      TwoSegments("orders", id);
    case CreateCart => CartsPlain(); FixedPathsHaveNoQuery();
    case LoadCart(id) => SafeIdIsPlain(id); CartPath(id);
    case AddToCart(id, _, _) => SafeIdIsPlain(id); CartPath(id);
    case UpdateCart(id, _) => SafeIdIsPlain(id); CartPath(id);
    case DeleteCart(id) => SafeIdIsPlain(id); CartPath(id);
    case GetAllCollections =>
  }

  lemma ProductPath(id: string)
    requires PlainSegment(id)
    ensures var p := "/products/" + id + ".json"; Uri.PlainPath(p) && '?' !in p && '#' !in p
  {
    JsonSegment(id);
    assert "/products/" + id + ".json" == "/" + "products" + ("/" + (id + ".json"));
    TwoSegments("products", id + ".json");
  }

  lemma CartPath(id: string)
    requires PlainSegment(id)
    ensures var p := "/carts/" + id + ".json"; Uri.PlainPath(p) && '?' !in p && '#' !in p
  {
    JsonSegment(id);
    assert "/carts/" + id + ".json" == "/" + "carts" + ("/" + (id + ".json"));
    TwoSegments("carts", id + ".json");
  }

  /** The URL every wrapper calls, given a shop id and identifiers made of
      unreserved characters: the templates' leading `/` replaces the base
      path, so the `/v1` of the base URL is dropped. */
  lemma ShopScopedUrl(a: Action, shopId: string)
    requires !a.GetAllCollections? && SafeIds(a)
    requires SafeId(shopId)
    ensures Gateway.RequestUrl(Endpoint(a), shopId)
         == "https://api.printify.com" + (ShopPrefix + shopId + ShopPath(a))
  {
    var tail := ShopPath(a);
    SafeIdIsPlain(shopId);
    Gateway.FirstPlaceholderReplaced(ShopPrefix, shopId, tail);
    var e := ShopPrefix + shopId + tail;
    PlainShopPath(a);
    TwoSegments("shops", shopId);
    Uri.PlainPathConcat("/" + "shops" + ("/" + shopId), tail);
    ShopPathSegments(shopId, tail);
    Uri.AbsolutePathReplacesBasePath(Gateway.ApiBase, e);
    Gateway.ApiOrigin(e);
  }

  lemma ShopPathSegments(shopId: string, tail: string)
    ensures ShopPrefix + shopId + tail == "/" + "shops" + ("/" + shopId) + tail
  {
  }
}
