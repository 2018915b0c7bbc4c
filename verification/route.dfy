/**
 * The checkout proxy route: `GET` forwards an intent fetch to the commerce
 * provider, `POST` either creates an intent or confirms one, and
 * `callRyeAPI` is the one place that talks to the provider.
 *
 * The provider is an oracle from the request the route sends to the reply it
 * gets back, and every result carries the log of provider calls it made, so
 * "no call was made" is part of what a contract can state.
 */
module CheckoutRoute {
  import opened JsValue

  const BaseUrl := "https://api.rye.com/api/v1/"
  const MissingKeyMessage := "Missing RYE_API_KEY in environment variables"
  const MissingCartIdMessage := "Missing cartId"
  const InvalidRequestMessage := "Invalid request"

  /** The TypeError for destructuring `productUrl` out of a null or undefined body. */
  function DestructureMessage(data: Json): string {
    "Cannot destructure property 'productUrl' of 'data' as it is " + (if data.Undefined? then "undefined" else "null") + "."
  }

  /** One HTTP request to the provider. */
  datatype ProviderCall = ProviderCall(url: string, verb: string, authorization: string, body: Option<Json>)

  /** What the provider answers: an HTTP status class with the body as text and
      as parsed JSON, or a failure to obtain a response (network error or a
      body that is not JSON), with the runtime's message. */
  datatype ProviderReply = Reply(ok: bool, text: string, json: Json) | Failure(message: string)

  type Provider = ProviderCall -> ProviderReply

  /** Outcome of `callRyeAPI` together with the provider calls it made. */
  datatype ApiCall = ApiCall(result: Completion<Json>, calls: seq<ProviderCall>)

  /** A route response: HTTP status and JSON body. */
  datatype Response = Response(status: int, body: Json)

  /** A handled route request together with the provider calls made for it. */
  datatype Handled = Handled(response: Response, calls: seq<ProviderCall>)

  /** `!apiKey` fails: the variable is unset or empty. */
  predicate HasKey(apiKey: Option<string>) {
    apiKey.Some? && apiKey.value != ""
  }

  /** Status 500 with `{ error: message }`, what both handlers answer for anything thrown. */
  function Failed(message: string): Response {
    Response(500, ErrorBody(message))
  }

  /** `callRyeAPI(endpoint, method, body)` with the environment's key and the provider. */
  function CallRyeApi(apiKey: Option<string>, endpoint: string, verb: string, body: Option<Json>, provider: Provider): (r: ApiCall)
    ensures |r.calls| <= 1
    ensures r.calls == [] <==> !HasKey(apiKey)
    ensures r.calls == [] ==> r.result == Thrown(MissingKeyMessage)
    ensures r.calls != [] ==>
      && r.calls[0].url == BaseUrl + endpoint
      && r.calls[0].verb == verb
      && r.calls[0].authorization == "Basic " + apiKey.value
      && r.calls[0].body == body
    ensures r.calls != [] ==>
      (r.result.Normal? <==> provider(r.calls[0]).Reply? && provider(r.calls[0]).ok)
    ensures r.calls != [] && r.result.Normal? ==> r.result.value == provider(r.calls[0]).json
    ensures r.calls != [] && r.result.Thrown? ==>
      r.result.message == match provider(r.calls[0])
                          case Reply(_, text, _) => text
                          case Failure(m) => m
  {
    if !HasKey(apiKey) then
      ApiCall(Thrown(MissingKeyMessage), [])
    else
      var call := ProviderCall(BaseUrl + endpoint, verb, "Basic " + apiKey.value, body);
      match provider(call)
      case Failure(m) => ApiCall(Thrown(m), [call])
      case Reply(ok, text, json) =>
        if !ok then ApiCall(Thrown(text), [call]) else ApiCall(Normal(json), [call])
  }

  /** `searchParams.get(key)`: the value of the first parameter with that name. */
  function QueryGet(query: seq<(string, string)>, key: string): (r: Option<string>)
    ensures r.Some? <==> exists i :: 0 <= i < |query| && query[i].0 == key
    ensures r.Some? ==> exists i :: 0 <= i < |query| && query[i] == (key, r.value) && forall j :: 0 <= j < i ==> query[j].0 != key
  {
    if |query| == 0 then None
    else if query[0].0 == key then Some(query[0].1)
    else
      var rest := QueryGet(query[1..], key);
      assert forall i :: 0 < i < |query| ==> query[i] == query[1..][i - 1];
      rest
  }

  /** The query carries a non-empty `cartId`. */
  predicate HasCartId(query: seq<(string, string)>) {
    var cartId := QueryGet(query, "cartId");
    cartId.Some? && cartId.value != ""
  }

  /** `GET /api/checkout?cartId=...`: fetch the checkout intent and return its JSON. */
  function Get(apiKey: Option<string>, provider: Provider, query: seq<(string, string)>): (h: Handled)
    ensures !HasCartId(query) ==> h == Handled(Response(400, ErrorBody(MissingCartIdMessage)), [])
    ensures HasCartId(query) ==>
      && h.response.status in {200, 500}
      && h.calls == CallRyeApi(apiKey, "checkout-intents/" + QueryGet(query, "cartId").value, "GET", None, provider).calls
    ensures h.response.status == 200 ==>
      && HasCartId(query) && |h.calls| == 1
      && provider(h.calls[0]).Reply? && provider(h.calls[0]).ok
      && h.response.body == provider(h.calls[0]).json
  {
    var cartId := QueryGet(query, "cartId");
    if cartId.None? || cartId.value == "" then
      Handled(Response(400, ErrorBody(MissingCartIdMessage)), [])
    else
      var api := CallRyeApi(apiKey, "checkout-intents/" + cartId.value, "GET", None, provider);
      match api.result
      case Normal(intent) => Handled(Response(200, intent), api.calls)
      case Thrown(m) => Handled(Failed(m), api.calls)
  }

  /** `cart?.cost || cart?.items?.[0]?.cost` */
  function CartCost(cart: Json): (cost: Json)
    ensures Truthy(Prop(cart, "cost")) ==> cost == Prop(cart, "cost")
    ensures !Truthy(Prop(cart, "cost")) ==> cost == Prop(Index(Prop(cart, "items"), 0), "cost")
    ensures !Truthy(Prop(cart, "cost")) && !Prop(cart, "items").Arr? && !Prop(cart, "items").Obj? ==> cost == Undefined
  {
    Or(Prop(cart, "cost"), Prop(Index(Prop(cart, "items"), 0), "cost"))
  }

  /** The three ways `POST` treats a request body that is an object. */
  datatype PostPath = CreatePath | ConfirmPath | InvalidPath

  /** Which path a body takes, by the truthiness of `confirm`, `cartId` and `paymentMethod`. */
  function Classify(data: Json): (p: PostPath)
    ensures p == CreatePath <==> !Truthy(Prop(data, "confirm"))
    ensures p == ConfirmPath <==>
      Truthy(Prop(data, "confirm")) && Truthy(Prop(data, "cartId")) && Truthy(Prop(data, "paymentMethod"))
  {
    if !Truthy(Prop(data, "confirm")) then CreatePath
    else if Truthy(Prop(data, "cartId")) && Truthy(Prop(data, "paymentMethod")) then ConfirmPath
    else InvalidPath
  }

  /** Body the create path sends to the provider: only `productUrl` and `buyer`. */
  function CreateIntentBody(data: Json): Json {
    Wire(map["productUrl" := Prop(data, "productUrl"), "buyer" := Prop(data, "buyer")])
  }

  /** Endpoint the confirm path posts to. */
  function ConfirmEndpoint(data: Json): string {
    "checkout-intents/" + Text(Prop(data, "cartId")) + "/confirm"
  }

  /** Body the confirm path sends to the provider: only `paymentMethod`. */
  function ConfirmIntentBody(data: Json): Json {
    Wire(map["paymentMethod" := Prop(data, "paymentMethod")])
  }

  /** `POST /api/checkout` with a parsed request body. */
  function Post(apiKey: Option<string>, provider: Provider, data: Json): (h: Handled)
    ensures |h.calls| <= 1
    ensures Nullish(data) ==> h == Handled(Failed(DestructureMessage(data)), [])
    ensures h.response.status == 400 <==> !Nullish(data) && Classify(data) == InvalidPath
    ensures h.response.status == 400 ==> h == Handled(Response(400, ErrorBody(InvalidRequestMessage)), [])
    ensures !Nullish(data) && Classify(data) == CreatePath ==>
      h.calls == CallRyeApi(apiKey, "checkout-intents", "POST", Some(CreateIntentBody(data)), provider).calls
    ensures !Nullish(data) && Classify(data) == ConfirmPath ==>
      h.calls == CallRyeApi(apiKey, ConfirmEndpoint(data), "POST", Some(ConfirmIntentBody(data)), provider).calls
    ensures h.response.status == 200 ==>
      && |h.calls| == 1
      && provider(h.calls[0]).Reply? && provider(h.calls[0]).ok
      && var answer := provider(h.calls[0]).json;
         if Classify(data) == CreatePath
         then !Nullish(answer) && h.response.body == Wire(map["cost" := CartCost(answer), "cartId" := Prop(answer, "id")])
         else h.response.body == Wire(map["success" := Bool(true), "order" := answer])
    ensures !Nullish(data) && Classify(data) != InvalidPath && |h.calls| == 1
            && provider(h.calls[0]).Reply? && provider(h.calls[0]).ok ==>
      var answer := provider(h.calls[0]).json;
      h.response == if Classify(data) == ConfirmPath
                    then Response(200, Wire(map["success" := Bool(true), "order" := answer]))
                    else if Nullish(answer) then Failed(ReadOfNullishMessage(answer, "id"))
                    else Response(200, Wire(map["cost" := CartCost(answer), "cartId" := Prop(answer, "id")]))
    ensures h.response.status in {200, 400, 500}
  {
    if Nullish(data) then
      Handled(Failed(DestructureMessage(data)), [])
    else if !Truthy(Prop(data, "confirm")) then
      var api := CallRyeApi(apiKey, "checkout-intents", "POST", Some(CreateIntentBody(data)), provider);
      match api.result
      case Thrown(m) => Handled(Failed(m), api.calls)
      case Normal(cart) =>
        var cost := CartCost(cart);
        if Nullish(cart) then Handled(Failed(ReadOfNullishMessage(cart, "id")), api.calls)
        else Handled(Response(200, Wire(map["cost" := cost, "cartId" := Prop(cart, "id")])), api.calls)
    else if Truthy(Prop(data, "cartId")) && Truthy(Prop(data, "paymentMethod")) then
      var api := CallRyeApi(apiKey, ConfirmEndpoint(data), "POST", Some(ConfirmIntentBody(data)), provider);
      match api.result
      case Thrown(m) => Handled(Failed(m), api.calls)
      case Normal(checkout) => Handled(Response(200, Wire(map["success" := Bool(true), "order" := checkout])), api.calls)
    else
      Handled(Response(400, ErrorBody(InvalidRequestMessage)), [])
  }

  /** Status and body the route answers for a provider reply it forwards:
      the parsed JSON on success, `{ error }` with the reply's text otherwise. */
  function Forwarded(reply: ProviderReply): Response {
    match reply
    case Reply(ok, text, json) => if ok then Response(200, json) else Failed(text)
    case Failure(m) => Failed(m)
  }

  /** With a `cartId` and a key, `GET` makes exactly one provider call, a GET of
      `checkout-intents/{cartId}` without a body, and answers what that call returned. */
  lemma GetForwardsIntent(apiKey: Option<string>, provider: Provider, query: seq<(string, string)>)
    requires HasCartId(query) && HasKey(apiKey)
    ensures var h := Get(apiKey, provider, query);
      && h.calls == [ProviderCall(BaseUrl + "checkout-intents/" + QueryGet(query, "cartId").value, "GET", "Basic " + apiKey.value, None)]
      && h.response == Forwarded(provider(h.calls[0]))
  {
    var h := Get(apiKey, provider, query);
    var api := CallRyeApi(apiKey, "checkout-intents/" + QueryGet(query, "cartId").value, "GET", None, provider);
    assert h.calls == api.calls && |api.calls| == 1;
    var expected := ProviderCall(BaseUrl + "checkout-intents/" + QueryGet(query, "cartId").value, "GET", "Basic " + apiKey.value, None);
    assert api.calls[0].url == expected.url && api.calls[0].verb == expected.verb;
    assert api.calls[0] == expected;
    assert api.calls == [expected];
  }

  /** Without a key every path that would reach the provider answers 500 with
      the configuration message, and nothing is sent. */
  lemma MissingKeyNeverCallsProvider(apiKey: Option<string>, provider: Provider, query: seq<(string, string)>, data: Json)
    requires !HasKey(apiKey)
    ensures Get(apiKey, provider, query).calls == []
    ensures HasCartId(query) ==> Get(apiKey, provider, query).response == Failed(MissingKeyMessage)
    ensures Post(apiKey, provider, data).calls == []
    ensures !Nullish(data) && Classify(data) != InvalidPath ==>
      Post(apiKey, provider, data).response == Failed(MissingKeyMessage)
  {
  }

  /** A body whose `confirm` is falsy is handled the same whatever its other
      fields hold: only `productUrl` and `buyer` matter (`quantity`, `cartId`
      and `paymentMethod` are ignored). */
  lemma {:induction false} CreatePathIgnoresOtherFields(apiKey: Option<string>, provider: Provider, data: Json, other: Json)
    requires !Nullish(data) && !Nullish(other)
    requires !Truthy(Prop(data, "confirm")) && !Truthy(Prop(other, "confirm"))
    requires Prop(data, "productUrl") == Prop(other, "productUrl")
    requires Prop(data, "buyer") == Prop(other, "buyer")
    ensures Post(apiKey, provider, data) == Post(apiKey, provider, other)
  {
    assert CreateIntentBody(data) == CreateIntentBody(other);
  }

  /** The create path makes one call, a POST to `checkout-intents` whose body
      holds `productUrl` and `buyer` and nothing else, and on success answers
      the cost and the new intent's id under the name `cartId`. */
  lemma CreatePathContract(apiKey: Option<string>, provider: Provider, data: Json)
    requires !Nullish(data) && !Truthy(Prop(data, "confirm")) && HasKey(apiKey)
    ensures var h := Post(apiKey, provider, data);
      && |h.calls| == 1
      && h.calls[0] == ProviderCall(BaseUrl + "checkout-intents", "POST", "Basic " + apiKey.value, Some(CreateIntentBody(data)))
      && (forall key :: key != "productUrl" && key != "buyer" ==> Prop(h.calls[0].body.value, key) == Undefined)
      && Prop(h.calls[0].body.value, "productUrl") == Prop(data, "productUrl")
      && Prop(h.calls[0].body.value, "buyer") == Prop(data, "buyer")
      && (h.response.status == 200 ==>
            && Prop(h.response.body, "cost") == CartCost(provider(h.calls[0]).json)
            && Prop(h.response.body, "cartId") == Prop(provider(h.calls[0]).json, "id"))
      && (provider(h.calls[0]).Reply? && provider(h.calls[0]).ok && !Nullish(provider(h.calls[0]).json) ==>
            h.response.status == 200)
      && (provider(h.calls[0]).Reply? && provider(h.calls[0]).ok && Nullish(provider(h.calls[0]).json) ==>
            h.response == Failed(ReadOfNullishMessage(provider(h.calls[0]).json, "id")))
  {
  }

  /** The confirm path makes one call, a POST to `checkout-intents/{cartId}/confirm`
      carrying only `paymentMethod`, and on success answers `{ success: true, order }`
      with the provider's JSON as `order`. */
  lemma ConfirmPathContract(apiKey: Option<string>, provider: Provider, data: Json)
    requires !Nullish(data) && Classify(data) == ConfirmPath && HasKey(apiKey)
    ensures var h := Post(apiKey, provider, data);
      && |h.calls| == 1
      && h.calls[0] == ProviderCall(BaseUrl + "checkout-intents/" + Text(Prop(data, "cartId")) + "/confirm", "POST",
                                    "Basic " + apiKey.value, Some(ConfirmIntentBody(data)))
      && (forall key :: key != "paymentMethod" ==> Prop(h.calls[0].body.value, key) == Undefined)
      && Prop(h.calls[0].body.value, "paymentMethod") == Prop(data, "paymentMethod")
      && (provider(h.calls[0]).Reply? && provider(h.calls[0]).ok ==>
            && h.response.status == 200
            && Prop(h.response.body, "success") == Bool(true)
            && Prop(h.response.body, "order") == provider(h.calls[0]).json)
  {
  }

  /** Whatever `callRyeAPI` throws on the create or confirm path reaches the
      client as status 500 with the thrown message as `error`. */
  lemma PostErrorsBecome500(apiKey: Option<string>, provider: Provider, data: Json)
    requires !Nullish(data) && Classify(data) != InvalidPath
    ensures var api := if Classify(data) == CreatePath
                       then CallRyeApi(apiKey, "checkout-intents", "POST", Some(CreateIntentBody(data)), provider)
                       else CallRyeApi(apiKey, ConfirmEndpoint(data), "POST", Some(ConfirmIntentBody(data)), provider);
      api.result.Thrown? ==> Post(apiKey, provider, data) == Handled(Failed(api.result.message), api.calls)
  {
  }

  /** Cost fallback: a create answer without a truthy top-level `cost` gives the
      first item's `cost`; one with neither gives undefined. */
  lemma CostFallback(cart: Json, items: seq<Json>)
    requires !Truthy(Prop(cart, "cost"))
    requires Prop(cart, "items") == Arr(items)
    ensures |items| > 0 ==> CartCost(cart) == Prop(items[0], "cost")
    ensures |items| == 0 ==> CartCost(cart) == Undefined
  {
  }
}
