/**
 * The page and the route put together. The page and the route use different
 * field names: the page polls with `checkoutIntentId` where the route reads
 * `cartId`, confirms with `checkoutIntentId` where the route needs `cartId`,
 * reads `checkoutIntentId` from a create answer that holds `cartId`, and reads
 * `checkoutIntent.id` from a confirm answer that holds `order`. The lemmas
 * here state what each of these does when the page's requests reach the
 * route's handlers.
 */
module Wiring {
  import opened JsValue
  import opened CheckoutRoute
  import opened Polling
  import opened CheckoutPage

  /** The query string of the page's status URL, for an id without URL
      reserved characters. */
  function PollQuery(checkoutIntentId: string): seq<(string, string)> {
    [("checkoutIntentId", checkoutIntentId)]
  }

  /** What the page's `fetch` sees of a route response. */
  function AsReply(r: Response): FetchReply {
    Answered(200 <= r.status < 300, r.body)
  }

  /** The page's status request is refused by `GET` as missing its `cartId`,
      without any provider call. */
  lemma PollRequestLacksCartId(apiKey: Option<string>, provider: Provider, checkoutIntentId: string)
    ensures PollRequest(checkoutIntentId).url
            == CheckoutEndpoint + "?" + PollQuery(checkoutIntentId)[0].0 + "=" + PollQuery(checkoutIntentId)[0].1
    ensures Get(apiKey, provider, PollQuery(checkoutIntentId))
            == Handled(Response(400, ErrorBody(MissingCartIdMessage)), [])
  {
    assert !HasCartId(PollQuery(checkoutIntentId));
  }

  /** So a poll whose every fetch reaches the route runs until the deadline and
      throws the timeout error, whatever states it waits for. */
  lemma PollThroughRouteTimesOut(apiKey: Option<string>, provider: Provider, checkoutIntentId: string,
                                 desiredStates: seq<string>, timeout: int, interval: int,
                                 clock: seq<int>, replies: seq<FetchReply>)
    requires Environment(timeout, clock, replies)
    requires forall j :: 0 <= j < |replies| ==>
      replies[j] == AsReply(Get(apiKey, provider, PollQuery(checkoutIntentId)).response)
    ensures PollSpec(checkoutIntentId, desiredStates, timeout, interval, clock, replies).result
            == TimedOut(TimeoutMessage(desiredStates))
  {
    PollRequestLacksCartId(apiKey, provider, checkoutIntentId);
    var answer := ErrorBody(MissingCartIdMessage);
    assert Prop(answer, "state") == Undefined;
    assert !Matches(answer, desiredStates);
    NonMatchingAnswersTimeOut(checkoutIntentId, desiredStates, timeout, interval, clock, replies, 0);
  }

  /** The page's create request takes the route's create path; the route sends
      the provider its `productUrl` and `buyer` (the quantity is dropped), and
      a successful answer carries the new id as `cartId`, never as the
      `checkoutIntentId` the page reads, so the page then polls for the
      intent "undefined". */
  lemma CreateRequestThroughRoute(apiKey: Option<string>, provider: Provider,
                                  productUrl: string, quantity: int, buyer: Buyer)
    requires HasKey(apiKey)
    ensures var data := CreateRequest(productUrl, quantity, buyer).body.value;
      var h := Post(apiKey, provider, data);
      && Classify(data) == CreatePath
      && h.calls == [ProviderCall(BaseUrl + "checkout-intents", "POST", "Basic " + apiKey.value,
                                  Some(Obj(map["productUrl" := Str(productUrl), "buyer" := BuyerJson(buyer)])))]
      && (h.response.status == 200 ==>
            && Prop(h.response.body, "cartId") == Prop(provider(h.calls[0]).json, "id")
            && Prop(h.response.body, "checkoutIntentId") == Undefined
            && Text(Prop(h.response.body, "checkoutIntentId")) == "undefined")
  {
    var data := CreateRequest(productUrl, quantity, buyer).body.value;
    CreatePathContract(apiKey, provider, data);
    assert CreateIntentBody(data) == Obj(map["productUrl" := Str(productUrl), "buyer" := BuyerJson(buyer)]);
  }

  /** The page's confirm request never passes the route's confirm guard: it
      names the intent `checkoutIntentId`, so `cartId` is missing and the route
      answers 400 "Invalid request" without calling the provider. */
  lemma ConfirmRequestFailsRouteGuard(apiKey: Option<string>, provider: Provider, checkoutIntentId: Json, tokenId: string)
    ensures var data := ConfirmRequest(checkoutIntentId, tokenId).body.value;
      && Classify(data) == InvalidPath
      && Post(apiKey, provider, data) == Handled(Response(400, ErrorBody(InvalidRequestMessage)), [])
  {
    var data := ConfirmRequest(checkoutIntentId, tokenId).body.value;
    assert Prop(data, "confirm") == Bool(true);
    assert Prop(data, "cartId") == Undefined;
  }

  /** Seen from the page, that 400 makes `handleSubmit` throw "Invalid request"
      before any poll. */
  lemma ConfirmThroughRouteThrowsInvalidRequest(apiKey: Option<string>, provider: Provider, checkoutIntentId: Json, tokenId: string)
    ensures var data := ConfirmRequest(checkoutIntentId, tokenId).body.value;
      Checked(AsReply(Post(apiKey, provider, data).response), SubmitFallback) == Thrown(InvalidRequestMessage)
  {
    ConfirmRequestFailsRouteGuard(apiKey, provider, checkoutIntentId, tokenId);
    assert Prop(ErrorBody(InvalidRequestMessage), "error") == Str(InvalidRequestMessage);
  }

  /** Even a confirm request that passes the guard gets an answer without
      `checkoutIntent` (the intent is under `order`), so the page throws on
      reading its `id`. */
  lemma ConfirmAnswerLacksCheckoutIntent(apiKey: Option<string>, provider: Provider, data: Json)
    requires !Nullish(data) && Classify(data) == ConfirmPath
    ensures var h := Post(apiKey, provider, data);
      h.response.status == 200 ==>
        && Prop(h.response.body, "order") == provider(h.calls[0]).json
        && ConfirmedIntentId(h.response.body) == Thrown(ReadOfNullishMessage(Undefined, "id"))
  {
  }
}
