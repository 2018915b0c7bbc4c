/**
 * The checkout page: the `Home` component's state (a three-step flow, with
 * `loading`, `polling` and `error` flags), the `CheckoutForm` component's
 * state, the handlers that drive them, and the normalisation of the
 * province and country inputs.
 *
 * React state is modelled as fields that the handlers assign in the order
 * the source calls the setters. The network is given to each handler as the
 * answers its fetches get, and the clock as a sequence of readings (see
 * module Polling).
 */
module CheckoutPage {
  import opened JsValue
  import opened Polling

  const AwaitingConfirmation := ["awaiting_confirmation"]
  const TerminalStates := ["completed", "failed"]
  const GetCostFallback := "Failed to get cost"
  const SubmitFallback := "Checkout submission failed"
  const CardMissingMessage := "Card element not found"
  const TokenizationFallback := "Stripe tokenization failed"

  /** The buyer record the step-one form collects. */
  datatype Buyer = Buyer(firstName: string, lastName: string, email: string, phone: string,
                         address1: string, address2: string, city: string, province: string,
                         country: string, postalCode: string)

  function BuyerJson(b: Buyer): Json {
    Obj(map["firstName" := Str(b.firstName), "lastName" := Str(b.lastName), "email" := Str(b.email),
            "phone" := Str(b.phone), "address1" := Str(b.address1), "address2" := Str(b.address2),
            "city" := Str(b.city), "province" := Str(b.province), "country" := Str(b.country),
            "postalCode" := Str(b.postalCode)])
  }

  /** The request that asks the route to create an intent: `{ productUrl, quantity, buyer }`. */
  function CreateRequest(productUrl: string, quantity: int, buyer: Buyer): Request {
    Request("POST", CheckoutEndpoint,
            Some(Obj(map["productUrl" := Str(productUrl), "quantity" := Num(quantity), "buyer" := BuyerJson(buyer)])))
  }

  /** The request that asks the route to confirm an intent with a card token. */
  function ConfirmRequest(checkoutIntentId: Json, tokenId: string): Request {
    Request("POST", CheckoutEndpoint,
            Some(Wire(map["checkoutIntentId" := checkoutIntentId, "confirm" := Bool(true),
                          "paymentMethod" := Obj(map["stripe_token" := Str(tokenId), "type" := Str("stripe_token")])])))
  }

  /** `const data = await res.json(); if (!res.ok) throw new Error(data.error || fallback);` */
  function Checked(reply: FetchReply, fallback: string): (c: Completion<Json>)
    ensures c.Normal? <==> reply.Answered? && reply.ok
    ensures c.Normal? ==> c.value == reply.data
    ensures reply.Rejected? ==> c == Thrown(reply.message)
    ensures reply.Answered? && !reply.ok && Nullish(reply.data) ==>
      c == Thrown(ReadOfNullishMessage(reply.data, "error"))
    ensures reply.Answered? && !reply.ok && !Nullish(reply.data) && Truthy(Prop(reply.data, "error")) ==>
      c == Thrown(Text(Prop(reply.data, "error")))
    ensures reply.Answered? && !reply.ok && !Nullish(reply.data) && !Truthy(Prop(reply.data, "error")) ==>
      c == Thrown(fallback)
  {
    match reply
    case Rejected(m) => Thrown(m)
    case Answered(ok, data) =>
      if ok then Normal(data)
      else if Nullish(data) then Thrown(ReadOfNullishMessage(data, "error"))
      else Thrown(Text(Or(Prop(data, "error"), Str(fallback))))
  }

  /** `data.checkoutIntent.id`, as the string the poll URL is built from. */
  function ConfirmedIntentId(data: Json): (id: Completion<string>)
    ensures Nullish(data) ==> id == Thrown(ReadOfNullishMessage(data, "checkoutIntent"))
    ensures !Nullish(data) && Nullish(Prop(data, "checkoutIntent")) ==>
      id == Thrown(ReadOfNullishMessage(Prop(data, "checkoutIntent"), "id"))
    ensures !Nullish(data) && !Nullish(Prop(data, "checkoutIntent")) ==>
      id == Normal(Text(Prop(Prop(data, "checkoutIntent"), "id")))
  {
    if Nullish(data) then Thrown(ReadOfNullishMessage(data, "checkoutIntent"))
    else
      var intent := Prop(data, "checkoutIntent");
      if Nullish(intent) then Thrown(ReadOfNullishMessage(intent, "id"))
      else Normal(Text(Prop(intent, "id")))
  }

  /** What `stripe.createToken(card)` resolves to. */
  datatype Tokenization = Token(id: string) | StripeError(message: string) | NoToken

  /** `stripeError?.message || "Stripe tokenization failed"` */
  function TokenFailureMessage(t: Tokenization): (m: string)
    requires !t.Token?
    ensures m != ""
    ensures t.StripeError? && t.message != "" ==> m == t.message
    ensures !(t.StripeError? && t.message != "") ==> m == TokenizationFallback
  {
    if t.StripeError? && t.message != "" then t.message else TokenizationFallback
  }

  /** `String.prototype.toUpperCase` on one character, for the ASCII letters. */
  function UpperAscii(c: char): char {
    if 'a' <= c <= 'z' then (c as int - 32) as char else c
  }

  /** `value.toUpperCase().slice(0, 2)` for the province and country inputs. */
  function NormalizeCode(value: string): (code: string)
    ensures |code| == if |value| < 2 then |value| else 2
    ensures forall i :: 0 <= i < |code| ==> code[i] == UpperAscii(value[i])
    ensures forall i :: 0 <= i < |code| ==> !('a' <= code[i] <= 'z')
  {
    var upper := seq(|value|, i requires 0 <= i < |value| => UpperAscii(value[i]));
    if |upper| < 2 then upper else upper[..2]
  }

  /** Normalising an already normalised code changes nothing. */
  lemma NormalizeCodeIdempotent(value: string)
    ensures NormalizeCode(NormalizeCode(value)) == NormalizeCode(value)
  {
    var once := NormalizeCode(value);
    var twice := NormalizeCode(once);
    assert |twice| == |once|;
    forall i | 0 <= i < |once|
      ensures twice[i] == once[i]
    {
      assert once[i] == UpperAscii(value[i]);
    }
  }

  /** The page's steps: 1 collects product and buyer, 2 takes the card, 3 shows the result. */
  predicate StepMove(from: int, to: int) {
    from == to || (from == 1 && to == 2) || (from == 2 && to == 1) || (from == 2 && to == 3)
  }

  /** The state of the `Home` component. */
  class Home {
    var step: int
    var productUrl: string
    var quantity: int
    var buyer: Buyer
    var cost: Json
    var checkoutIntentId: Json
    var showCheckoutIntentId: Json
    var loading: bool
    var error: string
    var result: Json
    var polling: bool

    predicate Valid()
      reads this
    {
      1 <= step <= 3
    }

    /** The payment form is rendered: `step === 2 && cost && checkoutIntentId`. */
    predicate ShowsPaymentForm()
      reads this
    {
      step == 2 && Truthy(cost) && Truthy(checkoutIntentId)
    }

    /** The initial `useState` values. */
    constructor()
      ensures Valid() && step == 1
      ensures productUrl == "" && quantity == 1
      ensures buyer == Buyer("", "", "", "", "", "", "", "", "US", "")
      ensures cost == Null && checkoutIntentId == Str("") && showCheckoutIntentId == Str("")
      ensures !loading && error == "" && result == Null && !polling
    {
      step := 1;
      productUrl := "";
      quantity := 1;
      buyer := Buyer("", "", "", "", "", "", "", "", "US", "");
      cost := Null;
      checkoutIntentId := Str("");
      showCheckoutIntentId := Str("");
      loading := false;
      error := "";
      result := Null;
      polling := false;
    }

    /** The province input's change handler. */
    method ChangeProvince(value: string)
      requires Valid()
      modifies this`buyer
      ensures Valid()
      ensures buyer == old(buyer).(province := NormalizeCode(value))
      ensures |buyer.province| <= 2
    {
      buyer := buyer.(province := NormalizeCode(value));
    }

    /** The country input's change handler. */
    method ChangeCountry(value: string)
      requires Valid()
      modifies this`buyer
      ensures Valid()
      ensures buyer == old(buyer).(country := NormalizeCode(value))
      ensures |buyer.country| <= 2
    {
      buyer := buyer.(country := NormalizeCode(value));
    }

    /** `onBack`: the payment form's Back button returns to step one. */
    method Back()
      requires step == 2
      modifies this`step
      ensures Valid() && step == 1 && StepMove(old(step), step)
    {
      step := 1;
    }

    /** `onSuccess`: the final intent is recorded and step three shown. */
    method Succeed(checkoutIntent: Json)
      requires step == 2
      modifies this`result, this`step
      ensures Valid() && result == checkoutIntent && step == 3 && StepMove(old(step), step)
    {
      result := checkoutIntent;
      step := 3;
    }

    /** `handleGetCost`: create an intent through the route, then poll it until
        it is awaiting confirmation and move to step two with its cost. */
    method HandleGetCost(createReply: FetchReply, clock: seq<int>, replies: seq<FetchReply>) returns (requests: seq<Request>)
      requires step == 1
      requires Environment(DefaultTimeout, clock, replies)
      modifies this`step, this`cost, this`checkoutIntentId, this`showCheckoutIntentId,
               this`loading, this`error, this`result, this`polling
      ensures Valid() && StepMove(old(step), step)
      ensures !loading && !polling && result == Null
      ensures |requests| >= 1 && requests[0] == CreateRequest(productUrl, quantity, buyer)
      ensures step == 2 ==> error == "" && createReply.Answered? && createReply.ok
      ensures step != 2 ==> cost == old(cost)
      ensures Checked(createReply, GetCostFallback).Thrown? ==>
        && requests == [CreateRequest(productUrl, quantity, buyer)]
        && error == Checked(createReply, GetCostFallback).message
        && step == 1
        && checkoutIntentId == old(checkoutIntentId) && showCheckoutIntentId == old(showCheckoutIntentId)
      ensures createReply.Answered? && createReply.ok && Nullish(createReply.data) ==>
        && requests == [CreateRequest(productUrl, quantity, buyer)]
        && error == ReadOfNullishMessage(createReply.data, "checkoutIntentId")
        && step == 1
        && checkoutIntentId == old(checkoutIntentId) && showCheckoutIntentId == old(showCheckoutIntentId)
      ensures createReply.Answered? && createReply.ok && !Nullish(createReply.data) ==>
        var id := Prop(createReply.data, "checkoutIntentId");
        var run := PollSpec(Text(id), AwaitingConfirmation, DefaultTimeout, DefaultInterval, clock, replies);
        && checkoutIntentId == id && showCheckoutIntentId == id
        && requests == [CreateRequest(productUrl, quantity, buyer)] + run.requests
        && (run.result.Reached? && !Nullish(Prop(run.result.data, "offer")) ==>
              step == 2 && cost == Prop(Prop(run.result.data, "offer"), "cost") && error == "")
        && (run.result.Reached? && Nullish(Prop(run.result.data, "offer")) ==>
              step == 1 && error == ReadOfNullishMessage(Prop(run.result.data, "offer"), "cost"))
        && (!run.result.Reached? ==> step == 1 && error == run.result.message)
    {
      loading := true;
      error := "";
      result := Null;
      polling := false;
      requests := [CreateRequest(productUrl, quantity, buyer)];
      var created := Checked(createReply, GetCostFallback);
      if created.Thrown? {
        error := created.message;
      } else if Nullish(created.value) {
        error := ReadOfNullishMessage(created.value, "checkoutIntentId");
      } else {
        var data := created.value;
        checkoutIntentId := Prop(data, "checkoutIntentId");
        showCheckoutIntentId := Prop(data, "checkoutIntentId");
        polling := true;
        var run := PollCheckoutIntent(Text(Prop(data, "checkoutIntentId")), AwaitingConfirmation,
                                      DefaultTimeout, DefaultInterval, clock, replies);
        requests := requests + run.requests;
        if run.result.Reached? {
          polling := false;
          var offer := Prop(run.result.data, "offer");
          if Nullish(offer) {
            error := ReadOfNullishMessage(offer, "cost");
          } else {
            cost := Prop(offer, "cost");
            step := 2;
          }
        } else {
          error := run.result.message;
        }
      }
      polling := false;
      loading := false;
    }
  }

  /** The state of a `CheckoutForm` component and the `Home` whose callbacks it was given. */
  class CheckoutForm {
    const home: Home
    const checkoutIntentId: Json
    var loading: bool
    var error: string

    constructor(home: Home, checkoutIntentId: Json)
      ensures this.home == home && this.checkoutIntentId == checkoutIntentId
      ensures !loading && error == ""
    {
      this.home := home;
      this.checkoutIntentId := checkoutIntentId;
      loading := false;
      error := "";
    }

    /** `handleSubmit`: tokenise the card, ask the route to confirm the intent,
        poll it until it is completed or failed, and hand it to `onSuccess`. */
    method HandleSubmit(stripeReady: bool, cardFound: bool, tokenization: Tokenization, confirmReply: FetchReply,
                        clock: seq<int>, replies: seq<FetchReply>) returns (requests: seq<Request>)
      requires home.ShowsPaymentForm() && checkoutIntentId == home.checkoutIntentId
      requires Environment(DefaultTimeout, clock, replies)
      modifies this, home`result, home`step
      ensures home.Valid() && StepMove(old(home.step), home.step)
      ensures !stripeReady ==> error == "" && loading == old(loading) && requests == [] && unchanged(home)
      ensures stripeReady ==> !loading
      ensures stripeReady && !cardFound ==>
        error == CardMissingMessage && requests == [] && unchanged(home)
      ensures stripeReady && cardFound && !tokenization.Token? ==>
        error == TokenFailureMessage(tokenization) && requests == [] && unchanged(home)
      ensures stripeReady && cardFound && tokenization.Token? ==>
        var confirmed := Checked(confirmReply, SubmitFallback);
        && |requests| >= 1 && requests[0] == ConfirmRequest(checkoutIntentId, tokenization.id)
        && (confirmed.Thrown? ==>
              requests == [requests[0]] && error == confirmed.message && unchanged(home))
        && (confirmed.Normal? && ConfirmedIntentId(confirmed.value).Thrown? ==>
              requests == [requests[0]] && error == ConfirmedIntentId(confirmed.value).message && unchanged(home))
        && (confirmed.Normal? && ConfirmedIntentId(confirmed.value).Normal? ==>
              var run := PollSpec(ConfirmedIntentId(confirmed.value).value, TerminalStates,
                                  DefaultTimeout, DefaultInterval, clock, replies);
              && requests == [requests[0]] + run.requests
              && (run.result.Reached? ==> error == "" && home.step == 3 && home.result == run.result.data)
              && (!run.result.Reached? ==> error == run.result.message && unchanged(home)))
    {
      error := "";
      requests := [];
      if !stripeReady {
        return;
      }
      loading := true;
      if !cardFound {
        error := CardMissingMessage;
      } else if !tokenization.Token? {
        error := TokenFailureMessage(tokenization);
      } else {
        requests := [ConfirmRequest(checkoutIntentId, tokenization.id)];
        var confirmed := Checked(confirmReply, SubmitFallback);
        if confirmed.Thrown? {
          error := confirmed.message;
        } else {
          var target := ConfirmedIntentId(confirmed.value);
          if target.Thrown? {
            error := target.message;
          } else {
            var run := PollCheckoutIntent(target.value, TerminalStates, DefaultTimeout, DefaultInterval, clock, replies);
            requests := requests + run.requests;
            if run.result.Reached? {
              home.Succeed(run.result.data);
            } else {
              error := run.result.message;
            }
          }
        }
      }
      loading := false;
    }
  }

  /** `handleGetCost` reaches step two only through an intent whose `state` is
      `awaiting_confirmation`. */
  lemma GetCostPollAcceptsOnlyAwaitingConfirmation(checkoutIntentId: string, clock: seq<int>, replies: seq<FetchReply>)
    requires Environment(DefaultTimeout, clock, replies)
    ensures var run := PollSpec(checkoutIntentId, AwaitingConfirmation, DefaultTimeout, DefaultInterval, clock, replies);
      run.result.Reached? ==> Prop(run.result.data, "state") == Str("awaiting_confirmation")
  {
    PollReturnsFirstMatch(checkoutIntentId, AwaitingConfirmation, DefaultTimeout, DefaultInterval, clock, replies, 0);
  }

  /** The poll after confirming accepts `completed` and `failed` alike, so a
      failed purchase also reaches `onSuccess` and step three. */
  lemma SubmitPollAcceptsCompletedOrFailed(checkoutIntentId: string, clock: seq<int>, replies: seq<FetchReply>)
    requires Environment(DefaultTimeout, clock, replies)
    ensures var run := PollSpec(checkoutIntentId, TerminalStates, DefaultTimeout, DefaultInterval, clock, replies);
      run.result.Reached? ==>
        Prop(run.result.data, "state") == Str("completed") || Prop(run.result.data, "state") == Str("failed")
  {
    PollReturnsFirstMatch(checkoutIntentId, TerminalStates, DefaultTimeout, DefaultInterval, clock, replies, 0);
  }
}
