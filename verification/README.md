# Checkout demo: route and page, modelled in Dafny

This project models the two pieces of decision logic in a small Next.js checkout demo built on the Rye commerce API (the "provider").

- **The checkout proxy route** (`src/app/api/checkout/route.ts`). `GET` reads `cartId` from the query and forwards an intent fetch to the provider. `POST` either creates an intent (when `confirm` is falsy) or confirms one (when `confirm`, `cartId` and `paymentMethod` are all truthy). Otherwise it answers 400. `callRyeAPI` refuses to run without `RYE_API_KEY` and turns a non-ok reply into an error whose message is the reply's text. Anything thrown becomes a 500 `{ error: message }`.
- **The checkout page** (`src/app/page.tsx`). `pollCheckoutIntent` is a deadline-bounded loop that fetches the intent until its `state` is one of the desired states. `handleGetCost` creates an intent and polls it to `awaiting_confirmation`. `CheckoutForm.handleSubmit` tokenises the card, confirms, and polls to `completed` or `failed`. `onBack` and `onSuccess` move the three-step flow. The province and country inputs are upper-cased and cut to two characters.

Files and modules:

- `jsvalue.dfy` (`JsValue`): parsed JSON values plus `undefined`, and the JavaScript coercions the code relies on:
  - truthiness;
  - property reads and optional chaining;
  - `||`;
  - `String(v)`, which template literals and `new Error(v)` also use;
  - `join`;
  - `JSON.stringify` dropping `undefined` properties.
- `route.dfy` (`CheckoutRoute`): the route, as pure functions.
  - The provider is an oracle, a function from the call the route sends to the reply it gets.
  - Every handler also returns the log of provider calls it made, so "no call was made" is part of a contract.
- `polling.dfy` (`Polling`): the poll loop.
  - It is a method with a `while` loop, proved equal to a recursive specification `PollSpec`.
  - Lemmas about `PollSpec` state what the loop promises.
  - The clock is the sequence of values `Date.now()` returns. The network is the sequence of answers the fetches get.
- `page.dfy` (`CheckoutPage`): the `Home` and `CheckoutForm` components as classes.
  - Each component's React state becomes fields. The handlers are methods that assign those fields in the order the source calls the setters.
  - The module also holds the pure input normalisation.
- `wiring.dfy` (`Wiring`): lemmas that feed the page's requests to the route's handlers.

### How the page and the route fit together

The model follows both files as written. They disagree on field names:

- The page polls with `?checkoutIntentId=` (`page.tsx:15`), but `GET` reads `cartId` (`route.ts:6`). Every status fetch is answered 400 `{ error: "Missing cartId" }`, which has no `state`. So a poll through the route always times out (`Wiring.PollThroughRouteTimesOut`).
- The page confirms with `checkoutIntentId` (`page.tsx:59`). `POST`'s confirm guard needs `cartId` (`route.ts:93`). The confirm is always refused with 400 "Invalid request" and no provider call (`Wiring.ConfirmRequestFailsRouteGuard`).
- The create path answers `cartId` (`route.ts:89`), but the page reads `checkoutIntentId` (`page.tsx:158`). The page then polls the id "undefined" (`Wiring.CreateRequestThroughRoute`).
- The confirm path answers `order` (`route.ts:100`), but the page reads `checkoutIntent.id` (`page.tsx:72`). That read throws (`Wiring.ConfirmAnswerLacksCheckoutIntent`).

### Behaviour the code does not have

- **Trace identifiers.** There are none in the code. Nothing reads a trace header or forwards one.
- **Cancellation.** The poll has no cancellation token.
- **Retries.** Nothing is retried.
- **Timeout error.** It carries only a message naming the desired states. It does not carry the last intent seen.
- **Missing cost.** A cost missing from both places is returned as `undefined`, not treated as an error.
- **Confirm answer.** It is `{ success: true, order }`, not `{ success, intent }`.
- **No bound on when a poll ends.** A fetch may take any time, so the code does not promise that a poll ends within `timeout + interval`. What is proved instead:
  - every fetch starts before the deadline;
  - a timeout is declared only on a reading at or past the deadline;
  - with waits of at least `interval`, `(fetches - 1) * interval < timeout`, so the defaults allow at most 24 fetches.

## Model

| member | source | states |
|---|---|---|
| `CheckoutRoute.CallRyeApi` | src/app/api/checkout/route.ts:39-63 | Without a non-empty key it throws the configuration message and makes no call. Otherwise it makes exactly one call to the base URL plus the endpoint, with the given verb, `Basic` authorization, and the body only when one is given. It succeeds if and only if the reply is ok, with the reply's JSON. Otherwise it throws the reply's full text, or the transport failure's message. |
| `CheckoutRoute.QueryGet` | src/app/api/checkout/route.ts:5-6 | `searchParams.get` finds a value exactly when some parameter has that name. The value is that of the first parameter with that name. |
| `CheckoutRoute.Get` | src/app/api/checkout/route.ts:2-21 | Without a non-empty `cartId` it answers 400 `{ error: "Missing cartId" }` and makes no provider call. With one, it answers 200 or 500 and makes exactly the calls `callRyeAPI` makes for `checkout-intents/{cartId}`. A 200 carries the provider's JSON unchanged. |
| `CheckoutRoute.GetForwardsIntent` | src/app/api/checkout/route.ts:13-15 | With a `cartId` and a key, `GET` makes exactly one provider call: a GET of `checkout-intents/{cartId}` with no body. It answers that reply: 200 with its JSON, or 500 with its text. |
| `CheckoutRoute.MissingKeyNeverCallsProvider` | src/app/api/checkout/route.ts:40-45 | Without a key, neither handler calls the provider. Every path that would call it answers 500 with the configuration message. |
| `CheckoutRoute.CartCost` | src/app/api/checkout/route.ts:87 | The cost is the top-level `cost` when that is truthy. Otherwise it is `items[0].cost`. It is `undefined` when `items` is neither an array nor an object. |
| `CheckoutRoute.CostFallback` | src/app/api/checkout/route.ts:87 | With no truthy top-level cost, a non-empty `items` array gives its first item's cost, and an empty one gives `undefined`. |
| `CheckoutRoute.Classify` | src/app/api/checkout/route.ts:78-93 | Create if and only if `confirm` is falsy. Confirm if and only if `confirm`, `cartId` and `paymentMethod` are all truthy. Invalid otherwise. |
| `CheckoutRoute.Post` | src/app/api/checkout/route.ts:65-110 | At most one provider call. A null or undefined body answers 500 with the destructuring TypeError and no call. The answer is 400 `{ error: "Invalid request" }` with no call exactly on the invalid path. On the create and confirm paths it makes the calls `callRyeAPI` makes for that path. A 200 comes from one ok reply. Conversely, an ok reply on the confirm path answers 200 `{ success: true, order }`. On the create path an ok reply answers 200 `{ cost, cartId }`, or 500 with the TypeError for reading `id` when the reply's JSON is null. The status is always 200, 400 or 500. |
| `CheckoutRoute.CreatePathIgnoresOtherFields` | src/app/api/checkout/route.ts:75-90 | Two bodies with a falsy `confirm` and the same `productUrl` and `buyer` are handled identically, whatever `cartId`, `paymentMethod` or `quantity` hold. |
| `CheckoutRoute.CreatePathContract` | src/app/api/checkout/route.ts:78-90 | With a key, the create path makes one POST to `checkout-intents` whose body has `productUrl` and `buyer` and no other field. An ok, non-null reply answers 200, and a 200 carries the fallback cost and the provider's `id` under `cartId`. An ok null reply answers 500 with the TypeError for reading `id`. |
| `CheckoutRoute.ConfirmPathContract` | src/app/api/checkout/route.ts:93-101 | With a key, the confirm path makes one POST to `checkout-intents/{cartId}/confirm` whose body holds only `paymentMethod`. An ok reply answers 200 `{ success: true, order }`, with the reply's JSON as `order`. |
| `CheckoutRoute.PostErrorsBecome500` | src/app/api/checkout/route.ts:105-109 | Whatever `callRyeAPI` throws on the create or confirm path becomes status 500, with the thrown message as `error`. |
| `Polling.PollCheckoutIntent` | src/app/page.tsx:10-27 | The loop computes exactly `PollSpec`: the result, the requests it sent and the waits it made. |
| `Polling.PollShape` | src/app/page.tsx:14-23 | Every request is the same GET of `/api/checkout?checkoutIntentId={id}`. Every wait is `interval`. A wait follows every fetch except the last one of a poll that did not time out. |
| `Polling.PollDeadline` | src/app/page.tsx:11-14 | Every fetch starts on a reading with `now - start < timeout`. A timeout is thrown only after a reading at or past the deadline, with the message "Timeout waiting for state: " plus the states joined by ", ". |
| `Polling.PollReturnsFirstMatch` | src/app/page.tsx:19-21 | A successful poll returns its last fetch's answer. That answer's `state` is a non-empty string among the desired states. Every earlier answer was non-null and did not match. |
| `Polling.PollFailurePropagates` | src/app/page.tsx:15-19 | A poll fails only when its last fetch was rejected (with that message) or answered null or undefined (with the TypeError's message). |
| `Polling.NonMatchingAnswersTimeOut` | src/app/page.tsx:14-26 | If every fetch is answered (none rejected), with non-null data that never matches, the poll ends with the timeout error. |
| `Polling.PollFetchBound` | src/app/page.tsx:14-23 | If each wait lasts at least `interval`, then `(fetches - 1) * interval < timeout`. |
| `Polling.DefaultPollFetchesAtMost24` | src/app/page.tsx:10 | With the default 120000 ms timeout and 5000 ms interval, a poll fetches at most 24 times. |
| `Polling.ThirdFetchReachesAwaitingConfirmation` | src/app/page.tsx:162 | Answers `created`, `created`, `awaiting_confirmation` five seconds apart: the poll ends on the third fetch with the third answer, after two waits. |
| `Polling.FailedStateEndsTerminalPoll` | src/app/page.tsx:72 | Waiting for `completed` or `failed`, an answer in state `failed` ends the poll successfully. |
| `CheckoutPage.Checked` | src/app/page.tsx:155-157 | A fetch passes if and only if it was answered ok, and then yields its data. A rejection rethrows its message. A non-ok answer throws `data.error` when truthy, else the fallback message. A null answer throws the TypeError for reading `error`. |
| `CheckoutPage.ConfirmedIntentId` | src/app/page.tsx:72 | `data.checkoutIntent.id` throws the TypeError when `data` or `data.checkoutIntent` is null or undefined. Otherwise it yields the id as a string. |
| `CheckoutPage.TokenFailureMessage` | src/app/page.tsx:49-52 | A failed tokenisation reports Stripe's message when it has one, else "Stripe tokenization failed". It is never empty. |
| `CheckoutPage.NormalizeCode` | src/app/page.tsx:297 | The code has `min(2, len)` characters. Each is the upper-cased input character at the same position, and none is a lower-case letter. |
| `CheckoutPage.NormalizeCodeIdempotent` | src/app/page.tsx:315 | Normalising a normalised code leaves it unchanged. |
| `CheckoutPage.Home.constructor` | src/app/page.tsx:117-138 | The initial state: step 1, quantity 1, country "US", no cost, empty intent id, no result, all flags false, empty error. |
| `CheckoutPage.Home.ChangeProvince` | src/app/page.tsx:295-300 | Only the buyer's province changes, to the normalised input (at most two characters). |
| `CheckoutPage.Home.ChangeCountry` | src/app/page.tsx:313-318 | Only the buyer's country changes, to the normalised input (at most two characters). |
| `CheckoutPage.Home.Back` | src/app/page.tsx:353 | Back moves step 2 to step 1 and changes nothing else. |
| `CheckoutPage.Home.Succeed` | src/app/page.tsx:354-357 | `onSuccess` stores the final intent as the result and moves step 2 to step 3, and nothing else. |
| `CheckoutPage.Home.HandleGetCost` | src/app/page.tsx:141-175 | Always sends the create request first. It moves step 1 to 2 only after an ok create answer, a poll that reached `awaiting_confirmation`, and an `offer` to read `cost` from; then it stores that cost and clears the error. On every failure, step and cost are unchanged and `error` holds the thrown message. Once an ok, non-null create answer is read, its `checkoutIntentId` is stored; otherwise the stored id is unchanged. `loading` and `polling` end false. |
| `CheckoutPage.GetCostPollAcceptsOnlyAwaitingConfirmation` | src/app/page.tsx:162 | The create-side poll succeeds only with an intent whose state is `awaiting_confirmation`. |
| `CheckoutPage.CheckoutForm.constructor` | src/app/page.tsx:29-33 | The form starts not loading, with no error, holding its intent id and its parent's callbacks. |
| `CheckoutPage.CheckoutForm.HandleSubmit` | src/app/page.tsx:35-81 | When Stripe is not loaded, it only clears the error. A missing card or failed tokenisation sets the error and sends nothing. Otherwise it sends the confirm request first. A non-ok confirm answer, or an answer without `checkoutIntent`, ends with that error and no poll. A poll that reaches `completed` or `failed` calls `onSuccess` (step 3). A poll that fails leaves the parent unchanged. `loading` ends false once started. |
| `CheckoutPage.SubmitPollAcceptsCompletedOrFailed` | src/app/page.tsx:72 | The confirm-side poll succeeds with an intent whose state is `completed` or `failed`. A provider-reported failure therefore reaches `onSuccess`. |
| `Wiring.PollRequestLacksCartId` | src/app/page.tsx:15 | The page's status URL carries only `checkoutIntentId`. The route's `GET` answers it 400 "Missing cartId" with no provider call. |
| `Wiring.PollThroughRouteTimesOut` | src/app/page.tsx:14-26 | A poll whose every fetch is answered by the route always ends with the timeout error, for any desired states. |
| `Wiring.CreateRequestThroughRoute` | src/app/page.tsx:150-158 | The page's create request takes the create path. The provider receives only `productUrl` and `buyer`; `quantity` is dropped. A 200 answer has `cartId` but no `checkoutIntentId`, so the page polls "undefined". |
| `Wiring.ConfirmRequestFailsRouteGuard` | src/app/page.tsx:55-66 | Whatever the intent id and token, the page's confirm request takes the invalid path: 400 "Invalid request", no provider call. |
| `Wiring.ConfirmThroughRouteThrowsInvalidRequest` | src/app/page.tsx:70 | Seen from the page, that 400 throws "Invalid request" before any poll. |
| `Wiring.ConfirmAnswerLacksCheckoutIntent` | src/app/page.tsx:72 | A 200 confirm answer holds the intent under `order`, so the page's read of `checkoutIntent.id` throws. |

## Left out

- `src/app/stripe/page.tsx` is not part of this model. It only wraps the card widget. `stripe.createToken` is reduced to its three outcomes: a token, an error, or neither. A rejected `createToken` promise is not modelled.
- Real HTTP, `fetch`, `NextResponse` and JSON text:
  - Requests and replies are parsed JSON values.
  - A `POST` whose body is not JSON (`req.json()` rejecting, a 500) is not modelled.
  - An invalid `req.url` is not modelled.
  - The `Content-Type` header, a constant, is not recorded in `ProviderCall`.
  - On the page, a rejected `fetch` and a `res.json()` that rejects are the same `Rejected` answer.
- URL encoding:
  - The page's status URL is built as a plain string.
  - `Wiring` relates it to the query `[("checkoutIntentId", id)]`, which is what the route sees only for ids without URL-reserved characters.
- Numbers:
  - JSON numbers are integers in this model.
  - Floating point, `NaN` from the quantity input, and the `amountSubunits/100` display are left out.
- `NormalizeCode`: upper-cases ASCII letters only. JavaScript's full Unicode `toUpperCase`, which can change a string's length, is not modelled.
- `NormalizeCode`: strings here are sequences of code points, but `slice(0, 2)` counts UTF-16 code units. An input starting with a character outside the Basic Multilingual Plane is cut differently: for "😀x" JavaScript keeps only the emoji, while the model keeps two code points. The `min(2, len)` length in its contract is in code points.
- Engine wording: the messages of runtime TypeErrors (reading a property of null or undefined, destructuring null) use the V8 engine's wording.
- Time:
  - `Date.now()` is a finite, non-decreasing sequence of readings that must reach past the deadline, so the loop's termination is part of the environment.
  - `setTimeout` appears only as the recorded delays. How long a wait really takes is the gap between readings; `Spaced` names the assumption that it is at least `interval`.
- React:
  - State updates are applied in order, as the handlers call the setters. Batching and re-rendering are not modelled.
  - Handlers running at the same time (the disabled buttons prevent it) are not modelled.
  - The input setters other than province and country (product URL, quantity, the remaining buyer fields) are plain assignments and are not modelled.
  - `e.preventDefault()`, the JSX, `console.log` output, the publishable key and the `cost.total` cast at line 351 are not modelled.
- Preconditions from the rendering:
  - `Home.HandleGetCost` requires step 1 (its form exists only then).
  - `Home.Back` and `Home.Succeed` require step 2.
  - `Home.ChangeProvince` and `Home.ChangeCountry` require the step to be 1, 2 or 3, which the rendering always holds.
  - `CheckoutForm.HandleSubmit` requires the parent to be showing the payment form with the same intent id.
  - These are what the rendering guarantees, not checks in the handlers.
