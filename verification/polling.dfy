/**
 * `pollCheckoutIntent` from the checkout page: fetch the intent through the
 * app's own route until its `state` is one of the desired states, waiting a
 * fixed interval after every other answer, and give up once the clock has
 * passed the deadline.
 *
 * The clock is the sequence of values `Date.now()` returns, in order:
 * `clock[0]` is the start time and `clock[k + 1]` is the reading taken by the
 * loop test before the (k+1)-th fetch. The fetches are the sequence of
 * answers the route gives, in order.
 */
module Polling {
  import opened JsValue

  const DefaultTimeout := 120000
  const DefaultInterval := 5000
  const CheckoutEndpoint := "/api/checkout"

  /** A request the page sends to its own route. */
  datatype Request = Request(verb: string, url: string, body: Option<Json>)

  /** A `fetch` followed by `res.json()`: the status class and the parsed body,
      or the rejection (network error or a body that is not JSON) with its message. */
  datatype FetchReply = Answered(ok: bool, data: Json) | Rejected(message: string)

  /** How a poll ends: with the matching intent, with the timeout error, or
      with an error thrown by a fetch or by reading the answer. */
  datatype PollResult = Reached(data: Json) | TimedOut(message: string) | Aborted(message: string)

  /** A finished poll: how it ended, the requests it sent and the waits it made. */
  datatype PollRun = PollRun(result: PollResult, requests: seq<Request>, delays: seq<int>)

  /** The status request for an intent: a GET with the id under `checkoutIntentId`. */
  function PollRequest(checkoutIntentId: string): Request {
    Request("GET", CheckoutEndpoint + "?checkoutIntentId=" + checkoutIntentId, None)
  }

  function TimeoutMessage(desiredStates: seq<string>): string {
    "Timeout waiting for state: " + Join(desiredStates, ", ")
  }

  /** `data.state && desiredStates.includes(data.state)`, for data that is not null or undefined. */
  predicate Matches(data: Json, desiredStates: seq<string>) {
    var state := Prop(data, "state");
    Truthy(state) && state.Str? && state.s in desiredStates
  }

  predicate NonDecreasing(clock: seq<int>) {
    forall i, j :: 0 <= i <= j < |clock| ==> clock[i] <= clock[j]
  }

  /** What a poll needs from its surroundings: a clock that does not run
      backwards and is observed until past the deadline, and an answer for
      every fetch the loop can start before then. */
  predicate Environment(timeout: int, clock: seq<int>, replies: seq<FetchReply>) {
    && |clock| >= 2
    && NonDecreasing(clock)
    && clock[|clock| - 1] - clock[0] >= timeout
    && |replies| + 2 >= |clock|
  }

  /** The rest of a poll once `k` fetches have been answered without a match. */
  function PollFrom(checkoutIntentId: string, desiredStates: seq<string>, timeout: int, interval: int,
                    clock: seq<int>, replies: seq<FetchReply>, k: nat): PollRun
    requires Environment(timeout, clock, replies)
    requires k + 1 < |clock|
    decreases |clock| - k
  {
    if clock[k + 1] - clock[0] >= timeout then
      PollRun(TimedOut(TimeoutMessage(desiredStates)), [], [])
    else
      var request := PollRequest(checkoutIntentId);
      match replies[k]
      case Rejected(m) => PollRun(Aborted(m), [request], [])
      case Answered(_, data) =>
        if Nullish(data) then PollRun(Aborted(ReadOfNullishMessage(data, "state")), [request], [])
        else if Matches(data, desiredStates) then PollRun(Reached(data), [request], [])
        else
          var rest := PollFrom(checkoutIntentId, desiredStates, timeout, interval, clock, replies, k + 1);
          PollRun(rest.result, [request] + rest.requests, [interval] + rest.delays)
  }

  /** A whole poll, from the start time on. */
  function PollSpec(checkoutIntentId: string, desiredStates: seq<string>, timeout: int, interval: int,
                    clock: seq<int>, replies: seq<FetchReply>): PollRun
    requires Environment(timeout, clock, replies)
  {
    PollFrom(checkoutIntentId, desiredStates, timeout, interval, clock, replies, 0)
  }

  /** `pollCheckoutIntent(checkoutIntentId, desiredStates, timeout, interval)` */
  method PollCheckoutIntent(checkoutIntentId: string, desiredStates: seq<string>, timeout: int, interval: int,
                            clock: seq<int>, replies: seq<FetchReply>) returns (run: PollRun)
    requires Environment(timeout, clock, replies)
    ensures run == PollSpec(checkoutIntentId, desiredStates, timeout, interval, clock, replies)
  {
    var start := clock[0];
    var reading := 1;
    var requests: seq<Request> := [];
    var delays: seq<int> := [];
    while clock[reading] - start < timeout
      invariant 1 <= reading < |clock|
      invariant var rest := PollFrom(checkoutIntentId, desiredStates, timeout, interval, clock, replies, reading - 1);
        PollSpec(checkoutIntentId, desiredStates, timeout, interval, clock, replies)
          == PollRun(rest.result, requests + rest.requests, delays + rest.delays)
      decreases |clock| - reading
    {
      var request := PollRequest(checkoutIntentId);
      requests := requests + [request];
      var reply := replies[reading - 1];
      if reply.Rejected? {
        return PollRun(Aborted(reply.message), requests, delays);
      }
      var data := reply.data;
      if Nullish(data) {
        return PollRun(Aborted(ReadOfNullishMessage(data, "state")), requests, delays);
      }
      if Matches(data, desiredStates) {
        return PollRun(Reached(data), requests, delays);
      }
      delays := delays + [interval];
      reading := reading + 1;
    }
    run := PollRun(TimedOut(TimeoutMessage(desiredStates)), requests, delays);
  }

  /** Every request is the same status GET, every wait is `interval`, and
      there is one wait after each fetch except the last one, unless the poll
      timed out, in which case every fetch was followed by a wait. */
  lemma {:induction false} PollShape(checkoutIntentId: string, desiredStates: seq<string>, timeout: int, interval: int,
                                     clock: seq<int>, replies: seq<FetchReply>, k: nat)
    requires Environment(timeout, clock, replies) && k + 1 < |clock|
    ensures var p := PollFrom(checkoutIntentId, desiredStates, timeout, interval, clock, replies, k);
      && (forall j :: 0 <= j < |p.requests| ==> p.requests[j] == PollRequest(checkoutIntentId))
      && (forall j :: 0 <= j < |p.delays| ==> p.delays[j] == interval)
      && (p.result.TimedOut? ==> |p.delays| == |p.requests|)
      && (!p.result.TimedOut? ==> |p.requests| >= 1 && |p.delays| == |p.requests| - 1)
    decreases |clock| - k
  {
    if clock[k + 1] - clock[0] < timeout && replies[k].Answered? && !Nullish(replies[k].data)
       && !Matches(replies[k].data, desiredStates) {
      PollShape(checkoutIntentId, desiredStates, timeout, interval, clock, replies, k + 1);
    }
  }

  /** Every fetch starts while `now - start < timeout`; a poll that times out
      took its last reading at or past the deadline, and its error names the
      desired states. */
  lemma {:induction false} PollDeadline(checkoutIntentId: string, desiredStates: seq<string>, timeout: int, interval: int,
                                        clock: seq<int>, replies: seq<FetchReply>, k: nat)
    requires Environment(timeout, clock, replies) && k + 1 < |clock|
    ensures var p := PollFrom(checkoutIntentId, desiredStates, timeout, interval, clock, replies, k);
      && k + |p.requests| < |clock|
      && (forall j :: k < j <= k + |p.requests| ==> clock[j] - clock[0] < timeout)
      && (p.result.TimedOut? ==>
            && k + |p.requests| + 1 < |clock|
            && clock[k + |p.requests| + 1] - clock[0] >= timeout
            && p.result.message == TimeoutMessage(desiredStates))
    decreases |clock| - k
  {
    if clock[k + 1] - clock[0] < timeout && replies[k].Answered? && !Nullish(replies[k].data)
       && !Matches(replies[k].data, desiredStates) {
      PollDeadline(checkoutIntentId, desiredStates, timeout, interval, clock, replies, k + 1);
    }
  }

  /** A poll that succeeds returns the answer of its last fetch, and that
      answer's `state` is a non-empty member of the desired states; every
      fetch followed by a wait was answered with data that did not match. */
  lemma {:induction false} PollReturnsFirstMatch(checkoutIntentId: string, desiredStates: seq<string>, timeout: int, interval: int,
                                                 clock: seq<int>, replies: seq<FetchReply>, k: nat)
    requires Environment(timeout, clock, replies) && k + 1 < |clock|
    ensures var p := PollFrom(checkoutIntentId, desiredStates, timeout, interval, clock, replies, k);
      && k + |p.delays| <= |replies|
      && (forall j :: k <= j < k + |p.delays| ==>
            replies[j].Answered? && !Nullish(replies[j].data) && !Matches(replies[j].data, desiredStates))
      && (p.result.Reached? ==>
            && |p.requests| >= 1
            && k + |p.requests| <= |replies|
            && replies[k + |p.requests| - 1].Answered?
            && replies[k + |p.requests| - 1].data == p.result.data
            && !Nullish(p.result.data)
            && Prop(p.result.data, "state").Str?
            && Prop(p.result.data, "state").s != ""
            && Prop(p.result.data, "state").s in desiredStates)
    decreases |clock| - k
  {
    if clock[k + 1] - clock[0] < timeout && replies[k].Answered? && !Nullish(replies[k].data)
       && !Matches(replies[k].data, desiredStates) {
      PollReturnsFirstMatch(checkoutIntentId, desiredStates, timeout, interval, clock, replies, k + 1);
    }
  }

  /** A poll fails only because its last fetch was rejected (and then with
      that rejection's message) or was answered with null. */
  lemma {:induction false} PollFailurePropagates(checkoutIntentId: string, desiredStates: seq<string>, timeout: int, interval: int,
                                                 clock: seq<int>, replies: seq<FetchReply>, k: nat)
    requires Environment(timeout, clock, replies) && k + 1 < |clock|
    ensures var p := PollFrom(checkoutIntentId, desiredStates, timeout, interval, clock, replies, k);
      p.result.Aborted? ==>
        && |p.requests| >= 1
        && k + |p.requests| <= |replies|
        && var last := replies[k + |p.requests| - 1];
           || last == Rejected(p.result.message)
           || (last.Answered? && Nullish(last.data) && p.result.message == ReadOfNullishMessage(last.data, "state"))
    decreases |clock| - k
  {
    if clock[k + 1] - clock[0] < timeout && replies[k].Answered? && !Nullish(replies[k].data)
       && !Matches(replies[k].data, desiredStates) {
      PollFailurePropagates(checkoutIntentId, desiredStates, timeout, interval, clock, replies, k + 1);
    }
  }

  /** Each wait lasts at least `interval`: the loop test after a wait reads a
      clock at least `interval` later than the one before the fetch. */
  predicate Spaced(clock: seq<int>, interval: int) {
    forall i :: 1 <= i < |clock| - 1 ==> clock[i] + interval <= clock[i + 1]
  }

  lemma {:induction false} SpacedGrowth(clock: seq<int>, interval: int, i: nat)
    requires Spaced(clock, interval) && 1 <= i < |clock|
    ensures clock[i] - clock[1] >= (i - 1) * interval
  {
    if i > 1 {
      SpacedGrowth(clock, interval, i - 1);
      assert (i - 1) * interval == (i - 2) * interval + interval;
    }
  }

  /** With waits of at least `interval`, a poll makes at most one fetch per
      interval of the timeout window: (fetches - 1) * interval < timeout. */
  lemma PollFetchBound(checkoutIntentId: string, desiredStates: seq<string>, timeout: int, interval: int,
                       clock: seq<int>, replies: seq<FetchReply>)
    requires Environment(timeout, clock, replies) && Spaced(clock, interval)
    ensures var n := |PollSpec(checkoutIntentId, desiredStates, timeout, interval, clock, replies).requests|;
      n >= 1 ==> (n - 1) * interval < timeout
  {
    var n := |PollSpec(checkoutIntentId, desiredStates, timeout, interval, clock, replies).requests|;
    PollDeadline(checkoutIntentId, desiredStates, timeout, interval, clock, replies, 0);
    if n >= 1 {
      SpacedGrowth(clock, interval, n);
      assert clock[0] <= clock[1];
    }
  }

  /** With the defaults (two minutes, five seconds) a poll fetches at most 24 times. */
  lemma DefaultPollFetchesAtMost24(checkoutIntentId: string, desiredStates: seq<string>,
                                   clock: seq<int>, replies: seq<FetchReply>)
    requires Environment(DefaultTimeout, clock, replies) && Spaced(clock, DefaultInterval)
    ensures |PollSpec(checkoutIntentId, desiredStates, DefaultTimeout, DefaultInterval, clock, replies).requests| <= 24
  {
    PollFetchBound(checkoutIntentId, desiredStates, DefaultTimeout, DefaultInterval, clock, replies);
  }

  /** An intent answer with the given id and state. */
  function IntentAnswer(id: string, state: string): FetchReply {
    Answered(true, Obj(map["id" := Str(id), "state" := Str(state)]))
  }

  /** Waiting for `awaiting_confirmation` over answers `created`, `created`,
      `awaiting_confirmation`, five seconds apart: the third fetch ends the
      poll with the third answer, after two waits. */
  lemma ThirdFetchReachesAwaitingConfirmation()
    ensures var clock := [0, 10, 5020, 10030, 120000];
      var replies := [IntentAnswer("ci_1", "created"), IntentAnswer("ci_1", "created"),
                      IntentAnswer("ci_1", "awaiting_confirmation")];
      Environment(DefaultTimeout, clock, replies)
      && PollSpec("ci_1", ["awaiting_confirmation"], DefaultTimeout, DefaultInterval, clock, replies)
         == PollRun(Reached(replies[2].data), [PollRequest("ci_1"), PollRequest("ci_1"), PollRequest("ci_1")],
                    [DefaultInterval, DefaultInterval])
  {
    var clock := [0, 10, 5020, 10030, 120000];
    var replies := [IntentAnswer("ci_1", "created"), IntentAnswer("ci_1", "created"),
                    IntentAnswer("ci_1", "awaiting_confirmation")];
    assert Environment(DefaultTimeout, clock, replies);
    var desired := ["awaiting_confirmation"];
    assert !Matches(replies[0].data, desired);
    assert Matches(replies[2].data, desired);
    var third := PollFrom("ci_1", desired, DefaultTimeout, DefaultInterval, clock, replies, 2);
    assert third == PollRun(Reached(replies[2].data), [PollRequest("ci_1")], []);
    var second := PollFrom("ci_1", desired, DefaultTimeout, DefaultInterval, clock, replies, 1);
    assert second == PollRun(third.result, [PollRequest("ci_1")] + third.requests, [DefaultInterval] + third.delays);
  }

  /** Waiting for a terminal state, a provider-reported `failed` ends the poll
      successfully, exactly like `completed`. */
  lemma FailedStateEndsTerminalPoll()
    ensures var clock := [0, 10, 5020, 120000];
      var replies := [IntentAnswer("ci_1", "created"), IntentAnswer("ci_1", "failed")];
      Environment(DefaultTimeout, clock, replies)
      && PollSpec("ci_1", ["completed", "failed"], DefaultTimeout, DefaultInterval, clock, replies).result
         == Reached(replies[1].data)
  {
    var clock := [0, 10, 5020, 120000];
    var replies := [IntentAnswer("ci_1", "created"), IntentAnswer("ci_1", "failed")];
    assert Environment(DefaultTimeout, clock, replies);
    var desired := ["completed", "failed"];
    assert !Matches(replies[0].data, desired);
    assert Matches(replies[1].data, desired);
  }

  /** An answer that never matches, for instance one without a `state`, makes
      the poll run to the deadline and fail with the timeout error. */
  lemma {:induction false} NonMatchingAnswersTimeOut(checkoutIntentId: string, desiredStates: seq<string>, timeout: int, interval: int,
                                                     clock: seq<int>, replies: seq<FetchReply>, k: nat)
    requires Environment(timeout, clock, replies) && k + 1 < |clock|
    requires forall j :: 0 <= j < |replies| ==>
      replies[j].Answered? && !Nullish(replies[j].data) && !Matches(replies[j].data, desiredStates)
    ensures PollFrom(checkoutIntentId, desiredStates, timeout, interval, clock, replies, k).result
            == TimedOut(TimeoutMessage(desiredStates))
    decreases |clock| - k
  {
    if clock[k + 1] - clock[0] < timeout {
      NonMatchingAnswersTimeOut(checkoutIntentId, desiredStates, timeout, interval, clock, replies, k + 1);
    }
  }
}
