/** The saga orchestrator: validate the request, consult the dedup cache,
    create the order, confirm it, and when the confirm fails compensate with
    a cancel. Only successful responses are cached.

    Each remote call's outcome is a parameter; a run returns the response
    together with the calls it made, in order. */
module Saga {
  import opened Basics
  import opened Text
  import Ledger
  import opened SagaCache

  /** The event body: text that is not JSON, or the two fields the handler
      reads (`None` when absent or null). */
  datatype Event = Malformed | Parsed(customerId: Option<int>, items: Option<seq<Ledger.ItemRequest>>)

  /** The data of a downstream error response: its `message` and `error`
      fields and its JSON text. */
  datatype ErrorData = ErrorData(message: Option<string>, error: Option<string>, serialized: string)

  /** A downstream response with an error status; `data` is `None` when the
      response carried no (or an empty) body. */
  datatype ErrorResponse = ErrorResponse(status: int, data: Option<ErrorData>)

  /** A failed HTTP call: the error response, when one arrived, and the
      client's own message. */
  datatype CallError = CallError(response: Option<ErrorResponse>, message: string)

  /** The outcome of one remote call. */
  datatype Outcome<T> = Succeeded(data: T) | Failed(err: CallError)

  /** What the handler reads from a successful create: the order id. */
  datatype CreatedOrder = CreatedOrder(id: int)

  /** What it reads from a successful confirm: `status` and `total_cents`
      (absent from an "already confirmed" answer). */
  datatype ConfirmData = ConfirmData(status: Option<string>, totalCents: Option<int>)

  /** A remote call made, with the arguments that matter. */
  datatype Call =
    | CreateCall(customerId: int, items: seq<Ledger.ItemRequest>)
    | ConfirmCall(orderId: int, idempotencyKey: string)
    | CancelCall(orderId: int)

  /** The JSON body the handler answers with. `Completed` also carries the
      fixed message "Order successfully created and confirmed.";
      `OrchestrationFailed` carries the reason text and, as its `details`
      field, the HTTP client's own message. */
  datatype Answer =
    | Rejected(message: string)
    | Completed(orderId: int, status: Option<string>, totalCents: Option<int>, details: ConfirmData, customerId: int)
    | OrchestrationFailed(message: string, errorDetails: string)

  datatype Response = Response(statusCode: int, body: Answer)

  /** One handler invocation: the response, the remote calls in the order
      they were made, the cache afterwards, and the logged message of a
      failed compensation. */
  datatype Run = Run(response: Response, calls: seq<Call>, cache: Cache<Response>, compensationError: Option<string>)

  const InvalidJsonText := "Invalid JSON format."
  const MissingFieldsText := "Missing customer_id or items."
  const FailurePrefix := "Order orchestration failed. Reason: "
  const DefaultReason := "Internal Server Error during orchestration."

  /** The idempotency key the confirm call carries. */
  function ConfirmKey(customerId: int, orderId: int): string {
    IntText(customerId) + "-" + IntText(orderId) + "-CONFIRM"
  }

  /** The inverse of `ConfirmKey`. */
  function ParseConfirmKey(key: string): Option<(int, int)> {
    var c :- ReadInt(key);
    var s :- Skip(c.1, "-");
    var o :- ReadInt(s);
    if o.1 == "-CONFIRM" then Some((c.0, o.0)) else None
  }

  /** A confirm key reads back as the customer id and the order id it was
      made from. */
  lemma ConfirmKeyReadsBack(customerId: int, orderId: int)
    ensures ParseConfirmKey(ConfirmKey(customerId, orderId)) == Some((customerId, orderId))
  {
    var tail := IntText(orderId) + "-CONFIRM";
    Reassociate(IntText(customerId) + "-", IntText(orderId), "-CONFIRM");
    Reassociate(IntText(customerId), "-", tail);
    assert ("-" + tail)[0] == '-';
    ReadIntText(customerId, "-" + tail);
    SkipLiteral("-", tail);
    assert "-CONFIRM"[0] == '-';
    ReadIntText(orderId, "-CONFIRM");
  }

  /** Two confirms share a key only when they are for the same order of
      the same customer. */
  lemma ConfirmKeyInjective(c1: int, o1: int, c2: int, o2: int)
    ensures ConfirmKey(c1, o1) == ConfirmKey(c2, o2) <==> c1 == c2 && o1 == o2
  {
    ConfirmKeyReadsBack(c1, o1);
    ConfirmKeyReadsBack(c2, o2);
  }

  /** A string field that JavaScript treats as true: present and non-empty. */
  predicate Truthy(s: Option<string>) {
    s.Some? && s.value != ""
  }

  /** The reason quoted in a failure: the downstream `message`, else its
      `error`, else its JSON text, else a fixed default. */
  function Reason(e: CallError): (reason: string)
    // without a downstream body the reason is the default
    ensures e.response.None? || e.response.value.data.None? ==> reason == DefaultReason
    // the reason is always text the downstream sent: a non-empty message or
    // error, or the body's JSON text
    ensures e.response.Some? && e.response.value.data.Some? ==>
      var d := e.response.value.data.value;
      || (Truthy(d.message) && reason == d.message.value)
      || (Truthy(d.error) && reason == d.error.value)
      || reason == d.serialized
    // and the downstream message, when there is one, beats its error
    ensures e.response.Some? && e.response.value.data.Some? ==>
      var d := e.response.value.data.value;
      && (Truthy(d.message) ==> reason == d.message.value)
      && (!Truthy(d.message) && Truthy(d.error) ==> reason == d.error.value)
  {
    match e.response
    case None => DefaultReason
    case Some(resp) =>
      match resp.data
      case None => DefaultReason
      case Some(d) =>
        if Truthy(d.message) then d.message.value
        else if Truthy(d.error) then d.error.value
        else d.serialized
  }

  /** The status of the response that failed the call, else 500. */
  function StatusOf(e: CallError): int {
    if e.response.Some? then e.response.value.status else 500
  }

  function FailureResponse(e: CallError): Response {
    Response(StatusOf(e), OrchestrationFailed(FailurePrefix + Reason(e), e.message))
  }

  /** The request passes the handler's own check: a truthy customer id and
      a non-empty item list. */
  predicate Admitted(event: Event) {
    && event.Parsed?
    && event.customerId.Some? && event.customerId.value != 0
    && event.items.Some? && |event.items.value| > 0
  }

  /** The saga key of an admitted request. */
  function KeyOf(event: Event): string
    requires Admitted(event)
  {
    GetKey(event.customerId.value, event.items.value)
  }

  /** The handler. `create`, `confirm` and `cancel` are what the three
      remote calls would answer; a call that is never made has its outcome
      ignored. */
  function Handle(cache: Cache<Response>, event: Event, create: Outcome<CreatedOrder>,
                  confirm: Outcome<ConfirmData>, cancel: Outcome<()>): (r: Run)
    ensures event.Malformed? ==> r == Run(Response(400, Rejected(InvalidJsonText)), [], cache, None)
    ensures event.Parsed? && !Admitted(event) ==> r == Run(Response(400, Rejected(MissingFieldsText)), [], cache, None)
    ensures Admitted(event) && KeyOf(event) in cache ==> r == Run(cache[KeyOf(event)], [], cache, None)
    ensures Admitted(event) && KeyOf(event) !in cache && create.Failed? ==>
      r == Run(FailureResponse(create.err), [CreateCall(event.customerId.value, event.items.value)], cache, None)
    ensures Admitted(event) && KeyOf(event) !in cache && create.Succeeded? && confirm.Failed? ==>
      var id := create.data.id;
      var attempted := [CreateCall(event.customerId.value, event.items.value),
                        ConfirmCall(id, ConfirmKey(event.customerId.value, id))];
      && r.response == FailureResponse(confirm.err)
      && r.calls == (if id != 0 then attempted + [CancelCall(id)] else attempted)
      && r.cache == cache
      && r.compensationError == (if id != 0 && cancel.Failed? then Some(cancel.err.message) else None)
    ensures Admitted(event) && KeyOf(event) !in cache && create.Succeeded? && confirm.Succeeded? ==>
      && r.calls == [CreateCall(event.customerId.value, event.items.value),
                     ConfirmCall(create.data.id, ConfirmKey(event.customerId.value, create.data.id))]
      && r.response == Response(200, Completed(create.data.id, confirm.data.status, confirm.data.totalCents,
                                               confirm.data, event.customerId.value))
      && r.cache == Save(cache, KeyOf(event), r.response)
      && r.compensationError == None
    ensures r.cache != cache ==> r.response.statusCode == 200 && Admitted(event) && r.cache == Save(cache, KeyOf(event), r.response)
  {
    match event
    case Malformed => Run(Response(400, Rejected(InvalidJsonText)), [], cache, None)
    case Parsed(customer, requested) =>
      if customer.None? || customer.value == 0 || requested.None? || |requested.value| == 0 then
        Run(Response(400, Rejected(MissingFieldsText)), [], cache, None)
      else
        var customerId := customer.value;
        var items := requested.value;
        var key := GetKey(customerId, items);
        match Check(cache, key)
        case Some(previous) => Run(previous, [], cache, None)
        case None =>
          var createCall := CreateCall(customerId, items);
          match create
          case Failed(e) =>
            Run(FailureResponse(e), [createCall], cache, None)
          case Succeeded(order) =>
            var confirmCall := ConfirmCall(order.id, ConfirmKey(customerId, order.id));
            match confirm
            case Succeeded(data) =>
              var response := Response(200, Completed(order.id, data.status, data.totalCents, data, customerId));
              Run(response, [createCall, confirmCall], Save(cache, key, response), None)
            case Failed(e) =>
              if order.id != 0 then
                var calls := [createCall, confirmCall, CancelCall(order.id)];
                var logged := if cancel.Failed? then Some(cancel.err.message) else None;
                Run(FailureResponse(e), calls, cache, logged)
              else
                Run(FailureResponse(e), [createCall, confirmCall], cache, None)
  }

  /** Whether the compensating cancel succeeds or fails changes what is
      logged, never the response, the calls or the cache. */
  lemma CompensationIsBestEffort(cache: Cache<Response>, event: Event, create: Outcome<CreatedOrder>,
                                 confirm: Outcome<ConfirmData>, cancel: Outcome<()>, cancel': Outcome<()>)
    ensures var r := Handle(cache, event, create, confirm, cancel);
      var r' := Handle(cache, event, create, confirm, cancel');
      r.response == r'.response && r.calls == r'.calls && r.cache == r'.cache
  {
  }

  /** After a successful run, the same request replays the cached response
      and makes no remote call, whatever the services would answer now, as
      long as it is handled with the cache that run left behind: the cache
      lives in one execution environment's memory. */
  lemma SuccessIsReplayed(cache: Cache<Response>, event: Event, create: Outcome<CreatedOrder>,
                          confirm: Outcome<ConfirmData>, cancel: Outcome<()>,
                          create': Outcome<CreatedOrder>, confirm': Outcome<ConfirmData>, cancel': Outcome<()>)
    requires Handle(cache, event, create, confirm, cancel).cache != cache
    ensures var first := Handle(cache, event, create, confirm, cancel);
      Handle(first.cache, event, create', confirm', cancel') == Run(first.response, [], first.cache, None)
  {
  }

  /** A failed run leaves the cache as it was, so a retry runs the saga again. */
  lemma FailureIsNotCached(cache: Cache<Response>, event: Event, create: Outcome<CreatedOrder>,
                           confirm: Outcome<ConfirmData>, cancel: Outcome<()>)
    requires Handle(cache, event, create, confirm, cancel).response.statusCode != 200
    ensures Handle(cache, event, create, confirm, cancel).cache == cache
  {
  }
}
