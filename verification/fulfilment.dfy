/** The whole workflow: the saga handler run against the orders service
    model, each remote call answered by the matching route, or lost on the
    way there or back. This is where the end-to-end promises are stated: a
    failed saga leaves every stock as it found it unless a create reply or
    the compensating cancel was lost, and a repeated request creates
    nothing when the instance whose in-memory cache holds the first 200
    handles it. */
module Fulfilment {
  import opened Basics
  import Ledger
  import Responses
  import Routes
  import Idempotency
  import opened Saga
  import opened SagaCache

  /** What the HTTP client adds to a reply and this model does not spell
      out: the JSON text of a body, and the message of a failed request. */
  datatype Transport = Transport(stringify: Responses.Body -> string, failureMessage: int -> string)

  /** The `message` and `error` fields of an orders-service body. */
  function ErrorDataOf(t: Transport, body: Responses.Body): ErrorData {
    var serialized := t.stringify(body);
    match body
    case ErrorText(m) => ErrorData(Some(m), None, serialized)
    case ValidationFailed => ErrorData(Some("Validation failed"), None, serialized)
    case OrderCreated(_, _, _, _) => ErrorData(Some("Order created successfully and stock reserved."), None, serialized)
    case ConfirmMissing(_) => ErrorData(Some("Order not found."), None, serialized)
    case AlreadyConfirmed(_) => ErrorData(Some("Order was already confirmed."), None, serialized)
    case ConfirmRefused(_) => ErrorData(Some("Cannot confirm a canceled order."), None, serialized)
    case ConfirmFailed(e) => ErrorData(Some("Error confirming order"), Some(e), serialized)
    case CancelDone(m, _) => ErrorData(Some(m), None, serialized)
    case _ => ErrorData(None, None, serialized)
  }

  /** The HTTP client succeeds on a 2xx status and throws on any other. */
  predicate Success(reply: Responses.Reply) {
    200 <= reply.status < 300
  }

  function Failure(t: Transport, reply: Responses.Reply): CallError {
    CallError(Some(ErrorResponse(reply.status, Some(ErrorDataOf(t, reply.body)))), t.failureMessage(reply.status))
  }

  /** The create call as the handler sees it. A 2xx reply that is not a
      created order (the create route sends none) would fail on reading the
      order id, without an error response. */
  function CreateOutcome(t: Transport, reply: Responses.Reply): Outcome<CreatedOrder> {
    if !Success(reply) then Failed(Failure(t, reply))
    else match reply.body
      case OrderCreated(id, _, _, _) => Succeeded(CreatedOrder(id))
      case _ => Failed(CallError(None, t.failureMessage(reply.status)))
  }

  function ConfirmOutcome(t: Transport, reply: Responses.Reply): Outcome<ConfirmData> {
    if !Success(reply) then Failed(Failure(t, reply))
    else match reply.body
      case ConfirmDone(_, total) => Succeeded(ConfirmData(Some("CONFIRMED"), Some(total)))
      case AlreadyConfirmed(_) => Succeeded(ConfirmData(Some("CONFIRMED"), None))
      case _ => Succeeded(ConfirmData(None, None))
  }

  function CancelOutcome(t: Transport, reply: Responses.Reply): Outcome<()> {
    if Success(reply) then Succeeded(()) else Failed(Failure(t, reply))
  }

  /** Stands for the outcome of a call that is not made. */
  const NotCalled: CallError := CallError(None, "")

  /** How one remote call travels: the reply arrives; the request is lost
      before the service acts on it; or the service acts and the reply is
      lost. A lost call fails without a response, with the client's own
      message. */
  datatype Delivery = Delivered | LostBefore(message: string) | LostAfter(message: string)

  /** The delivery of each of the three calls. */
  datatype Network = Network(create: Delivery, confirm: Delivery, cancel: Delivery)

  const Reliable := Network(Delivered, Delivered, Delivered)

  /** The outcome the handler sees. */
  function Received<T>(d: Delivery, outcome: Outcome<T>): Outcome<T> {
    if d.Delivered? then outcome else Failed(CallError(None, d.message))
  }

  /** The state the service is left in. */
  function Reached<S>(d: Delivery, before: S, after: S): S {
    if d.LostBefore? then before else after
  }

  /** One saga invocation against the orders service: the run and the
      service state it leaves. `lookup` is the customer check inside the
      create; `fault` is what goes wrong inside the confirm, if anything;
      `net` says which calls and replies get through. */
  function PlaceOrder(t: Transport, cache: Cache<Response>, api: Routes.ApiState, event: Event,
                      lookup: Ledger.CustomerLookup, fault: Routes.Fault, net: Network): (Run, Routes.ApiState)
  {
    if !Admitted(event) || KeyOf(event) in cache then
      (Handle(cache, event, Failed(NotCalled), Failed(NotCalled), Failed(NotCalled)), api)
    else
      var customerId := event.customerId.value;
      var created := Routes.CreateRoute(api.ledger, lookup, Routes.CreateRequest(customerId, event.items.value));
      var api1 := api.(ledger := Reached(net.create, api.ledger, created.state));
      var create := Received(net.create, CreateOutcome(t, created.reply));
      match create
      case Failed(_) => (Handle(cache, event, create, Failed(NotCalled), Failed(NotCalled)), api1)
      case Succeeded(order) =>
        var confirmed := Routes.ConfirmRoute(api1, ConfirmKey(customerId, order.id), order.id, fault);
        var api2 := Reached(net.confirm, api1, confirmed.state);
        var confirm := Received(net.confirm, ConfirmOutcome(t, confirmed.reply));
        if confirm.Succeeded? || order.id == 0 then
          (Handle(cache, event, create, confirm, Failed(NotCalled)), api2)
        else
          var canceled := Routes.CancelRoute(api2.ledger, order.id);
          (Handle(cache, event, create, confirm, Received(net.cancel, CancelOutcome(t, canceled.reply))),
           api2.(ledger := Reached(net.cancel, api2.ledger, canceled.state)))
  }

  /** The orders service state the saga relies on: a valid ledger, and no
      confirm key yet recorded for the order id the next create will get. */
  predicate Ready(api: Routes.ApiState, event: Event) {
    && Ledger.Valid(api.ledger)
    && (Admitted(event) ==> ConfirmKey(event.customerId.value, api.ledger.nextOrderId) !in api.keys)
  }

  /** The losses the saga can compensate: every loss except a create reply
      lost after the order was committed (the handler has no order id to
      cancel) and a cancel lost before it reached the service. */
  predicate Compensable(net: Network) {
    !net.create.LostAfter? && !net.cancel.LostBefore?
  }

  /** Nothing of a run is left: every stock as before, and every order the
      run created CANCELED. */
  predicate Restored(before: Ledger.Store, after: Ledger.Store) {
    && after.products == before.products
    && forall id :: id in after.orders && id !in before.orders ==> after.orders[id].status == Ledger.Canceled
  }

  /** The run created exactly one order, under the next id, and confirmed it. */
  predicate ConfirmedOne(before: Ledger.Store, after: Ledger.Store) {
    && before.nextOrderId !in before.orders
    && after.orders.Keys == before.orders.Keys + {before.nextOrderId}
    && after.orders[before.nextOrderId].status == Ledger.Confirmed
  }

  /** A first confirm of a just-created order either confirms it with a
      200 or fails with a 500 and leaves the ledger alone. */
  lemma ConfirmOfNewOrder(api: Routes.ApiState, key: string, id: int, fault: Routes.Fault)
    requires Routes.Replayed(api.keys, key).None?
    requires id in api.ledger.orders && api.ledger.orders[id].status == Ledger.Created
    ensures var r := Routes.ConfirmRoute(api, key, id, fault);
      && (Success(r.reply) ==> r.state.ledger == Routes.MarkConfirmed(api.ledger, id) && r.reply.status == 200)
      && (!Success(r.reply) ==> r.state.ledger == api.ledger && r.reply.status == 500)
  {
  }

  /** The create step of the saga, seen from the ledger: it either fails
      and leaves the ledger alone, or it is the ledger's create. */
  lemma CreateStep(t: Transport, api: Routes.ApiState, event: Event, lookup: Ledger.CustomerLookup)
    requires Admitted(event)
    ensures var req := Routes.CreateRequest(event.customerId.value, event.items.value);
      var created := Routes.CreateRoute(api.ledger, lookup, req);
      var create := CreateOutcome(t, created.reply);
      && (create.Failed? ==> created.state == api.ledger && StatusOf(create.err) != 200)
      && (create.Succeeded? ==>
            && Ledger.CreateOrder(api.ledger, lookup, req.customerId, req.items).Ok?
            && var c := Ledger.CreateOrder(api.ledger, lookup, req.customerId, req.items).value;
               created.state == c.store && create.data.id == c.result.orderId)
  {
  }

  /** The saga stops at a failed create: unless the create committed and
      only its reply was lost, the ledger is untouched. */
  lemma CreateFailsCase(t: Transport, cache: Cache<Response>, api: Routes.ApiState, event: Event,
                        lookup: Ledger.CustomerLookup, fault: Routes.Fault, net: Network)
    requires Admitted(event) && KeyOf(event) !in cache
    requires Received(net.create, CreateOutcome(t, Routes.CreateRoute(api.ledger, lookup,
               Routes.CreateRequest(event.customerId.value, event.items.value)).reply)).Failed?
    ensures var (run, api') := PlaceOrder(t, cache, api, event, lookup, fault, net);
      && run.response.statusCode != 200
      && (!net.create.LostAfter? ==> api' == api)
  {
    CreateStep(t, api, event, lookup);
  }

  /** What the saga does once the create has succeeded with commit `c` and
      the confirm of the new order succeeds: it stops there. */
  lemma PlaceOrderConfirmed(t: Transport, cache: Cache<Response>, api: Routes.ApiState, event: Event,
                            lookup: Ledger.CustomerLookup, fault: Routes.Fault, net: Network,
                            c: Ledger.Commit<Ledger.Placed>)
    requires Admitted(event) && KeyOf(event) !in cache
    requires net.create.Delivered? && net.confirm.Delivered?
    requires Routes.WellFormed(Routes.CreateRequest(event.customerId.value, event.items.value))
    requires Ledger.CreateOrder(api.ledger, lookup, event.customerId.value, event.items.value) == Ok(c)
    requires Success(Routes.ConfirmRoute(api.(ledger := c.store), ConfirmKey(event.customerId.value, c.result.orderId),
                                         c.result.orderId, fault).reply)
    ensures var confirmed := Routes.ConfirmRoute(api.(ledger := c.store), ConfirmKey(event.customerId.value, c.result.orderId),
                                                 c.result.orderId, fault);
      PlaceOrder(t, cache, api, event, lookup, fault, net) ==
        (Handle(cache, event, Succeeded(CreatedOrder(c.result.orderId)), ConfirmOutcome(t, confirmed.reply), Failed(NotCalled)),
         confirmed.state)
  {
    var customerId := event.customerId.value;
    var created := Routes.CreateRoute(api.ledger, lookup, Routes.CreateRequest(customerId, event.items.value));
    assert Received(net.create, CreateOutcome(t, created.reply)) == Succeeded(CreatedOrder(c.result.orderId));
    var confirmed := Routes.ConfirmRoute(api.(ledger := c.store), ConfirmKey(customerId, c.result.orderId),
                                         c.result.orderId, fault);
    assert Received(net.confirm, ConfirmOutcome(t, confirmed.reply)).Succeeded?;
  }

  /** What the saga does once the create has succeeded with commit `c` and
      the confirm of the new order fails, by its reply or by a loss: it
      cancels the order. */
  lemma PlaceOrderCompensated(t: Transport, cache: Cache<Response>, api: Routes.ApiState, event: Event,
                              lookup: Ledger.CustomerLookup, fault: Routes.Fault, net: Network,
                              c: Ledger.Commit<Ledger.Placed>)
    requires Admitted(event) && KeyOf(event) !in cache
    requires net.create.Delivered?
    requires Routes.WellFormed(Routes.CreateRequest(event.customerId.value, event.items.value))
    requires Ledger.CreateOrder(api.ledger, lookup, event.customerId.value, event.items.value) == Ok(c)
    requires c.result.orderId != 0
    requires !(net.confirm.Delivered? &&
               Success(Routes.ConfirmRoute(api.(ledger := c.store), ConfirmKey(event.customerId.value, c.result.orderId),
                                           c.result.orderId, fault).reply))
    ensures var confirmed := Routes.ConfirmRoute(api.(ledger := c.store), ConfirmKey(event.customerId.value, c.result.orderId),
                                                 c.result.orderId, fault);
      var api2 := Reached(net.confirm, api.(ledger := c.store), confirmed.state);
      var canceled := Routes.CancelRoute(api2.ledger, c.result.orderId);
      PlaceOrder(t, cache, api, event, lookup, fault, net) ==
        (Handle(cache, event, Succeeded(CreatedOrder(c.result.orderId)), Received(net.confirm, ConfirmOutcome(t, confirmed.reply)),
                Received(net.cancel, CancelOutcome(t, canceled.reply))),
         api2.(ledger := Reached(net.cancel, api2.ledger, canceled.state)))
  {
    var customerId := event.customerId.value;
    var created := Routes.CreateRoute(api.ledger, lookup, Routes.CreateRequest(customerId, event.items.value));
    assert Received(net.create, CreateOutcome(t, created.reply)) == Succeeded(CreatedOrder(c.result.orderId));
  }

  /** Cancelling an order after a confirm wrote CONFIRMED gives back the
      same stock and leaves the same orders as cancelling it while CREATED. */
  lemma CancelAfterConfirmation(s: Ledger.Store, id: int)
    requires id in s.orders && s.orders[id].status == Ledger.Created
    ensures var k := Routes.CancelRoute(s, id).state;
      var k' := Routes.CancelRoute(Routes.MarkConfirmed(s, id), id).state;
      k'.products == k.products && k'.orders == k.orders
  {
    var m := Routes.MarkConfirmed(s, id);
    var k := Routes.CancelRoute(s, id).state;
    var k' := Routes.CancelRoute(m, id).state;
    assert Ledger.LinesOf(m, id) == Ledger.LinesOf(s, id);
    assert k'.products.Keys == k.products.Keys;
    assert forall pid :: pid in k.products ==> k'.products[pid] == k.products[pid];
  }

  /** A failed confirm of the new order leaves it as it was or, when only
      the reply was lost, CONFIRMED; a delivered failure is a 500. */
  lemma FailedConfirmLeaves(s: Ledger.Store, lookup: Ledger.CustomerLookup, customerId: int,
                            items: seq<Ledger.ItemRequest>, c: Ledger.Commit<Ledger.Placed>,
                            keys: Idempotency.Table, fault: Routes.Fault, d: Delivery)
    requires Ledger.Valid(s)
    requires Ledger.CreateOrder(s, lookup, customerId, items) == Ok(c)
    requires ConfirmKey(customerId, s.nextOrderId) !in keys
    requires !(d.Delivered? &&
               Success(Routes.ConfirmRoute(Routes.ApiState(c.store, keys), ConfirmKey(customerId, c.result.orderId),
                                           c.result.orderId, fault).reply))
    ensures c.result.orderId != 0
    ensures c.result.orderId in c.store.orders && c.store.orders[c.result.orderId].status == Ledger.Created
    ensures var confirmed := Routes.ConfirmRoute(Routes.ApiState(c.store, keys), ConfirmKey(customerId, c.result.orderId),
                                                 c.result.orderId, fault);
      var mid := Reached(d, Routes.ApiState(c.store, keys), confirmed.state).ledger;
      && (d.Delivered? ==> confirmed.reply.status == 500)
      && (mid == c.store || mid == Routes.MarkConfirmed(c.store, c.result.orderId))
  {
    Ledger.CreateAddsOneOrder(s, lookup, customerId, items);
    var id := c.result.orderId;
    ConfirmOfNewOrder(Routes.ApiState(c.store, keys), ConfirmKey(customerId, id), id, fault);
  }

  /** The cancel of the new order, CREATED or CONFIRMED, gives back every
      stock and leaves it CANCELED. */
  lemma CancelRestores(s: Ledger.Store, lookup: Ledger.CustomerLookup, customerId: int,
                       items: seq<Ledger.ItemRequest>, c: Ledger.Commit<Ledger.Placed>, mid: Ledger.Store)
    requires Ledger.Valid(s)
    requires Ledger.CreateOrder(s, lookup, customerId, items) == Ok(c)
    requires c.result.orderId in c.store.orders && c.store.orders[c.result.orderId].status == Ledger.Created
    requires mid == c.store || mid == Routes.MarkConfirmed(c.store, c.result.orderId)
    ensures Restored(s, Routes.CancelRoute(mid, c.result.orderId).state)
  {
    Ledger.CreateAddsOneOrder(s, lookup, customerId, items);
    Ledger.CancelAfterCreateRestoresStock(s, lookup, customerId, items);
    var id := c.result.orderId;
    if mid != c.store {
      CancelAfterConfirmation(c.store, id);
    }
    var after := Routes.CancelRoute(mid, id).state;
    assert after.orders.Keys == s.orders.Keys + {id};
    assert after.orders[id].status == Ledger.Canceled;
  }

  /** The ledger side of a failed confirm: whatever the confirm did, the
      cancel gives back every stock and leaves the order CANCELED. */
  lemma CompensationRestores(s: Ledger.Store, lookup: Ledger.CustomerLookup, customerId: int,
                             items: seq<Ledger.ItemRequest>, c: Ledger.Commit<Ledger.Placed>,
                             keys: Idempotency.Table, fault: Routes.Fault, d: Delivery)
    requires Ledger.Valid(s)
    requires Ledger.CreateOrder(s, lookup, customerId, items) == Ok(c)
    requires ConfirmKey(customerId, s.nextOrderId) !in keys
    requires !(d.Delivered? &&
               Success(Routes.ConfirmRoute(Routes.ApiState(c.store, keys), ConfirmKey(customerId, c.result.orderId),
                                           c.result.orderId, fault).reply))
    ensures c.result.orderId != 0
    ensures var confirmed := Routes.ConfirmRoute(Routes.ApiState(c.store, keys), ConfirmKey(customerId, c.result.orderId),
                                                 c.result.orderId, fault);
      var mid := Reached(d, Routes.ApiState(c.store, keys), confirmed.state).ledger;
      && (d.Delivered? ==> confirmed.reply.status == 500)
      && Restored(s, Routes.CancelRoute(mid, c.result.orderId).state)
  {
    var id := c.result.orderId;
    var confirmed := Routes.ConfirmRoute(Routes.ApiState(c.store, keys), ConfirmKey(customerId, id), id, fault);
    FailedConfirmLeaves(s, lookup, customerId, items, c, keys, fault, d);
    CancelRestores(s, lookup, customerId, items, c, Reached(d, Routes.ApiState(c.store, keys), confirmed.state).ledger);
  }

  /** The ledger side of a successful confirm: the new order, and only
      it, is added, and it is CONFIRMED. */
  lemma ConfirmationLands(s: Ledger.Store, lookup: Ledger.CustomerLookup, customerId: int,
                          items: seq<Ledger.ItemRequest>, c: Ledger.Commit<Ledger.Placed>,
                          keys: Idempotency.Table, fault: Routes.Fault)
    requires Ledger.Valid(s)
    requires Ledger.CreateOrder(s, lookup, customerId, items) == Ok(c)
    requires ConfirmKey(customerId, s.nextOrderId) !in keys
    requires Success(Routes.ConfirmRoute(Routes.ApiState(c.store, keys), ConfirmKey(customerId, c.result.orderId),
                                         c.result.orderId, fault).reply)
    ensures c.result.orderId == s.nextOrderId
    ensures ConfirmedOne(s, Routes.ConfirmRoute(Routes.ApiState(c.store, keys), ConfirmKey(customerId, c.result.orderId),
                                                c.result.orderId, fault).state.ledger)
  {
    Ledger.CreateAddsOneOrder(s, lookup, customerId, items);
    var id := c.result.orderId;
    ConfirmOfNewOrder(Routes.ApiState(c.store, keys), ConfirmKey(customerId, id), id, fault);
  }

  /** The create succeeded and so did the confirm: a 200, and one new
      order, CONFIRMED. */
  lemma CreateThenConfirm(t: Transport, cache: Cache<Response>, api: Routes.ApiState, event: Event,
                          lookup: Ledger.CustomerLookup, fault: Routes.Fault, net: Network, c: Ledger.Commit<Ledger.Placed>)
    requires Ready(api, event) && Admitted(event) && KeyOf(event) !in cache
    requires net.create.Delivered? && net.confirm.Delivered?
    requires Routes.WellFormed(Routes.CreateRequest(event.customerId.value, event.items.value))
    requires Ledger.CreateOrder(api.ledger, lookup, event.customerId.value, event.items.value) == Ok(c)
    requires Success(Routes.ConfirmRoute(api.(ledger := c.store), ConfirmKey(event.customerId.value, c.result.orderId),
                                         c.result.orderId, fault).reply)
    ensures var (run, api') := PlaceOrder(t, cache, api, event, lookup, fault, net);
      run.response.statusCode == 200 && ConfirmedOne(api.ledger, api'.ledger)
  {
    var confirmed := Routes.ConfirmRoute(api.(ledger := c.store), ConfirmKey(event.customerId.value, c.result.orderId),
                                         c.result.orderId, fault);
    PlaceOrderConfirmed(t, cache, api, event, lookup, fault, net, c);
    ConfirmationLands(api.ledger, lookup, event.customerId.value, event.items.value, c, api.keys, fault);
    ConfirmedAnswers200(t, cache, event, c.result.orderId, confirmed.reply);
  }

  /** A run whose confirm got a 2xx reply answers 200. */
  lemma ConfirmedAnswers200(t: Transport, cache: Cache<Response>, event: Event, id: int, reply: Responses.Reply)
    requires Admitted(event) && KeyOf(event) !in cache && Success(reply)
    ensures Handle(cache, event, Succeeded(CreatedOrder(id)), ConfirmOutcome(t, reply), Failed(NotCalled)).response.statusCode == 200
  {
  }

  /** A run whose confirm threw answers 500 with the confirm route's fixed
      message as its reason. */
  lemma ThrownConfirmReported(t: Transport, cache: Cache<Response>, event: Event, id: int, message: string,
                              cancel: Outcome<()>)
    requires Admitted(event) && KeyOf(event) !in cache
    ensures var confirm := Received(Delivered, ConfirmOutcome(t, Responses.Reply(500, Responses.ConfirmFailed(message))));
      Handle(cache, event, Succeeded(CreatedOrder(id)), confirm, cancel).response
        == Response(500, OrchestrationFailed(FailurePrefix + "Error confirming order", t.failureMessage(500)))
  {
    var confirm := Received(Delivered, ConfirmOutcome(t, Responses.Reply(500, Responses.ConfirmFailed(message))));
    assert Reason(confirm.err) == "Error confirming order";
  }

  /** The create succeeded and the confirm failed: a 500, and, unless the
      cancel was lost before it reached the service, nothing left. */
  lemma CreateThenCompensate(t: Transport, cache: Cache<Response>, api: Routes.ApiState, event: Event,
                             lookup: Ledger.CustomerLookup, fault: Routes.Fault, net: Network, c: Ledger.Commit<Ledger.Placed>)
    requires Ready(api, event) && Admitted(event) && KeyOf(event) !in cache
    requires net.create.Delivered?
    requires Routes.WellFormed(Routes.CreateRequest(event.customerId.value, event.items.value))
    requires Ledger.CreateOrder(api.ledger, lookup, event.customerId.value, event.items.value) == Ok(c)
    requires !(net.confirm.Delivered? &&
               Success(Routes.ConfirmRoute(api.(ledger := c.store), ConfirmKey(event.customerId.value, c.result.orderId),
                                           c.result.orderId, fault).reply))
    ensures var (run, api') := PlaceOrder(t, cache, api, event, lookup, fault, net);
      && run.response.statusCode == 500
      && (!net.cancel.LostBefore? ==> Restored(api.ledger, api'.ledger))
  {
    var customerId := event.customerId.value;
    var id := c.result.orderId;
    var confirmed := Routes.ConfirmRoute(api.(ledger := c.store), ConfirmKey(customerId, id), id, fault);
    CompensationRestores(api.ledger, lookup, customerId, event.items.value, c, api.keys, fault, net.confirm);
    PlaceOrderCompensated(t, cache, api, event, lookup, fault, net, c);
    assert StatusOf(Received(net.confirm, ConfirmOutcome(t, confirmed.reply)).err) == 500;
  }

  /** The create succeeded: the confirm either confirms the new order with
      a 200, or fails and the cancel restores every stock. */
  lemma CreateSucceedsCase(t: Transport, cache: Cache<Response>, api: Routes.ApiState, event: Event,
                           lookup: Ledger.CustomerLookup, fault: Routes.Fault, net: Network)
    requires Ready(api, event) && Admitted(event) && KeyOf(event) !in cache
    requires Received(net.create, CreateOutcome(t, Routes.CreateRoute(api.ledger, lookup,
               Routes.CreateRequest(event.customerId.value, event.items.value)).reply)).Succeeded?
    ensures var (run, api') := PlaceOrder(t, cache, api, event, lookup, fault, net);
      && (run.response.statusCode == 200 ==> ConfirmedOne(api.ledger, api'.ledger))
      && (run.response.statusCode != 200 && !net.cancel.LostBefore? ==> Restored(api.ledger, api'.ledger))
  {
    assert net.create.Delivered?;
    CreateStep(t, api, event, lookup);
    var c := Ledger.CreateOrder(api.ledger, lookup, event.customerId.value, event.items.value).value;
    var confirmed := Routes.ConfirmRoute(api.(ledger := c.store), ConfirmKey(event.customerId.value, c.result.orderId),
                                         c.result.orderId, fault);
    assert Routes.WellFormed(Routes.CreateRequest(event.customerId.value, event.items.value));
    if net.confirm.Delivered? && Success(confirmed.reply) {
      CreateThenConfirm(t, cache, api, event, lookup, fault, net, c);
    } else {
      CreateThenCompensate(t, cache, api, event, lookup, fault, net, c);
    }
  }

  /** All or nothing across services. A saga that answers 200 after
      calling out has created exactly one order, and that order is
      CONFIRMED. A saga that does not answer 200 leaves every product's
      stock as it found it and every order it created CANCELED, as long as
      no create reply was lost after the commit and the compensating cancel
      reached the service; `LostCreateReplyStrandsStock` and
      `LostCancelStrandsStock` show each of those losses breaking it. */
  lemma SagaIsAllOrNothing(t: Transport, cache: Cache<Response>, api: Routes.ApiState, event: Event,
                           lookup: Ledger.CustomerLookup, fault: Routes.Fault, net: Network)
    requires Ready(api, event)
    ensures var (run, api') := PlaceOrder(t, cache, api, event, lookup, fault, net);
      && (run.response.statusCode == 200 && run.calls != [] ==> ConfirmedOne(api.ledger, api'.ledger))
      && (run.response.statusCode != 200 && Compensable(net) ==> Restored(api.ledger, api'.ledger))
  {
    if Admitted(event) && KeyOf(event) !in cache {
      var created := Routes.CreateRoute(api.ledger, lookup,
                       Routes.CreateRequest(event.customerId.value, event.items.value));
      if Received(net.create, CreateOutcome(t, created.reply)).Failed? {
        CreateFailsCase(t, cache, api, event, lookup, fault, net);
      } else {
        CreateSucceedsCase(t, cache, api, event, lookup, fault, net);
      }
    }
  }

  /** A create the ledger refuses (an unknown product, short stock) reaches
      the caller with the create route's 400 and the ledger's own message
      as the reason, and nothing is changed. */
  lemma RefusalIsReported(t: Transport, cache: Cache<Response>, api: Routes.ApiState, event: Event,
                          lookup: Ledger.CustomerLookup, fault: Routes.Fault, net: Network)
    requires Admitted(event) && KeyOf(event) !in cache && net.create.Delivered?
    requires Routes.WellFormed(Routes.CreateRequest(event.customerId.value, event.items.value))
    requires lookup.CustomerFound?
    requires Ledger.CreateOrder(api.ledger, lookup, event.customerId.value, event.items.value).Err?
    ensures var (run, api') := PlaceOrder(t, cache, api, event, lookup, fault, net);
      var e := Ledger.CreateOrder(api.ledger, lookup, event.customerId.value, event.items.value).error;
      && run.response == Response(400, OrchestrationFailed(FailurePrefix + Ledger.Message(e), t.failureMessage(400)))
      && run.calls == [CreateCall(event.customerId.value, event.items.value)]
      && api' == api
  {
    var items := event.items.value;
    var e := Ledger.CreateOrder(api.ledger, lookup, event.customerId.value, items).error;
    var i :| Ledger.FirstRejected(api.ledger.products, items, i) && e == Ledger.Rejection(api.ledger.products, items[i]);
    var m := Ledger.Message(e);
    assert m != "";
    var reply := Responses.Reply(400, Responses.ErrorText(m));
    assert Routes.CreateRoute(api.ledger, lookup, Routes.CreateRequest(event.customerId.value, items))
        == Routes.Handled(reply, api.ledger);
    assert Received(net.create, CreateOutcome(t, reply)) == Failed(Failure(t, reply));
    ReasonIsErrorText(t, 400, m);
  }

  /** A failure whose body is an error text quotes that text as its reason. */
  lemma ReasonIsErrorText(t: Transport, status: int, m: string)
    requires m != "" && !(200 <= status < 300)
    ensures FailureResponse(Failure(t, Responses.Reply(status, Responses.ErrorText(m))))
         == Response(status, OrchestrationFailed(FailurePrefix + m, t.failureMessage(status)))
  {
  }

  /** A confirm that throws inside the orders service reaches the caller
      as a 500 whose reason is the confirm route's fixed message, with the
      order canceled behind it. */
  lemma ConfirmThrewIsReported(t: Transport, cache: Cache<Response>, api: Routes.ApiState, event: Event,
                               lookup: Ledger.CustomerLookup, fault: Routes.Fault, net: Network,
                               c: Ledger.Commit<Ledger.Placed>)
    requires Ready(api, event) && Admitted(event) && KeyOf(event) !in cache
    requires net.create.Delivered? && net.confirm.Delivered? && fault != Routes.NoFault
    requires Routes.WellFormed(Routes.CreateRequest(event.customerId.value, event.items.value))
    requires Ledger.CreateOrder(api.ledger, lookup, event.customerId.value, event.items.value) == Ok(c)
    ensures var (run, api') := PlaceOrder(t, cache, api, event, lookup, fault, net);
      run.response == Response(500, OrchestrationFailed(FailurePrefix + "Error confirming order", t.failureMessage(500)))
  {
    var customerId := event.customerId.value;
    var id := c.result.orderId;
    Ledger.CreateAddsOneOrder(api.ledger, lookup, customerId, event.items.value);
    var confirmed := Routes.ConfirmRoute(api.(ledger := c.store), ConfirmKey(customerId, id), id, fault);
    assert confirmed.reply == Responses.Reply(500, Responses.ConfirmFailed(fault.message));
    PlaceOrderCompensated(t, cache, api, event, lookup, fault, net, c);
    var canceled := Routes.CancelRoute(confirmed.state.ledger, id);
    ThrownConfirmReported(t, cache, event, id, fault.message, Received(net.cancel, CancelOutcome(t, canceled.reply)));
  }

  /** A request repeated after a successful saga is answered from the cache:
      no call is made and the orders service is not touched, so no second
      order is created. */
  lemma RetryAfterSuccessCreatesNothing(t: Transport, cache: Cache<Response>, api: Routes.ApiState, event: Event,
                                        lookup: Ledger.CustomerLookup, fault: Routes.Fault, net: Network,
                                        lookup': Ledger.CustomerLookup, fault': Routes.Fault, net': Network)
    requires PlaceOrder(t, cache, api, event, lookup, fault, net).0.cache != cache
    ensures var (first, api1) := PlaceOrder(t, cache, api, event, lookup, fault, net);
      var (second, api2) := PlaceOrder(t, first.cache, api1, event, lookup', fault', net');
      && second.response == first.response
      && second.calls == []
      && api2 == api1
  {
    var (first, api1) := PlaceOrder(t, cache, api, event, lookup, fault, net);
    assert Admitted(event) && KeyOf(event) in first.cache && first.cache[KeyOf(event)] == first.response;
  }

  /** The saga cache is an in-memory object of one execution environment.
      The same request after a successful saga, handled by a fresh instance
      whose cache is empty, calls the orders service again, and if it
      answers 200 it has confirmed a second order. */
  lemma FreshInstanceCreatesAgain(t: Transport, cache: Cache<Response>, api: Routes.ApiState, event: Event,
                                  lookup: Ledger.CustomerLookup, fault: Routes.Fault, net: Network,
                                  lookup': Ledger.CustomerLookup, fault': Routes.Fault, net': Network)
    requires PlaceOrder(t, cache, api, event, lookup, fault, net).0.cache != cache
    ensures var (first, api1) := PlaceOrder(t, cache, api, event, lookup, fault, net);
      var (second, api2) := PlaceOrder(t, map[], api1, event, lookup', fault', net');
      && second.calls != []
      && second.calls[0] == CreateCall(event.customerId.value, event.items.value)
      && (Ready(api1, event) && second.response.statusCode == 200 ==> ConfirmedOne(api1.ledger, api2.ledger))
  {
    var (first, api1) := PlaceOrder(t, cache, api, event, lookup, fault, net);
    CachedRunWasAdmitted(t, cache, api, event, lookup, fault, net);
    EmptyCacheCallsCreate(t, api1, event, lookup', fault', net');
    if Ready(api1, event) {
      SagaIsAllOrNothing(t, map[], api1, event, lookup', fault', net');
    }
  }

  /** Only an admitted request is ever cached. */
  lemma CachedRunWasAdmitted(t: Transport, cache: Cache<Response>, api: Routes.ApiState, event: Event,
                             lookup: Ledger.CustomerLookup, fault: Routes.Fault, net: Network)
    requires PlaceOrder(t, cache, api, event, lookup, fault, net).0.cache != cache
    ensures Admitted(event)
  {
  }

  /** With an empty cache an admitted request always starts with the create
      call. */
  lemma EmptyCacheCallsCreate(t: Transport, api: Routes.ApiState, event: Event,
                              lookup: Ledger.CustomerLookup, fault: Routes.Fault, net: Network)
    requires Admitted(event)
    ensures var run := PlaceOrder(t, map[], api, event, lookup, fault, net).0;
      run.calls != [] && run.calls[0] == CreateCall(event.customerId.value, event.items.value)
  {
    var customerId := event.customerId.value;
    var created := Routes.CreateRoute(api.ledger, lookup, Routes.CreateRequest(customerId, event.items.value));
    var create := Received(net.create, CreateOutcome(t, created.reply));
    if create.Succeeded? {
      var api1 := api.(ledger := Reached(net.create, api.ledger, created.state));
      var confirmed := Routes.ConfirmRoute(api1, ConfirmKey(customerId, create.data.id), create.data.id, fault);
      var confirm := Received(net.confirm, ConfirmOutcome(t, confirmed.reply));
      HandleStartsWithCreate(map[], event, create, confirm);
    }
  }

  /** A run that gets past the cache calls create first, whatever the
      compensation does. */
  lemma HandleStartsWithCreate(cache: Cache<Response>, event: Event, create: Outcome<CreatedOrder>,
                               confirm: Outcome<ConfirmData>)
    requires Admitted(event) && KeyOf(event) !in cache
    ensures forall cancel: Outcome<()> {:trigger Handle(cache, event, create, confirm, cancel)} ::
      var run := Handle(cache, event, create, confirm, cancel);
      run.calls != [] && run.calls[0] == CreateCall(event.customerId.value, event.items.value)
  {
  }

  /** The failed-confirm scenario: customer 7 orders two units of product 1
      (stock 5, 500 cents each); the create succeeds and the confirm throws.
      The caller gets the confirm's 500, the handler cancels the order, the
      stock is back at 5 and the order ends CANCELED. */
  lemma ConfirmFailureScenario(t: Transport, message: string)
    ensures var ledger := Ledger.Store(map[1 := Ledger.Product(500, 5)], map[], map[], 1);
      var event := Parsed(Some(7), Some([Ledger.ItemRequest(1, 2)]));
      var (run, api') := PlaceOrder(t, map[], Routes.ApiState(ledger, map[]), event,
                                    Ledger.CustomerFound, Routes.ReadFails(message), Reliable);
      && run.response.statusCode == 500
      && run.calls == [CreateCall(7, [Ledger.ItemRequest(1, 2)]), ConfirmCall(1, ConfirmKey(7, 1)), CancelCall(1)]
      && 1 in api'.ledger.products && api'.ledger.products[1].stock == 5
      && 1 in api'.ledger.orders && api'.ledger.orders[1].status == Ledger.Canceled
  {
    var ledger := Ledger.Store(map[1 := Ledger.Product(500, 5)], map[], map[], 1);
    var items := [Ledger.ItemRequest(1, 2)];
    var event := Parsed(Some(7), Some(items));
    var api := Routes.ApiState(ledger, map[]);
    var fault := Routes.ReadFails(message);
    var c := ScenarioCompensation(message);
    PlaceOrderCompensated(t, map[], api, event, Ledger.CustomerFound, fault, Reliable, c);
    var confirmed := Routes.ConfirmRoute(Routes.ApiState(c.store, map[]), ConfirmKey(7, 1), 1, fault);
    var canceled := Routes.CancelRoute(confirmed.state.ledger, 1);
    var run := Handle(map[], event, Succeeded(CreatedOrder(1)), ConfirmOutcome(t, confirmed.reply),
                      CancelOutcome(t, canceled.reply));
    ScenarioRun(t, confirmed.reply, CancelOutcome(t, canceled.reply));
    assert PlaceOrder(t, map[], api, event, Ledger.CustomerFound, fault, Reliable) == (run, confirmed.state.(ledger := canceled.state));
  }

  /** The handler side of the failed-confirm scenario: a confirm answered
      500 gives a 500 run that calls create, confirm and cancel. */
  lemma ScenarioRun(t: Transport, reply: Responses.Reply, cancel: Outcome<()>)
    requires reply.status == 500
    ensures var items := [Ledger.ItemRequest(1, 2)];
      var run := Handle(map[], Parsed(Some(7), Some(items)), Succeeded(CreatedOrder(1)), ConfirmOutcome(t, reply), cancel);
      && run.response.statusCode == 500
      && run.calls == [CreateCall(7, items), ConfirmCall(1, ConfirmKey(7, 1)), CancelCall(1)]
  {
  }

  /** The ledger side of the failed-confirm scenario: the create commits
      order 1, the confirm answers 500 and leaves it alone, and its cancel
      restores the stock. */
  lemma ScenarioCompensation(message: string) returns (c: Ledger.Commit<Ledger.Placed>)
    ensures var ledger := Ledger.Store(map[1 := Ledger.Product(500, 5)], map[], map[], 1);
      var items := [Ledger.ItemRequest(1, 2)];
      var confirmed := Routes.ConfirmRoute(Routes.ApiState(c.store, map[]), ConfirmKey(7, 1), 1, Routes.ReadFails(message));
      && Routes.WellFormed(Routes.CreateRequest(7, items))
      && Ledger.CreateOrder(ledger, Ledger.CustomerFound, 7, items) == Ok(c)
      && c.result.orderId == 1
      && confirmed.reply.status == 500
      && confirmed.state.ledger == c.store
      && Restored(ledger, Routes.CancelRoute(c.store, 1).state)
  {
    var ledger := Ledger.Store(map[1 := Ledger.Product(500, 5)], map[], map[], 1);
    var items := [Ledger.ItemRequest(1, 2)];
    Ledger.CreateScenarios();
    c := Ledger.CreateOrder(ledger, Ledger.CustomerFound, 7, items).value;
    assert Routes.WellFormed(Routes.CreateRequest(7, items));
    CompensationRestores(ledger, Ledger.CustomerFound, 7, items, c, map[], Routes.ReadFails(message), Delivered);
  }

  /** The first loss the saga cannot undo: in the same order, the create
      commits but its reply is lost. The handler has no order id, so it
      cancels nothing and answers 500, and the two units stay reserved
      under a CREATED order. */
  lemma LostCreateReplyStrandsStock(t: Transport, lost: string)
    ensures var ledger := Ledger.Store(map[1 := Ledger.Product(500, 5)], map[], map[], 1);
      var event := Parsed(Some(7), Some([Ledger.ItemRequest(1, 2)]));
      var (run, api') := PlaceOrder(t, map[], Routes.ApiState(ledger, map[]), event, Ledger.CustomerFound,
                                    Routes.NoFault, Network(LostAfter(lost), Delivered, Delivered));
      && run.response == Response(500, OrchestrationFailed(FailurePrefix + DefaultReason, lost))
      && run.calls == [CreateCall(7, [Ledger.ItemRequest(1, 2)])]
      && 1 in api'.ledger.products && api'.ledger.products[1].stock == 3
      && 1 in api'.ledger.orders && api'.ledger.orders[1].status == Ledger.Created
      && !Restored(ledger, api'.ledger)
  {
    var ledger := Ledger.Store(map[1 := Ledger.Product(500, 5)], map[], map[], 1);
    var items := [Ledger.ItemRequest(1, 2)];
    Ledger.CreateScenarios();
    var c := Ledger.CreateOrder(ledger, Ledger.CustomerFound, 7, items).value;
    assert Routes.WellFormed(Routes.CreateRequest(7, items));
    assert Routes.CreateRoute(ledger, Ledger.CustomerFound, Routes.CreateRequest(7, items)).state == c.store;
  }

  /** The second: the confirm throws, and the compensating cancel is lost
      before it reaches the orders service. The handler logs the failure
      and answers the confirm's 500, but the two units stay reserved under
      a CREATED order. */
  lemma LostCancelStrandsStock(t: Transport, message: string, lost: string)
    ensures var ledger := Ledger.Store(map[1 := Ledger.Product(500, 5)], map[], map[], 1);
      var event := Parsed(Some(7), Some([Ledger.ItemRequest(1, 2)]));
      var (run, api') := PlaceOrder(t, map[], Routes.ApiState(ledger, map[]), event, Ledger.CustomerFound,
                                    Routes.ReadFails(message), Network(Delivered, Delivered, LostBefore(lost)));
      && run.response.statusCode == 500
      && run.calls == [CreateCall(7, [Ledger.ItemRequest(1, 2)]), ConfirmCall(1, ConfirmKey(7, 1)), CancelCall(1)]
      && run.compensationError == Some(lost)
      && 1 in api'.ledger.products && api'.ledger.products[1].stock == 3
      && 1 in api'.ledger.orders && api'.ledger.orders[1].status == Ledger.Created
      && !Restored(ledger, api'.ledger)
  {
    var ledger := Ledger.Store(map[1 := Ledger.Product(500, 5)], map[], map[], 1);
    var items := [Ledger.ItemRequest(1, 2)];
    var event := Parsed(Some(7), Some(items));
    var api := Routes.ApiState(ledger, map[]);
    var fault := Routes.ReadFails(message);
    var net := Network(Delivered, Delivered, LostBefore(lost));
    Ledger.CreateScenarios();
    var c := Ledger.CreateOrder(ledger, Ledger.CustomerFound, 7, items).value;
    assert Routes.WellFormed(Routes.CreateRequest(7, items));
    var confirmed := Routes.ConfirmRoute(Routes.ApiState(c.store, map[]), ConfirmKey(7, 1), 1, fault);
    assert confirmed.reply.status == 500 && confirmed.state.ledger == c.store;
    PlaceOrderCompensated(t, map[], api, event, Ledger.CustomerFound, fault, net, c);
  }
}
