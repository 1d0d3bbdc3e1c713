/** The order routes of the orders service: create, confirm and cancel.
    Each request is one atomic step over the service's durable state and
    yields a reply with the state it leaves. */
module Routes {
  import opened Basics
  import opened Ledger
  import opened Responses
  import opened Idempotency

  /** The orders service's durable state: the ledger tables and the
      idempotency table. */
  datatype ApiState = ApiState(ledger: Store, keys: Table)

  /** A request handled: the reply sent and the state left behind. */
  datatype Handled<S> = Handled(reply: Reply, state: S)

  // ---------------------------------------------------------------------
  // POST /orders

  /** The body of a create request. */
  datatype CreateRequest = CreateRequest(customerId: int, items: seq<ItemRequest>)

  /** The request schema: a positive customer id and at least one item,
      each with a positive product id and a positive quantity. */
  predicate WellFormed(req: CreateRequest) {
    && req.customerId > 0
    && |req.items| >= 1
    && forall i :: 0 <= i < |req.items| ==> req.items[i].productId > 0 && req.items[i].qty > 0
  }

  /** The create route's status for a failed transaction: 400 when the
      message mentions stock or a missing record, 500 otherwise. */
  function CreateErrorStatus(message: string): int {
    if Contains(message, "stock") || Contains(message, "not found") then 400 else 500
  }

  function CreateRoute(s: Store, lookup: CustomerLookup, req: CreateRequest): (r: Handled<Store>)
    ensures !WellFormed(req) ==> r == Handled(Reply(400, ValidationFailed), s)
    ensures r.reply.status == 201 <==> WellFormed(req) && CreateOrder(s, lookup, req.customerId, req.items).Ok?
    ensures r.reply.status != 201 ==> r.state == s
    ensures r.reply.status == 201 ==>
      var c := CreateOrder(s, lookup, req.customerId, req.items).value;
      && r.state == c.store
      && r.reply.body == OrderCreated(c.result.orderId, req.customerId, c.result.totalCents, c.result.lines)
    ensures WellFormed(req) && lookup.CustomerFound? && r.reply.status != 201 ==>
      r.reply == Reply(400, ErrorText(Message(CreateOrder(s, lookup, req.customerId, req.items).error)))
    ensures WellFormed(req) && lookup.LookupFailed? ==>
      r == Handled(Reply(CreateErrorStatus(lookup.reason), ErrorText(lookup.reason)), s)
  {
    if !WellFormed(req) then Handled(Reply(400, ValidationFailed), s)
    else
      match CreateOrder(s, lookup, req.customerId, req.items)
      case Ok(c) =>
        Handled(Reply(201, OrderCreated(c.result.orderId, req.customerId, c.result.totalCents, c.result.lines)), c.store)
      case Err(e) =>
        assert lookup.CustomerFound? ==> !e.CustomerLookupFailed? by {
          if lookup.CustomerFound? {
            var i :| FirstRejected(s.products, req.items, i) && e == Rejection(s.products, req.items[i]);
          }
        }
        CreateRefusalStatus(e);
        Handled(Reply(CreateErrorStatus(Message(e)), ErrorText(Message(e))), s)
  }

  /** Every error the create transaction raises itself (a missing product,
      short stock) is the client's fault, 400; only a failed customer
      lookup is mapped by its own text. */
  lemma CreateRefusalStatus(e: LedgerError)
    ensures !e.CustomerLookupFailed? ==> CreateErrorStatus(Message(e)) == 400
    ensures e.CustomerLookupFailed? ==> CreateErrorStatus(Message(e)) == CreateErrorStatus(e.reason)
  {
  }

  // ---------------------------------------------------------------------
  // POST /orders/:id/confirm

  /** Where the confirm handler's body may throw, with the error message:
      the order read, or the status update. */
  datatype Fault = NoFault | ReadFails(message: string) | UpdateFails(message: string)

  /** The reply a confirm with `key` replays, if the table holds one. */
  function Replayed(t: Table, key: string): Option<Reply> {
    if key in t && Finalized(t[key]) then Some(Reply(t[key].status.value, StoredOrEmpty(t[key].body)))
    else None
  }

  /** The order with its status moved to CONFIRMED. */
  function MarkConfirmed(s: Store, orderId: int): Store
    requires orderId in s.orders
  {
    s.(orders := s.orders[orderId := s.orders[orderId].(status := Confirmed)])
  }

  /** Saves the response under the key and sends it. */
  function Finish(ledger: Store, keys: Table, key: string, orderId: int, status: int, body: Body): Handled<ApiState> {
    Handled(Reply(status, body), ApiState(ledger, Save(keys, key, orderId, body, status)))
  }

  /** The confirm handler. A key with a finalized record replays it and
      nothing else happens. Otherwise (the key now has a record) the order
      is read: missing gives 404, CONFIRMED gives 200 "already confirmed",
      CANCELED gives 400, CREATED becomes CONFIRMED with a 200; a thrown
      error gives 500. Every one of these responses is saved under the key
      before it is sent. */
  function ConfirmRoute(st: ApiState, key: string, orderId: int, fault: Fault): (r: Handled<ApiState>)
    ensures Replayed(st.keys, key).Some? ==> r == Handled(Replayed(st.keys, key).value, st)
    ensures Replayed(r.state.keys, key) == Some(r.reply)
    ensures r.state.keys.Keys == st.keys.Keys + {key}
    ensures forall k :: k in st.keys && k != key ==> r.state.keys[k] == st.keys[k]
    ensures Evolves(st.ledger, r.state.ledger)
    ensures r.state.ledger != st.ledger ==>
      && orderId in st.ledger.orders
      && st.ledger.orders[orderId].status == Created
      && r.state.ledger == MarkConfirmed(st.ledger, orderId)
      && r.reply == Reply(200, ConfirmDone(orderId, st.ledger.orders[orderId].totalCents))
    ensures Replayed(st.keys, key).None? && !fault.ReadFails? ==>
      && (orderId !in st.ledger.orders ==> r.reply == Reply(404, ConfirmMissing(orderId)))
      && (orderId in st.ledger.orders && st.ledger.orders[orderId].status == Confirmed ==>
            r.reply == Reply(200, AlreadyConfirmed(orderId)) && r.state.ledger == st.ledger)
      && (orderId in st.ledger.orders && st.ledger.orders[orderId].status == Canceled ==>
            r.reply == Reply(400, ConfirmRefused(orderId)) && r.state.ledger == st.ledger)
    ensures Replayed(st.keys, key).None? && fault != NoFault
            && (fault.ReadFails? || (orderId in st.ledger.orders && st.ledger.orders[orderId].status == Created)) ==>
      r.reply == Reply(500, ConfirmFailed(fault.message)) && r.state.ledger == st.ledger
    ensures Replayed(st.keys, key).None? && fault == NoFault && orderId in st.ledger.orders
            && st.ledger.orders[orderId].status == Created ==>
      && r.state.ledger == MarkConfirmed(st.ledger, orderId)
      && r.reply == Reply(200, ConfirmDone(orderId, st.ledger.orders[orderId].totalCents))
  {
    var checked := CheckKey(st.keys, key);
    match checked.check
    case Duplicate(status, body, _) =>
      Handled(Reply(status, body), st.(keys := checked.table))
    case Proceed =>
      var keys := checked.table;
      var ledger := st.ledger;
      if fault.ReadFails? then
        Finish(ledger, keys, key, orderId, 500, ConfirmFailed(fault.message))
      else if orderId !in ledger.orders then
        Finish(ledger, keys, key, orderId, 404, ConfirmMissing(orderId))
      else
        var order := ledger.orders[orderId];
        match order.status
        case Confirmed =>
          Finish(ledger, keys, key, orderId, 200, AlreadyConfirmed(orderId))
        case Canceled =>
          Finish(ledger, keys, key, orderId, 400, ConfirmRefused(orderId))
        case Created =>
          if fault.UpdateFails? then
            Finish(ledger, keys, key, orderId, 500, ConfirmFailed(fault.message))
          else
            Finish(MarkConfirmed(ledger, orderId), keys, key, orderId, 200, ConfirmDone(orderId, order.totalCents))
  }

  /** A repeat of any confirm with the same key, for whatever order id and
      whatever would go wrong this time, replays the first reply and
      changes nothing: the CREATED to CONFIRMED write happens at most once
      per key. */
  lemma ConfirmReplays(st: ApiState, key: string, orderId: int, fault: Fault, orderId': int, fault': Fault)
    ensures var first := ConfirmRoute(st, key, orderId, fault);
      ConfirmRoute(first.state, key, orderId', fault') == first
  {
  }

  /** Once an order is confirmed, a confirm under a different, unused key
      answers "already confirmed" and leaves the order alone. */
  lemma ConfirmUnderNewKey(st: ApiState, key: string, key': string, orderId: int)
    requires key !in st.keys && key' !in st.keys && key' != key
    requires orderId in st.ledger.orders && st.ledger.orders[orderId].status == Created
    ensures var first := ConfirmRoute(st, key, orderId, NoFault);
      var second := ConfirmRoute(first.state, key', orderId, NoFault);
      && first.reply.status == 200
      && second.reply == Reply(200, AlreadyConfirmed(orderId))
      && second.state.ledger == first.state.ledger
  {
  }

  // ---------------------------------------------------------------------
  // POST /orders/:id/cancel

  /** The cancel route's status for a failed transaction. */
  function CancelErrorStatus(message: string): int {
    if Contains(message, "not found") then 404 else 500
  }

  /** The one error the cancel transaction raises, a missing order, is a 404. */
  lemma CancelMissingStatus()
    ensures CancelErrorStatus(Message(OrderNotFound)) == 404
  {
  }

  function CancelRoute(s: Store, orderId: int): (r: Handled<Store>)
    ensures orderId !in s.orders ==> r == Handled(Reply(404, ErrorText("Order not found.")), s)
    ensures orderId in s.orders ==>
      var c := CancelOrder(s, orderId).value;
      r == Handled(Reply(200, CancelDone(c.result.message, Canceled)), c.store)
  {
    match CancelOrder(s, orderId)
    case Ok(c) => Handled(Reply(200, CancelDone(c.result.message, c.result.status)), c.store)
    case Err(e) =>
      CancelMissingStatus();
      Handled(Reply(CancelErrorStatus(Message(e)), ErrorText(Message(e))), s)
  }
}
