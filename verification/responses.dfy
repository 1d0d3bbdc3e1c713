/** The JSON bodies the orders service answers with, one constructor per
    shape, and a reply: an HTTP status code with its body. */
module Responses {
  import Ledger

  datatype Body =
    | EmptyObject
      // {}
    | ErrorText(message: string)
      // { message }
    | ValidationFailed
      // { message: 'Validation failed', errors }
    | OrderCreated(orderId: int, customerId: int, totalCents: int, lines: seq<Ledger.OrderLine>)
      // { message, order: { id, customer_id, status: 'CREATED', total_cents, items } }
    | ConfirmMissing(orderId: int)
      // { id, message: 'Order not found.' }
    | AlreadyConfirmed(orderId: int)
      // { id, status: 'CONFIRMED', message: 'Order was already confirmed.' }
    | ConfirmRefused(orderId: int)
      // { id, status: 'CANCELED', message: 'Cannot confirm a canceled order.' }
    | ConfirmDone(orderId: int, totalCents: int)
      // { id, status: 'CONFIRMED', total_cents }
    | ConfirmFailed(error: string)
      // { message: 'Error confirming order', error }
    | CancelDone(message: string, status: Ledger.Status)
      // { message, status }

  datatype Reply = Reply(status: int, body: Body)
}
