/** The stock and order ledger of the orders service: the all-or-nothing
    order-creation transaction and the stock-restoring cancellation.

    The database is an explicit `Store` value. A transaction is a function
    that returns `Ok` with the committed store, or `Err` with no store at
    all: the caller keeps the store it had, which is exactly the rollback. */
module Ledger {
  import opened Basics
  import opened Text

  datatype Status = Created | Confirmed | Canceled

  datatype Product = Product(priceCents: int, stock: int)

  datatype Order = Order(customerId: int, status: Status, totalCents: int)

  /** One entry of a create request: which product, how many. */
  datatype ItemRequest = ItemRequest(productId: int, qty: int)

  /** One `order_items` row, priced when the order was created and frozen. */
  datatype OrderLine = OrderLine(productId: int, qty: int, unitPriceCents: int, subtotalCents: int)

  /** The `products`, `orders` and `order_items` tables and the next value of
      the orders table's auto-increment counter. */
  datatype Store = Store(
    products: map<int, Product>,
    orders: map<int, Order>,
    lines: map<int, seq<OrderLine>>,
    nextOrderId: int)

  /** Order ids come from the auto-increment counter, and every item row
      belongs to an order. */
  predicate Valid(s: Store) {
    && 1 <= s.nextOrderId
    && (forall id :: id in s.orders ==> 1 <= id < s.nextOrderId)
    && s.lines.Keys <= s.orders.Keys
  }

  /** What the customers service answered when asked whether the customer
      exists: found, or a failed request carrying the HTTP client's message. */
  datatype CustomerLookup = CustomerFound | LookupFailed(reason: string)

  datatype LedgerError =
    | CustomerLookupFailed(reason: string)
    | ProductNotFound(productId: int)
    | InsufficientStock(productId: int, available: int, requested: int)
    | OrderNotFound

  /** The text of the error each failure throws. The stock check's and the
      missing-record texts carry the words the routes turn into statuses. */
  function Message(e: LedgerError): (m: string)
    ensures e.ProductNotFound? || e.OrderNotFound? ==> Contains(m, "not found")
    ensures e.InsufficientStock? ==> Contains(m, "stock")
    ensures e.CustomerLookupFailed? ==> m == e.reason
  {
    match e
    case CustomerLookupFailed(reason) => reason
    case ProductNotFound(pid) =>
      NotFoundWords("Product ID " + IntText(pid));
      "Product ID " + IntText(pid) + " not found."
    case InsufficientStock(pid, available, requested) =>
      StockWords(pid, available, requested);
      "Insufficient stock for Product ID " + IntText(pid) + ". Available: " + IntText(available)
      + ", Requested: " + IntText(requested) + "."
    case OrderNotFound =>
      LiteralWords();
      "Order not found."
  }

  /** A committed transaction: what it returns and the store it leaves. */
  datatype Commit<T> = Commit(result: T, store: Store)

  /** What a successful create returns. */
  datatype Placed = Placed(orderId: int, totalCents: int, lines: seq<OrderLine>)

  /** What a successful cancel returns. */
  datatype CancelReply = CancelReply(message: string, status: Status)

  const AlreadyCanceledText := "Order already canceled."
  const CanceledText := "Order successfully canceled and stock restored."

  // ---------------------------------------------------------------------
  // Stock check and pricing

  /** The item passes the stock check: its product exists and the stock as
      read is at least the quantity asked for. */
  predicate Available(products: map<int, Product>, item: ItemRequest) {
    item.productId in products && products[item.productId].stock >= item.qty
  }

  /** The error the stock check throws for an item that fails it. */
  function Rejection(products: map<int, Product>, item: ItemRequest): LedgerError
    requires !Available(products, item)
  {
    if item.productId !in products then ProductNotFound(item.productId)
    else InsufficientStock(item.productId, products[item.productId].stock, item.qty)
  }

  /** `i` is the first item, in request order, that fails the stock check. */
  predicate FirstRejected(products: map<int, Product>, items: seq<ItemRequest>, i: int) {
    && 0 <= i < |items|
    && !Available(products, items[i])
    && forall j :: 0 <= j < i ==> Available(products, items[j])
  }

  /** `line` is `item` priced at its product's current price. */
  predicate PricedFrom(products: map<int, Product>, item: ItemRequest, line: OrderLine) {
    && item.productId in products
    && line.productId == item.productId
    && line.qty == item.qty
    && line.unitPriceCents == products[item.productId].priceCents
    && line.subtotalCents == line.unitPriceCents * line.qty
  }

  /** The first loop of the create transaction: every item is checked
      against the stock as read (nothing has been decremented yet) and
      priced; the first failing item aborts. */
  function PriceItems(products: map<int, Product>, items: seq<ItemRequest>): (r: Result<seq<OrderLine>, LedgerError>)
    ensures r.Ok? <==> forall i :: 0 <= i < |items| ==> Available(products, items[i])
    ensures r.Ok? ==> |r.value| == |items|
    ensures r.Ok? ==> forall i :: 0 <= i < |items| ==> PricedFrom(products, items[i], r.value[i])
    ensures r.Err? ==> exists i :: FirstRejected(products, items, i) && r.error == Rejection(products, items[i])
  {
    if items == [] then Ok([])
    else
      var item := items[0];
      if !Available(products, item) then
        assert FirstRejected(products, items, 0);
        Err(Rejection(products, item))
      else
        var price := products[item.productId].priceCents;
        match PriceItems(products, items[1..])
        case Err(e) =>
          assert exists i :: FirstRejected(products, items, i) && e == Rejection(products, items[i]) by {
            var k :| FirstRejected(products, items[1..], k) && e == Rejection(products, items[1..][k]);
            assert FirstRejected(products, items, k + 1);
          }
          Err(e)
        case Ok(rest) =>
          Ok([OrderLine(item.productId, item.qty, price, price * item.qty)] + rest)
  }

  /** The order total: the sum of the line subtotals. */
  function Total(lines: seq<OrderLine>): int {
    if lines == [] then 0 else lines[0].subtotalCents + Total(lines[1..])
  }

  /** How many units of `pid` the request asks for, over all its items. */
  function Requested(items: seq<ItemRequest>, pid: int): int {
    if items == [] then 0
    else (if items[0].productId == pid then items[0].qty else 0) + Requested(items[1..], pid)
  }

  /** How many units of `pid` the order lines hold, over all lines. */
  function Reserved(lines: seq<OrderLine>, pid: int): int {
    if lines == [] then 0
    else (if lines[0].productId == pid then lines[0].qty else 0) + Reserved(lines[1..], pid)
  }

  lemma {:induction false} ReservedIsRequested(products: map<int, Product>, items: seq<ItemRequest>, lines: seq<OrderLine>, pid: int)
    requires |lines| == |items|
    requires forall i :: 0 <= i < |items| ==> PricedFrom(products, items[i], lines[i])
    ensures Reserved(lines, pid) == Requested(items, pid)
  {
    if items != [] {
      ReservedIsRequested(products, items[1..], lines[1..], pid);
    }
  }

  // ---------------------------------------------------------------------
  // Stock updates

  /** `UPDATE products SET stock = stock + delta WHERE id = pid`: no row
      changes when the product does not exist. */
  function AddStock(products: map<int, Product>, pid: int, delta: int): (r: map<int, Product>)
    ensures r.Keys == products.Keys
    ensures forall q :: q in products && q != pid ==> r[q] == products[q]
    ensures pid in products ==> r[pid] == products[pid].(stock := products[pid].stock + delta)
  {
    if pid in products then products[pid := products[pid].(stock := products[pid].stock + delta)] else products
  }

  /** The decrements of the create transaction, one update per line. */
  function Withdraw(products: map<int, Product>, lines: seq<OrderLine>): (r: map<int, Product>)
    ensures r.Keys == products.Keys
    ensures forall pid :: pid in products ==>
      r[pid] == products[pid].(stock := products[pid].stock - Reserved(lines, pid))
  {
    if lines == [] then products
    else Withdraw(AddStock(products, lines[0].productId, -lines[0].qty), lines[1..])
  }

  /** The increments of the cancel transaction, one update per item row. */
  function Restock(products: map<int, Product>, lines: seq<OrderLine>): (r: map<int, Product>)
    ensures r.Keys == products.Keys
    ensures forall pid :: pid in products ==>
      r[pid] == products[pid].(stock := products[pid].stock + Reserved(lines, pid))
  {
    if lines == [] then products
    else Restock(AddStock(products, lines[0].productId, lines[0].qty), lines[1..])
  }

  /** Putting back what was taken restores the products exactly. */
  lemma RestockUndoesWithdraw(products: map<int, Product>, lines: seq<OrderLine>)
    ensures Restock(Withdraw(products, lines), lines) == products
  {
    var r := Restock(Withdraw(products, lines), lines);
    assert forall pid :: pid in products ==> r[pid] == products[pid];
  }

  // ---------------------------------------------------------------------
  // createOrder

  /** The create transaction. The customer is looked up first; then every
      item is checked and priced; only if all pass is the order inserted as
      CREATED with the summed total, its item rows written and the stock
      decremented. */
  function CreateOrder(s: Store, lookup: CustomerLookup, customerId: int, items: seq<ItemRequest>): (r: Result<Commit<Placed>, LedgerError>)
    ensures lookup.LookupFailed? ==> r == Err(CustomerLookupFailed(lookup.reason))
    ensures lookup.CustomerFound? ==> (r.Ok? <==> forall i :: 0 <= i < |items| ==> Available(s.products, items[i]))
    ensures lookup.CustomerFound? && r.Err? ==>
      exists i :: FirstRejected(s.products, items, i) && r.error == Rejection(s.products, items[i])
    ensures r.Ok? ==> r.value.result.orderId == s.nextOrderId && r.value.store.nextOrderId == s.nextOrderId + 1
    ensures r.Ok? ==> |r.value.result.lines| == |items|
    ensures r.Ok? ==> forall i :: 0 <= i < |items| ==> PricedFrom(s.products, items[i], r.value.result.lines[i])
    ensures r.Ok? ==> r.value.result.totalCents == Total(r.value.result.lines)
    ensures r.Ok? ==> r.value.store.orders == s.orders[s.nextOrderId := Order(customerId, Created, r.value.result.totalCents)]
    ensures r.Ok? ==> r.value.store.lines == s.lines[s.nextOrderId := r.value.result.lines]
    ensures r.Ok? ==> r.value.store.products.Keys == s.products.Keys
    ensures r.Ok? ==> forall pid :: pid in s.products ==>
      r.value.store.products[pid] == s.products[pid].(stock := s.products[pid].stock - Requested(items, pid))
  {
    if lookup.LookupFailed? then Err(CustomerLookupFailed(lookup.reason))
    else
      var lines :- PriceItems(s.products, items);
      var total := Total(lines);
      var id := s.nextOrderId;
      var products := Withdraw(s.products, lines);
      assert forall pid :: pid in s.products ==> Reserved(lines, pid) == Requested(items, pid) by {
        forall pid | pid in s.products {
          ReservedIsRequested(s.products, items, lines, pid);
        }
      }
      Ok(Commit(Placed(id, total, lines),
                Store(products, s.orders[id := Order(customerId, Created, total)], s.lines[id := lines], id + 1)))
  }

  // ---------------------------------------------------------------------
  // cancelOrder

  /** The item rows of an order (none when it has none). */
  function LinesOf(s: Store, orderId: int): seq<OrderLine> {
    if orderId in s.lines then s.lines[orderId] else []
  }

  /** The cancel transaction: an unknown order fails; a CANCELED order is
      left as it is; otherwise every item row's quantity goes back to its
      product and the order becomes CANCELED. */
  function CancelOrder(s: Store, orderId: int): (r: Result<Commit<CancelReply>, LedgerError>)
    ensures r.Err? <==> orderId !in s.orders
    ensures r.Err? ==> r.error == OrderNotFound
    ensures r.Ok? ==> r.value.result.status == Canceled
    ensures orderId in s.orders && s.orders[orderId].status == Canceled ==>
      r == Ok(Commit(CancelReply(AlreadyCanceledText, Canceled), s))
    ensures orderId in s.orders && s.orders[orderId].status != Canceled ==>
      && r.Ok?
      && r.value.result.message == CanceledText
      && r.value.store.orders == s.orders[orderId := s.orders[orderId].(status := Canceled)]
      && r.value.store.lines == s.lines
      && r.value.store.nextOrderId == s.nextOrderId
      && r.value.store.products.Keys == s.products.Keys
      && forall pid :: pid in s.products ==>
           r.value.store.products[pid] == s.products[pid].(stock := s.products[pid].stock + Reserved(LinesOf(s, orderId), pid))
  {
    if orderId !in s.orders then Err(OrderNotFound)
    else
      var order := s.orders[orderId];
      match order.status
      case Canceled => Ok(Commit(CancelReply(AlreadyCanceledText, Canceled), s))
      case _ =>
        var products := Restock(s.products, LinesOf(s, orderId));
        Ok(Commit(CancelReply(CanceledText, Canceled),
                  s.(products := products, orders := s.orders[orderId := order.(status := Canceled)])))
  }

  // ---------------------------------------------------------------------
  // Properties

  /** A missing-record text ends in the words the routes look for. */
  lemma NotFoundWords(head: string)
    ensures Contains(head + " not found.", "not found")
  {
    LiteralWords();
    ContainsExtend(head, " not found.", "not found");
  }

  /** The stock-check text names its cause wherever the numbers fall. */
  lemma StockWords(pid: int, available: int, requested: int)
    ensures Contains("Insufficient stock for Product ID " + IntText(pid) + ". Available: " + IntText(available)
                     + ", Requested: " + IntText(requested) + ".", "stock")
  {
    LiteralWords();
    var head := "Insufficient stock for Product ID ";
    ContainsExtend(head, IntText(pid), "stock");
    ContainsExtend(head + IntText(pid), ". Available: ", "stock");
    ContainsExtend(head + IntText(pid) + ". Available: ", IntText(available), "stock");
    ContainsExtend(head + IntText(pid) + ". Available: " + IntText(available), ", Requested: ", "stock");
    ContainsExtend(head + IntText(pid) + ". Available: " + IntText(available) + ", Requested: ", IntText(requested), "stock");
    ContainsExtend(head + IntText(pid) + ". Available: " + IntText(available) + ", Requested: " + IntText(requested), ".", "stock");
  }

  /** Where the looked-for words sit inside the fixed parts of the texts. */
  lemma LiteralWords()
    ensures OccursAt(" not found.", "not found", 1)
    ensures OccursAt("Insufficient stock for Product ID ", "stock", 13)
    ensures OccursAt("Order not found.", "not found", 6)
  {
    var stock := "Insufficient stock for Product ID ";
    assert stock[13..18] == "stock" by {
      assert stock[13] == 's' && stock[14] == 't' && stock[15] == 'o' && stock[16] == 'c' && stock[17] == 'k';
    }
    assert " not found."[1..10] == "not found";
    assert "Order not found."[6..15] == "not found";
  }

  /** A successful create adds exactly one order, under a fresh id, and
      keeps the store valid. */
  lemma CreateAddsOneOrder(s: Store, lookup: CustomerLookup, customerId: int, items: seq<ItemRequest>)
    requires Valid(s)
    requires CreateOrder(s, lookup, customerId, items).Ok?
    ensures var c := CreateOrder(s, lookup, customerId, items).value;
      && c.result.orderId !in s.orders
      && c.store.orders.Keys == s.orders.Keys + {c.result.orderId}
      && |c.store.orders| == |s.orders| + 1
      && Valid(c.store)
  {
    var c := CreateOrder(s, lookup, customerId, items).value;
    var id := s.nextOrderId;
    var o := Order(customerId, Created, c.result.totalCents);
    assert c.store.orders == s.orders[id := o];
    assert id !in s.orders;
    assert c.store.orders.Keys == s.orders.Keys + {id};
  }

  /** Every stock is non-negative. */
  predicate StockNonNegative(products: map<int, Product>) {
    forall pid :: pid in products ==> products[pid].stock >= 0
  }

  /** No two items name the same product. */
  predicate DistinctProducts(items: seq<ItemRequest>) {
    forall i, j :: 0 <= i < j < |items| ==> items[i].productId != items[j].productId
  }

  lemma {:induction false} RequestedAbsent(items: seq<ItemRequest>, pid: int)
    requires forall i :: 0 <= i < |items| ==> items[i].productId != pid
    ensures Requested(items, pid) == 0
  {
    if items != [] {
      RequestedAbsent(items[1..], pid);
    }
  }

  /** With distinct products, each product is asked for at most by one item,
      so no more than its stock is asked for when every item passed. */
  lemma {:induction false} RequestedWithinStock(products: map<int, Product>, items: seq<ItemRequest>, pid: int)
    requires pid in products && products[pid].stock >= 0
    requires DistinctProducts(items)
    requires forall i :: 0 <= i < |items| ==> Available(products, items[i])
    ensures Requested(items, pid) <= products[pid].stock
  {
    if items != [] {
      if items[0].productId == pid {
        RequestedAbsent(items[1..], pid);
      } else {
        RequestedWithinStock(products, items[1..], pid);
      }
    }
  }

  /** When the items name distinct products, a successful create leaves no
      stock negative. */
  lemma DistinctItemsKeepStockNonNegative(s: Store, lookup: CustomerLookup, customerId: int, items: seq<ItemRequest>)
    requires StockNonNegative(s.products)
    requires DistinctProducts(items)
    requires CreateOrder(s, lookup, customerId, items).Ok?
    ensures StockNonNegative(CreateOrder(s, lookup, customerId, items).value.store.products)
  {
    forall pid | pid in s.products {
      RequestedWithinStock(s.products, items, pid);
    }
  }

  /** Because every item is checked against the stock as read, two items
      for the same product each pass on their own and together oversell:
      stock 5, two items of 3, and the stock ends at -1. */
  lemma DuplicateItemsOversell()
    ensures var s := Store(map[1 := Product(100, 5)], map[], map[], 1);
      var r := CreateOrder(s, CustomerFound, 7, [ItemRequest(1, 3), ItemRequest(1, 3)]);
      r.Ok? && r.value.store.products[1].stock == -1
  {
    var items := [ItemRequest(1, 3), ItemRequest(1, 3)];
    assert Requested(items, 1) == 6 by {
      assert items[1..] == [ItemRequest(1, 3)];
      assert items[1..][1..] == [];
    }
  }

  /** A cancel of the order a create just made puts every product's stock
      back where it was before the create. */
  lemma CancelAfterCreateRestoresStock(s: Store, lookup: CustomerLookup, customerId: int, items: seq<ItemRequest>)
    requires CreateOrder(s, lookup, customerId, items).Ok?
    ensures var c := CreateOrder(s, lookup, customerId, items).value;
      var k := CancelOrder(c.store, c.result.orderId);
      && k.Ok?
      && k.value.store.products == s.products
      && k.value.store.orders[c.result.orderId].status == Canceled
  {
    var c := CreateOrder(s, lookup, customerId, items).value;
    var k := CancelOrder(c.store, c.result.orderId);
    assert LinesOf(c.store, c.result.orderId) == c.result.lines;
    forall pid | pid in s.products
      ensures k.value.store.products[pid] == s.products[pid]
    {
      ReservedIsRequested(s.products, items, c.result.lines, pid);
    }
  }

  /** A second cancel of the same order changes nothing and returns the
      already-canceled reply. */
  lemma CancelTwiceIsNoOp(s: Store, orderId: int)
    requires CancelOrder(s, orderId).Ok?
    ensures var c := CancelOrder(s, orderId).value;
      CancelOrder(c.store, orderId) == Ok(Commit(CancelReply(AlreadyCanceledText, Canceled), c.store))
  {
  }

  // ---------------------------------------------------------------------
  // Status transitions

  /** The legal moves of an order's status: staying put, leaving CREATED,
      or going from CONFIRMED to CANCELED. */
  predicate CanMove(from: Status, to: Status) {
    from == to || from == Created || (from == Confirmed && to == Canceled)
  }

  /** `s'` is a legal successor of `s`: no order disappears, no status moves
      illegally, customers and totals stay, and written item rows never
      change. */
  predicate Evolves(s: Store, s': Store) {
    forall id :: id in s.orders ==>
      && id in s'.orders
      && CanMove(s.orders[id].status, s'.orders[id].status)
      && s'.orders[id].customerId == s.orders[id].customerId
      && s'.orders[id].totalCents == s.orders[id].totalCents
      && (id in s.lines ==> id in s'.lines && s'.lines[id] == s.lines[id])
  }

  lemma CanMoveIsPartialOrder(a: Status, b: Status, c: Status)
    ensures CanMove(a, a)
    ensures CanMove(a, b) && CanMove(b, a) ==> a == b
    ensures CanMove(a, b) && CanMove(b, c) ==> CanMove(a, c)
    ensures CanMove(a, Created) ==> a == Created
    ensures CanMove(Canceled, b) ==> b == Canceled
  {
  }

  lemma {:induction false} EvolvesTransitive(s1: Store, s2: Store, s3: Store)
    requires Evolves(s1, s2) && Evolves(s2, s3)
    ensures Evolves(s1, s3)
  {
    forall id | id in s1.orders
      ensures CanMove(s1.orders[id].status, s3.orders[id].status)
    {
      CanMoveIsPartialOrder(s1.orders[id].status, s2.orders[id].status, s3.orders[id].status);
    }
  }

  lemma CreateEvolves(s: Store, lookup: CustomerLookup, customerId: int, items: seq<ItemRequest>)
    requires Valid(s)
    requires CreateOrder(s, lookup, customerId, items).Ok?
    ensures Evolves(s, CreateOrder(s, lookup, customerId, items).value.store)
    ensures var s' := CreateOrder(s, lookup, customerId, items).value.store;
      && (forall id :: id in s.orders ==> id in s'.orders && s'.orders[id] == s.orders[id])
      && (forall id :: id in s.lines ==> id in s'.lines && s'.lines[id] == s.lines[id])
  {
  }

  lemma CancelEvolves(s: Store, orderId: int)
    requires CancelOrder(s, orderId).Ok?
    ensures Evolves(s, CancelOrder(s, orderId).value.store)
    ensures Valid(s) ==> Valid(CancelOrder(s, orderId).value.store)
  {
  }

  // ---------------------------------------------------------------------
  // The worked scenarios

  /** Customer 7 orders two units of product 1 (stock 5, 500 cents each):
      the order totals 1000 cents and the stock drops to 3. With stock 1 the
      create fails for insufficient stock. */
  lemma CreateScenarios()
    ensures var s := Store(map[1 := Product(500, 5)], map[], map[], 1);
      var r := CreateOrder(s, CustomerFound, 7, [ItemRequest(1, 2)]);
      && r.Ok?
      && r.value.result.totalCents == 1000
      && r.value.store.products[1].stock == 3
      && r.value.store.orders[1] == Order(7, Created, 1000)
    ensures var s := Store(map[1 := Product(500, 1)], map[], map[], 1);
      CreateOrder(s, CustomerFound, 7, [ItemRequest(1, 2)]) == Err(InsufficientStock(1, 1, 2))
  {
    var items := [ItemRequest(1, 2)];
    assert items[1..] == [];
    var s := Store(map[1 := Product(500, 5)], map[], map[], 1);
    var r := CreateOrder(s, CustomerFound, 7, items);
    assert Total(r.value.result.lines) == 1000 by {
      assert r.value.result.lines[1..] == [];
    }
  }
}
