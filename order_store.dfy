/**
 * The in-memory order store of lib/database.ts: a list of customers and a
 * list of orders, two lookups and an in-place status update.
 */
module OrderStore {
  import opened Wrappers

  /** The five status literals an order can carry; the store has no transition table. */
  datatype OrderStatus = Pending | Crafting | Processing | Shipped | Delivered

  datatype Order = Order(
    id: string,
    customerId: string,
    date: string,
    status: OrderStatus,
    modelName: string,
    price: real)

  datatype Customer = Customer(
    id: string,
    name: string,
    email: string,
    orders: seq<string>,
    videoPreview: string)

  function MockCustomers(): seq<Customer>
  {
    [ Customer("customer-1", "John Doe", "john.doe@example.com", ["order-1", "order-2"],
               "https://www.youtube.com/embed/dQw4w9WgXcQ"),
      Customer("customer-2", "Jane Smith", "jane.smith@example.com", ["order-3"],
               "https://www.youtube.com/embed/dQw4w9WgXcQ") ]
  }

  function MockOrders(): seq<Order>
  {
    [ Order("order-1", "customer-1", "2023-08-01", Pending, "Chess Knight", 25.0),
      Order("order-2", "customer-1", "2023-08-05", Shipped, "Dragon Figurine", 45.5),
      Order("order-3", "customer-2", "2023-08-10", Delivered, "Phone Stand", 15.0) ]
  }

  // ---------------------------------------------------------------------------
  // Lookups
  // ---------------------------------------------------------------------------

  /** `Array.prototype.findIndex` over the orders: the first index whose id matches, or -1. */
  function FindIndex(orders: seq<Order>, orderId: string): (k: int)
    ensures -1 <= k < |orders|
    ensures k == -1 <==> forall i :: 0 <= i < |orders| ==> orders[i].id != orderId
    ensures 0 <= k ==> orders[k].id == orderId
    ensures 0 <= k ==> forall i :: 0 <= i < k ==> orders[i].id != orderId
  {
    if |orders| == 0 then -1
    else if orders[0].id == orderId then 0
    else
      var k := FindIndex(orders[1..], orderId);
      if k == -1 then -1 else k + 1
  }

  /** `Array.prototype.find` over the customers: the first customer whose id matches. */
  function FindCustomer(customers: seq<Customer>, customerId: string): (r: Option<Customer>)
    ensures r.None? <==> forall i :: 0 <= i < |customers| ==> customers[i].id != customerId
    ensures r.Some? ==> exists k :: 0 <= k < |customers| && customers[k] == r.value
                          && r.value.id == customerId
                          && forall i :: 0 <= i < k ==> customers[i].id != customerId
  {
    if |customers| == 0 then None
    else if customers[0].id == customerId then Some(customers[0])
    else
      var r := FindCustomer(customers[1..], customerId);
      if r.Some? then
        var k :| 0 <= k < |customers[1..]| && customers[1..][k] == r.value
                 && r.value.id == customerId
                 && forall i :: 0 <= i < k ==> customers[1..][i].id != customerId;
        assert customers[k + 1] == r.value;
        r
      else r
  }

  /** `filter((order) => order.status === "pending")`: the pending orders, in list order. */
  function PendingOrders(orders: seq<Order>): (ps: seq<Order>)
    ensures |ps| <= |orders|
    ensures forall o :: o in ps ==> o in orders && o.status == Pending
    ensures forall o :: o in orders && o.status == Pending ==> o in ps
  {
    if |orders| == 0 then []
    else if orders[0].status == Pending then [orders[0]] + PendingOrders(orders[1..])
    else PendingOrders(orders[1..])
  }

  /** The number of orders with the given status, counted one index at a time. */
  function CountStatus(orders: seq<Order>, status: OrderStatus): nat
  {
    if |orders| == 0 then 0
    else (if orders[0].status == status then 1 else 0) + CountStatus(orders[1..], status)
  }

  /** The filtered list is as long as the number of pending entries. */
  lemma {:induction false} PendingOrdersCounted(orders: seq<Order>)
    ensures |PendingOrders(orders)| == CountStatus(orders, Pending)
  {
    if |orders| > 0 {
      PendingOrdersCounted(orders[1..]);
    }
  }

  // ---------------------------------------------------------------------------
  // Status update, as a function of the old list
  // ---------------------------------------------------------------------------

  /** The list after `updateOrderStatus(orderId, status)`: the first match gets the new status. */
  function WithStatus(orders: seq<Order>, orderId: string, status: OrderStatus): seq<Order>
  {
    var k := FindIndex(orders, orderId);
    if k == -1 then orders else orders[k := orders[k].(status := status)]
  }

  /**
   * What the update does to the list: without a match nothing changes; with
   * one, only the first matching index is rewritten, only in its status, and
   * to the requested status whatever the old one was.
   */
  lemma WithStatusEffect(orders: seq<Order>, orderId: string, status: OrderStatus)
    ensures |WithStatus(orders, orderId, status)| == |orders|
    ensures (forall i :: 0 <= i < |orders| ==> orders[i].id != orderId) ==>
              WithStatus(orders, orderId, status) == orders
    ensures forall k :: 0 <= k < |orders| && orders[k].id == orderId
                          && (forall i :: 0 <= i < k ==> orders[i].id != orderId) ==>
              var updated := WithStatus(orders, orderId, status);
              && updated[k] == Order(orders[k].id, orders[k].customerId, orders[k].date,
                                     status, orders[k].modelName, orders[k].price)
              && forall j :: 0 <= j < |orders| && j != k ==> updated[j] == orders[j]
  {
  }

  /** Changing statuses leaves every id in place, so `findIndex` finds the same index. */
  lemma {:induction false} FindIndexIgnoresStatus(orders: seq<Order>, k: int, status: OrderStatus, orderId: string)
    requires 0 <= k < |orders|
    ensures FindIndex(orders[k := orders[k].(status := status)], orderId) == FindIndex(orders, orderId)
  {
    var updated := orders[k := orders[k].(status := status)];
    assert forall i :: 0 <= i < |orders| ==> updated[i].id == orders[i].id;
  }

  /** Applying the same update twice gives the same list as applying it once. */
  lemma WithStatusIdempotent(orders: seq<Order>, orderId: string, status: OrderStatus)
    ensures WithStatus(WithStatus(orders, orderId, status), orderId, status)
            == WithStatus(orders, orderId, status)
  {
  }

  /** Counting with one entry replaced changes the count by that entry alone. */
  lemma {:induction false} CountStatusReplace(orders: seq<Order>, k: int, o: Order, status: OrderStatus)
    requires 0 <= k < |orders|
    ensures CountStatus(orders[k := o], status)
            == CountStatus(orders, status)
               - (if orders[k].status == status then 1 else 0)
               + (if o.status == status then 1 else 0)
  {
    if k > 0 {
      assert orders[k := o][1..] == orders[1..][k - 1 := o];
      CountStatusReplace(orders[1..], k - 1, o, status);
    }
  }

  /** The pending count after an update moves by exactly the one order rewritten. */
  lemma {:induction false} PendingCountAfterUpdate(orders: seq<Order>, orderId: string, status: OrderStatus)
    ensures var k := FindIndex(orders, orderId);
            |PendingOrders(WithStatus(orders, orderId, status))|
            == if k == -1 then |PendingOrders(orders)|
               else |PendingOrders(orders)|
                    - (if orders[k].status == Pending then 1 else 0)
                    + (if status == Pending then 1 else 0)
  {
    var k := FindIndex(orders, orderId);
    PendingOrdersCounted(orders);
    PendingOrdersCounted(WithStatus(orders, orderId, status));
    if k != -1 {
      CountStatusReplace(orders, k, orders[k].(status := status), Pending);
    }
  }

  // ---------------------------------------------------------------------------
  // The store object
  // ---------------------------------------------------------------------------

  /** The `db` object with its two module-level arrays, which `updateOrderStatus` mutates. */
  class OrderDatabase {
    var customers: seq<Customer>
    var orders: seq<Order>

    constructor ()
      ensures customers == MockCustomers() && orders == MockOrders()
    {
      customers := MockCustomers();
      orders := MockOrders();
    }

    /** `db.getCustomer`: the first customer with the id, or none. */
    function GetCustomer(customerId: string): (r: Option<Customer>)
      reads this
      ensures r.None? <==> forall i :: 0 <= i < |customers| ==> customers[i].id != customerId
      ensures r.Some? ==> exists k :: 0 <= k < |customers| && customers[k] == r.value
                            && r.value.id == customerId
                            && forall i :: 0 <= i < k ==> customers[i].id != customerId
    {
      FindCustomer(customers, customerId)
    }

    /** `db.getPendingOrdersCount`: how many orders are pending. */
    function GetPendingOrdersCount(): (n: nat)
      reads this
      ensures n == CountStatus(orders, Pending)
      ensures n <= |orders|
    {
      PendingOrdersCounted(orders);
      |PendingOrders(orders)|
    }

    /**
     * `db.updateOrderStatus`: finds the first order with the id and replaces
     * it in place by a copy carrying the new status; returns the stored copy,
     * or none (and no change) when no order has the id.
     */
    method UpdateOrderStatus(orderId: string, status: OrderStatus) returns (r: Option<Order>)
      modifies this
      ensures customers == old(customers)
      ensures orders == WithStatus(old(orders), orderId, status)
      ensures r.None? <==> forall i :: 0 <= i < |old(orders)| ==> old(orders)[i].id != orderId
      ensures r.Some? ==> var k := FindIndex(old(orders), orderId);
                          0 <= k < |orders| && r.value == orders[k]
                          && r.value == old(orders)[k].(status := status)
    {
      var orderIndex := FindIndex(orders, orderId);
      if orderIndex != -1 {
        orders := orders[orderIndex := orders[orderIndex].(status := status)];
        return Some(orders[orderIndex]);
      }
      return None;
    }
  }
}
