/** The customer and order stores of the e-commerce MCP server and the tools
    and resources that read and write them. Each tool that raises
    `ValueError` returns `Err` with the error's message instead; the random
    part of a new id (`uuid.uuid4().hex`) is a parameter. */
module FullServer {
  import opened Common
  import opened Text
  import opened Seqs
  import opened OrderedMaps

  datatype Tier = Basic | Premium | Enterprise

  datatype Address = Address(street: string, city: string, state: string, zipCode: string)

  datatype Customer = Customer(name: string, email: string, address: Address, tier: Tier)

  /** An order line; the price is carried along but never summed here. */
  datatype OrderItem = OrderItem(productId: string, name: string, quantity: int, price: real)

  datatype Order = Order(customerId: string, items: seq<OrderItem>, notes: Option<string>)

  /** The id fields of a `place_order` answer (totals and tax are left out). */
  datatype Confirmation = Confirmation(orderId: string, customerId: string, itemsCount: nat)

  /** `f"cust_{uuid.uuid4().hex[:8]}"`, with the hex digits given. */
  function CustomerId(hex: string): (id: string)
    ensures "cust_" <= id && |id| <= 13
    ensures id[5..] <= hex && |id| == 5 + (if |hex| < 8 then |hex| else 8)
  {
    "cust_" + PrefixSlice(hex, 8)
  }

  function OrderId(hex: string): (id: string)
    ensures "ord_" <= id && |id| <= 12
    ensures id[4..] <= hex && |id| == 4 + (if |hex| < 8 then |hex| else 8)
  {
    "ord_" + PrefixSlice(hex, 8)
  }

  /** Customer ids and order ids never coincide. */
  lemma CustomerAndOrderIdsDiffer(a: string, b: string)
    ensures CustomerId(a) != OrderId(b)
  {
    assert CustomerId(a)[0] == 'c' && OrderId(b)[0] == 'o';
  }

  /** The filter of `search_customers`: the tier when one is given, and the
      city compared case-insensitively when a non-empty one is given. */
  predicate Matches(tier: Option<Tier>, city: Option<string>, customer: Customer)
  {
    && (tier.None? || customer.tier == tier.value)
    && (city.None? || city.value == "" || ToLower(customer.address.city) == ToLower(city.value))
  }

  function CustomerFilter(tier: Option<Tier>, city: Option<string>): Entry<Customer> -> bool
  {
    (e: Entry<Customer>) => Matches(tier, city, e.value)
  }

  /** The search result for the entries of a store, in store order. */
  function Search(entries: seq<Entry<Customer>>, tier: Option<Tier>, city: Option<string>, limit: nat)
    : seq<Entry<Customer>>
  {
    Take(Filter(entries, CustomerFilter(tier, city)), limit)
  }

  /** What a search promises: at most `limit` results, each matching the
      filters, in store order; and a matching customer is left out only when
      the limit was reached. */
  lemma SearchProperties(entries: seq<Entry<Customer>>, tier: Option<Tier>, city: Option<string>, limit: nat)
    ensures var r := Search(entries, tier, city, limit);
      && |r| <= limit
      && (forall i :: 0 <= i < |r| ==> Matches(tier, city, r[i].value) && r[i] in entries)
      && IsSubsequence(r, entries)
      && forall e :: e in entries && Matches(tier, city, e.value) && e !in r ==> |r| == limit
  {
    var p := CustomerFilter(tier, city);
    var f := Filter(entries, p);
    var r := Search(entries, tier, city, limit);
    FilterIsSubsequence(entries, p);
    PrefixIsSubsequence(r, f, entries);
    forall e | e in entries && Matches(tier, city, e.value) && e !in r ensures |r| == limit {
      FilterComplete(entries, p, e);
    }
  }

  /** The loop of `search_customers` over the store's entries: collect the
      matching ones in order and stop as soon as `limit` are found. */
  method SearchEntries(entries: seq<Entry<Customer>>, tier: Option<Tier>, city: Option<string>, limit: nat)
    returns (results: seq<Entry<Customer>>)
    requires limit >= 1
    ensures results == Search(entries, tier, city, limit)
  {
    ghost var p := CustomerFilter(tier, city);
    assert Search(entries, tier, city, limit) == Take(Filter(entries, p), limit);
    results := [];
    var i := 0;
    while i < |entries|
      invariant 0 <= i <= |entries|
      invariant results == Filter(entries[..i], p)
      invariant |results| < limit
    {
      var entry := entries[i];
      assert p(entry) == Matches(tier, city, entry.value);
      FilterStep(entries, i, p);
      if Matches(tier, city, entry.value) {
        results := results + [entry];
        if |results| >= limit {
          FilterPrefixTake(entries, i + 1, p, limit);
          return;
        }
      }
      i := i + 1;
    }
    assert entries[..i] == entries;
  }

  /** A prefix of a subsequence is a subsequence. */
  lemma {:induction false} PrefixIsSubsequence<T>(a: seq<T>, b: seq<T>, c: seq<T>)
    requires a <= b && IsSubsequence(b, c)
    ensures IsSubsequence(a, c)
    decreases |c|
  {
    if a != [] && c != [] {
      if b[0] == c[0] {
        PrefixIsSubsequence(a[1..], b[1..], c[1..]);
      } else {
        PrefixIsSubsequence(a, b, c[1..]);
      }
    }
  }

  /** One `place_order` against the stores, as a value: the answer and the orders afterwards. */
  datatype Placement = Placement(result: Result<Confirmation, string>, orders: OrderedMap<Order>)

  function Place(customers: OrderedMap<Customer>, orders: OrderedMap<Order>, order: Order, hex: string)
    : (p: Placement)
    ensures order.customerId !in customers.values <==> p.result.Err?
    ensures p.result.Err? ==> p.result.error == "Customer not found: " + order.customerId && p.orders == orders
    ensures p.result.Ok? ==>
      && p.result.value == Confirmation(OrderId(hex), order.customerId, |order.items|)
      && p.orders == orders.Put(OrderId(hex), order)
  {
    if order.customerId !in customers.values then Placement(Err("Customer not found: " + order.customerId), orders)
    else
      var id := OrderId(hex);
      Placement(Ok(Confirmation(id, order.customerId, |order.items|)), orders.Put(id, order))
  }

  /** One entry of the `errors` list of `process_bulk_orders`. */
  datatype BulkFailure = BulkFailure(index: int, error: string)

  /** The orders store and the `successful` and `failed` lists after a batch. */
  datatype BulkState = BulkState(orders: OrderedMap<Order>, orderIds: seq<string>, failed: seq<BulkFailure>)

  /** The loop of `process_bulk_orders` as a value: order `i` gets the hex digits `hexes[i]`. */
  function BulkRun(customers: OrderedMap<Customer>, orders: OrderedMap<Order>, batch: seq<Order>, hexes: seq<string>)
    : BulkState
    requires |hexes| == |batch|
    decreases |batch|
  {
    if batch == [] then BulkState(orders, [], [])
    else
      var n := |batch| - 1;
      var before := BulkRun(customers, orders, batch[..n], hexes[..n]);
      var p := Place(customers, before.orders, batch[n], hexes[n]);
      if p.result.Ok? then BulkState(p.orders, before.orderIds + [p.result.value.orderId], before.failed)
      else BulkState(before.orders, before.orderIds, before.failed + [BulkFailure(n, p.result.error)])
  }

  /** The summary dictionary of `process_bulk_orders`. */
  datatype BulkSummary = BulkSummary(total: nat, successful: nat, failed: nat, orderIds: seq<string>,
                                     errors: seq<BulkFailure>)

  /** Every order of a batch is counted once, as a success or as a failure,
      and the failures are listed in input order. */
  lemma {:induction false} BulkCounts(customers: OrderedMap<Customer>, orders: OrderedMap<Order>,
                                      batch: seq<Order>, hexes: seq<string>)
    requires |hexes| == |batch|
    ensures var s := BulkRun(customers, orders, batch, hexes);
      && |s.orderIds| + |s.failed| == |batch|
      && (forall k :: 0 <= k < |s.failed| ==> 0 <= s.failed[k].index < |batch|)
      && (forall k, l :: 0 <= k < l < |s.failed| ==> s.failed[k].index < s.failed[l].index)
    decreases |batch|
  {
    if batch != [] {
      var n := |batch| - 1;
      BulkCounts(customers, orders, batch[..n], hexes[..n]);
    }
  }

  predicate FailureExplained(batch: seq<Order>, f: BulkFailure)
  {
    0 <= f.index < |batch| && f.error == "Customer not found: " + batch[f.index].customerId
  }

  predicate FailuresExplained(batch: seq<Order>, failed: seq<BulkFailure>)
  {
    forall k :: 0 <= k < |failed| ==> FailureExplained(batch, failed[k])
  }

  /** Each failure records the index of its order and the reason it failed. */
  lemma {:induction false} BulkFailureReasons(customers: OrderedMap<Customer>, orders: OrderedMap<Order>,
                                              batch: seq<Order>, hexes: seq<string>)
    requires |hexes| == |batch|
    ensures FailuresExplained(batch, BulkRun(customers, orders, batch, hexes).failed)
    decreases |batch|
  {
    if batch != [] {
      var n := |batch| - 1;
      var before := BulkRun(customers, orders, batch[..n], hexes[..n]);
      BulkFailureReasons(customers, orders, batch[..n], hexes[..n]);
      var p := Place(customers, before.orders, batch[n], hexes[n]);
      var s := BulkRun(customers, orders, batch, hexes);
      assert s.failed == if p.result.Ok? then before.failed else before.failed + [BulkFailure(n, p.result.error)];
      forall k | 0 <= k < |s.failed|
        ensures 0 <= s.failed[k].index < |batch|
        ensures s.failed[k].error == "Customer not found: " + batch[s.failed[k].index].customerId
      {
        if k < |before.failed| {
          var f := before.failed[k];
          assert s.failed[k] == f;
          assert FailureExplained(batch[..n], f);
          assert batch[..n][f.index] == batch[f.index];
        }
      }
    }
  }

  predicate FailedAt(failed: seq<BulkFailure>, i: int)
  {
    exists k :: 0 <= k < |failed| && failed[k].index == i
  }

  /** An order is among the failures exactly when its customer is unknown. */
  lemma {:induction false} BulkFailsIffUnknown(customers: OrderedMap<Customer>, orders: OrderedMap<Order>,
                                               batch: seq<Order>, hexes: seq<string>, i: int)
    requires |hexes| == |batch| && 0 <= i < |batch|
    ensures FailedAt(BulkRun(customers, orders, batch, hexes).failed, i) <==> batch[i].customerId !in customers.values
    decreases |batch|
  {
    var n := |batch| - 1;
    var before := BulkRun(customers, orders, batch[..n], hexes[..n]);
    var s := BulkRun(customers, orders, batch, hexes);
    BulkCounts(customers, orders, batch[..n], hexes[..n]);
    var p := Place(customers, before.orders, batch[n], hexes[n]);
    assert s.failed == if p.result.Ok? then before.failed else before.failed + [BulkFailure(n, p.result.error)];
    assert forall k :: 0 <= k < |before.failed| ==> s.failed[k] == before.failed[k];
    if i < n {
      BulkFailsIffUnknown(customers, orders, batch[..n], hexes[..n], i);
      assert batch[..n][i] == batch[i];
      if FailedAt(s.failed, i) {
        var k :| 0 <= k < |s.failed| && s.failed[k].index == i;
        assert k < |before.failed|;
        assert FailedAt(before.failed, i);
      }
      if FailedAt(before.failed, i) {
        var k :| 0 <= k < |before.failed| && before.failed[k].index == i;
        assert s.failed[k].index == i;
      }
    } else if batch[i].customerId !in customers.values {
      assert p.result.Err?;
      assert s.failed[|before.failed|] == BulkFailure(n, p.result.error);
    } else {
      assert s.failed == before.failed;
    }
  }

  /** The server's module-level stores. */
  class Server {
    var customersDb: OrderedMap<Customer>
    var ordersDb: OrderedMap<Order>

    ghost predicate Valid()
      reads this
    {
      customersDb.Valid() && ordersDb.Valid()
    }

    constructor ()
      ensures Valid()
      ensures customersDb == Empty() && ordersDb == Empty()
    {
      customersDb := Empty();
      ordersDb := Empty();
    }

    /** `create_customer`: stores the customer under a new id and returns the id. */
    method CreateCustomer(customer: Customer, hex: string) returns (id: string)
      requires Valid()
      modifies this
      ensures Valid()
      ensures id == CustomerId(hex)
      ensures customersDb == old(customersDb).Put(id, customer) && ordersDb == old(ordersDb)
      ensures GetCustomer(id) == Ok(customer)
    {
      id := "cust_" + PrefixSlice(hex, 8);
      PutValid(customersDb, id, customer);
      customersDb := customersDb.Put(id, customer);
    }

    /** `get_customer`. */
    function GetCustomer(customerId: string): (r: Result<Customer, string>)
      reads this
      ensures r.Ok? <==> customerId in customersDb.values
      ensures r.Ok? ==> r.value == customersDb.values[customerId]
      ensures r.Err? ==> r.error == "Customer not found: " + customerId
    {
      if customerId !in customersDb.values then Err("Customer not found: " + customerId)
      else Ok(customersDb.values[customerId])
    }

    /** `search_customers`; `limit` is validated to lie between 1 and 100. */
    method SearchCustomers(tier: Option<Tier>, city: Option<string>, limit: int) returns (results: seq<Entry<Customer>>)
      requires Valid() && 1 <= limit <= 100
      ensures results == Search(customersDb.Entries(), tier, city, limit)
    {
      results := SearchEntries(customersDb.Entries(), tier, city, limit);
    }

    /** `place_order`: refuses an unknown customer, otherwise stores the order under a new id. */
    method PlaceOrder(order: Order, hex: string) returns (r: Result<Confirmation, string>)
      requires Valid()
      modifies this
      ensures Valid()
      ensures var p := Place(old(customersDb), old(ordersDb), order, hex);
        r == p.result && ordersDb == p.orders
      ensures customersDb == old(customersDb)
      ensures r.Ok? ==> GetOrder(r.value.orderId) == Ok(order)
    {
      if order.customerId !in customersDb.values {
        return Err("Customer not found: " + order.customerId);
      }
      var orderId := "ord_" + PrefixSlice(hex, 8);
      PutValid(ordersDb, orderId, order);
      ordersDb := ordersDb.Put(orderId, order);
      r := Ok(Confirmation(orderId, order.customerId, |order.items|));
    }

    /** `get_order`. */
    function GetOrder(orderId: string): (r: Result<Order, string>)
      reads this
      ensures r.Ok? <==> orderId in ordersDb.values
      ensures r.Ok? ==> r.value == ordersDb.values[orderId]
      ensures r.Err? ==> r.error == "Order not found: " + orderId
    {
      if orderId !in ordersDb.values then Err("Order not found: " + orderId) else Ok(ordersDb.values[orderId])
    }

    /** The `customer://{customer_id}` resource: like `get_customer`, but it
        answers an error value instead of raising. */
    function GetCustomerResource(customerId: string): (r: Result<Customer, string>)
      reads this
      ensures r.Ok? <==> GetCustomer(customerId).Ok?
      ensures r.Ok? ==> r == GetCustomer(customerId)
      ensures r.Err? ==> r.error == "Customer not found"
    {
      if customerId !in customersDb.values then Err("Customer not found") else Ok(customersDb.values[customerId])
    }

    /** `process_bulk_orders`: `place_order` for each order in turn, collecting
        the new ids and the failures. */
    method ProcessBulkOrders(batch: seq<Order>, hexes: seq<string>) returns (summary: BulkSummary)
      requires Valid() && |hexes| == |batch|
      modifies this
      ensures Valid()
      ensures var s := BulkRun(old(customersDb), old(ordersDb), batch, hexes);
        && ordersDb == s.orders && customersDb == old(customersDb)
        && summary == BulkSummary(|batch|, |s.orderIds|, |s.failed|, s.orderIds, s.failed)
    {
      var successful: seq<string> := [];
      var failed: seq<BulkFailure> := [];
      var i := 0;
      while i < |batch|
        invariant 0 <= i <= |batch| && Valid() && customersDb == old(customersDb)
        invariant BulkRun(old(customersDb), old(ordersDb), batch[..i], hexes[..i]) == BulkState(ordersDb, successful, failed)
      {
        assert batch[..i + 1][..i] == batch[..i] && hexes[..i + 1][..i] == hexes[..i];
        var result := PlaceOrder(batch[i], hexes[i]);
        if result.Ok? {
          successful := successful + [result.value.orderId];
        } else {
          failed := failed + [BulkFailure(i, result.error)];
        }
        i := i + 1;
      }
      assert batch[..i] == batch && hexes[..i] == hexes;
      summary := BulkSummary(|batch|, |successful|, |failed|, successful, failed);
    }

    /** The `data://customers/count` resource. */
    function CustomerCount(): (n: nat)
      requires Valid()
      reads this
      ensures n == |customersDb.values.Keys|
    {
      CountIsSize(customersDb);
      customersDb.Count()
    }

    /** The `data://orders/count` resource. */
    function OrderCount(): (n: nat)
      requires Valid()
      reads this
      ensures n == |ordersDb.values.Keys|
    {
      CountIsSize(ordersDb);
      ordersDb.Count()
    }

    /** The `customer://{customer_id}/orders` resource. */
    function GetCustomerOrders(customerId: string): (r: seq<Entry<Order>>)
      requires Valid()
      reads this
      ensures forall i :: 0 <= i < |r| ==> r[i].value.customerId == customerId && r[i] in ordersDb.Entries()
    {
      Filter(ordersDb.Entries(), OfCustomer(customerId))
    }

    /** The `orders://{status}` resource: the first `limit` order ids, whatever
        the status (orders carry none). */
    function GetOrdersByStatus(status: string, limit: int): (r: seq<string>)
      reads this
      ensures r <= ordersDb.keys
      ensures limit >= 0 ==> |r| == if limit < |ordersDb.keys| then limit else |ordersDb.keys|
    {
      PrefixSlice(ordersDb.keys, limit)
    }
  }

  function OfCustomer(customerId: string): Entry<Order> -> bool
  {
    (e: Entry<Order>) => e.value.customerId == customerId
  }

  /** The orders of a customer are exactly the stored orders with that
      customer id, in store order. */
  lemma CustomerOrdersExact(server: Server, customerId: string)
    requires server.Valid()
    ensures var r := server.GetCustomerOrders(customerId);
      && IsSubsequence(r, server.ordersDb.Entries())
      && forall e :: e in r <==> e in server.ordersDb.Entries() && e.value.customerId == customerId
  {
    var entries := server.ordersDb.Entries();
    FilterIsSubsequence(entries, OfCustomer(customerId));
    forall e | e in entries && e.value.customerId == customerId
      ensures e in server.GetCustomerOrders(customerId)
    {
      FilterComplete(entries, OfCustomer(customerId), e);
    }
  }

  /** Placing an order for a known customer adds exactly one order when its id
      is new; an unknown customer leaves the count unchanged. */
  lemma PlaceCount(customers: OrderedMap<Customer>, orders: OrderedMap<Order>, order: Order, hex: string)
    requires orders.Valid()
    ensures var p := Place(customers, orders, order, hex);
      && p.orders.Valid()
      && (p.result.Err? ==> p.orders.Count() == orders.Count())
      && (p.result.Ok? && OrderId(hex) !in orders.values ==> p.orders.Count() == orders.Count() + 1)
  {
    PutValid(orders, OrderId(hex), order);
  }
}
