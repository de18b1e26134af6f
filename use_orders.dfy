/**
 * The local state of the order hooks: the order list `{orders, loading, error}`
 * (also used for the recent-orders list), the single order detail, and the
 * statistics. The list changes only once a service call has succeeded; the
 * service's answer is a parameter.
 */
module UseOrders {
  import opened Wrappers
  import opened Domain
  import opened Errors
  import Seqs
  import OrdersService

  /** `orders.map(o => o.id === d.id ? summary(d) : o)`. */
  function ReplaceById(os: seq<Order>, d: OrderDetail): (r: seq<Order>)
    ensures |r| == |os|
    ensures forall i :: 0 <= i < |os| && os[i].id != d.id ==> r[i] == os[i]
    ensures forall i :: 0 <= i < |os| && os[i].id == d.id ==> r[i] == d.Summary()
  {
    Seqs.ReplaceWhere(os, (o: Order) => o.id == d.id, (o: Order) => d.Summary())
  }

  /** `orders.filter(o => o.id !== orderId)`. */
  function RemoveById(os: seq<Order>, orderId: string): (r: seq<Order>)
    ensures Seqs.IsSubsequence(r, os)
    ensures forall i :: 0 <= i < |r| ==> r[i].id != orderId
    ensures forall i :: 0 <= i < |os| && os[i].id != orderId ==> os[i] in r
  {
    Seqs.Filter(os, (o: Order) => o.id != orderId)
  }

  /** Replacing keeps every id in place, and replacing twice is replacing once. */
  lemma ReplaceByIdKeepsIds(os: seq<Order>, d: OrderDetail)
    ensures forall i :: 0 <= i < |os| ==> ReplaceById(os, d)[i].id == os[i].id
    ensures ReplaceById(ReplaceById(os, d), d) == ReplaceById(os, d)
  {
  }

  /** Deleting an order after updating it leaves what deleting it alone leaves. */
  lemma {:induction false} ReplaceThenRemove(os: seq<Order>, d: OrderDetail)
    ensures RemoveById(ReplaceById(os, d), d.id) == RemoveById(os, d.id)
  {
    if os != [] {
      var r := ReplaceById(os, d);
      assert r[1..] == ReplaceById(os[1..], d);
      ReplaceThenRemove(os[1..], d);
      assert os == [os[0]] + os[1..];
      assert r == [r[0]] + r[1..];
    }
  }

  /** Deleting a just-created order gives back what deleting it from the old list gives. */
  lemma CreateThenRemove(os: seq<Order>, d: OrderDetail)
    ensures RemoveById([d.Summary()] + os, d.id) == RemoveById(os, d.id)
  {
    assert ([d.Summary()] + os)[1..] == os;
  }

  /** The order list of `useOrders` and `useRecentOrders`. */
  class OrdersState {
    var orders: seq<Order>
    var loading: bool
    var error: Option<string>

    /** The initial state: no orders, loading, no error. */
    constructor ()
      ensures orders == [] && loading && error == None
    {
      orders := [];
      loading := true;
      error := None;
    }

    /** A fetch begins: loading, error cleared, the orders kept. */
    method FetchStart()
      modifies this
      ensures orders == old(orders) && loading && error == None
    {
      loading := true;
      error := None;
    }

    /**
     * A fetch settles: on success the list is replaced; on failure it is kept and
     * the error is the service's message or `fallback` ("Failed to fetch orders",
     * or "Failed to fetch recent orders" for the recent list).
     */
    method FetchSettled(result: Result<seq<Order>, Thrown>, fallback: string)
      modifies this
      ensures !loading
      ensures result.Ok? ==> orders == result.value && error == None
      ensures result.Err? ==> orders == old(orders)
      ensures result.Err? ==> error == Some(HookMessage(result.error, OrderServiceError, fallback))
    {
      match result
      case Ok(fetched) =>
        orders, loading, error := fetched, false, None;
      case Err(e) =>
        loading, error := false, Some(HookMessage(e, OrderServiceError, fallback));
    }

    /** Create: the new order's summary goes first, the previous list follows unchanged. */
    method CreateOrder(result: Result<OrderDetail, Thrown>) returns (created: Option<OrderDetail>)
      modifies this
      ensures loading == old(loading)
      ensures result.Ok? ==> orders == [result.value.Summary()] + old(orders)
      ensures result.Ok? ==> error == old(error) && created == Some(result.value)
      ensures result.Err? ==> orders == old(orders) && created == None
      ensures result.Err? ==> error == Some(HookMessage(result.error, OrderServiceError, "Failed to create order"))
    {
      match result
      case Ok(newOrder) =>
        orders := [newOrder.Summary()] + orders;
        created := Some(newOrder);
      case Err(e) =>
        error := Some(HookMessage(e, OrderServiceError, "Failed to create order"));
        created := None;
    }

    /** Update (and the status shortcut, which is an update): every entry with the returned id becomes its summary. */
    method UpdateOrder(result: Result<OrderDetail, Thrown>) returns (updated: Option<OrderDetail>)
      modifies this
      ensures loading == old(loading)
      ensures result.Ok? ==> orders == ReplaceById(old(orders), result.value)
      ensures result.Ok? ==> error == old(error) && updated == Some(result.value)
      ensures result.Err? ==> orders == old(orders) && updated == None
      ensures result.Err? ==> error == Some(HookMessage(result.error, OrderServiceError, "Failed to update order"))
    {
      match result
      case Ok(updatedOrder) =>
        orders := ReplaceById(orders, updatedOrder);
        updated := Some(updatedOrder);
      case Err(e) =>
        error := Some(HookMessage(e, OrderServiceError, "Failed to update order"));
        updated := None;
    }

    /** Delete: on success every entry with the id goes and true is returned; on failure false. */
    method DeleteOrder(orderId: string, result: Result<(), Thrown>) returns (deleted: bool)
      modifies this
      ensures loading == old(loading)
      ensures deleted <==> result.Ok?
      ensures result.Ok? ==> orders == RemoveById(old(orders), orderId) && error == old(error)
      ensures result.Err? ==> orders == old(orders)
      ensures result.Err? ==> error == Some(HookMessage(result.error, OrderServiceError, "Failed to delete order"))
    {
      if result.Ok? {
        orders := RemoveById(orders, orderId);
        deleted := true;
      } else {
        error := Some(HookMessage(result.error, OrderServiceError, "Failed to delete order"));
        deleted := false;
      }
    }
  }

  /** The state of `useOrderDetail`. */
  class OrderDetailState {
    var order: Option<OrderDetail>
    var loading: bool
    var error: Option<string>

    constructor ()
      ensures order == None && loading && error == None
    {
      order := None;
      loading := true;
      error := None;
    }

    /**
     * A fetch begins: an empty id is refused at once, without a service call
     * (`calls` is false); otherwise loading starts and the error is cleared.
     */
    method FetchStart(orderId: string) returns (calls: bool)
      modifies this
      ensures calls <==> orderId != ""
      ensures !calls ==> order == None && !loading && error == Some("Order ID is required")
      ensures calls ==> order == old(order) && loading && error == None
    {
      if orderId == "" {
        order, loading, error := None, false, Some("Order ID is required");
        return false;
      }
      loading, error := true, None;
      calls := true;
    }

    /** A fetch settles: the order on success; on failure no order and the error. */
    method FetchSettled(result: Result<OrderDetail, Thrown>)
      modifies this
      ensures !loading
      ensures result.Ok? ==> order == Some(result.value) && error == None
      ensures result.Err? ==> order == None
      ensures result.Err? ==> error == Some(HookMessage(result.error, OrderServiceError, "Failed to fetch order"))
    {
      match result
      case Ok(fetched) =>
        order, loading, error := Some(fetched), false, None;
      case Err(e) =>
        order, loading, error := None, false, Some(HookMessage(e, OrderServiceError, "Failed to fetch order"));
    }

    /** Update: the returned order replaces the shown one; on failure only the error changes. */
    method UpdateOrder(result: Result<OrderDetail, Thrown>) returns (updated: Option<OrderDetail>)
      modifies this
      ensures loading == old(loading)
      ensures result.Ok? ==> order == Some(result.value) && error == old(error) && updated == Some(result.value)
      ensures result.Err? ==> order == old(order) && updated == None
      ensures result.Err? ==> error == Some(HookMessage(result.error, OrderServiceError, "Failed to update order"))
    {
      match result
      case Ok(updatedOrder) =>
        order := Some(updatedOrder);
        updated := Some(updatedOrder);
      case Err(e) =>
        error := Some(HookMessage(e, OrderServiceError, "Failed to update order"));
        updated := None;
    }
  }

  /** The state of `useOrderStats`. */
  class StatsState {
    var stats: OrdersService.OrderStats
    var loading: bool
    var error: Option<string>

    constructor ()
      ensures stats == OrdersService.ZeroStats && loading && error == None
    {
      stats := OrdersService.ZeroStats;
      loading := true;
      error := None;
    }

    method FetchStart()
      modifies this
      ensures stats == old(stats) && loading && error == None
    {
      loading := true;
      error := None;
    }

    /** Success replaces the statistics; failure keeps them and records the error. */
    method FetchSettled(result: Result<OrdersService.OrderStats, Thrown>)
      modifies this
      ensures !loading
      ensures result.Ok? ==> stats == result.value && error == old(error)
      ensures result.Err? ==> stats == old(stats)
      ensures result.Err? ==> error == Some(HookMessage(result.error, OrderServiceError, "Failed to fetch order statistics"))
    {
      match result
      case Ok(fetched) =>
        stats := fetched;
        loading := false;
      case Err(e) =>
        error := Some(HookMessage(e, OrderServiceError, "Failed to fetch order statistics"));
        loading := false;
    }
  }
}
