/**
 * The order queries and the four order mutations over the query cache. Each
 * mutation runs its phases in order: snapshot and optimistic write, the remote
 * call (a parameter), then the success or failure reconciliation and, where the
 * source has one, the settle step.
 */
module OrdersQuery {
  import opened Wrappers
  import opened Domain
  import opened Errors
  import opened QueryKeys
  import opened QueryCache
  import Seqs

  /** A query's key and whether it runs. */
  datatype QuerySpec = QuerySpec(key: Key, enabled: bool)

  /** The order-detail query runs only for a non-empty id. */
  function OrderDetailQuery(orderId: string): (q: QuerySpec)
    ensures q.key == OrdersDetail(orderId)
    ensures q.enabled <==> |orderId| > 0
  {
    QuerySpec(OrdersDetail(orderId), orderId != "")
  }

  // ---------------------------------------------------------------- updaters

  /** `{...previousOrder, ...updatedOrder}`: the fields the input defines override. */
  function MergeUpdate(d: OrderDetail, u: UpdateOrderInput): OrderDetail
  {
    OrderDetail(
      u.id,
      u.clientName.GetOr(d.clientName),
      u.clientEmail.GetOr(d.clientEmail),
      u.projectType.GetOr(d.projectType),
      u.status.GetOr(d.status),
      u.deadline.GetOr(d.deadline),
      u.amount.GetOr(d.amount),
      u.description.GetOr(d.description),
      d.createdAt,
      d.updatedAt,
      u.notes.GetOr(d.notes))
  }

  /**
   * Merging keeps every field the input leaves undefined, takes every field it
   * defines, and merging the same input twice is merging it once.
   */
  lemma MergeUpdateFields(d: OrderDetail, u: UpdateOrderInput)
    ensures var r := MergeUpdate(d, u);
      && r.id == u.id && r.createdAt == d.createdAt && r.updatedAt == d.updatedAt
      && (u.clientName.None? ==> r.clientName == d.clientName)
      && (u.clientName.Some? ==> r.clientName == u.clientName.value)
      && (u.status.None? ==> r.status == d.status)
      && (u.status.Some? ==> r.status == u.status.value)
      && (u.amount.None? ==> r.amount == d.amount)
      && (u.amount.Some? ==> r.amount == u.amount.value)
      && (u.notes.None? ==> r.notes == d.notes)
    ensures MergeUpdate(MergeUpdate(d, u), u) == MergeUpdate(d, u)
    ensures u == UpdateOrderInput(d.id, None, None, None, None, None, None, None, None) ==> MergeUpdate(d, u) == d
  {
  }

  /** The list updater of the delete mutation: `old?.filter(order => order.id !== orderId)`. */
  function WithoutOrder(orderId: string): Option<Data> -> Option<Data>
  {
    (prev: Option<Data>) =>
      match prev
      case Some(OrderList(os)) => Some(OrderList(Seqs.Filter(os, (o: Order) => o.id != orderId)))
      case _ => None
  }

  /** `orders.map(order => order.id === orderId ? {...order, status} : order)`. */
  function SetStatusWhere(os: seq<Order>, orderId: string, status: string): (r: seq<Order>)
    ensures |r| == |os|
    ensures forall i :: 0 <= i < |os| ==> r[i].(status := os[i].status) == os[i]
    ensures forall i :: 0 <= i < |os| ==> (os[i].id == orderId ==> r[i].status == status)
    ensures forall i :: 0 <= i < |os| ==> (os[i].id != orderId ==> r[i] == os[i])
  {
    Seqs.ReplaceWhere(os, (o: Order) => o.id == orderId, (o: Order) => o.(status := status))
  }

  /** The list updater of the status mutation. */
  function WithStatus(orderId: string, status: string): Option<Data> -> Option<Data>
  {
    (prev: Option<Data>) =>
      match prev
      case Some(OrderList(os)) => Some(OrderList(SetStatusWhere(os, orderId, status)))
      case _ => None
  }

  /** The data of the detail entry of `orderId`, undefined when there is none. */
  function DetailOf(c: Cache, orderId: string): (r: Option<Data>)
    ensures OrdersDetail(orderId) in c.entries ==> r == c.entries[OrdersDetail(orderId)]
    ensures OrdersDetail(orderId) !in c.entries ==> r.None?
  {
    if OrdersDetail(orderId) in c.entries then c.entries[OrdersDetail(orderId)] else None
  }

  // ---------------------------------------------------------------- phases as functions

  /** Update, optimistic step: a cached detail gets the merge; nothing else is written. */
  function UpdateOptimistic(c: Cache, u: UpdateOrderInput): Cache
  {
    match DetailOf(c, u.id)
    case Some(OrderDetailData(d)) => SetData(c, OrdersDetail(u.id), Some(OrderDetailData(MergeUpdate(d, u))))
    case _ => c
  }

  /** Update, failure: the detail snapshot written back, then the detail key invalidated on settle. */
  function UpdateFailed(c: Cache, u: UpdateOrderInput): Cache
  {
    Invalidate(SetData(UpdateOptimistic(c, u), OrdersDetail(u.id), DetailOf(c, u.id)), OrdersDetail(u.id))
  }

  /** Update, success: all orders keys invalidated, then the detail key on settle. */
  function UpdateSucceeded(c: Cache, u: UpdateOrderInput): Cache
  {
    Invalidate(Invalidate(UpdateOptimistic(c, u), OrdersAll), OrdersDetail(u.id))
  }

  /** Delete, optimistic step: every list entry filtered. */
  function DeleteOptimistic(c: Cache, orderId: string): Cache
  {
    UpdateUnder(c, OrdersLists(), WithoutOrder(orderId))
  }

  /** Status, optimistic step on the detail entry. */
  function SetDetailStatus(c: Cache, orderId: string, status: string): Cache
  {
    match DetailOf(c, orderId)
    case Some(OrderDetailData(d)) => SetData(c, OrdersDetail(orderId), Some(OrderDetailData(d.(status := status))))
    case _ => c
  }

  /** Status, optimistic step: the detail entry, then every list entry. */
  function StatusOptimistic(c: Cache, orderId: string, status: string): Cache
  {
    UpdateUnder(SetDetailStatus(c, orderId, status), OrdersLists(), WithStatus(orderId, status))
  }

  /** Status, failure: only the detail snapshot is written back; nothing is invalidated. */
  function StatusFailed(c: Cache, orderId: string, status: string): Cache
  {
    SetData(StatusOptimistic(c, orderId, status), OrdersDetail(orderId), DetailOf(c, orderId))
  }

  // ---------------------------------------------------------------- properties

  /**
   * The update mutation writes only the detail entry of its id: a cached detail
   * gets the merge, a missing one stays missing, and every other entry, lists
   * included, keeps its data.
   */
  lemma UpdateTouchesOnlyDetail(c: Cache, u: UpdateOrderInput)
    ensures var r := UpdateOptimistic(c, u);
      && r.entries.Keys == c.entries.Keys
      && (forall k :: k in c.entries && k != OrdersDetail(u.id) ==> r.entries[k] == c.entries[k])
      && (forall d :: DetailOf(c, u.id) == Some(OrderDetailData(d)) ==>
            DetailOf(r, u.id) == Some(OrderDetailData(MergeUpdate(d, u))))
  {
    if DetailOf(c, u.id).Some? && DetailOf(c, u.id).value.OrderDetailData? {
      assert OrdersDetail(u.id) in c.entries;
    }
  }

  /**
   * A failed update leaves every entry as it was before the mutation, and the
   * detail key is invalidated whichever way the update ends.
   */
  lemma UpdateFailureRestores(c: Cache, u: UpdateOrderInput)
    ensures UpdateFailed(c, u).entries == c.entries
    ensures OrdersDetail(u.id) in c.entries ==> OrdersDetail(u.id) in UpdateFailed(c, u).invalidated
    ensures OrdersDetail(u.id) in c.entries ==> OrdersDetail(u.id) in UpdateSucceeded(c, u).invalidated
  {
    var k := OrdersDetail(u.id);
    var o := UpdateOptimistic(c, u);
    if k in c.entries {
      assert o.entries.Keys == c.entries.Keys;
      var restored := SetData(o, k, DetailOf(c, u.id));
      if c.entries[k].Some? {
        assert restored.entries == c.entries;
      }
    }
  }

  /**
   * Optimistic delete: every cached list loses exactly the orders with that id,
   * in the same order; lists without data stay without; no other entry changes.
   */
  lemma DeleteOptimisticEffect(c: Cache, orderId: string)
    ensures var r := DeleteOptimistic(c, orderId);
      && r.entries.Keys == c.entries.Keys
      && (forall k :: k in c.entries && !Under(k, OrdersLists()) ==> r.entries[k] == c.entries[k])
      && (forall k, os :: k in c.entries && Under(k, OrdersLists()) && c.entries[k] == Some(OrderList(os)) ==>
            r.entries[k] == Some(OrderList(Seqs.Filter(os, (o: Order) => o.id != orderId))))
      && (forall k :: k in c.entries && c.entries[k].None? ==> r.entries[k].None?)
      && (forall id :: OrdersDetail(id) in c.entries ==> r.entries[OrdersDetail(id)] == c.entries[OrdersDetail(id)])
  {
    forall id | OrdersDetail(id) in c.entries
      ensures !Under(OrdersDetail(id), OrdersLists())
    {
      ListsAndDetailsDisjoint(None, id);
    }
  }

  /** After the delete filter no cached list holds an order with that id. */
  lemma DeleteRemovesId(c: Cache, orderId: string, k: Key, os: seq<Order>)
    requires k in DeleteOptimistic(c, orderId).entries
    requires DeleteOptimistic(c, orderId).entries[k] == Some(OrderList(os))
    requires Under(k, OrdersLists())
    ensures forall i :: 0 <= i < |os| ==> os[i].id != orderId
  {
    var before := c.entries[k];
    assert before.Some? && before.value.OrderList?;
    assert os == Seqs.Filter(before.value.orders, (o: Order) => o.id != orderId);
  }

  /** A failed delete writes its snapshot back, so every entry is as before the mutation. */
  lemma DeleteFailureRestores(c: Cache, orderId: string, snap: Snapshot)
    requires IsSnapshot(snap, c.entries, OrdersLists())
    ensures Restore(DeleteOptimistic(c, orderId), snap).entries == c.entries
  {
    RollbackRestoresEntries(c, OrdersLists(), WithoutOrder(orderId), snap);
  }

  /** The detail step of a status change writes at most the detail entry of its id. */
  lemma SetDetailStatusEffect(c: Cache, orderId: string, status: string)
    ensures var c1 := SetDetailStatus(c, orderId, status);
      && c1.entries.Keys == c.entries.Keys
      && (forall k :: k in c.entries && k != OrdersDetail(orderId) ==> c1.entries[k] == c.entries[k])
      && (forall d :: DetailOf(c, orderId) == Some(OrderDetailData(d)) ==>
            DetailOf(c1, orderId) == Some(OrderDetailData(d.(status := status))))
      && (DetailOf(c, orderId).None? ==> DetailOf(c1, orderId).None?)
  {
    if DetailOf(c, orderId).Some? { assert OrdersDetail(orderId) in c.entries; }
  }

  /** Optimistic status change, detail part: a cached detail gets only the new status, a missing one stays missing. */
  lemma StatusOptimisticDetail(c: Cache, orderId: string, status: string)
    ensures var r := StatusOptimistic(c, orderId, status);
      && r.entries.Keys == c.entries.Keys
      && (forall d :: DetailOf(c, orderId) == Some(OrderDetailData(d)) ==>
            DetailOf(r, orderId) == Some(OrderDetailData(d.(status := status))))
      && (DetailOf(c, orderId).None? ==> DetailOf(r, orderId).None?)
  {
    SetDetailStatusEffect(c, orderId, status);
    ListsAndDetailsDisjoint(None, orderId);
  }

  /** Optimistic status change, list part: each cached list has the status of that id's orders changed. */
  lemma StatusOptimisticLists(c: Cache, orderId: string, status: string)
    ensures var r := StatusOptimistic(c, orderId, status);
      && (forall k, os :: k in c.entries && Under(k, OrdersLists()) && c.entries[k] == Some(OrderList(os)) ==>
            r.entries[k] == Some(OrderList(SetStatusWhere(os, orderId, status))))
      && (forall k :: k in c.entries && Under(k, OrdersLists()) && c.entries[k].None? ==> r.entries[k].None?)
  {
    SetDetailStatusEffect(c, orderId, status);
    ListsAndDetailsDisjoint(None, orderId);
  }

  /** Optimistic status change, the rest: entries neither lists nor that detail keep their data. */
  lemma StatusOptimisticOthers(c: Cache, orderId: string, status: string)
    ensures var r := StatusOptimistic(c, orderId, status);
      forall k :: k in c.entries && !Under(k, OrdersLists()) && k != OrdersDetail(orderId) ==>
        k in r.entries && r.entries[k] == c.entries[k]
  {
    SetDetailStatusEffect(c, orderId, status);
  }

  /**
   * Optimistic status change: a cached detail gets only the new status, a missing
   * one stays missing; every cached list changes the status of the orders with
   * that id and nothing else; lists without data stay without.
   */
  lemma StatusOptimisticEffect(c: Cache, orderId: string, status: string)
    ensures var r := StatusOptimistic(c, orderId, status);
      && r.entries.Keys == c.entries.Keys
      && (forall d :: DetailOf(c, orderId) == Some(OrderDetailData(d)) ==>
            DetailOf(r, orderId) == Some(OrderDetailData(d.(status := status))))
      && (forall k :: k in c.entries && !Under(k, OrdersLists()) && k != OrdersDetail(orderId) ==>
            r.entries[k] == c.entries[k])
      && (forall k, os :: k in c.entries && Under(k, OrdersLists()) && c.entries[k] == Some(OrderList(os)) ==>
            r.entries[k] == Some(OrderList(SetStatusWhere(os, orderId, status))))
      && (forall k :: k in c.entries && Under(k, OrdersLists()) && c.entries[k].None? ==> r.entries[k].None?)
  {
    StatusOptimisticDetail(c, orderId, status);
    StatusOptimisticLists(c, orderId, status);
    StatusOptimisticOthers(c, orderId, status);
  }

  /**
   * A failed status change writes back only the detail entry: the detail is as
   * before, while every cached list keeps the optimistic status, and nothing is
   * invalidated that was not already.
   */
  lemma StatusFailureRestoresOnlyDetail(c: Cache, orderId: string, status: string)
    ensures var r := StatusFailed(c, orderId, status);
      && DetailOf(r, orderId) == DetailOf(c, orderId)
      && (forall k :: k in c.entries && Under(k, OrdersLists()) ==>
            r.entries[k] == StatusOptimistic(c, orderId, status).entries[k])
      && r.invalidated <= c.invalidated
  {
    var o := StatusOptimistic(c, orderId, status);
    StatusOptimisticEffect(c, orderId, status);
    ListsAndDetailsDisjoint(None, orderId);
    if OrdersDetail(orderId) in c.entries && c.entries[OrdersDetail(orderId)].None? {
      assert DetailOf(o, orderId).None?;
    }
  }

  /** A failed status change can leave a cached list different from before the mutation. */
  lemma StatusFailureKeepsOptimisticList()
    ensures var o := Order("ORD-001", "Acme", "Web", "Pending", "2024-01-01", 100.0);
      var c := Cache(map[OrdersList(None) := Some(OrderList([o]))], {});
      StatusFailed(c, "ORD-001", "Completed").entries[OrdersList(None)]
        == Some(OrderList([o.(status := "Completed")]))
      && StatusFailed(c, "ORD-001", "Completed").entries != c.entries
  {
    var o := Order("ORD-001", "Acme", "Web", "Pending", "2024-01-01", 100.0);
    var c := Cache(map[OrdersList(None) := Some(OrderList([o]))], {});
    StatusOptimisticEffect(c, "ORD-001", "Completed");
    StatusFailureRestoresOnlyDetail(c, "ORD-001", "Completed");
    var r := StatusFailed(c, "ORD-001", "Completed");
    assert OrdersList(None) in c.entries;
    assert SetStatusWhere([o], "ORD-001", "Completed")[0] == o.(status := "Completed");
    assert SetStatusWhere([o], "ORD-001", "Completed") == [o.(status := "Completed")];
    assert r.entries[OrdersList(None)] != c.entries[OrdersList(None)];
  }

  /**
   * Status failure with the lists rolled back as well: the list snapshot taken
   * before the optimistic step is written back, then the detail snapshot.
   */
  function StatusFailedWithListRollback(c: Cache, orderId: string, status: string, snap: Snapshot): Cache
  {
    SetData(Restore(StatusOptimistic(c, orderId, status), snap), OrdersDetail(orderId), DetailOf(c, orderId))
  }

  /** A list snapshot taken before the detail step is still a snapshot of the lists after it. */
  lemma ListSnapshotSurvivesDetailStep(c: Cache, orderId: string, status: string, snap: Snapshot)
    requires IsSnapshot(snap, c.entries, OrdersLists())
    ensures IsSnapshot(snap, SetDetailStatus(c, orderId, status).entries, OrdersLists())
  {
    var c1 := SetDetailStatus(c, orderId, status);
    SetDetailStatusEffect(c, orderId, status);
    ListsAndDetailsDisjoint(None, orderId);
    assert KeysUnder(c1.entries, OrdersLists()) == KeysUnder(c.entries, OrdersLists());
  }

  /** Writing the old detail back over the detail step gives every entry its old data. */
  lemma DetailStepUndone(c: Cache, orderId: string, status: string, back: Cache)
    requires back.entries == SetDetailStatus(c, orderId, status).entries
    ensures SetData(back, OrdersDetail(orderId), DetailOf(c, orderId)).entries == c.entries
  {
    var detail := OrdersDetail(orderId);
    SetDetailStatusEffect(c, orderId, status);
    if detail in c.entries && c.entries[detail].Some? {
      assert SetData(back, detail, DetailOf(c, orderId)).entries == c.entries;
    }
  }

  /** With the list rollback, a failed status change leaves every entry as it was. */
  lemma StatusFailureWithListRollbackRestores(c: Cache, orderId: string, status: string, snap: Snapshot)
    requires IsSnapshot(snap, c.entries, OrdersLists())
    ensures StatusFailedWithListRollback(c, orderId, status, snap).entries == c.entries
  {
    ListSnapshotSurvivesDetailStep(c, orderId, status, snap);
    RollbackRestoresEntries(SetDetailStatus(c, orderId, status), OrdersLists(), WithStatus(orderId, status), snap);
    DetailStepUndone(c, orderId, status, Restore(StatusOptimistic(c, orderId, status), snap));
  }

  /** Every successful mutation invalidates every cached orders entry. */
  lemma SuccessInvalidatesAllOrders(c: Cache, u: UpdateOrderInput, orderId: string, status: string)
    ensures forall k :: k in c.entries && Under(k, OrdersAll) ==>
      && k in Invalidate(c, OrdersAll).invalidated
      && k in UpdateSucceeded(c, u).invalidated
      && k in Invalidate(DeleteOptimistic(c, orderId), OrdersAll).invalidated
      && k in Invalidate(StatusOptimistic(c, orderId, status), OrdersAll).invalidated
  {
    UpdateTouchesOnlyDetail(c, u);
    StatusOptimisticEffect(c, orderId, status);
  }

  // ---------------------------------------------------------------- mutations

  /** Create: no optimistic step; success invalidates every orders entry. */
  method CreateOrderMutation(qc: QueryClient, result: Outcome<OrderDetail>) returns (toast: Toast)
    modifies qc
    ensures result.Resolved? ==> qc.State() == Invalidate(old(qc.State()), OrdersAll)
    ensures result.Rejected? ==> qc.State() == old(qc.State())
    ensures result.Resolved? ==> toast == Toast("Order Created", "New order has been created successfully", false)
    ensures result.Rejected? ==> toast == ErrorToast(result.error)
  {
    match result
    case Resolved(_) =>
      qc.InvalidateQueries(OrdersAll);
      toast := Toast("Order Created", "New order has been created successfully", false);
    case Rejected(e) =>
      toast := ErrorToast(e);
  }

  /** Update: optimistic merge into the detail entry, rollback on failure, detail invalidated on settle. */
  method UpdateOrderMutation(qc: QueryClient, u: UpdateOrderInput, result: Outcome<OrderDetail>) returns (toast: Toast)
    modifies qc
    ensures result.Resolved? ==> qc.State() == UpdateSucceeded(old(qc.State()), u)
    ensures result.Rejected? ==> qc.State() == UpdateFailed(old(qc.State()), u)
    ensures result.Rejected? ==> qc.entries == old(qc.entries)
    ensures result.Resolved? ==> toast == Toast("Order Updated", "Order has been updated successfully", false)
    ensures result.Rejected? ==> toast == ErrorToast(result.error)
  {
    ghost var c := qc.State();
    // onMutate
    var previousOrder := qc.GetQueryData(OrdersDetail(u.id));
    if previousOrder.Some? && previousOrder.value.OrderDetailData? {
      qc.SetQueryData(OrdersDetail(u.id), Some(OrderDetailData(MergeUpdate(previousOrder.value.detail, u))));
    }
    assert qc.State() == UpdateOptimistic(c, u);
    match result
    case Resolved(_) =>
      qc.InvalidateQueries(OrdersAll);
      toast := Toast("Order Updated", "Order has been updated successfully", false);
    case Rejected(e) =>
      qc.SetQueryData(OrdersDetail(u.id), previousOrder);
      toast := ErrorToast(e);
      UpdateFailureRestores(c, u);
    // onSettled
    qc.InvalidateQueries(OrdersDetail(u.id));
  }

  /** Delete: every list filtered optimistically, all lists written back on failure. */
  method DeleteOrderMutation(qc: QueryClient, orderId: string, result: Outcome<bool>) returns (toast: Toast)
    modifies qc
    ensures result.Resolved? ==> qc.State() == Invalidate(DeleteOptimistic(old(qc.State()), orderId), OrdersAll)
    ensures result.Rejected? ==> qc.entries == old(qc.entries)
    ensures result.Rejected? ==> qc.invalidated <= old(qc.invalidated)
    ensures result.Resolved? ==> toast == Toast("Order Deleted", "Order " + orderId + " has been deleted successfully", false)
    ensures result.Rejected? ==> toast == ErrorToast(result.error)
  {
    ghost var c := qc.State();
    // onMutate
    var previousQueries := qc.GetQueriesData(OrdersLists());
    qc.SetQueriesData(OrdersLists(), WithoutOrder(orderId));
    match result
    case Resolved(_) =>
      qc.InvalidateQueries(OrdersAll);
      toast := Toast("Order Deleted", "Order " + orderId + " has been deleted successfully", false);
    case Rejected(e) =>
      qc.RestoreQueries(previousQueries);
      DeleteFailureRestores(c, orderId, previousQueries);
      RestoreNeverInvalidates(DeleteOptimistic(c, orderId), previousQueries);
      toast := ErrorToast(e);
  }

  /** Status: optimistic write to the detail and every list; failure writes back the detail only. */
  method UpdateOrderStatusMutation(qc: QueryClient, orderId: string, status: OrderStatus, result: Outcome<OrderDetail>)
    returns (toast: Toast)
    modifies qc
    ensures result.Resolved? ==> qc.State() == Invalidate(StatusOptimistic(old(qc.State()), orderId, status), OrdersAll)
    ensures result.Rejected? ==> qc.State() == StatusFailed(old(qc.State()), orderId, status)
    ensures result.Resolved? ==> toast == Toast("Status Updated", "Order status changed to " + status, false)
    ensures result.Rejected? ==> toast == ErrorToast(result.error)
  {
    ghost var c := qc.State();
    // onMutate
    var previousOrder := qc.GetQueryData(OrdersDetail(orderId));
    if previousOrder.Some? && previousOrder.value.OrderDetailData? {
      qc.SetQueryData(OrdersDetail(orderId), Some(OrderDetailData(previousOrder.value.detail.(status := status))));
    }
    assert qc.State() == SetDetailStatus(c, orderId, status);
    qc.SetQueriesData(OrdersLists(), WithStatus(orderId, status));
    match result
    case Resolved(_) =>
      qc.InvalidateQueries(OrdersAll);
      toast := Toast("Status Updated", "Order status changed to " + status, false);
    case Rejected(e) =>
      qc.SetQueryData(OrdersDetail(orderId), previousOrder);
      toast := ErrorToast(e);
  }

  /** Writing entries back only ever clears invalidation marks. */
  lemma {:induction false} RestoreNeverInvalidates(c: Cache, snap: Snapshot)
    ensures Restore(c, snap).invalidated <= c.invalidated
    decreases |snap|
  {
    if snap != [] {
      RestoreNeverInvalidates(SetData(c, snap[0].0, snap[0].1), snap[1..]);
    }
  }
}
