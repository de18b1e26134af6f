/**
 * Query keys: hierarchical sequences whose prefixes select groups of cache
 * entries (orders, order lists, order details, per-order task lists, chart data).
 */
module QueryKeys {
  import opened Wrappers
  import opened Domain

  /** One element of a key: a text, a number, or the optional filters object of a list key. */
  datatype KeyPart = Str(s: string) | Num(n: int) | FiltersPart(filters: Option<OrderFilters>)

  type Key = seq<KeyPart>

  /** `prefix` selects `key`: its elements begin `key`. */
  predicate Under(key: Key, prefix: Key)
  {
    prefix <= key
  }

  const OrdersAll: Key := [Str("orders")]
  const TasksAll: Key := [Str("tasks")]
  const ChartDataAll: Key := [Str("chartData")]

  function OrdersLists(): (k: Key)
    ensures |k| == 2 && Under(k, OrdersAll)
  {
    OrdersAll + [Str("list")]
  }

  function OrdersList(filters: Option<OrderFilters>): (k: Key)
    ensures |k| == 3 && Under(k, OrdersLists()) && k[2] == FiltersPart(filters)
  {
    OrdersLists() + [FiltersPart(filters)]
  }

  function OrdersDetails(): (k: Key)
    ensures |k| == 2 && Under(k, OrdersAll)
  {
    OrdersAll + [Str("detail")]
  }

  function OrdersDetail(id: string): (k: Key)
    ensures |k| == 3 && Under(k, OrdersDetails()) && k[2] == Str(id)
  {
    OrdersDetails() + [Str(id)]
  }

  function OrdersStats(): (k: Key)
    ensures |k| == 2 && Under(k, OrdersAll)
  {
    OrdersAll + [Str("stats")]
  }

  function OrdersRecent(limit: int): (k: Key)
    ensures |k| == 3 && Under(k, OrdersAll) && k[2] == Num(limit)
  {
    OrdersAll + [Str("recent"), Num(limit)]
  }

  function TasksByOrder(orderId: string): (k: Key)
    ensures |k| == 2 && Under(k, TasksAll) && k[1] == Str(orderId)
  {
    TasksAll + [Str(orderId)]
  }

  /** Every orders key has `["orders"]` as a prefix, so invalidating it reaches them all. */
  lemma OrdersKeysUnderAll(f: Option<OrderFilters>, id: string, limit: int)
    ensures Under(OrdersLists(), OrdersAll) && Under(OrdersList(f), OrdersAll)
    ensures Under(OrdersDetails(), OrdersAll) && Under(OrdersDetail(id), OrdersAll)
    ensures Under(OrdersStats(), OrdersAll) && Under(OrdersRecent(limit), OrdersAll)
  {
  }

  /** A detail key is never under the lists prefix and a list key never under the details prefix. */
  lemma ListsAndDetailsDisjoint(f: Option<OrderFilters>, id: string)
    ensures !Under(OrdersDetail(id), OrdersLists())
    ensures !Under(OrdersList(f), OrdersDetails())
    ensures !Under(OrdersStats(), OrdersLists()) && !Under(OrdersRecent(0), OrdersLists())
  {
    assert OrdersDetail(id)[1] == Str("detail") != Str("list") == OrdersLists()[1];
    assert OrdersList(f)[1] == Str("list") != Str("detail") == OrdersDetails()[1];
    assert OrdersStats()[1] != OrdersLists()[1];
    assert OrdersRecent(0)[1] != OrdersLists()[1];
  }

  /** `detail`, `list`, `recent` and `byOrder` are injective in their argument. */
  lemma KeysInjective(a: string, b: string, fa: Option<OrderFilters>, fb: Option<OrderFilters>, m: int, n: int)
    ensures OrdersDetail(a) == OrdersDetail(b) ==> a == b
    ensures OrdersList(fa) == OrdersList(fb) ==> fa == fb
    ensures OrdersRecent(m) == OrdersRecent(n) ==> m == n
    ensures TasksByOrder(a) == TasksByOrder(b) ==> a == b
  {
    if OrdersDetail(a) == OrdersDetail(b) { assert OrdersDetail(a)[2] == OrdersDetail(b)[2]; }
    if OrdersList(fa) == OrdersList(fb) { assert OrdersList(fa)[2] == OrdersList(fb)[2]; }
    if OrdersRecent(m) == OrdersRecent(n) { assert OrdersRecent(m)[2] == OrdersRecent(n)[2]; }
    if TasksByOrder(a) == TasksByOrder(b) { assert TasksByOrder(a)[1] == TasksByOrder(b)[1]; }
  }

  /** Task and chart keys lie outside the orders prefix; one order's task key never selects another's. */
  lemma TaskAndChartKeysSeparate(a: string, b: string)
    ensures !Under(TasksAll, OrdersAll) && !Under(TasksByOrder(a), OrdersAll)
    ensures !Under(ChartDataAll, OrdersAll)
    ensures Under(TasksByOrder(b), TasksByOrder(a)) <==> a == b
  {
    assert TasksAll[0] != OrdersAll[0];
    assert TasksByOrder(a)[0] != OrdersAll[0];
    assert ChartDataAll[0] != OrdersAll[0];
    if Under(TasksByOrder(b), TasksByOrder(a)) {
      assert TasksByOrder(a)[1] == TasksByOrder(b)[1];
    }
  }
}
