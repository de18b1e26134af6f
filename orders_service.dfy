/**
 * The orders service: row transforms, the partial update record, the list query
 * it builds from the filters, the way it maps backend answers and errors to
 * results, and the statistics it aggregates. The backend is a parameter: a
 * function from the record sent to the answer, or the answer itself.
 */
module OrdersService {
  import opened Wrappers
  import opened Domain
  import opened Errors
  import opened Schemas
  import OrdersQuery
  import Seqs

  /** A row of the orders table; `notes` may come back null. */
  datatype DbOrder = DbOrder(
    id: string,
    clientName: string,
    clientEmail: string,
    projectType: string,
    status: string,
    deadline: string,
    amount: real,
    description: string,
    notes: Option<string>,
    createdAt: string,
    updatedAt: string)

  /** The insert record: every column but the generated ones. */
  datatype DbOrderInsert = DbOrderInsert(
    clientName: string,
    clientEmail: string,
    projectType: string,
    status: string,
    deadline: string,
    amount: real,
    description: string,
    notes: string)

  /** The update record: a column is written only when it is present. */
  datatype DbOrderUpdate = DbOrderUpdate(
    clientName: Option<string>,
    clientEmail: Option<string>,
    projectType: Option<string>,
    status: Option<string>,
    deadline: Option<string>,
    amount: Option<real>,
    description: Option<string>,
    notes: Option<string>)

  /** `update(patch).eq("id", matchId)`: the patch and the id of the row it is written to. */
  datatype OrderUpdateRequest = OrderUpdateRequest(matchId: string, patch: DbOrderUpdate)

  // ---------------------------------------------------------------- transforms

  /** A row with all its columns as an order detail; null notes read as "". */
  function ToOrderDetail(row: DbOrder): (d: OrderDetail)
    ensures d.id == row.id && d.status == row.status && d.amount == row.amount
    ensures d.updatedAt == Some(row.updatedAt)
    ensures d.notes == "" <==> row.notes == None || row.notes == Some("")
  {
    OrderDetail(row.id, row.clientName, row.clientEmail, row.projectType, row.status,
      row.deadline, row.amount, row.description, row.createdAt, Some(row.updatedAt),
      row.notes.GetOr(""))
  }

  /** A row as an order: exactly the six summary fields of its detail. */
  function ToOrder(row: DbOrder): (o: Order)
    ensures o == ToOrderDetail(row).Summary()
  {
    Order(row.id, row.clientName, row.projectType, row.status, row.deadline, row.amount)
  }

  /** The row an order detail with a known update time was read from, with non-null notes. */
  function ToRow(d: OrderDetail): DbOrder
  {
    DbOrder(d.id, d.clientName, d.clientEmail, d.projectType, d.status, d.deadline,
      d.amount, d.description, Some(d.notes), d.createdAt, d.updatedAt.GetOr(""))
  }

  /** The detail transform loses nothing but the difference between null and empty notes. */
  lemma DetailTransformRoundTrip(row: DbOrder, d: OrderDetail)
    ensures ToRow(ToOrderDetail(row)) == row.(notes := Some(row.notes.GetOr("")))
    ensures d.updatedAt.Some? ==> ToOrderDetail(ToRow(d)) == d
  {
  }

  // ---------------------------------------------------------------- the list query

  /** The list request: its ordering, its optional status and search filters, its optional row limit. */
  datatype ListQuery = ListQuery(
    orderBy: string,
    ascending: bool,
    statusEq: Option<string>,
    searchOr: Option<string>,
    limit: Option<int>)

  /** The `or` filter of a search: the term matched case-insensitively against name, project type and id. */
  function SearchClause(term: string): string
  {
    "client_name.ilike." + term + ",project_type.ilike." + term + ",id.ilike." + term
  }

  /**
   * `fetchOrders` builds its request step by step: newest first, the status
   * filter only for a given non-empty status, the search filter only for a given
   * non-empty query, which is wrapped as `%query%`.
   */
  method PlanFetchOrders(filters: Option<OrderFilters>) returns (q: ListQuery)
    ensures q.orderBy == "created_at" && !q.ascending && q.limit == None
    ensures q.statusEq.Some? <==> filters.Some? && filters.value.status.Some? && filters.value.status.value != ""
    ensures q.statusEq.Some? ==> q.statusEq == filters.value.status
    ensures q.searchOr.Some? <==> filters.Some? && filters.value.searchQuery.Some? && filters.value.searchQuery.value != ""
    ensures q.searchOr.Some? ==> q.searchOr == Some(SearchClause("%" + filters.value.searchQuery.value + "%"))
  {
    q := ListQuery("created_at", false, None, None, None);
    if filters.Some? && filters.value.status.Some? && filters.value.status.value != "" {
      q := q.(statusEq := filters.value.status);
    }
    if filters.Some? && filters.value.searchQuery.Some? && filters.value.searchQuery.value != "" {
      var searchTerm := "%" + filters.value.searchQuery.value + "%";
      q := q.(searchOr := Some(SearchClause(searchTerm)));
    }
  }

  /** `fetchRecentOrders`: nearest deadline first, at most `limit` rows. */
  function PlanRecentOrders(limit: int): (q: ListQuery)
    ensures q.orderBy == "deadline" && q.ascending && q.limit == Some(limit)
    ensures q.statusEq.None? && q.searchOr.None?
  {
    ListQuery("deadline", true, None, None, Some(limit))
  }

  /** The default limit of `fetchRecentOrders`. */
  const DefaultRecentLimit: int := 5

  // ---------------------------------------------------------------- answers

  /**
   * A list answer: the backend's error becomes the service error with the
   * operation's message and the backend's code; null data is the empty list;
   * a row failing the schema is wrapped as an unexpected error.
   */
  function ListResult(answer: Backend<seq<DbOrder>>, failMessage: string, context: string, unexpected: string)
    : (r: Result<seq<Order>, Thrown>)
    ensures answer.Failed? ==> r == Err(Thrown(OrderServiceError, failMessage, Some(answer.code)))
    ensures answer == Data(None) ==> r == Ok([])
    ensures answer.Data? && answer.rows.Some? ==>
      (r.Ok? <==> forall i :: 0 <= i < |answer.rows.value| ==> ValidOrder(ToOrder(answer.rows.value[i])))
    ensures answer.Data? && answer.rows.Some? && r.Ok? ==> r.value == Seqs.Map(answer.rows.value, ToOrder)
    ensures answer.Data? && r.Err? ==> r.error == Thrown(OrderServiceError, unexpected, Some(UnknownErrorCode))
  {
    match answer
    case Failed(code, _) => Err(Thrown(OrderServiceError, failMessage, Some(code)))
    case Data(None) => Ok([])
    case Data(Some(rows)) =>
      var v := ValidateEach(Seqs.Map(rows, ToOrder), OrderIssues, context);
      if v.Ok? then Ok(v.value) else Err(Rethrow(v.error, OrderServiceError, unexpected))
  }

  function FetchOrders(answer: Backend<seq<DbOrder>>): (r: Result<seq<Order>, Thrown>)
    ensures answer.Failed? ==> r == Err(Thrown(OrderServiceError, "Failed to fetch orders", Some(answer.code)))
    ensures answer == Data(None) ==> r == Ok([])
    ensures answer.Data? && r.Err? ==> r.error.message == "Unexpected error fetching orders"
  {
    ListResult(answer, "Failed to fetch orders", "order", "Unexpected error fetching orders")
  }

  function FetchRecentOrders(answer: Backend<seq<DbOrder>>): (r: Result<seq<Order>, Thrown>)
    ensures answer.Failed? ==> r == Err(Thrown(OrderServiceError, "Failed to fetch recent orders", Some(answer.code)))
    ensures answer == Data(None) ==> r == Ok([])
    ensures answer.Data? && r.Err? ==> r.error.message == "Unexpected error fetching recent orders"
  {
    ListResult(answer, "Failed to fetch recent orders", "recent order", "Unexpected error fetching recent orders")
  }

  /**
   * The error of a single-row request on order `orderId`: the no-rows code means
   * the order does not exist when `mapsNoRows`; any other code keeps the
   * operation's message and the backend's code.
   */
  function SingleRowError(orderId: string, code: string, mapsNoRows: bool, failMessage: string): (e: Thrown)
    ensures e.cls == OrderServiceError
    ensures mapsNoRows && code == NoRowsCode ==>
      e == Thrown(OrderServiceError, "Order with ID " + orderId + " not found", Some(NotFoundCode))
    ensures !(mapsNoRows && code == NoRowsCode) ==> e == Thrown(OrderServiceError, failMessage, Some(code))
  {
    if mapsNoRows && code == NoRowsCode then
      Thrown(OrderServiceError, "Order with ID " + orderId + " not found", Some(NotFoundCode))
    else Thrown(OrderServiceError, failMessage, Some(code))
  }

  /**
   * A single-row answer: the row's detail when it passes the detail schema; the
   * mapped backend error; or, for a missing row or a failing schema, the
   * unexpected-error wrapper.
   */
  function DetailResult(orderId: string, answer: Backend<DbOrder>, fmt: Formats, mapsNoRows: bool,
                        failMessage: string, context: string, unexpected: string)
    : (r: Result<OrderDetail, Thrown>)
    ensures answer.Failed? ==> r == Err(SingleRowError(orderId, answer.code, mapsNoRows, failMessage))
    ensures answer.Data? && answer.rows.Some? ==>
      (r.Ok? <==> ValidOrderDetail(ToOrderDetail(answer.rows.value), fmt))
    ensures r.Ok? ==> answer.Data? && answer.rows.Some? && r.value == ToOrderDetail(answer.rows.value)
    ensures answer.Data? && r.Err? ==> r.error == Thrown(OrderServiceError, unexpected, Some(UnknownErrorCode))
  {
    match answer
    case Failed(code, _) => Err(SingleRowError(orderId, code, mapsNoRows, failMessage))
    case Data(None) => Err(Thrown(OrderServiceError, unexpected, Some(UnknownErrorCode)))
    case Data(Some(row)) =>
      var d := ToOrderDetail(row);
      match ValidateData(d, OrderDetailIssues(d, fmt), context)
      case Ok(v) => Ok(v)
      case Err(e) => Err(Rethrow(e, OrderServiceError, unexpected))
  }

  /** `fetchOrderById`: a missing order is NOT_FOUND with its id in the message. */
  function FetchOrderById(orderId: string, answer: Backend<DbOrder>, fmt: Formats): (r: Result<OrderDetail, Thrown>)
    ensures answer == Failed(NoRowsCode, "") ==>
      r == Err(Thrown(OrderServiceError, "Order with ID " + orderId + " not found", Some(NotFoundCode)))
    ensures answer.Failed? && answer.code != NoRowsCode ==>
      r == Err(Thrown(OrderServiceError, "Failed to fetch order", Some(answer.code)))
    ensures r.Ok? ==> answer.Data? && answer.rows.Some? && r.value == ToOrderDetail(answer.rows.value)
    ensures r.Ok? ==> ValidOrderDetail(r.value, fmt)
  {
    DetailResult(orderId, answer, fmt, true, "Failed to fetch order", "order detail", "Unexpected error fetching order")
  }

  /** The insert record of a validated create input: its fields, with absent notes as "". */
  function InsertRecord(v: CreateOrderInput): (ins: DbOrderInsert)
    ensures ins.clientName == v.clientName && ins.status == v.status && ins.amount == v.amount
    ensures ins.notes == v.notes.GetOr("")
  {
    DbOrderInsert(v.clientName, v.clientEmail, v.projectType, v.status, v.deadline, v.amount,
      v.description, v.notes.GetOr(""))
  }

  /**
   * `createOrder`: an input failing the create schema never reaches the backend
   * and fails as an unexpected error; otherwise the insert record is sent and its
   * answer is read as a single row, without a not-found case.
   */
  function CreateOrder(input: CreateOrderInput, fmt: Formats, backend: DbOrderInsert -> Backend<DbOrder>)
    : (r: Result<OrderDetail, Thrown>)
    ensures !ValidCreateOrder(input, fmt) ==>
      r == Err(Thrown(OrderServiceError, "Unexpected error creating order", Some(UnknownErrorCode)))
    ensures ValidCreateOrder(input, fmt) && backend(InsertRecord(input)).Failed? ==>
      r == Err(Thrown(OrderServiceError, "Failed to create order", Some(backend(InsertRecord(input)).code)))
    ensures r.Ok? ==> ValidCreateOrder(input, fmt) && ValidOrderDetail(r.value, fmt)
  {
    match ParseCreateOrder(input, fmt)
    case Err(issues) =>
      Err(Rethrow(Thrown(PlainError, ValidationMessage("create order input", issues), None),
                  OrderServiceError, "Unexpected error creating order"))
    case Ok(v) =>
      assert InsertRecord(v) == InsertRecord(input);
      DetailResult("", backend(InsertRecord(v)), fmt, false,
        "Failed to create order", "created order", "Unexpected error creating order")
  }

  // ---------------------------------------------------------------- updates

  /** The update record of a validated update input: each present field, nothing else. */
  function PatchOf(v: UpdateOrderInput): DbOrderUpdate
  {
    DbOrderUpdate(v.clientName, v.clientEmail, v.projectType, v.status, v.deadline, v.amount,
      v.description, v.notes)
  }

  /** `updateOrder` fills its update record field by field, only for defined fields. */
  method BuildOrderUpdate(v: UpdateOrderInput) returns (u: DbOrderUpdate)
    ensures u == PatchOf(v)
  {
    u := DbOrderUpdate(None, None, None, None, None, None, None, None);
    if v.clientName.Some? { u := u.(clientName := v.clientName); }
    if v.clientEmail.Some? { u := u.(clientEmail := v.clientEmail); }
    if v.projectType.Some? { u := u.(projectType := v.projectType); }
    if v.status.Some? { u := u.(status := v.status); }
    if v.deadline.Some? { u := u.(deadline := v.deadline); }
    if v.amount.Some? { u := u.(amount := v.amount); }
    if v.description.Some? { u := u.(description := v.description); }
    if v.notes.Some? { u := u.(notes := v.notes); }
  }

  /** The columns an input defines and the columns a record writes. */
  function Defined(v: UpdateOrderInput): set<string>
  {
    (if v.clientName.Some? then {"client_name"} else {})
    + (if v.clientEmail.Some? then {"client_email"} else {})
    + (if v.projectType.Some? then {"project_type"} else {})
    + (if v.status.Some? then {"status"} else {})
    + (if v.deadline.Some? then {"deadline"} else {})
    + (if v.amount.Some? then {"amount"} else {})
    + (if v.description.Some? then {"description"} else {})
    + (if v.notes.Some? then {"notes"} else {})
  }

  function Written(u: DbOrderUpdate): set<string>
  {
    (if u.clientName.Some? then {"client_name"} else {})
    + (if u.clientEmail.Some? then {"client_email"} else {})
    + (if u.projectType.Some? then {"project_type"} else {})
    + (if u.status.Some? then {"status"} else {})
    + (if u.deadline.Some? then {"deadline"} else {})
    + (if u.amount.Some? then {"amount"} else {})
    + (if u.description.Some? then {"description"} else {})
    + (if u.notes.Some? then {"notes"} else {})
  }

  /** What the backend does with an update record: the written columns change, the others stay. */
  function ApplyPatch(row: DbOrder, u: DbOrderUpdate): DbOrder
  {
    row.(clientName := u.clientName.GetOr(row.clientName),
         clientEmail := u.clientEmail.GetOr(row.clientEmail),
         projectType := u.projectType.GetOr(row.projectType),
         status := u.status.GetOr(row.status),
         deadline := u.deadline.GetOr(row.deadline),
         amount := u.amount.GetOr(row.amount),
         description := u.description.GetOr(row.description),
         notes := if u.notes.Some? then u.notes else row.notes)
  }

  /**
   * The record writes exactly the columns the input defines, and the row it
   * produces reads back as the optimistic overlay the cache shows for the same
   * input: the server and the client agree on the updated order.
   */
  lemma PatchAgreesWithOverlay(row: DbOrder, v: UpdateOrderInput)
    requires v.id == row.id
    ensures Written(PatchOf(v)) == Defined(v)
    ensures ToOrderDetail(ApplyPatch(row, PatchOf(v))) == OrdersQuery.MergeUpdate(ToOrderDetail(row), v)
    ensures Defined(v) == {} ==> ApplyPatch(row, PatchOf(v)) == row
  {
  }

  /** The input `updateOrderStatus(id, s)` passes on: the id and the status, nothing else. */
  function StatusInput(orderId: string, status: OrderStatus): (v: UpdateOrderInput)
    ensures v.id == orderId && Defined(v) == {"status"}
  {
    UpdateOrderInput(orderId, None, None, None, Some(status), None, None, None, None)
  }

  /**
   * `updateOrder`: an input failing the update schema never reaches the backend;
   * otherwise its record is sent for the row of its id, and a missing row is
   * NOT_FOUND with that id in the message.
   */
  method UpdateOrder(input: UpdateOrderInput, fmt: Formats, backend: OrderUpdateRequest -> Backend<DbOrder>)
    returns (r: Result<OrderDetail, Thrown>)
    ensures !ValidUpdateOrder(input, fmt) ==>
      r == Err(Thrown(OrderServiceError, "Unexpected error updating order", Some(UnknownErrorCode)))
    ensures ValidUpdateOrder(input, fmt) && backend(OrderUpdateRequest(input.id, PatchOf(input))) == Failed(NoRowsCode, "") ==>
      r == Err(Thrown(OrderServiceError, "Order with ID " + input.id + " not found", Some(NotFoundCode)))
    ensures ValidUpdateOrder(input, fmt) ==>
      r == DetailResult(input.id, backend(OrderUpdateRequest(input.id, PatchOf(input))), fmt, true,
        "Failed to update order", "updated order", "Unexpected error updating order")
    ensures r.Ok? ==> ValidUpdateOrder(input, fmt) && ValidOrderDetail(r.value, fmt)
  {
    var issues := UpdateOrderIssues(input, fmt);
    if issues != [] {
      var e := Thrown(PlainError, ValidationMessage("update order input", issues), None);
      return Err(Rethrow(e, OrderServiceError, "Unexpected error updating order"));
    }
    var dbUpdate := BuildOrderUpdate(input);
    r := DetailResult(input.id, backend(OrderUpdateRequest(input.id, dbUpdate)), fmt, true,
      "Failed to update order", "updated order", "Unexpected error updating order");
  }

  /** `updateOrderStatus(id, s)` is `updateOrder({id, status: s})`: the record writes the status alone. */
  method UpdateOrderStatus(orderId: string, status: OrderStatus, fmt: Formats,
                           backend: OrderUpdateRequest -> Backend<DbOrder>)
    returns (r: Result<OrderDetail, Thrown>)
    ensures |orderId| >= 1 ==>
      r == DetailResult(orderId, backend(OrderUpdateRequest(orderId, PatchOf(StatusInput(orderId, status)))), fmt, true,
        "Failed to update order", "updated order", "Unexpected error updating order")
    ensures |orderId| == 0 ==>
      r == Err(Thrown(OrderServiceError, "Unexpected error updating order", Some(UnknownErrorCode)))
  {
    r := UpdateOrder(StatusInput(orderId, status), fmt, backend);
  }

  /** `deleteOrder`: the backend's error becomes "Failed to delete order" with its code. */
  function DeleteOrder(answer: Backend<()>): (r: Result<(), Thrown>)
    ensures r.Ok? <==> answer.Data?
    ensures answer.Failed? ==> r.error == Thrown(OrderServiceError, "Failed to delete order", Some(answer.code))
  {
    match answer
    case Failed(code, _) => Err(Thrown(OrderServiceError, "Failed to delete order", Some(code)))
    case Data(_) => Ok(())
  }

  // ---------------------------------------------------------------- statistics

  /** The order statistics: the row count, one count per status, the sum of amounts. */
  datatype OrderStats = OrderStats(
    total: nat, pending: nat, inProgress: nat, completed: nat, cancelled: nat, totalRevenue: real)

  const ZeroStats: OrderStats := OrderStats(0, 0, 0, 0, 0, 0.0)

  /** The number of rows with status `s`. */
  function CountStatus(rows: seq<DbOrder>, s: string): (n: nat)
    ensures n <= |rows|
  {
    |Seqs.Filter(rows, (o: DbOrder) => o.status == s)|
  }

  /** `rows.reduce((sum, o) => sum + o.amount, 0)`. */
  function Revenue(rows: seq<DbOrder>): real
  {
    if rows == [] then 0.0 else Revenue(rows[..|rows| - 1]) + rows[|rows| - 1].amount
  }

  /** Summing is additive over concatenation, so the revenue of a table is the sum of its parts. */
  lemma {:induction false} RevenueAppend(a: seq<DbOrder>, b: seq<DbOrder>)
    ensures Revenue(a + b) == Revenue(a) + Revenue(b)
    decreases |b|
  {
    if b != [] {
      assert (a + b)[..|a + b| - 1] == a + b[..|b| - 1];
      RevenueAppend(a, b[..|b| - 1]);
    } else {
      assert a + b == a;
    }
  }

  /**
   * `fetchOrderStats`: the backend's error becomes the statistics failure; null
   * data is all zeros; otherwise every count is over the rows.
   */
  function FetchOrderStats(answer: Backend<seq<DbOrder>>): (r: Result<OrderStats, Thrown>)
    ensures answer.Failed? ==> r == Err(Thrown(OrderServiceError, "Failed to fetch order statistics", Some(answer.code)))
    ensures answer == Data(None) ==> r == Ok(ZeroStats)
    ensures answer.Data? ==> r.Ok?
    ensures answer.Data? && answer.rows.Some? ==>
      var rows := answer.rows.value;
      r.value.total == |rows| && r.value.pending == CountStatus(rows, "Pending")
      && r.value.inProgress == CountStatus(rows, "In Progress")
      && r.value.completed == CountStatus(rows, "Completed")
      && r.value.cancelled == CountStatus(rows, "Cancelled")
      && r.value.totalRevenue == Revenue(rows)
  {
    match answer
    case Failed(code, _) => Err(Thrown(OrderServiceError, "Failed to fetch order statistics", Some(code)))
    case Data(None) => Ok(ZeroStats)
    case Data(Some(rows)) =>
      Ok(OrderStats(|rows|, CountStatus(rows, "Pending"), CountStatus(rows, "In Progress"),
        CountStatus(rows, "Completed"), CountStatus(rows, "Cancelled"), Revenue(rows)))
  }

  /** When every row has a valid status, the four status counts add up to the total. */
  lemma {:induction false} StatusCountsSum(rows: seq<DbOrder>)
    requires forall i :: 0 <= i < |rows| ==> IsOrderStatus(rows[i].status)
    ensures CountStatus(rows, "Pending") + CountStatus(rows, "In Progress")
      + CountStatus(rows, "Completed") + CountStatus(rows, "Cancelled") == |rows|
  {
    if rows != [] {
      var rest := rows[1..];
      assert rows == [rows[0]] + rest;
      forall i | 0 <= i < |rest| ensures IsOrderStatus(rest[i].status) { assert rest[i] == rows[i + 1]; }
      StatusCountsSum(rest);
    }
  }

  /** With all statuses valid, the statistics' counts add up to their total. */
  lemma StatsCountsAddUp(rows: seq<DbOrder>)
    requires forall i :: 0 <= i < |rows| ==> IsOrderStatus(rows[i].status)
    ensures var s := FetchOrderStats(Data(Some(rows))).value;
      s.pending + s.inProgress + s.completed + s.cancelled == s.total
  {
    StatusCountsSum(rows);
  }
}
