/**
 * The entities of the order dashboard and the input records its services take.
 * Status and role fields are kept as the text the backend row holds; the schema
 * predicates (module Schemas) say which texts are valid.
 */
module Domain {
  import opened Wrappers

  /** The four order statuses: Pending, In Progress, Completed, Cancelled. */
  predicate IsOrderStatus(s: string)
  {
    s == "Pending" || s == "In Progress" || s == "Completed" || s == "Cancelled"
  }

  type OrderStatus = s: string | IsOrderStatus(s) witness "Pending"

  /** The three task statuses: pending, in-progress, completed. */
  predicate IsTaskStatus(s: string)
  {
    s == "pending" || s == "in-progress" || s == "completed"
  }

  type TaskStatus = s: string | IsTaskStatus(s) witness "pending"

  const TaskPending: TaskStatus := "pending"
  const TaskInProgress: TaskStatus := "in-progress"
  const TaskCompleted: TaskStatus := "completed"

  /** The two user roles. */
  predicate IsRole(s: string)
  {
    s == "user" || s == "admin"
  }

  /** The six summary fields of an order, as order lists show them. */
  datatype Order = Order(
    id: string,
    clientName: string,
    projectType: string,
    status: string,
    deadline: string,
    amount: real)

  /** An order with all its columns. */
  datatype OrderDetail = OrderDetail(
    id: string,
    clientName: string,
    clientEmail: string,
    projectType: string,
    status: string,
    deadline: string,
    amount: real,
    description: string,
    createdAt: string,
    updatedAt: Option<string>,
    notes: string)
  {
    /** The summary `{id, clientName, projectType, status, deadline, amount}` of this order. */
    function Summary(): (o: Order)
      ensures o.id == id && o.status == status && o.amount == amount
    {
      Order(id, clientName, projectType, status, deadline, amount)
    }
  }

  /** A task id is a number or a string; the two are never strictly equal. */
  datatype TaskId = NumId(n: int) | StrId(s: string)

  datatype Task = Task(
    id: TaskId,
    text: string,
    status: string,
    orderId: Option<string>,
    createdAt: Option<string>,
    updatedAt: Option<string>)

  datatype ChartPoint = ChartPoint(name: string, average: real, today: real)

  /** A user profile; `avatarUrl` is `null` when None. */
  datatype Profile = Profile(
    id: string,
    email: string,
    fullName: Option<string>,
    avatarUrl: Option<string>,
    role: string,
    createdAt: string,
    updatedAt: string)

  /**
   * A write to the profiles row `id`: only present columns change. `avatarUrl`
   * is Some(None) when the column is set to null.
   */
  datatype ProfileWrite = ProfileWrite(
    id: string,
    fullName: Option<string>,
    email: Option<string>,
    avatarUrl: Option<Option<string>>,
    role: Option<string>,
    updatedAt: Option<string>)

  /** The optional filters of an order list query. */
  datatype OrderFilters = OrderFilters(status: Option<string>, searchQuery: Option<string>)

  datatype CreateOrderInput = CreateOrderInput(
    clientName: string,
    clientEmail: string,
    projectType: string,
    status: string,
    deadline: string,
    amount: real,
    description: string,
    notes: Option<string>)

  /** A partial order update: `id` plus whichever fields are defined. */
  datatype UpdateOrderInput = UpdateOrderInput(
    id: string,
    clientName: Option<string>,
    clientEmail: Option<string>,
    projectType: Option<string>,
    status: Option<string>,
    deadline: Option<string>,
    amount: Option<real>,
    description: Option<string>,
    notes: Option<string>)

  datatype CreateTaskInput = CreateTaskInput(orderId: string, text: string, status: string)

  /** A partial task update: `id` plus whichever of text and status are defined. */
  datatype UpdateTaskInput = UpdateTaskInput(id: TaskId, text: Option<string>, status: Option<string>)

  /**
   * The format checks the schemas delegate to their validation library
   * (email, URL and UUID syntax), left as parameters.
   */
  datatype Formats = Formats(isEmail: string -> bool, isUrl: string -> bool, isUuid: string -> bool)
}
