/**
 * The tasks service: the row transform, the insert and update records, the way
 * backend answers and errors become results, and the bulk update over the
 * individual updates' results.
 */
module TasksService {
  import opened Wrappers
  import opened Domain
  import opened Errors
  import opened Schemas
  import Seqs
  import Text

  /** A row of the tasks table: its id is a number. */
  datatype DbTask = DbTask(id: int, orderId: string, text: string, status: string, createdAt: string, updatedAt: string)

  /** The insert record of `createTask`. */
  datatype DbTaskInsert = DbTaskInsert(orderId: string, text: string, status: string)

  /** The update record of `updateTask`: only present columns are written. */
  datatype DbTaskUpdate = DbTaskUpdate(text: Option<string>, status: Option<string>)

  /**
   * An update request: the record and the id the row is matched on, which is
   * `Number(id)` of the input's id (None for a text that is not a number).
   */
  datatype TaskUpdateRequest = TaskUpdateRequest(matchId: Option<int>, patch: DbTaskUpdate)

  /** A row as a task: id, text and status copied, the other columns renamed. */
  function ToTask(row: DbTask): (t: Task)
    ensures t.id == NumId(row.id) && t.orderId == Some(row.orderId)
    ensures t.createdAt == Some(row.createdAt) && t.updatedAt == Some(row.updatedAt)
  {
    Task(NumId(row.id), row.text, row.status, Some(row.orderId), Some(row.createdAt), Some(row.updatedAt))
  }

  /** The row a task read from the backend came from. */
  function ToDbTask(t: Task): DbTask
  {
    DbTask(if t.id.NumId? then t.id.n else 0, t.orderId.GetOr(""), t.text, t.status,
      t.createdAt.GetOr(""), t.updatedAt.GetOr(""))
  }

  /** The transform loses nothing: the row comes back from its task, and a read task from its row. */
  lemma TaskTransformRoundTrip(row: DbTask, t: Task)
    ensures ToDbTask(ToTask(row)) == row
    ensures t.id.NumId? && t.orderId.Some? && t.createdAt.Some? && t.updatedAt.Some? ==> ToTask(ToDbTask(t)) == t
  {
  }

  /** `Number(id)` of a task id; how a text converts is a parameter (None is NaN). */
  function RowId(id: TaskId, number: string -> Option<int>): (r: Option<int>)
    ensures id.NumId? ==> r == Some(id.n)
  {
    match id
    case NumId(n) => Some(n)
    case StrId(s) => number(s)
  }

  /** A task id as a template literal shows it. */
  function IdText(id: TaskId): string
  {
    match id
    case NumId(n) => Text.IntToString(n)
    case StrId(s) => s
  }

  /** One task answer read as a single row, validated against the task schema. */
  function TaskResult(answer: Backend<DbTask>, onError: string -> Thrown, context: string, unexpected: string)
    : (r: Result<Task, Thrown>)
    ensures answer.Failed? ==> r == Err(onError(answer.code))
    ensures r.Ok? ==> answer.Data? && answer.rows.Some? && r.value == ToTask(answer.rows.value) && ValidTask(r.value)
    ensures answer.Data? && answer.rows.Some? ==> (r.Ok? <==> ValidTask(ToTask(answer.rows.value)))
    ensures answer.Data? && r.Err? ==> r.error == Thrown(TaskServiceError, unexpected, Some(UnknownErrorCode))
  {
    match answer
    case Failed(code, _) => Err(onError(code))
    case Data(None) => Err(Thrown(TaskServiceError, unexpected, Some(UnknownErrorCode)))
    case Data(Some(row)) =>
      var t := ToTask(row);
      match ValidateData(t, TaskIssues(t), context)
      case Ok(v) => Ok(v)
      case Err(e) => Err(Rethrow(e, TaskServiceError, unexpected))
  }

  /**
   * `fetchTasksByOrderId`: the backend's error keeps its code; null data is no
   * tasks; a row failing the task schema is wrapped as an unexpected error.
   */
  function FetchTasksByOrderId(answer: Backend<seq<DbTask>>): (r: Result<seq<Task>, Thrown>)
    ensures answer.Failed? ==> r == Err(Thrown(TaskServiceError, "Failed to fetch tasks", Some(answer.code)))
    ensures answer == Data(None) ==> r == Ok([])
    ensures answer.Data? && answer.rows.Some? ==>
      (r.Ok? <==> forall i :: 0 <= i < |answer.rows.value| ==> ValidTask(ToTask(answer.rows.value[i])))
    ensures answer.Data? && answer.rows.Some? && r.Ok? ==> r.value == Seqs.Map(answer.rows.value, ToTask)
    ensures answer.Data? && r.Err? ==> r.error == Thrown(TaskServiceError, "Unexpected error fetching tasks", Some(UnknownErrorCode))
  {
    match answer
    case Failed(code, _) => Err(Thrown(TaskServiceError, "Failed to fetch tasks", Some(code)))
    case Data(None) => Ok([])
    case Data(Some(rows)) =>
      var v := ValidateEach(Seqs.Map(rows, ToTask), TaskIssues, "task");
      if v.Ok? then Ok(v.value) else Err(Rethrow(v.error, TaskServiceError, "Unexpected error fetching tasks"))
  }

  /** The insert record: exactly the order id, text and status of the input. */
  function InsertRecord(c: CreateTaskInput): (ins: DbTaskInsert)
    ensures ins.orderId == c.orderId && ins.text == c.text && ins.status == c.status
  {
    DbTaskInsert(c.orderId, c.text, c.status)
  }

  /** A row inserted from a record reads back as a task of that order with that text and status. */
  lemma InsertedRowMatchesInput(c: CreateTaskInput, row: DbTask)
    requires row.orderId == InsertRecord(c).orderId && row.text == InsertRecord(c).text
    requires row.status == InsertRecord(c).status
    ensures ToTask(row).orderId == Some(c.orderId) && ToTask(row).text == c.text && ToTask(row).status == c.status
    ensures ValidCreateTask(c) ==> ValidTask(ToTask(row))
  {
  }

  /**
   * `createTask`: an input failing the create schema never reaches the backend;
   * otherwise the insert record is sent and the returned row validated.
   */
  function CreateTask(input: CreateTaskInput, backend: DbTaskInsert -> Backend<DbTask>): (r: Result<Task, Thrown>)
    ensures !ValidCreateTask(input) ==>
      r == Err(Thrown(TaskServiceError, "Unexpected error creating task", Some(UnknownErrorCode)))
    ensures ValidCreateTask(input) && backend(InsertRecord(input)).Failed? ==>
      r == Err(Thrown(TaskServiceError, "Failed to create task", Some(backend(InsertRecord(input)).code)))
    ensures r.Ok? ==> ValidCreateTask(input) && ValidTask(r.value)
  {
    var issues := CreateTaskIssues(input);
    if issues != [] then
      Err(Rethrow(Thrown(PlainError, ValidationMessage("create task input", issues), None),
                  TaskServiceError, "Unexpected error creating task"))
    else
      TaskResult(backend(InsertRecord(input)), code => Thrown(TaskServiceError, "Failed to create task", Some(code)),
        "created task", "Unexpected error creating task")
  }

  /** `updateTask` fills its record field by field: text and status only when defined. */
  method BuildTaskUpdate(u: UpdateTaskInput) returns (patch: DbTaskUpdate)
    ensures patch.text == u.text && patch.status == u.status
  {
    patch := DbTaskUpdate(None, None);
    if u.text.Some? {
      patch := patch.(text := u.text);
    }
    if u.status.Some? {
      patch := patch.(status := u.status);
    }
  }

  /** The error of an update: the no-rows code means the task with that id does not exist. */
  function UpdateError(id: TaskId, code: string): (e: Thrown)
    ensures e.cls == TaskServiceError
    ensures code == NoRowsCode ==> e == Thrown(TaskServiceError, "Task with ID " + IdText(id) + " not found", Some(NotFoundCode))
    ensures code != NoRowsCode ==> e == Thrown(TaskServiceError, "Failed to update task", Some(code))
  {
    if code == NoRowsCode then Thrown(TaskServiceError, "Task with ID " + IdText(id) + " not found", Some(NotFoundCode))
    else Thrown(TaskServiceError, "Failed to update task", Some(code))
  }

  /**
   * `updateTask`: an input failing the update schema never reaches the backend;
   * otherwise the record of its defined fields is sent for the row `Number(id)`.
   */
  method UpdateTask(input: UpdateTaskInput, number: string -> Option<int>,
                    backend: TaskUpdateRequest -> Backend<DbTask>)
    returns (r: Result<Task, Thrown>)
    ensures !ValidUpdateTask(input) ==>
      r == Err(Thrown(TaskServiceError, "Unexpected error updating task", Some(UnknownErrorCode)))
    ensures ValidUpdateTask(input) ==>
      var answer := backend(TaskUpdateRequest(RowId(input.id, number), DbTaskUpdate(input.text, input.status)));
      && (answer.Failed? ==> r == Err(UpdateError(input.id, answer.code)))
      && (answer.Data? && answer.rows.Some? ==> (r.Ok? <==> ValidTask(ToTask(answer.rows.value))))
      && (r.Ok? ==> answer.Data? && answer.rows.Some? && r.value == ToTask(answer.rows.value))
    ensures r.Ok? ==> ValidTask(r.value)
  {
    var issues := UpdateTaskIssues(input);
    if issues != [] {
      var e := Thrown(PlainError, ValidationMessage("update task input", issues), None);
      return Err(Rethrow(e, TaskServiceError, "Unexpected error updating task"));
    }
    var patch := BuildTaskUpdate(input);
    var answer := backend(TaskUpdateRequest(RowId(input.id, number), patch));
    r := TaskResult(answer, code => UpdateError(input.id, code), "updated task", "Unexpected error updating task");
  }

  /** A numeric id's not-found message shows its digits. */
  lemma NotFoundMessageShowsNumber(n: nat)
    ensures UpdateError(NumId(n), NoRowsCode).message == "Task with ID " + Text.NatToString(n) + " not found"
  {
  }

  /** `deleteTask`: the backend's error becomes "Failed to delete task" with its code. */
  function DeleteTask(answer: Backend<()>): (r: Result<(), Thrown>)
    ensures r.Ok? <==> answer.Data?
    ensures answer.Failed? ==> r.error == Thrown(TaskServiceError, "Failed to delete task", Some(answer.code))
  {
    match answer
    case Failed(code, _) => Err(Thrown(TaskServiceError, "Failed to delete task", Some(code)))
    case Data(_) => Ok(())
  }

  /**
   * `bulkUpdateTasks` over the individual updates' results: every returned task
   * in input order when all succeed, otherwise the error of a failed one. The
   * results are taken in input order; which failure wins a race is left out.
   */
  function BulkUpdateTasks(results: seq<Result<Task, Thrown>>): (r: Result<seq<Task>, Thrown>)
    ensures r.Ok? <==> forall i :: 0 <= i < |results| ==> results[i].Ok?
    ensures r.Ok? ==> |r.value| == |results| && forall i :: 0 <= i < |results| ==> r.value[i] == results[i].value
    ensures r.Err? ==> exists i :: 0 <= i < |results| && results[i] == Err(r.error)
  {
    if results == [] then Ok([])
    else if results[0].Err? then Err(results[0].error)
    else
      var rest := BulkUpdateTasks(results[1..]);
      assert forall i :: 0 <= i < |results| - 1 ==> results[1..][i] == results[i + 1];
      if rest.Err? then Err(rest.error) else Ok([results[0].value] + rest.value)
  }

  /** Every error an update raises is a task service error, so the bulk catch block passes it through unchanged. */
  lemma BulkErrorIsTaskServiceError(results: seq<Result<Task, Thrown>>)
    requires forall i :: 0 <= i < |results| && results[i].Err? ==> results[i].error.cls == TaskServiceError
    ensures BulkUpdateTasks(results).Err? ==>
      Rethrow(BulkUpdateTasks(results).error, TaskServiceError, "Unexpected error bulk updating tasks")
        == BulkUpdateTasks(results).error
  {
  }
}
