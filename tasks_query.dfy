/**
 * The per-order task query and the three task mutations over the query cache.
 * Task ids are compared with strict equality: a numeric id and a text id never
 * match, whatever their digits.
 */
module TasksQuery {
  import opened Wrappers
  import opened Domain
  import opened Errors
  import opened QueryKeys
  import opened QueryCache
  import opened OrdersQuery
  import Seqs

  /** The task-list query of an order runs only for a non-empty order id. */
  function TasksQuerySpec(orderId: string): (q: QuerySpec)
    ensures q.key == TasksByOrder(orderId)
    ensures q.enabled <==> |orderId| > 0
  {
    QuerySpec(TasksByOrder(orderId), orderId != "")
  }

  /** A number id and a text id are never strictly equal, even when they spell the same digits. */
  lemma StrictIdEquality(n: int, s: string)
    ensures NumId(n) != StrId(s)
  {
  }

  /** `{...task, ...updatedTask}`: the defined fields of the input override. */
  function OverlayTask(t: Task, u: UpdateTaskInput): Task
  {
    t.(id := u.id, text := u.text.GetOr(t.text), status := u.status.GetOr(t.status))
  }

  /** `tasks.map(task => task.id === input.id ? {...task, ...input} : task)`. */
  function UpdateInList(ts: seq<Task>, u: UpdateTaskInput): (r: seq<Task>)
    ensures |r| == |ts|
    ensures forall i :: 0 <= i < |ts| ==> r[i].id == ts[i].id
    ensures forall i :: 0 <= i < |ts| && ts[i].id != u.id ==> r[i] == ts[i]
    ensures forall i :: 0 <= i < |ts| && ts[i].id == u.id ==>
      r[i].orderId == ts[i].orderId && r[i].createdAt == ts[i].createdAt
      && (u.text.Some? ==> r[i].text == u.text.value) && (u.text.None? ==> r[i].text == ts[i].text)
      && (u.status.Some? ==> r[i].status == u.status.value) && (u.status.None? ==> r[i].status == ts[i].status)
  {
    Seqs.ReplaceWhere(ts, (t: Task) => t.id == u.id, (t: Task) => OverlayTask(t, u))
  }

  /** `tasks.filter(task => task.id !== taskId)`. */
  function RemoveFromList(ts: seq<Task>, taskId: TaskId): (r: seq<Task>)
    ensures Seqs.IsSubsequence(r, ts)
    ensures forall i :: 0 <= i < |r| ==> r[i].id != taskId
    ensures forall i :: 0 <= i < |ts| && ts[i].id != taskId ==> ts[i] in r
  {
    Seqs.Filter(ts, (t: Task) => t.id != taskId)
  }

  /** Deleting by a text id never removes a task with a numeric id, and the other way round. */
  lemma RemoveKeepsOtherIdKind(ts: seq<Task>, s: string, n: int)
    ensures forall i :: 0 <= i < |ts| && ts[i].id.NumId? ==> ts[i] in RemoveFromList(ts, StrId(s))
    ensures forall i :: 0 <= i < |ts| && ts[i].id.StrId? ==> ts[i] in RemoveFromList(ts, NumId(n))
  {
  }

  /** The data of the task-list entry of `orderId`, undefined when there is none. */
  function TasksOf(c: Cache, orderId: string): (r: Option<Data>)
    ensures TasksByOrder(orderId) in c.entries ==> r == c.entries[TasksByOrder(orderId)]
    ensures TasksByOrder(orderId) !in c.entries ==> r.None?
  {
    if TasksByOrder(orderId) in c.entries then c.entries[TasksByOrder(orderId)] else None
  }

  /** Update, optimistic step: a cached list of the order gets the overlay. */
  function TaskUpdateOptimistic(c: Cache, orderId: string, u: UpdateTaskInput): Cache
  {
    match TasksOf(c, orderId)
    case Some(TaskList(ts)) => SetData(c, TasksByOrder(orderId), Some(TaskList(UpdateInList(ts, u))))
    case _ => c
  }

  /** Delete, optimistic step: a cached list of the order loses the task. */
  function TaskDeleteOptimistic(c: Cache, orderId: string, taskId: TaskId): Cache
  {
    match TasksOf(c, orderId)
    case Some(TaskList(ts)) => SetData(c, TasksByOrder(orderId), Some(TaskList(RemoveFromList(ts, taskId))))
    case _ => c
  }

  /** Failure: the snapshot written back when there was one, then the key invalidated on settle. */
  function TaskRolledBack(optimistic: Cache, c: Cache, orderId: string): Cache
  {
    Invalidate(SetData(optimistic, TasksByOrder(orderId), TasksOf(c, orderId)), TasksByOrder(orderId))
  }

  /**
   * The optimistic steps write only the task list of their own order: a cached
   * list is updated, a missing one stays missing, other entries keep their data.
   */
  lemma TaskOptimisticOnlyOwnKey(c: Cache, orderId: string, u: UpdateTaskInput, taskId: TaskId)
    ensures var r := TaskUpdateOptimistic(c, orderId, u);
      && r.entries.Keys == c.entries.Keys
      && (forall k :: k in c.entries && k != TasksByOrder(orderId) ==> r.entries[k] == c.entries[k])
      && (forall ts :: TasksOf(c, orderId) == Some(TaskList(ts)) ==> TasksOf(r, orderId) == Some(TaskList(UpdateInList(ts, u))))
      && (TasksOf(c, orderId).None? ==> r == c)
    ensures var r := TaskDeleteOptimistic(c, orderId, taskId);
      && r.entries.Keys == c.entries.Keys
      && (forall k :: k in c.entries && k != TasksByOrder(orderId) ==> r.entries[k] == c.entries[k])
      && (forall ts :: TasksOf(c, orderId) == Some(TaskList(ts)) ==> TasksOf(r, orderId) == Some(TaskList(RemoveFromList(ts, taskId))))
      && (TasksOf(c, orderId).None? ==> r == c)
  {
    if TasksOf(c, orderId).Some? { assert TasksByOrder(orderId) in c.entries; }
  }

  /** On failure every entry is back to its data before the mutation, and the key is invalidated. */
  lemma TaskFailureRestores(c: Cache, orderId: string, u: UpdateTaskInput, taskId: TaskId)
    ensures TaskRolledBack(TaskUpdateOptimistic(c, orderId, u), c, orderId).entries == c.entries
    ensures TaskRolledBack(TaskDeleteOptimistic(c, orderId, taskId), c, orderId).entries == c.entries
    ensures TasksByOrder(orderId) in c.entries ==>
      TasksByOrder(orderId) in TaskRolledBack(TaskUpdateOptimistic(c, orderId, u), c, orderId).invalidated
  {
    TaskOptimisticOnlyOwnKey(c, orderId, u, taskId);
    WriteBackRestores(c, TaskUpdateOptimistic(c, orderId, u), TasksByOrder(orderId));
    WriteBackRestores(c, TaskDeleteOptimistic(c, orderId, taskId), TasksByOrder(orderId));
  }

  /** Writing back the old data of the one key an update changed restores every entry. */
  lemma WriteBackRestores(c: Cache, o: Cache, k: Key)
    requires o.entries.Keys == c.entries.Keys
    requires forall j :: j in c.entries && j != k ==> o.entries[j] == c.entries[j]
    requires k !in c.entries || c.entries[k].None? ==> o.entries == c.entries
    ensures SetData(o, k, if k in c.entries then c.entries[k] else None).entries == c.entries
  {
    if k in c.entries && c.entries[k].Some? {
      assert SetData(o, k, c.entries[k]).entries == o.entries[k := c.entries[k]];
    }
  }

  /** Create: success invalidates the order's task list; failure changes nothing. */
  method CreateTaskMutation(qc: QueryClient, orderId: string, result: Outcome<Task>) returns (toast: Toast)
    modifies qc
    ensures result.Resolved? ==> qc.State() == Invalidate(old(qc.State()), TasksByOrder(orderId))
    ensures result.Rejected? ==> qc.State() == old(qc.State())
    ensures result.Resolved? ==> toast == Toast("Task Created", "New task has been created successfully", false)
    ensures result.Rejected? ==> toast == ErrorToast(result.error)
  {
    match result
    case Resolved(_) =>
      qc.InvalidateQueries(TasksByOrder(orderId));
      toast := Toast("Task Created", "New task has been created successfully", false);
    case Rejected(e) =>
      toast := ErrorToast(e);
  }

  /** Update: optimistic overlay, rollback on failure, the order's list invalidated on settle either way. */
  method UpdateTaskMutation(qc: QueryClient, orderId: string, u: UpdateTaskInput, result: Outcome<Task>)
    returns (toast: Option<Toast>)
    modifies qc
    ensures result.Resolved? ==> qc.State() == Invalidate(TaskUpdateOptimistic(old(qc.State()), orderId, u), TasksByOrder(orderId))
    ensures result.Rejected? ==> qc.State() == TaskRolledBack(TaskUpdateOptimistic(old(qc.State()), orderId, u), old(qc.State()), orderId)
    ensures result.Rejected? ==> qc.entries == old(qc.entries)
    ensures result.Resolved? ==> toast.None?
    ensures result.Rejected? ==> toast == Some(ErrorToast(result.error))
  {
    ghost var c := qc.State();
    var key := TasksByOrder(orderId);
    // onMutate
    var previousTasks := qc.GetQueryData(key);
    if previousTasks.Some? && previousTasks.value.TaskList? {
      qc.SetQueryData(key, Some(TaskList(UpdateInList(previousTasks.value.tasks, u))));
    }
    assert qc.State() == TaskUpdateOptimistic(c, orderId, u);
    toast := None;
    if result.Rejected? {
      qc.SetQueryData(key, previousTasks);
      toast := Some(ErrorToast(result.error));
      TaskFailureRestores(c, orderId, u, NumId(0));
    }
    // onSettled
    qc.InvalidateQueries(key);
  }

  /** Delete: optimistic removal, rollback on failure, the order's list invalidated on settle either way. */
  method DeleteTaskMutation(qc: QueryClient, orderId: string, taskId: TaskId, result: Outcome<bool>)
    returns (toast: Toast)
    modifies qc
    ensures result.Resolved? ==> qc.State() == Invalidate(TaskDeleteOptimistic(old(qc.State()), orderId, taskId), TasksByOrder(orderId))
    ensures result.Rejected? ==> qc.State() == TaskRolledBack(TaskDeleteOptimistic(old(qc.State()), orderId, taskId), old(qc.State()), orderId)
    ensures result.Rejected? ==> qc.entries == old(qc.entries)
    ensures result.Resolved? ==> toast == Toast("Task Deleted", "Task has been deleted successfully", false)
    ensures result.Rejected? ==> toast == ErrorToast(result.error)
  {
    ghost var c := qc.State();
    var key := TasksByOrder(orderId);
    // onMutate
    var previousTasks := qc.GetQueryData(key);
    if previousTasks.Some? && previousTasks.value.TaskList? {
      qc.SetQueryData(key, Some(TaskList(RemoveFromList(previousTasks.value.tasks, taskId))));
    }
    assert qc.State() == TaskDeleteOptimistic(c, orderId, taskId);
    toast := Toast("Task Deleted", "Task has been deleted successfully", false);
    if result.Rejected? {
      qc.SetQueryData(key, previousTasks);
      toast := ErrorToast(result.error);
      TaskFailureRestores(c, orderId, UpdateTaskInput(taskId, None, None), taskId);
    }
    // onSettled
    qc.InvalidateQueries(key);
  }
}
