/**
 * The local state of `useTasks`: `{tasks, loading, error}` for the tasks of one
 * order. Every change happens after the service call succeeded; a failure keeps
 * the list and records the service's message or the operation's fallback.
 */
module UseTasks {
  import opened Wrappers
  import opened Domain
  import opened Errors
  import Seqs

  /** `tasks.map(t => t.id === u.id ? u : t)`. */
  function ReplaceTask(ts: seq<Task>, u: Task): (r: seq<Task>)
    ensures |r| == |ts|
    ensures forall i :: 0 <= i < |ts| && ts[i].id != u.id ==> r[i] == ts[i]
    ensures forall i :: 0 <= i < |ts| && ts[i].id == u.id ==> r[i] == u
  {
    Seqs.ReplaceWhere(ts, (t: Task) => t.id == u.id, (t: Task) => u)
  }

  /** `tasks.filter(t => t.id !== taskId)`. */
  function RemoveTask(ts: seq<Task>, taskId: TaskId): (r: seq<Task>)
    ensures Seqs.IsSubsequence(r, ts)
    ensures forall i :: 0 <= i < |r| ==> r[i].id != taskId
    ensures forall i :: 0 <= i < |ts| && ts[i].id != taskId ==> ts[i] in r
  {
    Seqs.Filter(ts, (t: Task) => t.id != taskId)
  }

  /** The last task of `us` with id `id`: what a map built from `us` in order holds for that id. */
  function LastWithId(us: seq<Task>, id: TaskId): (r: Option<Task>)
    ensures r.Some? ==> r.value in us && r.value.id == id
    ensures r.None? <==> forall j :: 0 <= j < |us| ==> us[j].id != id
    ensures r.Some? ==> exists j :: 0 <= j < |us| && us[j] == r.value && forall k :: j < k < |us| ==> us[k].id != id
  {
    if us == [] then None
    else if us[|us| - 1].id == id then Some(us[|us| - 1])
    else
      var init := us[..|us| - 1];
      var r := LastWithId(init, id);
      assert forall j :: 0 <= j < |us| - 1 ==> us[j] == init[j];
      assert r.Some? ==> exists j :: 0 <= j < |us| && us[j] == r.value && forall k :: j < k < |us| ==> us[k].id != id by {
        if r.Some? {
          var j :| 0 <= j < |init| && init[j] == r.value && forall k :: j < k < |init| ==> init[k].id != id;
          assert us[j] == r.value && forall k :: j < k < |us| ==> us[k].id != id;
        }
      }
      r
  }

  /** One more returned task: it becomes the last with its own id, and the others are unchanged. */
  lemma LastWithIdStep(us: seq<Task>, i: nat)
    requires i < |us|
    ensures forall id :: LastWithId(us[..i + 1], id) == if us[i].id == id then Some(us[i]) else LastWithId(us[..i], id)
  {
    var p := us[..i + 1];
    assert p[..|p| - 1] == us[..i] && p[|p| - 1] == us[i];
    forall id ensures LastWithId(p, id) == if us[i].id == id then Some(us[i]) else LastWithId(us[..i], id) {
      assert p != [];
    }
  }

  /** The entry a map holds for `id`, if any. */
  function MapGet(m: map<TaskId, Task>, id: TaskId): Option<Task>
  {
    if id in m then Some(m[id]) else None
  }

  /** The bulk replacement: each task becomes the last returned task with its id, if there is one. */
  function BulkReplaced(ts: seq<Task>, us: seq<Task>): (r: seq<Task>)
    ensures |r| == |ts|
    ensures forall i :: 0 <= i < |ts| ==> r[i].id == ts[i].id
    ensures forall i :: 0 <= i < |ts| && (forall j :: 0 <= j < |us| ==> us[j].id != ts[i].id) ==> r[i] == ts[i]
    ensures forall i :: 0 <= i < |ts| && (exists j :: 0 <= j < |us| && us[j].id == ts[i].id) ==>
      r[i] == LastWithId(us, ts[i].id).value
  {
    seq(|ts|, i requires 0 <= i < |ts| => LastWithId(us, ts[i].id).GetOr(ts[i]))
  }

  /** `new Map(us.map(t => [t.id, t]))`: for each id, the last returned task with it. */
  method IdMap(us: seq<Task>) returns (m: map<TaskId, Task>)
    ensures forall id :: id in m <==> LastWithId(us, id).Some?
    ensures forall id :: id in m ==> m[id] == LastWithId(us, id).value
  {
    m := map[];
    var i := 0;
    while i < |us|
      invariant 0 <= i <= |us|
      invariant forall id :: MapGet(m, id) == LastWithId(us[..i], id)
    {
      LastWithIdStep(us, i);
      var m' := m[us[i].id := us[i]];
      assert forall id :: MapGet(m', id) == if us[i].id == id then Some(us[i]) else MapGet(m, id);
      m := m';
      i := i + 1;
    }
    assert us[..|us|] == us;
    assert forall id :: MapGet(m, id) == LastWithId(us, id);
  }

  /** `tasks.map(t => updatedMap.get(t.id) || t)`: each task looked up in the map of returned tasks. */
  method BulkReplace(ts: seq<Task>, us: seq<Task>) returns (next: seq<Task>)
    ensures next == BulkReplaced(ts, us)
  {
    var m := IdMap(us);
    next := [];
    var k := 0;
    while k < |ts|
      invariant 0 <= k <= |ts|
      invariant next == BulkReplaced(ts, us)[..k]
    {
      var t := ts[k];
      next := next + [if t.id in m then m[t.id] else t];
      k := k + 1;
    }
  }

  /** A bulk update with one result is the single update with it. */
  lemma BulkOfOneIsReplace(ts: seq<Task>, u: Task)
    ensures BulkReplaced(ts, [u]) == ReplaceTask(ts, u)
  {
    forall i | 0 <= i < |ts| ensures BulkReplaced(ts, [u])[i] == ReplaceTask(ts, u)[i] {
      assert [u][..0] == [];
    }
  }

  /** Removing a task after replacing it leaves what removing it alone leaves. */
  lemma {:induction false} ReplaceThenRemove(ts: seq<Task>, u: Task)
    ensures RemoveTask(ReplaceTask(ts, u), u.id) == RemoveTask(ts, u.id)
  {
    if ts != [] {
      var r := ReplaceTask(ts, u);
      assert r[1..] == ReplaceTask(ts[1..], u);
      ReplaceThenRemove(ts[1..], u);
      assert ts == [ts[0]] + ts[1..];
      assert r == [r[0]] + r[1..];
    }
  }

  class TasksState {
    var tasks: seq<Task>
    var loading: bool
    var error: Option<string>

    /** The initial state: no tasks, loading, no error. */
    constructor ()
      ensures tasks == [] && loading && error == None
    {
      tasks := [];
      loading := true;
      error := None;
    }

    /**
     * A fetch begins: an empty order id empties the list and is refused without
     * a service call; otherwise loading starts, the error is cleared and the
     * tasks are kept.
     */
    method FetchStart(orderId: string) returns (calls: bool)
      modifies this
      ensures calls <==> orderId != ""
      ensures !calls ==> tasks == [] && !loading && error == Some("Order ID is required")
      ensures calls ==> tasks == old(tasks) && loading && error == None
    {
      if orderId == "" {
        tasks, loading, error := [], false, Some("Order ID is required");
        return false;
      }
      loading, error := true, None;
      calls := true;
    }

    /** A fetch settles: the list is replaced, or kept with the error. */
    method FetchSettled(result: Result<seq<Task>, Thrown>)
      modifies this
      ensures !loading
      ensures result.Ok? ==> tasks == result.value && error == None
      ensures result.Err? ==> tasks == old(tasks)
      ensures result.Err? ==> error == Some(HookMessage(result.error, TaskServiceError, "Failed to fetch tasks"))
    {
      match result
      case Ok(fetched) =>
        tasks, loading, error := fetched, false, None;
      case Err(e) =>
        loading, error := false, Some(HookMessage(e, TaskServiceError, "Failed to fetch tasks"));
    }

    /** Create: the new task goes at the end. */
    method CreateTask(result: Result<Task, Thrown>) returns (created: Option<Task>)
      modifies this
      ensures loading == old(loading)
      ensures result.Ok? ==> tasks == old(tasks) + [result.value] && error == old(error)
      ensures result.Ok? ==> created == Some(result.value)
      ensures result.Err? ==> tasks == old(tasks) && created == None
      ensures result.Err? ==> error == Some(HookMessage(result.error, TaskServiceError, "Failed to create task"))
    {
      match result
      case Ok(newTask) =>
        tasks := tasks + [newTask];
        created := Some(newTask);
      case Err(e) =>
        error := Some(HookMessage(e, TaskServiceError, "Failed to create task"));
        created := None;
    }

    /** Update: every task with the returned task's id becomes that task. */
    method UpdateTask(result: Result<Task, Thrown>) returns (updated: Option<Task>)
      modifies this
      ensures loading == old(loading)
      ensures result.Ok? ==> tasks == ReplaceTask(old(tasks), result.value) && error == old(error)
      ensures result.Ok? ==> updated == Some(result.value)
      ensures result.Err? ==> tasks == old(tasks) && updated == None
      ensures result.Err? ==> error == Some(HookMessage(result.error, TaskServiceError, "Failed to update task"))
    {
      match result
      case Ok(updatedTask) =>
        tasks := ReplaceTask(tasks, updatedTask);
        updated := Some(updatedTask);
      case Err(e) =>
        error := Some(HookMessage(e, TaskServiceError, "Failed to update task"));
        updated := None;
    }

    /** Delete: exactly the tasks whose id is strictly unequal to `taskId` stay. */
    method DeleteTask(taskId: TaskId, result: Result<(), Thrown>) returns (deleted: bool)
      modifies this
      ensures loading == old(loading)
      ensures deleted <==> result.Ok?
      ensures result.Ok? ==> tasks == RemoveTask(old(tasks), taskId) && error == old(error)
      ensures result.Err? ==> tasks == old(tasks)
      ensures result.Err? ==> error == Some(HookMessage(result.error, TaskServiceError, "Failed to delete task"))
    {
      if result.Ok? {
        tasks := RemoveTask(tasks, taskId);
        deleted := true;
      } else {
        error := Some(HookMessage(result.error, TaskServiceError, "Failed to delete task"));
        deleted := false;
      }
    }

    /**
     * Bulk update: a map from id to returned task is built in order (a later
     * result for the same id wins), then each task is looked up in it.
     */
    method BulkUpdateTasks(result: Result<seq<Task>, Thrown>) returns (updated: Option<seq<Task>>)
      modifies this
      ensures loading == old(loading)
      ensures result.Ok? ==> tasks == BulkReplaced(old(tasks), result.value) && error == old(error)
      ensures result.Ok? ==> updated == Some(result.value)
      ensures result.Err? ==> tasks == old(tasks) && updated == None
      ensures result.Err? ==> error == Some(HookMessage(result.error, TaskServiceError, "Failed to bulk update tasks"))
    {
      if result.Err? {
        error := Some(HookMessage(result.error, TaskServiceError, "Failed to bulk update tasks"));
        return None;
      }
      var us := result.value;
      var next := BulkReplace(tasks, us);
      tasks := next;
      updated := Some(us);
    }
  }
}
