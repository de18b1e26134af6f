/**
 * The standalone task board: a list of tasks kept in the component's own
 * state, one text input per status column, and the task being dragged. Ids
 * are the clock reading at creation, passed in as a parameter.
 */
module LocalTaskBoard {
  import opened Wrappers
  import opened Domain
  import Seqs
  import Text

  /** A task of this board: a numeric id, its text and its column. */
  datatype BoardTask = BoardTask(id: int, text: string, status: TaskStatus)

  /** `getTasksByStatus`: the tasks of one column, in list order. */
  function TasksByStatus(ts: seq<BoardTask>, status: TaskStatus): (r: seq<BoardTask>)
    ensures Seqs.IsSubsequence(r, ts)
    ensures forall i :: 0 <= i < |r| ==> r[i].status == status
    ensures forall i :: 0 <= i < |ts| && ts[i].status == status ==> ts[i] in r
  {
    Seqs.Filter(ts, (t: BoardTask) => t.status == status)
  }

  /** Counting a column splits off the first task. */
  lemma ColumnCons(ts: seq<BoardTask>, status: TaskStatus)
    requires ts != []
    ensures |TasksByStatus(ts, status)| == (if ts[0].status == status then 1 else 0) + |TasksByStatus(ts[1..], status)|
  {
    assert ts == [ts[0]] + ts[1..];
  }

  /** A status is exactly one of the three. */
  lemma OneColumnPerStatus(s: TaskStatus)
    ensures (if s == TaskPending then 1 else 0) + (if s == TaskInProgress then 1 else 0)
      + (if s == TaskCompleted then 1 else 0) == 1
  {
  }

  /** The sizes of the three columns add up to the number of tasks. */
  lemma {:induction false} ColumnSizesAddUp(ts: seq<BoardTask>)
    ensures |TasksByStatus(ts, TaskPending)| + |TasksByStatus(ts, TaskInProgress)| + |TasksByStatus(ts, TaskCompleted)| == |ts|
  {
    if ts != [] {
      ColumnSizesAddUp(ts[1..]);
      ColumnCons(ts, TaskPending);
      ColumnCons(ts, TaskInProgress);
      ColumnCons(ts, TaskCompleted);
      OneColumnPerStatus(ts[0].status);
    }
  }

  /** Every task is in the column of its status and in no other. */
  lemma ColumnOfEachTask(ts: seq<BoardTask>, i: nat, s: TaskStatus)
    requires i < |ts|
    ensures ts[i] in TasksByStatus(ts, s) <==> ts[i].status == s
  {
    var col := TasksByStatus(ts, s);
    if ts[i] in col {
      var k :| 0 <= k < |col| && col[k] == ts[i];
    }
  }

  class TaskBoard {
    var tasks: seq<BoardTask>
    var newTaskPending: string
    var newTaskInProgress: string
    var newTaskCompleted: string
    var draggedTask: Option<BoardTask>

    /** The text typed into a column's input. */
    function InputFor(status: TaskStatus): string
      reads this
    {
      if status == "pending" then newTaskPending
      else if status == "in-progress" then newTaskInProgress
      else newTaskCompleted
    }

    /** The board starts with the given tasks, empty inputs and nothing dragged. */
    constructor (initialTasks: seq<BoardTask>)
      ensures tasks == initialTasks && draggedTask.None?
      ensures newTaskPending == "" && newTaskInProgress == "" && newTaskCompleted == ""
    {
      tasks := initialTasks;
      newTaskPending, newTaskInProgress, newTaskCompleted := "", "", "";
      draggedTask := None;
    }

    /** Typing into a column's input replaces that input only. */
    method SetInput(status: TaskStatus, value: string)
      modifies this
      ensures InputFor(status) == value
      ensures forall s: TaskStatus :: s != status ==> InputFor(s) == old(InputFor(s))
      ensures tasks == old(tasks) && draggedTask == old(draggedTask)
    {
      if status == "pending" {
        newTaskPending := value;
      } else if status == "in-progress" {
        newTaskInProgress := value;
      } else {
        newTaskCompleted := value;
      }
    }

    /**
     * `addTask`: a blank input changes nothing; otherwise one task with the
     * trimmed text, the column's status and the id `now` is appended, and
     * that column's input is cleared.
     */
    method AddTask(status: TaskStatus, now: int)
      modifies this
      ensures Text.IsBlank(old(InputFor(status))) ==>
        tasks == old(tasks) && InputFor(status) == old(InputFor(status))
      ensures !Text.IsBlank(old(InputFor(status))) ==>
        tasks == old(tasks) + [BoardTask(now, Text.Trim(old(InputFor(status))), status)] && InputFor(status) == ""
      ensures forall s: TaskStatus :: s != status ==> InputFor(s) == old(InputFor(s))
      ensures draggedTask == old(draggedTask)
    {
      var text := InputFor(status);
      var trimmed := Text.Trim(text);
      if trimmed != "" {
        SetInput(status, "");
        tasks := tasks + [BoardTask(now, trimmed, status)];
      }
    }

    /** `deleteTask`: every task with the id goes; the others keep their order. */
    method DeleteTask(id: int)
      modifies this
      ensures tasks == Seqs.Filter(old(tasks), (t: BoardTask) => t.id != id)
      ensures forall i :: 0 <= i < |tasks| ==> tasks[i].id != id
      ensures Seqs.IsSubsequence(tasks, old(tasks))
      ensures forall s: TaskStatus :: InputFor(s) == old(InputFor(s))
      ensures draggedTask == old(draggedTask)
    {
      tasks := Seqs.Filter(tasks, (t: BoardTask) => t.id != id);
    }

    method DragStart(task: BoardTask)
      modifies this
      ensures draggedTask == Some(task) && tasks == old(tasks)
      ensures forall s: TaskStatus :: InputFor(s) == old(InputFor(s))
    {
      draggedTask := Some(task);
    }

    /**
     * `handleDrop`: without a dragged task nothing changes; otherwise every
     * task with the dragged id moves to the column and the drag ends.
     */
    method HandleDrop(status: TaskStatus)
      modifies this
      ensures old(draggedTask).None? ==> tasks == old(tasks) && draggedTask.None?
      ensures old(draggedTask).Some? ==> draggedTask.None? && |tasks| == |old(tasks)|
      ensures old(draggedTask).Some? ==> forall i :: 0 <= i < |tasks| ==>
        tasks[i] == if old(tasks)[i].id == old(draggedTask).value.id then old(tasks)[i].(status := status) else old(tasks)[i]
      ensures forall s: TaskStatus :: InputFor(s) == old(InputFor(s))
    {
      if draggedTask.Some? {
        var id := draggedTask.value.id;
        tasks := Seqs.ReplaceWhere(tasks, (t: BoardTask) => t.id == id, (t: BoardTask) => t.(status := status));
        draggedTask := None;
      }
    }
  }
}
