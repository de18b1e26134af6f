/**
 * The order page's task board. Its tasks come from the per-order tasks query;
 * the board itself only holds the column inputs, the dragged task and the
 * task being edited, and hands each change to a task mutation. Whether that
 * mutation succeeds is a parameter, since the board resets its inputs only on
 * success.
 */
module DashboardTaskBoard {
  import opened Wrappers
  import opened Domain
  import Seqs
  import Text

  /** `getTasksByStatus` over the query's tasks: one column, in list order. */
  function TasksByStatus(ts: seq<Task>, status: TaskStatus): (r: seq<Task>)
    ensures Seqs.IsSubsequence(r, ts)
    ensures forall i :: 0 <= i < |r| ==> r[i].status == status
    ensures forall i :: 0 <= i < |ts| && ts[i].status == status ==> ts[i] in r
  {
    Seqs.Filter(ts, (t: Task) => t.status == status)
  }

  lemma ColumnCons(ts: seq<Task>, status: TaskStatus)
    requires ts != []
    ensures |TasksByStatus(ts, status)| == (if ts[0].status == status then 1 else 0) + |TasksByStatus(ts[1..], status)|
  {
    assert ts == [ts[0]] + ts[1..];
  }

  /**
   * With every status one of the three, the columns' sizes add up to the
   * number of tasks; a task with any other status is shown in no column.
   */
  lemma {:induction false} ColumnSizes(ts: seq<Task>)
    ensures |TasksByStatus(ts, TaskPending)| + |TasksByStatus(ts, TaskInProgress)| + |TasksByStatus(ts, TaskCompleted)| <= |ts|
    ensures (forall i :: 0 <= i < |ts| ==> IsTaskStatus(ts[i].status)) ==>
      |TasksByStatus(ts, TaskPending)| + |TasksByStatus(ts, TaskInProgress)| + |TasksByStatus(ts, TaskCompleted)| == |ts|
  {
    if ts != [] {
      ColumnSizes(ts[1..]);
      ColumnCons(ts, TaskPending);
      ColumnCons(ts, TaskInProgress);
      ColumnCons(ts, TaskCompleted);
      var s0 := ts[0].status;
      assert (if s0 == TaskPending then 1 else 0) + (if s0 == TaskInProgress then 1 else 0)
        + (if s0 == TaskCompleted then 1 else 0) == (if IsTaskStatus(s0) then 1 else 0);
      assert forall i :: 0 <= i < |ts| - 1 ==> ts[1..][i] == ts[i + 1];
    }
  }

  class TaskBoard {
    var newTaskPending: string
    var newTaskInProgress: string
    var newTaskCompleted: string
    var draggedTask: Option<Task>
    var editingTask: Option<Task>
    var editedText: string

    function InputFor(status: TaskStatus): string
      reads this
    {
      if status == "pending" then newTaskPending
      else if status == "in-progress" then newTaskInProgress
      else newTaskCompleted
    }

    constructor ()
      ensures newTaskPending == "" && newTaskInProgress == "" && newTaskCompleted == ""
      ensures draggedTask.None? && editingTask.None? && editedText == ""
    {
      newTaskPending, newTaskInProgress, newTaskCompleted := "", "", "";
      draggedTask, editingTask, editedText := None, None, "";
    }

    method SetInput(status: TaskStatus, value: string)
      modifies this
      ensures InputFor(status) == value
      ensures forall s: TaskStatus :: s != status ==> InputFor(s) == old(InputFor(s))
      ensures draggedTask == old(draggedTask) && editingTask == old(editingTask) && editedText == old(editedText)
    {
      if status == "pending" {
        newTaskPending := value;
      } else if status == "in-progress" {
        newTaskInProgress := value;
      } else {
        newTaskCompleted := value;
      }
    }

    /**
     * `addTask`: a blank input sends nothing; otherwise the trimmed text, the
     * column's status and the order id are sent to the create mutation, and
     * the input is cleared only when it succeeds.
     */
    method AddTask(status: TaskStatus, orderId: string, succeeded: bool) returns (sent: Option<CreateTaskInput>)
      modifies this
      ensures Text.IsBlank(old(InputFor(status))) ==> sent.None? && InputFor(status) == old(InputFor(status))
      ensures !Text.IsBlank(old(InputFor(status))) ==>
        sent == Some(CreateTaskInput(orderId, Text.Trim(old(InputFor(status))), status))
      ensures !Text.IsBlank(old(InputFor(status))) ==>
        InputFor(status) == if succeeded then "" else old(InputFor(status))
      ensures forall s: TaskStatus :: s != status ==> InputFor(s) == old(InputFor(s))
      ensures draggedTask == old(draggedTask) && editingTask == old(editingTask) && editedText == old(editedText)
    {
      var trimmed := Text.Trim(InputFor(status));
      if trimmed == "" {
        return None;
      }
      sent := Some(CreateTaskInput(orderId, trimmed, status));
      if succeeded {
        SetInput(status, "");
      }
    }

    /** Opening the edit dialog loads the task and its text. */
    method OpenEditDialog(task: Task)
      modifies this
      ensures editingTask == Some(task) && editedText == task.text
      ensures draggedTask == old(draggedTask)
      ensures forall s: TaskStatus :: InputFor(s) == old(InputFor(s))
    {
      editingTask, editedText := Some(task), task.text;
    }

    /** `closeEditDialog`: no task is edited and the text is empty. */
    method CloseEditDialog()
      modifies this
      ensures editingTask.None? && editedText == ""
      ensures draggedTask == old(draggedTask)
      ensures forall s: TaskStatus :: InputFor(s) == old(InputFor(s))
    {
      editingTask, editedText := None, "";
    }

    /**
     * `saveEditedTask`: nothing is sent without an edited task or with blank
     * text; otherwise only the id and the trimmed text are sent, and the
     * dialog closes only when the update succeeds.
     */
    method SaveEditedTask(succeeded: bool) returns (sent: Option<UpdateTaskInput>)
      modifies this
      ensures old(editingTask).None? || Text.IsBlank(old(editedText)) ==>
        sent.None? && editingTask == old(editingTask) && editedText == old(editedText)
      ensures old(editingTask).Some? && !Text.IsBlank(old(editedText)) ==>
        && sent == Some(UpdateTaskInput(old(editingTask).value.id, Some(Text.Trim(old(editedText))), None))
        && (succeeded ==> editingTask.None? && editedText == "")
        && (!succeeded ==> editingTask == old(editingTask) && editedText == old(editedText))
      ensures draggedTask == old(draggedTask)
      ensures forall s: TaskStatus :: InputFor(s) == old(InputFor(s))
    {
      if editingTask.None? || Text.Trim(editedText) == "" {
        return None;
      }
      sent := Some(UpdateTaskInput(editingTask.value.id, Some(Text.Trim(editedText)), None));
      if succeeded {
        CloseEditDialog();
      }
    }

    method DragStart(task: Task)
      modifies this
      ensures draggedTask == Some(task)
      ensures editingTask == old(editingTask) && editedText == old(editedText)
      ensures forall s: TaskStatus :: InputFor(s) == old(InputFor(s))
    {
      draggedTask := Some(task);
    }

    /**
     * `handleDrop`: nothing is sent without a dragged task; otherwise only the
     * id and the column's status are sent, and the drag ends only when the
     * update succeeds.
     */
    method HandleDrop(status: TaskStatus, succeeded: bool) returns (sent: Option<UpdateTaskInput>)
      modifies this
      ensures old(draggedTask).None? ==> sent.None? && draggedTask.None?
      ensures old(draggedTask).Some? ==> sent == Some(UpdateTaskInput(old(draggedTask).value.id, None, Some(status)))
      ensures old(draggedTask).Some? ==> draggedTask == if succeeded then None else old(draggedTask)
      ensures editingTask == old(editingTask) && editedText == old(editedText)
      ensures forall s: TaskStatus :: InputFor(s) == old(InputFor(s))
    {
      if draggedTask.None? {
        return None;
      }
      sent := Some(UpdateTaskInput(draggedTask.value.id, None, Some(status)));
      if succeeded {
        draggedTask := None;
      }
    }
  }
}
