/**
 * Wedding-planning tasks (model/Task.java, as a record), the mutable `List<Task>` object that
 * task lists and weddings hold, and the task list of util/TaskList.java: a list object that is
 * appended to, filtered by id, handed out, replaced, and read by the pending-task loop.
 */
module Tasks {
  import opened Wrappers
  import opened Seqs

  /** A point in time, as the source's `Date` carries it; the model only copies it. */
  datatype Date = Date(millis: int)

  datatype Task = Task(
    taskId: string,
    weddingId: Option<string>,
    name: Option<string>,
    description: Option<string>,
    dueDate: Option<Date>,
    isCompleted: bool)

  /** The test of `getPendingTasks`. */
  predicate IsPending(t: Task) {
    !t.isCompleted
  }

  /** The `removeIf` test of `removeTask`, negated: the tasks that stay. */
  function TaskIdIsNot(taskId: string): Task -> bool {
    (t: Task) => t.taskId != taskId
  }

  /** A `java.util.List<Task>` object: an `ArrayList` that several owners may share. */
  class TaskBuffer {
    var items: seq<Task>

    constructor ()
      ensures items == []
    {
      items := [];
    }

    method Add(task: Task)
      modifies this
      ensures items == old(items) + [task]
    {
      items := items + [task];
    }

    /** `addAll` copies the argument's elements before appending, so adding a list to itself doubles it. */
    method AddAll(other: TaskBuffer)
      modifies this
      ensures items == old(items) + old(other.items)
    {
      items := items + other.items;
    }

    method Clear()
      modifies this
      ensures items == []
    {
      items := [];
    }

    /** `removeIf(task -> task.getTaskId().equals(taskId))`. */
    method RemoveIf(taskId: string)
      modifies this
      ensures items == Filter(old(items), TaskIdIsNot(taskId))
    {
      items := Filter(items, TaskIdIsNot(taskId));
    }
  }

  /**
   * util/TaskList.java. The list is held by reference: `getTasks` hands out the list object
   * itself and `setTasks` adopts the caller's one, so changes made through either reference
   * are seen through the other.
   */
  class TaskList {
    var tasks: TaskBuffer

    constructor ()
      ensures fresh(tasks) && tasks.items == []
    {
      tasks := new TaskBuffer();
    }

    /** The getter returns the list object itself, not a copy. */
    method GetTasks() returns (r: TaskBuffer)
      ensures r == tasks
    {
      r := tasks;
    }

    /** The setter adopts the caller's list object, which both then share. */
    method SetTasks(tasks: TaskBuffer)
      modifies this`tasks
      ensures this.tasks == tasks
    {
      this.tasks := tasks;
    }

    method AddTask(task: Task)
      modifies tasks
      ensures tasks.items == old(tasks.items) + [task]
    {
      tasks.Add(task);
    }

    /** `removeIf`: drops every task with that id. */
    method RemoveTask(taskId: string)
      modifies tasks
      ensures tasks.items == Filter(old(tasks.items), TaskIdIsNot(taskId))
    {
      tasks.RemoveIf(taskId);
    }

    /** The `for` loop that collects the tasks not yet completed, in list order. */
    method GetPendingTasks() returns (pendingTasks: seq<Task>)
      ensures pendingTasks == Filter(tasks.items, IsPending)
    {
      var ts := tasks.items;
      pendingTasks := [];
      for k := 0 to |ts|
        invariant pendingTasks == Filter(ts[..k], IsPending)
      {
        assert ts[..k + 1] == ts[..k] + [ts[k]];
        FilterAppend(ts[..k], ts[k], IsPending);
        if !ts[k].isCompleted {
          pendingTasks := pendingTasks + [ts[k]];
        }
      }
      assert ts[..|ts|] == ts;
    }
  }

  /**
   * After `setTasks(list)`, a task the caller adds to its own `list` is one of the task list's
   * pending tasks (when not completed): the two share one list object.
   */
  method AdoptedListIsShared(taskList: TaskList, list: TaskBuffer, task: Task) returns (pending: seq<Task>)
    modifies taskList, list
    ensures taskList.tasks == list
    ensures pending == Filter(old(list.items), IsPending) + (if task.isCompleted then [] else [task])
  {
    taskList.SetTasks(list);
    list.Add(task);
    pending := taskList.GetPendingTasks();
    AddThenPending(old(list.items), task);
  }

  /**
   * The pending tasks are exactly the tasks not completed, each as often as in the list and in
   * list order.
   */
  lemma PendingTasksAreIncomplete(ts: seq<Task>)
    ensures forall t :: t in Filter(ts, IsPending) <==> t in ts && !t.isCompleted
    ensures forall t: Task :: !t.isCompleted ==> multiset(Filter(ts, IsPending))[t] == multiset(ts)[t]
    ensures IsSubseq(Filter(ts, IsPending), ts)
  {
    FilterMembersAll(ts, IsPending);
    forall t: Task | !t.isCompleted ensures multiset(Filter(ts, IsPending))[t] == multiset(ts)[t] {
      FilterCount(ts, IsPending, t);
    }
    FilterIsSubseq(ts, IsPending);
  }

  /** A list where every task is completed has no pending task; one with none completed is all pending. */
  lemma PendingExtremes(ts: seq<Task>)
    ensures (forall i :: 0 <= i < |ts| ==> ts[i].isCompleted) ==> Filter(ts, IsPending) == []
    ensures (forall i :: 0 <= i < |ts| ==> !ts[i].isCompleted) ==> Filter(ts, IsPending) == ts
  {
    if forall i :: 0 <= i < |ts| ==> ts[i].isCompleted {
      FilterDropsAll(ts, IsPending);
    }
    if forall i :: 0 <= i < |ts| ==> !ts[i].isCompleted {
      FilterKeepsAll(ts, IsPending);
    }
  }

  /**
   * After `removeTask(id)` no task with that id is left, every other task keeps all of its
   * occurrences, and the order is kept.
   */
  lemma RemoveTaskRemovesAll(ts: seq<Task>, taskId: string)
    ensures forall t :: t in Filter(ts, TaskIdIsNot(taskId)) <==> t in ts && t.taskId != taskId
    ensures forall t: Task :: t.taskId != taskId ==> multiset(Filter(ts, TaskIdIsNot(taskId)))[t] == multiset(ts)[t]
    ensures IsSubseq(Filter(ts, TaskIdIsNot(taskId)), ts)
  {
    FilterMembersAll(ts, TaskIdIsNot(taskId));
    forall t: Task | t.taskId != taskId
      ensures multiset(Filter(ts, TaskIdIsNot(taskId)))[t] == multiset(ts)[t]
    {
      FilterCount(ts, TaskIdIsNot(taskId), t);
    }
    FilterIsSubseq(ts, TaskIdIsNot(taskId));
  }

  /** A task just added is pending exactly when it is not completed, after all earlier pending ones. */
  lemma AddThenPending(ts: seq<Task>, t: Task)
    ensures Filter(ts + [t], IsPending) == Filter(ts, IsPending) + (if t.isCompleted then [] else [t])
  {
    FilterAppend(ts, t, IsPending);
  }
}
