/**
 * A couple's wedding (model/Wedding.java). The wedding owns a mutable task list object (a
 * `TaskBuffer`), which its getter hands out and its `replaceTasks` clears and refills, so
 * sharing it between weddings is visible to the model.
 */
module Weddings {
  import opened Wrappers
  import opened Seqs
  import opened Tasks

  /** Only the default style is named; every other style is carried by its name. */
  datatype WeddingStyle = Traditional | OtherStyle(name: string)

  /** The style `setStyle` stores: the given one, or TRADITIONAL for null. */
  function StyleOrDefault(style: Option<WeddingStyle>): (r: WeddingStyle)
    ensures style.Some? ==> r == style.value
    ensures style.None? ==> r == Traditional
  {
    style.GetOr(Traditional)
  }

  class Wedding {
    var weddingId: Option<string>
    var coupleId: Option<string>
    var date: Option<Date>
    var location: Option<string>
    var address: Option<string>
    var style: Option<WeddingStyle>
    var budget: real
    var tasks: TaskBuffer
    var isRequestObject: bool

    /** `new Wedding()`: no data, a new empty task list, an entity. */
    constructor ()
      ensures weddingId == None && coupleId == None && date == None
      ensures location == None && address == None && style == None && budget == 0.0
      ensures fresh(tasks) && tasks.items == [] && !isRequestObject
    {
      weddingId, coupleId, date := None, None, None;
      location, address, style := None, None, None;
      budget := 0.0;
      tasks := new TaskBuffer();
      isRequestObject := false;
    }

    /** The full constructor stores `style` as given; unlike `setStyle`, it does not default null. */
    constructor Full(weddingId: Option<string>, coupleId: Option<string>, date: Option<Date>,
                     location: Option<string>, style: Option<WeddingStyle>, budget: real)
      ensures this.weddingId == weddingId && this.coupleId == coupleId && this.date == date
      ensures this.location == location && address == None && this.style == style && this.budget == budget
      ensures fresh(tasks) && tasks.items == [] && !isRequestObject
    {
      this.weddingId := weddingId;
      this.coupleId := coupleId;
      this.date := date;
      this.location := location;
      this.address := None;
      this.style := style;
      this.budget := budget;
      tasks := new TaskBuffer();
      isRequestObject := false;
    }

    method SetStyle(style: Option<WeddingStyle>)
      modifies this`style
      ensures this.style == Some(StyleOrDefault(style))
    {
      if style.None? {
        this.style := Some(Traditional);
      } else {
        this.style := style;
      }
    }

    /** The getter returns the wedding's own list object, not a copy. */
    method GetTasks() returns (r: TaskBuffer)
      ensures r == tasks
    {
      r := tasks;
    }

    /** The setter adopts the caller's list object, which both then share. */
    method SetTasks(tasks: TaskBuffer)
      modifies this`tasks
      ensures this.tasks == tasks
    {
      this.tasks := tasks;
    }

    method AddTask(task: Task)
      modifies tasks
      ensures tasks.items == old(tasks.items) + [task]
    {
      tasks.Add(task);
    }

    method RemoveTask(taskId: string)
      modifies tasks
      ensures tasks.items == Filter(old(tasks.items), TaskIdIsNot(taskId))
    {
      tasks.RemoveIf(taskId);
    }

    method UpdateBudget(amount: real)
      modifies this`budget
      ensures budget == amount
    {
      budget := amount;
    }

    /** Marks the wedding as a request object and returns it, for chaining. */
    method AsRequestObject() returns (r: Wedding)
      modifies this`isRequestObject
      ensures r == this && isRequestObject
    {
      isRequestObject := true;
      r := this;
    }

    method IsRequestObject() returns (b: bool)
      ensures b == isRequestObject
    {
      b := isRequestObject;
    }

    /**
     * Clears the wedding's list and then appends the argument's tasks. The list object is kept.
     * For a null argument the list ends empty, and so it does when the argument is the wedding's
     * own list: clearing it empties the source of the copy.
     */
    method ReplaceTasks(other: TaskBuffer?)
      modifies tasks
      ensures tasks == old(tasks)
      ensures tasks.items == if other == null || other == tasks then [] else old(other.items)
    {
      tasks.Clear();
      if other != null {
        tasks.AddAll(other);
      }
    }

    /**
     * An entity returns itself. A request object yields a new entity carrying its id, couple,
     * date, location, style (defaulted by `setStyle`), budget and a new list with a copy of its
     * tasks; the address is not carried over.
     */
    method ToEntity() returns (entity: Wedding)
      ensures !isRequestObject ==> entity == this
      ensures isRequestObject ==> fresh(entity) && fresh(entity.tasks) && !entity.isRequestObject
      ensures isRequestObject ==>
        entity.weddingId == weddingId && entity.coupleId == coupleId && entity.date == date &&
        entity.location == location && entity.address == None &&
        entity.style == Some(StyleOrDefault(style)) && entity.budget == budget &&
        entity.tasks.items == tasks.items
    {
      if !isRequestObject {
        return this;
      }
      entity := new Wedding();
      entity.weddingId := weddingId;
      entity.coupleId := coupleId;
      entity.date := date;
      entity.location := location;
      entity.SetStyle(style);
      entity.budget := budget;
      entity.ReplaceTasks(tasks);
    }
  }

  /**
   * `replaceTasks` called with the wedding's own list, as in `w.replaceTasks(w.getTasks())`,
   * leaves the wedding with no tasks, whatever it had.
   */
  method ReplaceTasksWithOwnList(w: Wedding)
    modifies w.tasks
    ensures w.tasks.items == []
  {
    var own := w.GetTasks();
    w.ReplaceTasks(own);
  }

  /** Two weddings that share a list object, via `setTasks(other.getTasks())`, see each other's tasks. */
  method SharedTaskList(w: Wedding, v: Wedding, task: Task)
    modifies v
    modifies w.tasks
    ensures v.tasks == w.tasks
    ensures v.tasks.items == old(w.tasks.items) + [task]
  {
    var own := w.GetTasks();
    v.SetTasks(own);
    w.AddTask(task);
  }

  /** The entity a request object yields is an entity, so converting it once more returns it unchanged. */
  method ToEntityIsIdempotent(w: Wedding) returns (e: Wedding, e2: Wedding)
    ensures e2 == e
    ensures !e.isRequestObject
  {
    e := w.ToEntity();
    e2 := e.ToEntity();
  }

  /** `setStyle` is the identity on a non-null style and idempotent on the stored one. */
  lemma StyleOrDefaultIdempotent(style: Option<WeddingStyle>)
    ensures StyleOrDefault(Some(StyleOrDefault(style))) == StyleOrDefault(style)
    ensures style != None ==> Some(StyleOrDefault(style)) == style
  {
  }
}
