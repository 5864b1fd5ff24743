/**
 * The browser view-model: `Task` records bound to a `TaskListViewModel`. Every network
 * reply is an input event of its own (`On...` methods), applied one at a time; the methods
 * that start a request return the request they send.
 */
module ClientApp {
  import opened Wrappers

  /** A task as the server sends it; `None` is a property the JSON object does not have. */
  datatype TaskData = TaskData(id: Option<int>, text: Option<string>, urgent: Option<bool>, completed: Option<bool>)

  /** `ko.toJSON` of a `Task`: its four properties (absent ones left out) and the computed `visible`. */
  datatype TaskJson = TaskJson(data: TaskData, visible: bool)

  /** The body of a create request. */
  datatype NewTaskJson = NewTaskJson(text: Option<string>, urgent: bool, completed: bool)

  datatype Request =
    | Create(newTask: NewTaskJson)   // POST add
    | Update(task: TaskJson)         // PATCH completed
    | Delete(task: TaskJson)         // DELETE delete
    | LoadAll                        // GET /tasks

  const WelcomeMessage := "Welcome to the Task Manager!"
  const CreatedMessage := "New task created."
  const CreateErrorMessage := "Unable to save task. Did you enter some text?"
  const UpdateErrorMessage := "Sorry, error updating task"
  const DeleteErrorMessage := "Error deleting task"

  /** JavaScript truthiness of a flag that may be absent. */
  function Truthy(b: Option<bool>): bool {
    b == Some(true)
  }

  /** JavaScript `!b` for a flag that may be absent: `!undefined` is `true`. */
  function Negated(b: Option<bool>): (r: Option<bool>)
    ensures b == Some(true) ==> r == Some(false)
    ensures b == Some(false) ==> r == Some(true)
    ensures b == None ==> r == Some(true)
  {
    Some(!Truthy(b))
  }

  /** A string value in a template literal: an absent text prints as `undefined`. */
  function TemplateText(s: Option<string>): string {
    match s
    case None => "undefined"
    case Some(v) => v
  }

  function UpdatedMessage(text: Option<string>): string {
    "Task \"" + TemplateText(text) + "\" updated"
  }

  function DeletedMessage(text: Option<string>): string {
    "Task \"" + TemplateText(text) + "\" deleted"
  }

  /** Flipping a present flag twice gives it back; an absent one comes back as `false`. */
  lemma NegatedTwice(b: Option<bool>)
    ensures b.Some? ==> Negated(Negated(b)) == b
    ensures b.None? ==> Negated(Negated(b)) == Some(false)
    ensures Truthy(Negated(Negated(b))) == Truthy(b)
  {
    match b
    case Some(x) =>
      assert Negated(b) == Some(!x);
      assert Negated(Some(!x)) == Some(x);
    case None =>
  }

  class Task {
    const id: Option<int>
    var text: Option<string>
    var urgent: Option<bool>
    var completed: Option<bool>
    /** The view-model whose filters decide visibility; read, never changed, by the task. */
    const ctx: TaskListViewModel

    function Data(): TaskData
      reads this
    {
      TaskData(id, text, urgent, completed)
    }

    /** Copies the four payload properties as they are; an absent flag stays absent. */
    constructor (data: TaskData, ctx: TaskListViewModel)
      ensures Data() == data && this.ctx == ctx
    {
      id := data.id;
      text := data.text;
      urgent := data.urgent;
      completed := data.completed;
      this.ctx := ctx;
    }

    /** The computed `visible`. */
    function Visible(): (v: bool)
      reads this, ctx
      ensures v <==> (Truthy(completed) && ctx.showCompleted) || (!Truthy(completed) && ctx.showNotCompleted)
    {
      if Truthy(completed) && ctx.showCompleted then true
      else if !Truthy(completed) && ctx.showNotCompleted then true
      else false
    }

    function ToJson(): (j: TaskJson)
      reads this, ctx
    {
      TaskJson(Data(), Visible())
    }
  }

  /** What the two filters show, for each of their four settings. */
  lemma VisibleUnderFilters(t: Task)
    ensures t.ctx.showCompleted && t.ctx.showNotCompleted ==> t.Visible()
    ensures !t.ctx.showCompleted && !t.ctx.showNotCompleted ==> !t.Visible()
    ensures t.ctx.showCompleted && !t.ctx.showNotCompleted ==> (t.Visible() <==> Truthy(t.completed))
    ensures !t.ctx.showCompleted && t.ctx.showNotCompleted ==> (t.Visible() <==> !Truthy(t.completed))
  {
  }

  class TaskListViewModel {
    var tasks: seq<Task>
    var newTaskText: Option<string>
    var newTaskIsUrgent: Option<bool>
    var showCompleted: bool
    var showNotCompleted: bool
    var flashMessage: string

    /** The initial state. The page's constructor also calls `loadAllTasks()`; here the first load is a separate `LoadAllTasks` call. */
    constructor ()
      ensures tasks == [] && newTaskText == None && newTaskIsUrgent == None
      ensures showCompleted && showNotCompleted
      ensures flashMessage == WelcomeMessage
    {
      tasks := [];
      newTaskText := None;
      newTaskIsUrgent := None;
      showCompleted := true;
      showNotCompleted := true;
      flashMessage := WelcomeMessage;
    }

    /** The form's text field writes `newTaskText`. */
    method SetNewTaskText(text: string)
      modifies this`newTaskText
      ensures newTaskText == Some(text)
    {
      newTaskText := Some(text);
    }

    /** The form's checkbox writes `newTaskIsUrgent`. */
    method SetNewTaskIsUrgent(urgent: bool)
      modifies this`newTaskIsUrgent
      ensures newTaskIsUrgent == Some(urgent)
    {
      newTaskIsUrgent := Some(urgent);
    }

    method SetShowCompleted(show: bool)
      modifies this`showCompleted
      ensures showCompleted == show
    {
      showCompleted := show;
    }

    method SetShowNotCompleted(show: bool)
      modifies this`showNotCompleted
      ensures showNotCompleted == show
    {
      showNotCompleted := show;
    }

    /** `notification(text)`: shows exactly `text`, whatever was shown before. */
    method Notification(text: string)
      modifies this`flashMessage
      ensures flashMessage == text
    {
      flashMessage := text;
    }

    /** `saveNewTask`: sends the form's text, its urgency defaulted to false, and `completed: false`. */
    method SaveNewTask() returns (req: Request)
      ensures req.Create?
      ensures req.newTask.text == newTaskText
      ensures req.newTask.urgent == Truthy(newTaskIsUrgent)
      ensures !req.newTask.completed
    {
      var urgent := if Truthy(newTaskIsUrgent) then true else false;
      req := Create(NewTaskJson(newTaskText, urgent, false));
    }

    /** The create request succeeded: reload, clear the form, notify. */
    method OnCreateSuccess() returns (req: Request)
      modifies this`newTaskIsUrgent, this`newTaskText, this`flashMessage
      ensures req == LoadAll
      ensures newTaskIsUrgent == Some(false) && newTaskText == Some("")
      ensures flashMessage == CreatedMessage
    {
      req := LoadAllTasks();
      newTaskIsUrgent := Some(false);
      newTaskText := Some("");
      Notification(CreatedMessage);
    }

    /** The create request failed: only the message changes, so the form keeps what the user typed. */
    method OnCreateError()
      modifies this`flashMessage
      ensures flashMessage == CreateErrorMessage
    {
      Notification(CreateErrorMessage);
    }

    /** `taskCompleted`: flips `completed` at once, before any reply, and sends the whole flipped task. */
    method TaskCompleted(task: Task) returns (req: Request)
      modifies task`completed
      ensures task.completed == Negated(old(task.completed))
      ensures req == Update(task.ToJson())
    {
      task.completed := Negated(task.completed);
      req := Update(task.ToJson());
    }

    /** The update request succeeded: reload and notify with the task's text. */
    method OnUpdateSuccess(task: Task) returns (req: Request)
      modifies this`flashMessage
      ensures req == LoadAll
      ensures flashMessage == UpdatedMessage(task.text)
    {
      req := LoadAllTasks();
      Notification(UpdatedMessage(task.text));
    }

    /** The update request failed: the flip is not undone; only the message changes. */
    method OnUpdateError()
      modifies this`flashMessage
      ensures flashMessage == UpdateErrorMessage
      ensures tasks == old(tasks)
      ensures forall t :: t in tasks ==> t.Data() == old(t.Data())
    {
      Notification(UpdateErrorMessage);
    }

    /** `taskDelete`: sends the task; nothing changes locally until the reply. */
    method TaskDelete(task: Task) returns (req: Request)
      ensures req == Delete(task.ToJson())
    {
      req := Delete(task.ToJson());
    }

    /** The delete request succeeded: reload and notify with the task's text. */
    method OnDeleteSuccess(task: Task) returns (req: Request)
      modifies this`flashMessage
      ensures req == LoadAll
      ensures flashMessage == DeletedMessage(task.text)
    {
      req := LoadAllTasks();
      Notification(DeletedMessage(task.text));
    }

    /** The delete request failed: the task stays, with every field as it was; only the message changes. */
    method OnDeleteError()
      modifies this`flashMessage
      ensures flashMessage == DeleteErrorMessage
      ensures tasks == old(tasks)
      ensures forall t :: t in tasks ==> t.Data() == old(t.Data())
    {
      Notification(DeleteErrorMessage);
    }

    /** `loadAllTasks`: asks for the whole collection. */
    method LoadAllTasks() returns (req: Request)
      ensures req == LoadAll
    {
      req := LoadAll;
    }

    /**
     * The collection arrived: one new `Task` per item, in the server's order, each bound to
     * this view-model, replacing the previous records wholesale.
     */
    method OnLoad(items: seq<TaskData>)
      modifies this`tasks
      ensures |tasks| == |items|
      ensures forall i :: 0 <= i < |items| ==> fresh(tasks[i]) && tasks[i].Data() == items[i] && tasks[i].ctx == this
      ensures forall i, j :: 0 <= i < j < |tasks| ==> tasks[i] != tasks[j]
    {
      var loaded: seq<Task> := [];
      for i := 0 to |items|
        invariant |loaded| == i
        invariant forall j :: 0 <= j < i ==> fresh(loaded[j]) && loaded[j].Data() == items[j] && loaded[j].ctx == this
        invariant forall j, k :: 0 <= j < k < i ==> loaded[j] != loaded[k]
      {
        var t := new Task(items[i], this);
        loaded := loaded + [t];
      }
      tasks := loaded;
    }
  }

  /** Filter and failed-delete scenarios, replayed event by event. */
  method FilterScenario() {
    var vm := new TaskListViewModel();
    var a := TaskData(Some(1), Some("A"), None, Some(false));
    var b := TaskData(Some(2), Some("B"), None, Some(true));
    vm.OnLoad([a, b]);
    var t1, t2 := vm.tasks[0], vm.tasks[1];
    assert t1.Visible() && t2.Visible();
    vm.SetShowCompleted(false);
    assert t1.Visible() && !t2.Visible();
    vm.OnDeleteError();
    assert vm.tasks == [t1, t2] && t2.Data() == b;
    assert vm.flashMessage == DeleteErrorMessage;
  }
}
