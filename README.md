# Task manager: view-model and task store

This project models the two parts of the task manager that carry logic:

- **The browser view-model** (`app.js`). Each `Task` record holds `id`, `text`, `urgent` and
  `completed`, plus a computed `visible`. A `TaskListViewModel` holds the list of records, the
  new-task form, the two filter checkboxes and the flash message. Every action that talks to the
  server is a method that returns the request it sends. Every network reply is an input event of its own
  (`OnCreateSuccess`, `OnUpdateError`, `OnLoad(items)`, ...), and events are applied one at a
  time.
- **The server** (`Task.java`, `TaskRepository.java`, `TaskAPIController.java`). The `Task`
  entity is a class with setters and a `toString` format. The task table is a map from
  generated id to task record, plus the generator's next id. The repository changes the table
  in place through `save`, `delete` and `setTaskCompleted`, and answers
  `findAllByOrderByUrgentDesc`. The REST handlers check the request, change the table through
  the repository, and answer with a status code.

Modules: `Wrappers` (Option), `JavaText` (how Java prints a `Long`, a `String` and a `boolean`,
with parsers for them), `TaskModel` (the entity), `Repository`, `Controller`, `ClientApp`.

One behaviour of the client code that is easy to misread:

- **No defaulting of the flags.** At `app.js:10-11`, `|| false` is applied to the observable
  itself, which is always truthy, so it never takes effect: a missing `urgent` or `completed`
  stays absent (`None`). It still counts as not completed for visibility, because of JavaScript
  truthiness. Toggling it gives `true`, because `!undefined` is `true`. So two toggles give
  back a flag that was present, but turn an absent one into `false` (`NegatedTwice`).

## Model

| member | source | states |
|---|---|---|
| `ClientApp.Task.constructor` | src/main/resources/static/js/app.js:7-11 | the record's id, text, urgent and completed are the payload's, verbatim (an absent flag stays absent), and it is bound to the given view-model |
| `ClientApp.Task.Visible` | src/main/resources/static/js/app.js:15-19 | visible exactly when (completed and showCompleted) or (not completed and showNotCompleted), an absent flag counting as not completed |
| `ClientApp.VisibleUnderFilters` | src/main/resources/static/js/app.js:15-19 | for the four settings of the filters: both on shows every task, both off hides every task, and each alone shows exactly the completed or the not-completed tasks |
| `ClientApp.TaskListViewModel.constructor` | src/main/resources/static/js/app.js:30-42 | initially no tasks, an unset form, both filters on and the welcome message |
| `ClientApp.TaskListViewModel.SetNewTaskText` | src/main/resources/static/js/app.js:34 | the form's text field sets `newTaskText` and nothing else |
| `ClientApp.TaskListViewModel.SetNewTaskIsUrgent` | src/main/resources/static/js/app.js:35 | the form's checkbox sets `newTaskIsUrgent` and nothing else |
| `ClientApp.TaskListViewModel.SetShowCompleted` | src/main/resources/static/js/app.js:37 | the checkbox sets `showCompleted` and nothing else |
| `ClientApp.TaskListViewModel.SetShowNotCompleted` | src/main/resources/static/js/app.js:38 | the checkbox sets `showNotCompleted` and nothing else |
| `ClientApp.TaskListViewModel.SaveNewTask` | src/main/resources/static/js/app.js:47-50 | sends a create request with the form's text as it is, urgency true only when the checkbox is checked (unset counts as false), and `completed` false; changes nothing locally |
| `ClientApp.TaskListViewModel.OnCreateSuccess` | src/main/resources/static/js/app.js:60-65 | requests a reload, sets urgency to false, the text to empty and the message to "New task created.", whatever they were; leaves the tasks and filters alone |
| `ClientApp.TaskListViewModel.OnCreateError` | src/main/resources/static/js/app.js:66-67 | sets only the message, to "Unable to save task. Did you enter some text?"; the form keeps what was typed |
| `ClientApp.TaskListViewModel.TaskCompleted` | src/main/resources/static/js/app.js:73-85 | flips the task's `completed` at once, before any reply, changes nothing else, and sends the whole flipped task including the recomputed `visible` |
| `ClientApp.Negated` | src/main/resources/static/js/app.js:76 | JavaScript's `!` on a flag: `true` gives `false`, `false` gives `true`, and an absent flag gives `true` |
| `ClientApp.NegatedTwice` | src/main/resources/static/js/app.js:76 | two flips give back a present flag, turn an absent flag into false, and always give back the flag's truthiness, hence its visibility under unchanged filters |
| `ClientApp.TaskListViewModel.OnUpdateSuccess` | src/main/resources/static/js/app.js:86-88 | requests a reload; the message becomes `Task "<text>" updated` with the task's current text |
| `ClientApp.TaskListViewModel.OnUpdateError` | src/main/resources/static/js/app.js:89-91 | the message becomes "Sorry, error updating task"; the optimistic flip is not undone and no task changes |
| `ClientApp.TaskListViewModel.TaskDelete` | src/main/resources/static/js/app.js:96-105 | sends a delete request with the whole task; nothing changes locally |
| `ClientApp.TaskListViewModel.OnDeleteSuccess` | src/main/resources/static/js/app.js:106-109 | requests a reload; the message becomes `Task "<text>" deleted` |
| `ClientApp.TaskListViewModel.OnDeleteError` | src/main/resources/static/js/app.js:110-112 | the message becomes "Error deleting task"; the list and every task's fields are unchanged |
| `ClientApp.TaskListViewModel.LoadAllTasks` | src/main/resources/static/js/app.js:118-119 | sends the request for the whole collection |
| `ClientApp.TaskListViewModel.OnLoad` | src/main/resources/static/js/app.js:119-123 | the list is replaced by exactly one new record per server item, in server order, each with that item's fields and bound to this view-model's filters; pairwise distinct |
| `ClientApp.TaskListViewModel.Notification` | src/main/resources/static/js/app.js:129-131 | the message becomes exactly the given text on every call; nothing else changes |
| `TaskModel.Task.Empty` | src/main/java/com/clara/taskdb/model/Task.java:22-25 | the no-argument constructor leaves id and text null and both flags false |
| `TaskModel.Task.constructor` | src/main/java/com/clara/taskdb/model/Task.java:27-31 | stores text, urgent and completed as given; the id stays null |
| `TaskModel.Task.GetId` | src/main/java/com/clara/taskdb/model/Task.java:33-35 | returns the id field |
| `TaskModel.Task.SetId` | src/main/java/com/clara/taskdb/model/Task.java:37-39 | changes the id and no other field |
| `TaskModel.Task.GetText` | src/main/java/com/clara/taskdb/model/Task.java:41-43 | returns the text field |
| `TaskModel.Task.SetText` | src/main/java/com/clara/taskdb/model/Task.java:45-47 | changes the text and no other field |
| `TaskModel.Task.IsUrgent` | src/main/java/com/clara/taskdb/model/Task.java:49-51 | returns the urgent flag |
| `TaskModel.Task.SetUrgent` | src/main/java/com/clara/taskdb/model/Task.java:53-55 | changes the urgent flag and no other field |
| `TaskModel.Task.IsCompleted` | src/main/java/com/clara/taskdb/model/Task.java:57-59 | returns the completed flag |
| `TaskModel.Task.SetCompleted` | src/main/java/com/clara/taskdb/model/Task.java:61-63 | changes the completed flag and no other field |
| `TaskModel.Persistable` | src/main/java/com/clara/taskdb/model/Task.java:18-20 | a task may be stored exactly when its text is not null and not the empty string |
| `TaskModel.Task.ToString` | src/main/java/com/clara/taskdb/model/Task.java:66-74 | the string `Task{id=<id>, text='<text>', urgent=<b>, completed=<b>}`, with `null` for a null reference: it opens with `Task{id=` and closes with `}` (its full layout is read back by `ToStringRoundTrip`) |
| `TaskModel.ToStringRoundTrip` | src/main/java/com/clara/taskdb/model/Task.java:66-74 | the `Task{id=..., text='...', urgent=..., completed=...}` string can be read back to the id, the printed text and both flags, for every task (any text, null fields included) |
| `JavaText.ParseLongString` | src/main/java/com/clara/taskdb/model/Task.java:69 | the decimal form Java prints for a long reads back to the same number |
| `JavaText.ParseNullableLongString` | src/main/java/com/clara/taskdb/model/Task.java:69 | the printed id, `null` included, reads back to the same id |
| `Repository.Saved` | src/main/java/com/clara/taskdb/repository/TaskRepository.java:15 | a successful save updates the row with the task's id when it is stored, and otherwise inserts under a new generated id; no other row changes and the table stays keyed by id |
| `Repository.Removed` | src/main/java/com/clara/taskdb/repository/TaskRepository.java:15 | delete drops exactly the row with that id, one row fewer if it was stored; the table stays keyed by id |
| `Repository.OrderByUrgentDesc` | src/main/java/com/clara/taskdb/repository/TaskRepository.java:16 | lists every stored row exactly once and nothing else, with every urgent task before every task that is not urgent |
| `Repository.WithCompleted` | src/main/java/com/clara/taskdb/repository/TaskRepository.java:19-22 | sets `completed` on the row with that id, and changes neither its other fields nor any other row; no change when the id is not stored |
| `Repository.UpdatedCount` | src/main/java/com/clara/taskdb/repository/TaskRepository.java:21-22 | the count is the number of stored rows whose id column equals the query's id, which is 1 exactly when the id is stored and 0 otherwise |
| `Repository.TaskRepository.constructor` | src/main/java/com/clara/taskdb/repository/TaskRepository.java:15 | the repository starts with an empty table |
| `Repository.TaskRepository.Save` | src/main/java/com/clara/taskdb/repository/TaskRepository.java:15 | a task with a present, non-empty text is saved and the stored row returned; any other task raises and leaves the table as it was |
| `Repository.TaskRepository.FindById` | src/main/java/com/clara/taskdb/repository/TaskRepository.java:15 | finds a row exactly when the id is stored, and returns that row |
| `Repository.TaskRepository.Delete` | src/main/java/com/clara/taskdb/repository/TaskRepository.java:15 | removes the row with the entity's id; a null id removes nothing |
| `Repository.TaskRepository.FindAllByOrderByUrgentDesc` | src/main/java/com/clara/taskdb/repository/TaskRepository.java:16 | returns every stored task exactly once, urgent tasks first; changes nothing |
| `Repository.TaskRepository.SetTaskCompleted` | src/main/java/com/clara/taskdb/repository/TaskRepository.java:19-22 | updates one column of at most one row and returns the number of rows the query matched (1 even when the row already had that value) |
| `Controller.TaskApiController.constructor` | src/main/java/com/clara/taskdb/controller/TaskAPIController.java:22-24 | the controller works on the repository it is given |
| `Controller.TaskApiController.AddTask` | src/main/java/com/clara/taskdb/controller/TaskAPIController.java:35-44 | a valid task is stored and the answer is 201; an invalid one gets 400 with "Task object is invalid" and the table is unchanged |
| `Controller.TaskApiController.MarkTaskAsCompleted` | src/main/java/com/clara/taskdb/controller/TaskAPIController.java:46-51 | an unknown id gets 404 and no change; a known id has its row replaced by the whole request task and gets 204, other rows untouched; an invalid text escapes as a 500 with no change |
| `Controller.TaskApiController.QueryTasks` | src/main/java/com/clara/taskdb/controller/TaskAPIController.java:56-59 | answers 200 with the repository's urgent-first list of all stored tasks |
| `Controller.TaskApiController.DeleteTask` | src/main/java/com/clara/taskdb/controller/TaskAPIController.java:61-66 | an unknown id gets 404 and no change; a known id has exactly that row removed and gets 200 |

## Left out

- HTTP transport: the `$.ajax` and `$.getJSON` calls, URLs, methods and headers. A request is a `Request` value returned by the method that sends it; a reply is a call of the matching `On...` method.
- The view-model constructor's own initial `loadAllTasks()` call: a constructor cannot return a request, so the first load is `LoadAllTasks` called after construction.
- Replies that overlap or arrive out of order: this is concurrency, and the model applies one event at a time.
- The notification animation (`clearQueue`, `fadeTo`, `delay`): it is display timing only. `Notification` keeps only the `flashMessage` assignment.
- Knockout wiring and the page bootstrap. `visible` is a function of the current state, not a dependency graph.
- JSON details. `ko.toJSON` output is modelled as records whose absent properties are `None`. JavaScript `null` is not told apart from an absent property. Payload fields hold numbers, strings or booleans only.
- Jackson's mapping of a request body onto a `Task` object: each controller handler takes the request task as a `TaskRecord` value.
- Spring and JPA plumbing: injection, annotations, transactions, and `System.out.println` in `addTask`.
- Generated ids: a counter in the table, starting at 1. In the model, a failed save does not use up an id.
- Ids are unbounded integers, not 64-bit `Long`s.
- `Controller.TaskApiController.MarkTaskAsCompleted` requires a non-null request id, because `findById(null)` behaves as the library defines.
- `Controller.TaskApiController.DeleteTask` requires a non-null request id, because `findById(null)` behaves as the library defines.
- The body of a 500 answer is the framework's error page, and is not modelled.
- `Repository.OrderByUrgentDesc`: the order among rows of equal urgency is left to the database. The model lists them by ascending id, and its contract claims only "each row exactly once" and "urgent first".
- `TaskModel.Persistable` counts text length in characters, while the bean-validation `@Size` counts UTF-16 code units.
