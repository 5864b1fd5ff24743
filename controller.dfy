/**
 * The REST handlers of `TaskAPIController`: each checks the request against the repository,
 * changes the table through it, and answers with a status code and an optional body.
 */
module Controller {
  import opened Wrappers
  import opened TaskModel
  import opened Repository

  const OK := 200
  const CREATED := 201
  const NO_CONTENT := 204
  const BAD_REQUEST := 400
  const NOT_FOUND := 404
  /** The status the web framework answers with when a handler lets an exception escape. */
  const INTERNAL_SERVER_ERROR := 500

  const InvalidTaskMessage := "Task object is invalid"

  datatype Body = NoBody | Message(text: string) | TaskList(tasks: seq<TaskRecord>)

  datatype Response = Response(status: int, body: Body)

  class TaskApiController {
    const tasks: TaskRepository

    constructor (tasks: TaskRepository)
      ensures this.tasks == tasks
    {
      this.tasks := tasks;
    }

    /** `POST /add`: saves the request task, 201 on success, 400 with a message when the save fails. */
    method AddTask(task: TaskRecord) returns (resp: Response)
      requires tasks.Valid()
      modifies tasks
      ensures tasks.Valid()
      ensures Persistable(task) ==> resp == Response(CREATED, NoBody) && tasks.table == Saved(old(tasks.table), task)
      ensures !Persistable(task) ==> resp == Response(BAD_REQUEST, Message(InvalidTaskMessage)) && tasks.table == old(tasks.table)
    {
      var saved := tasks.Save(task);
      if saved.None? {
        return Response(BAD_REQUEST, Message(InvalidTaskMessage));
      }
      resp := Response(CREATED, NoBody);
    }

    /**
     * `PATCH /completed`: 404 when no row has the task's id; otherwise the whole request task
     * replaces that row and the answer is 204. A task whose text cannot be stored makes the
     * save raise, which this handler does not catch.
     */
    method MarkTaskAsCompleted(task: TaskRecord) returns (resp: Response)
      requires tasks.Valid()
      requires task.id.Some?
      modifies tasks
      ensures tasks.Valid()
      ensures task.id.value !in old(tasks.table.rows) ==> resp == Response(NOT_FOUND, NoBody) && tasks.table == old(tasks.table)
      ensures task.id.value in old(tasks.table.rows) && Persistable(task) ==>
                resp == Response(NO_CONTENT, NoBody)
                && tasks.table == Table(old(tasks.table.rows)[task.id.value := task], old(tasks.table.nextId))
      ensures task.id.value in old(tasks.table.rows) && !Persistable(task) ==>
                resp == Response(INTERNAL_SERVER_ERROR, NoBody) && tasks.table == old(tasks.table)
    {
      var found := tasks.FindById(task.id.value);
      if found.None? {
        return Response(NOT_FOUND, NoBody);
      }
      var saved := tasks.Save(task);
      if saved.None? {
        return Response(INTERNAL_SERVER_ERROR, NoBody);
      }
      resp := Response(NO_CONTENT, NoBody);
    }

    /** `GET /tasks`: 200 with every stored task, urgent ones first. */
    method QueryTasks() returns (resp: Response)
      requires tasks.Valid()
      ensures resp.status == OK && resp.body.TaskList?
      ensures resp.body.tasks == OrderByUrgentDesc(tasks.table)
      ensures ListsEachRowOnce(resp.body.tasks, tasks.table.rows)
      ensures UrgentFirst(resp.body.tasks)
    {
      var all := tasks.FindAllByOrderByUrgentDesc();
      resp := Response(OK, TaskList(all));
    }

    /** `DELETE /delete`: 404 when no row has the task's id; otherwise removes exactly that row and answers 200. */
    method DeleteTask(task: TaskRecord) returns (resp: Response)
      requires tasks.Valid()
      requires task.id.Some?
      modifies tasks
      ensures tasks.Valid()
      ensures task.id.value !in old(tasks.table.rows) ==> resp == Response(NOT_FOUND, NoBody) && tasks.table == old(tasks.table)
      ensures task.id.value in old(tasks.table.rows) ==>
                resp == Response(OK, NoBody) && tasks.table == Removed(old(tasks.table), task.id.value)
    {
      var found := tasks.FindById(task.id.value);
      if found.None? {
        return Response(NOT_FOUND, NoBody);
      }
      tasks.Delete(task);
      resp := Response(OK, NoBody);
    }
  }
}
