/**
  The values exchanged with the five HTTP handlers of the task store: the
  stored document, the decoded request bodies and the outcomes a handler
  can answer with (200 with a payload, 400 with a reason, 404, 500).
*/
module Api {
  import opened Wrappers

  /** One user's tasks: day key to the ordered list of task texts. */
  type DayMap = map<string, seq<string>>

  /** The users collection: one document per user name. */
  type Users = map<string, DayMap>

  /** A stored document `{name, tasks}`. */
  datatype User = User(name: string, tasks: DayMap)

  /** Body of POST /api/users; `tasks` is None when omitted or null. */
  datatype UpdateTasksRequest = UpdateTasksRequest(name: string, tasks: Option<DayMap>)

  /** Body of POST /api/users/{name}/day/{day}; `tasks` is None when omitted or null. */
  datatype UpdateDayTasksRequest = UpdateDayTasksRequest(tasks: Option<seq<string>>)

  /** A request body as JSON binding leaves it: not bindable, or decoded. */
  datatype Body<T> = Unbindable | Bound(request: T)

  /** Payload of the two day-scoped handlers: `{name, day, tasks}`. */
  datatype DayTasks = DayTasks(name: string, day: int, tasks: seq<string>)

  /** The distinct 400 answers, one per error message of the handlers. */
  datatype BadRequestReason =
    | MalformedBody   // the body could not be bound
    | MissingName     // `name` is empty
    | MalformedDay    // the day segment is not an integer
    | DayOutOfRange   // the day is an integer outside 1..7
    | TasksNotArray   // `tasks` is missing or null

  /** What a handler answers: 200, 400, 404 or 500. */
  datatype Response<T> =
    | Ok(value: T)
    | BadRequest(reason: BadRequestReason)
    | NotFound
    | StorageError
}
