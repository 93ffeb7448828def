/** The values the home page works with: tasks, request bodies, the
    notification (snackbar), the outcomes of the remote calls, and the fixed
    messages the page shows. */
module Tasks {

  datatype Option<+T> = None | Some(value: T) {
    function GetOr(default: T): T {
      match this
      case Some(v) => v
      case None => default
    }
  }

  /** Server-assigned identifier (`_id`); the client never invents one. */
  type TaskId = string

  /** A task as the server returns it. The title and description are passed
      through untouched; only `id` and `completed` are read by the page. */
  datatype Task = Task(id: TaskId, title: string, description: string, completed: bool)

  /** A partial set of task fields: the body of a POST or a PATCH. */
  datatype TaskFields = TaskFields(title: Option<string>, description: Option<string>, completed: Option<bool>)

  /** The severities a Material UI alert accepts. */
  datatype Severity = Success | Info | Warning | Error

  datatype Snackbar = Snackbar(open: bool, message: string, severity: Severity)

  /** Outcome of a POST, PATCH or DELETE: any non-success status or transport
      failure is `Rejected`. */
  datatype Ack = Accepted | Rejected

  /** Outcome of `GET /api/tasks`. */
  datatype Fetch = Loaded(data: seq<Task>) | LoadFailed

  /** The HTTP requests the page issues. */
  datatype Request =
    | Get                                  // GET /api/tasks
    | Post(body: TaskFields)               // POST /api/tasks
    | Patch(id: TaskId, body: TaskFields)  // PATCH /api/tasks/{id}
    | Delete(id: TaskId)                   // DELETE /api/tasks/{id}

  /** A request, with the loading flag and the error banner that are rendered
      while it is in flight. */
  datatype Call = Call(request: Request, loading: bool, error: Option<string>)

  /** The five pieces of component state. */
  datatype State = State(
    tasks: seq<Task>,
    editingTask: Option<Task>,
    loading: bool,
    error: Option<string>,
    snackbar: Snackbar)

  /** The state the component starts in. */
  const Initial := State([], None, false, None, Snackbar(false, "", Success))

  const LoadFailedMessage := "Failed to load tasks. Please refresh the page."
  const AddFailedMessage := "Failed to add task. Please try again."
  const UpdateFailedMessage := "Failed to update task. Please try again."
  const DeleteFailedMessage := "Failed to delete task. Please try again."
  const ToggleFailedMessage := "Failed to update task status."

  const TaskAddedMessage := "Task added successfully!"
  const TaskUpdatedMessage := "Task updated successfully!"
  const TaskDeletedMessage := "Task deleted!"
  const MarkedCompletedMessage := "Task marked as completed!"
  const MarkedIncompleteMessage := "Task marked as incomplete!"

  /** The snackbar after its close action: hidden, with its message and
      severity kept. */
  function Closed(sb: Snackbar): (r: Snackbar)
    ensures !r.open
    ensures r.message == sb.message && r.severity == sb.severity
  {
    sb.(open := false)
  }

  /** Closing the snackbar twice is the same as closing it once. */
  lemma CloseIdempotent(sb: Snackbar)
    ensures Closed(Closed(sb)) == Closed(sb)
  {
  }

  /** The PATCH body that toggles a task: only `completed`, inverted. */
  function ToggleBody(task: Task): TaskFields {
    TaskFields(None, None, Some(!task.completed))
  }

  /** The notification after a toggle names the value the task now has. */
  function ToggleMessage(task: Task): (m: string)
    ensures m == MarkedCompletedMessage <==> !task.completed
    ensures m == MarkedIncompleteMessage <==> task.completed
  {
    "Task marked as " + (if !task.completed then "completed" else "incomplete") + "!"
  }

  /** How a server that honours a PATCH reflects it: the fields present in the
      body replace the task's, the others and the identifier are kept. */
  function Patched(t: Task, body: TaskFields): (r: Task)
    ensures r.id == t.id
    ensures body == TaskFields(None, None, None) ==> r == t
  {
    Task(t.id, body.title.GetOr(t.title), body.description.GetOr(t.description),
         body.completed.GetOr(t.completed))
  }

  /** One toggle inverts `completed`. A second toggle of the task as the
      server returned it after the first PATCH (`once`) gives back the task
      it started from. The page holds `once` only when the reload after the
      first toggle succeeded: see `Sessions.ToggleTwiceThroughPage` and
      `Sessions.StaleToggleRepeats`. */
  lemma ToggleTwiceRestores(t: Task)
    ensures Patched(t, ToggleBody(t)).completed == !t.completed
    ensures var once := Patched(t, ToggleBody(t)); Patched(once, ToggleBody(once)) == t
  {
  }
}
