/** The `HomePage` component's state and handlers. Each remote call is replaced
    by its outcome, passed in as a parameter; each handler returns the
    requests it issued, in order, with what the page showed while each was in
    flight. */
module Controller {
  import opened Tasks
  import opened Transitions

  class HomePage {
    var tasks: seq<Task>
    var editingTask: Option<Task>
    var loading: bool
    var error: Option<string>
    var snackbar: Snackbar

    /** The five fields as one value. */
    function Snapshot(): State
      reads this
    {
      State(tasks, editingTask, loading, error, snackbar)
    }

    /** No tasks, nothing selected, not loading, no error, and a closed
        snackbar with an empty message and severity `Success`. */
    constructor ()
      ensures tasks == [] && editingTask == None && !loading && error == None
      ensures snackbar == Snackbar(false, "", Success)
      ensures Snapshot() == Initial
    {
      tasks := [];
      editingTask := None;
      loading := false;
      error := None;
      snackbar := Snackbar(false, "", Success);
    }

    /** Opens the snackbar with the given message; the severity defaults to
        `Success`. Nothing else changes. */
    method ShowSnackbar(message: string, severity: Severity := Success)
      modifies this
      ensures snackbar == Snackbar(true, message, severity)
      ensures Snapshot() == old(Snapshot()).(snackbar := snackbar)
    {
      snackbar := Snackbar(true, message, severity);
    }

    /** Hides the snackbar, keeping its message and severity. */
    method HandleCloseSnackbar()
      modifies this
      ensures Snapshot() == AfterCloseSnackbar(old(Snapshot()))
    {
      snackbar := snackbar.(open := false);
    }

    /** Loads the collection; one GET, issued with loading set and no error. */
    method FetchTasks(reply: Fetch) returns (calls: seq<Call>)
      modifies this
      ensures Snapshot() == AfterFetch(old(Snapshot()), reply)
      ensures calls == [Call(Get, true, None)]
    {
      loading := true;
      error := None;
      calls := [Call(Get, loading, error)];
      match reply {
        case Loaded(data) =>
          tasks := data;
        case LoadFailed =>
          error := Some(LoadFailedMessage);
      }
      loading := false;
    }

    /** POSTs the form's fields; reloads only when the POST succeeded. */
    method HandleAddTask(taskData: TaskFields, created: Ack, reload: Fetch) returns (calls: seq<Call>)
      modifies this
      ensures Snapshot() == AfterAddTask(old(Snapshot()), created, reload)
      ensures calls == [Call(Post(taskData), old(loading), None)]
                       + (if created.Accepted? then [Call(Get, true, None)] else [])
    {
      error := None;
      calls := [Call(Post(taskData), loading, error)];
      if created.Accepted? {
        var reloadCalls := FetchTasks(reload);
        calls := calls + reloadCalls;
        ShowSnackbar(TaskAddedMessage);
      } else {
        error := Some(AddFailedMessage);
      }
    }

    /** PATCHes the selected task with the form's fields; the selection is
        dropped only after the PATCH succeeded. */
    method HandleUpdateTask(taskData: TaskFields, patched: Ack, reload: Fetch) returns (calls: seq<Call>)
      requires editingTask.Some?
      modifies this
      ensures Snapshot() == AfterUpdateTask(old(Snapshot()), patched, reload)
      ensures calls == [Call(Patch(old(editingTask).value.id, taskData), old(loading), None)]
                       + (if patched.Accepted? then [Call(Get, true, None)] else [])
    {
      error := None;
      calls := [Call(Patch(editingTask.value.id, taskData), loading, error)];
      if patched.Accepted? {
        editingTask := None;
        var reloadCalls := FetchTasks(reload);
        calls := calls + reloadCalls;
        ShowSnackbar(TaskUpdatedMessage);
      } else {
        error := Some(UpdateFailedMessage);
      }
    }

    /** DELETEs the task with the given identifier. */
    method HandleDeleteTask(taskId: TaskId, deleted: Ack, reload: Fetch) returns (calls: seq<Call>)
      modifies this
      ensures Snapshot() == AfterDeleteTask(old(Snapshot()), deleted, reload)
      ensures calls == [Call(Delete(taskId), old(loading), None)]
                       + (if deleted.Accepted? then [Call(Get, true, None)] else [])
    {
      error := None;
      calls := [Call(Delete(taskId), loading, error)];
      if deleted.Accepted? {
        var reloadCalls := FetchTasks(reload);
        calls := calls + reloadCalls;
        ShowSnackbar(TaskDeletedMessage, Info);
      } else {
        error := Some(DeleteFailedMessage);
      }
    }

    /** PATCHes the task's `completed` flag to the opposite of its value. */
    method HandleToggleComplete(task: Task, patched: Ack, reload: Fetch) returns (calls: seq<Call>)
      modifies this
      ensures Snapshot() == AfterToggleComplete(old(Snapshot()), task, patched, reload)
      ensures calls == [Call(Patch(task.id, ToggleBody(task)), old(loading), None)]
                       + (if patched.Accepted? then [Call(Get, true, None)] else [])
      ensures calls[0].request.body.completed == Some(!task.completed)
    {
      error := None;
      calls := [Call(Patch(task.id, ToggleBody(task)), loading, error)];
      if patched.Accepted? {
        var reloadCalls := FetchTasks(reload);
        calls := calls + reloadCalls;
        ShowSnackbar(ToggleMessage(task));
      } else {
        error := Some(ToggleFailedMessage);
      }
    }

    /** The list's edit action: selects the task for the form. */
    method HandleEditTask(task: Task)
      modifies this
      ensures Snapshot() == AfterEditTask(old(Snapshot()), task)
    {
      editingTask := Some(task);
    }

    /** The form's cancel action: drops the selection. */
    method HandleCancelEdit()
      modifies this
      ensures Snapshot() == AfterCancelEdit(old(Snapshot()))
    {
      editingTask := None;
    }
  }
}
