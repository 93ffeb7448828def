/** The home page's handlers as functions from the state before a handler runs
    (and the outcomes of its remote calls) to the state after it has settled.
    Each body follows the handler's own order of state updates; each contract
    states what that order amounts to. */
module Transitions {
  import opened Tasks

  /** `r` is what a completed reload leaves behind, starting from `s`: loading
      is over, the selection is untouched, and either the collection is
      exactly the server's response with no error, or the collection is kept
      and the load-failure message is shown. */
  ghost predicate Reloaded(s: State, reload: Fetch, r: State) {
    && !r.loading
    && r.editingTask == s.editingTask
    && (reload.Loaded? ==> r.tasks == reload.data && r.error == None)
    && (reload.LoadFailed? ==> r.tasks == s.tasks && r.error == Some(LoadFailedMessage))
  }

  /** `fetchTasks`: set loading and clear the error, then take the server's
      list or show the load-failure message; loading is cleared either way.
      It never fails itself, so its callers carry on after it. */
  function AfterFetch(s: State, reply: Fetch): (r: State)
    ensures Reloaded(s, reply, r)
    ensures r.snackbar == s.snackbar
  {
    var started := s.(loading := true, error := None);
    var settled :=
      match reply
      case Loaded(data) => started.(tasks := data)
      case LoadFailed => started.(error := Some(LoadFailedMessage));
    settled.(loading := false)
  }

  /** `await fetchTasks(); showSnackbar(message, severity)`, the tail every
      mutation runs once its remote call has succeeded. */
  function Reconcile(s: State, reload: Fetch, message: string, severity: Severity): State {
    AfterFetch(s, reload).(snackbar := Snackbar(true, message, severity))
  }

  /** `handleAddTask`. */
  function AfterAddTask(s: State, created: Ack, reload: Fetch): (r: State)
    ensures created.Rejected? ==> r == s.(error := Some(AddFailedMessage))
    ensures created.Accepted? ==>
      Reloaded(s, reload, r) && r.snackbar == Snackbar(true, TaskAddedMessage, Success)
  {
    var cleared := s.(error := None);
    match created
    case Accepted => Reconcile(cleared, reload, TaskAddedMessage, Success)
    case Rejected => cleared.(error := Some(AddFailedMessage))
  }

  /** `handleUpdateTask`, which the page only offers while a task is selected
      for editing. The selection is dropped exactly when the PATCH succeeded. */
  function AfterUpdateTask(s: State, patched: Ack, reload: Fetch): (r: State)
    requires s.editingTask.Some?
    ensures r.editingTask == None <==> patched.Accepted?
    ensures patched.Rejected? ==> r == s.(error := Some(UpdateFailedMessage))
    ensures patched.Accepted? ==>
      Reloaded(s.(editingTask := None), reload, r)
      && r.snackbar == Snackbar(true, TaskUpdatedMessage, Success)
  {
    var cleared := s.(error := None);
    match patched
    case Accepted => Reconcile(cleared.(editingTask := None), reload, TaskUpdatedMessage, Success)
    case Rejected => cleared.(error := Some(UpdateFailedMessage))
  }

  /** `handleDeleteTask`: its notification is informational. */
  function AfterDeleteTask(s: State, deleted: Ack, reload: Fetch): (r: State)
    ensures deleted.Rejected? ==> r == s.(error := Some(DeleteFailedMessage))
    ensures deleted.Accepted? ==>
      Reloaded(s, reload, r) && r.snackbar == Snackbar(true, TaskDeletedMessage, Info)
  {
    var cleared := s.(error := None);
    match deleted
    case Accepted => Reconcile(cleared, reload, TaskDeletedMessage, Info)
    case Rejected => cleared.(error := Some(DeleteFailedMessage))
  }

  /** `handleToggleComplete`: the notification names the new value. */
  function AfterToggleComplete(s: State, task: Task, patched: Ack, reload: Fetch): (r: State)
    ensures patched.Rejected? ==> r == s.(error := Some(ToggleFailedMessage))
    ensures patched.Accepted? ==>
      Reloaded(s, reload, r)
      && r.snackbar.open && r.snackbar.severity == Success
      && (r.snackbar.message == MarkedCompletedMessage <==> !task.completed)
      && (r.snackbar.message == MarkedIncompleteMessage <==> task.completed)
  {
    var cleared := s.(error := None);
    match patched
    case Accepted => Reconcile(cleared, reload, ToggleMessage(task), Success)
    case Rejected => cleared.(error := Some(ToggleFailedMessage))
  }

  /** The list's edit action (`onEdit={setEditingTask}`): the task becomes
      the selection and nothing else changes. */
  function AfterEditTask(s: State, task: Task): (r: State)
    ensures r.editingTask == Some(task)
    ensures r.(editingTask := s.editingTask) == s
  {
    s.(editingTask := Some(task))
  }

  /** The form's cancel action (`setEditingTask(null)`): the selection is
      dropped and nothing else changes. */
  function AfterCancelEdit(s: State): (r: State)
    ensures r.editingTask == None
    ensures r.(editingTask := s.editingTask) == s
  {
    s.(editingTask := None)
  }

  /** `handleCloseSnackbar`: the snackbar is hidden with its message and
      severity kept, and nothing else changes. */
  function AfterCloseSnackbar(s: State): (r: State)
    ensures !r.snackbar.open
    ensures r.snackbar.message == s.snackbar.message && r.snackbar.severity == s.snackbar.severity
    ensures r.(snackbar := s.snackbar) == s
  {
    s.(snackbar := Closed(s.snackbar))
  }
}
