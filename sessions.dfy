/** Sessions: sequences of user actions on the home page, each with the
    outcomes of the remote calls it makes, run one handler at a time. The
    lemmas here relate a whole session to reference definitions written
    without the page's state. */
module Sessions {
  import opened Tasks
  import opened Transitions

  /** One thing the user (or the mount hook) does, with the outcomes of the
      remote calls it makes: `ack` for the mutation, `reload` for the GET
      that follows a successful one. */
  datatype Action =
    | FetchTasks(reply: Fetch)
    | AddTask(taskData: TaskFields, ack: Ack, reload: Fetch)
    | UpdateTask(taskData: TaskFields, ack: Ack, reload: Fetch)
    | DeleteTask(taskId: TaskId, ack: Ack, reload: Fetch)
    | ToggleComplete(task: Task, ack: Ack, reload: Fetch)
    | EditTask(task: Task)
    | CancelEdit
    | CloseSnackbar

  predicate IsMutation(a: Action) {
    a.AddTask? || a.UpdateTask? || a.DeleteTask? || a.ToggleComplete?
  }

  /** The page offers the update form only while a task is selected. */
  predicate Enabled(s: State, a: Action) {
    a.UpdateTask? ==> s.editingTask.Some?
  }

  /** The state after one action has settled. */
  function Step(s: State, a: Action): State
    requires Enabled(s, a)
  {
    match a
    case FetchTasks(reply) => AfterFetch(s, reply)
    case AddTask(_, ack, reload) => AfterAddTask(s, ack, reload)
    case UpdateTask(_, ack, reload) => AfterUpdateTask(s, ack, reload)
    case DeleteTask(_, ack, reload) => AfterDeleteTask(s, ack, reload)
    case ToggleComplete(task, ack, reload) => AfterToggleComplete(s, task, ack, reload)
    case EditTask(task) => AfterEditTask(s, task)
    case CancelEdit => AfterCancelEdit(s)
    case CloseSnackbar => AfterCloseSnackbar(s)
  }

  /** Every action of the session is offered when its turn comes. */
  ghost predicate Playable(s: State, actions: seq<Action>)
    decreases |actions|
  {
    actions == [] || (Enabled(s, actions[0]) && Playable(Step(s, actions[0]), actions[1..]))
  }

  /** The state after the whole session, one action after the other. */
  function Run(s: State, actions: seq<Action>): State
    requires Playable(s, actions)
    decreases |actions|
  {
    if actions == [] then s else Run(Step(s, actions[0]), actions[1..])
  }

  // ----- Reference definitions, in terms of the actions alone -----

  /** The collection returned by the reload this action makes and that
      succeeds, if there is one. */
  function ReloadedData(a: Action): Option<seq<Task>> {
    match a
    case FetchTasks(Loaded(data)) => Some(data)
    case AddTask(_, Accepted, Loaded(data)) => Some(data)
    case UpdateTask(_, Accepted, Loaded(data)) => Some(data)
    case DeleteTask(_, Accepted, Loaded(data)) => Some(data)
    case ToggleComplete(_, Accepted, Loaded(data)) => Some(data)
    case _ => None
  }

  /** The collection from the last successful reload of the session, or
      `init` if there was none. */
  function LastReload(init: seq<Task>, actions: seq<Action>): seq<Task>
    decreases |actions|
  {
    if actions == [] then init
    else
      match ReloadedData(actions[|actions| - 1])
      case Some(data) => data
      case None => LastReload(init, actions[..|actions| - 1])
  }

  /** The selection this action leaves, if it changes it. */
  function SelectionSet(a: Action): Option<Option<Task>> {
    match a
    case EditTask(task) => Some(Some(task))
    case CancelEdit => Some(None)
    case UpdateTask(_, Accepted, _) => Some(None)
    case _ => None
  }

  /** The selection left by the last action of the session that changes it,
      or `init` if none does. */
  function LastSelection(init: Option<Task>, actions: seq<Action>): Option<Task>
    decreases |actions|
  {
    if actions == [] then init
    else
      match SelectionSet(actions[|actions| - 1])
      case Some(selection) => selection
      case None => LastSelection(init, actions[..|actions| - 1])
  }

  /** The fixed message each mutation shows when its own call fails. */
  function FailureMessage(a: Action): string
    requires IsMutation(a)
  {
    match a
    case AddTask(_, _, _) => AddFailedMessage
    case UpdateTask(_, _, _) => UpdateFailedMessage
    case DeleteTask(_, _, _) => DeleteFailedMessage
    case ToggleComplete(_, _, _) => ToggleFailedMessage
  }

  /** The notification each mutation raises once its own call succeeded. */
  function SuccessNotice(a: Action): Snackbar
    requires IsMutation(a)
  {
    match a
    case AddTask(_, _, _) => Snackbar(true, TaskAddedMessage, Success)
    case UpdateTask(_, _, _) => Snackbar(true, TaskUpdatedMessage, Success)
    case DeleteTask(_, _, _) => Snackbar(true, TaskDeletedMessage, Info)
    case ToggleComplete(task, _, _) =>
      Snackbar(true, if task.completed then MarkedIncompleteMessage else MarkedCompletedMessage, Success)
  }

  /** The error an operation leaves: its own message when its call failed,
      the load-failure message when only the reload failed, none otherwise. */
  function ExpectedError(a: Action): Option<string>
    requires a.FetchTasks? || IsMutation(a)
  {
    if a.FetchTasks? then
      (if a.reply.LoadFailed? then Some(LoadFailedMessage) else None)
    else if a.ack.Rejected? then Some(FailureMessage(a))
    else if a.reload.LoadFailed? then Some(LoadFailedMessage)
    else None
  }

  // ----- One action -----

  /** The collection changes only through a successful reload, and then to
      exactly the server's response. */
  lemma StepTasks(s: State, a: Action)
    requires Enabled(s, a)
    ensures Step(s, a).tasks == ReloadedData(a).GetOr(s.tasks)
  {
  }

  /** The selection changes only by edit, cancel and a successful update. */
  lemma StepSelection(s: State, a: Action)
    requires Enabled(s, a)
    ensures Step(s, a).editingTask == SelectionSet(a).GetOr(s.editingTask)
  {
  }

  /** Every operation clears the previous error and sets one only on its own
      failure; edit, cancel and close leave the error alone. */
  lemma StepError(s: State, a: Action)
    requires Enabled(s, a)
    ensures a.FetchTasks? || IsMutation(a) ==> Step(s, a).error == ExpectedError(a)
    ensures !(a.FetchTasks? || IsMutation(a)) ==> Step(s, a).error == s.error
  {
  }

  /** A mutation whose call succeeded raises its notification whether or not
      the reload succeeded; one whose call failed leaves the snackbar as it
      was. */
  lemma StepNotice(s: State, a: Action)
    requires Enabled(s, a) && IsMutation(a)
    ensures a.ack.Accepted? ==> Step(s, a).snackbar == SuccessNotice(a)
    ensures a.ack.Rejected? ==> Step(s, a).snackbar == s.snackbar
  {
  }

  /** A mutation that succeeded on the server but whose reload failed still
      shows its success notification, together with the load-failure error,
      over the collection as it was before. */
  lemma ReconciliationFailureStillNotifies(s: State, a: Action)
    requires Enabled(s, a) && IsMutation(a)
    requires a.ack.Accepted? && a.reload.LoadFailed?
    ensures Step(s, a).snackbar == SuccessNotice(a) && Step(s, a).snackbar.open
    ensures Step(s, a).error == Some(LoadFailedMessage)
    ensures Step(s, a).tasks == s.tasks
  {
  }

  /** A handler never leaves the page loading. */
  lemma StepSettles(s: State, a: Action)
    requires Enabled(s, a) && !s.loading
    ensures !Step(s, a).loading
  {
  }

  // ----- Whole sessions -----

  /** Running one more action at the end of a session. */
  lemma {:induction false} RunSnoc(s: State, actions: seq<Action>, a: Action)
    requires Playable(s, actions + [a])
    ensures Playable(s, actions) && Enabled(Run(s, actions), a)
    ensures Run(s, actions + [a]) == Step(Run(s, actions), a)
    decreases |actions|
  {
    if actions != [] {
      assert (actions + [a])[0] == actions[0];
      assert (actions + [a])[1..] == actions[1..] + [a];
      RunSnoc(Step(s, actions[0]), actions[1..], a);
    } else {
      assert actions + [a] == [a];
    }
  }

  /** The collection the page shows is always exactly the last collection the
      server returned, or the one it started with if no reload succeeded:
      never a state the client made up. */
  lemma {:induction false} RunShowsLastReload(s: State, actions: seq<Action>)
    requires Playable(s, actions)
    ensures Run(s, actions).tasks == LastReload(s.tasks, actions)
    decreases |actions|
  {
    if actions != [] {
      var front, last := actions[..|actions| - 1], actions[|actions| - 1];
      assert actions == front + [last];
      RunSnoc(s, front, last);
      RunShowsLastReload(s, front);
      StepTasks(Run(s, front), last);
    }
  }

  /** The selection is the one left by the last edit, cancel or successful
      update of the session. */
  lemma {:induction false} RunSelection(s: State, actions: seq<Action>)
    requires Playable(s, actions)
    ensures Run(s, actions).editingTask == LastSelection(s.editingTask, actions)
    decreases |actions|
  {
    if actions != [] {
      var front, last := actions[..|actions| - 1], actions[|actions| - 1];
      assert actions == front + [last];
      RunSnoc(s, front, last);
      RunSelection(s, front);
      StepSelection(Run(s, front), last);
    }
  }

  /** Between handlers the page is never loading. */
  lemma {:induction false} RunSettles(s: State, actions: seq<Action>)
    requires Playable(s, actions) && !s.loading
    ensures !Run(s, actions).loading
    decreases |actions|
  {
    if actions != [] {
      StepSettles(s, actions[0]);
      RunSettles(Step(s, actions[0]), actions[1..]);
    }
  }

  /** When the last action of a session ends with a successful reload that
      returns the server's collection, the page ends showing exactly that
      collection, whatever came before. */
  lemma ConsistentAfterReload(s: State, actions: seq<Action>, server: seq<Task>)
    requires Playable(s, actions) && actions != []
    requires ReloadedData(actions[|actions| - 1]) == Some(server)
    ensures Run(s, actions).tasks == server
  {
    RunShowsLastReload(s, actions);
  }

  // ----- Toggling twice -----

  /** When the server reflects the first toggle and the reload after it
      succeeds, the page lists the updated task at the position the server
      gave it, and toggling that listed task gives back the original. */
  lemma ToggleTwiceThroughPage(s: State, t: Task, data: seq<Task>, i: nat)
    requires i < |data| && data[i] == Patched(t, ToggleBody(t))
    ensures var listed := Step(s, ToggleComplete(t, Accepted, Loaded(data))).tasks;
      i < |listed| && listed[i] == Patched(t, ToggleBody(t))
      && Patched(listed[i], ToggleBody(listed[i])) == t
  {
    ToggleTwiceRestores(t);
  }

  /** When the reload after an accepted toggle fails, the page still lists the
      task as it was; toggling that stale copy sends the same `completed`
      value again, so the server keeps the once-toggled task and does not
      return to the original. */
  lemma StaleToggleRepeats(s: State, t: Task)
    requires t in s.tasks
    ensures t in Step(s, ToggleComplete(t, Accepted, LoadFailed)).tasks
    ensures Patched(Patched(t, ToggleBody(t)), ToggleBody(t)) == Patched(t, ToggleBody(t))
    ensures Patched(Patched(t, ToggleBody(t)), ToggleBody(t)) != t
  {
    assert Patched(t, ToggleBody(t)).completed != t.completed;
  }

  // ----- Scenarios -----

  /** Mounting the page: construction followed by one `fetchTasks`. An empty
      server gives an empty list with no error; an unreachable one leaves the
      list empty and shows the load-failure message. */
  lemma MountScenarios(data: seq<Task>)
    ensures Step(Initial, FetchTasks(Loaded(data))) == Initial.(tasks := data)
    ensures Step(Initial, FetchTasks(Loaded([]))) == Initial
    ensures Step(Initial, FetchTasks(LoadFailed)) == Initial.(error := Some(LoadFailedMessage))
  {
  }
}
