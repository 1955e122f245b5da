// The task list of the selected project: the finished/not-started toggle,
// the per-status counts, the assignee name, the create form and the
// drag-to-reorder handlers.

module TaskList {
  import opened Base
  import opened Entities
  import opened Store
  import opened DragDrop

  /** The `Partial<Task>` `toggleTaskStatus` sends: exactly these three fields. */
  datatype TaskUpdate = TaskUpdate(status: string, progress: int, actualEndDate: Option<Date>)

  /** `toggleTaskStatus`: a finished task goes back to not started, any other
      task becomes finished; progress and end date follow the new status. */
  function StatusToggleUpdate(t: Task, now: Date): (u: TaskUpdate)
    ensures t.status == "finished" ==> u.status == "not-started"
    ensures t.status != "finished" ==> u.status == "finished"
    ensures u.progress == (if u.status == "finished" then 100 else 0)
    ensures u.actualEndDate.Some? <==> u.status == "finished"
    ensures u.actualEndDate.Some? ==> u.actualEndDate.value == now
  {
    var newStatus := if t.status == "finished" then "not-started" else "finished";
    TaskUpdate(newStatus, if newStatus == "finished" then 100 else 0,
               if newStatus == "finished" then Some(now) else None)
  }

  /** The task as the store holds it after merging the update. */
  function ApplyUpdate(t: Task, u: TaskUpdate): Task {
    t.(status := u.status, progress := u.progress, actualEndDate := u.actualEndDate)
  }

  /** A task whose progress and end date agree with its finished status. */
  predicate Consistent(t: Task) {
    && (t.status == "finished" ==> t.progress == 100 && t.actualEndDate.Some?)
    && (t.status != "finished" ==> t.progress == 0 && t.actualEndDate.None?)
  }

  /** After a toggle the task is consistent, whatever it was before, and
      its id, project, title and assignee are untouched. */
  lemma ToggleMakesConsistent(t: Task, now: Date)
    ensures var t' := ApplyUpdate(t, StatusToggleUpdate(t, now));
            Consistent(t') && t'.id == t.id && t'.projectId == t.projectId
            && t'.title == t.title && t'.assignedUserId == t.assignedUserId
  {
  }

  /** Toggling twice brings a finished or not-started task back to its status;
      a consistent not-started task comes back unchanged. */
  lemma ToggleTwice(t: Task, now1: Date, now2: Date)
    requires t.status == "finished" || t.status == "not-started"
    ensures var t1 := ApplyUpdate(t, StatusToggleUpdate(t, now1));
            var t2 := ApplyUpdate(t1, StatusToggleUpdate(t1, now2));
            t2.status == t.status && (Consistent(t) && t.status == "not-started" ==> t2 == t)
  {
  }

  /** `currentTasks`: the selected project's tasks, none without a selection. */
  function CurrentTasks(nav: NavState, tasks: seq<Task>): seq<Task> {
    if Selected(nav.selectedProjectId) then TasksByProject(tasks, nav.selectedProjectId.value) else []
  }

  function StatusTest(status: string): Task -> bool {
    (t: Task) => t.status == status
  }

  /** `getTaskCountByStatus`. */
  function TaskCountByStatus(nav: NavState, tasks: seq<Task>, status: string): nat {
    Count(CurrentTasks(nav, tasks), StatusTest(status))
  }

  /** The count is the number of tasks of the selected project with that
      status, and zero when no project is selected. */
  lemma TaskCountByStatusSpec(nav: NavState, tasks: seq<Task>, status: string)
    ensures !Selected(nav.selectedProjectId) ==> TaskCountByStatus(nav, tasks, status) == 0
    ensures Selected(nav.selectedProjectId) ==>
      TaskCountByStatus(nav, tasks, status)
      == Count(tasks, (t: Task) => t.projectId == nav.selectedProjectId.value && t.status == status)
  {
    if Selected(nav.selectedProjectId) {
      var id := nav.selectedProjectId.value;
      FilterFuse(tasks, (t: Task) => t.projectId == id, StatusTest(status),
                 (t: Task) => t.projectId == id && t.status == status);
    }
  }

  /** The labels of the four task statuses. */
  const StatusLabels: map<string, string> := map[
    "not-started" := "Not Started",
    "in-progress" := "In Progress",
    "finished" := "Finished",
    "stopped" := "Stopped"]

  /** `getStatusLabel`: the label of a known status, any other text itself. */
  function StatusLabel(status: string): string {
    if status in StatusLabels then StatusLabels[status] else status
  }

  /** The label differs from its input exactly for the four task statuses. */
  lemma StatusLabelChangesOnlyKnown(status: string)
    ensures StatusLabel(status) != status <==> status in {"not-started", "in-progress", "finished", "stopped"}
    ensures StatusLabel("finished") == "Finished"
  {
  }

  /** `getAssignedUserName`: the first user with that id, or "Unassigned"
      for no id, an empty id or an id no user has. */
  function AssignedUserName(users: seq<User>, userId: Option<string>): (name: string)
    ensures !Selected(userId) ==> name == "Unassigned"
    ensures Selected(userId) && (forall i :: 0 <= i < |users| ==> users[i].id != userId.value) ==> name == "Unassigned"
    ensures Selected(userId) && (exists i :: 0 <= i < |users| && users[i].id == userId.value) ==>
      exists i :: 0 <= i < |users| && users[i].id == userId.value && name == users[i].name
                  && forall j :: 0 <= j < i ==> users[j].id != userId.value
  {
    if !Selected(userId) then "Unassigned"
    else match UserById(users, userId.value)
      case Some(u) => u.name
      case None => "Unassigned"
  }

  /** `CreateTaskRequest`. */
  datatype TaskRequest = TaskRequest(
    title: string,
    description: string,
    projectId: string,
    assignedUserId: Option<string>,
    startDate: Option<Date>,
    expectedEndDate: Date,
    expectedCost: int,
    priority: string)

  /** The request the form starts from and is reset to. */
  function BlankTask(now: Date): TaskRequest {
    TaskRequest("", "", "", None, None, now, 0, "medium")
  }

  /** The check `createTask` makes: title, description and end-date input. */
  predicate ReadyToCreate(r: TaskRequest, endText: string) {
    Present(r.title) && Present(r.description) && Present(endText)
  }

  /** `createTask` writes the parsed dates into the request before sending it:
      the end date always, the start date only when one was entered. */
  function WithDates(r: TaskRequest, startText: string, endText: string): (r': TaskRequest)
    ensures r'.expectedEndDate == ParseDate(endText)
    ensures startText != "" ==> r'.startDate == Some(ParseDate(startText))
    ensures startText == "" ==> r'.startDate == r.startDate
    ensures r'.title == r.title && r'.description == r.description && r'.projectId == r.projectId
    ensures r'.(expectedEndDate := r.expectedEndDate, startDate := r.startDate) == r
  {
    var r1 := r.(expectedEndDate := ParseDate(endText));
    if startText != "" then r1.(startDate := Some(ParseDate(startText))) else r1
  }

  /** A request that passes the check is sent with a valid end date. */
  lemma ReadyToCreateSendsValidEndDate(r: TaskRequest, startText: string, endText: string)
    requires ReadyToCreate(r, endText)
    ensures WithDates(r, startText, endText).expectedEndDate == At(endText)
  {
  }

  datatype TaskCommand =
    | CreateTask(request: TaskRequest)
    | UpdateTask(id: string, update: TaskUpdate)
    | DeleteTask(id: string)
    | UpdateTaskOrder(id: string, index: int)
    | NavigateToSteps(customerId: string, companyId: string, projectId: string, taskId: string)

  /** `selectTask`: opens the step list only when customer, company and
      project are all selected. */
  function SelectCommand(nav: NavState, t: Task): (cmd: Option<TaskCommand>)
    ensures cmd.Some? <==> Selected(nav.selectedCustomerId) && Selected(nav.selectedCompanyId) && Selected(nav.selectedProjectId)
    ensures cmd.Some? ==> cmd.value == NavigateToSteps(nav.selectedCustomerId.value, nav.selectedCompanyId.value,
                                                       nav.selectedProjectId.value, t.id)
  {
    if Selected(nav.selectedCustomerId) && Selected(nav.selectedCompanyId) && Selected(nav.selectedProjectId) then
      Some(NavigateToSteps(nav.selectedCustomerId.value, nav.selectedCompanyId.value, nav.selectedProjectId.value, t.id))
    else None
  }

  /** Every field of the component, as one value. */
  datatype Snapshot = Snapshot(
    showCreateForm: bool,
    startDateString: string,
    expectedEndDateString: string,
    draggedTask: Option<Task>,
    draggedIndex: int,
    newTask: TaskRequest,
    log: seq<TaskCommand>)

  class TaskListComponent {
    var showCreateForm: bool
    var startDateString: string
    var expectedEndDateString: string
    var draggedTask: Option<Task>
    var draggedIndex: int
    var newTask: TaskRequest
    /** Commands issued to the data and navigation services, oldest first. */
    var log: seq<TaskCommand>

    function View(): Snapshot
      reads this
    {
      Snapshot(showCreateForm, startDateString, expectedEndDateString, draggedTask, draggedIndex, newTask, log)
    }

    /** A task is being dragged exactly when the dragged index is a list
        position; otherwise the index is -1. */
    predicate Valid()
      reads this
    {
      (draggedTask.Some? <==> draggedIndex >= 0) && draggedIndex >= -1
    }

    /** The date inputs start at today's day. */
    constructor (now: Date)
      ensures Valid()
      ensures View() == Snapshot(false, DayText(now), DayText(now), None, -1, BlankTask(now), [])
    {
      showCreateForm := false;
      startDateString, expectedEndDateString := DayText(now), DayText(now);
      draggedTask, draggedIndex := None, -1;
      newTask := BlankTask(now);
      log := [];
    }

    /** `resetForm`: the request and both date inputs emptied. */
    method ResetForm(now: Date)
      requires Valid()
      modifies this
      ensures Valid()
      ensures View() == old(View()).(newTask := BlankTask(now), startDateString := "", expectedEndDateString := "")
    {
      newTask := BlankTask(now);
      startDateString, expectedEndDateString := "", "";
    }

    /** `toggleCreateForm`: closing resets the form; opening copies the
        selected project into the request. */
    method ToggleCreateForm(now: Date, nav: NavState)
      requires Valid()
      modifies this
      ensures Valid()
      ensures showCreateForm == !old(showCreateForm)
      ensures !showCreateForm ==>
        View() == old(View()).(showCreateForm := false, newTask := BlankTask(now), startDateString := "", expectedEndDateString := "")
      ensures showCreateForm && Selected(nav.selectedProjectId) ==>
        View() == old(View()).(showCreateForm := true, newTask := old(newTask).(projectId := nav.selectedProjectId.value))
      ensures showCreateForm && !Selected(nav.selectedProjectId) ==> View() == old(View()).(showCreateForm := true)
    {
      showCreateForm := !showCreateForm;
      if !showCreateForm {
        ResetForm(now);
      } else if Selected(nav.selectedProjectId) {
        newTask := newTask.(projectId := nav.selectedProjectId.value);
      }
    }

    /** `createTask`: nothing happens unless title, description and end date
        are filled in. Otherwise the dates are written into the request, one
        create command is sent, and on success the form is reset and hidden;
        after a failure the request keeps the dates written into it. */
    method CreateTask(now: Date, ok: bool)
      requires Valid()
      modifies this
      ensures Valid()
      ensures !ReadyToCreate(old(newTask), old(expectedEndDateString)) ==> View() == old(View())
      ensures ReadyToCreate(old(newTask), old(expectedEndDateString)) ==>
        var sent := WithDates(old(newTask), old(startDateString), old(expectedEndDateString));
        var v := old(View()).(newTask := sent, log := old(log) + [TaskCommand.CreateTask(sent)]);
        View() == if ok then v.(newTask := BlankTask(now), startDateString := "", expectedEndDateString := "", showCreateForm := false)
                  else v
    {
      if ReadyToCreate(newTask, expectedEndDateString) {
        newTask := newTask.(expectedEndDate := ParseDate(expectedEndDateString));
        if startDateString != "" {
          newTask := newTask.(startDate := Some(ParseDate(startDateString)));
        }
        log := log + [TaskCommand.CreateTask(newTask)];
        if ok {
          ResetForm(now);
          showCreateForm := false;
        }
      }
    }

    /** `selectTask`. */
    method SelectTask(nav: NavState, t: Task)
      requires Valid()
      modifies this
      ensures Valid()
      ensures View() == old(View()).(log := old(log) + (if SelectCommand(nav, t).Some? then [SelectCommand(nav, t).value] else []))
    {
      var cmd := SelectCommand(nav, t);
      if cmd.Some? {
        log := log + [cmd.value];
      }
    }

    /** `toggleTaskStatus`: one update of the task, whatever the outcome. */
    method ToggleTaskStatus(t: Task, now: Date)
      requires Valid()
      modifies this
      ensures Valid()
      ensures View() == old(View()).(log := old(log) + [UpdateTask(t.id, StatusToggleUpdate(t, now))])
    {
      log := log + [UpdateTask(t.id, StatusToggleUpdate(t, now))];
    }

    /** `deleteTask`: one delete command when the user confirms. */
    method DeleteTask(id: string, confirmed: bool)
      requires Valid()
      modifies this
      ensures Valid()
      ensures confirmed ==> View() == old(View()).(log := old(log) + [TaskCommand.DeleteTask(id)])
      ensures !confirmed ==> View() == old(View())
    {
      if confirmed {
        log := log + [TaskCommand.DeleteTask(id)];
      }
    }

    /** `onDragStart`: records the task and its list position. */
    method OnDragStart(t: Task, index: nat)
      requires Valid()
      modifies this
      ensures Valid()
      ensures View() == old(View()).(draggedTask := Some(t), draggedIndex := index)
    {
      draggedTask := Some(t);
      draggedIndex := index;
    }

    /** `onDragEnd`: forgets the dragged task. */
    method OnDragEnd()
      requires Valid()
      modifies this
      ensures Valid()
      ensures View() == old(View()).(draggedTask := None, draggedIndex := -1)
    {
      draggedTask := None;
      draggedIndex := -1;
    }

    /** `onDrop`: at most one reorder command, for the dragged task, and only
        at a found position other than its own; the drag state is kept. */
    method OnDrop(target: Option<int>)
      requires Valid()
      modifies this
      ensures Valid()
      ensures var to := DropTarget(old(draggedTask).Some?, old(draggedIndex), target);
        to.None? ==> View() == old(View())
      ensures var to := DropTarget(old(draggedTask).Some?, old(draggedIndex), target);
        to.Some? ==> View() == old(View()).(log := old(log) + [UpdateTaskOrder(old(draggedTask).value.id, to.value)])
    {
      var to := DropTarget(draggedTask.Some?, draggedIndex, target);
      if to.Some? {
        log := log + [UpdateTaskOrder(draggedTask.value.id, to.value)];
      }
    }
  }
}
