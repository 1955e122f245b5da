// The step list of the selected task: the status update rule for the end
// date, the per-status counts, the create form and the drag-to-reorder
// handlers.

module StepList {
  import opened Base
  import opened Entities
  import opened Store
  import opened DragDrop

  /** The statuses that end a step. */
  predicate Terminal(status: string) {
    status == "success" || status == "failed" || status == "stopped"
  }

  /** The `Partial<Step>` `updateStepStatus` sends: exactly these two fields. */
  datatype StepUpdate = StepUpdate(status: string, actualEndDate: Option<Date>)

  /** `updateStepStatus`: the chosen status, with an end date of now when the
      status ends the step and none otherwise. */
  function StepUpdateFor(newStatus: string, now: Date): (u: StepUpdate)
    ensures u.status == newStatus
    ensures u.actualEndDate.Some? <==> Terminal(newStatus)
    ensures u.actualEndDate.Some? ==> u.actualEndDate.value == now
  {
    StepUpdate(newStatus, if Terminal(newStatus) then Some(now) else None)
  }

  /** The step as the store holds it after merging the update. */
  function ApplyUpdate(s: Step, u: StepUpdate): Step {
    s.(status := u.status, actualEndDate := u.actualEndDate)
  }

  /** A step has an end date exactly when its status ends it. */
  predicate Consistent(s: Step) {
    s.actualEndDate.Some? <==> Terminal(s.status)
  }

  /** Any status update leaves the step consistent and keeps its id, task
      and title. */
  lemma UpdateMakesConsistent(s: Step, newStatus: string, now: Date)
    ensures var s' := ApplyUpdate(s, StepUpdateFor(newStatus, now));
            Consistent(s') && s'.status == newStatus && s'.id == s.id && s'.taskId == s.taskId && s'.title == s.title
  {
  }

  /** `currentSteps`: the selected task's steps, none without a selection. */
  function CurrentSteps(nav: NavState, steps: seq<Step>): seq<Step> {
    if Selected(nav.selectedTaskId) then StepsByTask(steps, nav.selectedTaskId.value) else []
  }

  function StatusTest(status: string): Step -> bool {
    (s: Step) => s.status == status
  }

  /** `getStepCountByStatus`. */
  function StepCountByStatus(nav: NavState, steps: seq<Step>, status: string): nat {
    Count(CurrentSteps(nav, steps), StatusTest(status))
  }

  /** The count is the number of steps of the selected task with that status,
      and zero when no task is selected. */
  lemma StepCountByStatusSpec(nav: NavState, steps: seq<Step>, status: string)
    ensures !Selected(nav.selectedTaskId) ==> CurrentSteps(nav, steps) == [] && StepCountByStatus(nav, steps, status) == 0
    ensures Selected(nav.selectedTaskId) ==>
      StepCountByStatus(nav, steps, status)
      == Count(steps, (s: Step) => s.taskId == nav.selectedTaskId.value && s.status == status)
  {
    if Selected(nav.selectedTaskId) {
      var id := nav.selectedTaskId.value;
      FilterFuse(steps, (s: Step) => s.taskId == id, StatusTest(status),
                 (s: Step) => s.taskId == id && s.status == status);
    }
  }

  /** The labels of the six step statuses. */
  const StatusLabels: map<string, string> := map[
    "not-started" := "Not Started",
    "in-progress" := "In Progress",
    "success" := "Success",
    "failed" := "Failed",
    "postponed" := "Postponed",
    "stopped" := "Stopped"]

  /** `getStatusLabel`: the label of a known status, any other text itself. */
  function StatusLabel(status: string): string {
    if status in StatusLabels then StatusLabels[status] else status
  }

  /** The label differs from its input exactly for the six step statuses. */
  lemma StatusLabelChangesOnlyKnown(status: string)
    ensures StatusLabel(status) != status <==>
      status in {"not-started", "in-progress", "success", "failed", "postponed", "stopped"}
    ensures StatusLabel("postponed") == "Postponed"
  {
  }

  /** `CreateStepRequest`. */
  datatype StepRequest = StepRequest(
    title: string,
    description: string,
    taskId: string,
    location: string,
    actionNote: string,
    startDate: Option<Date>,
    expectedDate: Date,
    expectedCost: int,
    priority: string)

  /** The request the form starts from and is reset to. */
  function BlankStep(now: Date): StepRequest {
    StepRequest("", "", "", "", "", None, now, 0, "medium")
  }

  /** The check `createStep` makes: title, description, location and the
      expected-date input. */
  predicate ReadyToCreate(r: StepRequest, expectedText: string) {
    Present(r.title) && Present(r.description) && Present(r.location) && Present(expectedText)
  }

  /** `createStep` writes the parsed dates into the request before sending it. */
  function WithDates(r: StepRequest, startText: string, expectedText: string): (r': StepRequest)
    ensures r'.expectedDate == ParseDate(expectedText)
    ensures startText != "" ==> r'.startDate == Some(ParseDate(startText))
    ensures startText == "" ==> r'.startDate == r.startDate
    ensures r'.title == r.title && r'.location == r.location && r'.taskId == r.taskId
    ensures r'.(expectedDate := r.expectedDate, startDate := r.startDate) == r
  {
    var r1 := r.(expectedDate := ParseDate(expectedText));
    if startText != "" then r1.(startDate := Some(ParseDate(startText))) else r1
  }

  /** A request that passes the check is sent with a valid expected date. */
  lemma ReadyToCreateSendsValidDate(r: StepRequest, startText: string, expectedText: string)
    requires ReadyToCreate(r, expectedText)
    ensures WithDates(r, startText, expectedText).expectedDate == At(expectedText)
  {
  }

  datatype StepCommand =
    | CreateStep(request: StepRequest)
    | UpdateStep(id: string, update: StepUpdate)
    | DeleteStep(id: string)
    | UpdateStepOrder(id: string, index: int)

  /** Every field of the component, as one value. */
  datatype Snapshot = Snapshot(
    showCreateForm: bool,
    startDateString: string,
    expectedDateString: string,
    draggedStep: Option<Step>,
    draggedIndex: int,
    newStep: StepRequest,
    log: seq<StepCommand>)

  class StepListComponent {
    var showCreateForm: bool
    var startDateString: string
    var expectedDateString: string
    var draggedStep: Option<Step>
    var draggedIndex: int
    var newStep: StepRequest
    /** Commands issued to the data service, oldest first. */
    var log: seq<StepCommand>

    function View(): Snapshot
      reads this
    {
      Snapshot(showCreateForm, startDateString, expectedDateString, draggedStep, draggedIndex, newStep, log)
    }

    /** A step is being dragged exactly when the dragged index is a list
        position; otherwise the index is -1. */
    predicate Valid()
      reads this
    {
      (draggedStep.Some? <==> draggedIndex >= 0) && draggedIndex >= -1
    }

    /** The date inputs start at today's day. */
    constructor (now: Date)
      ensures Valid()
      ensures View() == Snapshot(false, DayText(now), DayText(now), None, -1, BlankStep(now), [])
    {
      showCreateForm := false;
      startDateString, expectedDateString := DayText(now), DayText(now);
      draggedStep, draggedIndex := None, -1;
      newStep := BlankStep(now);
      log := [];
    }

    /** `resetForm`: the request and both date inputs emptied. */
    method ResetForm(now: Date)
      requires Valid()
      modifies this
      ensures Valid()
      ensures View() == old(View()).(newStep := BlankStep(now), startDateString := "", expectedDateString := "")
    {
      newStep := BlankStep(now);
      startDateString, expectedDateString := "", "";
    }

    /** `toggleCreateForm`: closing resets the form; opening copies the
        selected task into the request. */
    method ToggleCreateForm(now: Date, nav: NavState)
      requires Valid()
      modifies this
      ensures Valid()
      ensures showCreateForm == !old(showCreateForm)
      ensures !showCreateForm ==>
        View() == old(View()).(showCreateForm := false, newStep := BlankStep(now), startDateString := "", expectedDateString := "")
      ensures showCreateForm && Selected(nav.selectedTaskId) ==>
        View() == old(View()).(showCreateForm := true, newStep := old(newStep).(taskId := nav.selectedTaskId.value))
      ensures showCreateForm && !Selected(nav.selectedTaskId) ==> View() == old(View()).(showCreateForm := true)
    {
      showCreateForm := !showCreateForm;
      if !showCreateForm {
        ResetForm(now);
      } else if Selected(nav.selectedTaskId) {
        newStep := newStep.(taskId := nav.selectedTaskId.value);
      }
    }

    /** `createStep`: nothing happens unless title, description, location and
        expected date are filled in. Otherwise the dates are written into the
        request, one create command is sent, and on success the form is reset
        and hidden; after a failure the request keeps the dates written into it. */
    method CreateStep(now: Date, ok: bool)
      requires Valid()
      modifies this
      ensures Valid()
      ensures !ReadyToCreate(old(newStep), old(expectedDateString)) ==> View() == old(View())
      ensures ReadyToCreate(old(newStep), old(expectedDateString)) ==>
        var sent := WithDates(old(newStep), old(startDateString), old(expectedDateString));
        var v := old(View()).(newStep := sent, log := old(log) + [StepCommand.CreateStep(sent)]);
        View() == if ok then v.(newStep := BlankStep(now), startDateString := "", expectedDateString := "", showCreateForm := false)
                  else v
    {
      if ReadyToCreate(newStep, expectedDateString) {
        newStep := newStep.(expectedDate := ParseDate(expectedDateString));
        if startDateString != "" {
          newStep := newStep.(startDate := Some(ParseDate(startDateString)));
        }
        log := log + [StepCommand.CreateStep(newStep)];
        if ok {
          ResetForm(now);
          showCreateForm := false;
        }
      }
    }

    /** `updateStepStatus`: one update of the step, whatever the outcome. */
    method UpdateStepStatus(s: Step, newStatus: string, now: Date)
      requires Valid()
      modifies this
      ensures Valid()
      ensures View() == old(View()).(log := old(log) + [UpdateStep(s.id, StepUpdateFor(newStatus, now))])
    {
      log := log + [UpdateStep(s.id, StepUpdateFor(newStatus, now))];
    }

    /** `deleteStep`: one delete command when the user confirms. */
    method DeleteStep(id: string, confirmed: bool)
      requires Valid()
      modifies this
      ensures Valid()
      ensures confirmed ==> View() == old(View()).(log := old(log) + [StepCommand.DeleteStep(id)])
      ensures !confirmed ==> View() == old(View())
    {
      if confirmed {
        log := log + [StepCommand.DeleteStep(id)];
      }
    }

    /** `onDragStart`: records the step and its list position. */
    method OnDragStart(s: Step, index: nat)
      requires Valid()
      modifies this
      ensures Valid()
      ensures View() == old(View()).(draggedStep := Some(s), draggedIndex := index)
    {
      draggedStep := Some(s);
      draggedIndex := index;
    }

    /** `onDragEnd`: forgets the dragged step. */
    method OnDragEnd()
      requires Valid()
      modifies this
      ensures Valid()
      ensures View() == old(View()).(draggedStep := None, draggedIndex := -1)
    {
      draggedStep := None;
      draggedIndex := -1;
    }

    /** `onDrop`: at most one reorder command, for the dragged step, and only
        at a found position other than its own; the drag state is kept. */
    method OnDrop(target: Option<int>)
      requires Valid()
      modifies this
      ensures Valid()
      ensures var to := DropTarget(old(draggedStep).Some?, old(draggedIndex), target);
        to.None? ==> View() == old(View())
      ensures var to := DropTarget(old(draggedStep).Some?, old(draggedIndex), target);
        to.Some? ==> View() == old(View()).(log := old(log) + [UpdateStepOrder(old(draggedStep).value.id, to.value)])
    {
      var to := DropTarget(draggedStep.Some?, draggedIndex, target);
      if to.Some? {
        log := log + [UpdateStepOrder(draggedStep.value.id, to.value)];
      }
    }
  }
}
