// The company activity log: the company filter and the one form that either
// creates an activity or edits the one chosen.

module CompanyActivityLog {
  import opened Base
  import opened Entities

  function CompanyTest(companyId: string): CompanyActivity -> bool {
    (a: CompanyActivity) => a.companyId == companyId
  }

  /** `filteredCompanyActivities`: every activity when no company is chosen,
      otherwise that company's activities. */
  function FilteredCompanyActivities(activities: seq<CompanyActivity>, selectedCompanyId: string): seq<CompanyActivity> {
    if selectedCompanyId != "" then Filter(activities, CompanyTest(selectedCompanyId)) else activities
  }

  /** With a company chosen the list keeps the store order and holds exactly
      that company's activities. */
  lemma FilteredCompanyActivitiesSpec(activities: seq<CompanyActivity>, selectedCompanyId: string)
    ensures selectedCompanyId == "" ==> FilteredCompanyActivities(activities, selectedCompanyId) == activities
    ensures var r := FilteredCompanyActivities(activities, selectedCompanyId);
            && IsSubsequence(r, activities)
            && (selectedCompanyId != "" ==>
                  && (forall i :: 0 <= i < |r| ==> r[i].companyId == selectedCompanyId)
                  && (forall i :: 0 <= i < |activities| && activities[i].companyId == selectedCompanyId ==> activities[i] in r))
  {
    if selectedCompanyId == "" {
      var all := (a: CompanyActivity) => true;
      FilterKeepsAll(activities, all);
      FilterIsSubsequence(activities, all);
    } else {
      FilterIsSubsequence(activities, CompanyTest(selectedCompanyId));
    }
  }

  /** `CreateCompanyActivityRequest`. */
  datatype ActivityRequest = ActivityRequest(
    companyId: string,
    title: string,
    description: string,
    activityType: string,
    status: string,
    dueDate: Option<Date>)

  /** The request the form starts from and is reset to: a note, open. */
  const BlankActivity := ActivityRequest("", "", "", "note", "open", None)

  /** `editActivity`: the six editable fields of a stored activity. */
  function AsRequest(a: CompanyActivity): ActivityRequest {
    ActivityRequest(a.companyId, a.title, a.description, a.activityType, a.status, a.dueDate)
  }

  /** The check `saveActivity` makes: company, title and description. */
  predicate ReadyToSave(r: ActivityRequest) {
    Present(r.companyId) && Present(r.title) && Present(r.description)
  }

  /** `onDueDateChange`: the date entered, or none for an empty input. */
  function DueDate(text: string): (d: Option<Date>)
    ensures d.None? <==> text == ""
    ensures d.Some? ==> d.value == At(text)
  {
    if text != "" then Some(ParseDate(text)) else None
  }

  datatype ActivityCommand =
    | CreateCompanyActivity(request: ActivityRequest)
    | UpdateCompanyActivity(id: string, request: ActivityRequest)
    | DeleteCompanyActivity(id: string)

  /** The command `saveActivity` sends: none when the check fails, an update
      of the activity being edited, or else a create. */
  function SaveCommand(editing: Option<CompanyActivity>, r: ActivityRequest): (cmd: Option<ActivityCommand>)
    ensures cmd.None? <==> !ReadyToSave(r)
    ensures cmd.Some? && editing.Some? ==> cmd.value == UpdateCompanyActivity(editing.value.id, r)
    ensures cmd.Some? && editing.None? ==> cmd.value == CreateCompanyActivity(r)
  {
    if !ReadyToSave(r) then None
    else if editing.Some? then Some(UpdateCompanyActivity(editing.value.id, r))
    else Some(CreateCompanyActivity(r))
  }

  /** Opening a complete stored activity and saving it unchanged sends its
      own fields back under its own id. */
  lemma EditThenSaveUpdatesSameActivity(a: CompanyActivity)
    requires a.companyId != "" && a.title != "" && a.description != ""
    ensures SaveCommand(Some(a), AsRequest(a)) == Some(UpdateCompanyActivity(a.id, AsRequest(a)))
  {
  }

  /** Every field of the component, as one value. */
  datatype Snapshot = Snapshot(
    showForm: bool,
    editingActivity: Option<CompanyActivity>,
    selectedCompanyId: string,
    listedCompanyId: string,
    currentActivity: ActivityRequest,
    log: seq<ActivityCommand>)

  class CompanyActivityLogComponent {
    var showForm: bool
    var editingActivity: Option<CompanyActivity>
    var selectedCompanyId: string
    /** The `selectedCompanyId` that `filteredCompanyActivities` read when it
        was last evaluated. The computed tracks only signals, and
        `selectedCompanyId` is a plain field, so it is evaluated again only
        after the store's activities change. */
    var listedCompanyId: string
    var currentActivity: ActivityRequest
    /** Commands issued to the data service, oldest first. */
    var log: seq<ActivityCommand>

    function View(): Snapshot
      reads this
    {
      Snapshot(showForm, editingActivity, selectedCompanyId, listedCompanyId, currentActivity, log)
    }

    /** An activity is only ever edited in the open form. */
    predicate Valid()
      reads this
    {
      editingActivity.Some? ==> showForm
    }

    constructor ()
      ensures Valid()
      ensures View() == Snapshot(false, None, "", "", BlankActivity, [])
    {
      showForm, editingActivity, selectedCompanyId, currentActivity, log := false, None, "", BlankActivity, [];
      listedCompanyId := "";
    }

    /** `filteredCompanyActivities()` as written: the store's activities
        filtered by the company of its last evaluation, which may not be the
        company now chosen. */
    function Shown(activities: seq<CompanyActivity>): (r: seq<CompanyActivity>)
      reads this
      ensures IsSubsequence(r, activities)
      ensures listedCompanyId == "" ==> r == activities
      ensures listedCompanyId != "" ==> forall i :: 0 <= i < |r| ==> r[i].companyId == listedCompanyId
    {
      FilteredCompanyActivitiesSpec(activities, listedCompanyId);
      FilteredCompanyActivities(activities, listedCompanyId)
    }

    /** The list the company filter is meant to show: the activities of the
        company now chosen, or all of them. */
    function ShownForSelection(activities: seq<CompanyActivity>): (r: seq<CompanyActivity>)
      reads this
      ensures IsSubsequence(r, activities)
      ensures selectedCompanyId == "" ==> r == activities
      ensures selectedCompanyId != "" ==> forall i :: 0 <= i < |r| ==> r[i].companyId == selectedCompanyId
      ensures selectedCompanyId != "" ==>
        forall i :: 0 <= i < |activities| && activities[i].companyId == selectedCompanyId ==> activities[i] in r
    {
      FilteredCompanyActivitiesSpec(activities, selectedCompanyId);
      FilteredCompanyActivities(activities, selectedCompanyId)
    }

    /** Choosing a company in the filter: `[(ngModel)]` writes the plain
        field and `applyFilters` does nothing, so the list is not
        evaluated again. */
    method SelectCompany(id: string)
      requires Valid()
      modifies this
      ensures Valid()
      ensures View() == old(View()).(selectedCompanyId := id)
      ensures forall activities :: Shown(activities) == old(Shown(activities))
    {
      selectedCompanyId := id;
    }

    /** The store's activities change (a create, update or delete has gone
        through): the computed list is evaluated again and reads the company
        now chosen. */
    method ActivitiesChanged()
      requires Valid()
      modifies this
      ensures Valid()
      ensures View() == old(View()).(listedCompanyId := old(selectedCompanyId))
      ensures forall activities :: Shown(activities) == ShownForSelection(activities)
    {
      listedCompanyId := selectedCompanyId;
    }

    /** Choosing a company as the filter is meant to work: the list follows
        the choice at once. */
    method SelectCompanyRefiltering(id: string)
      requires Valid()
      modifies this
      ensures Valid()
      ensures View() == old(View()).(selectedCompanyId := id, listedCompanyId := id)
      ensures forall activities :: Shown(activities) == ShownForSelection(activities)
    {
      selectedCompanyId := id;
      listedCompanyId := id;
    }

    method ResetForm()
      requires Valid()
      modifies this
      ensures Valid()
      ensures View() == old(View()).(currentActivity := BlankActivity)
    {
      currentActivity := BlankActivity;
    }

    /** `openCreateForm`: a blank form for a new activity. */
    method OpenCreateForm()
      requires Valid()
      modifies this
      ensures Valid()
      ensures View() == old(View()).(editingActivity := None, currentActivity := BlankActivity, showForm := true)
    {
      editingActivity := None;
      ResetForm();
      showForm := true;
    }

    /** `editActivity`: the form opened on a copy of the activity's fields. */
    method EditActivity(a: CompanyActivity)
      requires Valid()
      modifies this
      ensures Valid()
      ensures View() == old(View()).(editingActivity := Some(a), currentActivity := AsRequest(a), showForm := true)
    {
      editingActivity := Some(a);
      currentActivity := AsRequest(a);
      showForm := true;
    }

    /** `onDueDateChange`. */
    method OnDueDateChange(text: string)
      requires Valid()
      modifies this
      ensures Valid()
      ensures View() == old(View()).(currentActivity := old(currentActivity).(dueDate := DueDate(text)))
    {
      currentActivity := currentActivity.(dueDate := DueDate(text));
    }

    /** `closeForm`: hidden, nothing edited, fields back to the defaults. */
    method CloseForm()
      requires Valid()
      modifies this
      ensures Valid()
      ensures View() == old(View()).(showForm := false, editingActivity := None, currentActivity := BlankActivity)
    {
      showForm := false;
      editingActivity := None;
      ResetForm();
    }

    /** `saveActivity`: at most one command, an update while editing and a
        create otherwise; the form closes only when the store succeeds. */
    method SaveActivity(ok: bool)
      requires Valid()
      modifies this
      ensures Valid()
      ensures var cmd := SaveCommand(old(editingActivity), old(currentActivity));
        cmd.None? ==> View() == old(View())
      ensures var cmd := SaveCommand(old(editingActivity), old(currentActivity));
        cmd.Some? && cmd.value.UpdateCompanyActivity? ==> old(showForm)
      ensures var cmd := SaveCommand(old(editingActivity), old(currentActivity));
        cmd.Some? ==>
          var v := old(View()).(log := old(log) + [cmd.value]);
          View() == if ok then v.(showForm := false, editingActivity := None, currentActivity := BlankActivity) else v
    {
      var cmd := SaveCommand(editingActivity, currentActivity);
      if cmd.Some? {
        log := log + [cmd.value];
        if ok {
          CloseForm();
        }
      }
    }

    /** `deleteActivity`: one delete command when the user confirms. */
    method DeleteActivity(id: string, confirmed: bool)
      requires Valid()
      modifies this
      ensures Valid()
      ensures confirmed ==> View() == old(View()).(log := old(log) + [DeleteCompanyActivity(id)])
      ensures !confirmed ==> View() == old(View())
    {
      if confirmed {
        log := log + [DeleteCompanyActivity(id)];
      }
    }
  }

  /** An activity of company "co2". */
  const OtherCompanyActivity := CompanyActivity("a1", "co2", "Call", "Follow-up call", "call", "open", None)

  /** As written: the list is first shown with no company chosen; choosing
      "co1" afterwards still shows the activity of "co2". */
  method StaleListAfterChoosingCompany() returns (shown: seq<CompanyActivity>)
    ensures shown == [OtherCompanyActivity] && shown[0].companyId != "co1"
  {
    var c := new CompanyActivityLogComponent();
    c.SelectCompany("co1");
    shown := c.Shown([OtherCompanyActivity]);
  }

  /** Corrected: with the list following the choice, choosing "co1" shows
      none of another company's activities. */
  method RefreshedListAfterChoosingCompany() returns (shown: seq<CompanyActivity>)
    ensures shown == []
  {
    var c := new CompanyActivityLogComponent();
    c.SelectCompanyRefiltering("co1");
    shown := c.Shown([OtherCompanyActivity]);
  }
}
