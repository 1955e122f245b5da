// The per-company project list: the projects of the selected company, split
// by the archived toggle, and the same create and edit forms as the
// all-projects view with the owner ids taken from the navigation state.

module ProjectList {
  import opened Base
  import opened Entities
  import opened Store
  import opened ProjectForm

  /** `allProjectsForCompany`: the projects of the selected company, in store
      order; none when no company is selected or the id is unknown. */
  function AllProjectsForCompany(nav: NavState, companies: seq<Company>, projects: seq<Project>): seq<Project> {
    if !Selected(nav.selectedCompanyId) then []
    else match CompanyById(companies, nav.selectedCompanyId.value)
      case None => []
      case Some(c) => if c.id != "" then ProjectsByCompany(projects, c.id) else []
  }

  lemma AllProjectsForCompanySpec(nav: NavState, companies: seq<Company>, projects: seq<Project>)
    ensures var r := AllProjectsForCompany(nav, companies, projects);
            && IsSubsequence(r, projects)
            && (forall i :: 0 <= i < |r| ==> nav.selectedCompanyId == Some(r[i].companyId))
            && (Selected(nav.selectedCompanyId) && (exists j :: 0 <= j < |companies| && companies[j].id == nav.selectedCompanyId.value) ==>
                  forall i :: 0 <= i < |projects| && Some(projects[i].companyId) == nav.selectedCompanyId ==> projects[i] in r)
            && (!Selected(nav.selectedCompanyId) ==> r == [])
            && (Selected(nav.selectedCompanyId) && (forall j :: 0 <= j < |companies| ==> companies[j].id != nav.selectedCompanyId.value) ==> r == [])
  {
    if Selected(nav.selectedCompanyId) {
      var id := nav.selectedCompanyId.value;
      var c := CompanyById(companies, id);
      if c.Some? {
        FilterIsSubsequence(projects, (p: Project) => p.companyId == c.value.id);
      }
    }
  }

  function ArchivedTest(archived: bool): Project -> bool {
    (p: Project) => p.isArchived == archived
  }

  /** `displayedProjects`: the archived projects while the toggle is on, the
      others while it is off. */
  function DisplayedProjects(all: seq<Project>, showArchived: bool): seq<Project> {
    Filter(all, ArchivedTest(showArchived))
  }

  /** Each project of the company is displayed under exactly one setting of
      the toggle, in store order: the two lists together are the company's
      projects. */
  lemma DisplayedProjectsPartition(all: seq<Project>)
    ensures multiset(DisplayedProjects(all, true)) + multiset(DisplayedProjects(all, false)) == multiset(all)
    ensures |DisplayedProjects(all, true)| + |DisplayedProjects(all, false)| == |all|
    ensures forall b :: IsSubsequence(DisplayedProjects(all, b), all)
  {
    FilterPartition(all, ArchivedTest(true), ArchivedTest(false));
    FilterIsSubsequence(all, ArchivedTest(true));
    FilterIsSubsequence(all, ArchivedTest(false));
  }

  /** `getProjectCountByStatus` counts over the company's projects, so it
      does not depend on the archived toggle: it is the archived count plus
      the unarchived count. */
  lemma ProjectCountIgnoresToggle(all: seq<Project>, status: string)
    ensures Count(all, (p: Project) => p.status == status)
            == Count(DisplayedProjects(all, true), (p: Project) => p.status == status)
             + Count(DisplayedProjects(all, false), (p: Project) => p.status == status)
  {
    CountSplit(all, ArchivedTest(true), ArchivedTest(false), (p: Project) => p.status == status);
  }

  /** The request the create form starts from: the selected customer and
      company, or empty ids. */
  function BlankRequest(now: Date, nav: NavState): (r: ProjectRequest)
    ensures Selected(nav.selectedCustomerId) ==> r.customerId == nav.selectedCustomerId.value
    ensures !Selected(nav.selectedCustomerId) ==> r.customerId == ""
    ensures Selected(nav.selectedCompanyId) ==> r.companyId == nav.selectedCompanyId.value
    ensures !Selected(nav.selectedCompanyId) ==> r.companyId == ""
    ensures r.title == "" && r.description == "" && r.priority == "medium" && r.expectedCost == 0
    ensures r.expectedEndDate == now && r.startDate.None?
  {
    Blank(now, OrEmpty(nav.selectedCustomerId), OrEmpty(nav.selectedCompanyId))
  }

  /** `ngOnInit`: the owner ids of the request are taken from the navigation
      state when both a customer and a company are selected. */
  function WithOwners(r: ProjectRequest, nav: NavState): (r': ProjectRequest)
    ensures Selected(nav.selectedCustomerId) && Selected(nav.selectedCompanyId) ==>
      r'.customerId == nav.selectedCustomerId.value && r'.companyId == nav.selectedCompanyId.value
    ensures !(Selected(nav.selectedCustomerId) && Selected(nav.selectedCompanyId)) ==> r' == r
    ensures r'.title == r.title && r'.description == r.description && r'.expectedEndDate == r.expectedEndDate
  {
    if Selected(nav.selectedCustomerId) && Selected(nav.selectedCompanyId) then
      r.(customerId := nav.selectedCustomerId.value, companyId := nav.selectedCompanyId.value)
    else r
  }

  /** Every field of the component, as one value. */
  datatype Snapshot = Snapshot(showArchived: bool, forms: Forms, log: seq<ProjectCommand>)

  class ProjectListComponent {
    var showArchived: bool
    var showCreateForm: bool
    var showEditForm: bool
    var editingProjectId: Option<string>
    var newProject: ProjectRequest
    var editingProject: Patch
    var startDateString: string
    var expectedEndDateString: string
    var editStartDateString: string
    var editExpectedEndDateString: string
    /** Commands issued to the data and navigation services, oldest first. */
    var log: seq<ProjectCommand>

    function CurrentForms(): Forms
      reads this
    {
      Forms(showCreateForm, showEditForm, editingProjectId, newProject, editingProject,
            startDateString, expectedEndDateString, editStartDateString, editExpectedEndDateString)
    }

    function View(): Snapshot
      reads this
    {
      Snapshot(showArchived, CurrentForms(), log)
    }

    predicate Valid()
      reads this
    {
      OneFormShown(CurrentForms())
    }

    method SetForms(f: Forms)
      modifies this
      ensures CurrentForms() == f
      ensures showArchived == old(showArchived) && log == old(log)
    {
      showCreateForm, showEditForm, editingProjectId := f.showCreateForm, f.showEditForm, f.editingProjectId;
      newProject, editingProject := f.newProject, f.editingProject;
      startDateString, expectedEndDateString := f.startDateString, f.expectedEndDateString;
      editStartDateString, editExpectedEndDateString := f.editStartDateString, f.editExpectedEndDateString;
    }

    /** The field initialisers: the request starts with empty owner ids. */
    constructor (now: Date)
      ensures Valid()
      ensures View() == Snapshot(false, Forms(false, false, None, Blank(now, "", ""), map[], "", "", "", ""), [])
    {
      showArchived := false;
      showCreateForm, showEditForm := false, false;
      editingProjectId := None;
      newProject := Blank(now, "", "");
      editingProject := map[];
      startDateString, expectedEndDateString := "", "";
      editStartDateString, editExpectedEndDateString := "", "";
      log := [];
    }

    method NgOnInit(nav: NavState)
      requires Valid()
      modifies this
      ensures Valid()
      ensures View() == old(View()).(forms := old(CurrentForms()).(newProject := WithOwners(old(newProject), nav)))
    {
      newProject := WithOwners(newProject, nav);
    }

    /** `toggleArchived`: switches between the two halves of the list. */
    method ToggleArchived()
      requires Valid()
      modifies this
      ensures Valid()
      ensures View() == old(View()).(showArchived := !old(showArchived))
      ensures forall all :: multiset(DisplayedProjects(all, showArchived)) + multiset(DisplayedProjects(all, old(showArchived))) == multiset(all)
    {
      showArchived := !showArchived;
      forall all: seq<Project>
        ensures multiset(DisplayedProjects(all, showArchived)) + multiset(DisplayedProjects(all, old(showArchived))) == multiset(all)
      {
        DisplayedProjectsPartition(all);
      }
    }

    /** `hasFilters`: the archived half counts as filtered. */
    function HasFilters(): (r: bool)
      reads this
      ensures r <==> showArchived
      ensures !r ==> forall all: seq<Project>, i :: 0 <= i < |all| && !all[i].isArchived ==> all[i] in DisplayedProjects(all, showArchived)
    {
      showArchived
    }

    method ResetForm(now: Date, nav: NavState)
      requires Valid()
      modifies this
      ensures Valid()
      ensures View() == old(View()).(forms := ResetCreate(old(CurrentForms()), BlankRequest(now, nav)))
    {
      newProject := BlankRequest(now, nav);
      startDateString, expectedEndDateString := "", "";
    }

    method ToggleCreateForm(now: Date, nav: NavState)
      requires Valid()
      modifies this
      ensures Valid()
      ensures View() == old(View()).(forms := ToggledCreate(old(CurrentForms()), BlankRequest(now, nav)))
    {
      showCreateForm := !showCreateForm;
      showEditForm := false;
      if !showCreateForm {
        ResetForm(now, nav);
      }
    }

    method UpdateNewProject(f: ProjectField)
      requires Valid()
      modifies this
      ensures Valid()
      ensures View() == old(View()).(forms := old(CurrentForms()).(newProject := WithField(old(newProject), f)))
    {
      newProject := WithField(newProject, f);
    }

    method UpdateEditingProject(field: ProjectKey, value: Value)
      requires Valid()
      modifies this
      ensures Valid()
      ensures View() == old(View()).(forms := old(CurrentForms()).(editingProject := old(editingProject)[field := value]))
    {
      editingProject := editingProject[field := value];
    }

    /** `createProject` as written: the same check as in the all-projects
        view, so an empty end-date input is sent as an invalid date. */
    method CreateProject(now: Date, nav: NavState, ok: bool)
      requires Valid()
      modifies this
      ensures Valid()
      ensures !RequiredFieldsPresent(old(newProject)) ==> View() == old(View())
      ensures RequiredFieldsPresent(old(newProject)) ==>
        View() == old(View()).(
          forms := AfterCreate(old(CurrentForms()), BlankRequest(now, nav), ok),
          log := old(log) + [ProjectCommand.CreateProject(Submission(old(newProject), old(startDateString), old(expectedEndDateString)))])
    {
      if !RequiredFieldsPresent(newProject) {
        return;
      }
      var sent := Submission(newProject, startDateString, expectedEndDateString);
      log := log + [ProjectCommand.CreateProject(sent)];
      if ok {
        ResetForm(now, nav);
        ToggleCreateForm(now, nav);
      }
    }

    /** The corrected `createProject`: the end-date input is required as
        well, so every request sent carries a valid end date. */
    method CreateProjectRequiringEndDate(now: Date, nav: NavState, ok: bool)
      requires Valid()
      modifies this
      ensures Valid()
      ensures !ReadyToCreate(old(newProject), old(expectedEndDateString)) ==> View() == old(View())
      ensures ReadyToCreate(old(newProject), old(expectedEndDateString)) ==>
        View() == old(View()).(
          forms := AfterCreate(old(CurrentForms()), BlankRequest(now, nav), ok),
          log := old(log) + [ProjectCommand.CreateProject(Submission(old(newProject), old(startDateString), old(expectedEndDateString)))])
      ensures forall i :: |old(log)| <= i < |log| ==> log[i].CreateProject? && log[i].request.expectedEndDate.At?
    {
      if !ReadyToCreate(newProject, expectedEndDateString) {
        return;
      }
      var sent := Submission(newProject, startDateString, expectedEndDateString);
      log := log + [ProjectCommand.CreateProject(sent)];
      if ok {
        ResetForm(now, nav);
        ToggleCreateForm(now, nav);
      }
    }

    /** `selectProject`: opens the task list of a project unless it is archived. */
    method SelectProject(p: Project)
      requires Valid()
      modifies this
      ensures Valid()
      ensures p.isArchived ==> View() == old(View())
      ensures !p.isArchived ==> View() == old(View()).(log := old(log) + [NavigateToTasks(p.customerId, p.companyId, p.id)])
    {
      var cmd := SelectCommand(p);
      if cmd.Some? {
        log := log + [cmd.value];
      }
    }

    /** `editProject`. */
    method EditProject(p: Project)
      requires Valid()
      modifies this
      ensures Valid()
      ensures View() == old(View()).(forms := OpenedForEdit(old(CurrentForms()), p))
    {
      SetForms(OpenedForEdit(CurrentForms(), p));
    }

    /** `updateProject`: as in the all-projects view. */
    method UpdateProject(ok: bool)
      requires Valid()
      modifies this
      ensures Valid()
      ensures !ReadyToUpdate(old(editingProjectId), old(editingProject)) ==> View() == old(View())
      ensures ReadyToUpdate(old(editingProjectId), old(editingProject)) ==>
        View() == old(View()).(
          forms := AfterUpdate(old(CurrentForms()), ok),
          log := old(log) + [ProjectCommand.UpdateProject(old(editingProjectId).value,
                               PatchSubmission(old(editingProject), old(editStartDateString), old(editExpectedEndDateString)))])
    {
      if !ReadyToUpdate(editingProjectId, editingProject) {
        return;
      }
      var sent := PatchSubmission(editingProject, editStartDateString, editExpectedEndDateString);
      log := log + [ProjectCommand.UpdateProject(editingProjectId.value, sent)];
      if ok {
        CancelEdit();
      }
    }

    /** `cancelEdit`. */
    method CancelEdit()
      requires Valid()
      modifies this
      ensures Valid()
      ensures View() == old(View()).(forms := ClearEdit(old(CurrentForms())))
    {
      showEditForm := false;
      editingProject := map[];
      editingProjectId := None;
      editStartDateString, editExpectedEndDateString := "", "";
    }

    /** `deleteProject`, `archiveProject` and `unarchiveProject`. */
    method DeleteProject(id: string, confirmed: bool)
      requires Valid()
      modifies this
      ensures Valid()
      ensures View() == old(View()).(log := old(log) + Confirmed(confirmed, ProjectCommand.DeleteProject(id)))
    {
      log := log + Confirmed(confirmed, ProjectCommand.DeleteProject(id));
    }

    method ArchiveProject(id: string, confirmed: bool)
      requires Valid()
      modifies this
      ensures Valid()
      ensures View() == old(View()).(log := old(log) + Confirmed(confirmed, ProjectCommand.ArchiveProject(id)))
    {
      log := log + Confirmed(confirmed, ProjectCommand.ArchiveProject(id));
    }

    method UnarchiveProject(id: string, confirmed: bool)
      requires Valid()
      modifies this
      ensures Valid()
      ensures View() == old(View()).(log := old(log) + Confirmed(confirmed, ProjectCommand.UnarchiveProject(id)))
    {
      log := log + Confirmed(confirmed, ProjectCommand.UnarchiveProject(id));
    }
  }
}
