// The all-projects view: four free-text/status filters over every project,
// the sorted name suggestions for the filter inputs, and the project create
// and edit forms.

module AllProjects {
  import opened Base
  import opened Text
  import opened Entities
  import opened Store
  import opened ProjectForm
  import NameOrder

  /** The filter inputs: customer name, company name, project text, status. */
  datatype Filters = Filters(customer: string, company: string, project: string, status: string)

  const NoFilters := Filters("", "", "", "")

  /** The customer filter matches the customer's resolved name, so a
      project whose customer is missing is matched as "Unknown Customer". */
  function CustomerTest(customers: seq<Customer>, term: string): Project -> bool {
    (p: Project) => MatchesIgnoringCase(CustomerName(customers, p.customerId), term)
  }

  function CompanyTest(companies: seq<Company>, term: string): Project -> bool {
    (p: Project) => MatchesIgnoringCase(CompanyName(companies, p.companyId), term)
  }

  /** The project filter matches the title or the description. */
  function TextTest(term: string): Project -> bool {
    (p: Project) => MatchesIgnoringCase(p.title, term) || MatchesIgnoringCase(p.description, term)
  }

  function StatusTest(status: string): Project -> bool {
    (p: Project) => p.status == status
  }

  /** `filteredProjects`: each non-empty filter input narrows the list in turn. */
  function FilteredProjects(projects: seq<Project>, customers: seq<Customer>, companies: seq<Company>, f: Filters): seq<Project> {
    var byCustomer := if f.customer != "" then Filter(projects, CustomerTest(customers, f.customer)) else projects;
    var byCompany := if f.company != "" then Filter(byCustomer, CompanyTest(companies, f.company)) else byCustomer;
    var byText := if f.project != "" then Filter(byCompany, TextTest(f.project)) else byCompany;
    if f.status != "" then Filter(byText, StatusTest(f.status)) else byText
  }

  /** A project passes the filters when every non-empty filter matches it. */
  predicate Admits(customers: seq<Customer>, companies: seq<Company>, f: Filters, p: Project) {
    && (f.customer != "" ==> CustomerTest(customers, f.customer)(p))
    && (f.company != "" ==> CompanyTest(companies, f.company)(p))
    && (f.project != "" ==> TextTest(f.project)(p))
    && (f.status != "" ==> p.status == f.status)
  }

  function AdmitsTest(customers: seq<Customer>, companies: seq<Company>, f: Filters): Project -> bool {
    (p: Project) => Admits(customers, companies, f, p)
  }

  /** The filters the chain has applied after its first, second and third
      stage. */
  function AfterCustomer(customers: seq<Customer>, f: Filters): Project -> bool {
    (p: Project) => f.customer != "" ==> CustomerTest(customers, f.customer)(p)
  }

  function AfterCompany(customers: seq<Customer>, companies: seq<Company>, f: Filters): Project -> bool {
    (p: Project) => AfterCustomer(customers, f)(p) && (f.company != "" ==> CompanyTest(companies, f.company)(p))
  }

  function AfterText(customers: seq<Customer>, companies: seq<Company>, f: Filters): Project -> bool {
    (p: Project) => AfterCompany(customers, companies, f)(p) && (f.project != "" ==> TextTest(f.project)(p))
  }

  lemma CustomerStage(projects: seq<Project>, customers: seq<Customer>, f: Filters)
    ensures (if f.customer != "" then Filter(projects, CustomerTest(customers, f.customer)) else projects)
            == Filter(projects, AfterCustomer(customers, f))
  {
    if f.customer != "" {
      FilterExt(projects, CustomerTest(customers, f.customer), AfterCustomer(customers, f));
    } else {
      FilterKeepsAll(projects, AfterCustomer(customers, f));
    }
  }

  lemma CompanyStage(projects: seq<Project>, customers: seq<Customer>, companies: seq<Company>, f: Filters)
    ensures (if f.company != "" then Filter(Filter(projects, AfterCustomer(customers, f)), CompanyTest(companies, f.company))
             else Filter(projects, AfterCustomer(customers, f)))
            == Filter(projects, AfterCompany(customers, companies, f))
  {
    FilterStage(projects, AfterCustomer(customers, f), f.company != "", CompanyTest(companies, f.company),
                AfterCompany(customers, companies, f));
  }

  lemma TextStage(projects: seq<Project>, customers: seq<Customer>, companies: seq<Company>, f: Filters)
    ensures (if f.project != "" then Filter(Filter(projects, AfterCompany(customers, companies, f)), TextTest(f.project))
             else Filter(projects, AfterCompany(customers, companies, f)))
            == Filter(projects, AfterText(customers, companies, f))
  {
    FilterStage(projects, AfterCompany(customers, companies, f), f.project != "", TextTest(f.project),
                AfterText(customers, companies, f));
  }

  lemma StatusStage(projects: seq<Project>, customers: seq<Customer>, companies: seq<Company>, f: Filters)
    ensures (if f.status != "" then Filter(Filter(projects, AfterText(customers, companies, f)), StatusTest(f.status))
             else Filter(projects, AfterText(customers, companies, f)))
            == Filter(projects, AdmitsTest(customers, companies, f))
  {
    forall p: Project
      ensures AdmitsTest(customers, companies, f)(p)
              == (AfterText(customers, companies, f)(p) && (f.status != "" ==> StatusTest(f.status)(p)))
    {
      assert AdmitsTest(customers, companies, f)(p) == Admits(customers, companies, f, p);
      assert AfterText(customers, companies, f)(p)
             == (AfterCompany(customers, companies, f)(p) && (f.project != "" ==> TextTest(f.project)(p)));
      assert AfterCompany(customers, companies, f)(p)
             == (AfterCustomer(customers, f)(p) && (f.company != "" ==> CompanyTest(companies, f.company)(p)));
    }
    FilterStage(projects, AfterText(customers, companies, f), f.status != "", StatusTest(f.status),
                AdmitsTest(customers, companies, f));
  }

  /** The chain of filters is one filter by the conjunction of the active ones. */
  lemma FilteredProjectsIsConjunction(projects: seq<Project>, customers: seq<Customer>, companies: seq<Company>, f: Filters)
    ensures FilteredProjects(projects, customers, companies, f) == Filter(projects, AdmitsTest(customers, companies, f))
  {
    CustomerStage(projects, customers, f);
    CompanyStage(projects, customers, companies, f);
    TextStage(projects, customers, companies, f);
    StatusStage(projects, customers, companies, f);
  }

  /** The filtered list keeps the projects' order, and holds exactly the
      projects that every non-empty filter matches. */
  lemma FilteredProjectsSpec(projects: seq<Project>, customers: seq<Customer>, companies: seq<Company>, f: Filters)
    ensures var r := FilteredProjects(projects, customers, companies, f);
            && IsSubsequence(r, projects)
            && (forall i :: 0 <= i < |r| ==> Admits(customers, companies, f, r[i]))
            && (forall i :: 0 <= i < |projects| && Admits(customers, companies, f, projects[i]) ==> projects[i] in r)
  {
    FilteredProjectsIsConjunction(projects, customers, companies, f);
    FilterIsSubsequence(projects, AdmitsTest(customers, companies, f));
  }

  /** With every filter input empty the list is all projects. */
  lemma NoFiltersShowsAll(projects: seq<Project>, customers: seq<Customer>, companies: seq<Company>)
    ensures FilteredProjects(projects, customers, companies, NoFilters) == projects
  {
  }

  /** A project whose customer id resolves to nothing is matched by the
      customer filter as "Unknown Customer". */
  lemma DanglingCustomerMatchedAsUnknown(customers: seq<Customer>, term: string, p: Project)
    requires forall i :: 0 <= i < |customers| ==> customers[i].id != p.customerId
    ensures CustomerTest(customers, term)(p) <==> MatchesIgnoringCase("Unknown Customer", term)
  {
  }

  /** `getProjectCountByStatus`: the filtered projects with that status. */
  function ProjectCountByStatus(projects: seq<Project>, customers: seq<Customer>, companies: seq<Company>, f: Filters, status: string): nat {
    Count(FilteredProjects(projects, customers, companies, f), StatusTest(status))
  }

  lemma ProjectCountByStatusSpec(projects: seq<Project>, customers: seq<Customer>, companies: seq<Company>, f: Filters, status: string)
    ensures ProjectCountByStatus(projects, customers, companies, f, status)
            == Count(projects, (p: Project) => Admits(customers, companies, f, p) && p.status == status)
  {
    FilteredProjectsIsConjunction(projects, customers, companies, f);
    FilterFuse(projects, AdmitsTest(customers, companies, f), StatusTest(status),
               (p: Project) => Admits(customers, companies, f, p) && p.status == status);
  }

  /** `hasFilters` as written: the company filter is left out. */
  predicate HasFiltersAsWritten(f: Filters) {
    f.customer != "" || f.project != "" || f.status != ""
  }

  /** With only a company filter set, the list can be empty while projects
      exist, and the view then says "No projects yet." instead of "No
      projects match your filters.". */
  lemma EmptyStateIgnoresCompanyFilter()
    ensures var projects := [Project("p1", "Roof", "Replace the roof", "in-progress", "medium", "cu1", "co1", false, 0, None, At("2026-01-01"))];
            var companies := [Company("co1", "A", "cu1", true)];
            var f := Filters("", "b", "", "");
            && !HasFiltersAsWritten(f)
            && FilteredProjects(projects, [], companies, f) == []
            && projects != []
  {
    var projects := [Project("p1", "Roof", "Replace the roof", "in-progress", "medium", "cu1", "co1", false, 0, None, At("2026-01-01"))];
    var companies := [Company("co1", "A", "cu1", true)];
    assert CompanyName(companies, "co1") == "A";
    assert Lower("A") == "a" && Lower("b") == "b";
    assert !Contains("a", "b") by {
      assert "b"[0] != "a"[0];
      assert "a"[1..] == "";
    }
    assert !CompanyTest(companies, "b")(projects[0]);
    assert Filter(projects, CompanyTest(companies, "b")) == [] by {
      assert projects[1..] == [];
    }
  }

  /** The corrected `hasFilters`: any non-empty filter input. */
  predicate FiltersActive(f: Filters) {
    f.customer != "" || f.company != "" || f.project != "" || f.status != ""
  }

  /** With the corrected check an empty list without filters means there are
      no projects at all, so "No projects yet." is then true. */
  lemma EmptyWithoutFiltersMeansNoProjects(projects: seq<Project>, customers: seq<Customer>, companies: seq<Company>, f: Filters)
    requires !FiltersActive(f)
    requires FilteredProjects(projects, customers, companies, f) == []
    ensures projects == []
  {
  }

  function CustomerNames(customers: seq<Customer>): seq<string> {
    seq(|customers|, i requires 0 <= i < |customers| => customers[i].name)
  }

  function ProjectTitles(projects: seq<Project>): seq<string> {
    seq(|projects|, i requires 0 <= i < |projects| => projects[i].title)
  }

  function CompanyNames(companies: seq<Company>): seq<string> {
    seq(|companies|, i requires 0 <= i < |companies| => companies[i].name)
  }

  /** `uniqueCustomerNames`: each customer name once, in sort order. */
  function UniqueCustomerNames(customers: seq<Customer>): (names: seq<string>)
    ensures NameOrder.StrictlySorted(names)
    ensures forall n :: n in names <==> exists i :: 0 <= i < |customers| && customers[i].name == n
  {
    var all := CustomerNames(customers);
    assert forall n :: n in all <==> exists i :: 0 <= i < |customers| && customers[i].name == n by {
      forall n ensures n in all <==> exists i :: 0 <= i < |customers| && customers[i].name == n {
        if n in all {
          var i :| 0 <= i < |all| && all[i] == n;
          assert customers[i].name == n;
        }
        if exists i :: 0 <= i < |customers| && customers[i].name == n {
          var i :| 0 <= i < |customers| && customers[i].name == n;
          assert all[i] == n;
        }
      }
    }
    NameOrder.UniqueSorted(all)
  }

  /** `uniqueProjectNames`: each project title once, in sort order. */
  function UniqueProjectNames(projects: seq<Project>): (names: seq<string>)
    ensures NameOrder.StrictlySorted(names)
    ensures forall n :: n in names <==> exists i :: 0 <= i < |projects| && projects[i].title == n
  {
    var all := ProjectTitles(projects);
    assert forall n :: n in all <==> exists i :: 0 <= i < |projects| && projects[i].title == n by {
      forall n ensures n in all <==> exists i :: 0 <= i < |projects| && projects[i].title == n {
        if n in all {
          var i :| 0 <= i < |all| && all[i] == n;
          assert projects[i].title == n;
        }
        if exists i :: 0 <= i < |projects| && projects[i].title == n {
          var i :| 0 <= i < |projects| && projects[i].title == n;
          assert all[i] == n;
        }
      }
    }
    NameOrder.UniqueSorted(all)
  }

  /** `uniqueCompanyNames`: each company name once, in sort order. */
  function UniqueCompanyNames(companies: seq<Company>): (names: seq<string>)
    ensures NameOrder.StrictlySorted(names)
    ensures forall n :: n in names <==> exists i :: 0 <= i < |companies| && companies[i].name == n
  {
    var all := CompanyNames(companies);
    assert forall n :: n in all <==> exists i :: 0 <= i < |companies| && companies[i].name == n by {
      forall n ensures n in all <==> exists i :: 0 <= i < |companies| && companies[i].name == n {
        if n in all {
          var i :| 0 <= i < |all| && all[i] == n;
          assert companies[i].name == n;
        }
        if exists i :: 0 <= i < |companies| && companies[i].name == n {
          var i :| 0 <= i < |companies| && companies[i].name == n;
          assert all[i] == n;
        }
      }
    }
    NameOrder.UniqueSorted(all)
  }

  function NameTest(filter: string): string -> bool {
    (n: string) => MatchesIgnoringCase(n, filter)
  }

  /** `filteredCustomerNames` and its two siblings: every suggestion for an
      empty input, otherwise those containing the input ignoring case. */
  function FilterNames(names: seq<string>, filter: string): seq<string> {
    if Lower(filter) == "" then names else Filter(names, NameTest(filter))
  }

  lemma FilterNamesSpec(names: seq<string>, filter: string)
    ensures filter == "" ==> FilterNames(names, filter) == names
    ensures var r := FilterNames(names, filter);
            && IsSubsequence(r, names)
            && (forall i :: 0 <= i < |r| ==> MatchesIgnoringCase(r[i], filter))
            && (forall i :: 0 <= i < |names| && MatchesIgnoringCase(names[i], filter) ==> names[i] in r)
            && (NameOrder.StrictlySorted(names) ==> NameOrder.StrictlySorted(r))
  {
    if Lower(filter) == "" {
      assert forall i :: 0 <= i < |names| ==> MatchesIgnoringCase(names[i], filter);
      FilterKeepsAll(names, NameTest(filter));
    }
    FilterIsSubsequence(names, NameTest(filter));
    if NameOrder.StrictlySorted(names) {
      NameOrder.FilterKeepsSorted(names, NameTest(filter));
    }
  }

  /** Every field of the component, as one value. */
  datatype Snapshot = Snapshot(filters: Filters, forms: Forms, log: seq<ProjectCommand>)

  /** The request the create form starts from: no customer, no company. */
  function BlankRequest(now: Date): ProjectRequest {
    Blank(now, "", "")
  }

  /** `getCompaniesByCustomer`: none for an empty customer id, otherwise
      that customer's companies in store order. */
  function CompaniesOfCustomer(companies: seq<Company>, customerId: string): (r: seq<Company>)
    ensures customerId == "" ==> r == []
    ensures customerId != "" ==> IsSubsequence(r, companies)
    ensures forall i :: 0 <= i < |r| ==> r[i].customerId == customerId
    ensures forall i :: 0 <= i < |companies| && companies[i].customerId == customerId && customerId != "" ==> companies[i] in r
  {
    if customerId == "" then []
    else
      FilterIsSubsequence(companies, (c: Company) => c.customerId == customerId);
      CompaniesByCustomer(companies, customerId)
  }

  class AllProjectsComponent {
    var customerFilter: string
    var companyFilter: string
    var projectFilter: string
    var statusFilter: string
    var showCreateForm: bool
    var showEditForm: bool
    var editingProjectId: Option<string>
    var newProject: ProjectRequest
    var editingProject: Patch
    var startDateString: string
    var expectedEndDateString: string
    var editStartDateString: string
    var editExpectedEndDateString: string
    /** Commands issued to the data and navigation services, oldest first. */
    var log: seq<ProjectCommand>

    function CurrentFilters(): Filters
      reads this
    {
      Filters(customerFilter, companyFilter, projectFilter, statusFilter)
    }

    function CurrentForms(): Forms
      reads this
    {
      Forms(showCreateForm, showEditForm, editingProjectId, newProject, editingProject,
            startDateString, expectedEndDateString, editStartDateString, editExpectedEndDateString)
    }

    function View(): Snapshot
      reads this
    {
      Snapshot(CurrentFilters(), CurrentForms(), log)
    }

    predicate Valid()
      reads this
    {
      OneFormShown(CurrentForms())
    }

    method SetForms(f: Forms)
      modifies this
      ensures CurrentForms() == f
      ensures CurrentFilters() == old(CurrentFilters()) && log == old(log)
    {
      showCreateForm, showEditForm, editingProjectId := f.showCreateForm, f.showEditForm, f.editingProjectId;
      newProject, editingProject := f.newProject, f.editingProject;
      startDateString, expectedEndDateString := f.startDateString, f.expectedEndDateString;
      editStartDateString, editExpectedEndDateString := f.editStartDateString, f.editExpectedEndDateString;
    }

    constructor (now: Date)
      ensures Valid()
      ensures View() == Snapshot(NoFilters, Forms(false, false, None, BlankRequest(now), map[], "", "", "", ""), [])
    {
      customerFilter, companyFilter, projectFilter, statusFilter := "", "", "", "";
      showCreateForm, showEditForm := false, false;
      editingProjectId := None;
      newProject := BlankRequest(now);
      editingProject := map[];
      startDateString, expectedEndDateString := "", "";
      editStartDateString, editExpectedEndDateString := "", "";
      log := [];
    }

    /** `clearFilters`: afterwards the list is every project. */
    method ClearFilters()
      requires Valid()
      modifies this
      ensures Valid()
      ensures View() == old(View()).(filters := NoFilters)
      ensures forall ps, cs, cos :: FilteredProjects(ps, cs, cos, CurrentFilters()) == ps
    {
      customerFilter, companyFilter, projectFilter, statusFilter := "", "", "", "";
    }

    /** `hasFilters` as written: when it is false the list is still narrowed
        by the company filter, so an empty list does not mean that there are
        no projects. */
    function HasFilters(): (r: bool)
      reads this
      ensures r ==> CurrentFilters() != NoFilters
      ensures !r ==> forall ps, cs, cos :: FilteredProjects(ps, cs, cos, CurrentFilters())
                       == if companyFilter != "" then Filter(ps, CompanyTest(cos, companyFilter)) else ps
    {
      HasFiltersAsWritten(CurrentFilters())
    }

    /** The corrected `hasFilters`, with the company filter counted: without
        filters the list is every project. */
    function HasAnyFilter(): (r: bool)
      reads this
      ensures !r ==> forall ps, cs, cos :: FilteredProjects(ps, cs, cos, CurrentFilters()) == ps
      ensures r <==> CurrentFilters() != NoFilters
    {
      FiltersActive(CurrentFilters())
    }

    method ResetForm(now: Date)
      requires Valid()
      modifies this
      ensures Valid()
      ensures View() == old(View()).(forms := ResetCreate(old(CurrentForms()), BlankRequest(now)))
    {
      newProject := BlankRequest(now);
      startDateString, expectedEndDateString := "", "";
    }

    method ToggleCreateForm(now: Date)
      requires Valid()
      modifies this
      ensures Valid()
      ensures View() == old(View()).(forms := ToggledCreate(old(CurrentForms()), BlankRequest(now)))
    {
      showCreateForm := !showCreateForm;
      showEditForm := false;
      if !showCreateForm {
        ResetForm(now);
      }
    }

    method UpdateNewProject(f: ProjectField)
      requires Valid()
      modifies this
      ensures Valid()
      ensures View() == old(View()).(forms := old(CurrentForms()).(newProject := WithField(old(newProject), f)))
    {
      newProject := WithField(newProject, f);
    }

    method UpdateEditingProject(field: ProjectKey, value: Value)
      requires Valid()
      modifies this
      ensures Valid()
      ensures View() == old(View()).(forms := old(CurrentForms()).(editingProject := old(editingProject)[field := value]))
    {
      editingProject := editingProject[field := value];
    }

    /** `createProject` as written: nothing is sent and nothing changes when
        the title, description, customer or company is empty; otherwise one
        create command is sent, whatever the end-date input holds, and on
        success the form is reset and toggled, while a failure leaves every
        input as it was. */
    method CreateProject(now: Date, ok: bool)
      requires Valid()
      modifies this
      ensures Valid()
      ensures !RequiredFieldsPresent(old(newProject)) ==> View() == old(View())
      ensures RequiredFieldsPresent(old(newProject)) ==>
        View() == old(View()).(
          forms := AfterCreate(old(CurrentForms()), BlankRequest(now), ok),
          log := old(log) + [ProjectCommand.CreateProject(Submission(old(newProject), old(startDateString), old(expectedEndDateString)))])
    {
      if !RequiredFieldsPresent(newProject) {
        return;
      }
      var sent := Submission(newProject, startDateString, expectedEndDateString);
      log := log + [ProjectCommand.CreateProject(sent)];
      if ok {
        ResetForm(now);
        ToggleCreateForm(now);
      }
    }

    /** The corrected `createProject`: the end-date input is required as
        well, so every request sent carries a valid end date. */
    method CreateProjectRequiringEndDate(now: Date, ok: bool)
      requires Valid()
      modifies this
      ensures Valid()
      ensures !ReadyToCreate(old(newProject), old(expectedEndDateString)) ==> View() == old(View())
      ensures ReadyToCreate(old(newProject), old(expectedEndDateString)) ==>
        View() == old(View()).(
          forms := AfterCreate(old(CurrentForms()), BlankRequest(now), ok),
          log := old(log) + [ProjectCommand.CreateProject(Submission(old(newProject), old(startDateString), old(expectedEndDateString)))])
      ensures forall i :: |old(log)| <= i < |log| ==> log[i].CreateProject? && log[i].request.expectedEndDate.At?
    {
      if !ReadyToCreate(newProject, expectedEndDateString) {
        return;
      }
      var sent := Submission(newProject, startDateString, expectedEndDateString);
      log := log + [ProjectCommand.CreateProject(sent)];
      if ok {
        ResetForm(now);
        ToggleCreateForm(now);
      }
    }

    /** `selectProject`: opens the task list of a project unless it is archived. */
    method SelectProject(p: Project)
      requires Valid()
      modifies this
      ensures Valid()
      ensures p.isArchived ==> View() == old(View())
      ensures !p.isArchived ==> View() == old(View()).(log := old(log) + [NavigateToTasks(p.customerId, p.companyId, p.id)])
    {
      var cmd := SelectCommand(p);
      if cmd.Some? {
        log := log + [cmd.value];
      }
    }

    /** `editProject`. */
    method EditProject(p: Project)
      requires Valid()
      modifies this
      ensures Valid()
      ensures View() == old(View()).(forms := OpenedForEdit(old(CurrentForms()), p))
    {
      SetForms(OpenedForEdit(CurrentForms(), p));
    }

    /** `updateProject`: nothing is sent without an edited id, a title and a
        description; otherwise one update command is sent, and the edit form
        is closed only on success. */
    method UpdateProject(ok: bool)
      requires Valid()
      modifies this
      ensures Valid()
      ensures !ReadyToUpdate(old(editingProjectId), old(editingProject)) ==> View() == old(View())
      ensures ReadyToUpdate(old(editingProjectId), old(editingProject)) ==>
        View() == old(View()).(
          forms := AfterUpdate(old(CurrentForms()), ok),
          log := old(log) + [ProjectCommand.UpdateProject(old(editingProjectId).value,
                               PatchSubmission(old(editingProject), old(editStartDateString), old(editExpectedEndDateString)))])
    {
      if !ReadyToUpdate(editingProjectId, editingProject) {
        return;
      }
      var sent := PatchSubmission(editingProject, editStartDateString, editExpectedEndDateString);
      log := log + [ProjectCommand.UpdateProject(editingProjectId.value, sent)];
      if ok {
        CancelEdit();
      }
    }

    /** `cancelEdit`. */
    method CancelEdit()
      requires Valid()
      modifies this
      ensures Valid()
      ensures View() == old(View()).(forms := ClearEdit(old(CurrentForms())))
    {
      showEditForm := false;
      editingProject := map[];
      editingProjectId := None;
      editStartDateString, editExpectedEndDateString := "", "";
    }

    /** `deleteProject`, `archiveProject` and `unarchiveProject`: one command
        when the user confirms, none otherwise. */
    method DeleteProject(id: string, confirmed: bool)
      requires Valid()
      modifies this
      ensures Valid()
      ensures View() == old(View()).(log := old(log) + Confirmed(confirmed, ProjectCommand.DeleteProject(id)))
    {
      log := log + Confirmed(confirmed, ProjectCommand.DeleteProject(id));
    }

    method ArchiveProject(id: string, confirmed: bool)
      requires Valid()
      modifies this
      ensures Valid()
      ensures View() == old(View()).(log := old(log) + Confirmed(confirmed, ProjectCommand.ArchiveProject(id)))
    {
      log := log + Confirmed(confirmed, ProjectCommand.ArchiveProject(id));
    }

    method UnarchiveProject(id: string, confirmed: bool)
      requires Valid()
      modifies this
      ensures Valid()
      ensures View() == old(View()).(log := old(log) + Confirmed(confirmed, ProjectCommand.UnarchiveProject(id)))
    {
      log := log + Confirmed(confirmed, ProjectCommand.UnarchiveProject(id));
    }
  }
}
