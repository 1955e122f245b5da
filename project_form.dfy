// The project create and edit forms shared by the all-projects view and the
// per-company project list: the request they build, the required-field
// checks, the partial record the edit form holds, the commands they issue
// and the status labels they show.

module ProjectForm {
  import opened Base
  import opened Entities

  /** `CreateProjectRequest`. */
  datatype ProjectRequest = ProjectRequest(
    title: string,
    description: string,
    priority: string,
    expectedCost: int,
    expectedEndDate: Date,
    startDate: Option<Date>,
    customerId: string,
    companyId: string)

  /** The request the form starts from (and is reset to): priority "medium",
      cost 0, end date "now", and the given owner ids. */
  function Blank(now: Date, customerId: string, companyId: string): ProjectRequest {
    ProjectRequest("", "", "medium", 0, now, None, customerId, companyId)
  }

  /** One `updateNewProject(field, value)` call of the create form. */
  datatype ProjectField =
    | Title(title: string)
    | Description(description: string)
    | Priority(priority: string)
    | ExpectedCost(cost: int)
    | CustomerId(customerId: string)
    | CompanyId(companyId: string)

  function WithField(r: ProjectRequest, f: ProjectField): (r': ProjectRequest)
    ensures r'.startDate == r.startDate && r'.expectedEndDate == r.expectedEndDate
    ensures f.Title? ==> r' == r.(title := f.title)
    ensures f.Description? ==> r' == r.(description := f.description)
    ensures f.Priority? ==> r' == r.(priority := f.priority)
    ensures f.ExpectedCost? ==> r' == r.(expectedCost := f.cost)
    ensures f.CustomerId? ==> r' == r.(customerId := f.customerId)
    ensures f.CompanyId? ==> r' == r.(companyId := f.companyId)
  {
    match f
    case Title(t) => r.(title := t)
    case Description(d) => r.(description := d)
    case Priority(p) => r.(priority := p)
    case ExpectedCost(c) => r.(expectedCost := c)
    case CustomerId(id) => r.(customerId := id)
    case CompanyId(id) => r.(companyId := id)
  }

  /** The check `createProject` makes before it calls the store: title,
      description, customer and company must all be non-empty. */
  predicate RequiredFieldsPresent(r: ProjectRequest) {
    Present(r.title) && Present(r.description) && Present(r.customerId) && Present(r.companyId)
  }

  /** What `createProject` sends: the request with the start date parsed
      when one was entered and the end date parsed from its input. */
  function Submission(r: ProjectRequest, startText: string, endText: string): (sent: ProjectRequest)
    ensures sent.title == r.title && sent.description == r.description
    ensures sent.customerId == r.customerId && sent.companyId == r.companyId
    ensures sent.priority == r.priority && sent.expectedCost == r.expectedCost
    ensures startText != "" ==> sent.startDate == Some(ParseDate(startText))
    ensures startText == "" ==> sent.startDate.None?
    ensures sent.expectedEndDate == ParseDate(endText)
    ensures sent.expectedEndDate.Invalid? <==> endText == ""
  {
    r.(startDate := if startText != "" then Some(ParseDate(startText)) else None,
       expectedEndDate := ParseDate(endText))
  }

  /** As written, the check ignores the end-date input, which the form marks
      as required: a request with every checked field filled in and no end
      date passes, and the store receives an invalid end date. */
  lemma CreateCheckAdmitsInvalidEndDate()
    ensures var r := ProjectRequest("Roof", "Replace the roof", "medium", 0, At("2026-01-01"), None, "cu1", "co1");
            RequiredFieldsPresent(r) && Submission(r, "", "").expectedEndDate.Invalid?
  {
  }

  /** The corrected check: the required fields and the end-date input. */
  predicate ReadyToCreate(r: ProjectRequest, endText: string) {
    RequiredFieldsPresent(r) && Present(endText)
  }

  /** A request that passes the corrected check is sent with a valid end
      date, its required fields non-empty. */
  lemma ReadyToCreateSendsValidRequest(r: ProjectRequest, startText: string, endText: string)
    requires ReadyToCreate(r, endText)
    ensures var sent := Submission(r, startText, endText);
            sent.expectedEndDate == At(endText) && RequiredFieldsPresent(sent)
  {
  }

  /** A field value of a `Partial<Project>` record. */
  datatype Value = Str(s: string) | Number(n: int) | Flag(b: bool) | When(d: Date) | Undefined

  /** JavaScript truthiness of a field value (a `Date` object is truthy). */
  predicate Truthy(v: Value) {
    match v
    case Str(s) => s != ""
    case Number(n) => n != 0
    case Flag(b) => b
    case When(_) => true
    case Undefined => false
  }

  /** `keyof Project`: the names of a project's fields. */
  datatype ProjectKey =
    | Id | TitleKey | DescriptionKey | Status | PriorityKey | CustomerIdKey | CompanyIdKey
    | IsArchived | ExpectedCostKey | StartDate | ExpectedEndDate

  /** `Partial<Project>`: the fields present in the record. `{}` is `map[]`. */
  type Patch = map<ProjectKey, Value>

  predicate FieldPresent(p: Patch, field: ProjectKey) {
    field in p && Truthy(p[field])
  }

  function OptionalDate(d: Option<Date>): Value {
    if d.Some? then When(d.value) else Undefined
  }

  /** `{ ...project }`: every field of the project. */
  function AsPatch(p: Project): Patch {
    map[
      Id := Str(p.id), TitleKey := Str(p.title), DescriptionKey := Str(p.description),
      Status := Str(p.status), PriorityKey := Str(p.priority),
      CustomerIdKey := Str(p.customerId), CompanyIdKey := Str(p.companyId),
      IsArchived := Flag(p.isArchived), ExpectedCostKey := Number(p.expectedCost),
      StartDate := OptionalDate(p.startDate), ExpectedEndDate := When(p.expectedEndDate)]
  }

  /** The check `updateProject` makes: a project id is being edited and the
      record has a title and a description. */
  predicate ReadyToUpdate(id: Option<string>, p: Patch) {
    Selected(id) && FieldPresent(p, TitleKey) && FieldPresent(p, DescriptionKey)
  }

  /** Loading a project into the edit form copies every field, so the update
      check passes exactly when the project has an id, a title and a
      description. */
  lemma AsPatchCopiesProject(p: Project)
    ensures AsPatch(p).Keys == {Id, TitleKey, DescriptionKey, Status, PriorityKey, CustomerIdKey,
                                CompanyIdKey, IsArchived, ExpectedCostKey, StartDate, ExpectedEndDate}
    ensures AsPatch(p)[TitleKey] == Str(p.title) && AsPatch(p)[DescriptionKey] == Str(p.description)
    ensures AsPatch(p)[StartDate] == Undefined <==> p.startDate.None?
    ensures ReadyToUpdate(Some(p.id), AsPatch(p)) <==> p.id != "" && p.title != "" && p.description != ""
  {
  }

  /** What `updateProject` sends: the record with both dates set from the
      edit inputs (an empty start date sends `startDate: undefined`). */
  function PatchSubmission(p: Patch, startText: string, endText: string): (sent: Patch)
    ensures sent.Keys == p.Keys + {StartDate, ExpectedEndDate}
    ensures forall f :: f in p && f != StartDate && f != ExpectedEndDate ==> sent[f] == p[f]
    ensures sent[StartDate] == Undefined <==> startText == ""
    ensures sent[ExpectedEndDate] == When(ParseDate(endText))
  {
    p[StartDate := if startText != "" then When(ParseDate(startText)) else Undefined]
     [ExpectedEndDate := When(ParseDate(endText))]
  }

  /** The commands the project views issue to the data and navigation services. */
  datatype ProjectCommand =
    | CreateProject(request: ProjectRequest)
    | UpdateProject(id: string, patch: Patch)
    | DeleteProject(id: string)
    | ArchiveProject(id: string)
    | UnarchiveProject(id: string)
    | NavigateToTasks(customerId: string, companyId: string, projectId: string)

  /** The labels of the five project statuses. */
  const StatusLabels: map<string, string> := map[
    "not-started" := "Not Started",
    "in-progress" := "In Progress",
    "completed" := "Completed",
    "stopped" := "Stopped",
    "archived" := "Archived"]

  /** `getStatusLabel`: the label of a known status, any other text itself. */
  function StatusLabel(status: string): string {
    if status in StatusLabels then StatusLabels[status] else status
  }

  /** The label differs from its input exactly for the five known statuses. */
  lemma StatusLabelChangesOnlyKnown(status: string)
    ensures StatusLabel(status) != status <==> status in {"not-started", "in-progress", "completed", "stopped", "archived"}
    ensures StatusLabel("in-progress") == "In Progress"
  {
  }

  /** `selectProject`: archived projects are not opened; any other project
      opens its task list. */
  function SelectCommand(p: Project): (cmd: Option<ProjectCommand>)
    ensures p.isArchived <==> cmd.None?
    ensures cmd.Some? ==> cmd.value.NavigateToTasks? && cmd.value.projectId == p.id
  {
    if p.isArchived then None else Some(NavigateToTasks(p.customerId, p.companyId, p.id))
  }

  /** The commands that ask for confirmation first (delete, archive,
      unarchive): issued only when the user confirms. */
  function Confirmed(confirmed: bool, cmd: ProjectCommand): (cmds: seq<ProjectCommand>)
    ensures |cmds| <= 1
    ensures cmds != [] <==> confirmed
  {
    if confirmed then [cmd] else []
  }

  /** The create and edit form state the two project views share. */
  datatype Forms = Forms(
    showCreateForm: bool,
    showEditForm: bool,
    editingProjectId: Option<string>,
    newProject: ProjectRequest,
    editingProject: Patch,
    startDateString: string,
    expectedEndDateString: string,
    editStartDateString: string,
    editExpectedEndDateString: string)

  /** At most one of the two forms is shown. */
  predicate OneFormShown(f: Forms) {
    !(f.showCreateForm && f.showEditForm)
  }

  /** `resetForm`: the create form's request back to `blank`, its date
      inputs emptied. */
  function ResetCreate(f: Forms, blank: ProjectRequest): Forms {
    f.(newProject := blank, startDateString := "", expectedEndDateString := "")
  }

  /** `toggleCreateForm`: flips the create form, always hides the edit form,
      and resets the create form when it closes. */
  function ToggledCreate(f: Forms, blank: ProjectRequest): (g: Forms)
    ensures OneFormShown(g) && !g.showEditForm
    ensures g.showCreateForm == !f.showCreateForm
    ensures g.showCreateForm ==> g.newProject == f.newProject
    ensures !g.showCreateForm ==> g == ResetCreate(f, blank).(showCreateForm := false, showEditForm := false)
  {
    var g := f.(showCreateForm := !f.showCreateForm, showEditForm := false);
    if g.showCreateForm then g else ResetCreate(g, blank)
  }

  /** Toggling twice leaves the create form shown or hidden as it was, and
      reset either way: one of the two toggles closes it. */
  lemma ToggleTwiceResets(f: Forms, blank: ProjectRequest)
    ensures var g := ToggledCreate(ToggledCreate(f, blank), blank);
            g.showCreateForm == f.showCreateForm && !g.showEditForm
            && g.newProject == blank && g.startDateString == "" && g.expectedEndDateString == ""
  {
  }

  /** `cancelEdit`: the edit form hidden and emptied. */
  function ClearEdit(f: Forms): (g: Forms)
    ensures OneFormShown(g) && !g.showEditForm && !Selected(g.editingProjectId)
    ensures !ReadyToUpdate(g.editingProjectId, g.editingProject)
    ensures g.newProject == f.newProject && g.showCreateForm == f.showCreateForm
  {
    f.(showEditForm := false, editingProject := map[], editingProjectId := None,
       editStartDateString := "", editExpectedEndDateString := "")
  }

  /** `editProject`: the project loaded into the edit form, which is shown in
      place of the create form, then its dates written into the date inputs.
      `toISOString` throws on an invalid date, so the handler stops there: an
      invalid start date leaves both date inputs as they were, and an invalid
      end date leaves the end-date input as it was. */
  function OpenedForEdit(f: Forms, p: Project): (g: Forms)
    ensures OneFormShown(g) && g.showEditForm
    ensures g.editingProjectId == Some(p.id) && g.editingProject == AsPatch(p)
    ensures g.newProject == f.newProject
    ensures p.startDate.None? ==> g.editStartDateString == ""
    ensures p.startDate.Some? && p.startDate.value.At? ==> g.editStartDateString == p.startDate.value.day
    ensures p.startDate == Some(Invalid) ==>
      g.editStartDateString == f.editStartDateString && g.editExpectedEndDateString == f.editExpectedEndDateString
    ensures p.startDate != Some(Invalid) && p.expectedEndDate.At? ==> g.editExpectedEndDateString == p.expectedEndDate.day
    ensures p.expectedEndDate.Invalid? ==> g.editExpectedEndDateString == f.editExpectedEndDateString
  {
    var shown := f.(editingProject := AsPatch(p), editingProjectId := Some(p.id),
                    showCreateForm := false, showEditForm := true);
    if p.startDate == Some(Invalid) then shown
    else
      var withStart := shown.(editStartDateString := if p.startDate.Some? then DayText(p.startDate.value) else "");
      if p.expectedEndDate.Invalid? then withStart
      else withStart.(editExpectedEndDateString := DayText(p.expectedEndDate))
  }

  /** `createProject` after its check: the command sent, and the forms after
      the store answers (reset and toggled on success, untouched on failure). */
  function AfterCreate(f: Forms, blank: ProjectRequest, ok: bool): (g: Forms)
    ensures !ok ==> g == f
    ensures ok && f.showCreateForm ==> !g.showCreateForm && !g.showEditForm
    ensures ok ==> g.newProject == blank && g.startDateString == "" && g.expectedEndDateString == ""
  {
    if ok then ToggledCreate(ResetCreate(f, blank), blank) else f
  }

  /** `updateProject` after its check: the edit form closes only on success. */
  function AfterUpdate(f: Forms, ok: bool): (g: Forms)
    ensures !ok ==> g == f
    ensures ok ==> !g.showEditForm && g.editingProjectId.None? && g.editingProject == map[]
    ensures g.newProject == f.newProject && g.showCreateForm == f.showCreateForm
  {
    if ok then ClearEdit(f) else f
  }
}
