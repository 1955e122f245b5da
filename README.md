# CRM project tracker: component logic

The application is an Angular single-page CRM. Customers own companies, and companies own projects. Projects hold tasks, and tasks hold steps. Next to these there are catalogues of business activities, industries, locations and authorities (people with a role and a set of permissions), plus a per-company activity log.

Each screen is one component class. That class holds a little sequential logic:
- it filters the store's collections into the list it shows;
- it builds the update record for a status change;
- it gates each create or update form behind a required-field check;
- it tracks a drag for reordering;
- it toggles permissions in an authority request.

This project models that logic for eleven components:
- all projects;
- the project list of one company;
- tasks and steps;
- customers;
- the company activity log;
- authorities;
- companies;
- industries;
- activities;
- locations.

Each component is a `class` whose fields are the component's fields. Its methods change them in place. A `log` field collects the calls the component makes on the data and navigation services, oldest first.

The services themselves (`DataService`, `NavigationService`) are not part of this model:
- A collection they hold is an input sequence (a snapshot).
- A by-id lookup is the first match in that sequence.
- A by-parent lookup is the in-order selection.

Outside events are parameters of the methods:
- the clock (`now`);
- the user's answer to a confirmation dialog (`confirmed`);
- whether the store call succeeded (`ok`);
- the list position a drop lands on (`target`).

Pure logic is written as functions: the filter chains, the status-update records, the label lookups and the form transitions that two screens share. The properties the screens promise are lemmas about those functions:
- a filtered list is an order-preserving subsequence holding exactly the matching elements;
- the two halves of the archived toggle partition a company's projects;
- a status toggle always leaves a task consistent;
- unchecking a permission removes every occurrence.

Files:
- `base.dfy`: options, JavaScript truthiness, opaque dates, `filter`/`find` with their defining properties, subsequences and partitions.
- `text.dfy`: ASCII `toLowerCase`, `trim` over ECMAScript white space, `includes`.
- `name_order.dfy`: the default string order of `Array.prototype.sort`, and `[...new Set(names)].sort()`.
- `entities.dfy`: the stored records.
- `store.dfy`: the store reads and the navigation state.
- `project_form.dfy`: the project create and edit forms shared by the two project screens.
- `all_projects.dfy`, `project_list.dfy`: the two project screens.
- `drag_drop.dfy`, `task_list.dfy`, `step_list.dfy`: the task and step screens.
- `customer_list.dfy`, `company_activity_log.dfy`, `authority_list.dfy`, `company_list.dfy`, `location_list.dfy`: the other list screens.
- `named_form.dfy`, `industry_list.dfy`, `activity_list.dfy`: the name-and-description create-or-edit form and its two screens.

## Model

| member | source | states |
|---|---|---|
| Text.Lower | src/app/components/all-projects/all-projects.component.ts:1568-1577 | Lower-casing keeps the length, turns each capital letter A-Z into the letter 32 code points later (a-z), leaves no capital letter and changes no other character. |
| Text.Trim | src/app/components/customer-list/customer-list.component.ts:494 | The trimmed term is a slice of the input with only white space before and after it, and it neither starts nor ends with white space. |
| Text.TrimEmptyIff | src/app/components/customer-list/customer-list.component.ts:494-496 | The trimmed term is empty exactly when every character of the input is white space. |
| Text.ContainsIff | src/app/components/all-projects/all-projects.component.ts:1568-1577 | `includes` holds exactly when the term occurs at some position of the text. |
| Text.LowerIdempotent | src/app/components/all-projects/all-projects.component.ts:1526-1532 | Lower-casing a term that is already lower case changes nothing. |
| Text.ExactOccurrenceMatches | src/app/components/all-projects/all-projects.component.ts:1568-1577 | A term that occurs in the text as typed also matches once both are lower-cased, for every text and term. |
| NameOrder.BeforeTotal | src/app/components/all-projects/all-projects.component.ts:1512-1515 | Of two different names the sort order puts one first. |
| NameOrder.BeforeTransitive | src/app/components/all-projects/all-projects.component.ts:1512-1515 | The sort order is transitive. |
| NameOrder.SortedHasNoDuplicates | src/app/components/all-projects/all-projects.component.ts:1512-1515 | A strictly sorted list holds no name twice. |
| NameOrder.UniqueSorted | src/app/components/all-projects/all-projects.component.ts:1512-1515 | `[...new Set(names)].sort()` is strictly sorted and holds exactly the input's names. |
| NameOrder.SortedListIsUnique | src/app/components/all-projects/all-projects.component.ts:1512-1525 | Two strictly sorted lists with the same names are equal, so the suggestion list depends only on the set of names. |
| NameOrder.FilterKeepsSorted | src/app/components/all-projects/all-projects.component.ts:1526-1548 | Filtering a sorted suggestion list keeps it sorted. |
| Store.CustomerName | src/app/components/all-projects/all-projects.component.ts:1698-1701 | The name of the first customer with the id, or "Unknown Customer" when none has it. The project list and the company list (company-list.component.ts:676-679) look names up the same way. |
| Store.CompanyName | src/app/components/all-projects/all-projects.component.ts:1703-1706 | The name of the first company with the id, or "Unknown Company" when none has it. The activity log (company-activity-log.component.ts:544-547) looks names up the same way. |
| Store.ActivityName | src/app/components/company-list/company-list.component.ts:681-684 | The name of the first activity with the id, or "Unknown Activity" when none has it. |
| Base.OrEmpty | src/app/components/project-list/project-list.component.ts:1258-1270 | The selected id, or the empty string when none is selected. |
| Base.ParseDate | src/app/components/all-projects/all-projects.component.ts:1633-1636 | `new Date(text)` of a date input is invalid exactly when the input is empty. |
| ProjectForm.WithField | src/app/components/all-projects/all-projects.component.ts:1612-1614 | Updating one field of the create request sets that field (title, description, priority, cost, customer or company) and keeps every other field. |
| ProjectForm.Submission | src/app/components/all-projects/all-projects.component.ts:1633-1642 | The request sent keeps every typed field. Its start date is the parsed start input when one was entered and absent otherwise. Its end date is the parsed end-date input, invalid exactly when that input is empty. |
| ProjectForm.CreateCheckAdmitsInvalidEndDate | src/app/components/all-projects/all-projects.component.ts:1623-1636 | As written, a request with every checked field filled in and an empty end-date input passes the check and is sent with an invalid end date. |
| ProjectForm.ReadyToCreateSendsValidRequest | src/app/components/all-projects/all-projects.component.ts:1623-1642 | With the end-date input also required, every request sent has its required fields and a valid end date. |
| ProjectForm.AsPatchCopiesProject | src/app/components/all-projects/all-projects.component.ts:1722-1736 | `{ ...project }` holds every field of the project, so the update check passes exactly when the project has an id, a title and a description. |
| ProjectForm.PatchSubmission | src/app/components/all-projects/all-projects.component.ts:1747-1756 | The record sent keeps every edited field and sets both dates. The start date is `undefined` exactly when its input is empty. The end date is parsed from its input. |
| ProjectForm.StatusLabelChangesOnlyKnown | src/app/components/all-projects/all-projects.component.ts:1687-1696 | The label differs from its input exactly for the five project statuses. |
| ProjectForm.SelectCommand | src/app/components/all-projects/all-projects.component.ts:1712-1720 | An archived project is never opened. Any other project opens its own task list. |
| ProjectForm.Confirmed | src/app/components/all-projects/all-projects.component.ts:1777-1805 | A confirmed action issues one command; a declined one issues none. |
| ProjectForm.ToggledCreate | src/app/components/all-projects/all-projects.component.ts:1604-1610 | Toggling flips the create form and always hides the edit form. Opening keeps the request; closing resets it. |
| ProjectForm.ToggleTwiceResets | src/app/components/all-projects/all-projects.component.ts:1604-1610 | Two toggles restore the create form's visibility and always leave it reset. |
| ProjectForm.ClearEdit | src/app/components/all-projects/all-projects.component.ts:1769-1775 | Cancelling an edit hides and empties the edit form, which then cannot be submitted, and keeps the create form. |
| ProjectForm.OpenedForEdit | src/app/components/all-projects/all-projects.component.ts:1722-1736 | Editing shows the edit form in place of the create form, loaded with the project and its id. The date inputs take the project's days. An invalid start date leaves both date inputs as they were, and an invalid end date leaves the end-date input as it was, because `toISOString` throws there. |
| ProjectForm.AfterCreate | src/app/components/all-projects/all-projects.component.ts:1644-1653 | A failed create leaves the forms as they were. A successful one resets the request and closes the open create form. |
| ProjectForm.AfterUpdate | src/app/components/all-projects/all-projects.component.ts:1758-1766 | A failed update leaves the forms as they were. A successful one closes and empties the edit form. |
| AllProjects.FilteredProjectsIsConjunction | src/app/components/all-projects/all-projects.component.ts:1549-1587 | The four-stage filter chain is one filter by the conjunction of the non-empty filters. |
| AllProjects.FilteredProjectsSpec | src/app/components/all-projects/all-projects.component.ts:1549-1587 | The filtered list is an order-preserving subsequence of all projects. It holds exactly the projects that every non-empty filter matches. |
| AllProjects.NoFiltersShowsAll | src/app/components/all-projects/all-projects.component.ts:1549-1587 | With every filter input empty the list is all projects. |
| AllProjects.DanglingCustomerMatchedAsUnknown | src/app/components/all-projects/all-projects.component.ts:1552-1557 | A project whose customer id matches no customer is matched by the customer filter as "Unknown Customer". |
| AllProjects.ProjectCountByStatusSpec | src/app/components/all-projects/all-projects.component.ts:1683-1685 | The per-status count is the number of projects that pass the filters and have that status. |
| AllProjects.EmptyStateIgnoresCompanyFilter | src/app/components/all-projects/all-projects.component.ts:1675-1681 | As written, a company filter alone counts as no filter, even when it hides every project. |
| AllProjects.EmptyWithoutFiltersMeansNoProjects | src/app/components/all-projects/all-projects.component.ts:1675-1681 | With the corrected check, an empty list without filters means there are no projects. |
| AllProjects.UniqueCustomerNames | src/app/components/all-projects/all-projects.component.ts:1512-1515 | The customer suggestions are strictly sorted and hold exactly the customers' names. |
| AllProjects.UniqueProjectNames | src/app/components/all-projects/all-projects.component.ts:1517-1520 | The project suggestions are strictly sorted and hold exactly the projects' titles. |
| AllProjects.UniqueCompanyNames | src/app/components/all-projects/all-projects.component.ts:1522-1525 | The company suggestions are strictly sorted and hold exactly the companies' names. |
| AllProjects.FilterNamesSpec | src/app/components/all-projects/all-projects.component.ts:1526-1548 | An empty input shows every suggestion. The result is an order-preserving subsequence holding exactly the names that contain the input, ignoring case, and it stays sorted. |
| AllProjects.CompaniesOfCustomer | src/app/components/all-projects/all-projects.component.ts:1656-1659 | No companies for an empty customer id; otherwise exactly that customer's companies, in store order. |
| AllProjects.AllProjectsComponent.constructor | src/app/components/all-projects/all-projects.component.ts:1482-1506 | No filters, both forms hidden, a blank request and nothing sent. |
| AllProjects.AllProjectsComponent.ClearFilters | src/app/components/all-projects/all-projects.component.ts:1597-1602 | Only the four filters change. Afterwards the list is every project. |
| AllProjects.AllProjectsComponent.HasFilters | src/app/components/all-projects/all-projects.component.ts:1675-1681 | As written: true only when some filter input is set. When false, the list is still narrowed by the company filter, so it is every project only when that filter is empty too. |
| AllProjects.AllProjectsComponent.HasAnyFilter | src/app/components/all-projects/all-projects.component.ts:1675-1681 | Corrected: true exactly when some filter input, the company filter included, is non-empty. When false, the list is every project. |
| AllProjects.AllProjectsComponent.ResetForm | src/app/components/all-projects/all-projects.component.ts:1661-1673 | The request is blank and both date inputs are empty; nothing else changes. |
| AllProjects.AllProjectsComponent.ToggleCreateForm | src/app/components/all-projects/all-projects.component.ts:1604-1610 | The forms become their toggled state and at most one form is shown. |
| AllProjects.AllProjectsComponent.UpdateNewProject | src/app/components/all-projects/all-projects.component.ts:1612-1614 | Only the named field of the request changes. |
| AllProjects.AllProjectsComponent.UpdateEditingProject | src/app/components/all-projects/all-projects.component.ts:1616-1618 | Only the named field of the edited record changes. |
| AllProjects.AllProjectsComponent.CreateProject | src/app/components/all-projects/all-projects.component.ts:1620-1654 | As written: nothing changes unless title, description, customer and company are filled in. Otherwise exactly one create command is sent, whatever the end-date input holds, and the forms end as the store's answer decides. |
| AllProjects.AllProjectsComponent.CreateProjectRequiringEndDate | src/app/components/all-projects/all-projects.component.ts:1620-1654 | Corrected: the end-date input is required too, so every create command sent carries a valid end date. |
| AllProjects.AllProjectsComponent.SelectProject | src/app/components/all-projects/all-projects.component.ts:1712-1720 | An archived project changes nothing. Any other project logs one navigation to its tasks. |
| AllProjects.AllProjectsComponent.EditProject | src/app/components/all-projects/all-projects.component.ts:1722-1736 | The forms become the edit form loaded with the project. |
| AllProjects.AllProjectsComponent.UpdateProject | src/app/components/all-projects/all-projects.component.ts:1738-1767 | Nothing changes without an edited id, a title and a description. Otherwise exactly one update command is sent, and the edit form closes only on success. |
| AllProjects.AllProjectsComponent.CancelEdit | src/app/components/all-projects/all-projects.component.ts:1769-1775 | Only the edit form changes: it is hidden and emptied. |
| AllProjects.AllProjectsComponent.DeleteProject | src/app/components/all-projects/all-projects.component.ts:1777-1785 | One delete command if confirmed, none otherwise; nothing else changes. |
| AllProjects.AllProjectsComponent.ArchiveProject | src/app/components/all-projects/all-projects.component.ts:1787-1795 | One archive command if confirmed, none otherwise. |
| AllProjects.AllProjectsComponent.UnarchiveProject | src/app/components/all-projects/all-projects.component.ts:1797-1805 | One unarchive command if confirmed, none otherwise. |
| ProjectList.AllProjectsForCompanySpec | src/app/components/project-list/project-list.component.ts:1176-1186 | Empty without a selected company, and empty when the selected id matches no company. Otherwise an order-preserving subsequence holding exactly the projects of that company. |
| ProjectList.DisplayedProjectsPartition | src/app/components/project-list/project-list.component.ts:1188-1195 | The archived and the active list are each in store order, and together they hold each of the company's projects exactly once. |
| ProjectList.ProjectCountIgnoresToggle | src/app/components/project-list/project-list.component.ts:1276-1278 | The per-status count over the company's projects is the archived count plus the active count, whatever the toggle shows. |
| ProjectList.BlankRequest | src/app/components/project-list/project-list.component.ts:1258-1270 | The reset request is empty with priority "medium", cost 0 and end date now, and takes the selected customer and company, each an empty id when none is selected. |
| ProjectList.WithOwners | src/app/components/project-list/project-list.component.ts:1197-1206 | With a customer and a company selected, the request gets both ids; otherwise it is unchanged. |
| ProjectList.ProjectListComponent.constructor | src/app/components/project-list/project-list.component.ts:1146-1167 | Active projects shown, both forms hidden, a blank request and nothing sent. |
| ProjectList.ProjectListComponent.NgOnInit | src/app/components/project-list/project-list.component.ts:1197-1206 | Only the request's owner ids change. |
| ProjectList.ProjectListComponent.ToggleArchived | src/app/components/project-list/project-list.component.ts:1212-1214 | The toggle is negated, so two calls restore it. The list before and the list after together are the company's projects. |
| ProjectList.ProjectListComponent.HasFilters | src/app/components/project-list/project-list.component.ts:1272-1274 | True exactly when archived projects are shown. When false, every active project is displayed. |
| ProjectList.ProjectListComponent.ResetForm | src/app/components/project-list/project-list.component.ts:1258-1270 | The request is reset with the navigation state's ids and both date inputs are empty. |
| ProjectList.ProjectListComponent.ToggleCreateForm | src/app/components/project-list/project-list.component.ts:1216-1222 | The forms become their toggled state: the edit form is hidden, and closing resets the request from the navigation state. |
| ProjectList.ProjectListComponent.UpdateNewProject | src/app/components/project-list/project-list.component.ts:1224-1226 | Only the named field of the request changes. |
| ProjectList.ProjectListComponent.UpdateEditingProject | src/app/components/project-list/project-list.component.ts:1228-1230 | Only the named field of the edited record changes. |
| ProjectList.ProjectListComponent.CreateProject | src/app/components/project-list/project-list.component.ts:1232-1256 | As written: nothing changes unless title, description, customer and company are filled in. Otherwise exactly one create command is sent, whatever the end-date input holds, and the forms end as the store's answer decides. |
| ProjectList.ProjectListComponent.CreateProjectRequiringEndDate | src/app/components/project-list/project-list.component.ts:1232-1256 | Corrected: the end-date input is required too, so every create command sent carries a valid end date. |
| ProjectList.ProjectListComponent.SelectProject | src/app/components/project-list/project-list.component.ts:1305-1313 | An archived project changes nothing. Any other project logs one navigation to its tasks. |
| ProjectList.ProjectListComponent.EditProject | src/app/components/project-list/project-list.component.ts:1315-1324 | The forms become the edit form loaded with the project. |
| ProjectList.ProjectListComponent.UpdateProject | src/app/components/project-list/project-list.component.ts:1326-1350 | Nothing changes without an edited id, a title and a description. Otherwise one update command is sent, and the edit form closes only on success. |
| ProjectList.ProjectListComponent.CancelEdit | src/app/components/project-list/project-list.component.ts:1352-1358 | Only the edit form changes: it is hidden, its record is `{}`, its id null and its date inputs empty. |
| ProjectList.ProjectListComponent.DeleteProject | src/app/components/project-list/project-list.component.ts:1360-1368 | One delete command if confirmed, none otherwise. |
| ProjectList.ProjectListComponent.ArchiveProject | src/app/components/project-list/project-list.component.ts:1370-1378 | One archive command if confirmed, none otherwise. |
| ProjectList.ProjectListComponent.UnarchiveProject | src/app/components/project-list/project-list.component.ts:1380-1388 | One unarchive command if confirmed, none otherwise. |
| DragDrop.DropTarget | src/app/components/task-list/task-list.component.ts:1104-1117 | A move is asked for exactly when something is dragged and the drop lands on a found position other than the dragged one; the move is to that position. |
| TaskList.StatusToggleUpdate | src/app/components/task-list/task-list.component.ts:1036-1054 | "finished" becomes "not-started" and anything else becomes "finished". Progress is 100 exactly when the new status is finished, else 0. The end date is now exactly when finished, else cleared. |
| TaskList.ToggleMakesConsistent | src/app/components/task-list/task-list.component.ts:1036-1054 | After a toggle the task's progress and end date agree with its status, and its id, project, title and assignee are unchanged. |
| TaskList.ToggleTwice | src/app/components/task-list/task-list.component.ts:1036-1054 | Two toggles restore a finished or not-started status. A consistent not-started task comes back unchanged. |
| TaskList.TaskCountByStatusSpec | src/app/components/task-list/task-list.component.ts:969-984 | Zero without a selected project. Otherwise the number of that project's tasks with the status. |
| TaskList.StatusLabelChangesOnlyKnown | src/app/components/task-list/task-list.component.ts:986-994 | The label differs from its input exactly for the four task statuses. |
| TaskList.AssignedUserName | src/app/components/task-list/task-list.component.ts:1155-1159 | "Unassigned" for a missing, empty or unknown id. Otherwise the name of the first user with that id. |
| TaskList.WithDates | src/app/components/task-list/task-list.component.ts:1010-1013 | The end date is parsed from its input. The start date is set only when one was entered. Every other field of the request is kept. |
| TaskList.ReadyToCreateSendsValidEndDate | src/app/components/task-list/task-list.component.ts:1009-1013 | A request that passes the check is sent with a valid end date. |
| TaskList.SelectCommand | src/app/components/task-list/task-list.component.ts:1024-1034 | It navigates exactly when customer, company and project are all selected, and then to the task's steps under those ids. |
| TaskList.TaskListComponent.constructor | src/app/components/task-list/task-list.component.ts:938-953 | The date inputs hold today, nothing is dragged (index -1), the request is blank and nothing is sent. |
| TaskList.TaskListComponent.ResetForm | src/app/components/task-list/task-list.component.ts:1140-1153 | The request is blank and both date inputs are empty; nothing else changes. |
| TaskList.TaskListComponent.ToggleCreateForm | src/app/components/task-list/task-list.component.ts:996-1006 | The form flips. Closing resets it; opening copies the selected project into the request. |
| TaskList.TaskListComponent.CreateTask | src/app/components/task-list/task-list.component.ts:1008-1022 | Nothing changes unless title, description and end date are filled in. Otherwise the dates are written into the request and one create command sends it. Success resets and hides the form. |
| TaskList.TaskListComponent.SelectTask | src/app/components/task-list/task-list.component.ts:1024-1034 | At most one navigation, as the selection decides; nothing else changes. |
| TaskList.TaskListComponent.ToggleTaskStatus | src/app/components/task-list/task-list.component.ts:1036-1054 | One update command carrying the toggle's update record. |
| TaskList.TaskListComponent.DeleteTask | src/app/components/task-list/task-list.component.ts:1061-1069 | One delete command if confirmed, none otherwise. |
| TaskList.TaskListComponent.OnDragStart | src/app/components/task-list/task-list.component.ts:1076-1089 | Records the dragged task and its position, keeping the drag state valid. |
| TaskList.TaskListComponent.OnDragEnd | src/app/components/task-list/task-list.component.ts:1091-1095 | The drag state goes back to null and -1. |
| TaskList.TaskListComponent.OnDrop | src/app/components/task-list/task-list.component.ts:1104-1117 | At most one reorder command, for the dragged task, exactly when the drop guard admits the target. |
| StepList.StepUpdateFor | src/app/components/step-list/step-list.component.ts:1098-1114 | The update carries the chosen status. The end date is now exactly when the status is success, failed or stopped, and is cleared otherwise. |
| StepList.UpdateMakesConsistent | src/app/components/step-list/step-list.component.ts:1098-1114 | After any status update the step has an end date exactly when its status ends it, and its other fields are unchanged. |
| StepList.StepCountByStatusSpec | src/app/components/step-list/step-list.component.ts:1041-1056 | Without a selected task there are no steps and every count is zero. Otherwise the count is the number of that task's steps with the status. |
| StepList.StatusLabelChangesOnlyKnown | src/app/components/step-list/step-list.component.ts:1058-1068 | The label differs from its input exactly for the six step statuses. |
| StepList.WithDates | src/app/components/step-list/step-list.component.ts:1084-1087 | The expected date is parsed from its input. The start date is set only when one was entered. Every other field of the request is kept. |
| StepList.ReadyToCreateSendsValidDate | src/app/components/step-list/step-list.component.ts:1083-1087 | A request that passes the check is sent with a valid expected date. |
| StepList.StepListComponent.constructor | src/app/components/step-list/step-list.component.ts:1001-1018 | The date inputs hold today, nothing is dragged, the request is blank and nothing is sent. |
| StepList.StepListComponent.ResetForm | src/app/components/step-list/step-list.component.ts:1191-1205 | The request is blank and both date inputs are empty. |
| StepList.StepListComponent.ToggleCreateForm | src/app/components/step-list/step-list.component.ts:1070-1080 | The form flips. Closing resets it; opening copies the selected task into the request. |
| StepList.StepListComponent.CreateStep | src/app/components/step-list/step-list.component.ts:1082-1096 | Nothing changes unless title, description, location and expected date are filled in. Otherwise the dates are written in and one create command is sent. Success resets and hides the form. |
| StepList.StepListComponent.UpdateStepStatus | src/app/components/step-list/step-list.component.ts:1098-1114 | One update command carrying the status rule's update record. |
| StepList.StepListComponent.DeleteStep | src/app/components/step-list/step-list.component.ts:1120-1127 | One delete command if confirmed, none otherwise. |
| StepList.StepListComponent.OnDragStart | src/app/components/step-list/step-list.component.ts:1130-1143 | Records the dragged step and its position. |
| StepList.StepListComponent.OnDragEnd | src/app/components/step-list/step-list.component.ts:1145-1149 | The drag state goes back to null and -1. |
| StepList.StepListComponent.OnDrop | src/app/components/step-list/step-list.component.ts:1158-1171 | At most one reorder command, for the dragged step, exactly when the drop guard admits the target. |
| CustomerList.BlankFilterShowsAll | src/app/components/customer-list/customer-list.component.ts:493-498 | An empty or whitespace-only filter shows every customer. |
| CustomerList.FilteredCustomersSpec | src/app/components/customer-list/customer-list.component.ts:493-498 | Otherwise the list is an order-preserving subsequence holding exactly the customers whose name contains the trimmed term, ignoring case. |
| CustomerList.PhoneIsOptional | src/app/components/customer-list/customer-list.component.ts:474-476 | The create check does not depend on the phone, and a blank form fails it. |
| CustomerList.CustomerListComponent.constructor | src/app/components/customer-list/customer-list.component.ts:454-460 | Form hidden, no filter, a blank request and nothing sent. |
| CustomerList.CustomerListComponent.ResetForm | src/app/components/customer-list/customer-list.component.ts:524-530 | The request's three fields are empty; nothing else changes. |
| CustomerList.CustomerListComponent.ToggleCreateForm | src/app/components/customer-list/customer-list.component.ts:467-472 | The form flips, and closing it resets the request. |
| CustomerList.CustomerListComponent.CreateCustomer | src/app/components/customer-list/customer-list.component.ts:474-487 | Nothing changes without a name and an email. Otherwise one create command is sent; success resets and hides the form, and failure keeps it. |
| CustomerList.CustomerListComponent.SelectCustomer | src/app/components/customer-list/customer-list.component.ts:489-491 | One navigation to the customer's companies. |
| CustomerList.CustomerListComponent.ClearFilter | src/app/components/customer-list/customer-list.component.ts:500-502 | Only the filter changes. Afterwards every customer is shown. |
| CustomerList.CustomerListComponent.DeleteCustomer | src/app/components/customer-list/customer-list.component.ts:510-518 | One delete command if confirmed, none otherwise. |
| CompanyActivityLog.FilteredCompanyActivitiesSpec | src/app/components/company-activity-log/company-activity-log.component.ts:473-479 | Every activity when no company is chosen. Otherwise an order-preserving subsequence holding exactly that company's activities. |
| CompanyActivityLog.DueDate | src/app/components/company-activity-log/company-activity-log.component.ts:500-502 | An empty input clears the due date; any other input sets it. |
| CompanyActivityLog.SaveCommand | src/app/components/company-activity-log/company-activity-log.component.ts:504-521 | No command exactly when company, title or description is missing. Otherwise an update of the edited activity while editing, and a create otherwise. |
| CompanyActivityLog.EditThenSaveUpdatesSameActivity | src/app/components/company-activity-log/company-activity-log.component.ts:487-521 | Opening a complete activity and saving it unchanged sends its own fields under its own id. |
| CompanyActivityLog.CompanyActivityLogComponent.constructor | src/app/components/company-activity-log/company-activity-log.component.ts:460-479 | Form hidden, nothing edited, no company chosen and none listed, default request ("note", "open"). |
| CompanyActivityLog.CompanyActivityLogComponent.Shown | src/app/components/company-activity-log/company-activity-log.component.ts:473-479 | As written: an order-preserving subsequence of the activities, holding only those of the company `filteredCompanyActivities` read at its last evaluation, or all of them when that was none. |
| CompanyActivityLog.CompanyActivityLogComponent.ShownForSelection | src/app/components/company-activity-log/company-activity-log.component.ts:473-479 | Corrected: every activity when no company is chosen. Otherwise an order-preserving subsequence holding exactly the chosen company's activities. |
| CompanyActivityLog.CompanyActivityLogComponent.SelectCompany | src/app/components/company-activity-log/company-activity-log.component.ts:462 | As written: only the chosen company changes, and the list shown stays what it was, because `applyFilters` (540-542) is empty and the field is not a signal. |
| CompanyActivityLog.CompanyActivityLogComponent.ActivitiesChanged | src/app/components/company-activity-log/company-activity-log.component.ts:473-479 | When the store's activities change, the list is evaluated again and then shows the chosen company's activities. |
| CompanyActivityLog.CompanyActivityLogComponent.SelectCompanyRefiltering | src/app/components/company-activity-log/company-activity-log.component.ts:540-542 | Corrected: choosing a company re-filters the list at once, so it shows the chosen company's activities. |
| CompanyActivityLog.StaleListAfterChoosingCompany | src/app/components/company-activity-log/company-activity-log.component.ts:462-479 | As written: after the first render with no company, choosing "co1" still lists an activity of "co2". |
| CompanyActivityLog.RefreshedListAfterChoosingCompany | src/app/components/company-activity-log/company-activity-log.component.ts:540-542 | Corrected: choosing "co1" lists none of another company's activities. |
| CompanyActivityLog.CompanyActivityLogComponent.ResetForm | src/app/components/company-activity-log/company-activity-log.component.ts:549-558 | The request is back to the defaults. |
| CompanyActivityLog.CompanyActivityLogComponent.OpenCreateForm | src/app/components/company-activity-log/company-activity-log.component.ts:481-485 | Nothing edited, default request, form shown. |
| CompanyActivityLog.CompanyActivityLogComponent.EditActivity | src/app/components/company-activity-log/company-activity-log.component.ts:487-498 | The activity is edited, its six fields copied into the request, and the form shown. |
| CompanyActivityLog.CompanyActivityLogComponent.OnDueDateChange | src/app/components/company-activity-log/company-activity-log.component.ts:500-502 | Only the request's due date changes. |
| CompanyActivityLog.CompanyActivityLogComponent.CloseForm | src/app/components/company-activity-log/company-activity-log.component.ts:534-538 | Hidden, nothing edited, default request. |
| CompanyActivityLog.CompanyActivityLogComponent.SaveActivity | src/app/components/company-activity-log/company-activity-log.component.ts:504-521 | Nothing changes when no command is due. Otherwise that one command is sent, and the form closes only on success. An update is only ever sent from the open form. |
| CompanyActivityLog.CompanyActivityLogComponent.DeleteActivity | src/app/components/company-activity-log/company-activity-log.component.ts:523-532 | One delete command if confirmed, none otherwise. |
| AuthorityList.PermissionLabel | src/app/components/authority-list/authority-list.component.ts:640-643 | The caption of the first permission with the key; an unknown key is its own label. |
| AuthorityList.CheckAppends | src/app/components/authority-list/authority-list.component.ts:613-614 | Checking appends the key at the end and keeps the earlier entries in order. |
| AuthorityList.UncheckRemovesAll | src/app/components/authority-list/authority-list.component.ts:615-616 | Unchecking removes every occurrence of the key and keeps the other entries in order. |
| AuthorityList.CheckThenUncheck | src/app/components/authority-list/authority-list.component.ts:611-618 | Checking and then unchecking equals unchecking, so the key ends absent. |
| AuthorityList.UncheckIdempotent | src/app/components/authority-list/authority-list.component.ts:615-616 | Unchecking twice is unchecking once. |
| AuthorityList.OptionalAuthorityFields | src/app/components/authority-list/authority-list.component.ts:600 | Only name, title and email matter to the create check, and a blank form fails it. |
| AuthorityList.StatusToggle | src/app/components/authority-list/authority-list.component.ts:620-625 | The update carries the authority's id and the negation of its `isActive`. |
| AuthorityList.AuthorityListComponent.constructor | src/app/components/authority-list/authority-list.component.ts:566-575 | Form hidden, a coordinator with no permissions, nothing sent. |
| AuthorityList.AuthorityListComponent.ResetForm | src/app/components/authority-list/authority-list.component.ts:645-655 | The request is back to a coordinator with no permissions. |
| AuthorityList.AuthorityListComponent.ToggleCreateForm | src/app/components/authority-list/authority-list.component.ts:592-597 | The form flips, and closing it resets the request. |
| AuthorityList.AuthorityListComponent.CreateAuthority | src/app/components/authority-list/authority-list.component.ts:599-609 | Nothing changes without name, title and email. Otherwise one create command is sent; success resets and hides the form. |
| AuthorityList.AuthorityListComponent.TogglePermission | src/app/components/authority-list/authority-list.component.ts:611-618 | Only the request's permission list changes, as the toggle rule says. |
| AuthorityList.AuthorityListComponent.ToggleAuthorityStatus | src/app/components/authority-list/authority-list.component.ts:620-625 | One update command carrying the flipped status. |
| AuthorityList.AuthorityListComponent.DeleteAuthority | src/app/components/authority-list/authority-list.component.ts:631-638 | One delete command if confirmed, none otherwise. |
| CompanyList.OnlyThreeFieldsRequired | src/app/components/company-list/company-list.component.ts:620-625 | Only name, email and customer matter to the create check, and a blank form fails it. |
| CompanyList.StatusToggle | src/app/components/company-list/company-list.component.ts:643-651 | The update carries the company's id and the negation of its `isActive`. |
| CompanyList.CompanyListComponent.constructor | src/app/components/company-list/company-list.component.ts:594-611 | Form hidden, all fifteen fields empty, nothing sent. |
| CompanyList.CompanyListComponent.ResetForm | src/app/components/company-list/company-list.component.ts:690-708 | All fifteen fields are empty; nothing else changes. |
| CompanyList.CompanyListComponent.ToggleCreateForm | src/app/components/company-list/company-list.component.ts:613-618 | The form flips, and closing it resets the request. |
| CompanyList.CompanyListComponent.CreateCompany | src/app/components/company-list/company-list.component.ts:620-637 | Nothing changes without name, email and customer. Otherwise one create command is sent; success resets and hides the form, and failure keeps it. |
| CompanyList.CompanyListComponent.SelectCompany | src/app/components/company-list/company-list.component.ts:639-641 | One navigation to the company's projects under its customer. |
| CompanyList.CompanyListComponent.ToggleCompanyStatus | src/app/components/company-list/company-list.component.ts:643-651 | One update command carrying the flipped status. |
| CompanyList.CompanyListComponent.DeleteCompany | src/app/components/company-list/company-list.component.ts:658-670 | One delete command if confirmed, none otherwise. |
| NamedForm.SaveCommand | src/app/components/industry-list/industry-list.component.ts:335-352 | No command exactly when the name is empty. Otherwise an update of the edited record while editing, and a create otherwise. The activity list (activity-list.component.ts:521-538) saves by the same rule. |
| NamedForm.EditThenSaveUpdatesSameRecord | src/app/components/industry-list/industry-list.component.ts:326-352 | Opening a named record and saving it unchanged sends it back under its own id; a blank form is never saved. |
| IndustryList.IndustryListComponent.constructor | src/app/components/industry-list/industry-list.component.ts:312-318 | Form hidden, nothing edited, empty fields, nothing sent. |
| IndustryList.IndustryListComponent.ResetForm | src/app/components/industry-list/industry-list.component.ts:371-376 | Name and description are empty. |
| IndustryList.IndustryListComponent.ToggleCreateForm | src/app/components/industry-list/industry-list.component.ts:320-324 | Editing is cleared, the fields emptied and visibility flipped, so an edit in progress closes the form. |
| IndustryList.IndustryListComponent.EditIndustry | src/app/components/industry-list/industry-list.component.ts:326-333 | The industry is edited, its name and description copied, and the form shown. |
| IndustryList.IndustryListComponent.CancelForm | src/app/components/industry-list/industry-list.component.ts:365-369 | Hidden, nothing edited, empty fields. |
| IndustryList.IndustryListComponent.SaveIndustry | src/app/components/industry-list/industry-list.component.ts:335-352 | Nothing changes without a name. Otherwise the save command is sent; success cancels the form, and failure leaves it as it was. |
| IndustryList.IndustryListComponent.DeleteIndustry | src/app/components/industry-list/industry-list.component.ts:354-363 | One delete command if confirmed, none otherwise. |
| ActivityList.ActivityListComponent.constructor | src/app/components/activity-list/activity-list.component.ts:497-504 | Form hidden, nothing edited, empty fields, nothing sent. |
| ActivityList.ActivityListComponent.ResetForm | src/app/components/activity-list/activity-list.component.ts:557-562 | Name and description are empty. |
| ActivityList.ActivityListComponent.OpenCreateForm | src/app/components/activity-list/activity-list.component.ts:506-510 | Nothing edited, empty fields, form shown. |
| ActivityList.ActivityListComponent.EditActivity | src/app/components/activity-list/activity-list.component.ts:512-519 | The activity is edited, its name and description copied, and the form shown. |
| ActivityList.ActivityListComponent.CloseForm | src/app/components/activity-list/activity-list.component.ts:551-555 | Hidden, nothing edited, empty fields. |
| ActivityList.ActivityListComponent.SaveActivity | src/app/components/activity-list/activity-list.component.ts:521-538 | Nothing changes without a name. Otherwise the save command is sent; success closes the form, and failure leaves it as it was. An update is only ever sent from the open form. |
| ActivityList.ActivityListComponent.DeleteActivity | src/app/components/activity-list/activity-list.component.ts:540-549 | One delete command if confirmed, none otherwise. |
| LocationList.OptionalLocationFields | src/app/components/location-list/location-list.component.ts:444 | State, postal code and description do not matter to the create check, and a blank form fails it. |
| LocationList.LocationListComponent.constructor | src/app/components/location-list/location-list.component.ts:425-434 | Form hidden, all seven fields empty, nothing sent. |
| LocationList.LocationListComponent.ResetForm | src/app/components/location-list/location-list.component.ts:468-478 | All seven fields are empty; nothing else changes. |
| LocationList.LocationListComponent.ToggleCreateForm | src/app/components/location-list/location-list.component.ts:436-441 | The form flips, and closing it resets the request. |
| LocationList.LocationListComponent.CreateLocation | src/app/components/location-list/location-list.component.ts:443-453 | Nothing changes without name, address, city and country. Otherwise one create command is sent; success resets and hides the form, and failure keeps it. |
| LocationList.LocationListComponent.DeleteLocation | src/app/components/location-list/location-list.component.ts:459-466 | One delete command if confirmed, none otherwise. |

## Left out

- Templates, styles and `viewMode`. The HTML, the CSS, the card/table switch and badge or class choices only render; they are not modelled.
- The data, navigation and auth services are not part of this model. The components read their collections as snapshots (sequences) and log the calls they make on them. What those calls do is not modelled: persistence, cascading deletes, and the renumbering behind `updateTaskOrder` and `updateStepOrder`.
- `currentTasks` and `currentSteps` read the store's per-parent lists, and `currentCustomers` reads every customer; each is taken as an input sequence. `currentCustomer`, `currentCompany` and `currentProject` are modelled only as the by-id lookup.
- Resolving the drop target from the DOM (`closest`, the sibling index), `dataTransfer` and `classList`. The resolved position arrives as the `target` input; it is `None` when the drop is not over an item.
- Promises, `alert`, `console` and `window.confirm`. Each store call's outcome is the `ok` input and each confirmation is the `confirmed` input. A command is logged when it is issued, and its effect on the form is applied as if the answer arrived before the next event; interleaved answers are not modelled.
- Dates are opaque. `At(day)` is a parsed date input or a clock reading, and `Invalid` is `new Date("")`. `DayText` of an invalid date is the empty string, whereas `toISOString` would throw. The only path that meets a stored invalid date is `editProject` (ProjectForm.OpenedForEdit, used by both `EditProject` methods): there the model stops writing the date inputs where `toISOString` would throw and keeps their previous values, but the exception itself (it leaves the click handler and reaches Angular's error handler) is not modelled. The clock reading `now` is taken to be valid.
- Text.Lower: does not fold non-ASCII letters, as JavaScript's `toLowerCase` does; the filters' properties are stated relative to this ASCII lower-casing.
- NameOrder.Before: compares Unicode scalar values, while `Array.prototype.sort` compares UTF-16 code units. The two orders differ only when a character outside the Basic Multilingual Plane meets one between U+E000 and U+FFFF.
- The expected cost of a project, task or step is an integer. The source binds it to an `<input type="number">`, whose value is a JavaScript number (possibly fractional) or `null` once the input is emptied, and the `required` attribute does not block the submit under `novalidate`. Fractional costs and the `null` of an emptied cost input are not represented; no proved property depends on the cost.
- `updateEditingProject` takes any string as the field name; the model takes one of the eleven project field names (`ProjectKey`). `updateNewProject` is modelled for the six fields the form edits.
- The edit handlers of tasks, steps, customers, companies, authorities and locations only write to the console, so they are not modelled. Neither are the count helpers that only read the store (`getTaskCount`, `getStepCount`, `getCustomerCount`, `getProjectCount`) or the `navigateBack`/`navigateTo*` helpers.
- `setViewMode` and Angular change detection and signals are not modelled. A signal's value is a plain field. The one place where tracking matters is the activity log's `filteredCompanyActivities`, which reads the plain field `selectedCompanyId`: its last evaluation is the field `listedCompanyId`, and a change of the store's activities is the `ActivitiesChanged` event, since what the store does after a create, update or delete is not modelled.

## Findings

| source | as written | input that shows it | evidently intended | confidence | as-written member | corrected member |
|---|---|---|---|---|---|---|
| src/app/components/all-projects/all-projects.component.ts:1675-1681 | `hasFilters` checks the customer, project and status filters but not the company filter | company filter "b" and no other filter, over one project of company "A": the list is empty while `hasFilters` is false, so the view says "No projects yet." | every filter input counts, as `clearFilters` clears all four | high (not executed) | AllProjects.EmptyStateIgnoresCompanyFilter | AllProjects.EmptyWithoutFiltersMeansNoProjects |
| src/app/components/all-projects/all-projects.component.ts:1623-1631 | `createProject` checks title, description, customer and company but not the end-date input, which the form marks `required`; the form has `novalidate` through `FormsModule`, so nothing else blocks the submit | request ("Roof", "Replace the roof", customer "cu1", company "co1") with an empty end-date input: the check passes and the store gets `new Date("")`, an invalid date | the end-date input is required too, as the task and step forms check theirs | medium (not executed) | ProjectForm.CreateCheckAdmitsInvalidEndDate | ProjectForm.ReadyToCreateSendsValidRequest |
| src/app/components/project-list/project-list.component.ts:1235-1238 | the project list's `createProject` makes the same check: title, description, customer and company but not the end-date input, which the form marks `required`; the form has `novalidate` through `FormsModule`, so nothing else blocks the submit | request ("Roof", "Replace the roof", customer "cu1", company "co1") with an empty end-date input: the check passes and the store gets `new Date("")`, an invalid date | the end-date input is required too, as the task and step forms check theirs | medium (not executed) | ProjectForm.CreateCheckAdmitsInvalidEndDate | ProjectForm.ReadyToCreateSendsValidRequest |
| src/app/components/company-activity-log/company-activity-log.component.ts:473-479 | `filteredCompanyActivities` is a `computed` that reads `selectedCompanyId`, a plain field rather than a signal, and the company select's `applyFilters` (540-542) is empty; so choosing a company does not re-filter the list until the store's activities change | one activity of company "co2"; the list is first shown with no company chosen, then "co1" is chosen: the list still shows the "co2" activity | choosing a company re-filters the list, as the comment in `applyFilters` says | high (not executed) | CompanyActivityLog.StaleListAfterChoosingCompany | CompanyActivityLog.RefreshedListAfterChoosingCompany |
