// The reads the components make of the data and navigation services. The
// services themselves are outside this model; their collections are taken as
// snapshots (sequences) and their by-id and by-parent reads as the first
// match and the in-order selection over those snapshots.

module Store {
  import opened Base
  import opened Entities

  /** The selected id chain of the navigation service. */
  datatype NavState = NavState(
    selectedCustomerId: Option<string>,
    selectedCompanyId: Option<string>,
    selectedProjectId: Option<string>,
    selectedTaskId: Option<string>)

  function CustomerById(customers: seq<Customer>, id: string): Option<Customer> {
    FindFirst(customers, (c: Customer) => c.id == id)
  }

  function CompanyById(companies: seq<Company>, id: string): Option<Company> {
    FindFirst(companies, (c: Company) => c.id == id)
  }

  function ActivityById(activities: seq<Activity>, id: string): Option<Activity> {
    FindFirst(activities, (a: Activity) => a.id == id)
  }

  function UserById(users: seq<User>, id: string): Option<User> {
    FindFirst(users, (u: User) => u.id == id)
  }

  function CompaniesByCustomer(companies: seq<Company>, customerId: string): seq<Company> {
    Filter(companies, (c: Company) => c.customerId == customerId)
  }

  function ProjectsByCompany(projects: seq<Project>, companyId: string): seq<Project> {
    Filter(projects, (p: Project) => p.companyId == companyId)
  }

  function TasksByProject(tasks: seq<Task>, projectId: string): seq<Task> {
    Filter(tasks, (t: Task) => t.projectId == projectId)
  }

  function StepsByTask(steps: seq<Step>, taskId: string): seq<Step> {
    Filter(steps, (s: Step) => s.taskId == taskId)
  }

  /** `getCustomerName`: the stored name, or "Unknown Customer" for an id no
      customer has. */
  function CustomerName(customers: seq<Customer>, id: string): (name: string)
    ensures (forall i :: 0 <= i < |customers| ==> customers[i].id != id) ==> name == "Unknown Customer"
    ensures (exists i :: 0 <= i < |customers| && customers[i].id == id) ==>
      exists i :: 0 <= i < |customers| && customers[i].id == id && name == customers[i].name
                  && forall j :: 0 <= j < i ==> customers[j].id != id
  {
    match CustomerById(customers, id)
    case Some(c) => c.name
    case None => "Unknown Customer"
  }

  /** `getCompanyName`: the stored name, or "Unknown Company". */
  function CompanyName(companies: seq<Company>, id: string): (name: string)
    ensures (forall i :: 0 <= i < |companies| ==> companies[i].id != id) ==> name == "Unknown Company"
    ensures (exists i :: 0 <= i < |companies| && companies[i].id == id) ==>
      exists i :: 0 <= i < |companies| && companies[i].id == id && name == companies[i].name
                  && forall j :: 0 <= j < i ==> companies[j].id != id
  {
    match CompanyById(companies, id)
    case Some(c) => c.name
    case None => "Unknown Company"
  }

  /** `getActivityName`: the stored name, or "Unknown Activity". */
  function ActivityName(activities: seq<Activity>, id: string): (name: string)
    ensures (forall i :: 0 <= i < |activities| ==> activities[i].id != id) ==> name == "Unknown Activity"
    ensures (exists i :: 0 <= i < |activities| && activities[i].id == id) ==>
      exists i :: 0 <= i < |activities| && activities[i].id == id && name == activities[i].name
                  && forall j :: 0 <= j < i ==> activities[j].id != id
  {
    match ActivityById(activities, id)
    case Some(a) => a.name
    case None => "Unknown Activity"
  }
}
