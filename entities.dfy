// The stored entities, with the fields the list components read.

module Entities {
  import opened Base

  datatype Customer = Customer(id: string, name: string, email: string, phone: string)

  datatype Company = Company(id: string, name: string, customerId: string, isActive: bool)

  datatype Project = Project(
    id: string,
    title: string,
    description: string,
    status: string,
    priority: string,
    customerId: string,
    companyId: string,
    isArchived: bool,
    expectedCost: int,
    startDate: Option<Date>,
    expectedEndDate: Date)

  datatype Task = Task(
    id: string,
    projectId: string,
    title: string,
    status: string,
    progress: int,
    assignedUserId: Option<string>,
    actualEndDate: Option<Date>)

  datatype Step = Step(id: string, taskId: string, title: string, status: string, actualEndDate: Option<Date>)

  datatype User = User(id: string, name: string)

  datatype CompanyActivity = CompanyActivity(
    id: string,
    companyId: string,
    title: string,
    description: string,
    activityType: string,
    status: string,
    dueDate: Option<Date>)

  /** A business activity (line of business) a company can be tagged with. */
  datatype Activity = Activity(id: string, name: string, description: string)

  datatype Industry = Industry(id: string, name: string, description: string)

  datatype Authority = Authority(id: string, name: string, isActive: bool)
}
