// The company list: the company create form, the activate/deactivate toggle
// and navigation into a company's projects.

module CompanyList {
  import opened Base
  import opened Entities

  /** `CreateCompanyRequest`: fifteen text fields. */
  datatype CompanyRequest = CompanyRequest(
    name: string,
    email: string,
    phone: string,
    mobile: string,
    mainAddress: string,
    website: string,
    activityId: string,
    description: string,
    customerId: string,
    taxRegistrationNumber: string,
    taxAuthority: string,
    taxCardData: string,
    commercialRegisterData: string,
    importCardData: string,
    exportCardData: string)

  const BlankCompany := CompanyRequest("", "", "", "", "", "", "", "", "", "", "", "", "", "", "")

  /** The check `createCompany` makes: name, email and customer. */
  predicate ReadyToCreate(r: CompanyRequest) {
    Present(r.name) && Present(r.email) && Present(r.customerId)
  }

  /** Only name, email and customer matter to the check; a blank form is not
      sent. */
  lemma OnlyThreeFieldsRequired(r: CompanyRequest, s: CompanyRequest)
    requires r.name == s.name && r.email == s.email && r.customerId == s.customerId
    ensures ReadyToCreate(r) <==> ReadyToCreate(s)
    ensures !ReadyToCreate(BlankCompany)
  {
  }

  datatype CompanyCommand =
    | CreateCompany(request: CompanyRequest)
    | UpdateCompany(id: string, isActive: bool)
    | DeleteCompany(id: string)
    | NavigateToProjects(customerId: string, companyId: string)

  /** `toggleCompanyStatus`: sends only the flipped `isActive`. */
  function StatusToggle(c: Company): (cmd: CompanyCommand)
    ensures cmd.UpdateCompany? && cmd.id == c.id && cmd.isActive != c.isActive
  {
    UpdateCompany(c.id, !c.isActive)
  }

  /** Every field of the component, as one value. */
  datatype Snapshot = Snapshot(showCreateForm: bool, newCompany: CompanyRequest, log: seq<CompanyCommand>)

  class CompanyListComponent {
    var showCreateForm: bool
    var newCompany: CompanyRequest
    /** Commands issued to the data and navigation services, oldest first. */
    var log: seq<CompanyCommand>

    function View(): Snapshot
      reads this
    {
      Snapshot(showCreateForm, newCompany, log)
    }

    constructor ()
      ensures View() == Snapshot(false, BlankCompany, [])
    {
      showCreateForm, newCompany, log := false, BlankCompany, [];
    }

    /** `resetForm`: all fifteen fields emptied. */
    method ResetForm()
      modifies this
      ensures View() == old(View()).(newCompany := BlankCompany)
    {
      newCompany := BlankCompany;
    }

    /** `toggleCreateForm`: closing resets the request. */
    method ToggleCreateForm()
      modifies this
      ensures showCreateForm == !old(showCreateForm)
      ensures View() == old(View()).(showCreateForm := showCreateForm,
                                     newCompany := if showCreateForm then old(newCompany) else BlankCompany)
    {
      showCreateForm := !showCreateForm;
      if !showCreateForm {
        ResetForm();
      }
    }

    /** `createCompany`: nothing without name, email and customer; otherwise
        one create command, and on success the form is reset and hidden,
        while a failure leaves it as it was. */
    method CreateCompany(ok: bool)
      modifies this
      ensures !ReadyToCreate(old(newCompany)) ==> View() == old(View())
      ensures ReadyToCreate(old(newCompany)) && ok ==>
        View() == old(View()).(showCreateForm := false, newCompany := BlankCompany,
                               log := old(log) + [CompanyCommand.CreateCompany(old(newCompany))])
      ensures ReadyToCreate(old(newCompany)) && !ok ==>
        View() == old(View()).(log := old(log) + [CompanyCommand.CreateCompany(old(newCompany))])
    {
      if ReadyToCreate(newCompany) {
        log := log + [CompanyCommand.CreateCompany(newCompany)];
        if ok {
          ResetForm();
          showCreateForm := false;
        }
      }
    }

    /** `selectCompany`: opens the company's projects. */
    method SelectCompany(c: Company)
      modifies this
      ensures View() == old(View()).(log := old(log) + [NavigateToProjects(c.customerId, c.id)])
    {
      log := log + [NavigateToProjects(c.customerId, c.id)];
    }

    method ToggleCompanyStatus(c: Company)
      modifies this
      ensures View() == old(View()).(log := old(log) + [StatusToggle(c)])
    {
      log := log + [StatusToggle(c)];
    }

    /** `deleteCompany`: one delete command when the user confirms. */
    method DeleteCompany(id: string, confirmed: bool)
      modifies this
      ensures confirmed ==> View() == old(View()).(log := old(log) + [CompanyCommand.DeleteCompany(id)])
      ensures !confirmed ==> View() == old(View())
    {
      if confirmed {
        log := log + [CompanyCommand.DeleteCompany(id)];
      }
    }
  }
}
