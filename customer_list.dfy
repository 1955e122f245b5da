// The customer list: the trimmed, case-insensitive name filter and the
// customer create form.

module CustomerList {
  import opened Base
  import opened Text
  import opened Entities

  function NameTest(term: string): Customer -> bool {
    (c: Customer) => Contains(Lower(c.name), term)
  }

  /** The search term: the filter input trimmed, then lower-cased. */
  function SearchTerm(filterName: string): string {
    Lower(Trim(filterName))
  }

  /** `filteredCustomers`: every customer for a blank term, otherwise those
      whose lower-cased name contains the term. */
  function FilteredCustomers(customers: seq<Customer>, filterName: string): seq<Customer> {
    var term := SearchTerm(filterName);
    if term == "" then customers else Filter(customers, NameTest(term))
  }

  /** An empty or whitespace-only filter shows every customer. */
  lemma BlankFilterShowsAll(customers: seq<Customer>, filterName: string)
    requires forall i :: 0 <= i < |filterName| ==> IsSpace(filterName[i])
    ensures FilteredCustomers(customers, filterName) == customers
  {
    TrimEmptyIff(filterName);
  }

  /** Otherwise the result keeps the store order and holds exactly the
      customers whose lower-cased name contains the trimmed, lower-cased
      filter. */
  lemma FilteredCustomersSpec(customers: seq<Customer>, filterName: string)
    requires exists i :: 0 <= i < |filterName| && !IsSpace(filterName[i])
    ensures var r := FilteredCustomers(customers, filterName);
            && IsSubsequence(r, customers)
            && (forall i :: 0 <= i < |r| ==> Contains(Lower(r[i].name), Lower(Trim(filterName))))
            && (forall i :: 0 <= i < |customers| && Contains(Lower(customers[i].name), Lower(Trim(filterName))) ==> customers[i] in r)
  {
    TrimEmptyIff(filterName);
    assert Trim(filterName) != "";
    assert SearchTerm(filterName) != "";
    FilterIsSubsequence(customers, NameTest(SearchTerm(filterName)));
  }

  /** `CreateCustomerRequest`. */
  datatype CustomerRequest = CustomerRequest(name: string, email: string, phone: string)

  const BlankCustomer := CustomerRequest("", "", "")

  /** The check `createCustomer` makes: a name and an email; the phone is optional. */
  predicate ReadyToCreate(r: CustomerRequest) {
    Present(r.name) && Present(r.email)
  }

  lemma PhoneIsOptional(r: CustomerRequest, phone: string)
    ensures ReadyToCreate(r.(phone := phone)) <==> ReadyToCreate(r)
    ensures !ReadyToCreate(BlankCustomer)
  {
  }

  datatype CustomerCommand =
    | CreateCustomer(request: CustomerRequest)
    | DeleteCustomer(id: string)
    | NavigateToCompanies(customerId: string)

  /** Every field of the component, as one value. */
  datatype Snapshot = Snapshot(showCreateForm: bool, filterName: string, newCustomer: CustomerRequest, log: seq<CustomerCommand>)

  class CustomerListComponent {
    var showCreateForm: bool
    var filterName: string
    var newCustomer: CustomerRequest
    /** Commands issued to the data and navigation services, oldest first. */
    var log: seq<CustomerCommand>

    function View(): Snapshot
      reads this
    {
      Snapshot(showCreateForm, filterName, newCustomer, log)
    }

    constructor ()
      ensures View() == Snapshot(false, "", BlankCustomer, [])
    {
      showCreateForm, filterName, newCustomer, log := false, "", BlankCustomer, [];
    }

    /** The list shown for the current filter input. */
    function Shown(customers: seq<Customer>): seq<Customer>
      reads this
    {
      FilteredCustomers(customers, filterName)
    }

    /** `resetForm`. */
    method ResetForm()
      modifies this
      ensures View() == old(View()).(newCustomer := BlankCustomer)
    {
      newCustomer := BlankCustomer;
    }

    /** `toggleCreateForm`: closing resets the request. */
    method ToggleCreateForm()
      modifies this
      ensures showCreateForm == !old(showCreateForm)
      ensures View() == old(View()).(showCreateForm := showCreateForm,
                                     newCustomer := if showCreateForm then old(newCustomer) else BlankCustomer)
    {
      showCreateForm := !showCreateForm;
      if !showCreateForm {
        ResetForm();
      }
    }

    /** `createCustomer`: nothing without a name and an email; otherwise one
        create command, and on success the form is reset and hidden, while a
        failure leaves it as it was. */
    method CreateCustomer(ok: bool)
      modifies this
      ensures !ReadyToCreate(old(newCustomer)) ==> View() == old(View())
      ensures ReadyToCreate(old(newCustomer)) && ok ==>
        View() == old(View()).(showCreateForm := false, newCustomer := BlankCustomer,
                               log := old(log) + [CustomerCommand.CreateCustomer(old(newCustomer))])
      ensures ReadyToCreate(old(newCustomer)) && !ok ==>
        View() == old(View()).(log := old(log) + [CustomerCommand.CreateCustomer(old(newCustomer))])
    {
      if ReadyToCreate(newCustomer) {
        log := log + [CustomerCommand.CreateCustomer(newCustomer)];
        if ok {
          ResetForm();
          showCreateForm := false;
        }
      }
    }

    /** `selectCustomer`: opens the customer's companies. */
    method SelectCustomer(c: Customer)
      modifies this
      ensures View() == old(View()).(log := old(log) + [NavigateToCompanies(c.id)])
    {
      log := log + [NavigateToCompanies(c.id)];
    }

    /** `clearFilter`: afterwards every customer is shown. */
    method ClearFilter()
      modifies this
      ensures View() == old(View()).(filterName := "")
      ensures forall customers :: Shown(customers) == customers
    {
      filterName := "";
    }

    /** `deleteCustomer`: one delete command when the user confirms. */
    method DeleteCustomer(id: string, confirmed: bool)
      modifies this
      ensures confirmed ==> View() == old(View()).(log := old(log) + [CustomerCommand.DeleteCustomer(id)])
      ensures !confirmed ==> View() == old(View())
    {
      if confirmed {
        log := log + [CustomerCommand.DeleteCustomer(id)];
      }
    }
  }
}
