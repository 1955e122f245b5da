// The location list: the location create form.

module LocationList {
  import opened Base

  /** `CreateLocationRequest`. */
  datatype LocationRequest = LocationRequest(
    name: string,
    address: string,
    city: string,
    state: string,
    country: string,
    postalCode: string,
    description: string)

  const BlankLocation := LocationRequest("", "", "", "", "", "", "")

  /** The check `createLocation` makes: name, address, city and country. */
  predicate ReadyToCreate(r: LocationRequest) {
    Present(r.name) && Present(r.address) && Present(r.city) && Present(r.country)
  }

  /** State, postal code and description are optional, and a blank form is
      not sent. */
  lemma OptionalLocationFields(r: LocationRequest, state: string, postalCode: string, description: string)
    ensures ReadyToCreate(r.(state := state, postalCode := postalCode, description := description)) <==> ReadyToCreate(r)
    ensures !ReadyToCreate(BlankLocation)
  {
  }

  datatype LocationCommand =
    | CreateLocation(request: LocationRequest)
    | DeleteLocation(id: string)

  /** Every field of the component, as one value. */
  datatype Snapshot = Snapshot(showCreateForm: bool, newLocation: LocationRequest, log: seq<LocationCommand>)

  class LocationListComponent {
    var showCreateForm: bool
    var newLocation: LocationRequest
    /** Commands issued to the data service, oldest first. */
    var log: seq<LocationCommand>

    function View(): Snapshot
      reads this
    {
      Snapshot(showCreateForm, newLocation, log)
    }

    constructor ()
      ensures View() == Snapshot(false, BlankLocation, [])
    {
      showCreateForm, newLocation, log := false, BlankLocation, [];
    }

    /** `resetForm`: all seven fields emptied. */
    method ResetForm()
      modifies this
      ensures View() == old(View()).(newLocation := BlankLocation)
    {
      newLocation := BlankLocation;
    }

    /** `toggleCreateForm`: closing resets the request. */
    method ToggleCreateForm()
      modifies this
      ensures showCreateForm == !old(showCreateForm)
      ensures View() == old(View()).(showCreateForm := showCreateForm,
                                     newLocation := if showCreateForm then old(newLocation) else BlankLocation)
    {
      showCreateForm := !showCreateForm;
      if !showCreateForm {
        ResetForm();
      }
    }

    /** `createLocation`: nothing without name, address, city and country;
        otherwise one create command, and on success the form is reset and
        hidden, while a failure leaves it as it was. */
    method CreateLocation(ok: bool)
      modifies this
      ensures !ReadyToCreate(old(newLocation)) ==> View() == old(View())
      ensures ReadyToCreate(old(newLocation)) && ok ==>
        View() == old(View()).(showCreateForm := false, newLocation := BlankLocation,
                               log := old(log) + [LocationCommand.CreateLocation(old(newLocation))])
      ensures ReadyToCreate(old(newLocation)) && !ok ==>
        View() == old(View()).(log := old(log) + [LocationCommand.CreateLocation(old(newLocation))])
    {
      if ReadyToCreate(newLocation) {
        log := log + [LocationCommand.CreateLocation(newLocation)];
        if ok {
          ResetForm();
          showCreateForm := false;
        }
      }
    }

    /** `deleteLocation`: one delete command when the user confirms. */
    method DeleteLocation(id: string, confirmed: bool)
      modifies this
      ensures confirmed ==> View() == old(View()).(log := old(log) + [LocationCommand.DeleteLocation(id)])
      ensures !confirmed ==> View() == old(View())
    {
      if confirmed {
        log := log + [LocationCommand.DeleteLocation(id)];
      }
    }
  }
}
