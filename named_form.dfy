// The name-and-description form the industry and activity lists share: one
// form that creates a new record, or edits the one chosen, and saves it with
// a create or an update of the data service.

module NamedForm {
  import opened Base

  /** `CreateIndustryRequest` / `CreateActivityRequest`. */
  datatype NamedRequest = NamedRequest(name: string, description: string)

  const BlankNamed := NamedRequest("", "")

  /** The calls the two lists make on the data service for their own entity. */
  datatype NamedCommand =
    | Create(request: NamedRequest)
    | Update(id: string, request: NamedRequest)
    | Delete(id: string)

  /** The command a save sends: none without a name, an update of the record
      being edited, or else a create. */
  function SaveCommand(editingId: Option<string>, r: NamedRequest): (cmd: Option<NamedCommand>)
    ensures cmd.None? <==> r.name == ""
    ensures cmd.Some? && editingId.Some? ==> cmd.value == Update(editingId.value, r)
    ensures cmd.Some? && editingId.None? ==> cmd.value == Create(r)
  {
    if !Present(r.name) then None
    else if editingId.Some? then Some(Update(editingId.value, r))
    else Some(Create(r))
  }

  /** Opening a named record and saving it unchanged sends its own name and
      description back under its own id; a blank form is never saved. */
  lemma EditThenSaveUpdatesSameRecord(id: string, name: string, description: string)
    requires name != ""
    ensures SaveCommand(Some(id), NamedRequest(name, description)) == Some(Update(id, NamedRequest(name, description)))
    ensures SaveCommand(None, BlankNamed).None? && SaveCommand(Some(id), BlankNamed).None?
  {
  }
}
