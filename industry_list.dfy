// The industry list: one form that creates or edits an industry.

module IndustryList {
  import opened Base
  import opened Entities
  import opened NamedForm

  function EditingId(editing: Option<Industry>): Option<string> {
    if editing.Some? then Some(editing.value.id) else None
  }

  /** Every field of the component, as one value. */
  datatype Snapshot = Snapshot(
    showCreateForm: bool,
    editingIndustry: Option<Industry>,
    currentIndustry: NamedRequest,
    log: seq<NamedCommand>)

  class IndustryListComponent {
    var showCreateForm: bool
    var editingIndustry: Option<Industry>
    var currentIndustry: NamedRequest
    /** Calls made on the data service, oldest first. */
    var log: seq<NamedCommand>

    function View(): Snapshot
      reads this
    {
      Snapshot(showCreateForm, editingIndustry, currentIndustry, log)
    }

    /** An industry is only ever edited in the open form. */
    predicate Valid()
      reads this
    {
      editingIndustry.Some? ==> showCreateForm
    }

    constructor ()
      ensures Valid()
      ensures View() == Snapshot(false, None, BlankNamed, [])
    {
      showCreateForm, editingIndustry, currentIndustry, log := false, None, BlankNamed, [];
    }

    method ResetForm()
      requires Valid()
      modifies this
      ensures Valid()
      ensures View() == old(View()).(currentIndustry := BlankNamed)
    {
      currentIndustry := BlankNamed;
    }

    /** `toggleCreateForm`: always stops editing and empties the fields, then
        shows or hides the form, so an edit in progress is abandoned and the
        form closes. */
    method ToggleCreateForm()
      requires Valid()
      modifies this
      ensures Valid()
      ensures View() == old(View()).(editingIndustry := None, currentIndustry := BlankNamed, showCreateForm := !old(showCreateForm))
      ensures old(editingIndustry).Some? ==> !showCreateForm
    {
      editingIndustry := None;
      ResetForm();
      showCreateForm := !showCreateForm;
    }

    /** `editIndustry`: the form shown on a copy of the name and description. */
    method EditIndustry(i: Industry)
      requires Valid()
      modifies this
      ensures Valid()
      ensures View() == old(View()).(editingIndustry := Some(i), currentIndustry := NamedRequest(i.name, i.description),
                                     showCreateForm := true)
    {
      editingIndustry := Some(i);
      currentIndustry := NamedRequest(i.name, i.description);
      showCreateForm := true;
    }

    /** `cancelForm`: hidden, nothing edited, fields emptied. */
    method CancelForm()
      requires Valid()
      modifies this
      ensures Valid()
      ensures View() == old(View()).(showCreateForm := false, editingIndustry := None, currentIndustry := BlankNamed)
    {
      showCreateForm := false;
      editingIndustry := None;
      ResetForm();
    }

    /** `saveIndustry`: nothing without a name; otherwise an update while
        editing and a create otherwise, and the form is cancelled only when
        the store succeeds. */
    method SaveIndustry(ok: bool)
      requires Valid()
      modifies this
      ensures Valid()
      ensures var cmd := SaveCommand(EditingId(old(editingIndustry)), old(currentIndustry));
        cmd.None? ==> View() == old(View())
      ensures var cmd := SaveCommand(EditingId(old(editingIndustry)), old(currentIndustry));
        cmd.Some? ==>
          var v := old(View()).(log := old(log) + [cmd.value]);
          View() == if ok then v.(showCreateForm := false, editingIndustry := None, currentIndustry := BlankNamed) else v
    {
      var cmd := SaveCommand(EditingId(editingIndustry), currentIndustry);
      if cmd.Some? {
        log := log + [cmd.value];
        if ok {
          CancelForm();
        }
      }
    }

    /** `deleteIndustry`: one delete command when the user confirms. */
    method DeleteIndustry(id: string, confirmed: bool)
      requires Valid()
      modifies this
      ensures Valid()
      ensures confirmed ==> View() == old(View()).(log := old(log) + [Delete(id)])
      ensures !confirmed ==> View() == old(View())
    {
      if confirmed {
        log := log + [Delete(id)];
      }
    }
  }
}
