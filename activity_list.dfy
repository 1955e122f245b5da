// The business-activity list: one form that creates or edits an activity.

module ActivityList {
  import opened Base
  import opened Entities
  import opened NamedForm

  function EditingId(editing: Option<Activity>): Option<string> {
    if editing.Some? then Some(editing.value.id) else None
  }

  /** Every field of the component, as one value. */
  datatype Snapshot = Snapshot(
    showForm: bool,
    editingActivity: Option<Activity>,
    currentActivity: NamedRequest,
    log: seq<NamedCommand>)

  class ActivityListComponent {
    var showForm: bool
    var editingActivity: Option<Activity>
    var currentActivity: NamedRequest
    /** Calls made on the data service, oldest first. */
    var log: seq<NamedCommand>

    function View(): Snapshot
      reads this
    {
      Snapshot(showForm, editingActivity, currentActivity, log)
    }

    /** An activity is only ever edited in the open form. */
    predicate Valid()
      reads this
    {
      editingActivity.Some? ==> showForm
    }

    constructor ()
      ensures Valid()
      ensures View() == Snapshot(false, None, BlankNamed, [])
    {
      showForm, editingActivity, currentActivity, log := false, None, BlankNamed, [];
    }

    method ResetForm()
      requires Valid()
      modifies this
      ensures Valid()
      ensures View() == old(View()).(currentActivity := BlankNamed)
    {
      currentActivity := BlankNamed;
    }

    /** `openCreateForm`: a blank form for a new activity. */
    method OpenCreateForm()
      requires Valid()
      modifies this
      ensures Valid()
      ensures View() == old(View()).(editingActivity := None, currentActivity := BlankNamed, showForm := true)
    {
      editingActivity := None;
      ResetForm();
      showForm := true;
    }

    /** `editActivity`: the form shown on a copy of the name and description. */
    method EditActivity(a: Activity)
      requires Valid()
      modifies this
      ensures Valid()
      ensures View() == old(View()).(editingActivity := Some(a), currentActivity := NamedRequest(a.name, a.description),
                                     showForm := true)
    {
      editingActivity := Some(a);
      currentActivity := NamedRequest(a.name, a.description);
      showForm := true;
    }

    /** `closeForm`: hidden, nothing edited, fields emptied. */
    method CloseForm()
      requires Valid()
      modifies this
      ensures Valid()
      ensures View() == old(View()).(showForm := false, editingActivity := None, currentActivity := BlankNamed)
    {
      showForm := false;
      editingActivity := None;
      ResetForm();
    }

    /** `saveActivity`: nothing without a name; otherwise an update while
        editing and a create otherwise, and the form closes only when the
        store succeeds. */
    method SaveActivity(ok: bool)
      requires Valid()
      modifies this
      ensures Valid()
      ensures var cmd := SaveCommand(EditingId(old(editingActivity)), old(currentActivity));
        cmd.None? ==> View() == old(View())
      ensures var cmd := SaveCommand(EditingId(old(editingActivity)), old(currentActivity));
        cmd.Some? && cmd.value.Update? ==> old(showForm)
      ensures var cmd := SaveCommand(EditingId(old(editingActivity)), old(currentActivity));
        cmd.Some? ==>
          var v := old(View()).(log := old(log) + [cmd.value]);
          View() == if ok then v.(showForm := false, editingActivity := None, currentActivity := BlankNamed) else v
    {
      var cmd := SaveCommand(EditingId(editingActivity), currentActivity);
      if cmd.Some? {
        log := log + [cmd.value];
        if ok {
          CloseForm();
        }
      }
    }

    /** `deleteActivity`: one delete command when the user confirms. */
    method DeleteActivity(id: string, confirmed: bool)
      requires Valid()
      modifies this
      ensures Valid()
      ensures confirmed ==> View() == old(View()).(log := old(log) + [Delete(id)])
      ensures !confirmed ==> View() == old(View())
    {
      if confirmed {
        log := log + [Delete(id)];
      }
    }
  }
}
