// The authority list: the permission checkboxes of the create form, the
// permission labels, and the activate/deactivate toggle.

module AuthorityList {
  import opened Base
  import opened Entities

  datatype Permission = Permission(key: string, caption: string)

  /** The twelve permissions the form offers, in display order. */
  const AvailablePermissions: seq<Permission> := [
    Permission("create_project", "Create Project"),
    Permission("edit_project", "Edit Project"),
    Permission("delete_project", "Delete Project"),
    Permission("manage_team", "Manage Team"),
    Permission("create_task", "Create Task"),
    Permission("edit_task", "Edit Task"),
    Permission("delete_task", "Delete Task"),
    Permission("assign_task", "Assign Task"),
    Permission("view_reports", "View Reports"),
    Permission("manage_budget", "Manage Budget"),
    Permission("approve_expenses", "Approve Expenses"),
    Permission("manage_users", "Manage Users")]

  /** `getPermissionLabel`: the label of the first permission with that key,
      or the key itself for a key the form does not offer. */
  function PermissionLabel(key: string): (text: string)
    ensures (forall i :: 0 <= i < |AvailablePermissions| ==> AvailablePermissions[i].key != key) ==> text == key
    ensures (exists i :: 0 <= i < |AvailablePermissions| && AvailablePermissions[i].key == key) ==>
      exists i :: 0 <= i < |AvailablePermissions| && AvailablePermissions[i].key == key && text == AvailablePermissions[i].caption
  {
    match FindFirst(AvailablePermissions, (p: Permission) => p.key == key)
    case Some(p) => p.caption
    case None => key
  }

  function NotKey(key: string): string -> bool {
    (p: string) => p != key
  }

  /** `togglePermission`: a checked box appends the key, an unchecked box
      removes every occurrence of it. */
  function Toggled(permissions: seq<string>, key: string, checked: bool): seq<string> {
    if checked then permissions + [key] else Filter(permissions, NotKey(key))
  }

  /** Checking appends the key at the end; the earlier entries keep their
      places. */
  lemma CheckAppends(permissions: seq<string>, key: string)
    ensures var r := Toggled(permissions, key, true);
            |r| == |permissions| + 1 && r[..|permissions|] == permissions && r[|permissions|] == key
            && multiset(r) == multiset(permissions) + multiset{key}
  {
  }

  /** Unchecking removes every occurrence of the key and keeps every other
      entry, as often as before and in order. */
  lemma {:induction false} UncheckRemovesAll(permissions: seq<string>, key: string)
    ensures var r := Toggled(permissions, key, false);
            && key !in r
            && IsSubsequence(r, permissions)
            && forall x :: x != key ==> multiset(r)[x] == multiset(permissions)[x]
  {
    FilterIsSubsequence(permissions, NotKey(key));
    if permissions != [] {
      UncheckRemovesAll(permissions[1..], key);
      var r := Filter(permissions, NotKey(key));
      var rest := Filter(permissions[1..], NotKey(key));
      assert permissions == [permissions[0]] + permissions[1..];
      if permissions[0] != key {
        assert r == [permissions[0]] + rest;
      } else {
        assert r == rest;
      }
    }
  }

  /** Checking and then unchecking a key is the same as unchecking it: the
      key is gone and the rest is as before. */
  lemma CheckThenUncheck(permissions: seq<string>, key: string)
    ensures Toggled(Toggled(permissions, key, true), key, false) == Toggled(permissions, key, false)
    ensures key !in Toggled(Toggled(permissions, key, true), key, false)
  {
    FilterAppend(permissions, [key], NotKey(key));
    FilterSingleton(key, NotKey(key));
    UncheckRemovesAll(permissions, key);
  }

  /** Unchecking twice is unchecking once. */
  lemma UncheckIdempotent(permissions: seq<string>, key: string)
    ensures Toggled(Toggled(permissions, key, false), key, false) == Toggled(permissions, key, false)
  {
    FilterFuse(permissions, NotKey(key), NotKey(key), NotKey(key));
  }

  /** `CreateAuthorityRequest`. */
  datatype AuthorityRequest = AuthorityRequest(
    name: string,
    title: string,
    department: string,
    email: string,
    phone: string,
    role: string,
    permissions: seq<string>)

  /** The request the form starts from and is reset to: a coordinator with
      no permissions. */
  const BlankAuthority := AuthorityRequest("", "", "", "", "", "coordinator", [])

  /** The check `createAuthority` makes: name, title and email. */
  predicate ReadyToCreate(r: AuthorityRequest) {
    Present(r.name) && Present(r.title) && Present(r.email)
  }

  /** Department, phone, role and permissions are optional; a blank form is
      not sent. */
  lemma OptionalAuthorityFields(r: AuthorityRequest, department: string, phone: string, role: string, permissions: seq<string>)
    ensures ReadyToCreate(r.(department := department, phone := phone, role := role, permissions := permissions)) <==> ReadyToCreate(r)
    ensures !ReadyToCreate(BlankAuthority)
  {
  }

  datatype AuthorityCommand =
    | CreateAuthority(request: AuthorityRequest)
    | UpdateAuthority(id: string, isActive: bool)
    | DeleteAuthority(id: string)

  /** `toggleAuthorityStatus`: sends only the flipped `isActive`. */
  function StatusToggle(a: Authority): (cmd: AuthorityCommand)
    ensures cmd.UpdateAuthority? && cmd.id == a.id && cmd.isActive != a.isActive
  {
    UpdateAuthority(a.id, !a.isActive)
  }

  /** Every field of the component, as one value. */
  datatype Snapshot = Snapshot(showCreateForm: bool, newAuthority: AuthorityRequest, log: seq<AuthorityCommand>)

  class AuthorityListComponent {
    var showCreateForm: bool
    var newAuthority: AuthorityRequest
    /** Commands issued to the data service, oldest first. */
    var log: seq<AuthorityCommand>

    function View(): Snapshot
      reads this
    {
      Snapshot(showCreateForm, newAuthority, log)
    }

    constructor ()
      ensures View() == Snapshot(false, BlankAuthority, [])
    {
      showCreateForm, newAuthority, log := false, BlankAuthority, [];
    }

    /** `resetForm`. */
    method ResetForm()
      modifies this
      ensures View() == old(View()).(newAuthority := BlankAuthority)
    {
      newAuthority := BlankAuthority;
    }

    /** `toggleCreateForm`: closing resets the request to a coordinator with
        no permissions. */
    method ToggleCreateForm()
      modifies this
      ensures showCreateForm == !old(showCreateForm)
      ensures View() == old(View()).(showCreateForm := showCreateForm,
                                     newAuthority := if showCreateForm then old(newAuthority) else BlankAuthority)
    {
      showCreateForm := !showCreateForm;
      if !showCreateForm {
        ResetForm();
      }
    }

    /** `createAuthority`: nothing without name, title and email; otherwise
        one create command, and on success the form is reset and hidden. */
    method CreateAuthority(ok: bool)
      modifies this
      ensures !ReadyToCreate(old(newAuthority)) ==> View() == old(View())
      ensures ReadyToCreate(old(newAuthority)) && ok ==>
        View() == old(View()).(showCreateForm := false, newAuthority := BlankAuthority,
                               log := old(log) + [AuthorityCommand.CreateAuthority(old(newAuthority))])
      ensures ReadyToCreate(old(newAuthority)) && !ok ==>
        View() == old(View()).(log := old(log) + [AuthorityCommand.CreateAuthority(old(newAuthority))])
    {
      if ReadyToCreate(newAuthority) {
        log := log + [AuthorityCommand.CreateAuthority(newAuthority)];
        if ok {
          ResetForm();
          showCreateForm := false;
        }
      }
    }

    /** `togglePermission`: only the permission list of the request changes. */
    method TogglePermission(key: string, checked: bool)
      modifies this
      ensures View() == old(View()).(newAuthority := old(newAuthority).(permissions := Toggled(old(newAuthority).permissions, key, checked)))
    {
      newAuthority := newAuthority.(permissions := Toggled(newAuthority.permissions, key, checked));
    }

    method ToggleAuthorityStatus(a: Authority)
      modifies this
      ensures View() == old(View()).(log := old(log) + [StatusToggle(a)])
    {
      log := log + [StatusToggle(a)];
    }

    /** `deleteAuthority`: one delete command when the user confirms. */
    method DeleteAuthority(id: string, confirmed: bool)
      modifies this
      ensures confirmed ==> View() == old(View()).(log := old(log) + [AuthorityCommand.DeleteAuthority(id)])
      ensures !confirmed ==> View() == old(View())
    {
      if confirmed {
        log := log + [AuthorityCommand.DeleteAuthority(id)];
      }
    }
  }
}
