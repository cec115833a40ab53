/** The new-user form: the same validators and role checkboxes as the
    edit form, all roles unchecked at first, and a save guarded by
    `canSave`. */
module NewUserForm {
  import opened Values
  import Seqs
  import ApiSlice
  import UsersApiSlice
  import opened EditUserForm

  /** `[roles.length, validUsername, validPassword].every(Boolean) && !isLoading`. */
  function CanAdd(roles: seq<string>, validUsername: bool, validPassword: bool, isLoading: bool): (ok: bool)
    ensures ok <==> |roles| > 0 && validUsername && validPassword && !isLoading
    ensures ok ==> EditUserForm.CanSave(roles, validUsername, validPassword, "", isLoading)
  {
    |roles| != 0 && validUsername && validPassword && !isLoading
  }

  /** With no box checked nothing is selected. */
  lemma NoneChecked(m: RoleMap)
    requires forall k :: !Checked(m, k)
    ensures Selected(m) == []
  {
    Seqs.FilterNone(Keys(m), k => Checked(m, k));
  }

  class Form {
    /** `rolesInitialState`: every role unchecked. */
    const rolesInitialState: RoleMap
    var username: string
    var validUsername: bool
    var password: string
    var validPassword: bool
    var selectRoles: RoleMap
    var navigations: seq<string>

    ghost predicate Valid()
      reads this
    {
      && validUsername == ValidUsername(username)
      && validPassword == ValidPassword(password)
      && Keys(selectRoles) == RoleNames
      && Keys(rolesInitialState) == RoleNames
      && forall k :: !Checked(rolesInitialState, k)
    }

    constructor ()
      ensures Valid()
      ensures username == "" && password == "" && selectRoles == rolesInitialState && navigations == []
    {
      var initial := InitialRoles(k => false);
      rolesInitialState := initial;
      username := "";
      validUsername := ValidUsername("");
      password := "";
      validPassword := ValidPassword("");
      selectRoles := initial;
      navigations := [];
    }

    function Roles(): seq<string>
      reads this
    {
      Selected(selectRoles)
    }

    method SetUsername(value: string)
      requires Valid()
      modifies this
      ensures Valid()
      ensures username == value && validUsername == ValidUsername(value)
      ensures password == old(password) && selectRoles == old(selectRoles) && navigations == old(navigations)
    {
      username := value;
      validUsername := ValidUsername(value);
    }

    method SetPassword(value: string)
      requires Valid()
      modifies this
      ensures Valid()
      ensures password == value && validPassword == ValidPassword(value)
      ensures username == old(username) && selectRoles == old(selectRoles) && navigations == old(navigations)
    {
      password := value;
      validPassword := ValidPassword(value);
    }

    method OnRolesChanged(name: string, checked: bool)
      requires Valid() && name in RoleNames
      modifies this
      ensures Valid()
      ensures Checked(selectRoles, name) == checked
      ensures forall k :: k != name ==> Checked(selectRoles, k) == Checked(old(selectRoles), k)
      ensures username == old(username) && password == old(password) && navigations == old(navigations)
    {
      selectRoles := WithRole(selectRoles, name, checked);
    }

    /** The new user: name, password and the checked roles. */
    function AddPayload(): (body: Json)
      reads this
      ensures body.Obj? && body.fields.Keys == {"username", "password", "roles"}
      ensures body.fields["username"] == Str(username) && body.fields["password"] == Str(password)
      ensures body.fields["roles"] == StrArray(Roles())
    {
      Obj(map["username" := Str(username), "password" := Str(password), "roles" := StrArray(Roles())])
    }

    /** `onSaveUserClicked`: the user is added only when `canSave`. */
    method OnSaveClicked(isLoading: bool) returns (sent: Option<ApiSlice.FetchArgs>)
      ensures sent.Some? <==> CanAdd(Roles(), validUsername, validPassword, isLoading)
      ensures sent.Some? ==> sent.value == UsersApiSlice.AddNewUserQuery(AddPayload())
    {
      if CanAdd(Roles(), validUsername, validPassword, isLoading) {
        sent := Some(UsersApiSlice.AddNewUserQuery(AddPayload()));
      } else {
        sent := None;
      }
    }

    /** The effect on `[isSuccess]`, then the validation effects: the form
        is back to its initial state and shows the list. */
    method OnAddSettled(isSuccess: bool)
      requires Valid()
      modifies this
      ensures Valid()
      ensures isSuccess ==>
        && username == "" && password == "" && selectRoles == rolesInitialState
        && navigations == old(navigations) + ["/users"]
      ensures !isSuccess ==>
        && username == old(username) && password == old(password)
        && selectRoles == old(selectRoles) && navigations == old(navigations)
    {
      if isSuccess {
        username := "";
        password := "";
        selectRoles := rolesInitialState;
        navigations := navigations + ["/users"];
        validUsername := ValidUsername("");
        validPassword := ValidPassword("");
      }
    }
  }

  /** A form in its initial state cannot be saved: no role is checked. */
  lemma InitialFormCannotSave(m: RoleMap, validUsername: bool, validPassword: bool, isLoading: bool)
    requires forall k :: !Checked(m, k)
    ensures !CanAdd(Selected(m), validUsername, validPassword, isLoading)
  {
    NoneChecked(m);
  }
}
