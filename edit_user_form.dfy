/** The edit-user form: the username and password validators, the role
    checkboxes, the save rule, and the reset after a successful mutation.
    The role checkboxes and validators are shared with the new-user form. */
module EditUserForm {
  import opened Values
  import Seqs
  import Regex
  import ApiSlice
  import opened UsersApiSlice

  /** `USER_REGEX`, `^[A-z][A-z0-9-_]{3,20}$`. */
  const UserFirst: seq<Regex.Range> := [Regex.Range('A', 'z')]
  const UserRest: seq<Regex.Range> := [Regex.Range('A', 'z'), Regex.Range('0', '9')] + Regex.Singles("-_")
  const UserRegex: seq<Regex.Piece> := [Regex.Piece(UserFirst, 1, 1), Regex.Piece(UserRest, 3, 20)]

  /** `PWD_REGEX`, `^[A-Za-z0-9!@#$%^&*)(+=._-]{3,20}$`. */
  const PasswordSymbols := "!@#$%^&*)(+=._-"
  const PasswordClass: seq<Regex.Range> :=
    [Regex.Range('A', 'Z'), Regex.Range('a', 'z'), Regex.Range('0', '9')] + Regex.Singles(PasswordSymbols)
  const PasswordRegex: seq<Regex.Piece> := [Regex.Piece(PasswordClass, 3, 20)]

  predicate ValidUsername(s: string) { Regex.Matches(UserRegex, s) }
  predicate ValidPassword(s: string) { Regex.Matches(PasswordRegex, s) }

  /** A character allowed after the first: the range `A-z` (which takes in
      the six ASCII marks between 'Z' and 'a'), a digit, or '-'. */
  predicate UsernameChar(c: char) {
    'A' <= c <= 'z' || '0' <= c <= '9' || c == '-'
  }

  predicate PasswordChar(c: char) {
    'A' <= c <= 'Z' || 'a' <= c <= 'z' || '0' <= c <= '9' || c in PasswordSymbols
  }

  lemma UserRestChar(c: char)
    ensures Regex.InClass(c, UserRest) <==> UsernameChar(c)
  {
    Regex.InClassAppend(c, [Regex.Range('A', 'z'), Regex.Range('0', '9')], Regex.Singles("-_"));
    Regex.InClassAppend(c, [Regex.Range('A', 'z')], [Regex.Range('0', '9')]);
    assert [Regex.Range('A', 'z'), Regex.Range('0', '9')] == [Regex.Range('A', 'z')] + [Regex.Range('0', '9')];
    Regex.InOneRange(c, Regex.Range('A', 'z'));
    Regex.InOneRange(c, Regex.Range('0', '9'));
    Regex.InSingles(c, "-_");
  }

  lemma PasswordClassChar(c: char)
    ensures Regex.InClass(c, PasswordClass) <==> PasswordChar(c)
  {
    var az, lz, dz := [Regex.Range('A', 'Z')], [Regex.Range('a', 'z')], [Regex.Range('0', '9')];
    assert [Regex.Range('A', 'Z'), Regex.Range('a', 'z'), Regex.Range('0', '9')] == az + lz + dz;
    Regex.InClassAppend(c, az + lz + dz, Regex.Singles(PasswordSymbols));
    Regex.InClassAppend(c, az + lz, dz);
    Regex.InClassAppend(c, az, lz);
    Regex.InOneRange(c, Regex.Range('A', 'Z'));
    Regex.InOneRange(c, Regex.Range('a', 'z'));
    Regex.InOneRange(c, Regex.Range('0', '9'));
    Regex.InSingles(c, PasswordSymbols);
  }

  /** A valid username is 4 to 21 characters: one from `A-z`, then
      characters from `A-z`, digits and '-'. */
  lemma UsernameShape(s: string)
    ensures ValidUsername(s) <==>
      4 <= |s| <= 21 && 'A' <= s[0] <= 'z' && forall i :: 1 <= i < |s| ==> UsernameChar(s[i])
  {
    var first, rest := Regex.Piece(UserFirst, 1, 1), Regex.Piece(UserRest, 3, 20);
    assert UserRegex == [first] + [rest];
    Regex.MatchesHead(first, [rest], s);
    if |s| >= 1 {
      Regex.InOneRange(s[0], Regex.Range('A', 'z'));
      Regex.MatchesOne(rest, s[1..]);
      forall i | 1 <= i < |s|
        ensures Regex.InClass(s[i], UserRest) <==> UsernameChar(s[i])
      {
        UserRestChar(s[i]);
      }
      assert forall j :: 0 <= j < |s| - 1 ==> s[1..][j] == s[j + 1];
    }
  }

  /** A valid password is 3 to 20 characters, each a letter, a digit or
      one of `!@#$%^&*)(+=._-`. */
  lemma PasswordShape(s: string)
    ensures ValidPassword(s) <==> 3 <= |s| <= 20 && forall i :: 0 <= i < |s| ==> PasswordChar(s[i])
  {
    Regex.MatchesOne(Regex.Piece(PasswordClass, 3, 20), s);
    forall i | 0 <= i < |s|
      ensures Regex.InClass(s[i], PasswordClass) <==> PasswordChar(s[i])
    {
      PasswordClassChar(s[i]);
    }
  }

  /** The `A-z` range lets '_', '[' and '^' lead a username; spaces and
      short names are refused. */
  lemma UsernameExamples()
    ensures ValidUsername("_bob") && ValidUsername("a[b]") && ValidUsername("^a-9")
    ensures !ValidUsername("bob") && !ValidUsername("bo b") && !ValidUsername("")
  {
    UsernameShape("_bob");
    UsernameShape("a[b]");
    UsernameShape("^a-9");
    UsernameShape("bob");
    UsernameShape("bo b");
    assert "bo b"[2] == ' ';
    UsernameShape("");
  }

  /** Symbols from the list are accepted, and three characters suffice. */
  lemma PasswordAccepts()
    ensures ValidPassword("p@ss") && ValidPassword("(a)")
  {
    assert '@' in PasswordSymbols && '(' in PasswordSymbols && ')' in PasswordSymbols;
    PasswordShape("p@ss");
    PasswordShape("(a)");
  }

  /** A space is refused, and so is anything shorter than three. */
  lemma PasswordRefuses()
    ensures !ValidPassword("ab") && !ValidPassword("a b") && !ValidPassword("")
  {
    PasswordShape("ab");
    PasswordShape("");
    PasswordShape("a b");
    assert !PasswordChar("a b"[1]) by {
      assert "a b"[1] == ' ';
      assert ' ' !in PasswordSymbols;
    }
  }

  /** `ROLES`, the three roles the forms offer as checkboxes. */
  const RoleNames: seq<string> := ["Sales", "Engineer", "Admin"]

  datatype RoleFlag = RoleFlag(role: string, checked: bool)

  /** A `RolesStatusMap`, its keys in insertion order. */
  type RoleMap = seq<RoleFlag>

  /** `Object.keys(m)`. */
  function Keys(m: RoleMap): (keys: seq<string>)
    ensures |keys| == |m| && forall i :: 0 <= i < |m| ==> keys[i] == m[i].role
  {
    seq(|m|, i requires 0 <= i < |m| => m[i].role)
  }

  /** `m[key] === true`: the key's flag, false when the key is missing. */
  function Checked(m: RoleMap, key: string): bool {
    if m == [] then false
    else if m[0].role == key then m[0].checked
    else Checked(m[1..], key)
  }

  /** `{ ...m, [name]: checked }`: an existing key keeps its place and takes
      the new flag, a new key is added last. */
  function WithRole(m: RoleMap, name: string, checked: bool): (r: RoleMap)
    ensures name in Keys(m) ==> Keys(r) == Keys(m)
    ensures name !in Keys(m) ==> Keys(r) == Keys(m) + [name]
    ensures Checked(r, name) == checked
    ensures forall k :: k != name ==> Checked(r, k) == Checked(m, k)
  {
    if m == [] then [RoleFlag(name, checked)]
    else if m[0].role == name then [RoleFlag(name, checked)] + m[1..]
    else
      var rest := WithRole(m[1..], name, checked);
      assert Keys(m) == [m[0].role] + Keys(m[1..]);
      assert Keys([m[0]] + rest) == [m[0].role] + Keys(rest);
      [m[0]] + rest
  }

  /** `Object.keys(m).filter(key => m[key] === true)`. */
  function Selected(m: RoleMap): seq<string> {
    Seqs.Filter(Keys(m), k => Checked(m, k))
  }

  /** The selected roles are the keys whose box is checked. */
  lemma SelectedRoles(m: RoleMap, k: string)
    ensures k in Selected(m) <==> k in Keys(m) && Checked(m, k)
  {
    Seqs.FilterMembers(Keys(m), k => Checked(m, k), k);
  }

  /** `ROLES.reduce(...)`: a map with one key per role, in `ROLES` order,
      each flagged as `flag` says. */
  method InitialRoles(flag: string -> bool) returns (m: RoleMap)
    ensures Keys(m) == RoleNames
    ensures forall k :: Checked(m, k) <==> k in RoleNames && flag(k)
  {
    m := [];
    for i := 0 to |RoleNames|
      invariant Keys(m) == RoleNames[..i]
      invariant forall k :: Checked(m, k) <==> k in RoleNames[..i] && flag(k)
    {
      assert RoleNames[i] !in RoleNames[..i];
      m := WithRole(m, RoleNames[i], flag(RoleNames[i]));
      assert RoleNames[..i + 1] == RoleNames[..i] + [RoleNames[i]];
    }
    assert RoleNames[..|RoleNames|] == RoleNames;
  }

  /** The save rule: at least one role and a valid username, and a valid
      password only when one was typed. */
  function CanSave(roles: seq<string>, validUsername: bool, validPassword: bool, password: string, isLoading: bool): (ok: bool)
    ensures ok <==> |roles| > 0 && validUsername && (password != "" ==> validPassword) && !isLoading
  {
    if password != "" then |roles| != 0 && validUsername && validPassword && !isLoading
    else |roles| != 0 && validUsername && !isLoading
  }

  class Form {
    const user: User
    /** `rolesInitialState`, computed from the user's own roles. */
    const rolesInitialState: RoleMap
    var username: string
    var validUsername: bool
    var password: string
    var validPassword: bool
    var active: bool
    var selectRoles: RoleMap
    /** Whether the delete-confirmation dialog is open. */
    var open: bool
    /** The routes navigated to, in order. */
    var navigations: seq<string>

    /** The two validation effects have caught up with their fields, and
        the role map has exactly the three role keys. */
    ghost predicate Valid()
      reads this
    {
      && validUsername == ValidUsername(username)
      && validPassword == ValidPassword(password)
      && Keys(selectRoles) == RoleNames
      && Keys(rolesInitialState) == RoleNames
    }

    /** The form once mounted: the user's name and active flag, no
        password, a box checked for each role the user has. */
    constructor (user: User)
      ensures Valid()
      ensures this.user == user && username == user.username && password == "" && active == user.active
      ensures forall k :: Checked(selectRoles, k) <==> k in RoleNames && Includes(user.roles, k)
      ensures selectRoles == rolesInitialState && !open && navigations == []
    {
      var initial := InitialRoles(k => Includes(user.roles, k));
      this.user := user;
      rolesInitialState := initial;
      username := user.username;
      validUsername := ValidUsername(user.username);
      password := "";
      validPassword := ValidPassword("");
      active := user.active;
      selectRoles := initial;
      open := false;
      navigations := [];
    }

    /** `roles`: the checked role names. */
    function Roles(): seq<string>
      reads this
    {
      Selected(selectRoles)
    }

    /** The username field's `onChange`, then its validation effect. */
    method SetUsername(value: string)
      requires Valid()
      modifies this
      ensures Valid()
      ensures username == value && validUsername == ValidUsername(value)
      ensures password == old(password) && selectRoles == old(selectRoles) && active == old(active)
      ensures open == old(open) && navigations == old(navigations)
    {
      username := value;
      validUsername := ValidUsername(value);
    }

    /** The password field's `onChange`, then its validation effect. */
    method SetPassword(value: string)
      requires Valid()
      modifies this
      ensures Valid()
      ensures password == value && validPassword == ValidPassword(value)
      ensures username == old(username) && selectRoles == old(selectRoles) && active == old(active)
      ensures open == old(open) && navigations == old(navigations)
    {
      password := value;
      validPassword := ValidPassword(value);
    }

    /** `onActiveChanged`. */
    method OnActiveChanged()
      modifies this
      ensures active == !old(active)
      ensures username == old(username) && password == old(password) && selectRoles == old(selectRoles)
      ensures validUsername == old(validUsername) && validPassword == old(validPassword)
      ensures open == old(open) && navigations == old(navigations)
    {
      active := !active;
    }

    /** `onRolesChanged` for one of the three role checkboxes. */
    method OnRolesChanged(name: string, checked: bool)
      requires Valid() && name in RoleNames
      modifies this
      ensures Valid()
      ensures Checked(selectRoles, name) == checked
      ensures forall k :: k != name ==> Checked(selectRoles, k) == Checked(old(selectRoles), k)
      ensures username == old(username) && password == old(password) && active == old(active)
      ensures open == old(open) && navigations == old(navigations)
    {
      selectRoles := WithRole(selectRoles, name, checked);
    }

    /** The update body: the password is sent only when one was typed. */
    function SavePayload(): (body: Json)
      reads this
      ensures body.Obj?
      ensures "password" in body.fields <==> password != ""
      ensures password != "" ==> body.fields["password"] == Str(password)
      ensures body.fields.Keys - {"password"} == {"id", "username", "roles", "active"}
      ensures body.fields["id"] == OptionalStr(user.id) && body.fields["username"] == Str(username)
      ensures body.fields["roles"] == StrArray(Roles()) && body.fields["active"] == Bool(active)
    {
      var common := map[
        "id" := OptionalStr(user.id), "username" := Str(username),
        "roles" := StrArray(Roles()), "active" := Bool(active)];
      if password != "" then Obj(common["password" := Str(password)]) else Obj(common)
    }

    /** `onSaveUserClicked`. Unlike the other forms the handler itself does
        not test `canSave`; only the Save button's disabled state guards the
        submit. */
    method OnSaveClicked() returns (sent: ApiSlice.FetchArgs)
      ensures sent == UpdateUserQuery(SavePayload())
    {
      sent := UpdateUserQuery(SavePayload());
    }

    /** 'Delete User' opens the dialog; so does the dialog's `onClose`. */
    method OpenDialog()
      modifies this
      ensures open
      ensures username == old(username) && password == old(password) && active == old(active)
      ensures selectRoles == old(selectRoles) && navigations == old(navigations)
      ensures validUsername == old(validUsername) && validPassword == old(validPassword)
    {
      open := true;
    }

    /** The dialog's 'No'. */
    method DismissDialog()
      modifies this
      ensures !open
      ensures username == old(username) && password == old(password) && active == old(active)
      ensures selectRoles == old(selectRoles) && navigations == old(navigations)
      ensures validUsername == old(validUsername) && validPassword == old(validPassword)
    {
      open := false;
    }

    /** `onDeleteUserConfirmed`: the dialog closes and the user is deleted. */
    method OnDeleteConfirmed() returns (sent: ApiSlice.FetchArgs)
      modifies this
      ensures !open
      ensures sent == DeleteUserQuery(Obj(map["id" := OptionalStr(user.id)]))
      ensures username == old(username) && password == old(password) && active == old(active)
      ensures selectRoles == old(selectRoles) && navigations == old(navigations)
      ensures validUsername == old(validUsername) && validPassword == old(validPassword)
    {
      open := false;
      sent := DeleteUserQuery(Obj(map["id" := OptionalStr(user.id)]));
    }

    /** The effect on `[isSuccess, isDelSuccess]`, followed by the two
        validation effects: name and password cleared, the roles back to
        the user's own, `active` kept, then the list. The cleared form
        cannot be saved, its username being empty. */
    method OnMutationSettled(isSuccess: bool, isDelSuccess: bool)
      requires Valid()
      modifies this
      ensures Valid()
      ensures isSuccess || isDelSuccess ==>
        && username == "" && password == "" && selectRoles == rolesInitialState
        && navigations == old(navigations) + ["/users"]
        && forall isLoading :: !CanSave(Roles(), validUsername, validPassword, password, isLoading)
      ensures !(isSuccess || isDelSuccess) ==>
        && username == old(username) && password == old(password)
        && selectRoles == old(selectRoles) && navigations == old(navigations)
      ensures active == old(active) && open == old(open)
    {
      if isSuccess || isDelSuccess {
        username := "";
        password := "";
        selectRoles := rolesInitialState;
        navigations := navigations + ["/users"];
        UsernameExamples();
        validUsername := ValidUsername("");
        validPassword := ValidPassword("");
      }
    }
  }
}
