/** The user-management page: the search box over the user list, the
    add/edit dialog and the request its submit button sends, the role
    badges and the delete button. */
module Users {
  import opened Optional
  import opened Lists
  import opened Text
  import opened Accounts

  // ---------------------------------------------------------------------
  // Search

  /** A user is listed when the term occurs, ignoring case, in the name,
      the email address or the role. */
  predicate UserMatches(u: User, term: string) {
    MatchesIgnoringCase(u.name, term) || MatchesIgnoringCase(u.email, term) ||
    MatchesIgnoringCase(u.role, term)
  }

  function UserMatchTest(term: string): User -> bool {
    (u: User) => UserMatches(u, term)
  }

  /** The search effect: the matching users, in their original order; an
      empty term keeps every user. */
  function SearchUsers(users: seq<User>, term: string): (r: seq<User>)
    ensures IsSubsequence(r, users)
    ensures forall u :: u in r ==> u in users && UserMatches(u, term)
    ensures forall u :: u in users && UserMatches(u, term) ==> u in r
    ensures term == "" ==> r == users
  {
    assert term == "" ==> forall u :: u in users ==> UserMatches(u, term) by {
      forall u | term == "" && u in users ensures UserMatches(u, term) {
        EmptyTermMatches(u.name);
      }
    }
    Filter(users, UserMatchTest(term))
  }

  /** Typing the term in upper or lower case lists the same users. */
  lemma SearchIgnoresTermCase(users: seq<User>, term: string)
    ensures SearchUsers(users, Lower(term)) == SearchUsers(users, term)
  {
    forall u | u in users ensures UserMatches(u, Lower(term)) == UserMatches(u, term) {
      MatchesIgnoresTermCase(u.name, term);
      MatchesIgnoresTermCase(u.email, term);
      MatchesIgnoresTermCase(u.role, term);
    }
    FilterCongruent(users, UserMatchTest(Lower(term)), UserMatchTest(term));
  }

  /** Searching for a role's name lists every user holding that role. */
  lemma SearchFindsRole(users: seq<User>, role: Role)
    ensures forall u :: u in users && u.role == role ==> u in SearchUsers(users, role)
  {
    forall u | u in users && u.role == role ensures UserMatches(u, role) {
      assert Lower(u.role) <= Lower(role);
    }
  }

  // ---------------------------------------------------------------------
  // The dialog form and the request it sends

  /** The dialog's fields. */
  datatype UserForm = UserForm(name: string, email: string, password: string, role: Role)

  /** The form of a fresh dialog, and what closing the dialog restores. */
  const BlankForm := UserForm("", "", "", STAFF)

  /** `handleEdit`'s form: the user's name, email and role, and an empty
      password, which is never loaded from the server. */
  function EditForm(u: User): (f: UserForm)
    ensures f.password == ""
    ensures f.name == u.name && f.email == u.email && f.role == u.role
  {
    UserForm(u.name, u.email, "", u.role)
  }

  /** A request body: the form's fields by name. */
  type Payload = map<string, string>

  const PasswordKey := "password"

  /** `{ ...formData }`: all four fields. */
  function FormPayload(f: UserForm): (p: Payload)
    ensures p.Keys == {"name", "email", PasswordKey, "role"}
  {
    map["name" := f.name, "email" := f.email, PasswordKey := f.password, "role" := f.role]
  }

  /** What a submit sends: an update of the edited user, or a new user. */
  datatype SaveRequest =
    | UpdateUser(id: string, payload: Payload)
    | CreateUser(payload: Payload)

  /** `handleSubmit`'s request. A new user is sent the whole form. An edit
      sends the name, email and role unchanged, and the password only when
      one was typed, so a blank password keeps the stored one. */
  function SubmitRequest(editing: Option<User>, f: UserForm): (r: SaveRequest)
    ensures r.CreateUser? <==> editing.None?
    ensures r.CreateUser? ==> r.payload == FormPayload(f)
    ensures r.UpdateUser? ==> r.id == editing.value.id
    ensures r.UpdateUser? ==> (PasswordKey in r.payload <==> f.password != "")
    ensures forall k :: k in r.payload ==> k in FormPayload(f) && r.payload[k] == FormPayload(f)[k]
    ensures forall k :: k in FormPayload(f) && k != PasswordKey ==> k in r.payload
  {
    if editing.None? then CreateUser(FormPayload(f))
    else if f.password == "" then UpdateUser(editing.value.id, FormPayload(f) - {PasswordKey})
    else UpdateUser(editing.value.id, FormPayload(f))
  }

  /** Opening a user for editing and saving without typing a password
      sends back the user's own name, email and role and no password. */
  lemma EditUnchangedKeepsPassword(u: User)
    ensures SubmitRequest(Some(u), EditForm(u)) ==
      UpdateUser(u.id, map["name" := u.name, "email" := u.email, "role" := u.role])
  {
    var r := SubmitRequest(Some(u), EditForm(u));
    assert r.payload.Keys == {"name", "email", "role"};
  }

  /** The dialog's texts and whether the browser insists on a password. */
  datatype DialogView = DialogView(title: string, description: string, passwordRequired: bool, submitLabel: string)

  function Dialog(editing: Option<User>): DialogView {
    if editing.Some? then DialogView("Edit User", "Update user information", false, "Update User")
    else DialogView("Add New User", "Create a new system user", true, "Create User")
  }

  /** The dialog and the request agree: a password is demanded exactly
      when a user is created, which is exactly when a blank password would
      be sent; when editing, a blank password is left out of the request. */
  lemma DialogMatchesRequest(editing: Option<User>, f: UserForm)
    ensures Dialog(editing).passwordRequired <==> SubmitRequest(editing, f).CreateUser?
    ensures !Dialog(editing).passwordRequired && f.password == "" ==> PasswordKey !in SubmitRequest(editing, f).payload
  {
  }

  /** The role select's options, in order. */
  const RoleOptions: seq<Role> := [ADMIN, PHARMACIST, STAFF]

  /** The select offers exactly the known roles, and the blank form's role
      is one of them. */
  lemma RoleOptionsAreKnownRoles()
    ensures forall r :: r in RoleOptions <==> IsKnownRole(r)
    ensures BlankForm.role in RoleOptions
  {
  }

  // ---------------------------------------------------------------------
  // The table

  const AdminBadge := "bg-red-100 text-red-800"
  const PharmacistBadge := "bg-blue-100 text-blue-800"
  const StaffBadge := "bg-green-100 text-green-800"
  const OtherBadge := "bg-gray-100 text-gray-800"

  /** `getRoleBadgeColor`: each known role has its own badge; any other
      role string gets the grey one. */
  function RoleBadgeColor(role: Role): (c: string)
    ensures c == AdminBadge <==> role == ADMIN
    ensures c == PharmacistBadge <==> role == PHARMACIST
    ensures c == StaffBadge <==> role == STAFF
    ensures c == OtherBadge <==> !IsKnownRole(role)
  {
    if role == ADMIN then AdminBadge
    else if role == PHARMACIST then PharmacistBadge
    else if role == STAFF then StaffBadge
    else OtherBadge
  }

  /** A table row: name, email, the role in its badge. */
  datatype UserRow = UserRow(name: string, email: string, role: Role, badge: string)

  datatype UsersTable = NoUsersFound | UserRows(rows: seq<UserRow>)

  /** "No users found" for an empty list, otherwise one row per user in
      the order given. */
  function RenderTable(shown: seq<User>): (t: UsersTable)
    ensures t.NoUsersFound? <==> |shown| == 0
    ensures t.UserRows? ==> |t.rows| == |shown| && forall i :: 0 <= i < |shown| ==>
      t.rows[i].name == shown[i].name && t.rows[i].email == shown[i].email &&
      t.rows[i].role == shown[i].role && t.rows[i].badge == RoleBadgeColor(shown[i].role)
  {
    if |shown| == 0 then NoUsersFound
    else UserRows(seq(|shown|, i requires 0 <= i < |shown| =>
      UserRow(shown[i].name, shown[i].email, shown[i].role, RoleBadgeColor(shown[i].role))))
  }

  // ---------------------------------------------------------------------
  // The page

  /** The answer to `getUsers()`: a failure, or a body whose `users` list
      may be missing (`|| []`). */
  datatype UsersResponse = RequestFailed | Received(users: Option<seq<User>>)

  class UsersPage {
    var users: seq<User>
    var filteredUsers: seq<User>
    var searchTerm: string
    var loading: bool
    var dialogOpen: bool
    var editingUser: Option<User>
    var formData: UserForm

    /** The filter effect has run: the list shown is the search result. */
    predicate Valid()
      reads this
    {
      filteredUsers == SearchUsers(users, searchTerm)
    }

    constructor()
      ensures Valid() && users == [] && searchTerm == "" && loading
      ensures !dialogOpen && editingUser == None && formData == BlankForm
    {
      users := [];
      filteredUsers := [];
      searchTerm := "";
      loading := true;
      dialogOpen := false;
      editingUser := None;
      formData := BlankForm;
    }

    /** `fetchUsers`: on an answer the list is replaced (`|| []`) and the
        search re-applied; on a failure the list stays. */
    method FetchUsers(response: UsersResponse)
      requires Valid()
      modifies this
      ensures Valid() && !loading && searchTerm == old(searchTerm)
      ensures response.RequestFailed? ==> users == old(users)
      ensures response.Received? ==> users == response.users.GetOr([])
      ensures dialogOpen == old(dialogOpen) && editingUser == old(editingUser) && formData == old(formData)
    {
      if response.Received? {
        users := response.users.GetOr([]);
        filteredUsers := SearchUsers(users, searchTerm);
      }
      loading := false;
    }

    /** Typing in the search box. */
    method SetSearchTerm(term: string)
      requires Valid()
      modifies this
      ensures Valid() && searchTerm == term && users == old(users) && loading == old(loading)
      ensures dialogOpen == old(dialogOpen) && editingUser == old(editingUser) && formData == old(formData)
    {
      searchTerm := term;
      filteredUsers := SearchUsers(users, term);
    }

    /** A field of the dialog edited: `setFormData({ ...formData, ... })`. */
    method SetFormData(f: UserForm)
      requires Valid()
      modifies this
      ensures Valid() && formData == f
      ensures users == old(users) && searchTerm == old(searchTerm) && loading == old(loading)
      ensures dialogOpen == old(dialogOpen) && editingUser == old(editingUser)
    {
      formData := f;
    }

    /** "Add User": the dialog opens on whatever form is current. */
    method OpenAddDialog()
      requires Valid()
      modifies this
      ensures Valid() && dialogOpen
      ensures users == old(users) && searchTerm == old(searchTerm) && loading == old(loading)
      ensures editingUser == old(editingUser) && formData == old(formData)
    {
      dialogOpen := true;
    }

    /** `handleEdit`: the dialog opens on the user's data, password blank. */
    method HandleEdit(u: User)
      requires Valid()
      modifies this
      ensures Valid() && dialogOpen && editingUser == Some(u) && formData == EditForm(u)
      ensures users == old(users) && searchTerm == old(searchTerm) && loading == old(loading)
    {
      editingUser := Some(u);
      formData := UserForm(u.name, u.email, "", u.role);
      dialogOpen := true;
    }

    /** `handleCloseDialog`: the dialog closes, nothing is being edited and
        the form is blank again. */
    method HandleCloseDialog()
      requires Valid()
      modifies this
      ensures Valid() && !dialogOpen && editingUser == None && formData == BlankForm
      ensures users == old(users) && searchTerm == old(searchTerm) && loading == old(loading)
    {
      dialogOpen := false;
      editingUser := None;
      formData := BlankForm;
    }

    /** `handleSubmit`: builds the request (for an edit, a copy of the form
        from which an empty password is deleted). When the server accepts
        it the dialog is closed and reset; when it refuses, the dialog
        stays as it was. The list is reloaded by a separate `FetchUsers`. */
    method HandleSubmit(accepted: bool) returns (request: SaveRequest)
      requires Valid()
      modifies this
      ensures request == SubmitRequest(old(editingUser), old(formData))
      ensures Valid() && users == old(users) && searchTerm == old(searchTerm) && loading == old(loading)
      ensures accepted ==> !dialogOpen && editingUser == None && formData == BlankForm
      ensures !accepted ==> dialogOpen == old(dialogOpen) && editingUser == old(editingUser) && formData == old(formData)
    {
      if editingUser.Some? {
        var updateData := FormPayload(formData);
        if updateData[PasswordKey] == "" {
          updateData := updateData - {PasswordKey};
        }
        request := UpdateUser(editingUser.value.id, updateData);
      } else {
        request := CreateUser(FormPayload(formData));
      }
      if accepted {
        HandleCloseDialog();
      }
    }

    /** `handleDelete`: the id is sent only when the confirmation is
        answered yes; the page itself is left as it is. */
    method HandleDelete(id: string, confirmed: bool) returns (request: Option<string>)
      ensures request.Some? <==> confirmed
      ensures request.Some? ==> request.value == id
    {
      request := if confirmed then Some(id) else None;
    }
  }
}
