/** The admin users page: its search, the create and update handlers, the edit-sheet
    selection state, the role menu and the delete confirmation. */
module AdminUsersPage {
  import opened Wrappers
  import opened Text
  import opened Lists
  import opened Entities
  import opened Forms
  import opened Search

  const FillRequired: string := "Please fill in all required fields"
  const NotAvailable: string := "N/A"

  /** A user matches when the (lower-cased) query is in the email, either name, the role,
      or the matriculation number when there is one. */
  predicate UserMatches(u: User, q: string) {
    Contains(Lower(u.email), q) || Contains(Lower(u.firstName), q) || Contains(Lower(u.lastName), q)
    || Contains(Lower(u.role), q) || FieldMatches(u.matricNumber, q)
  }

  /** `filteredUsers`. */
  function FilterUsers(users: Option<seq<User>>, query: string): (r: seq<User>)
    ensures users.None? ==> r == []
    ensures users.Some? && query == "" ==> r == users.value
    ensures users.Some? && query != "" ==> forall u :: u in r <==> u in users.value && UserMatches(u, Lower(query))
    ensures users.Some? ==> IsSubsequence(r, users.value)
  {
    SearchList(users, query, UserMatches)
  }

  /** The body sent to create a user. */
  datatype NewUser = NewUser(email: string, password: string, firstName: string, lastName: string, role: string, matricNumber: Option<string>)

  /** `handleCreateUser`: all five required fields must be non-empty, otherwise the page
      reports them and nothing is sent; an empty matriculation number is left out. */
  function CreateUserRequest(form: FormData): (r: Result<NewUser, string>)
    ensures r.Success? <==>
      Truthy(Field(form, "email")) && Truthy(Field(form, "password")) && Truthy(Field(form, "firstName"))
      && Truthy(Field(form, "lastName")) && Truthy(Field(form, "role"))
    ensures r.Failure? ==> r.error == FillRequired
    ensures r.Success? ==>
      r.value == NewUser(form["email"], form["password"], form["firstName"], form["lastName"], form["role"],
        OptionalField(form, "matricNumber"))
  {
    var email := Field(form, "email");
    var password := Field(form, "password");
    var firstName := Field(form, "firstName");
    var lastName := Field(form, "lastName");
    var role := Field(form, "role");
    if !Truthy(email) || !Truthy(password) || !Truthy(firstName) || !Truthy(lastName) || !Truthy(role) then
      Failure(FillRequired)
    else
      Success(NewUser(email.value, password.value, firstName.value, lastName.value, role.value, OptionalField(form, "matricNumber")))
  }

  /** The body sent to update a user. */
  datatype UserUpdate = UserUpdate(firstName: Option<string>, lastName: Option<string>, email: Option<string>, matricNumber: Option<string>)

  /** A role change the row menu can request. */
  datatype RoleChange = RoleChange(userId: string, role: string)

  /** The row menu's three role changes, in order; SUPER_ADMIN is never offered. */
  function RoleMenu(userId: string): (changes: seq<RoleChange>)
    ensures |changes| == 3
    ensures forall c :: c in changes ==> c.userId == userId && c.role != SuperAdmin
    ensures forall role :: role in {Student, InstructorRole, Admin} ==> RoleChange(userId, role) in changes
  {
    [RoleChange(userId, Student), RoleChange(userId, InstructorRole), RoleChange(userId, Admin)]
  }

  /** `handleDeleteUser`: the deletion is sent only when the user confirms. */
  method HandleDeleteUser(userId: string, confirmed: bool) returns (dispatched: Option<string>)
    ensures dispatched.Some? <==> confirmed
    ensures dispatched.Some? ==> dispatched.value == userId
  {
    if confirmed {
      dispatched := Some(userId);
    } else {
      dispatched := None;
    }
  }

  /** `roleColors`: the badge variant of each known role; other roles have none. */
  function RoleColor(role: string): (variant: Option<string>)
    ensures variant.Some? <==> role in {Student, InstructorRole, Admin, SuperAdmin}
    ensures role == Student ==> variant == Some("default")
    ensures role == InstructorRole ==> variant == Some("secondary")
    ensures role == Admin ==> variant == Some("destructive")
    ensures role == SuperAdmin ==> variant == Some("outline")
  {
    if role == Student then Some("default")
    else if role == InstructorRole then Some("secondary")
    else if role == Admin then Some("destructive")
    else if role == SuperAdmin then Some("outline")
    else None
  }

  /** The Matric Number column. */
  function MatricCell(u: User): (cell: string)
    ensures Truthy(u.matricNumber) ==> cell == u.matricNumber.value
    ensures !Truthy(u.matricNumber) ==> cell == NotAvailable
  {
    Or(u.matricNumber, NotAvailable)
  }

  /** The message when the list is empty; the super-admin list words its own the same way
      (`SuperAdminUsersPage.EmptyMessage`). */
  function EmptyMessage(query: string): (m: string)
    ensures query == "" <==> m == "No users found"
    ensures query != "" ==> m == "No users found matching your search"
  {
    if query != "" then "No users found matching your search" else "No users found"
  }

  /** The page's sheet and selection state. */
  class UsersPage {
    var selectedUser: Option<User>
    var editSheetOpen: bool
    var createSheetOpen: bool

    constructor()
      ensures Valid()
      ensures selectedUser.None? && !editSheetOpen && !createSheetOpen
    {
      selectedUser := None;
      editSheetOpen := false;
      createSheetOpen := false;
    }

    /** The edit sheet is only ever open with a user selected (dismissing the sheet keeps
        the selection, so the converse does not hold). */
    ghost predicate Valid()
      reads this
    {
      editSheetOpen ==> selectedUser.Some?
    }

    /** `handleEditUser`: select the user and open the edit sheet. */
    method EditUser(u: User)
      modifies this
      ensures Valid()
      ensures selectedUser == Some(u) && editSheetOpen && createSheetOpen == old(createSheetOpen)
    {
      selectedUser := Some(u);
      editSheetOpen := true;
    }

    /** A successful update closes the sheet and clears the selection. */
    method UpdateSucceeded()
      modifies this
      ensures Valid()
      ensures selectedUser.None? && !editSheetOpen && createSheetOpen == old(createSheetOpen)
    {
      editSheetOpen := false;
      selectedUser := None;
    }

    /** The edit sheet's Cancel button: the same as a successful update. */
    method CancelEdit()
      modifies this
      ensures Valid()
      ensures selectedUser.None? && !editSheetOpen && createSheetOpen == old(createSheetOpen)
    {
      editSheetOpen := false;
      selectedUser := None;
    }

    /** The edit sheet's `onOpenChange(false)` (Escape, the overlay or the close button):
        the sheet closes and the selection is kept. */
    method DismissEditSheet()
      modifies this
      ensures Valid()
      ensures !editSheetOpen && selectedUser == old(selectedUser) && createSheetOpen == old(createSheetOpen)
    {
      editSheetOpen := false;
    }

    /** The create sheet's `onOpenChange` (its trigger opens it; Escape, the overlay and
        its Cancel button close it). */
    method SetCreateSheetOpen(open: bool)
      requires Valid()
      modifies this
      ensures Valid()
      ensures createSheetOpen == open && selectedUser == old(selectedUser) && editSheetOpen == old(editSheetOpen)
    {
      createSheetOpen := open;
    }

    /** A successful creation closes the create sheet. */
    method CreateSucceeded()
      requires Valid()
      modifies this
      ensures Valid()
      ensures !createSheetOpen && selectedUser == old(selectedUser) && editSheetOpen == old(editSheetOpen)
    {
      createSheetOpen := false;
    }

    /** `handleUpdateUser`: nothing without a selected user; otherwise the update for that
        user's id, with the names and email as submitted and an empty matriculation number
        left out. The page state is not changed until the server answers. */
    method HandleUpdateUser(form: FormData) returns (dispatched: Option<(string, UserUpdate)>)
      ensures dispatched.Some? <==> selectedUser.Some?
      ensures dispatched.Some? ==>
        dispatched.value.0 == selectedUser.value.id
        && dispatched.value.1 == UserUpdate(Field(form, "firstName"), Field(form, "lastName"), Field(form, "email"),
             OptionalField(form, "matricNumber"))
    {
      if selectedUser.None? {
        return None;
      }
      var data := UserUpdate(Field(form, "firstName"), Field(form, "lastName"), Field(form, "email"),
        OptionalField(form, "matricNumber"));
      dispatched := Some((selectedUser.value.id, data));
    }
  }
}
