/** The cross-organization user list: its search, which also looks at the user's
    organization, the role badge and the cell fallbacks. */
module SuperAdminUsersPage {
  import opened Wrappers
  import opened Text
  import opened Lists
  import opened Entities
  import opened Search
  import AdminUsersPage

  const NotAvailable: string := "N/A"

  /** A user matches on email, names or role, or on the organization's name or slug when
      those are present. */
  predicate UserMatches(u: User, q: string) {
    Contains(Lower(u.email), q) || Contains(Lower(u.firstName), q) || Contains(Lower(u.lastName), q)
    || Contains(Lower(u.role), q)
    || (u.organization.Some? && (FieldMatches(u.organization.value.name, q) || FieldMatches(u.organization.value.slug, q)))
  }

  /** `filteredUsers`. The page repeats the admin list's search (`AdminUsersPage.FilterUsers`)
      with the organization's name and slug in place of the matriculation number. */
  function FilterUsers(users: Option<seq<User>>, query: string): (r: seq<User>)
    ensures users.None? ==> r == []
    ensures users.Some? && query == "" ==> r == users.value
    ensures users.Some? && query != "" ==> forall u :: u in r <==> u in users.value && UserMatches(u, Lower(query))
    ensures users.Some? ==> IsSubsequence(r, users.value)
  {
    SearchList(users, query, UserMatches)
  }

  /** A user without an organization is found only through their own fields. */
  lemma NoOrganizationNoOrgMatch(u: User, q: string)
    requires u.organization.None?
    ensures UserMatches(u, q) <==> AdminUsersPage.UserMatches(u.(matricNumber := None), q)
  {
  }

  /** `roleColors[user.role] || "outline"`. */
  function BadgeVariant(role: string): (variant: string)
    ensures AdminUsersPage.RoleColor(role).Some? ==> variant == AdminUsersPage.RoleColor(role).value
    ensures role !in {Student, InstructorRole, Admin, SuperAdmin} ==> variant == "outline"
  {
    AdminUsersPage.RoleColor(role).GetOr("outline")
  }

  /** The organization's name, else the organization id, else "N/A". */
  function OrganizationCell(organization: Option<OrgRef>, organizationId: Option<string>): (cell: string)
    ensures organization.Some? && Truthy(organization.value.name) ==> cell == organization.value.name.value
    ensures !(organization.Some? && Truthy(organization.value.name)) && Truthy(organizationId) ==> cell == organizationId.value
    ensures !(organization.Some? && Truthy(organization.value.name)) && !Truthy(organizationId) ==> cell == NotAvailable
  {
    Or(OrElse(if organization.Some? then organization.value.name else None, organizationId), NotAvailable)
  }

  /** `user.totalCourses || 0`. */
  function CoursesCell(u: User): (n: int)
    ensures u.totalCourses.Some? ==> n == u.totalCourses.value
    ensures u.totalCourses.None? ==> n == 0
  {
    if u.totalCourses.Some? && u.totalCourses.value != 0 then u.totalCourses.value else 0
  }

  /** The Last Active column: a date, or "Never". */
  datatype LastActive = Never | On(millis: int)

  function LastActiveCell(u: User): (cell: LastActive)
    ensures cell == Never <==> u.lastActiveAt.None?
    ensures cell.On? ==> cell.millis == u.lastActiveAt.value
  {
    if u.lastActiveAt.Some? then On(u.lastActiveAt.value) else Never
  }

  /** The message when the list is empty; the courses page words its own the same way
      (`AdminCoursesPage.EmptyMessage`). */
  function EmptyMessage(query: string): (m: string)
    ensures query == "" <==> m == "No users found"
    ensures query != "" ==> m == "No users found matching your search"
  {
    if query != "" then "No users found matching your search" else "No users found"
  }
}
