/** The super-admin course table: the cells it shows for each course. */
module SuperAdminCoursesPage {
  import opened Wrappers
  import opened Text
  import opened Entities
  import AdminCoursesPage
  import SuperAdminUsersPage

  /** One table row. */
  datatype Row = Row(title: string, code: string, instructor: string, organization: string, enrollments: nat, created: Option<int>)

  /** Each column with its fallback: the code or "N/A"; the instructor by the same rule as
      the admin list; the organization's name, else its id, else "N/A"; the enrollment
      count or 0; the creation date when known. */
  function RowOf(c: Course): (r: Row)
    ensures r.title == c.title
    ensures r.code == AdminCoursesPage.CodeCell(c) && (r.code == "N/A" <== !Truthy(c.code))
    ensures r.instructor == AdminCoursesPage.InstructorName(c) && r.instructor != ""
    ensures r.organization == SuperAdminUsersPage.OrganizationCell(c.organization, c.organizationId)
    ensures r.enrollments == (if c.enrollments.Some? then |c.enrollments.value| else 0)
    ensures r.created == c.createdAt
  {
    Row(c.title, AdminCoursesPage.CodeCell(c), AdminCoursesPage.InstructorName(c),
      SuperAdminUsersPage.OrganizationCell(c.organization, c.organizationId),
      AdminCoursesPage.EnrollmentCount(c), c.createdAt)
  }
}
