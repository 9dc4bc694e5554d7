/** The records the console receives from the backend. Every field the components treat as
    possibly missing is an `Option`; timestamps are integer milliseconds. */
module Entities {
  import opened Wrappers
  import opened Text

  /** The organization summary embedded in users and courses. */
  datatype OrgRef = OrgRef(name: Option<string>, slug: Option<string>)

  datatype User = User(
    id: string,
    email: string,
    firstName: string,
    lastName: string,
    role: string,
    matricNumber: Option<string>,
    organization: Option<OrgRef>,
    organizationId: Option<string>,
    totalCourses: Option<int>,
    lastActiveAt: Option<int>)

  datatype Instructor = Instructor(firstName: Option<string>, lastName: Option<string>)

  datatype Course = Course(
    id: string,
    title: string,
    code: Option<string>,
    summary: Option<string>,
    instructor: Option<Instructor>,
    instructorId: Option<string>,
    organization: Option<OrgRef>,
    organizationId: Option<string>,
    enrollments: Option<seq<string>>,
    createdAt: Option<int>)

  datatype Features = Features(messaging: bool, notifications: bool, analytics: bool)

  /** `maxUsers` is whatever `parseInt` produced, so it may be NaN. */
  datatype OrgSettings = OrgSettings(maxUsers: Option<JsNumber>, features: Features)

  datatype Organization = Organization(
    id: string,
    name: string,
    slug: string,
    domain: Option<string>,
    description: Option<string>,
    settings: Option<OrgSettings>,
    isActive: bool,
    createdAt: Option<int>)

  datatype Enrollment = Enrollment(id: string, userId: string, courseId: string, status: string)

  const SuperAdmin: string := "SUPER_ADMIN"
  const Admin: string := "ADMIN"
  const InstructorRole: string := "INSTRUCTOR"
  const Student: string := "STUDENT"
}
