/** The admin enrollments page: the create check, the status badge, name lookups that fall
    back to the id, the student picker and the row menu. */
module AdminEnrollmentsPage {
  import opened Wrappers
  import opened Text
  import opened Lists
  import opened Entities
  import opened Forms

  const SelectBoth: string := "Please select both a user and a course"
  const Active: string := "ACTIVE"
  const Completed: string := "COMPLETED"
  const Dropped: string := "DROPPED"

  /** `handleCreateEnrollment`: both ids must be chosen, otherwise nothing is sent. */
  method HandleCreateEnrollment(form: FormData) returns (dispatched: Option<(string, string)>, toast: Option<string>)
    ensures dispatched.Some? <==> Truthy(Field(form, "userId")) && Truthy(Field(form, "courseId"))
    ensures dispatched.Some? ==> dispatched.value == (form["userId"], form["courseId"]) && toast.None?
    ensures dispatched.None? ==> toast == Some(SelectBoth)
  {
    var userId := Field(form, "userId");
    var courseId := Field(form, "courseId");
    if !Truthy(userId) || !Truthy(courseId) {
      return None, Some(SelectBoth);
    }
    dispatched, toast := Some((userId.value, courseId.value)), None;
  }

  /** `getStatusBadge`: the variant of each known status, "outline" otherwise. */
  function StatusVariant(status: string): (variant: string)
    ensures status == Active <==> variant == "default"
    ensures status == Completed <==> variant == "secondary"
    ensures status == Dropped <==> variant == "destructive"
    ensures status !in {Active, Completed, Dropped} <==> variant == "outline"
  {
    if status == Active then "default"
    else if status == Completed then "secondary"
    else if status == Dropped then "destructive"
    else "outline"
  }

  /** `getUserName`: "first last" of the first user with that id, else the id itself. */
  function UserName(users: Option<seq<User>>, userId: string): (name: string)
    ensures users.None? || (forall u :: u in users.value ==> u.id != userId) ==> name == userId
    ensures users.Some? && (exists u :: u in users.value && u.id == userId) ==>
      exists i :: 0 <= i < |users.value| && users.value[i].id == userId
        && (forall j :: 0 <= j < i ==> users.value[j].id != userId)
        && name == users.value[i].firstName + " " + users.value[i].lastName
  {
    if users.None? then userId
    else match Find(users.value, (u: User) => u.id == userId)
      case Some(u) => u.firstName + " " + u.lastName
      case None => userId
  }

  /** `getCourseName`: the title of the course with that id, else the id itself. */
  function CourseName(courses: Option<seq<Course>>, courseId: string): (name: string)
    ensures courses.None? || (forall c :: c in courses.value ==> c.id != courseId) ==> name == courseId
    ensures courses.Some? && (exists c :: c in courses.value && c.id == courseId) ==>
      exists i :: 0 <= i < |courses.value| && courses.value[i].id == courseId
        && (forall j :: 0 <= j < i ==> courses.value[j].id != courseId)
        && name == courses.value[i].title
  {
    if courses.None? then courseId
    else match Find(courses.value, (c: Course) => c.id == courseId)
      case Some(c) => c.title
      case None => courseId
  }

  /** The student picker: exactly the users whose role is STUDENT, in order. */
  function Students(users: Option<seq<User>>): (r: seq<User>)
    ensures forall u :: u in r <==> u in users.GetOr([]) && u.role == Student
    ensures IsSubsequence(r, users.GetOr([]))
  {
    var all := users.GetOr([]);
    var keep := (u: User) => u.role == Student;
    FilterMembers(all, keep);
    FilterIsSubsequence(all, keep);
    Filter(all, keep)
  }

  /** An item of an enrollment row's menu. */
  datatype MenuAction = ChangeStatus(enrollmentId: string, status: string) | Delete(id: string)

  /** The position of a status in the row menu. */
  function StatusRank(s: string): nat {
    if s == Active then 0 else if s == Completed then 1 else 2
  }

  /** Every status other than the current one, in the order ACTIVE, COMPLETED, DROPPED,
      and then Delete. */
  function MenuActions(e: Enrollment): (r: seq<MenuAction>)
    ensures r != [] && r[|r| - 1] == Delete(e.id)
    ensures forall s :: ChangeStatus(e.id, s) in r <==> s in {Active, Completed, Dropped} && s != e.status
    ensures forall a :: a in r ==> a.ChangeStatus? ==> a.enrollmentId == e.id
    ensures |r| == (if e.status in {Active, Completed, Dropped} then 3 else 4)
    ensures forall i :: 0 <= i < |r| - 1 ==> r[i].ChangeStatus?
    ensures forall i, j :: 0 <= i < j < |r| - 1 ==> StatusRank(r[i].status) < StatusRank(r[j].status)
  {
    (if e.status != Active then [ChangeStatus(e.id, Active)] else [])
    + (if e.status != Completed then [ChangeStatus(e.id, Completed)] else [])
    + (if e.status != Dropped then [ChangeStatus(e.id, Dropped)] else [])
    + [Delete(e.id)]
  }

  /** `handleDeleteEnrollment`: the deletion is sent only when the user confirms. */
  method HandleDeleteEnrollment(enrollmentId: string, confirmed: bool) returns (dispatched: Option<string>)
    ensures dispatched.Some? <==> confirmed
    ensures dispatched.Some? ==> dispatched.value == enrollmentId
  {
    dispatched := if confirmed then Some(enrollmentId) else None;
  }

  /** The page waits for all three of its queries; the analytics page repeats the same
      expression (`AdminAnalyticsPage.PageLoading`). */
  function PageLoading(enrollmentsLoading: bool, usersLoading: bool, coursesLoading: bool): (b: bool)
    ensures enrollmentsLoading || usersLoading || coursesLoading ==> b
    ensures b ==> enrollmentsLoading || usersLoading || coursesLoading
  {
    enrollmentsLoading || usersLoading || coursesLoading
  }
}
