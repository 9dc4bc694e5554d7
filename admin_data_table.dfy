/** The dashboard's recent-activity table: five recent users or ten recent courses, with
    relative times for the users' last activity. */
module AdminDataTable {
  import opened Wrappers
  import opened Text
  import opened Lists
  import opened Entities
  import AdminCoursesPage
  import SuperAdminUsersPage

  /** A minute, an hour and a day in milliseconds. */
  const MinuteMs: int := 60000
  const HourMs: int := 3600000
  const DayMs: int := 86400000

  /** What `formatRelativeTime` shows. `ShortDate` is the month-and-day rendering of the
      date itself. */
  datatype RelativeTime = JustNow | MinutesAgo(minutes: int) | HoursAgo(hours: int) | Yesterday | DaysAgo(days: int) | ShortDate

  /** The bucket for a time `diffMs` milliseconds in the past. `Math.floor` of a quotient
      by a positive divisor is Dafny's `/`. */
  function RelativeTimeOf(diffMs: int): (r: RelativeTime)
    ensures r.MinutesAgo? ==> 2 <= r.minutes < 60
    ensures r.HoursAgo? ==> 1 <= r.hours < 24
    ensures r.DaysAgo? ==> r.days < 7 && r.days != 0 && r.days != 1
  {
    var diffDays := diffMs / DayMs;
    if diffDays == 0 then
      var diffHours := diffMs / HourMs;
      if diffHours == 0 then
        var diffMinutes := diffMs / MinuteMs;
        if diffMinutes <= 1 then JustNow else MinutesAgo(diffMinutes)
      else HoursAgo(diffHours)
    else if diffDays == 1 then Yesterday
    else if diffDays < 7 then DaysAgo(diffDays)
    else ShortDate
  }

  /** Under two minutes is "Just now"; then whole minutes up to the hour. */
  lemma MinuteBuckets(diffMs: int)
    ensures RelativeTimeOf(diffMs) == JustNow <==> 0 <= diffMs < 2 * MinuteMs
    ensures RelativeTimeOf(diffMs).MinutesAgo? <==> 2 * MinuteMs <= diffMs < HourMs
    ensures RelativeTimeOf(diffMs).MinutesAgo? ==>
      RelativeTimeOf(diffMs).minutes * MinuteMs <= diffMs < (RelativeTimeOf(diffMs).minutes + 1) * MinuteMs
  {
    if 0 <= diffMs < HourMs {
      assert diffMs / DayMs == 0 && diffMs / HourMs == 0;
      var m := diffMs / MinuteMs;
      assert m * MinuteMs <= diffMs < (m + 1) * MinuteMs;
      assert m <= 1 <==> diffMs < 2 * MinuteMs;
    } else if diffMs < 0 {
      assert diffMs / DayMs < 0;
    } else {
      assert diffMs / DayMs != 0 || diffMs / HourMs != 0;
    }
  }

  /** From one hour to one day: whole hours. */
  lemma HourBuckets(diffMs: int)
    ensures RelativeTimeOf(diffMs).HoursAgo? <==> HourMs <= diffMs < DayMs
    ensures RelativeTimeOf(diffMs).HoursAgo? ==>
      RelativeTimeOf(diffMs).hours * HourMs <= diffMs < (RelativeTimeOf(diffMs).hours + 1) * HourMs
  {
    if HourMs <= diffMs < DayMs {
      assert diffMs / DayMs == 0;
      var h := diffMs / HourMs;
      assert h * HourMs <= diffMs < (h + 1) * HourMs;
      assert h != 0;
    } else if diffMs < 0 {
      assert diffMs / DayMs < 0;
    } else if diffMs < HourMs {
      assert diffMs / HourMs == 0;
    } else {
      assert diffMs / DayMs != 0;
    }
  }

  /** Then "Yesterday", whole days below a week, and a calendar date from a week on. A date
      in the future gives a negative number of days, which falls into the "days ago"
      bucket. */
  lemma DayBuckets(diffMs: int)
    ensures RelativeTimeOf(diffMs) == Yesterday <==> DayMs <= diffMs < 2 * DayMs
    ensures RelativeTimeOf(diffMs).DaysAgo? <==> diffMs < 0 || 2 * DayMs <= diffMs < 7 * DayMs
    ensures RelativeTimeOf(diffMs).DaysAgo? ==>
      RelativeTimeOf(diffMs).days * DayMs <= diffMs < (RelativeTimeOf(diffMs).days + 1) * DayMs
    ensures RelativeTimeOf(diffMs) == ShortDate <==> diffMs >= 7 * DayMs
  {
    var d := diffMs / DayMs;
    assert d * DayMs <= diffMs < (d + 1) * DayMs;
    assert d == 0 <==> 0 <= diffMs < DayMs;
    assert d == 1 <==> DayMs <= diffMs < 2 * DayMs;
    assert d < 0 <==> diffMs < 0;
    assert d >= 7 <==> diffMs >= 7 * DayMs;
  }

  /** The label of a bucket; `None` for the short date, which depends on the locale. */
  function Label(r: RelativeTime): (text: Option<string>)
    ensures text.None? <==> r == ShortDate
  {
    match r
    case JustNow => Some("Just now")
    case MinutesAgo(m) => Some(IntToString(m) + " minutes ago")
    case HoursAgo(h) => Some(IntToString(h) + (if h == 1 then " hour" else " hours") + " ago")
    case Yesterday => Some("Yesterday")
    case DaysAgo(d) => Some(IntToString(d) + " days ago")
    case ShortDate => None
  }

  /** The number in a counted label is the count itself: `parseInt` reads it back. */
  lemma LabelCountReadsBack(r: RelativeTime)
    requires r.MinutesAgo? || r.HoursAgo? || r.DaysAgo?
    ensures r.MinutesAgo? ==> ParseInt(Label(r).value) == Int(r.minutes)
    ensures r.HoursAgo? ==> ParseInt(Label(r).value) == Int(r.hours)
    ensures r.DaysAgo? ==> ParseInt(Label(r).value) == Int(r.days)
  {
    match r
    case MinutesAgo(m) =>
      ParseIntOfLabel(m, " minutes ago");
    case HoursAgo(h) =>
      var unit := if h == 1 then " hour" else " hours";
      assert Label(r).value == IntToString(h) + (unit + " ago");
      ParseIntOfLabel(h, unit + " ago");
    case DaysAgo(d) =>
      ParseIntOfLabel(d, " days ago");
  }

  /** Between one and two hours ago reads "1 hour ago"; from two hours on, the plural. */
  lemma HourPlural(diffMs: int)
    requires HourMs <= diffMs < DayMs
    ensures diffMs < 2 * HourMs ==> Label(RelativeTimeOf(diffMs)) == Some("1 hour ago")
    ensures diffMs >= 2 * HourMs ==>
      Label(RelativeTimeOf(diffMs)) == Some(IntToString(diffMs / HourMs) + " hours ago")
  {
    assert diffMs / DayMs == 0;
    var h := diffMs / HourMs;
    assert RelativeTimeOf(diffMs) == HoursAgo(h);
    if h == 1 {
      SmallNumberRendering();
      assert "1" + " hour" + " ago" == "1 hour ago";
    } else {
      assert IntToString(h) + " hours" + " ago" == IntToString(h) + " hours ago";
    }
  }

  /** A last-activity time up to a day in the future reads "-1 days ago". */
  lemma FutureActivityShowsNegativeDays(diffMs: int)
    requires -DayMs <= diffMs < 0
    ensures Label(RelativeTimeOf(diffMs)) == Some("-1 days ago")
  {
    assert diffMs / DayMs == -1;
    assert RelativeTimeOf(diffMs) == DaysAgo(-1);
    SmallNumberRendering();
    assert Label(DaysAgo(-1)).value == IntToString(-1) + " days ago";
    assert "-1" + " days ago" == "-1 days ago";
  }

  /** Which list the table shows. */
  datatype View = Users | Courses

  /** The loading state follows the query of the current view only. */
  function IsLoading(view: View, usersLoading: bool, coursesLoading: bool): (b: bool)
    ensures view == Users ==> b == usersLoading
    ensures view == Courses ==> b == coursesLoading
  {
    if view == Users then usersLoading else coursesLoading
  }

  /** The first five users, or none when the data is not a list. */
  function RecentUsers(users: Option<seq<User>>): (r: seq<User>)
    ensures users.None? ==> r == []
    ensures users.Some? ==> |r| == (if |users.value| < 5 then |users.value| else 5) && r == users.value[..|r|]
  {
    if users.Some? then Take(users.value, 5) else []
  }

  /** The first ten courses, or none when the data is not a list. */
  function RecentCourses(courses: Option<seq<Course>>): (r: seq<Course>)
    ensures courses.None? ==> r == []
    ensures courses.Some? ==> |r| == (if |courses.value| < 10 then |courses.value| else 10) && r == courses.value[..|r|]
  {
    if courses.Some? then Take(courses.value, 10) else []
  }

  /** The last-activity cell: "Never", or the relative time. */
  datatype Activity = Never | Ago(when: RelativeTime)

  /** One user line. */
  datatype UserLine = UserLine(name: string, variant: string, courses: int, activity: Activity)

  /** The full name, the role's badge variant (outline for unknown roles), the course count
      or 0, and the activity measured against `now`. */
  function UserLineOf(u: User, now: int): (l: UserLine)
    ensures l.name == u.firstName + " " + u.lastName
    ensures l.variant == SuperAdminUsersPage.BadgeVariant(u.role)
    ensures l.courses == SuperAdminUsersPage.CoursesCell(u)
    ensures l.activity == Never <==> u.lastActiveAt.None?
    ensures u.lastActiveAt.Some? ==> l.activity == Ago(RelativeTimeOf(now - u.lastActiveAt.value))
  {
    UserLine(u.firstName + " " + u.lastName, SuperAdminUsersPage.BadgeVariant(u.role),
      SuperAdminUsersPage.CoursesCell(u),
      if u.lastActiveAt.Some? then Ago(RelativeTimeOf(now - u.lastActiveAt.value)) else Never)
  }

  /** One course row: the same cells as the admin course list. */
  datatype CourseRow = CourseRow(title: string, code: string, instructor: string, enrollments: nat, created: Option<int>)

  function CourseRowOf(c: Course): (r: CourseRow)
    ensures r.title == c.title
    ensures r.code == AdminCoursesPage.CodeCell(c)
    ensures r.instructor == AdminCoursesPage.InstructorName(c) && r.instructor != ""
    ensures r.enrollments == (if c.enrollments.Some? then |c.enrollments.value| else 0)
    ensures r.created == c.createdAt
  {
    CourseRow(c.title, AdminCoursesPage.CodeCell(c), AdminCoursesPage.InstructorName(c),
      AdminCoursesPage.EnrollmentCount(c), c.createdAt)
  }
}
