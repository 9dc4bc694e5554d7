/** The four summary cards of the admin dashboard. The three queries are parameters; the
    figures are kept as numbers before `toFixed` formatting. */
module AdminSectionCards {
  import opened Wrappers
  import opened Lists

  /** Thirty days in milliseconds: the "active this month" window. */
  const ActiveWindow: int := 30 * 24 * 60 * 60 * 1000

  /** A user statistics entry; its last activity is a time in milliseconds. */
  datatype UserStat = UserStat(lastActiveAt: Option<int>)

  /** A course statistics entry. */
  datatype CourseStat = CourseStat(totalEnrollments: Option<int>, activeEnrollments: Option<int>, completedEnrollments: Option<int>)

  datatype Performance = Performance(uptime: Option<real>, responseTime: Option<int>)

  datatype Health = Health(uptime: Option<real>, performance: Option<Performance>)

  /** A user counts as active when a last activity is recorded strictly after the start of
      the window ending at `now`. */
  predicate ActiveSince(u: UserStat, now: int) {
    u.lastActiveAt.Some? && u.lastActiveAt.value > now - ActiveWindow
  }

  /** `userStats?.length || 0`. */
  function TotalUsers(userStats: Option<seq<UserStat>>): (n: nat)
    ensures userStats.None? ==> n == 0
    ensures userStats.Some? ==> n == |userStats.value|
  {
    if userStats.Some? then |userStats.value| else 0
  }

  /** The users active this month: never more than all users, none without data. */
  function ActiveUsers(userStats: Option<seq<UserStat>>, now: int): (n: nat)
    ensures n <= TotalUsers(userStats)
    ensures userStats.None? ==> n == 0
    ensures userStats.Some? ==> n == |Filter(userStats.value, (u: UserStat) => ActiveSince(u, now))|
  {
    if userStats.None? then 0
    else
      CountIsFilterLength(userStats.value, (u: UserStat) => ActiveSince(u, now));
      Count(userStats.value, (u: UserStat) => ActiveSince(u, now))
  }

  /** As time passes the window moves on: a later `now` never counts more active users. */
  lemma ActiveUsersShrinkOverTime(userStats: Option<seq<UserStat>>, earlier: int, later: int)
    requires earlier <= later
    ensures ActiveUsers(userStats, later) <= ActiveUsers(userStats, earlier)
  {
    if userStats.Some? {
      CountMonotone(userStats.value, (u: UserStat) => ActiveSince(u, later), (u: UserStat) => ActiveSince(u, earlier));
    }
  }

  /** A user with no recorded activity is never active. */
  lemma NoActivityNeverActive(u: UserStat, now: int)
    requires u.lastActiveAt.None?
    ensures !ActiveSince(u, now)
  {
  }

  function EnrollmentsOf(c: CourseStat): real {
    c.totalEnrollments.GetOr(0) as real
  }

  function CompletedOf(c: CourseStat): real {
    c.completedEnrollments.GetOr(0) as real
  }

  function ActiveOf(c: CourseStat): real {
    c.activeEnrollments.GetOr(0) as real
  }

  /** `courseStats?.length || 0`, the same expression as `TotalUsers` over the courses. */
  function TotalCourses(courseStats: Option<seq<CourseStat>>): (n: nat)
    ensures courseStats.None? ==> n == 0
    ensures courseStats.Some? ==> n == |courseStats.value|
  {
    if courseStats.Some? then |courseStats.value| else 0
  }

  /** No course reports a negative figure. */
  predicate FiguresNonNegative(courseStats: Option<seq<CourseStat>>) {
    courseStats.Some? ==> forall c :: c in courseStats.value ==>
      c.totalEnrollments.GetOr(0) >= 0 && c.activeEnrollments.GetOr(0) >= 0
  }

  /** The enrollment total over every course, a missing figure counting 0. */
  function TotalEnrollments(courseStats: Option<seq<CourseStat>>): (t: real)
    ensures courseStats.None? ==> t == 0.0
    ensures courseStats.Some? ==> t == Sum(courseStats.value, EnrollmentsOf)
    ensures FiguresNonNegative(courseStats) ==> t >= 0.0
  {
    if courseStats.Some? then
      SumNonNegativeWhen(courseStats, EnrollmentsOf);
      Sum(courseStats.value, EnrollmentsOf)
    else 0.0
  }

  /** The active enrollment total over every course, a missing figure counting 0 (computed
      by the card though not shown). */
  function ActiveEnrollments(courseStats: Option<seq<CourseStat>>): (t: real)
    ensures courseStats.None? ==> t == 0.0
    ensures courseStats.Some? ==> t == Sum(courseStats.value, ActiveOf)
    ensures FiguresNonNegative(courseStats) ==> t >= 0.0
  {
    if courseStats.Some? then
      SumNonNegativeWhen(courseStats, ActiveOf);
      Sum(courseStats.value, ActiveOf)
    else 0.0
  }

  lemma SumNonNegativeWhen(courseStats: Option<seq<CourseStat>>, f: CourseStat -> real)
    requires courseStats.Some?
    requires f == EnrollmentsOf || f == ActiveOf
    ensures FiguresNonNegative(courseStats) ==> Sum(courseStats.value, f) >= 0.0
  {
    if FiguresNonNegative(courseStats) {
      SumNonNegative(courseStats.value, f);
    }
  }

  /** Each further course adds exactly its own figures to both totals. */
  lemma TotalsAddPerCourse(courses: seq<CourseStat>, c: CourseStat)
    ensures TotalEnrollments(Some(courses + [c])) == TotalEnrollments(Some(courses)) + c.totalEnrollments.GetOr(0) as real
    ensures ActiveEnrollments(Some(courses + [c])) == ActiveEnrollments(Some(courses)) + c.activeEnrollments.GetOr(0) as real
  {
  }

  /** The completion rate is the literal 0 unless enrollments are positive. */
  datatype Rate = NoRate | Percent(value: real)

  function CompletionRate(courseStats: Option<seq<CourseStat>>): (r: Rate)
    ensures r.Percent? <==> TotalEnrollments(courseStats) > 0.0
    ensures r.Percent? ==>
      r.value * TotalEnrollments(courseStats) == Sum(courseStats.value, CompletedOf) * 100.0
  {
    var total := TotalEnrollments(courseStats);
    if total > 0.0 then Percent(Sum(courseStats.value, CompletedOf) / total * 100.0) else NoRate
  }

  /** When no course has more completions than enrollments, nor a negative figure, the
      completion rate lies within [0, 100]. */
  lemma CompletionRateInRange(courseStats: Option<seq<CourseStat>>)
    requires courseStats.Some?
    requires forall c :: c in courseStats.value ==> 0.0 <= CompletedOf(c) <= EnrollmentsOf(c)
    ensures CompletionRate(courseStats).Percent? ==> 0.0 <= CompletionRate(courseStats).value <= 100.0
  {
    var s := courseStats.value;
    SumMonotone(s, CompletedOf, EnrollmentsOf);
    SumNonNegative(s, CompletedOf);
    var total := Sum(s, EnrollmentsOf);
    var done := Sum(s, CompletedOf);
    if total > 0.0 {
      AverageBounded(done, total, 0.0, 1.0);
    }
  }

  /** `Math.min(Math.max(x, 0), 100)`. */
  function Clamp(x: real): (r: real)
    ensures 0.0 <= r <= 100.0
    ensures 0.0 <= x <= 100.0 ==> r == x
    ensures x < 0.0 ==> r == 0.0
    ensures x > 100.0 ==> r == 100.0
  {
    if x < 0.0 then 0.0 else if x > 100.0 then 100.0 else x
  }

  predicate TruthyReal(x: Option<real>) {
    x.Some? && x.value != 0.0
  }

  /** `health.performance?.uptime` and `health.performance?.responseTime`. */
  function PerformanceUptime(h: Health): Option<real> {
    if h.performance.Some? then h.performance.value.uptime else None
  }

  function PerformanceResponseTime(h: Health): Option<int> {
    if h.performance.Some? then h.performance.value.responseTime else None
  }

  /** The uptime shown: the performance uptime when truthy, else the overall uptime when
      truthy, clamped to [0, 100]; "N/A" (None) when neither is. */
  function Uptime(health: Option<Health>): (r: Option<real>)
    ensures r.Some? ==> 0.0 <= r.value <= 100.0
    ensures r.Some? <==>
      (health.Some? && (TruthyReal(PerformanceUptime(health.value)) || TruthyReal(health.value.uptime)))
    ensures health.Some? && TruthyReal(PerformanceUptime(health.value)) ==>
      r == Some(Clamp(PerformanceUptime(health.value).value))
    ensures health.Some? && !TruthyReal(PerformanceUptime(health.value)) && TruthyReal(health.value.uptime) ==>
      r == Some(Clamp(health.value.uptime.value))
  {
    if health.None? then None
    else if TruthyReal(PerformanceUptime(health.value)) then Some(Clamp(PerformanceUptime(health.value).value))
    else if TruthyReal(health.value.uptime) then Some(Clamp(health.value.uptime.value))
    else None
  }

  /** The response-time line replaces "Platform performance" exactly when a non-zero
      response time is reported. */
  function ResponseTime(health: Option<Health>): (r: Option<int>)
    ensures r.Some? <==>
      (health.Some? && PerformanceResponseTime(health.value).Some? && PerformanceResponseTime(health.value).value != 0)
    ensures r.Some? ==> r == PerformanceResponseTime(health.value)
  {
    if health.None? then None
    else
      var t := PerformanceResponseTime(health.value);
      if t.Some? && t.value != 0 then t else None
  }
}
