/** The admin analytics page: the role distribution, the average metrics and the top of the
    course list. The averages stop before `toFixed` formatting: they are kept as reals. */
module AdminAnalyticsPage {
  import opened Wrappers
  import opened Text
  import opened Lists

  /** One entry of the user statistics. */
  datatype UserStat = UserStat(role: string, totalCourses: Option<int>, completedCourses: Option<int>, averageQuizScore: Option<real>)

  // ---------------------------------------------------------------- role distribution

  /** The roles in the order they first occur: the key order of the distribution object. */
  function DistinctRoles(s: seq<UserStat>): seq<string> {
    if s == [] then []
    else
      var d := DistinctRoles(s[..|s| - 1]);
      if s[|s| - 1].role in d then d else d + [s[|s| - 1].role]
  }

  /** How many users have `role`. */
  function CountRole(s: seq<UserStat>, role: string): nat {
    Count(s, (u: UserStat) => u.role == role)
  }

  /** Some user has `role`. */
  ghost predicate SomeoneHas(s: seq<UserStat>, role: string) {
    exists i :: 0 <= i < |s| && s[i].role == role
  }

  /** A role is listed exactly when some user has it, and none is listed twice. */
  lemma {:induction false} DistinctRolesSpec(s: seq<UserStat>)
    ensures forall r :: r in DistinctRoles(s) <==> SomeoneHas(s, r)
    ensures forall i, j :: 0 <= i < j < |DistinctRoles(s)| ==> DistinctRoles(s)[i] != DistinctRoles(s)[j]
    decreases |s|
  {
    if s != [] {
      var t := s[..|s| - 1];
      DistinctRolesSpec(t);
      forall r ensures SomeoneHas(s, r) <==> SomeoneHas(t, r) || s[|s| - 1].role == r {
        if SomeoneHas(s, r) {
          var i :| 0 <= i < |s| && s[i].role == r;
          if i < |t| {
            assert t[i].role == r;
          }
        }
        if SomeoneHas(t, r) {
          var i :| 0 <= i < |t| && t[i].role == r;
          assert s[i].role == r;
        }
      }
    }
  }

  /** A role no user has is counted zero times. */
  lemma {:induction false} CountAbsentRole(s: seq<UserStat>, role: string)
    requires !SomeoneHas(s, role)
    ensures CountRole(s, role) == 0
    decreases |s|
  {
    if s != [] {
      CountAbsentRole(s[..|s| - 1], role);
    }
  }

  /** The counts of the listed roles, added up. */
  function SumCounts(s: seq<UserStat>, roles: seq<string>): nat {
    if roles == [] then 0 else SumCounts(s, roles[..|roles| - 1]) + CountRole(s, roles[|roles| - 1])
  }

  /** One more user adds one to the sum when its role is listed, and nothing otherwise. */
  lemma {:induction false} SumCountsStep(s: seq<UserStat>, x: UserStat, roles: seq<string>)
    requires forall i, j :: 0 <= i < j < |roles| ==> roles[i] != roles[j]
    ensures SumCounts(s + [x], roles) == SumCounts(s, roles) + (if x.role in roles then 1 else 0)
    decreases |roles|
  {
    if roles != [] {
      var init := roles[..|roles| - 1];
      SumCountsStep(s, x, init);
      assert (s + [x])[..|s + [x]| - 1] == s;
      var last := roles[|roles| - 1];
      assert x.role in roles <==> x.role in init || x.role == last;
      assert x.role == last ==> x.role !in init;
    }
  }

  /** The role counts add up to the number of users. */
  lemma {:induction false} RoleCountsSumToUsers(s: seq<UserStat>)
    ensures SumCounts(s, DistinctRoles(s)) == |s|
    decreases |s|
  {
    if s != [] {
      var t := s[..|s| - 1];
      var x := s[|s| - 1];
      assert s == t + [x];
      RoleCountsSumToUsers(t);
      var d := DistinctRoles(t);
      DistinctRolesSpec(t);
      SumCountsStep(t, x, d);
      if x.role !in d {
        CountAbsentRole(t, x.role);
        assert CountRole(s, x.role) == CountRole(t, x.role) + 1;
        assert DistinctRoles(s)[..|DistinctRoles(s)| - 1] == d;
      }
    }
  }

  /** `roleDistribution`: one pass over the users, adding each role the first time it is
      seen and counting it every time. No data gives an empty distribution. */
  method RoleDistribution(userStats: Option<seq<UserStat>>) returns (roles: seq<string>, counts: map<string, nat>)
    ensures userStats.None? ==> roles == [] && counts == map[]
    ensures roles == DistinctRoles(userStats.GetOr([]))
    ensures counts.Keys == set r | r in roles
    ensures forall r :: r in counts ==> counts[r] == CountRole(userStats.GetOr([]), r)
  {
    roles, counts := [], map[];
    if userStats.None? {
      return;
    }
    var s := userStats.value;
    var i := 0;
    while i < |s|
      invariant 0 <= i <= |s|
      invariant roles == DistinctRoles(s[..i])
      invariant counts.Keys == set r | r in roles
      invariant forall r :: r in counts ==> counts[r] == CountRole(s[..i], r)
    {
      var role := s[i].role;
      assert s[..i + 1][..i] == s[..i];
      assert s[..i + 1][i] == s[i];
      if role in counts {
        counts := counts[role := counts[role] + 1];
      } else {
        roles := roles + [role];
        counts := counts[role := 1];
        CountAbsentRoleOfDistinct(s[..i], role);
      }
      i := i + 1;
    }
    assert s[..|s|] == s;
  }

  /** A role not yet listed has not been counted. */
  lemma CountAbsentRoleOfDistinct(s: seq<UserStat>, role: string)
    requires role !in DistinctRoles(s)
    ensures CountRole(s, role) == 0
  {
    DistinctRolesSpec(s);
    CountAbsentRole(s, role);
  }

  // ---------------------------------------------------------------- averages

  /** A metric before formatting: the literal "0", or a computed value. */
  datatype Metric = Zero | Value(v: real)

  datatype Metrics = Metrics(averageCourses: Metric, averageCompletionRate: Metric, averageQuizScore: Metric)

  /** `user.totalCourses || 0` and the like: a missing count is 0. */
  function CoursesOf(u: UserStat): real {
    if u.totalCourses.Some? then u.totalCourses.value as real else 0.0
  }

  function CompletedOf(u: UserStat): real {
    if u.completedCourses.Some? then u.completedCourses.value as real else 0.0
  }

  /** A quiz score counts only when it is truthy: present and non-zero. */
  predicate HasQuizScore(u: UserStat) {
    u.averageQuizScore.Some? && u.averageQuizScore.value != 0.0
  }

  function QuizOf(u: UserStat): real {
    if HasQuizScore(u) then u.averageQuizScore.value else 0.0
  }

  /** The quiz average over the users with a score; "0" when no user has one. */
  function QuizAverage(s: seq<UserStat>): (m: Metric)
    ensures m.Value? <==> exists u :: u in s && HasQuizScore(u)
    ensures m.Value? ==> |Filter(s, HasQuizScore)| > 0 && m.v == Sum(s, QuizOf) / |Filter(s, HasQuizScore)| as real
  {
    var scored := Filter(s, HasQuizScore);
    FilterMembers(s, HasQuizScore);
    QuizTotalIgnoresUnscored(s);
    if |scored| > 0 then Value(Sum(scored, QuizOf) / |scored| as real) else Zero
  }

  /** `averageMetrics`: all three are "0" without data; the course average is over every
      user; the completion rate needs a positive course total; the quiz average is over
      the users with a score and is "0" when there are none. */
  function AverageMetrics(userStats: Option<seq<UserStat>>): (m: Metrics)
    ensures userStats.None? || userStats.value == [] ==> m == Metrics(Zero, Zero, Zero)
    ensures userStats.Some? && userStats.value != [] ==>
      m.averageCourses == Value(Sum(userStats.value, CoursesOf) / |userStats.value| as real)
    ensures m.averageCompletionRate.Value? <==>
      userStats.Some? && userStats.value != [] && Sum(userStats.value, CoursesOf) > 0.0
    ensures m.averageCompletionRate.Value? ==>
      m.averageCompletionRate.v == Sum(userStats.value, CompletedOf) / Sum(userStats.value, CoursesOf) * 100.0
    ensures m.averageQuizScore.Value? <==>
      userStats.Some? && exists u :: u in userStats.value && HasQuizScore(u)
    ensures userStats.Some? && userStats.value != [] ==> m.averageQuizScore == QuizAverage(userStats.value)
  {
    if userStats.None? || userStats.value == [] then Metrics(Zero, Zero, Zero)
    else
      var s := userStats.value;
      var totalCourses := Sum(s, CoursesOf);
      var totalCompleted := Sum(s, CompletedOf);
      Metrics(
        Value(totalCourses / |s| as real),
        if totalCourses > 0.0 then Value(totalCompleted / totalCourses * 100.0) else Zero,
        QuizAverage(s))
  }

  /** Summing only the scored users gives the same total as summing everyone with a
      missing or zero score counted as 0. */
  lemma QuizTotalIgnoresUnscored(s: seq<UserStat>)
    ensures Sum(Filter(s, HasQuizScore), QuizOf) == Sum(s, QuizOf)
  {
    SumOverFilter(s, HasQuizScore, QuizOf);
  }

  /** With every score within [0, 100], so is the quiz average. */
  lemma QuizAverageInRange(s: seq<UserStat>)
    requires forall u :: u in s && u.averageQuizScore.Some? ==> 0.0 <= u.averageQuizScore.value <= 100.0
    ensures QuizAverage(s).Value? ==> 0.0 <= QuizAverage(s).v <= 100.0
  {
    var scored := Filter(s, HasQuizScore);
    if |scored| > 0 {
      var n := |scored| as real;
      var total := Sum(scored, QuizOf);
      assert QuizAverage(s) == Value(total / n);
      ScoresInRange(s, scored);
      SumBounded(scored, QuizOf, 0.0, 100.0);
      AverageBounded(total, n, 0.0, 100.0);
    }
  }

  lemma ScoresInRange(s: seq<UserStat>, scored: seq<UserStat>)
    requires scored == Filter(s, HasQuizScore)
    requires forall u :: u in s && u.averageQuizScore.Some? ==> 0.0 <= u.averageQuizScore.value <= 100.0
    ensures forall u :: u in scored ==> 0.0 <= QuizOf(u) <= 100.0
  {
    FilterMembers(s, HasQuizScore);
  }

  // ---------------------------------------------------------------- course list

  /** One entry of the course statistics. */
  datatype CourseStat = CourseStat(courseTitle: Option<string>, title: Option<string>, totalEnrollments: Option<int>, enrollments: Option<seq<string>>)

  /** The course card: the first five courses, and "+N more" when there are more. */
  datatype CourseList = NoCourseData | Listed(shown: seq<CourseStat>, more: Option<nat>)

  function CourseListOf(courseStats: Option<seq<CourseStat>>): (r: CourseList)
    ensures r == NoCourseData <==> courseStats.None? || courseStats.value == []
    ensures r.Listed? ==>
      (|r.shown| == (if |courseStats.value| < 5 then |courseStats.value| else 5)
       && r.shown == courseStats.value[..|r.shown|])
    ensures r.Listed? ==> (r.more.Some? <==> |courseStats.value| > 5)
    ensures r.Listed? && r.more.Some? ==> r.more.value + 5 == |courseStats.value|
  {
    if courseStats.None? || courseStats.value == [] then NoCourseData
    else
      var s := courseStats.value;
      Listed(Take(s, 5), if |s| > 5 then Some(|s| - 5) else None)
  }

  /** A course's label: `courseTitle || title`. */
  function CourseTitle(c: CourseStat): (t: Option<string>)
    ensures Truthy(c.courseTitle) ==> t == c.courseTitle
    ensures !Truthy(c.courseTitle) ==> t == c.title
  {
    OrElse(c.courseTitle, c.title)
  }

  /** `totalEnrollments || enrollments?.length || 0`. */
  function CourseEnrollments(c: CourseStat): (n: int)
    ensures c.totalEnrollments.Some? && c.totalEnrollments.value != 0 ==> n == c.totalEnrollments.value
    ensures (c.totalEnrollments.None? || c.totalEnrollments.value == 0) && c.enrollments.Some? ==> n == |c.enrollments.value|
    ensures (c.totalEnrollments.None? || c.totalEnrollments.value == 0) && c.enrollments.None? ==> n == 0
  {
    if c.totalEnrollments.Some? && c.totalEnrollments.value != 0 then c.totalEnrollments.value
    else if c.enrollments.Some? then |c.enrollments.value|
    else 0
  }

  /** The page waits for all three of its queries. */
  function PageLoading(userStatsLoading: bool, courseStatsLoading: bool, healthLoading: bool): (b: bool)
    ensures userStatsLoading || courseStatsLoading || healthLoading ==> b
    ensures b ==> userStatsLoading || courseStatsLoading || healthLoading
  {
    userStatsLoading || courseStatsLoading || healthLoading
  }
}
