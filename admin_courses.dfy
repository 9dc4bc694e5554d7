/** The admin course list: its search, the instructor name rule and the cell fallbacks
    the other course tables share. */
module AdminCoursesPage {
  import opened Wrappers
  import opened Text
  import opened Lists
  import opened Entities
  import opened Search

  const NotAvailable: string := "N/A"

  /** A course matches when the query is in its title, or in its code, summary or
      instructor's first or last name where present. */
  predicate CourseMatches(c: Course, q: string) {
    Contains(Lower(c.title), q) || FieldMatches(c.code, q) || FieldMatches(c.summary, q)
    || (c.instructor.Some? && (FieldMatches(c.instructor.value.firstName, q) || FieldMatches(c.instructor.value.lastName, q)))
  }

  /** `filteredCourses`. */
  function FilterCourses(courses: Option<seq<Course>>, query: string): (r: seq<Course>)
    ensures courses.None? ==> r == []
    ensures courses.Some? && query == "" ==> r == courses.value
    ensures courses.Some? && query != "" ==> forall c :: c in r <==> c in courses.value && CourseMatches(c, Lower(query))
    ensures courses.Some? ==> IsSubsequence(r, courses.value)
  {
    SearchList(courses, query, CourseMatches)
  }

  /** `getInstructorName`: with an instructor, the trimmed "first last" with missing parts
      as empty, or "N/A" when that is blank; without one, the instructor id or "N/A". */
  function InstructorName(c: Course): (name: string)
    ensures name != ""
    ensures c.instructor.None? ==> name == Or(c.instructorId, NotAvailable)
    ensures c.instructor.Some? ==>
      var full := Trim(Or(c.instructor.value.firstName, "") + " " + Or(c.instructor.value.lastName, ""));
      name == (if full != "" then full else NotAvailable)
  {
    match c.instructor
    case Some(i) =>
      var full := Trim(Or(i.firstName, "") + " " + Or(i.lastName, ""));
      if full != "" then full else NotAvailable
    case None => Or(c.instructorId, NotAvailable)
  }

  /** No white space at either end. */
  predicate Unpadded(s: string) {
    s != [] && !IsSpace(s[0]) && !IsSpace(s[|s| - 1])
  }

  /** Both names present: they are shown with one space between them. */
  lemma BothNamesShown(c: Course)
    requires c.instructor.Some? && c.instructor.value.firstName.Some? && c.instructor.value.lastName.Some?
    requires Unpadded(c.instructor.value.firstName.value) && Unpadded(c.instructor.value.lastName.value)
    ensures InstructorName(c) == c.instructor.value.firstName.value + " " + c.instructor.value.lastName.value
  {
    var s := c.instructor.value.firstName.value + " " + c.instructor.value.lastName.value;
    assert s[0] == c.instructor.value.firstName.value[0];
    TrimUnpadded(s);
  }

  /** Only a first name: it is shown without the stray trailing space. */
  lemma FirstNameOnly(c: Course)
    requires c.instructor.Some? && c.instructor.value.firstName.Some? && !Truthy(c.instructor.value.lastName)
    requires Unpadded(c.instructor.value.firstName.value)
    ensures InstructorName(c) == c.instructor.value.firstName.value
  {
    var first := c.instructor.value.firstName.value;
    assert Or(c.instructor.value.firstName, "") + " " + Or(c.instructor.value.lastName, "") == first + " ";
    TrimTrailingSpace(first);
  }

  /** Only a last name: it is shown without the stray leading space. */
  lemma LastNameOnly(c: Course)
    requires c.instructor.Some? && !Truthy(c.instructor.value.firstName) && c.instructor.value.lastName.Some?
    requires Unpadded(c.instructor.value.lastName.value)
    ensures InstructorName(c) == c.instructor.value.lastName.value
  {
    var last := c.instructor.value.lastName.value;
    assert Or(c.instructor.value.firstName, "") + " " + Or(c.instructor.value.lastName, "") == " " + last;
    TrimLeadingSpace(last);
  }

  /** An instructor with neither name is shown as "N/A", even when an id is known. */
  lemma {:induction false} NamelessInstructor(c: Course)
    requires c.instructor.Some? && !Truthy(c.instructor.value.firstName) && !Truthy(c.instructor.value.lastName)
    ensures InstructorName(c) == NotAvailable
  {
    var s := Or(c.instructor.value.firstName, "") + " " + Or(c.instructor.value.lastName, "");
    assert s == " ";
    assert TrimStart(s) == TrimStart(s[1..]);
    assert s[1..] == [];
  }

  /** The Code badge. */
  function CodeCell(c: Course): (cell: string)
    ensures Truthy(c.code) ==> cell == c.code.value
    ensures !Truthy(c.code) ==> cell == NotAvailable
  {
    Or(c.code, NotAvailable)
  }

  /** `course.enrollments?.length || 0`. */
  function EnrollmentCount(c: Course): (n: nat)
    ensures c.enrollments.Some? ==> n == |c.enrollments.value|
    ensures c.enrollments.None? ==> n == 0
  {
    if c.enrollments.Some? then |c.enrollments.value| else 0
  }

  /** The message when the list is empty. */
  function EmptyMessage(query: string): (m: string)
    ensures query == "" <==> m == "No courses found"
    ensures query != "" ==> m == "No courses found matching your search"
  {
    if query != "" then "No courses found matching your search" else "No courses found"
  }
}
