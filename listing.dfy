/**
 * The two other views of user.py that decide something: `index`, which lists
 * the courses the logged-in user may see, and `manage_users`, which shows a
 * course's team to its instructors and staff.
 */
module CourseListing {
  import opened Wrappers
  import opened Roles

  /** The parts of an `i4x://org/course/course/name` location the views look at. */
  datatype Location = Location(org: string, course: string, name: string)

  /** `index`'s filter: the user has access, and the location is a real course (not a template one). */
  predicate CourseFilter(hasAccess: bool, loc: Location) {
    hasAccess && loc.course != "templates" && loc.org != "" && loc.course != "" && loc.name != ""
  }

  /** `a` is `b` with some elements left out, in the same order. */
  ghost predicate Subsequence<T>(a: seq<T>, b: seq<T>)
    decreases |b|
  {
    if b == [] then a == []
    else (a != [] && a[0] == b[0] && Subsequence(a[1..], b[1..])) || Subsequence(a, b[1..])
  }

  /**
   * `filter(course_filter, courses)`: exactly the courses that pass, in their
   * original order. `access` is the access-control collaborator's answer for
   * the logged-in user.
   */
  function VisibleCourses(courses: seq<Location>, access: Location -> bool): (r: seq<Location>)
    ensures forall c :: c in r ==> c in courses && CourseFilter(access(c), c)
    ensures forall c :: c in courses && CourseFilter(access(c), c) ==> c in r
    ensures Subsequence(r, courses)
    ensures forall c :: multiset(r)[c] == if CourseFilter(access(c), c) then multiset(courses)[c] else 0
    decreases |courses|
  {
    if courses == [] then []
    else
      var head, tail := courses[0], courses[1..];
      var rest := VisibleCourses(tail, access);
      assert courses == [head] + tail;
      assert multiset(courses) == multiset{head} + multiset(tail);
      if CourseFilter(access(head), head) then
        assert multiset([head] + rest) == multiset{head} + multiset(rest);
        [head] + rest
      else rest
  }

  datatype IndexPage = IndexPage(courses: seq<Location>, disableCourseCreation: bool)

  /**
   * `index`: the visible courses, and whether course creation is switched off
   * for this user (the DISABLE_COURSE_CREATION feature, off when unset, never
   * applies to global staff).
   */
  function Index(courses: seq<Location>, access: Location -> bool,
                 disableFeature: Option<bool>, isGlobalStaff: bool): (p: IndexPage)
    ensures forall c :: c in p.courses <==> c in courses && CourseFilter(access(c), c)
    ensures Subsequence(p.courses, courses)
    ensures forall c :: multiset(p.courses)[c] == if CourseFilter(access(c), c) then multiset(courses)[c] else 0
    ensures p.disableCourseCreation <==> disableFeature == Some(true) && !isGlobalStaff
  {
    var enabled := match disableFeature case Some(b) => b case None => false;
    IndexPage(VisibleCourses(courses, access), enabled && !isGlobalStaff)
  }

  datatype TeamPage = TeamPage(staff: set<UserId>, instructors: set<UserId>, allowActions: bool)

  /** `manage_users` refuses with PermissionDenied (403). */
  datatype Denied = PermissionDenied

  /**
   * `manage_users`: anyone with instructor or staff access sees both groups;
   * only instructors are offered the editing actions.
   */
  function ManageUsers(actor: Actor, t: Team): Result<TeamPage, Denied> {
    if !actor.instructorAccess && !actor.staffAccess then Failure(PermissionDenied)
    else Success(TeamPage(t.staff, t.instructors, actor.instructorAccess))
  }

  /**
   * The page is refused to an actor with neither access, shows both groups
   * otherwise, and agrees with the edit view's gate: when actions are offered the
   * actor may act on any email; when the page is shown without them the actor
   * may act on their own email only.
   */
  lemma ManageUsersAgreesWithGate(actor: Actor, t: Team, email: Email)
    ensures ManageUsers(actor, t).Failure? <==> !actor.instructorAccess && !actor.staffAccess
    ensures ManageUsers(actor, t).Success? ==>
              ManageUsers(actor, t).value.staff == t.staff && ManageUsers(actor, t).value.instructors == t.instructors
    ensures ManageUsers(actor, t).Success? && ManageUsers(actor, t).value.allowActions ==>
              Permitted(actor, email)
    ensures ManageUsers(actor, t).Success? && !ManageUsers(actor, t).value.allowActions ==>
              (Permitted(actor, email) <==> email == actor.email)
    ensures ManageUsers(actor, t).Failure? ==> !Permitted(actor, email)
  {
  }
}
