/**
 * What `course_team_user` promises, proved about `Roles.Step`: each guard of
 * the chain in isolation, the "nothing else changes" conditions, and the
 * instructor invariant for one request and for any sequence of requests.
 */
module RoleLemmas {
  import opened Wrappers
  import opened Roles

  /** A rejected permission gate answers 400 "Insufficient permissions" and changes nothing; it is the only way to get that answer. */
  lemma PermissionGate(t: Team, dir: Directory, req: Request)
    ensures Step(t, dir, req).response == Error(InsufficientPermissions) <==> !Permitted(req.actor, req.email)
    ensures !Permitted(req.actor, req.email) ==>
              Step(t, dir, req).team == t && Step(t, dir, req).response.Status() == 400
  {
  }

  /** An email that matches no single account answers 404 and changes nothing; 404 has no other cause. */
  lemma UnknownTarget(t: Team, dir: Directory, req: Request)
    ensures Step(t, dir, req).response.Status() == 404 <==>
              Permitted(req.actor, req.email) && |Matching(dir, req.email)| != 1
    ensures Step(t, dir, req).response.Status() == 404 ==>
              Step(t, dir, req) == Outcome(Error(UserNotFound(req.email)), t)
  {
  }

  /**
   * GET never changes the groups; once the gate and the lookup pass it answers
   * the target's email, activation flag and highest role, whether or not the
   * account is active.
   */
  lemma GetRole(t: Team, dir: Directory, req: Request, u: UserId)
    requires req.verb == Get
    requires Permitted(req.actor, req.email) && Lookup(dir, req.email) == Some(u)
    ensures Step(t, dir, req).team == t
    ensures Step(t, dir, req).response ==
              UserInfo(req.email, dir[u].active,
                       if u in t.instructors then Some(Instructor)
                       else if u in t.staff then Some(Staff)
                       else None)
  {
    HighestRoleByPriority(Held(t, u));
  }

  /** GET is read-only on every path. */
  lemma GetChangesNothing(t: Team, dir: Directory, req: Request)
    requires req.verb == Get
    ensures Step(t, dir, req).team == t
    ensures Step(t, dir, req).response.Status() != 500
  {
  }

  /** Any other method on an inactive account answers 400 and changes nothing. */
  lemma InactiveTarget(t: Team, dir: Directory, req: Request, u: UserId)
    requires req.verb != Get
    requires Permitted(req.actor, req.email) && Lookup(dir, req.email) == Some(u)
    requires !dir[u].active
    ensures Step(t, dir, req) == Outcome(Error(InactiveUser(req.email)), t)
    ensures Step(t, dir, req).response.Status() == 400
  {
  }

  /**
   * DELETE refuses the sole instructor with 400 and no change; otherwise it
   * takes the target out of both groups and leaves every other user as they were.
   */
  lemma DeleteRequest(t: Team, dir: Directory, req: Request, u: UserId)
    requires req.verb == Delete
    requires Permitted(req.actor, req.email) && Lookup(dir, req.email) == Some(u)
    requires dir[u].active
    ensures SoleInstructor(t, u) ==> Step(t, dir, req) == Outcome(Error(LastInstructor), t)
    ensures !SoleInstructor(t, u) ==> Step(t, dir, req).response == Done
    ensures !SoleInstructor(t, u) ==>
              var t' := Step(t, dir, req).team;
              u !in t'.instructors && u !in t'.staff &&
              t'.instructors - {u} == t.instructors - {u} && t'.staff - {u} == t.staff - {u}
  {
  }

  /**
   * Asking for "instructor" without instructor access fails and changes
   * nothing, whichever guard stops it (400, or 404 for an unknown email); with access, an active target is added
   * to the instructors and the staff group is untouched.
   */
  lemma GrantInstructor(t: Team, dir: Directory, req: Request)
    requires req.verb in {Post, Put} && req.payload == RoleField("instructor")
    ensures !req.actor.instructorAccess ==>
              Step(t, dir, req).team == t && Step(t, dir, req).response.Error? &&
              Step(t, dir, req).response.Status() in {400, 404}
    ensures req.actor.instructorAccess && Lookup(dir, req.email).Some? &&
            dir[Lookup(dir, req.email).value].active ==>
              Step(t, dir, req) ==
              Outcome(Done, Team(t.instructors + {Lookup(dir, req.email).value}, t.staff))
  {
  }

  /** A staff member who asks to be promoted to instructor on their own account is refused. */
  lemma StaffSelfPromotionRefused(t: Team, dir: Directory, req: Request, u: UserId)
    requires req.verb in {Post, Put} && req.payload == RoleField("instructor")
    requires !req.actor.instructorAccess && req.actor.staffAccess && req.email == req.actor.email
    requires Lookup(dir, req.email) == Some(u) && dir[u].active
    ensures Step(t, dir, req) == Outcome(Error(OnlyInstructorsCreateInstructors), t)
  {
  }

  /**
   * Asking for "staff": the sole instructor is refused with 400 and no change;
   * anyone else leaves the instructors (if they were one) and joins the staff.
   */
  lemma GrantStaff(t: Team, dir: Directory, req: Request, u: UserId)
    requires req.verb in {Post, Put} && req.payload == RoleField("staff")
    requires Permitted(req.actor, req.email) && Lookup(dir, req.email) == Some(u)
    requires dir[u].active
    ensures SoleInstructor(t, u) ==> Step(t, dir, req) == Outcome(Error(LastInstructor), t)
    ensures !SoleInstructor(t, u) ==>
              Step(t, dir, req) == Outcome(Done, Team(t.instructors - {u}, t.staff + {u}))
  {
  }

  /**
   * A POST or PUT whose body yields no role fails and changes nothing: malformed
   * JSON and a missing role with 400, JSON that is not an object with an
   * unhandled error (500); a role name that is neither "instructor" nor "staff"
   * is answered with success and changes nothing.
   */
  lemma PayloadOutcomes(t: Team, dir: Directory, req: Request, u: UserId)
    requires req.verb in {Post, Put}
    requires Permitted(req.actor, req.email) && Lookup(dir, req.email) == Some(u)
    requires dir[u].active
    ensures req.payload == MalformedJson ==> Step(t, dir, req) == Outcome(Error(BadJson), t)
    ensures req.payload == NoRole ==> Step(t, dir, req) == Outcome(Error(RoleRequired), t)
    ensures req.payload == NotAnObject ==>
              Step(t, dir, req).team == t && Step(t, dir, req).response.Status() == 500
    ensures req.payload.RoleField? && req.payload.role != "instructor" && req.payload.role != "staff" ==>
              Step(t, dir, req) == Outcome(Done, t)
  {
  }

  /** Only the looked-up target's membership can change; when no target is found nothing changes. */
  lemma OnlyTargetChanges(t: Team, dir: Directory, req: Request)
    ensures Lookup(dir, req.email).None? ==> Step(t, dir, req).team == t
    ensures Lookup(dir, req.email).Some? ==>
              var u := Lookup(dir, req.email).value;
              var t' := Step(t, dir, req).team;
              t'.instructors - {u} == t.instructors - {u} && t'.staff - {u} == t.staff - {u}
  {
  }

  /** An actor without instructor access can change only the groups of their own email, and never adds an instructor. */
  lemma StaffActsOnlyOnThemselves(t: Team, dir: Directory, req: Request)
    requires !req.actor.instructorAccess
    ensures Step(t, dir, req).team != t ==> req.email == req.actor.email
    ensures Step(t, dir, req).team.instructors <= t.instructors
  {
  }

  /** Instructor invariant over any sequence of requests. */
  lemma {:induction false} InstructorsRemainInRun(t: Team, dir: Directory, reqs: seq<Request>)
    requires t.instructors != {}
    ensures Run(t, dir, reqs).instructors != {}
    decreases |reqs|
  {
    if reqs != [] {
      InstructorsRemainInRun(Step(t, dir, reqs[0]).team, dir, reqs[1..]);
    }
  }

  /** If no actor in a sequence has instructor access, the instructor group can only shrink. */
  lemma {:induction false} NoInstructorGrowthWithoutAccess(t: Team, dir: Directory, reqs: seq<Request>)
    requires forall i :: 0 <= i < |reqs| ==> !reqs[i].actor.instructorAccess
    ensures Run(t, dir, reqs).instructors <= t.instructors
    decreases |reqs|
  {
    if reqs != [] {
      StaffActsOnlyOnThemselves(t, dir, reqs[0]);
      assert forall i :: 0 <= i < |reqs[1..]| ==> reqs[1..][i] == reqs[i + 1];
      NoInstructorGrowthWithoutAccess(Step(t, dir, reqs[0]).team, dir, reqs[1..]);
    }
  }
}
