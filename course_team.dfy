/**
 * The `course_team_user` view as it runs: a course whose two role groups are
 * mutable sets, and a handler that walks the guard chain with early returns
 * and updates the groups in place. Each handler is proved to do exactly what
 * `Roles.Step` says, so the lemmas of RoleLemmas hold of it.
 */
module CourseTeamUser {
  import opened Wrappers
  import opened Roles

  /**
   * The view's search for the highest role: walk the hierarchy, most
   * privileged first, and stop at the first role whose group the user is in.
   */
  method QueryRole(held: set<Role>) returns (role: Option<Role>)
    ensures role == HighestRole(held)
    ensures role == if Instructor in held then Some(Instructor) else if Staff in held then Some(Staff) else None
  {
    role := None;
    var roles := Hierarchy;
    for i := 0 to |roles|
      invariant role == None
      invariant forall j :: 0 <= j < i ==> roles[j] !in held
    {
      if roles[i] in held {
        role := Some(roles[i]);
        break;
      }
    }
    assert roles[0] == Instructor && roles[1] == Staff;
    HighestRoleByPriority(held);
  }

  /** The role groups of one course. Both start empty (they are created lazily, empty). */
  class CourseTeam {
    var instructors: set<UserId>
    var staff: set<UserId>

    constructor ()
      ensures instructors == {} && staff == {}
    {
      instructors := {};
      staff := {};
    }

    function Snapshot(): Team
      reads this
    {
      Team(instructors, staff)
    }

    /**
     * Handle one request for the account with email `req.email`. The groups
     * and the response are those `Step` gives; in particular the course keeps
     * an instructor if it had one.
     */
    method Handle(dir: Directory, req: Request) returns (resp: Response)
      modifies this
      ensures Outcome(resp, Snapshot()) == Step(old(Snapshot()), dir, req)
      ensures old(instructors) != {} ==> instructors != {}
    {
      // permission gate
      if req.actor.instructorAccess {
      } else if req.actor.staffAccess && req.email == req.actor.email {
      } else {
        return Error(InsufficientPermissions);
      }

      // user lookup: exactly one account with this email
      var found := Matching(dir, req.email);
      if |found| != 1 {
        return Error(UserNotFound(req.email));
      }
      var user :| user in found;
      SingletonHasOneElement(found, user);
      assert Lookup(dir, req.email) == Some(user);

      if req.verb == Get {
        var role := QueryRole(Held(Snapshot(), user));
        return UserInfo(dir[user].email, dir[user].active, role);
      }

      if !dir[user].active {
        return Error(InactiveUser(req.email));
      }

      if req.verb == Delete {
        resp := RemoveFromCourse(user);
        return;
      }

      // all other operations need a role
      var role: string;
      match req.payload {
        case MalformedJson => return Error(BadJson);
        case NotAnObject => return Error(PayloadNotAnObject);
        case NoRole => return Error(RoleRequired);
        case RoleField(r) => role := r;
      }
      resp := GrantRole(user, role, req.actor.instructorAccess);
    }

    /** DELETE: take `user` out of both groups unless they are the last instructor. */
    method RemoveFromCourse(user: UserId) returns (resp: Response)
      modifies this
      ensures Outcome(resp, Snapshot()) == Revoke(old(Snapshot()), user)
    {
      if user in instructors && |instructors| == 1 {
        return Error(LastInstructor);
      }
      if user in instructors {
        instructors := instructors - {user};
      }
      if user in staff {
        staff := staff - {user};
      }
      return Done;
    }

    /** POST / PUT with `role`: grant "instructor", move to "staff", or accept any other name unchanged. */
    method GrantRole(user: UserId, role: string, actorIsInstructor: bool) returns (resp: Response)
      modifies this
      ensures Outcome(resp, Snapshot()) == Grant(old(Snapshot()), user, role, actorIsInstructor)
    {
      if role == "instructor" {
        if !actorIsInstructor {
          return Error(OnlyInstructorsCreateInstructors);
        }
        instructors := instructors + {user};
      } else if role == "staff" {
        if user in instructors {
          if |instructors| == 1 {
            return Error(LastInstructor);
          }
          instructors := instructors - {user};
        }
        staff := staff + {user};
      }
      return Done;
    }
  }
}
