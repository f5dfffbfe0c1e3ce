/**
 * The course-team role policy of the studio `course_team_user` view
 * (cms/djangoapps/contentstore/views/user.py), stated on values.
 *
 * A course keeps two role groups, instructors and staff, as sets of user ids;
 * a user may be in neither, either or both. One request is classified by a
 * fixed chain of guards (permission gate, user lookup, role query, inactive
 * user, then revoke or grant), and `Step` gives the response and the new pair
 * of sets. The class in course_team.dfy performs the same chain step by step
 * on mutable sets and is proved equal to `Step`.
 */
module Roles {
  import opened Wrappers

  type UserId = nat
  type Email = string

  /** A row of the user table: its email address and whether it is activated. */
  datatype Account = Account(email: Email, active: bool)

  /** The user table, read but never changed by the view. */
  type Directory = map<UserId, Account>

  /** The two course roles, and the names the request payload and GET use for them. */
  datatype Role = Instructor | Staff {
    function Name(): string {
      match this
      case Instructor => "instructor"
      case Staff => "staff"
    }
  }

  /** Role hierarchy, most privileged first. */
  const Hierarchy: seq<Role> := [Instructor, Staff]

  /** The two membership sets of one course. */
  datatype Team = Team(instructors: set<UserId>, staff: set<UserId>)

  datatype HttpMethod = Get | Post | Put | Delete

  /**
   * What the view finds in the body of a POST or PUT:
   * JSON that does not parse; JSON that parses to something other than an
   * object (a list, a string, a number), on which `payload["role"]` raises a
   * TypeError; an object or form without a `role`; or a `role` value.
   */
  datatype Payload = MalformedJson | NotAnObject | NoRole | RoleField(role: string)

  /**
   * The logged-in user: their email and the two answers of the access-control
   * collaborator for this course (access as instructor, access as staff).
   */
  datatype Actor = Actor(email: Email, instructorAccess: bool, staffAccess: bool)

  datatype Request = Request(actor: Actor, email: Email, verb: HttpMethod, payload: Payload)

  /** The error responses; each carries the status its JSON response is sent with. */
  datatype Failure =
    | InsufficientPermissions
    | UserNotFound(email: Email)
    | InactiveUser(email: Email)
    | LastInstructor
    | BadJson
    | RoleRequired
    | OnlyInstructorsCreateInstructors
    | PayloadNotAnObject
  {
    function Status(): nat {
      match this
      case UserNotFound(_) => 404
      case PayloadNotAnObject => 500
      case _ => 400
    }
  }

  datatype Response =
    | Done                                                     // JsonResponse(): 200 (assumed)
    | UserInfo(email: Email, active: bool, role: Option<Role>) // GET: 200 with the user's highest role
    | Error(failure: Failure)
  {
    function Status(): nat {
      match this
      case Error(f) => f.Status()
      case _ => 200
    }
  }

  datatype Outcome = Outcome(response: Response, team: Team)

  // ----- the guards -----

  /** Permission gate: instructors may act on anyone, staff only on their own email. */
  predicate Permitted(actor: Actor, email: Email) {
    actor.instructorAccess || (actor.staffAccess && email == actor.email)
  }

  /** The accounts registered with the given email address. */
  function Matching(dir: Directory, email: Email): set<UserId> {
    set u | u in dir && dir[u].email == email
  }

  lemma SingletonHasOneElement(m: set<UserId>, x: UserId)
    requires |m| == 1 && x in m
    ensures m == {x}
  {
    assert |m - {x}| == 0;
  }

  /**
   * `User.objects.get(email=email)`: the account whose email it is, when there
   * is exactly one; none found and several found both end in the view's
   * bare `except`.
   */
  function Lookup(dir: Directory, email: Email): (r: Option<UserId>)
    ensures r.Some? <==> |Matching(dir, email)| == 1
    ensures r.Some? ==> r.value in dir && dir[r.value].email == email
    ensures r.Some? ==> forall v :: v in dir && dir[v].email == email ==> v == r.value
  {
    var m := Matching(dir, email);
    if |m| == 1 then
      var u :| u in m;
      SingletonHasOneElement(m, u);
      assert forall v :: v in dir && dir[v].email == email ==> v in m;
      Some(u)
    else
      None
  }

  /** The roles a user holds in the course (the course's groups among the user's groups). */
  function Held(t: Team, u: UserId): set<Role> {
    (if u in t.instructors then {Instructor} else {}) + (if u in t.staff then {Staff} else {})
  }

  /** The first role of `order` that is held, if any. */
  function FirstHeld(order: seq<Role>, held: set<Role>): (r: Option<Role>)
    ensures r.None? <==> forall i :: 0 <= i < |order| ==> order[i] !in held
    ensures r.Some? ==> r.value in held && r.value in order
    ensures r.Some? ==> forall j :: 0 <= j < |order| && order[j] in held ==> r.value in order[..j + 1]
  {
    if order == [] then None
    else if order[0] in held then Some(order[0])
    else
      var rest := order[1..];
      var r := FirstHeld(rest, held);
      assert forall j :: 1 <= j < |order| ==> order[j] == rest[j - 1] && order[..j + 1] == [order[0]] + rest[..j];
      r
  }

  /** The highest role held, by the hierarchy. */
  function HighestRole(held: set<Role>): Option<Role> {
    FirstHeld(Hierarchy, held)
  }

  /** GET answers "instructor" over "staff", and nothing for a user in neither group. */
  lemma HighestRoleByPriority(held: set<Role>)
    ensures HighestRole(held) ==
            if Instructor in held then Some(Instructor)
            else if Staff in held then Some(Staff)
            else None
  {
    assert Hierarchy[0] == Instructor && Hierarchy[1] == Staff;
  }

  /** The role a POST or PUT asks for, or the error its body yields. */
  function RequestedRole(p: Payload): Result<string, Failure> {
    match p
    case MalformedJson => Failure(BadJson)
    case NotAnObject => Failure(PayloadNotAnObject)
    case NoRole => Failure(RoleRequired)
    case RoleField(role) => Success(role)
  }

  /** True when taking `u` out of the instructors would leave none. */
  predicate SoleInstructor(t: Team, u: UserId) {
    u in t.instructors && |t.instructors| == 1
  }

  lemma RemoveFromLarger(s: set<UserId>, u: UserId)
    requires !(u in s && |s| == 1)
    ensures s != {} ==> s - {u} != {}
  {
    if u in s {
      assert |s - {u}| == |s| - 1;
    } else {
      assert s - {u} == s;
    }
  }

  /** DELETE: take the user out of both groups, unless they are the last instructor. */
  function Revoke(t: Team, u: UserId): (r: Outcome)
    ensures r.response == Done || r.response == Error(LastInstructor)
    ensures r.response.Error? <==> SoleInstructor(t, u)
    ensures r.response.Error? ==> r.team == t
    ensures r.response == Done ==> u !in r.team.instructors && u !in r.team.staff
    ensures r.team.instructors - {u} == t.instructors - {u} && r.team.staff - {u} == t.staff - {u}
    ensures t.instructors != {} ==> r.team.instructors != {}
  {
    if SoleInstructor(t, u) then Outcome(Error(LastInstructor), t)
    else
      RemoveFromLarger(t.instructors, u);
      Outcome(Done, Team(t.instructors - {u}, t.staff - {u}))
  }

  /**
   * POST / PUT with a role: "instructor" adds the user to the instructors (only
   * an actor with instructor access may); "staff" moves the user out of the
   * instructors, unless they are the last one, and into the staff; any other
   * role name is accepted and changes nothing.
   */
  function Grant(t: Team, u: UserId, role: string, actorIsInstructor: bool): (r: Outcome)
    ensures r.response.Error? <==>
              (role == "instructor" && !actorIsInstructor) || (role == "staff" && SoleInstructor(t, u))
    ensures r.response == Done || r.response.Error?
    ensures r.response.Error? ==> r.team == t
    ensures r.response == Done && role == "instructor" ==> u in r.team.instructors && r.team.staff == t.staff
    ensures role != "instructor" && role != "staff" ==> r == Outcome(Done, t)
    ensures r.response == Done && role == "staff" ==> u in r.team.staff && u !in r.team.instructors
    ensures r.team.instructors - {u} == t.instructors - {u} && r.team.staff - {u} == t.staff - {u}
    ensures t.instructors != {} ==> r.team.instructors != {}
    ensures !actorIsInstructor ==> r.team.instructors <= t.instructors
  {
    if role == Instructor.Name() then
      if !actorIsInstructor then Outcome(Error(OnlyInstructorsCreateInstructors), t)
      else Outcome(Done, Team(t.instructors + {u}, t.staff))
    else if role == Staff.Name() then
      if SoleInstructor(t, u) then Outcome(Error(LastInstructor), t)
      else
        RemoveFromLarger(t.instructors, u);
        Outcome(Done, Team(t.instructors - {u}, t.staff + {u}))
    else
      Outcome(Done, t)
  }

  /** One request to `course_team_user`: its response and the course's new groups. */
  function Step(t: Team, dir: Directory, req: Request): (r: Outcome)
    ensures r.response.Error? ==> r.team == t
    ensures r.response.Status() in {200, 400, 404, 500}
    ensures t.instructors != {} ==> r.team.instructors != {}
  {
    if !Permitted(req.actor, req.email) then Outcome(Error(InsufficientPermissions), t)
    else
      match Lookup(dir, req.email)
      case None => Outcome(Error(UserNotFound(req.email)), t)
      case Some(u) =>
        if req.verb == Get then
          Outcome(UserInfo(dir[u].email, dir[u].active, HighestRole(Held(t, u))), t)
        else if !dir[u].active then Outcome(Error(InactiveUser(req.email)), t)
        else if req.verb == Delete then Revoke(t, u)
        else
          match RequestedRole(req.payload)
          case Failure(f) => Outcome(Error(f), t)
          case Success(role) => Grant(t, u, role, req.actor.instructorAccess)
  }

  /** A sequence of requests against one course, the user table unchanged. */
  function Run(t: Team, dir: Directory, reqs: seq<Request>): (r: Team)
    ensures (forall i :: 0 <= i < |reqs| ==> reqs[i].verb == Get) ==> r == t
    decreases |reqs|
  {
    if reqs == [] then t
    else
      assert forall i :: 0 <= i < |reqs[1..]| ==> reqs[1..][i] == reqs[i + 1];
      Run(Step(t, dir, reqs[0]).team, dir, reqs[1..])
  }
}
