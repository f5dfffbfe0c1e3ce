# Course-team role policy of the studio user views

A Dafny model of the decision logic in `cms/djangoapps/contentstore/views/user.py`
of the studio (course authoring) application:

- `course_team_user`, which reads or changes one user's role in a course team;
- the course filter of `index`;
- the access gate and the `allow_actions` flag of `manage_users`.

Each course has two role groups, *instructors* and *staff*, modelled as sets of
user ids. A user may be in neither, in one, or in both. A request names an
actor, a target email, a method (GET, POST, PUT or DELETE) and, for POST and PUT,
what the body yields for `role`. The view runs a fixed chain of guards, each of
which may answer early:

1. the permission gate (instructors may act on anyone, staff only on their own email);
2. the lookup of the target account by email;
3. GET, which answers the highest role held and changes nothing;
4. the rejection of inactive accounts;
5. DELETE, or a grant / downgrade by role.

The central invariant: a course that has an instructor never loses its last one.

Files:

- `wrappers.dfy`: Option and Result.
- `roles.dfy` (module `Roles`): the data model and the guard chain as functions. `Step` gives the response and the new groups for one request; `Run` applies a sequence of requests.
- `role_lemmas.dfy` (module `RoleLemmas`): the properties of `Step` and `Run`.
- `course_team.dfy` (module `CourseTeamUser`): the view as it runs. The class `CourseTeam` holds the two groups as mutable sets. `Handle` walks the guard chain with early returns and updates the sets in place, and is proved equal to `Step`. `QueryRole` is the view's `for ... break` search over the role hierarchy.
- `listing.dfy` (module `CourseListing`): `index`'s filter and `manage_users`.

Abstractions:

- The access-control collaborator `has_access` is an input. `Actor` carries its two answers for the course: instructor access and staff access. It is not derived from the model's own sets, because `has_access` may grant access on other grounds, such as global staff. The view asks for instructor access twice (lines 95 and 181) on the same state, so one boolean serves both.
- `User.objects.get(email=...)` finds an account only when exactly one account has that email. No match, and several matches, both end in the bare `except` and answer 404.
- `add_user_to_course_group` and `remove_user_from_course_group` are a set insert and a set remove. `user.groups.remove` is a set remove.
- `Group.objects.get_or_create` and `user.save()` change nothing in the abstract state. The groups exist, empty, when a `CourseTeam` is constructed.
- The request body is reduced to the outcome classes the view distinguishes: malformed JSON, JSON that is not an object, no `role`, or a `role` value.

Behaviour worth knowing:

- The view's comment (user.py:99) says staff "can only affect themselves". That includes writes: a staff actor may DELETE their own membership and ask for "staff" on their own account, and the view itself refuses them only the "instructor" grant (user.py:181). The group helpers receive the actor as their first argument, and whatever checks they make of their own are not part of this model.
- JSON that parses to a list, string, number or null makes `payload["role"]` raise a TypeError, which the view catches only as KeyError. The model answers such a body with an unhandled error, status 500 (`PayloadNotAnObject`), and changes nothing.
- A `role` other than "instructor" or "staff" is answered with success and changes nothing.

## Model

| member | source | states |
|---|---|---|
| `Roles.Lookup` | cms/djangoapps/contentstore/views/user.py:107-113 | an account is found exactly when one account has the email; the found account has that email and is the only one that does |
| `Roles.FirstHeld` | cms/djangoapps/contentstore/views/user.py:127-131 | the search answers none iff no role of the order is held; otherwise its answer is a held role of the order that comes no later than any held role |
| `Roles.HighestRoleByPriority` | cms/djangoapps/contentstore/views/user.py:116-131 | the highest role is "instructor" for a member of the instructor group (even when also staff), "staff" for a staff-only member, none for anyone else |
| `Roles.Revoke` | cms/djangoapps/contentstore/views/user.py:147-163 | DELETE is refused (with the last-instructor error) exactly when the user is the sole instructor; a refusal changes nothing; on success the user is in neither group; no other user's membership changes; a course with an instructor keeps one (for whole requests: `RoleLemmas.DeleteRequest`) |
| `Roles.Grant` | cms/djangoapps/contentstore/views/user.py:180-199 | a grant either succeeds (answering success) or is refused; it is refused exactly when "instructor" is asked by an actor without instructor access or "staff" is asked for the sole instructor; a refusal changes nothing; a successful "instructor" grant makes the user an instructor and leaves the staff group alone; a successful "staff" grant makes them staff and not instructor; any other role name succeeds and changes nothing; no other user's membership changes; a course with an instructor keeps one; without instructor access no instructor is added (for whole requests: `RoleLemmas.GrantInstructor`, `RoleLemmas.GrantStaff`, `RoleLemmas.PayloadOutcomes`) |
| `Roles.Step` | cms/djangoapps/contentstore/views/user.py:92-199 | every error answer leaves both groups unchanged; every status is 200, 400, 404 or 500; a course with at least one instructor still has one after the request (guard by guard: the `RoleLemmas` rows below) |
| `Roles.Run` | cms/djangoapps/contentstore/views/user.py:118-132 | a sequence of GET requests leaves the groups unchanged (the invariant over runs: `RoleLemmas.InstructorsRemainInRun`, `RoleLemmas.NoInstructorGrowthWithoutAccess`) |
| `RoleLemmas.PermissionGate` | cms/djangoapps/contentstore/views/user.py:94-105 | "Insufficient permissions" is answered iff the gate `Roles.Permitted` rejects, that is, the actor is neither an instructor nor staff acting on their own email; then the answer is 400 and both groups are unchanged |
| `RoleLemmas.UnknownTarget` | cms/djangoapps/contentstore/views/user.py:107-113 | the answer is 404 iff the gate passes and no single account has the email; then the groups are unchanged |
| `RoleLemmas.GetRole` | cms/djangoapps/contentstore/views/user.py:116-132 | GET on a found account answers its email, its activation flag and its highest role among the groups it is in (`Roles.Held`: instructor before staff, none if in neither), active or not, and changes nothing |
| `RoleLemmas.GetChangesNothing` | cms/djangoapps/contentstore/views/user.py:118-132 | on every path a GET leaves both groups unchanged and never ends in the unhandled error |
| `RoleLemmas.InactiveTarget` | cms/djangoapps/contentstore/views/user.py:134-139 | any non-GET request on an inactive account answers 400 and leaves both groups unchanged |
| `RoleLemmas.DeleteRequest` | cms/djangoapps/contentstore/views/user.py:147-163 | DELETE of the sole instructor answers 400 with no change; otherwise it succeeds, the target is in neither group afterwards, and every other user's membership is unchanged |
| `RoleLemmas.GrantInstructor` | cms/djangoapps/contentstore/views/user.py:180-186 | asking for "instructor" without instructor access always fails (400 or 404) with no change; with access, an active target is added to the instructors and the staff group is untouched |
| `RoleLemmas.StaffSelfPromotionRefused` | cms/djangoapps/contentstore/views/user.py:180-185 | a staff actor asking for "instructor" on their own active account gets "Only instructors may create other instructors" and no change |
| `RoleLemmas.GrantStaff` | cms/djangoapps/contentstore/views/user.py:187-198 | asking for "staff" on the sole instructor answers 400 with no change; otherwise the target leaves the instructors and joins the staff |
| `RoleLemmas.PayloadOutcomes` | cms/djangoapps/contentstore/views/user.py:165-199 | malformed JSON and a missing role answer 400 with no change, a non-object body answers 500 with no change, an unknown role name succeeds with no change |
| `RoleLemmas.OnlyTargetChanges` | cms/djangoapps/contentstore/views/user.py:147-199 | when no account is found nothing changes; otherwise only the found account's membership can change |
| `RoleLemmas.StaffActsOnlyOnThemselves` | cms/djangoapps/contentstore/views/user.py:95-186 | an actor without instructor access changes the groups only for their own email, and never adds an instructor |
| `RoleLemmas.InstructorsRemainInRun` | cms/djangoapps/contentstore/views/user.py:147-198 | a course with at least one instructor still has one after any sequence of requests handled one after another |
| `RoleLemmas.NoInstructorGrowthWithoutAccess` | cms/djangoapps/contentstore/views/user.py:180-198 | if no actor of a sequence of requests has instructor access, the instructor group only shrinks or stays |
| `CourseTeamUser.QueryRole` | cms/djangoapps/contentstore/views/user.py:126-131 | the loop over the hierarchy with `break` returns the highest held role: "instructor" for an instructor (even when also staff), "staff" for a staff-only member, none otherwise |
| `CourseTeamUser.CourseTeam.constructor` | cms/djangoapps/contentstore/views/user.py:141-145 | a course's groups are created empty |
| `CourseTeamUser.CourseTeam.Handle` | cms/djangoapps/contentstore/views/user.py:92-199 | the response and the new groups are exactly those of the guard chain, and a course that had an instructor still has one |
| `CourseTeamUser.CourseTeam.RemoveFromCourse` | cms/djangoapps/contentstore/views/user.py:147-163 | the in-place DELETE refuses the sole instructor and otherwise removes the user from both groups, as the revoke rule says |
| `CourseTeamUser.CourseTeam.GrantRole` | cms/djangoapps/contentstore/views/user.py:180-199 | the in-place grant adds an instructor (only for an instructor actor), downgrades to staff unless it is the sole instructor, and ignores other role names, as the grant rule says |
| `CourseListing.VisibleCourses` | cms/djangoapps/contentstore/views/user.py:33-40 | the listed courses are exactly the input courses that pass `CourseListing.CourseFilter` (access, not a template course, non-empty org, course and name), in their original order, each as many times as it occurs in the input |
| `CourseListing.Index` | cms/djangoapps/contentstore/views/user.py:26-60 | the page lists exactly the courses that pass the filter, in input order and with their multiplicity; course creation is disabled iff the feature flag is set and the user is not global staff |
| `CourseListing.ManageUsersAgreesWithGate` | cms/djangoapps/contentstore/views/user.py:71-85 | `CourseListing.ManageUsers` refuses the page iff the actor has neither instructor nor staff access and otherwise shows both groups; when actions are offered the actor passes the edit gate for every email; when the page is shown without them, only for their own email; a refused actor passes it for none |

## Left out

- The internals of `has_access` are not part of this model. Its answers are inputs, and the model adds no permission checks of its own.
- The internals of `add_user_to_course_group`, `remove_user_from_course_group` and `get_course_groupname_for_role` are not part of this model. GET and the updates are assumed to address the same two groups of the course.
- Group creation by `get_or_create` and `user.save()` are left out: they do not change the membership sets.
- JSON decoding, the content-type test and the form fallback are reduced to the outcome classes of `Payload`. Which body yields which class is not modelled (for example, that a form-encoded PUT has no `role` in `request.POST`). A non-string JSON `role` behaves like an unknown role name.
- The error messages and their translation are reduced to the `Failure` kinds.
- `JsonResponse` (util.json_request) is not part of this model. The model assumes that `JsonResponse(msg)` and `JsonResponse()` answer 200, and that `JsonResponse(msg, code)` answers `code`. The status set stated by `Roles.Step` rests on that assumption.
- Email matching is exact string equality. Database collation, which may compare emails case-insensitively, is not modelled.
- The decorators are left out: `login_required` redirects, `ensure_csrf_cookie`, and the 405 that `require_http_methods` gives for other methods.
- Rendering is left out: `render_to_response`, `reverse`, LMS links, `modulestore()` lookups, and `index`'s `format_course_for_view`, which only builds display tuples and URLs.
- Concurrency is left out. Requests are modelled one after another. Nothing in the view serializes them: it reads the instructor group (user.py:150, 190) and writes it later (user.py:159, 197) without a lock or transaction. So `Roles.Step`'s instructor clause and `RoleLemmas.InstructorsRemainInRun` hold only for requests handled one at a time; two interleaved DELETEs of the last two instructors can both pass the check at user.py:152 and leave the course with none.
- The bulk email error-handling tests and the editing module tests are left out. The retry and failure classification they exercise lives in code that is not part of this model.
