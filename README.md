# DoorAccessApp access-decision core in Dafny

DoorAccessApp controls physical doors, each wired to a Tasmota relay. Users
(administrators, hosts, residents, guests) hold grants on doors. A kiosk at a
door accepts a typed access code, or a face, and the backend decides whether
the door opens. It may ask for a second factor ("double verification") when
the user's last verification is older than the door's window. Every attempt
is appended to an access log, which administrators and hosts can page
through.

The project models the decision logic of that system. The collections are
in-memory sequences of users, doors and access events (`Store`). Each
state-changing handler appears twice:

- as a pure function (`...Effect`) giving the collections afterwards, the
  relay commands sent and the reply;
- as an imperative method on a `Store` object (and a `Relay` object), proved
  to produce exactly that effect.

The properties are lemmas about the pure functions.

Modules, one per source file:

- `Model`: records and enumerations, with generic `findIndex`/`splice`.
- `Store`: the collections and the `findById`/`findOne` lookups.
- `Tasmota`: the relay toggle.
- `UserModel`: the user document's methods and its pre-save hook.
- `Auth`: the middleware.
- `UserRoutes`: the role authority and the login, get, create and update handlers.
- `DoorRoutes`: listing, delete, grant and revoke.
- `AccessRoutes`: the `/code`, `/face`, `/motion` and `/double-verify` handlers.
- `AccessLogs`: `/logs` and `/logs/:id/image`.
- `AccessInterface`: the kiosk keypad state machine.

Parameters stand for foreign code and for the outside world:

- `bcrypt.compare` and `bcrypt.hash` are the functions `Verifier` and `Hasher`.
- JWT verification is a function from token to user id.
- The relay's two HTTP round trips are a `RelayAnswer`: what the status read returned, and whether the set succeeded.
- The clock is `now`, in milliseconds.
- The uploaded image's saved path is `savedPath`.

Where the code departs from its documented design, the model follows the code:

- `GET /logs` takes an explicit `doorId` filter as given, even from a host who does not hold that door. The role scoping applies only when no door is named.
- `/double-verify` drives the relay before it writes its event. A failed status read there leaves no event at all. The primary handlers (`/code`, `/face`) write their event first, so a failed read leaves an `access_granted` event for a door that did not open.
- Create and update store a submitted `doors` list verbatim. Only grant, revoke and delete maintain "at most one grant per door", so the lemmas about that invariant assume it on entry.
- The face match is the first active, granted user with any stored face data. The face second factor of `/double-verify` checks only that the user has face data on record.
- `GET /users/:id` compares the requester with the `createdBy` it has just populated. The populated document never equals an id string, so a non-administrator creator is refused the users it created, and a user whose creator was deleted is visible to everyone. `GetUser` models this; `GetUserAsIntended` is the commented rule (see Findings).
- On a step-up the kiosk never shows the camera, because `startCamera` attaches only to a video element rendered once the camera is active. With the keypad and door select disabled and no reset scheduled, the screen stays stuck.
- A refusal's 3-second reset is never cleared, so it fires even after a later grant or step-up and wipes that state.
- A non-administrator revoking a grant from a user without `createdBy` makes `createdBy.toString()` throw, which gives 500 rather than 403.

## Model

| member | source | states |
|---|---|---|
| Model.IndexWhere | backend/routes/doors.js:246 | the first index satisfying the predicate: it satisfies it, none before it does, and None exactly when no element does |
| Model.IndexWhereAgrees | backend/routes/doors.js:246 | two sequences whose elements agree pointwise on the predicates have the same first match |
| Model.RemoveAt | backend/routes/doors.js:252 | `splice(i, 1)`: one shorter, the prefix before `i` kept, everything after shifted down by one |
| Store.FindUser | backend/middleware/auth.js:20 | `findById`: the first position carrying the id; None exactly when no user carries it |
| Store.FindUserByEmail | backend/routes/users.js:19 | `findOne({ email })`: the first position carrying the email; None exactly when none does |
| Store.FindDoor | backend/routes/doors.js:139 | `Door.findById`: the position found carries the id; None exactly when no door does |
| Store.FreshUserId | backend/routes/users.js:142-154 | a new document's id differs from (exceeds) every stored id |
| Tasmota.Relay.Toggle | backend/utils/tasmota.js:54-71 | sends the opposite of the state read; a failed read sends nothing and propagates (None); a failed set is swallowed into `SwitchError` |
| Tasmota.ToggleResult | backend/utils/tasmota.js:54-71 | None exactly when the status read failed; after a successful read, `Switched` to the opposite of the state read when the set succeeds, `SwitchError` when it fails |
| Tasmota.ToggleCommands | backend/utils/tasmota.js:63-66 | at most one command; exactly one when the read succeeded, and it requests the opposite of the state read |
| UserModel.HasAccessToDoor | backend/models/User.js:91-93 | definition of `hasAccessToDoor` (some grant entry names the door); its properties are the rows `HasAccessIffGrantIndex`, `Auth.DoorGateIsMembership` and `AccessLogs.GrantedDoorIdsMembership` |
| UserModel.IsAccessExpired | backend/models/User.js:96-99 | definition of `isAccessExpired` (an expiration date strictly before now); its properties are the rows `NullExpirationNeverExpires`, `ExpiryBoundary` and `ExpiryIsMonotone` |
| UserModel.ShouldPerformDoubleVerification | backend/models/User.js:102-110 | definition of `shouldPerformDoubleVerification`; its properties are the rows `DaysComparisonIsExact`, `StepUpDisabledForNonPositiveDays`, `StepUpWithoutHistory`, `StepUpBoundary`, `StepUpIsMonotone` and `NoStepUpWithinWindow` |
| UserModel.GrantIndex | backend/routes/doors.js:246 | `doors.findIndex(d => d.doorId === doorId)`: first entry for the door; None exactly when there is none |
| UserModel.HasAccessIffGrantIndex | backend/models/User.js:91-93 | `hasAccessToDoor` holds iff `findIndex` finds an entry for the door |
| UserModel.NullExpirationNeverExpires | backend/models/User.js:97 | a user with no expiration date is never expired |
| UserModel.ExpiryBoundary | backend/models/User.js:98 | expiry is strict: still valid at the expiration instant, expired one millisecond later |
| UserModel.ExpiryIsMonotone | backend/models/User.js:96-99 | once expired, expired at every later instant |
| UserModel.DaysComparisonIsExact | backend/models/User.js:107-109 | the fractional-day comparison `elapsed / msPerDay >= days` equals the whole-millisecond comparison `elapsed >= days * 86400000` |
| UserModel.StepUpDisabledForNonPositiveDays | backend/models/User.js:103 | no step-up when the door's window is zero or negative, whatever the history |
| UserModel.StepUpWithoutHistory | backend/models/User.js:104 | with a positive window and no last verification, step-up is always due |
| UserModel.StepUpBoundary | backend/models/User.js:106-109 | the boundary is inclusive: due exactly `days` days after the last verification, not one millisecond before |
| UserModel.StepUpIsMonotone | backend/models/User.js:106-109 | once step-up is due it stays due as time passes |
| UserModel.NoStepUpWithinWindow | backend/models/User.js:106-109 | a verification at `t` waives step-up for every instant in `[t, t + days)` |
| UserModel.PreSave | backend/models/User.js:74-83 | an unmodified access code is saved as is, the whole document unchanged; a modified one is replaced by its salted hash; no other field changes |
| Auth.Split | backend/middleware/auth.js:16 | `split(sep)` yields at least one field, and no field contains the separator |
| Auth.JoinSplit | backend/middleware/auth.js:16 | splitting loses nothing: joining the fields with the separator gives back the original header |
| Auth.BearerToken | backend/middleware/auth.js:16 | definition of `authHeader.split(' ')[1]` for a header carrying the `Bearer ` prefix; its properties are the rows `Split`, `JoinSplit` and `BearerTokenIsSecondField` |
| Auth.BearerTokenIsSecondField | backend/middleware/auth.js:16 | for `"Bearer " + t` the token is the first space-separated field of `t`, so all of `t` when it has no space |
| Auth.AuthenticatedUser | backend/middleware/auth.js:10-23 | a user is attached exactly when the header starts with `Bearer `, its token decodes to an id, and the first stored user with that id is active; the attached user is that user |
| Auth.Request.constructor | backend/middleware/auth.js:26 | a request carries no user until `authenticate` attaches one |
| Auth.Authenticate | backend/middleware/auth.js:7-32 | passes iff header, token and user all check out, and then attaches exactly that user; otherwise 401 and the request is left unchanged |
| Auth.Authorize | backend/middleware/auth.js:38-49 | 401 iff there is no user; 403 iff there is one whose role is not listed; passes iff the role is listed |
| Auth.CheckDoorAccess | backend/middleware/auth.js:67-83 | 401 iff there is no user; passes iff the user is an administrator or holds a grant on the door; 403 otherwise |
| Auth.AdministratorBypassesDoorGate | backend/middleware/auth.js:74-76 | an administrator passes the door gate for every door, with or without grants |
| Auth.DoorGateIsMembership | backend/middleware/auth.js:79-83 | for a non-administrator the door gate passes exactly when `findIndex` finds a grant for the door |
| UserRoutes.CanCreateRole | backend/routes/users.js:255-265 | definition of `canCreateRole` over `roleHierarchy`; its properties are the rows `CanCreateRoleTable`, `CanCreateRoleIsStrictlyBelow`, `CreateGuards` and `DoorRoutes.GrantRuleFollowsCreateRule` |
| UserRoutes.CanModifyUser | backend/routes/users.js:272-284 | definition of `canModifyUser` (administrator, self or creator); its properties are the rows `UpdateGuards`, `RoleGateOnlyOnChange`, `ModifyWithoutView` and `IntendedModifiableIsViewable` |
| UserRoutes.CanChangeUserRole | backend/routes/users.js:292-299 | definition of `canChangeUserRole`; its property is the row `CanChangeUserRoleOnlyAdministrator`, and its use the row `RoleGateOnlyOnChange` |
| UserRoutes.CanCreateRoleTable | backend/routes/users.js:255-264 | the sixteen entries of the creation table: administrator creates all four roles, host resident and guest, resident guest, guest none |
| UserRoutes.CanCreateRoleIsStrictlyBelow | backend/routes/users.js:257-264 | below administrator a role creates exactly the roles strictly beneath it; no role creates one above itself |
| UserRoutes.CanChangeUserRoleOnlyAdministrator | backend/routes/users.js:293-299 | a role change is allowed iff the modifier is an administrator, whatever the current and new roles |
| UserRoutes.Login | backend/routes/users.js:9-57 | a rejection is 400 or 401; it is 400 exactly when the email or the code is missing |
| UserRoutes.LoginSucceedsIff | backend/routes/users.js:14-41 | login succeeds iff both fields are present, a user has the email, and that user is active, has a matching code and has not expired |
| UserRoutes.LoginDeactivatedBeforeCodeAndExpiry | backend/routes/users.js:24-27 | a deactivated account is reported as such before the code or the expiry is looked at |
| UserRoutes.LoginWrongCodeBeforeExpiry | backend/routes/users.js:29-38 | a wrong code is reported as invalid credentials before expiry, so expiry is revealed only to a holder of the code |
| UserRoutes.CanViewUser | backend/routes/users.js:88-103 | definition of the view check as evaluated after `populate`; its properties are the rows `GetUser`, `CreatorIsRefused`, `DeletedCreatorOpensView` and `ModifyWithoutView` |
| UserRoutes.IntendedCanViewUser | backend/routes/users.js:97-103 | definition of the view rule the handler's comment states; its properties are the rows `GetUserAsIntended` and `IntendedModifiableIsViewable` |
| UserRoutes.GetUser | backend/routes/users.js:86-105 | 404 exactly when no user has the id; otherwise the user is returned iff the check as written (`CanViewUser`: administrator, self, or no creator left after `populate`) allows it, else 403 |
| UserRoutes.GetUserAsIntended | backend/routes/users.js:97-103 | the same handler with the creator compared by id, as the comment says: 404 exactly when no user has the id; otherwise returned iff administrator, self or creator |
| UserRoutes.CreatorIsRefused | backend/routes/users.js:88-103 | as written, a non-administrator whose own record exists is refused a user it created, which the commented rule allows |
| UserRoutes.DeletedCreatorOpensView | backend/routes/users.js:88-103 | as written, once a user's creator is deleted (`populate` gives null) every authenticated user may view it |
| UserRoutes.ModifyWithoutView | backend/routes/users.js:88-103 | a host may modify the guest it created (`canModifyUser`, lines 273-284) yet GET answers it 403, while the commented rule would return the guest |
| UserRoutes.IntendedModifiableIsViewable | backend/routes/users.js:97-103 | under the commented rule, whoever may modify a user may view it |
| UserRoutes.CreatorlessUserIsViewableByAll | backend/routes/users.js:100 | a user without `createdBy` is viewable by every authenticated user, under both the written and the commented rule |
| UserRoutes.ViewingIsWiderThanModifying | backend/routes/users.js:97-103 | viewing is not contained in modifying either: a guest may view a creatorless administrator but not modify it |
| UserRoutes.CreateEffect | backend/routes/users.js:118-169 | definition of the create handler as a value; its properties are the rows `CreateUser`, `CreateGuards`, `CreatedRecord` and `CreatedUserCanLogIn` |
| UserRoutes.CreateUser | backend/routes/users.js:118-169 | the store after the handler and its reply are exactly `CreateEffect`; doors and logs are untouched |
| UserRoutes.CreateGuards | backend/routes/users.js:123-139 | a rejection leaves the users unchanged; 400 iff a field is missing or the email is taken (so the duplicate check comes before the role check); success iff all guards pass and `canCreateRole` allows the requested role |
| UserRoutes.CreatedRecord | backend/routes/users.js:134-154 | a create appends one record with a fresh id: created by the actor, guest unless a role is given, its code hashed, never verified, active |
| UserRoutes.CreatedUserCanLogIn | backend/routes/users.js:142-154 | a newly created user can log in with the code it was created with, until it expires |
| UserRoutes.AssignContactFields | backend/routes/users.js:195-197 | name, email and phone are overwritten only when supplied |
| UserRoutes.AssignAccessFields | backend/routes/users.js:198-200 | role, access code and door list are overwritten only when supplied |
| UserRoutes.AssignTenureFields | backend/routes/users.js:201-203 | access periods and expiration date only when supplied; `isActive` only when supplied by an administrator |
| UserRoutes.UpdateEffect | backend/routes/users.js:174-224 | definition of the update handler as a value; its properties are the rows `UpdateUser`, `UpdateGuards`, `UpdateChangesOnlySuppliedFields`, `RoleGateOnlyOnChange` and `OnlyAdministratorsChangeRoles` |
| UserRoutes.UpdateUser | backend/routes/users.js:174-224 | the store after the handler and its reply are exactly `UpdateEffect`; doors and logs are untouched |
| UserRoutes.UpdateChangesOnlySuppliedFields | backend/routes/users.js:185-205 | an update rewrites only the target record; each of name, email, phone, role, doors, access periods and expiration date takes the supplied value when supplied and keeps the old one otherwise; `isActive` takes the supplied value exactly for an administrator; id, creator, face data and last verification never change; a new different code is stored hashed, an absent or identical one is kept as stored |
| UserRoutes.UpdateGuards | backend/routes/users.js:178-191 | 404 exactly when no user has the id; 403 "Not authorized to modify this user" exactly when the user is found and `canModifyUser` fails, ahead of the role gate; a refused update changes no user; a successful one passed both |
| UserRoutes.RoleGateOnlyOnChange | backend/routes/users.js:190-192 | the role gate fires iff a different role is requested by a non-administrator; resubmitting the current role passes |
| UserRoutes.OnlyAdministratorsChangeRoles | backend/routes/users.js:189-198 | a non-administrator's update never changes any stored role |
| DoorRoutes.NameLeTotal | backend/routes/doors.js:16 | the name order is total |
| DoorRoutes.NameLeTransitive | backend/routes/doors.js:16 | the name order is transitive |
| DoorRoutes.InsertByName | backend/routes/doors.js:16 | inserting into a name-sorted list keeps it sorted and adds exactly that door |
| DoorRoutes.SortByName | backend/routes/doors.js:16 | `.sort('name')`: the result is sorted by name and a permutation of the input |
| DoorRoutes.VisibleDoors | backend/routes/doors.js:21 | a door is listed iff it is stored, active and held by the user |
| DoorRoutes.ListDoors | backend/routes/doors.js:10-29 | definition of `GET /doors`; its properties are the rows `ListDoorsContents`, `VisibleDoors` and `SortByName` |
| DoorRoutes.ListDoorsContents | backend/routes/doors.js:10-29 | a listing is sorted by name: every door for an administrator; otherwise exactly the active doors the stored record holds; 500 only when a non-administrator's record is missing |
| DoorRoutes.PullGrant | backend/routes/doors.js:147-150 | `$pull`: the entries kept are exactly those for other doors; a list without the door is unchanged; uniqueness is preserved |
| DoorRoutes.PullFromAll | backend/routes/doors.js:147-150 | every user's grant list is pulled and nothing else about any user changes |
| DoorRoutes.DeleteDoorEffect | backend/routes/doors.js:137-160 | definition of the delete handler as a value; its properties are the rows `DeleteDoor`, `DeleteRevokesEveryGrant`, `DeletedDoorFailsDoorGate` and `DeleteKeepsGrantsUnique` |
| DoorRoutes.DeleteDoor | backend/routes/doors.js:137-160 | the collections after the handler's loop and its reply are exactly `DeleteDoorEffect` |
| DoorRoutes.DeleteRevokesEveryGrant | backend/routes/doors.js:144-150 | after a delete nobody holds the door, grants for other doors survive, no other field changes, one door fewer, log untouched |
| DoorRoutes.DeletedDoorFailsDoorGate | backend/routes/doors.js:144-150 | after a delete, every non-administrator gets 403 at `checkDoorAccess` (auth.js lines 67-83) for the deleted door |
| DoorRoutes.DeleteKeepsGrantsUnique | backend/routes/doors.js:144-150 | a delete preserves "at most one grant per door" for every user |
| DoorRoutes.CanGrantDoorAccess | backend/routes/doors.js:179-201 | definition of the grant rule: administrator, or holding the door and granting a role the actor's role allows; its properties are the rows `GrantRuleFollowsCreateRule` and `GrantAuthorizationIsRule` |
| DoorRoutes.GrantGate | backend/routes/doors.js:179-201 | definition of the grant handler's 403 checks in source order, each with its message; its properties are the rows `GrantAuthorizationIsRule` and `DuplicateGrantRejected` |
| DoorRoutes.GrantRuleFollowsCreateRule | backend/routes/doors.js:179-201 | below administrator, granting while holding the door follows the account-creation table, and without holding it nobody may grant |
| DoorRoutes.GrantEffect | backend/routes/doors.js:165-223 | definition of the grant handler as a value; its properties are the rows `GrantDoorAccess`, `GrantAuthorizationIsRule`, `GrantAppendsOneEntry`, `DuplicateGrantRejected`, `GrantKeepsGrantsUnique` and `GrantThenRevoke` |
| DoorRoutes.GrantDoorAccess | backend/routes/doors.js:165-223 | the users after the handler and its reply are exactly `GrantEffect`; doors and logs are untouched |
| DoorRoutes.GrantAuthorizationIsRule | backend/routes/doors.js:179-201 | once door and grantee are found, the handler answers 403 iff the grant rule fails for the actor's role, its holding of the door and the grantee's role |
| DoorRoutes.GrantAppendsOneEntry | backend/routes/doors.js:205-216 | a grant happens only when the grantee lacks the door; it appends exactly one entry for the door to that user and changes nothing else |
| DoorRoutes.DuplicateGrantRejected | backend/routes/doors.js:205-208 | once the permission gates pass, for any actor, re-granting a held door answers 400 and leaves every grant list as it was |
| DoorRoutes.GrantKeepsGrantsUnique | backend/routes/doors.js:205-216 | a grant preserves "at most one grant per door" for every user |
| DoorRoutes.RevokeAllowed | backend/routes/doors.js:241-243 | definition of the revoke permission, None where `createdBy.toString()` throws; its property is the row `RevokeAuthority` |
| DoorRoutes.RevokeEffect | backend/routes/doors.js:228-260 | definition of the revoke handler as a value; its properties are the rows `RevokeDoorAccess`, `RevokeAuthority`, `RevokeRemovesOneEntry`, `GrantThenRevoke` and `RevokeTwiceRejected` |
| DoorRoutes.RevokeDoorAccess | backend/routes/doors.js:228-260 | the users after the handler and its reply are exactly `RevokeEffect`; doors and logs are untouched |
| DoorRoutes.RevokeAuthority | backend/routes/doors.js:241-243 | 403 iff the actor is neither administrator nor the grantee's creator; a successful revoke only by one of those |
| DoorRoutes.RevokeRemovesOneEntry | backend/routes/doors.js:246-253 | a revoke removes exactly the first entry for the door, keeps the rest in order, touches no other user, and with unique grants leaves the door unheld |
| DoorRoutes.FindUserIgnoresGrantLists | backend/routes/doors.js:235 | rewriting a user's grant list does not move `findById` |
| DoorRoutes.GrantThenRevoke | backend/routes/doors.js:165-253 | a grant followed by a permitted revoke restores the user collection exactly |
| DoorRoutes.RevokeTwiceRejected | backend/routes/doors.js:246-250 | with unique grants, a second revoke finds nothing and answers 400 without changes |
| AccessRoutes.ActiveDoor | deploy/backend/routes/access.js:29-32 | the door found exists, has the id and is active; None exactly when it is missing or inactive |
| AccessRoutes.FirstCodeMatch | deploy/backend/routes/access.js:35-48 | the first user in store order who is active, holds the door and whose code verifies; None iff there is none |
| AccessRoutes.FirstFaceMatch | deploy/backend/routes/access.js:145-161 | the first active user holding the door who has stored face data; None iff there is none |
| AccessRoutes.MatchCode | deploy/backend/routes/access.js:42-48 | the loop with `break` returns a verified candidate with no verified candidate before it, or None when no candidate verifies |
| AccessRoutes.MatchFace | deploy/backend/routes/access.js:154-161 | the loop returns a candidate with face data with none before it, or None when there is none |
| AccessRoutes.MatchCodeIsFirstMatch | deploy/backend/routes/access.js:42-48 | whatever the loop returns is `FirstCodeMatch` |
| AccessRoutes.MatchFaceIsFirstMatch | deploy/backend/routes/access.js:154-161 | whatever the loop returns is `FirstFaceMatch` |
| AccessRoutes.PrimaryEffect | deploy/backend/routes/access.js:50-108 | definition of the primary path past its guards; its properties are the rows `FinishPrimary`, `PrimaryOutcome`, `GrantWithFailedRead` and `GrantWithWorkingRead` |
| AccessRoutes.FinishPrimary | deploy/backend/routes/access.js:50-108 | collections, relay commands and reply after the primary path are exactly `PrimaryEffect` |
| AccessRoutes.PrimaryOutcome | deploy/backend/routes/access.js:50-108 | exactly one event appended, doors untouched. No match: anonymous. Expired match: `reason: expired`. `access_attempt` iff unsuccessful; `double_verification` iff step-up is answered; `access_granted` iff matched, unexpired and no step-up due. Relay driven and user stamped only on the grant path; the grant event stays when the read fails (500) |
| AccessRoutes.GrantWithFailedRead | deploy/backend/routes/access.js:81-108 | a grant whose status read throws: `access_granted` already logged, 500, nothing sent, no user stamped |
| AccessRoutes.GrantWithWorkingRead | deploy/backend/routes/access.js:81-108 | a grant whose status read succeeds: one command for the opposite state, `Granted` with the switch result, the user's `lastVerification` set to now, one `access_granted` event |
| AccessRoutes.VerifyCodeEffect | deploy/backend/routes/access.js:20-123 | definition of `/code` as a value; its properties are the rows `VerifyCode`, `CodeGuardsLogNothing`, `CodeAttemptOutcome`, `CodeExpiredMatch` and `CodeGrantRestartsWindow` |
| AccessRoutes.VerifyCode | deploy/backend/routes/access.js:20-123 | collections, relay commands and reply after `/code` are exactly `VerifyCodeEffect` |
| AccessRoutes.CodeGuardsLogNothing | deploy/backend/routes/access.js:24-32 | 400 iff the door id or code is missing; 404 iff the door is missing or inactive; neither logs, drives the relay nor changes a user |
| AccessRoutes.CodeAttemptOutcome | deploy/backend/routes/access.js:35-108 | past the guards exactly one `code` event without image; with no match it is the anonymous failed attempt and 401 "Invalid access code"; a match names the first verified candidate; only a successful `access_granted` path actuates or changes users |
| AccessRoutes.CodeExpiredMatch | deploy/backend/routes/access.js:64-76 | an expired match gets exactly one `access_attempt` event with reason `expired`, 401, no actuation, no user change, whatever its step-up state |
| AccessRoutes.CodeGrantRestartsWindow | deploy/backend/routes/access.js:103-108 | after a granted code attempt the user owes no step-up anywhere in the door's window |
| AccessRoutes.VerifyFaceEffect | deploy/backend/routes/access.js:128-247 | definition of `/face` as a value; its properties are the rows `VerifyFace`, `FaceGuardsLogNothing`, `FaceAttemptOutcome` and `FaceOutcomeIgnoresDescriptor` |
| AccessRoutes.VerifyFace | deploy/backend/routes/access.js:128-247 | collections, relay commands and reply after `/face` are exactly `VerifyFaceEffect` |
| AccessRoutes.FaceGuardsLogNothing | deploy/backend/routes/access.js:132-140 | 400 iff the door id or face data is missing; 404 iff the door is missing or inactive; neither logs, drives the relay nor changes a user |
| AccessRoutes.FaceAttemptOutcome | deploy/backend/routes/access.js:145-232 | past the guards exactly one `face` event, carrying an image iff one was sent; with no candidate it is anonymous, failed, 401 "Face not recognized", no actuation; a match has face data |
| AccessRoutes.FaceOutcomeIgnoresDescriptor | deploy/backend/routes/access.js:153-161 | the placeholder match: the presented descriptor never changes the outcome |
| AccessRoutes.MotionEffect | deploy/backend/routes/access.js:252-291 | definition of `/motion` as a value; its properties are the rows `Motion` and `MotionOnlyLogs` |
| AccessRoutes.Motion | deploy/backend/routes/access.js:252-291 | the collections after `/motion` and its reply are exactly `MotionEffect`, and nothing is sent to a relay |
| AccessRoutes.MotionOnlyLogs | deploy/backend/routes/access.js:256-281 | motion never touches users, doors or relays; at an active door it appends one anonymous successful `approach` event with image iff one was sent; otherwise nothing is appended |
| AccessRoutes.DoubleVerifyEffect | deploy/backend/routes/access.js:296-393 | definition of `/double-verify` as a value; its properties are the rows `DoubleVerify`, `DoubleVerifyRequestGuards`, `DoubleVerifyGuardsLogNothing`, `DoubleVerifyOutcome`, `DoubleVerifyCodeTakesPrecedence`, `FaceSecondFactorIsPresenceOnly` and `DoubleVerifyRestartsWindow` |
| AccessRoutes.DoubleVerify | deploy/backend/routes/access.js:296-393 | collections, relay commands and reply after `/double-verify` are exactly `DoubleVerifyEffect` |
| AccessRoutes.DoubleVerifyRequestGuards | deploy/backend/routes/access.js:299-311 | 400 iff the door id or user id is missing or neither factor is sent; 404 "Door not found or inactive" iff those are present and the door is missing or inactive; both leave the collections unchanged and send nothing |
| AccessRoutes.DoubleVerifyGuardsLogNothing | deploy/backend/routes/access.js:312-322 | an unknown or inactive user is 404 and a user without a grant is 403, with nothing logged or changed |
| AccessRoutes.DoubleVerifyOutcome | deploy/backend/routes/access.js:325-378 | for an active granted user: failure (expired or wrong factor) logs one `access_attempt` by `double` and changes nothing else; success toggles, stamps `lastVerification`, then logs `access_granted` by `double`; a failed read is 500 with no event; granted iff unexpired, factor holds and the read succeeds |
| AccessRoutes.DoubleVerifyCodeTakesPrecedence | deploy/backend/routes/access.js:340-347 | when a code is sent, the face data sent alongside never matters |
| AccessRoutes.FaceSecondFactorIsPresenceOnly | deploy/backend/routes/access.js:346-349 | without a code, any descriptor opens the door for an active, granted, unexpired user with face data on record |
| AccessRoutes.DoubleVerifyRestartsWindow | deploy/backend/routes/access.js:363-368 | after a successful second factor the user owes no step-up anywhere in the door's window |
| AccessLogs.GrantedDoorIds | deploy/backend/routes/access.js:410 | `doors.map(d => d.doorId)`: same length, entry by entry |
| AccessLogs.GrantedDoorIdsMembership | deploy/backend/routes/access.js:410-411 | a door id is in the mapped list iff the user holds the door |
| AccessLogs.BuildLogQuery | deploy/backend/routes/access.js:402-429 | the successive assignments build `LogQueryFor`: user, event type and dates copied from the filters; an explicit door id taken as is |
| AccessLogs.LogQueryFor | deploy/backend/routes/access.js:402-429 | definition of the query `GET /logs` builds from its filters and the actor's role; its properties are the rows `BuildLogQuery`, `ExplicitDoorIsNotScoped` and `HostScopedToHeldDoors` |
| AccessLogs.Matches | deploy/backend/routes/access.js:402-429 | definition of when an event satisfies the query (door, user, event type, date range); its properties are the rows `Filtered` and `NewestFirst` |
| AccessLogs.Filtered | deploy/backend/routes/access.js:435 | `find(query)` in insertion order: exactly the matching events, no more than the log |
| AccessLogs.FilteredAppend | deploy/backend/routes/access.js:435 | filtering distributes over concatenation, so it keeps the log's order and each event's repeats |
| AccessLogs.NewestFirst | deploy/backend/routes/access.js:435-440 | exactly `Filtered` reversed: same length, item `i` is the `i`-th matching event counted from the newest, so order and repeats are kept; its members are exactly the matching events |
| AccessLogs.CeilDiv | deploy/backend/routes/access.js:448 | `Math.ceil(total / limit)`: enough pages for all items, no empty last page, zero for no items |
| AccessLogs.Page | deploy/backend/routes/access.js:439-440 | `.skip(skip).limit(limit)`: at most `limit` items, each the item `skip` positions further on; the whole tail when it fits |
| AccessLogs.GetLogs | deploy/backend/routes/access.js:398-456 | definition of `GET /logs`; its properties are the rows `LogsRoleGate`, `ExplicitDoorIsNotScoped`, `HostScopedToHeldDoors` and `PagingIsExact` |
| AccessLogs.LogsRoleGate | deploy/backend/routes/access.js:398 | residents and guests get 403 "Access denied"; an administrator gets a page for any page from 1 on |
| AccessLogs.ExplicitDoorIsNotScoped | deploy/backend/routes/access.js:405-406 | with an explicit door id a host gets exactly what an administrator gets, held door or not, and only that door's events |
| AccessLogs.HostScopedToHeldDoors | deploy/backend/routes/access.js:407-411 | without a door id a host sees only events of doors its stored record holds |
| AccessLogs.PagingIsExact | deploy/backend/routes/access.js:432-448 | a page has at most `limit` events and reports its count; `totalPages` is the ceiling of total over limit; the `k`-th newest match is item `k % limit` of page `k / limit + 1` |
| AccessLogs.LogImage | deploy/backend/routes/access.js:461-493 | definition of `GET /logs/:id/image`; its property is the row `ImageReleaseIsDoorGate` |
| AccessLogs.ImageReleaseIsDoorGate | deploy/backend/routes/access.js:461-493 | an image is released iff the log exists, has an image, and the actor is an administrator or a host whose stored record holds the event's door; it is always that event's own image |
| AccessInterface.AfterKey | frontend/door-access-app/src/components/AccessInterface.jsx:106-116 | `clear` empties the buffer, `backspace` drops the last character (empty stays empty), any other key except `enter` appends exactly its text |
| AccessInterface.BackspaceUndoesPress | frontend/door-access-app/src/components/AccessInterface.jsx:109-114 | backspace after a one-character key restores the buffer |
| AccessInterface.EmptyBufferStaysEmpty | frontend/door-access-app/src/components/AccessInterface.jsx:107-110 | clear or backspace on an empty buffer leaves it empty, and clear is idempotent |
| AccessInterface.SubmitError | frontend/door-access-app/src/components/AccessInterface.jsx:120-134 | no error iff a door is selected and the code is non-empty; "Please select a door" is checked first |
| AccessInterface.ResponseFeedback | frontend/door-access-app/src/components/AccessInterface.jsx:142-174 | warning iff step-up, success iff granted, error iff refused; a refusal shows the server's message when there is one |
| AccessInterface.ResponseFor | deploy/backend/routes/access.js:91-118 | a step-up answer reaches the kiosk as step-up, a grant as a welcome, any error status as a refusal with the server's message |
| AccessInterface.KioskShowsServerRefusal | frontend/door-access-app/src/components/AccessInterface.jsx:163-174 | every refusal from the code handler is shown as an error with the server's own words |
| AccessInterface.Kiosk.constructor | frontend/door-access-app/src/components/AccessInterface.jsx:50-60 | an idle screen: empty buffer, no feedback, keypad enabled, no requests sent |
| AccessInterface.Kiosk.PressKey | frontend/door-access-app/src/components/AccessInterface.jsx:453 | a disabled keypad (loading or step-up pending) ignores presses, so a stuck screen stays stuck; otherwise the key edits the buffer or submits, and door, status, verified user, step-up, camera and timers stay |
| AccessInterface.Kiosk.HandleKeypadInput | frontend/door-access-app/src/components/AccessInterface.jsx:106-116 | editing keys change only the buffer, as `AfterKey`; `enter` either shows the guard error without sending, or sends exactly one request for the selected door and code and starts loading |
| AccessInterface.Kiosk.SubmitAccessCode | frontend/door-access-app/src/components/AccessInterface.jsx:119-140 | with no door or an empty code it sets the error and sends nothing; otherwise loading, feedback cleared, one request appended |
| AccessInterface.Kiosk.ReceiveVerifyResponse | frontend/door-access-app/src/components/AccessInterface.jsx:141-178 | on every outcome loading ends, the buffer is cleared and the camera flag is left as it was (`startCamera` finds no video element, lines 196-199 and 396); a step-up sets the flag and the user, disables the keypad and schedules nothing, so from a screen with no camera and no timers it is stuck; a grant appends the 5 s reset, a refusal the 3 s reset, to the uncleared timers |
| AccessInterface.Kiosk.ResetInterface | frontend/door-access-app/src/components/AccessInterface.jsx:310-317 | clears the code, status, verified user, step-up flag, camera and feedback; leaves the door selection alone |
| AccessInterface.Kiosk.FireReset | frontend/door-access-app/src/components/AccessInterface.jsx:159-161 | any one of the scheduled, never-cleared resets fires: it leaves the timer list without it and the idle screen, whatever the screen showed |
| AccessInterface.Kiosk.ChangeDoor | frontend/door-access-app/src/components/AccessInterface.jsx:304-307 | ignored while the select is disabled (line 355: loading or step-up pending); otherwise records the door and resets the screen |
| AccessInterface.Kiosk.DismissFeedback | frontend/door-access-app/src/components/AccessInterface.jsx:371 | closing the alert clears the feedback and nothing else, so a stuck screen stays stuck |
| AccessInterface.StaleResetWipesGrant | frontend/door-access-app/src/components/AccessInterface.jsx:159-174 | a refusal followed within 3 s by a grant: the refusal's reset fires first and wipes the grant from the screen, the grant's own reset still pending |
| AccessInterface.StepUpStrandsKiosk | frontend/door-access-app/src/components/AccessInterface.jsx:142-149 | a step-up answer on a fresh kiosk leaves it stuck: keypad disabled (line 453), no camera, no timer, and key presses and door changes change nothing |

## Findings

| source | as written | input that shows it | evidently intended | confidence | as-written member | corrected member |
|---|---|---|---|---|---|---|
| backend/routes/users.js:88-103 | the creator test compares the requester's id with the populated `createdBy` document, which never equals an id | host H, still stored, created guest G; H requests `GET /users/G` | the creator may view the user it created, compared by id | high, not executed | UserRoutes.ModifyWithoutView | UserRoutes.IntendedModifiableIsViewable |
| backend/utils/tasmota.js:1-71 | `fetch.get` is called on `node-fetch`, which has no `get`, so the status read always throws | any code or face attempt that reaches the grant path | read the relay's state and switch it | high, not executed | AccessRoutes.GrantWithFailedRead | AccessRoutes.GrantWithWorkingRead |

## Left out

- bcrypt hashing and comparison, JWT signing and verification, and the face-api model are foreign code. They appear only as parameters (`Hasher`, `Verifier`, a token-to-id function) or as the placeholder rules the backend applies.
- The Tasmota HTTP client is reduced to its two outcomes: the status read (succeeds with a power state, or throws) and the set (succeeds, or its error is swallowed). The HTTP requests, URLs and headers are not modelled.
- Tasmota.ToggleResult: `require('node-fetch')` exports a function with no `get` method, and its responses have no `data` field (backend/utils/tasmota.js:1, 20, 63-64). As written, `toggleDoorLock` therefore always throws: every `/code` and `/face` grant answers 500 after logging `access_granted`, and `lastVerification` is never stamped (`AccessRoutes.GrantWithFailedRead`). The `PowerIs` branches model the client the code evidently intends.
- Express routing, JSON shaping, `populate`, `select`, `sendFile`, the uploads directory and the image file name are left out. The saved path is a parameter.
- Errors thrown by MongoDB are not modelled: malformed ObjectIds (the `error.kind === 'ObjectId'` 404s), connection failures, failed saves. The exception is the duplicate-email save in update, which is modelled as the 500 it produces.
- Log ids in `/logs/:id/image` are positions in the log.
- Query-string coercion in `/logs` is not modelled. `page` and `limit` are taken as integers, with `limit >= 0`. A limit of 0 is "no limit", and its `Infinity` page count is None. The echoed `currentPage` is the number, not the string.
- AccessLogs.NewestFirst: `sort('-createdAt')` is modelled as reverse append order. Ties and clock skew between events are not modelled.
- Dates: `now` is one parameter per request, also used for the `lastVerification` stamp (`new Date()`) and the event's `createdAt`. Date parsing of `startDate` and `endDate` is left out.
- The user list, user delete, door get-by-id, door create and door update handlers, and the door PUT field assignments, are not part of this model.
- `accessPeriods` are stored and patched but never enforced, as in the code.
- Email handling: the schema's trimming and lower-casing of emails are not modelled. Emails are compared exactly.
- UserRoutes.CreateEffect: the 403 message is the fixed text "You cannot create accounts of this role", without the requested role interpolated. The same holds for the update role-gate message.
- The kiosk's face-verification flow, camera start/stop, model loading and `handleFaceVerification` are not part of this model. The camera is a flag, which a step-up leaves as it was.
- AccessInterface.Kiosk.ReceiveVerifyResponse: the asynchronous "Failed to access camera" feedback that `startCamera` may set after a step-up is not modelled.
- AccessInterface.Kiosk.FireReset: timer delays are recorded but elapsed time is not; which pending reset fires next is the caller's choice.
- Concurrency between requests, such as two toggles racing or a lost `lastVerification` update, is not modelled. One request runs at a time.
- The login token and the response bodies beyond the fields the model returns are left out.
