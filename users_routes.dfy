/**
 * The user routes: the role-hierarchy authority (`canCreateRole`,
 * `canModifyUser`, `canChangeUserRole`) and the guard sequences of the login,
 * get-by-id, create and update handlers.
 */
module UserRoutes {
  import opened Model
  import opened UserModel
  import opened Store

  // ---------------------------------------------------------------------------
  // Role hierarchy authority

  /** `roleHierarchy[role]`: the roles a user of `role` may create. */
  function RoleHierarchy(role: Role): seq<Role> {
    match role
    case Administrator => [Administrator, Host, Resident, Guest]
    case Host => [Resident, Guest]
    case Resident => [Guest]
    case Guest => []
  }

  function CanCreateRole(userRole: Role, targetRole: Role): bool {
    targetRole in RoleHierarchy(userRole)
  }

  /** Position in the four-level hierarchy, guest lowest. */
  function Rank(role: Role): nat {
    match role
    case Administrator => 3
    case Host => 2
    case Resident => 1
    case Guest => 0
  }

  /** `canModifyUser`: an administrator, the user themselves, or the user's creator. */
  function CanModifyUser(modifier: User, target: User): bool {
    || modifier.role == Administrator
    || modifier.id == target.id
    || (target.createdBy.Some? && modifier.id == target.createdBy.value)
  }

  /** `canChangeUserRole`: only administrators change roles, whatever the roles involved. */
  function CanChangeUserRole(modifierRole: Role, currentRole: Role, newRole: Role): bool {
    modifierRole == Administrator
  }

  /** The role table, all sixteen pairs. */
  lemma CanCreateRoleTable()
    ensures CanCreateRole(Administrator, Administrator) && CanCreateRole(Administrator, Host)
    ensures CanCreateRole(Administrator, Resident) && CanCreateRole(Administrator, Guest)
    ensures !CanCreateRole(Host, Administrator) && !CanCreateRole(Host, Host)
    ensures CanCreateRole(Host, Resident) && CanCreateRole(Host, Guest)
    ensures !CanCreateRole(Resident, Administrator) && !CanCreateRole(Resident, Host)
    ensures !CanCreateRole(Resident, Resident) && CanCreateRole(Resident, Guest)
    ensures !CanCreateRole(Guest, Administrator) && !CanCreateRole(Guest, Host)
    ensures !CanCreateRole(Guest, Resident) && !CanCreateRole(Guest, Guest)
  {
  }

  /** Below the administrator, a role creates exactly the roles strictly beneath it. */
  lemma CanCreateRoleIsStrictlyBelow(userRole: Role, targetRole: Role)
    ensures userRole != Administrator ==> (CanCreateRole(userRole, targetRole) <==> Rank(targetRole) < Rank(userRole))
    ensures CanCreateRole(userRole, targetRole) ==> Rank(targetRole) <= Rank(userRole)
  {
  }

  lemma CanChangeUserRoleOnlyAdministrator(modifierRole: Role, currentRole: Role, newRole: Role)
    ensures CanChangeUserRole(modifierRole, currentRole, newRole) <==> modifierRole == Administrator
  {
  }

  // ---------------------------------------------------------------------------
  // POST /login

  datatype LoginReply = LoginRejected(status: int, message: string) | LoggedIn(userId: Id)

  /** The login guards, first failure wins; a success carries the id the token is bound to. */
  function Login(users: seq<User>, email: string, accessCode: string, now: Time, verifies: Verifier): (r: LoginReply)
    ensures r.LoginRejected? ==> r.status == 400 || r.status == 401
    ensures r.LoginRejected? && r.status == 400 <==> email == [] || accessCode == []
  {
    if email == [] || accessCode == [] then LoginRejected(400, "Please provide email and access code")
    else match FindUserByEmail(users, email)
      case None => LoginRejected(401, "Invalid credentials")
      case Some(i) =>
        var u := users[i];
        if !u.isActive then LoginRejected(401, "Account is deactivated")
        else if !verifies(accessCode, u.accessCode) then LoginRejected(401, "Invalid credentials")
        else if IsAccessExpired(u, now) then LoginRejected(401, "Your access has expired")
        else LoggedIn(u.id)
  }

  /** A login succeeds exactly when every guard passes for the first user with that email. */
  lemma LoginSucceedsIff(users: seq<User>, email: string, accessCode: string, now: Time, verifies: Verifier)
    ensures Login(users, email, accessCode, now, verifies).LoggedIn? <==>
      && email != [] && accessCode != []
      && FindUserByEmail(users, email).Some?
      && var u := users[FindUserByEmail(users, email).value];
         u.isActive && verifies(accessCode, u.accessCode) && !IsAccessExpired(u, now)
  {
  }

  /** The guards run in order: a deactivated account is reported as such even with a wrong code or past expiry. */
  lemma LoginDeactivatedBeforeCodeAndExpiry(users: seq<User>, email: string, accessCode: string, now: Time, verifies: Verifier)
    requires email != [] && accessCode != []
    requires FindUserByEmail(users, email).Some? && !users[FindUserByEmail(users, email).value].isActive
    ensures Login(users, email, accessCode, now, verifies) == LoginRejected(401, "Account is deactivated")
  {
  }

  /** A wrong code is reported before expiry, so expiry is only revealed to someone holding the code. */
  lemma LoginWrongCodeBeforeExpiry(users: seq<User>, email: string, accessCode: string, now: Time, verifies: Verifier)
    requires email != [] && accessCode != []
    requires FindUserByEmail(users, email).Some?
    requires var u := users[FindUserByEmail(users, email).value]; u.isActive && !verifies(accessCode, u.accessCode)
    ensures Login(users, email, accessCode, now, verifies) == LoginRejected(401, "Invalid credentials")
  {
  }

  // ---------------------------------------------------------------------------
  // GET /:id

  /**
   * The get-by-id check as the handler evaluates it. The record was loaded
   * with `createdBy` populated, so the creator comparison stringifies the
   * creator's document rather than its id and never matches: past the
   * administrator and self tests, only a record whose creator is unset or no
   * longer exists (populated to null) is let through.
   */
  function CanViewUser(users: seq<User>, actor: User, target: User): bool {
    || actor.role == Administrator
    || actor.id == target.id
    || target.createdBy.None?
    || FindUser(users, target.createdBy.value).None?
  }

  /** The rule the handler's comment states: an administrator, the user themselves, or the creator of the user. */
  function IntendedCanViewUser(actor: User, target: User): bool {
    !(actor.role != Administrator
      && actor.id != target.id
      && (target.createdBy.Some? && actor.id != target.createdBy.value))
  }

  datatype GetReply = GetNotFound | GetForbidden | Found(user: User)

  /** GET /:id as written: 404 for an unknown id, else the populated check decides. */
  function GetUser(users: seq<User>, actor: User, id: Id): (r: GetReply)
    ensures r.Found? ==> r.user in users && r.user.id == id && CanViewUser(users, actor, r.user)
    ensures r == GetNotFound <==> FindUser(users, id).None?
    ensures FindUser(users, id).Some? ==>
      (r.Found? <==> CanViewUser(users, actor, users[FindUser(users, id).value]))
  {
    match FindUser(users, id)
    case None => GetNotFound
    case Some(i) => if CanViewUser(users, actor, users[i]) then Found(users[i]) else GetForbidden
  }

  /** GET /:id with the creator compared by id, as the comment intends. */
  function GetUserAsIntended(users: seq<User>, actor: User, id: Id): (r: GetReply)
    ensures r.Found? ==> r.user in users && r.user.id == id && IntendedCanViewUser(actor, r.user)
    ensures r == GetNotFound <==> FindUser(users, id).None?
    ensures FindUser(users, id).Some? ==>
      (r.Found? <==> IntendedCanViewUser(actor, users[FindUser(users, id).value]))
  {
    match FindUser(users, id)
    case None => GetNotFound
    case Some(i) => if IntendedCanViewUser(actor, users[i]) then Found(users[i]) else GetForbidden
  }

  /** As written, a non-administrator creator whose own record exists is refused the user they created. */
  lemma CreatorIsRefused(users: seq<User>, actor: User, id: Id)
    requires FindUser(users, id).Some?
    requires var t := users[FindUser(users, id).value];
      actor.role != Administrator && actor.id != t.id && t.createdBy == Some(actor.id)
    requires FindUser(users, actor.id).Some?
    ensures GetUser(users, actor, id) == GetForbidden
    ensures GetUserAsIntended(users, actor, id).Found?
  {
  }

  /** As written, once a user's creator has been deleted, every authenticated user may view it. */
  lemma DeletedCreatorOpensView(users: seq<User>, actor: User, id: Id)
    requires FindUser(users, id).Some?
    requires var t := users[FindUser(users, id).value];
      t.createdBy.Some? && FindUser(users, t.createdBy.value).None?
    ensures GetUser(users, actor, id).Found?
  {
  }

  /** A host may modify the guest it created, yet as written it may not view it. */
  lemma ModifyWithoutView()
    ensures var host := User(1, "h", "h@x", "", Host, Some(0), "c", None, [], [], None, None, true);
            var guest := User(2, "g", "g@x", "", Guest, Some(1), "c", None, [], [], None, None, true);
            && CanModifyUser(host, guest)
            && GetUser([host, guest], host, 2) == GetForbidden
            && GetUserAsIntended([host, guest], host, 2) == Found(guest)
  {
    var host := User(1, "h", "h@x", "", Host, Some(0), "c", None, [], [], None, None, true);
    var guest := User(2, "g", "g@x", "", Guest, Some(1), "c", None, [], [], None, None, true);
    var users := [host, guest];
    assert users[1].id == 2 && users[0].id == 1;
    assert FindUser(users, 2) == Some(1);
    assert FindUser(users, 1) == Some(0);
  }

  /** Under the intended rule, whoever may modify a user may view it. */
  lemma IntendedModifiableIsViewable(actor: User, target: User)
    requires CanModifyUser(actor, target)
    ensures IntendedCanViewUser(actor, target)
  {
  }

  /** A user with no creator (a bootstrap administrator) is viewable by every authenticated user, under both rules. */
  lemma CreatorlessUserIsViewableByAll(users: seq<User>, actor: User, target: User)
    requires target.createdBy.None?
    ensures CanViewUser(users, actor, target) && IntendedCanViewUser(actor, target)
  {
  }

  /** Viewing is not contained in modifying either: a guest may view, but not modify, a creatorless administrator. */
  lemma ViewingIsWiderThanModifying()
    ensures var admin := User(0, "a", "a@x", "", Administrator, None, "h", None, [], [], None, None, true);
            var guest := User(1, "g", "g@x", "", Guest, Some(0), "h", None, [], [], None, None, true);
            CanViewUser([admin, guest], guest, admin) && IntendedCanViewUser(guest, admin) && !CanModifyUser(guest, admin)
  {
  }

  // ---------------------------------------------------------------------------
  // POST / (create)

  /** The body of a create request; empty strings stand for missing (falsy) fields. */
  datatype NewUser = NewUser(
    name: string, email: string, phone: string, role: Option<Role>, accessCode: string,
    doors: Option<seq<DoorGrant>>, accessPeriods: Option<seq<Period>>, expirationDate: Option<Time>)

  datatype CreateReply = CreateRejected(status: int, message: string) | Created(userId: Id)

  /** The document a successful create saves, its code already hashed by the pre-save hook. */
  function NewRecord(users: seq<User>, actor: User, req: NewUser, hash: Hasher, salt: Salt): User {
    User(FreshUserId(users), req.name, req.email, req.phone, req.role.GetOr(Guest), Some(actor.id),
         hash(req.accessCode, salt), None, req.doors.GetOr([]), req.accessPeriods.GetOr([]),
         req.expirationDate, None, true)
  }

  /** The create handler as a value: guards in source order, then one appended record. */
  function CreateEffect(users: seq<User>, actor: User, req: NewUser, hash: Hasher, salt: Salt): Outcome<CreateReply> {
    if req.name == [] || req.email == [] || req.accessCode == [] then
      Outcome(users, CreateRejected(400, "Please provide name, email, and access code"))
    else if FindUserByEmail(users, req.email).Some? then
      Outcome(users, CreateRejected(400, "Email already in use"))
    else if !CanCreateRole(actor.role, req.role.GetOr(Guest)) then
      Outcome(users, CreateRejected(403, "You cannot create accounts of this role"))
    else
      var rec := NewRecord(users, actor, req, hash, salt);
      Outcome(users + [rec], Created(rec.id))
  }

  method CreateUser(st: Store, actor: User, req: NewUser, hash: Hasher, salt: Salt) returns (reply: CreateReply)
    modifies st
    ensures Outcome(st.users, reply) == CreateEffect(old(st.users), actor, req, hash, salt)
    ensures st.doors == old(st.doors) && st.logs == old(st.logs)
  {
    if req.name == [] || req.email == [] || req.accessCode == [] {
      return CreateRejected(400, "Please provide name, email, and access code");
    }
    var existing := FindUserByEmail(st.users, req.email);
    if existing.Some? {
      return CreateRejected(400, "Email already in use");
    }
    var requestedRole := req.role.GetOr(Guest);
    if !CanCreateRole(actor.role, requestedRole) {
      return CreateRejected(403, "You cannot create accounts of this role");
    }
    var doc := User(FreshUserId(st.users), req.name, req.email, req.phone, requestedRole, Some(actor.id),
                    req.accessCode, None, req.doors.GetOr([]), req.accessPeriods.GetOr([]),
                    req.expirationDate, None, true);
    var stored := PreSave(doc, true, hash, salt);
    st.users := st.users + [stored];
    reply := Created(stored.id);
  }

  /** Every rejection leaves the store alone; the duplicate-email check precedes the role check. */
  lemma CreateGuards(users: seq<User>, actor: User, req: NewUser, hash: Hasher, salt: Salt)
    ensures var o := CreateEffect(users, actor, req, hash, salt);
      && (o.reply.CreateRejected? ==> o.users == users)
      && (o.reply.CreateRejected? && o.reply.status == 400 <==>
            req.name == [] || req.email == [] || req.accessCode == [] || FindUserByEmail(users, req.email).Some?)
      && (o.reply.Created? <==>
            req.name != [] && req.email != [] && req.accessCode != []
            && FindUserByEmail(users, req.email).None? && CanCreateRole(actor.role, req.role.GetOr(Guest)))
  {
  }

  /** A created user is a fresh record, created by the actor, guest unless told otherwise, never verified. */
  lemma CreatedRecord(users: seq<User>, actor: User, req: NewUser, hash: Hasher, salt: Salt)
    requires CreateEffect(users, actor, req, hash, salt).reply.Created?
    ensures var o := CreateEffect(users, actor, req, hash, salt);
      && |o.users| == |users| + 1 && o.users[..|users|] == users
      && var u := o.users[|users|];
         && u.id == o.reply.userId
         && (forall j :: 0 <= j < |users| ==> users[j].id != u.id)
         && u.createdBy == Some(actor.id)
         && u.role == req.role.GetOr(Guest)
         && (req.role.None? ==> u.role == Guest)
         && u.accessCode == hash(req.accessCode, salt)
         && u.lastVerification.None? && u.isActive
  {
  }

  /** A freshly created user logs in with the code it was created with (while not expired). */
  lemma CreatedUserCanLogIn(users: seq<User>, actor: User, req: NewUser, hash: Hasher, salt: Salt,
                            now: Time, verifies: Verifier)
    requires CreateEffect(users, actor, req, hash, salt).reply.Created?
    requires verifies(req.accessCode, hash(req.accessCode, salt))
    requires req.expirationDate.None? || now <= req.expirationDate.value
    ensures var o := CreateEffect(users, actor, req, hash, salt);
      Login(o.users, req.email, req.accessCode, now, verifies) == LoggedIn(o.reply.userId)
  {
    var o := CreateEffect(users, actor, req, hash, salt);
    var k := FindUserByEmail(o.users, req.email);
    assert o.users[|users|].email == req.email;
    assert forall j :: 0 <= j < |users| ==> o.users[j] == users[j];
    assert k == Some(|users|);
  }

  // ---------------------------------------------------------------------------
  // PUT /:id (update)

  /** The body of an update; empty strings and None stand for fields that are absent or falsy. */
  datatype UserPatch = UserPatch(
    name: string, email: string, phone: string, role: Option<Role>, accessCode: string,
    doors: Option<seq<DoorGrant>>, accessPeriods: Option<seq<Period>>,
    expirationDate: Option<Option<Time>>,   // None: undefined; Some(None): explicitly null
    isActive: Option<bool>)

  datatype UpdateReply = UpdateRejected(status: int, message: string) | Updated(user: User)

  /** Another stored user already carries the email (the unique index on `email`). */
  predicate EmailTakenByOther(users: seq<User>, i: nat, email: string) {
    exists j :: 0 <= j < |users| && j != i && users[j].email == email
  }

  /** The document after the handler's field-by-field assignments, before the pre-save hook. */
  function Patched(u: User, p: UserPatch, actorIsAdmin: bool): User {
    WithTenure(WithAccess(WithContact(u, p), p), p, actorIsAdmin)
  }

  function WithContact(u: User, p: UserPatch): User {
    u.(name := if p.name != [] then p.name else u.name,
       email := if p.email != [] then p.email else u.email,
       phone := if p.phone != [] then p.phone else u.phone)
  }

  function WithAccess(u: User, p: UserPatch): User {
    u.(role := p.role.GetOr(u.role),
       accessCode := if p.accessCode != [] then p.accessCode else u.accessCode,
       doors := p.doors.GetOr(u.doors))
  }

  function WithTenure(u: User, p: UserPatch, actorIsAdmin: bool): User {
    u.(accessPeriods := p.accessPeriods.GetOr(u.accessPeriods),
       expirationDate := p.expirationDate.GetOr(u.expirationDate),
       isActive := if p.isActive.Some? && actorIsAdmin then p.isActive.value else u.isActive)
  }

  /** The update handler as a value. */
  function UpdateEffect(users: seq<User>, actor: User, id: Id, p: UserPatch, hash: Hasher, salt: Salt): Outcome<UpdateReply> {
    match FindUser(users, id)
    case None => Outcome(users, UpdateRejected(404, "User not found"))
    case Some(i) =>
      var u := users[i];
      if !CanModifyUser(actor, u) then
        Outcome(users, UpdateRejected(403, "Not authorized to modify this user"))
      else if p.role.Some? && p.role.value != u.role && !CanChangeUserRole(actor.role, u.role, p.role.value) then
        Outcome(users, UpdateRejected(403, "You cannot change this user's role"))
      else
        var doc := Patched(u, p, actor.role == Administrator);
        if doc.email != u.email && EmailTakenByOther(users, i, doc.email) then
          Outcome(users, UpdateRejected(500, "Server error"))
        else
          var codeModified := doc.accessCode != u.accessCode;
          var stored := if codeModified then doc.(accessCode := hash(doc.accessCode, salt)) else doc;
          Outcome(users[i := stored], Updated(stored))
  }

  /** The handler's field-by-field assignments to the loaded document: name, email, phone. */
  method AssignContactFields(u: User, p: UserPatch) returns (doc: User)
    ensures doc == WithContact(u, p)
  {
    doc := u;
    if p.name != [] { doc := doc.(name := p.name); }
    if p.email != [] { doc := doc.(email := p.email); }
    if p.phone != [] { doc := doc.(phone := p.phone); }
  }

  /** ... then role, access code and door list. */
  method AssignAccessFields(u: User, p: UserPatch) returns (doc: User)
    ensures doc == WithAccess(u, p)
  {
    doc := u;
    if p.role.Some? { doc := doc.(role := p.role.value); }
    if p.accessCode != [] { doc := doc.(accessCode := p.accessCode); }
    if p.doors.Some? { doc := doc.(doors := p.doors.value); }
  }

  /** ... then access periods, expiration date and, for an administrator only, `isActive`. */
  method AssignTenureFields(u: User, p: UserPatch, actorIsAdmin: bool) returns (doc: User)
    ensures doc == WithTenure(u, p, actorIsAdmin)
  {
    doc := u;
    if p.accessPeriods.Some? { doc := doc.(accessPeriods := p.accessPeriods.value); }
    if p.expirationDate.Some? { doc := doc.(expirationDate := p.expirationDate.value); }
    if p.isActive.Some? && actorIsAdmin { doc := doc.(isActive := p.isActive.value); }
  }

  method UpdateUser(st: Store, actor: User, id: Id, p: UserPatch, hash: Hasher, salt: Salt) returns (reply: UpdateReply)
    modifies st
    ensures Outcome(st.users, reply) == UpdateEffect(old(st.users), actor, id, p, hash, salt)
    ensures st.doors == old(st.doors) && st.logs == old(st.logs)
  {
    var found := FindUser(st.users, id);
    if found.None? {
      return UpdateRejected(404, "User not found");
    }
    var i := found.value;
    var u := st.users[i];
    if !CanModifyUser(actor, u) {
      return UpdateRejected(403, "Not authorized to modify this user");
    }
    if p.role.Some? && p.role.value != u.role && !CanChangeUserRole(actor.role, u.role, p.role.value) {
      return UpdateRejected(403, "You cannot change this user's role");
    }
    var doc := AssignContactFields(u, p);
    doc := AssignAccessFields(doc, p);
    doc := AssignTenureFields(doc, p, actor.role == Administrator);
    if doc.email != u.email && EmailTakenByOther(st.users, i, doc.email) {
      return UpdateRejected(500, "Server error");
    }
    var stored := PreSave(doc, doc.accessCode != u.accessCode, hash, salt);
    st.users := st.users[i := stored];
    reply := Updated(stored);
  }

  /**
   * An update touches only the target record and only the supplied fields;
   * `isActive` moves only for an administrator, and the code is re-hashed only
   * when a different one was supplied.
   */
  lemma UpdateChangesOnlySuppliedFields(users: seq<User>, actor: User, id: Id, p: UserPatch, hash: Hasher, salt: Salt)
    requires UpdateEffect(users, actor, id, p, hash, salt).reply.Updated?
    ensures FindUser(users, id).Some?
    ensures var o := UpdateEffect(users, actor, id, p, hash, salt);
      var i := FindUser(users, id).value;
      var before, after := users[i], o.users[i];
      && |o.users| == |users|
      && (forall j :: 0 <= j < |users| && j != i ==> o.users[j] == users[j])
      && after.id == before.id && after.createdBy == before.createdBy
      && after.faceData == before.faceData && after.lastVerification == before.lastVerification
      && (p.name == [] ==> after.name == before.name)
      && (p.name != [] ==> after.name == p.name)
      && (p.email == [] ==> after.email == before.email)
      && (p.email != [] ==> after.email == p.email)
      && (p.phone == [] ==> after.phone == before.phone)
      && (p.phone != [] ==> after.phone == p.phone)
      && (p.role.None? ==> after.role == before.role)
      && (p.role.Some? ==> after.role == p.role.value)
      && (p.doors.None? ==> after.doors == before.doors)
      && (p.doors.Some? ==> after.doors == p.doors.value)
      && (p.accessPeriods.None? ==> after.accessPeriods == before.accessPeriods)
      && (p.accessPeriods.Some? ==> after.accessPeriods == p.accessPeriods.value)
      && (p.expirationDate.None? ==> after.expirationDate == before.expirationDate)
      && (p.expirationDate.Some? ==> after.expirationDate == p.expirationDate.value)
      && (actor.role != Administrator || p.isActive.None? ==> after.isActive == before.isActive)
      && (actor.role == Administrator && p.isActive.Some? ==> after.isActive == p.isActive.value)
      && (p.accessCode == [] || p.accessCode == before.accessCode ==> after.accessCode == before.accessCode)
      && (p.accessCode != [] && p.accessCode != before.accessCode ==> after.accessCode == hash(p.accessCode, salt))
      && o.reply.user == after
  {
  }

  /**
   * The update guards in order: an unknown id is a 404, then a user the actor
   * may not modify a 403, before the role gate is consulted; a refused update
   * leaves every stored user as it was.
   */
  lemma UpdateGuards(users: seq<User>, actor: User, id: Id, p: UserPatch, hash: Hasher, salt: Salt)
    ensures var o := UpdateEffect(users, actor, id, p, hash, salt);
      && (o.reply == UpdateRejected(404, "User not found") <==> FindUser(users, id).None?)
      && (o.reply == UpdateRejected(403, "Not authorized to modify this user") <==>
            FindUser(users, id).Some? && !CanModifyUser(actor, users[FindUser(users, id).value]))
      && (o.reply.UpdateRejected? ==> o.users == users)
      && (o.reply.Updated? ==> FindUser(users, id).Some? && CanModifyUser(actor, users[FindUser(users, id).value]))
  {
  }

  /** The role gate fires only on an actual change: a non-administrator may resubmit the current role. */
  lemma RoleGateOnlyOnChange(users: seq<User>, actor: User, id: Id, p: UserPatch, hash: Hasher, salt: Salt)
    requires FindUser(users, id).Some?
    requires CanModifyUser(actor, users[FindUser(users, id).value])
    ensures var o := UpdateEffect(users, actor, id, p, hash, salt);
      var u := users[FindUser(users, id).value];
      o.reply == UpdateRejected(403, "You cannot change this user's role") <==>
        p.role.Some? && p.role.value != u.role && actor.role != Administrator
  {
  }

  /** Nobody but an administrator ever changes a role through this handler. */
  lemma OnlyAdministratorsChangeRoles(users: seq<User>, actor: User, id: Id, p: UserPatch, hash: Hasher, salt: Salt)
    requires actor.role != Administrator
    ensures var o := UpdateEffect(users, actor, id, p, hash, salt);
      |o.users| == |users| && forall j :: 0 <= j < |users| ==> o.users[j].role == users[j].role
  {
  }
}
