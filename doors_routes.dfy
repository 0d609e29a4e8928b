/**
 * The door routes: the role-filtered door listing, door deletion with its
 * pull of the door from every user's grant list, and the two grant-list
 * operations — grant (`POST /:id/access/:userId`) and revoke
 * (`DELETE /:id/access/:userId`). The invariant these keep is that a user
 * holds at most one grant per door.
 */
module DoorRoutes {
  import opened Model
  import opened UserModel
  import opened Store
  import opened Auth
  import opened UserRoutes

  // ---------------------------------------------------------------------------
  // GET / (listing)

  /** MongoDB's ascending string order on door names: lexicographic by character. */
  predicate NameLe(a: string, b: string)
    decreases |a|
  {
    |a| == 0 || (|b| > 0 && (a[0] < b[0] || (a[0] == b[0] && NameLe(a[1..], b[1..]))))
  }

  lemma {:induction false} NameLeTotal(a: string, b: string)
    ensures NameLe(a, b) || NameLe(b, a)
    decreases |a|
  {
    if |a| > 0 && |b| > 0 && a[0] == b[0] {
      NameLeTotal(a[1..], b[1..]);
    }
  }

  lemma {:induction false} NameLeTransitive(a: string, b: string, c: string)
    requires NameLe(a, b) && NameLe(b, c)
    ensures NameLe(a, c)
    decreases |a|
  {
    if |a| > 0 && a[0] == b[0] && b[0] == c[0] {
      NameLeTransitive(a[1..], b[1..], c[1..]);
    }
  }

  predicate SortedByName(ds: seq<Door>) {
    forall i, j :: 0 <= i < j < |ds| ==> NameLe(ds[i].name, ds[j].name)
  }

  lemma SortedCons(h: Door, t: seq<Door>)
    requires SortedByName(t)
    requires forall x :: x in t ==> NameLe(h.name, x.name)
    ensures SortedByName([h] + t)
  {
    var r := [h] + t;
    forall i, j | 0 <= i < j < |r| ensures NameLe(r[i].name, r[j].name) {
      if i == 0 {
        assert r[j] == t[j - 1];
      } else {
        assert r[i] == t[i - 1] && r[j] == t[j - 1];
      }
    }
  }

  /** A name not above the head of a sorted list is not above any of it. */
  lemma BelowHeadBelowAll(d: Door, ds: seq<Door>)
    requires SortedByName(ds) && |ds| > 0 && NameLe(d.name, ds[0].name)
    ensures forall x :: x in ds ==> NameLe(d.name, x.name)
  {
    forall x | x in ds ensures NameLe(d.name, x.name) {
      var k :| 0 <= k < |ds| && ds[k] == x;
      if k > 0 { NameLeTransitive(d.name, ds[0].name, x.name); }
    }
  }

  /** The head of a sorted list is not above anything its tail becomes once `d` (above the head) is inserted. */
  lemma HeadBelowInsertion(d: Door, ds: seq<Door>, rest: seq<Door>)
    requires SortedByName(ds) && |ds| > 0 && !NameLe(d.name, ds[0].name)
    requires multiset(rest) == multiset(ds[1..]) + multiset{d}
    ensures forall x :: x in rest ==> NameLe(ds[0].name, x.name)
  {
    NameLeTotal(d.name, ds[0].name);
    forall x | x in rest ensures NameLe(ds[0].name, x.name) {
      assert x in multiset(rest);
      if x != d {
        assert x in multiset(ds[1..]);
        var k :| 0 <= k < |ds[1..]| && ds[1..][k] == x;
        assert ds[k + 1] == x;
      }
    }
  }

  /** One insertion step of the sort: `d` placed before the first name it does not exceed. */
  function InsertByName(d: Door, ds: seq<Door>): (r: seq<Door>)
    requires SortedByName(ds)
    ensures SortedByName(r)
    ensures multiset(r) == multiset(ds) + multiset{d}
  {
    if |ds| == 0 then [d]
    else if NameLe(d.name, ds[0].name) then
      BelowHeadBelowAll(d, ds);
      SortedCons(d, ds);
      [d] + ds
    else
      var rest := InsertByName(d, ds[1..]);
      HeadBelowInsertion(d, ds, rest);
      SortedCons(ds[0], rest);
      assert ds == [ds[0]] + ds[1..];
      [ds[0]] + rest
  }

  /** `.sort('name')`: the documents in ascending name order, none lost or added. */
  function SortByName(ds: seq<Door>): (r: seq<Door>)
    ensures SortedByName(r)
    ensures multiset(r) == multiset(ds)
  {
    if |ds| == 0 then []
    else
      assert ds == [ds[0]] + ds[1..];
      InsertByName(ds[0], SortByName(ds[1..]))
  }

  /** `Door.find({ _id: { $in: doorIds }, isActive: true })` for the holder's grant list. */
  function VisibleDoors(doors: seq<Door>, holder: User): (r: seq<Door>)
    ensures forall d :: d in r <==> d in doors && d.isActive && HasAccessToDoor(holder, d.id)
    ensures |r| <= |doors|
  {
    if |doors| == 0 then []
    else
      var rest := VisibleDoors(doors[1..], holder);
      assert forall d :: d in doors <==> d == doors[0] || d in doors[1..];
      if doors[0].isActive && HasAccessToDoor(holder, doors[0].id) then [doors[0]] + rest else rest
  }

  datatype ListReply = DoorList(doors: seq<Door>) | ListError(status: int)

  /**
   * The listing handler: every door for an administrator; otherwise the active
   * doors the actor's stored record holds (a record that has vanished makes
   * `user.doors` throw, a 500).
   */
  function ListDoors(users: seq<User>, doors: seq<Door>, actor: User): ListReply {
    if actor.role == Administrator then DoorList(SortByName(doors))
    else match FindUser(users, actor.id)
      case None => ListError(500)
      case Some(i) => DoorList(SortByName(VisibleDoors(doors, users[i])))
  }

  /** What a listing holds: all doors, or exactly the active held ones, each once and sorted by name. */
  lemma ListDoorsContents(users: seq<User>, doors: seq<Door>, actor: User)
    ensures var r := ListDoors(users, doors, actor);
      && (r.ListError? <==> actor.role != Administrator && FindUser(users, actor.id).None?)
      && (r.DoorList? ==> SortedByName(r.doors))
      && (actor.role == Administrator ==> multiset(r.doors) == multiset(doors))
      && (actor.role != Administrator && r.DoorList? ==>
            var holder := users[FindUser(users, actor.id).value];
            && multiset(r.doors) == multiset(VisibleDoors(doors, holder))
            && forall d :: d in r.doors <==> d in doors && d.isActive && HasAccessToDoor(holder, d.id))
  {
    var r := ListDoors(users, doors, actor);
    if actor.role != Administrator && r.DoorList? {
      var holder := users[FindUser(users, actor.id).value];
      var v := VisibleDoors(doors, holder);
      forall d ensures d in r.doors <==> d in v {
        assert d in r.doors <==> d in multiset(r.doors);
        assert d in v <==> d in multiset(v);
      }
    }
  }

  // ---------------------------------------------------------------------------
  // DELETE /:id

  /** Putting back a head whose door none of the kept tail entries names keeps the list unique. */
  lemma PullConsUnique(doors: seq<DoorGrant>, rest: seq<DoorGrant>)
    requires |doors| > 0
    requires UniqueGrants(doors[1..]) ==> UniqueGrants(rest)
    requires forall g :: g in rest ==> g in doors[1..]
    ensures UniqueGrants(doors) ==> UniqueGrants([doors[0]] + rest)
  {
    if UniqueGrants(doors) {
      assert UniqueGrants(doors[1..]);
      var r := [doors[0]] + rest;
      forall i, j | 0 <= i < j < |r| ensures r[i].doorId != r[j].doorId {
        assert r[j] == rest[j - 1] && rest[j - 1] in rest;
        var k :| 0 <= k < |doors[1..]| && doors[1..][k] == r[j];
        assert doors[k + 1] == r[j];
        if i > 0 { assert r[i] == rest[i - 1]; }
      }
    }
  }

  /** A list with no entry for the door has a tail with none either. */
  lemma NoEntryInTail(doors: seq<DoorGrant>, doorId: Id)
    requires |doors| > 0
    ensures (forall j :: 0 <= j < |doors| ==> doors[j].doorId != doorId) ==>
            forall j :: 0 <= j < |doors[1..]| ==> doors[1..][j].doorId != doorId
  {
    forall j | 0 <= j < |doors[1..]| ensures doors[1..][j] == doors[j + 1] {
    }
  }

  /** `$pull: { doors: { doorId } }` on one grant list: every entry for the door goes, the rest stay in order. */
  function PullGrant(doors: seq<DoorGrant>, doorId: Id): (r: seq<DoorGrant>)
    ensures forall g :: g in r <==> g in doors && g.doorId != doorId
    ensures (forall j :: 0 <= j < |doors| ==> doors[j].doorId != doorId) ==> r == doors
    ensures UniqueGrants(doors) ==> UniqueGrants(r)
  {
    if |doors| == 0 then []
    else
      var rest := PullGrant(doors[1..], doorId);
      assert doors == [doors[0]] + doors[1..];
      NoEntryInTail(doors, doorId);
      if doors[0].doorId == doorId then rest
      else
        PullConsUnique(doors, rest);
        [doors[0]] + rest
  }

  /** The user collection after the `updateMany` pull. */
  function PullFromAll(users: seq<User>, doorId: Id): (r: seq<User>)
    ensures |r| == |users|
    ensures forall j :: 0 <= j < |users| ==> r[j] == users[j].(doors := PullGrant(users[j].doors, doorId))
  {
    seq(|users|, j requires 0 <= j < |users| => users[j].(doors := PullGrant(users[j].doors, doorId)))
  }

  datatype DeleteReply = DeleteRejected(status: int, message: string) | DoorDeleted

  /** The delete handler as a value (behind the administrator-only gate). */
  function DeleteDoorEffect(w: World, doorId: Id): Effect<DeleteReply> {
    match FindDoor(w.doors, doorId)
    case None => Effect(w, DeleteRejected(404, "Door not found"))
    case Some(k) => Effect(World(PullFromAll(w.users, doorId), RemoveAt(w.doors, k), w.logs), DoorDeleted)
  }

  method DeleteDoor(st: Store, doorId: Id) returns (reply: DeleteReply)
    modifies st
    ensures Effect(st.Snapshot(), reply) == DeleteDoorEffect(old(st.Snapshot()), doorId)
  {
    var found := FindDoor(st.doors, doorId);
    if found.None? {
      return DeleteRejected(404, "Door not found");
    }
    st.doors := RemoveAt(st.doors, found.value);
    ghost var before := st.users;
    var j := 0;
    while j < |st.users|
      invariant |st.users| == |before| && 0 <= j <= |before|
      invariant forall m :: 0 <= m < j ==> st.users[m] == before[m].(doors := PullGrant(before[m].doors, doorId))
      invariant forall m :: j <= m < |before| ==> st.users[m] == before[m]
      invariant st.doors == RemoveAt(old(st.doors), found.value) && st.logs == old(st.logs)
    {
      var u := st.users[j];
      if HasAccessToDoor(u, doorId) {
        st.users := st.users[j := u.(doors := PullGrant(u.doors, doorId))];
      }
      j := j + 1;
    }
    reply := DoorDeleted;
  }

  /** After a delete nobody holds the door any more; grants for other doors survive untouched. */
  lemma DeleteRevokesEveryGrant(w: World, doorId: Id)
    requires DeleteDoorEffect(w, doorId).reply.DoorDeleted?
    ensures var w' := DeleteDoorEffect(w, doorId).world;
      && |w'.users| == |w.users| && |w'.doors| == |w.doors| - 1 && w'.logs == w.logs
      && forall j :: 0 <= j < |w.users| ==>
           && !HasAccessToDoor(w'.users[j], doorId)
           && (forall g :: g in w'.users[j].doors <==> g in w.users[j].doors && g.doorId != doorId)
           && w'.users[j].(doors := w.users[j].doors) == w.users[j]
  {
    var w' := DeleteDoorEffect(w, doorId).world;
    forall j | 0 <= j < |w.users| ensures !HasAccessToDoor(w'.users[j], doorId) {
      var ds := w'.users[j].doors;
      forall k | 0 <= k < |ds| ensures ds[k].doorId != doorId {
        assert ds[k] in ds;
      }
    }
  }

  /** ... so every non-administrator is turned away at the door gate for the deleted door. */
  lemma DeletedDoorFailsDoorGate(w: World, doorId: Id, j: nat)
    requires DeleteDoorEffect(w, doorId).reply.DoorDeleted?
    requires j < |w.users| && w.users[j].role != Administrator
    ensures CheckDoorAccess(Some(DeleteDoorEffect(w, doorId).world.users[j]), doorId) == Reject(403)
  {
    DeleteRevokesEveryGrant(w, doorId);
  }

  /** Deleting preserves the at-most-one-grant-per-door invariant of every user. */
  lemma DeleteKeepsGrantsUnique(w: World, doorId: Id)
    requires forall j :: 0 <= j < |w.users| ==> UniqueGrants(w.users[j].doors)
    ensures var w' := DeleteDoorEffect(w, doorId).world;
      forall j :: 0 <= j < |w'.users| ==> UniqueGrants(w'.users[j].doors)
  {
  }

  // ---------------------------------------------------------------------------
  // POST /:id/access/:userId (grant)

  /** `User.findOne({ _id: actorId, 'doors.doorId': doorId })` finds a record. */
  predicate HoldsGrant(users: seq<User>, actorId: Id, doorId: Id) {
    exists j :: 0 <= j < |users| && users[j].id == actorId && HasAccessToDoor(users[j], doorId)
  }

  /**
   * Who may grant a door to whom: an administrator always; anyone else only
   * while holding the door, a host to residents and guests, a resident to
   * guests, a guest never.
   */
  predicate CanGrantDoorAccess(actorRole: Role, holdsDoor: bool, granteeRole: Role) {
    || actorRole == Administrator
    || (holdsDoor && actorRole == Host && (granteeRole == Resident || granteeRole == Guest))
    || (holdsDoor && actorRole == Resident && granteeRole == Guest)
  }

  /** Below administrator, granting follows the same hierarchy as account creation. */
  lemma GrantRuleFollowsCreateRule(actorRole: Role, granteeRole: Role)
    requires actorRole != Administrator
    ensures CanGrantDoorAccess(actorRole, true, granteeRole) <==> CanCreateRole(actorRole, granteeRole)
    ensures !CanGrantDoorAccess(actorRole, false, granteeRole)
  {
  }

  datatype GrantReply = GrantRejected(status: int, message: string) | GrantOk

  /** The role checks of the grant handler, in source order, once door and grantee are found. */
  function GrantGate(users: seq<User>, actor: User, doorId: Id, grantee: User): Option<string> {
    if actor.role == Administrator then None
    else if !HoldsGrant(users, actor.id, doorId) then Some("You do not have access to this door")
    else if actor.role == Host && !(grantee.role == Resident || grantee.role == Guest) then
      Some("Hosts can only grant access to residents and guests")
    else if actor.role == Resident && grantee.role != Guest then Some("Residents can only grant access to guests")
    else if actor.role == Guest then Some("Guests cannot grant door access")
    else None
  }

  /** The grant handler as a value. */
  function GrantEffect(users: seq<User>, doors: seq<Door>, actor: User, doorId: Id, userId: Id, now: Time): Outcome<GrantReply> {
    if FindDoor(doors, doorId).None? then Outcome(users, GrantRejected(404, "Door not found"))
    else match FindUser(users, userId)
      case None => Outcome(users, GrantRejected(404, "User not found"))
      case Some(i) =>
        var u := users[i];
        match GrantGate(users, actor, doorId, u)
        case Some(message) => Outcome(users, GrantRejected(403, message))
        case None =>
          if HasAccessToDoor(u, doorId) then Outcome(users, GrantRejected(400, "User already has access to this door"))
          else Outcome(users[i := u.(doors := u.doors + [DoorGrant(doorId, now)])], GrantOk)
  }

  method GrantDoorAccess(st: Store, actor: User, doorId: Id, userId: Id, now: Time) returns (reply: GrantReply)
    modifies st
    ensures Outcome(st.users, reply) == GrantEffect(old(st.users), st.doors, actor, doorId, userId, now)
    ensures st.doors == old(st.doors) && st.logs == old(st.logs)
  {
    var door := FindDoor(st.doors, doorId);
    if door.None? {
      return GrantRejected(404, "Door not found");
    }
    var found := FindUser(st.users, userId);
    if found.None? {
      return GrantRejected(404, "User not found");
    }
    var i := found.value;
    var u := st.users[i];
    if actor.role != Administrator {
      if !HoldsGrant(st.users, actor.id, doorId) {
        return GrantRejected(403, "You do not have access to this door");
      }
      if actor.role == Host && !(u.role == Resident || u.role == Guest) {
        return GrantRejected(403, "Hosts can only grant access to residents and guests");
      }
      if actor.role == Resident && u.role != Guest {
        return GrantRejected(403, "Residents can only grant access to guests");
      }
      if actor.role == Guest {
        return GrantRejected(403, "Guests cannot grant door access");
      }
    }
    if HasAccessToDoor(u, doorId) {
      return GrantRejected(400, "User already has access to this door");
    }
    u := u.(doors := u.doors + [DoorGrant(doorId, now)]);
    st.users := st.users[i := u];
    reply := GrantOk;
  }

  /** The handler's 403 is exactly the declarative grant rule failing. */
  lemma GrantAuthorizationIsRule(users: seq<User>, doors: seq<Door>, actor: User, doorId: Id, userId: Id, now: Time)
    requires FindDoor(doors, doorId).Some? && FindUser(users, userId).Some?
    ensures var grantee := users[FindUser(users, userId).value];
      GrantEffect(users, doors, actor, doorId, userId, now).reply.GrantRejected?
      && GrantEffect(users, doors, actor, doorId, userId, now).reply.status == 403
      <==> !CanGrantDoorAccess(actor.role, HoldsGrant(users, actor.id, doorId), grantee.role)
  {
  }

  /** A grant appends exactly one entry for the door to the grantee and changes nothing else. */
  lemma GrantAppendsOneEntry(users: seq<User>, doors: seq<Door>, actor: User, doorId: Id, userId: Id, now: Time)
    requires GrantEffect(users, doors, actor, doorId, userId, now).reply == GrantOk
    ensures FindUser(users, userId).Some?
    ensures var o := GrantEffect(users, doors, actor, doorId, userId, now);
      var i := FindUser(users, userId).value;
      && !HasAccessToDoor(users[i], doorId)
      && |o.users| == |users|
      && (forall j :: 0 <= j < |users| && j != i ==> o.users[j] == users[j])
      && o.users[i].doors == users[i].doors + [DoorGrant(doorId, now)]
      && o.users[i].(doors := users[i].doors) == users[i]
      && HasAccessToDoor(o.users[i], doorId)
  {
    var i := FindUser(users, userId).value;
    var o := GrantEffect(users, doors, actor, doorId, userId, now);
    assert o.users[i].doors[|users[i].doors|].doorId == doorId;
  }

  /** Re-granting a held door, once the permission gates pass, is answered 400 and leaves every grant list as it was. */
  lemma DuplicateGrantRejected(users: seq<User>, doors: seq<Door>, actor: User, doorId: Id, userId: Id, now: Time)
    requires FindDoor(doors, doorId).Some? && FindUser(users, userId).Some?
    requires GrantGate(users, actor, doorId, users[FindUser(users, userId).value]).None?
    requires HasAccessToDoor(users[FindUser(users, userId).value], doorId)
    ensures GrantEffect(users, doors, actor, doorId, userId, now)
            == Outcome(users, GrantRejected(400, "User already has access to this door"))
  {
  }

  /** Granting keeps at most one grant per door in every user's list. */
  lemma GrantKeepsGrantsUnique(users: seq<User>, doors: seq<Door>, actor: User, doorId: Id, userId: Id, now: Time)
    requires forall j :: 0 <= j < |users| ==> UniqueGrants(users[j].doors)
    ensures var o := GrantEffect(users, doors, actor, doorId, userId, now);
      forall j :: 0 <= j < |o.users| ==> UniqueGrants(o.users[j].doors)
  {
    var o := GrantEffect(users, doors, actor, doorId, userId, now);
    if o.reply == GrantOk {
      GrantAppendsOneEntry(users, doors, actor, doorId, userId, now);
      var i := FindUser(users, userId).value;
      var ds := o.users[i].doors;
      forall a, b | 0 <= a < b < |ds| ensures ds[a].doorId != ds[b].doorId {
        if b == |users[i].doors| {
          assert ds[a] == users[i].doors[a];
        }
      }
    }
  }

  // ---------------------------------------------------------------------------
  // DELETE /:id/access/:userId (revoke)

  datatype RevokeReply = RevokeRejected(status: int, message: string) | RevokeOk

  /**
   * The revoke authority: an administrator, or the grantee's creator. For a
   * non-administrator and a grantee without `createdBy` the comparison throws
   * (a 500), so that case is None.
   */
  function RevokeAllowed(actor: User, grantee: User): Option<bool> {
    if actor.role == Administrator then Some(true)
    else if grantee.createdBy.None? then None
    else Some(actor.id == grantee.createdBy.value)
  }

  /** The revoke handler as a value. */
  function RevokeEffect(users: seq<User>, doors: seq<Door>, actor: User, doorId: Id, userId: Id): Outcome<RevokeReply> {
    if FindDoor(doors, doorId).None? then Outcome(users, RevokeRejected(404, "Door not found"))
    else match FindUser(users, userId)
      case None => Outcome(users, RevokeRejected(404, "User not found"))
      case Some(i) =>
        var u := users[i];
        match RevokeAllowed(actor, u)
        case None => Outcome(users, RevokeRejected(500, "Server error"))
        case Some(false) => Outcome(users, RevokeRejected(403, "Not authorized to revoke access"))
        case Some(true) =>
          match GrantIndex(u.doors, doorId)
          case None => Outcome(users, RevokeRejected(400, "User does not have access to this door"))
          case Some(k) => Outcome(users[i := u.(doors := RemoveAt(u.doors, k))], RevokeOk)
  }

  method RevokeDoorAccess(st: Store, actor: User, doorId: Id, userId: Id) returns (reply: RevokeReply)
    modifies st
    ensures Outcome(st.users, reply) == RevokeEffect(old(st.users), st.doors, actor, doorId, userId)
    ensures st.doors == old(st.doors) && st.logs == old(st.logs)
  {
    var door := FindDoor(st.doors, doorId);
    if door.None? {
      return RevokeRejected(404, "Door not found");
    }
    var found := FindUser(st.users, userId);
    if found.None? {
      return RevokeRejected(404, "User not found");
    }
    var i := found.value;
    var u := st.users[i];
    if actor.role != Administrator {
      if u.createdBy.None? {
        return RevokeRejected(500, "Server error");
      }
      if actor.id != u.createdBy.value {
        return RevokeRejected(403, "Not authorized to revoke access");
      }
    }
    var k := GrantIndex(u.doors, doorId);
    if k.None? {
      return RevokeRejected(400, "User does not have access to this door");
    }
    u := u.(doors := RemoveAt(u.doors, k.value));
    st.users := st.users[i := u];
    reply := RevokeOk;
  }

  /** Only an administrator or the grantee's creator gets past the revoke authority check. */
  lemma RevokeAuthority(users: seq<User>, doors: seq<Door>, actor: User, doorId: Id, userId: Id)
    requires FindDoor(doors, doorId).Some? && FindUser(users, userId).Some?
    ensures var grantee := users[FindUser(users, userId).value];
      var r := RevokeEffect(users, doors, actor, doorId, userId).reply;
      && (r.RevokeRejected? && r.status == 403 <==>
            actor.role != Administrator && grantee.createdBy.Some? && grantee.createdBy.value != actor.id)
      && (r == RevokeOk ==> actor.role == Administrator || grantee.createdBy == Some(actor.id))
  {
  }

  /** A revoke removes exactly the first entry for the door, keeping the rest in order. */
  lemma RevokeRemovesOneEntry(users: seq<User>, doors: seq<Door>, actor: User, doorId: Id, userId: Id)
    requires RevokeEffect(users, doors, actor, doorId, userId).reply == RevokeOk
    ensures FindUser(users, userId).Some?
    ensures var o := RevokeEffect(users, doors, actor, doorId, userId);
      var i := FindUser(users, userId).value;
      && GrantIndex(users[i].doors, doorId).Some?
      && var k := GrantIndex(users[i].doors, doorId).value;
      && |o.users| == |users|
      && (forall j :: 0 <= j < |users| && j != i ==> o.users[j] == users[j])
      && o.users[i].doors == users[i].doors[..k] + users[i].doors[k + 1..]
      && o.users[i].(doors := users[i].doors) == users[i]
      && (UniqueGrants(users[i].doors) ==> !HasAccessToDoor(o.users[i], doorId))
      && (UniqueGrants(users[i].doors) ==> UniqueGrants(o.users[i].doors))
  {
    var o := RevokeEffect(users, doors, actor, doorId, userId);
    var i := FindUser(users, userId).value;
    var ds := users[i].doors;
    var k := GrantIndex(ds, doorId).value;
    var r := o.users[i].doors;
    if UniqueGrants(ds) {
      forall m | 0 <= m < |r| ensures r[m].doorId != doorId {
        if m < k { assert r[m] == ds[m]; } else { assert r[m] == ds[m + 1]; }
      }
    }
    if UniqueGrants(ds) {
      forall a, b | 0 <= a < b < |r| ensures r[a].doorId != r[b].doorId {
        var a' := if a < k then a else a + 1;
        var b' := if b < k then b else b + 1;
        assert r[a] == ds[a'] && r[b] == ds[b'];
      }
    }
  }

  /** Ids are all the lookup reads: rewriting one grant list leaves `findById` where it was. */
  lemma FindUserIgnoresGrantLists(users: seq<User>, i: nat, ds: seq<DoorGrant>, id: Id)
    requires i < |users|
    ensures FindUser(users[i := users[i].(doors := ds)], id) == FindUser(users, id)
  {
    var users' := users[i := users[i].(doors := ds)];
    IndexWhereAgrees(users, users', (u: User) => u.id == id, (u: User) => u.id == id);
  }

  /** Grant then revoke (by an administrator or the grantee's creator) restores the user collection. */
  lemma GrantThenRevoke(users: seq<User>, doors: seq<Door>, actor: User, revoker: User, doorId: Id, userId: Id, now: Time)
    requires GrantEffect(users, doors, actor, doorId, userId, now).reply == GrantOk
    requires RevokeAllowed(revoker, users[FindUser(users, userId).value]) == Some(true)
    ensures var o := GrantEffect(users, doors, actor, doorId, userId, now);
      RevokeEffect(o.users, doors, revoker, doorId, userId) == Outcome(users, RevokeOk)
  {
    GrantAppendsOneEntry(users, doors, actor, doorId, userId, now);
    var o := GrantEffect(users, doors, actor, doorId, userId, now);
    var i := FindUser(users, userId).value;
    var ds := users[i].doors;
    var grown := ds + [DoorGrant(doorId, now)];
    FindUserIgnoresGrantLists(users, i, grown, userId);
    HasAccessIffGrantIndex(users[i], doorId);
    assert GrantIndex(grown, doorId) == Some(|ds|) by {
      assert forall j :: 0 <= j < |ds| ==> grown[j] == ds[j];
    }
    assert RemoveAt(grown, |ds|) == ds;
    assert o.users[i := o.users[i].(doors := ds)] == users;
  }

  /** Revoking twice: with at most one grant per door, the second revoke finds nothing and answers 400. */
  lemma RevokeTwiceRejected(users: seq<User>, doors: seq<Door>, actor: User, doorId: Id, userId: Id)
    requires RevokeEffect(users, doors, actor, doorId, userId).reply == RevokeOk
    requires UniqueGrants(users[FindUser(users, userId).value].doors)
    ensures var o := RevokeEffect(users, doors, actor, doorId, userId);
      RevokeEffect(o.users, doors, actor, doorId, userId)
      == Outcome(o.users, RevokeRejected(400, "User does not have access to this door"))
  {
    RevokeRemovesOneEntry(users, doors, actor, doorId, userId);
    var o := RevokeEffect(users, doors, actor, doorId, userId);
    var i := FindUser(users, userId).value;
    FindUserIgnoresGrantLists(users, i, o.users[i].doors, userId);
    assert o.users == users[i := users[i].(doors := o.users[i].doors)];
    HasAccessIffGrantIndex(o.users[i], doorId);
  }
}
