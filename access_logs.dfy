/**
 * The log endpoints of the access routes: `GET /logs`, which builds a
 * role-scoped query, sorts newest first and pages the result, and
 * `GET /logs/:id/image`, which releases an event's image to an administrator
 * or to a host holding the event's door. Both sit behind
 * `authorize(['administrator', 'host'])`.
 */
module AccessLogs {
  import opened Model
  import opened UserModel
  import opened Store
  import opened Auth

  const LogRoles: seq<Role> := [Administrator, Host]

  // ---------------------------------------------------------------------------
  // The query

  /** The `doorId` condition of a query: none, one door, or `$in` a list. */
  datatype DoorFilter = AnyDoor | DoorIs(doorId: Id) | DoorIn(doorIds: seq<Id>)

  /** The query object the handler assembles. */
  datatype LogQuery = LogQuery(
    door: DoorFilter, userId: Option<Id>, eventType: Option<EventType>, from: Option<Time>, until: Option<Time>)

  /** The query-string filters; None stands for an absent or empty parameter. */
  datatype LogFilter = LogFilter(
    doorId: Option<Id>, userId: Option<Id>, eventType: Option<EventType>, startDate: Option<Time>, endDate: Option<Time>)

  /** `user.doors.map(door => door.doorId)`. */
  function GrantedDoorIds(doors: seq<DoorGrant>): (ids: seq<Id>)
    ensures |ids| == |doors|
    ensures forall j :: 0 <= j < |doors| ==> ids[j] == doors[j].doorId
  {
    seq(|doors|, j requires 0 <= j < |doors| => doors[j].doorId)
  }

  lemma GrantedDoorIdsMembership(u: User, doorId: Id)
    ensures doorId in GrantedDoorIds(u.doors) <==> HasAccessToDoor(u, doorId)
  {
    var ids := GrantedDoorIds(u.doors);
    if doorId in ids {
      var j :| 0 <= j < |ids| && ids[j] == doorId;
      assert u.doors[j].doorId == doorId;
    }
  }

  /**
   * The query the handler builds: an explicit door is taken as given; without
   * one a non-administrator is held to the doors of its stored record (None
   * when that record has gone, where `user.doors` throws).
   */
  function LogQueryFor(users: seq<User>, actor: User, f: LogFilter): Option<LogQuery> {
    var door :=
      if f.doorId.Some? then Some(DoorIs(f.doorId.value))
      else if actor.role == Administrator then Some(AnyDoor)
      else match FindUser(users, actor.id)
        case None => None
        case Some(i) => Some(DoorIn(GrantedDoorIds(users[i].doors)));
    match door
    case None => None
    case Some(d) => Some(LogQuery(d, f.userId, f.eventType, f.startDate, f.endDate))
  }

  /** The handler's successive assignments to `query`. */
  method BuildLogQuery(users: seq<User>, actor: User, f: LogFilter) returns (q: Option<LogQuery>)
    ensures q == LogQueryFor(users, actor, f)
    ensures q.Some? ==> q.value.userId == f.userId && q.value.eventType == f.eventType
    ensures q.Some? ==> q.value.from == f.startDate && q.value.until == f.endDate
    ensures q.Some? && f.doorId.Some? ==> q.value.door == DoorIs(f.doorId.value)
  {
    var query := LogQuery(AnyDoor, None, None, None, None);
    if f.doorId.Some? {
      query := query.(door := DoorIs(f.doorId.value));
    } else if actor.role != Administrator {
      var found := FindUser(users, actor.id);
      if found.None? {
        return None;
      }
      query := query.(door := DoorIn(GrantedDoorIds(users[found.value].doors)));
    }
    if f.userId.Some? {
      query := query.(userId := f.userId);
    }
    if f.eventType.Some? {
      query := query.(eventType := f.eventType);
    }
    if f.startDate.Some? || f.endDate.Some? {
      if f.startDate.Some? {
        query := query.(from := f.startDate);
      }
      if f.endDate.Some? {
        query := query.(until := f.endDate);
      }
    }
    q := Some(query);
  }

  /** Does an event satisfy every condition of the query? */
  predicate Matches(e: AccessEvent, q: LogQuery) {
    && (match q.door
        case AnyDoor => true
        case DoorIs(d) => e.doorId == d
        case DoorIn(ds) => e.doorId in ds)
    && (q.userId.Some? ==> e.userId == q.userId)
    && (q.eventType.Some? ==> e.eventType == q.eventType.value)
    && (q.from.Some? ==> e.createdAt >= q.from.value)
    && (q.until.Some? ==> e.createdAt <= q.until.value)
  }

  /** The matching entries in insertion (oldest-first) order, each as often as it occurs. */
  function Filtered(logs: seq<AccessEvent>, q: LogQuery): (r: seq<AccessEvent>)
    ensures forall e :: e in r <==> e in logs && Matches(e, q)
    ensures |r| <= |logs|
  {
    if |logs| == 0 then []
    else
      var last := logs[|logs| - 1];
      assert forall e :: e in logs <==> e == last || e in logs[..|logs| - 1] by {
        assert logs == logs[..|logs| - 1] + [last];
      }
      Filtered(logs[..|logs| - 1], q) + (if Matches(last, q) then [last] else [])
  }

  /** Filtering distributes over concatenation, so the filter keeps order and multiplicity. */
  lemma {:induction false} FilteredAppend(a: seq<AccessEvent>, b: seq<AccessEvent>, q: LogQuery)
    ensures Filtered(a + b, q) == Filtered(a, q) + Filtered(b, q)
    decreases |b|
  {
    if |b| == 0 {
      assert a + b == a;
    } else {
      var last := b[|b| - 1];
      assert (a + b)[..|a + b| - 1] == a + b[..|b| - 1];
      FilteredAppend(a, b[..|b| - 1], q);
    }
  }

  /** `AccessLog.find(query).sort('-createdAt')`: the matching events, newest (last appended) first. */
  function NewestFirst(logs: seq<AccessEvent>, q: LogQuery): (r: seq<AccessEvent>)
    ensures forall e :: e in r <==> e in logs && Matches(e, q)
    ensures |r| <= |logs|
    ensures |logs| > 0 && Matches(logs[|logs| - 1], q) ==> |r| > 0 && r[0] == logs[|logs| - 1]
    ensures |r| == |Filtered(logs, q)|
    ensures forall i :: 0 <= i < |r| ==> r[i] == Filtered(logs, q)[|r| - 1 - i]
  {
    if |logs| == 0 then []
    else
      var last := logs[|logs| - 1];
      var rest := NewestFirst(logs[..|logs| - 1], q);
      assert forall e :: e in logs <==> e == last || e in logs[..|logs| - 1] by {
        assert logs == logs[..|logs| - 1] + [last];
      }
      var before := Filtered(logs[..|logs| - 1], q);
      if Matches(last, q) then
        assert Filtered(logs, q) == before + [last];
        PrependReverses(last, rest, before);
        [last] + rest
      else
        assert Filtered(logs, q) == before;
        rest
  }

  /** Putting `x` in front of the reversal of `f` gives the reversal of `f + [x]`. */
  lemma PrependReverses(x: AccessEvent, rest: seq<AccessEvent>, f: seq<AccessEvent>)
    requires |rest| == |f|
    requires forall i :: 0 <= i < |rest| ==> rest[i] == f[|rest| - 1 - i]
    ensures |[x] + rest| == |f + [x]|
    ensures forall i :: 0 <= i < |[x] + rest| ==> ([x] + rest)[i] == (f + [x])[|rest| - i]
  {
    forall i | 0 <= i < |[x] + rest|
      ensures ([x] + rest)[i] == (f + [x])[|rest| - i]
    {
      if i > 0 {
        assert ([x] + rest)[i] == rest[i - 1];
      }
    }
  }

  // ---------------------------------------------------------------------------
  // Paging

  /** `Math.ceil(total / limit)` for a positive limit. */
  function CeilDiv(total: nat, limit: nat): (pages: nat)
    requires limit > 0
    ensures pages * limit >= total
    ensures total > 0 ==> (pages - 1) * limit < total
    ensures total == 0 ==> pages == 0
  {
    if total == 0 then 0
    else 1 + CeilDiv(if total <= limit then 0 else total - limit, limit)
  }

  /** `.skip(skip).limit(limit)`, a limit of 0 meaning no limit. */
  function Page<T>(xs: seq<T>, skip: nat, limit: nat): (r: seq<T>)
    ensures limit > 0 ==> |r| <= limit
    ensures skip <= |xs| && (limit == 0 || skip + limit >= |xs|) ==> r == xs[skip..]
    ensures forall j :: 0 <= j < |r| ==> skip + j < |xs| && r[j] == xs[skip + j]
  {
    var lo := if skip <= |xs| then skip else |xs|;
    var hi := if limit == 0 || lo + limit > |xs| then |xs| else lo + limit;
    xs[lo..hi]
  }

  datatype LogsReply =
    | LogsRejected(status: int, message: string)
    | LogPage(count: nat, totalPages: Option<nat>, currentPage: int, data: seq<AccessEvent>)

  /**
   * The `/logs` handler behind its role gate: the query, then the page at
   * `skip = (page - 1) * limit` (a negative skip makes the database refuse the
   * query, a 500) with the total page count (undefined for a limit of 0).
   */
  function GetLogs(users: seq<User>, logs: seq<AccessEvent>, actor: User, f: LogFilter, limit: nat, page: int): LogsReply {
    if Authorize(Some(actor), LogRoles) != Pass then LogsRejected(403, "Access denied")
    else match LogQueryFor(users, actor, f)
      case None => LogsRejected(500, "Server error")
      case Some(q) =>
        var skip := (page - 1) * limit;
        if skip < 0 then LogsRejected(500, "Server error")
        else
          var all := NewestFirst(logs, q);
          var data := Page(all, skip, limit);
          LogPage(|data|, if limit == 0 then None else Some(CeilDiv(|all|, limit)), page, data)
  }

  /** Residents and guests are refused; administrators and hosts get a page unless a lookup fails or the page is before the first. */
  lemma LogsRoleGate(users: seq<User>, logs: seq<AccessEvent>, actor: User, f: LogFilter, limit: nat, page: int)
    ensures var r := GetLogs(users, logs, actor, f, limit, page);
      && (r == LogsRejected(403, "Access denied") <==> actor.role == Resident || actor.role == Guest)
      && (actor.role == Administrator && (page >= 1 || limit == 0) ==> r.LogPage?)
  {
  }

  /** An explicit door filter is taken as given: a host sees exactly what an administrator sees, held door or not. */
  lemma ExplicitDoorIsNotScoped(users: seq<User>, logs: seq<AccessEvent>, host: User, admin: User,
                                f: LogFilter, limit: nat, page: int)
    requires host.role == Host && admin.role == Administrator
    requires f.doorId.Some?
    ensures GetLogs(users, logs, host, f, limit, page) == GetLogs(users, logs, admin, f, limit, page)
    ensures var r := GetLogs(users, logs, host, f, limit, page);
      r.LogPage? ==> forall j :: 0 <= j < |r.data| ==> r.data[j].doorId == f.doorId.value
  {
    var r := GetLogs(users, logs, host, f, limit, page);
    if r.LogPage? {
      var q := LogQueryFor(users, host, f).value;
      var all := NewestFirst(logs, q);
      forall j | 0 <= j < |r.data| ensures r.data[j].doorId == f.doorId.value {
        assert r.data[j] in all;
      }
    }
  }

  /** Without a door filter a host sees only events of doors its stored record holds. */
  lemma HostScopedToHeldDoors(users: seq<User>, logs: seq<AccessEvent>, host: User, f: LogFilter, limit: nat, page: int)
    requires host.role == Host && f.doorId.None?
    ensures var r := GetLogs(users, logs, host, f, limit, page);
      r.LogPage? ==>
        && FindUser(users, host.id).Some?
        && forall j :: 0 <= j < |r.data| ==> HasAccessToDoor(users[FindUser(users, host.id).value], r.data[j].doorId)
  {
    var r := GetLogs(users, logs, host, f, limit, page);
    if r.LogPage? {
      var holder := users[FindUser(users, host.id).value];
      var q := LogQueryFor(users, host, f).value;
      var all := NewestFirst(logs, q);
      forall j | 0 <= j < |r.data| ensures HasAccessToDoor(holder, r.data[j].doorId) {
        assert r.data[j] in all;
        GrantedDoorIdsMembership(holder, r.data[j].doorId);
      }
    }
  }

  /**
   * Paging: a page holds at most `limit` events, the page count covers the
   * total without an empty last page, and the `k`-th newest match is item
   * `k % limit` of page `k / limit + 1`.
   */
  lemma PagingIsExact(users: seq<User>, logs: seq<AccessEvent>, actor: User, f: LogFilter, limit: nat, k: nat)
    requires limit > 0
    requires LogQueryFor(users, actor, f).Some? && Authorize(Some(actor), LogRoles) == Pass
    requires k < |NewestFirst(logs, LogQueryFor(users, actor, f).value)|
    ensures var all := NewestFirst(logs, LogQueryFor(users, actor, f).value);
      var r := GetLogs(users, logs, actor, f, limit, k / limit + 1);
      && r.LogPage? && |r.data| <= limit && r.count == |r.data|
      && r.totalPages == Some(CeilDiv(|all|, limit))
      && r.totalPages.value * limit >= |all| && (r.totalPages.value - 1) * limit < |all|
      && k % limit < |r.data| && r.data[k % limit] == all[k]
  {
    var all := NewestFirst(logs, LogQueryFor(users, actor, f).value);
    var page := k / limit + 1;
    var skip := QuotientTimesDivisor(k, limit);
    assert (page - 1) * limit == skip;
    var data := Page(all, skip, limit);
    PageHolds(all, skip, limit, k);
    assert GetLogs(users, logs, actor, f, limit, page)
        == LogPage(|data|, Some(CeilDiv(|all|, limit)), page, data);
  }

  /** `k` lies in the block of `limit` items that starts at `(k / limit) * limit`, at offset `k % limit`. */
  lemma QuotientTimesDivisor(k: nat, limit: nat) returns (skip: nat)
    requires limit > 0
    ensures skip == (k / limit) * limit
    ensures skip <= k < skip + limit && k - skip == k % limit
  {
    skip := (k / limit) * limit;
  }

  /** The item at position `k` of the whole result is on the page starting at `skip`, at offset `k - skip`. */
  lemma PageHolds<T>(xs: seq<T>, skip: nat, limit: nat, k: nat)
    requires limit > 0 && skip <= k < skip + limit && k < |xs|
    ensures k - skip < |Page(xs, skip, limit)| && Page(xs, skip, limit)[k - skip] == xs[k]
  {
  }

  // ---------------------------------------------------------------------------
  // GET /logs/:id/image

  datatype ImageReply = ImageRejected(status: int, message: string) | ImageFile(path: string)

  /** An event's image, if it has one (an empty path counts as none). */
  predicate HasImage(e: AccessEvent) {
    e.imagePath.Some? && e.imagePath.value != []
  }

  /** The image handler behind its role gate; log ids are positions in the log. */
  function LogImage(users: seq<User>, logs: seq<AccessEvent>, actor: User, logId: nat): ImageReply {
    if Authorize(Some(actor), LogRoles) != Pass then ImageRejected(403, "Access denied")
    else if logId >= |logs| then ImageRejected(404, "Log not found")
    else
      var e := logs[logId];
      if !HasImage(e) then ImageRejected(404, "No image available for this log")
      else if actor.role == Administrator then ImageFile(e.imagePath.value)
      else match FindUser(users, actor.id)
        case None => ImageRejected(500, "Server error")
        case Some(i) =>
          if e.doorId !in GrantedDoorIds(users[i].doors) then ImageRejected(403, "Not authorized to view this log")
          else ImageFile(e.imagePath.value)
  }

  /**
   * An image is released exactly to an administrator, or to a host whose stored
   * record holds the event's door; it is always the event's own image.
   */
  lemma ImageReleaseIsDoorGate(users: seq<User>, logs: seq<AccessEvent>, actor: User, logId: nat)
    ensures var r := LogImage(users, logs, actor, logId);
      && (r.ImageFile? ==> logId < |logs| && HasImage(logs[logId]) && r.path == logs[logId].imagePath.value)
      && (r.ImageFile? <==>
            && logId < |logs| && HasImage(logs[logId])
            && (actor.role == Administrator
                || (actor.role == Host && FindUser(users, actor.id).Some?
                    && HasAccessToDoor(users[FindUser(users, actor.id).value], logs[logId].doorId))))
  {
    if logId < |logs| && actor.role == Host && FindUser(users, actor.id).Some? {
      var holder := users[FindUser(users, actor.id).value];
      GrantedDoorIdsMembership(holder, logs[logId].doorId);
    }
  }
}
