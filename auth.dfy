/**
 * The authentication and authorization middleware: the Bearer-header check
 * that loads the requesting user, the role gate and the door-membership gate.
 * Token verification (JWT) is the parameter `decode`, which yields the user id
 * a token carries, or None when the token does not verify.
 */
module Auth {
  import opened Model
  import opened UserModel
  import opened Store

  /** A middleware outcome: call `next()`, or answer with a status code. */
  datatype Gate = Pass | Reject(status: int)

  const BearerPrefix: string := "Bearer "

  predicate HasBearerPrefix(header: string) {
    |header| >= |BearerPrefix| && header[..|BearerPrefix|] == BearerPrefix
  }

  /** `String.prototype.split(sep)` for a one-character separator. */
  function Split(s: string, sep: char): (fields: seq<string>)
    ensures |fields| >= 1
    ensures forall i :: 0 <= i < |fields| ==> sep !in fields[i]
  {
    if |s| == 0 then [""]
    else
      var rest := Split(s[1..], sep);
      if s[0] == sep then [""] + rest
      else [[s[0]] + rest[0]] + rest[1..]
  }

  /** `Array.prototype.join(sep)`, the inverse of Split. */
  function Join(fields: seq<string>, sep: char): string
    requires |fields| >= 1
  {
    if |fields| == 1 then fields[0] else fields[0] + [sep] + Join(fields[1..], sep)
  }

  /** Splitting loses nothing: joining the fields back gives the original string. */
  lemma {:induction false} JoinSplit(s: string, sep: char)
    ensures Join(Split(s, sep), sep) == s
  {
    if |s| > 0 {
      var rest := Split(s[1..], sep);
      JoinSplit(s[1..], sep);
      if s[0] == sep {
        calc {
          Join(Split(s, sep), sep);
          Join([""] + rest, sep);
          { assert ([""] + rest)[1..] == rest; }
          "" + [sep] + Join(rest, sep);
          [s[0]] + s[1..];
        }
      } else if |rest| == 1 {
        assert Split(s, sep) == [[s[0]] + rest[0]];
      } else {
        var fs := Split(s, sep);
        assert fs == [[s[0]] + rest[0]] + rest[1..];
        assert fs[1..] == rest[1..];
        calc {
          Join(fs, sep);
          [s[0]] + rest[0] + [sep] + Join(rest[1..], sep);
          [s[0]] + Join(rest, sep);
          s;
        }
      }
    }
  }

  /** A field followed by the separator splits off as the first field. */
  lemma {:induction false} SplitAfterField(w: string, rest: string, sep: char)
    requires sep !in w
    ensures Split(w + [sep] + rest, sep) == [w] + Split(rest, sep)
  {
    var s := w + [sep] + rest;
    if |w| == 0 {
      assert s[1..] == rest;
    } else {
      assert s[1..] == w[1..] + [sep] + rest;
      SplitAfterField(w[1..], rest, sep);
      assert [w[0]] + w[1..] == w;
    }
  }

  /** A string without the separator is a single field. */
  lemma {:induction false} SplitWithoutSeparator(w: string, sep: char)
    requires sep !in w
    ensures Split(w, sep) == [w]
  {
    if |w| > 0 {
      SplitWithoutSeparator(w[1..], sep);
      assert [w[0]] + w[1..] == w;
    }
  }

  /** `authHeader.split(' ')[1]`: the second space-separated field of a Bearer header. */
  function BearerToken(header: string): string
    requires HasBearerPrefix(header)
  {
    var tail := header[|BearerPrefix|..];
    assert header == "Bearer" + [' '] + tail;
    SplitAfterField("Bearer", tail, ' ');
    Split(header, ' ')[1]
  }

  /** The token is everything after `Bearer ` up to the next space, in particular all of it when it has no space. */
  lemma BearerTokenIsSecondField(t: string)
    ensures HasBearerPrefix(BearerPrefix + t)
    ensures BearerToken(BearerPrefix + t) == Split(t, ' ')[0]
    ensures ' ' !in t ==> BearerToken(BearerPrefix + t) == t
  {
    var h := BearerPrefix + t;
    assert h[..|BearerPrefix|] == BearerPrefix;
    assert h[|BearerPrefix|..] == t;
    assert h == "Bearer" + [' '] + t;
    SplitAfterField("Bearer", t, ' ');
    if ' ' !in t {
      SplitWithoutSeparator(t, ' ');
    }
  }

  /** The user `authenticate` attaches to the request, or None when it answers 401. */
  function AuthenticatedUser(header: Option<string>, users: seq<User>, decode: string -> Option<Id>): (r: Option<User>)
    ensures r.Some? ==> header.Some? && HasBearerPrefix(header.value)
    ensures r.Some? ==> r.value.isActive && r.value in users
    ensures r.Some? ==> decode(BearerToken(header.value)) == Some(r.value.id)
    ensures r.Some? ==> FindUser(users, r.value.id).Some? && users[FindUser(users, r.value.id).value] == r.value
    ensures header.Some? && HasBearerPrefix(header.value) && decode(BearerToken(header.value)).Some? ==>
      var id := decode(BearerToken(header.value)).value;
      FindUser(users, id).Some? && users[FindUser(users, id).value].isActive ==> r == Some(users[FindUser(users, id).value])
  {
    if header.None? || !HasBearerPrefix(header.value) then None
    else match decode(BearerToken(header.value))
      case None => None
      case Some(id) =>
        match FindUser(users, id)
        case None => None
        case Some(i) => if users[i].isActive then Some(users[i]) else None
  }

  /** The Express request, as far as the middleware writes it. */
  class Request {
    var user: Option<User>

    constructor ()
      ensures user == None
    {
      user := None;
    }
  }

  /** `authenticate`: check the header, verify the token, load the user and attach it to the request. */
  method Authenticate(req: Request, header: Option<string>, users: seq<User>, decode: string -> Option<Id>)
    returns (g: Gate)
    modifies req
    ensures g == Pass || g == Reject(401)
    ensures g == Pass <==> AuthenticatedUser(header, users, decode).Some?
    ensures g == Pass ==> req.user == AuthenticatedUser(header, users, decode)
    ensures g != Pass ==> req.user == old(req.user)
  {
    if header.None? || !HasBearerPrefix(header.value) {
      return Reject(401);
    }
    var token := BearerToken(header.value);
    var decoded := decode(token);
    if decoded.None? {
      return Reject(401);
    }
    var found := FindUser(users, decoded.value);
    if found.None? || !users[found.value].isActive {
      return Reject(401);
    }
    req.user := Some(users[found.value]);
    g := Pass;
  }

  /** `authorize(roles)`: 401 without a user, 403 when its role is not listed. */
  function Authorize(user: Option<User>, roles: seq<Role>): (g: Gate)
    ensures g == Reject(401) <==> user.None?
    ensures g == Reject(403) <==> user.Some? && user.value.role !in roles
    ensures g == Pass <==> user.Some? && user.value.role in roles
  {
    if user.None? then Reject(401)
    else if user.value.role !in roles then Reject(403)
    else Pass
  }

  /** `checkDoorAccess(doorId)`: administrators pass, others need a grant on the door. */
  function CheckDoorAccess(user: Option<User>, doorId: Id): (g: Gate)
    ensures g == Reject(401) <==> user.None?
    ensures g == Pass <==> user.Some? && (user.value.role == Administrator || HasAccessToDoor(user.value, doorId))
    ensures g == Pass || g == Reject(401) || g == Reject(403)
  {
    if user.None? then Reject(401)
    else if user.value.role == Administrator then Pass
    else if !HasAccessToDoor(user.value, doorId) then Reject(403)
    else Pass
  }

  /** An administrator passes the door gate for every door, holding grants or not. */
  lemma AdministratorBypassesDoorGate(u: User, doorId: Id)
    requires u.role == Administrator
    ensures CheckDoorAccess(Some(u), doorId) == Pass
  {
  }

  /** For everyone else the door gate is exactly the `findIndex` membership test. */
  lemma DoorGateIsMembership(u: User, doorId: Id)
    requires u.role != Administrator
    ensures CheckDoorAccess(Some(u), doorId) == Pass <==> GrantIndex(u.doors, doorId).Some?
  {
    HasAccessIffGrantIndex(u, doorId);
  }
}
