/**
 * The records of the door-access system: principals (users), doors and the
 * append-only access log, as the MongoDB schemas declare them, with the
 * closed enumerations of roles, event types and verification methods.
 */
module Model {

  datatype Option<+T> = None | Some(value: T) {
    function GetOr(default: T): T {
      match this
      case Some(v) => v
      case None => default
    }
  }

  /** Document identifiers (MongoDB ObjectIds). */
  type Id = nat

  /** Instants, in milliseconds since the epoch (JavaScript `Date`). */
  type Time = int

  /** Face data as stored and submitted: an opaque descriptor. */
  type Descriptor = seq<int>

  /** Salt handed to the one-way hash when an access code is stored. */
  type Salt = nat

  /** `bcrypt.compare(plain, stored)`: does a presented code match a stored hash? */
  type Verifier = (string, string) -> bool

  /** `bcrypt.hash(plain, salt)`. */
  type Hasher = (string, Salt) -> string

  datatype Role = Administrator | Host | Resident | Guest

  /** One entry of a user's `doors` list. */
  datatype DoorGrant = DoorGrant(doorId: Id, addedAt: Time)

  /** One entry of a user's `accessPeriods` list (stored, never enforced). */
  datatype Period = Period(start: Time, end: Time)

  datatype User = User(
    id: Id,
    name: string,
    email: string,
    phone: string,
    role: Role,
    createdBy: Option<Id>,
    accessCode: string,              // the stored (hashed) access code
    faceData: Option<Descriptor>,    // null by default
    doors: seq<DoorGrant>,
    accessPeriods: seq<Period>,
    expirationDate: Option<Time>,    // null: never expires
    lastVerification: Option<Time>,  // null: never verified
    isActive: bool)

  datatype Door = Door(
    id: Id,
    name: string,
    location: string,
    tasmotaIp: string,
    tasmotaApiKey: string,
    doubleVerificationDays: int,     // 0 (the default) disables step-up
    isActive: bool,
    createdBy: Option<Id>)

  datatype EventType = Approach | AccessAttempt | AccessGranted | AccessDenied | DoubleVerification

  datatype VerificationMethod = Code | Face | Double | NoMethod

  /** The only metadata any handler writes is `{ reason: "expired" }`. */
  const ExpiredReason: string := "expired"

  datatype AccessEvent = AccessEvent(
    doorId: Id,
    userId: Option<Id>,              // null when nobody was identified
    eventType: EventType,
    verificationMethod: VerificationMethod,
    success: bool,
    imagePath: Option<string>,
    reason: Option<string>,          // metadata.reason
    createdAt: Time)

  /**
   * The index of the first element satisfying `p`, as `Array.prototype.findIndex`
   * and MongoDB's `findOne`/`findById` pick it (None stands for -1 / null).
   */
  function IndexWhere<T>(s: seq<T>, p: T -> bool): (r: Option<nat>)
    ensures r.Some? ==> r.value < |s| && p(s[r.value])
    ensures r.Some? ==> forall j :: 0 <= j < r.value ==> !p(s[j])
    ensures r.None? <==> forall j :: 0 <= j < |s| ==> !p(s[j])
  {
    if |s| == 0 then None
    else if p(s[0]) then Some(0)
    else match IndexWhere(s[1..], p)
      case None => None
      case Some(k) => Some(k + 1)
  }

  /** Two sequences that agree pointwise on their predicates have the same first match. */
  lemma {:induction false} IndexWhereAgrees<T, U>(s: seq<T>, t: seq<U>, p: T -> bool, q: U -> bool)
    requires |s| == |t|
    requires forall j :: 0 <= j < |s| ==> p(s[j]) == q(t[j])
    ensures IndexWhere(s, p) == IndexWhere(t, q)
  {
    if |s| > 0 {
      IndexWhereAgrees(s[1..], t[1..], p, q);
    }
  }

  /** `Array.prototype.splice(i, 1)` as a value: the sequence without its `i`-th element. */
  function RemoveAt<T>(s: seq<T>, i: nat): (r: seq<T>)
    requires i < |s|
    ensures |r| == |s| - 1
    ensures forall j :: 0 <= j < i ==> r[j] == s[j]
    ensures forall j :: i <= j < |r| ==> r[j] == s[j + 1]
  {
    s[..i] + s[i + 1..]
  }
}
