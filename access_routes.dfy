/**
 * The verification engine: the public `/code`, `/face`, `/motion` and
 * `/double-verify` handlers. Each one steps through its guards, appends to the
 * access log, and on the grant path toggles the door's relay and stamps the
 * user's `lastVerification`. A handler's effect is given as a value
 * (`...Effect`) and the imperative handler is proved to produce exactly it.
 */
module AccessRoutes {
  import opened Model
  import opened UserModel
  import opened Store
  import opened Tasmota

  /** What a handler answers. */
  datatype AccessReply =
    | Rejected(status: int, message: string)
    | StepUpRequired(name: string, role: Role, message: string)   // 200 with `doubleVerificationRequired`
    | Granted(name: string, role: Role, doorStatus: SwitchResult)
    | MotionLogged

  /** A handler's effect: the collections afterwards, the relay commands sent, the reply. */
  datatype Step = Step(world: World, sent: seq<Command>, reply: AccessReply)

  function Logged(w: World, e: AccessEvent): World {
    World(w.users, w.doors, w.logs + [e])
  }

  /** The door a handler acts on: it exists and is active. */
  function ActiveDoor(doors: seq<Door>, doorId: Id): (r: Option<nat>)
    ensures r.Some? ==> r.value < |doors| && doors[r.value].id == doorId && doors[r.value].isActive
    ensures r.None? <==> FindDoor(doors, doorId).None? || !doors[FindDoor(doors, doorId).value].isActive
  {
    match FindDoor(doors, doorId)
    case None => None
    case Some(k) => if doors[k].isActive then Some(k) else None
  }

  /** The saved image path: present exactly when the request carried a (non-empty) image. */
  function SavedImage(imagePath: string, savedPath: string): Option<string> {
    if imagePath != [] then Some(savedPath) else None
  }

  // ---------------------------------------------------------------------------
  // Matching

  /** `User.find({ 'doors.doorId': doorId, isActive: true })`. */
  predicate CodeCandidate(u: User, doorId: Id) {
    u.isActive && HasAccessToDoor(u, doorId)
  }

  /** ... with `faceData: { $ne: null }` added. */
  predicate FaceCandidate(u: User, doorId: Id) {
    CodeCandidate(u, doorId) && u.faceData.Some?
  }

  predicate CodeMatches(u: User, doorId: Id, accessCode: string, verifies: Verifier) {
    CodeCandidate(u, doorId) && verifies(accessCode, u.accessCode)
  }

  /** The first candidate, in store order, whose stored code verifies against the presented one. */
  function FirstCodeMatch(users: seq<User>, doorId: Id, accessCode: string, verifies: Verifier): (r: Option<nat>)
    ensures r.Some? ==> r.value < |users| && CodeMatches(users[r.value], doorId, accessCode, verifies)
    ensures r.Some? ==> forall j :: 0 <= j < r.value ==> !CodeMatches(users[j], doorId, accessCode, verifies)
    ensures r.None? <==> forall j :: 0 <= j < |users| ==> !CodeMatches(users[j], doorId, accessCode, verifies)
  {
    IndexWhere(users, (u: User) => CodeMatches(u, doorId, accessCode, verifies))
  }

  /** The placeholder face match: the first candidate with stored face data, whatever was presented. */
  function FirstFaceMatch(users: seq<User>, doorId: Id): (r: Option<nat>)
    ensures r.Some? ==> r.value < |users| && FaceCandidate(users[r.value], doorId)
    ensures r.Some? ==> forall j :: 0 <= j < r.value ==> !FaceCandidate(users[j], doorId)
    ensures r.None? <==> forall j :: 0 <= j < |users| ==> !FaceCandidate(users[j], doorId)
  {
    IndexWhere(users, (u: User) => FaceCandidate(u, doorId))
  }

  /** The `for ... of users` loop of `/code`, breaking at the first verified code. */
  method MatchCode(users: seq<User>, doorId: Id, accessCode: string, verifies: Verifier) returns (found: Option<nat>)
    ensures found.Some? ==> found.value < |users| && CodeMatches(users[found.value], doorId, accessCode, verifies)
    ensures found.Some? ==> forall j :: 0 <= j < found.value ==> !CodeMatches(users[j], doorId, accessCode, verifies)
    ensures found.None? ==> forall j :: 0 <= j < |users| ==> !CodeMatches(users[j], doorId, accessCode, verifies)
  {
    found := None;
    var j := 0;
    while j < |users|
      invariant 0 <= j <= |users|
      invariant forall m :: 0 <= m < j ==> !CodeMatches(users[m], doorId, accessCode, verifies)
    {
      var user := users[j];
      if CodeCandidate(user, doorId) {
        var isMatch := verifies(accessCode, user.accessCode);
        if isMatch {
          found := Some(j);
          break;
        }
      }
      j := j + 1;
    }
  }

  /** The loop of `/face`, breaking at the first candidate with face data. */
  method MatchFace(users: seq<User>, doorId: Id) returns (found: Option<nat>)
    ensures found.Some? ==> found.value < |users| && FaceCandidate(users[found.value], doorId)
    ensures found.Some? ==> forall j :: 0 <= j < found.value ==> !FaceCandidate(users[j], doorId)
    ensures found.None? ==> forall j :: 0 <= j < |users| ==> !FaceCandidate(users[j], doorId)
  {
    found := None;
    var j := 0;
    while j < |users|
      invariant 0 <= j <= |users|
      invariant forall m :: 0 <= m < j ==> !FaceCandidate(users[m], doorId)
    {
      var user := users[j];
      if CodeCandidate(user, doorId) && user.faceData.Some? {
        found := Some(j);
        break;
      }
      j := j + 1;
    }
  }

  /** The loop finds exactly the specified first match. */
  lemma MatchCodeIsFirstMatch(users: seq<User>, doorId: Id, accessCode: string, verifies: Verifier, found: Option<nat>)
    requires found.Some? ==> found.value < |users| && CodeMatches(users[found.value], doorId, accessCode, verifies)
    requires found.Some? ==> forall j :: 0 <= j < found.value ==> !CodeMatches(users[j], doorId, accessCode, verifies)
    requires found.None? ==> forall j :: 0 <= j < |users| ==> !CodeMatches(users[j], doorId, accessCode, verifies)
    ensures found == FirstCodeMatch(users, doorId, accessCode, verifies)
  {
    var r := FirstCodeMatch(users, doorId, accessCode, verifies);
    if found.Some? {
      assert r.Some?;
      assert !(r.value < found.value) && !(found.value < r.value);
    }
  }

  lemma MatchFaceIsFirstMatch(users: seq<User>, doorId: Id, found: Option<nat>)
    requires found.Some? ==> found.value < |users| && FaceCandidate(users[found.value], doorId)
    requires found.Some? ==> forall j :: 0 <= j < found.value ==> !FaceCandidate(users[j], doorId)
    requires found.None? ==> forall j :: 0 <= j < |users| ==> !FaceCandidate(users[j], doorId)
    ensures found == FirstFaceMatch(users, doorId)
  {
    var r := FirstFaceMatch(users, doorId);
    if found.Some? {
      assert r.Some?;
      assert !(r.value < found.value) && !(found.value < r.value);
    }
  }

  // ---------------------------------------------------------------------------
  // The primary factor (`/code`, `/face`) after its guards

  function StepUpMessage(how: VerificationMethod): string {
    if how == Face then "Double verification required. Please also provide access code."
    else "Double verification required. Please also provide face recognition."
  }

  /**
   * What a primary handler does once the door is found and a match (or none)
   * is known: log, then on the grant path toggle and stamp the user.
   */
  function PrimaryEffect(w: World, doorId: Id, door: Door, m: Option<nat>, how: VerificationMethod,
                         image: Option<string>, rejectMessage: string, now: Time, answer: RelayAnswer): Step
    requires m.Some? ==> m.value < |w.users|
  {
    match m
    case None =>
      Step(Logged(w, AccessEvent(doorId, None, AccessAttempt, how, false, image, None, now)), [], Rejected(401, rejectMessage))
    case Some(i) =>
      var u := w.users[i];
      if IsAccessExpired(u, now) then
        Step(Logged(w, AccessEvent(doorId, Some(u.id), AccessAttempt, how, false, image, Some(ExpiredReason), now)),
             [], Rejected(401, "Your access has expired"))
      else if ShouldPerformDoubleVerification(u, door.doubleVerificationDays, now) then
        Step(Logged(w, AccessEvent(doorId, Some(u.id), DoubleVerification, how, true, image, None, now)),
             [], StepUpRequired(u.name, u.role, StepUpMessage(how)))
      else
        var logged := Logged(w, AccessEvent(doorId, Some(u.id), AccessGranted, how, true, image, None, now));
        var sent := ToggleCommands(door.tasmotaIp, door.tasmotaApiKey, answer);
        match ToggleResult(answer)
        case None => Step(logged, sent, Rejected(500, "Server error"))
        case Some(sw) =>
          Step(logged.(users := w.users[i := u.(lastVerification := Some(now))]), sent, Granted(u.name, u.role, sw))
  }

  method FinishPrimary(st: Store, relay: Relay, doorId: Id, door: Door, m: Option<nat>, how: VerificationMethod,
                       image: Option<string>, rejectMessage: string, now: Time, answer: RelayAnswer)
    returns (reply: AccessReply)
    requires m.Some? ==> m.value < |st.users|
    modifies st, relay
    ensures var s := PrimaryEffect(old(st.Snapshot()), doorId, door, m, how, image, rejectMessage, now, answer);
      st.Snapshot() == s.world && relay.commands == old(relay.commands) + s.sent && reply == s.reply
  {
    if m.None? {
      st.logs := st.logs + [AccessEvent(doorId, None, AccessAttempt, how, false, image, None, now)];
      return Rejected(401, rejectMessage);
    }
    var i := m.value;
    var user := st.users[i];
    if IsAccessExpired(user, now) {
      st.logs := st.logs + [AccessEvent(doorId, Some(user.id), AccessAttempt, how, false, image, Some(ExpiredReason), now)];
      return Rejected(401, "Your access has expired");
    }
    var requireDoubleVerification := ShouldPerformDoubleVerification(user, door.doubleVerificationDays, now);
    var eventType := if requireDoubleVerification then DoubleVerification else AccessGranted;
    st.logs := st.logs + [AccessEvent(doorId, Some(user.id), eventType, how, true, image, None, now)];
    if requireDoubleVerification {
      return StepUpRequired(user.name, user.role, StepUpMessage(how));
    }
    var switchResult := relay.Toggle(door.tasmotaIp, door.tasmotaApiKey, answer);
    if switchResult.None? {
      return Rejected(500, "Server error");
    }
    user := user.(lastVerification := Some(now));
    st.users := st.users[i := user];
    reply := Granted(user.name, user.role, switchResult.value);
  }

  /**
   * The primary path past its guards appends exactly one event, and each
   * path's event is determined: no match, expired match, step-up, grant. The
   * relay is driven and a user changed only on the grant path, and the grant
   * event is written before the toggle, so it stays when the status read fails.
   */
  lemma PrimaryOutcome(w: World, doorId: Id, door: Door, m: Option<nat>, how: VerificationMethod,
                       image: Option<string>, rejectMessage: string, now: Time, answer: RelayAnswer)
    requires m.Some? ==> m.value < |w.users|
    ensures var s := PrimaryEffect(w, doorId, door, m, how, image, rejectMessage, now, answer);
      && s.world.doors == w.doors
      && |s.world.logs| == |w.logs| + 1 && s.world.logs[..|w.logs|] == w.logs
      && var e := s.world.logs[|w.logs|];
      && e.doorId == doorId && e.verificationMethod == how && e.imagePath == image && e.createdAt == now
      && (e.userId.None? <==> m.None?)
      && (m.Some? ==> e.userId == Some(w.users[m.value].id))
      && (e.reason == Some(ExpiredReason) <==> m.Some? && IsAccessExpired(w.users[m.value], now))
      && (e.reason.None? <==> !(m.Some? && IsAccessExpired(w.users[m.value], now)))
      && (e.eventType == AccessAttempt <==> !e.success)
      && (e.eventType == DoubleVerification <==> s.reply.StepUpRequired?)
      && (e.eventType == AccessGranted <==>
            m.Some? && !IsAccessExpired(w.users[m.value], now)
            && !ShouldPerformDoubleVerification(w.users[m.value], door.doubleVerificationDays, now))
      && (s.sent != [] ==> e.eventType == AccessGranted)
      && (e.eventType == AccessGranted ==> s.sent == ToggleCommands(door.tasmotaIp, door.tasmotaApiKey, answer))
      && (s.reply.Granted? <==> e.eventType == AccessGranted && answer.reading.PowerIs?)
      && (!s.reply.Granted? ==> s.world.users == w.users)
      && (s.reply.Granted? ==>
            s.world.users == w.users[m.value := w.users[m.value].(lastVerification := Some(now))])
  {
  }

  /**
   * A grant whose relay status read throws: the `access_granted` event is
   * already written, the reply is 500, nothing is sent and nobody's last
   * verification is stamped. The client as written always takes this path,
   * since `node-fetch` exports no `get`.
   */
  lemma GrantWithFailedRead(w: World, doorId: Id, door: Door, i: nat, how: VerificationMethod,
                            image: Option<string>, rejectMessage: string, now: Time, answer: RelayAnswer)
    requires i < |w.users|
    requires !IsAccessExpired(w.users[i], now) && !ShouldPerformDoubleVerification(w.users[i], door.doubleVerificationDays, now)
    requires answer.reading.ReadFailed?
    ensures PrimaryEffect(w, doorId, door, Some(i), how, image, rejectMessage, now, answer)
      == Step(w.(logs := w.logs + [AccessEvent(doorId, Some(w.users[i].id), AccessGranted, how, true, image, None, now)]),
              [], Rejected(500, "Server error"))
  {
  }

  /**
   * A grant with a client that reads the relay's state: exactly one command,
   * for the opposite state, is sent; the reply names the user and the new
   * state (or the swallowed set failure); the user's last verification is now.
   */
  lemma GrantWithWorkingRead(w: World, doorId: Id, door: Door, i: nat, how: VerificationMethod,
                             image: Option<string>, rejectMessage: string, now: Time, answer: RelayAnswer)
    requires i < |w.users|
    requires !IsAccessExpired(w.users[i], now) && !ShouldPerformDoubleVerification(w.users[i], door.doubleVerificationDays, now)
    requires answer.reading.PowerIs?
    ensures var s := PrimaryEffect(w, doorId, door, Some(i), how, image, rejectMessage, now, answer);
      var u := w.users[i];
      && s.sent == [Command(door.tasmotaIp, door.tasmotaApiKey, !answer.reading.on)]
      && s.reply == Granted(u.name, u.role, if answer.setOk then Switched(!answer.reading.on) else SwitchError)
      && s.world.users == w.users[i := u.(lastVerification := Some(now))]
      && s.world.logs == w.logs + [AccessEvent(doorId, Some(u.id), AccessGranted, how, true, image, None, now)]
      && s.world.doors == w.doors
  {
  }

  // ---------------------------------------------------------------------------
  // POST /code

  function VerifyCodeEffect(w: World, doorId: Option<Id>, accessCode: string, now: Time,
                            verifies: Verifier, answer: RelayAnswer): Step {
    if doorId.None? || accessCode == [] then
      Step(w, [], Rejected(400, "Door ID and access code are required"))
    else match ActiveDoor(w.doors, doorId.value)
      case None => Step(w, [], Rejected(404, "Door not found or inactive"))
      case Some(k) =>
        PrimaryEffect(w, doorId.value, w.doors[k], FirstCodeMatch(w.users, doorId.value, accessCode, verifies),
                      Code, None, "Invalid access code", now, answer)
  }

  method VerifyCode(st: Store, relay: Relay, doorId: Option<Id>, accessCode: string, now: Time,
                    verifies: Verifier, answer: RelayAnswer) returns (reply: AccessReply)
    modifies st, relay
    ensures var s := VerifyCodeEffect(old(st.Snapshot()), doorId, accessCode, now, verifies, answer);
      st.Snapshot() == s.world && relay.commands == old(relay.commands) + s.sent && reply == s.reply
  {
    if doorId.None? || accessCode == [] {
      return Rejected(400, "Door ID and access code are required");
    }
    var k := ActiveDoor(st.doors, doorId.value);
    if k.None? {
      return Rejected(404, "Door not found or inactive");
    }
    var door := st.doors[k.value];
    var authorizedUser := MatchCode(st.users, doorId.value, accessCode, verifies);
    MatchCodeIsFirstMatch(st.users, doorId.value, accessCode, verifies, authorizedUser);
    reply := FinishPrimary(st, relay, doorId.value, door, authorizedUser, Code, None, "Invalid access code", now, answer);
  }

  /** A missing field is a 400 and a missing or inactive door a 404; neither logs, drives the relay or changes a user. */
  lemma CodeGuardsLogNothing(w: World, doorId: Option<Id>, accessCode: string, now: Time, verifies: Verifier, answer: RelayAnswer)
    ensures var s := VerifyCodeEffect(w, doorId, accessCode, now, verifies, answer);
      && (doorId.None? || accessCode == [] <==> s.reply == Rejected(400, "Door ID and access code are required"))
      && (doorId.Some? && accessCode != [] && ActiveDoor(w.doors, doorId.value).None? <==>
            s.reply == Rejected(404, "Door not found or inactive"))
      && (s.reply.Rejected? && (s.reply.status == 400 || s.reply.status == 404) ==> s.world == w && s.sent == [])
  {
  }

  /**
   * Past the guards a code attempt logs exactly one `code` event: an anonymous
   * failed attempt when no candidate's code verifies, otherwise one naming
   * the first matching candidate; only a grant drives the relay or stamps a user.
   */
  lemma CodeAttemptOutcome(w: World, doorId: Id, accessCode: string, now: Time, verifies: Verifier, answer: RelayAnswer)
    requires accessCode != [] && ActiveDoor(w.doors, doorId).Some?
    ensures var s := VerifyCodeEffect(w, Some(doorId), accessCode, now, verifies, answer);
      var m := FirstCodeMatch(w.users, doorId, accessCode, verifies);
      && s.world.doors == w.doors
      && |s.world.logs| == |w.logs| + 1 && s.world.logs[..|w.logs|] == w.logs
      && var e := s.world.logs[|w.logs|];
      && e.verificationMethod == Code && e.imagePath.None? && e.doorId == doorId
      && (m.None? ==> e == AccessEvent(doorId, None, AccessAttempt, Code, false, None, None, now)
                      && s.reply == Rejected(401, "Invalid access code"))
      && (m.Some? ==> e.userId == Some(w.users[m.value].id) && CodeCandidate(w.users[m.value], doorId))
      && (s.sent != [] || s.world.users != w.users ==> e.eventType == AccessGranted && e.success)
  {
    var m := FirstCodeMatch(w.users, doorId, accessCode, verifies);
    var k := ActiveDoor(w.doors, doorId).value;
    PrimaryOutcome(w, doorId, w.doors[k], m, Code, None, "Invalid access code", now, answer);
  }

  /** An expired match is turned away with an `expired` attempt, whatever its step-up state, before any actuation. */
  lemma CodeExpiredMatch(w: World, doorId: Id, accessCode: string, now: Time, verifies: Verifier, answer: RelayAnswer)
    requires accessCode != [] && ActiveDoor(w.doors, doorId).Some?
    requires var m := FirstCodeMatch(w.users, doorId, accessCode, verifies); m.Some? && IsAccessExpired(w.users[m.value], now)
    ensures var s := VerifyCodeEffect(w, Some(doorId), accessCode, now, verifies, answer);
      var u := w.users[FirstCodeMatch(w.users, doorId, accessCode, verifies).value];
      s == Step(Logged(w, AccessEvent(doorId, Some(u.id), AccessAttempt, Code, false, None, Some(ExpiredReason), now)),
                [], Rejected(401, "Your access has expired"))
  {
  }

  /** A granted code attempt waives step-up for the granted user over the door's whole window. */
  lemma CodeGrantRestartsWindow(w: World, doorId: Id, accessCode: string, now: Time, verifies: Verifier,
                                answer: RelayAnswer, later: Time)
    requires VerifyCodeEffect(w, Some(doorId), accessCode, now, verifies, answer).reply.Granted?
    requires ActiveDoor(w.doors, doorId).Some?
    requires now <= later < now + w.doors[ActiveDoor(w.doors, doorId).value].doubleVerificationDays * MsPerDay
    ensures FirstCodeMatch(w.users, doorId, accessCode, verifies).Some?
    ensures var s := VerifyCodeEffect(w, Some(doorId), accessCode, now, verifies, answer);
      var i := FirstCodeMatch(w.users, doorId, accessCode, verifies).value;
      var days := w.doors[ActiveDoor(w.doors, doorId).value].doubleVerificationDays;
      !ShouldPerformDoubleVerification(s.world.users[i], days, later)
  {
    var s := VerifyCodeEffect(w, Some(doorId), accessCode, now, verifies, answer);
    var i := FirstCodeMatch(w.users, doorId, accessCode, verifies).value;
    var days := w.doors[ActiveDoor(w.doors, doorId).value].doubleVerificationDays;
    NoStepUpWithinWindow(s.world.users[i], days, now, later);
  }

  // ---------------------------------------------------------------------------
  // POST /face

  function VerifyFaceEffect(w: World, doorId: Option<Id>, faceData: Option<Descriptor>, imagePath: string,
                            savedPath: string, now: Time, answer: RelayAnswer): Step {
    if doorId.None? || faceData.None? then
      Step(w, [], Rejected(400, "Door ID and face data are required"))
    else match ActiveDoor(w.doors, doorId.value)
      case None => Step(w, [], Rejected(404, "Door not found or inactive"))
      case Some(k) =>
        PrimaryEffect(w, doorId.value, w.doors[k], FirstFaceMatch(w.users, doorId.value),
                      Face, SavedImage(imagePath, savedPath), "Face not recognized", now, answer)
  }

  method VerifyFace(st: Store, relay: Relay, doorId: Option<Id>, faceData: Option<Descriptor>, imagePath: string,
                    savedPath: string, now: Time, answer: RelayAnswer) returns (reply: AccessReply)
    modifies st, relay
    ensures var s := VerifyFaceEffect(old(st.Snapshot()), doorId, faceData, imagePath, savedPath, now, answer);
      st.Snapshot() == s.world && relay.commands == old(relay.commands) + s.sent && reply == s.reply
  {
    if doorId.None? || faceData.None? {
      return Rejected(400, "Door ID and face data are required");
    }
    var k := ActiveDoor(st.doors, doorId.value);
    if k.None? {
      return Rejected(404, "Door not found or inactive");
    }
    var door := st.doors[k.value];
    var authorizedUser := MatchFace(st.users, doorId.value);
    MatchFaceIsFirstMatch(st.users, doorId.value, authorizedUser);
    var savedImagePath: Option<string> := None;
    if imagePath != [] {
      savedImagePath := Some(savedPath);
    }
    reply := FinishPrimary(st, relay, doorId.value, door, authorizedUser, Face, savedImagePath, "Face not recognized", now, answer);
  }

  /** A missing door id or face descriptor is a 400 and a missing or inactive door a 404; neither logs, drives the relay or changes a user. */
  lemma FaceGuardsLogNothing(w: World, doorId: Option<Id>, faceData: Option<Descriptor>, imagePath: string,
                             savedPath: string, now: Time, answer: RelayAnswer)
    ensures var s := VerifyFaceEffect(w, doorId, faceData, imagePath, savedPath, now, answer);
      && (doorId.None? || faceData.None? <==> s.reply == Rejected(400, "Door ID and face data are required"))
      && (doorId.Some? && faceData.Some? && ActiveDoor(w.doors, doorId.value).None? <==>
            s.reply == Rejected(404, "Door not found or inactive"))
      && (s.reply.Rejected? && (s.reply.status == 400 || s.reply.status == 404) ==> s.world == w && s.sent == [])
  {
  }

  /**
   * Past the guards a face attempt logs exactly one `face` event carrying the
   * saved image exactly when one was sent; with no active granted candidate
   * holding face data it is an anonymous failed attempt.
   */
  lemma FaceAttemptOutcome(w: World, doorId: Id, faceData: Descriptor, imagePath: string, savedPath: string,
                           now: Time, answer: RelayAnswer)
    requires ActiveDoor(w.doors, doorId).Some?
    ensures var s := VerifyFaceEffect(w, Some(doorId), Some(faceData), imagePath, savedPath, now, answer);
      var m := FirstFaceMatch(w.users, doorId);
      && s.world.doors == w.doors
      && |s.world.logs| == |w.logs| + 1 && s.world.logs[..|w.logs|] == w.logs
      && var e := s.world.logs[|w.logs|];
      && e.verificationMethod == Face && e.doorId == doorId
      && (e.imagePath.Some? <==> imagePath != [])
      && (m.None? ==> e.userId.None? && e.eventType == AccessAttempt && !e.success
                      && s.reply == Rejected(401, "Face not recognized") && s.sent == [])
      && (m.Some? ==> e.userId == Some(w.users[m.value].id) && w.users[m.value].faceData.Some?)
      && (s.sent != [] || s.world.users != w.users ==> e.eventType == AccessGranted && e.success)
  {
    var m := FirstFaceMatch(w.users, doorId);
    var k := ActiveDoor(w.doors, doorId).value;
    PrimaryOutcome(w, doorId, w.doors[k], m, Face, SavedImage(imagePath, savedPath), "Face not recognized", now, answer);
  }

  /** The face match is a placeholder: the presented descriptor never influences the outcome. */
  lemma FaceOutcomeIgnoresDescriptor(w: World, doorId: Option<Id>, f1: Descriptor, f2: Descriptor, imagePath: string,
                                     savedPath: string, now: Time, answer: RelayAnswer)
    ensures VerifyFaceEffect(w, doorId, Some(f1), imagePath, savedPath, now, answer)
         == VerifyFaceEffect(w, doorId, Some(f2), imagePath, savedPath, now, answer)
  {
  }

  // ---------------------------------------------------------------------------
  // POST /motion

  function MotionEffect(w: World, doorId: Option<Id>, imagePath: string, savedPath: string, now: Time): Step {
    if doorId.None? then Step(w, [], Rejected(400, "Door ID is required"))
    else if ActiveDoor(w.doors, doorId.value).None? then Step(w, [], Rejected(404, "Door not found or inactive"))
    else Step(Logged(w, AccessEvent(doorId.value, None, Approach, NoMethod, true, SavedImage(imagePath, savedPath), None, now)),
              [], MotionLogged)
  }

  method Motion(st: Store, doorId: Option<Id>, imagePath: string, savedPath: string, now: Time) returns (reply: AccessReply)
    modifies st
    ensures var s := MotionEffect(old(st.Snapshot()), doorId, imagePath, savedPath, now);
      st.Snapshot() == s.world && s.sent == [] && reply == s.reply
  {
    if doorId.None? {
      return Rejected(400, "Door ID is required");
    }
    var k := ActiveDoor(st.doors, doorId.value);
    if k.None? {
      return Rejected(404, "Door not found or inactive");
    }
    var savedImagePath: Option<string> := None;
    if imagePath != [] {
      savedImagePath := Some(savedPath);
    }
    st.logs := st.logs + [AccessEvent(doorId.value, None, Approach, NoMethod, true, savedImagePath, None, now)];
    reply := MotionLogged;
  }

  /** Motion at an active door only ever appends one anonymous, successful `approach` event. */
  lemma MotionOnlyLogs(w: World, doorId: Option<Id>, imagePath: string, savedPath: string, now: Time)
    ensures var s := MotionEffect(w, doorId, imagePath, savedPath, now);
      && s.sent == [] && s.world.users == w.users && s.world.doors == w.doors
      && (s.reply == MotionLogged <==> doorId.Some? && ActiveDoor(w.doors, doorId.value).Some?)
      && (s.reply != MotionLogged ==> s.world.logs == w.logs)
      && (s.reply == MotionLogged ==>
            && s.world.logs[..|w.logs|] == w.logs && |s.world.logs| == |w.logs| + 1
            && var e := s.world.logs[|w.logs|];
            && e.eventType == Approach && e.verificationMethod == NoMethod && e.success
            && e.userId.None? && (e.imagePath.Some? <==> imagePath != []))
  {
  }

  // ---------------------------------------------------------------------------
  // POST /double-verify

  /** The second factor: the code when one is sent, otherwise the stored face data's presence. */
  predicate SecondFactorHolds(u: User, accessCode: string, verifies: Verifier) {
    if accessCode != [] then verifies(accessCode, u.accessCode) else u.faceData.Some?
  }

  function DoubleVerifyEffect(w: World, doorId: Option<Id>, userId: Option<Id>, accessCode: string,
                              faceData: Option<Descriptor>, now: Time, verifies: Verifier, answer: RelayAnswer): Step {
    if doorId.None? || userId.None? || (accessCode == [] && faceData.None?) then
      Step(w, [], Rejected(400, "Door ID, user ID, and either access code or face data are required"))
    else match ActiveDoor(w.doors, doorId.value)
      case None => Step(w, [], Rejected(404, "Door not found or inactive"))
      case Some(k) =>
        match FindUser(w.users, userId.value)
        case None => Step(w, [], Rejected(404, "User not found or inactive"))
        case Some(i) =>
          var u := w.users[i];
          var d := doorId.value;
          if !u.isActive then Step(w, [], Rejected(404, "User not found or inactive"))
          else if !HasAccessToDoor(u, d) then Step(w, [], Rejected(403, "User does not have access to this door"))
          else if IsAccessExpired(u, now) then
            Step(Logged(w, AccessEvent(d, Some(u.id), AccessAttempt, Double, false, None, Some(ExpiredReason), now)),
                 [], Rejected(401, "Your access has expired"))
          else if !SecondFactorHolds(u, accessCode, verifies) then
            Step(Logged(w, AccessEvent(d, Some(u.id), AccessAttempt, Double, false, None, None, now)),
                 [], Rejected(401, "Verification failed"))
          else
            var door := w.doors[k];
            var sent := ToggleCommands(door.tasmotaIp, door.tasmotaApiKey, answer);
            match ToggleResult(answer)
            case None => Step(w, sent, Rejected(500, "Server error"))
            case Some(sw) =>
              var stamped := w.users[i := u.(lastVerification := Some(now))];
              Step(World(stamped, w.doors, w.logs + [AccessEvent(d, Some(u.id), AccessGranted, Double, true, None, None, now)]),
                   sent, Granted(u.name, u.role, sw))
  }

  method DoubleVerify(st: Store, relay: Relay, doorId: Option<Id>, userId: Option<Id>, accessCode: string,
                      faceData: Option<Descriptor>, now: Time, verifies: Verifier, answer: RelayAnswer)
    returns (reply: AccessReply)
    modifies st, relay
    ensures var s := DoubleVerifyEffect(old(st.Snapshot()), doorId, userId, accessCode, faceData, now, verifies, answer);
      st.Snapshot() == s.world && relay.commands == old(relay.commands) + s.sent && reply == s.reply
  {
    if doorId.None? || userId.None? || (accessCode == [] && faceData.None?) {
      return Rejected(400, "Door ID, user ID, and either access code or face data are required");
    }
    var k := ActiveDoor(st.doors, doorId.value);
    if k.None? {
      return Rejected(404, "Door not found or inactive");
    }
    var door := st.doors[k.value];
    var found := FindUser(st.users, userId.value);
    if found.None? || !st.users[found.value].isActive {
      return Rejected(404, "User not found or inactive");
    }
    var i := found.value;
    var user := st.users[i];
    if !HasAccessToDoor(user, doorId.value) {
      return Rejected(403, "User does not have access to this door");
    }
    if IsAccessExpired(user, now) {
      st.logs := st.logs + [AccessEvent(doorId.value, Some(user.id), AccessAttempt, Double, false, None, Some(ExpiredReason), now)];
      return Rejected(401, "Your access has expired");
    }
    var isVerified := false;
    if accessCode != [] {
      isVerified := verifies(accessCode, user.accessCode);
    } else if faceData.Some? {
      isVerified := user.faceData.Some?;
    }
    if !isVerified {
      st.logs := st.logs + [AccessEvent(doorId.value, Some(user.id), AccessAttempt, Double, false, None, None, now)];
      return Rejected(401, "Verification failed");
    }
    var switchResult := relay.Toggle(door.tasmotaIp, door.tasmotaApiKey, answer);
    if switchResult.None? {
      return Rejected(500, "Server error");
    }
    user := user.(lastVerification := Some(now));
    st.users := st.users[i := user];
    st.logs := st.logs + [AccessEvent(doorId.value, Some(user.id), AccessGranted, Double, true, None, None, now)];
    reply := Granted(user.name, user.role, switchResult.value);
  }

  /** An unknown or inactive user (404) and a user without a grant (403) are turned away with no event. */
  lemma DoubleVerifyGuardsLogNothing(w: World, doorId: Id, userId: Id, accessCode: string, faceData: Option<Descriptor>,
                                     now: Time, verifies: Verifier, answer: RelayAnswer)
    requires accessCode != [] || faceData.Some?
    requires ActiveDoor(w.doors, doorId).Some?
    ensures var s := DoubleVerifyEffect(w, Some(doorId), Some(userId), accessCode, faceData, now, verifies, answer);
      var found := FindUser(w.users, userId);
      && (found.None? || !w.users[found.value].isActive ==>
            s == Step(w, [], Rejected(404, "User not found or inactive")))
      && (found.Some? && w.users[found.value].isActive && !HasAccessToDoor(w.users[found.value], doorId) ==>
            s == Step(w, [], Rejected(403, "User does not have access to this door")))
  {
  }

  /**
   * The request guards of `/double-verify`: a missing door id or user id, or
   * neither second factor, is a 400; a missing or inactive door a 404. Both
   * answer before any lookup of the user, with nothing logged, sent or changed.
   */
  lemma DoubleVerifyRequestGuards(w: World, doorId: Option<Id>, userId: Option<Id>, accessCode: string,
                                  faceData: Option<Descriptor>, now: Time, verifies: Verifier, answer: RelayAnswer)
    ensures var s := DoubleVerifyEffect(w, doorId, userId, accessCode, faceData, now, verifies, answer);
      && (doorId.None? || userId.None? || (accessCode == [] && faceData.None?) <==>
            s.reply == Rejected(400, "Door ID, user ID, and either access code or face data are required"))
      && (doorId.None? || userId.None? || (accessCode == [] && faceData.None?) ==>
            s == Step(w, [], Rejected(400, "Door ID, user ID, and either access code or face data are required")))
      && (doorId.Some? && userId.Some? && (accessCode != [] || faceData.Some?) && ActiveDoor(w.doors, doorId.value).None? <==>
            s.reply == Rejected(404, "Door not found or inactive"))
      && (s.reply == Rejected(404, "Door not found or inactive") ==> s == Step(w, [], s.reply))
  {
  }

  /**
   * Once the user is found, active and granted: success drives the relay,
   * stamps the user and then logs `access_granted` by `double`; failure logs
   * one `access_attempt` by `double` and changes nothing else; a failed status
   * read is a 500 with no event at all.
   */
  lemma DoubleVerifyOutcome(w: World, doorId: Id, userId: Id, accessCode: string, faceData: Option<Descriptor>,
                            now: Time, verifies: Verifier, answer: RelayAnswer)
    requires accessCode != [] || faceData.Some?
    requires ActiveDoor(w.doors, doorId).Some? && FindUser(w.users, userId).Some?
    requires var u := w.users[FindUser(w.users, userId).value]; u.isActive && HasAccessToDoor(u, doorId)
    ensures var s := DoubleVerifyEffect(w, Some(doorId), Some(userId), accessCode, faceData, now, verifies, answer);
      var i := FindUser(w.users, userId).value;
      var u := w.users[i];
      var ok := !IsAccessExpired(u, now) && SecondFactorHolds(u, accessCode, verifies);
      && s.world.doors == w.doors
      && (!ok ==> && s.sent == [] && s.world.users == w.users
                  && s.world.logs[..|w.logs|] == w.logs && |s.world.logs| == |w.logs| + 1
                  && var e := s.world.logs[|w.logs|];
                  && e.eventType == AccessAttempt && e.verificationMethod == Double && !e.success
                  && e.userId == Some(u.id)
                  && (e.reason == Some(ExpiredReason) <==> IsAccessExpired(u, now)))
      && (ok && answer.reading.ReadFailed? ==> s == Step(w, [], Rejected(500, "Server error")))
      && (ok && answer.reading.PowerIs? ==>
            && s.reply.Granted? && |s.sent| == 1
            && s.world.users == w.users[i := u.(lastVerification := Some(now))]
            && s.world.logs == w.logs + [AccessEvent(doorId, Some(u.id), AccessGranted, Double, true, None, None, now)])
      && (s.reply.Granted? <==> ok && answer.reading.PowerIs?)
  {
  }

  /** A sent access code decides the second factor alone: the face data sent alongside never matters. */
  lemma DoubleVerifyCodeTakesPrecedence(w: World, doorId: Option<Id>, userId: Option<Id>, accessCode: string,
                                        f1: Option<Descriptor>, f2: Option<Descriptor>,
                                        now: Time, verifies: Verifier, answer: RelayAnswer)
    requires accessCode != []
    ensures DoubleVerifyEffect(w, doorId, userId, accessCode, f1, now, verifies, answer)
         == DoubleVerifyEffect(w, doorId, userId, accessCode, f2, now, verifies, answer)
  {
  }

  /**
   * Without a code the second factor is the placeholder face check: any
   * descriptor opens the door for an active, granted, unexpired user who has
   * face data on record.
   */
  lemma FaceSecondFactorIsPresenceOnly(w: World, doorId: Id, userId: Id, f: Descriptor, now: Time,
                                       verifies: Verifier, answer: RelayAnswer)
    requires ActiveDoor(w.doors, doorId).Some? && FindUser(w.users, userId).Some?
    requires var u := w.users[FindUser(w.users, userId).value];
      u.isActive && HasAccessToDoor(u, doorId) && !IsAccessExpired(u, now) && u.faceData.Some?
    requires answer.reading.PowerIs?
    ensures DoubleVerifyEffect(w, Some(doorId), Some(userId), "", Some(f), now, verifies, answer).reply.Granted?
  {
  }

  /** A successful second factor clears step-up for the user over the door's whole window. */
  lemma DoubleVerifyRestartsWindow(w: World, doorId: Id, userId: Id, accessCode: string, faceData: Option<Descriptor>,
                                   now: Time, verifies: Verifier, answer: RelayAnswer, later: Time)
    requires DoubleVerifyEffect(w, Some(doorId), Some(userId), accessCode, faceData, now, verifies, answer).reply.Granted?
    requires ActiveDoor(w.doors, doorId).Some?
    requires now <= later < now + w.doors[ActiveDoor(w.doors, doorId).value].doubleVerificationDays * MsPerDay
    ensures FindUser(w.users, userId).Some?
    ensures var s := DoubleVerifyEffect(w, Some(doorId), Some(userId), accessCode, faceData, now, verifies, answer);
      var days := w.doors[ActiveDoor(w.doors, doorId).value].doubleVerificationDays;
      !ShouldPerformDoubleVerification(s.world.users[FindUser(w.users, userId).value], days, later)
  {
    var s := DoubleVerifyEffect(w, Some(doorId), Some(userId), accessCode, faceData, now, verifies, answer);
    var days := w.doors[ActiveDoor(w.doors, doorId).value].doubleVerificationDays;
    NoStepUpWithinWindow(s.world.users[FindUser(w.users, userId).value], days, now, later);
  }
}
