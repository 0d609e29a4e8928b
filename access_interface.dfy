/**
 * The kiosk screen's keypad state machine: the typed-code buffer, the submit
 * guards, how the answer of `/code` is shown, and the reset that returns the
 * screen to idle. Component state lives in the fields of one object; each
 * React setter call becomes an assignment to a field.
 */
module AccessInterface {
  import opened Model
  import AccessRoutes

  /** A keypad button: the three command keys, or any other key, appended as typed. */
  datatype Key = Clear | Backspace | Enter | Press(text: string)

  datatype FeedbackKind = NoFeedback | Success | Warning | Failure

  datatype Feedback = Feedback(kind: FeedbackKind, message: string)

  const Quiet: Feedback := Feedback(NoFeedback, "")

  datatype AccessStatus = StatusGranted | StatusDenied

  /** The `user` object of a `/code` answer: its name and role. */
  datatype ShownUser = ShownUser(name: string, role: Role)

  /** One `accessService.verifyCode(door, code)` call. */
  datatype CodeRequest = CodeRequest(doorId: Id, accessCode: string)

  /** How a `/code` call settles on the kiosk: a step-up answer, a grant, or a thrown error (message "" when none). */
  datatype VerifyResponse = StepUp(user: ShownUser) | Welcome(user: ShownUser) | Refused(message: string)

  /** Reset delays, in milliseconds. */
  const GrantedResetDelay: nat := 5000
  const DeniedResetDelay: nat := 3000

  // ---------------------------------------------------------------------------
  // Pure parts

  /** The buffer after an editing key (`enter` leaves it to the submit). */
  function AfterKey(code: string, key: Key): (r: string)
    ensures key.Clear? ==> r == []
    ensures key.Backspace? ==> r == code[..if |code| == 0 then 0 else |code| - 1]
    ensures key.Press? ==> |r| == |code| + |key.text| && r[..|code|] == code && r[|code|..] == key.text
    ensures key.Enter? ==> r == code
  {
    match key
    case Clear => []
    case Backspace => if |code| == 0 then [] else code[..|code| - 1]
    case Enter => code
    case Press(text) => code + text
  }

  /** Backspace undoes a one-character key press. */
  lemma BackspaceUndoesPress(code: string, c: char)
    ensures AfterKey(AfterKey(code, Press([c])), Backspace) == code
  {
    assert AfterKey(code, Press([c]))[..|code|] == code;
  }

  /** Backspace on an empty buffer leaves it empty; clear is idempotent. */
  lemma EmptyBufferStaysEmpty(key: Key)
    requires key.Clear? || key.Backspace?
    ensures AfterKey([], key) == []
    ensures AfterKey(AfterKey([], key), Clear) == AfterKey([], key)
  {
  }

  /** The submit guards: the error shown instead of sending, if any. */
  function SubmitError(selectedDoor: Option<Id>, code: string): (r: Option<string>)
    ensures r.None? <==> selectedDoor.Some? && code != []
    ensures selectedDoor.None? ==> r == Some("Please select a door")
    ensures selectedDoor.Some? && code == [] ==> r == Some("Please enter an access code")
  {
    if selectedDoor.None? then Some("Please select a door")
    else if code == [] then Some("Please enter an access code")
    else None
  }

  /** The feedback line a settled `/code` call shows. */
  function ResponseFeedback(resp: VerifyResponse): (f: Feedback)
    ensures resp.StepUp? <==> f.kind == Warning
    ensures resp.Welcome? <==> f.kind == Success
    ensures resp.Refused? <==> f.kind == Failure
    ensures resp.Refused? && resp.message != [] ==> f.message == resp.message
  {
    match resp
    case StepUp(_) => Feedback(Warning, "Double verification required. Please look at the camera for face recognition.")
    case Welcome(u) => Feedback(Success, "Access granted. Welcome, " + u.name + "!")
    case Refused(message) =>
      Feedback(Failure, if message != [] then message else "Access denied. Invalid code.")
  }

  /** How the server's answer to `/code` reaches the kiosk: any error status is thrown with its message. */
  function ResponseFor(reply: AccessRoutes.AccessReply): (resp: VerifyResponse)
    ensures resp.StepUp? <==> reply.StepUpRequired?
    ensures resp.Welcome? <==> reply.Granted?
    ensures reply.Rejected? ==> resp == Refused(reply.message)
  {
    match reply
    case StepUpRequired(name, role, _) => StepUp(ShownUser(name, role))
    case Granted(name, role, _) => Welcome(ShownUser(name, role))
    case Rejected(_, message) => Refused(message)
    case MotionLogged => Refused([])
  }

  /** Every refusal the code handler sends is shown with the server's own words. */
  lemma KioskShowsServerRefusal(reply: AccessRoutes.AccessReply)
    requires reply.Rejected? && reply.message != []
    ensures ResponseFeedback(ResponseFor(reply)) == Feedback(Failure, reply.message)
  {
  }

  // ---------------------------------------------------------------------------
  // The component

  class Kiosk {
    var accessCode: string
    var selectedDoor: Option<Id>
    var loading: bool
    var feedback: Feedback
    var accessStatus: Option<AccessStatus>
    var userVerified: Option<ShownUser>
    var doubleVerificationRequired: bool
    var cameraActive: bool
    /** Every `/code` request sent, in order. */
    var requests: seq<CodeRequest>
    /**
     * The delays of the `setTimeout(resetInterface, …)` calls scheduled and not
     * yet fired, in scheduling order. The component never clears a timeout, so
     * every scheduled reset eventually fires.
     */
    var pendingResets: seq<nat>

    /** A step-up always has the user it was asked for. */
    predicate Valid()
      reads this
    {
      doubleVerificationRequired ==> userVerified.Some?
    }

    /** `disabled={loading || doubleVerificationRequired}` on the keypad and on the door select. */
    predicate KeypadEnabled()
      reads this
    {
      !loading && !doubleVerificationRequired
    }

    /**
     * A step-up is pending, the camera never came up (the video element is only
     * mounted once `cameraActive` holds), and no reset is scheduled: the keypad,
     * the door select and the face button are all disabled or hidden.
     */
    predicate Stuck()
      reads this
    {
      doubleVerificationRequired && !cameraActive && pendingResets == []
    }

    constructor (door: Option<Id>)
      ensures Valid() && KeypadEnabled() && !Stuck()
      ensures accessCode == [] && selectedDoor == door && feedback == Quiet
      ensures accessStatus.None? && userVerified.None? && !cameraActive
      ensures requests == [] && pendingResets == []
    {
      accessCode := [];
      selectedDoor := door;
      loading := false;
      feedback := Quiet;
      accessStatus := None;
      userVerified := None;
      doubleVerificationRequired := false;
      cameraActive := false;
      requests := [];
      pendingResets := [];
    }

    /** A press on the keypad: ignored while the keypad is disabled, else `handleKeypadInput`. */
    method PressKey(key: Key)
      requires Valid()
      modifies this
      ensures Valid()
      ensures !old(KeypadEnabled()) ==> unchanged(this)
      ensures old(Stuck()) ==> unchanged(this) && Stuck()
      ensures old(KeypadEnabled()) ==>
        && selectedDoor == old(selectedDoor) && accessStatus == old(accessStatus) && userVerified == old(userVerified)
        && doubleVerificationRequired == old(doubleVerificationRequired) && cameraActive == old(cameraActive)
        && pendingResets == old(pendingResets)
      ensures old(KeypadEnabled()) && !key.Enter? ==>
        accessCode == AfterKey(old(accessCode), key) && requests == old(requests) && feedback == old(feedback)
        && loading == old(loading)
      ensures old(KeypadEnabled()) && key.Enter? ==> accessCode == old(accessCode)
      ensures old(KeypadEnabled()) && key.Enter? ==>
        match SubmitError(old(selectedDoor), old(accessCode))
        case Some(message) => feedback == Feedback(Failure, message) && requests == old(requests) && !loading
        case None => loading && feedback == Quiet && requests == old(requests) + [CodeRequest(old(selectedDoor).value, old(accessCode))]
    {
      if !KeypadEnabled() {
        return;
      }
      HandleKeypadInput(key);
    }

    /** `handleKeypadInput(key)`. */
    method HandleKeypadInput(key: Key)
      requires Valid()
      modifies this
      ensures Valid()
      ensures !key.Enter? ==> accessCode == AfterKey(old(accessCode), key)
      ensures !key.Enter? ==>
        && selectedDoor == old(selectedDoor) && loading == old(loading) && feedback == old(feedback)
        && accessStatus == old(accessStatus) && userVerified == old(userVerified)
        && doubleVerificationRequired == old(doubleVerificationRequired) && cameraActive == old(cameraActive)
        && requests == old(requests) && pendingResets == old(pendingResets)
      ensures key.Enter? ==>
        && selectedDoor == old(selectedDoor) && accessCode == old(accessCode)
        && accessStatus == old(accessStatus) && userVerified == old(userVerified)
        && doubleVerificationRequired == old(doubleVerificationRequired) && cameraActive == old(cameraActive)
        && pendingResets == old(pendingResets)
      ensures key.Enter? ==>
        match SubmitError(old(selectedDoor), old(accessCode))
        case Some(message) => feedback == Feedback(Failure, message) && requests == old(requests)
                              && loading == old(loading) && accessCode == old(accessCode)
        case None => loading && feedback == Quiet && requests == old(requests) + [CodeRequest(old(selectedDoor).value, old(accessCode))]
    {
      match key
      case Clear =>
        accessCode := [];
      case Backspace =>
        accessCode := if |accessCode| == 0 then [] else accessCode[..|accessCode| - 1];
      case Enter =>
        SubmitAccessCode();
      case Press(text) =>
        accessCode := accessCode + text;
    }

    /** The synchronous part of `handleAccessCodeSubmit`: the guards, then the request goes out. */
    method SubmitAccessCode()
      requires Valid()
      modifies this
      ensures Valid()
      ensures selectedDoor == old(selectedDoor) && accessCode == old(accessCode)
      ensures accessStatus == old(accessStatus) && userVerified == old(userVerified)
      ensures doubleVerificationRequired == old(doubleVerificationRequired) && cameraActive == old(cameraActive)
      ensures pendingResets == old(pendingResets)
      ensures match SubmitError(old(selectedDoor), old(accessCode))
        case Some(message) => feedback == Feedback(Failure, message) && requests == old(requests) && loading == old(loading)
        case None => loading && feedback == Quiet && requests == old(requests) + [CodeRequest(old(selectedDoor).value, old(accessCode))]
    {
      if selectedDoor.None? {
        feedback := Feedback(Failure, "Please select a door");
        return;
      }
      if accessCode == [] {
        feedback := Feedback(Failure, "Please enter an access code");
        return;
      }
      loading := true;
      feedback := Quiet;
      requests := requests + [CodeRequest(selectedDoor.value, accessCode)];
    }

    /**
     * The rest of `handleAccessCodeSubmit` once the request settles, `finally`
     * included. On a step-up, `startCamera()` finds no video element to attach
     * to (it is rendered only while `cameraActive` holds), so the camera flag
     * stays as it was and no reset is scheduled.
     */
    method ReceiveVerifyResponse(resp: VerifyResponse)
      requires Valid()
      modifies this
      ensures Valid()
      ensures !loading && accessCode == []
      ensures feedback == ResponseFeedback(resp)
      ensures selectedDoor == old(selectedDoor) && requests == old(requests) && cameraActive == old(cameraActive)
      ensures resp.StepUp? ==>
        && doubleVerificationRequired && userVerified == Some(resp.user)
        && accessStatus == old(accessStatus) && pendingResets == old(pendingResets) && !KeypadEnabled()
      ensures resp.StepUp? && !old(cameraActive) && old(pendingResets) == [] ==> Stuck()
      ensures resp.Welcome? ==>
        && accessStatus == Some(StatusGranted) && userVerified == Some(resp.user)
        && pendingResets == old(pendingResets) + [GrantedResetDelay]
        && doubleVerificationRequired == old(doubleVerificationRequired)
      ensures resp.Refused? ==>
        && accessStatus == Some(StatusDenied) && pendingResets == old(pendingResets) + [DeniedResetDelay]
        && userVerified == old(userVerified)
        && doubleVerificationRequired == old(doubleVerificationRequired)
    {
      match resp {
        case StepUp(user) =>
          doubleVerificationRequired := true;
          userVerified := Some(user);
          feedback := ResponseFeedback(resp);
        case Welcome(user) =>
          accessStatus := Some(StatusGranted);
          userVerified := Some(user);
          feedback := ResponseFeedback(resp);
          pendingResets := pendingResets + [GrantedResetDelay];
        case Refused(_) =>
          accessStatus := Some(StatusDenied);
          feedback := ResponseFeedback(resp);
          pendingResets := pendingResets + [DeniedResetDelay];
      }
      loading := false;
      accessCode := [];
    }

    /** `resetInterface`: back to an empty, idle screen (door, loading, requests and scheduled timers stay). */
    method ResetInterface()
      modifies this
      ensures Valid()
      ensures accessCode == [] && accessStatus.None? && userVerified.None?
      ensures !doubleVerificationRequired && !cameraActive && feedback == Quiet
      ensures selectedDoor == old(selectedDoor) && loading == old(loading)
      ensures requests == old(requests) && pendingResets == old(pendingResets)
    {
      accessCode := [];
      accessStatus := None;
      userVerified := None;
      doubleVerificationRequired := false;
      cameraActive := false;
      feedback := Quiet;
    }

    /**
     * The scheduled reset `k` firing. It resets whatever the screen shows by
     * then: a refusal's timer still pending when a later request is granted or
     * answered with a step-up wipes that later state too.
     */
    method FireReset(k: nat)
      requires k < |pendingResets|
      modifies this
      ensures Valid() && !Stuck()
      ensures pendingResets == RemoveAt(old(pendingResets), k)
      ensures accessCode == [] && accessStatus.None? && userVerified.None?
      ensures !doubleVerificationRequired && !cameraActive && feedback == Quiet
      ensures selectedDoor == old(selectedDoor) && loading == old(loading) && requests == old(requests)
    {
      ResetInterface();
      pendingResets := RemoveAt(pendingResets, k);
    }

    /** `handleDoorChange`: select the door, then reset; ignored while the select is disabled. */
    method ChangeDoor(door: Option<Id>)
      modifies this
      ensures !old(KeypadEnabled()) ==> unchanged(this)
      ensures old(Stuck()) ==> unchanged(this) && Stuck()
      ensures old(KeypadEnabled()) ==>
        && Valid() && selectedDoor == door
        && accessCode == [] && accessStatus.None? && userVerified.None?
        && !doubleVerificationRequired && !cameraActive && feedback == Quiet
        && loading == old(loading) && requests == old(requests) && pendingResets == old(pendingResets)
    {
      if !KeypadEnabled() {
        return;
      }
      selectedDoor := door;
      ResetInterface();
    }

    /** Closing the feedback alert: only the feedback line goes. */
    method DismissFeedback()
      modifies this
      ensures feedback == Quiet
      ensures old(Stuck()) ==> Stuck()
      ensures accessCode == old(accessCode) && selectedDoor == old(selectedDoor) && loading == old(loading)
      ensures accessStatus == old(accessStatus) && userVerified == old(userVerified)
      ensures doubleVerificationRequired == old(doubleVerificationRequired) && cameraActive == old(cameraActive)
      ensures requests == old(requests) && pendingResets == old(pendingResets)
    {
      feedback := Quiet;
    }
  }

  /**
   * A refused code followed, within three seconds, by a granted one: the
   * refusal's reset fires first and wipes the grant from the screen, and the
   * grant's own reset is still pending.
   */
  method StaleResetWipesGrant() returns (k: Kiosk)
    ensures k.accessStatus.None? && k.userVerified.None? && k.feedback == Quiet
    ensures k.pendingResets == [GrantedResetDelay]
    ensures k.requests == [CodeRequest(1, "1"), CodeRequest(1, "2")]
  {
    k := new Kiosk(Some(1));
    k.PressKey(Press("1"));
    assert k.accessCode == "1";
    k.PressKey(Enter);
    assert k.requests == [CodeRequest(1, "1")];
    k.ReceiveVerifyResponse(Refused("Invalid access code"));
    assert k.pendingResets == [DeniedResetDelay];
    k.PressKey(Press("2"));
    assert k.accessCode == "2";
    k.PressKey(Enter);
    k.ReceiveVerifyResponse(Welcome(ShownUser("Ada", Guest)));
    assert k.pendingResets == [DeniedResetDelay, GrantedResetDelay];
    k.FireReset(0);
  }

  /**
   * A fresh kiosk whose first code is answered with a step-up: the screen is
   * stuck, and no key press or door change moves it.
   */
  method StepUpStrandsKiosk() returns (k: Kiosk)
    ensures k.Stuck() && k.Valid() && !k.KeypadEnabled()
    ensures k.userVerified == Some(ShownUser("Ada", Guest))
    ensures k.requests == [CodeRequest(1, "1")]
  {
    k := new Kiosk(Some(1));
    k.PressKey(Press("1"));
    k.PressKey(Enter);
    k.ReceiveVerifyResponse(StepUp(ShownUser("Ada", Guest)));
    k.PressKey(Clear);
    k.ChangeDoor(Some(2));
  }
}
