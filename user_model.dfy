/**
 * The methods of the user document: door membership, expiry, the step-up
 * (double verification) staleness rule and the pre-save hook that hashes the
 * access code only when it was modified.
 */
module UserModel {
  import opened Model

  /** `1000 * 60 * 60 * 24`: milliseconds in a day. */
  const MsPerDay: int := 86400000

  /** `hasAccessToDoor`: some entry of the user's door list names the door. */
  predicate HasAccessToDoor(u: User, doorId: Id) {
    exists i :: 0 <= i < |u.doors| && u.doors[i].doorId == doorId
  }

  /** `doors.findIndex(d => d.doorId === doorId)`, None standing for -1. */
  function GrantIndex(doors: seq<DoorGrant>, doorId: Id): (r: Option<nat>)
    ensures r.Some? ==> r.value < |doors| && doors[r.value].doorId == doorId
    ensures r.Some? ==> forall j :: 0 <= j < r.value ==> doors[j].doorId != doorId
    ensures r.None? <==> forall j :: 0 <= j < |doors| ==> doors[j].doorId != doorId
  {
    IndexWhere(doors, (g: DoorGrant) => g.doorId == doorId)
  }

  /** The grant list holds at most one entry per door. */
  predicate UniqueGrants(doors: seq<DoorGrant>) {
    forall i, j :: 0 <= i < j < |doors| ==> doors[i].doorId != doors[j].doorId
  }

  /** `isAccessExpired`, with `new Date()` as the parameter `now`. */
  predicate IsAccessExpired(u: User, now: Time) {
    u.expirationDate.Some? && now > u.expirationDate.value
  }

  /**
   * `shouldPerformDoubleVerification(days)`, with `Date.now()` as `now`. The
   * source compares fractional days; the comparison is restated on whole
   * milliseconds (DaysComparisonIsExact shows the two agree).
   */
  predicate ShouldPerformDoubleVerification(u: User, days: int, now: Time) {
    if days <= 0 then false
    else if u.lastVerification.None? then true
    else now - u.lastVerification.value >= days * MsPerDay
  }

  /** The source's own form: elapsed milliseconds divided by a day, against `days`. */
  predicate DaysSinceAtLeast(elapsed: int, days: int) {
    elapsed as real / MsPerDay as real >= days as real
  }

  lemma DaysComparisonIsExact(elapsed: int, days: int)
    ensures DaysSinceAtLeast(elapsed, days) <==> elapsed >= days * MsPerDay
  {
    var m := MsPerDay as real;
    var q := elapsed as real / m;
    assert q * m == elapsed as real;
    if elapsed >= days * MsPerDay {
      assert elapsed as real >= days as real * m;
      assert q >= days as real;
    } else {
      assert elapsed as real < days as real * m;
      assert q < days as real;
    }
  }

  lemma HasAccessIffGrantIndex(u: User, doorId: Id)
    ensures HasAccessToDoor(u, doorId) <==> GrantIndex(u.doors, doorId).Some?
  {
    var r := GrantIndex(u.doors, doorId);
    if r.Some? {
      assert u.doors[r.value].doorId == doorId;
    }
  }

  lemma NullExpirationNeverExpires(u: User, now: Time)
    requires u.expirationDate.None?
    ensures !IsAccessExpired(u, now)
  {
  }

  /** Expiry is strict: the expiration instant itself is still valid, the next millisecond is not. */
  lemma ExpiryBoundary(u: User, t: Time)
    requires u.expirationDate == Some(t)
    ensures !IsAccessExpired(u, t)
    ensures IsAccessExpired(u, t + 1)
  {
  }

  lemma ExpiryIsMonotone(u: User, t1: Time, t2: Time)
    requires t1 <= t2 && IsAccessExpired(u, t1)
    ensures IsAccessExpired(u, t2)
  {
  }

  lemma StepUpDisabledForNonPositiveDays(u: User, days: int, now: Time)
    requires days <= 0
    ensures !ShouldPerformDoubleVerification(u, days, now)
  {
  }

  lemma StepUpWithoutHistory(u: User, days: int, now: Time)
    requires days > 0 && u.lastVerification.None?
    ensures ShouldPerformDoubleVerification(u, days, now)
  {
  }

  /** The staleness boundary is inclusive: exactly `days` days after the last verification, step-up is due. */
  lemma StepUpBoundary(u: User, days: int, last: Time)
    requires days > 0 && u.lastVerification == Some(last)
    ensures ShouldPerformDoubleVerification(u, days, last + days * MsPerDay)
    ensures !ShouldPerformDoubleVerification(u, days, last + days * MsPerDay - 1)
  {
  }

  /** Once step-up is due it stays due as time passes. */
  lemma StepUpIsMonotone(u: User, days: int, t1: Time, t2: Time)
    requires t1 <= t2 && ShouldPerformDoubleVerification(u, days, t1)
    ensures ShouldPerformDoubleVerification(u, days, t2)
  {
  }

  /** A verification at `t` waives step-up for the whole window that follows it. */
  lemma NoStepUpWithinWindow(u: User, days: int, t: Time, now: Time)
    requires u.lastVerification == Some(t)
    requires t <= now < t + days * MsPerDay
    ensures !ShouldPerformDoubleVerification(u, days, now)
  {
  }

  /**
   * The `pre('save')` hook on the document about to be written: the access
   * code is replaced by its salted hash only when it was modified.
   */
  method PreSave(doc: User, codeModified: bool, hash: Hasher, salt: Salt) returns (stored: User)
    ensures !codeModified ==> stored == doc
    ensures codeModified ==> stored.accessCode == hash(doc.accessCode, salt)
    ensures stored.(accessCode := doc.accessCode) == doc
  {
    stored := doc;
    if codeModified {
      stored := stored.(accessCode := hash(stored.accessCode, salt));
    }
  }
}
