/**
 * The onboarding server actions: checking whether a handle can be taken, and claiming it
 * for the signed-in account's profile.
 *
 * The profiles table is a map from owning account to profile (one profile per account);
 * the reserved-handles table is a map from reservation id to reservation. Both are fields
 * of `HandleRegistry`. Handles are compared exactly as given: the server does no case
 * folding. The clock is the input `now`; the outcome of the final profile update is the
 * input `updateError` (the database's error code, if it refused the update).
 */
module Onboarding {
  import opened Wrappers
  import opened Validators

  type UserId = string
  type ProfileId = string
  type ReservationId = string
  type Timestamp = int

  datatype Profile = Profile(id: ProfileId, handle: string, displayName: string, location: Option<string>)

  datatype Reservation = Reservation(handle: string, consumed: bool, expiresAt: Timestamp)

  /** The answer of `checkHandleAvailability`. */
  datatype Availability = Availability(available: bool, error: Option<string>)

  /** The form data `completeOnboarding` receives. */
  datatype OnboardingData = OnboardingData(handle: string, displayName: string, location: Option<string>)

  /** How `completeOnboarding` ends: a redirect, a returned error, or a thrown error. */
  datatype OnboardingOutcome = Redirected(path: string) | Failed(error: string) | Thrown(message: string)

  const HANDLE_TAKEN := "Handle already taken"
  const HANDLE_RESERVED := "Handle is reserved"
  const HANDLE_UNAVAILABLE := "Handle unavailable"
  const PROFILE_NOT_FOUND := "Profile not found"
  const UPDATE_FAILED := "Failed to update profile. Please try again."
  const UNAUTHORIZED := "Unauthorized"
  const UNIQUE_VIOLATION := "23505"
  const DASHBOARD := "/dashboard"

  /** Some profile holds exactly this handle. */
  predicate HandleTaken(profiles: map<UserId, Profile>, handle: string) {
    exists u | u in profiles :: profiles[u].handle == handle
  }

  /** An unconsumed reservation of exactly this handle expires strictly after `now`. */
  predicate ActivelyReserved(reserved: map<ReservationId, Reservation>, handle: string, now: Timestamp) {
    exists id | id in reserved :: reserved[id].handle == handle && !reserved[id].consumed && reserved[id].expiresAt > now
  }

  /** `checkHandleAvailability`: format first, then existing profiles, then active reservations. */
  function CheckAvailability(profiles: map<UserId, Profile>, reserved: map<ReservationId, Reservation>,
                             handle: string, now: Timestamp): (r: Availability)
    ensures r.available <==> ValidHandle(handle) && !HandleTaken(profiles, handle) && !ActivelyReserved(reserved, handle, now)
    ensures r.available ==> r.error.None?
    ensures !ValidHandle(handle) ==> r == Availability(false, HandleError(handle))
    ensures ValidHandle(handle) && HandleTaken(profiles, handle) ==> r == Availability(false, Some(HANDLE_TAKEN))
    ensures ValidHandle(handle) && !HandleTaken(profiles, handle) && ActivelyReserved(reserved, handle, now)
            ==> r == Availability(false, Some(HANDLE_RESERVED))
  {
    var issues := HandleIssues(handle);
    if issues != [] then Availability(false, Some(issues[0]))
    else if HandleTaken(profiles, handle) then Availability(false, Some(HANDLE_TAKEN))
    else if ActivelyReserved(reserved, handle, now) then Availability(false, Some(HANDLE_RESERVED))
    else Availability(true, None)
  }

  /** Reservations only expire as time passes: a handle available now stays available later,
      as long as the tables do not change. */
  lemma AvailabilityPersistsOverTime(profiles: map<UserId, Profile>, reserved: map<ReservationId, Reservation>,
                                     handle: string, now: Timestamp, later: Timestamp)
    requires now <= later
    requires CheckAvailability(profiles, reserved, handle, now).available
    ensures CheckAvailability(profiles, reserved, handle, later).available
  {
    forall id | id in reserved && reserved[id].handle == handle && !reserved[id].consumed
      ensures reserved[id].expiresAt <= later
    {
      assert reserved[id].expiresAt <= now;
    }
  }

  /** A reservation that expired or was consumed does not block a free handle. */
  lemma InactiveReservationIgnored(profiles: map<UserId, Profile>, reserved: map<ReservationId, Reservation>,
                                   handle: string, now: Timestamp)
    requires ValidHandle(handle) && !HandleTaken(profiles, handle)
    requires forall id | id in reserved && reserved[id].handle == handle :: reserved[id].consumed || reserved[id].expiresAt <= now
    ensures CheckAvailability(profiles, reserved, handle, now) == Availability(true, None)
  {
  }

  /** The server compares handles exactly: a profile holding "Alice" does not make "alice" taken. */
  lemma HandlesAreCaseSensitive(profiles: map<UserId, Profile>, owner: UserId)
    requires profiles == map[owner := Profile("p1", "Alice", "Alice", None)]
    ensures CheckAvailability(profiles, map[], "Alice", 0) == Availability(false, Some(HANDLE_TAKEN))
    ensures CheckAvailability(profiles, map[], "alice", 0) == Availability(true, None)
  {
    assert ValidHandle("Alice") && ValidHandle("alice");
    assert profiles[owner].handle == "Alice";
    assert !HandleTaken(profiles, "alice") by {
      forall u | u in profiles ensures profiles[u].handle != "alice" {
        assert profiles[u].handle[0] != "alice"[0];
      }
    }
  }

  /** The message for a refused profile update: a unique-constraint violation means another
      profile got the handle first; anything else asks the user to retry. */
  function UpdateErrorMessage(code: string): (msg: string)
    ensures msg == HANDLE_TAKEN <==> code == UNIQUE_VIOLATION
    ensures code != UNIQUE_VIOLATION ==> msg == UPDATE_FAILED
  {
    if code == UNIQUE_VIOLATION then HANDLE_TAKEN else UPDATE_FAILED
  }

  /** The profile after a successful claim: the new handle and display name, exactly as sent,
      and the location, with an absent or empty one stored as null. */
  function Claimed(p: Profile, form: OnboardingData): (q: Profile)
    ensures q.id == p.id && q.handle == form.handle && q.displayName == form.displayName
    ensures q.location.None? <==> form.location.None? || form.location.value == ""
    ensures q.location.Some? ==> q.location == form.location
  {
    p.(handle := form.handle, displayName := form.displayName,
       location := if form.location.None? || form.location.value == "" then None else form.location)
  }

  /** `completeOnboarding` as a function of the tables before the call: its outcome and the
      profiles table after it. The reservations are never written. */
  function OnboardingSpec(profiles: map<UserId, Profile>, reserved: map<ReservationId, Reservation>,
                          user: Option<UserId>, form: OnboardingData, now: Timestamp,
                          updateError: Option<string>): (OnboardingOutcome, map<UserId, Profile>)
  {
    if user.None? then (Thrown(UNAUTHORIZED), profiles)
    else if !ValidHandle(form.handle) then (Failed(HandleIssues(form.handle)[0]), profiles)
    else
      var availability := CheckAvailability(profiles, reserved, form.handle, now);
      if !availability.available then
        (Failed(if availability.error.Some? && availability.error.value != "" then availability.error.value else HANDLE_UNAVAILABLE), profiles)
      else if user.value !in profiles then (Failed(PROFILE_NOT_FOUND), profiles)
      else if updateError.Some? then (Failed(UpdateErrorMessage(updateError.value)), profiles)
      else (Redirected(DASHBOARD), profiles[user.value := Claimed(profiles[user.value], form)])
  }

  /** What `completeOnboarding` promises: it fails, changing nothing, when there is no
      signed-in account, the handle is malformed or unavailable, the account has no profile,
      or the update is refused; otherwise only the caller's profile changes, to the claimed one. */
  lemma OnboardingChangesOnlyCaller(profiles: map<UserId, Profile>, reserved: map<ReservationId, Reservation>,
                                    user: Option<UserId>, form: OnboardingData, now: Timestamp,
                                    updateError: Option<string>)
    ensures var (outcome, after) := OnboardingSpec(profiles, reserved, user, form, now, updateError);
      && (outcome.Redirected? <==>
            && user.Some? && CheckAvailability(profiles, reserved, form.handle, now).available
            && user.value in profiles && updateError.None?)
      && (!outcome.Redirected? ==> after == profiles)
      && (outcome.Redirected? ==>
            && after.Keys == profiles.Keys
            && after[user.value] == Claimed(profiles[user.value], form)
            && forall u | u in profiles && u != user.value :: after[u] == profiles[u])
      && (user.Some? && !ValidHandle(form.handle) ==> outcome == Failed(HandleIssues(form.handle)[0]))
      && (user.Some? && ValidHandle(form.handle) && HandleTaken(profiles, form.handle) ==> outcome == Failed(HANDLE_TAKEN))
      && (updateError == Some(UNIQUE_VIOLATION) ==> outcome != Redirected(DASHBOARD))
  {
  }

  /** Right after a successful claim, checking the same handle reports it taken. */
  lemma ClaimedHandleIsTaken(profiles: map<UserId, Profile>, reserved: map<ReservationId, Reservation>,
                             user: Option<UserId>, form: OnboardingData, now: Timestamp, later: Timestamp)
    requires OnboardingSpec(profiles, reserved, user, form, now, None).0.Redirected?
    ensures var after := OnboardingSpec(profiles, reserved, user, form, now, None).1;
            CheckAvailability(after, reserved, form.handle, later) == Availability(false, Some(HANDLE_TAKEN))
  {
    var after := OnboardingSpec(profiles, reserved, user, form, now, None).1;
    assert after[user.value].handle == form.handle;
  }

  /** No two profiles share a handle (the table's unique constraint). */
  ghost predicate HandlesUnique(profiles: map<UserId, Profile>) {
    forall u, v | u in profiles && v in profiles && u != v :: profiles[u].handle != profiles[v].handle
  }

  /** No profile holds a handle that is actively reserved at `now`. */
  ghost predicate ReservationsRespected(profiles: map<UserId, Profile>, reserved: map<ReservationId, Reservation>, now: Timestamp) {
    forall u | u in profiles :: !ActivelyReserved(reserved, profiles[u].handle, now)
  }

  /** A claim keeps handles unique and never hands out an actively reserved handle. */
  lemma {:induction false} OnboardingKeepsHandlesExclusive(profiles: map<UserId, Profile>, reserved: map<ReservationId, Reservation>,
                                        user: Option<UserId>, form: OnboardingData, now: Timestamp,
                                        updateError: Option<string>)
    requires HandlesUnique(profiles)
    ensures HandlesUnique(OnboardingSpec(profiles, reserved, user, form, now, updateError).1)
    ensures ReservationsRespected(profiles, reserved, now)
            ==> ReservationsRespected(OnboardingSpec(profiles, reserved, user, form, now, updateError).1, reserved, now)
  {
    var (outcome, after) := OnboardingSpec(profiles, reserved, user, form, now, updateError);
    if outcome.Redirected? {
      assert !HandleTaken(profiles, form.handle);
      assert !ActivelyReserved(reserved, form.handle, now);
      forall u, v | u in after && v in after && u != v ensures after[u].handle != after[v].handle {
        if u == user.value {
          assert profiles[v].handle != form.handle;
        } else if v == user.value {
          assert profiles[u].handle != form.handle;
        }
      }
    }
  }

  /** Reservations only lapse as time passes, so the respected-reservations property survives it. */
  lemma ReservationsRespectedLater(profiles: map<UserId, Profile>, reserved: map<ReservationId, Reservation>,
                                   now: Timestamp, later: Timestamp)
    requires now <= later && ReservationsRespected(profiles, reserved, now)
    ensures ReservationsRespected(profiles, reserved, later)
  {
    forall u, id | u in profiles && id in reserved && reserved[id].handle == profiles[u].handle && !reserved[id].consumed
      ensures reserved[id].expiresAt <= later
    {
      assert !ActivelyReserved(reserved, profiles[u].handle, now);
    }
  }

  /** The profiles and reserved-handles tables. */
  class HandleRegistry {
    var profiles: map<UserId, Profile>
    var reserved: map<ReservationId, Reservation>

    /** The table's unique constraint on handles. */
    ghost predicate Valid()
      reads this
    {
      HandlesUnique(profiles)
    }

    constructor(profiles: map<UserId, Profile>, reserved: map<ReservationId, Reservation>)
      requires HandlesUnique(profiles)
      ensures Valid() && this.profiles == profiles && this.reserved == reserved
    {
      this.profiles := profiles;
      this.reserved := reserved;
    }

    /** `checkHandleAvailability(handle)`: reads both tables, writes nothing. */
    function CheckHandleAvailability(handle: string, now: Timestamp): (r: Availability)
      reads this
      ensures r.available <==> ValidHandle(handle) && !HandleTaken(profiles, handle) && !ActivelyReserved(reserved, handle, now)
    {
      CheckAvailability(profiles, reserved, handle, now)
    }

    /** `completeOnboarding(formData)`. */
    method CompleteOnboarding(user: Option<UserId>, form: OnboardingData, now: Timestamp,
                              updateError: Option<string>) returns (outcome: OnboardingOutcome)
      requires Valid()
      modifies this
      ensures Valid()
      ensures reserved == old(reserved)
      ensures (outcome, profiles) == OnboardingSpec(old(profiles), old(reserved), user, form, now, updateError)
      ensures old(ReservationsRespected(profiles, reserved, now)) ==> ReservationsRespected(profiles, reserved, now)
    {
      OnboardingKeepsHandlesExclusive(profiles, reserved, user, form, now, updateError);
      if user.None? {
        return Thrown(UNAUTHORIZED);
      }
      var issues := HandleIssues(form.handle);
      if issues != [] {
        return Failed(issues[0]);
      }
      var availability := CheckHandleAvailability(form.handle, now);
      if !availability.available {
        var message := if availability.error.Some? && availability.error.value != "" then availability.error.value else HANDLE_UNAVAILABLE;
        return Failed(message);
      }
      if user.value !in profiles {
        return Failed(PROFILE_NOT_FOUND);
      }
      if updateError.Some? {
        return Failed(UpdateErrorMessage(updateError.value));
      }
      profiles := profiles[user.value := Claimed(profiles[user.value], form)];
      return Redirected(DASHBOARD);
    }
  }
}
