/**
 * The onboarding form in the browser: the handle field's sanitiser, the availability
 * indicator driven by the (debounced) handle, and the submit gate in front of the
 * `completeOnboarding` server action. The debounce timer, the transition and the order in
 * which server answers arrive are not modelled: the debounced value and each server answer
 * are inputs to the methods that react to them.
 */
module OnboardingClient {
  import opened Wrappers
  import opened JsString
  import opened Validators
  import opened Onboarding

  const NEW_USER := "New User"
  const CHOOSE_HANDLE := "Please choose an available handle"
  const DISPLAY_NAME_REQUIRED_CLIENT := "Display name is required"
  /** Handles shorter than this are not checked at all. */
  const MIN_CHECKED_LENGTH := 3

  /** A character the handle field keeps: `[a-z0-9_]`. */
  predicate IsSanitizedChar(c: char) {
    ('a' <= c <= 'z') || ('0' <= c <= '9') || c == '_'
  }

  /** The characters of `s` that the handle field keeps, in order. */
  function Keep(s: string): (r: string)
    ensures |r| <= |s|
    ensures forall i | 0 <= i < |r| :: IsSanitizedChar(r[i])
    ensures forall c | c in r :: c in s
  {
    if s == [] then []
    else (if IsSanitizedChar(s[0]) then [s[0]] else []) + Keep(s[1..])
  }

  /** Filtering distributes over concatenation, so the kept characters stay in their order. */
  lemma {:induction false} KeepAppend(a: string, b: string)
    ensures Keep(a + b) == Keep(a) + Keep(b)
  {
    if a == [] {
      assert a + b == b;
    } else {
      assert (a + b)[0] == a[0] && (a + b)[1..] == a[1..] + b;
      KeepAppend(a[1..], b);
      var head := if IsSanitizedChar(a[0]) then [a[0]] else [];
      assert Keep(a + b) == head + (Keep(a[1..]) + Keep(b));
    }
  }

  /** A string made only of kept characters is left as it is. */
  lemma {:induction false} KeepOfKept(s: string)
    requires forall i | 0 <= i < |s| :: IsSanitizedChar(s[i])
    ensures Keep(s) == s
  {
    if s != [] {
      KeepOfKept(s[1..]);
    }
  }

  /** The handle field's `onChange`: lowercase, then drop everything outside `[a-z0-9_]`. */
  function Sanitize(raw: string): (h: string)
    ensures forall i | 0 <= i < |h| :: IsSanitizedChar(h[i])
    ensures |h| <= |raw|
  {
    Keep(Lower(raw))
  }

  /** Sanitising twice is sanitising once. */
  lemma SanitizeIdempotent(raw: string)
    ensures Sanitize(Sanitize(raw)) == Sanitize(raw)
  {
    var h := Sanitize(raw);
    assert Lower(h) == h by {
      forall i | 0 <= i < |h| ensures Lower(h)[i] == h[i] {
        assert IsSanitizedChar(h[i]);
      }
    }
    KeepOfKept(h);
  }

  /** Sanitising works character by character: what is kept of `a + b` is what is kept of
      `a` followed by what is kept of `b`, and one character is kept, lowercased, exactly when
      its lowercase form is in `[a-z0-9_]`. */
  lemma SanitizeKeepsOrder(a: string, b: string, c: char)
    ensures Sanitize(a + b) == Sanitize(a) + Sanitize(b)
    ensures Sanitize([c]) == if IsSanitizedChar(LowerChar(c)) then [LowerChar(c)] else []
  {
    assert Lower(a + b) == Lower(a) + Lower(b);
    KeepAppend(Lower(a), Lower(b));
    assert Lower([c]) == [LowerChar(c)];
    assert Lower([c])[1..] == [];
  }

  /** Every sanitised handle of 3 to 30 characters passes the handle schema. */
  lemma SanitizedHandleIsValid(raw: string)
    requires 3 <= |Sanitize(raw)| <= 30
    ensures ValidHandle(Sanitize(raw))
  {
    var h := Sanitize(raw);
    forall i | 0 <= i < |h| ensures IsHandleChar(h[i]) {
      assert IsSanitizedChar(h[i]);
    }
  }

  /** The availability indicator: `handleStatus`. */
  datatype HandleStatus = HandleStatus(checking: bool, available: Option<bool>, error: Option<string>)

  const IDLE := HandleStatus(false, None, None)
  const CHECKING := HandleStatus(true, None, None)

  /** The indicator the effect sets for a debounced handle, before any server answer: idle for
      an empty or short handle, the first schema message for a malformed one, and checking
      otherwise, in which case (and only then) the server is asked. */
  function EffectStatus(debounced: string): (r: HandleStatus)
    ensures |debounced| < MIN_CHECKED_LENGTH ==> r == IDLE
    ensures |debounced| >= MIN_CHECKED_LENGTH && !ValidHandle(debounced)
            ==> r == HandleStatus(false, Some(false), HandleError(debounced))
    ensures r.checking <==> |debounced| >= MIN_CHECKED_LENGTH && ValidHandle(debounced)
    ensures r.checking ==> r == CHECKING
  {
    if debounced == "" || |debounced| < MIN_CHECKED_LENGTH then IDLE
    else
      var issues := HandleIssues(debounced);
      if issues != [] then HandleStatus(false, Some(false), Some(issues[0]))
      else CHECKING
  }

  /** A typed handle that is long enough is always sent to the server (the sanitiser leaves
      nothing for the schema to refuse but an overlong handle), and an overlong one shows the
      maximum-length message without a server call. */
  lemma SanitizedHandleStatus(raw: string)
    ensures 3 <= |Sanitize(raw)| <= 30 ==> EffectStatus(Sanitize(raw)) == CHECKING
    ensures |Sanitize(raw)| > 30 ==> EffectStatus(Sanitize(raw)) == HandleStatus(false, Some(false), Some(HANDLE_TOO_LONG))
  {
    var h := Sanitize(raw);
    if 3 <= |h| <= 30 {
      SanitizedHandleIsValid(raw);
    }
  }

  /** The indicator once the server answers: not checking, the server's verdict, and when
      unavailable the server's message, or "Handle unavailable" if it sent none. */
  function ResultStatus(result: Availability): (r: HandleStatus)
    ensures !r.checking && r.available == Some(result.available)
    ensures r.error.None? <==> result.available
    ensures !result.available && result.error.Some? ==> r.error == result.error
  {
    HandleStatus(false, Some(result.available),
                 if result.available then None
                 else if result.error.Some? then result.error else Some(HANDLE_UNAVAILABLE))
  }

  /** Against the server's availability check the fallback message never shows: every refusal
      carries its reason, which is what the indicator displays. */
  lemma IndicatorShowsServerReason(profiles: map<UserId, Profile>, reserved: map<ReservationId, Reservation>,
                                   handle: string, now: Timestamp)
    ensures var result := CheckAvailability(profiles, reserved, handle, now);
            && (ResultStatus(result).available == Some(true) <==> result.available)
            && (!result.available ==> ResultStatus(result).error == result.error && result.error.Some?)
  {
    var result := CheckAvailability(profiles, reserved, handle, now);
    if !ValidHandle(handle) {
      assert result.error == HandleError(handle);
    }
  }

  /** The submit button is enabled (apart from a pending submission) exactly when the handle
      is known to be available and the display name is not blank. */
  predicate IsFormValid(status: HandleStatus, displayName: string) {
    status.available == Some(true) && |Trim(displayName)| > 0
  }

  /** The error `handleSubmit` reports before calling the server, if any: the handle first,
      then the display name. */
  function SubmitGate(status: HandleStatus, displayName: string): (error: Option<string>)
    ensures error.None? <==> IsFormValid(status, displayName)
    ensures status.available != Some(true) ==> error == Some(CHOOSE_HANDLE)
    ensures status.available == Some(true) && Trim(displayName) == "" ==> error == Some(DISPLAY_NAME_REQUIRED_CLIENT)
  {
    if status.available != Some(true) then Some(CHOOSE_HANDLE)
    else if Trim(displayName) == "" then Some(DISPLAY_NAME_REQUIRED_CLIENT)
    else None
  }

  /** The initial display name: the placeholder name given to new accounts shows as empty. */
  function InitialDisplayName(current: string): (r: string)
    ensures r == "" <==> current == NEW_USER || current == ""
    ensures r != "" ==> r == current
  {
    if current == NEW_USER then "" else current
  }

  /** The location sent to the server: trimmed, and left out when blank. */
  function LocationToSend(location: string): (r: Option<string>)
    ensures r.None? <==> Trim(location) == ""
    ensures r.Some? ==> r.value == Trim(location) && Trimmed(r.value)
  {
    var t := Trim(location);
    if t == "" then None else Some(t)
  }

  /** The data the form sends. */
  function Request(handle: string, displayName: string, location: string): OnboardingData {
    OnboardingData(handle, Trim(displayName), LocationToSend(location))
  }

  /** A blank location typed into the form ends up stored as null on a successful claim, and a
      non-blank one is stored trimmed. */
  lemma SubmittedLocationStored(p: Profile, handle: string, displayName: string, location: string)
    ensures Claimed(p, Request(handle, displayName, location)).location
            == if Trim(location) == "" then None else Some(Trim(location))
  {
  }

  /** The form's state. */
  class OnboardingForm {
    var handle: string
    var displayName: string
    var location: string
    var status: HandleStatus
    var formError: Option<string>

    constructor(currentDisplayName: string)
      ensures handle == "" && location == "" && displayName == InitialDisplayName(currentDisplayName)
      ensures status == IDLE && formError.None?
    {
      handle := "";
      displayName := InitialDisplayName(currentDisplayName);
      location := "";
      status := IDLE;
      formError := None;
    }

    /** Typing in the handle field. */
    method EditHandle(raw: string)
      modifies this
      ensures handle == Sanitize(raw)
      ensures displayName == old(displayName) && location == old(location)
      ensures status == old(status) && formError == old(formError)
    {
      handle := Sanitize(raw);
    }

    method EditDisplayName(value: string)
      modifies this
      ensures displayName == value
      ensures handle == old(handle) && location == old(location)
      ensures status == old(status) && formError == old(formError)
    {
      displayName := value;
    }

    method EditLocation(value: string)
      modifies this
      ensures location == value
      ensures handle == old(handle) && displayName == old(displayName)
      ensures status == old(status) && formError == old(formError)
    {
      location := value;
    }

    /** The effect run for a new debounced handle; `query` says whether the server is asked. */
    method HandleEffect(debounced: string) returns (query: bool)
      modifies this
      ensures status == EffectStatus(debounced)
      ensures query <==> status.checking
      ensures handle == old(handle) && displayName == old(displayName)
      ensures location == old(location) && formError == old(formError)
    {
      if debounced == "" || |debounced| < MIN_CHECKED_LENGTH {
        status := IDLE;
        return false;
      }
      var issues := HandleIssues(debounced);
      if issues != [] {
        status := HandleStatus(false, Some(false), Some(issues[0]));
        return false;
      }
      status := CHECKING;
      return true;
    }

    /** The server's answer to the availability check arrives. */
    method AvailabilityArrived(result: Availability)
      modifies this
      ensures status == ResultStatus(result)
      ensures handle == old(handle) && displayName == old(displayName)
      ensures location == old(location) && formError == old(formError)
    {
      var error := if result.available then None
                   else if result.error.Some? then result.error else Some(HANDLE_UNAVAILABLE);
      status := HandleStatus(false, Some(result.available), error);
    }

    /** `handleSubmit`: clears the error, applies the gate, and returns the data sent to
        `completeOnboarding` when the gate lets the submission through. */
    method Submit() returns (request: Option<OnboardingData>)
      modifies this
      ensures formError == SubmitGate(status, displayName)
      ensures request.Some? <==> IsFormValid(status, displayName)
      ensures request.Some? ==> request.value == Request(handle, displayName, location)
      ensures handle == old(handle) && displayName == old(displayName)
      ensures location == old(location) && status == old(status)
    {
      formError := None;
      if status.available != Some(true) {
        formError := Some(CHOOSE_HANDLE);
        return None;
      }
      var name := Trim(displayName);
      if name == "" {
        formError := Some(DISPLAY_NAME_REQUIRED_CLIENT);
        return None;
      }
      var trimmedLocation := Trim(location);
      var sentLocation := if trimmedLocation == "" then None else Some(trimmedLocation);
      return Some(OnboardingData(handle, name, sentLocation));
    }

    /** The server action returns: a non-empty error is shown; a redirect leaves the form. */
    method SubmitSettled(outcome: OnboardingOutcome)
      modifies this
      ensures formError == if outcome.Failed? && outcome.error != "" then Some(outcome.error) else old(formError)
      ensures handle == old(handle) && displayName == old(displayName)
      ensures location == old(location) && status == old(status)
    {
      if outcome.Failed? && outcome.error != "" {
        formError := Some(outcome.error);
      }
    }
  }
}
