/**
 * The listing server actions: turning the form's text fields into a validated payload,
 * and creating or updating a row of the listings table on behalf of the signed-in seller.
 *
 * The listings table is a map from listing id to row, held in `ListingsTable`. The caller's
 * identity and the profiles table are inputs: `user` is the signed-in account, if any, and
 * `owners` maps an account to its profile id. The database's own failures are the inputs
 * `insertFails` / `updateFails`; the time of the request is `now`.
 */
module Listings {
  import opened Wrappers
  import opened JsString
  import opened Validators

  type UserId = string
  type ProfileId = string
  type ListingId = string
  type Timestamp = int

  // ---------------------------------------------------------------- parsing the form

  /** Trims every segment. */
  function TrimEach(parts: seq<string>): (r: seq<string>)
    ensures |r| == |parts|
    ensures forall i | 0 <= i < |parts| :: r[i] == Trim(parts[i])
  {
    seq(|parts|, i requires 0 <= i < |parts| => Trim(parts[i]))
  }

  /** `parseCsv`: the comma-separated segments, trimmed, without the blank ones.
      No item is empty, none has surrounding whitespace, none contains a comma. */
  function ParseCsv(value: string): (items: seq<string>)
    ensures forall i | 0 <= i < |items| :: items[i] != "" && Trimmed(items[i]) && ',' !in items[i]
  {
    var parts := Split(value, ',');
    TrimmedPiecesAreClean(parts);
    DropEmptyKeepsClean(TrimEach(parts));
    DropEmpty(TrimEach(parts))
  }

  /** Every item is trimmed and comma-free. */
  predicate CleanItems(xs: seq<string>) {
    forall i | 0 <= i < |xs| :: Trimmed(xs[i]) && ',' !in xs[i]
  }

  lemma TrimmedPiecesAreClean(parts: seq<string>)
    requires forall i | 0 <= i < |parts| :: ',' !in parts[i]
    ensures CleanItems(TrimEach(parts))
  {
    forall i | 0 <= i < |parts| ensures ',' !in Trim(parts[i]) {
      assert forall c | c in Trim(parts[i]) :: c in parts[i];
    }
  }

  lemma {:induction false} DropEmptyKeepsClean(xs: seq<string>)
    requires CleanItems(xs)
    ensures CleanItems(DropEmpty(xs))
  {
    if xs != [] {
      DropEmptyKeepsClean(xs[1..]);
    }
  }

  /** `parseCsv` on any text: the text is its comma-free pieces joined by commas, and the
      result is those pieces trimmed, with the blank ones dropped, in their order. */
  lemma ParseCsvOfPieces(pieces: seq<string>)
    requires |pieces| >= 1
    requires forall i | 0 <= i < |pieces| :: ',' !in pieces[i]
    ensures ParseCsv(Join(pieces, ",")) == DropEmpty(TrimEach(pieces))
  {
    assert "," == [','];
    SplitOfJoin(pieces, ',');
  }

  /** A list the form can show as `join(", ")` and read back with `parseCsv`. */
  predicate CsvSafe(xs: seq<string>) {
    forall i | 0 <= i < |xs| :: xs[i] != "" && ',' !in xs[i] && Trimmed(xs[i])
  }

  lemma ParseCsvOfEmpty()
    ensures ParseCsv("") == []
  {
    assert Split("", ',') == [""];
  }

  /** The pieces of `join(", ")` split at the commas: the items, each but the first behind a space. */
  lemma SpacedPiecesAreCommaFree(xs: seq<string>)
    requires CsvSafe(xs)
    ensures forall i | 0 <= i < |Spaced(xs)| :: ',' !in Spaced(xs)[i]
  {
    var sp := Spaced(xs);
    forall i | 0 <= i < |sp| ensures ',' !in sp[i] {
      if i > 0 {
        assert sp[i] == [' '] + xs[i];
      }
    }
  }

  /** Trimming those pieces gives the items back. */
  lemma SpacedPiecesTrimToItems(xs: seq<string>)
    requires CsvSafe(xs)
    ensures TrimEach(Spaced(xs)) == xs
  {
    var sp := Spaced(xs);
    forall i | 0 <= i < |sp| ensures Trim(sp[i]) == xs[i] {
      if i == 0 {
        TrimOfTrimmed(xs[0]);
      } else {
        TrimAfterSpace(xs[i]);
      }
    }
  }

  /** Joining with `", "` and parsing gives the list back when every item is non-empty,
      comma-free and without surrounding whitespace. */
  lemma {:induction false} ParseCsvOfJoin(xs: seq<string>)
    requires CsvSafe(xs)
    ensures ParseCsv(Join(xs, ", ")) == xs
  {
    if xs == [] {
      ParseCsvOfEmpty();
    } else {
      var sp := Spaced(xs);
      JoinCommaSpace(xs);
      SpacedPiecesAreCommaFree(xs);
      ParseCsvOfPieces(sp);
      SpacedPiecesTrimToItems(xs);
      assert "" !in xs by {
        forall i | 0 <= i < |xs| ensures xs[i] != "" { }
      }
    }
  }

  /** Parsing, showing the result in the form and parsing again changes nothing. */
  lemma ParseCsvStable(value: string)
    ensures ParseCsv(Join(ParseCsv(value), ", ")) == ParseCsv(value)
  {
    ParseCsvOfJoin(ParseCsv(value));
  }

  /** Lowercases every item. */
  function LowerEach(xs: seq<string>): (r: seq<string>)
    ensures |r| == |xs|
    ensures forall i | 0 <= i < |xs| :: r[i] == Lower(xs[i])
  {
    seq(|xs|, i requires 0 <= i < |xs| => Lower(xs[i]))
  }

  /** Uppercases every item. */
  function UpperEach(xs: seq<string>): (r: seq<string>)
    ensures |r| == |xs|
    ensures forall i | 0 <= i < |xs| :: r[i] == Upper(xs[i])
  {
    seq(|xs|, i requires 0 <= i < |xs| => Upper(xs[i]))
  }

  /** No lowercased item holds an ASCII capital. */
  lemma LowerEachHasNoUpper(xs: seq<string>)
    ensures forall i, j | 0 <= i < |xs| && 0 <= j < |LowerEach(xs)[i]| :: !IsAsciiUpper(LowerEach(xs)[i][j])
  {
    forall i, j | 0 <= i < |xs| && 0 <= j < |LowerEach(xs)[i]| ensures !IsAsciiUpper(LowerEach(xs)[i][j]) {
      assert LowerEach(xs)[i][j] == LowerChar(xs[i][j]);
    }
  }

  /** No uppercased item holds an ASCII small letter. */
  lemma UpperEachHasNoLower(xs: seq<string>)
    ensures forall i, j | 0 <= i < |xs| && 0 <= j < |UpperEach(xs)[i]| :: !IsAsciiLower(UpperEach(xs)[i][j])
  {
    forall i, j | 0 <= i < |xs| && 0 <= j < |UpperEach(xs)[i]| ensures !IsAsciiLower(UpperEach(xs)[i][j]) {
      assert UpperEach(xs)[i][j] == UpperChar(xs[i][j]);
    }
  }

  /** The text fields of the listing form. `priceCents` is the form's euro amount after
      conversion to whole cents. */
  datatype ListingFormInput = ListingFormInput(
    title: string, description: string, priceCents: int, condition: string, size: string,
    category: string, imagesCsv: string, tagsCsv: string, shipsToCsv: string)

  /** The validated columns written to a listing row. */
  datatype ListingData = ListingData(
    title: string, description: string, price: int, condition: Condition, size: string,
    images: seq<string>, category: Category, tags: seq<string>, shipsTo: seq<string>)

  /** The object `toPayload` hands to the listing schema. */
  function Candidate(input: ListingFormInput): ListingInput {
    ListingInput(input.title, input.description, input.priceCents as real, input.condition, input.size,
                 ParseCsv(input.imagesCsv), input.category, LowerEach(ParseCsv(input.tagsCsv)),
                 UpperEach(ParseCsv(input.shipsToCsv)))
  }

  /** `toPayload`: either the first issue's message or the validated columns. Tags are
      lowercased and shipping codes uppercased before validation. */
  function ToPayload(input: ListingFormInput, isUrl: string -> bool): (r: Result<ListingData>)
    ensures r.Err? <==> !ValidListing(Candidate(input), isUrl)
    ensures r.Err? ==> r.error == ListingIssues(Candidate(input), isUrl)[0]
    ensures r.Ok? ==> && r.value.title == input.title && r.value.description == input.description
                      && r.value.price == input.priceCents && r.value.size == input.size
                      && ConditionName(r.value.condition) == input.condition
                      && CategoryName(r.value.category) == input.category
                      && r.value.images == ParseCsv(input.imagesCsv)
                      && r.value.tags == LowerEach(ParseCsv(input.tagsCsv))
                      && r.value.shipsTo == UpperEach(ParseCsv(input.shipsToCsv))
  {
    var candidate := Candidate(input);
    var issues := ListingIssues(candidate, isUrl);
    if issues != [] then Err(issues[0])
    else
      Ok(ListingData(candidate.title, candidate.description, input.priceCents,
                     ParseCondition(candidate.condition).value, candidate.size, candidate.images,
                     ParseCategory(candidate.category).value, candidate.tags, candidate.shipsTo))
  }

  /** What a successful payload carries: valid lowercase tags, uppercase shipping codes, a
      price within the schema's bounds and one to five images. */
  lemma PayloadIsClean(input: ListingFormInput, isUrl: string -> bool)
    requires ToPayload(input, isUrl).Ok?
    ensures var data := ToPayload(input, isUrl).value;
      && (forall i | 0 <= i < |data.tags| :: ValidTag(data.tags[i]) && !exists j | 0 <= j < |data.tags[i]| :: IsAsciiUpper(data.tags[i][j]))
      && (forall i | 0 <= i < |data.shipsTo| :: forall j | 0 <= j < |data.shipsTo[i]| :: !IsAsciiLower(data.shipsTo[i][j]))
      && 50 <= data.price <= 5000000 && 1 <= |data.images| <= 5
  {
    var candidate := Candidate(input);
    var data := ToPayload(input, isUrl).value;
    assert ValidListing(candidate, isUrl);
    assert data.tags == LowerEach(ParseCsv(input.tagsCsv)) == candidate.tags;
    LowerEachHasNoUpper(ParseCsv(input.tagsCsv));
    assert data.shipsTo == UpperEach(ParseCsv(input.shipsToCsv));
    UpperEachHasNoLower(ParseCsv(input.shipsToCsv));
    assert data.price as real == candidate.price;
    assert data.images == candidate.images;
  }

  // ---------------------------------------------------------------- status rules

  datatype ListingStatus = Draft | Pending | Active | Sold | Rejected

  /** The buttons of the listing form: "draft" and "pending" when creating, "save" and
      "submit" when editing. */
  datatype Intent = DraftIntent | PendingIntent | SaveIntent | SubmitIntent

  /** A listing row. */
  datatype Listing = Listing(profileId: ProfileId, data: ListingData, status: ListingStatus, submittedAt: Option<Timestamp>)

  /** Status and submission time of a new listing: pending and stamped iff the intent is
      "pending", otherwise a draft without a submission time. */
  function CreateStatus(intent: Intent, now: Timestamp): (r: (ListingStatus, Option<Timestamp>))
    ensures r.0 == Pending <==> intent == PendingIntent
    ensures r.0 == Pending || r.0 == Draft
    ensures r.1.Some? <==> r.0 == Pending
    ensures r.1.Some? ==> r.1.value == now
  {
    if intent == PendingIntent then (Pending, Some(now)) else (Draft, None)
  }

  /** Status and submission time after an edit: a "submit" or a rejected listing goes
      (back) to pending review, stamped now; otherwise the status stays and the
      submission time is cleared. */
  function UpdateStatus(intent: Intent, current: ListingStatus, now: Timestamp): (r: (ListingStatus, Option<Timestamp>))
    ensures r.1.Some? <==> intent == SubmitIntent || current == Rejected
    ensures r.1.Some? ==> r == (Pending, Some(now))
    ensures r.1.None? ==> r.0 == current
    ensures r.0 != Rejected
  {
    var shouldSubmit := intent == SubmitIntent || current == Rejected;
    if shouldSubmit then (Pending, Some(now)) else (current, None)
  }

  // ---------------------------------------------------------------- the actions

  const UNAUTHORIZED := "Unauthorized"
  const PROFILE_NOT_FOUND := "Profile not found"
  const LISTING_NOT_FOUND := "Listing not found"
  const CREATE_FAILED := "Failed to create listing. Please try again."
  const UPDATE_FAILED := "Failed to update listing. Please try again."
  const DASHBOARD_LISTINGS := "/dashboard/listings"

  /** What an action hands back: an error message, or a redirect on success. */
  datatype ActionOutcome = Failed(error: string) | Redirected(path: string)

  /** `getCurrentProfileId`: the signed-in account's profile id. */
  function CurrentProfileId(user: Option<UserId>, owners: map<UserId, ProfileId>): (r: Result<ProfileId>)
    ensures r.Ok? <==> user.Some? && user.value in owners
    ensures r.Ok? ==> r.value == owners[user.value]
    ensures user.None? ==> r == Err(UNAUTHORIZED)
    ensures user.Some? && user.value !in owners ==> r == Err(PROFILE_NOT_FOUND)
  {
    if user.None? then Err(UNAUTHORIZED)
    else if user.value !in owners then Err(PROFILE_NOT_FOUND)
    else Ok(owners[user.value])
  }

  /** The row `createListing` inserts. */
  function NewRow(data: ListingData, profileId: ProfileId, intent: Intent, now: Timestamp): Listing {
    var (status, submittedAt) := CreateStatus(intent, now);
    Listing(profileId, data, status, submittedAt)
  }

  /** The row `updateListing` writes over `row`. */
  function EditedRow(row: Listing, data: ListingData, intent: Intent, now: Timestamp): Listing {
    var (status, submittedAt) := UpdateStatus(intent, row.status, now);
    row.(data := data, status := status, submittedAt := submittedAt)
  }

  /** `createListing` as a function of the table before the call: the outcome and the table after.
      The database generates `newId`; an insert fails when it reports an error or the id is taken. */
  function CreateSpec(listings: map<ListingId, Listing>, payload: Result<ListingData>, intent: Intent,
                      user: Option<UserId>, owners: map<UserId, ProfileId>,
                      now: Timestamp, newId: ListingId, insertFails: bool): (ActionOutcome, map<ListingId, Listing>)
  {
    if payload.Err? then (Failed(payload.error), listings)
    else
      var current := CurrentProfileId(user, owners);
      if current.Err? then (Failed(current.error), listings)
      else if insertFails || newId in listings then (Failed(CREATE_FAILED), listings)
      else (Redirected(DASHBOARD_LISTINGS), listings[newId := NewRow(payload.value, current.value, intent, now)])
  }

  /** `updateListing` as a function of the table before the call. The row is looked up by id
      and owner together, and written back under the same two conditions. */
  function UpdateSpec(listings: map<ListingId, Listing>, listingId: ListingId, payload: Result<ListingData>,
                      intent: Intent, user: Option<UserId>, owners: map<UserId, ProfileId>,
                      now: Timestamp, updateFails: bool): (ActionOutcome, map<ListingId, Listing>)
  {
    if payload.Err? then (Failed(payload.error), listings)
    else
      var current := CurrentProfileId(user, owners);
      if current.Err? then (Failed(current.error), listings)
      else if listingId !in listings || listings[listingId].profileId != current.value then (Failed(LISTING_NOT_FOUND), listings)
      else if updateFails then (Failed(UPDATE_FAILED), listings)
      else (Redirected(DASHBOARD_LISTINGS), listings[listingId := EditedRow(listings[listingId], payload.value, intent, now)])
  }

  /** An invalid payload is reported before anything else is looked at, and nothing is written. */
  lemma InvalidPayloadWritesNothing(listings: map<ListingId, Listing>, listingId: ListingId, newId: ListingId,
                                    input: ListingFormInput, intent: Intent, user: Option<UserId>,
                                    owners: map<UserId, ProfileId>, isUrl: string -> bool, now: Timestamp, fails: bool)
    requires !ValidListing(Candidate(input), isUrl)
    ensures var e := ListingIssues(Candidate(input), isUrl)[0];
            && CreateSpec(listings, ToPayload(input, isUrl), intent, user, owners, now, newId, fails) == (Failed(e), listings)
            && UpdateSpec(listings, listingId, ToPayload(input, isUrl), intent, user, owners, now, fails) == (Failed(e), listings)
  {
  }

  /** A successful update touched a listing of the caller's own profile, changed only that row,
      kept its owner, and applied the status rule; a failed one wrote nothing. */
  lemma UpdateIsOwnerScoped(listings: map<ListingId, Listing>, listingId: ListingId, payload: Result<ListingData>,
                            intent: Intent, user: Option<UserId>, owners: map<UserId, ProfileId>,
                            now: Timestamp, updateFails: bool)
    ensures var (outcome, after) := UpdateSpec(listings, listingId, payload, intent, user, owners, now, updateFails);
      && after.Keys == listings.Keys
      && (forall id | id in listings && id != listingId :: after[id] == listings[id])
      && (outcome.Redirected? <==>
            && payload.Ok? && user.Some? && user.value in owners
            && listingId in listings && listings[listingId].profileId == owners[user.value] && !updateFails)
      && (outcome.Redirected? ==>
            && after[listingId].profileId == listings[listingId].profileId
            && after[listingId].data == payload.value
            && (after[listingId].status == Pending && after[listingId].submittedAt == Some(now)
                <==> intent == SubmitIntent || listings[listingId].status == Rejected)
            && (after[listingId].submittedAt.None? ==> after[listingId].status == listings[listingId].status)
            && (after[listingId].submittedAt.Some? ==> after[listingId].submittedAt == Some(now)))
      && (outcome.Failed? ==> after == listings)
  {
    var current := CurrentProfileId(user, owners);
    if payload.Ok? && current.Ok? && listingId in listings && listings[listingId].profileId == current.value && !updateFails {
      var row := EditedRow(listings[listingId], payload.value, intent, now);
      assert UpdateSpec(listings, listingId, payload, intent, user, owners, now, updateFails)
             == (Redirected(DASHBOARD_LISTINGS), listings[listingId := row]);
    }
  }

  /** Another seller's listing, or a missing one, reads as "Listing not found". */
  lemma ForeignListingNotFound(listings: map<ListingId, Listing>, listingId: ListingId, data: ListingData,
                               intent: Intent, user: UserId, owners: map<UserId, ProfileId>,
                               now: Timestamp, updateFails: bool)
    requires user in owners
    requires listingId !in listings || listings[listingId].profileId != owners[user]
    ensures UpdateSpec(listings, listingId, Ok(data), intent, Some(user), owners, now, updateFails)
            == (Failed(LISTING_NOT_FOUND), listings)
  {
  }

  /** A successful create added exactly one row, owned by the caller, with the create status rule;
      a failed one wrote nothing. */
  lemma CreateAddsOwnedRow(listings: map<ListingId, Listing>, payload: Result<ListingData>, intent: Intent,
                           user: Option<UserId>, owners: map<UserId, ProfileId>,
                           now: Timestamp, newId: ListingId, insertFails: bool)
    ensures var (outcome, after) := CreateSpec(listings, payload, intent, user, owners, now, newId, insertFails);
      && (outcome.Redirected? <==> payload.Ok? && user.Some? && user.value in owners && !insertFails && newId !in listings)
      && (outcome.Redirected? ==>
            && after.Keys == listings.Keys + {newId}
            && (forall id | id in listings :: after[id] == listings[id])
            && after[newId].profileId == owners[user.value]
            && after[newId].data == payload.value
            && (after[newId].status == Pending <==> intent == PendingIntent)
            && (after[newId].submittedAt.Some? <==> intent == PendingIntent)
            && (after[newId].submittedAt.Some? ==> after[newId].submittedAt == Some(now)))
      && (outcome.Failed? ==> after == listings)
  {
    var current := CurrentProfileId(user, owners);
    if payload.Ok? && current.Ok? && !insertFails && newId !in listings {
      var row := NewRow(payload.value, current.value, intent, now);
      assert CreateSpec(listings, payload, intent, user, owners, now, newId, insertFails)
             == (Redirected(DASHBOARD_LISTINGS), listings[newId := row]);
    }
  }

  /** The listings table. */
  class ListingsTable {
    var listings: map<ListingId, Listing>

    constructor(rows: map<ListingId, Listing>)
      ensures listings == rows
    {
      listings := rows;
    }

    /** `createListing(input, intent)`. */
    method CreateListing(input: ListingFormInput, intent: Intent, user: Option<UserId>,
                         owners: map<UserId, ProfileId>, isUrl: string -> bool, now: Timestamp,
                         newId: ListingId, insertFails: bool) returns (outcome: ActionOutcome)
      modifies this
      ensures (outcome, listings) == CreateSpec(old(listings), ToPayload(input, isUrl), intent, user, owners, now, newId, insertFails)
    {
      var payload := ToPayload(input, isUrl);
      if payload.Err? {
        return Failed(payload.error);
      }
      var current := CurrentProfileId(user, owners);
      if current.Err? {
        return Failed(current.error);
      }
      var (status, submittedAt) := CreateStatus(intent, now);
      if insertFails || newId in listings {
        return Failed(CREATE_FAILED);
      }
      listings := listings[newId := Listing(current.value, payload.value, status, submittedAt)];
      return Redirected(DASHBOARD_LISTINGS);
    }

    /** `updateListing(listingId, input, intent)`. */
    method UpdateListing(listingId: ListingId, input: ListingFormInput, intent: Intent, user: Option<UserId>,
                         owners: map<UserId, ProfileId>, isUrl: string -> bool, now: Timestamp,
                         updateFails: bool) returns (outcome: ActionOutcome)
      modifies this
      ensures (outcome, listings) == UpdateSpec(old(listings), listingId, ToPayload(input, isUrl), intent, user, owners, now, updateFails)
    {
      var payload := ToPayload(input, isUrl);
      if payload.Err? {
        return Failed(payload.error);
      }
      if user.None? {
        return Failed(UNAUTHORIZED);
      }
      if user.value !in owners {
        return Failed(PROFILE_NOT_FOUND);
      }
      var profileId := owners[user.value];
      if listingId !in listings || listings[listingId].profileId != profileId {
        return Failed(LISTING_NOT_FOUND);
      }
      var row := listings[listingId];
      var (status, submittedAt) := UpdateStatus(intent, row.status, now);
      if updateFails {
        return Failed(UPDATE_FAILED);
      }
      listings := listings[listingId := row.(data := payload.value, status := status, submittedAt := submittedAt)];
      return Redirected(DASHBOARD_LISTINGS);
    }
  }
}
