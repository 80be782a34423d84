# psy-market core rules in Dafny

This project models the rule sets that psy-market, a marketplace front-end over a hosted
database and auth service, writes for itself. It also proves properties of those rules.

- **Input validators**: the handle, profile, onboarding, listing, message, rejection and event schemas. Each schema is a full, ordered list of issues, because callers show `issues[0]`. Each has a predicate that states the rule.
- **Listing server actions**:
  - `parseCsv` and `toPayload`.
  - The status and `submitted_at` rules.
  - `createListing` and `updateListing` over a listings table held in a class. Lookups are scoped to the owner.
- **Onboarding server actions**: `checkHandleAvailability` and `completeOnboarding`, over profile and reserved-handle tables with an explicit clock.
- **Route guard**: the middleware's decision between pass, the sign-in redirect, the onboarding redirect and the admin gate.
- **Onboarding form**: the handle sanitiser, the availability indicator, the submit gate and the initial values.
- **Auth modal**: the login and signup state machine and the signup pre-checks.
- **Listing form**: the initial field texts, the heading, and the `runAction` dispatch.
- **Site header**: `getInitials`.

Each module lists the inputs that stand for things the code does not compute itself:
- the signed-in user;
- the database's answers and errors;
- the current time;
- URL and date parsing, passed as the parameters `isUrl` and `parseDate`.

Server-side handles are compared exactly as given, as `src/lib/actions/onboarding.ts` does.
Only the browser form lowercases handles, in its sanitiser.

Files: `Wrappers.dfy` (Option, Result), `JsString.dfy` (the JavaScript string operations used),
`Validators.dfy`, `Listings.dfy`, `Onboarding.dfy`, `Middleware.dfy`, `OnboardingClient.dfy`,
`LoginModalProvider.dfy`, `ListingFormClient.dfy`, `SiteHeader.dfy`.

## Model

| member | source | states |
|---|---|---|
| JsString.Trim | src/lib/actions/listings.ts:22 | `trim` leaves no whitespace at either end, never lengthens, and adds no characters |
| JsString.TrimIsSlice | src/lib/actions/listings.ts:22 | `trim` returns a slice of the input with only whitespace before and after it; with the trimmed shape this fixes the result |
| JsString.TrimOfTrimmed | src/lib/actions/listings.ts:22 | trimming an already-trimmed string changes nothing |
| JsString.TrimAfterSpace | src/lib/actions/listings.ts:22 | trimming `" " + x` gives back a trimmed `x` |
| JsString.Split | src/lib/actions/listings.ts:21 | `split` yields at least one piece, none holding the separator, and joining the pieces with the separator gives back the input |
| JsString.SplitOfJoin | src/lib/actions/listings.ts:21 | splitting undoes joining with the same separator when no item holds it |
| JsString.SplitHead | src/middleware.ts:25 | the first piece is `w` iff the string is `w` or starts with `w` followed by the separator |
| JsString.JoinCommaSpace | src/components/listings/listing-form.tsx:40-44 | joining with `", "` equals joining with `","` after putting a space in front of every item but the first |
| JsString.CaseMappingKeepsShape | src/lib/actions/listings.ts:29-32 | lowercasing and uppercasing keep a string trimmed and comma-free |
| JsString.Lower | src/lib/actions/listings.ts:29 | `toLowerCase` maps the ASCII capitals to small letters, leaves every other character, and keeps the length |
| JsString.Upper | src/lib/actions/listings.ts:31 | `toUpperCase` maps the ASCII small letters to capitals, leaves every other character, and keeps the length |
| Wrappers.First | src/lib/actions/listings.ts:47 | `issues[0]` exists iff the issue list is non-empty |
| Validators.EachIssues | src/lib/validators.ts:75 | an array schema has no element issues iff every element passes |
| Validators.HandleIssues | src/lib/validators.ts:4-11 | a handle has no issues iff it has 3 to 30 characters, all from `[A-Za-z0-9_]`; at most two issues are reported |
| Validators.HandleError | src/lib/validators.ts:4-11 | the first message is absent iff the handle is valid; otherwise it is the too-short message, else the too-long message, else the charset message |
| Validators.ShortBadHandleReportsLength | src/lib/validators.ts:6-10 | "a!" reports too-short then charset, so its first message is the length one; "" is too short |
| Validators.ProfileIssues | src/lib/validators.ts:14-38 | a profile passes iff the handle, display name, bio, location and social-link rules all hold; handle problems are reported first, then a missing display name |
| Validators.OnboardingIssues | src/lib/validators.ts:41-52 | the onboarding schema passes iff handle, display name and location pass; its issues are those of the profile schema on the same three fields |
| Validators.ParseCondition | src/lib/validators.ts:69 | a condition is accepted iff it is one of the five names, and it maps back to its name |
| Validators.ParseCategory | src/lib/validators.ts:78 | a category is accepted iff it is one of the five names, and it maps back to its name |
| Validators.ListingIssues | src/lib/validators.ts:55-91 | a listing passes iff the title is 5–100 characters, the description 20–2000, the price a whole number in [50, 5 000 000], the condition and category valid, the size 1–20, there are 1–5 URL images, at most 10 tags each 1–30 characters from `[A-Za-z0-9-]`, and at least one shipping entry; a bad title is reported first, then a bad description |
| Validators.ConcatFirst | src/lib/validators.ts:55-91 | the first issue of the fields' issue lists run one after another is the first issue of the first field that has one |
| Validators.ListingFirstIssue | src/lib/validators.ts:55-91 | the first listing issue, the one shown to the user, is the first issue of the first failing field in the schema's declaration order: title, description, price, condition, size, images, category, tags, shipping |
| Validators.PriceRule | src/lib/validators.ts:64-68 | a fraction reports the whole-number message first; 49 and 5 000 001 report the bound messages |
| Validators.TagCountBeforeTagContents | src/lib/validators.ts:79-87 | more than 10 tags reports the count message before anything about the tags themselves |
| Validators.MessageIssues | src/lib/validators.ts:94-103 | a message passes iff the content is 1–2000 characters and there are at most 3 image URLs; empty content reports "Message cannot be empty" first |
| Validators.RejectionIssues | src/lib/validators.ts:106-111 | rejection notes pass iff they are 10–1000 characters, with exactly the short or long message otherwise |
| Validators.EventFieldIssues | src/lib/validators.ts:114-151 | the event fields pass iff the name is 3–100 characters, the slug is from `[a-z0-9-]`, both dates parse, the country is 2 characters, the venue is at most 200 characters, and the links are absent, empty or URLs |
| Validators.EventIssues | src/lib/validators.ts:114-155 | an event passes iff every field passes and the end date is not before the start date; with valid fields and misordered dates the only issue is the end-date message |
| JsString.DropEmpty | src/lib/actions/listings.ts:23 | `filter(Boolean)` leaves no empty string, keeps every non-empty string as often as it occurs, and changes nothing when no item is empty |
| JsString.DropEmptyOne | src/lib/actions/listings.ts:23 | a single string is kept iff it is non-empty |
| JsString.DropEmptyAppend | src/lib/actions/listings.ts:23 | the filter of a concatenation is the concatenation of the filters; with the single-string rule, the kept items stay in their order |
| Listings.ParseCsv | src/lib/actions/listings.ts:19-24 | every item of `parseCsv` is non-empty, trimmed and comma-free |
| Listings.ParseCsvOfPieces | src/lib/actions/listings.ts:19-24 | for any text, written as comma-free pieces joined by commas, `parseCsv` gives those pieces trimmed, with the blank ones dropped, in their order |
| Listings.ParseCsvOfEmpty | src/lib/actions/listings.ts:19-24 | `parseCsv("")` is empty |
| Listings.ParseCsvOfJoin | src/lib/actions/listings.ts:19-24 | joining with `", "` and parsing gives back any list whose items are non-empty, trimmed and comma-free |
| Listings.ParseCsvStable | src/lib/actions/listings.ts:19-24 | parsing, joining and parsing again gives the same list |
| Listings.ToPayload | src/lib/actions/listings.ts:26-51 | the payload is an error iff the listing schema fails, and the error is the first issue; otherwise it holds the form's fields with the images parsed, the tags lowercased and the shipping codes uppercased |
| Listings.PayloadIsClean | src/lib/actions/listings.ts:26-51 | a successful payload has valid tags with no capitals, shipping codes with no small letters, a price within the schema's bounds and one to five images |
| Listings.CreateStatus | src/lib/actions/listings.ts:91-92 | a new listing is pending and stamped iff the intent is "pending", otherwise a draft with no submission time |
| Listings.UpdateStatus | src/lib/actions/listings.ts:148-150 | an edit moves the listing to pending, stamped now, iff the intent is "submit" or it was rejected; otherwise the status stays and the submission time is cleared |
| Listings.CurrentProfileId | src/lib/actions/listings.ts:53-74 | the caller's profile id is found iff there is a user with a profile; otherwise the result is "Unauthorized" or "Profile not found" |
| Listings.InvalidPayloadWritesNothing | src/lib/actions/listings.ts:80-83 | an invalid payload fails both actions with its first issue, before any lookup, and writes nothing |
| Listings.UpdateIsOwnerScoped | src/lib/actions/listings.ts:108-167 | an update succeeds iff the payload is valid, the caller has a profile, the listing exists and is theirs, and the write succeeds. Only that row changes, its owner stays and it gets the new data. It is pending and stamped now iff the intent is "submit" or it was rejected; otherwise its status stays and it has no submission time. A failure writes nothing |
| Listings.ForeignListingNotFound | src/lib/actions/listings.ts:137-146 | a missing listing, or another seller's listing, reads as "Listing not found" and nothing changes |
| Listings.CreateAddsOwnedRow | src/lib/actions/listings.ts:76-106 | a create succeeds iff the payload is valid, the caller has a profile and the insert succeeds; it adds exactly one row, owned by the caller, with the payload's data; it is pending iff the intent is "pending", and then stamped now, otherwise it has no submission time; a failure writes nothing |
| Listings.ListingsTable.CreateListing | src/lib/actions/listings.ts:76-106 | the outcome and the new table are those of the create rule applied to the old table |
| Listings.ListingsTable.UpdateListing | src/lib/actions/listings.ts:108-167 | the outcome and the new table are those of the update rule applied to the old table |
| Onboarding.CheckAvailability | src/lib/actions/onboarding.ts:8-40 | a handle is available iff it is well formed, no profile holds exactly it, and no unconsumed reservation of it expires after now. The checks run in the order format, then profile, then reservation, each with its own message |
| Onboarding.AvailabilityPersistsOverTime | src/lib/actions/onboarding.ts:27-33 | a handle available now stays available later while the tables are unchanged |
| Onboarding.InactiveReservationIgnored | src/lib/actions/onboarding.ts:27-39 | expired or consumed reservations do not block a free, well-formed handle |
| Onboarding.HandlesAreCaseSensitive | src/lib/actions/onboarding.ts:16-24 | a profile holding "Alice" makes "Alice" taken but leaves "alice" available |
| Onboarding.UpdateErrorMessage | src/lib/actions/onboarding.ts:91-96 | the unique-violation code 23505 maps to "Handle already taken", and every other code maps to the retry message |
| Onboarding.Claimed | src/lib/actions/onboarding.ts:82-89 | the claimed profile keeps its id and takes the sent handle and display name; an absent or empty location is stored as null |
| Onboarding.OnboardingChangesOnlyCaller | src/lib/actions/onboarding.ts:42-99 | onboarding redirects iff there is a user, the handle is available, the user has a profile and the update succeeds. Then only the caller's profile changes, to the claimed one; every failure writes nothing. A malformed handle reports its first format message, and a taken one "Handle already taken" |
| Onboarding.ClaimedHandleIsTaken | src/lib/actions/onboarding.ts:82-98 | right after a successful claim, the availability check reports the handle taken |
| Onboarding.OnboardingKeepsHandlesExclusive | src/lib/actions/onboarding.ts:64-89 | a claim keeps handles unique, and never gives out a handle that is actively reserved |
| Onboarding.ReservationsRespectedLater | src/lib/actions/onboarding.ts:31-32 | if no profile holds an actively reserved handle now, none does later either |
| Onboarding.HandleRegistry.CheckHandleAvailability | src/lib/actions/onboarding.ts:8-40 | availability is read from the current tables |
| Onboarding.HandleRegistry.CompleteOnboarding | src/lib/actions/onboarding.ts:42-99 | the outcome and the new profiles table follow the onboarding rule; reservations are never written; unique handles and respected reservations are preserved |
| Middleware.Decide | src/middleware.ts:17-69 | public and `/auth/` paths pass. A sign-in redirect carrying path and query happens iff there is no user on any other path. The onboarding redirect needs a placeholder handle outside `/onboarding`. The home redirect needs an admin path and a role that is not privileged |
| Middleware.FirstSegment | src/middleware.ts:24-26 | the first path segment holds no `/` |
| Middleware.RouteBySegment | src/middleware.ts:25 | a path is the route `/w` or lies below it iff its first segment is `w` |
| Middleware.PublicIffFirstSegment | src/middleware.ts:4-26 | a path is public iff it starts with `/` and `/` followed by its first segment is a listed public route |
| Middleware.BrowseSubpathIsPublic | src/middleware.ts:24-26 | "/browse/x" is public |
| Middleware.BrowsingIsNotPublic | src/middleware.ts:24-26 | "/browsing" is not public |
| Middleware.AdministratorIsAdminPath | src/middleware.ts:56 | admin matching is a plain prefix, so "/administrator" is an admin path |
| Middleware.PublicPassesForEveryone | src/middleware.ts:27-29 | a path whose first segment names a public route passes whatever the user, handle or role |
| Middleware.OnboardingBeforeAdmin | src/middleware.ts:41-66 | a placeholder handle is sent to onboarding from any guarded path outside `/onboarding`, whatever the role |
| Middleware.SignedInAccess | src/middleware.ts:55-68 | a finished account passes a guarded path iff the path is not an admin path or its role is admin or super admin, and is otherwise sent home |
| Middleware.AdminIsNotPublic | src/middleware.ts:4-29 | "/admin" is neither public, nor under `/auth/`, nor under `/onboarding` |
| Middleware.AdminDecisionExamples | src/middleware.ts:32-66 | on "/admin": no user gets the sign-in redirect with the query, an admin with a placeholder handle goes to onboarding, a plain user goes home, and an admin passes |
| OnboardingClient.Keep | src/components/auth/onboarding-form.tsx:133 | the kept characters are all in `[a-z0-9_]` and come from the input |
| OnboardingClient.KeepAppend | src/components/auth/onboarding-form.tsx:133 | filtering distributes over concatenation |
| OnboardingClient.Sanitize | src/components/auth/onboarding-form.tsx:133 | the sanitised handle holds only `[a-z0-9_]` and is never longer than the input |
| OnboardingClient.SanitizeIdempotent | src/components/auth/onboarding-form.tsx:133 | sanitising twice is sanitising once |
| OnboardingClient.SanitizeKeepsOrder | src/components/auth/onboarding-form.tsx:133 | sanitising works character by character and keeps the order; a character is kept, lowercased, iff its lowercase form is in `[a-z0-9_]` |
| OnboardingClient.SanitizedHandleIsValid | src/components/auth/onboarding-form.tsx:133 | every sanitised handle of 3 to 30 characters passes the handle schema |
| OnboardingClient.EffectStatus | src/components/auth/onboarding-form.tsx:42-59 | a handle shorter than 3 characters resets the indicator. A malformed one shows its first schema message, with no server call. The server is asked iff the handle is at least 3 characters and valid |
| OnboardingClient.SanitizedHandleStatus | src/components/auth/onboarding-form.tsx:42-59 | a sanitised handle of 3 to 30 characters is always sent to the server; a longer one shows the too-long message |
| OnboardingClient.ResultStatus | src/components/auth/onboarding-form.tsx:61-67 | after the server answers, checking stops and availability is the server's value. The error is cleared iff the handle is available; otherwise it is the server's message, or the fallback when there is none |
| OnboardingClient.IndicatorShowsServerReason | src/components/auth/onboarding-form.tsx:61-67 | with the modelled server, every refusal carries its reason, and the indicator shows it |
| OnboardingClient.SubmitGate | src/components/auth/onboarding-form.tsx:70-82 | submission passes the gate iff the form is valid. An unavailable handle reports "Please choose an available handle" before a blank display name reports "Display name is required" |
| OnboardingClient.InitialDisplayName | src/components/auth/onboarding-form.tsx:27-29 | the initial display name is empty iff the current name is "New User" or empty; otherwise it is the current name |
| OnboardingClient.LocationToSend | src/components/auth/onboarding-form.tsx:88 | a blank location is sent as absent; any other location is sent trimmed |
| OnboardingClient.SubmittedLocationStored | src/components/auth/onboarding-form.tsx:88 | after a successful claim, a blank typed location is stored as null and any other is stored trimmed |
| OnboardingClient.OnboardingForm.constructor | src/components/auth/onboarding-form.tsx:26-36 | the form starts empty, with the initial display name, an idle indicator and no error |
| OnboardingClient.OnboardingForm.EditHandle | src/components/auth/onboarding-form.tsx:132-134 | the handle field holds the sanitised input, and nothing else changes |
| OnboardingClient.OnboardingForm.EditDisplayName | src/components/auth/onboarding-form.tsx:173 | only the display name changes |
| OnboardingClient.OnboardingForm.EditLocation | src/components/auth/onboarding-form.tsx:193 | only the location changes |
| OnboardingClient.OnboardingForm.HandleEffect | src/components/auth/onboarding-form.tsx:42-68 | the indicator becomes the effect's status, and the server is asked iff it is checking |
| OnboardingClient.OnboardingForm.AvailabilityArrived | src/components/auth/onboarding-form.tsx:61-67 | the indicator becomes the server-result status |
| OnboardingClient.OnboardingForm.Submit | src/components/auth/onboarding-form.tsx:70-89 | the form error is the gate's verdict. Data is sent iff the form is valid: the handle, the trimmed display name, and the location to send |
| OnboardingClient.OnboardingForm.SubmitSettled | src/components/auth/onboarding-form.tsx:91-93 | a non-empty error from the server action is shown, and nothing else changes |
| LoginModalProvider.SignupPrecheck | src/components/auth/login-modal-provider.tsx:75-82 | the signup pre-check passes iff the passwords match and have at least 6 characters; a mismatch is reported before the length |
| LoginModalProvider.MismatchReportedBeforeLength | src/components/auth/login-modal-provider.tsx:75-82 | ("a", "") reports a mismatch, ("abc", "abc") reports the length, and ("secret", "secret") passes |
| LoginModalProvider.LoginModal.constructor | src/components/auth/login-modal-provider.tsx:32-37 | the modal starts closed, with an empty form |
| LoginModalProvider.LoginModal.ResetForm | src/components/auth/login-modal-provider.tsx:40-46 | the fields are emptied, the error is cleared and loading is off; the mode stays |
| LoginModalProvider.LoginModal.OpenLogin | src/components/auth/login-modal-provider.tsx:48 | the form is reset and the mode is login |
| LoginModalProvider.LoginModal.OpenSignup | src/components/auth/login-modal-provider.tsx:49 | the form is reset and the mode is signup |
| LoginModalProvider.LoginModal.Close | src/components/auth/login-modal-provider.tsx:50 | the mode is closed and the form is reset |
| LoginModalProvider.LoginModal.SetEmail | src/components/auth/login-modal-provider.tsx:154 | only the email changes |
| LoginModalProvider.LoginModal.SetPassword | src/components/auth/login-modal-provider.tsx:175 | only the password changes |
| LoginModalProvider.LoginModal.SetConfirmPassword | src/components/auth/login-modal-provider.tsx:269 | only the confirmation changes |
| LoginModalProvider.LoginModal.SubmitLogin | src/components/auth/login-modal-provider.tsx:52-58 | the error is cleared, loading is on, and the email and password are sent |
| LoginModalProvider.LoginModal.LoginSettled | src/components/auth/login-modal-provider.tsx:60-68 | a failed login shows the message, stops loading and keeps the mode and fields; a successful one closes the modal and resets the form |
| LoginModalProvider.LoginModal.SubmitSignup | src/components/auth/login-modal-provider.tsx:71-93 | the error is the pre-check's verdict. Credentials are sent, with loading on, iff the pre-check passes; otherwise loading is untouched |
| LoginModalProvider.LoginModal.SignupSettled | src/components/auth/login-modal-provider.tsx:95-103 | a failed signup shows the message and keeps the mode; a successful one stops loading and shows the check-your-email dialog |
| LoginModalProvider.LoginModal.StartGoogleSignup | src/components/auth/login-modal-provider.tsx:105-113 | only the error is cleared |
| LoginModalProvider.LoginModal.GoogleSignupFailed | src/components/auth/login-modal-provider.tsx:114 | only the error changes, to the provider's message |
| ListingFormClient.TitleText | src/components/listings/listing-form.tsx:48 | the heading is "Create Listing" iff the mode is create, and "Edit Listing" iff it is edit |
| ListingFormClient.DecimalDigitsValue | src/components/listings/listing-form.tsx:31 | the decimal numeral of a number reads back as that number |
| ListingFormClient.FormatCentsReadsBack | src/components/listings/listing-form.tsx:31 | the euro text of a non-negative price has the shape `digits.dd`, and reads back as the same number of cents |
| ListingFormClient.InitialPriceText | src/components/listings/listing-form.tsx:30-32 | the initial euro text is empty iff there is no price or it is 0; otherwise it is the formatted amount |
| ListingFormClient.InitialPayload | src/components/listings/listing-form.tsx:28-44 | given title, description and size are used as they are, and absent ones start as ""; the price text is the initial price text; condition and category are the given ones, defaulting to "good" and "clothing"; the list fields are the lists joined with `", "`, with shipping defaulting to WORLDWIDE |
| ListingFormClient.NewFormDefaults | src/components/listings/listing-form.tsx:28-44 | a new form holds exactly the defaults, and its shipping text reads back as `["WORLDWIDE"]` |
| ListingFormClient.StoredListsAreCsvSafe | src/lib/actions/listings.ts:28-32 | the stored images, tags and shipping codes can each be joined and parsed back |
| ListingFormClient.EditFormRoundTrip | src/components/listings/listing-form.tsx:40-44 | opening a saved listing and saving it unchanged sends the same listing: the joined lists parse back to the stored lists, and the payload equals the original one |
| ListingFormClient.Dispatch | src/components/listings/listing-form.tsx:53-76 | create mode calls create. Edit mode calls update iff there is a non-empty listing id, and otherwise makes no call. The payload and intent pass through unchanged |
| ListingFormClient.ListingForm.constructor | src/components/listings/listing-form.tsx:27-45 | the form's fields are the initial payload, with no error |
| ListingFormClient.ListingForm.RunAction | src/components/listings/listing-form.tsx:50-78 | the call is the dispatch of the current fields. The error is cleared, or set to "Missing listing id" when no call is made. The fields stay |
| ListingFormClient.ListingForm.ActionSettled | src/components/listings/listing-form.tsx:67 | a non-empty error from the action is shown, and the fields stay |
| SiteHeader.GetInitials | src/components/layout/site-header.tsx:28-36 | no name or an empty name gives "?"; the result has at most 2 characters and no lowercase letter |
| SiteHeader.FirstLettersOfNonEmptyWords | src/components/layout/site-header.tsx:32-33 | the joined first letters are exactly the first characters of the non-empty words, in order |
| SiteHeader.InitialsOfWords | src/components/layout/site-header.tsx:28-36 | for a non-empty name the initials are the uppercased first characters of the first two non-empty space-separated words |
| SiteHeader.SplitOfSeparatorsOnly | src/components/layout/site-header.tsx:31 | splitting a run of spaces gives only empty pieces |
| SiteHeader.SpacesOnlyName | src/components/layout/site-header.tsx:29-35 | a name made only of spaces gives "" rather than "?" |

## Left out

- Database, auth and router calls are not modelled. These are the Supabase clients, `auth.getUser`, `signInWithPassword`, `signUp`, `signInWithOAuth`, `redirect` and `router.refresh`. They become inputs: the signed-in user, the owner and profile tables, the database error flags or codes, and `AuthOk`/`AuthError` answers. A `.single()` lookup is treated as "found when a matching row exists". A query that matches two rows, which `.single()` reports as not found, is not modelled.
- Listings.ToPayload: the price comes in as whole cents. The conversion `Math.round(Number(price_eur) * 100)` is floating point and is not modelled. Neither are the NaN it yields for non-numeric text nor the `Infinity` it yields for text such as "Infinity" or "1e400"; `Infinity` passes `z.number()` and fails `.int()` with "Price must be a whole number".
- ListingFormClient.FormatCents: `(price / 100).toFixed(2)` is modelled as exact decimal formatting of whole cents. Two limits of the real computation are not modelled. First, `price / 100` is a double: from roughly 4·10^15 cents upward it is no longer within half a cent of the exact amount, and the text can differ from the exact one. Second, `toFixed` switches to exponent form at 10^21 euros, which is 10^23 cents. Stored prices are at most 5,000,000 cents under the listing schema, far below both limits.
- `z.string().url()` and `Date.parse` are library behaviour. They are the parameters `isUrl` and `parseDate`. The library's default messages for `.url()` and `z.enum` are constants.
- JsString.Lower: `toLowerCase` is modelled for ASCII letters only. Unicode lowercasing, such as the Kelvin sign becoming `k`, is not modelled.
- JsString.Upper: `toUpperCase` is modelled for ASCII letters only. Unicode uppercasing is not modelled, including the cases that lengthen a string (`ß` becomes `SS`, `ŉ` becomes `ʼN`).
- OnboardingClient.Sanitize: the lowercasing inside it is ASCII-only, as for `JsString.Lower`.
- SiteHeader.GetInitials: the uppercasing is ASCII-only. In JavaScript, `w[0]` of a word that starts outside the Basic Multilingual Plane is a lone high surrogate. A character here is a Unicode scalar value and cannot be a lone surrogate, so the model takes the whole character.
- String lengths count characters. JavaScript counts UTF-16 code units, so the two differ outside the Basic Multilingual Plane.
- Middleware.Decide: the login and onboarding redirects keep the request's other query parameters. The model records only `next`. It does not cover the `config.matcher` regular expression, which is framework routing configuration.
- The onboarding form's debounce timer, `useTransition`, the `isPending` flag and answers arriving out of order are timing and concurrency, and are not modelled. So are concurrent claims of one handle, which the database's unique constraint resolves. Only the `23505` message mapping is modelled.
- The handle input's `maxLength={30}` is enforced by the browser. `OnboardingForm.EditHandle` accepts any input.
- LoginModalProvider.LoginModal.SubmitSignup: the signup inputs' `required` and `minLength={6}` (src/components/auth/login-modal-provider.tsx:248-250, 265-267) are enforced by the browser. That gating is not modelled, so `SubmitSignup` accepts any text. An input such as ("a", "") reaches the pre-check here but not in a browser.
- The listing form's per-field `onChange` setters only assign their own field, and are not modelled.
- The login and signup handlers are split at the auth call into a submit method and a settled method. A reply arriving after the user switched dialogs is covered only by the settled methods' general contracts.
- `completeOnboarding` throwing "Unauthorized" is modelled as the outcome `Thrown`. The form does not catch it.
- These are not part of this model:
  - `src/lib/data/listings.ts`, whose filtering and ordering run in the database;
  - the presentational components and pages;
  - `src/types/database.ts` and `src/lib/constants.ts`, apart from the enumerations borrowed as datatypes.
