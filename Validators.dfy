/**
 * The input schemas of the marketplace (handles, profiles, onboarding, listings,
 * messages, rejections, events).
 *
 * Each schema is modelled the way the validation library evaluates it: every field in
 * declaration order, every check of a field in declaration order, all failures collected.
 * `...Issues` is that ordered list of messages, `...Valid` states the rule directly,
 * and callers show only the first issue.
 * Checking whether a string is a URL and parsing a date are library behaviour: they are
 * parameters `isUrl` and `parseDate` (a date is its timestamp, `None` when unparsable).
 */
module Validators {
  import opened Wrappers
  import opened JsString

  // ---------------------------------------------------------------- checks

  /** `.min(n, msg)` on a string or an array length. */
  function MinLen(len: nat, n: nat, msg: string): seq<string> {
    if len < n then [msg] else []
  }

  /** `.max(n, msg)` on a string or an array length. */
  function MaxLen(len: nat, n: nat, msg: string): seq<string> {
    if len > n then [msg] else []
  }

  /** `/^[class]+$/`: non-empty and every character in the class. */
  predicate Matches(s: string, inClass: char -> bool) {
    |s| > 0 && forall i | 0 <= i < |s| :: inClass(s[i])
  }

  /** `.regex(/^[class]+$/, msg)`. */
  function Regex(s: string, inClass: char -> bool, msg: string): seq<string> {
    if Matches(s, inClass) then [] else [msg]
  }

  /** `.optional().or(z.literal(""))` around a string schema: absent and `""` always pass. */
  function OptionalOrEmpty(s: Option<string>, inner: string -> seq<string>): seq<string> {
    if s.None? || s.value == "" then [] else inner(s.value)
  }

  /** The issues of every element of an array, in index order. */
  function EachIssues(xs: seq<string>, item: string -> seq<string>): (r: seq<string>)
    ensures r == [] <==> forall i | 0 <= i < |xs| :: item(xs[i]) == []
  {
    if xs == [] then [] else item(xs[0]) + EachIssues(xs[1..], item)
  }

  /** A concatenation of three issue lists is empty iff every part is. */
  lemma ConcatEmpty3(a: seq<string>, b: seq<string>, c: seq<string>)
    ensures a + b + c == [] <==> a == [] && b == [] && c == []
  {
    assert |a + b + c| == |a| + |b| + |c|;
  }

  /** A concatenation of issue lists is empty iff every part is. */
  lemma ConcatEmpty6(a: seq<string>, b: seq<string>, c: seq<string>, d: seq<string>, e: seq<string>, f: seq<string>)
    ensures a + b + c + d + e + f == [] <==> a == [] && b == [] && c == [] && d == [] && e == [] && f == []
  {
    assert |a + b + c + d + e + f| == |a| + |b| + |c| + |d| + |e| + |f|;
  }

  /** The issue lists of several fields, one after the other. */
  function Concat(lists: seq<seq<string>>): seq<string> {
    if lists == [] then [] else lists[0] + Concat(lists[1..])
  }

  /** A concatenation of issue lists is empty iff every list is. */
  lemma {:induction false} ConcatEmpty(lists: seq<seq<string>>)
    ensures Concat(lists) == [] <==> forall j | 0 <= j < |lists| :: lists[j] == []
  {
    if lists != [] {
      ConcatEmpty(lists[1..]);
      assert forall j | 1 <= j < |lists| :: lists[j] == lists[1..][j - 1];
    }
  }

  /** The first issue of a concatenation comes from the first list that has one. */
  lemma {:induction false} ConcatFirst(lists: seq<seq<string>>, k: nat)
    requires k < |lists|
    requires forall j | 0 <= j < k :: lists[j] == []
    requires lists[k] != []
    ensures Concat(lists) != [] && Concat(lists)[0] == lists[k][0]
  {
    if k > 0 {
      ConcatFirst(lists[1..], k - 1);
    }
  }

  // ---------------------------------------------------------------- handle

  const HANDLE_TOO_SHORT := "Handle must be at least 3 characters"
  const HANDLE_TOO_LONG := "Handle must be at most 30 characters"
  const HANDLE_CHARSET := "Handle can only contain letters, numbers, and underscores"

  predicate IsHandleChar(c: char) {
    'a' <= c <= 'z' || 'A' <= c <= 'Z' || '0' <= c <= '9' || c == '_'
  }

  /** A well-formed handle: 3 to 30 characters from `[A-Za-z0-9_]`. */
  predicate ValidHandle(h: string) {
    3 <= |h| <= 30 && forall i | 0 <= i < |h| :: IsHandleChar(h[i])
  }

  /** `handleSchema`: length checks first, then the character class. */
  function HandleIssues(h: string): (r: seq<string>)
    ensures r == [] <==> ValidHandle(h)
    ensures |r| <= 2
  {
    MinLen(|h|, 3, HANDLE_TOO_SHORT) + MaxLen(|h|, 30, HANDLE_TOO_LONG) + Regex(h, IsHandleChar, HANDLE_CHARSET)
  }

  /** The message a caller of `handleSchema.safeParse` shows. */
  function HandleError(h: string): (r: Option<string>)
    ensures r.None? <==> ValidHandle(h)
    ensures |h| < 3 ==> r == Some(HANDLE_TOO_SHORT)
    ensures |h| > 30 ==> r == Some(HANDLE_TOO_LONG)
    ensures 3 <= |h| <= 30 && !ValidHandle(h) ==> r == Some(HANDLE_CHARSET)
  {
    First(HandleIssues(h))
  }

  /** "a!" is both too short and outside the class; the length message is reported. */
  lemma ShortBadHandleReportsLength()
    ensures HandleIssues("a!") == [HANDLE_TOO_SHORT, HANDLE_CHARSET]
    ensures HandleError("a!") == Some(HANDLE_TOO_SHORT)
    ensures HandleError("") == Some(HANDLE_TOO_SHORT)
  {
    assert !IsHandleChar("a!"[1]);
  }

  // ---------------------------------------------------------------- profile and onboarding

  const DISPLAY_NAME_REQUIRED := "Display name is required"
  const DISPLAY_NAME_TOO_LONG := "Display name must be at most 100 characters"
  const BIO_TOO_LONG := "Bio must be at most 500 characters"
  const LOCATION_TOO_LONG := "Location must be at most 100 characters"
  const MUST_BE_URL := "Must be a valid URL"

  datatype SocialLinks = SocialLinks(instagram: Option<string>, facebook: Option<string>, website: Option<string>)

  /** A profile as submitted; `isCreator` is a boolean with a default, so it never fails. */
  datatype ProfileInput = ProfileInput(
    handle: string, displayName: string, bio: Option<string>, location: Option<string>,
    socialLinks: Option<SocialLinks>, isCreator: bool)

  datatype OnboardingInput = OnboardingInput(handle: string, displayName: string, location: Option<string>)

  function DisplayNameIssues(name: string): (r: seq<string>)
    ensures r == [] <==> 1 <= |name| <= 100
    ensures name == "" ==> r[0] == DISPLAY_NAME_REQUIRED
  {
    MinLen(|name|, 1, DISPLAY_NAME_REQUIRED) + MaxLen(|name|, 100, DISPLAY_NAME_TOO_LONG)
  }

  function LocationIssues(location: Option<string>): (r: seq<string>)
    ensures r == [] <==> location.None? || |location.value| <= 100
  {
    OptionalOrEmpty(location, s => MaxLen(|s|, 100, LOCATION_TOO_LONG))
  }

  function UrlIssues(link: Option<string>, isUrl: string -> bool): seq<string> {
    OptionalOrEmpty(link, s => if isUrl(s) then [] else [MUST_BE_URL])
  }

  /** An optional link is fine when absent, empty, or a URL. */
  predicate UrlOk(link: Option<string>, isUrl: string -> bool) {
    link.None? || link.value == "" || isUrl(link.value)
  }

  function BioIssues(bio: Option<string>): (r: seq<string>)
    ensures r == [] <==> bio.None? || |bio.value| <= 500
  {
    OptionalOrEmpty(bio, s => MaxLen(|s|, 500, BIO_TOO_LONG))
  }

  function SocialLinksIssues(links: Option<SocialLinks>, isUrl: string -> bool): (r: seq<string>)
    ensures r == [] <==> links.Some? ==>
              UrlOk(links.value.instagram, isUrl) && UrlOk(links.value.facebook, isUrl) && UrlOk(links.value.website, isUrl)
  {
    if links.None? then []
    else UrlIssues(links.value.instagram, isUrl) + UrlIssues(links.value.facebook, isUrl)
         + UrlIssues(links.value.website, isUrl)
  }

  /** The profile rules: a valid handle, a display name of 1 to 100 characters, a bio of at
      most 500 and a location of at most 100 characters, and links that are URLs. */
  predicate ValidProfile(p: ProfileInput, isUrl: string -> bool) {
    && ValidHandle(p.handle)
    && 1 <= |p.displayName| <= 100
    && (p.bio.None? || |p.bio.value| <= 500)
    && (p.location.None? || |p.location.value| <= 100)
    && (p.socialLinks.Some? ==>
          UrlOk(p.socialLinks.value.instagram, isUrl) && UrlOk(p.socialLinks.value.facebook, isUrl)
          && UrlOk(p.socialLinks.value.website, isUrl))
  }

  /** `profileSchema`, fields in declaration order. */
  function ProfileIssues(p: ProfileInput, isUrl: string -> bool): (r: seq<string>)
    ensures r == [] <==> ValidProfile(p, isUrl)
    ensures !ValidHandle(p.handle) ==> r[0] == HandleIssues(p.handle)[0]
    ensures ValidHandle(p.handle) && p.displayName == "" ==> r[0] == DISPLAY_NAME_REQUIRED
  {
    var handle := HandleIssues(p.handle);
    var name := DisplayNameIssues(p.displayName);
    var bio := BioIssues(p.bio);
    var location := LocationIssues(p.location);
    var links := SocialLinksIssues(p.socialLinks, isUrl);
    var first := handle + name + bio;
    var second := location + links;
    ConcatEmpty3(handle, name, bio);
    assert second == [] <==> location == [] && links == [];
    assert handle != [] ==> (first + second)[0] == handle[0];
    assert handle == [] && name != [] ==> (first + second)[0] == name[0];
    first + second
  }

  predicate ValidOnboarding(o: OnboardingInput) {
    ValidHandle(o.handle) && 1 <= |o.displayName| <= 100 && (o.location.None? || |o.location.value| <= 100)
  }

  /** `onboardingSchema`: the handle, display name and location rules of a profile. */
  function OnboardingIssues(o: OnboardingInput): (r: seq<string>)
    ensures r == [] <==> ValidOnboarding(o)
    ensures r == ProfileIssues(ProfileInput(o.handle, o.displayName, None, o.location, None, false), s => true)
  {
    var handle := HandleIssues(o.handle);
    var name := DisplayNameIssues(o.displayName);
    var location := LocationIssues(o.location);
    ConcatEmpty3(handle, name, location);
    assert BioIssues(None) == [] && SocialLinksIssues(None, s => true) == [];
    assert (handle + name + []) + (location + []) == handle + name + location;
    handle + name + location
  }

  // ---------------------------------------------------------------- listing

  datatype Condition = New | LikeNew | Good | Worn | Vintage
  datatype Category = Clothing | Accessories | Gear | Art | Other

  /** The wire name of a condition. */
  function ConditionName(c: Condition): string {
    match c
    case New => "new"
    case LikeNew => "like_new"
    case Good => "good"
    case Worn => "worn"
    case Vintage => "vintage"
  }

  /** The wire name of a category. */
  function CategoryName(c: Category): string {
    match c
    case Clothing => "clothing"
    case Accessories => "accessories"
    case Gear => "gear"
    case Art => "art"
    case Other => "other"
  }

  /** `z.enum([...])` for conditions: only the five names are accepted. */
  function ParseCondition(s: string): (r: Option<Condition>)
    ensures r.Some? ==> ConditionName(r.value) == s
    ensures forall c: Condition :: ConditionName(c) == s ==> r == Some(c)
  {
    if s == "new" then Some(New)
    else if s == "like_new" then Some(LikeNew)
    else if s == "good" then Some(Good)
    else if s == "worn" then Some(Worn)
    else if s == "vintage" then Some(Vintage)
    else None
  }

  /** `z.enum([...])` for categories: only the five names are accepted. */
  function ParseCategory(s: string): (r: Option<Category>)
    ensures r.Some? ==> CategoryName(r.value) == s
    ensures forall c: Category :: CategoryName(c) == s ==> r == Some(c)
  {
    if s == "clothing" then Some(Clothing)
    else if s == "accessories" then Some(Accessories)
    else if s == "gear" then Some(Gear)
    else if s == "art" then Some(Art)
    else if s == "other" then Some(Other)
    else None
  }

  const TITLE_TOO_SHORT := "Title must be at least 5 characters"
  const TITLE_TOO_LONG := "Title must be at most 100 characters"
  const DESCRIPTION_TOO_SHORT := "Description must be at least 20 characters"
  const DESCRIPTION_TOO_LONG := "Description must be at most 2,000 characters"
  const PRICE_NOT_WHOLE := "Price must be a whole number (cents)"
  const PRICE_TOO_LOW := "Minimum price is €0.50"
  const PRICE_TOO_HIGH := "Maximum price is €50,000"
  const SIZE_REQUIRED := "Size is required"
  const SIZE_TOO_LONG := "Size must be at most 20 characters"
  const IMAGES_REQUIRED := "At least 1 image is required"
  const IMAGES_TOO_MANY := "Maximum 5 images"
  const TAG_TOO_LONG := "Each tag must be at most 30 characters"
  const TAG_CHARSET := "Tags can only contain letters, numbers, and hyphens"
  const TAGS_TOO_MANY := "Maximum 10 tags"
  const SHIPS_TO_REQUIRED := "At least one shipping location is required"
  /** The validation library's default message for a failed `.url()` check. */
  const INVALID_URL := "Invalid url"
  /** The validation library's default message for a value outside a `z.enum`. */
  const INVALID_CONDITION_PREFIX := "Invalid enum value. Expected 'new' | 'like_new' | 'good' | 'worn' | 'vintage', received '"
  const INVALID_CATEGORY_PREFIX := "Invalid enum value. Expected 'clothing' | 'accessories' | 'gear' | 'art' | 'other', received '"

  /** A listing as handed to `listingSchema`; the price is a JavaScript number. */
  datatype ListingInput = ListingInput(
    title: string, description: string, price: real, condition: string, size: string,
    images: seq<string>, category: string, tags: seq<string>, shipsTo: seq<string>)

  predicate IsTagChar(c: char) {
    'a' <= c <= 'z' || 'A' <= c <= 'Z' || '0' <= c <= '9' || c == '-'
  }

  predicate IsWholeNumber(x: real) {
    x.Floor as real == x
  }

  function TitleIssues(t: string): (r: seq<string>)
    ensures r == [] <==> 5 <= |t| <= 100
  {
    MinLen(|t|, 5, TITLE_TOO_SHORT) + MaxLen(|t|, 100, TITLE_TOO_LONG)
  }

  function DescriptionIssues(d: string): (r: seq<string>)
    ensures r == [] <==> 20 <= |d| <= 2000
  {
    MinLen(|d|, 20, DESCRIPTION_TOO_SHORT) + MaxLen(|d|, 2000, DESCRIPTION_TOO_LONG)
  }

  function PriceIssues(p: real): (r: seq<string>)
    ensures r == [] <==> IsWholeNumber(p) && 50.0 <= p <= 5000000.0
  {
    (if IsWholeNumber(p) then [] else [PRICE_NOT_WHOLE])
    + (if p < 50.0 then [PRICE_TOO_LOW] else [])
    + (if p > 5000000.0 then [PRICE_TOO_HIGH] else [])
  }

  function ConditionIssues(c: string): (r: seq<string>)
    ensures r == [] <==> ParseCondition(c).Some?
  {
    if ParseCondition(c).Some? then [] else [INVALID_CONDITION_PREFIX + c + "'"]
  }

  function SizeIssues(s: string): (r: seq<string>)
    ensures r == [] <==> 1 <= |s| <= 20
  {
    MinLen(|s|, 1, SIZE_REQUIRED) + MaxLen(|s|, 20, SIZE_TOO_LONG)
  }

  function ImageUrlIssues(isUrl: string -> bool): string -> seq<string> {
    s => if isUrl(s) then [] else [INVALID_URL]
  }

  /** An array's own length checks come before the checks of its elements. */
  function ImagesIssues(images: seq<string>, isUrl: string -> bool): (r: seq<string>)
    ensures r == [] <==> 1 <= |images| <= 5 && forall i | 0 <= i < |images| :: isUrl(images[i])
  {
    MinLen(|images|, 1, IMAGES_REQUIRED) + MaxLen(|images|, 5, IMAGES_TOO_MANY)
    + EachIssues(images, ImageUrlIssues(isUrl))
  }

  function CategoryIssues(c: string): (r: seq<string>)
    ensures r == [] <==> ParseCategory(c).Some?
  {
    if ParseCategory(c).Some? then [] else [INVALID_CATEGORY_PREFIX + c + "'"]
  }

  function TagIssues(tag: string): (r: seq<string>)
    ensures r == [] <==> ValidTag(tag)
  {
    MaxLen(|tag|, 30, TAG_TOO_LONG) + Regex(tag, IsTagChar, TAG_CHARSET)
  }

  function TagsIssues(tags: seq<string>): (r: seq<string>)
    ensures r == [] <==> |tags| <= 10 && forall i | 0 <= i < |tags| :: ValidTag(tags[i])
  {
    MaxLen(|tags|, 10, TAGS_TOO_MANY) + EachIssues(tags, TagIssues)
  }

  function ShipsToIssues(shipsTo: seq<string>): (r: seq<string>)
    ensures r == [] <==> |shipsTo| >= 1
  {
    MinLen(|shipsTo|, 1, SHIPS_TO_REQUIRED)
  }

  /** A tag is 1 to 30 characters from `[A-Za-z0-9-]`. */
  predicate ValidTag(tag: string) {
    1 <= |tag| <= 30 && forall i | 0 <= i < |tag| :: IsTagChar(tag[i])
  }

  /** The listing rules: title 5-100, description 20-2000, a whole price of 50 to 5,000,000
      cents, a known condition and category, size 1-20, 1 to 5 image URLs, at most 10 valid
      tags and at least one shipping location. */
  predicate ValidListing(l: ListingInput, isUrl: string -> bool) {
    && 5 <= |l.title| <= 100
    && 20 <= |l.description| <= 2000
    && IsWholeNumber(l.price) && 50.0 <= l.price <= 5000000.0
    && ParseCondition(l.condition).Some?
    && 1 <= |l.size| <= 20
    && 1 <= |l.images| <= 5 && (forall i | 0 <= i < |l.images| :: isUrl(l.images[i]))
    && ParseCategory(l.category).Some?
    && |l.tags| <= 10 && (forall i | 0 <= i < |l.tags| :: ValidTag(l.tags[i]))
    && |l.shipsTo| >= 1
  }

  /** The issue lists of the listing schema's nine fields, in declaration order. */
  function ListingFieldIssues(l: ListingInput, isUrl: string -> bool): (fields: seq<seq<string>>)
    ensures |fields| == 9
  {
    [TitleIssues(l.title), DescriptionIssues(l.description), PriceIssues(l.price),
     ConditionIssues(l.condition), SizeIssues(l.size), ImagesIssues(l.images, isUrl),
     CategoryIssues(l.category), TagsIssues(l.tags), ShipsToIssues(l.shipsTo)]
  }

  /** Every field of a listing passes iff the listing rules hold. */
  lemma ListingFieldsPass(l: ListingInput, isUrl: string -> bool)
    ensures (forall j | 0 <= j < |ListingFieldIssues(l, isUrl)| :: ListingFieldIssues(l, isUrl)[j] == [])
            <==> ValidListing(l, isUrl)
  {
    var fields := ListingFieldIssues(l, isUrl);
    assert && fields[0] == TitleIssues(l.title) && fields[1] == DescriptionIssues(l.description)
           && fields[2] == PriceIssues(l.price) && fields[3] == ConditionIssues(l.condition)
           && fields[4] == SizeIssues(l.size) && fields[5] == ImagesIssues(l.images, isUrl)
           && fields[6] == CategoryIssues(l.category) && fields[7] == TagsIssues(l.tags)
           && fields[8] == ShipsToIssues(l.shipsTo);
    if ValidListing(l, isUrl) {
      forall j | 0 <= j < |fields| ensures fields[j] == [] {
        assert j in {0, 1, 2, 3, 4, 5, 6, 7, 8};
      }
    }
  }

  /** `listingSchema`: the fields' issues in declaration order. */
  function ListingIssues(l: ListingInput, isUrl: string -> bool): (r: seq<string>)
    ensures r == [] <==> ValidListing(l, isUrl)
    ensures !(5 <= |l.title| <= 100) ==> r[0] == TitleIssues(l.title)[0]
    ensures 5 <= |l.title| <= 100 && !(20 <= |l.description| <= 2000) ==> r[0] == DescriptionIssues(l.description)[0]
  {
    var fields := ListingFieldIssues(l, isUrl);
    ConcatEmpty(fields);
    ListingFieldsPass(l, isUrl);
    assert fields[0] == TitleIssues(l.title) && fields[1] == DescriptionIssues(l.description);
    assert fields[0] != [] ==> Concat(fields)[0] == fields[0][0] by {
      if fields[0] != [] { ConcatFirst(fields, 0); }
    }
    assert fields[0] == [] && fields[1] != [] ==> Concat(fields)[0] == fields[1][0] by {
      if fields[0] == [] && fields[1] != [] { ConcatFirst(fields, 1); }
    }
    Concat(fields)
  }

  /** The message `toPayload` shows is the first issue of the first field, in declaration
      order, that fails. */
  lemma ListingFirstIssue(l: ListingInput, isUrl: string -> bool, k: nat)
    requires k < |ListingFieldIssues(l, isUrl)|
    requires forall j | 0 <= j < k :: ListingFieldIssues(l, isUrl)[j] == []
    requires ListingFieldIssues(l, isUrl)[k] != []
    ensures ListingIssues(l, isUrl) != [] && ListingIssues(l, isUrl)[0] == ListingFieldIssues(l, isUrl)[k][0]
  {
    ConcatFirst(ListingFieldIssues(l, isUrl), k);
  }

  /** The price rule alone: a fractional amount is reported as not whole first, and amounts
      just outside [50, 5,000,000] cents get the bound's message. */
  lemma PriceRule(p: real)
    ensures !IsWholeNumber(p) ==> PriceIssues(p)[0] == PRICE_NOT_WHOLE
    ensures PriceIssues(49.0) == [PRICE_TOO_LOW] && PriceIssues(5000001.0) == [PRICE_TOO_HIGH]
    ensures PriceIssues(50.5) == [PRICE_NOT_WHOLE]
  {
    assert 50.5.Floor == 50;
  }

  /** Eleven tags report the count message before anything about the tags themselves. */
  lemma TagCountBeforeTagContents(tags: seq<string>)
    requires |tags| > 10
    ensures TagsIssues(tags)[0] == TAGS_TOO_MANY
  {
  }

  // ---------------------------------------------------------------- message and rejection

  const MESSAGE_EMPTY := "Message cannot be empty"
  const MESSAGE_TOO_LONG := "Message must be at most 2,000 characters"
  const MESSAGE_IMAGES_TOO_MANY := "Maximum 3 images per message"
  const NOTES_TOO_SHORT := "Rejection notes must be at least 10 characters"
  const NOTES_TOO_LONG := "Rejection notes must be at most 1,000 characters"

  datatype MessageInput = MessageInput(content: string, images: Option<seq<string>>)

  /** A message has 1 to 2000 characters and at most 3 image URLs. */
  predicate ValidMessage(m: MessageInput, isUrl: string -> bool) {
    && 1 <= |m.content| <= 2000
    && (m.images.Some? ==> |m.images.value| <= 3 && forall i | 0 <= i < |m.images.value| :: isUrl(m.images.value[i]))
  }

  /** `messageSchema`. */
  function MessageIssues(m: MessageInput, isUrl: string -> bool): (r: seq<string>)
    ensures r == [] <==> ValidMessage(m, isUrl)
    ensures m.content == "" ==> r[0] == MESSAGE_EMPTY
  {
    MinLen(|m.content|, 1, MESSAGE_EMPTY) + MaxLen(|m.content|, 2000, MESSAGE_TOO_LONG)
    + (if m.images.None? then []
       else MaxLen(|m.images.value|, 3, MESSAGE_IMAGES_TOO_MANY) + EachIssues(m.images.value, ImageUrlIssues(isUrl)))
  }

  /** `rejectionSchema`: admin notes of 10 to 1000 characters. */
  function RejectionIssues(adminNotes: string): (r: seq<string>)
    ensures r == [] <==> 10 <= |adminNotes| <= 1000
    ensures |adminNotes| < 10 ==> r == [NOTES_TOO_SHORT]
    ensures |adminNotes| > 1000 ==> r == [NOTES_TOO_LONG]
  {
    MinLen(|adminNotes|, 10, NOTES_TOO_SHORT) + MaxLen(|adminNotes|, 1000, NOTES_TOO_LONG)
  }

  // ---------------------------------------------------------------- event

  const EVENT_NAME_TOO_SHORT := "Event name must be at least 3 characters"
  const EVENT_NAME_TOO_LONG := "Event name must be at most 100 characters"
  const SLUG_CHARSET := "Slug can only contain lowercase letters, numbers, and hyphens"
  const INVALID_DATE := "Must be a valid date"
  const COUNTRY_REQUIRED := "Country is required"
  const COUNTRY_NOT_ISO := "Use ISO country code"
  const VENUE_TOO_LONG := "Venue must be at most 200 characters"
  const END_BEFORE_START := "End date must be on or after start date"

  datatype EventInput = EventInput(
    name: string, slug: string, startDate: string, endDate: string, country: string,
    venue: Option<string>, websiteUrl: Option<string>, coverImageUrl: Option<string>)

  predicate IsSlugChar(c: char) {
    'a' <= c <= 'z' || '0' <= c <= '9' || c == '-'
  }

  function DateIssues(d: string, parseDate: string -> Option<int>): seq<string> {
    if parseDate(d).Some? then [] else [INVALID_DATE]
  }

  /** The object-level refinement: both dates parse and the end is not before the start
      (a comparison with an unparsable date is false). */
  predicate DatesOrdered(e: EventInput, parseDate: string -> Option<int>) {
    parseDate(e.startDate).Some? && parseDate(e.endDate).Some?
    && parseDate(e.endDate).value >= parseDate(e.startDate).value
  }

  /** Every field check of `eventSchema`, in declaration order. */
  function EventFieldIssues(e: EventInput, isUrl: string -> bool, parseDate: string -> Option<int>): (r: seq<string>)
    ensures r == [] <==>
      && 3 <= |e.name| <= 100 && Matches(e.slug, IsSlugChar)
      && parseDate(e.startDate).Some? && parseDate(e.endDate).Some? && |e.country| == 2
      && (e.venue.None? || |e.venue.value| <= 200) && UrlOk(e.websiteUrl, isUrl) && UrlOk(e.coverImageUrl, isUrl)
  {
    var name := MinLen(|e.name|, 3, EVENT_NAME_TOO_SHORT) + MaxLen(|e.name|, 100, EVENT_NAME_TOO_LONG);
    var slug := Regex(e.slug, IsSlugChar, SLUG_CHARSET);
    var dates := DateIssues(e.startDate, parseDate) + DateIssues(e.endDate, parseDate);
    var country := MinLen(|e.country|, 2, COUNTRY_REQUIRED) + MaxLen(|e.country|, 2, COUNTRY_NOT_ISO);
    var venue := OptionalOrEmpty(e.venue, s => MaxLen(|s|, 200, VENUE_TOO_LONG));
    var links := UrlIssues(e.websiteUrl, isUrl) + UrlIssues(e.coverImageUrl, isUrl);
    assert name == [] <==> 3 <= |e.name| <= 100;
    assert slug == [] <==> Matches(e.slug, IsSlugChar);
    assert dates == [] <==> parseDate(e.startDate).Some? && parseDate(e.endDate).Some?;
    assert country == [] <==> |e.country| == 2;
    assert venue == [] <==> e.venue.None? || |e.venue.value| <= 200;
    assert links == [] <==> UrlOk(e.websiteUrl, isUrl) && UrlOk(e.coverImageUrl, isUrl);
    ConcatEmpty6(name, slug, dates, country, venue, links);
    name + slug + dates + country + venue + links
  }

  /** The event rules: name 3-100, slug from `[a-z0-9-]`, two parsable dates with the end not
      before the start, a two-character country, a venue of at most 200 characters, URL links. */
  predicate ValidEvent(e: EventInput, isUrl: string -> bool, parseDate: string -> Option<int>) {
    && 3 <= |e.name| <= 100
    && Matches(e.slug, IsSlugChar)
    && DatesOrdered(e, parseDate)
    && |e.country| == 2
    && (e.venue.None? || |e.venue.value| <= 200)
    && UrlOk(e.websiteUrl, isUrl) && UrlOk(e.coverImageUrl, isUrl)
  }

  /** `eventSchema`: the field issues, then the refinement's issue. Field problems come first,
      so the end-before-start message is reported only when every field is fine. */
  function EventIssues(e: EventInput, isUrl: string -> bool, parseDate: string -> Option<int>): (r: seq<string>)
    ensures r == [] <==> ValidEvent(e, isUrl, parseDate)
    ensures EventFieldIssues(e, isUrl, parseDate) == [] && !DatesOrdered(e, parseDate)
            ==> r == [END_BEFORE_START]
  {
    EventFieldIssues(e, isUrl, parseDate) + (if DatesOrdered(e, parseDate) then [] else [END_BEFORE_START])
  }
}
