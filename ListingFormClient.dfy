/**
 * The listing form in the browser, for creating a listing and for editing one: how the
 * initial field texts are derived from the stored listing (or the defaults), the heading,
 * and `runAction`, which clears the error and dispatches to the create or update action.
 * The server actions themselves are in module `Listings`; here a dispatch is returned as a
 * value and the action's answer is an input.
 */
module ListingFormClient {
  import opened Wrappers
  import opened JsString
  import opened Validators
  import opened Listings

  datatype FormMode = Create | Edit

  /** The listing the form starts from; absent fields take their defaults. */
  datatype InitialValues = InitialValues(
    title: Option<string>, description: Option<string>, price: Option<int>,
    condition: Option<Condition>, size: Option<string>, category: Option<Category>,
    images: Option<seq<string>>, tags: Option<seq<string>>, shipsTo: Option<seq<string>>)

  /** The text the form sends to either action; the euro amount is still text. */
  datatype FormPayload = FormPayload(
    title: string, description: string, priceEur: string, condition: string, size: string,
    category: string, imagesCsv: string, tagsCsv: string, shipsToCsv: string)

  /** Which server action `runAction` calls, with what. */
  datatype ActionCall =
    | NoCall
    | CallCreate(payload: FormPayload, intent: Intent)
    | CallUpdate(listingId: ListingId, payload: FormPayload, intent: Intent)

  const CREATE_TITLE := "Create Listing"
  const EDIT_TITLE := "Edit Listing"
  const MISSING_LISTING_ID := "Missing listing id"
  const DEFAULT_SHIPS_TO: seq<string> := ["WORLDWIDE"]
  const CSV_SEPARATOR := ", "

  /** The heading. */
  function TitleText(mode: FormMode): (text: string)
    ensures text == CREATE_TITLE <==> mode == Create
    ensures text == EDIT_TITLE <==> mode == Edit
  {
    assert CREATE_TITLE[0] != EDIT_TITLE[0];
    if mode.Create? then CREATE_TITLE else EDIT_TITLE
  }

  // ---------------------------------------------------------------- the euro amount

  function Digit(d: nat): (c: char)
    requires d < 10
    ensures '0' <= c <= '9' && c as int - '0' as int == d
  {
    ('0' as int + d) as char
  }

  /** The decimal numeral of `n`, without leading zeros. */
  function DecimalDigits(n: nat): (s: string)
    ensures |s| >= 1 && forall i | 0 <= i < |s| :: '0' <= s[i] <= '9'
    decreases n
  {
    if n < 10 then [Digit(n)] else DecimalDigits(n / 10) + [Digit(n % 10)]
  }

  /** The number a string of decimal digits denotes. */
  function DigitsValue(s: string): nat
    requires forall i | 0 <= i < |s| :: '0' <= s[i] <= '9'
  {
    if s == [] then 0 else DigitsValue(s[..|s| - 1]) * 10 + (s[|s| - 1] as int - '0' as int)
  }

  lemma {:induction false} DecimalDigitsValue(n: nat)
    ensures DigitsValue(DecimalDigits(n)) == n
    decreases n
  {
    var s := DecimalDigits(n);
    if n >= 10 {
      DecimalDigitsValue(n / 10);
      assert s[..|s| - 1] == DecimalDigits(n / 10);
    }
  }

  /** Two decimal digits. */
  function TwoDigits(n: nat): (s: string)
    requires n < 100
    ensures |s| == 2 && '0' <= s[0] <= '9' && '0' <= s[1] <= '9'
  {
    [Digit(n / 10), Digit(n % 10)]
  }

  /** A non-negative amount: the euros, a point and exactly two digits of cents. */
  function UnsignedCents(m: nat): (text: string)
    ensures |text| >= 4 && text[|text| - 3] == '.'
  {
    DecimalDigits(m / 100) + "." + TwoDigits(m % 100)
  }

  /** `(cents / 100).toFixed(2)` for a whole number of cents: a minus sign for a negative
      amount, then the amount without its sign. */
  function FormatCents(cents: int): (text: string)
    ensures |text| >= 4 && text[|text| - 3] == '.'
  {
    if cents < 0 then "-" + UnsignedCents(-cents) else UnsignedCents(cents)
  }

  /** Text of the form `digits.dd`. */
  predicate CentsShaped(text: string) {
    && |text| >= 4 && text[|text| - 3] == '.'
    && (forall i | 0 <= i < |text| - 3 :: '0' <= text[i] <= '9')
    && (forall i | |text| - 2 <= i < |text| :: '0' <= text[i] <= '9')
  }

  /** The cents such a text denotes: the euros before the point times 100 plus the two digits after it. */
  function ReadCents(text: string): nat
    requires CentsShaped(text)
  {
    DigitsValue(text[..|text| - 3]) * 100 + DigitsValue(text[|text| - 2..])
  }

  lemma TwoDigitsValue(n: nat)
    requires n < 100
    ensures DigitsValue(TwoDigits(n)) == n
  {
    var s := TwoDigits(n);
    assert s[..1] == [Digit(n / 10)];
    assert s[..1][..0] == [];
    assert DigitsValue(s[..1]) == n / 10;
    assert DigitsValue(s) == (n / 10) * 10 + n % 10;
  }

  /** The amount shown for a non-negative price reads back as the same number of cents. */
  lemma FormatCentsReadsBack(cents: nat)
    ensures CentsShaped(FormatCents(cents))
    ensures ReadCents(FormatCents(cents)) == cents
  {
    var whole := DecimalDigits(cents / 100);
    var frac := TwoDigits(cents % 100);
    var text := FormatCents(cents);
    assert text == whole + "." + frac;
    assert text[..|text| - 3] == whole;
    assert text[|text| - 2..] == frac;
    DecimalDigitsValue(cents / 100);
    TwoDigitsValue(cents % 100);
  }

  /** The initial euro amount: empty when there is no price or it is 0. */
  function InitialPriceText(price: Option<int>): (text: string)
    ensures text == "" <==> price.None? || price.value == 0
    ensures text != "" ==> text == FormatCents(price.value)
  {
    if price.None? || price.value == 0 then "" else FormatCents(price.value)
  }

  // ---------------------------------------------------------------- initial fields

  /** The text fields a form starts with. */
  function InitialPayload(init: InitialValues): (p: FormPayload)
    ensures p.imagesCsv == Join(init.images.GetOr([]), CSV_SEPARATOR)
    ensures p.tagsCsv == Join(init.tags.GetOr([]), CSV_SEPARATOR)
    ensures p.shipsToCsv == Join(init.shipsTo.GetOr(DEFAULT_SHIPS_TO), CSV_SEPARATOR)
    ensures p.priceEur == InitialPriceText(init.price)
    ensures p.condition == ConditionName(init.condition.GetOr(Good))
    ensures p.category == CategoryName(init.category.GetOr(Clothing))
    ensures init.condition.None? ==> p.condition == "good"
    ensures init.category.None? ==> p.category == "clothing"
    ensures p.title == if init.title.Some? then init.title.value else ""
    ensures p.description == if init.description.Some? then init.description.value else ""
    ensures p.size == if init.size.Some? then init.size.value else ""
  {
    FormPayload(
      init.title.GetOr(""), init.description.GetOr(""), InitialPriceText(init.price),
      ConditionName(init.condition.GetOr(Good)), init.size.GetOr(""),
      CategoryName(init.category.GetOr(Clothing)),
      Join(init.images.GetOr([]), CSV_SEPARATOR), Join(init.tags.GetOr([]), CSV_SEPARATOR),
      Join(init.shipsTo.GetOr(DEFAULT_SHIPS_TO), CSV_SEPARATOR))
  }

  /** A new listing's form: empty text, condition "good", category "clothing", shipping
      "WORLDWIDE", which reads back as the one-country list. */
  lemma NewFormDefaults()
    ensures var empty := InitialValues(None, None, None, None, None, None, None, None, None);
            && InitialPayload(empty) == FormPayload("", "", "", "good", "", "clothing", "", "", "WORLDWIDE")
            && ParseCsv(InitialPayload(empty).shipsToCsv) == DEFAULT_SHIPS_TO
  {
    var empty := InitialValues(None, None, None, None, None, None, None, None, None);
    assert Join(DEFAULT_SHIPS_TO, CSV_SEPARATOR) == "WORLDWIDE";
    ParseCsvOfJoin(DEFAULT_SHIPS_TO);
  }

  /** The initial values taken from a stored listing. */
  function RowValues(d: ListingData): InitialValues {
    InitialValues(Some(d.title), Some(d.description), Some(d.price), Some(d.condition), Some(d.size),
                  Some(d.category), Some(d.images), Some(d.tags), Some(d.shipsTo))
  }

  /** The form's text as the server action receives it, given the whole cents the euro text
      converts to. */
  function ServerInput(p: FormPayload, priceCents: int): ListingFormInput {
    ListingFormInput(p.title, p.description, priceCents, p.condition, p.size, p.category,
                     p.imagesCsv, p.tagsCsv, p.shipsToCsv)
  }

  lemma LowerEachIdempotent(xs: seq<string>)
    ensures LowerEach(LowerEach(xs)) == LowerEach(xs)
  {
    forall i | 0 <= i < |xs| ensures Lower(Lower(xs[i])) == Lower(xs[i]) {
      var s := xs[i];
      assert forall j | 0 <= j < |s| :: LowerChar(LowerChar(s[j])) == LowerChar(s[j]);
    }
  }

  lemma UpperEachIdempotent(xs: seq<string>)
    ensures UpperEach(UpperEach(xs)) == UpperEach(xs)
  {
    forall i | 0 <= i < |xs| ensures Upper(Upper(xs[i])) == Upper(xs[i]) {
      var s := xs[i];
      assert forall j | 0 <= j < |s| :: UpperChar(UpperChar(s[j])) == UpperChar(s[j]);
    }
  }

  /** Each item `toPayload` stores can be shown with `join(", ")` and read back. */
  lemma StoredListsAreCsvSafe(input: ListingFormInput)
    ensures CsvSafe(ParseCsv(input.imagesCsv))
    ensures CsvSafe(LowerEach(ParseCsv(input.tagsCsv)))
    ensures CsvSafe(UpperEach(ParseCsv(input.shipsToCsv)))
  {
    var tags := ParseCsv(input.tagsCsv);
    var ships := ParseCsv(input.shipsToCsv);
    forall i | 0 <= i < |tags| ensures LowerEach(tags)[i] != "" && ',' !in LowerEach(tags)[i] && Trimmed(LowerEach(tags)[i]) {
      CaseMappingKeepsShape(tags[i]);
    }
    forall i | 0 <= i < |ships| ensures UpperEach(ships)[i] != "" && ',' !in UpperEach(ships)[i] && Trimmed(UpperEach(ships)[i]) {
      CaseMappingKeepsShape(ships[i]);
    }
  }

  /** Opening a saved listing in the edit form and saving it unchanged sends the same
      listing: the joined lists parse back to the stored lists, so the server computes
      exactly the data it stored (given the same price in cents). */
  lemma {:induction false} EditFormRoundTrip(input: ListingFormInput, isUrl: string -> bool)
    requires ToPayload(input, isUrl).Ok?
    ensures var d := ToPayload(input, isUrl).value;
            var p := InitialPayload(RowValues(d));
            && ParseCsv(p.imagesCsv) == d.images
            && LowerEach(ParseCsv(p.tagsCsv)) == d.tags
            && UpperEach(ParseCsv(p.shipsToCsv)) == d.shipsTo
            && ToPayload(ServerInput(p, d.price), isUrl) == ToPayload(input, isUrl)
  {
    var d := ToPayload(input, isUrl).value;
    var p := InitialPayload(RowValues(d));
    StoredListsAreCsvSafe(input);
    ParseCsvOfJoin(d.images);
    ParseCsvOfJoin(d.tags);
    ParseCsvOfJoin(d.shipsTo);
    LowerEachIdempotent(ParseCsv(input.tagsCsv));
    UpperEachIdempotent(ParseCsv(input.shipsToCsv));
    assert Candidate(ServerInput(p, d.price)) == Candidate(input);
  }

  // ---------------------------------------------------------------- dispatch

  /** A listing id that `!listingId` treats as missing. */
  predicate MissingId(listingId: Option<ListingId>) {
    listingId.None? || listingId.value == ""
  }

  /** Which action `runAction(intent)` calls: create in create mode; update in edit mode when
      there is a listing id; none otherwise. The payload and the intent pass through as given. */
  function Dispatch(mode: FormMode, listingId: Option<ListingId>, payload: FormPayload, intent: Intent): (call: ActionCall)
    ensures call.NoCall? <==> mode == Edit && MissingId(listingId)
    ensures call.CallCreate? <==> mode == Create
    ensures !call.NoCall? ==> call.payload == payload && call.intent == intent
    ensures call.CallUpdate? ==> Some(call.listingId) == listingId
  {
    if mode.Create? then CallCreate(payload, intent)
    else if MissingId(listingId) then NoCall
    else CallUpdate(listingId.value, payload, intent)
  }

  /** The form's state. */
  class ListingForm {
    const mode: FormMode
    const listingId: Option<ListingId>
    var title: string
    var description: string
    var priceEur: string
    var condition: Condition
    var size: string
    var category: Category
    var imagesCsv: string
    var tagsCsv: string
    var shipsToCsv: string
    var error: Option<string>

    /** The text the form would send now. */
    function Payload(): FormPayload
      reads this
    {
      FormPayload(title, description, priceEur, ConditionName(condition), size, CategoryName(category),
                  imagesCsv, tagsCsv, shipsToCsv)
    }

    constructor(mode: FormMode, listingId: Option<ListingId>, init: InitialValues)
      ensures this.mode == mode && this.listingId == listingId
      ensures Payload() == InitialPayload(init)
      ensures error.None?
    {
      this.mode := mode;
      this.listingId := listingId;
      title := init.title.GetOr("");
      description := init.description.GetOr("");
      priceEur := InitialPriceText(init.price);
      condition := init.condition.GetOr(Good);
      size := init.size.GetOr("");
      category := init.category.GetOr(Clothing);
      imagesCsv := Join(init.images.GetOr([]), CSV_SEPARATOR);
      tagsCsv := Join(init.tags.GetOr([]), CSV_SEPARATOR);
      shipsToCsv := Join(init.shipsTo.GetOr(DEFAULT_SHIPS_TO), CSV_SEPARATOR);
      error := None;
    }

    /** `runAction(intent)`: clears the error, then returns the call to make; in edit mode
        without a listing id it reports the missing id instead. */
    method RunAction(intent: Intent) returns (call: ActionCall)
      modifies this
      ensures call == Dispatch(mode, listingId, Payload(), intent)
      ensures error == if call.NoCall? then Some(MISSING_LISTING_ID) else None
      ensures Payload() == old(Payload())
    {
      error := None;
      var payload := FormPayload(title, description, priceEur, ConditionName(condition), size,
                                 CategoryName(category), imagesCsv, tagsCsv, shipsToCsv);
      if mode == Create {
        return CallCreate(payload, intent);
      }
      if listingId.None? || listingId.value == "" {
        error := Some(MISSING_LISTING_ID);
        return NoCall;
      }
      return CallUpdate(listingId.value, payload, intent);
    }

    /** The called action answers: a non-empty error is shown; a redirect leaves the page. */
    method ActionSettled(outcome: ActionOutcome)
      modifies this
      ensures error == if outcome.Failed? && outcome.error != "" then Some(outcome.error) else old(error)
      ensures Payload() == old(Payload())
    {
      if outcome.Failed? && outcome.error != "" {
        error := Some(outcome.error);
      }
    }
  }
}
