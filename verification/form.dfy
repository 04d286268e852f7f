/**
 * The benefit demo's input form: the record it collects, the option tables
 * behind its selectors, the card-number sanitiser and mask, and the form
 * state that each handler overwrites with a copy changing one field.
 */
module BenefitInput {

  /** The record the form submits; every selector holds a plain string, "" meaning unselected. */
  datatype InputData = InputData(
    cardNumber: string,
    cardType: string,
    persona: string,
    location: string,
    travel: int,
    dining: int,
    shopping: int,
    language: string)

  datatype SelectOption = SelectOption(value: string, caption: string)

  const CardTypes: seq<SelectOption> := [
    SelectOption("classic", "Visa Classic"),
    SelectOption("gold", "Visa Gold"),
    SelectOption("platinum", "Visa Platinum"),
    SelectOption("signature", "Visa Signature"),
    SelectOption("infinite", "Visa Infinite")
  ]

  const Personas: seq<SelectOption> := [
    SelectOption("traveler", "Frequent Traveler"),
    SelectOption("foodie", "Food Enthusiast"),
    SelectOption("shopper", "Avid Shopper"),
    SelectOption("balanced", "Balanced User")
  ]

  const Locations: seq<SelectOption> := [
    SelectOption("metro", "Metro City (Delhi, Mumbai, etc.)"),
    SelectOption("tier2", "Tier 2 City"),
    SelectOption("tier3", "Tier 3 City / Town"),
    SelectOption("rural", "Rural Area")
  ]

  /** True when `v` is the value of one of the options. */
  ghost predicate Offers(options: seq<SelectOption>, v: string) {
    exists i :: 0 <= i < |options| && options[i].value == v
  }

  predicate DistinctValues(options: seq<SelectOption>) {
    forall i, j :: 0 <= i < j < |options| ==> options[i].value != options[j].value
  }

  /** The three tables have 5, 4 and 4 entries, no repeated value, and never offer "". */
  lemma OptionTables()
    ensures |CardTypes| == 5 && |Personas| == 4 && |Locations| == 4
    ensures DistinctValues(CardTypes) && DistinctValues(Personas) && DistinctValues(Locations)
    ensures !Offers(CardTypes, "") && !Offers(Personas, "") && !Offers(Locations, "")
  {
  }

  // ---------------------------------------------------------------------------
  // Card number: keep the digits, at most four, and mask them for display
  // ---------------------------------------------------------------------------

  /** A character matched by `\d`: JavaScript's `\d` matches only the ASCII digits. */
  predicate IsDigit(c: char) {
    '0' <= c <= '9'
  }

  predicate AllDigits(s: string) {
    forall i :: 0 <= i < |s| ==> IsDigit(s[i])
  }

  /** `replace(/\D/g, "")`: drop every character that is not a digit. */
  function StripNonDigits(s: string): (r: string)
    ensures |r| <= |s|
    ensures AllDigits(r)
    ensures forall c :: c in r ==> c in s
    ensures forall c :: c in s && IsDigit(c) ==> c in r
  {
    if s == [] then []
    else if IsDigit(s[0]) then [s[0]] + StripNonDigits(s[1..])
    else StripNonDigits(s[1..])
  }

  /** Stripping leaves a string of digits as it is. */
  lemma {:induction false} StripNonDigitsKeepsDigits(s: string)
    requires AllDigits(s)
    ensures StripNonDigits(s) == s
  {
    if s != [] {
      StripNonDigitsKeepsDigits(s[1..]);
      assert s == [s[0]] + s[1..];
    }
  }

  /** Stripping works piecewise, so the digits kept stay in their original order. */
  lemma {:induction false} StripNonDigitsAppend(a: string, b: string)
    ensures StripNonDigits(a + b) == StripNonDigits(a) + StripNonDigits(b)
  {
    if a == [] {
      assert a + b == b;
    } else {
      assert (a + b)[0] == a[0];
      assert (a + b)[1..] == a[1..] + b;
      StripNonDigitsAppend(a[1..], b);
    }
  }

  function Min(a: int, b: int): int {
    if a <= b then a else b
  }

  /** The card-number field's filter: the first up-to-four digits of the input, in order. */
  function SanitizeCardNumber(s: string): (r: string)
    ensures AllDigits(r) && |r| <= 4
    ensures |r| == Min(4, |StripNonDigits(s)|)
    ensures r <= StripNonDigits(s)
  {
    var digits := StripNonDigits(s);
    if |digits| <= 4 then digits else digits[..4]
  }

  /** The sanitiser changes a value exactly when it is not already at most four digits. */
  lemma SanitizeFixedPoints(s: string)
    ensures SanitizeCardNumber(s) == s <==> AllDigits(s) && |s| <= 4
  {
    if AllDigits(s) && |s| <= 4 {
      StripNonDigitsKeepsDigits(s);
    }
  }

  /** Sanitising an already sanitised value returns it unchanged. */
  lemma SanitizeIdempotent(s: string)
    ensures SanitizeCardNumber(SanitizeCardNumber(s)) == SanitizeCardNumber(s)
  {
    SanitizeFixedPoints(SanitizeCardNumber(s));
  }

  const Mask: string := "**** **** **** "

  /** The masked display of a card number: "" without digits, else the mask then up to four digits. */
  function FormatCardNumber(value: string): (r: string)
    ensures r == "" <==> StripNonDigits(value) == ""
    ensures r != "" ==> |Mask| + 1 <= |r| <= |Mask| + 4
    ensures r != "" ==> r[..|Mask|] == Mask && r[|Mask|..] == SanitizeCardNumber(value)
  {
    var cleaned := SanitizeCardNumber(value);
    if cleaned != "" then Mask + cleaned else ""
  }

  /** The only digits a masked display shows are the sanitised ones. */
  lemma MaskShowsOnlySanitizedDigits(value: string)
    ensures StripNonDigits(FormatCardNumber(value)) == SanitizeCardNumber(value)
  {
    var r := FormatCardNumber(value);
    if r != "" {
      assert StripNonDigits(Mask) == "";
      StripNonDigitsAppend(Mask, SanitizeCardNumber(value));
      StripNonDigitsKeepsDigits(SanitizeCardNumber(value));
    }
  }

  /** The form displays the mask of its stored (sanitised) number: same as masking the raw input. */
  lemma FormatAfterSanitize(s: string)
    ensures FormatCardNumber(SanitizeCardNumber(s)) == FormatCardNumber(s)
  {
    SanitizeIdempotent(s);
  }

  // ---------------------------------------------------------------------------
  // Single-field updates
  // ---------------------------------------------------------------------------

  datatype Slider = Travel | Dining | Shopping

  datatype LanguageButton = EnglishButton | TamilButton

  datatype Field = CardNumberField | CardTypeField | PersonaField | LocationField
                 | SliderField(slider: Slider) | LanguageField

  function SliderValue(d: InputData, s: Slider): int {
    match s
    case Travel => d.travel
    case Dining => d.dining
    case Shopping => d.shopping
  }

  /** `a` and `b` hold the same value in field `f`. */
  predicate Agree(a: InputData, b: InputData, f: Field) {
    match f
    case CardNumberField => a.cardNumber == b.cardNumber
    case CardTypeField => a.cardType == b.cardType
    case PersonaField => a.persona == b.persona
    case LocationField => a.location == b.location
    case SliderField(s) => SliderValue(a, s) == SliderValue(b, s)
    case LanguageField => a.language == b.language
  }

  /** Every field other than `f` is the same in `before` and `after`. */
  ghost predicate OnlyChanges(before: InputData, after: InputData, f: Field) {
    forall g :: g != f ==> Agree(before, after, g)
  }

  /** `{ ...prev, [name]: v }` for a slider name. */
  function WithSlider(d: InputData, s: Slider, v: int): (r: InputData)
    ensures SliderValue(r, s) == v
    ensures OnlyChanges(d, r, SliderField(s))
  {
    match s
    case Travel => d.(travel := v)
    case Dining => d.(dining := v)
    case Shopping => d.(shopping := v)
  }

  /** The card-number handler stores the sanitised text and nothing else. */
  function WithCardNumber(d: InputData, raw: string): (r: InputData)
    ensures AllDigits(r.cardNumber) && |r.cardNumber| <= 4
    ensures r.cardNumber <= StripNonDigits(raw)
    ensures |r.cardNumber| == Min(4, |StripNonDigits(raw)|)
    ensures OnlyChanges(d, r, CardNumberField)
  {
    d.(cardNumber := SanitizeCardNumber(raw))
  }

  function WithCardType(d: InputData, v: string): (r: InputData)
    ensures r.cardType == v
    ensures OnlyChanges(d, r, CardTypeField)
  {
    d.(cardType := v)
  }

  function WithPersona(d: InputData, v: string): (r: InputData)
    ensures r.persona == v
    ensures OnlyChanges(d, r, PersonaField)
  {
    d.(persona := v)
  }

  function WithLocation(d: InputData, v: string): (r: InputData)
    ensures r.location == v
    ensures OnlyChanges(d, r, LocationField)
  {
    d.(location := v)
  }

  /** The two language buttons store exactly "english" or "tamil". */
  function WithLanguage(d: InputData, b: LanguageButton): (r: InputData)
    ensures r.language == "english" <==> b == EnglishButton
    ensures r.language == "tamil" <==> b == TamilButton
    ensures OnlyChanges(d, r, LanguageField)
  {
    match b
    case EnglishButton => d.(language := "english")
    case TamilButton => d.(language := "tamil")
  }

  /** Moving two different sliders gives the same record in either order. */
  lemma SliderUpdatesCommute(d: InputData, s: Slider, t: Slider, v: int, w: int)
    requires s != t
    ensures WithSlider(WithSlider(d, s, v), t, w) == WithSlider(WithSlider(d, t, w), s, v)
  {
  }

  /** Moving the same slider twice keeps only the last value. */
  lemma SliderLastWins(d: InputData, s: Slider, v: int, w: int)
    ensures WithSlider(WithSlider(d, s, v), s, w) == WithSlider(d, s, w)
  {
  }

  // ---------------------------------------------------------------------------
  // The form state
  // ---------------------------------------------------------------------------

  /** A value the slider can produce: 0 to 100 in steps of 5. */
  predicate SliderPosition(v: int) {
    0 <= v <= 100 && v % 5 == 0
  }

  /** A selector is either unselected or holds one of its table's values. */
  ghost predicate Selected(options: seq<SelectOption>, v: string) {
    v == "" || Offers(options, v)
  }

  /** What the form's controls can ever put into the record. */
  ghost predicate Reachable(d: InputData) {
    && AllDigits(d.cardNumber) && |d.cardNumber| <= 4
    && Selected(CardTypes, d.cardType)
    && Selected(Personas, d.persona)
    && Selected(Locations, d.location)
    && SliderPosition(d.travel) && SliderPosition(d.dining) && SliderPosition(d.shopping)
    && (d.language == "english" || d.language == "tamil")
  }

  /** The form's state cell; each handler replaces the record by an updated copy. */
  class BenefitForm {
    var data: InputData

    ghost predicate Valid()
      reads this
    {
      Reachable(data)
    }

    constructor ()
      ensures Valid()
      ensures data.cardNumber == "" && data.cardType == "" && data.persona == "" && data.location == ""
      ensures data.travel == 50 && data.dining == 50 && data.shopping == 50
      ensures data.language == "english"
    {
      data := InputData("", "", "", "", 50, 50, 50, "english");
    }

    /** The slider reports an array of thumb values; the first is stored. */
    method ChangeSlider(s: Slider, value: seq<int>)
      requires Valid()
      requires |value| >= 1 && SliderPosition(value[0])
      modifies this
      ensures Valid()
      ensures data == WithSlider(old(data), s, value[0])
    {
      data := WithSlider(data, s, value[0]);
    }

    method EditCardNumber(raw: string)
      requires Valid()
      modifies this
      ensures Valid()
      ensures data == WithCardNumber(old(data), raw)
    {
      data := WithCardNumber(data, raw);
    }

    method SelectCardType(v: string)
      requires Valid() && Offers(CardTypes, v)
      modifies this
      ensures Valid()
      ensures data == WithCardType(old(data), v)
    {
      data := WithCardType(data, v);
    }

    method PickPersona(v: string)
      requires Valid() && Offers(Personas, v)
      modifies this
      ensures Valid()
      ensures data == WithPersona(old(data), v)
    {
      data := WithPersona(data, v);
    }

    method SelectLocation(v: string)
      requires Valid() && Offers(Locations, v)
      modifies this
      ensures Valid()
      ensures data == WithLocation(old(data), v)
    {
      data := WithLocation(data, v);
    }

    method PressLanguage(b: LanguageButton)
      requires Valid()
      modifies this
      ensures Valid()
      ensures data == WithLanguage(old(data), b)
    {
      data := WithLanguage(data, b);
    }
  }
}
