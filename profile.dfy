/** The validation and update payload of `savePetProfile`: the edit form is text, the two
    numeric fields are converted and range-checked, every other field is trimmed to a value
    or null. */
module Profile {
  import opened Wrappers
  import opened JsString
  import opened Names
  import opened Numbers

  /** The profile edit form (`petDraft`): every field is the text of an input. */
  datatype Draft = Draft(
    color: string, birthYear: string, sex: string, weightKg: string,
    ownerPhone: string, ownerWhatsapp: string, publicNotes: string,
    allergies: string, medications: string, conditions: string,
    vetName: string, vetPhone: string)

  /** The columns sent to the `pets` update; `None` is `null`. */
  datatype Payload = Payload(
    color: Option<string>, birthYear: Option<JsNumber>, sex: Option<string>, weightKg: Option<JsNumber>,
    ownerPhone: Option<string>, ownerWhatsapp: Option<string>, publicNotes: Option<string>,
    allergies: Option<string>, medications: Option<string>, conditions: Option<string>,
    vetName: Option<string>, vetPhone: Option<string>)

  /** Why the save stops before any request: nothing selected, or one of the two alerts. */
  datatype ProfileError = NoSelectedPet | InvalidBirthYear | InvalidWeight

  /** `text.trim() ? Number(text) : null`, with `toNumber` standing for `Number`. */
  function OptionalNumber(text: string, toNumber: string -> JsNumber): (r: Option<JsNumber>)
    ensures r == None <==> AllWhitespace(text)
    ensures r.Some? ==> r.value == toNumber(text)
  {
    if Trim(text) == [] then None else Some(toNumber(text))
  }

  /** The birth-year guard `!Number.isFinite(y) || y < 1990 || y > 2035`. */
  predicate BirthYearRejected(y: Option<JsNumber>) {
    y.Some? && (!IsFinite(y.value) || Less(y.value, 1990.0) || Greater(y.value, 2035.0))
  }

  /** The weight guard `!Number.isFinite(w) || w <= 0 || w > 120`. */
  predicate WeightRejected(w: Option<JsNumber>) {
    w.Some? && (!IsFinite(w.value) || AtMost(w.value, 0.0) || Greater(w.value, 120.0))
  }

  /** `savePetProfile` up to the request: the outcome of its guards and, when they pass,
      the payload it sends. The birth year is checked before the weight. */
  function ValidateProfile(hasSelection: bool, draft: Draft, toNumber: string -> JsNumber): (r: Result<Payload, ProfileError>)
    ensures !hasSelection ==> r == Failure(NoSelectedPet)
    ensures hasSelection && !AllWhitespace(draft.birthYear) && !(toNumber(draft.birthYear).Finite? && 1990.0 <= toNumber(draft.birthYear).value <= 2035.0)
      ==> r == Failure(InvalidBirthYear)
    ensures r.Success? <==>
      && hasSelection
      && (AllWhitespace(draft.birthYear) || (toNumber(draft.birthYear).Finite? && 1990.0 <= toNumber(draft.birthYear).value <= 2035.0))
      && (AllWhitespace(draft.weightKg) || (toNumber(draft.weightKg).Finite? && 0.0 < toNumber(draft.weightKg).value <= 120.0))
    ensures hasSelection
      && (AllWhitespace(draft.birthYear) || (toNumber(draft.birthYear).Finite? && 1990.0 <= toNumber(draft.birthYear).value <= 2035.0))
      && !AllWhitespace(draft.weightKg) && !(toNumber(draft.weightKg).Finite? && 0.0 < toNumber(draft.weightKg).value <= 120.0)
      ==> r == Failure(InvalidWeight)
    ensures r.Success? ==>
      && (r.value.birthYear == None <==> AllWhitespace(draft.birthYear))
      && (r.value.weightKg == None <==> AllWhitespace(draft.weightKg))
      && (r.value.birthYear.Some? ==> r.value.birthYear.value == toNumber(draft.birthYear))
      && (r.value.weightKg.Some? ==> r.value.weightKg.value == toNumber(draft.weightKg))
  {
    if !hasSelection then Failure(NoSelectedPet)
    else
      var birthYear := OptionalNumber(draft.birthYear, toNumber);
      var weight := OptionalNumber(draft.weightKg, toNumber);
      FiniteGuardIsInterval(toNumber(draft.birthYear), 1990.0, 2035.0);
      if BirthYearRejected(birthYear) then Failure(InvalidBirthYear)
      else if WeightRejected(weight) then Failure(InvalidWeight)
      else Success(Payload(
        NormalizeStringOrNull(draft.color), birthYear, NormalizeStringOrNull(draft.sex), weight,
        NormalizeStringOrNull(draft.ownerPhone), NormalizeStringOrNull(draft.ownerWhatsapp),
        NormalizeStringOrNull(draft.publicNotes), NormalizeStringOrNull(draft.allergies),
        NormalizeStringOrNull(draft.medications), NormalizeStringOrNull(draft.conditions),
        NormalizeStringOrNull(draft.vetName), NormalizeStringOrNull(draft.vetPhone)))
  }

  /** A text column of the payload is null or a non-empty string without surrounding
      whitespace. */
  predicate CleanText(v: Option<string>) {
    v.Some? ==> v.value != [] && !IsWhitespace(v.value[0]) && !IsWhitespace(v.value[|v.value| - 1])
  }

  /** A text column holds its input normalised: null exactly when the input is blank,
      otherwise the trimmed input, and clean either way. */
  predicate NormalizedFrom(v: Option<string>, text: string) {
    && (v == None <==> AllWhitespace(text))
    && (v.Some? ==> v.value == Trim(text))
    && CleanText(v)
  }

  /** One text column: `normalizeStringOrNull` of its input. */
  lemma {:induction false} NormalizedIsClean(text: string)
    ensures NormalizedFrom(NormalizeStringOrNull(text), text)
  {
  }

  /** Every text column of an accepted payload holds its own draft field normalised: it is
      clean, null exactly when that field is blank, and a kept value is the trimmed field. */
  lemma {:induction false} PayloadTextIsNormalized(hasSelection: bool, draft: Draft, toNumber: string -> JsNumber)
    requires ValidateProfile(hasSelection, draft, toNumber).Success?
    ensures var p := ValidateProfile(hasSelection, draft, toNumber).value;
      && NormalizedFrom(p.color, draft.color) && NormalizedFrom(p.sex, draft.sex)
      && NormalizedFrom(p.ownerPhone, draft.ownerPhone) && NormalizedFrom(p.ownerWhatsapp, draft.ownerWhatsapp)
      && NormalizedFrom(p.publicNotes, draft.publicNotes) && NormalizedFrom(p.allergies, draft.allergies)
      && NormalizedFrom(p.medications, draft.medications) && NormalizedFrom(p.conditions, draft.conditions)
      && NormalizedFrom(p.vetName, draft.vetName) && NormalizedFrom(p.vetPhone, draft.vetPhone)
  {
    NormalizedIsClean(draft.color);
    NormalizedIsClean(draft.sex);
    NormalizedIsClean(draft.ownerPhone);
    NormalizedIsClean(draft.ownerWhatsapp);
    NormalizedIsClean(draft.publicNotes);
    NormalizedIsClean(draft.allergies);
    NormalizedIsClean(draft.medications);
    NormalizedIsClean(draft.conditions);
    NormalizedIsClean(draft.vetName);
    NormalizedIsClean(draft.vetPhone);
  }

  /** Whether the save goes ahead depends on the selection and the two numeric fields only. */
  lemma {:induction false} OnlyNumbersDecide(a: Draft, b: Draft, hasSelection: bool, toNumber: string -> JsNumber)
    requires a.birthYear == b.birthYear && a.weightKg == b.weightKg
    ensures ValidateProfile(hasSelection, a, toNumber).Success? == ValidateProfile(hasSelection, b, toNumber).Success?
    ensures ValidateProfile(hasSelection, a, toNumber).Failure? ==> ValidateProfile(hasSelection, a, toNumber) == ValidateProfile(hasSelection, b, toNumber)
  {
  }

  /** A blank form is accepted and clears every column. */
  lemma {:induction false} BlankDraftClearsAll(toNumber: string -> JsNumber)
    ensures ValidateProfile(true, Draft("", "", "", "", "", "", "", "", "", "", "", ""), toNumber)
      == Success(Payload(None, None, None, None, None, None, None, None, None, None, None, None))
  {
  }

  /** The guard tests the range only: a fractional year such as 1990.5 is accepted. */
  lemma {:induction false} FractionalBirthYearAccepted(draft: Draft, toNumber: string -> JsNumber)
    requires draft.birthYear == "1990.5" && toNumber("1990.5") == Finite(1990.5)
    requires AllWhitespace(draft.weightKg)
    ensures ValidateProfile(true, draft, toNumber).Success?
    ensures ValidateProfile(true, draft, toNumber).value.birthYear == Some(Finite(1990.5))
  {
    assert !IsWhitespace(draft.birthYear[0]);
  }
}
