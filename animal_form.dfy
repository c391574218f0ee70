/**
 * AnimalFormActivity: the create/edit form for an animal. It computes the age from a
 * birth date, validates the form in a fixed order, picks the breed list for a species,
 * and keeps the address-autocomplete state with a request sequence number.
 * `SimpleDateFormat` is the parameter `parseDate`; "today" is a parameter.
 */
module AnimalForm {
  import opened Wrappers
  import opened Text
  import opened AddressRepo

  const MaxAgeYears: int := 120
  const MaxAgeMonths: int := 11
  const AddressMinChars: int := 3
  const AddressLimit: int := 8
  const OtherColor: string := "другое…"
  const AddressPlaceholder: string := "Адрес"

  /** A calendar day at midnight, as `normalizeDayStart` leaves it; `month` is 0-based as in `Calendar`. */
  datatype Date = Date(year: int, month: int, day: int)

  predicate ValidDate(d: Date) { 0 <= d.month <= 11 && 1 <= d.day <= 31 }

  /** `a.after(b)` for two day-start instants. */
  predicate After(a: Date, b: Date)
  {
    a.year > b.year ||
    (a.year == b.year && a.month > b.month) ||
    (a.year == b.year && a.month == b.month && a.day > b.day)
  }

  /** What `applyAgeFromDob` writes into the two age fields. */
  datatype AgeFields = Cleared | Shown(years: int, months: int)

  /** Whole months from the birth date to today: a month counts once its day of month is reached. */
  function MonthsBetween(dob: Date, today: Date): int
  {
    (today.year - dob.year) * 12 + (today.month - dob.month) - (if today.day < dob.day then 1 else 0)
  }

  /** `applyAgeFromDob`: a future date clears the fields; otherwise years and months, borrowed and clamped. */
  function AgeFromDob(dob: Date, today: Date): (r: AgeFields)
    ensures r.Cleared? <==> After(dob, today)
    ensures r.Shown? ==> r.years >= 0 && r.months >= 0
  {
    if After(dob, today) then Cleared
    else
      var years := today.year - dob.year;
      var months := today.month - dob.month - (if today.day < dob.day then 1 else 0);
      var y := if months < 0 then years - 1 else years;
      var m := if months < 0 then months + 12 else months;
      Shown(if y < 0 then 0 else y, if m < 0 then 0 else m)
  }

  /** For a birth date no later than today the age is the elapsed whole months, split into years and 0..11 months. */
  lemma AgeIsElapsedMonths(dob: Date, today: Date)
    requires ValidDate(dob) && ValidDate(today) && !After(dob, today)
    ensures MonthsBetween(dob, today) >= 0
    ensures AgeFromDob(dob, today) == Shown(MonthsBetween(dob, today) / 12, MonthsBetween(dob, today) % 12)
  {
    var total := MonthsBetween(dob, today);
    var r := AgeFromDob(dob, today);
    assert r.years * 12 + r.months == total && 0 <= r.months < 12;
  }

  /** A trimmed, non-blank text field, or `None` (`normalizeNullable`). */
  function Field(s: Option<string>): Option<string> { TrimToNone(s) }

  /** `parseIntOrNull`: blank is `None`, and so is text `Integer.parseInt` rejects. */
  function ParseIntOrNull(s: Option<string>): (r: Option<int>)
    ensures s.None? || IsBlank(s.value) ==> r.None?
    ensures s.Some? && !IsBlank(s.value) ==> r == ParseInt(Trim(s.value))
  {
    if s.None? || Trim(s.value) == [] then None else ParseInt(Trim(s.value))
  }

  /** The trimmed part of a trimmed line before position `idx` is a prefix of the line. */
  lemma TrimmedSegmentStartsLine(t: string, idx: int)
    requires 0 < idx <= |t| && !IsTrimmable(t[0])
    ensures StartsWith(t, Trim(t[..idx]))
  {
    var seg := t[..idx];
    TrimIsPrefixWhenStartVisible(seg);
    var first := Trim(seg);
    assert |first| <= |seg|;
    assert t[..|first|] == seg[..|first|];
  }

  /** `extractCityFallbackFromFormatted`: the first comma-separated segment, trimmed, if it is non-empty. */
  function ExtractCityFallback(formatted: Option<string>): (r: Option<string>)
    ensures r.None? <==> formatted.None? || IsBlank(formatted.value)
    ensures r.Some? ==> r.value != [] && IsTrimmed(r.value) && StartsWith(Trim(formatted.value), r.value)
    ensures r.Some? && (forall i :: 0 <= i < |Trim(formatted.value)| ==> Trim(formatted.value)[i] != ',') ==>
      r.value == Trim(formatted.value)
  {
    if formatted.None? then None
    else
      var t := Trim(formatted.value);
      if t == [] then None
      else
        var idx := IndexOf(t, ',');
        if idx > 0 then
          var first := Trim(t[..idx]);
          if first == [] then Some(t)
          else
            TrimmedSegmentStartsLine(t, idx);
            Some(first)
        else Some(t)
  }

  /** The city a picked suggestion contributes: its own city, else the fallback from `formatted`. */
  function CityOf(s: SuggestionDto): (r: Option<string>)
    ensures Field(s.city).Some? ==> r == Field(s.city)
    ensures Field(s.city).None? ==> r == ExtractCityFallback(s.formatted)
  {
    if Field(s.city).Some? then Field(s.city) else ExtractCityFallback(s.formatted)
  }

  /** `handleOtherToggleForColor`: the free-text colour field shows for "другое…" in any case. */
  predicate ShowsOtherColor(color: Option<string>)
  {
    color.Some? && EqualsIgnoreCase(Trim(color.value), OtherColor)
  }

  /** The colour sent on save: the normalised free-text colour when "другое…" is chosen. */
  function ResolveColor(color: Option<string>, colorOther: Option<string>): (r: Option<string>)
    ensures r == Field(color) || r == Field(colorOther)
    ensures Field(color).None? ==> r.None?
  {
    if Field(color).Some? && EqualsIgnoreCase(Field(color).value, OtherColor) then Field(colorOther) else Field(color)
  }

  /** The save uses the free-text colour exactly when the toggle shows its field. */
  lemma ColorFollowsToggle(color: Option<string>, colorOther: Option<string>)
    ensures ShowsOtherColor(color) ==> ResolveColor(color, colorOther) == Field(colorOther)
    ensures !ShowsOtherColor(color) ==> ResolveColor(color, colorOther) == Field(color)
  {
    if color.Some? && Trim(color.value) == [] {
      assert !EqualsIgnoreCase(Trim(color.value), OtherColor) by {
        assert |ToLower(Trim(color.value))| == 0 != |ToLower(OtherColor)|;
      }
    }
  }

  datatype BreedList = CatBreeds | DogBreeds | FerretBreeds | BearBreeds | NoBreeds

  /** `updateBreedAdapterForSpecies`: the trimmed, lower-cased species selects a list; anything else disables it. */
  function BreedListFor(species: Option<string>): (b: BreedList)
    ensures b == CatBreeds <==> species.Some? && ToLower(Trim(species.value)) == "кошка"
    ensures b == DogBreeds <==> species.Some? && ToLower(Trim(species.value)) == "собака"
    ensures b == FerretBreeds <==> species.Some? && ToLower(Trim(species.value)) in {"хорёк", "хорек"}
    ensures b == BearBreeds <==> species.Some? && ToLower(Trim(species.value)) in {"медведь", "медвед"}
  {
    if species.None? then NoBreeds
    else
      var s := ToLower(Trim(species.value));
      if s == "кошка" then CatBreeds
      else if s == "собака" then DogBreeds
      else if s == "хорёк" || s == "хорек" then FerretBreeds
      else if s == "медведь" || s == "медвед" then BearBreeds
      else NoBreeds
  }

  /** The breed list does not depend on the case of the species. */
  lemma BreedListIgnoresCase(species: string)
    ensures BreedListFor(Some(ToLower(species))) == BreedListFor(Some(species))
  {
    TrimToLower(species);
    ToLowerIdempotent(Trim(species));
  }

  /** The drop-down label of one suggestion: its trimmed `formatted`, or "Адрес" when null or blank. */
  function SuggestionLabel(s: Option<SuggestionDto>): (l: string)
    ensures l != [] && IsTrimmed(l)
    ensures s.None? || Field(s.value.formatted).None? ==> l == AddressPlaceholder
    ensures s.Some? && Field(s.value.formatted).Some? ==> l == Trim(s.value.formatted.value)
  {
    if s.None? then AddressPlaceholder else TrimOr(s.value.formatted, AddressPlaceholder)
  }

  /** `mapSuggestionsToStrings`: one label per suggestion, index for index. */
  method MapSuggestionsToStrings(suggestions: seq<Option<SuggestionDto>>) returns (arr: array<string>)
    ensures fresh(arr) && arr.Length == |suggestions|
    ensures forall i :: 0 <= i < arr.Length ==> arr[i] == SuggestionLabel(suggestions[i])
  {
    arr := new string[|suggestions|];
    var i := 0;
    while i < |suggestions|
      invariant 0 <= i <= |suggestions|
      invariant forall j :: 0 <= j < i ==> arr[j] == SuggestionLabel(suggestions[j])
    {
      arr[i] := SuggestionLabel(suggestions[i]);
      i := i + 1;
    }
  }

  /** The form's text fields as read by `safeText` (`None` for null) and its three check boxes. */
  datatype FormFields = FormFields(
    name: Option<string>, species: Option<string>, breed: Option<string>, sex: Option<string>,
    dob: Option<string>, ageYears: Option<string>, ageMonths: Option<string>,
    color: Option<string>, colorOther: Option<string>, pattern: Option<string>,
    isNeutered: bool, isVaccinated: bool, isChipped: bool, chipNumber: Option<string>,
    temperament: Option<string>, description: Option<string>)

  /** The create/update body; weight and height are left out. */
  datatype AnimalBody = AnimalBody(
    name: string, species: string, breed: Option<string>, sex: string, dateOfBirth: Option<string>,
    approxAgeYears: Option<int>, approxAgeMonths: Option<int>, color: Option<string>, pattern: Option<string>,
    isNeutered: bool, isVaccinated: bool, isChipped: bool, chipNumber: Option<string>,
    temperamentNote: Option<string>, description: Option<string>,
    city: Option<string>, geoLat: Option<real>, geoLng: Option<real>)

  datatype SaveError =
    | NameRequired | SpeciesRequired | SexRequired | DateInvalid | DateInFuture
    | AgeYearsInvalid | AgeMonthsInvalid | ChipNumberRequired | AddressRequired

  /** The order in which `onSaveClicked` runs its checks. */
  function Rank(e: SaveError): nat
  {
    match e
    case NameRequired => 0
    case SpeciesRequired => 1
    case SexRequired => 2
    case DateInvalid => 3
    case DateInFuture => 4
    case AgeYearsInvalid => 5
    case AgeMonthsInvalid => 6
    case ChipNumberRequired => 7
    case AddressRequired => 8
  }

  datatype SaveOutcome = Rejected(error: SaveError) | Accepted(body: AnimalBody)

  /** The result of the birth-date step: rejected, or passed with or without a recomputed age. */
  datatype DobCheck = DobInvalid | DobInFuture | KeepAge | RecomputedAge(years: int, months: int)

  /**
   * The birth-date step as written: the block runs only when the date does NOT parse,
   * so it can only report "invalid"; a parsable date, future or not, passes and the age
   * fields are not recomputed.
   */
  function CheckDobAsWritten(dob: Option<string>, parseDate: string -> Option<Date>): (c: DobCheck)
    ensures c == DobInvalid <==> dob.Some? && parseDate(dob.value).None?
    ensures c != DobInFuture && !c.RecomputedAge?
  {
    if dob.Some? && parseDate(dob.value).None? then DobInvalid else KeepAge
  }

  /** The birth-date step as intended: unparsable is invalid, after today is rejected, else the age is recomputed. */
  function CheckDob(dob: Option<string>, parseDate: string -> Option<Date>, today: Date): (c: DobCheck)
    ensures c == DobInvalid <==> dob.Some? && parseDate(dob.value).None?
    ensures c == DobInFuture <==> dob.Some? && parseDate(dob.value).Some? && After(parseDate(dob.value).value, today)
    ensures c == KeepAge <==> dob.None?
    ensures c.RecomputedAge? ==>
      dob.Some? && parseDate(dob.value).Some? &&
      AgeFromDob(parseDate(dob.value).value, today) == Shown(c.years, c.months)
  {
    if dob.None? then KeepAge
    else match parseDate(dob.value)
      case None => DobInvalid
      case Some(d) =>
        match AgeFromDob(d, today)
        case Cleared => DobInFuture
        case Shown(y, m) => RecomputedAge(y, m)
  }

  /** The form as the checks read it: `normalizeNullable` on every text, `parseIntOrNull` on the ages, the colour rule. */
  datatype Normalized = Normalized(
    name: Option<string>, species: Option<string>, breed: Option<string>, sex: Option<string>,
    dob: Option<string>, ageYears: Option<int>, ageMonths: Option<int>,
    color: Option<string>, pattern: Option<string>,
    isNeutered: bool, isVaccinated: bool, isChipped: bool, chipNumber: Option<string>,
    temperament: Option<string>, description: Option<string>)

  function Normalize(f: FormFields): Normalized
  {
    Normalized(
      Field(f.name), Field(f.species), Field(f.breed), Field(f.sex), Field(f.dob),
      ParseIntOrNull(f.ageYears), ParseIntOrNull(f.ageMonths),
      ResolveColor(f.color, f.colorOther), Field(f.pattern),
      f.isNeutered, f.isVaccinated, f.isChipped, Field(f.chipNumber),
      Field(f.temperament), Field(f.description))
  }

  /** The age values the range checks see: recomputed ones, or what the fields parse to. */
  function AgeYears(n: Normalized, dob: DobCheck): Option<int>
  {
    if dob.RecomputedAge? then Some(dob.years) else n.ageYears
  }

  function AgeMonths(n: Normalized, dob: DobCheck): Option<int>
  {
    if dob.RecomputedAge? then Some(dob.months) else n.ageMonths
  }

  /** Whether the check that reports `e` fails. */
  predicate Fails(e: SaveError, n: Normalized, picked: Option<SuggestionDto>, dob: DobCheck)
  {
    match e
    case NameRequired => n.name.None?
    case SpeciesRequired => n.species.None?
    case SexRequired => n.sex.None?
    case DateInvalid => dob == DobInvalid
    case DateInFuture => dob == DobInFuture
    case AgeYearsInvalid => AgeYears(n, dob).Some? && !(0 <= AgeYears(n, dob).value <= MaxAgeYears)
    case AgeMonthsInvalid => AgeMonths(n, dob).Some? && !(0 <= AgeMonths(n, dob).value <= MaxAgeMonths)
    case ChipNumberRequired => n.isChipped && n.chipNumber.None?
    case AddressRequired => picked.None?
  }

  /** `onSaveClicked` after the birth-date step: the if-chain of checks, then the body. */
  function Complete(n: Normalized, picked: Option<SuggestionDto>, dob: DobCheck): (r: SaveOutcome)
    ensures r.Rejected? ==> Fails(r.error, n, picked, dob)
    ensures r.Accepted? ==> picked.Some? && r.body.city == CityOf(picked.value)
  {
    if n.name.None? then Rejected(NameRequired)
    else if n.species.None? then Rejected(SpeciesRequired)
    else if n.sex.None? then Rejected(SexRequired)
    else if dob == DobInvalid then Rejected(DateInvalid)
    else if dob == DobInFuture then Rejected(DateInFuture)
    else
      var years := AgeYears(n, dob);
      var months := AgeMonths(n, dob);
      if years.Some? && (years.value < 0 || years.value > MaxAgeYears) then Rejected(AgeYearsInvalid)
      else if months.Some? && (months.value < 0 || months.value > MaxAgeMonths) then Rejected(AgeMonthsInvalid)
      else if n.isChipped && n.chipNumber.None? then Rejected(ChipNumberRequired)
      else if picked.None? then Rejected(AddressRequired)
      else
        Accepted(AnimalBody(
          n.name.value, n.species.value, n.breed, n.sex.value, n.dob, years, months, n.color, n.pattern,
          n.isNeutered, n.isVaccinated, n.isChipped, n.chipNumber, n.temperament, n.description,
          CityOf(picked.value), picked.value.lat, picked.value.lon))
  }

  /**
   * The save reports the first failing check in the order of `Rank` and sends nothing;
   * it is accepted exactly when no check fails.
   */
  lemma CompleteReportsFirstFailure(n: Normalized, picked: Option<SuggestionDto>, dob: DobCheck)
    ensures var r := Complete(n, picked, dob);
      (r.Rejected? ==> Fails(r.error, n, picked, dob)) &&
      (r.Rejected? ==> forall e :: Rank(e) < Rank(r.error) ==> !Fails(e, n, picked, dob)) &&
      (r.Accepted? <==> forall e :: !Fails(e, n, picked, dob))
  {
    var r := Complete(n, picked, dob);
    if r.Rejected? {
      assert Fails(r.error, n, picked, dob);
    }
  }

  /** An accepted body holds the normalised fields, the checked ages and the picked place. */
  lemma CompleteBody(n: Normalized, picked: Option<SuggestionDto>, dob: DobCheck)
    requires Complete(n, picked, dob).Accepted?
    ensures var b := Complete(n, picked, dob).body;
      Some(b.name) == n.name && Some(b.species) == n.species && Some(b.sex) == n.sex &&
      b.dateOfBirth == n.dob && b.color == n.color && b.chipNumber == n.chipNumber &&
      b.approxAgeYears == AgeYears(n, dob) && b.approxAgeMonths == AgeMonths(n, dob) &&
      (b.approxAgeYears.Some? ==> 0 <= b.approxAgeYears.value <= MaxAgeYears) &&
      (b.approxAgeMonths.Some? ==> 0 <= b.approxAgeMonths.value <= MaxAgeMonths) &&
      (b.isChipped ==> b.chipNumber.Some?) &&
      picked.Some? && b.city == CityOf(picked.value) && b.geoLat == picked.value.lat && b.geoLng == picked.value.lon
  {
  }

  /** An accepted save passed the birth-date step, and a recomputed age is the one sent. */
  lemma CompleteAcceptsOnlyGoodDob(n: Normalized, picked: Option<SuggestionDto>, dob: DobCheck)
    requires Complete(n, picked, dob).Accepted?
    ensures dob != DobInvalid && dob != DobInFuture
    ensures dob.RecomputedAge? ==>
      Complete(n, picked, dob).body.approxAgeYears == Some(dob.years) &&
      Complete(n, picked, dob).body.approxAgeMonths == Some(dob.months)
  {
  }

  /** `onSaveClicked` as written. */
  function ValidateAsWritten(
    f: FormFields, picked: Option<SuggestionDto>, parseDate: string -> Option<Date>, today: Date): (r: SaveOutcome)
    ensures r != Rejected(DateInFuture)
  {
    var n := Normalize(f);
    Complete(n, picked, CheckDobAsWritten(n.dob, parseDate))
  }

  /** `onSaveClicked` with the birth-date step as intended. */
  function Validate(
    f: FormFields, picked: Option<SuggestionDto>, parseDate: string -> Option<Date>, today: Date): (r: SaveOutcome)
    ensures r.Accepted? && Field(f.dob).Some? ==>
      parseDate(Field(f.dob).value).Some? && !After(parseDate(Field(f.dob).value).value, today)
  {
    var n := Normalize(f);
    Complete(n, picked, CheckDob(n.dob, parseDate, today))
  }

  /**
   * As written, a well-formed birth date in the future (say "2999-01-01") is saved: the
   * future-date rejection is unreachable.
   */
  lemma AsWrittenAcceptsFutureDob(picked: SuggestionDto, parseDate: string -> Option<Date>, today: Date)
    requires parseDate("2999-01-01") == Some(Date(2999, 0, 1)) && today.year < 2999
    ensures var f := FormFields(
        Some("Барсик"), Some("кошка"), None, Some("male"), Some("2999-01-01"), None, None,
        None, None, None, false, false, false, None, None, None);
      After(Date(2999, 0, 1), today) &&
      ValidateAsWritten(f, Some(picked), parseDate, today).Accepted? &&
      ValidateAsWritten(f, Some(picked), parseDate, today).body.dateOfBirth == Some("2999-01-01")
  {
    var f := FormFields(
        Some("Барсик"), Some("кошка"), None, Some("male"), Some("2999-01-01"), None, None,
        None, None, None, false, false, false, None, None, None);
    TrimmedIffFixed("2999-01-01");
    TrimmedIffFixed("Барсик");
    TrimmedIffFixed("кошка");
    TrimmedIffFixed("male");
    var n := Normalize(f);
    assert n.dob == Some("2999-01-01") && n.name.Some? && n.species.Some? && n.sex.Some?;
    assert n.ageYears.None? && n.ageMonths.None? && !n.isChipped;
    assert CheckDobAsWritten(n.dob, parseDate) == KeepAge;
  }

  /** With the intended step, an accepted birth date parses, is not after today, and sets the age. */
  lemma ValidateRejectsFutureDob(
    f: FormFields, picked: Option<SuggestionDto>, parseDate: string -> Option<Date>, today: Date)
    requires Validate(f, picked, parseDate, today).Accepted? && Field(f.dob).Some?
    ensures parseDate(Field(f.dob).value).Some?
    ensures !After(parseDate(Field(f.dob).value).value, today)
    ensures var b := Validate(f, picked, parseDate, today).body;
      var age := AgeFromDob(parseDate(Field(f.dob).value).value, today);
      age.Shown? && b.approxAgeYears == Some(age.years) && b.approxAgeMonths == Some(age.months)
  {
    var n := Normalize(f);
    var c := CheckDob(n.dob, parseDate, today);
    CompleteAcceptsOnlyGoodDob(n, picked, c);
  }

  /** What the save button leads to. */
  /** The lookup `requestAddressAutocomplete` sends: its sequence number, the query, 8 results, Russian. */
  datatype AddressLookup = AddressLookup(seqNo: int, query: string, limit: int, lang: string)

  const AddressLang: string := "ru"

  datatype SaveAttempt = Busy | Invalid(error: SaveError) | SendCreate(body: AnimalBody) | SendUpdate(id: int, body: AnimalBody)

  /** The activity's own state: busy flag, edit target and the address autocomplete. */
  class AnimalFormActivity {
    /** `Some(id)` in edit mode, `None` when creating. */
    var editAnimalId: Option<int>
    var isBusy: bool
    var addressLoading: bool
    var addressRequestSeq: int
    var selectedSuggestion: Option<SuggestionDto>
    var lastSuggestions: Option<seq<Option<SuggestionDto>>>
    /** The trimmed query of the pending debounced request, if one is scheduled. */
    var pendingQuery: Option<string>

    constructor (editAnimalId: Option<int>)
      ensures this.editAnimalId == editAnimalId && !isBusy && !addressLoading && addressRequestSeq == 0
      ensures selectedSuggestion.None? && lastSuggestions.None? && pendingQuery.None?
    {
      this.editAnimalId := editAnimalId;
      isBusy := false;
      addressLoading := false;
      addressRequestSeq := 0;
      selectedSuggestion := None;
      lastSuggestions := None;
      pendingQuery := None;
    }

    /** The address text watcher: typing drops the picked suggestion, then reschedules the lookup. */
    method OnAddressTextChanged(text: Option<string>)
      modifies this
      ensures selectedSuggestion.None?
      ensures |Trim(text.GetOr([]))| < AddressMinChars ==> lastSuggestions.None? && pendingQuery.None?
      ensures |Trim(text.GetOr([]))| >= AddressMinChars ==>
        pendingQuery == Some(Trim(text.GetOr([]))) && lastSuggestions == old(lastSuggestions)
      ensures addressRequestSeq == old(addressRequestSeq) && isBusy == old(isBusy)
      ensures editAnimalId == old(editAnimalId) && addressLoading == old(addressLoading)
    {
      selectedSuggestion := None;
      ScheduleAddressAutocomplete(text.GetOr([]));
    }

    /** `scheduleAddressAutocomplete`: cancels the pending lookup; a query under 3 characters drops the suggestions. */
    method ScheduleAddressAutocomplete(query: string)
      modifies this
      ensures |Trim(query)| < AddressMinChars ==> lastSuggestions.None? && pendingQuery.None?
      ensures |Trim(query)| >= AddressMinChars ==> pendingQuery == Some(Trim(query)) && lastSuggestions == old(lastSuggestions)
      ensures addressRequestSeq == old(addressRequestSeq) && isBusy == old(isBusy)
      ensures selectedSuggestion == old(selectedSuggestion) && editAnimalId == old(editAnimalId)
      ensures addressLoading == old(addressLoading)
    {
      pendingQuery := None;
      var trimmed := Trim(query);
      if |trimmed| < AddressMinChars {
        lastSuggestions := None;
        return;
      }
      pendingQuery := Some(trimmed);
    }

    /** `requestAddressAutocomplete`: skipped while busy, otherwise numbered with the next sequence value. */
    method RequestAddressAutocomplete(query: string) returns (sent: Option<AddressLookup>)
      modifies this
      ensures isBusy ==> sent.None? && addressRequestSeq == old(addressRequestSeq)
      ensures !isBusy ==>
        addressRequestSeq == old(addressRequestSeq) + 1 && addressLoading &&
        sent == Some(AddressLookup(addressRequestSeq, query, AddressLimit, AddressLang))
      ensures isBusy == old(isBusy) && selectedSuggestion == old(selectedSuggestion)
      ensures lastSuggestions == old(lastSuggestions) && editAnimalId == old(editAnimalId)
      ensures pendingQuery.None?
    {
      pendingQuery := None;
      if isBusy {
        return None;
      }
      addressLoading := true;
      addressRequestSeq := addressRequestSeq + 1;
      sent := Some(AddressLookup(addressRequestSeq, query, AddressLimit, AddressLang));
    }

    /**
     * The debounce timer firing: the scheduled lookup runs with the trimmed text it was
     * scheduled for; with nothing scheduled nothing happens.
     */
    method FirePendingLookup() returns (sent: Option<AddressLookup>)
      modifies this
      ensures old(pendingQuery).None? ==> sent.None? && addressRequestSeq == old(addressRequestSeq)
      ensures old(pendingQuery).Some? && !isBusy ==>
        sent == Some(AddressLookup(old(addressRequestSeq) + 1, old(pendingQuery).value, AddressLimit, AddressLang))
      ensures old(pendingQuery).Some? && isBusy ==> sent.None? && addressRequestSeq == old(addressRequestSeq)
      ensures isBusy == old(isBusy) && selectedSuggestion == old(selectedSuggestion)
      ensures lastSuggestions == old(lastSuggestions) && editAnimalId == old(editAnimalId)
      ensures pendingQuery.None?
    {
      if pendingQuery.None? {
        return None;
      }
      sent := RequestAddressAutocomplete(pendingQuery.value);
    }

    /** The success callback: only the reply to the latest request is applied. */
    method OnSuggestions(seqNo: int, suggestions: seq<Option<SuggestionDto>>) returns (labels: Option<array<string>>)
      modifies this
      ensures seqNo != old(addressRequestSeq) ==>
        labels.None? && addressLoading == old(addressLoading) && lastSuggestions == old(lastSuggestions)
      ensures seqNo == old(addressRequestSeq) ==>
        labels.Some? && fresh(labels.value) && !addressLoading && lastSuggestions == Some(suggestions) &&
        labels.value.Length == |suggestions| &&
        forall i :: 0 <= i < |suggestions| ==> labels.value[i] == SuggestionLabel(suggestions[i])
      ensures addressRequestSeq == old(addressRequestSeq) && isBusy == old(isBusy)
      ensures selectedSuggestion == old(selectedSuggestion) && editAnimalId == old(editAnimalId)
      ensures pendingQuery == old(pendingQuery)
    {
      if seqNo != addressRequestSeq {
        return None;
      }
      addressLoading := false;
      lastSuggestions := Some(suggestions);
      var items := MapSuggestionsToStrings(suggestions);
      labels := Some(items);
    }

    /** The error callback: a reply to the latest request drops the suggestions; older replies are ignored. */
    method OnSuggestionsError(seqNo: int)
      modifies this
      ensures seqNo != old(addressRequestSeq) ==> addressLoading == old(addressLoading) && lastSuggestions == old(lastSuggestions)
      ensures seqNo == old(addressRequestSeq) ==> !addressLoading && lastSuggestions.None?
      ensures addressRequestSeq == old(addressRequestSeq) && isBusy == old(isBusy)
      ensures selectedSuggestion == old(selectedSuggestion) && editAnimalId == old(editAnimalId)
      ensures pendingQuery == old(pendingQuery)
    {
      if seqNo != addressRequestSeq {
        return;
      }
      addressLoading := false;
      lastSuggestions := None;
    }

    /** A tap on a drop-down row: the suggestion at that position, or none when out of range. */
    method OnSuggestionClicked(position: int)
      modifies this
      ensures lastSuggestions.Some? && 0 <= position < |lastSuggestions.value| ==>
        selectedSuggestion == lastSuggestions.value[position]
      ensures !(lastSuggestions.Some? && 0 <= position < |lastSuggestions.value|) ==> selectedSuggestion.None?
      ensures lastSuggestions == old(lastSuggestions) && addressRequestSeq == old(addressRequestSeq)
      ensures isBusy == old(isBusy) && addressLoading == old(addressLoading)
      ensures editAnimalId == old(editAnimalId) && pendingQuery == old(pendingQuery)
    {
      if lastSuggestions.None? || position < 0 || position >= |lastSuggestions.value| {
        selectedSuggestion := None;
        return;
      }
      selectedSuggestion := lastSuggestions.value[position];
    }

    /**
     * `onSaveClicked`: ignored while busy; a valid form is sent (create or update) and makes
     * the screen busy. The form is checked by the corrected `Validate`, which also refuses a
     * date of birth in the future; `ValidateAsWritten` is the check as the app performs it.
     */
    method OnSaveClicked(f: FormFields, parseDate: string -> Option<Date>, today: Date) returns (attempt: SaveAttempt)
      modifies this`isBusy
      ensures old(isBusy) ==> attempt == Busy
      ensures !old(isBusy) ==> var v := Validate(f, selectedSuggestion, parseDate, today);
        (v.Rejected? ==> attempt == Invalid(v.error)) &&
        (v.Accepted? && editAnimalId.Some? ==> attempt == SendUpdate(editAnimalId.value, v.body)) &&
        (v.Accepted? && editAnimalId.None? ==> attempt == SendCreate(v.body))
      ensures isBusy <==> old(isBusy) || attempt.SendCreate? || attempt.SendUpdate?
    {
      if isBusy {
        return Busy;
      }
      var outcome := Validate(f, selectedSuggestion, parseDate, today);
      if outcome.Rejected? {
        return Invalid(outcome.error);
      }
      isBusy := true;
      if editAnimalId.Some? {
        attempt := SendUpdate(editAnimalId.value, outcome.body);
      } else {
        attempt := SendCreate(outcome.body);
      }
    }

    /** The create/update callback: the screen is no longer busy; it closes on success. */
    method OnSaveResult(success: bool) returns (finished: bool)
      modifies this`isBusy
      ensures !isBusy && (finished <==> success)
    {
      isBusy := false;
      finished := success;
    }
  }
}
