/**
 * EditProfileFieldActivity: the one-field editor opened from the profile screen. Saving
 * checks the field by its type and returns the trimmed value; a location also returns a
 * structured payload, taken from the picked address suggestion or from the free text.
 * For a location the input drives a debounced address lookup whose results are shown
 * as a list of labels aligned index by index with their suggestions.
 */
module EditProfileField {
  import opened Wrappers
  import opened Text
  import opened AddressRepo
  import opened Filtering

  const FieldName: string := "name"
  const FieldAge: string := "age"
  const FieldAbout: string := "about"
  const FieldLocation: string := "location"

  /** One of the four field types the editor knows. */
  predicate IsKnownField(t: string)
  {
    t == FieldName || t == FieldAge || t == FieldAbout || t == FieldLocation
  }

  const AddressMinLength: int := 3
  const AddressLimit: int := 5
  const MaxAge: int := 120
  const AboutMaxLength: int := 512
  const LocationMaxLength: int := 256

  /** `LocationPayload`: texts are trimmed or absent; coordinates are passed through. */
  datatype LocationPayload = LocationPayload(
    formatted: Option<string>,
    city: Option<string>,
    state: Option<string>,
    country: Option<string>,
    postcode: Option<string>,
    lat: Option<real>,
    lon: Option<real>,
    resultType: Option<string>,
    confidence: Option<real>)

  /** A text as `safeTrimToNull` leaves it: absent, or trimmed and not empty. */
  predicate Clean(t: Option<string>)
  {
    t.Some? ==> t.value != [] && IsTrimmed(t.value)
  }

  predicate CleanPayload(p: LocationPayload)
  {
    Clean(p.formatted) && Clean(p.city) && Clean(p.state) && Clean(p.country) &&
    Clean(p.postcode) && Clean(p.resultType)
  }

  /** `safeTrimToNull` leaves a clean text, and keeps every text that is already clean. */
  lemma TrimToNoneCleans(t: Option<string>)
    ensures Clean(TrimToNone(t))
    ensures Clean(t) ==> TrimToNone(t) == t
  {
    if t.Some? {
      TrimmedIffFixed(t.value);
      TrimIdempotent(t.value);
    }
  }

  /** `fromSuggestion`: the suggestion's texts, cleaned, with its coordinates and confidence as they are. */
  function FromSuggestion(s: SuggestionDto): (p: LocationPayload)
    ensures CleanPayload(p)
    ensures p.lat == s.lat && p.lon == s.lon && p.confidence == s.confidence
    ensures p.formatted.Some? <==> s.formatted.Some? && !IsBlank(s.formatted.value)
    ensures p.city.Some? <==> s.city.Some? && !IsBlank(s.city.value)
  {
    TrimToNoneCleans(s.formatted);
    TrimToNoneCleans(s.city);
    TrimToNoneCleans(s.state);
    TrimToNoneCleans(s.country);
    TrimToNoneCleans(s.postcode);
    TrimToNoneCleans(s.resultType);
    LocationPayload(
      TrimToNone(s.formatted), TrimToNone(s.city), TrimToNone(s.state), TrimToNone(s.country),
      TrimToNone(s.postcode), s.lat, s.lon, TrimToNone(s.resultType), s.confidence)
  }

  /** `fromFreeText`: only the address line is known; everything else is absent. */
  function FromFreeText(text: string): (p: LocationPayload)
    ensures CleanPayload(p)
    ensures p.city.None? && p.state.None? && p.country.None? && p.postcode.None?
    ensures p.lat.None? && p.lon.None? && p.resultType.None? && p.confidence.None?
    ensures p.formatted.Some? <==> !IsBlank(text)
  {
    TrimToNoneCleans(Some(text));
    LocationPayload(TrimToNone(Some(text)), None, None, None, None, None, None, None, None)
  }

  /** A clean payload built from a suggestion gives back the same payload when built again from its own texts. */
  lemma FromSuggestionIdempotent(s: SuggestionDto)
    ensures var p := FromSuggestion(s);
      FromSuggestion(SuggestionDto(p.formatted, p.lat, p.lon, p.country, p.state, p.city, p.postcode,
                                   p.resultType, p.confidence)) == p
  {
    var p := FromSuggestion(s);
    TrimToNoneCleans(p.formatted);
    TrimToNoneCleans(p.city);
    TrimToNoneCleans(p.state);
    TrimToNoneCleans(p.country);
    TrimToNoneCleans(p.postcode);
    TrimToNoneCleans(p.resultType);
  }

  /** Why a save is refused; each is a toast and the screen stays open. */
  datatype FieldError = NameEmpty | AgeInvalid | AboutTooLong | LocationTooLong

  /** What the save button does: close (no field type), refuse, or return a result. */
  datatype SaveResult =
    | Finish
    | Refused(error: FieldError)
    | Saved(fieldType: string, value: string, location: Option<LocationPayload>)

  /** The age check: an empty field is allowed, otherwise a 32-bit integer in 1..120. */
  predicate AgeAccepted(trimmed: string)
  {
    trimmed == [] || (ParseInt(trimmed).Some? && 0 < ParseInt(trimmed).value <= MaxAge)
  }

  /**
   * `onSaveClicked` for the text in the input and the suggestion picked, if any. The
   * field type picks the check, and the value returned is the trimmed input. A location
   * instead returns its payload's address line, or "" when there is none.
   */
  function Save(fieldType: Option<string>, input: string, selected: Option<SuggestionDto>): (r: SaveResult)
    ensures r.Finish? <==> fieldType.None?
    ensures r.Saved? ==> r.fieldType == fieldType.value && IsTrimmed(r.value)
    ensures r.Saved? ==> (r.location.Some? <==> r.fieldType == FieldLocation)
    ensures fieldType == Some(FieldName) ==>
      (r.Refused? <==> IsBlank(input)) && (r.Refused? ==> r.error == NameEmpty) &&
      (r.Saved? ==> r.value == Trim(input) && r.value != [])
    ensures fieldType == Some(FieldAge) ==>
      (r.Refused? <==> !AgeAccepted(Trim(input))) && (r.Refused? ==> r.error == AgeInvalid) &&
      (r.Saved? ==> r.value == Trim(input))
    ensures fieldType == Some(FieldAbout) ==>
      (r.Refused? <==> |Trim(input)| > AboutMaxLength) && (r.Refused? ==> r.error == AboutTooLong) &&
      (r.Saved? ==> r.value == Trim(input))
    ensures fieldType == Some(FieldLocation) ==>
      (r.Refused? <==> |Trim(input)| > LocationMaxLength) && (r.Refused? ==> r.error == LocationTooLong) &&
      (r.Saved? && selected.Some? ==> r.location == Some(FromSuggestion(selected.value))) &&
      (r.Saved? && selected.None? ==> r.location == Some(FromFreeText(Trim(input)))) &&
      (r.Saved? ==> r.value == r.location.value.formatted.GetOr([]))
    ensures fieldType.Some? && !IsKnownField(fieldType.value) ==> r == Saved(fieldType.value, Trim(input), None)
  {
    if fieldType.None? then Finish
    else
      var t := fieldType.value;
      var trimmed := Trim(input);
      if t == FieldName then
        if trimmed == [] then Refused(NameEmpty) else Saved(t, trimmed, None)
      else if t == FieldAge then
        if AgeAccepted(trimmed) then Saved(t, trimmed, None) else Refused(AgeInvalid)
      else if t == FieldAbout then
        if |trimmed| > AboutMaxLength then Refused(AboutTooLong) else Saved(t, trimmed, None)
      else if t == FieldLocation then
        if |trimmed| > LocationMaxLength then Refused(LocationTooLong)
        else
          var p := if selected.Some? then FromSuggestion(selected.value) else FromFreeText(trimmed);
          Saved(t, p.formatted.GetOr([]), Some(p))
      else Saved(t, trimmed, None)
  }

  /** Without a picked suggestion, a saved location's text is exactly the trimmed input. */
  lemma FreeTextLocationKeepsText(input: string)
    requires |Trim(input)| <= LocationMaxLength
    ensures Save(Some(FieldLocation), input, None) ==
      Saved(FieldLocation, Trim(input), Some(FromFreeText(Trim(input))))
  {
    TrimIdempotent(input);
  }

  /** Saving the returned value again returns the same result: the checks accept what they produced. */
  lemma SaveIdempotent(fieldType: Option<string>, input: string)
    requires Save(fieldType, input, None).Saved?
    ensures var r := Save(fieldType, input, None);
      Save(fieldType, r.value, None) == r
  {
    var r := Save(fieldType, input, None);
    TrimIdempotent(input);
    if r.fieldType == FieldLocation {
      FreeTextLocationKeepsText(input);
      FreeTextLocationKeepsText(r.value);
    }
  }

  /** Picking a suggestion and saving returns that suggestion's payload and its trimmed address line. */
  lemma PickedSuggestionSaved(dto: SuggestionDto)
    requires |Trim(dto.formatted.GetOr([]))| <= LocationMaxLength
    ensures Save(Some(FieldLocation), Trim(dto.formatted.GetOr([])), Some(dto)) ==
      Saved(FieldLocation, Trim(dto.formatted.GetOr([])), Some(FromSuggestion(dto)))
  {
    TrimIdempotent(dto.formatted.GetOr([]));
  }

  /** The label a suggestion gets in the list, if it gets one: its address line, trimmed and not empty. */
  function Label(dto: SuggestionDto): Option<string>
  {
    TrimToNone(dto.formatted)
  }

  /** "Gets a label", as the element test of `Filter`. */
  function LabelledFn(): SuggestionDto -> bool
  {
    (d: SuggestionDto) => Label(d).Some?
  }

  /** The suggestions `updateAddressSuggestionsFromDtos` lists, in order: those that get a label. */
  function Listed(dtos: seq<SuggestionDto>): (r: seq<SuggestionDto>)
    ensures forall i :: 0 <= i < |r| ==> r[i] in dtos && Label(r[i]).Some?
    ensures forall d :: d in dtos && Label(d).Some? ==> d in r
    ensures forall d :: multiset(r)[d] == if Label(d).Some? then multiset(dtos)[d] else 0
    ensures |r| <= |dtos|
  {
    FilterCounts(dtos, LabelledFn());
    FilterLength(dtos, LabelledFn());
    Filter(dtos, LabelledFn())
  }

  /** Each listed suggestion has, at the same position, its label. */
  predicate Aligned(labels: seq<string>, listed: seq<SuggestionDto>)
  {
    |labels| == |listed| &&
    forall j :: 0 <= j < |listed| ==> Label(listed[j]) == Some(labels[j])
  }

  /** Appending a suggestion and its label keeps the two lists aligned. */
  lemma AlignedAppend(labels: seq<string>, listed: seq<SuggestionDto>, text: string, dto: SuggestionDto)
    requires Aligned(labels, listed) && Label(dto) == Some(text)
    ensures Aligned(labels + [text], listed + [dto])
  {
    var ls, ds := labels + [text], listed + [dto];
    forall j | 0 <= j < |ds|
      ensures Label(ds[j]) == Some(ls[j])
    {
      if j < |listed| {
        assert ds[j] == listed[j] && ls[j] == labels[j];
      }
    }
  }

  /**
   * The loop of `updateAddressSuggestionsFromDtos`: the suggestions with a non-blank address
   * line, in order, and beside each its trimmed line.
   */
  method SuggestionRows(dtos: seq<SuggestionDto>) returns (labels: seq<string>, listed: seq<SuggestionDto>)
    ensures listed == Listed(dtos) && |labels| == |listed|
    ensures forall j :: 0 <= j < |listed| ==> Label(listed[j]) == Some(labels[j])
  {
    labels, listed := [], [];
    var i := 0;
    while i < |dtos|
      invariant 0 <= i <= |dtos|
      invariant listed == Filter(dtos[..i], LabelledFn()) && Aligned(labels, listed)
    {
      var dto := dtos[i];
      FilterStep(dtos, i, LabelledFn());
      assert LabelledFn()(dto) == Label(dto).Some?;
      var row := Label(dto);
      if row.Some? {
        AlignedAppend(labels, listed, row.value, dto);
        labels := labels + [row.value];
        listed := listed + [dto];
      }
      i := i + 1;
    }
    assert dtos[..|dtos|] == dtos;
  }

  /** The lookup `requestAddressSuggestions` sends. */
  datatype AutocompleteRequest = AutocompleteRequest(query: string, limit: int, lang: string)

  const AddressLang: string := "ru"

  class EditProfileFieldActivity {
    /** `None` when the screen was opened without a field type. */
    var fieldType: Option<string>
    var inputText: string
    /** True for a location: only then do the suggestion list and the repository exist. */
    var autocompleteEnabled: bool
    var addressSuggestions: seq<string>
    var addressSuggestionDtos: seq<SuggestionDto>
    var suggestionsVisible: bool
    var selectedSuggestion: Option<SuggestionDto>
    var lastAddressQuery: Option<string>
    /** The query of the debounced lookup waiting to run, if any. */
    var pendingQuery: Option<string>

    /** Row i of the list shows the label of suggestion i; only a location screen has rows. */
    predicate Valid()
      reads this
    {
      |addressSuggestions| == |addressSuggestionDtos| &&
      (forall i :: 0 <= i < |addressSuggestionDtos| ==> Label(addressSuggestionDtos[i]) == Some(addressSuggestions[i])) &&
      (!autocompleteEnabled ==> addressSuggestions == [] && pendingQuery.None?) &&
      (pendingQuery.Some? ==> |pendingQuery.value| >= AddressMinLength)
    }

    /** `onCreate`: a non-empty initial value is put in the input without triggering a lookup. */
    constructor (fieldType: Option<string>, initialValue: Option<string>)
      ensures Valid()
      ensures this.fieldType == fieldType
      ensures inputText == (if initialValue.Some? then initialValue.value else [])
      ensures autocompleteEnabled <==> fieldType == Some(FieldLocation)
      ensures addressSuggestions == [] && addressSuggestionDtos == [] && !suggestionsVisible
      ensures selectedSuggestion.None? && lastAddressQuery.None? && pendingQuery.None?
    {
      this.fieldType := fieldType;
      inputText := if initialValue.Some? then initialValue.value else [];
      autocompleteEnabled := fieldType == Some(FieldLocation);
      addressSuggestions := [];
      addressSuggestionDtos := [];
      suggestionsVisible := false;
      selectedSuggestion := None;
      lastAddressQuery := None;
      pendingQuery := None;
    }

    /** The user edits the input; on a location screen the watcher drops the pick and handles the trimmed text. */
    method OnTextEdited(text: string)
      requires Valid()
      modifies this
      ensures Valid()
      ensures inputText == text && fieldType == old(fieldType) && autocompleteEnabled == old(autocompleteEnabled)
      ensures !autocompleteEnabled ==>
        selectedSuggestion == old(selectedSuggestion) && lastAddressQuery == old(lastAddressQuery) &&
        pendingQuery == old(pendingQuery) && addressSuggestions == old(addressSuggestions)
      ensures autocompleteEnabled ==> selectedSuggestion.None? && lastAddressQuery == Some(Trim(text))
      ensures autocompleteEnabled && |Trim(text)| < AddressMinLength ==>
        addressSuggestions == [] && addressSuggestionDtos == [] && !suggestionsVisible && pendingQuery == old(pendingQuery)
      ensures autocompleteEnabled && |Trim(text)| >= AddressMinLength ==>
        pendingQuery == Some(Trim(text)) && addressSuggestions == old(addressSuggestions) &&
        addressSuggestionDtos == old(addressSuggestionDtos)
    {
      inputText := text;
      if autocompleteEnabled {
        selectedSuggestion := None;
        HandleAddressTextChanged(Trim(text));
      }
    }

    /** `handleAddressTextChanged`: remembers the query; a short one clears the list, a long one is scheduled. */
    method HandleAddressTextChanged(query: string)
      requires Valid() && autocompleteEnabled
      modifies this
      ensures Valid()
      ensures lastAddressQuery == Some(query)
      ensures |query| < AddressMinLength ==>
        addressSuggestions == [] && addressSuggestionDtos == [] && !suggestionsVisible && pendingQuery == old(pendingQuery)
      ensures |query| >= AddressMinLength ==>
        pendingQuery == Some(query) && addressSuggestions == old(addressSuggestions) &&
        addressSuggestionDtos == old(addressSuggestionDtos) && suggestionsVisible == old(suggestionsVisible)
      ensures fieldType == old(fieldType) && inputText == old(inputText) && autocompleteEnabled
      ensures selectedSuggestion == old(selectedSuggestion)
    {
      lastAddressQuery := Some(query);
      if |query| < AddressMinLength {
        ClearAddressSuggestions();
        return;
      }
      pendingQuery := Some(query);
    }

    /**
     * `requestAddressSuggestions`, run when the debounce delay of `query` ends: it goes out
     * only while the query is still the latest one typed.
     */
    method RequestAddressSuggestions(query: string) returns (request: Option<AutocompleteRequest>)
      ensures request.Some? <==> autocompleteEnabled && lastAddressQuery == Some(query)
      ensures request.Some? ==> request.value == AutocompleteRequest(query, AddressLimit, AddressLang)
    {
      if !autocompleteEnabled {
        return None;
      }
      if lastAddressQuery != Some(query) {
        return None;
      }
      request := Some(AutocompleteRequest(query, AddressLimit, AddressLang));
    }

    /** `updateAddressSuggestionsFromDtos`: rebuilds the list from the suggestions with a non-blank address line. */
    method UpdateAddressSuggestionsFromDtos(dtos: seq<SuggestionDto>)
      requires Valid()
      modifies this
      ensures Valid()
      ensures autocompleteEnabled ==>
        addressSuggestionDtos == Listed(dtos) &&
        (suggestionsVisible <==> addressSuggestions != [])
      ensures !autocompleteEnabled ==>
        addressSuggestions == old(addressSuggestions) && suggestionsVisible == old(suggestionsVisible)
      ensures fieldType == old(fieldType) && inputText == old(inputText) && autocompleteEnabled == old(autocompleteEnabled)
      ensures selectedSuggestion == old(selectedSuggestion) && lastAddressQuery == old(lastAddressQuery)
      ensures pendingQuery == old(pendingQuery)
    {
      if !autocompleteEnabled {
        return;
      }
      var labels, listed := SuggestionRows(dtos);
      addressSuggestions := labels;
      addressSuggestionDtos := listed;
      suggestionsVisible := addressSuggestions != [];
    }

    /** The lookup failed: the list is cleared. */
    method OnSuggestionsError()
      requires Valid()
      modifies this
      ensures Valid()
      ensures addressSuggestions == [] && addressSuggestionDtos == []
      ensures autocompleteEnabled ==> !suggestionsVisible
      ensures fieldType == old(fieldType) && inputText == old(inputText) && autocompleteEnabled == old(autocompleteEnabled)
      ensures selectedSuggestion == old(selectedSuggestion) && lastAddressQuery == old(lastAddressQuery)
    {
      ClearAddressSuggestions();
    }

    /** `clearAddressSuggestions`: empties the list and hides it (nothing exists to clear off a location screen). */
    method ClearAddressSuggestions()
      requires Valid()
      modifies this
      ensures Valid()
      ensures addressSuggestions == [] && addressSuggestionDtos == []
      ensures autocompleteEnabled ==> !suggestionsVisible
      ensures !autocompleteEnabled ==> suggestionsVisible == old(suggestionsVisible)
      ensures fieldType == old(fieldType) && inputText == old(inputText) && autocompleteEnabled == old(autocompleteEnabled)
      ensures selectedSuggestion == old(selectedSuggestion) && lastAddressQuery == old(lastAddressQuery)
      ensures pendingQuery == old(pendingQuery)
    {
      if !autocompleteEnabled {
        return;
      }
      addressSuggestions := [];
      addressSuggestionDtos := [];
      suggestionsVisible := false;
    }

    /** A click on row `position`: out-of-range rows are ignored; otherwise the row's suggestion is picked. */
    method OnSuggestionClicked(position: int)
      requires Valid()
      modifies this
      ensures Valid()
      ensures !(0 <= position < |old(addressSuggestionDtos)|) ==>
        selectedSuggestion == old(selectedSuggestion) && inputText == old(inputText) &&
        addressSuggestions == old(addressSuggestions)
      ensures 0 <= position < |old(addressSuggestionDtos)| ==>
        selectedSuggestion == Some(old(addressSuggestionDtos)[position]) &&
        inputText == old(addressSuggestions)[position] && addressSuggestions == []
      ensures fieldType == old(fieldType) && autocompleteEnabled == old(autocompleteEnabled)
      ensures lastAddressQuery == old(lastAddressQuery)
    {
      if position < 0 || position >= |addressSuggestionDtos| {
        return;
      }
      var dto := addressSuggestionDtos[position];
      OnSuggestionSelected(dto);
    }

    /** `onSuggestionSelected`: the pick is kept and its trimmed address line is put in the input. */
    method OnSuggestionSelected(dto: SuggestionDto)
      requires Valid()
      modifies this
      ensures Valid()
      ensures selectedSuggestion == Some(dto) && inputText == Trim(dto.formatted.GetOr([]))
      ensures addressSuggestions == [] && addressSuggestionDtos == []
      ensures fieldType == old(fieldType) && autocompleteEnabled == old(autocompleteEnabled)
      ensures lastAddressQuery == old(lastAddressQuery) && pendingQuery == old(pendingQuery)
    {
      selectedSuggestion := Some(dto);
      inputText := Trim(dto.formatted.GetOr([]));
      ClearAddressSuggestions();
    }

    /** The save button: the result for the current input and pick; the screen's state is not changed. */
    method OnSaveClicked() returns (r: SaveResult)
      ensures r == Save(fieldType, inputText, selectedSuggestion)
    {
      if fieldType.None? {
        return Finish;
      }
      r := Save(fieldType, inputText, selectedSuggestion);
    }
  }
}
