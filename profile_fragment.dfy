/**
 * ProfileFragment: the profile screen. It shows the cached or loaded `MeResponse`, and
 * turns each edited field into an `UpdateProfileRequest` that changes only that field,
 * after checking the value the same way the field editor does.
 */
module ProfileScreen {
  import opened Wrappers
  import opened Text
  import opened ProfileRepo
  import EditProfileField

  const ApiBaseUrl: string := "https://api.belqax.xyz"
  const HttpScheme: string := "http://"
  const HttpsScheme: string := "https://"

  predicate IsAbsolute(url: string)
  {
    StartsWith(url, HttpScheme) || StartsWith(url, HttpsScheme)
  }

  /**
   * `normalizeToAbsoluteUrl`: an absolute URL is kept (trimmed); any other text is a
   * path on the API host, joined to it with exactly one '/'.
   */
  function NormalizeToAbsoluteUrl(url: string): (r: string)
    ensures var t := Trim(url);
      if IsAbsolute(t) then r == t
      else r == ApiBaseUrl + "/" + (if StartsWith(t, "/") then t[1..] else t)
  {
    var trimmed := Trim(url);
    if IsAbsolute(trimmed) then trimmed
    else if StartsWith(trimmed, "/") then
      JoinLeadingSlash(trimmed);
      ApiBaseUrl + trimmed
    else ApiBaseUrl + "/" + trimmed
  }

  /** Appending a path that starts with '/' is appending "/" and the rest of the path. */
  lemma JoinLeadingSlash(path: string)
    requires StartsWith(path, "/")
    ensures ApiBaseUrl + path == ApiBaseUrl + "/" + path[1..]
  {
    assert path == "/" + path[1..];
  }

  /** The API host joined with any path ending in a visible character, or with none, is absolute and trimmed. */
  lemma JoinedIsAbsolute(tail: string)
    requires tail == [] || !IsTrimmable(tail[|tail| - 1])
    ensures IsAbsolute(ApiBaseUrl + "/" + tail) && IsTrimmed(ApiBaseUrl + "/" + tail)
  {
    var r := ApiBaseUrl + "/" + tail;
    assert r[..|HttpsScheme|] == HttpsScheme;
    assert r[0] == 'h';
    if tail != [] {
      assert r[|r| - 1] == tail[|tail| - 1];
    }
  }

  /** The result is always an absolute, trimmed URL. */
  lemma NormalizedIsAbsolute(url: string)
    ensures var r := NormalizeToAbsoluteUrl(url);
      IsAbsolute(r) && IsTrimmed(r)
  {
    var trimmed := Trim(url);
    if !IsAbsolute(trimmed) {
      var tail := if StartsWith(trimmed, "/") then trimmed[1..] else trimmed;
      assert tail != [] ==> tail[|tail| - 1] == trimmed[|trimmed| - 1];
      JoinedIsAbsolute(tail);
    }
  }

  /** A normalised URL normalises to itself. */
  lemma NormalizeIdempotent(url: string)
    ensures NormalizeToAbsoluteUrl(NormalizeToAbsoluteUrl(url)) == NormalizeToAbsoluteUrl(url)
  {
    NormalizedIsAbsolute(url);
    TrimmedIffFixed(NormalizeToAbsoluteUrl(url));
  }

  /** `readLocationForUi`: the city as stored when it is not blank; nothing otherwise. */
  function ReadLocationForUi(profile: ProfileDto): (r: Option<string>)
    ensures r.Some? <==> profile.locationCity.Some? && !IsBlank(profile.locationCity.value)
    ensures r.Some? ==> r == profile.locationCity
  {
    if profile.locationCity.None? || IsBlank(profile.locationCity.value) then None else profile.locationCity
  }

  /** The age text of `bindProfileToUi`: shown only for a positive age, else the placeholder (`None`). */
  function AgeText(age: Option<int>): (r: Option<string>)
    ensures r.Some? <==> age.Some? && age.value > 0
  {
    if age.Some? && age.value > 0 then Some(IntToString(age.value)) else None
  }

  /** A shown age reads back as the age. */
  lemma AgeTextRoundTrip(age: Option<int>)
    requires age.Some? && 0 < age.value <= IntMax
    ensures AgeText(age).Some? && ParseInt(AgeText(age).value) == age
  {
    ParseIntOfIntToString(age.value);
  }

  /** A request that changes nothing: every field null. */
  const NoChange: UpdateProfileRequest :=
    UpdateProfileRequest(None, None, None, None, None, None, None, None, None, None, None, None)

  /** What an update step does: nothing (no profile loaded), refuse with a toast, or send a request. */
  datatype UpdateAttempt = Ignored | Rejected(error: EditProfileField.FieldError) | Send(body: UpdateProfileRequest)

  /** `updateName` once a profile is loaded: a blank name is refused, else only the trimmed name is sent. */
  function NameUpdate(newName: string): (a: UpdateAttempt)
    ensures a.Rejected? <==> IsBlank(newName)
    ensures a.Rejected? ==> a.error == EditProfileField.NameEmpty
    ensures a.Send? ==> a.body == NoChange.(displayName := Some(Trim(newName))) && Trim(newName) != []
    ensures !a.Ignored?
  {
    var trimmed := Trim(newName);
    if trimmed == [] then Rejected(EditProfileField.NameEmpty)
    else Send(NoChange.(displayName := Some(trimmed)))
  }

  /**
   * `updateAgeFromString` once a profile is loaded: an empty text sends a null age,
   * an integer in 1..120 sends that age, anything else is refused.
   */
  function AgeUpdate(ageString: string): (a: UpdateAttempt)
    ensures a.Rejected? <==> !EditProfileField.AgeAccepted(Trim(ageString))
    ensures a.Rejected? ==> a.error == EditProfileField.AgeInvalid
    ensures a.Send? ==> a.body.(age := None) == NoChange
    ensures a.Send? ==> (a.body.age.None? <==> Trim(ageString) == [])
    ensures a.Send? && a.body.age.Some? ==>
      0 < a.body.age.value <= EditProfileField.MaxAge && ParseInt(Trim(ageString)) == a.body.age
    ensures !a.Ignored?
  {
    var trimmed := Trim(ageString);
    if trimmed == [] then Send(NoChange)
    else
      match ParseInt(trimmed)
      case None => Rejected(EditProfileField.AgeInvalid)
      case Some(value) =>
        if value <= 0 || value > EditProfileField.MaxAge then Rejected(EditProfileField.AgeInvalid)
        else Send(NoChange.(age := Some(value)))
  }

  /** `updateAbout` once a profile is loaded: over 512 characters is refused, empty is sent as null. */
  function AboutUpdate(newAbout: string): (a: UpdateAttempt)
    ensures a.Rejected? <==> |Trim(newAbout)| > EditProfileField.AboutMaxLength
    ensures a.Rejected? ==> a.error == EditProfileField.AboutTooLong
    ensures a.Send? ==> a.body.(about := None) == NoChange
    ensures a.Send? ==> a.body.about == TrimToNone(Some(newAbout))
    ensures !a.Ignored?
  {
    var trimmed := Trim(newAbout);
    if |trimmed| > EditProfileField.AboutMaxLength then Rejected(EditProfileField.AboutTooLong)
    else Send(NoChange.(about := if trimmed == [] then None else Some(trimmed)))
  }

  /** The location part of a request: every text normalised, coordinates and confidence as given. */
  predicate CarriesLocation(body: UpdateProfileRequest, p: EditProfileField.LocationPayload)
  {
    body.displayName.None? && body.age.None? && body.about.None? &&
    body.locationFormatted == TrimToNone(p.formatted) && body.locationCity == TrimToNone(p.city) &&
    body.locationState == TrimToNone(p.state) && body.locationCountry == TrimToNone(p.country) &&
    body.locationPostcode == TrimToNone(p.postcode) && body.locationResultType == TrimToNone(p.resultType) &&
    body.locationLat == p.lat && body.locationLon == p.lon && body.locationConfidence == p.confidence
  }

  /**
   * `applyLocationResult` once a profile is loaded: a payload sends all its location
   * fields; without one only the result text is sent, as the address line.
   */
  function LocationUpdate(payload: Option<EditProfileField.LocationPayload>, resultValue: Option<string>): (a: UpdateAttempt)
    ensures a.Send?
    ensures payload.Some? ==> CarriesLocation(a.body, payload.value)
    ensures payload.None? ==> a.body == NoChange.(locationFormatted := TrimToNone(resultValue))
  {
    match payload
    case Some(p) =>
      Send(UpdateProfileRequest(
        None, None, None,
        TrimToNone(p.formatted), TrimToNone(p.city), TrimToNone(p.state), TrimToNone(p.country), TrimToNone(p.postcode),
        p.lat, p.lon,
        TrimToNone(p.resultType), p.confidence))
    case None => Send(NoChange.(locationFormatted := TrimToNone(resultValue)))
  }

  /** A name the editor saved is sent unchanged. */
  lemma EditorNameIsSent(input: string)
    requires EditProfileField.Save(Some(EditProfileField.FieldName), input, None).Saved?
    ensures var v := EditProfileField.Save(Some(EditProfileField.FieldName), input, None).value;
      NameUpdate(v) == Send(NoChange.(displayName := Some(v)))
  {
    TrimIdempotent(input);
  }

  /** An age the editor saved is never refused here: it is sent as the number it spells, or as null. */
  lemma EditorAgeIsSent(input: string)
    requires EditProfileField.Save(Some(EditProfileField.FieldAge), input, None).Saved?
    ensures var v := EditProfileField.Save(Some(EditProfileField.FieldAge), input, None).value;
      AgeUpdate(v).Send? && AgeUpdate(v).body.age == (if v == [] then None else ParseInt(v))
  {
    TrimIdempotent(input);
  }

  /** An about text the editor saved is never refused here. */
  lemma EditorAboutIsSent(input: string)
    requires EditProfileField.Save(Some(EditProfileField.FieldAbout), input, None).Saved?
    ensures var v := EditProfileField.Save(Some(EditProfileField.FieldAbout), input, None).value;
      AboutUpdate(v) == Send(NoChange.(about := if v == [] then None else Some(v)))
  {
    TrimIdempotent(input);
  }

  /** A payload the editor built is already normalised: the request carries its fields exactly. */
  lemma EditorPayloadIsSentAsIs(p: EditProfileField.LocationPayload, resultValue: Option<string>)
    requires EditProfileField.CleanPayload(p)
    ensures var b := LocationUpdate(Some(p), resultValue).body;
      b.locationFormatted == p.formatted && b.locationCity == p.city && b.locationState == p.state &&
      b.locationCountry == p.country && b.locationPostcode == p.postcode && b.locationResultType == p.resultType &&
      b.locationLat == p.lat && b.locationLon == p.lon && b.locationConfidence == p.confidence
  {
    EditProfileField.TrimToNoneCleans(p.formatted);
    EditProfileField.TrimToNoneCleans(p.city);
    EditProfileField.TrimToNoneCleans(p.state);
    EditProfileField.TrimToNoneCleans(p.country);
    EditProfileField.TrimToNoneCleans(p.postcode);
    EditProfileField.TrimToNoneCleans(p.resultType);
  }

  class ProfileFragment {
    var currentMe: Option<MeResponse>

    /** `onViewCreated`: the cached profile, if any, is shown until the load returns. */
    constructor (cached: Option<MeResponse>)
      ensures currentMe == cached
    {
      currentMe := cached;
    }

    /** The update steps act only when a profile with its profile part is loaded. */
    predicate HasProfile()
      reads this
    {
      currentMe.Some? && currentMe.value.profile.Some?
    }

    method UpdateName(newName: string) returns (a: UpdateAttempt)
      ensures !HasProfile() ==> a == Ignored
      ensures HasProfile() ==> a == NameUpdate(newName)
    {
      if currentMe.None? || currentMe.value.profile.None? {
        return Ignored;
      }
      var trimmed := Trim(newName);
      if trimmed == [] {
        return Rejected(EditProfileField.NameEmpty);
      }
      a := Send(NoChange.(displayName := Some(trimmed)));
    }

    method UpdateAgeFromString(ageString: string) returns (a: UpdateAttempt)
      ensures !HasProfile() ==> a == Ignored
      ensures HasProfile() ==> a == AgeUpdate(ageString)
    {
      if currentMe.None? || currentMe.value.profile.None? {
        return Ignored;
      }
      var age: Option<int> := None;
      var trimmed := Trim(ageString);
      if trimmed != [] {
        var parsed := ParseInt(trimmed);
        if parsed.None? {
          return Rejected(EditProfileField.AgeInvalid);
        }
        if parsed.value <= 0 || parsed.value > EditProfileField.MaxAge {
          return Rejected(EditProfileField.AgeInvalid);
        }
        age := parsed;
      }
      a := Send(NoChange.(age := age));
    }

    method UpdateAbout(newAbout: string) returns (a: UpdateAttempt)
      ensures !HasProfile() ==> a == Ignored
      ensures HasProfile() ==> a == AboutUpdate(newAbout)
    {
      if currentMe.None? || currentMe.value.profile.None? {
        return Ignored;
      }
      var trimmed := Trim(newAbout);
      if |trimmed| > EditProfileField.AboutMaxLength {
        return Rejected(EditProfileField.AboutTooLong);
      }
      a := Send(NoChange.(about := if trimmed == [] then None else Some(trimmed)));
    }

    method ApplyLocationResult(payload: Option<EditProfileField.LocationPayload>, resultValue: Option<string>)
      returns (a: UpdateAttempt)
      ensures !HasProfile() ==> a == Ignored
      ensures HasProfile() ==> a == LocationUpdate(payload, resultValue)
    {
      if currentMe.None? || currentMe.value.profile.None? {
        return Ignored;
      }
      a := LocationUpdate(payload, resultValue);
    }

    /**
     * The editor's result callback: a cancelled edit, a missing field type or (except for
     * a location) a missing value does nothing; name, age, about and location go to their
     * update step; any other field type is ignored.
     */
    method OnEditResult(
      resultOk: bool, fieldType: Option<string>, resultValue: Option<string>,
      payload: Option<EditProfileField.LocationPayload>)
      returns (a: UpdateAttempt)
      ensures !resultOk || fieldType.None? ==> a == Ignored
      ensures resultOk && fieldType == Some(EditProfileField.FieldLocation) ==>
        a == (if HasProfile() then LocationUpdate(payload, resultValue) else Ignored)
      ensures resultOk && fieldType.Some? && fieldType.value != EditProfileField.FieldLocation && resultValue.None? ==>
        a == Ignored
      ensures resultOk && fieldType == Some(EditProfileField.FieldName) && resultValue.Some? ==>
        a == (if HasProfile() then NameUpdate(resultValue.value) else Ignored)
      ensures resultOk && fieldType == Some(EditProfileField.FieldAge) && resultValue.Some? ==>
        a == (if HasProfile() then AgeUpdate(resultValue.value) else Ignored)
      ensures resultOk && fieldType == Some(EditProfileField.FieldAbout) && resultValue.Some? ==>
        a == (if HasProfile() then AboutUpdate(resultValue.value) else Ignored)
      ensures fieldType.Some? && !EditProfileField.IsKnownField(fieldType.value) ==> a == Ignored
    {
      if !resultOk || fieldType.None? {
        return Ignored;
      }
      var t := fieldType.value;
      if t == EditProfileField.FieldLocation {
        a := ApplyLocationResult(payload, resultValue);
        return;
      }
      if resultValue.None? {
        return Ignored;
      }
      if t == EditProfileField.FieldName {
        a := UpdateName(resultValue.value);
      } else if t == EditProfileField.FieldAge {
        a := UpdateAgeFromString(resultValue.value);
      } else if t == EditProfileField.FieldAbout {
        a := UpdateAbout(resultValue.value);
      } else {
        a := Ignored;
      }
    }

    /** A successful update replaces the shown profile with the reply. */
    method OnUpdateSuccess(me: MeResponse)
      modifies this
      ensures currentMe == Some(me)
    {
      currentMe := Some(me);
    }
  }
}
