/**
 * ProfileRepository: the `/users/me` calls. Every call shares one reply rule: a 2xx
 * reply with a body is cached and then handed to the caller; anything else becomes a
 * `ProfileError`, and the cache is left alone.
 */
module ProfileRepo {
  import opened Wrappers
  import opened Text
  import Http

  const SessionMessage: string := "Сессия недействительна. Попробуйте войти снова."
  const ServerMessage: string := "Ошибка сервера. Попробуйте позже."
  const ValidationMessage: string := "Данные профиля не прошли валидацию."
  const RequestPrefix: string := "Ошибка запроса ("
  const HttpPrefix: string := "Ошибка HTTP "
  const NetworkMessage: string := "Ошибка сети. Проверьте подключение к интернету."
  const FilePartMessage: string := "Не удалось подготовить файл для загрузки."

  /** `ProfileDto`; null fields are `None`, doubles are reals that are only passed along. */
  datatype ProfileDto = ProfileDto(
    displayName: Option<string>,
    age: Option<int>,
    about: Option<string>,
    locationFormatted: Option<string>,
    locationCity: Option<string>,
    locationState: Option<string>,
    locationCountry: Option<string>,
    locationPostcode: Option<string>,
    lat: Option<real>,
    lon: Option<real>,
    resultType: Option<string>,
    confidence: Option<real>,
    avatarUrl: Option<string>)

  /** The user, privacy and settings parts of the reply, kept as their JSON text: nothing here reads them. */
  datatype Section = Section(json: string)

  datatype MeResponse = MeResponse(
    user: Option<Section>, profile: Option<ProfileDto>, privacy: Option<Section>, settings: Option<Section>)

  /** `UpdateProfileRequest`: a `None` field is sent as null. */
  datatype UpdateProfileRequest = UpdateProfileRequest(
    displayName: Option<string>,
    age: Option<int>,
    about: Option<string>,
    locationFormatted: Option<string>,
    locationCity: Option<string>,
    locationState: Option<string>,
    locationCountry: Option<string>,
    locationPostcode: Option<string>,
    locationLat: Option<real>,
    locationLon: Option<real>,
    locationResultType: Option<string>,
    locationConfidence: Option<real>)

  /** `ProfileError`; `hasCause` says whether a throwable is attached. */
  datatype ProfileError = ProfileError(
    httpCode: int, message: string, networkError: bool, unauthorized: bool,
    rawBody: Option<string>, hasCause: bool)

  /** `mapHttpError`: the message picked by 401/403, then 5xx, then 422, else a generic one with the code. */
  function MapHttpError(code: int, rawBody: Option<string>): (e: ProfileError)
    ensures e.httpCode == code && e.rawBody == rawBody && !e.networkError && !e.hasCause
    ensures e.unauthorized <==> Http.IsUnauthorized(code)
    ensures Http.IsUnauthorized(code) ==> e.message == SessionMessage
    ensures !Http.IsUnauthorized(code) && code >= 500 ==> e.message == ServerMessage
    ensures code == 422 ==> e.message == ValidationMessage
    ensures !Http.IsUnauthorized(code) && code < 500 && code != 422 ==>
      e.message == RequestPrefix + IntToString(code) + ")"
  {
    var unauthorized := code == 401 || code == 403;
    var message :=
      if unauthorized then SessionMessage
      else if code >= 500 then ServerMessage
      else if code == 422 then ValidationMessage
      else RequestPrefix + IntToString(code) + ")";
    ProfileError(code, message, false, unauthorized, rawBody, false)
  }

  /** `mapNetworkError`: always a network error with its cause; an `HttpException` keeps its code. */
  function MapNetworkError(t: Http.Failure): (e: ProfileError)
    ensures e.networkError && e.rawBody.None? && e.hasCause
    ensures t.HttpException? ==>
      e.httpCode == t.code && e.message == HttpPrefix + IntToString(t.code) &&
      (e.unauthorized <==> Http.IsUnauthorized(t.code))
    ensures t.OtherFailure? ==> e.httpCode == 0 && e.message == NetworkMessage && !e.unauthorized
  {
    match t
    case HttpException(code) => ProfileError(code, HttpPrefix + IntToString(code), true, code == 401 || code == 403, None, true)
    case OtherFailure => ProfileError(0, NetworkMessage, true, false, None, true)
  }

  /** The two mappers agree on the code and on `unauthorized`, and differ exactly in `networkError`. */
  lemma HttpErrorAndExceptionAgree(code: int, rawBody: Option<string>)
    ensures var a, b := MapHttpError(code, rawBody), MapNetworkError(Http.HttpException(code));
      a.httpCode == b.httpCode && a.unauthorized == b.unauthorized && !a.networkError && b.networkError
  {
  }

  /** What Retrofit reports for one call: a reply (code, parsed body, error body text) or a thrown failure. */
  datatype Outcome =
    | Responded(code: int, body: Option<MeResponse>, errorText: Option<string>)
    | Failed(failure: Http.Failure)

  datatype ProfileResult = Loaded(me: MeResponse) | Error(error: ProfileError)

  /** The result the callback receives for an outcome. */
  function ResultOf(outcome: Outcome): (r: ProfileResult)
    ensures r.Loaded? <==> outcome.Responded? && Http.IsSuccessful(outcome.code) && outcome.body.Some?
    ensures r.Loaded? ==> r.me == outcome.body.value
    ensures r.Error? && outcome.Responded? ==> r.error == MapHttpError(outcome.code, outcome.errorText)
    ensures r.Error? && outcome.Failed? ==> r.error == MapNetworkError(outcome.failure)
  {
    match outcome
    case Responded(code, body, errorText) =>
      if Http.IsSuccessful(code) && body.Some? then Loaded(body.value) else Error(MapHttpError(code, errorText))
    case Failed(t) => Error(MapNetworkError(t))
  }

  /** An error is a network error exactly when the call failed rather than got a reply. */
  lemma NetworkErrorIffFailed(outcome: Outcome)
    requires ResultOf(outcome).Error?
    ensures ResultOf(outcome).error.networkError <==> outcome.Failed?
  {
  }

  class ProfileRepository {
    /** The profile `ProfileStorage` holds, if any. */
    var cached: Option<MeResponse>

    constructor (cached: Option<MeResponse>)
      ensures this.cached == cached
    {
      this.cached := cached;
    }

    /** `getCachedProfile`. */
    method GetCachedProfile() returns (me: Option<MeResponse>)
      ensures me == cached
    {
      me := cached;
    }

    /**
     * The reply handling shared by `loadProfile`, `updateProfile`, `updatePrivacy`,
     * `updateSettings`, `uploadAvatar` and `deleteAvatar`: a loaded profile is cached
     * before the callback sees it; an error leaves the cache as it was.
     */
    method OnOutcome(outcome: Outcome) returns (r: ProfileResult)
      modifies this
      ensures r == ResultOf(outcome)
      ensures r.Loaded? ==> cached == Some(r.me)
      ensures r.Error? ==> cached == old(cached)
    {
      match outcome {
        case Responded(code, body, errorText) =>
          if Http.IsSuccessful(code) && body.Some? {
            cached := body;
            r := Loaded(body.value);
          } else {
            r := Error(MapHttpError(code, errorText));
          }
        case Failed(t) =>
          r := Error(MapNetworkError(t));
      }
    }

    /**
     * `uploadAvatar`: a file part without a body is refused on the spot (nothing is sent,
     * the cache is untouched); otherwise the reply is handled like any other.
     */
    method UploadAvatar(partHasBody: bool, outcome: Outcome) returns (sent: bool, r: ProfileResult)
      modifies this
      ensures sent <==> partHasBody
      ensures !partHasBody ==>
        r == Error(ProfileError(0, FilePartMessage, true, false, None, false)) && cached == old(cached)
      ensures partHasBody ==> r == ResultOf(outcome)
      ensures r.Error? ==> cached == old(cached)
      ensures r.Loaded? ==> cached == Some(r.me)
    {
      if !partHasBody {
        return false, Error(ProfileError(0, FilePartMessage, true, false, None, false));
      }
      sent := true;
      r := OnOutcome(outcome);
    }

    /** `clearProfile`: the stored profile is dropped. */
    method ClearProfile()
      modifies this
      ensures cached.None?
    {
      cached := None;
    }
  }
}
