/**
 * AddressRepository: `GET addresses/autocomplete` and the mapping of its outcome to
 * either a suggestion list or an `AddressError`.
 */
module AddressRepo {
  import opened Wrappers
  import opened Text
  import Http

  const BadRequestMessage: string := "Некорректный запрос к подсказкам адресов."
  const SessionMessage: string := "Сессия недействительна. Попробуйте войти снова."
  const UnavailableMessage: string := "Сервис подсказок адресов временно недоступен."
  const GenericPrefix: string := "Ошибка подсказок адреса ("
  const HttpPrefix: string := "Ошибка HTTP "
  const NetworkMessage: string := "Ошибка сети при запросе подсказок адреса. Проверьте подключение к интернету."

  /** One suggestion; coordinates are passed through, never computed on. */
  datatype SuggestionDto = SuggestionDto(
    formatted: Option<string>,
    lat: Option<real>,
    lon: Option<real>,
    country: Option<string>,
    state: Option<string>,
    city: Option<string>,
    postcode: Option<string>,
    resultType: Option<string>,
    confidence: Option<real>)

  /** The body of a successful reply; the suggestion list may be absent and may hold nulls. */
  datatype AutocompleteResponse = AutocompleteResponse(
    queryText: Option<string>, suggestions: Option<seq<Option<SuggestionDto>>>)

  datatype AddressError = AddressError(
    httpCode: int, message: string, networkError: bool, unauthorized: bool, rawBody: Option<string>)

  /** `mapHttpError`: the message picked by 400, then 401/403, then 5xx, else a generic one with the code. */
  function MapHttpError(code: int, rawBody: Option<string>): (e: AddressError)
    ensures e.httpCode == code && e.rawBody == rawBody && !e.networkError
    ensures e.unauthorized <==> Http.IsUnauthorized(code)
    ensures code == 400 ==> e.message == BadRequestMessage
    ensures Http.IsUnauthorized(code) ==> e.message == SessionMessage
    ensures code >= 500 ==> e.message == UnavailableMessage
    ensures code != 400 && !Http.IsUnauthorized(code) && code < 500 ==>
      e.message == GenericPrefix + IntToString(code) + ")"
  {
    var message :=
      if code == 400 then BadRequestMessage
      else if code == 401 || code == 403 then SessionMessage
      else if code >= 500 then UnavailableMessage
      else GenericPrefix + IntToString(code) + ")";
    AddressError(code, message, false, code == 401 || code == 403, rawBody)
  }

  /** `mapNetworkError`: always a network error; an `HttpException` keeps its code, anything else is code 0. */
  function MapNetworkError(t: Http.Failure): (e: AddressError)
    ensures e.networkError && e.rawBody.None?
    ensures t.HttpException? ==>
      e.httpCode == t.code && e.message == HttpPrefix + IntToString(t.code) &&
      (e.unauthorized <==> Http.IsUnauthorized(t.code))
    ensures t.OtherFailure? ==> e.httpCode == 0 && e.message == NetworkMessage && !e.unauthorized
  {
    match t
    case HttpException(code) => AddressError(code, HttpPrefix + IntToString(code), true, code == 401 || code == 403, None)
    case OtherFailure => AddressError(0, NetworkMessage, true, false, None)
  }

  /** The two mappers agree on the code and on `unauthorized`, and differ exactly in `networkError`. */
  lemma HttpErrorAndExceptionAgree(code: int, rawBody: Option<string>)
    ensures var a, b := MapHttpError(code, rawBody), MapNetworkError(Http.HttpException(code));
      a.httpCode == b.httpCode && a.unauthorized == b.unauthorized && !a.networkError && b.networkError
  {
  }

  /** What Retrofit reports: a reply (code, parsed body, error body text) or a thrown failure. */
  datatype Outcome =
    | Responded(code: int, body: Option<AutocompleteResponse>, errorText: Option<string>)
    | Failed(failure: Http.Failure)

  datatype SuggestionsResult = Suggestions(items: seq<Option<SuggestionDto>>) | Error(error: AddressError)

  /**
   * `autocomplete`'s callback. A 2xx reply with a body succeeds, a missing list becoming
   * the empty list; a 2xx reply without a body goes through `mapHttpError` like any other.
   */
  function Autocomplete(outcome: Outcome): (r: SuggestionsResult)
    ensures r.Suggestions? <==> outcome.Responded? && Http.IsSuccessful(outcome.code) && outcome.body.Some?
    ensures r.Suggestions? && outcome.body.value.suggestions.None? ==> r.items == []
    ensures r.Suggestions? && outcome.body.value.suggestions.Some? ==> r.items == outcome.body.value.suggestions.value
    ensures r.Error? && outcome.Responded? ==> r.error == MapHttpError(outcome.code, outcome.errorText)
    ensures r.Error? && outcome.Failed? ==> r.error == MapNetworkError(outcome.failure)
  {
    match outcome
    case Responded(code, body, errorText) =>
      if Http.IsSuccessful(code) && body.Some? then Suggestions(body.value.suggestions.GetOr([]))
      else Error(MapHttpError(code, errorText))
    case Failed(t) => Error(MapNetworkError(t))
  }

  /** A reported error is a network error exactly when the call failed rather than got a reply. */
  lemma NetworkErrorIffFailed(outcome: Outcome)
    requires Autocomplete(outcome).Error?
    ensures Autocomplete(outcome).error.networkError <==> outcome.Failed?
  {
  }
}
